/** The widget's script, with the colour-filter radio sync corrected (see `Controls.SyncControl`):
    the module-level `state`, the browser store, the
    parts of the host document it writes, and the panel's elements, all updated in place by the
    action handlers. Every method is proved against the functions of modules Settings, Styles,
    Controls and Overlays. */
module Widget {
  import opened JsValues
  import opened Settings
  import opened Styles
  import opened Controls
  import opened Overlays
  import StylesLaws
  import ControlsLaws
  import SettingsLaws

  class A11yWidget {
    var state: State

    // The browser store: whether it can be used at all, and its entry 'a11y-settings'.
    var storageAvailable: bool
    var stored: Option<Entry>
    ghost var saves: nat   // how many times saveSettings ran

    // The parts of the host document the widget writes, and the `muted` flag of every audio
    // and video element.
    var page: Page
    var media: array<bool>

    // The toggle button and the panel.
    var ariaExpanded: bool
    var panelMounted: bool
    var panelRight: int
    var sliders: Sliders
    var controls: array<Control>   // the panel's checkboxes and radios, in document order
    var headers: array<Header>     // the section headers, in document order
    var bodies: SectionBodies
    var maskOptionsShown: bool     // #mask-opacity-control
    var guideOptionsShown: bool    // #guide-color-control

    /** The script's module state before `init` runs: the initial settings and UI flags, no
        panel yet, the host document and the store as they are. The panel's markup is not
        modelled: its inputs and section headers are given, to be mounted by `Init`. */
    constructor (host: Page, hostMedia: array<bool>, available: bool, entry: Option<Entry>,
                 panelControls: array<Control>, panelHeaders: array<Header>)
      ensures state == InitialState()
      ensures storageAvailable == available && stored == entry && saves == 0
      ensures page == host && media == hostMedia && controls == panelControls && headers == panelHeaders
      ensures !panelMounted && !ariaExpanded
    {
      state := InitialState();
      storageAvailable, stored, saves := available, entry, 0;
      page, media := host, hostMedia;
      ariaExpanded, panelMounted, panelRight := false, false, PanelRight(false);
      sliders := Sliders(Undefined, Undefined, Undefined, Undefined);
      controls, headers := panelControls, panelHeaders;
      bodies := SectionBodies(true, true, true);
      maskOptionsShown, guideOptionsShown := false, false;
    }

    /** `init`: load the stored settings, create the panel and the two overlays, then apply the
        styles, which brings every control of the new panel in line with the loaded state. */
    method Init()
      modifies this`state, this`panelMounted, this`panelRight, this`ariaExpanded, this`page,
               this`maskOptionsShown, this`guideOptionsShown, media, this`sliders, this`bodies, controls, headers
      ensures state == Loaded(old(state), storageAvailable, stored)
      ensures panelMounted && panelRight == PanelRight(false) && !ariaExpanded
      ensures maskOptionsShown == Truthy(Get(state, ReadingMask)) && guideOptionsShown == Truthy(Get(state, ReadingGuide))
      ensures page == Render(old(page).(mask := Some(Mask(Truthy(Get(state, ReadingMask)), Get(state, MaskOpacity), None)),
                                        guide := Some(Guide(Truthy(Get(state, ReadingGuide)), Yellow, None))), state)
      ensures media == old(media) && media[..] == MutedMedia(old(media[..]), state)
      ensures ControlsUpdated()
    {
      LoadSettings();
      MountPanel();
    }

    /** The rest of `init` once the settings are loaded: create the elements, then apply the
        styles to the document and to the new panel. */
    method MountPanel()
      modifies this`panelMounted, this`panelRight, this`ariaExpanded, this`page,
               this`maskOptionsShown, this`guideOptionsShown, media, this`sliders, this`bodies, controls, headers
      ensures panelMounted && panelRight == PanelRight(false) && !ariaExpanded
      ensures maskOptionsShown == Truthy(Get(state, ReadingMask)) && guideOptionsShown == Truthy(Get(state, ReadingGuide))
      ensures page == Render(old(page).(mask := Some(Mask(Truthy(Get(state, ReadingMask)), Get(state, MaskOpacity), None)),
                                        guide := Some(Guide(Truthy(Get(state, ReadingGuide)), Yellow, None))), state)
      ensures media == old(media) && media[..] == MutedMedia(old(media[..]), state)
      ensures ControlsUpdated()
    {
      CreateElements();
      ApplyStyles();
    }

    /** `createWidgetElements`, as far as the state is concerned: the panel is mounted off screen,
        the option rows of the mask and guide follow their settings, and the two overlays are
        created hidden or shown after the state, the guide in yellow. */
    method CreateElements()
      modifies this`panelMounted, this`panelRight, this`ariaExpanded, this`page,
               this`maskOptionsShown, this`guideOptionsShown
      ensures panelMounted && panelRight == PanelRight(false) && !ariaExpanded
      ensures page == old(page).(mask := Some(Mask(Truthy(Get(state, ReadingMask)), Get(state, MaskOpacity), None)),
                                 guide := Some(Guide(Truthy(Get(state, ReadingGuide)), Yellow, None)))
      ensures maskOptionsShown == Truthy(Get(state, ReadingMask))
      ensures guideOptionsShown == Truthy(Get(state, ReadingGuide))
    {
      ariaExpanded, panelMounted, panelRight := false, true, -320;
      maskOptionsShown := Truthy(Get(state, ReadingMask));
      guideOptionsShown := Truthy(Get(state, ReadingGuide));
      page := page.(mask := Some(Mask(Truthy(Get(state, ReadingMask)), Get(state, MaskOpacity), None)),
                    guide := Some(Guide(Truthy(Get(state, ReadingGuide)), Yellow, None)));
    }

    // ----- the settings store -----

    /** `loadSettings`. */
    method LoadSettings()
      modifies this`state
      ensures state == Loaded(old(state), storageAvailable, stored)
    {
      if storageAvailable && stored.Some? && stored.value.Saved? {
        state := Merge(state, stored.value.fields);
      }
    }

    /** `saveSettings`. */
    method SaveSettings()
      modifies this`stored, this`saves
      ensures stored == StoredAfterSave(state, storageAvailable, old(stored))
      ensures saves == old(saves) + 1
    {
      if storageAvailable {
        stored := Some(Saved(SavedPayload(state)));
      }
      saves := saves + 1;
    }

    // ----- style reconciliation -----

    /** The style elements left once every `.a11y-dynamic-style` element is removed, in order. */
    static method RemoveDynamicStyles(found: seq<StyleElement>) returns (kept: seq<StyleElement>)
      ensures kept == WithoutDynamic(found)
    {
      kept := [];
      var i := 0;
      while i < |found|
        invariant 0 <= i <= |found|
        invariant kept == WithoutDynamic(found[..i])
      {
        assert found[..i + 1] == found[..i] + [found[i]];
        StylesLaws.WithoutDynamicAppend(found[..i], [found[i]]);
        if found[i].Other? {
          kept := kept + [found[i]];
        }
        i := i + 1;
      }
      assert found[..i] == found;
    }

    /** The body's classes after the font-family step and then the colour-theme step. */
    static method ReconcileBodyClasses(classes: set<string>, s: State) returns (r: set<string>)
      ensures r == ReconcileClasses(classes, s)
    {
      r := classes - FontClasses;
      var family := Get(s, FontFamily);
      if family == Str("readable") {
        r := r + {"font-readable"};
      } else if family == Str("dyslexic") {
        r := r + {"font-dyslexic"};
      }
      assert r == (classes - FontClasses) + OptionSet(FontClass(family));
      r := r - ThemeClasses;
      var theme := Get(s, ColorTheme);
      if theme != Str("default") {
        r := r + {"a11y-" + ToText(theme)};
      }
    }

    /** The rules appended as dynamic style elements: saturation, colour filter, hidden images,
        stopped animations, each when its setting asks for it, in that order. */
    static method InjectedRules(s: State) returns (added: seq<Rule>)
      ensures added == Rules(s)
    {
      added := [];
      if Get(s, Saturation) != Num(100) {
        added := added + [SaturationRule];
      }
      ghost var a := added;
      var filter := Get(s, ColorFilter);
      if Truthy(filter) {
        added := added + [FilterRule(FilterCss(ToText(filter)))];
      }
      ghost var b := added;
      if Truthy(Get(s, HideImages)) {
        added := added + [HideImagesRule];
      }
      ghost var c := added;
      if Truthy(Get(s, StopAnimations)) {
        added := added + [StopAnimationsRule];
      }
      assert a == Include(Get(s, Saturation) != Num(100), SaturationRule);
      assert b == a + Include(Truthy(filter), FilterRule(FilterCss(ToText(filter))));
      assert c == b + Include(Truthy(Get(s, HideImages)), HideImagesRule);
      assert added == c + Include(Truthy(Get(s, StopAnimations)), StopAnimationsRule);
    }

    /** Everything `applyStyles` does to the document: the dynamic styles are removed, the root
        properties and body styles set, the classes reconciled, the SVG filter definitions
        created when a filter is set and they are absent, the rules appended and the two overlays
        updated. */
    method ApplyToPage()
      modifies this`page
      ensures page == Render(old(page), state)
    {
      var kept := RemoveDynamicStyles(page.styles);
      var classes := ReconcileBodyClasses(page.bodyClasses, state);
      var nodes := page.filterNodes;
      if Truthy(Get(state, ColorFilter)) && nodes == 0 {
        nodes := 1;
      }
      var rules := InjectedRules(state);
      var mask := page.mask;
      if mask.Some? {
        mask := Some(mask.value.(shown := Truthy(Get(state, ReadingMask)), opacity := Get(state, MaskOpacity)));
      }
      var guide := page.guide;
      if guide.Some? {
        guide := Some(guide.value.(shown := Truthy(Get(state, ReadingGuide)),
                                   color := GuideColorCss(ToText(Get(state, GuideColor)))));
      }
      page := Page(
        bodyClasses := classes,
        styles := kept + Dynamics(rules),
        filterNodes := nodes,
        root := RootVars(Get(state, FontSize), Get(state, LineSpacing), Get(state, Saturation)),
        body := BodyStyle(FontSizeCss, LineHeightCss, Get(state, TextAlignment), FontStack(Get(state, FontFamily))),
        mask := mask,
        guide := guide);
    }

    /** `muteSound`: set `muted` on every media element currently in the document. */
    method MuteMedia()
      modifies media
      ensures media[..] == MutedMedia(old(media[..]), state)
    {
      if Truthy(Get(state, MuteSound)) {
        var i := 0;
        while i < media.Length
          invariant 0 <= i <= media.Length
          invariant forall j :: 0 <= j < i ==> media[j]
        {
          media[i] := true;
          i := i + 1;
        }
      }
    }

    /** Every checkbox and radio of the panel takes its state. */
    method SyncInputs()
      modifies controls
      ensures forall j :: 0 <= j < controls.Length ==> controls[j] == SyncControl(old(controls[j]), state)
    {
      var i := 0;
      while i < controls.Length
        invariant 0 <= i <= controls.Length
        invariant forall j :: 0 <= j < i ==> controls[j] == SyncControl(old(controls[j]), state)
        invariant forall j :: i <= j < controls.Length ==> controls[j] == old(controls[j])
      {
        controls[i] := SyncControl(controls[i], state);
        i := i + 1;
      }
    }

    /** Every section header takes its icon, and the body of the section it names its display. */
    method SyncSections()
      modifies this`bodies, headers
      ensures forall j :: 0 <= j < headers.Length ==> headers[j] == SyncHeader(old(headers[j]), state)
      ensures bodies == SyncBodies(old(bodies), old(headers[..]), state)
    {
      ghost var h0 := headers[..];
      ghost var b0 := bodies;
      var k := 0;
      while k < headers.Length
        invariant 0 <= k <= headers.Length
        invariant forall j :: 0 <= j < k ==> headers[j] == SyncHeader(h0[j], state)
        invariant forall j :: k <= j < headers.Length ==> headers[j] == h0[j]
        invariant bodies == SyncBodies(b0, h0[..k], state)
      {
        var h := headers[k];
        assert h0[..k + 1] == h0[..k] + [h];
        ControlsLaws.SyncBodiesSnoc(b0, h0[..k], h, state);
        bodies := SyncBody(bodies, h, state);
        headers[k] := SyncHeader(h, state);
        k := k + 1;
      }
      assert h0[..headers.Length] == h0;
    }

    /** Between the two states, `updateControlsState` has run: once the panel exists, the
        sliders show the state, every input and header is reconciled in place and every section
        body follows the header loop; before, nothing of the panel has changed. */
    twostate predicate ControlsUpdated()
      reads this, controls, headers
    {
      controls == old(controls) && headers == old(headers) &&
      (panelMounted ==>
         sliders == SyncSliders(state) &&
         (forall j :: 0 <= j < controls.Length ==> controls[j] == SyncControl(old(controls[j]), state)) &&
         (forall j :: 0 <= j < headers.Length ==> headers[j] == SyncHeader(old(headers[j]), state)) &&
         bodies == SyncBodies(old(bodies), old(headers[..]), state)) &&
      (!panelMounted ==> sliders == old(sliders) && bodies == old(bodies) && unchanged(controls, headers))
    }

    /** Between the two states, `applyStyles` has run: the page is rendered from the state, the
        media are muted when muting is on, and the panel's controls are updated. */
    twostate predicate StylesApplied()
      reads this, media, controls, headers
    {
      page == Render(old(page), state) &&
      media == old(media) && media[..] == MutedMedia(old(media[..]), state) &&
      ControlsUpdated()
    }

    /** Between the two states, nothing the handlers write has changed. */
    twostate predicate Untouched()
      reads this, media, controls, headers
    {
      state == old(state) && stored == old(stored) && saves == old(saves) && page == old(page) &&
      sliders == old(sliders) && bodies == old(bodies) &&
      media == old(media) && controls == old(controls) && headers == old(headers) &&
      unchanged(media, controls, headers)
    }

    /** `updateControlsState`: sliders, then every checkbox and radio, then every section header
        and the section body it governs. Nothing happens before the panel exists. */
    method UpdateControlsState()
      modifies this`sliders, this`bodies, controls, headers
      ensures ControlsUpdated()
    {
      if panelMounted {
        sliders := SyncSliders(state);
        SyncInputs();
        SyncSections();
      }
    }

    /** `applyStyles`: the document, then the media elements, then the panel's controls. */
    method ApplyStyles()
      modifies this`page, media, this`sliders, this`bodies, controls, headers
      ensures StylesApplied()
    {
      ApplyToPage();
      MuteMedia();
      UpdateControlsState();
    }

    // ----- action handlers -----

    /** The toggle button: `togglePanel`, then `aria-expanded` follows the flag. */
    method ButtonClicked()
      modifies this`state, this`panelRight, this`ariaExpanded
      ensures state == TogglePanel(old(state))
      ensures PanelOpen(state) == !PanelOpen(old(state))
      ensures panelMounted ==> panelRight == PanelRight(PanelOpen(state))
      ensures !panelMounted ==> panelRight == old(panelRight)
      ensures ariaExpanded == PanelOpen(state)
    {
      state := TogglePanel(state);
      if panelMounted {
        panelRight := if Truthy(Get(state, IsPanelOpen)) then 0 else -320;
      }
      ariaExpanded := PanelOpen(state);
    }

    /** The close button: the panel is closed whatever it was. */
    method CloseClicked()
      modifies this`state, this`panelRight, this`ariaExpanded
      ensures state == ClosePanel(old(state)) && !PanelOpen(state)
      ensures panelRight == PanelRight(false) && !ariaExpanded
    {
      state := ClosePanel(state);
      panelRight := -320;
      ariaExpanded := false;
    }

    /** `toggleSection`: flip the named section's flag, then reconcile the controls. */
    method ToggleSection(name: string)
      modifies this`state, this`sliders, this`bodies, controls, headers
      ensures state == Settings.ToggleSection(old(state), name)
      ensures ControlsUpdated()
    {
      state := Settings.ToggleSection(state, name);
      UpdateControlsState();
    }

    /** A section header's click: toggles the section its non-empty `data-section` names;
        without one nothing happens. */
    method HeaderClicked(section: Option<string>)
      modifies this`state, this`sliders, this`bodies, controls, headers
      ensures section.None? || section.value == "" ==> Untouched()
      ensures section.Some? && section.value != "" ==>
                state == Settings.ToggleSection(old(state), section.value) && ControlsUpdated()
    {
      if section.Some? && section.value != "" {
        ToggleSection(section.value);
      }
    }

    /** Save, then apply: the tail every persisting handler shares. */
    method SaveAndApply()
      modifies this`stored, this`saves, this`page, media, this`sliders, this`bodies, controls, headers
      ensures stored == StoredAfterSave(state, storageAvailable, old(stored)) && saves == old(saves) + 1
      ensures StylesApplied()
    {
      SaveSettings();
      ApplyStyles();
    }

    /** `resetAllSettings`: defaults over the state, one save, then the styles. */
    method ResetAllSettings()
      modifies this`state, this`stored, this`saves, this`page, media, this`sliders, this`bodies, controls, headers
      ensures state == Reset(old(state))
      ensures stored == StoredAfterSave(state, storageAvailable, old(stored)) && saves == old(saves) + 1
      ensures StylesApplied()
    {
      state := Reset(state);
      SaveAndApply();
    }

    /** The document's keydown listener: Alt with exactly 'l' resets; any other key changes
        nothing. The panel is not touched either way. */
    method KeyDown(altKey: bool, key: string)
      modifies this`state, this`stored, this`saves, this`page, media, this`sliders, this`bodies, controls, headers
      ensures IsResetShortcut(altKey, key) ==>
                state == Reset(old(state)) &&
                stored == StoredAfterSave(state, storageAvailable, old(stored)) && saves == old(saves) + 1 &&
                StylesApplied()
      ensures !IsResetShortcut(altKey, key) ==> Untouched()
      ensures PanelOpen(state) == PanelOpen(old(state))
    {
      if altKey && key == "l" {
        ResetAllSettings();
        SettingsLaws.ResetKeepsUiFlags(old(state));
      }
    }

    /** A slider's `input` event (dragging): the value is applied, not saved. */
    method SliderInput(sl: Slider, percent: int)
      modifies this`state, this`page, media, this`sliders, this`bodies, controls, headers
      ensures state == SetSlider(old(state), sl, percent)
      ensures StylesApplied()
    {
      AssignSlider(sl, percent);
      ApplyStyles();
    }

    /** The sliders' handlers' assignment: the slider's field takes the parsed percent. */
    method AssignSlider(sl: Slider, percent: int)
      modifies this`state
      ensures state == SetSlider(old(state), sl, percent)
    {
      state := SetSlider(state, sl, percent);
    }

    /** A slider's `change` event (released): the value is saved, then applied. */
    method SliderChange(sl: Slider, percent: int)
      modifies this`state, this`stored, this`saves, this`page, media, this`sliders, this`bodies, controls, headers
      ensures state == SetSlider(old(state), sl, percent)
      ensures stored == StoredAfterSave(state, storageAvailable, old(stored)) && saves == old(saves) + 1
      ensures StylesApplied()
    {
      AssignSlider(sl, percent);
      SaveAndApply();
    }

    /** A radio's `change` event: its group's field takes its value, then save and apply. */
    method RadioChange(name: Option<string>, value: string)
      modifies this`state, this`stored, this`saves, this`page, media, this`sliders, this`bodies, controls, headers
      ensures state == RadioChanged(old(state), name, value)
      ensures stored == StoredAfterSave(state, storageAvailable, old(stored)) && saves == old(saves) + 1
      ensures StylesApplied()
    {
      AssignRadio(name, value);
      SaveAndApply();
    }

    /** The radios' handler's assignment: the group's field takes the radio's value. */
    method AssignRadio(name: Option<string>, value: string)
      modifies this`state
      ensures state == RadioChanged(old(state), name, value)
    {
      state := RadioChanged(state, name, value);
    }

    /** A checkbox's `change` event: its field takes the checked flag (the mask and guide
        checkboxes also show or hide their option rows), then save and apply. */
    method CheckboxChange(name: Option<string>, checked: bool)
      modifies this`state, this`stored, this`saves, this`page, media, this`sliders, this`bodies, controls, headers,
               this`maskOptionsShown, this`guideOptionsShown
      ensures state == CheckboxChanged(old(state), name, checked)
      ensures stored == StoredAfterSave(state, storageAvailable, old(stored)) && saves == old(saves) + 1
      ensures maskOptionsShown == if name == Some("readingMask") then checked else old(maskOptionsShown)
      ensures guideOptionsShown == if name == Some("readingGuide") then checked else old(guideOptionsShown)
      ensures StylesApplied()
    {
      AssignCheckbox(name, checked);
      SaveAndApply();
    }

    /** The checkbox handler's assignment chain: the field named by the checkbox takes the flag,
        and the mask and guide checkboxes also show or hide their row of options. */
    method AssignCheckbox(name: Option<string>, checked: bool)
      modifies this`state, this`maskOptionsShown, this`guideOptionsShown
      ensures state == CheckboxChanged(old(state), name, checked)
      ensures maskOptionsShown == if name == Some("readingMask") then checked else old(maskOptionsShown)
      ensures guideOptionsShown == if name == Some("readingGuide") then checked else old(guideOptionsShown)
    {
      state := CheckboxChanged(state, name, checked);
      if name == Some("readingMask") {
        maskOptionsShown := checked;
      } else if name == Some("readingGuide") {
        guideOptionsShown := checked;
      }
    }

    /** The document's mousemove listener: `positionReadingMask`, then `positionReadingGuide`. */
    method MouseMove(clientY: int, scrollY: int, rootScrollTop: int)
      modifies this`page
      ensures page == MouseMoved(old(page), state, clientY, scrollY, rootScrollTop)
    {
      if Truthy(Get(state, ReadingMask)) && page.mask.Some? {
        var scrollTop := if scrollY != 0 then scrollY else rootScrollTop;
        page := page.(mask := Some(page.mask.value.(top := Some(clientY + scrollTop - MaskHeight / 2))));
      }
      if Truthy(Get(state, ReadingGuide)) && page.guide.Some? {
        var scrollTop := if scrollY != 0 then scrollY else rootScrollTop;
        page := page.(guide := Some(page.guide.value.(top := Some(clientY + scrollTop))));
      }
    }
  }
}
