/** The widget's state object and every transition the source applies to it as a whole value:
    the defaults, the shallow merge of a persisted payload, the payload that is persisted, the
    reset, the panel and section flags, and the assignments the control handlers make.

    The class in module Widget performs these transitions on its `state` field; here they are
    functions, so that what they promise can be proved once for all states.
 */
module Settings {
  import opened JsValues

  /** A property name of the state object: the fourteen persisted settings, the four UI-only
      flags, or any other name a stored payload brought in. `Other` stands for a name that is
      none of the eighteen: a map holding `Other("isPanelOpen")`, say, stands for no object. */
  datatype Key =
    | FontSize | LineSpacing | TextAlignment | FontFamily | ColorTheme | Saturation | ColorFilter
    | MuteSound | HideImages | StopAnimations | ReadingMask | MaskOpacity | ReadingGuide | GuideColor
    | IsPanelOpen | ContentSectionOpen | ColorSectionOpen | OrientationSectionOpen
    | Other(name: string)

  /** A plain JavaScript object: property name to value. */
  type State = map<Key, Value>

  const SettingsKeys: set<Key> :=
    {FontSize, LineSpacing, TextAlignment, FontFamily, ColorTheme, Saturation, ColorFilter,
     MuteSound, HideImages, StopAnimations, ReadingMask, MaskOpacity, ReadingGuide, GuideColor}

  const UiKeys: set<Key> :=
    {IsPanelOpen, ContentSectionOpen, ColorSectionOpen, OrientationSectionOpen}

  /** No property is both a setting and a UI flag. */
  lemma KeysDisjoint()
    ensures SettingsKeys !! UiKeys
  {
    assert forall k :: k in UiKeys ==> k !in SettingsKeys;
  }

  /** `DEFAULT_SETTINGS`. */
  function DefaultSettings(): (d: State)
    ensures d.Keys == SettingsKeys
    ensures forall k :: k in d ==> d[k] != Undefined
  {
    map[FontSize := Num(100), LineSpacing := Num(100), TextAlignment := Str("left"),
        FontFamily := Str("default"), ColorTheme := Str("default"), Saturation := Num(100),
        ColorFilter := Null, MuteSound := Bool(false), HideImages := Bool(false),
        StopAnimations := Bool(false), ReadingMask := Bool(false), MaskOpacity := Num(50),
        ReadingGuide := Bool(false), GuideColor := Str("yellow")]
  }

  /** The UI flags' initial values: the panel closed, every section open. */
  function InitialUi(): (u: State)
    ensures u.Keys == UiKeys
  {
    map[IsPanelOpen := Bool(false), ContentSectionOpen := Bool(true),
        ColorSectionOpen := Bool(true), OrientationSectionOpen := Bool(true)]
  }

  /** The state before anything is loaded: the defaults, the panel closed, every section open. */
  function InitialState(): State
  {
    Merge(DefaultSettings(), InitialUi())
  }

  /** Every field the widget reads is present (no read yields `undefined`). */
  predicate HasAllFields(s: State)
  {
    SettingsKeys + UiKeys <= s.Keys
  }

  /** Object spread `{ ...s, ...p }`: p's properties win, s's others stay. */
  function Merge(s: State, p: State): (r: State)
    ensures r.Keys == s.Keys + p.Keys
    ensures forall k :: k in p ==> r[k] == p[k]
    ensures forall k :: k in s && k !in p ==> r[k] == s[k]
  {
    s + p
  }

  /** What `saveSettings` hands to `JSON.stringify`: the state minus the four UI flags
      (the rest destructure), minus properties holding `undefined`, which JSON drops. */
  function SavedPayload(s: State): (p: State)
    ensures p.Keys !! UiKeys
    ensures forall k :: k in s && k !in UiKeys && s[k] != Undefined <==> k in p
    ensures forall k :: k in p ==> p[k] == s[k]
  {
    map k | k in s && k !in UiKeys && s[k] != Undefined :: s[k]
  }

  /** The stored entry under the key 'a11y-settings', with `JSON.parse` abstracted: either the
      properties its parsed value spreads into the state (an object's own properties; a
      non-empty string's characters under the names "0", "1", ...), or something that yields no
      properties (an empty entry, text that does not parse, a number, a boolean, `null`). */
  datatype Entry = Saved(fields: State) | Unreadable

  /** `loadSettings`: merge the parsed entry over the state; when the store cannot be read or the
      entry is missing or unreadable, the state stays as it was. */
  function Loaded(s: State, storageAvailable: bool, stored: Option<Entry>): (r: State)
    ensures !storageAvailable || stored == None || stored == Some(Unreadable) ==> r == s
    ensures storageAvailable && stored.Some? && stored.value.Saved? ==>
              r == Merge(s, stored.value.fields)
  {
    if storageAvailable && stored.Some? && stored.value.Saved? then Merge(s, stored.value.fields)
    else s
  }

  /** `saveSettings` seen from the store: the entry now holds the payload, unless the store
      refused the write (the exception is caught and nothing changes). */
  function StoredAfterSave(s: State, storageAvailable: bool, stored: Option<Entry>): (e: Option<Entry>)
    ensures storageAvailable ==> e == Some(Saved(SavedPayload(s)))
    ensures !storageAvailable ==> e == stored
  {
    if storageAvailable then Some(Saved(SavedPayload(s))) else stored
  }

  /** `resetAllSettings`' new state `{ ...state, ...DEFAULT_SETTINGS }`. */
  function Reset(s: State): (r: State)
    ensures r.Keys == s.Keys + SettingsKeys
    ensures forall k :: k in SettingsKeys ==> r[k] == DefaultSettings()[k]
    ensures forall k :: k in s && k !in SettingsKeys ==> r[k] == s[k]
  {
    Merge(s, DefaultSettings())
  }

  // ----- panel and sections -----

  predicate PanelOpen(s: State)
  {
    Truthy(Get(s, IsPanelOpen))
  }

  /** The panel's `right` offset in pixels: on screen when open, slid out by its width when not. */
  function PanelRight(open: bool): (right: int)
    ensures right == 0 <==> open
    ensures right < 0 <==> !open
  {
    if open then 0 else -320
  }

  /** `togglePanel`'s assignment `state.isPanelOpen = !state.isPanelOpen`. */
  function TogglePanel(s: State): (r: State)
    ensures r.Keys == s.Keys + {IsPanelOpen}
    ensures PanelOpen(r) == !PanelOpen(s) && r[IsPanelOpen].Bool?
    ensures forall k :: k in s && k != IsPanelOpen ==> r[k] == s[k]
  {
    s[IsPanelOpen := Bool(!PanelOpen(s))]
  }

  /** The close button: `state.isPanelOpen = false`. */
  function ClosePanel(s: State): (r: State)
    ensures !PanelOpen(r)
    ensures r.Keys == s.Keys + {IsPanelOpen}
    ensures forall k :: k in s && k != IsPanelOpen ==> r[k] == s[k]
  {
    s[IsPanelOpen := Bool(false)]
  }

  datatype Section = Content | Color | Orientation

  /** The `data-section` names the source recognises. */
  function SectionNamed(name: string): (r: Option<Section>)
    ensures r == Some(Content) <==> name == "content"
    ensures r == Some(Color) <==> name == "color"
    ensures r == Some(Orientation) <==> name == "orientation"
  {
    if name == "content" then Some(Content)
    else if name == "color" then Some(Color)
    else if name == "orientation" then Some(Orientation)
    else None
  }

  function SectionFlag(sec: Section): (k: Key)
    ensures k in UiKeys && k != IsPanelOpen
  {
    match sec
    case Content => ContentSectionOpen
    case Color => ColorSectionOpen
    case Orientation => OrientationSectionOpen
  }

  predicate SectionOpen(s: State, sec: Section)
  {
    Truthy(Get(s, SectionFlag(sec)))
  }

  /** Negating a section's open flag. */
  function ToggleFlag(s: State, sec: Section): (r: State)
    ensures SectionOpen(r, sec) == !SectionOpen(s, sec)
    ensures r.Keys == s.Keys + {SectionFlag(sec)} && r[SectionFlag(sec)].Bool?
    ensures forall k :: k in s && k != SectionFlag(sec) ==> r[k] == s[k]
  {
    s[SectionFlag(sec) := Bool(!SectionOpen(s, sec))]
  }

  /** `toggleSection(name)`'s effect on the state. */
  function ToggleSection(s: State, name: string): (r: State)
    ensures SectionNamed(name) == None ==> r == s
    ensures SectionNamed(name).Some? ==>
              var flag := SectionFlag(SectionNamed(name).value);
              SectionOpen(r, SectionNamed(name).value) == !SectionOpen(s, SectionNamed(name).value) &&
              r.Keys == s.Keys + {flag} &&
              r[flag].Bool? &&
              forall k :: k in s && k != flag ==> r[k] == s[k]
  {
    match SectionNamed(name)
    case None => s
    case Some(sec) => ToggleFlag(s, sec)
  }

  // ----- what the control handlers assign -----

  datatype Slider = FontSizeSlider | LineSpacingSlider | MaskOpacitySlider | SaturationSlider

  function SliderField(sl: Slider): (k: Key)
    ensures k in SettingsKeys
  {
    match sl
    case FontSizeSlider => FontSize
    case LineSpacingSlider => LineSpacing
    case MaskOpacitySlider => MaskOpacity
    case SaturationSlider => Saturation
  }

  /** A slider's `input` or `change` handler: the parsed percent goes into its field. */
  function SetSlider(s: State, sl: Slider, percent: int): (r: State)
    ensures r.Keys == s.Keys + {SliderField(sl)}
    ensures r[SliderField(sl)] == Num(percent)
    ensures forall k :: k in s && k != SliderField(sl) ==> r[k] == s[k]
  {
    s[SliderField(sl) := Num(percent)]
  }

  /** The settings field a radio group writes, by the group's `name` attribute. */
  function RadioField(name: string): (r: Option<Key>)
    ensures r.Some? <==> name in {"fontFamily", "textAlignment", "colorTheme", "colorFilter", "guideColor"}
    ensures r == Some(ColorFilter) <==> name == "colorFilter"
    ensures r.Some? ==> r.value in SettingsKeys
  {
    if name == "fontFamily" then Some(FontFamily)
    else if name == "textAlignment" then Some(TextAlignment)
    else if name == "colorTheme" then Some(ColorTheme)
    else if name == "colorFilter" then Some(ColorFilter)
    else if name == "guideColor" then Some(GuideColor)
    else None
  }

  /** The value a radio writes: its `value` property, except that the colour filter stores an
      empty value as `null`. */
  function RadioValue(field: Key, value: string): (v: Value)
    ensures field == ColorFilter && value == "" ==> v == Null
    ensures field != ColorFilter || value != "" ==> v == Str(value)
  {
    if field == ColorFilter && value == "" then Null else Str(value)
  }

  /** A radio's `change` handler, before it saves and applies. */
  function RadioChanged(s: State, name: Option<string>, value: string): (r: State)
    ensures name.None? || RadioField(name.value).None? ==> r == s
    ensures name.Some? && RadioField(name.value).Some? ==>
              var k := RadioField(name.value).value;
              r.Keys == s.Keys + {k} &&
              r[k] == RadioValue(k, value) &&
              forall j :: j in s && j != k ==> r[j] == s[j]
  {
    if name.Some? && RadioField(name.value).Some? then
      var k := RadioField(name.value).value;
      s[k := RadioValue(k, value)]
    else s
  }

  /** The settings field a checkbox writes, by its `name` attribute. */
  function CheckboxField(name: string): (r: Option<Key>)
    ensures r.Some? <==> name in {"muteSound", "hideImages", "stopAnimations", "readingMask", "readingGuide"}
    ensures r == Some(ReadingMask) <==> name == "readingMask"
    ensures r == Some(ReadingGuide) <==> name == "readingGuide"
    ensures r.Some? ==> r.value in SettingsKeys
  {
    if name == "muteSound" then Some(MuteSound)
    else if name == "hideImages" then Some(HideImages)
    else if name == "stopAnimations" then Some(StopAnimations)
    else if name == "readingMask" then Some(ReadingMask)
    else if name == "readingGuide" then Some(ReadingGuide)
    else None
  }

  /** A checkbox's `change` handler, before it saves and applies. */
  function CheckboxChanged(s: State, name: Option<string>, checked: bool): (r: State)
    ensures name.None? || CheckboxField(name.value).None? ==> r == s
    ensures name.Some? && CheckboxField(name.value).Some? ==>
              var k := CheckboxField(name.value).value;
              r.Keys == s.Keys + {k} &&
              r[k] == Bool(checked) &&
              forall j :: j in s && j != k ==> r[j] == s[j]
  {
    if name.Some? && CheckboxField(name.value).Some? then s[CheckboxField(name.value).value := Bool(checked)]
    else s
  }

  /** The keyboard shortcut: Alt held and the key reported exactly as 'l'. */
  predicate IsResetShortcut(altKey: bool, key: string)
  {
    altKey && key == "l"
  }
}
