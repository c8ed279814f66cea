# A11y-Widget, modelled in Dafny

A11y-Widget is a self-contained script that adds an accessibility button and panel to any web
page. This project models the script's core:

- **The state object.** It holds fourteen persisted settings and four panel flags. `loadSettings` and `saveSettings` move it to and from the browser store, and `resetAllSettings` puts the defaults back.
- **`applyStyles`.** It turns the state into body classes, dynamic style elements, root variables, inline body styles, the two reading overlays and the muting of media elements.
- **`updateControlsState`.** It brings every slider, radio, checkbox, section header and section body of the panel in line with the state.
- **The panel and section toggles.**
- **The mouse tracking of the reading mask and the reading guide** (`positionReadingMask`, `positionReadingGuide`).
- **The event handlers that change the state.**

Layout:

- `values.dfy` (module `JsValues`): the JavaScript values a state field can hold, truthiness, `===`, property reads and string conversion.
- `settings.dfy` (module `Settings`): the state as a value, with every transition the script applies to it. These are the defaults, the shallow merge of a stored payload, the payload that is persisted, the reset, the panel and section toggles, and the assignments of the slider, radio and checkbox handlers. `settings_laws.dfy` (module `SettingsLaws`) holds what these transitions promise across calls.
- `styles.dfy` (module `Styles`): `applyStyles` as a function from the page it finds and the state to the page it leaves. `styles_laws.dfy` (module `StylesLaws`) holds its laws.
- `controls.dfy` (module `Controls`): `updateControlsState` one element at a time. `controls_laws.dfy` (module `ControlsLaws`) holds its laws and the colour-filter finding below.
- `overlays.dfy` (module `Overlays`): the mouse-move positioning.
- `widget.dfy` (module `Widget`): the script as the class `A11yWidget`, with the colour-filter radio sync corrected as described under Findings. Its fields are the module-level `state`, the store, the parts of the page the widget writes, the media elements' `muted` flags (an array) and the panel's inputs and headers (arrays). Its methods update them in place, with loops over the arrays. Each method is proved against the functions above.

Three behaviours of the code worth stating:

- The saturation rule is injected whenever saturation is not 100, under the dark theme too. Its selector `body:not(.a11y-dark)` (a11y-widget.js:140-141) is what keeps it from taking effect there (`StylesLaws.SaturationUnderDarkTheme`).
- Alt+L only resets the settings. The panel's hint reads "Press Alt+L to reset settings" (a11y-widget.js:652), and the keydown listener (a11y-widget.js:776-781) calls `resetAllSettings` and nothing else. The panel's open state is left alone (`Widget.A11yWidget.KeyDown`).
- A stored entry holding `isPanelOpen: true` (which `saveSettings` never writes, but a hand-edited store may hold) is merged into the state by `loadSettings` (a11y-widget.js:51). The panel is still created off screen (a11y-widget.js:403) with `aria-expanded` false, so after `init` the state says open while nothing is shown, and the first click on the button closes a panel that was never visible (`Widget.A11yWidget.Init`, `Widget.A11yWidget.ButtonClicked`).

## Model

| member | source | states |
|---|---|---|
| Settings.KeysDisjoint | a11y-widget.js:36-42 | no property is both one of the fourteen settings and one of the four UI flags |
| Settings.DefaultSettings | a11y-widget.js:19-34 | the defaults hold exactly the fourteen settings, none of them `undefined` |
| Settings.InitialUi | a11y-widget.js:36-42 | the initial UI flags are exactly the four panel and section flags |
| SettingsLaws.InitialStateMeaning | a11y-widget.js:36-42 | the initial state holds exactly the settings, at their defaults, and the four flags, at their initial values |
| Settings.Merge | a11y-widget.js:51 | object spread: the payload's properties win, every other property of the state stays, and no other property appears |
| Settings.SavedPayload | a11y-widget.js:64-72 | the payload holds exactly the state's properties that are not UI flags and not `undefined`, with their values |
| Settings.Loaded | a11y-widget.js:45-57 | a readable stored object is merged over the state; a missing store, a missing entry or an unreadable entry leaves the state unchanged |
| Settings.StoredAfterSave | a11y-widget.js:60-77 | when the store accepts the write, the entry becomes the payload; otherwise the entry is kept |
| Settings.Reset | a11y-widget.js:328 | every setting takes its default, every other property keeps its value, and no property is lost |
| Settings.PanelRight | a11y-widget.js:311-313 | the panel is on screen (`right` 0) exactly when it is open, and slid out (negative `right`) exactly when it is closed |
| Settings.TogglePanel | a11y-widget.js:309-310 | the panel's open flag is negated and becomes a boolean; nothing else changes |
| Settings.ClosePanel | a11y-widget.js:758 | the panel is closed from any state; nothing else changes |
| Settings.SectionNamed | a11y-widget.js:316-323 | exactly the names 'content', 'color' and 'orientation' name a section, each its own |
| Settings.SectionFlag | a11y-widget.js:316-323 | a section's flag is a UI flag other than the panel's |
| Settings.ToggleFlag | a11y-widget.js:317-322 | the section's open flag is negated; every other property is kept |
| Settings.ToggleSection | a11y-widget.js:316-323 | an unknown name changes nothing; a known one negates that section's flag and keeps every other property |
| Settings.SliderField | a11y-widget.js:784-804 | every slider writes a settings field |
| Settings.SetSlider | a11y-widget.js:785 | the slider's field becomes the parsed percent; every other property is kept |
| Settings.RadioField | a11y-widget.js:813-823 | exactly the five group names write a field, each a setting, and only 'colorFilter' writes the colour filter |
| Settings.RadioValue | a11y-widget.js:820 | the colour filter stores an empty value as `null`; every other case stores the radio's value |
| Settings.RadioChanged | a11y-widget.js:807-823 | an unknown or missing group name changes nothing; a known one sets its field to the radio's value and keeps every other property |
| Settings.CheckboxField | a11y-widget.js:837-856 | exactly the five checkbox names write a field, each a setting; 'readingMask' and 'readingGuide' write their own |
| Settings.CheckboxChanged | a11y-widget.js:831-856 | an unknown or missing name changes nothing; a known one sets its field to the checked flag and keeps every other property |
| SettingsLaws.SaveThenLoadIsIdentity | a11y-widget.js:45-77 | saving and then loading in the same session gives back the state unchanged, UI flags included |
| SettingsLaws.FreshLoadRestoresSettings | a11y-widget.js:36-77 | a fresh page load after a save restores every saved setting, and the UI flags come back at their initial values |
| SettingsLaws.PayloadHoldsExactlySettings | a11y-widget.js:60-72 | for a state holding exactly the settings and the flags, the payload's keys are exactly the fourteen settings |
| SettingsLaws.PayloadWithinSettings | a11y-widget.js:64-72 | a state with no foreign properties persists settings only |
| SettingsLaws.ResetKeepsUiFlags | a11y-widget.js:327-331 | reset leaves every UI flag, and so the panel's open state, as it was |
| SettingsLaws.ResetIdempotent | a11y-widget.js:328 | resetting twice is the same as resetting once |
| SettingsLaws.ResetPayloadKeys | a11y-widget.js:327-331 | after a reset, a state with no foreign properties persists exactly the fourteen settings |
| SettingsLaws.ResetPayloadValues | a11y-widget.js:327-331 | after a reset, every setting is persisted with its default |
| SettingsLaws.ResetPayloadIsDefaults | a11y-widget.js:327-331 | after a reset, a state with no foreign properties persists exactly `DEFAULT_SETTINGS` |
| SettingsLaws.ResetKeepsUnknownProperties | a11y-widget.js:328 | a foreign property merged in from a stored payload survives a reset and is persisted again |
| SettingsLaws.TogglePanelTwice | a11y-widget.js:309-310 | toggling the panel twice restores the state when the flag held a boolean |
| SettingsLaws.CloseIsClosed | a11y-widget.js:757-761 | closing yields a closed panel, is idempotent, and absorbs a preceding toggle |
| SettingsLaws.ToggleSectionTwice | a11y-widget.js:316-323 | toggling a section twice restores the state when its flag held a boolean |
| SettingsLaws.FlagTogglesCommute | a11y-widget.js:317-322 | toggling two sections' flags in either order gives the same state |
| SettingsLaws.SectionTogglesCommute | a11y-widget.js:316-323 | toggling any two section names in either order gives the same state |
| SettingsLaws.ToggleSectionLeavesOthers | a11y-widget.js:316-323 | toggling a section changes neither any other section's open state nor the panel's |
| SettingsLaws.SliderKeepsUiFlags | a11y-widget.js:784-804 | the slider handlers never change a UI flag |
| SettingsLaws.RadioKeepsUiFlags | a11y-widget.js:807-828 | the radio handler never changes a UI flag |
| SettingsLaws.CheckboxKeepsUiFlags | a11y-widget.js:831-861 | the checkbox handler never changes a UI flag |
| Styles.FilterCss | a11y-widget.js:149-154 | each of the four filter names maps to its CSS filter; any other name prints as `undefined` |
| Styles.GuideColorCss | a11y-widget.js:228-234 | the guide colour is always one of the four table colours, and it is yellow exactly when the name is not blue, red or green |
| Styles.FontClass | a11y-widget.js:115-121 | 'readable' and 'dyslexic' give their body class; any other family gives none |
| Styles.FontStack | a11y-widget.js:116-126 | the inline font stack is cleared exactly when the family is none of the three known ones |
| Styles.ThemeClass | a11y-widget.js:129-132 | no class for 'default'; otherwise `a11y-` followed by the theme's text |
| Styles.ReconcileClasses | a11y-widget.js:114-132 | the font classes follow the family; the chosen theme class is present and no other managed theme class is; every class the widget does not manage is kept |
| Styles.Dynamics | a11y-widget.js:137-145 | each rule gets its own dynamic style element, in order |
| Styles.WithoutDynamic | a11y-widget.js:98 | removing the dynamic style elements keeps exactly the other ones |
| Styles.DynamicRules | a11y-widget.js:98 | the rules read back from the dynamic style elements are exactly those they hold |
| Styles.MutedMedia | a11y-widget.js:238-243 | with mute on, every media element is muted; with mute off, none is touched (none is unmuted either) |
| StylesLaws.WithoutDynamicAppend | a11y-widget.js:98 | removing the dynamic elements distributes over concatenation |
| StylesLaws.DynamicRulesAppend | a11y-widget.js:98 | reading back the rules distributes over concatenation |
| StylesLaws.RulesMeaning | a11y-widget.js:134-215 | the saturation rule is injected iff saturation is not 100; a filter rule iff a filter is set, and then only the table's CSS for that filter; the image and animation rules iff their settings are on |
| StylesLaws.RulesDistinct | a11y-widget.js:134-215 | no rule is injected twice |
| StylesLaws.DynamicsAppend | a11y-widget.js:137-145 | wrapping rules into elements distributes over concatenation |
| StylesLaws.WithoutDynamicOfDynamics | a11y-widget.js:98 | the elements the widget injects are all removed by the next call, and they hold exactly the rules injected |
| StylesLaws.WithoutDynamicIsStable | a11y-widget.js:98 | removing twice is removing once, and nothing dynamic is left |
| StylesLaws.RenderStyles | a11y-widget.js:96-215 | after `applyStyles`, the dynamic elements hold exactly the state's rules in order, and the other style elements are those that were there before, in order |
| StylesLaws.RenderForgetsEarlierStyles | a11y-widget.js:96-215 | nothing an earlier call injected survives a later one; clearing the filter leaves no body filter rule |
| StylesLaws.ReconcileClassesIdempotent | a11y-widget.js:114-132 | reconciling the body classes twice with one state is the same as once |
| StylesLaws.RenderIdempotent | a11y-widget.js:96-235 | applying the styles twice with the state unchanged gives the same page as once |
| StylesLaws.ReconcileForgetsKnownTheme | a11y-widget.js:114-132 | after a known theme, a later call leaves the body classes as if the earlier one had not happened |
| StylesLaws.UnknownThemeClassLingers | a11y-widget.js:129-132 | any theme value that is none of the known ones (say 'sepia', from a stored payload) leaves its class on the body when the theme goes back to 'default' |
| StylesLaws.ThemeClassIsDark | a11y-widget.js:129-132 | the body gets `a11y-dark` exactly when the theme's text is 'dark' |
| StylesLaws.SaturationUnderDarkTheme | a11y-widget.js:134-146 | the saturation rule is present iff saturation is not 100, and takes effect iff, in addition, the theme is not dark |
| StylesLaws.FilterNodesAtMostOne | a11y-widget.js:156-179 | the SVG filter node is created only when a filter is set and none exists, and it is never removed or duplicated |
| StylesLaws.MaskFollowsState | a11y-widget.js:218-221 | the mask is shown iff it is on; its opacity follows the setting whether shown or not, so switching it off and on restores it |
| StylesLaws.GuideFollowsState | a11y-widget.js:224-235 | the guide is shown iff it is on; blue gives `#0088ff`, and any non-colour value gives yellow |
| StylesLaws.NonColourText | a11y-widget.js:234 | a value other than the colour names never prints as one of them |
| Controls.AttrValue | a11y-widget.js:261-262 | a missing attribute reads as `null`; a present one reads as its string |
| Controls.SyncControlAsWritten | a11y-widget.js:260-285 | as written: a radio of a known group is checked iff its field `===` its value attribute; a known checkbox is checked iff its field is truthy; any other input is untouched |
| Controls.SyncControl | a11y-widget.js:260-285 | corrected: as written, except that the colour filter's "None" radio is checked iff no filter is set |
| Controls.SyncControls | a11y-widget.js:260-285 | every input is reconciled, in order |
| Controls.SyncHeader | a11y-widget.js:288-305 | a header's icon is expanded iff its section is open; a header naming no section is untouched |
| Controls.SyncHeaders | a11y-widget.js:288-305 | every header is reconciled, in order |
| ControlsLaws.SyncControlsIdempotent | a11y-widget.js:260-285 | reconciling the inputs twice is the same as once |
| ControlsLaws.AtMostOneRadioChecked | a11y-widget.js:264-273 | in a group whose values are distinct, at most one radio is left checked |
| ControlsLaws.FilterGroup | a11y-widget.js:535-553 | the colour-filter group holds five radios, all named 'colorFilter' |
| ControlsLaws.FilterGroupAsWrittenLosesNone | a11y-widget.js:270-271 | as written, with no filter set no colour-filter radio is checked; the "None" radio just clicked is unchecked again |
| ControlsLaws.FilterGroupExactlyOne | a11y-widget.js:270-271 | corrected, exactly one colour-filter radio is checked for every filter value the panel can produce |
| ControlsLaws.HeadersFollowSections | a11y-widget.js:288-305 | every header naming a section shows its state; the section's body is displayed iff it is open; reconciling the headers twice is the same as once |
| ControlsLaws.SyncBodiesSnoc | a11y-widget.js:288-305 | the header loop's step: one more header applies its effect to the bodies so far |
| ControlsLaws.SyncBodyShown | a11y-widget.js:292-304 | one header sets the display of the section it names and leaves the others alone |
| ControlsLaws.SyncBodiesMeaning | a11y-widget.js:288-305 | after the loop, a section that some header names is displayed iff open; a section no header names keeps its display |
| ControlsLaws.SlidersShowState | a11y-widget.js:254-257 | after reconciling, each slider is assigned the value of the field its handler writes |
| ControlsLaws.SliderRoundTrip | a11y-widget.js:254-257 | moving a slider to a percent and reconciling shows that percent on the slider |
| Overlays.ScrollTop | a11y-widget.js:336 | `scrollY` is used unless it is 0, and then the root's offset is |
| Overlays.MaskTop | a11y-widget.js:337-339 | the mask band is centred on the pointer's page position and contains it |
| Overlays.GuideTop | a11y-widget.js:347 | the guide line sits at the pointer's page position |
| Overlays.MouseMoved | a11y-widget.js:333-348 | each overlay that is on and exists moves to the pointer; everything else is untouched |
| Overlays.RenderAndMoveCommute | a11y-widget.js:218-235 | applying the styles and moving the overlays commute |
| Overlays.MaskCentredOnGuide | a11y-widget.js:333-348 | with both on, the mask's centre and the guide line are at the same height |
| Widget.A11yWidget.constructor | a11y-widget.js:36-42 | the script's state before `init`: the initial state, no panel |
| Widget.A11yWidget.Init | a11y-widget.js:895-907 | the state is the loaded one; the panel is mounted off screen with `aria-expanded` false; the option rows follow the mask and guide settings; the page is rendered from that state over the page with both new overlays; the media are muted when muting is on; the sliders, inputs, headers and section bodies are reconciled in place |
| Widget.A11yWidget.MountPanel | a11y-widget.js:899-906 | creating the elements and applying the styles: the panel is mounted off screen with `aria-expanded` false; the option rows follow their settings; the page is rendered over the page with both new overlays; the media are muted when muting is on; the sliders, inputs, headers and section bodies are reconciled |
| Widget.A11yWidget.CreateElements | a11y-widget.js:661-682 | the panel is mounted off screen; the option rows and the two overlays follow their settings, and the guide is yellow |
| Widget.A11yWidget.LoadSettings | a11y-widget.js:45-57 | the state becomes `Loaded` of the old state and the store |
| Widget.A11yWidget.SaveSettings | a11y-widget.js:60-77 | the store's entry becomes the payload when the store accepts it |
| Widget.A11yWidget.RemoveDynamicStyles | a11y-widget.js:98 | the loop keeps exactly the style elements that are not dynamic, in order |
| Widget.A11yWidget.ReconcileBodyClasses | a11y-widget.js:114-132 | the class-list edits give `ReconcileClasses` |
| Widget.A11yWidget.InjectedRules | a11y-widget.js:134-215 | the appended rules are exactly `Rules` of the state |
| Widget.A11yWidget.ApplyToPage | a11y-widget.js:96-235 | the page becomes `Render` of the page and the state |
| Widget.A11yWidget.MuteMedia | a11y-widget.js:238-243 | the loop over the media array leaves `MutedMedia` of the flags before it |
| Widget.A11yWidget.SyncInputs | a11y-widget.js:260-285 | the loop over the inputs reconciles each one in place, with the corrected colour-filter rule |
| Widget.A11yWidget.SyncSections | a11y-widget.js:288-305 | the loop over the headers reconciles each icon and leaves the bodies as `SyncBodies` |
| Widget.A11yWidget.UpdateControlsState | a11y-widget.js:250-306 | nothing changes before the panel exists; afterwards the sliders, inputs, headers and bodies are reconciled |
| Widget.A11yWidget.ApplyStyles | a11y-widget.js:96-247 | the page becomes `Render` of the page and the state, the media array becomes `MutedMedia` of its flags, and the controls are updated as `updateControlsState` states |
| Widget.A11yWidget.ButtonClicked | a11y-widget.js:388-391 | the panel's flag is negated, the panel slides in or out with it, and `aria-expanded` follows it |
| Widget.A11yWidget.CloseClicked | a11y-widget.js:757-761 | the panel is closed and off screen, and `aria-expanded` is false |
| Widget.A11yWidget.ToggleSection | a11y-widget.js:316-325 | the section's flag is toggled; then, once the panel exists, the sliders, inputs, headers and bodies are reconciled with the new state, and before that nothing of the panel changes |
| Widget.A11yWidget.HeaderClicked | a11y-widget.js:764-769 | a missing or empty `data-section` changes nothing at all; otherwise the named section is toggled and the panel's controls are reconciled |
| Widget.A11yWidget.SaveAndApply | a11y-widget.js:825-826 | one save of the state, then the page rendered, the media muted and the controls reconciled |
| Widget.A11yWidget.ResetAllSettings | a11y-widget.js:327-331 | the state is reset, saved once, then the page rendered, the media muted and the controls reconciled |
| Widget.A11yWidget.KeyDown | a11y-widget.js:776-781 | Alt with 'l' resets, saves once and applies the styles; any other key changes nothing at all; the panel's open state is never changed |
| Widget.A11yWidget.AssignSlider | a11y-widget.js:785 | the state becomes `SetSlider` of the old one |
| Widget.A11yWidget.SliderInput | a11y-widget.js:784-787 | the slider's field takes the percent, then the page is rendered, the media muted and the controls reconciled, without a save |
| Widget.A11yWidget.SliderChange | a11y-widget.js:789-793 | the slider's field takes the percent, then one save, the page rendered, the media muted and the controls reconciled |
| Widget.A11yWidget.AssignRadio | a11y-widget.js:813-823 | the state becomes `RadioChanged` of the old one |
| Widget.A11yWidget.RadioChange | a11y-widget.js:807-828 | the group's field takes the radio's value, then one save, the page rendered, the media muted and the controls reconciled |
| Widget.A11yWidget.AssignCheckbox | a11y-widget.js:837-856 | the field takes the flag; the mask and guide checkboxes also show or hide their option rows |
| Widget.A11yWidget.CheckboxChange | a11y-widget.js:831-861 | the field takes the flag and the mask or guide option row follows it, then one save, the page rendered, the media muted and the controls reconciled |
| Widget.A11yWidget.MouseMove | a11y-widget.js:888-891 | the page becomes `MouseMoved` of the old page |

## Left out

- Drawing the document: building the panel's markup, the stylesheet, the button's styling and the media query are not modelled. The panel's inputs and headers are given to the constructor, as the markup would produce them.
- `JSON.parse` and `JSON.stringify`: a stored entry is modelled as either the properties its parsed value spreads into the state, or unreadable. A parsed object spreads its own properties. A non-empty parsed string spreads one property per character, named "0", "1" and so on, which the model holds as `Key.Other` properties of a `Saved` entry. Unreadable covers an empty entry, text that does not parse, and a parsed number, boolean or `null`, none of which adds properties. A thrown parse error is caught like the other storage errors.
- Storage exceptions are modelled by `storageAvailable`: a store that throws behaves like no change. The console messages are not modelled.
- `config.persistSettings` is always true, so it is not a parameter. The reset shortcut is fixed at Alt with 'l', as configured.
- Numbers: settings hold integer percents. The divisions by 100 that turn them into CSS scale factors and opacities are not modelled, and neither are fractional numbers. `parseInt` is modelled as already applied: a slider handler receives the integer percent, so `NaN` is not modelled.
- Property names from a stored payload that are none of the eighteen known ones are modelled as `Key.Other`. Names that `filterStyles` and `guideColors` inherit from `Object.prototype` (such as 'toString') are not modelled; the tables are read as if they were plain dictionaries.
- A theme value containing whitespace would make `classList.add` throw and abort `applyStyles` partway. The model assumes it does not. In the code this is not a one-off: a stored `colorTheme` whose text holds whitespace (any object value prints as "[object Object]") makes `classList.add` throw at a11y-widget.js:131 on every `applyStyles`, until a reset replaces the theme.
- ControlsLaws.SlidersShowState: the sliders hold the value assigned to them. A range input clamps what it is given to its min and max (a11y-widget.js:435, 445, 523, 608), rounds it to its step, and shows its midpoint for anything that is not a number; none of this is modelled, so for a stored out-of-range or non-numeric value the slider on the page shows something else. The same holds for CSS values the browser rejects, such as an opacity that is not a number.
- The handlers at a11y-widget.js:785-882 carry TypeScript casts (`as HTMLInputElement`, `as any`). The model reads the file with the casts erased.
- `updateControlsState` reads the section bodies with `if (content)`. The model assumes the three section bodies exist, as the panel's markup always creates them. The same applies to the mask and guide option rows in the checkbox handler.
- The filter node and the filter rule: the model counts the `a11y-filters` nodes. Their position among the body's children and the SVG filter matrices are not modelled.
- Widget.A11yWidget.Init: the event listeners' registration is not modelled. The handler methods stand for the listeners.
- Widget.A11yWidget.constructor: the DOMContentLoaded scheduling is not modelled. The constructor is the script before `init` runs.
- The option rows under the mask and guide checkboxes are set when the panel is built and by the checkbox handler. `updateControlsState` never sets them, and neither does the model's.
- Widget.A11yWidget.SyncInputs: the class runs the corrected `Controls.SyncControl`, in which the colour filter's "None" radio is checked exactly when no filter is set. The code as written is `Controls.SyncControlAsWritten` (see Findings). Every method that reconciles the inputs inherits the corrected rule: UpdateControlsState, ApplyStyles, MountPanel, Init, SaveAndApply, ResetAllSettings, KeyDown, SliderInput, SliderChange, RadioChange, CheckboxChange, ToggleSection and HeaderClicked.
- JsValues.ToText: integers print all their digits. From 10^21 on, JavaScript prints a number in exponent form ('1e+21'), which is not modelled; every percent the panel produces is far below that.

## Findings

| source | as written | input that shows it | evidently intended | confidence | as-written member | corrected member |
|---|---|---|---|---|---|---|
| a11y-widget.js:270-271 | the colour-filter radios are checked with `state.colorFilter === value`. The "None" radio's value attribute is `""`, while no filter is stored as `null` (line 820). So whenever no filter is set, no radio of the group is checked, including the "None" radio the user has just clicked | a state with `colorFilter: null`, e.g. after clicking "No Filter" or after a reset | the "None" radio is checked iff no filter is set, as the markup at line 551 does when the panel is built | not executed | ControlsLaws.FilterGroupAsWrittenLosesNone | ControlsLaws.FilterGroupExactlyOne |
