/** `updateControlsState`: bringing the panel's inputs and section headers in line with the
    state, one element at a time. Here each element's new look is a function of the element and
    the state; the class in module Widget runs the loops over the panel's elements. */
module Controls {
  import opened JsValues
  import opened Settings

  /** A checkbox or radio input of the panel: its `name` and `value` attributes (None when the
      attribute is absent) and its `checked` flag. */
  datatype Control = Control(name: Option<string>, value: Option<string>, checked: bool)

  /** A section header: its `data-section` attribute and the text of its toggle icon. */
  datatype Header = Header(section: Option<string>, icon: string)

  /** The values assigned to the four range sliders (the input's own clamping to its min and
      max and rounding to its step are not modelled). */
  datatype Sliders = Sliders(fontSize: Value, lineSpacing: Value, maskOpacity: Value, saturation: Value)

  /** Whether the body of each section is displayed. */
  datatype SectionBodies = SectionBodies(content: bool, color: bool, orientation: bool)

  const ExpandedIcon := "\U{25BC}"
  const CollapsedIcon := "\U{25BA}"

  /** An attribute as `getAttribute` returns it: the string, or `null`. */
  function AttrValue(a: Option<string>): (v: Value)
    ensures a.None? <==> v == Null
    ensures a.Some? ==> v == Str(a.value)
  {
    if a.Some? then Str(a.value) else Null
  }

  /** One input as the source reconciles it: a radio of a known group is checked iff
      `state[name] === value`, a known checkbox iff its field is truthy; any other input is left
      alone. This is what the source does; module Widget uses `SyncControl` below instead. */
  function SyncControlAsWritten(c: Control, s: State): (r: Control)
    ensures r.name == c.name && r.value == c.value
    ensures c.name.None? || (RadioField(c.name.value).None? && CheckboxField(c.name.value).None?) ==> r == c
    ensures c.name.Some? && CheckboxField(c.name.value).Some? ==>
              (r.checked <==> Truthy(Get(s, CheckboxField(c.name.value).value)))
    ensures c.name.Some? && RadioField(c.name.value).Some? && c.value.Some? ==>
              (r.checked <==> Get(s, RadioField(c.name.value).value) == Str(c.value.value))
    ensures c.name.Some? && RadioField(c.name.value).Some? && c.value.None? ==>
              (r.checked <==> Get(s, RadioField(c.name.value).value) == Null)
  {
    if c.name.Some? && RadioField(c.name.value).Some? then
      c.(checked := StrictEquals(Get(s, RadioField(c.name.value).value), AttrValue(c.value)))
    else if c.name.Some? && CheckboxField(c.name.value).Some? then
      c.(checked := Truthy(Get(s, CheckboxField(c.name.value).value)))
    else c
  }

  /** The colour filter's "None" radio: group 'colorFilter', value "". */
  predicate IsNoFilterRadio(c: Control)
  {
    c.name == Some("colorFilter") && c.value == Some("")
  }

  /** One input reconciled as the panel is first built: like the source, except that the colour
      filter's "None" radio is checked iff no filter is set. */
  function SyncControl(c: Control, s: State): (r: Control)
    ensures r.name == c.name && r.value == c.value
    ensures c.name.None? || (RadioField(c.name.value).None? && CheckboxField(c.name.value).None?) ==> r == c
    ensures c.name.Some? && CheckboxField(c.name.value).Some? ==>
              (r.checked <==> Truthy(Get(s, CheckboxField(c.name.value).value)))
    ensures IsNoFilterRadio(c) ==> (r.checked <==> !Truthy(Get(s, ColorFilter)))
    ensures c.name.Some? && RadioField(c.name.value).Some? && c.value.Some? && !IsNoFilterRadio(c) ==>
              (r.checked <==> Get(s, RadioField(c.name.value).value) == Str(c.value.value))
  {
    if IsNoFilterRadio(c) then
      c.(checked := !Truthy(Get(s, ColorFilter)))
    else
      SyncControlAsWritten(c, s)
  }

  /** Every input of the panel reconciled, in order. */
  function SyncControls(cs: seq<Control>, s: State): (r: seq<Control>)
    ensures |r| == |cs|
    ensures forall i :: 0 <= i < |cs| ==> r[i] == SyncControl(cs[i], s)
  {
    seq(|cs|, i requires 0 <= i < |cs| => SyncControl(cs[i], s))
  }

  /** A header's icon: expanded or collapsed after its section's flag; a header naming no known
      section is left alone. */
  function SyncHeader(h: Header, s: State): (r: Header)
    ensures r.section == h.section
    ensures h.section.None? || SectionNamed(h.section.value).None? ==> r == h
    ensures h.section.Some? && SectionNamed(h.section.value).Some? ==>
              (r.icon == ExpandedIcon <==> SectionOpen(s, SectionNamed(h.section.value).value))
  {
    if h.section.Some? && SectionNamed(h.section.value).Some? then
      h.(icon := if SectionOpen(s, SectionNamed(h.section.value).value) then ExpandedIcon else CollapsedIcon)
    else h
  }

  function SyncHeaders(hs: seq<Header>, s: State): (r: seq<Header>)
    ensures |r| == |hs|
    ensures forall i :: 0 <= i < |hs| ==> r[i] == SyncHeader(hs[i], s)
  {
    seq(|hs|, i requires 0 <= i < |hs| => SyncHeader(hs[i], s))
  }

  /** The header's `data-section` names the section. */
  predicate Names(h: Header, sec: Section)
  {
    h.section.Some? && SectionNamed(h.section.value) == Some(sec)
  }

  /** Some header names the section. */
  predicate HasHeader(hs: seq<Header>, sec: Section)
  {
    exists i :: 0 <= i < |hs| && Names(hs[i], sec)
  }

  /** One header's effect on the section bodies: the body of the section it names is displayed
      iff that section is open; a header naming no known section changes nothing. */
  function SyncBody(b: SectionBodies, h: Header, s: State): SectionBodies
  {
    if h.section.None? then b
    else match SectionNamed(h.section.value)
      case None => b
      case Some(Content) => b.(content := SectionOpen(s, Content))
      case Some(Color) => b.(color := SectionOpen(s, Color))
      case Some(Orientation) => b.(orientation := SectionOpen(s, Orientation))
  }

  /** Whether the body of the section is displayed. */
  function Shown(b: SectionBodies, sec: Section): bool
  {
    match sec
    case Content => b.content
    case Color => b.color
    case Orientation => b.orientation
  }

  /** The section bodies after the header loop has visited the headers in order. */
  function SyncBodies(b: SectionBodies, hs: seq<Header>, s: State): SectionBodies
    decreases |hs|
  {
    if hs == [] then b else SyncBody(SyncBodies(b, hs[..|hs| - 1], s), hs[|hs| - 1], s)
  }

  function SyncSliders(s: State): (r: Sliders)
  {
    Sliders(Get(s, FontSize), Get(s, LineSpacing), Get(s, MaskOpacity), Get(s, Saturation))
  }

  /** The value one slider shows. */
  function Shows(v: Sliders, sl: Slider): Value
  {
    match sl
    case FontSizeSlider => v.fontSize
    case LineSpacingSlider => v.lineSpacing
    case MaskOpacitySlider => v.maskOpacity
    case SaturationSlider => v.saturation
  }
}
