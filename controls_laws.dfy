/** What reconciling the controls promises: each radio group shows the state's value, each
    checkbox its flag, each section header and body its flag, and doing it twice changes nothing.
    Also the colour-filter "None" radio discrepancy, as written and corrected. */
module ControlsLaws {
  import opened JsValues
  import opened Settings
  import opened Controls

  /** Reconciling the controls twice is the same as once. */
  lemma SyncControlsIdempotent(cs: seq<Control>, s: State)
    ensures SyncControls(SyncControls(cs, s), s) == SyncControls(cs, s)
  {
  }

  /** Within one radio group whose values are distinct, at most one radio is left checked. */
  lemma AtMostOneRadioChecked(group: seq<Control>, name: string, s: State)
    requires RadioField(name).Some?
    requires forall i :: 0 <= i < |group| ==> group[i].name == Some(name) && group[i].value.Some?
    requires forall i, j :: 0 <= i < j < |group| ==> group[i].value != group[j].value
    ensures forall i, j :: 0 <= i < j < |group| && SyncControl(group[i], s).checked ==>
              !SyncControl(group[j], s).checked
  {
    var field := RadioField(name).value;
    forall i, j | 0 <= i < j < |group| && SyncControl(group[i], s).checked
      ensures !SyncControl(group[j], s).checked
    {
      var vi, vj := group[i].value.value, group[j].value.value;
      if IsNoFilterRadio(group[i]) {
        assert !Truthy(Get(s, ColorFilter));
        assert Get(s, ColorFilter) != Str(vj);
      } else if IsNoFilterRadio(group[j]) {
        assert Get(s, ColorFilter) == Str(vi) && vi != "";
      } else {
        assert Get(s, field) == Str(vi);
      }
    }
  }

  /** The colour-filter radio group as the panel builds it: four filters and "None", which
      starts checked. */
  function FilterGroup(): (g: seq<Control>)
    ensures |g| == 5
    ensures forall i :: 0 <= i < 5 ==> g[i].name == Some("colorFilter")
  {
    [Control(Some("colorFilter"), Some("monochrome"), false),
     Control(Some("colorFilter"), Some("protanopia"), false),
     Control(Some("colorFilter"), Some("deuteranopia"), false),
     Control(Some("colorFilter"), Some("tritanopia"), false),
     Control(Some("colorFilter"), Some(""), true)]
  }

  /** The colour-filter values the panel can produce. */
  predicate KnownFilter(v: Value)
  {
    v in {Null, Str("monochrome"), Str("protanopia"), Str("deuteranopia"), Str("tritanopia")}
  }

  /** As the source reconciles the colour-filter group, no radio at all is checked when no
      filter is set: the "None" radio holds value "" and `null === ""` is false. In particular
      the "None" radio the user has just clicked is unchecked again by the same handler. */
  lemma FilterGroupAsWrittenLosesNone(s: State)
    requires Get(s, ColorFilter) == Null
    ensures forall i :: 0 <= i < 5 ==> !SyncControlAsWritten(FilterGroup()[i], s).checked
    ensures var clicked := RadioChanged(s, Some("colorFilter"), "");
            !SyncControlAsWritten(Control(Some("colorFilter"), Some(""), true), clicked).checked
  {
    var clicked := RadioChanged(s, Some("colorFilter"), "");
    assert Get(clicked, ColorFilter) == Null;
  }

  /** Corrected, the colour-filter group has exactly one radio checked for every filter value
      the panel can produce: the one naming the filter, or "None". */
  lemma FilterGroupExactlyOne(s: State)
    requires KnownFilter(Get(s, ColorFilter))
    ensures exists i :: 0 <= i < 5 && SyncControl(FilterGroup()[i], s).checked &&
              forall j :: 0 <= j < 5 && j != i ==> !SyncControl(FilterGroup()[j], s).checked
  {
    var g := FilterGroup();
    var v := Get(s, ColorFilter);
    var i := if v == Null then 4 else if v == Str("monochrome") then 0
             else if v == Str("protanopia") then 1 else if v == Str("deuteranopia") then 2 else 3;
    assert SyncControl(g[i], s).checked;
    AtMostOneRadioChecked(g, "colorFilter", s);
  }

  /** Each header shows its section's state and each section with a header is displayed iff
      open; reconciling twice changes nothing. */
  lemma HeadersFollowSections(hs: seq<Header>, b: SectionBodies, s: State, sec: Section)
    requires HasHeader(hs, sec)
    ensures forall i :: 0 <= i < |hs| && Names(hs[i], sec) ==>
              (SyncHeaders(hs, s)[i].icon == ExpandedIcon <==> SectionOpen(s, sec))
    ensures Shown(SyncBodies(b, hs, s), sec) == SectionOpen(s, sec)
    ensures SyncHeaders(SyncHeaders(hs, s), s) == SyncHeaders(hs, s)
  {
    SyncBodiesMeaning(b, hs, s, sec);
  }

  lemma HasHeaderSnoc(hs: seq<Header>, h: Header, sec: Section)
    ensures HasHeader(hs + [h], sec) <==> HasHeader(hs, sec) || Names(h, sec)
  {
    var hs' := hs + [h];
    if HasHeader(hs', sec) {
      var i :| 0 <= i < |hs'| && Names(hs'[i], sec);
      if i < |hs| { assert hs'[i] == hs[i]; }
    }
    if HasHeader(hs, sec) {
      var i :| 0 <= i < |hs| && Names(hs[i], sec);
      assert hs'[i] == hs[i];
    }
    if Names(h, sec) {
      assert hs'[|hs|] == h;
    }
  }

  /** The header loop's step: one more header applies its effect to the bodies so far. */
  lemma SyncBodiesSnoc(b: SectionBodies, hs: seq<Header>, h: Header, s: State)
    ensures SyncBodies(b, hs + [h], s) == SyncBody(SyncBodies(b, hs, s), h, s)
  {
    assert (hs + [h])[..|hs|] == hs;
  }

  /** One header's effect: the section it names follows its flag, every other keeps its display. */
  lemma SyncBodyShown(b: SectionBodies, h: Header, s: State, sec: Section)
    ensures Shown(SyncBody(b, h, s), sec) == if Names(h, sec) then SectionOpen(s, sec) else Shown(b, sec)
  {
  }

  /** After the header loop, a section some header names is displayed iff it is open, and a
      section no header names keeps the display it had. */
  lemma {:induction false} SyncBodiesMeaning(b: SectionBodies, hs: seq<Header>, s: State, sec: Section)
    ensures HasHeader(hs, sec) ==> Shown(SyncBodies(b, hs, s), sec) == SectionOpen(s, sec)
    ensures !HasHeader(hs, sec) ==> Shown(SyncBodies(b, hs, s), sec) == Shown(b, sec)
    decreases |hs|
  {
    if hs != [] {
      var init, h := hs[..|hs| - 1], hs[|hs| - 1];
      assert hs == init + [h];
      SyncBodiesMeaning(b, init, s, sec);
      HasHeaderSnoc(init, h, sec);
      SyncBodyShown(SyncBodies(b, init, s), h, s, sec);
    }
  }

  /** After reconciling, each slider holds the value of the field its input handler writes. */
  lemma SlidersShowState(s: State, sl: Slider)
    ensures Shows(SyncSliders(s), sl) == Get(s, SliderField(sl))
  {
  }

  /** Moving a slider and reconciling puts back the percent just set. */
  lemma SliderRoundTrip(s: State, sl: Slider, percent: int)
    ensures Shows(SyncSliders(SetSlider(s, sl, percent)), sl) == Num(percent)
  {
    SlidersShowState(SetSlider(s, sl, percent), sl);
  }
}
