/** What the settings transitions promise across calls: persistence round trips, reset,
    and the panel and section toggles. */
module SettingsLaws {
  import opened JsValues
  import opened Settings

  /** Saving and then loading in the same session gives back the state unchanged, UI flags
      included (they are not in the payload, so the merge keeps the current ones). */
  lemma SaveThenLoadIsIdentity(s: State, stored: Option<Entry>)
    ensures Loaded(s, true, StoredAfterSave(s, true, stored)) == s
  {
    var p := SavedPayload(s);
    var r := Merge(s, p);
    assert r.Keys == s.Keys;
    forall k | k in s ensures r[k] == s[k] {
      if k in p { assert p[k] == s[k]; }
    }
  }

  /** The initial state holds exactly the settings, at their defaults, and the UI flags, at
      their initial values. */
  lemma InitialStateMeaning()
    ensures InitialState().Keys == SettingsKeys + UiKeys
    ensures forall k :: k in SettingsKeys ==> InitialState()[k] == DefaultSettings()[k]
    ensures forall k :: k in UiKeys ==> InitialState()[k] == InitialUi()[k]
  {
    KeysDisjoint();
  }

  /** A fresh page load (the initial state, then `loadSettings`) after a save restores every
      settings field that was saved, and the UI flags come back at their initial values. */
  lemma {:induction false} FreshLoadRestoresSettings(s: State)
    requires HasAllFields(s)
    requires forall k :: k in SettingsKeys ==> s[k] != Undefined
    ensures var r := Loaded(InitialState(), true, Some(Saved(SavedPayload(s))));
            (forall k :: k in SettingsKeys ==> r[k] == s[k]) &&
            (forall k :: k in UiKeys ==> r[k] == InitialUi()[k])
  {
    KeysDisjoint();
    InitialStateMeaning();
    var p := SavedPayload(s);
    var r := Loaded(InitialState(), true, Some(Saved(p)));
    forall k | k in SettingsKeys ensures r[k] == s[k] {
      assert k in p;
    }
    forall k | k in UiKeys ensures r[k] == InitialUi()[k] {
      assert k !in p;
    }
  }

  /** For a state holding exactly the settings and the UI flags, the persisted payload holds
      exactly the fourteen settings fields. */
  lemma PayloadHoldsExactlySettings(s: State)
    requires s.Keys == SettingsKeys + UiKeys
    requires forall k :: k in s ==> s[k] != Undefined
    ensures SavedPayload(s).Keys == SettingsKeys
  {
    KeysDisjoint();
  }

  /** Resetting leaves every UI flag as it was: the shortcut and the reset button do not open or
      close the panel or any section. */
  lemma ResetKeepsUiFlags(s: State)
    ensures forall k :: k in UiKeys && k in s ==> Reset(s)[k] == s[k]
    ensures PanelOpen(Reset(s)) == PanelOpen(s)
  {
    KeysDisjoint();
  }

  /** Reset is idempotent. */
  lemma ResetIdempotent(s: State)
    ensures Reset(Reset(s)) == Reset(s)
  {
    var r := Reset(s);
    assert Reset(r).Keys == r.Keys;
  }

  /** The payload of a state with no properties beyond the settings and the UI flags holds
      settings only. */
  lemma PayloadWithinSettings(s: State)
    requires s.Keys <= SettingsKeys + UiKeys
    ensures SavedPayload(s).Keys <= SettingsKeys
  {
    var p := SavedPayload(s);
    forall k | k in p ensures k in SettingsKeys {
      assert k in s && k !in UiKeys;
    }
  }

  /** Whatever the prior state, once reset the payload written is exactly `DEFAULT_SETTINGS`
      (for a state with no properties beyond the settings and the UI flags). */
  lemma ResetPayloadIsDefaults(s: State)
    requires s.Keys <= SettingsKeys + UiKeys
    ensures SavedPayload(Reset(s)) == DefaultSettings()
  {
    var r := Reset(s);
    var p := SavedPayload(r);
    ResetPayloadKeys(s);
    ResetPayloadValues(s);
    assert p.Keys == DefaultSettings().Keys;
  }

  lemma ResetPayloadKeys(s: State)
    requires s.Keys <= SettingsKeys + UiKeys
    ensures SavedPayload(Reset(s)).Keys == SettingsKeys
  {
    KeysDisjoint();
    var r := Reset(s);
    UnionWithin(s.Keys, SettingsKeys, UiKeys);
    PayloadWithinSettings(r);
  }

  lemma UnionWithin<T>(a: set<T>, b: set<T>, c: set<T>)
    requires a <= b + c
    ensures a + b <= b + c
  {
  }

  lemma ResetPayloadValues(s: State)
    ensures forall k :: k in SettingsKeys ==> k in SavedPayload(Reset(s)) && SavedPayload(Reset(s))[k] == DefaultSettings()[k]
  {
    KeysDisjoint();
    var r := Reset(s);
    forall k | k in SettingsKeys ensures k in SavedPayload(r) && SavedPayload(r)[k] == DefaultSettings()[k] {
      assert k in r && k !in UiKeys && r[k] == DefaultSettings()[k];
    }
  }

  /** Properties merged in from an older payload that are not settings survive a reset and are
      persisted again. */
  lemma ResetKeepsUnknownProperties(s: State, k: Key)
    requires k in s && k !in SettingsKeys && k !in UiKeys && s[k] != Undefined
    ensures k in SavedPayload(Reset(s)) && SavedPayload(Reset(s))[k] == s[k]
  {
  }

  /** Toggling the panel twice restores the state, as long as the flag held a boolean. */
  lemma TogglePanelTwice(s: State)
    requires IsPanelOpen in s && s[IsPanelOpen].Bool?
    ensures TogglePanel(TogglePanel(s)) == s
  {
    var r := TogglePanel(TogglePanel(s));
    assert r.Keys == s.Keys;
    assert r[IsPanelOpen] == s[IsPanelOpen];
  }

  /** The close button yields a closed panel from any state, and closing is idempotent. */
  lemma CloseIsClosed(s: State)
    ensures !PanelOpen(ClosePanel(s))
    ensures ClosePanel(ClosePanel(s)) == ClosePanel(s)
    ensures ClosePanel(TogglePanel(s)) == ClosePanel(s)
  {
  }

  /** Toggling a section twice restores the state, as long as its flag held a boolean. */
  lemma ToggleSectionTwice(s: State, name: string)
    requires SectionNamed(name).Some? ==> SectionFlag(SectionNamed(name).value) in s
    requires SectionNamed(name).Some? ==> s[SectionFlag(SectionNamed(name).value)].Bool?
    ensures ToggleSection(ToggleSection(s, name), name) == s
  {
    if SectionNamed(name).Some? {
      var flag := SectionFlag(SectionNamed(name).value);
      var r := ToggleSection(ToggleSection(s, name), name);
      assert r.Keys == s.Keys;
      assert r[flag] == s[flag];
    }
  }

  /** The three sections are independent: toggling two of them in either order gives the same
      state, and toggling one leaves the others' open state alone. */
  lemma SectionTogglesCommute(s: State, a: string, b: string)
    ensures ToggleSection(ToggleSection(s, a), b) == ToggleSection(ToggleSection(s, b), a)
  {
    if SectionNamed(a).Some? && SectionNamed(b).Some? {
      FlagTogglesCommute(s, SectionNamed(a).value, SectionNamed(b).value);
    }
  }

  lemma FlagTogglesCommute(s: State, sa: Section, sb: Section)
    ensures ToggleFlag(ToggleFlag(s, sa), sb) == ToggleFlag(ToggleFlag(s, sb), sa)
  {
    if sa != sb {
      var fa, fb := SectionFlag(sa), SectionFlag(sb);
      var va, vb := Bool(!SectionOpen(s, sa)), Bool(!SectionOpen(s, sb));
      assert fa != fb;
      assert ToggleFlag(s, sa) == s[fa := va] && ToggleFlag(s, sb) == s[fb := vb];
      assert Get(s[fa := va], fb) == Get(s, fb) && Get(s[fb := vb], fa) == Get(s, fa);
      UpdatesCommute(s, fa, va, fb, vb);
    }
  }

  lemma UpdatesCommute<K, V>(m: map<K, V>, a: K, va: V, b: K, vb: V)
    requires a != b
    ensures m[a := va][b := vb] == m[b := vb][a := va]
  {
  }

  lemma ToggleSectionLeavesOthers(s: State, name: string, other: Section)
    requires SectionNamed(name) != Some(other)
    ensures SectionOpen(ToggleSection(s, name), other) == SectionOpen(s, other)
    ensures PanelOpen(ToggleSection(s, name)) == PanelOpen(s)
  {
  }

  /** The sliders' handlers never touch a UI flag. */
  lemma SliderKeepsUiFlags(s: State, sl: Slider, percent: int)
    ensures forall k :: k in UiKeys ==> Get(SetSlider(s, sl, percent), k) == Get(s, k)
  {
    KeysDisjoint();
  }

  /** The radios' handler never touches a UI flag. */
  lemma RadioKeepsUiFlags(s: State, name: Option<string>, value: string)
    ensures forall k :: k in UiKeys ==> Get(RadioChanged(s, name, value), k) == Get(s, k)
  {
    KeysDisjoint();
  }

  /** The checkboxes' handler never touches a UI flag. */
  lemma CheckboxKeepsUiFlags(s: State, name: Option<string>, checked: bool)
    ensures forall k :: k in UiKeys ==> Get(CheckboxChanged(s, name, checked), k) == Get(s, k)
  {
    KeysDisjoint();
  }
}
