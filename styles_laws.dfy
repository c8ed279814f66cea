/** What `applyStyles` promises across calls: its dynamic rules are exactly those of the current
    state, nothing it injected earlier survives, calling it again changes nothing, and the
    host page's own classes and style elements are left alone. */
module StylesLaws {
  import opened JsValues
  import opened Settings
  import opened Styles

  lemma {:induction false} WithoutDynamicAppend(a: seq<StyleElement>, b: seq<StyleElement>)
    ensures WithoutDynamic(a + b) == WithoutDynamic(a) + WithoutDynamic(b)
  {
    if a == [] {
      assert a + b == b;
    } else {
      assert (a + b)[0] == a[0] && (a + b)[1..] == a[1..] + b;
      WithoutDynamicAppend(a[1..], b);
    }
  }

  lemma {:induction false} DynamicRulesAppend(a: seq<StyleElement>, b: seq<StyleElement>)
    ensures DynamicRules(a + b) == DynamicRules(a) + DynamicRules(b)
  {
    if a == [] {
      assert a + b == b;
    } else {
      assert (a + b)[0] == a[0] && (a + b)[1..] == a[1..] + b;
      DynamicRulesAppend(a[1..], b);
    }
  }

  /** Which rules a state injects: the saturation rule iff saturation is not 100, one filter rule
      (the table's CSS for the filter's name) iff a filter is set, and the image and animation
      rules iff their settings are on. */
  lemma RulesMeaning(s: State)
    ensures SaturationRule in Rules(s) <==> Get(s, Saturation) != Num(100)
    ensures (exists f :: FilterRule(f) in Rules(s)) <==> Truthy(Get(s, ColorFilter))
    ensures forall f :: FilterRule(f) in Rules(s) ==> f == FilterCss(ToText(Get(s, ColorFilter)))
    ensures HideImagesRule in Rules(s) <==> Truthy(Get(s, HideImages))
    ensures StopAnimationsRule in Rules(s) <==> Truthy(Get(s, StopAnimations))
  {
    var filter := FilterRule(FilterCss(ToText(Get(s, ColorFilter))));
    var a := Include(Get(s, Saturation) != Num(100), SaturationRule);
    var b := Include(Truthy(Get(s, ColorFilter)), filter);
    var c := Include(Truthy(Get(s, HideImages)), HideImagesRule);
    var d := Include(Truthy(Get(s, StopAnimations)), StopAnimationsRule);
    assert Rules(s) == a + b + c + d;
    assert forall x :: x in a + b + c + d <==> x in a || x in b || x in c || x in d;
    if Truthy(Get(s, ColorFilter)) {
      assert filter in Rules(s);
    }
  }

  /** No rule is injected twice. */
  lemma RulesDistinct(s: State)
    ensures forall i, j :: 0 <= i < j < |Rules(s)| ==> Rules(s)[i] != Rules(s)[j]
  {
  }

  /** Wrapping distributes over concatenation. */
  lemma DynamicsAppend(a: seq<Rule>, b: seq<Rule>)
    ensures Dynamics(a + b) == Dynamics(a) + Dynamics(b)
  {
    assert |Dynamics(a + b)| == |Dynamics(a) + Dynamics(b)|;
    forall i | 0 <= i < |a| + |b| ensures Dynamics(a + b)[i] == (Dynamics(a) + Dynamics(b))[i] {
      if i < |a| { assert (a + b)[i] == a[i]; } else { assert (a + b)[i] == b[i - |a|]; }
    }
  }

  lemma {:induction false} WithoutDynamicOfDynamics(rs: seq<Rule>)
    ensures WithoutDynamic(Dynamics(rs)) == []
    ensures DynamicRules(Dynamics(rs)) == rs
  {
    if rs != [] {
      WithoutDynamicOfDynamics(rs[1..]);
    }
  }

  lemma {:induction false} WithoutDynamicIsStable(es: seq<StyleElement>)
    ensures WithoutDynamic(WithoutDynamic(es)) == WithoutDynamic(es)
    ensures DynamicRules(WithoutDynamic(es)) == []
  {
    if es != [] {
      WithoutDynamicIsStable(es[1..]);
    }
  }

  /** After a render the dynamic style elements hold exactly the current state's rules, in
      order, and every other style element is the one that was there before, in order. */
  lemma RenderStyles(p: Page, s: State)
    ensures DynamicRules(Render(p, s).styles) == Rules(s)
    ensures WithoutDynamic(Render(p, s).styles) == WithoutDynamic(p.styles)
  {
    DynamicRulesAppend(WithoutDynamic(p.styles), Dynamics(Rules(s)));
    WithoutDynamicAppend(WithoutDynamic(p.styles), Dynamics(Rules(s)));
    WithoutDynamicOfDynamics(Rules(s));
    WithoutDynamicIsStable(p.styles);
  }

  /** Nothing an earlier render injected survives a later one: the style elements depend only on
      the page's own elements and the latest state. Setting a colour filter and then clearing it
      leaves no body filter behind. */
  lemma RenderForgetsEarlierStyles(p: Page, s1: State, s2: State)
    ensures Render(Render(p, s1), s2).styles == Render(p, s2).styles
    ensures !Truthy(Get(s2, ColorFilter)) ==>
              forall f :: Dynamic(FilterRule(f)) !in Render(Render(p, s1), s2).styles
  {
    RenderStyles(p, s1);
    RulesMeaning(s2);
  }

  lemma ReconcileClassesIdempotent(classes: set<string>, s: State)
    ensures ReconcileClasses(ReconcileClasses(classes, s), s) == ReconcileClasses(classes, s)
  {
    var once := ReconcileClasses(classes, s);
    var twice := ReconcileClasses(once, s);
    forall c ensures c in twice <==> c in once {
      if c in ThemeClasses {
        assert c in twice <==> Some(c) == ThemeClass(Get(s, ColorTheme));
      }
    }
  }

  /** Applying the styles twice with the state unchanged gives the same document as applying
      them once. */
  lemma RenderIdempotent(p: Page, s: State)
    ensures Render(Render(p, s), s) == Render(p, s)
  {
    RenderForgetsEarlierStyles(p, s, s);
    ReconcileClassesIdempotent(p.bodyClasses, s);
  }

  /** A theme the source knows: 'default' or one whose class is removed by the next render. */
  predicate KnownTheme(s: State)
  {
    ThemeClass(Get(s, ColorTheme)).None? || ThemeClass(Get(s, ColorTheme)).value in ThemeClasses
  }

  /** After a known theme, a later render leaves the classes as if the earlier one had not
      happened: the body classes the widget does not manage are untouched throughout. */
  lemma ReconcileForgetsKnownTheme(classes: set<string>, s1: State, s2: State)
    requires KnownTheme(s1)
    ensures ReconcileClasses(ReconcileClasses(classes, s1), s2) == ReconcileClasses(classes, s2)
  {
    var a := ReconcileClasses(ReconcileClasses(classes, s1), s2);
    var b := ReconcileClasses(classes, s2);
    ThemeClassNotFont(Get(s1, ColorTheme));
    forall c ensures c in a <==> c in b {
      if c in ThemeClasses {
        assert c in a <==> Some(c) == ThemeClass(Get(s2, ColorTheme));
        assert c in b <==> Some(c) == ThemeClass(Get(s2, ColorTheme));
      }
    }
  }

  /** A theme value from a stored payload that is none of the known ones (say 'sepia') puts a
      class that no later render removes: it stays when the theme goes back to 'default'. */
  lemma UnknownThemeClassLingers(classes: set<string>, s1: State, s2: State)
    requires !KnownTheme(s1) && Get(s2, ColorTheme) == Str("default")
    ensures ThemeClass(Get(s1, ColorTheme)).Some?
    ensures ThemeClass(Get(s1, ColorTheme)).value in ReconcileClasses(ReconcileClasses(classes, s1), s2)
  {
    ThemeClassNotFont(Get(s1, ColorTheme));
  }

  lemma ThemeClassIsDark(theme: Value)
    ensures ThemeClass(theme) == Some("a11y-dark") <==> ToText(theme) == "dark"
  {
    if ToText(theme) == "dark" {
      assert theme != Str("default");
      assert "a11y-" + "dark" == "a11y-dark";
    }
    if ThemeClass(theme) == Some("a11y-dark") {
      assert "a11y-dark"[5..] == "dark";
    }
  }

  /** The saturation rule is injected whenever saturation is not 100, the dark theme included,
      but it takes effect only when the theme is not dark. */
  lemma SaturationUnderDarkTheme(p: Page, s: State)
    ensures Dynamic(SaturationRule) in Render(p, s).styles <==> Get(s, Saturation) != Num(100)
    ensures SaturationApplies(Render(p, s)) <==>
              Get(s, Saturation) != Num(100) && ToText(Get(s, ColorTheme)) != "dark"
  {
    ThemeClassIsDark(Get(s, ColorTheme));
    RulesMeaning(s);
    assert Dynamic(SaturationRule) !in WithoutDynamic(p.styles);
    assert Dynamic(SaturationRule) in Dynamics(Rules(s)) <==> SaturationRule in Rules(s);
  }

  /** The SVG filter definitions are created only when absent and never removed: once a filter
      has been chosen there is exactly one such node, and a page that had at most one keeps at
      most one. */
  lemma FilterNodesAtMostOne(p: Page, s: State)
    ensures Render(p, s).filterNodes >= p.filterNodes
    ensures p.filterNodes <= 1 ==> Render(p, s).filterNodes <= 1
    ensures Truthy(Get(s, ColorFilter)) ==> Render(p, s).filterNodes >= 1
    ensures Truthy(Get(s, ColorFilter)) && p.filterNodes == 0 ==> Render(p, s).filterNodes == 1
  {
  }

  /** Reading mask: shown iff it is on, its opacity follows `maskOpacity` whether shown or not,
      so switching it off and on again restores it at the opacity set before. */
  lemma MaskFollowsState(p: Page, s: State, off: State, on: State)
    requires p.mask.Some?
    requires off == s[ReadingMask := Bool(false)] && on == s[ReadingMask := Bool(true)]
    ensures Render(p, s).mask.Some?
    ensures Render(p, s).mask.value.shown <==> Truthy(Get(s, ReadingMask))
    ensures Render(p, s).mask.value.opacity == Get(s, MaskOpacity)
    ensures Render(Render(p, on), off).mask.value.opacity == Get(s, MaskOpacity)
    ensures Render(Render(p, off), on).mask == Render(p, on).mask
  {
    assert Get(off, MaskOpacity) == Get(s, MaskOpacity) == Get(on, MaskOpacity);
  }

  /** Reading guide: shown iff it is on, coloured from the four-entry table with yellow as the
      fallback for any other value. */
  lemma GuideFollowsState(p: Page, s: State)
    requires p.guide.Some?
    ensures Render(p, s).guide.Some?
    ensures Render(p, s).guide.value.shown <==> Truthy(Get(s, ReadingGuide))
    ensures Get(s, GuideColor) == Str("blue") ==> Render(p, s).guide.value.color == "#0088ff"
    ensures Get(s, GuideColor) !in {Str("blue"), Str("red"), Str("green")} && !Get(s, GuideColor).Composite? ==>
              Render(p, s).guide.value.color == Yellow
  {
    var v := Get(s, GuideColor);
    if v !in {Str("blue"), Str("red"), Str("green")} && !v.Composite? {
      NonColourText(v);
    }
  }

  lemma NonColourText(v: Value)
    requires v !in {Str("blue"), Str("red"), Str("green")} && !v.Composite?
    ensures ToText(v) !in {"blue", "red", "green"}
  {
    if v.Num? {
      var t := ToText(v);
      assert '0' <= t[|t| - 1] <= '9' by {
        if v.n < 0 {
          assert t[1..] == NatText(-v.n);
        } else {
          assert t == NatText(v.n);
        }
      }
    }
  }
}
