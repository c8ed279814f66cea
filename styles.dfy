/** What `applyStyles` does to the host document, as a function from the document it finds and
    the state to the document it leaves.

    The document is reduced to the parts the widget writes: the body's class list, the style
    elements (the widget's dynamic ones and everybody else's), the number of `a11y-filters`
    nodes, three custom properties on the root element, four inline body styles and the two
    overlays. Percent settings stay integer percents; the divisions by 100 that turn them into
    CSS scale factors are not modelled.
 */
module Styles {
  import opened JsValues
  import opened Settings

  /** The rule held by one `<style class="a11y-dynamic-style">` element. */
  datatype Rule =
    | SaturationRule               // img and video under body:not(.a11y-dark) get saturate(var(--a11y-saturation))
    | FilterRule(filter: string)   // body { filter: <filter> }
    | HideImagesRule               // img, svg, picture, video hidden
    | StopAnimationsRule           // every element: animation and transition none

  /** A style element of the document: one the widget created as dynamic, or any other. */
  datatype StyleElement = Other(id: nat) | Dynamic(rule: Rule)

  /** Custom properties on the root element (percents, `Undefined` while unset). */
  datatype RootVars = RootVars(fontScale: Value, lineHeight: Value, saturation: Value)

  /** Inline styles on the body. */
  datatype BodyStyle = BodyStyle(fontSize: string, lineHeight: string, textAlign: Value, fontFamily: string)

  /** The reading mask and reading guide overlays: shown or not, their look, their `top` in
      pixels once positioned. */
  datatype Mask = Mask(shown: bool, opacity: Value, top: Option<int>)
  datatype Guide = Guide(shown: bool, color: string, top: Option<int>)

  datatype Page = Page(
    bodyClasses: set<string>,
    styles: seq<StyleElement>,
    filterNodes: nat,
    root: RootVars,
    body: BodyStyle,
    mask: Option<Mask>,
    guide: Option<Guide>)

  const FontClasses: set<string> := {"font-readable", "font-dyslexic"}
  const ThemeClasses: set<string> := {"a11y-dark", "a11y-high-contrast", "a11y-low-contrast"}

  const FontSizeCss := "calc(var(--a11y-font-scale) * 1em)"
  const LineHeightCss := "calc(var(--a11y-line-height) * 1.5)"
  const Yellow := "#ffee00"

  /** The `filterStyles` table: the CSS filter for a colour-filter name, `undefined` (printed
      into the rule as is) for a name it does not hold. */
  function FilterCss(name: string): (css: string)
    ensures name == "monochrome" <==> css == "grayscale(100%)"
    ensures name == "protanopia" <==> css == "url(#protanopia-filter)"
    ensures name == "deuteranopia" <==> css == "url(#deuteranopia-filter)"
    ensures name == "tritanopia" <==> css == "url(#tritanopia-filter)"
    ensures name !in {"monochrome", "protanopia", "deuteranopia", "tritanopia"} <==> css == "undefined"
  {
    if name == "monochrome" then "grayscale(100%)"
    else if name == "protanopia" then "url(#protanopia-filter)"
    else if name == "deuteranopia" then "url(#deuteranopia-filter)"
    else if name == "tritanopia" then "url(#tritanopia-filter)"
    else "undefined"
  }

  /** The `guideColors` table with its fallback: always one of the four colours, and yellow
      unless the name is one of the other three. */
  function GuideColorCss(name: string): (css: string)
    ensures css in {Yellow, "#0088ff", "#ff5555", "#44cc44"}
    ensures css == Yellow <==> name !in {"blue", "red", "green"}
    ensures name == "blue" <==> css == "#0088ff"
    ensures name == "red" <==> css == "#ff5555"
    ensures name == "green" <==> css == "#44cc44"
  {
    if name == "blue" then "#0088ff"
    else if name == "red" then "#ff5555"
    else if name == "green" then "#44cc44"
    else Yellow
  }

  /** The class `fontFamily` puts on the body, if any. */
  function FontClass(family: Value): (c: Option<string>)
    ensures c == Some("font-readable") <==> family == Str("readable")
    ensures c == Some("font-dyslexic") <==> family == Str("dyslexic")
    ensures c.None? <==> family !in {Str("readable"), Str("dyslexic")}
  {
    if family == Str("readable") then Some("font-readable")
    else if family == Str("dyslexic") then Some("font-dyslexic")
    else None
  }

  /** The body's inline font stack for `fontFamily`; empty clears any override. */
  function FontStack(family: Value): (stack: string)
    ensures stack == "" <==> family !in {Str("readable"), Str("dyslexic"), Str("monospace")}
  {
    if family == Str("readable") then "Arial, sans-serif"
    else if family == Str("dyslexic") then "OpenDyslexic, Comic Sans MS, cursive"
    else if family == Str("monospace") then "Courier New, monospace"
    else ""
  }

  /** The class `colorTheme` puts on the body: `a11y-<theme>` unless the theme is 'default'. */
  function ThemeClass(theme: Value): (c: Option<string>)
    ensures c.None? <==> theme == Str("default")
    ensures c.Some? ==> |c.value| >= 5 && c.value[..5] == "a11y-" && c.value[5..] == ToText(theme)
  {
    if theme == Str("default") then None else Some("a11y-" + ToText(theme))
  }

  function OptionSet(o: Option<string>): (r: set<string>)
    ensures forall c :: c in r <==> o == Some(c)
  {
    if o.Some? then {o.value} else {}
  }

  /** Body classes after the font-family step and then the colour-theme step. */
  function ReconcileClasses(classes: set<string>, s: State): (r: set<string>)
    ensures forall c :: c !in FontClasses && c !in ThemeClasses && Some(c) != ThemeClass(Get(s, ColorTheme)) ==>
              (c in r <==> c in classes)
    ensures "font-readable" in r <==> Get(s, FontFamily) == Str("readable")
    ensures "font-dyslexic" in r <==> Get(s, FontFamily) == Str("dyslexic")
    ensures ThemeClass(Get(s, ColorTheme)).Some? ==> ThemeClass(Get(s, ColorTheme)).value in r
    ensures forall c :: c in ThemeClasses && c in r ==> Some(c) == ThemeClass(Get(s, ColorTheme))
  {
    var afterFont := (classes - FontClasses) + OptionSet(FontClass(Get(s, FontFamily)));
    ThemeClassNotFont(Get(s, ColorTheme));
    (afterFont - ThemeClasses) + OptionSet(ThemeClass(Get(s, ColorTheme)))
  }

  lemma ThemeClassNotFont(theme: Value)
    ensures ThemeClass(theme).Some? ==> ThemeClass(theme).value !in FontClasses
  {
    if ThemeClass(theme).Some? {
      var c := ThemeClass(theme).value;
      assert c[0] == 'a';
      assert "font-readable"[0] == 'f' && "font-dyslexic"[0] == 'f';
    }
  }

  function Include(b: bool, r: Rule): (rs: seq<Rule>)
    ensures forall x :: x in rs <==> b && x == r
    ensures |rs| <= 1
  {
    if b then [r] else []
  }

  /** The dynamic rules for a state, in the order `applyStyles` appends them. */
  function Rules(s: State): seq<Rule>
  {
    Include(Get(s, Saturation) != Num(100), SaturationRule) +
    Include(Truthy(Get(s, ColorFilter)), FilterRule(FilterCss(ToText(Get(s, ColorFilter))))) +
    Include(Truthy(Get(s, HideImages)), HideImagesRule) +
    Include(Truthy(Get(s, StopAnimations)), StopAnimationsRule)
  }

  /** Each rule wrapped in its own dynamic style element. */
  function Dynamics(rs: seq<Rule>): (es: seq<StyleElement>)
    ensures |es| == |rs|
    ensures forall i :: 0 <= i < |rs| ==> es[i] == Dynamic(rs[i])
  {
    if rs == [] then [] else [Dynamic(rs[0])] + Dynamics(rs[1..])
  }

  /** The style elements that survive `querySelectorAll('.a11y-dynamic-style')` removal, in
      their order. */
  function WithoutDynamic(es: seq<StyleElement>): (r: seq<StyleElement>)
    ensures |r| <= |es|
    ensures forall e :: e in r <==> e in es && e.Other?
  {
    if es == [] then []
    else if es[0].Dynamic? then WithoutDynamic(es[1..])
    else [es[0]] + WithoutDynamic(es[1..])
  }

  /** The rules held by the dynamic style elements, in their order. */
  function DynamicRules(es: seq<StyleElement>): (rs: seq<Rule>)
    ensures forall r :: r in rs <==> Dynamic(r) in es
  {
    if es == [] then []
    else if es[0].Dynamic? then [es[0].rule] + DynamicRules(es[1..])
    else DynamicRules(es[1..])
  }

  /** `applyStyles` on everything but the controls and the media elements. */
  function Render(p: Page, s: State): Page
  {
    Page(
      bodyClasses := ReconcileClasses(p.bodyClasses, s),
      styles := WithoutDynamic(p.styles) + Dynamics(Rules(s)),
      filterNodes := if Truthy(Get(s, ColorFilter)) && p.filterNodes == 0 then 1 else p.filterNodes,
      root := RootVars(Get(s, FontSize), Get(s, LineSpacing), Get(s, Saturation)),
      body := BodyStyle(FontSizeCss, LineHeightCss, Get(s, TextAlignment), FontStack(Get(s, FontFamily))),
      mask := if p.mask.Some? then Some(p.mask.value.(shown := Truthy(Get(s, ReadingMask)),
                                                        opacity := Get(s, MaskOpacity)))
              else None,
      guide := if p.guide.Some? then Some(p.guide.value.(shown := Truthy(Get(s, ReadingGuide)),
                                                          color := GuideColorCss(ToText(Get(s, GuideColor)))))
               else None)
  }

  /** The saturation rule takes effect: it is present and the body is not under the dark theme,
      whose selector `body:not(.a11y-dark)` switches it off. */
  predicate SaturationApplies(p: Page)
  {
    Dynamic(SaturationRule) in p.styles && "a11y-dark" !in p.bodyClasses
  }

  /** `muteSound`'s one-shot sweep over the media elements' `muted` flags. */
  function MutedMedia(muted: seq<bool>, s: State): (r: seq<bool>)
    ensures |r| == |muted|
    ensures Truthy(Get(s, MuteSound)) ==> forall i :: 0 <= i < |r| ==> r[i]
    ensures !Truthy(Get(s, MuteSound)) ==> r == muted
  {
    if Truthy(Get(s, MuteSound)) then seq(|muted|, _ => true) else muted
  }
}
