/** The pointer tracking of the reading mask and the reading guide: on every mouse move each
    overlay that is switched on is moved to the pointer's vertical position on the page. */
module Overlays {
  import opened JsValues
  import opened Settings
  import opened Styles

  /** The reading mask is a band of fixed height. */
  const MaskHeight := 100

  /** `window.scrollY || document.documentElement.scrollTop`: the root's offset is consulted
      only when `scrollY` is 0. */
  function ScrollTop(scrollY: int, rootScrollTop: int): (t: int)
    ensures scrollY != 0 ==> t == scrollY
    ensures scrollY == 0 ==> t == rootScrollTop
  {
    if scrollY != 0 then scrollY else rootScrollTop
  }

  /** The mask's `top`: the band is centred on the pointer's page position. */
  function MaskTop(clientY: int, scrollTop: int): (top: int)
    ensures top + MaskHeight / 2 == clientY + scrollTop
    ensures top <= clientY + scrollTop < top + MaskHeight
  {
    clientY + scrollTop - MaskHeight / 2
  }

  /** The guide's `top`: the line sits on the pointer's page position. */
  function GuideTop(clientY: int, scrollTop: int): (top: int)
    ensures top - scrollTop == clientY
  {
    clientY + scrollTop
  }

  /** The mouse-move handler: `positionReadingMask` then `positionReadingGuide`. Each moves its
      overlay only when its setting is on and the overlay exists; nothing else changes. */
  function MouseMoved(p: Page, s: State, clientY: int, scrollY: int, rootScrollTop: int): (r: Page)
    ensures r.bodyClasses == p.bodyClasses && r.styles == p.styles && r.filterNodes == p.filterNodes
    ensures r.root == p.root && r.body == p.body
    ensures Truthy(Get(s, ReadingMask)) && p.mask.Some? ==>
              r.mask == Some(p.mask.value.(top := Some(MaskTop(clientY, ScrollTop(scrollY, rootScrollTop)))))
    ensures !(Truthy(Get(s, ReadingMask)) && p.mask.Some?) ==> r.mask == p.mask
    ensures Truthy(Get(s, ReadingGuide)) && p.guide.Some? ==>
              r.guide == Some(p.guide.value.(top := Some(GuideTop(clientY, ScrollTop(scrollY, rootScrollTop)))))
    ensures !(Truthy(Get(s, ReadingGuide)) && p.guide.Some?) ==> r.guide == p.guide
  {
    var scrollTop := ScrollTop(scrollY, rootScrollTop);
    p.(mask := if Truthy(Get(s, ReadingMask)) && p.mask.Some? then Some(p.mask.value.(top := Some(MaskTop(clientY, scrollTop)))) else p.mask,
       guide := if Truthy(Get(s, ReadingGuide)) && p.guide.Some? then Some(p.guide.value.(top := Some(GuideTop(clientY, scrollTop)))) else p.guide)
  }

  /** Rendering never moves an overlay, and moving never changes what rendering decides: the two
      commute. */
  lemma RenderAndMoveCommute(p: Page, s: State, clientY: int, scrollY: int, rootScrollTop: int)
    ensures Render(MouseMoved(p, s, clientY, scrollY, rootScrollTop), s) ==
            MouseMoved(Render(p, s), s, clientY, scrollY, rootScrollTop)
  {
  }

  /** When both overlays are on, the mask's centre and the guide line are at the same height:
      the pointer's position on the page. */
  lemma MaskCentredOnGuide(p: Page, s: State, clientY: int, scrollY: int, rootScrollTop: int)
    requires p.mask.Some? && p.guide.Some?
    requires Truthy(Get(s, ReadingMask)) && Truthy(Get(s, ReadingGuide))
    ensures var r := MouseMoved(p, s, clientY, scrollY, rootScrollTop);
            r.mask.value.top.Some? && r.guide.value.top.Some? &&
            r.mask.value.top.value + MaskHeight / 2 == r.guide.value.top.value
  {
  }
}
