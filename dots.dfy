// The two page-indicator dots under the pager, styled from the swipe
// progress (0 on the Audio page, 1 on the Chat page) by clamped linear
// interpolation: the dot of the page being shown is bright and enlarged,
// the other is dimmed and shrunk.

module PageDots {
  import opened Interpolation
  import opened Swipe

  datatype DotStyle = DotStyle(opacity: real, scale: real)

  const DimOpacity: real := 0.35
  const FullOpacity: real := 1.0
  const SmallScale: real := 0.9
  const LargeScale: real := 1.1

  /** The Audio page's dot: full and large at progress 0, dim and small at 1. */
  function AudioDotStyle(progress: real): (d: DotStyle)
    ensures DimOpacity <= d.opacity <= FullOpacity
    ensures SmallScale <= d.scale <= LargeScale
  {
    DotStyle(Interpolate(progress, FullOpacity, DimOpacity),
             Interpolate(progress, LargeScale, SmallScale))
  }

  /** The Chat page's dot: dim and small at progress 0, full and large at 1. */
  function ChatDotStyle(progress: real): (d: DotStyle)
    ensures DimOpacity <= d.opacity <= FullOpacity
    ensures SmallScale <= d.scale <= LargeScale
  {
    DotStyle(Interpolate(progress, DimOpacity, FullOpacity),
             Interpolate(progress, SmallScale, LargeScale))
  }

  /** The two dots trade emphasis: at every progress their opacities add up
      to 1.35 and their scales to 2.0. */
  lemma DotsComplement(progress: real)
    ensures AudioDotStyle(progress).opacity + ChatDotStyle(progress).opacity == 1.35
    ensures AudioDotStyle(progress).scale + ChatDotStyle(progress).scale == 2.0
  {
  }

  /** The Chat dot at progress p looks like the Audio dot at progress 1 - p. */
  lemma DotsMirror(progress: real)
    ensures ChatDotStyle(progress) == AudioDotStyle(1.0 - progress)
  {
    ClampMirror(progress);
  }

  /** As the slider moves towards Chat the Audio dot fades and shrinks while
      the Chat dot brightens and grows. */
  lemma DotsFollowProgress(p: real, q: real)
    requires p <= q
    ensures AudioDotStyle(q).opacity <= AudioDotStyle(p).opacity
    ensures AudioDotStyle(q).scale <= AudioDotStyle(p).scale
    ensures ChatDotStyle(p).opacity <= ChatDotStyle(q).opacity
    ensures ChatDotStyle(p).scale <= ChatDotStyle(q).scale
  {
    InterpolateMonotone(p, q, FullOpacity, DimOpacity);
    InterpolateMonotone(p, q, LargeScale, SmallScale);
    InterpolateMonotone(p, q, DimOpacity, FullOpacity);
    InterpolateMonotone(p, q, SmallScale, LargeScale);
  }

  /** Once the slider has settled on a page, that page's dot is fully bright
      and large and the other dot fully dim and small. */
  lemma SettledPageDots(page: Page, width: real)
    requires width > 0.0
    ensures var p := ProgressOf(Offset(page, width), width);
            var shown := DotStyle(FullOpacity, LargeScale);
            var hidden := DotStyle(DimOpacity, SmallScale);
            (page == Audio ==> AudioDotStyle(p) == shown && ChatDotStyle(p) == hidden) &&
            (page == Chat ==> ChatDotStyle(p) == shown && AudioDotStyle(p) == hidden)
  {
    ProgressAtPages(width);
  }
}
