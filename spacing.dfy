/** The layout values the screens take from the window width (`useResponsiveSpacing`). */
module Spacing {

  datatype Layout = Layout(
    horizontal: int, vertical: int, gap: int, modalWidth: int,
    contentMaxWidth: int, isCompact: bool, isTablet: bool)

  function Min(a: int, b: int): int {
    if a <= b then a else b
  }

  /** The spacing for a window `width` points wide. */
  function ResponsiveSpacing(width: int): (l: Layout)
    ensures !(l.isCompact && l.isTablet)
    ensures l.modalWidth <= width - 2 * l.horizontal
    ensures l.modalWidth <= (if l.isTablet then 640 else 520)
    ensures l.modalWidth == width - 2 * l.horizontal || l.modalWidth == (if l.isTablet then 640 else 520)
    ensures l.contentMaxWidth <= width - 2 * l.horizontal
    ensures l.isTablet ==> l.contentMaxWidth <= 720
    ensures l.isTablet ==> l.contentMaxWidth == width - 2 * l.horizontal || l.contentMaxWidth == 720
    ensures !l.isTablet ==> l.contentMaxWidth == width - 2 * l.horizontal
  {
    var isCompact := width < 360;
    var isTablet := width >= 768;
    var horizontal := if isCompact then 12 else if isTablet then 32 else 20;
    var vertical := if isCompact then 12 else 20;
    var gap := if isCompact then 12 else 16;
    var modalWidth := Min(width - horizontal * 2, if isTablet then 640 else 520);
    var contentMaxWidth := if isTablet then Min(width - horizontal * 2, 720) else width - horizontal * 2;
    Layout(horizontal, vertical, gap, modalWidth, contentMaxWidth, isCompact, isTablet)
  }

  /** The three width classes and the spacing each one gets. */
  lemma WidthClasses(width: int)
    ensures ResponsiveSpacing(width).isCompact <==> width < 360
    ensures ResponsiveSpacing(width).isTablet <==> width >= 768
    ensures width < 360 ==> ResponsiveSpacing(width).horizontal == 12
    ensures 360 <= width < 768 ==> ResponsiveSpacing(width).horizontal == 20
    ensures 768 <= width ==> ResponsiveSpacing(width).horizontal == 32
    ensures ResponsiveSpacing(width).vertical == (if width < 360 then 12 else 20)
    ensures ResponsiveSpacing(width).gap == (if width < 360 then 12 else 16)
  {
  }

  /** Nothing clamps from below: a window narrower than 24 points gives negative widths. */
  lemma NoLowerClamp(width: int)
    requires width < 24
    ensures ResponsiveSpacing(width).modalWidth < 0
    ensures ResponsiveSpacing(width).contentMaxWidth < 0
  {
  }

  /** Within one width class the content width never shrinks as the window grows. */
  lemma ContentWidthMonotoneWithinClass(w1: int, w2: int)
    requires w1 <= w2
    requires ResponsiveSpacing(w1).isCompact == ResponsiveSpacing(w2).isCompact
    requires ResponsiveSpacing(w1).isTablet == ResponsiveSpacing(w2).isTablet
    ensures ResponsiveSpacing(w1).contentMaxWidth <= ResponsiveSpacing(w2).contentMaxWidth
    ensures ResponsiveSpacing(w1).modalWidth <= ResponsiveSpacing(w2).modalWidth
  {
  }

  /** Across each breakpoint the content width drops, because the margins grow. */
  lemma ContentWidthDropsAtBreakpoints()
    ensures ResponsiveSpacing(359).contentMaxWidth == 335 && ResponsiveSpacing(360).contentMaxWidth == 320
    ensures ResponsiveSpacing(767).contentMaxWidth == 727 && ResponsiveSpacing(768).contentMaxWidth == 704
  {
  }
}
