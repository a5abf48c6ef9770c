/**
 * The responsive breakpoint shared by the navigation header and the
 * service cards: a viewport narrower than 768 pixels is "mobile".
 */
module Viewport {

  /** The smallest width that is still laid out as desktop. */
  const MobileBreakpoint: int := 768

  /** A viewport narrower than the breakpoint is mobile. */
  predicate IsMobileWidth(width: int)
  {
    width < MobileBreakpoint
  }

  /** 767 is the widest mobile viewport, 768 the narrowest desktop one. */
  lemma BreakpointBoundary(width: int)
    ensures IsMobileWidth(width) <==> width <= 767
    ensures !IsMobileWidth(768) && IsMobileWidth(767)
  {
  }
}
