/**
 * A service card's hover state. On desktop the pointer
 * entering and leaving the card shows and hides its expertise overlay; on
 * mobile, where there is no hover, a tap toggles it instead.
 */
module Services {
  import opened Viewport

  datatype CardState = CardState(isHovered: bool, isMobile: bool)

  /** The initial state: not hovered, desktop layout. */
  const InitialCard: CardState := CardState(false, false)

  /** The viewport check, run on mount and on every resize. */
  function MobileChecked(s: CardState, width: int): CardState
  {
    s.(isMobile := IsMobileWidth(width))
  }

  /** The pointer enters the card. */
  function MouseEntered(s: CardState): CardState
  {
    if !s.isMobile then s.(isHovered := true) else s
  }

  /** The pointer leaves the card. */
  function MouseLeft(s: CardState): CardState
  {
    if !s.isMobile then s.(isHovered := false) else s
  }

  /** The card is clicked or tapped. */
  function Clicked(s: CardState): CardState
  {
    if s.isMobile then s.(isHovered := !s.isHovered) else s
  }

  /** The expertise overlay is drawn in. */
  predicate OverlayShown(s: CardState)
  {
    s.isHovered
  }

  lemma CheckMobileClassifies(s: CardState, width: int)
    ensures MobileChecked(s, width).isMobile <==> width < 768
    ensures MobileChecked(s, width).isHovered == s.isHovered
  {
  }

  /** On desktop the pointer decides: entering shows the overlay, leaving hides it. */
  lemma DesktopHover(s: CardState)
    requires !s.isMobile
    ensures OverlayShown(MouseEntered(s)) && !OverlayShown(MouseLeft(s))
    ensures !MouseEntered(s).isMobile && !MouseLeft(s).isMobile
    ensures Clicked(s) == s
  {
  }

  /** On mobile the pointer is ignored and a tap flips the overlay; two taps undo each other. */
  lemma MobileTap(s: CardState)
    requires s.isMobile
    ensures MouseEntered(s) == s && MouseLeft(s) == s
    ensures OverlayShown(Clicked(s)) == !OverlayShown(s) && Clicked(s).isMobile
    ensures Clicked(Clicked(s)) == s
  {
  }

  // ---------------------------------------------------------------------
  // Event sequences
  // ---------------------------------------------------------------------

  datatype CardEvent = Resize(width: int) | Enter | Leave | Click

  function Step(s: CardState, e: CardEvent): CardState
  {
    match e
    case Resize(w) => MobileChecked(s, w)
    case Enter => MouseEntered(s)
    case Leave => MouseLeft(s)
    case Click => Clicked(s)
  }

  function Run(s: CardState, events: seq<CardEvent>): CardState
    decreases |events|
  {
    if events == [] then s else Run(Step(s, events[0]), events[1..])
  }

  /** Only resize events change the viewport class. */
  lemma {:induction false} PointerEventsKeepViewportClass(s: CardState, events: seq<CardEvent>)
    requires forall k :: 0 <= k < |events| ==> !events[k].Resize?
    ensures Run(s, events).isMobile == s.isMobile
    decreases |events|
  {
    if events != [] {
      PointerEventsKeepViewportClass(Step(s, events[0]), events[1..]);
    }
  }

  /**
   * On a desktop viewport, the last pointer event decides the overlay:
   * after any events ending with a pointer leaving, the overlay is hidden,
   * whatever came before (taps included).
   */
  lemma {:induction false} DesktopLeaveHides(s: CardState, events: seq<CardEvent>)
    requires !s.isMobile
    requires forall k :: 0 <= k < |events| ==> !events[k].Resize?
    ensures !OverlayShown(Run(s, events + [Leave]))
    decreases |events|
  {
    if events == [] {
      assert events + [Leave] == [Leave];
    } else {
      assert (events + [Leave])[1..] == events[1..] + [Leave];
      DesktopLeaveHides(Step(s, events[0]), events[1..]);
    }
  }

  // ---------------------------------------------------------------------
  // The component
  // ---------------------------------------------------------------------

  /** A service card's state, updated in place by its handlers. */
  class ServiceCard {
    var isHovered: bool
    var isMobile: bool

    function State(): CardState
      reads this
    {
      CardState(isHovered, isMobile)
    }

    constructor ()
      ensures State() == InitialCard
    {
      isHovered, isMobile := false, false;
    }

    method CheckMobile(width: int)
      modifies this
      ensures State() == MobileChecked(old(State()), width)
    {
      isMobile := width < MobileBreakpoint;
    }

    method MouseEnter()
      modifies this
      ensures State() == MouseEntered(old(State()))
    {
      if !isMobile {
        isHovered := true;
      }
    }

    method MouseLeave()
      modifies this
      ensures State() == MouseLeft(old(State()))
    {
      if !isMobile {
        isHovered := false;
      }
    }

    method Click()
      modifies this
      ensures State() == Clicked(old(State()))
    {
      if isMobile {
        isHovered := !isHovered;
      }
    }
  }
}
