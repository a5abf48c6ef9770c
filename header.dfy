/**
 * The navigation header: the active-section tracker driven by scroll
 * events, the menu drawer toggle, the mobile/desktop classification driven
 * by resize events, and the smooth-scroll action of a menu entry.
 *
 * The document is replaced by an oracle: a partial map from a section's
 * element id to that element's top offset. An id missing from the map is
 * an anchor the page does not have.
 */
module Header {
  import opened Wrappers
  import opened Viewport

  /** The fixed, ordered list of sections, in page order. */
  const MenuItems: seq<string> :=
    ["Home", "About", "Services", "Portfolio", "Experience", "Skills", "Blog", "Contact"]

  /** What is added to the scroll position to account for the fixed header bar. */
  const ScrollBias: int := 100

  /** The layout oracle: element id to its vertical offset in the document. */
  type Offsets = map<string, int>

  // ---------------------------------------------------------------------
  // Section ids: each menu label, lower-cased
  // ---------------------------------------------------------------------

  predicate IsUpper(c: char)
  {
    'A' <= c <= 'Z'
  }

  predicate NoUpper(s: string)
  {
    forall k :: 0 <= k < |s| ==> !IsUpper(s[k])
  }

  /** `d` is the lower-case letter of the upper-case letter `c`. */
  predicate IsLowerOf(d: char, c: char)
  {
    IsUpper(c) && d as int == c as int + 32
  }

  function LowerChar(c: char): (d: char)
    ensures !IsUpper(d)
    ensures IsUpper(c) ==> IsLowerOf(d, c)
    ensures !IsUpper(c) ==> d == c
  {
    if IsUpper(c) then (c as int + 32) as char else c
  }

  /** Lower-casing, on the ASCII letters the menu labels are made of. */
  function ToLowerCase(s: string): (r: string)
    ensures |r| == |s| && NoUpper(r)
    ensures forall k :: 0 <= k < |s| && !IsUpper(s[k]) ==> r[k] == s[k]
    ensures NoUpper(s) ==> r == s
  {
    seq(|s|, k requires 0 <= k < |s| => LowerChar(s[k]))
  }

  /** Each upper-case letter becomes its own lower-case letter. */
  lemma ToLowerCaseLowersCapitals(s: string)
    ensures forall k :: 0 <= k < |s| && IsUpper(s[k]) ==> IsLowerOf(ToLowerCase(s)[k], s[k])
  {
  }

  /** The element id of menu entry `i`, which is also the target of its link. */
  function SectionId(i: nat): string
    requires i < |MenuItems|
  {
    ToLowerCase(MenuItems[i])
  }

  /** Each menu entry has its own anchor id. */
  lemma SectionIdsDistinct(i: nat, j: nat)
    requires i < |MenuItems| && j < |MenuItems| && i != j
    ensures SectionId(i) != SectionId(j)
  {
    // Entries of equal length differ in their first letter.
    assert SectionId(i)[0] == LowerChar(MenuItems[i][0]);
    assert SectionId(j)[0] == LowerChar(MenuItems[j][0]);
    assert |SectionId(i)| == |MenuItems[i]| && |SectionId(j)| == |MenuItems[j]|;
  }

  /** The ids are those the page's sections carry. */
  lemma SectionIdValues()
    ensures SectionId(0) == "home" && SectionId(1) == "about"
    ensures SectionId(2) == "services" && SectionId(3) == "portfolio"
    ensures SectionId(4) == "experience" && SectionId(5) == "skills"
    ensures SectionId(6) == "blog" && SectionId(7) == "contact"
  {
    LowersTo(MenuItems[0], "home");
    LowersTo(MenuItems[1], "about");
    LowersTo(MenuItems[2], "services");
    LowersTo(MenuItems[3], "portfolio");
    LowersTo(MenuItems[4], "experience");
    LowersTo(MenuItems[5], "skills");
    LowersTo(MenuItems[6], "blog");
    LowersTo(MenuItems[7], "contact");
  }

  /** Helper: `t` is `s` lower-cased when it is so letter by letter. */
  lemma LowersTo(s: string, t: string)
    requires |s| == |t| && forall k :: 0 <= k < |s| ==> LowerChar(s[k]) == t[k]
    ensures ToLowerCase(s) == t
  {
  }

  // ---------------------------------------------------------------------
  // The scroll tracker's matching rule
  // ---------------------------------------------------------------------

  /**
   * The offset of each menu entry's element, looked up by its lowercase id,
   * or None where the page has no such element.
   */
  function SectionElements(offsets: Offsets): (sections: seq<Option<int>>)
    ensures |sections| == |MenuItems|
    ensures forall i :: 0 <= i < |MenuItems| ==>
      (sections[i].Some? <==> SectionId(i) in offsets)
    ensures forall i :: 0 <= i < |MenuItems| && SectionId(i) in offsets ==>
      sections[i].value == offsets[SectionId(i)]
  {
    seq(|MenuItems|, i requires 0 <= i < |MenuItems| =>
      if SectionId(i) in offsets then Some(offsets[SectionId(i)]) else None)
  }

  /** Element `i` exists and its top is at or above the biased scroll position. */
  predicate Reached(sections: seq<Option<int>>, scrollPosition: int, i: int)
    requires 0 <= i < |sections|
  {
    sections[i].Some? && sections[i].value <= scrollPosition
  }

  /**
   * The greatest index below `n` whose element is reached, or None when
   * none of the first `n` is.
   */
  function LastReached(sections: seq<Option<int>>, scrollPosition: int, n: nat): (r: Option<nat>)
    requires n <= |sections|
    ensures r.Some? ==> r.value < n && Reached(sections, scrollPosition, r.value)
    ensures r.Some? ==> forall j :: r.value < j < n ==> !Reached(sections, scrollPosition, j)
    ensures r.None? <==> forall j :: 0 <= j < n ==> !Reached(sections, scrollPosition, j)
    decreases n
  {
    if n == 0 then None
    else if Reached(sections, scrollPosition, n - 1) then Some(n - 1)
    else LastReached(sections, scrollPosition, n - 1)
  }

  /** Section `i` of the page counts as scrolled to: its element exists and its top is within reach. */
  predicate SectionReached(offsets: Offsets, scrollY: int, i: nat)
    requires i < |MenuItems|
  {
    SectionId(i) in offsets && offsets[SectionId(i)] <= scrollY + ScrollBias
  }

  /** No section of the page is reached. */
  predicate NoneReached(offsets: Offsets, scrollY: int)
  {
    forall j :: 0 <= j < |MenuItems| ==> !SectionReached(offsets, scrollY, j)
  }

  /** Section `i` is reached and no later section is. */
  predicate GreatestReached(offsets: Offsets, scrollY: int, i: nat)
  {
    i < |MenuItems| && SectionReached(offsets, scrollY, i) &&
    forall j :: i < j < |MenuItems| ==> !SectionReached(offsets, scrollY, j)
  }

  /**
   * The tracker's decision stated on the page directly: the greatest
   * reached section, or None when no section is reached.
   */
  lemma TrackerPicksGreatestReached(offsets: Offsets, scrollY: int)
    ensures var r := LastReached(SectionElements(offsets), scrollY + ScrollBias, |MenuItems|);
      (r.None? <==> NoneReached(offsets, scrollY)) &&
      (r.Some? ==> GreatestReached(offsets, scrollY, r.value))
  {
    var sections := SectionElements(offsets);
    var position := scrollY + ScrollBias;
    forall j | 0 <= j < |MenuItems|
      ensures Reached(sections, position, j) <==> SectionReached(offsets, scrollY, j)
    {
    }
    var r := LastReached(sections, position, |MenuItems|);
    if r.Some? {
      assert GreatestReached(offsets, scrollY, r.value);
    }
  }

  // ---------------------------------------------------------------------
  // The header's state and its transitions
  // ---------------------------------------------------------------------

  datatype NavState = NavState(activeSection: string, isMenuOpen: bool, isMobile: bool)

  /** The initial state: Home active, the drawer closed, the desktop layout. */
  const InitialNav: NavState := NavState("Home", false, false)

  /** The active section is a menu entry. */
  predicate ValidNav(s: NavState)
  {
    s.activeSection in MenuItems
  }

  /** The resize handler. */
  function Resized(s: NavState, width: int): NavState
  {
    s.(isMobile := IsMobileWidth(width))
  }

  /** The scroll handler: the greatest reached entry becomes active; nothing changes when none is. */
  function Scrolled(s: NavState, offsets: Offsets, scrollY: int): NavState
  {
    match LastReached(SectionElements(offsets), scrollY + ScrollBias, |MenuItems|)
    case Some(i) => s.(activeSection := MenuItems[i])
    case None => s
  }

  /** The drawer toggle. */
  function MenuToggled(s: NavState): NavState
  {
    s.(isMenuOpen := !s.isMenuOpen)
  }

  /** A menu entry's click handler: the new state and the scroll request issued, if any. */
  function SmoothScrolled(s: NavState, offsets: Offsets, targetId: string): (NavState, Option<int>)
  {
    (if s.isMobile then MenuToggled(s) else s,
     if targetId in offsets then Some(offsets[targetId]) else None)
  }

  /** The viewport is mobile exactly when it is narrower than 768; nothing else changes. */
  lemma ResizeClassifies(s: NavState, width: int)
    ensures Resized(s, width).isMobile <==> width < 768
    ensures Resized(s, width).activeSection == s.activeSection
    ensures Resized(s, width).isMenuOpen == s.isMenuOpen
  {
  }

  /**
   * After a scroll, the active section is the last menu entry whose
   * element exists with its top at most 100 below the scroll position; when there is none,
   * the state is unchanged. The menu and viewport flags never change.
   */
  lemma ScrollActivatesLastReached(s: NavState, offsets: Offsets, scrollY: int)
    ensures Scrolled(s, offsets, scrollY).isMenuOpen == s.isMenuOpen
    ensures Scrolled(s, offsets, scrollY).isMobile == s.isMobile
    ensures NoneReached(offsets, scrollY) ==> Scrolled(s, offsets, scrollY) == s
    ensures forall i: nat :: GreatestReached(offsets, scrollY, i) ==>
      Scrolled(s, offsets, scrollY).activeSection == MenuItems[i]
  {
    TrackerPicksGreatestReached(offsets, scrollY);
  }

  /** The active section stays a menu entry. */
  lemma ScrollKeepsValid(s: NavState, offsets: Offsets, scrollY: int)
    requires ValidNav(s)
    ensures ValidNav(Scrolled(s, offsets, scrollY))
  {
  }

  /** Toggling flips the drawer flag, and toggling twice restores it. */
  lemma ToggleFlips(s: NavState)
    ensures MenuToggled(s).isMenuOpen == !s.isMenuOpen
    ensures MenuToggled(s).activeSection == s.activeSection && MenuToggled(s).isMobile == s.isMobile
    ensures MenuToggled(MenuToggled(s)) == s
  {
  }

  /**
   * A scroll to exactly the target's offset is requested when the id
   * resolves, and none otherwise. On mobile the drawer is toggled either
   * way (so an open drawer closes); on desktop it is untouched. The active
   * section is left to the scroll events that follow.
   */
  lemma SmoothScrollContract(s: NavState, offsets: Offsets, targetId: string)
    ensures var (t, request) := SmoothScrolled(s, offsets, targetId);
      (request.Some? <==> targetId in offsets) &&
      (request.Some? ==> request.value == offsets[targetId]) &&
      (t.isMenuOpen == if s.isMobile then !s.isMenuOpen else s.isMenuOpen) &&
      (s.isMobile && s.isMenuOpen ==> !t.isMenuOpen) &&
      t.activeSection == s.activeSection && t.isMobile == s.isMobile
  {
  }

  /** Activating menu entry `i` targets that entry's own section. */
  lemma NavItemScrollsToOwnSection(s: NavState, offsets: Offsets, i: nat)
    requires i < |MenuItems|
    ensures var (_, request) := SmoothScrolled(s, offsets, SectionId(i));
      request == SectionElements(offsets)[i]
  {
  }

  /** The entry drawn underlined: the one equal to the active section. */
  predicate IsHighlighted(s: NavState, i: nat)
    requires i < |MenuItems|
  {
    s.activeSection == MenuItems[i]
  }

  /** In a valid state exactly one menu entry is underlined. */
  lemma ExactlyOneHighlighted(s: NavState)
    requires ValidNav(s)
    ensures exists i :: 0 <= i < |MenuItems| && IsHighlighted(s, i)
    ensures forall i, j ::
      (0 <= i < |MenuItems| && 0 <= j < |MenuItems| && IsHighlighted(s, i) && IsHighlighted(s, j)) ==> i == j
  {
    var k :| 0 <= k < |MenuItems| && MenuItems[k] == s.activeSection;
    assert IsHighlighted(s, k);
    forall i, j | 0 <= i < |MenuItems| && 0 <= j < |MenuItems| && i != j
      ensures MenuItems[i] != MenuItems[j]
    {
      SectionIdsDistinct(i, j);
    }
  }

  // ---------------------------------------------------------------------
  // Event sequences
  // ---------------------------------------------------------------------

  /** The events the header reacts to. */
  datatype NavEvent =
    | Resize(width: int)
    | Scroll(offsets: Offsets, scrollY: int)
    | ToggleClick
    | NavClick(offsets: Offsets, targetId: string)

  function Step(s: NavState, e: NavEvent): NavState
  {
    match e
    case Resize(w) => Resized(s, w)
    case Scroll(o, y) => Scrolled(s, o, y)
    case ToggleClick => MenuToggled(s)
    case NavClick(o, id) => SmoothScrolled(s, o, id).0
  }

  function Run(s: NavState, events: seq<NavEvent>): NavState
    decreases |events|
  {
    if events == [] then s else Run(Step(s, events[0]), events[1..])
  }

  /** Whatever events arrive after page load, the active section is a menu entry. */
  lemma {:induction false} ActiveSectionAlwaysInMenu(s: NavState, events: seq<NavEvent>)
    requires ValidNav(s)
    ensures ValidNav(Run(s, events))
    decreases |events|
  {
    if events != [] {
      match events[0] {
        case Scroll(o, y) => ScrollKeepsValid(s, o, y);
        case _ =>
      }
      ActiveSectionAlwaysInMenu(Step(s, events[0]), events[1..]);
    }
  }

  /** Sections at 0, 800 and 1600: three scans worked through. */
  lemma TrackerExample()
    ensures var o := map["home" := 0, "about" := 800, "services" := 1600];
      Scrolled(InitialNav, o, 750).activeSection == "About" &&
      Scrolled(InitialNav, o, 0).activeSection == "Home" &&
      Scrolled(InitialNav, o, 1700).activeSection == "Services"
  {
    var o := map["home" := 0, "about" := 800, "services" := 1600];
    var sections := ExampleSections(o);
    ScrollAt(sections, 850, 1);
    ScrollAt(sections, 100, 0);
    ScrollAt(sections, 1800, 2);
  }

  /** Helper: with only home, about and services on the page, only the first three slots are filled. */
  lemma ExampleSections(o: Offsets) returns (sections: seq<Option<int>>)
    requires o == map["home" := 0, "about" := 800, "services" := 1600]
    ensures sections == SectionElements(o)
    ensures |sections| == 8 && sections[3..] == [None, None, None, None, None]
    ensures sections[0] == Some(0) && sections[1] == Some(800) && sections[2] == Some(1600)
  {
    SectionIdValues();
    sections := SectionElements(o);
    assert sections[3..] == [None, None, None, None, None] by {
      forall k | 3 <= k < 8 ensures sections[k] == None {
        assert SectionId(k) !in o;
      }
    }
  }

  /** Helper: the scan over eight sections of which only the first three exist. */
  lemma ScrollAt(sections: seq<Option<int>>, position: int, i: nat)
    requires |sections| == 8 && sections[3..] == [None, None, None, None, None]
    requires i < 3 && Reached(sections, position, i)
    requires forall j :: i < j < 3 ==> !Reached(sections, position, j)
    ensures LastReached(sections, position, 8) == Some(i)
  {
    assert forall j :: 3 <= j < 8 ==> sections[j] == sections[3..][j - 3];
  }

  // ---------------------------------------------------------------------
  // The component
  // ---------------------------------------------------------------------

  /** The `Header` component's state, updated in place by its handlers. */
  class Navigation {
    var activeSection: string
    var isMenuOpen: bool
    var isMobile: bool

    function State(): NavState
      reads this
    {
      NavState(activeSection, isMenuOpen, isMobile)
    }

    constructor ()
      ensures State() == InitialNav && ValidNav(State())
    {
      activeSection, isMenuOpen, isMobile := "Home", false, false;
    }

    /** The resize handler, also run once on mount. */
    method HandleResize(width: int)
      modifies this
      ensures State() == Resized(old(State()), width)
    {
      isMobile := width < MobileBreakpoint;
    }

    /** The scroll handler: the reverse scan with an early exit. */
    method HandleScroll(offsets: Offsets, scrollY: int)
      modifies this
      ensures State() == Scrolled(old(State()), offsets, scrollY)
    {
      var sections := SectionElements(offsets);
      var scrollPosition := scrollY + ScrollBias;
      var i := |sections| - 1;
      while i >= 0
        invariant -1 <= i < |sections|
        invariant forall j :: i < j < |sections| ==> !Reached(sections, scrollPosition, j)
        invariant State() == old(State())
      {
        if sections[i].Some? && sections[i].value <= scrollPosition {
          ghost var r := LastReached(sections, scrollPosition, |sections|);
          assert r.Some? && r.value == i by {
            assert Reached(sections, scrollPosition, i);
          }
          activeSection := MenuItems[i];
          break;
        }
        i := i - 1;
      }
      assert i == -1 ==> LastReached(sections, scrollPosition, |sections|) == None;
    }

    /** The drawer toggle. */
    method ToggleMenu()
      modifies this
      ensures State() == MenuToggled(old(State()))
    {
      isMenuOpen := !isMenuOpen;
    }

    /** A menu entry's click handler: returns the scroll target, if one is requested. */
    method HandleSmoothScroll(offsets: Offsets, targetId: string) returns (scrollTo: Option<int>)
      modifies this
      ensures (State(), scrollTo) == SmoothScrolled(old(State()), offsets, targetId)
    {
      scrollTo := None;
      if targetId in offsets {
        scrollTo := Some(offsets[targetId]);
      }
      if isMobile {
        ToggleMenu();
      }
    }
  }
}
