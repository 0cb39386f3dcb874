/** The sidebar context (src/contexts/SidebarContext.tsx): whether the
    sidebar is open, opened or closed automatically only when the viewport
    crosses the 768-pixel breakpoint, so a user's toggle survives resizes
    that stay on one side of it. */
module Sidebar {
  import opened Basics

  const Breakpoint := 768

  predicate Mobile(width: int) { width < Breakpoint }

  /** The state's initializer; `None` is a render without a window. */
  function InitialOpen(width: Option<int>): (open: bool)
    ensures width.Some? ==> (open <==> width.value >= Breakpoint)
    ensures width.None? ==> open
  {
    if width.Some? then width.value >= Breakpoint else true
  }

  /** The open flag and the resize handler's `wasMobile`. */
  datatype State = State(open: bool, wasMobile: bool)

  datatype Event = Resize(width: int) | Toggle | Close

  /** One event, as the handlers apply it. */
  function Step(s: State, e: Event): (t: State)
    ensures e.Resize? && s.wasMobile == Mobile(e.width) ==> t == s
    ensures e.Resize? && s.wasMobile != Mobile(e.width) ==> t == State(!Mobile(e.width), Mobile(e.width))
    ensures e.Toggle? ==> t == s.(open := !s.open)
    ensures e.Close? ==> t == s.(open := false)
  {
    match e
    case Resize(width) =>
      var isMobile := Mobile(width);
      if s.wasMobile != isMobile then State(!isMobile, isMobile) else s
    case Toggle => s.(open := !s.open)
    case Close => s.(open := false)
  }

  /** The state after a sequence of events. Resizes alone either change
      nothing or leave the sidebar open exactly on a desktop width. */
  function Run(s: State, es: seq<Event>): (r: State)
    ensures (forall i | 0 <= i < |es| :: es[i].Resize?) ==> r == s || r.open == !r.wasMobile
    decreases |es|
  {
    if es == [] then s else Run(Step(s, es[0]), es[1..])
  }

  /** The widths of the resize events, in order. */
  function Widths(es: seq<Event>): seq<int> {
    if es == [] then [] else (if es[0].Resize? then [es[0].width] else []) + Widths(es[1..])
  }

  /** `wasMobile` is always the mode of the last resize, or the mode at
      mount when there was none. */
  lemma {:induction false} WasMobileTracksLastResize(s: State, es: seq<Event>)
    ensures var ws := Widths(es);
      Run(s, es).wasMobile == if ws == [] then s.wasMobile else Mobile(ws[|ws| - 1])
    decreases |es|
  {
    if es != [] {
      WasMobileTracksLastResize(Step(s, es[0]), es[1..]);
      var head := if es[0].Resize? then [es[0].width] else [];
      assert Widths(es) == head + Widths(es[1..]);
    }
  }

  /** Resizes that stay on the current side of the breakpoint change
      nothing, so an open or closed sidebar the user chose stays so. */
  lemma {:induction false} NoCrossingKeepsState(s: State, es: seq<Event>)
    requires forall i | 0 <= i < |es| :: es[i].Resize? && Mobile(es[i].width) == s.wasMobile
    ensures Run(s, es) == s
    decreases |es|
  {
    if es != [] {
      NoCrossingKeepsState(Step(s, es[0]), es[1..]);
    }
  }

  /** Closing twice is closing once. */
  lemma CloseIdempotent(s: State)
    ensures Step(Step(s, Close), Close) == Step(s, Close)
  {
  }

  class SidebarProvider {
    var isSidebarOpen: bool
    /** The resize effect's local `wasMobile`. */
    var wasMobile: bool

    /** Mounting: the initializer, then the effect reading the width. */
    constructor (initialWidth: Option<int>, mountWidth: int)
      ensures isSidebarOpen == InitialOpen(initialWidth) && wasMobile == Mobile(mountWidth)
    {
      isSidebarOpen := InitialOpen(initialWidth);
      wasMobile := mountWidth < Breakpoint;
    }

    method HandleResize(width: int)
      modifies this
      ensures State(isSidebarOpen, wasMobile) == Step(old(State(isSidebarOpen, wasMobile)), Resize(width))
    {
      var isMobile := width < Breakpoint;
      if wasMobile != isMobile {
        if isMobile {
          isSidebarOpen := false;
        } else {
          isSidebarOpen := true;
        }
        wasMobile := isMobile;
      }
    }

    method ToggleSidebar()
      modifies this`isSidebarOpen
      ensures isSidebarOpen == !old(isSidebarOpen)
    {
      isSidebarOpen := !isSidebarOpen;
    }

    method CloseSidebar()
      modifies this`isSidebarOpen
      ensures !isSidebarOpen
    {
      isSidebarOpen := false;
    }
  }

  /** A user who opens the sidebar on a phone keeps it open while rotating
      within the mobile range, and it closes again only after a trip to the
      desktop range and back. */
  method ToggleSurvivesSmallResize() returns (afterSmall: bool, afterDesktop: bool, afterBack: bool)
    ensures afterSmall && afterDesktop && !afterBack
  {
    var p := new SidebarProvider(Some(400), 400);
    p.ToggleSidebar();
    p.HandleResize(700);
    afterSmall := p.isSidebarOpen;
    p.HandleResize(1024);
    afterDesktop := p.isSidebarOpen;
    p.HandleResize(500);
    afterBack := p.isSidebarOpen;
  }

  /** The context value `useSidebar` returns. */
  datatype SidebarContextValue = SidebarContextValue(isSidebarOpen: bool)

  datatype Result<T> = Ok(value: T) | Error(message: string)

  /** `useSidebar`: outside a provider it throws. */
  function UseSidebar(context: Option<SidebarContextValue>): (r: Result<SidebarContextValue>)
    ensures r.Error? <==> context.None?
    ensures r.Error? ==> r.message == "useSidebar must be used within a SidebarProvider"
    ensures r.Ok? ==> r.value == context.value
  {
    if context.None? then Error("useSidebar must be used within a SidebarProvider") else Ok(context.value)
  }
}
