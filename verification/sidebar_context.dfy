/** The open/closed state of the dashboard sidebar,
    `src/contexts/SidebarContext.tsx`.

    The width check is installed by an effect whose only dependency is
    `isInitialized`, so the resize listener keeps reading the `isOpen` of the
    render in which that effect last ran. The state therefore records, next
    to the three state variables, the `isOpen` the installed listener sees.
    `CheckMobileAsWritten` models the listener with that stale value;
    `CheckMobile` is the evidently intended check that reads the current
    value. `Apply` and `Run` take a flag choosing between the two, so
    `InitializedIsStable` holds for both; `ResizeNeverOpens` states its
    fact of each version separately; `StaleListenerKeepsSidebarOpen` is a
    trace where the two versions part ways. */
module SidebarContext {
  import opened Basics

  datatype SidebarState = SidebarState(
    isOpen: bool,
    isMobile: bool,
    initialized: bool,
    listenerSeesOpen: bool)

  const MobileBreakpoint: int := 768

  /** The state before the first width check: closed, not mobile, not
      initialised. */
  function Initial(): (s: SidebarState)
    ensures !s.isOpen && !s.isMobile && !s.initialized
  {
    SidebarState(false, false, false, false)
  }

  /** The first check, common to both versions: mobile below the breakpoint,
      open on desktop and closed on mobile. Setting `isInitialized` re-runs
      the effect, whose new listener sees the `isOpen` just chosen (its
      immediate re-check at the same width changes nothing). */
  function FirstCheck(s: SidebarState, width: int): (s': SidebarState)
    ensures s'.initialized
    ensures s'.isMobile <==> width < MobileBreakpoint
    ensures s'.isOpen <==> width >= MobileBreakpoint
    ensures s'.listenerSeesOpen == s'.isOpen
  {
    var mobile := width < MobileBreakpoint;
    SidebarState(!mobile, mobile, true, !mobile)
  }

  /** `checkMobile` as written: after initialisation a mobile width closes
      the sidebar only if the listener's captured `isOpen` was true. */
  function CheckMobileAsWritten(s: SidebarState, width: int): (s': SidebarState)
    ensures !s.initialized ==> s' == FirstCheck(s, width)
    ensures s.initialized ==> s'.initialized && s'.listenerSeesOpen == s.listenerSeesOpen
    ensures s.initialized ==> (s'.isMobile <==> width < MobileBreakpoint)
    ensures s.initialized ==> (s'.isOpen <==> s.isOpen && !(width < MobileBreakpoint && s.listenerSeesOpen))
  {
    if !s.initialized then FirstCheck(s, width)
    else
      var mobile := width < MobileBreakpoint;
      s.(isMobile := mobile, isOpen := if mobile && s.listenerSeesOpen then false else s.isOpen)
  }

  /** The intended check: after initialisation a mobile width always closes
      the sidebar, and a desktop width leaves it as it is. */
  function CheckMobile(s: SidebarState, width: int): (s': SidebarState)
    ensures !s.initialized ==> s' == FirstCheck(s, width)
    ensures s.initialized ==> s'.initialized && s'.listenerSeesOpen == s.listenerSeesOpen
    ensures s.initialized ==> (s'.isMobile <==> width < MobileBreakpoint)
    ensures s.initialized ==> (s'.isOpen <==> s.isOpen && width >= MobileBreakpoint)
  {
    if !s.initialized then FirstCheck(s, width)
    else
      var mobile := width < MobileBreakpoint;
      s.(isMobile := mobile, isOpen := if mobile && s.isOpen then false else s.isOpen)
  }

  /** `toggleSidebar`. */
  function Toggle(s: SidebarState): (s': SidebarState)
    ensures s'.isOpen == !s.isOpen
    ensures s'.isMobile == s.isMobile && s'.initialized == s.initialized
    ensures s'.listenerSeesOpen == s.listenerSeesOpen
  {
    s.(isOpen := !s.isOpen)
  }

  /** `closeSidebar`. */
  function Close(s: SidebarState): (s': SidebarState)
    ensures !s'.isOpen
    ensures s'.isMobile == s.isMobile && s'.initialized == s.initialized
    ensures s'.listenerSeesOpen == s.listenerSeesOpen
  {
    s.(isOpen := false)
  }

  /** `openSidebar`. */
  function Open(s: SidebarState): (s': SidebarState)
    ensures s'.isOpen
    ensures s'.isMobile == s.isMobile && s'.initialized == s.initialized
    ensures s'.listenerSeesOpen == s.listenerSeesOpen
  {
    s.(isOpen := true)
  }

  const OutsideProviderMessage: string := "useSidebar must be used within a SidebarProvider"

  /** `useSidebar()`: the enclosing provider's state, or the error raised when
      there is none. */
  function UseSidebar(context: Option<SidebarState>): (r: Result<SidebarState, string>)
    ensures context.Some? <==> r.Ok?
    ensures r.Ok? ==> r.value == context.value
    ensures r.Err? ==> r.error == OutsideProviderMessage
  {
    match context
    case Some(s) => Ok(s)
    case None => Err(OutsideProviderMessage)
  }

  /** The user's and the window's actions on the sidebar. */
  datatype Event = Resize(width: int) | ToggleClicked | CloseClicked | OpenClicked

  /** One event, with the width check as written (`asWritten`) or as
      intended. */
  function Apply(s: SidebarState, e: Event, asWritten: bool): SidebarState {
    match e
    case Resize(w) => if asWritten then CheckMobileAsWritten(s, w) else CheckMobile(s, w)
    case ToggleClicked => Toggle(s)
    case CloseClicked => Close(s)
    case OpenClicked => Open(s)
  }

  function Run(s: SidebarState, events: seq<Event>, asWritten: bool): SidebarState
    decreases |events|
  {
    if events == [] then s else Run(Apply(s, events[0], asWritten), events[1..], asWritten)
  }

  /** Two toggles restore the original state. */
  lemma ToggleTwice(s: SidebarState)
    ensures Toggle(Toggle(s)) == s
  {
  }

  /** Closing and opening are idempotent. */
  lemma CloseOpenIdempotent(s: SidebarState)
    ensures Close(Close(s)) == Close(s)
    ensures Open(Open(s)) == Open(s)
  {
  }

  /** After initialisation a width check never opens the sidebar, and on a
      mobile width it closes it; in both versions the initial opening is
      therefore the only one a width check performs. */
  lemma ResizeNeverOpens(s: SidebarState, width: int)
    requires s.initialized
    ensures CheckMobile(s, width).isOpen ==> s.isOpen
    ensures CheckMobileAsWritten(s, width).isOpen ==> s.isOpen
    ensures width < MobileBreakpoint ==> !CheckMobile(s, width).isOpen
  {
  }

  /** Initialisation happens once: in both versions every later event keeps
      the state initialised, so `FirstCheck` never runs again. */
  lemma {:induction false} InitializedIsStable(s: SidebarState, events: seq<Event>, asWritten: bool)
    requires s.initialized
    ensures Run(s, events, asWritten).initialized
    decreases |events|
  {
    if events != [] {
      InitializedIsStable(Apply(s, events[0], asWritten), events[1..], asWritten);
    }
  }

  /** The stale listener at work: started at a mobile width, widened,
      opened by hand, then narrowed again, the sidebar stays open on a
      mobile screen as written, and closes with the intended check. */
  lemma StaleListenerKeepsSidebarOpen()
    ensures var s := CheckMobileAsWritten(Open(CheckMobileAsWritten(CheckMobileAsWritten(Initial(), 500), 1000)), 500);
            s.isMobile && s.isOpen
    ensures var s := CheckMobile(Open(CheckMobile(CheckMobile(Initial(), 500), 1000)), 500);
            s.isMobile && !s.isOpen
  {
  }
}
