/**
  The app shell: the active tab, the armed escape timers and whether the fake
  call covers the screen. Quick Escape arms a timer; each timer that goes off
  shows the fake call; ending the call hides it. An armed timer is kept as the
  absolute time, in milliseconds, at which it goes off.
 */
module App {
  import FakeCall
  import Home
  import Contacts

  datatype Screen = HomeView | ContactsView | ScheduleView | SettingsView

  /** What the shell shows: the call overlay alone, or a screen with the bottom navigation. */
  datatype View =
    | CallOverlay(callerName: string, callerNumber: string, callerImage: string)
    | TabbedScreen(screen: Screen, activeTab: string)

  /** The caller every fake call shows, whatever armed it. */
  const CallerName: string := "Mom"
  const CallerNumber: string := "+1 (555) 123-4567"
  const CallerImage: string := Contacts.MomImage

  /** The tab ids the bottom navigation offers. */
  const NavTabs: seq<string> := ["escape", "schedule", "settings"]

  /** The tab id each screen is filed under. */
  function TabFor(s: Screen): string
  {
    match s
    case HomeView => "escape"
    case ContactsView => "contacts"
    case ScheduleView => "schedule"
    case SettingsView => "settings"
  }

  /**
    The screen for a tab id: each screen under its own id, and the home
    screen for every id no screen is filed under.
   */
  function RenderScreen(tab: string): (s: Screen)
    ensures TabFor(s) == tab || s == HomeView
    ensures (forall t: Screen :: TabFor(t) != tab) ==> s == HomeView
  {
    match tab
    case "escape" => HomeView
    case "contacts" => ContactsView
    case "schedule" => ScheduleView
    case "settings" => SettingsView
    case _ => HomeView
  }

  /** Every screen is shown under its own tab id. */
  lemma RenderScreenTabFor(s: Screen)
    ensures RenderScreen(TabFor(s)) == s
  {
  }

  /**
    The bottom navigation reaches the home, schedule and settings screens,
    each under its own tab, and never the contacts screen.
   */
  lemma NavTabsScreens()
    ensures forall i :: 0 <= i < |NavTabs| ==> RenderScreen(NavTabs[i]) != ContactsView
    ensures forall i, j :: 0 <= i < j < |NavTabs| ==> RenderScreen(NavTabs[i]) != RenderScreen(NavTabs[j])
  {
  }

  /**
    The delay in milliseconds a Quick Escape of `seconds` arms; 0 falls back
    to 30 seconds, so no non-negative request fires at once.
   */
  function TimerDelayMs(seconds: int): (ms: int)
    ensures seconds == 0 ==> ms == 30000
    ensures seconds != 0 ==> ms == seconds * 1000
    ensures seconds >= 0 ==> ms >= 1000
  {
    if seconds == 0 then 30000 else seconds * 1000
  }

  /**
    What the home screen hands on is never 0, so the 30-second fallback is
    never taken from there, and the timer is at least 30 seconds long.
   */
  lemma HomeDelayMs(selectedTime: int, customMinutes: int)
    requires selectedTime in Home.TimeOptions && customMinutes >= 1
    ensures Home.EscapeSeconds(selectedTime, customMinutes) != 0
    ensures TimerDelayMs(Home.EscapeSeconds(selectedTime, customMinutes))
      == Home.EscapeSeconds(selectedTime, customMinutes) * 1000 >= 30000
  {
  }

  class Shell {
    var activeTab: string
    var showFakeCall: bool
    /** The times at which the armed timers go off; one entry per arm, none ever cancelled. */
    var pending: multiset<int>
    /** The mounted call overlay, present exactly while the fake call shows. */
    var overlay: FakeCall.FakeCallScreen?

    ghost predicate Valid()
      reads this, overlay
    {
      && activeTab in NavTabs
      && (overlay != null <==> showFakeCall)
      && (overlay != null ==>
            && overlay.Valid()
            && overlay.callerName == CallerName
            && overlay.callerNumber == CallerNumber
            && overlay.callerImage == CallerImage)
    }

    constructor ()
      ensures Valid()
      ensures activeTab == "escape" && !showFakeCall && pending == multiset{}
    {
      activeTab := "escape";
      showFakeCall := false;
      pending := multiset{};
      overlay := null;
    }

    /** A bottom-navigation tap, on one of the tabs the navigation offers. */
    method SetActiveTab(tab: string)
      requires Valid() && tab in NavTabs
      modifies this`activeTab
      ensures Valid() && activeTab == tab
    {
      activeTab := tab;
    }

    /** `handleQuickEscape` at time `now`: one more timer, earlier ones left armed. */
    method HandleQuickEscape(seconds: int, now: int)
      modifies this`pending
      ensures pending == old(pending) + multiset{now + TimerDelayMs(seconds)}
    {
      pending := pending + multiset{now + TimerDelayMs(seconds)};
    }

    /** The home screen's Quick Escape button, wired to `HandleQuickEscape`. */
    method QuickEscapeFromHome(home: Home.HomeScreen, now: int)
      requires home.Valid()
      modifies this`pending
      ensures pending == old(pending) + multiset{now + Home.EscapeSeconds(home.selectedTime, home.customMinutes) * 1000}
      ensures Home.EscapeSeconds(home.selectedTime, home.customMinutes) >= 30
    {
      var seconds := home.QuickEscape();
      HandleQuickEscape(seconds, now);
    }

    /**
      The earliest armed timer goes off: the fake call shows. If it was
      already showing, the same overlay stays, its state untouched; otherwise
      a fresh one rings.
     */
    method Fire(due: int)
      requires Valid() && due in pending && forall t :: t in pending ==> due <= t
      modifies this
      ensures Valid() && showFakeCall
      ensures pending == old(pending) - multiset{due} && activeTab == old(activeTab)
      ensures old(showFakeCall) ==> overlay == old(overlay)
      ensures !old(showFakeCall) ==> fresh(overlay) && overlay.State() == FakeCall.Initial
    {
      pending := pending - multiset{due};
      if !showFakeCall {
        overlay := new FakeCall.FakeCallScreen(CallerName, CallerNumber, CallerImage);
      }
      showFakeCall := true;
    }

    /** `handleEndCall`: the overlay goes away; armed timers stay armed. */
    method HandleEndCall()
      requires Valid()
      modifies this
      ensures Valid() && !showFakeCall
      ensures pending == old(pending) && activeTab == old(activeTab)
    {
      showFakeCall := false;
      overlay := null;
    }

    /** The overlay's decline button, in either state, ends the call. */
    method Decline()
      requires Valid() && showFakeCall
      modifies this
      ensures Valid() && !showFakeCall
      ensures pending == old(pending) && activeTab == old(activeTab)
    {
      HandleEndCall();
    }

    /** The overlay's answer button, shown only while it rings. */
    method Answer()
      requires Valid() && showFakeCall && !overlay.isAnswered
      modifies overlay
      ensures Valid() && overlay.State() == FakeCall.Step(old(overlay.State()), FakeCall.AnswerTap)
    {
      overlay.Answer();
    }

    /** One second passes: the overlay's counter advances if it is mounted and answered. */
    method Second()
      requires Valid()
      modifies overlay
      ensures Valid()
      ensures overlay != null ==> overlay.State() == FakeCall.Step(old(overlay.State()), FakeCall.Second)
    {
      if overlay != null {
        overlay.Tick();
      }
    }

    /** Exactly one of the two: the call overlay, or the active screen with the navigation. */
    function Render(): (v: View)
      reads this
      ensures v.CallOverlay? <==> showFakeCall
      ensures v.CallOverlay? ==> v == CallOverlay(CallerName, CallerNumber, CallerImage)
      ensures v.TabbedScreen? ==> v.screen == RenderScreen(activeTab) && v.activeTab == activeTab
      ensures Valid() && v.TabbedScreen? ==> v.screen != ContactsView
    {
      NavTabsScreens();
      if showFakeCall then CallOverlay(CallerName, CallerNumber, CallerImage)
      else TabbedScreen(RenderScreen(activeTab), activeTab)
    }
  }
}
