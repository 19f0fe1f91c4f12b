/**
  The full-screen fake call: it rings until answered, then counts the call's
  duration once per second and shows it as `MM:SS`. Declining hands control
  back to the app shell (see `App`), which removes the overlay.
 */
module FakeCall {
  import opened Wrappers
  import opened Text

  /** The status line before the call is answered. */
  const IncomingCall: string := "Incoming call"

  /**
    `formatDuration`: minutes and seconds, each padded to at least two digits,
    so at least two digits of minutes, a colon and exactly two of seconds. The
    minutes carry a padding zero only when they are a single digit.
   */
  function FormatDuration(seconds: nat): (r: string)
    ensures |r| >= 5 && r[|r| - 3] == ':'
    ensures IsNumeral(r[..|r| - 3]) || (|r| == 5 && r[0] == '0')
  {
    var mm, ss := PadStart2(Show(seconds / 60)), PadStart2(Show(seconds % 60));
    ShowBelow100(seconds % 60);
    PadStart2Numeral(Show(seconds / 60));
    ClockShape(mm, ss);
    mm + ":" + ss
  }

  /**
    The duration reads back as minutes and seconds that make up `seconds`:
    at least two digits of minutes, a colon, then exactly two digits of
    seconds below 60.
   */
  lemma FormatDurationRoundTrip(seconds: nat)
    ensures var r := FormatDuration(seconds);
      && ParseClock(r) == Some((seconds / 60, seconds % 60))
      && (seconds / 60) * 60 + seconds % 60 == seconds && seconds % 60 < 60
  {
    var mm, ss := PadStart2(Show(seconds / 60)), PadStart2(Show(seconds % 60));
    PadStart2Value(Show(seconds / 60));
    PadStart2Value(Show(seconds % 60));
    assert |ss| == 2;
    ParseClockJoin(mm, ss);
  }

  /** A running duration never reads as the ringing status. */
  lemma FormatDurationNotIncoming(seconds: nat)
    ensures FormatDuration(seconds) != IncomingCall
  {
    ColonNotIncoming(FormatDuration(seconds));
  }

  /** The ringing status has no colon three from its end. */
  lemma ColonNotIncoming(r: string)
    requires |r| >= 3 && r[|r| - 3] == ':'
    ensures r != IncomingCall
  {
    assert |IncomingCall| == 13 && IncomingCall[10] == 'a';
  }

  // ---------------------------------------------------------------------------
  // The overlay's state machine, on values

  datatype CallState = CallState(isAnswered: bool, callDuration: nat)

  /** What can happen to the overlay: the answer button, or one second passing. */
  datatype Event = AnswerTap | Second

  const Initial: CallState := CallState(false, 0)

  /** While ringing no counter runs, so the duration stays 0. */
  predicate Consistent(s: CallState)
  {
    !s.isAnswered ==> s.callDuration == 0
  }

  /**
    One event: answering sets the flag; a second adds one to the duration
    while the call is answered and does nothing while it rings.
   */
  function Step(s: CallState, e: Event): (t: CallState)
    ensures Consistent(s) ==> Consistent(t)
    ensures t.isAnswered == (e == AnswerTap || s.isAnswered)
    ensures t.callDuration == if e == Second && s.isAnswered then s.callDuration + 1 else s.callDuration
  {
    match e
    case AnswerTap => s.(isAnswered := true)
    case Second => if s.isAnswered then s.(callDuration := s.callDuration + 1) else s
  }

  /**
    The state after the events `es`, in order: the call stays consistent,
    and is answered at the end exactly when it was at the start or an answer
    tap came.
   */
  function Run(s: CallState, es: seq<Event>): (t: CallState)
    ensures Consistent(s) ==> Consistent(t)
    ensures t.isAnswered == (s.isAnswered || AnswerTap in es)
    decreases |es|
  {
    if es == [] then s else Run(Step(s, es[0]), es[1..])
  }

  /** How many of `es` are seconds passing. */
  function CountSeconds(es: seq<Event>): nat
  {
    if es == [] then 0 else (if es[0] == Second then 1 else 0) + CountSeconds(es[1..])
  }

  /** Once answered, the call stays answered and every second adds one. */
  lemma {:induction false} RunAnswered(d: nat, es: seq<Event>)
    ensures Run(CallState(true, d), es) == CallState(true, d + CountSeconds(es))
    decreases |es|
  {
    if es != [] {
      RunAnswered(if es[0] == Second then d + 1 else d, es[1..]);
    }
  }

  /**
    From the overlay's first state, the call is answered exactly when an answer
    tap came, and its duration is the number of seconds after the first tap.
   */
  lemma {:induction false} RunFromInitial(es: seq<Event>)
    ensures Run(Initial, es) == match IndexOf(es, AnswerTap)
      case None => Initial
      case Some(i) => CallState(true, CountSeconds(es[i + 1..]))
  {
    if es != [] {
      if es[0] == AnswerTap {
        RunAnswered(0, es[1..]);
      } else {
        RunFromInitial(es[1..]);
        match IndexOf(es[1..], AnswerTap) {
          case None =>
          case Some(i) =>
            assert es[i + 2..] == es[1..][i + 1..];
        }
      }
    }
  }

  /** The buttons the overlay offers. */
  datatype Action = AnswerButton | DeclineButton

  /** The overlay component: fixed caller details and the call's state. */
  class FakeCallScreen {
    const callerName: string
    const callerNumber: string
    const callerImage: string
    var isAnswered: bool
    var callDuration: nat

    function State(): CallState
      reads this
    {
      CallState(isAnswered, callDuration)
    }

    ghost predicate Valid()
      reads this
    {
      Consistent(State())
    }

    /** A fresh overlay rings with no duration counted. */
    constructor (name: string, number: string, image: string)
      ensures Valid() && State() == Initial
      ensures callerName == name && callerNumber == number && callerImage == image
    {
      callerName, callerNumber, callerImage := name, number, image;
      isAnswered := false;
      callDuration := 0;
    }

    /** The answer button. */
    method Answer()
      requires Valid()
      modifies this`isAnswered
      ensures Valid() && State() == Step(old(State()), AnswerTap)
    {
      isAnswered := true;
    }

    /** One second of the per-second counter, which runs only while answered. */
    method Tick()
      requires Valid()
      modifies this`callDuration
      ensures Valid() && State() == Step(old(State()), Second)
    {
      if isAnswered {
        callDuration := callDuration + 1;
      }
    }

    /** The status line: "Incoming call" while ringing, the running duration once answered. */
    function Status(): (s: string)
      reads this
      ensures !isAnswered ==> s == IncomingCall
      ensures isAnswered ==> s == FormatDuration(callDuration) && s != IncomingCall
      ensures isAnswered ==> ParseClock(s) == Some((callDuration / 60, callDuration % 60))
    {
      if isAnswered then
        FormatDurationRoundTrip(callDuration);
        FormatDurationNotIncoming(callDuration);
        FormatDuration(callDuration)
      else IncomingCall
    }

    /** Answer is offered only while ringing; decline always. */
    function Offered(): (a: set<Action>)
      reads this
      ensures DeclineButton in a
      ensures AnswerButton in a <==> !isAnswered
    {
      if isAnswered then {DeclineButton} else {AnswerButton, DeclineButton}
    }
  }
}
