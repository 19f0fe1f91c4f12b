/**
  The scheduled-call screen: a list of calls each due at an absolute time, a
  quick-option picker for the offset, the `m:ss` label of that offset, and the
  countdown shown beside each call. Times are milliseconds since the epoch;
  the current time is a parameter wherever the screen reads the clock.
 */
module Schedule {
  import opened Wrappers
  import opened Text
  import IdLists

  datatype ScheduledCall = ScheduledCall(id: string, time: int, caller: string, duration: string)

  /** The quick options, in seconds. */
  const QuickTimes: seq<nat> := [30, 60, 300, 600]

  function CallId(c: ScheduledCall): string
  {
    c.id
  }

  /**
    The call that scheduling adds for an offset of `seconds` from `now`: a
    two-minute call from Mom that shows exactly `seconds` left when added.
   */
  function NewCall(id: string, now: int, seconds: nat): (c: ScheduledCall)
    ensures CallId(c) == id && c.caller == "Mom" && c.duration == "2 minutes"
    ensures RemainingSeconds(c.time, now) == seconds
  {
    ScheduledCall(id, now + seconds * 1000, "Mom", "2 minutes")
  }

  /**
    Whole seconds left until `target`, never negative:
    `max(0, floor((target - now) / 1000))`.
   */
  function RemainingSeconds(target: int, now: int): (d: nat)
    ensures target - now < 1000 <==> d == 0
    ensures target - now >= 0 ==> d * 1000 <= target - now < d * 1000 + 1000
  {
    var q := (target - now) / 1000;
    if q < 0 then 0 else q
  }

  /**
    The countdown shown for `target` at `now`. It never shows a negative
    time, ends in `s`, and carries a minutes part exactly when a minute or
    more is left.
   */
  function Countdown(target: int, now: int): (s: string)
    ensures |s| >= 2 && s[|s| - 1] == 's' && '-' !in s
    ensures 'm' in s <==> RemainingSeconds(target, now) >= 60
  {
    CountdownTextShape(RemainingSeconds(target, now));
    CountdownText(RemainingSeconds(target, now))
  }

  /** The text for `diff` seconds left: `{d}s` below a minute, `{m}m {s}s` from a minute on. */
  function CountdownText(diff: nat): string
  {
    if diff < 60 then Show(diff) + "s"
    else Show(diff / 60) + "m " + Show(diff % 60) + "s"
  }

  lemma CountdownTextShape(diff: nat)
    ensures var s := CountdownText(diff);
      && |s| >= 2 && s[|s| - 1] == 's' && '-' !in s
      && ('m' in s <==> diff >= 60)
  {
    if diff < 60 {
      SecondsTextShape(Show(diff));
    } else {
      MinutesTextShape(Show(diff / 60), Show(diff % 60));
    }
  }

  /** The countdown reads back as the seconds left, so it shows exactly them. */
  lemma CountdownRoundTrip(target: int, now: int)
    ensures ParseCountdown(Countdown(target, now)) == Some(RemainingSeconds(target, now))
  {
    CountdownTextRoundTrip(RemainingSeconds(target, now));
  }

  lemma CountdownTextRoundTrip(diff: nat)
    ensures ParseCountdown(CountdownText(diff)) == Some(diff)
  {
    if diff < 60 {
      ParseCountdownSeconds(Show(diff));
    } else {
      var q, r := diff / 60, diff % 60;
      assert q >= 1 && r < 60 && q * 60 + r == diff;
      ParseCountdownJoin(Show(q), Show(r));
    }
  }

  /**
    The countdown is the only text that reads back as the seconds left: any
    other text, `0m 65s` or `65s` or `1m 05s` for 65 seconds, reads as
    something else or as nothing.
   */
  lemma CountdownUnique(target: int, now: int, s: string)
    ensures ParseCountdown(s) == Some(RemainingSeconds(target, now)) <==> s == Countdown(target, now)
  {
    CountdownRoundTrip(target, now);
    if ParseCountdown(s) == Some(RemainingSeconds(target, now)) {
      ParseCountdownCanonical(s);
    }
  }

  /** `{d}s` has no minus sign and no `m`. */
  lemma SecondsTextShape(d: string)
    requires IsDecimal(d)
    ensures var s := d + "s"; |s| >= 2 && s[|s| - 1] == 's' && '-' !in s && 'm' !in s
  {
    var s := d + "s";
    assert forall i :: 0 <= i < |d| ==> IsDigitIn(d[i], 10);
    assert forall i :: 0 <= i < |s| - 1 ==> s[i] == d[i];
  }

  /** `{m}m {s}s` has no minus sign and does have an `m`. */
  lemma MinutesTextShape(m: string, sec: string)
    requires IsDecimal(m) && IsDecimal(sec)
    ensures var s := m + "m " + sec + "s"; |s| >= 2 && s[|s| - 1] == 's' && '-' !in s && 'm' in s
  {
    var s := m + "m " + sec + "s";
    assert s[|m|] == 'm';
    assert forall i :: 0 <= i < |m| ==> IsDigitIn(m[i], 10);
    assert forall i :: 0 <= i < |sec| ==> IsDigitIn(sec[i], 10);
    assert forall i :: 0 <= i < |m| ==> s[i] == m[i];
    assert forall i :: 0 <= i < |sec| ==> s[|m| + 2 + i] == sec[i];
  }

  /** A target less than a second away, or already past, shows as `0s`, and nothing else does. */
  lemma CountdownZero(target: int, now: int)
    ensures Countdown(target, now) == "0s" <==> target - now < 1000
  {
    CountdownRoundTrip(target, now);
    ParseCountdownSeconds("0");
    assert Show(0) == "0";
  }

  /** As the clock advances, the seconds left never grow. */
  lemma RemainingMonotone(target: int, now: int, later: int)
    requires now <= later
    ensures RemainingSeconds(target, later) <= RemainingSeconds(target, now)
  {
    var a, b := RemainingSeconds(target, now), RemainingSeconds(target, later);
    if b > 0 {
      assert b * 1000 <= target - later <= target - now;
      assert a * 1000 + 1000 > target - now;
    }
  }

  /**
    The custom-time label: whole minutes written as they are, with no
    padding, a colon, and seconds padded to two digits.
   */
  function CustomTimeLabel(seconds: nat): (r: string)
    ensures |r| >= 4 && r[|r| - 3] == ':'
    ensures IsNumeral(r[..|r| - 3])
  {
    var m, ss := Show(seconds / 60), PadStart2(Show(seconds % 60));
    ShowBelow100(seconds % 60);
    ClockShape(m, ss);
    m + ":" + ss
  }

  /**
    The label reads back as the selected time: minutes times 60 plus seconds,
    the seconds below 60 and written with exactly two digits.
   */
  lemma CustomTimeLabelRoundTrip(seconds: nat)
    ensures var r := CustomTimeLabel(seconds);
      && ParseClock(r) == Some((seconds / 60, seconds % 60))
      && (seconds / 60) * 60 + seconds % 60 == seconds && seconds % 60 < 60
  {
    var m, ss := Show(seconds / 60), PadStart2(Show(seconds % 60));
    PadStart2Value(Show(seconds % 60));
    assert |ss| == 2;
    ParseClockJoin(m, ss);
  }

  /** No quick option is longer than ten minutes. */
  lemma QuickTimeMinutes(t: nat)
    requires t in QuickTimes
    ensures t / 60 <= 10
  {
    assert t <= 600;
  }

  /** The scheduling screen: its calls, whether the form is open, and the chosen offset. */
  class ScheduleScreen {
    var scheduledCalls: seq<ScheduledCall>
    var isScheduling: bool
    /** The chosen offset in seconds. */
    var selectedTime: nat

    ghost predicate Valid()
      reads this
    {
      selectedTime in QuickTimes
    }

    /** The screen as it first shows at `now`: one call from Mom due 30 seconds later. */
    constructor (now: int)
      ensures Valid()
      ensures scheduledCalls == [NewCall("1", now, 30)]
      ensures !isScheduling && selectedTime == 30
    {
      scheduledCalls := [NewCall("1", now, 30)];
      isScheduling := false;
      selectedTime := 30;
    }

    /** The "Schedule" button in the header opens the form. */
    method OpenForm()
      modifies this`isScheduling
      ensures isScheduling
    {
      isScheduling := true;
    }

    /** The form's "Cancel" button closes it. */
    method CloseForm()
      modifies this`isScheduling
      ensures !isScheduling
    {
      isScheduling := false;
    }

    /** A quick-option button: the only way the offset changes. */
    method SelectQuickTime(value: nat)
      requires value in QuickTimes
      modifies this`selectedTime
      ensures Valid() && selectedTime == value
    {
      selectedTime := value;
    }

    /**
      "Schedule Call" at time `now`: one call from Mom for two minutes, due
      `selectedTime` seconds later, goes at the end, and the form closes.
      `id` is the id the clock supplies.
     */
    method ScheduleCall(now: int, id: string)
      modifies this`scheduledCalls, this`isScheduling
      ensures scheduledCalls == old(scheduledCalls) + [NewCall(id, now, selectedTime)]
      ensures !isScheduling
    {
      scheduledCalls := scheduledCalls + [NewCall(id, now, selectedTime)];
      isScheduling := false;
    }

    /** The cancel button of a listed call: every call carrying `id` goes. */
    method Cancel(id: string)
      modifies this`scheduledCalls
      ensures scheduledCalls == IdLists.WithoutId(old(scheduledCalls), CallId, id)
    {
      scheduledCalls := IdLists.WithoutId(scheduledCalls, CallId, id);
    }

    /** The label under "Custom Time" for the chosen offset. */
    method TimeLabel() returns (caption: string)
      requires Valid()
      ensures caption == CustomTimeLabel(selectedTime)
      ensures |caption| >= 4 && caption[|caption| - 3] == ':'
      ensures ParseClock(caption) == Some((selectedTime / 60, selectedTime % 60))
      ensures selectedTime / 60 <= 10
    {
      var t := selectedTime;
      caption := CustomTimeLabel(t);
      QuickTimeMinutes(t);
      CustomTimeLabelRoundTrip(t);
    }
  }
}
