/**
  The home screen: a choice of escape delay (30 seconds, 5 minutes or a custom
  number of minutes) and the Quick Escape button, which hands the delay in
  seconds to the app shell.
 */
module Home {
  import opened Text

  /** The option that stands for "Custom". */
  const Custom: int := 0

  /** The timer options in seconds, `Custom` last. */
  const TimeOptions: seq<int> := [30, 300, Custom]

  /**
    The custom-minutes field's change handler, `Math.max(1, parseInt(v) || 1)`:
    a parsed number of at least 1 is taken as it is, with no upper bound;
    anything else, `NaN` and `0` included, becomes 1.
   */
  function CoerceMinutes(input: string): (m: int)
    ensures m >= 1
    ensures ParseInt(input).Some? && ParseInt(input).value >= 1 ==> m == ParseInt(input).value
    ensures ParseInt(input).None? || ParseInt(input).value < 1 ==> m == 1
  {
    var orOne := match ParseInt(input)
      case None => 1
      case Some(v) => if v == 0 then 1 else v;
    if orOne < 1 then 1 else orOne
  }

  /** Typing any whole number of at least one minute keeps it, 61 and above included. */
  lemma CoerceMinutesShow(n: nat)
    requires n >= 1
    ensures CoerceMinutes(Show(n)) == n
  {
    ParseIntShow(n);
  }

  /** Typing `0` gives one minute. */
  lemma CoerceMinutesZero()
    ensures CoerceMinutes("0") == 1
  {
    ParseIntShow(0);
    assert Show(0) == "0";
  }

  /** Clearing the field (`parseInt` gives `NaN`) gives one minute. */
  lemma CoerceMinutesEmpty()
    ensures CoerceMinutes("") == 1
  {
  }

  /**
    The delay the Quick Escape button sends: the custom minutes in seconds,
    or the option itself. With a listed option and at least one custom
    minute it is at least 30 seconds, and at least a minute for Custom.
   */
  function EscapeSeconds(selectedTime: int, customMinutes: int): (seconds: int)
    ensures selectedTime in TimeOptions && customMinutes >= 1 ==> seconds >= 30
    ensures selectedTime == Custom && customMinutes >= 1 ==> seconds >= 60
  {
    if selectedTime == Custom then customMinutes * 60 else selectedTime
  }

  class HomeScreen {
    var selectedTime: int
    var customMinutes: int

    ghost predicate Valid()
      reads this
    {
      selectedTime in TimeOptions && customMinutes >= 1
    }

    constructor ()
      ensures Valid() && selectedTime == 30 && customMinutes == 1
    {
      selectedTime := 30;
      customMinutes := 1;
    }

    /** An option button. */
    method SelectOption(value: int)
      requires Valid() && value in TimeOptions
      modifies this`selectedTime
      ensures Valid() && selectedTime == value
    {
      selectedTime := value;
    }

    /** A change in the custom-minutes field (shown while Custom is chosen). */
    method ChangeCustomMinutes(input: string)
      requires Valid()
      modifies this`customMinutes
      ensures Valid() && customMinutes == CoerceMinutes(input)
    {
      customMinutes := CoerceMinutes(input);
    }

    /** The Quick Escape button: the delay in seconds it hands on, never below 30. */
    method QuickEscape() returns (seconds: int)
      requires Valid()
      ensures seconds == EscapeSeconds(selectedTime, customMinutes)
      ensures seconds >= 30
    {
      seconds := EscapeSeconds(selectedTime, customMinutes);
    }
  }
}
