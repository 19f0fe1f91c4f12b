/**
  The string building the screens rely on: JavaScript's decimal rendering of a
  non-negative integer (`${n}`, `n.toString()`), `padStart(2, '0')`, and
  `parseInt(s)` with no radix argument. Decoders for the two display formats
  (`m:ss` clocks and `{m}m {s}s` countdowns) live here too: each formatter
  is proved to be inverted by its decoder.
 */
module Text {
  import opened Wrappers

  // ---------------------------------------------------------------------------
  // Digits

  /** The value of `c` as a digit of radix up to 16, as `parseInt` reads it. */
  function DigitOf(c: char): Option<nat>
  {
    if '0' <= c <= '9' then Some(c as int - '0' as int)
    else if 'a' <= c <= 'f' then Some(c as int - 'a' as int + 10)
    else if 'A' <= c <= 'F' then Some(c as int - 'A' as int + 10)
    else None
  }

  predicate IsDigitIn(c: char, radix: nat)
  {
    DigitOf(c).Some? && DigitOf(c).value < radix
  }

  predicate AllDigitsIn(s: string, radix: nat)
  {
    forall i :: 0 <= i < |s| ==> IsDigitIn(s[i], radix)
  }

  /** A non-empty run of decimal digits. */
  predicate IsDecimal(s: string)
  {
    |s| > 0 && AllDigitsIn(s, 10)
  }

  /** A decimal numeral as `n.toString()` writes it: digits, no leading zero unless it is `0` itself. */
  predicate IsNumeral(s: string)
  {
    IsDecimal(s) && (s[0] == '0' ==> |s| == 1)
  }

  /** The decimal digit character for `d`. */
  function DigitChar(d: nat): (c: char)
    requires d < 10
    ensures '0' <= c <= '9' && DigitOf(c) == Some(d)
  {
    ('0' as int + d) as char
  }

  /** The value of a digit string read most significant digit first. */
  function ValueIn(s: string, radix: nat): nat
    requires AllDigitsIn(s, radix)
  {
    if s == [] then 0 else ValueIn(s[..|s| - 1], radix) * radix + DigitOf(s[|s| - 1]).value
  }

  function Value(s: string): nat
    requires AllDigitsIn(s, 10)
  {
    ValueIn(s, 10)
  }

  // ---------------------------------------------------------------------------
  // Rendering

  /**
    `n.toString()` for a non-negative integer: decimal digits, no sign and no
    leading zero, which read back as `n`.
   */
  function Show(n: nat): (s: string)
    ensures IsNumeral(s)
    ensures Value(s) == n
    ensures s[0] == '0' ==> n == 0
    ensures n < 10 <==> |s| == 1
  {
    if n < 10 then
      var s := [DigitChar(n)];
      assert s[..0] == [];
      assert ValueIn(s, 10) == ValueIn([], 10) * 10 + n;
      s
    else
      var p := Show(n / 10);
      var s := p + [DigitChar(n % 10)];
      assert s[..|s| - 1] == p;
      s
  }

  /** Below 100 a number takes at most two digits. */
  lemma ShowBelow100(n: nat)
    requires n < 100
    ensures |Show(n)| <= 2
  {
    if n >= 10 {
      assert Show(n) == Show(n / 10) + [DigitChar(n % 10)];
    }
  }

  /** `s.padStart(2, '0')`: zeros in front until the string is two long. */
  function PadStart2(s: string): (r: string)
    ensures |r| == if |s| < 2 then 2 else |s|
    ensures r[|r| - |s|..] == s
    ensures forall i :: 0 <= i < |r| - |s| ==> r[i] == '0'
  {
    if |s| == 0 then "00" else if |s| == 1 then "0" + s else s
  }

  /** Padding a numeral leaves a numeral, or a single `0` before one digit. */
  lemma PadStart2Numeral(s: string)
    requires IsNumeral(s)
    ensures var p := PadStart2(s); IsNumeral(p) || (|p| == 2 && p[0] == '0')
  {
  }

  /** In `{mm}:{ss}` with two-character `ss`, the colon is third from the end and `mm` is all before it. */
  lemma ClockShape(mm: string, ss: string)
    requires |ss| == 2
    ensures var r := mm + ":" + ss; |r| == |mm| + 3 && r[|r| - 3] == ':' && r[..|r| - 3] == mm
  {
    var r := mm + ":" + ss;
    assert r[..|r| - 3] == mm;
  }

  /** A leading zero does not change the value of a digit string. */
  lemma {:induction false} LeadingZero(s: string, radix: nat)
    requires AllDigitsIn(s, radix) && radix > 0
    ensures AllDigitsIn("0" + s, radix)
    ensures ValueIn("0" + s, radix) == ValueIn(s, radix)
  {
    var t := "0" + s;
    assert forall i :: 0 < i < |t| ==> t[i] == s[i - 1];
    if s != [] {
      var init := s[..|s| - 1];
      assert t[..|t| - 1] == "0" + init;
      LeadingZero(init, radix);
    }
  }

  /** Padding a decimal string keeps its value. */
  lemma PadStart2Value(s: string)
    requires IsDecimal(s)
    ensures IsDecimal(PadStart2(s)) && Value(PadStart2(s)) == Value(s)
  {
    if |s| == 1 {
      LeadingZero(s, 10);
    }
  }

  // ---------------------------------------------------------------------------
  // Searching

  /** The index of the first `c` in `s`, if any. */
  function IndexOf<T(==)>(s: seq<T>, c: T): (r: Option<nat>)
    ensures r.Some? ==> r.value < |s| && s[r.value] == c && c !in s[..r.value]
    ensures r.None? <==> c !in s
  {
    if s == [] then None
    else if s[0] == c then Some(0)
    else
      match IndexOf(s[1..], c)
      case None => None
      case Some(i) =>
        assert s[..i + 1] == [s[0]] + s[1..][..i];
        Some(i + 1)
  }

  /** The first `c` in `a + [c] + b`, when `a` has none, is the one after `a`. */
  lemma IndexOfJoin<T>(a: seq<T>, c: T, b: seq<T>)
    requires c !in a
    ensures IndexOf(a + [c] + b, c) == Some(|a|)
  {
    var s := a + [c] + b;
    assert s[|a|] == c;
    assert forall i :: 0 <= i < |a| ==> s[i] != c;
    var k := IndexOf(s, c).value;
  }

  // ---------------------------------------------------------------------------
  // parseInt

  /**
    The characters ECMAScript's `StrWhiteSpaceChar` admits: TAB, VT, FF,
    ZWNBSP, every space separator (category Zs) and the four line terminators.
   */
  predicate IsJsWhiteSpace(c: char)
  {
    || c == '\t' || c == '\U{B}' || c == '\U{C}' || c == '\U{FEFF}'
    || c == ' ' || c == '\U{A0}' || c == '\U{1680}'
    || ('\U{2000}' <= c <= '\U{200A}') || c == '\U{202F}' || c == '\U{205F}' || c == '\U{3000}'
    || c == '\n' || c == '\r' || c == '\U{2028}' || c == '\U{2029}'
  }

  /** `s` with its leading white space removed. */
  function TrimStart(s: string): (r: string)
    ensures |r| <= |s| && r == s[|s| - |r|..]
    ensures r != [] ==> !IsJsWhiteSpace(r[0])
    ensures forall i :: 0 <= i < |s| - |r| ==> IsJsWhiteSpace(s[i])
  {
    if s != [] && IsJsWhiteSpace(s[0]) then TrimStart(s[1..]) else s
  }

  /** The longest prefix of `s` made of digits of `radix`. */
  function DigitPrefix(s: string, radix: nat): (r: string)
    ensures |r| <= |s| && r == s[..|r|] && AllDigitsIn(r, radix)
    ensures |r| < |s| ==> !IsDigitIn(s[|r|], radix)
  {
    if s != [] && IsDigitIn(s[0], radix) then
      var t := DigitPrefix(s[1..], radix);
      var r := [s[0]] + t;
      assert forall i :: 0 < i < |r| ==> r[i] == t[i - 1];
      assert r == s[..|r|] by {
        assert s == [s[0]] + s[1..];
      }
      r
    else
      []
  }

  /**
    `parseInt(s)` with the radix left out: skip white space, read an optional
    sign, switch to radix 16 after `0x`/`0X`, then read the longest run of
    digits. No digit at all gives `NaN`, here `None`.
   */
  function ParseInt(s: string): (r: Option<int>)
    ensures r.Some? ==> exists i :: 0 <= i < |s| && IsDigitIn(s[i], 10)
    ensures r.Some? && r.value < 0 ==> '-' in s
  {
    var t := TrimStart(s);
    var negative := t != [] && t[0] == '-';
    var u := if t != [] && (t[0] == '-' || t[0] == '+') then t[1..] else t;
    match ParseMagnitude(u)
    case None => None
    case Some(v) =>
      var magnitude: int := v;
      Some(if negative then -magnitude else magnitude)
  }

  /** The unsigned part of `parseInt`: radix 16 after `0x`/`0X`, else 10, then the longest digit run. */
  function ParseMagnitude(u: string): Option<nat>
  {
    var hex := |u| >= 2 && u[0] == '0' && (u[1] == 'x' || u[1] == 'X');
    var radix := if hex then 16 else 10;
    var digits := DigitPrefix(if hex then u[2..] else u, radix);
    if digits == [] then None else Some(ValueIn(digits, radix))
  }

  /** Reading back what `Show` writes gives the number again. */
  lemma ParseIntShow(n: nat)
    ensures ParseInt(Show(n)) == Some(n)
  {
    ParseIntDecimal(Show(n));
  }

  /** `parseInt` reads a decimal string without a leading zero as its value. */
  lemma ParseIntDecimal(s: string)
    requires IsNumeral(s)
    ensures ParseInt(s) == Some(Value(s))
  {
    TrimStartDecimal(s);
    assert s[0] != '-' && s[0] != '+' by {
      assert IsDigitIn(s[0], 10);
    }
    assert ParseMagnitude(s) == Some(Value(s)) by {
      assert !(|s| >= 2 && s[0] == '0');
      DigitPrefixAll(s, 10);
    }
  }

  /** A decimal string starts with no white space. */
  lemma TrimStartDecimal(s: string)
    requires IsDecimal(s)
    ensures TrimStart(s) == s
  {
    assert IsDigitIn(s[0], 10);
  }

  /** A string of digits is its own longest digit prefix. */
  lemma DigitPrefixAll(s: string, radix: nat)
    requires AllDigitsIn(s, radix)
    ensures DigitPrefix(s, radix) == s
  {
  }

  // ---------------------------------------------------------------------------
  // Decoders for the display formats

  /** Reads `{m}:{s}` with both parts decimal; the decoder that inverts the clock formatters. */
  function ParseClock(s: string): (r: Option<(nat, nat)>)
    ensures r.Some? ==> ':' in s
  {
    match IndexOf(s, ':')
    case None => None
    case Some(i) =>
      var left, right := s[..i], s[i + 1..];
      if IsDecimal(left) && IsDecimal(right) then Some((Value(left), Value(right))) else None
  }

  /** Decimal strings hold no colon, so a clock string splits where it was joined. */
  lemma ParseClockJoin(left: string, right: string)
    requires IsDecimal(left) && IsDecimal(right)
    ensures ParseClock(left + ":" + right) == Some((Value(left), Value(right)))
  {
    assert forall i :: 0 <= i < |left| ==> left[i] != ':';
    IndexOfJoin(left, ':', right);
    var s := left + ":" + right;
    assert s[..|left|] == left;
    assert s[|left| + 1..] == right;
  }

  /**
    Reads a countdown back into a number of seconds, inverting the
    countdown formatter. Only the canonical texts are accepted: `{d}s` with
    `d` below 60, and `{m}m {s}s` with at least one minute and `s` below 60,
    every number a numeral without leading zeros.
   */
  function ParseCountdown(s: string): Option<nat>
  {
    if |s| < 2 || s[|s| - 1] != 's' then None
    else
      var body := s[..|s| - 1];
      if IsDecimal(body) then
        if IsNumeral(body) && Value(body) < 60 then Some(Value(body)) else None
      else ParseMinutesSeconds(body)
  }

  /** Reads the `{m}m {s}` part of a countdown as `m * 60 + s`. */
  function ParseMinutesSeconds(body: string): Option<nat>
  {
    match IndexOf(body, 'm')
    case None => None
    case Some(i) =>
      if && i + 1 < |body| && body[i + 1] == ' '
         && IsNumeral(body[..i]) && Value(body[..i]) >= 1
         && IsNumeral(body[i + 2..]) && Value(body[i + 2..]) < 60
      then Some(Value(body[..i]) * 60 + Value(body[i + 2..]))
      else None
  }

  /** `{d}s` reads back as `d`. */
  lemma ParseCountdownSeconds(d: string)
    requires IsNumeral(d) && Value(d) < 60
    ensures ParseCountdown(d + "s") == Some(Value(d))
  {
    var s := d + "s";
    assert s[..|s| - 1] == d;
  }

  /** `{m}m {s}s` reads back as `m * 60 + s`. */
  lemma ParseCountdownJoin(left: string, right: string)
    requires IsNumeral(left) && Value(left) >= 1 && IsNumeral(right) && Value(right) < 60
    ensures ParseCountdown(left + "m " + right + "s") == Some(Value(left) * 60 + Value(right))
  {
    var s := left + "m " + right + "s";
    var body := left + "m" + (" " + right);
    assert s[..|s| - 1] == body;
    assert !IsDecimal(body) by {
      assert !IsDigitIn(body[|left|], 10);
    }
    ParseMinutesSecondsJoin(left, right);
  }

  lemma ParseMinutesSecondsJoin(left: string, right: string)
    requires IsNumeral(left) && Value(left) >= 1 && IsNumeral(right) && Value(right) < 60
    ensures ParseMinutesSeconds(left + "m" + (" " + right)) == Some(Value(left) * 60 + Value(right))
  {
    var body := left + "m" + (" " + right);
    assert forall i :: 0 <= i < |left| ==> left[i] != 'm';
    IndexOfJoin(left, 'm', " " + right);
    assert body[..|left|] == left;
    assert body[|left| + 2..] == right;
  }

  /** A numeral is the text `Show` writes for its value, so equal values mean equal numerals. */
  lemma {:induction false} NumeralShow(s: string)
    requires IsNumeral(s)
    ensures s == Show(Value(s))
    decreases |s|
  {
    var n := Value(s);
    var last := s[|s| - 1];
    assert '0' <= last <= '9' by {
      assert IsDigitIn(last, 10);
    }
    if |s| == 1 {
      assert s == [last];
      assert s[..0] == [];
      assert ValueIn(s, 10) == ValueIn(s[..0], 10) * 10 + DigitOf(last).value;
    } else {
      var p := s[..|s| - 1];
      assert p[0] == s[0];
      NumeralShow(p);
      assert Show(0) == "0";
      assert Value(p) != 0;
      assert n == Value(p) * 10 + DigitOf(last).value;
      assert n / 10 == Value(p) && n % 10 == DigitOf(last).value;
      assert s == p + [last];
    }
  }

  /**
    The countdown decoder accepts nothing but the canonical texts: what it
    reads as `n` seconds is `{n}s` below a minute, and `{m}m {s}s` with
    `m = n / 60` and `s = n % 60` from a minute on.
   */
  lemma ParseCountdownCanonical(s: string)
    requires ParseCountdown(s).Some?
    ensures var n := ParseCountdown(s).value;
      && (n < 60 ==> s == Show(n) + "s")
      && (n >= 60 ==> s == Show(n / 60) + "m " + Show(n % 60) + "s")
  {
    var n := ParseCountdown(s).value;
    var body := s[..|s| - 1];
    assert s == body + "s";
    if IsDecimal(body) {
      NumeralShow(body);
    } else {
      var i := IndexOf(body, 'm').value;
      var left, right := body[..i], body[i + 2..];
      assert body == left + "m " + right;
      NumeralShow(left);
      NumeralShow(right);
      assert n == Value(left) * 60 + Value(right);
      assert n / 60 == Value(left) && n % 60 == Value(right);
    }
  }
}
