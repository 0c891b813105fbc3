/**
 * The few JavaScript string conversions the report code performs on clock
 * strings: the template literal `${n}` of a non-negative integer, `Number(s)`,
 * `parseInt(s)` and `s.split(':')`, together with the zero-padded "HH:MM"
 * strings that the settings form stores.
 */
module JsText {
  import opened Wrappers

  predicate IsDigit(c: char) {
    '0' <= c <= '9'
  }

  predicate AllDigits(s: string) {
    forall i :: 0 <= i < |s| ==> IsDigit(s[i])
  }

  function DigitChar(d: nat): (c: char)
    requires d < 10
    ensures IsDigit(c)
  {
    (('0' as int) + d) as char
  }

  function DigitValue(c: char): (d: nat)
    requires IsDigit(c)
    ensures d < 10
  {
    (c as int) - ('0' as int)
  }

  /** The decimal value of a string of digits; the empty string is 0. */
  function DigitsValue(s: string): nat
    requires AllDigits(s)
    decreases |s|
  {
    if s == [] then 0 else 10 * DigitsValue(s[..|s| - 1]) + DigitValue(s[|s| - 1])
  }

  /** `${n}` for a non-negative integer: decimal digits without padding. */
  function NatToString(n: nat): (s: string)
    decreases n
  {
    if n < 10 then [DigitChar(n)] else NatToString(n / 10) + [DigitChar(n % 10)]
  }

  /** `Number(s)` for the strings the clock parsing meets: a run of decimal digits
      (the empty string included, which JavaScript reads as 0) is its value;
      anything else is NaN, here None. */
  function ToNumber(s: string): Option<nat> {
    if AllDigits(s) then Some(DigitsValue(s)) else None
  }

  /** Length of the run of digits at the start of `s`. */
  function LeadingDigits(s: string): (k: nat)
    ensures k <= |s|
    decreases |s|
  {
    if s != [] && IsDigit(s[0]) then 1 + LeadingDigits(s[1..]) else 0
  }

  /** `parseInt(s, 10)`: the value of the leading digits, NaN (None) when there are none. */
  function ParseInt(s: string): Option<nat> {
    var k := LeadingDigits(s);
    if k == 0 then None
    else
      assert forall i :: 0 <= i < k ==> IsDigit(s[i]) by { LeadingDigitsAreDigits(s); }
      Some(DigitsValue(s[..k]))
  }

  /** `s.split(sep)`: always at least one piece. */
  function Split(s: string, sep: char): (pieces: seq<string>)
    ensures |pieces| >= 1
    decreases |s|
  {
    if s == [] then [""]
    else
      var rest := Split(s[1..], sep);
      if s[0] == sep then [""] + rest else [[s[0]] + rest[0]] + rest[1..]
  }

  /** The unpadded clock key `${hours}:${minutes}`. */
  function TimeKey(hours: nat, minutes: nat): string {
    NatToString(hours) + ":" + NatToString(minutes)
  }

  /** Two digits with a leading zero below 10, as an `<input type="time">` writes them. */
  function Pad2(n: nat): (s: string)
    requires n < 100
    ensures |s| == 2 && AllDigits(s)
  {
    [DigitChar(n / 10), DigitChar(n % 10)]
  }

  /** The "HH:MM" string of the settings form and of the defaults. */
  function ClockString(hours: nat, minutes: nat): string
    requires hours < 100 && minutes < 100
  {
    Pad2(hours) + ":" + Pad2(minutes)
  }

  /** `const [hours, minutes] = s.split(':').map(Number)`: a missing second
      piece is `undefined`, which compares unequal to everything (None). */
  function ParseClock(s: string): (Option<nat>, Option<nat>) {
    var pieces := Split(s, ':');
    (ToNumber(pieces[0]), if |pieces| > 1 then ToNumber(pieces[1]) else None)
  }

  // ---------------------------------------------------------------- lemmas

  lemma {:induction false} LeadingDigitsAreDigits(s: string)
    ensures forall i :: 0 <= i < LeadingDigits(s) ==> IsDigit(s[i])
    decreases |s|
  {
    if s != [] && IsDigit(s[0]) {
      LeadingDigitsAreDigits(s[1..]);
    }
  }

  /** A digit string has only leading digits. */
  lemma {:induction false} LeadingDigitsOfDigits(s: string)
    requires AllDigits(s)
    ensures LeadingDigits(s) == |s|
    decreases |s|
  {
    if s != [] {
      LeadingDigitsOfDigits(s[1..]);
    }
  }

  /** `${n}` is a non-empty digit string, one digit below 10, two digits below 100. */
  lemma {:induction false} NatToStringShape(n: nat)
    ensures AllDigits(NatToString(n)) && |NatToString(n)| >= 1
    ensures n < 10 <==> |NatToString(n)| == 1
    ensures 10 <= n < 100 ==> NatToString(n) == Pad2(n)
    ensures n >= 100 ==> |NatToString(n)| >= 3
    decreases n
  {
    if n >= 10 {
      NatToStringShape(n / 10);
    }
  }

  /** Reading back `${n}` with Number or parseInt gives n. */
  lemma {:induction false} NatToStringRoundTrip(n: nat)
    ensures AllDigits(NatToString(n)) && DigitsValue(NatToString(n)) == n
    ensures ToNumber(NatToString(n)) == Some(n)
    ensures ParseInt(NatToString(n)) == Some(n)
    decreases n
  {
    NatToStringShape(n);
    var s := NatToString(n);
    if n >= 10 {
      NatToStringRoundTrip(n / 10);
      assert s[..|s| - 1] == NatToString(n / 10);
      assert DigitValue(s[|s| - 1]) == n % 10;
    }
    LeadingDigitsOfDigits(s);
    assert s[..|s|] == s;
  }

  lemma Pad2RoundTrip(n: nat)
    requires n < 100
    ensures ToNumber(Pad2(n)) == Some(n)
  {
    var s := Pad2(n);
    assert s[..|s| - 1] == [DigitChar(n / 10)];
    assert DigitsValue([DigitChar(n / 10)]) == n / 10 by {
      assert [DigitChar(n / 10)][..0] == [];
    }
    assert DigitsValue(s) == 10 * (n / 10) + n % 10;
  }

  /** Splitting at a separator that the first part does not contain. */
  lemma {:induction false} SplitAt(a: string, sep: char, b: string)
    requires sep !in a
    ensures Split(a + [sep] + b, sep) == [a] + Split(b, sep)
    decreases |a|
  {
    if a == [] {
      assert a + [sep] + b == [sep] + b;
      assert ([sep] + b)[1..] == b;
    } else {
      assert (a + [sep] + b)[1..] == a[1..] + [sep] + b;
      SplitAt(a[1..], sep, b);
      assert [a[0]] + a[1..] == a;
    }
  }

  /** A string without the separator splits into itself. */
  lemma {:induction false} SplitNone(a: string, sep: char)
    requires sep !in a
    ensures Split(a, sep) == [a]
    decreases |a|
  {
    if a != [] {
      SplitNone(a[1..], sep);
      assert [a[0]] + a[1..] == a;
    }
  }

  lemma DigitsHaveNoColon(s: string)
    requires AllDigits(s)
    ensures ':' !in s
  {
  }

  /** The pieces of `a:b` for colon-free a and b. */
  lemma SplitClock(a: string, b: string)
    requires ':' !in a && ':' !in b
    ensures Split(a + ":" + b, ':') == [a, b]
  {
    SplitAt(a, ':', b);
    SplitNone(b, ':');
  }

  /** The configured "HH:MM" string parses to its hours and minutes. */
  lemma ClockStringParses(hours: nat, minutes: nat)
    requires hours < 100 && minutes < 100
    ensures ParseClock(ClockString(hours, minutes)) == (Some(hours), Some(minutes))
  {
    DigitsHaveNoColon(Pad2(hours));
    DigitsHaveNoColon(Pad2(minutes));
    SplitClock(Pad2(hours), Pad2(minutes));
    Pad2RoundTrip(hours);
    Pad2RoundTrip(minutes);
  }

  /** The first piece of the unpadded key, read with parseInt, is the hour. */
  lemma TimeKeyHour(hours: nat, minutes: nat)
    ensures ParseInt(Split(TimeKey(hours, minutes), ':')[0]) == Some(hours)
  {
    NatToStringShape(hours);
    NatToStringShape(minutes);
    DigitsHaveNoColon(NatToString(hours));
    DigitsHaveNoColon(NatToString(minutes));
    SplitClock(NatToString(hours), NatToString(minutes));
    NatToStringRoundTrip(hours);
  }

  /** The unpadded key equals a padded "HH:MM" string exactly when both fields
      are at least 10 and agree; so "20:00" or "09:30" is never produced. */
  lemma TimeKeyMatchesClockString(h: nat, m: nat, hours: nat, minutes: nat)
    requires hours < 100 && minutes < 100
    ensures TimeKey(h, m) == ClockString(hours, minutes)
            <==> hours >= 10 && minutes >= 10 && h == hours && m == minutes
  {
    NatToStringShape(h);
    NatToStringShape(m);
    DigitsHaveNoColon(NatToString(h));
    DigitsHaveNoColon(NatToString(m));
    DigitsHaveNoColon(Pad2(hours));
    DigitsHaveNoColon(Pad2(minutes));
    if TimeKey(h, m) == ClockString(hours, minutes) {
      SplitClock(NatToString(h), NatToString(m));
      SplitClock(Pad2(hours), Pad2(minutes));
      assert NatToString(h) == Pad2(hours) && NatToString(m) == Pad2(minutes);
      NatToStringRoundTrip(h);
      NatToStringRoundTrip(m);
      Pad2RoundTrip(hours);
      Pad2RoundTrip(minutes);
      assert h == hours && m == minutes;
      assert 10 <= h && 10 <= m;
    }
  }
}
