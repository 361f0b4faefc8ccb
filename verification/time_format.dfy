/** Display of a minute offset as `HH:MM`: hours are the whole hours in the
    offset, not wrapped at 24, and each part is written in decimal with a
    leading zero when it has a single digit. */
module TimeFormat {

  datatype Option<T> = None | Some(value: T)

  predicate IsDigit(c: char) {
    '0' <= c <= '9'
  }

  predicate AllDigits(s: string) {
    forall k :: 0 <= k < |s| ==> IsDigit(s[k])
  }

  function DigitValue(c: char): nat
    requires IsDigit(c)
  {
    (c as int) - ('0' as int)
  }

  function DigitChar(d: nat): (c: char)
    requires d < 10
    ensures IsDigit(c) && DigitValue(c) == d
  {
    (('0' as int) + d) as char
  }

  /** The number a string of decimal digits denotes, most significant first. */
  function Value(s: string): nat
    requires AllDigits(s)
    decreases |s|
  {
    if s == [] then 0 else Value(s[..|s| - 1]) * 10 + DigitValue(s[|s| - 1])
  }

  /** Shortest decimal representation of `n`. */
  function Decimal(n: nat): (s: string)
    ensures AllDigits(s) && Value(s) == n
    ensures |s| >= 1 && (|s| > 1 ==> s[0] != '0')
    ensures n < 10 <==> |s| == 1
    decreases n
  {
    if n < 10 then [DigitChar(n)]
    else
      var prefix := Decimal(n / 10);
      var s := prefix + [DigitChar(n % 10)];
      assert s[..|s| - 1] == prefix;
      s
  }

  /** Decimal representation of `n`, zero-filled to a width of two. */
  function ZeroPad2(n: nat): (s: string)
    ensures AllDigits(s) && Value(s) == n
    ensures |s| >= 2 && (|s| > 2 ==> s[0] != '0')
    ensures n < 100 ==> |s| == 2
  {
    if n < 10 then
      var s := ['0', DigitChar(n)];
      assert s[..1] == ['0'] && s[..1][..0] == [];
      assert Value(s[..1]) == 0;
      s
    else Decimal(n)
  }

  /** Splits a minute offset into whole hours and the minutes left over. */
  function SplitMinutes(m: nat): (hm: (nat, nat))
    ensures hm.0 * 60 + hm.1 == m && hm.1 < 60
  {
    (m / 60, m % 60)
  }

  /** `HH:MM` display of a minute offset: the hours part and the two-digit
      minutes part, read back as numbers, recompose the offset. */
  function FormatTime(m: nat): (s: string)
    ensures |s| >= 5 && s[|s| - 3] == ':'
    ensures AllDigits(s[..|s| - 3]) && AllDigits(s[|s| - 2..])
    ensures Value(s[..|s| - 3]) * 60 + Value(s[|s| - 2..]) == m
    ensures Value(s[|s| - 2..]) < 60
    ensures |s| > 5 ==> s[0] != '0'
    ensures m < 6000 ==> |s| == 5
  {
    var hm := SplitMinutes(m);
    var hours, mins := ZeroPad2(hm.0), ZeroPad2(hm.1);
    var s := hours + ":" + mins;
    assert s[..|s| - 3] == hours;
    assert s[|s| - 2..] == mins;
    s
  }

  /** Reads an `HH:MM` string back into a minute offset; `None` when the
      string is not of that form. */
  function ParseTime(s: string): Option<nat>
  {
    if |s| >= 5 && s[|s| - 3] == ':' && AllDigits(s[..|s| - 3]) && AllDigits(s[|s| - 2..])
       && Value(s[|s| - 2..]) < 60
    then Some(Value(s[..|s| - 3]) * 60 + Value(s[|s| - 2..]))
    else None
  }

  /** Reading a formatted offset back gives the offset. */
  lemma ParseFormatRoundTrip(m: nat)
    ensures ParseTime(FormatTime(m)) == Some(m)
  {
  }

  /** Distinct offsets are displayed differently. */
  lemma FormatTimeInjective(a: nat, b: nat)
    requires FormatTime(a) == FormatTime(b)
    ensures a == b
  {
    ParseFormatRoundTrip(a);
    ParseFormatRoundTrip(b);
  }

  /** A few displays: 5:00 AM, 6:05 AM, and an offset past one day, whose hours
      are not wrapped. */
  lemma FormatTimeExamples()
    ensures FormatTime(300) == "05:00"
    ensures FormatTime(365) == "06:05"
    ensures FormatTime(1500) == "25:00"
    ensures FormatTime(6000) == "100:00"
  {
  }
}
