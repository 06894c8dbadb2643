/**
 * The elapsed-time display of the client page: `formatTime` turns a count of
 * seconds into `HH:MM:SS`, hours first, every field left-padded with '0' to at
 * least two characters.
 *
 * `ParseTime` reads such a string back; it is not part of the page and exists
 * so that the display can be stated to lose nothing (`FormatTimeRoundTrip`).
 */
module TimeFormat {
  import opened Wrappers

  /** A count of seconds split into whole hours, minutes past the hour and seconds past the minute. */
  datatype Clock = Clock(hours: nat, minutes: nat, seconds: nat)

  predicate IsDigit(ch: char) {
    '0' <= ch <= '9'
  }

  predicate AllDigits(s: string) {
    forall i :: 0 <= i < |s| ==> IsDigit(s[i])
  }

  function DigitValue(ch: char): (d: nat)
    requires IsDigit(ch)
    ensures d < 10
  {
    ch as int - '0' as int
  }

  function DigitChar(d: nat): (ch: char)
    requires d < 10
    ensures IsDigit(ch) && DigitValue(ch) == d
  {
    ('0' as int + d) as char
  }

  /**
   * The three fields `formatTime` computes: `Math.floor(s / 3600)`,
   * `Math.floor((s % 3600) / 60)` and `s % 60`. The count is never negative,
   * so JavaScript's `%` and Dafny's agree here.
   */
  function Split(total: nat): (c: Clock)
    ensures c.hours * 3600 + c.minutes * 60 + c.seconds == total
    ensures c.minutes < 60 && c.seconds < 60
  {
    var rest := total % 3600;
    assert total % 60 == rest % 60 by {
      assert total == (total / 3600) * 3600 + rest;
      assert total == ((total / 3600) * 60 + rest / 60) * 60 + rest % 60;
    }
    Clock(total / 3600, rest / 60, total % 60)
  }

  /** The split is the only one with minutes and seconds below 60. */
  lemma SplitUnique(c: Clock)
    requires c.minutes < 60 && c.seconds < 60
    ensures Split(c.hours * 3600 + c.minutes * 60 + c.seconds) == c
  {
  }

  /** Decimal digits of `n` without leading zeros, as `Number.prototype.toString` writes them. */
  function Decimal(n: nat): (s: string)
    ensures AllDigits(s) && |s| >= 1
    ensures |s| == 1 <==> n < 10
    ensures |s| <= 2 <==> n < 100
    ensures s[0] == '0' ==> n == 0
    decreases n
  {
    if n < 10 then [DigitChar(n)] else Decimal(n / 10) + [DigitChar(n % 10)]
  }

  /** The number a string of decimal digits denotes; leading zeros add nothing. */
  function ParseDecimal(s: string): nat
    requires AllDigits(s)
  {
    if s == [] then 0 else ParseDecimal(s[..|s| - 1]) * 10 + DigitValue(s[|s| - 1])
  }

  lemma {:induction false} ParseDecimalOfDecimal(n: nat)
    ensures ParseDecimal(Decimal(n)) == n
    decreases n
  {
    if n >= 10 {
      var s := Decimal(n);
      assert s[..|s| - 1] == Decimal(n / 10);
      assert s[|s| - 1] == DigitChar(n % 10);
      ParseDecimalOfDecimal(n / 10);
    }
  }

  lemma {:induction false} LeadingZeroIgnored(s: string)
    requires AllDigits(s)
    ensures AllDigits(['0'] + s) && ParseDecimal(['0'] + s) == ParseDecimal(s)
    decreases |s|
  {
    var t := ['0'] + s;
    assert AllDigits(t) by {
      forall i | 0 <= i < |t| ensures IsDigit(t[i]) {
        if i > 0 { assert t[i] == s[i - 1]; }
      }
    }
    if s != [] {
      assert t[..|t| - 1] == ['0'] + s[..|s| - 1];
      assert t[|t| - 1] == s[|s| - 1];
      LeadingZeroIgnored(s[..|s| - 1]);
    }
  }

  /**
   * One field of the display, `n.toString().padStart(2, '0')`: the decimal
   * digits of `n`, with one '0' in front when there is only one digit.
   */
  function Field(n: nat): (r: string)
    ensures AllDigits(r) && |r| >= 2
    ensures |r| == 2 <==> n < 100
  {
    var d := Decimal(n);
    if |d| >= 2 then d else ['0'] + d
  }

  /** A field reads back as the number it shows. */
  lemma FieldRoundTrip(n: nat)
    ensures ParseDecimal(Field(n)) == n
  {
    ParseDecimalOfDecimal(n);
    if n < 10 {
      LeadingZeroIgnored(Decimal(n));
    }
  }

  /** Below 100 a field is exactly the tens digit followed by the units digit. */
  lemma TwoDigitField(n: nat)
    requires n < 100
    ensures Field(n) == [DigitChar(n / 10), DigitChar(n % 10)]
  {
    if n >= 10 {
      assert Decimal(n / 10) == [DigitChar(n / 10)];
    }
  }

  /** The value of two decimal digits. */
  function PairValue(tens: char, units: char): nat
    requires IsDigit(tens) && IsDigit(units)
  {
    DigitValue(tens) * 10 + DigitValue(units)
  }

  lemma HoursBelow100(total: nat)
    ensures Split(total).hours < 100 <==> total < 360000
  {
  }

  /** `formatTime(seconds)`: hours, minutes and seconds, each at least two digits, joined by ':'. */
  function FormatTime(total: nat): string {
    var c := Split(total);
    Field(c.hours) + ":" + Field(c.minutes) + ":" + Field(c.seconds)
  }

  /** The display spelled out: the hours field, then ':', two minute digits, ':', two second digits. */
  lemma FormatTimeSpelled(total: nat, c: Clock)
    requires c == Split(total)
    ensures FormatTime(total) == Field(c.hours) +
      [':', DigitChar(c.minutes / 10), DigitChar(c.minutes % 10), ':', DigitChar(c.seconds / 10), DigitChar(c.seconds % 10)]
  {
    TwoDigitField(c.minutes);
    TwoDigitField(c.seconds);
  }

  /**
   * The shape of the display: digits with a ':' third and sixth from the end,
   * at least 8 characters, and exactly 8 (`HH:MM:SS`) below 100 hours.
   */
  lemma FormatTimeShape(total: nat)
    ensures var r := FormatTime(total);
      |r| >= 8 && r[|r| - 3] == ':' && r[|r| - 6] == ':' &&
      (total < 360000 <==> |r| == 8) &&
      forall i :: 0 <= i < |r| && i != |r| - 3 && i != |r| - 6 ==> IsDigit(r[i])
  {
  }

  /**
   * Reads an `H..H:MM:SS` string back into seconds: at least two hour digits,
   * exactly two minute and two second digits, both below 60.
   */
  function ParseTime(t: string): Option<nat> {
    if |t| < 8 || t[|t| - 3] != ':' || t[|t| - 6] != ':' then None
    else if !AllDigits(t[..|t| - 6]) then None
    else if !(IsDigit(t[|t| - 5]) && IsDigit(t[|t| - 4]) && IsDigit(t[|t| - 2]) && IsDigit(t[|t| - 1])) then None
    else
      var minutes, seconds := PairValue(t[|t| - 5], t[|t| - 4]), PairValue(t[|t| - 2], t[|t| - 1]);
      if minutes >= 60 || seconds >= 60 then None
      else Some(ParseDecimal(t[..|t| - 6]) * 3600 + minutes * 60 + seconds)
  }

  /** The display loses nothing: the seconds count can be read back from it. */
  lemma FormatTimeRoundTrip(total: nat)
    ensures ParseTime(FormatTime(total)) == Some(total)
  {
    var c := Split(total);
    FormatTimeSpelled(total, c);
    FieldRoundTrip(c.hours);
    var h := Field(c.hours);
    var t := FormatTime(total);
    assert t[..|t| - 6] == h;
    assert PairValue(t[|t| - 5], t[|t| - 4]) == c.minutes;
    assert PairValue(t[|t| - 2], t[|t| - 1]) == c.seconds;
  }

  /** Distinct counts are shown as distinct strings. */
  lemma FormatTimeInjective(a: nat, b: nat)
    requires FormatTime(a) == FormatTime(b)
    ensures a == b
  {
    FormatTimeRoundTrip(a);
    FormatTimeRoundTrip(b);
  }

  /** Below 100 hours the display is `HH:MM:SS`, each pair of digits spelling its field of the split. */
  lemma FormatTimeFixedWidth(total: nat)
    requires total < 360000
    ensures var t := FormatTime(total); var c := Split(total);
      |t| == 8 && t[2] == ':' && t[5] == ':' &&
      PairValue(t[0], t[1]) == c.hours && PairValue(t[3], t[4]) == c.minutes && PairValue(t[6], t[7]) == c.seconds
  {
    var c := Split(total);
    HoursBelow100(total);
    FormatTimeSpelled(total, c);
    TwoDigitField(c.hours);
  }
}
