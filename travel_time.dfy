/**
 * `MKRoute.formattedExpectedTravelTime`: a whole number of seconds written as
 * `HH:MM:SS` with the C format `%02d:%02d:%02d`.
 */
module TravelTime {

  import opened Wrappers

  predicate IsDigit(c: char)
  {
    '0' <= c <= '9'
  }

  predicate IsDigits(s: string)
  {
    forall i :: 0 <= i < |s| ==> IsDigit(s[i])
  }

  function DigitChar(d: nat): char
    requires d < 10
  {
    ('0' as int + d) as char
  }

  function DigitValue(c: char): nat
    requires IsDigit(c)
  {
    c as int - '0' as int
  }

  /** `%d` of a non-negative number: its decimal digits, most significant first, no leading zero. */
  function DecimalDigits(n: nat): (s: string)
    ensures 1 <= |s| && IsDigits(s)
    ensures n < 10 <==> |s| == 1
    ensures 10 <= n < 100 ==> |s| == 2
    ensures |s| > 1 ==> s[0] != '0'
  {
    if n < 10 then [DigitChar(n)] else DecimalDigits(n / 10) + [DigitChar(n % 10)]
  }

  /** The number a string of decimal digits denotes; the reference reading of a printed field. */
  function DecimalValue(s: string): nat
    requires IsDigits(s)
  {
    if s == [] then 0 else 10 * DecimalValue(s[..|s| - 1]) + DigitValue(s[|s| - 1])
  }

  lemma {:induction false} DecimalDigitsRoundTrip(n: nat)
    ensures DecimalValue(DecimalDigits(n)) == n
  {
    if n >= 10 {
      var s := DecimalDigits(n);
      assert s[..|s| - 1] == DecimalDigits(n / 10);
      DecimalDigitsRoundTrip(n / 10);
    }
  }

  /** A leading zero does not change the value of a digit string. */
  lemma {:induction false} LeadingZero(s: string)
    requires IsDigits(s)
    ensures IsDigits("0" + s) && DecimalValue("0" + s) == DecimalValue(s)
  {
    if s != [] {
      var t := "0" + s;
      assert t[..|t| - 1] == "0" + s[..|s| - 1];
      LeadingZero(s[..|s| - 1]);
    }
  }

  /** `%02d`: the decimal digits of `n`, left-padded with '0' to at least two characters. */
  function ZeroPadded2(n: nat): (s: string)
    ensures 2 <= |s| && IsDigits(s)
    ensures n < 100 ==> |s| == 2
    ensures DecimalValue(s) == n
    ensures 10 <= n ==> s[0] != '0'
  {
    var digits := DecimalDigits(n);
    DecimalDigitsRoundTrip(n);
    if |digits| < 2 then LeadingZero(digits); "0" + digits else digits
  }

  /** Hours, minutes and seconds as the source computes them: `t / 3600`, `t / 60 % 60`, `t % 60`. */
  function TravelTimeParts(t: nat): (parts: (nat, nat, nat))
    ensures parts.0 * 3600 + parts.1 * 60 + parts.2 == t
    ensures parts.1 < 60 && parts.2 < 60
  {
    var minutesTotal := t / 60;
    assert minutesTotal / 60 == t / 3600 by { DivDiv(t); }
    (t / 3600, minutesTotal % 60, t % 60)
  }

  lemma DivDiv(t: nat)
    ensures t / 60 / 60 == t / 3600
    ensures t / 3600 * 3600 + t / 60 % 60 * 60 + t % 60 == t
  {
    var q, r := t / 60, t % 60;
    var h, m := q / 60, q % 60;
    assert t == 60 * q + r;
    assert q == 60 * h + m;
    assert t == 3600 * h + (60 * m + r);
    assert 0 <= 60 * m + r < 3600;
  }

  /** Hours, minutes below 60 and seconds below 60 that add up to `t` are unique. */
  lemma TravelTimePartsUnique(t: nat, h: nat, m: nat, s: nat)
    requires h * 3600 + m * 60 + s == t && m < 60 && s < 60
    ensures TravelTimeParts(t) == (h, m, s)
  {
    var p := TravelTimeParts(t);
    assert 0 <= m * 60 + s < 3600 && 0 <= p.1 * 60 + p.2 < 3600;
    assert h == p.0;
    assert m * 60 + s == p.1 * 60 + p.2;
  }

  /** `String(format: "%02d:%02d:%02d", hours, minutes, seconds)` */
  function FormattedExpectedTravelTime(t: nat): (text: string)
    ensures 8 <= |text| && text[|text| - 3] == ':' && text[|text| - 6] == ':'
    ensures IsDigits(text[..|text| - 6])
    ensures IsDigits(text[|text| - 5..|text| - 3]) && IsDigits(text[|text| - 2..])
  {
    var parts := TravelTimeParts(t);
    var hh, mm, ss := ZeroPadded2(parts.0), ZeroPadded2(parts.1), ZeroPadded2(parts.2);
    SplitFields(hh, mm, ss);
    hh + ":" + mm + ":" + ss
  }

  /** Where the fields of `hh:mm:ss` sit when the last two fields are two digits wide. */
  lemma SplitFields(hh: string, mm: string, ss: string)
    requires 2 <= |hh| && |mm| == 2 && |ss| == 2
    requires IsDigits(hh) && IsDigits(mm) && IsDigits(ss)
    ensures var text := hh + ":" + mm + ":" + ss;
      8 <= |text| && text[|text| - 3] == ':' && text[|text| - 6] == ':' &&
      text[..|text| - 6] == hh && text[|text| - 5..|text| - 3] == mm && text[|text| - 2..] == ss &&
      IsDigits(text[..|text| - 6]) && IsDigits(text[|text| - 5..|text| - 3]) && IsDigits(text[|text| - 2..])
  {
    var text := hh + ":" + mm + ":" + ss;
    assert text[..|text| - 6] == hh;
    assert text[|text| - 5..|text| - 3] == mm;
    assert text[|text| - 2..] == ss;
  }

  /**
   * Reads back a `HH:MM:SS` text: the last two fields are two digits each and
   * below 60, the hours field is the rest. The reference inverse of the format.
   */
  function ParseTravelTime(text: string): Option<nat>
  {
    var n := |text|;
    if n < 8 || text[n - 3] != ':' || text[n - 6] != ':' then None
    else
      var hh, mm, ss := text[..n - 6], text[n - 5..n - 3], text[n - 2..];
      if !(IsDigits(hh) && IsDigits(mm) && IsDigits(ss)) then None
      else
        var h, m, s := DecimalValue(hh), DecimalValue(mm), DecimalValue(ss);
        if m < 60 && s < 60 then Some(h * 3600 + m * 60 + s) else None
  }

  /** The formatted text loses nothing: reading it back gives the number of seconds. */
  lemma FormattedTravelTimeRoundTrip(t: nat)
    ensures ParseTravelTime(FormattedExpectedTravelTime(t)) == Some(t)
  {
    var parts := TravelTimeParts(t);
    var hh, mm, ss := ZeroPadded2(parts.0), ZeroPadded2(parts.1), ZeroPadded2(parts.2);
    SplitFields(hh, mm, ss);
  }

  /** Distinct travel times never print the same text. */
  lemma FormattedTravelTimeInjective(t: nat, u: nat)
    requires FormattedExpectedTravelTime(t) == FormattedExpectedTravelTime(u)
    ensures t == u
  {
    FormattedTravelTimeRoundTrip(t);
    FormattedTravelTimeRoundTrip(u);
  }

  /**
   * The text is exactly `HH:MM:SS` below 100 hours; from 100 hours on the hours
   * field grows and carries no padding zero.
   */
  lemma FormattedTravelTimeFields(t: nat)
    ensures var text := FormattedExpectedTravelTime(t);
      (t < 360000 <==> |text| == 8) &&
      (t >= 360000 ==> text[0] != '0')
  {
    var parts := TravelTimeParts(t);
    if t >= 360000 {
      assert parts.0 >= 100;
    }
  }
}
