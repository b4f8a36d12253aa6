/**
 * The elapsed-time text the recording timer writes into the page:
 * whole seconds of the elapsed milliseconds, split into minutes and
 * seconds, each written in decimal and left-padded with '0' to two
 * characters, joined by ':'.
 *
 * ParseElapsed is an independent reading of such a text; the round trip
 * FormatParseRoundTrip is what says the display means what it shows.
 */
module Elapsed {

  import opened Wrappers

  predicate IsDigit(c: char) {
    '0' <= c <= '9'
  }

  predicate AllDigits(s: string) {
    forall i :: 0 <= i < |s| ==> IsDigit(s[i])
  }

  function DigitValue(c: char): (d: nat)
    requires IsDigit(c)
    ensures d < 10
  {
    c as int - '0' as int
  }

  function DigitChar(d: nat): (c: char)
    requires d < 10
    ensures IsDigit(c) && DigitValue(c) == d
    ensures c == '0' <==> d == 0
  {
    (48 + d) as char
  }

  /** The number a string of decimal digits denotes (the empty string denotes 0). */
  function DecimalValue(s: string): nat
    requires AllDigits(s)
  {
    if s == [] then 0 else DecimalValue(s[..|s| - 1]) * 10 + DigitValue(s[|s| - 1])
  }

  /**
   * Decimal text of a non-negative integer, as `Number.prototype.toString()`
   * writes it: at least one digit and no leading zero.
   */
  function NatToDecimal(n: nat): (s: string)
    ensures 1 <= |s| && AllDigits(s)
    ensures n > 0 ==> s[0] != '0'
    ensures |s| == 1 <==> n < 10
    ensures n < 100 ==> |s| <= 2
  {
    if n < 10 then [DigitChar(n)] else NatToDecimal(n / 10) + [DigitChar(n % 10)]
  }

  /** `s.padStart(width, fill)` for a pad string of one character. */
  function PadStart(s: string, width: nat, fill: char): (r: string)
    ensures |r| == if |s| >= width then |s| else width
    decreases width
  {
    if |s| >= width then s else [fill] + PadStart(s, width - 1, fill)
  }

  /** The padded text ends with `s` and is `fill` before it. */
  lemma {:induction false} PadStartShape(s: string, width: nat, fill: char)
    ensures var r := PadStart(s, width, fill);
            r[|r| - |s|..] == s && forall i :: 0 <= i < |r| - |s| ==> r[i] == fill
    decreases width
  {
    var r := PadStart(s, width, fill);
    if |s| < width {
      var q := PadStart(s, width - 1, fill);
      PadStartShape(s, width - 1, fill);
      assert r == [fill] + q;
      assert r[1..] == q;
      assert r[|r| - |s|..] == r[1..][|q| - |s|..];
      forall i | 0 <= i < |r| - |s|
        ensures r[i] == fill
      {
        if i > 0 {
          assert r[i] == q[i - 1];
        }
      }
    }
  }

  /** The `mm:ss` text the timer shows `ms` milliseconds after it started. */
  function FormatElapsed(ms: nat): (r: string)
    ensures |r| >= 5
    ensures ms < 6000000 ==> |r| == 5
  {
    var totalSeconds := ms / 1000;
    MinutesOfMilliseconds(ms);
    Field(totalSeconds / 60) + ":" + Field(totalSeconds % 60)
  }

  /** One field of the display: `n.toString().padStart(2, '0')`. */
  function Field(n: nat): (f: string)
    ensures |f| >= 2
    ensures n < 100 ==> |f| == 2
  {
    PadStart(NatToDecimal(n), 2, '0')
  }

  /** Reads a `m..m:ss` text back into its minutes and seconds fields. */
  function ParseElapsed(s: string): Option<(nat, nat)> {
    if |s| >= 5 && s[|s| - 3] == ':' && AllDigits(s[..|s| - 3]) && AllDigits(s[|s| - 2..])
    then Some((DecimalValue(s[..|s| - 3]), DecimalValue(s[|s| - 2..])))
    else None
  }

  lemma {:induction false} DecimalOfNatToDecimal(n: nat)
    ensures DecimalValue(NatToDecimal(n)) == n
  {
    if n >= 10 {
      var p := NatToDecimal(n / 10);
      var s := p + [DigitChar(n % 10)];
      assert s[..|s| - 1] == p;
      DecimalOfNatToDecimal(n / 10);
    } else {
      assert [DigitChar(n)][..0] == [];
    }
  }

  lemma {:induction false} DecimalIgnoresLeadingZero(s: string)
    requires AllDigits(s)
    ensures AllDigits(['0'] + s) && DecimalValue(['0'] + s) == DecimalValue(s)
  {
    var u := ['0'] + s;
    if s == [] {
      assert u[..0] == [];
    } else {
      assert u[..|u| - 1] == ['0'] + s[..|s| - 1];
      DecimalIgnoresLeadingZero(s[..|s| - 1]);
    }
  }

  /** Padding with '0' keeps a decimal text a decimal text of the same number. */
  lemma {:induction false} PadZeroKeepsValue(s: string, width: nat)
    requires AllDigits(s)
    ensures AllDigits(PadStart(s, width, '0'))
    ensures DecimalValue(PadStart(s, width, '0')) == DecimalValue(s)
    decreases width
  {
    if |s| < width {
      PadZeroKeepsValue(s, width - 1);
      DecimalIgnoresLeadingZero(PadStart(s, width - 1, '0'));
    }
  }

  lemma MinutesOfMilliseconds(ms: nat)
    ensures ms / 1000 / 60 == ms / 60000
    ensures ms < 6000000 ==> ms / 60000 < 100
  {
    var q, r := ms / 60000, ms % 60000;
    assert ms == 60000 * q + r;
    assert ms / 1000 == 60 * q + r / 1000;
  }

  /** The minutes field: the padded decimal text of `n`, at least two digits. */
  lemma MinutesField(n: nat)
    ensures AllDigits(Field(n)) && DecimalValue(Field(n)) == n
  {
    PadZeroKeepsValue(NatToDecimal(n), 2);
    DecimalOfNatToDecimal(n);
  }

  /** The seconds field: exactly two digits denoting `n`, the first at most '5'. */
  lemma SecondsField(n: nat)
    requires n < 60
    ensures |Field(n)| == 2 && AllDigits(Field(n)) && DecimalValue(Field(n)) == n
    ensures '0' <= Field(n)[0] <= '5'
  {
    MinutesField(n);
    TwoDigitValue(Field(n));
  }

  lemma TwoDigitValue(ss: string)
    requires |ss| == 2 && AllDigits(ss)
    ensures DecimalValue(ss) == DigitValue(ss[0]) * 10 + DigitValue(ss[1])
  {
    var hi := ss[..1];
    assert ss[..|ss| - 1] == hi;
    assert hi[..0] == [];
    assert DecimalValue(hi) == DecimalValue(hi[..0]) * 10 + DigitValue(hi[0]);
    assert DecimalValue(ss) == DecimalValue(hi) * 10 + DigitValue(ss[1]);
  }

  /**
   * `r` reads as `minutes:seconds`: a colon third from the end, a
   * minutes field of at least two digits before it and a seconds field of
   * exactly two digits after it, the first of them at most '5'.
   */
  ghost predicate ShowsFields(r: string, minutes: nat, seconds: nat) {
    |r| >= 5 && r[|r| - 3] == ':' &&
    AllDigits(r[..|r| - 3]) && AllDigits(r[|r| - 2..]) &&
    DecimalValue(r[..|r| - 3]) == minutes &&
    DecimalValue(r[|r| - 2..]) == seconds &&
    '0' <= r[|r| - 2] <= '5'
  }

  /**
   * The two fields of the display: the minutes field denotes ms / 60000,
   * the seconds field denotes (ms / 1000) % 60, so it runs from "00" to "59".
   */
  lemma FormatFields(ms: nat)
    ensures ShowsFields(FormatElapsed(ms), ms / 60000, (ms / 1000) % 60)
  {
    var t := ms / 1000;
    assert t / 60 == ms / 60000 by {
      MinutesOfMilliseconds(ms);
    }
    MinutesField(t / 60);
    SecondsField(t % 60);
    JoinFields(Field(t / 60), Field(t % 60), t / 60, t % 60);
  }

  lemma JoinFields(mm: string, ss: string, minutes: nat, seconds: nat)
    requires |mm| >= 2 && AllDigits(mm) && DecimalValue(mm) == minutes
    requires |ss| == 2 && AllDigits(ss) && DecimalValue(ss) == seconds && '0' <= ss[0] <= '5'
    ensures ShowsFields(mm + ":" + ss, minutes, seconds)
  {
    var r := mm + ":" + ss;
    assert r[..|r| - 3] == mm;
    assert r[|r| - 2..] == ss;
  }

  /** Reading the display back gives the elapsed minutes and seconds. */
  lemma FormatParseRoundTrip(ms: nat)
    ensures ParseElapsed(FormatElapsed(ms)) == Some((ms / 60000, (ms / 1000) % 60))
  {
    FormatFields(ms);
  }

  /** Two elapsed times show the same text exactly when they agree in whole seconds. */
  lemma FormatSameSecond(a: nat, b: nat)
    ensures FormatElapsed(a) == FormatElapsed(b) <==> a / 1000 == b / 1000
  {
    if FormatElapsed(a) == FormatElapsed(b) {
      FormatParseRoundTrip(a);
      FormatParseRoundTrip(b);
      MinutesOfMilliseconds(a);
      MinutesOfMilliseconds(b);
      assert a / 1000 == 60 * (a / 1000 / 60) + (a / 1000) % 60;
      assert b / 1000 == 60 * (b / 1000 / 60) + (b / 1000) % 60;
    }
  }
}
