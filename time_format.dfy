/** The `M:SS` readout of popup/canvas.js (`toTimeString`), modelled with the
    JavaScript semantics of every operator it uses: `Math.floor`, the truncating
    `%`, number-to-string conversion in a template, and `substr(-2)`. */
module TimeFormat {
  import opened Wrappers

  /** The character of a decimal digit. */
  function DigitChar(d: nat): (c: char)
    requires d < 10
    ensures '0' <= c <= '9'
  {
    ('0' as int + d) as char
  }

  predicate IsDigit(c: char) {
    '0' <= c <= '9'
  }

  predicate AllDigits(s: string) {
    forall i :: 0 <= i < |s| ==> IsDigit(s[i])
  }

  /** Decimal notation of a natural number without leading zeros, as JavaScript
      prints an integral number below 10^21. */
  function NatToString(n: nat): string
    decreases n
  {
    if n < 10 then [DigitChar(n)] else NatToString(n / 10) + [DigitChar(n % 10)]
  }

  /** JavaScript's printing of an integral number: a minus sign, then the digits. */
  function IntToString(i: int): string {
    if i < 0 then "-" + NatToString(-i) else NatToString(i)
  }

  /** JavaScript's `a % b` for a positive divisor: the sign follows the dividend. */
  function JsRem(a: int, b: int): (r: int)
    requires b > 0
    ensures -b < r < b
    ensures a >= 0 ==> r == a % b
  {
    if a >= 0 then a % b else -((-a) % b)
  }

  /** `s.substr(-2)`: the last two characters, or all of a shorter string. */
  function LastTwo(s: string): (r: string)
    ensures |r| == if |s| < 2 then |s| else 2
  {
    if |s| < 2 then s else s[|s| - 2..]
  }

  /** toTimeString(time): minutes, a colon, and the seconds of the minute padded
      to two characters. */
  function ToTimeString(time: real): string {
    var seconds := JsRem((time / 1000.0).Floor, 60);
    var minutes := (time / 1000.0 / 60.0).Floor;
    IntToString(minutes) + ":" + LastTwo("00" + IntToString(seconds))
  }

  /** Whole seconds elapsed at `time` milliseconds. */
  function WholeSeconds(time: real): int {
    (time / 1000.0).Floor
  }

  /** Two decimal digits of a number below 100, with a leading zero. */
  function TwoDigits(n: nat): (s: string)
    requires n < 100
    ensures |s| == 2 && AllDigits(s)
  {
    [DigitChar(n / 10), DigitChar(n % 10)]
  }

  lemma {:induction false} NatToStringDigits(n: nat)
    ensures |NatToString(n)| >= 1 && AllDigits(NatToString(n))
    ensures n < 10 <==> |NatToString(n)| == 1
    decreases n
  {
    if n >= 10 {
      NatToStringDigits(n / 10);
    }
  }

  /** Flooring after a division by 60 agrees with integer division of the floor. */
  lemma FloorDiv60(x: real)
    requires x >= 0.0
    ensures (x / 60.0).Floor == x.Floor / 60
  {
    var k := x.Floor;
    var q := k / 60;
    assert 60 * q <= k < 60 * q + 60;
    assert k as real <= x < k as real + 1.0;
    assert (60 * q) as real <= x < (60 * q + 60) as real;
    assert q as real <= x / 60.0 < q as real + 1.0;
  }

  /** "00" + the digits, cut to two characters, is the two-digit padding. */
  lemma PaddedSeconds(s: nat)
    requires s < 100
    ensures LastTwo("00" + IntToString(s)) == TwoDigits(s)
  {
    if s >= 10 {
      assert NatToString(s) == NatToString(s / 10) + [DigitChar(s % 10)];
      assert NatToString(s / 10) == [DigitChar(s / 10)];
    }
  }

  /** For a non-negative time the readout is the unbounded number of whole
      minutes, a colon, and the seconds within the minute as exactly two digits. */
  lemma ToTimeStringShape(time: real)
    requires time >= 0.0
    ensures WholeSeconds(time) >= 0
    ensures ToTimeString(time)
         == NatToString(WholeSeconds(time) / 60) + ":" + TwoDigits(WholeSeconds(time) % 60)
  {
    var x := time / 1000.0;
    assert x >= 0.0;
    FloorDiv60(x);
    PaddedSeconds(x.Floor % 60);
  }

  /** Sixty-five seconds read "1:05". */
  lemma SixtyFiveSeconds()
    ensures ToTimeString(65000.0) == "1:05"
  {
    ToTimeStringShape(65000.0);
    assert WholeSeconds(65000.0) == 65;
  }

  /** An hour reads "60:00": minutes never roll over into hours. */
  lemma OneHour()
    ensures ToTimeString(3600000.0) == "60:00"
  {
    ToTimeStringShape(3600000.0);
    assert WholeSeconds(3600000.0) == 3600;
    assert NatToString(60) == NatToString(6) + [DigitChar(0)];
  }

  /** A negative time gives a malformed readout: half a second before zero
      reads "-1:-1". */
  lemma NegativeTimeMalformed()
    ensures ToTimeString(-500.0) == "-1:-1"
  {
    assert (-500.0 / 1000.0).Floor == -1;
    assert (-500.0 / 1000.0 / 60.0).Floor == -1;
  }

  /** Value of a string of decimal digits. */
  function DigitsValue(s: string): nat
    requires AllDigits(s)
    decreases |s|
  {
    if |s| == 0 then 0
    else DigitsValue(s[..|s| - 1]) * 10 + (s[|s| - 1] as int - '0' as int)
  }

  lemma {:induction false} DigitsValueOfNatToString(n: nat)
    ensures AllDigits(NatToString(n)) && DigitsValue(NatToString(n)) == n
    decreases n
  {
    NatToStringDigits(n);
    if n >= 10 {
      DigitsValueOfNatToString(n / 10);
      var s := NatToString(n);
      assert s[..|s| - 1] == NatToString(n / 10);
    } else {
      var s := NatToString(n);
      assert s[..0] == [];
    }
  }

  /** Reads an `M:SS` readout back as a whole number of seconds; the inverse of
      ToTimeString on non-negative times. */
  function ParseTimeString(s: string): Option<nat> {
    if |s| < 4 || s[|s| - 3] != ':' then None
    else
      var minutes := s[..|s| - 3];
      var seconds := s[|s| - 2..];
      if AllDigits(minutes) && AllDigits(seconds) && DigitsValue(seconds) < 60
      then Some(DigitsValue(minutes) * 60 + DigitsValue(seconds))
      else None
  }

  /** The readout determines the whole second it was made from. */
  lemma ParseToTimeString(time: real)
    requires time >= 0.0
    ensures ParseTimeString(ToTimeString(time)) == Some(WholeSeconds(time))
  {
    ToTimeStringShape(time);
    var w := WholeSeconds(time);
    var m := NatToString(w / 60);
    var ss := TwoDigits(w % 60);
    var s := m + ":" + ss;
    DigitsValueOfNatToString(w / 60);
    assert s[..|s| - 3] == m;
    assert s[|s| - 2..] == ss;
    assert s[|s| - 3] == ':';
    assert DigitsValue(ss) == w % 60 by {
      assert ss[..1] == [DigitChar((w % 60) / 10)];
      assert ss[..1][..0] == [];
    }
  }

  /** Two non-negative times give the same readout only within the same second. */
  lemma ToTimeStringInjective(t1: real, t2: real)
    requires t1 >= 0.0 && t2 >= 0.0
    requires ToTimeString(t1) == ToTimeString(t2)
    ensures WholeSeconds(t1) == WholeSeconds(t2)
  {
    ParseToTimeString(t1);
    ParseToTimeString(t2);
  }
}
