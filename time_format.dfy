/**
 * The `formatTime` helper of the two timer pages: minutes, a colon and
 * seconds, each rendered with JavaScript's integer `toString` and then
 * `padStart(2, "0")`.
 */
module TimeFormat {

  predicate IsDigit(c: char)
  {
    '0' <= c <= '9'
  }

  function DigitChar(d: nat): (c: char)
    requires d < 10
    ensures IsDigit(c) && c as int - '0' as int == d
  {
    ('0' as int + d) as char
  }

  function DigitValue(c: char): nat
    requires IsDigit(c)
  {
    c as int - '0' as int
  }

  /** Decimal rendering of a natural number, most significant digit first. */
  function NatToString(n: nat): (r: string)
    ensures |r| >= 1
    ensures forall i :: 0 <= i < |r| ==> IsDigit(r[i])
    ensures n < 10 ==> |r| == 1
    ensures 10 <= n < 100 ==> |r| == 2
    ensures n >= 10 ==> |r| >= 2
    decreases n
  {
    if n < 10 then [DigitChar(n)] else NatToString(n / 10) + [DigitChar(n % 10)]
  }

  /**
   * JavaScript's `Number.prototype.toString()` on an integer below 10^21 in
   * magnitude; from 10^21 on JavaScript switches to exponent notation, which
   * no timer value reaches.
   */
  function IntToString(n: int): (r: string)
    ensures |r| >= 1 && (r[0] == '-' <==> n < 0)
    ensures n >= 0 ==> AllDigits(r)
    ensures n < 0 ==> AllDigits(r[1..])
  {
    if n < 0 then "-" + NatToString(-n) else NatToString(n)
  }

  /** The characters after the optional sign read back as the magnitude. */
  lemma IntToStringValue(n: int)
    ensures n >= 0 ==> DigitsValue(IntToString(n)) == n
    ensures n < 0 ==> DigitsValue(IntToString(n)[1..]) == -n
  {
    var d := NatToString(if n < 0 then -n else n);
    NatToStringValue(if n < 0 then -n else n);
    if n < 0 {
      var r := "-" + d;
      assert r[1..] == d;
    }
  }

  /** `s.padStart(width, fill)` for a single fill character. */
  function PadStart(s: string, width: nat, fill: char): (r: string)
    ensures |r| == if |s| >= width then |s| else width
    ensures r[|r| - |s|..] == s
    ensures forall i :: 0 <= i < |r| - |s| ==> r[i] == fill
  {
    if |s| >= width then s else seq(width - |s|, _ => fill) + s
  }

  /** JavaScript's `%`: the remainder takes the sign of the dividend. */
  function JsRem(a: int, b: int): (r: int)
    requires b > 0
    ensures -b < r < b
    ensures a >= 0 ==> r >= 0
    ensures a <= 0 ==> r <= 0
  {
    if a >= 0 then a % b else -((-a) % b)
  }

  /**
   * `seconds % 60` differs from `seconds` by a whole number of minutes; with
   * the bound and the sign above this pins the truncating remainder down.
   */
  lemma MinuteRemainder(seconds: int)
    ensures (seconds - JsRem(seconds, 60)) % 60 == 0
  {
    var r := JsRem(seconds, 60);
    if seconds >= 0 {
      assert seconds == 60 * (seconds / 60) + r;
    } else {
      var x := -seconds;
      assert x == 60 * (x / 60) + x % 60;
      assert r == -(x % 60);
      assert seconds - r == 60 * -(x / 60);
    }
  }

  /**
   * `formatTime(seconds)`. `Math.floor(seconds / 60)` is Dafny's `/` for a
   * positive divisor; `seconds % 60` is JavaScript's truncating remainder.
   */
  function FormatTime(seconds: int): (r: string)
    ensures |r| >= 5
    ensures seconds >= 0 ==> r[|r| - 3] == ':' && AllDigits(r[|r| - 2..])
  {
    PadStart(IntToString(seconds / 60), 2, '0') + ":" + PadStart(IntToString(JsRem(seconds, 60)), 2, '0')
  }

  predicate AllDigits(s: string)
  {
    forall i :: 0 <= i < |s| ==> IsDigit(s[i])
  }

  /** The number a string of decimal digits denotes (leading zeros allowed). */
  function DigitsValue(s: string): nat
    requires AllDigits(s)
  {
    if s == [] then 0 else DigitsValue(s[..|s| - 1]) * 10 + DigitValue(s[|s| - 1])
  }

  /** A clock face: a run of at least two digits, a colon, and exactly two digits. */
  predicate IsClockFace(r: string)
  {
    && |r| >= 5 && r[|r| - 3] == ':'
    && AllDigits(r[..|r| - 3]) && AllDigits(r[|r| - 2..])
  }

  /** Reads a clock face `m...m:ss` back as a number of seconds. */
  function ClockValue(r: string): int
    requires IsClockFace(r)
  {
    DigitsValue(r[..|r| - 3]) * 60 + DigitsValue(r[|r| - 2..])
  }

  function Zeros(z: nat): (r: string)
    ensures |r| == z && AllDigits(r)
  {
    seq(z, _ => '0')
  }

  lemma {:induction false} NatToStringValue(n: nat)
    ensures DigitsValue(NatToString(n)) == n
    decreases n
  {
    if n >= 10 {
      var s := NatToString(n / 10) + [DigitChar(n % 10)];
      assert s[..|s| - 1] == NatToString(n / 10);
      NatToStringValue(n / 10);
    }
  }

  lemma {:induction false} ZerosValue(z: nat)
    ensures DigitsValue(Zeros(z)) == 0
    decreases z
  {
    if z > 0 {
      assert Zeros(z)[..z - 1] == Zeros(z - 1);
      ZerosValue(z - 1);
    }
  }

  lemma {:induction false} LeadingZerosValue(z: nat, s: string)
    requires AllDigits(s)
    ensures AllDigits(Zeros(z) + s)
    ensures DigitsValue(Zeros(z) + s) == DigitsValue(s)
    decreases |s|
  {
    var t := Zeros(z) + s;
    if s == [] {
      assert t == Zeros(z);
      ZerosValue(z);
    } else {
      var p := s[..|s| - 1];
      assert t[..|t| - 1] == Zeros(z) + p;
      LeadingZerosValue(z, p);
    }
  }

  /** A natural number rendered and zero-padded to two places. */
  function Padded(n: nat): string
  {
    PadStart(NatToString(n), 2, '0')
  }

  /** Zero-padding a decimal rendering leaves its value unchanged. */
  lemma PaddedValue(n: nat)
    ensures AllDigits(Padded(n)) && DigitsValue(Padded(n)) == n
    ensures |Padded(n)| >= 2 && (n < 100 ==> |Padded(n)| == 2)
  {
    var s := NatToString(n);
    NatToStringValue(n);
    if |s| < 2 {
      assert Padded(n) == Zeros(2 - |s|) + s;
      LeadingZerosValue(2 - |s|, s);
    }
  }

  lemma NonNegativeFormat(seconds: int)
    requires seconds >= 0
    ensures FormatTime(seconds) == Padded(seconds / 60) + ":" + Padded(seconds % 60)
  {
  }

  /** A face joined from a digit run and two digits splits back into them. */
  lemma JoinedClockValue(m: string, ss: string)
    requires AllDigits(m) && AllDigits(ss) && |m| >= 2 && |ss| == 2
    ensures var r := m + ":" + ss;
      && |r| == |m| + 3 && r[|r| - 3] == ':'
      && r[..|r| - 3] == m && r[|r| - 2..] == ss
      && IsClockFace(r) && ClockValue(r) == DigitsValue(m) * 60 + DigitsValue(ss)
  {
    var r := m + ":" + ss;
    assert r[..|r| - 3] == m;
    assert r[|r| - 2..] == ss;
  }

  /** The clock face built from two padded fields reads back as their total. */
  lemma PaddedClockValue(mins: nat, secs: nat)
    requires secs < 60
    ensures var r := Padded(mins) + ":" + Padded(secs);
      IsClockFace(r) && ClockValue(r) == mins * 60 + secs
  {
    PaddedValue(mins);
    PaddedValue(secs);
    JoinedClockValue(Padded(mins), Padded(secs));
  }

  /**
   * For a non-negative number of seconds the clock face is a run of minute
   * digits, a colon and exactly two second digits, and reading it back gives
   * the same number of seconds.
   */
  lemma FormatTimeRoundTrip(seconds: int)
    requires seconds >= 0
    ensures IsClockFace(FormatTime(seconds)) && ClockValue(FormatTime(seconds)) == seconds
  {
    var mins, secs := seconds / 60, seconds % 60;
    NonNegativeFormat(seconds);
    PaddedClockValue(mins, secs);
    assert mins * 60 + secs == seconds;
  }

  lemma PaddedClockShape(mins: nat, secs: nat)
    requires mins < 100 && secs < 60
    ensures var r := Padded(mins) + ":" + Padded(secs);
      && |r| == 5 && r[2] == ':'
      && AllDigits(r[..2]) && AllDigits(r[3..])
      && DigitsValue(r[..2]) == mins && DigitsValue(r[3..]) == secs
  {
    PaddedValue(mins);
    PaddedValue(secs);
    JoinedClockValue(Padded(mins), Padded(secs));
  }

  /**
   * Below 100 minutes the face is exactly `mm:ss`, and the seconds field
   * always lies in 00..59.
   */
  lemma FormatTimeShape(seconds: int)
    requires 0 <= seconds < 6000
    ensures var r := FormatTime(seconds);
      && |r| == 5 && r[2] == ':'
      && AllDigits(r[..2]) && AllDigits(r[3..])
      && DigitsValue(r[..2]) == seconds / 60
      && DigitsValue(r[3..]) == seconds % 60 < 60
  {
    NonNegativeFormat(seconds);
    PaddedClockShape(seconds / 60, seconds % 60);
  }

  /** A single digit is padded with one leading zero. */
  lemma PadOneChar(c: char)
    ensures PadStart([c], 2, '0') == ['0', c]
  {
    assert seq(1, _ => '0') == ['0'];
  }

  lemma TwoDigitString(n: nat)
    requires 10 <= n < 100
    ensures NatToString(n) == [DigitChar(n / 10), DigitChar(n % 10)]
  {
  }

  /** The face of a count whose minutes and seconds fields are given. */
  lemma FaceOf(seconds: int, mins: string, secs: string)
    requires PadStart(IntToString(seconds / 60), 2, '0') == mins
    requires PadStart(IntToString(JsRem(seconds, 60)), 2, '0') == secs
    ensures FormatTime(seconds) == mins + ":" + secs
  {
  }

  lemma FocusFace()
    ensures FormatTime(1500) == "25:00"
  {
    TwoDigitString(25);
    assert DigitChar(2) == '2' && DigitChar(5) == '5';
    assert IntToString(1500 / 60) == "25";
    assert DigitChar(0) == '0';
    assert IntToString(JsRem(1500, 60)) == "0";
    PadOneChar('0');
    FaceOf(1500, "25", "00");
  }

  lemma UnderAMinuteFace()
    ensures FormatTime(59) == "00:59"
  {
    TwoDigitString(59);
    assert DigitChar(5) == '5' && DigitChar(9) == '9';
    assert IntToString(JsRem(59, 60)) == "59";
    assert DigitChar(0) == '0';
    assert IntToString(59 / 60) == "0";
    PadOneChar('0');
    FaceOf(59, "00", "59");
  }

  lemma NegativeFace()
    ensures FormatTime(-1) == "-1:-1"
  {
    assert DigitChar(1) == '1';
    assert IntToString(-1) == "-1";
    FaceOf(-1, "-1", "-1");
  }

  /** The default Focus duration shows as 25:00; a negative count keeps its signs. */
  lemma FormatTimeExamples()
    ensures FormatTime(1500) == "25:00"
    ensures FormatTime(59) == "00:59"
    ensures FormatTime(-1) == "-1:-1"
  {
    FocusFace();
    UnderAMinuteFace();
    NegativeFace();
  }
}
