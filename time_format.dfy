/**
 * The player's `m:ss` clock text. Seconds are exact reals here, so the NaN and
 * infinity guards of `formatTime` have no counterpart.
 */
module TimeFormat {
  import opened Options

  predicate IsDigit(c: char)
  {
    '0' <= c <= '9'
  }

  predicate AllDigits(s: string)
  {
    forall i :: 0 <= i < |s| ==> IsDigit(s[i])
  }

  function DigitChar(d: nat): (c: char)
    requires d < 10
    ensures IsDigit(c)
  {
    "0123456789"[d]
  }

  function DigitValue(c: char): nat
    requires IsDigit(c)
  {
    c as int - '0' as int
  }

  /** The decimal text of a non-negative integer, without leading zeros. */
  function NatToString(n: nat): (r: string)
    ensures |r| >= 1 && AllDigits(r)
    ensures |r| == 1 <==> n < 10
    decreases n
  {
    if n < 10 then [DigitChar(n)] else NatToString(n / 10) + [DigitChar(n % 10)]
  }

  /** `Number.prototype.toString()` on an integer. */
  function IntToString(i: int): string
  {
    if i < 0 then "-" + NatToString(-i) else NatToString(i)
  }

  /** Reads a string of decimal digits as a number. */
  function DigitsValue(s: string): nat
    requires AllDigits(s)
  {
    if s == [] then 0 else 10 * DigitsValue(s[..|s| - 1]) + DigitValue(s[|s| - 1])
  }

  /** `s.padStart(2, "0")`: prefix zeros until the text is two characters long. */
  function PadStart2(s: string): (r: string)
    ensures |r| == if |s| < 2 then 2 else |s|
    ensures |s| < 2 ==> r == seq(2 - |s|, _ => '0') + s
    ensures |s| >= 2 ==> r == s
    decreases 2 - |s|
  {
    if |s| >= 2 then s else PadStart2("0" + s)
  }

  /** JavaScript's conversion toward zero, as used by its `%` operator. */
  function Trunc(x: real): int
  {
    if x >= 0.0 then x.Floor else -((-x).Floor)
  }

  /** JavaScript's `x % y` on numbers: the remainder carries the sign of the dividend. */
  function JsRemainder(x: real, y: real): real
    requires y != 0.0
  {
    x - y * (Trunc(x / y) as real)
  }

  /** For a non-negative time, `Math.floor(sec / 60)` and `Math.floor(sec % 60)` are the
      quotient and remainder of the whole seconds by 60. */
  lemma FloorDivMod(sec: real)
    requires sec >= 0.0
    ensures (sec / 60.0).Floor == sec.Floor / 60
    ensures JsRemainder(sec, 60.0).Floor == sec.Floor % 60
  {
    var f := sec.Floor;
    var m, s := f / 60, f % 60;
    assert f as real <= sec < f as real + 1.0;
    assert f == 60 * m + s && 0 <= s < 60;
    assert m as real <= sec / 60.0 < m as real + 1.0;
    assert Trunc(sec / 60.0) == m;
    assert s as real <= JsRemainder(sec, 60.0) < s as real + 1.0;
  }

  /** `formatTime(sec)`: whole minutes, a colon and the whole seconds within the minute,
      padded to two digits; any negative time shows as `0:00`. */
  function FormatTime(sec: real): (r: string)
    ensures sec < 0.0 ==> r == "0:00"
    ensures sec >= 0.0 ==> r == NatToString(sec.Floor / 60) + ":" + PadStart2(NatToString(sec.Floor % 60))
  {
    if sec < 0.0 then "0:00"
    else
      FloorDivMod(sec);
      var minutes := (sec / 60.0).Floor;
      var seconds := JsRemainder(sec, 60.0).Floor;
      IntToString(minutes) + ":" + PadStart2(IntToString(seconds))
  }

  /** Reads a clock text `m:ss` back as (minutes, seconds); `None` if the text has another shape. */
  function ReadTime(s: string): Option<(nat, nat)>
  {
    if |s| < 4 || s[|s| - 3] != ':' || !AllDigits(s[..|s| - 3]) || !AllDigits(s[|s| - 2..]) then None
    else Some((DigitsValue(s[..|s| - 3]), DigitsValue(s[|s| - 2..])))
  }

  lemma {:induction false} DigitsOfNatToString(n: nat)
    ensures DigitsValue(NatToString(n)) == n
    decreases n
  {
    var r := NatToString(n);
    if n >= 10 {
      DigitsOfNatToString(n / 10);
      assert r[..|r| - 1] == NatToString(n / 10);
    }
  }

  lemma {:induction false} LeadingZero(s: string)
    requires AllDigits(s)
    ensures AllDigits("0" + s) && DigitsValue("0" + s) == DigitsValue(s)
    decreases |s|
  {
    var z := "0" + s;
    assert AllDigits(z) by {
      forall i | 0 <= i < |z| ensures IsDigit(z[i]) {
        if i > 0 { assert z[i] == s[i - 1]; }
      }
    }
    if s != [] {
      LeadingZero(s[..|s| - 1]);
      assert z[..|z| - 1] == "0" + s[..|s| - 1];
    }
  }

  /** The seconds field: two digits whose value is the given number below 60. */
  lemma SecondsField(k: nat)
    requires k < 60
    ensures var p := PadStart2(NatToString(k));
      |p| == 2 && AllDigits(p) && DigitsValue(p) == k && (k < 10 <==> p[0] == '0')
  {
    var t := NatToString(k);
    DigitsOfNatToString(k);
    if k < 10 {
      LeadingZero(t);
      assert PadStart2(t) == "0" + t;
    } else {
      assert k / 10 < 6;
      assert t[0] == NatToString(k / 10)[0];
    }
  }

  /** A clock text assembled from a digit run, a colon and two digits reads back as
      its two numbers. */
  lemma ReadJoined(mm: string, ss: string)
    requires |mm| >= 1 && AllDigits(mm) && |ss| == 2 && AllDigits(ss)
    ensures ReadTime(mm + ":" + ss) == Some((DigitsValue(mm), DigitsValue(ss)))
  {
    var r := mm + ":" + ss;
    assert r[..|r| - 3] == mm && r[|r| - 2..] == ss && r[|r| - 3] == ':';
  }

  /** Reading the clock text back gives whole minutes and seconds that add up to the
      whole seconds of the input, with the seconds below 60; a negative time reads as 0:00. */
  lemma FormatTimeRoundTrip(sec: real)
    ensures sec < 0.0 ==> ReadTime(FormatTime(sec)) == Some((0, 0))
    ensures sec >= 0.0 ==> ReadTime(FormatTime(sec)) == Some((sec.Floor / 60, sec.Floor % 60))
    ensures sec >= 0.0 ==> (sec.Floor / 60) * 60 + sec.Floor % 60 == sec.Floor
  {
    if sec < 0.0 {
      assert FormatTime(sec) == "0" + ":" + "00";
      assert DigitsValue("00") == 0 by { assert "00"[..1] == "0"; }
      ReadJoined("0", "00");
    } else {
      var m, k := sec.Floor / 60, sec.Floor % 60;
      SecondsField(k);
      DigitsOfNatToString(m);
      ReadJoined(NatToString(m), PadStart2(NatToString(k)));
    }
  }

  /** The seconds field of every clock text is two digits worth at most 59,
      zero-padded exactly when the seconds are below 10. */
  lemma SecondsFieldShape(sec: real)
    ensures var r := FormatTime(sec);
      |r| >= 4 && r[|r| - 3] == ':' && AllDigits(r[|r| - 2..]) && DigitsValue(r[|r| - 2..]) <= 59
    ensures sec >= 0.0 ==> var r := FormatTime(sec); (sec.Floor % 60 < 10 <==> r[|r| - 2] == '0')
  {
    var r := FormatTime(sec);
    FormatTimeRoundTrip(sec);
    if sec >= 0.0 {
      var k := sec.Floor % 60;
      SecondsField(k);
      var mm, ss := NatToString(sec.Floor / 60), PadStart2(NatToString(k));
      assert r == mm + ":" + ss;
      assert r[|r| - 2] == ss[0];
    }
  }
}
