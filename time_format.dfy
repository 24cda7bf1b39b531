/** The `mm:ss:cc` display of a time in milliseconds: whole minutes, seconds
    within the minute, and the rest of the second in fiftieths. JavaScript
    number semantics are written out: `%` keeps the sign of the dividend,
    `Math.round` rounds halves up, and `padStart(2, '0')` left-pads. */
module TimeFormat {

  function DigitChar(d: nat): (c: char)
    requires d < 10
    ensures '0' <= c <= '9'
  {
    ('0' as int + d) as char
  }

  /** The decimal digits of `n`, most significant first, without leading zeros. */
  function NatToString(n: nat): (s: string)
    ensures 1 <= |s|
    ensures forall k :: 0 <= k < |s| ==> '0' <= s[k] <= '9'
    decreases n
  {
    if n < 10 then [DigitChar(n)] else NatToString(n / 10) + [DigitChar(n % 10)]
  }

  /** `Number.prototype.toString` on an integer. */
  function IntToString(i: int): string
  {
    if i < 0 then "-" + NatToString(-i) else NatToString(i)
  }

  /** `s.padStart(2, '0')`. */
  function PadStart2(s: string): (r: string)
    ensures |r| == if |s| < 2 then 2 else |s|
    ensures r[|r| - |s|..] == s
    ensures forall k :: 0 <= k < |r| - |s| ==> r[k] == '0'
  {
    if |s| < 2 then seq(2 - |s|, _ => '0') + s else s
  }

  /** `x % y` on numbers: the remainder of truncated division. */
  function JsRem(x: real, y: real): real
    requires y != 0.0
  {
    var q := x / y;
    var truncated := if q >= 0.0 then q.Floor else -((-q).Floor);
    x - y * truncated as real
  }

  /** `Math.round`: the nearest integer, halves rounded up. */
  function Round(x: real): int
  {
    (x + 0.5).Floor
  }

  function Seconds(time: real): int
  {
    JsRem((time / 1000.0).Floor as real, 60.0).Floor
  }

  function Minutes(time: real): int
  {
    (time / 60000.0).Floor
  }

  function Fiftieths(time: real): int
  {
    Round(JsRem(time, 1000.0) / 20.0)
  }

  function SecondsField(time: real): string
  {
    PadStart2(IntToString(Seconds(time)))
  }

  function MinutesField(time: real): string
  {
    PadStart2(IntToString(Minutes(time)))
  }

  function FiftiethsField(time: real): string
  {
    PadStart2(IntToString(Fiftieths(time)))
  }

  /** What the Time component renders. */
  function Format(time: real): string
  {
    MinutesField(time) + ":" + SecondsField(time) + ":" + FiftiethsField(time)
  }

  // ---------------------------------------------------------------- reading a field back

  predicate AllDigits(s: string)
  {
    forall k :: 0 <= k < |s| ==> '0' <= s[k] <= '9'
  }

  /** The number a string of decimal digits denotes. */
  function DigitsValue(s: string): nat
    requires AllDigits(s)
  {
    if s == [] then 0 else DigitsValue(s[..|s| - 1]) * 10 + (s[|s| - 1] as int - '0' as int)
  }

  lemma {:induction false} NatToStringValue(n: nat)
    ensures DigitsValue(NatToString(n)) == n
    decreases n
  {
    if n >= 10 {
      var s := NatToString(n);
      assert s[..|s| - 1] == NatToString(n / 10);
      NatToStringValue(n / 10);
    }
  }

  lemma {:induction false} NatToStringLength(n: nat)
    ensures n < 10 ==> |NatToString(n)| == 1
    ensures 10 <= n < 100 ==> |NatToString(n)| == 2
    ensures 10 <= n ==> |NatToString(n)| >= 2
  {
    if n >= 10 {
      NatToStringLength(n / 10);
    }
  }

  lemma {:induction false} LeadingZeroValue(s: string)
    requires AllDigits(s)
    ensures AllDigits(['0'] + s) && DigitsValue(['0'] + s) == DigitsValue(s)
    decreases |s|
  {
    var z := ['0'] + s;
    if s != [] {
      assert z[..|z| - 1] == ['0'] + s[..|s| - 1];
      LeadingZeroValue(s[..|s| - 1]);
    }
  }

  /** A natural number printed and padded to two characters reads back as itself. */
  lemma PaddedValue(n: nat)
    ensures AllDigits(PadStart2(IntToString(n)))
    ensures DigitsValue(PadStart2(IntToString(n))) == n
    ensures |PadStart2(IntToString(n))| == if n < 100 then 2 else |NatToString(n)|
  {
    var s := NatToString(n);
    NatToStringValue(n);
    NatToStringLength(n);
    if n < 10 {
      assert PadStart2(s) == ['0'] + s;
      LeadingZeroValue(s);
    }
  }

  /** On a non-negative dividend `% 1000` is the remainder of floor division, in `[0, 1000)`. */
  lemma JsRem1000(x: real)
    requires 0.0 <= x
    ensures JsRem(x, 1000.0) == x - 1000.0 * (x / 1000.0).Floor as real
    ensures 0.0 <= JsRem(x, 1000.0) < 1000.0
  {
    var q := x / 1000.0;
    assert 0.0 <= q;
    assert q.Floor as real <= q < q.Floor as real + 1.0;
  }

  /** On a whole non-negative number `% 60` is the integer remainder. */
  lemma JsRem60(w: int)
    requires 0 <= w
    ensures JsRem(w as real, 60.0) == (w % 60) as real
  {
    var f := (w as real / 60.0).Floor;
    assert f as real <= w as real / 60.0 < f as real + 1.0;
    assert 60 * f <= w < 60 * f + 60;
    assert f == w / 60;
  }

  /** For a non-negative time the seconds field is exactly two digits and
      reads as the whole seconds within the current minute. */
  lemma SecondsFieldSpec(time: real)
    requires 0.0 <= time
    ensures 0 <= Seconds(time) < 60 && Seconds(time) == (time / 1000.0).Floor % 60
    ensures |SecondsField(time)| == 2 && AllDigits(SecondsField(time))
    ensures DigitsValue(SecondsField(time)) == Seconds(time)
  {
    var whole := (time / 1000.0).Floor;
    assert 0.0 <= time / 1000.0;
    JsRem60(whole);
    assert Seconds(time) == ((whole % 60) as real).Floor;
    PaddedValue(Seconds(time));
  }

  /** For a non-negative time the minutes field is at least two digits and
      reads as the whole minutes. */
  lemma MinutesFieldSpec(time: real)
    requires 0.0 <= time
    ensures 0 <= Minutes(time)
    ensures |MinutesField(time)| >= 2 && AllDigits(MinutesField(time))
    ensures DigitsValue(MinutesField(time)) == Minutes(time)
  {
    assert 0.0 <= time / 60000.0;
    PaddedValue(Minutes(time));
  }

  /** Rounding a remainder below 1000 in twentieths gives 0..50, and 50 from 990 on. */
  lemma RoundFiftieths(r: real)
    requires 0.0 <= r < 1000.0
    ensures 0 <= Round(r / 20.0) <= 50
    ensures r >= 990.0 ==> Round(r / 20.0) == 50
  {
    var h := r / 20.0 + 0.5;
    assert 0.5 <= h < 50.5;
    assert r >= 990.0 ==> 50.0 <= h;
  }

  /** For a non-negative time the last field is exactly two digits, reads as
      the milliseconds within the second in fiftieths rounded half up, and so
      lies in 0..50: it shows 50 for the last ten milliseconds of a second. */
  lemma FiftiethsFieldSpec(time: real)
    requires 0.0 <= time
    ensures 0.0 <= JsRem(time, 1000.0) < 1000.0
    ensures JsRem(time, 1000.0) == time - 1000.0 * (time / 1000.0).Floor as real
    ensures 0 <= Fiftieths(time) <= 50
    ensures JsRem(time, 1000.0) >= 990.0 ==> Fiftieths(time) == 50
    ensures |FiftiethsField(time)| == 2 && AllDigits(FiftiethsField(time))
    ensures DigitsValue(FiftiethsField(time)) == Fiftieths(time)
  {
    JsRem1000(time);
    RoundFiftieths(JsRem(time, 1000.0));
    PaddedValue(Fiftieths(time));
  }

  /** `out` ends in `:ss:cc` and reads, field by field, as `minutes`, `seconds`
      and `fiftieths`. */
  predicate ReadsAs(out: string, minutes: int, seconds: int, fiftieths: int)
  {
    8 <= |out| && out[|out| - 6] == ':' && out[|out| - 3] == ':'
    && AllDigits(out[..|out| - 6]) && DigitsValue(out[..|out| - 6]) == minutes
    && AllDigits(out[|out| - 5..|out| - 3]) && DigitsValue(out[|out| - 5..|out| - 3]) == seconds
    && AllDigits(out[|out| - 2..]) && DigitsValue(out[|out| - 2..]) == fiftieths
  }

  /** Where the three fields sit in their join. */
  lemma JoinSlices(mm: string, ss: string, cc: string)
    requires |ss| == 2 && |cc| == 2
    ensures var out := mm + ":" + ss + ":" + cc;
      && |out| == |mm| + 6 && out[|mm|] == ':' && out[|mm| + 3] == ':'
      && out[..|mm|] == mm && out[|mm| + 1..|mm| + 3] == ss && out[|mm| + 4..] == cc
  {
    var tail := ":" + ss + ":" + cc;
    var out := mm + ":" + ss + ":" + cc;
    assert out == mm + tail;
    assert out[..|mm|] == mm && out[|mm|..] == tail;
    assert out[|mm| + 1..|mm| + 3] == tail[1..3] == ss;
    assert out[|mm| + 4..] == tail[4..] == cc;
  }

  /** Three fields joined with ':' split back at the last six characters. */
  lemma JoinReadsBack(mm: string, ss: string, cc: string)
    requires |mm| >= 2 && |ss| == 2 && |cc| == 2
    requires AllDigits(mm) && AllDigits(ss) && AllDigits(cc)
    ensures ReadsAs(mm + ":" + ss + ":" + cc, DigitsValue(mm), DigitsValue(ss), DigitsValue(cc))
  {
    JoinSlices(mm, ss, cc);
  }

  /** The rendered time splits back into its three fields: minutes, seconds
      within the minute and fiftieths within the second, in that order. */
  lemma FormatReadsBack(time: real)
    requires 0.0 <= time
    ensures ReadsAs(Format(time), Minutes(time), Seconds(time), Fiftieths(time))
  {
    var mm, ss, cc := MinutesField(time), SecondsField(time), FiftiethsField(time);
    assert |ss| == 2 && AllDigits(ss) && DigitsValue(ss) == Seconds(time) by {
      SecondsFieldSpec(time);
    }
    assert |mm| >= 2 && AllDigits(mm) && DigitsValue(mm) == Minutes(time) by {
      MinutesFieldSpec(time);
    }
    assert |cc| == 2 && AllDigits(cc) && DigitsValue(cc) == Fiftieths(time) by {
      FiftiethsFieldSpec(time);
    }
    JoinReadsBack(mm, ss, cc);
  }
}
