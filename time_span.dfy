/** `RegexEngine.TimeSpanLargeTryParse`: the `H:M:S[.f]` parser for elapsed times, which has
    no day component and lets hours exceed 23. A `TimeSpan` is a number of milliseconds. */
module TimeSpans {
  import opened Wrappers
  import opened Text
  import opened Numbers
  import opened Media

  /** The largest span a `TimeSpan` holds, in whole milliseconds (`Int64.MaxValue / 10000`). */
  const MaxMilliSeconds: int := 922_337_203_685_477

  /** The outcome of the call: returned true with a span, returned false, or threw. */
  datatype LargeParse = Parsed(ms: int) | Rejected | Thrown(fault: Fault) {
    /** The `out` argument after the call: the span, or zero (it is reset first). */
    function Value(): int { if Parsed? then ms else 0 }
  }

  /** `new TimeSpan(0, hours, minutes, 0, milliseconds)`, which throws when the total
      leaves the range of a `TimeSpan`. */
  function MakeSpan(hours: int, minutes: int, milliseconds: int): (r: LargeParse)
    ensures r.Parsed? || r == Thrown(ArgumentOutOfRange)
    ensures r.Parsed? ==> r.ms == hours * 3_600_000 + minutes * 60_000 + milliseconds
    ensures r.Parsed? <==> -MaxMilliSeconds <= hours * 3_600_000 + minutes * 60_000 + milliseconds <= MaxMilliSeconds
  {
    var total := (hours * 3600 + minutes * 60) * 1000 + milliseconds;
    if total > MaxMilliSeconds || total < -MaxMilliSeconds then Thrown(ArgumentOutOfRange) else Parsed(total)
  }

  /** The seconds part scaled to milliseconds: `(int)Math.Round(seconds * 1000.0)`. */
  function SecondsToMs(seconds: real): int {
    SaturateInt32(RoundHalfEven(seconds * 1000.0))
  }

  function TimeSpanLargeTryParse(str: string): LargeParse {
    var end1 := IndexOf(str, ':', 0);
    if end1 < 0 then Rejected
    else
      match TryParseInteger(str[..end1], Int32Min, Int32Max)
      case None => Rejected
      case Some(hours) =>
        var end2 := IndexOf(str, ':', end1 + 1);
        if end2 < 0 then Rejected
        else
          match TryParseInteger(str[end1 + 1..end2], Int32Min, Int32Max)
          case None => Rejected
          case Some(minutes) =>
            match TryParseNumber(str[end2 + 1..])
            case None => Rejected
            case Some(seconds) => MakeSpan(hours, minutes, SecondsToMs(seconds))
  }

  // ---------------------------------------------------------------------------------------
  // Properties

  /** The parse succeeds exactly when the text is `H:M:S` with two integer fields in the
      32-bit range and a decimal third field, and the span then is H hours plus M minutes
      plus S seconds rounded to the millisecond, with no cap on hours or minutes. */
  lemma {:induction false} LargeParseFields(h: string, m: string, s: string)
    requires ':' !in h && ':' !in m
    ensures var r := TimeSpanLargeTryParse(h + ":" + m + ":" + s);
      match (TryParseInteger(h, Int32Min, Int32Max), TryParseInteger(m, Int32Min, Int32Max), TryParseNumber(s))
      case (Some(hours), Some(minutes), Some(seconds)) => r == MakeSpan(hours, minutes, SecondsToMs(seconds))
      case _ => r == Rejected
  {
    var str := h + ":" + m + ":" + s;
    IndexOfAfter(str, h, m);
    assert str[..|h|] == h;
    assert str[|h| + 1..|h| + 1 + |m|] == m;
    assert str[|h| + 1 + |m| + 1..] == s;
  }

  lemma IndexOfAfter(str: string, h: string, m: string)
    requires ':' !in h && ':' !in m
    requires |str| >= |h| + |m| + 2 && str[..|h|] == h && str[|h|] == ':'
    requires str[|h| + 1..|h| + 1 + |m|] == m && str[|h| + 1 + |m|] == ':'
    ensures IndexOf(str, ':', 0) == |h|
    ensures IndexOf(str, ':', |h| + 1) == |h| + 1 + |m|
  {
    FirstColon(str, h);
    FirstColon(str[|h| + 1..], m);
    IndexOfShift(str, ':', |h| + 1);
  }

  /** The first colon of `h + ":" + ...` is the one after `h`. */
  lemma FirstColon(str: string, h: string)
    requires ':' !in h && |str| > |h| && str[..|h|] == h && str[|h|] == ':'
    ensures IndexOf(str, ':', 0) == |h|
  {
    var i := IndexOf(str, ':', 0);
    assert forall k :: 0 <= k < |h| ==> str[k] == h[k];
  }

  lemma {:induction false} IndexOfShift(s: string, c: char, d: nat)
    requires d <= |s|
    ensures var r := IndexOf(s[d..], c, 0); IndexOf(s, c, d) == if r < 0 then -1 else r + d
  {
    var r := IndexOf(s[d..], c, 0);
    var q := IndexOf(s, c, d);
    if r >= 0 {
      assert s[d..][r] == s[r + d];
    }
    if q >= 0 {
      assert s[d..][q - d] == s[q];
    }
  }

  /** Without a colon, or with only one, the parse fails and the span is zero. */
  lemma MissingColonRejected(str: string)
    requires IndexOf(str, ':', 0) < 0 || IndexOf(str, ':', IndexOf(str, ':', 0) + 1) < 0
    ensures TimeSpanLargeTryParse(str) == Rejected
    ensures TimeSpanLargeTryParse(str).Value() == 0
  {
  }

  /** An hours field that is not a 32-bit integer makes the parse fail. */
  lemma BadHoursRejected(h: string, rest: string)
    requires ':' !in h && TryParseInteger(h, Int32Min, Int32Max).None?
    ensures TimeSpanLargeTryParse(h + ":" + rest) == Rejected
  {
    var str := h + ":" + rest;
    assert str[..|h|] == h;
    FirstColon(str, h);
  }

  /** A colon anywhere in the seconds field (four or more `:`-separated parts) makes the
      parse fail: the third field is then not a number. */
  lemma {:induction false} FourPartsRejected(h: string, m: string, s: string)
    requires ':' !in h && ':' !in m && ':' in s
    ensures TimeSpanLargeTryParse(h + ":" + m + ":" + s) == Rejected
  {
    LargeParseFields(h, m, s);
    ColonNotNumber(s);
  }

  // ---------------------------------------------------------------------------------------
  // Round trip through the text ffmpeg prints

  /** `H:MM:SS.fff`, hours unpadded beyond two digits: how ffmpeg prints an elapsed time. */
  function FormatElapsed(hours: nat, minutes: nat, seconds: nat, millis: nat): string {
    PadDigits(hours, 2) + ":" + PadDigits(minutes, 2) + ":" + PadDigits(seconds, 2) + "." + PadDigits(millis, 3)
  }

  lemma DigitsNoColon(s: string)
    requires AllDigits(s)
    ensures ':' !in s
  {
  }

  lemma {:induction false} NatToStringBound(n: nat, k: nat)
    requires k >= 1 && |NatToString(n)| >= k + 1
    ensures n >= Pow10(k)
  {
    assert n >= 10;
    if k > 1 {
      NatToStringBound(n / 10, k - 1);
    }
  }

  /** A three-digit field below 1000 is exactly three digits long. */
  lemma PadThree(millis: nat)
    requires millis < 1000
    ensures |PadDigits(millis, 3)| == 3
  {
    var b := PadDigits(millis, 3);
    if |b| > 3 {
      assert b == NatToString(millis);
      NatToStringBound(millis, 3);
    }
  }

  lemma HoursFit(hours: nat, rest: nat)
    requires hours * 3_600_000 + rest <= MaxMilliSeconds
    ensures hours <= Int32Max
  {
  }

  lemma WholeMillis(seconds: nat, millis: nat)
    requires seconds < 60 && millis < 1000
    ensures SecondsToMs(seconds as real + millis as real / 1000.0) == seconds * 1000 + millis
  {
    var secs := seconds as real + millis as real / 1000.0;
    assert secs * 1000.0 == (seconds * 1000 + millis) as real;
  }

  /** The parse of three well-formed fields. */
  lemma LargeParseOk(h: string, m: string, s: string, hours: int, minutes: int, seconds: real)
    requires ':' !in h && ':' !in m
    requires TryParseInteger(h, Int32Min, Int32Max) == Some(hours)
    requires TryParseInteger(m, Int32Min, Int32Max) == Some(minutes)
    requires TryParseNumber(s) == Some(seconds)
    ensures TimeSpanLargeTryParse(h + ":" + m + ":" + s) == MakeSpan(hours, minutes, SecondsToMs(seconds))
  {
    LargeParseFields(h, m, s);
  }

  /** Three digit fields, the last with a fractional part, parse to the span of their values. */
  lemma DigitFieldsParse(h: string, m: string, a: string, b: string)
    requires AllDigits(h) && AllDigits(m) && AllDigits(a) && AllDigits(b)
    requires |h| > 0 && |m| > 0 && |a| > 0 && |b| > 0
    requires DigitsValue(h) <= Int32Max && DigitsValue(m) <= Int32Max
    ensures TimeSpanLargeTryParse(h + ":" + m + ":" + (a + "." + b))
         == MakeSpan(DigitsValue(h), DigitsValue(m), SecondsToMs(DecimalValue(a, b)))
  {
    DigitsNoColon(h);
    DigitsNoColon(m);
    TryParseDigits(h, Int32Min, Int32Max);
    TryParseDigits(m, Int32Min, Int32Max);
    NumberOfDigits(a, b);
    LargeParseOk(h, m, a + "." + b, DigitsValue(h), DigitsValue(m), DecimalValue(a, b));
  }

  /** Parsing what ffmpeg prints yields the elapsed time it stands for, for any number of
      hours, including 24 and more. */
  lemma ElapsedRoundTrip(hours: nat, minutes: nat, seconds: nat, millis: nat)
    requires minutes < 60 && seconds < 60 && millis < 1000
    requires hours * 3_600_000 + minutes * 60_000 + seconds * 1000 + millis <= MaxMilliSeconds
    ensures TimeSpanLargeTryParse(FormatElapsed(hours, minutes, seconds, millis))
         == Parsed(hours * 3_600_000 + minutes * 60_000 + seconds * 1000 + millis)
  {
    var h := PadDigits(hours, 2);
    var m := PadDigits(minutes, 2);
    var a := PadDigits(seconds, 2);
    var b := PadDigits(millis, 3);
    assert FormatElapsed(hours, minutes, seconds, millis) == h + ":" + m + ":" + (a + "." + b);
    HoursFit(hours, minutes * 60_000 + seconds * 1000 + millis);
    PadDigitsValue(hours, 2);
    PadDigitsValue(minutes, 2);
    assert DecimalValue(a, b) == seconds as real + millis as real / 1000.0 by {
      PadDigitsValue(seconds, 2);
      PadDigitsValue(millis, 3);
      PadThree(millis);
      assert Pow10(3) == 1000;
    }
    WholeMillis(seconds, millis);
    DigitFieldsParse(h, m, a, b);
  }

  /** `Duration: 00:00:05.31, ` gives a duration of 5310 ms. */
  lemma SampleDuration()
    ensures TimeSpanLargeTryParse("00" + ":" + "00" + ":" + ("05" + "." + "31")) == Parsed(5310)
  {
    TryParseDigits("00", Int32Min, Int32Max);
    assert DigitsValue("00") == 0;
    NumberOfDigits("05", "31");
    assert DigitsValue("05") == 5;
    assert DigitsValue("31") == 31 && Pow10(2) == 100;
    assert DecimalValue("05", "31") == 5.31;
    LargeParseOk("00", "00", "05" + "." + "31", 0, 0, 5.31);
    assert 5.31 * 1000.0 == 5310.0;
  }

  /** `time=0:0:1,000.5`: the seconds field may hold group separators, so this is
      1000.5 seconds. */
  lemma GroupedSeconds()
    ensures TimeSpanLargeTryParse("0" + ":" + "0" + ":" + ("1" + "," + "000" + "." + "5")) == Parsed(1_000_500)
  {
    TryParseDigits("0", Int32Min, Int32Max);
    NumberGrouped("1", "000", "5");
    DigitsConcat("1", "000");
    assert DigitsValue("000") == 0 && DigitsValue("1") == 1 && Pow10(3) == 1000;
    assert DigitsValue("5") == 5;
    LargeParseOk("0", "0", "1" + "," + "000" + "." + "5", 0, 0, 1000.5);
    assert 1000.5 * 1000.0 == 1_000_500.0;
  }

  /** `time=0:0:5-`: a sign may follow the seconds, so this is minus five seconds. */
  lemma TrailingSignSeconds()
    ensures TimeSpanLargeTryParse("0" + ":" + "0" + ":" + ("5" + "-")) == Parsed(-5000)
  {
    TryParseDigits("0", Int32Min, Int32Max);
    NumberTrailingSign("5");
    assert DigitsValue("5") == 5;
    LargeParseOk("0", "0", "5" + "-", 0, 0, -5.0);
  }
}
