/** Integer and decimal text, as `int.TryParse`, `long.TryParse`, `double.TryParse`,
    `Convert.ToInt32`, `Convert.ToDouble` and `Int32.ToString` handle it with the invariant
    culture. A `double` is modelled as an exact `real`. */
module Numbers {
  import opened Wrappers
  import opened Text

  const Int32Min: int := -0x8000_0000
  const Int32Max: int := 0x7FFF_FFFF
  const Int64Min: int := -0x8000_0000_0000_0000
  const Int64Max: int := 0x7FFF_FFFF_FFFF_FFFF
  const UInt32Max: int := 0xFFFF_FFFF

  predicate AllDigits(s: string) {
    forall i :: 0 <= i < |s| ==> IsDigit(s[i])
  }

  function DigitValue(c: char): nat
    requires IsDigit(c)
  {
    (c - '0') as nat
  }

  function DigitChar(d: nat): (c: char)
    requires d < 10
    ensures IsDigit(c) && DigitValue(c) == d
  {
    '0' + d as char
  }

  /** The value of a string of decimal digits, most significant first. */
  function DigitsValue(s: string): nat
    requires AllDigits(s)
    decreases |s|
  {
    if s == [] then 0 else DigitsValue(s[..|s| - 1]) * 10 + DigitValue(s[|s| - 1])
  }

  function Pow10(n: nat): (p: nat)
    ensures p > 0
  {
    if n == 0 then 1 else 10 * Pow10(n - 1)
  }

  /** Decimal digits of `n` without leading zeros (`n.ToString()`). */
  function NatToString(n: nat): (s: string)
    ensures |s| > 0 && AllDigits(s)
  {
    if n < 10 then [DigitChar(n)] else NatToString(n / 10) + [DigitChar(n % 10)]
  }

  /** `Int32.ToString()` / `Int64.ToString()` in the invariant culture. */
  function IntToString(i: int): (s: string)
    ensures |s| > 0
  {
    if i < 0 then "-" + NatToString(-i) else NatToString(i)
  }

  lemma {:induction false} NatToStringValue(n: nat)
    ensures DigitsValue(NatToString(n)) == n
  {
    var s := NatToString(n);
    if n >= 10 {
      NatToStringValue(n / 10);
      assert s[..|s| - 1] == NatToString(n / 10);
    }
  }

  /** Padded to at least `width` digits with leading zeros (the `00` custom format). */
  function PadDigits(n: nat, width: nat): (s: string)
    ensures AllDigits(s) && |s| >= width && |s| > 0
    decreases width
  {
    var t := NatToString(n);
    if |t| >= width then t else "0" + PadDigits(n, width - 1)
  }

  lemma {:induction false} LeadingZero(s: string)
    requires AllDigits(s)
    ensures AllDigits("0" + s) && DigitsValue("0" + s) == DigitsValue(s)
    decreases |s|
  {
    var t := "0" + s;
    if s != [] {
      assert t[..|t| - 1] == "0" + s[..|s| - 1];
      LeadingZero(s[..|s| - 1]);
    }
  }

  lemma {:induction false} PadDigitsValue(n: nat, width: nat)
    ensures DigitsValue(PadDigits(n, width)) == n
    decreases width
  {
    if |NatToString(n)| >= width {
      NatToStringValue(n);
    } else {
      PadDigitsValue(n, width - 1);
      LeadingZero(PadDigits(n, width - 1));
    }
  }

  /** White space the number parsers skip at either end (`NumberStyles.AllowLeadingWhite`,
      `AllowTrailingWhite`): tab to carriage return and space only. */
  predicate IsNumberWhite(c: char) { c == ' ' || '\t' <= c <= '\r' }

  function TrimNumberWhite(s: string): (t: string)
    ensures |t| <= |s|
    decreases |s|
  {
    if |s| > 0 && IsNumberWhite(s[0]) then TrimNumberWhite(s[1..])
    else if |s| > 0 && IsNumberWhite(s[|s| - 1]) then TrimNumberWhite(s[..|s| - 1])
    else s
  }

  /** An optional leading `-` or `+` followed by at least one digit, unbounded. */
  function SignedDigits(t: string): Option<int> {
    if |t| > 0 && (t[0] == '-' || t[0] == '+') then
      if |t| > 1 && AllDigits(t[1..]) then
        Some(if t[0] == '-' then -(DigitsValue(t[1..]) as int) else DigitsValue(t[1..]) as int)
      else None
    else if |t| > 0 && AllDigits(t) then Some(DigitsValue(t) as int)
    else None
  }

  /** `int.TryParse` / `long.TryParse` with `NumberStyles.Integer`: surrounding white space,
      an optional sign, digits, and a value within [lo, hi]. */
  function TryParseInteger(s: string, lo: int, hi: int): (r: Option<int>)
    ensures r.Some? ==> lo <= r.value <= hi
  {
    var v := SignedDigits(TrimNumberWhite(s));
    if v.Some? && lo <= v.value <= hi then v else None
  }

  lemma {:induction false} TrimDigits(s: string)
    requires AllDigits(s)
    ensures TrimNumberWhite(s) == s
  {
    if |s| > 0 {
      assert IsDigit(s[0]) && IsDigit(s[|s| - 1]);
    }
  }

  /** On a non-empty string of digits the integer parser yields its value when it fits. */
  lemma TryParseDigits(s: string, lo: int, hi: int)
    requires AllDigits(s) && |s| > 0
    ensures TryParseInteger(s, lo, hi) == if lo <= DigitsValue(s) <= hi then Some(DigitsValue(s) as int) else None
  {
    TrimDigits(s);
    assert IsDigit(s[0]);
  }

  /** The exact value of `i.f`. */
  function DecimalValue(i: string, f: string): real
    requires AllDigits(i) && AllDigits(f)
  {
    DigitsValue(i) as real + DigitsValue(f) as real / Pow10(|f|) as real
  }

  /** Unsigned decimal text: digits, optionally a `.` and more digits, at least one digit. */
  function UnsignedDecimal(t: string): Option<real> {
    var d := Span(t, 0, IsDigit);
    if d == |t| then
      if d > 0 then Some(DigitsValue(t) as real) else None
    else if t[d] == '.' && AllDigits(t[d + 1..]) && (d > 0 || d + 1 < |t|) then
      Some(DecimalValue(t[..d], t[d + 1..]))
    else None
  }

  /** `double.TryParse` on decimal text with the invariant culture: surrounding white space,
      an optional leading sign, digits with at most one `.`. */
  function TryParseDecimal(s: string): Option<real> {
    var t := TrimNumberWhite(s);
    if |t| > 0 && (t[0] == '-' || t[0] == '+') then
      match UnsignedDecimal(t[1..])
      case Some(v) => Some(if t[0] == '-' then -v else v)
      case None => None
    else UnsignedDecimal(t)
  }

  predicate IsSign(c: char) { c == '-' || c == '+' }

  /** A digit or the invariant culture's group separator `,`. */
  predicate IsGroupedDigit(c: char) { IsDigit(c) || c == ',' }

  /** Where the `NumberStyles.Number` scan of .NET's `Number.TryParseNumber` is: in the leading
      white space, just after a leading sign, in the integer digits (where `,` group separators
      may follow the first digit), after the `.`, or in the trailing white space. */
  datatype Phase = LeadWhite | AfterSign | Whole | Fraction | TrailWhite

  /** The scan so far: its phase, whether a sign was read and whether it was `-`, whether a
      digit was read, the integer digits' value and the fraction digits' value and count. */
  datatype NumberScan = NumberScan(phase: Phase, signed: bool, negative: bool, digits: bool,
                                   whole: nat, frac: nat, fracLen: nat)

  const ScanStart := NumberScan(LeadWhite, false, false, false, 0, 0, 0)

  /** After the number: white space, and one sign when none led. */
  function Trailing(st: NumberScan, c: char): Option<NumberScan> {
    if IsNumberWhite(c) then Some(st.(phase := TrailWhite))
    else if IsSign(c) && !st.signed then Some(st.(phase := TrailWhite, signed := true, negative := c == '-'))
    else None
  }

  /** One character of the scan, or `None` where .NET stops short of the end of the text. */
  function Step(st: NumberScan, c: char): Option<NumberScan> {
    match st.phase
    case LeadWhite =>
      if IsNumberWhite(c) then Some(st)
      else if IsSign(c) then Some(st.(phase := AfterSign, signed := true, negative := c == '-'))
      else if IsDigit(c) then Some(st.(phase := Whole, digits := true, whole := st.whole * 10 + DigitValue(c)))
      else if c == '.' then Some(st.(phase := Fraction))
      else None
    case AfterSign =>
      if IsDigit(c) then Some(st.(phase := Whole, digits := true, whole := st.whole * 10 + DigitValue(c)))
      else if c == '.' then Some(st.(phase := Fraction))
      else None
    case Whole =>
      if IsDigit(c) then Some(st.(whole := st.whole * 10 + DigitValue(c)))
      else if c == ',' then Some(st)
      else if c == '.' then Some(st.(phase := Fraction))
      else Trailing(st, c)
    case Fraction =>
      if IsDigit(c) then Some(st.(digits := true, frac := st.frac * 10 + DigitValue(c), fracLen := st.fracLen + 1))
      else Trailing(st, c)
    case TrailWhite => Trailing(st, c)
  }

  /** The scan over all of `s`. */
  function Steps(s: string, st: NumberScan): Option<NumberScan>
    decreases |s|
  {
    if s == [] then Some(st)
    else match Step(st, s[0])
      case None => None
      case Some(next) => Steps(s[1..], next)
  }

  /** The value at the end of the text; no digit at all is a failure. */
  function Finish(st: NumberScan): Option<real> {
    if !st.digits then None
    else
      var v := st.whole as real + st.frac as real / Pow10(st.fracLen) as real;
      Some(if st.negative then -v else v)
  }

  /** `double.TryParse(s, NumberStyles.Number, CultureInfo.InvariantCulture)`: leading white
      space and an optional sign (no white space after it), digits with `,` group separators
      once a digit was read, optionally `.` and more digits (at least one digit in all), then
      trailing white space holding at most one sign, and that only when none led. Either sign
      `-` negates. */
  function TryParseNumber(s: string): Option<real> {
    match Steps(s, ScanStart)
    case None => None
    case Some(st) => Finish(st)
  }

  /** A character the number scan can consume. */
  predicate IsNumberChar(c: char) { IsNumberWhite(c) || IsSign(c) || IsGroupedDigit(c) || c == '.' }

  /** Scanning `x + y` is scanning `x`, then `y` from where `x` left off. */
  lemma {:induction false} StepsConcat(x: string, y: string, st: NumberScan)
    ensures Steps(x + y, st) == match Steps(x, st) case None => None case Some(m) => Steps(y, m)
    decreases |x|
  {
    if x == [] {
      assert x + y == y;
    } else {
      assert (x + y)[0] == x[0] && (x + y)[1..] == x[1..] + y;
      match Step(st, x[0])
      case None =>
      case Some(next) => StepsConcat(x[1..], y, next);
    }
  }

  /** A scan that gets through `s` met only white space, signs, digits, `,` and `.`. */
  lemma {:induction false} StepsChars(s: string, st: NumberScan)
    requires Steps(s, st).Some?
    ensures forall k :: 0 <= k < |s| ==> IsNumberChar(s[k])
    decreases |s|
  {
    if s != [] {
      var next := Step(st, s[0]).value;
      StepsChars(s[1..], next);
      forall k | 0 <= k < |s|
        ensures IsNumberChar(s[k])
      {
        if k > 0 {
          assert s[k] == s[1..][k - 1];
        }
      }
    }
  }

  lemma NoColonChars(s: string)
    requires forall k :: 0 <= k < |s| ==> IsNumberChar(s[k])
    ensures ':' !in s
  {
  }

  /** Text holding a `:` is not a number. */
  lemma ColonNotNumber(s: string)
    requires ':' in s
    ensures TryParseNumber(s).None?
  {
    if Steps(s, ScanStart).Some? {
      StepsChars(s, ScanStart);
      NoColonChars(s);
    }
  }

  lemma StepsOne(c: char, st: NumberScan)
    ensures Steps([c], st) == Step(st, c)
  {
    assert [c][0] == c && [c][1..] == [];
  }

  lemma ShiftDigit(w: nat, p: nat, d: nat, c: nat)
    ensures w * (10 * p) + (d * 10 + c) == (w * p + d) * 10 + c
  {
  }

  /** A digit before the `.` starts or extends the integer digits. */
  lemma WholeDigitStep(c: char, st: NumberScan)
    requires IsDigit(c) && st.phase in {LeadWhite, AfterSign, Whole}
    requires st.phase == Whole ==> st.digits
    ensures Step(st, c) == Some(st.(phase := Whole, digits := true, whole := st.whole * 10 + DigitValue(c)))
  {
    if st.phase == Whole {
      assert st.(phase := Whole, digits := true) == st;
    }
  }

  /** Digits read before the `.` accumulate into the integer value, most significant first. */
  lemma {:induction false} StepsWhole(a: string, st: NumberScan)
    requires AllDigits(a) && |a| > 0 && st.phase in {LeadWhite, AfterSign, Whole}
    requires st.phase == Whole ==> st.digits
    ensures Steps(a, st) == Some(st.(phase := Whole, digits := true, whole := st.whole * Pow10(|a|) + DigitsValue(a)))
    decreases |a|
  {
    var a', c := a[..|a| - 1], a[|a| - 1];
    assert a == a' + [c] && IsDigit(c);
    assert DigitsValue(a) == DigitsValue(a') * 10 + DigitValue(c);
    assert Pow10(|a|) == 10 * Pow10(|a'|);
    StepsConcat(a', [c], st);
    if a' == [] {
      StepsOne(c, st);
      WholeDigitStep(c, st);
      assert Pow10(|a|) == 10 && DigitsValue(a) == DigitValue(c);
    } else {
      StepsWhole(a', st);
      var m := st.(phase := Whole, digits := true, whole := st.whole * Pow10(|a'|) + DigitsValue(a'));
      StepsOne(c, m);
      WholeDigitStep(c, m);
      ShiftDigit(st.whole, Pow10(|a'|), DigitsValue(a'), DigitValue(c));
    }
  }

  /** Digits read after the `.` accumulate into the fraction value and count. */
  lemma {:induction false} StepsFraction(b: string, st: NumberScan)
    requires AllDigits(b) && |b| > 0 && st.phase == Fraction
    ensures Steps(b, st) == Some(st.(digits := true, frac := st.frac * Pow10(|b|) + DigitsValue(b), fracLen := st.fracLen + |b|))
    decreases |b|
  {
    var b', c := b[..|b| - 1], b[|b| - 1];
    assert b == b' + [c] && IsDigit(c);
    assert DigitsValue(b) == DigitsValue(b') * 10 + DigitValue(c);
    assert Pow10(|b|) == 10 * Pow10(|b'|);
    StepsConcat(b', [c], st);
    if b' == [] {
      StepsOne(c, st);
    } else {
      StepsFraction(b', st);
      var m := st.(digits := true, frac := st.frac * Pow10(|b'|) + DigitsValue(b'), fracLen := st.fracLen + |b'|);
      StepsOne(c, m);
      ShiftDigit(st.frac, Pow10(|b'|), DigitsValue(b'), DigitValue(c));
    }
  }

  /** Digits, a dot and digits parse to their exact decimal value. */
  lemma NumberOfDigits(a: string, b: string)
    requires AllDigits(a) && AllDigits(b) && |a| > 0 && |b| > 0
    ensures TryParseNumber(a + "." + b) == Some(DecimalValue(a, b))
  {
    StepsWhole(a, ScanStart);
    var m := ScanStart.(phase := Whole, digits := true, whole := DigitsValue(a));
    StepsFraction(b, m.(phase := Fraction));
    var n := m.(phase := Fraction, frac := DigitsValue(b), fracLen := |b|);
    StepsConcat(a, "." + b, ScanStart);
    StepsConcat(".", b, m);
    StepsOne('.', m);
    assert a + "." + b == a + ("." + b) && "." + b == ['.'] + b;
    assert Steps(a + "." + b, ScanStart) == Some(n);
  }

  lemma AllDigitsConcat(x: string, y: string)
    requires AllDigits(x) && AllDigits(y)
    ensures AllDigits(x + y)
  {
    forall k | 0 <= k < |x + y|
      ensures IsDigit((x + y)[k])
    {
      if k >= |x| {
        assert (x + y)[k] == y[k - |x|];
      }
    }
  }

  /** The value of two digit runs written one after the other. */
  lemma {:induction false} DigitsConcat(x: string, y: string)
    requires AllDigits(x) && AllDigits(y)
    ensures AllDigits(x + y) && DigitsValue(x + y) == DigitsValue(x) * Pow10(|y|) + DigitsValue(y)
    decreases |y|
  {
    AllDigitsConcat(x, y);
    if y == [] {
      assert x + y == x;
    } else {
      var y', c := y[..|y| - 1], y[|y| - 1];
      assert AllDigits(y') && IsDigit(c);
      assert (x + y)[..|x + y| - 1] == x + y' && (x + y)[|x + y| - 1] == c;
      DigitsConcat(x, y');
      assert DigitsValue(x + y) == DigitsValue(x + y') * 10 + DigitValue(c);
      assert DigitsValue(y) == DigitsValue(y') * 10 + DigitValue(c);
      assert Pow10(|y|) == 10 * Pow10(|y'|);
      ShiftDigit(DigitsValue(x), Pow10(|y'|), DigitsValue(y'), DigitValue(c));
    }
  }

  /** A group separator between two digit runs is dropped: `1,000.5` is 1000.5. */
  lemma NumberGrouped(x: string, y: string, z: string)
    requires AllDigits(x) && AllDigits(y) && AllDigits(z) && |x| > 0 && |y| > 0 && |z| > 0
    ensures AllDigits(x + y)
    ensures TryParseNumber(x + "," + y + "." + z) == Some(DecimalValue(x + y, z))
  {
    DigitsConcat(x, y);
    StepsWhole(x, ScanStart);
    var m := ScanStart.(phase := Whole, digits := true, whole := DigitsValue(x));
    StepsOne(',', m);
    assert Step(m, ',') == Some(m);
    StepsWhole(y, m);
    var n := m.(whole := DigitsValue(x + y));
    StepsOne('.', n);
    assert Step(n, '.') == Some(n.(phase := Fraction));
    StepsFraction(z, n.(phase := Fraction));
    var e := n.(phase := Fraction, frac := DigitsValue(z), fracLen := |z|);
    var s := x + "," + y + "." + z;
    var tail := ['.'] + z;
    var mid := y + tail;
    assert s == x + ([','] + mid);
    StepsConcat(['.'], z, n);
    assert Steps(tail, n) == Some(e);
    StepsConcat(y, tail, m);
    assert Steps(mid, m) == Some(e);
    StepsConcat([','], mid, m);
    StepsConcat(x, [','] + mid, ScanStart);
    assert Steps(s, ScanStart) == Some(e);
    assert Finish(e) == Some(DecimalValue(x + y, z));
  }

  /** A sign after the digits applies to them: `5-` is -5. */
  lemma NumberTrailingSign(x: string)
    requires AllDigits(x) && |x| > 0
    ensures TryParseNumber(x + "-") == Some(-(DigitsValue(x) as real))
  {
    StepsWhole(x, ScanStart);
    var m := ScanStart.(phase := Whole, digits := true, whole := DigitsValue(x));
    var e := m.(phase := TrailWhite, signed := true, negative := true);
    assert Step(m, '-') == Trailing(m, '-') == Some(e);
    StepsOne('-', m);
    assert "-" == ['-'];
    StepsConcat(x, "-", ScanStart);
    assert Steps(x + "-", ScanStart) == Some(e);
    assert Finish(e) == Some(-(DigitsValue(x) as real));
  }

  /** `Math.Round(x)`: to the nearest integer, halves to the even neighbour. */
  function RoundHalfEven(x: real): (r: int)
    ensures x - 0.5 <= r as real <= x + 0.5
    ensures x - x.Floor as real != 0.5 ==> x - 0.5 < r as real < x + 0.5
    ensures x - x.Floor as real == 0.5 ==> r % 2 == 0
  {
    var f := x.Floor;
    var d := x - f as real;
    if d < 0.5 then f else if d > 0.5 then f + 1 else if f % 2 == 0 then f else f + 1
  }

  /** A C# cast from a floating value to a 32-bit integer, clamped to the target range. */
  function SaturateInt32(v: int): (r: int)
    ensures Int32Min <= r <= Int32Max
    ensures Int32Min <= v <= Int32Max ==> r == v
  {
    if v < Int32Min then Int32Min else if v > Int32Max then Int32Max else v
  }

  /** A C# cast from a floating value to `uint`, clamped to the target range. */
  function SaturateUInt32(v: int): (r: int)
    ensures 0 <= r <= UInt32Max
    ensures 0 <= v <= UInt32Max ==> r == v
  {
    if v < 0 then 0 else if v > UInt32Max then UInt32Max else v
  }

  /** Division rounding toward zero, as a C# cast of `a / b` truncates. */
  function TruncDiv(a: int, b: nat): (q: int)
    requires b > 0
    ensures 0 <= a ==> 0 <= q * b <= a < (q + 1) * b
    ensures a < 0 ==> (q - 1) * b < a <= q * b <= 0
  {
    if a >= 0 then DivBounds(a, b); a / b else DivBounds(-a, b); -((-a) / b)
  }

  /** The floor quotient of a natural number brackets it between two multiples of `b`. */
  lemma DivBounds(n: int, b: int)
    requires n >= 0 && b > 0
    ensures 0 <= (n / b) * b <= n < (n / b + 1) * b
    ensures -(n / b) * b <= 0 && -n < (-(n / b) + 1) * b
  {
    var q, r := n / b, n % b;
    assert n == q * b + r && 0 <= r < b;
    assert (q + 1) * b == q * b + b;
    assert 0 <= q * b;
    assert -(q) * b == -(q * b);
    assert (-(q) + 1) * b == -(q * b) + b;
  }
}
