/** JavaScript numbers as the player uses them: finite values are reals (rounding of
    floating point is not modelled), and the three non-finite values are kept apart
    because `isFinite`, truthiness and `Math.min`/`Math.max` treat them differently.
    `undefined` read as a number is `NaN`. */
module Numbers {
  import opened Options
  import opened Strings

  datatype Num = Finite(v: real) | NaN | PosInf | NegInf

  /** `isFinite(x)`. */
  predicate IsFinite(x: Num) {
    x.Finite?
  }

  /** `!!x`: every number except `0` and `NaN` is truthy. */
  predicate Truthy(x: Num) {
    match x
    case Finite(v) => v != 0.0
    case NaN => false
    case _ => true
  }

  /** `x || 0`. */
  function OrZero(x: Num): (r: Num)
    ensures r.Finite? || r == x
    ensures Truthy(x) ==> r == x
    ensures !Truthy(x) ==> r == Finite(0.0)
  {
    if Truthy(x) then x else Finite(0.0)
  }

  /** IEEE multiplication on the extended reals (overflow of finite products is not modelled). */
  function Mul(a: Num, b: Num): (r: Num)
    ensures a.Finite? && b.Finite? ==> r == Finite(a.v * b.v)
    ensures a.NaN? || b.NaN? ==> r.NaN?
    ensures r.Finite? ==> a.Finite? && b.Finite?
  {
    if a.Finite? && b.Finite? then Finite(a.v * b.v)
    else if a.NaN? || b.NaN? then NaN
    else if a.Finite? then (if a.v == 0.0 then NaN else if (a.v > 0.0) == b.PosInf? then PosInf else NegInf)
    else if b.Finite? then (if b.v == 0.0 then NaN else if (b.v > 0.0) == a.PosInf? then PosInf else NegInf)
    else if a == b then PosInf else NegInf
  }

  /** A fraction of a positive duration lies within it. */
  lemma MulUnit(d: real, p: real)
    ensures d > 0.0 && 0.0 <= p <= 1.0 ==> 0.0 <= d * p <= d
  {
  }

  /** The same on numbers: a fraction of a positive finite number is finite and lies
      between 0 and that number. */
  lemma MulWithin(a: Num, b: Num)
    requires a.Finite? && b.Finite? && a.v > 0.0 && 0.0 <= b.v <= 1.0
    ensures Mul(a, b).Finite? && 0.0 <= Mul(a, b).v <= a.v
  {
    MulUnit(a.v, b.v);
    assert Mul(a, b) == Finite(a.v * b.v);
  }

  /** `x * 100`: a positive finite factor keeps infinities and `NaN` as they are. */
  function Times100(x: Num): Num {
    if x.Finite? then Finite(x.v * 100.0) else x
  }

  lemma Times100IsMul(x: Num)
    ensures Times100(x) == Mul(x, Finite(100.0))
  {
  }

  /** IEEE addition on the extended reals. */
  function Add(a: Num, b: Num): (r: Num)
    ensures a.Finite? && b.Finite? ==> r == Finite(a.v + b.v)
    ensures r.Finite? ==> a.Finite? && b.Finite?
  {
    match (a, b)
    case (Finite(x), Finite(y)) => Finite(x + y)
    case (NaN, _) => NaN
    case (_, NaN) => NaN
    case (Finite(_), _) => b
    case (_, Finite(_)) => a
    case _ => if a == b then a else NaN
  }

  /** IEEE division on the extended reals; a zero divisor is taken as `+0`. */
  function Div(a: Num, b: Num): (r: Num)
    ensures a.Finite? && b.Finite? && b.v != 0.0 ==> r == Finite(a.v / b.v)
    ensures a.Finite? && !b.Finite? && !b.NaN? ==> r == Finite(0.0)
    ensures a.NaN? || b.NaN? ==> r.NaN?
    ensures r.Finite? ==> a.Finite? && !b.NaN?
  {
    match (a, b)
    case (NaN, _) => NaN
    case (_, NaN) => NaN
    case (Finite(x), Finite(y)) =>
      if y != 0.0 then Finite(x / y)
      else if x > 0.0 then PosInf else if x < 0.0 then NegInf else NaN
    case (Finite(_), _) => Finite(0.0)
    case (_, Finite(y)) => if (y >= 0.0) == a.PosInf? then PosInf else NegInf
    case _ => NaN
  }

  /** `parseInt(x)` of a number: its decimal text read up to the fraction point, so a
      finite value is truncated toward zero and the text `Infinity` does not parse. This
      is the source's result for 0 and for 10^-6 <= abs(x) < 10^21, where the text has no
      exponent. */
  function ParseInt(x: Num): (r: Num)
    ensures x.Finite? ==> r == Finite(Trunc(x.v) as real)
    ensures !x.Finite? ==> r.NaN?
  {
    if x.Finite? then Finite(Trunc(x.v) as real) else NaN
  }

  /** `Math.max(0, Math.min(1, x))`. */
  function ClampUnit(x: Num): (r: Num)
    ensures x.NaN? <==> r.NaN?
    ensures r.NaN? || (r.Finite? && 0.0 <= r.v <= 1.0)
    ensures x.Finite? && 0.0 <= x.v <= 1.0 ==> r == x
    ensures x.PosInf? ==> r == Finite(1.0)
    ensures x.NegInf? ==> r == Finite(0.0)
  {
    match x
    case NaN => NaN
    case PosInf => Finite(1.0)
    case NegInf => Finite(0.0)
    case Finite(v) => Finite(if v < 0.0 then 0.0 else if v > 1.0 then 1.0 else v)
  }

  /** Truncation toward zero. */
  function Trunc(x: real): (n: int)
    ensures x >= 0.0 ==> n == x.Floor
    ensures x < 0.0 ==> n == -((-x).Floor)
  {
    if x >= 0.0 then x.Floor else -((-x).Floor)
  }

  /** `Math.round(x)`: the nearest integer, halves rounded up. */
  function Round(x: real): (n: int)
    ensures n as real - 0.5 <= x < n as real + 0.5
  {
    (x + 0.5).Floor
  }

  /** `x % 60`: JavaScript's remainder takes the sign of the dividend. */
  function Rem60(x: real): real {
    x - 60.0 * Trunc(x / 60.0) as real
  }

  /** Whole minutes and whole seconds of a number of seconds, as `formatTime` computes
      them: `Math.floor(s / 60)` and `Math.floor(s % 60)`. */
  function Minutes(s: real): int {
    (s / 60.0).Floor
  }

  function Seconds(s: real): int {
    Rem60(s).Floor
  }

  /** The `m:ss` text shared by both `formatTime` functions once the input is known
      to be truthy and finite. */
  function ClockText(s: real): string {
    IntToString(Minutes(s)) + ":" + PadStart2(IntToString(Seconds(s)))
  }

  lemma FloorShift(x: real, n: int)
    ensures (x - n as real).Floor == x.Floor - n
  {
  }

  /** For a non-negative time, minutes and seconds split its whole seconds exactly. */
  lemma {:induction false} MinutesSecondsSplit(s: real)
    requires s >= 0.0
    ensures 0 <= Seconds(s) < 60
    ensures Minutes(s) >= 0
    ensures 60 * Minutes(s) + Seconds(s) == s.Floor
  {
    var m := Minutes(s);
    assert Trunc(s / 60.0) == m;
    assert m as real <= s / 60.0 < m as real + 1.0;
    assert 60.0 * m as real <= s < 60.0 * m as real + 60.0;
    FloorShift(s, 60 * m);
    assert Rem60(s) == s - (60 * m) as real;
  }

  /** Reads `m:ss` back into a number of seconds; `None` for any other shape. */
  function ParseClock(t: string): Option<int> {
    var parts := Split(t, ':');
    if |parts| == 2 && |parts[0]| >= 1 && |parts[1]| == 2
       && AllDigits(parts[0]) && AllDigits(parts[1])
    then Some(60 * DigitsValue(parts[0]) + DigitsValue(parts[1]))
    else None
  }

  lemma SplitAtFirst(a: string, b: string, sep: char)
    requires sep !in a && sep !in b
    ensures Split(a + [sep] + b, sep) == [a, b]
  {
    var s := a + [sep] + b;
    assert s[|a|] == sep;
    var i := FirstIndex(s, sep);
    assert i == |a|;
    assert s[..i] == a;
    assert s[i + 1..] == b;
    assert FirstIndex(b, sep) == |b|;
  }

  lemma PadDigits(n: nat)
    requires n < 60
    ensures var p := PadStart2(NatToString(n));
      |p| == 2 && ':' !in p && AllDigits(p) && DigitsValue(p) == n
  {
    var p := PadStart2(NatToString(n));
    if n < 10 {
      assert p == ['0', DigitChar(n)];
      assert p[..1] == ['0'];
    } else {
      assert NatToString(n / 10) == [DigitChar(n / 10)];
      assert p == [DigitChar(n / 10), DigitChar(n % 10)];
      assert p[..1] == [DigitChar(n / 10)];
      assert DigitsValue(p[..1]) == n / 10 by {
        assert p[..1][..0] == [];
      }
    }
  }

  /** Minutes and two-digit seconds read back as their total. */
  lemma ClockOfParts(m: nat, sec: nat)
    requires sec < 60
    ensures ParseClock(NatToString(m) + ":" + PadStart2(NatToString(sec))) == Some(60 * m + sec)
  {
    var a, b := NatToString(m), PadStart2(NatToString(sec));
    var t := a + ":" + b;
    PadDigits(sec);
    assert ':' !in a by {
      assert forall i :: 0 <= i < |a| ==> a[i] != ':';
    }
    assert t == a + [':'] + b;
    SplitAtFirst(a, b, ':');
    var parts := Split(t, ':');
    assert parts == [a, b];
    DigitsOfNat(m);
    assert DigitsValue(parts[0]) == m && DigitsValue(parts[1]) == sec;
  }

  /** The clock text of a non-negative time reads back as its whole seconds. */
  lemma ClockTextRoundTrip(s: real)
    requires s >= 0.0
    ensures ParseClock(ClockText(s)) == Some(s.Floor)
  {
    MinutesSecondsSplit(s);
    ClockOfParts(Minutes(s), Seconds(s));
  }
}
