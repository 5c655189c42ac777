/** Values: the dynamically typed dictionary values the pool records carry, as far
    as Python's float(), truthiness and round() can observe them, and the two
    rounding rules the system applies to money and percentages. */
module Values {

  datatype Option<T> = None | Some(value: T) {
    function GetOr(default: T): T {
      match this
      case Some(v) => v
      case None => default
    }
  }

  /** A value stored in a pool dictionary, classified by what float() and
      truthiness make of it. A numeric string is NumText; bools behave like
      Num(1.0) and Num(0.0); Junk is anything float() rejects (a non-numeric
      string, a list, a dict), with its truthiness. Absent keys read as Null,
      since dict.get returns None for them. */
  datatype Scalar = Null | Num(x: real) | NumText(x: real) | Junk(truthy: bool)

  /** Python truthiness of a scalar. */
  predicate Truthy(v: Scalar) {
    match v
    case Null => false
    case Num(x) => x != 0.0
    case NumText(_) => true
    case Junk(t) => t
  }

  /** Python float(v): None when it raises TypeError or ValueError. */
  function ToFloat(v: Scalar): (r: Option<real>)
    ensures r.Some? <==> v.Num? || v.NumText?
    ensures r.Some? ==> r.value == v.x
  {
    match v
    case Num(x) => Some(x)
    case NumText(x) => Some(x)
    case _ => None
  }

  /** to_float (analyzer.py): the default for None or for a value float()
      rejects, float(value) otherwise. */
  function ToFloatOr(v: Scalar, default: real): (r: real)
    ensures v.Null? ==> r == default
    ensures v.Junk? ==> r == default
    ensures (v.Num? || v.NumText?) ==> r == v.x
  {
    ToFloat(v).GetOr(default)
  }

  /** A dictionary slot where a missing key and a key holding None differ:
      dict.get(key, default) gives the default only for the missing key. */
  datatype Field = Absent | Present(v: Scalar)

  /** dict.get(key) */
  function Get(f: Field): Scalar {
    match f
    case Absent => Null
    case Present(v) => v
  }

  /** dict.get(key, default) */
  function GetOr(f: Field, default: Scalar): Scalar {
    match f
    case Absent => default
    case Present(v) => v
  }

  /** The three range strategies: the keys of every ranges and simulations
      dictionary. */
  datatype Strategy = Defensive | Optimized | Aggressive

  /** The order in which every strategy dictionary is built, and hence
      iterated: defensive, optimized, aggressive. */
  const StrategyOrder: seq<Strategy> := [Defensive, Optimized, Aggressive]

  /** Every strategy is one of the three the dictionaries are built with. */
  lemma AllStrategiesInOrder(s: Strategy)
    ensures s in StrategyOrder
  {
    match s
    case Defensive => assert StrategyOrder[0] == s;
    case Optimized => assert StrategyOrder[1] == s;
    case Aggressive => assert StrategyOrder[2] == s;
  }

  /** The position of a strategy in StrategyOrder. */
  function StrategyIndex(s: Strategy): (n: nat)
    ensures n < |StrategyOrder| && StrategyOrder[n] == s
  {
    match s
    case Defensive => 0
    case Optimized => 1
    case Aggressive => 2
  }

  /** Python abs() */
  function Abs(x: real): (r: real)
    ensures r >= 0.0 && (r == x || r == -x)
  {
    if x < 0.0 then -x else x
  }

  /** Python min() and max() of two numbers. */
  function Min(a: real, b: real): real {
    if b < a then b else a
  }

  function Max(a: real, b: real): real {
    if a >= b then a else b
  }

  function MinInt(a: int, b: int): int {
    if b < a then b else a
  }

  /** A range dictionary ('min_price', 'max_price', 'spread_percent',
      'strategy'), as both analyzers build it. */
  datatype RangeSpec = RangeSpec(minPrice: real, maxPrice: real, spreadPercent: real, strategy: Strategy)

  /** One period of a simulation dictionary, as both analyzers build it. */
  datatype PeriodResult = PeriodResult(
    timeInRange: real,
    feesCollected: real,
    impermanentLoss: real,
    netReturn: real,
    gasCost: real,
    netAfterGas: real)

  /** A simulation dictionary: its '7d' and '30d' entries. */
  datatype Simulation = Simulation(d7: PeriodResult, d30: PeriodResult)

  /** A text slot of a pool dictionary: missing, None, or a string. */
  datatype TextField = NoKey | NoneText | Str(s: string)

  predicate TextTruthy(t: TextField) {
    t.Str? && t.s != ""
  }

  /** Round half to even: the integer nearest to y, the even one on a tie. */
  function RoundHalfEven(y: real): (n: int)
    ensures y - 0.5 <= n as real <= y + 0.5
    ensures (n as real == y - 0.5 || n as real == y + 0.5) ==> n % 2 == 0
  {
    var f := y.Floor;
    var d := y - f as real;
    if d < 0.5 then f
    else if d > 0.5 then f + 1
    else if f % 2 == 0 then f
    else f + 1
  }

  /** Python round(x, 1) on exact reals. */
  function Round1(x: real): (r: real)
    ensures x - 0.05 <= r <= x + 0.05
    ensures 0.0 <= x ==> 0.0 <= r
  {
    RoundHalfEven(x * 10.0) as real / 10.0
  }

  /** Python round(x, 2) on exact reals. */
  function Round2(x: real): (r: real)
    ensures x - 0.005 <= r <= x + 0.005
    ensures 0.0 <= x ==> 0.0 <= r
  {
    RoundHalfEven(x * 100.0) as real / 100.0
  }

  /** Python int() of a float: truncation toward zero. */
  function TruncInt(x: real): (n: int)
    ensures 0.0 <= x ==> n as real <= x < n as real + 1.0
    ensures x < 0.0 ==> n as real - 1.0 < x <= n as real
  {
    if x >= 0.0 then x.Floor else -((-x).Floor)
  }

  /** Decimal(x).quantize(Decimal('0.01'), rounding=ROUND_DOWN): cut to whole
      cents toward zero. */
  function TruncCents(x: real): (r: real)
    ensures 0.0 <= x ==> 0.0 <= r <= x < r + 0.01
    ensures x < 0.0 ==> r - 0.01 < x <= r <= 0.0
    ensures (r * 100.0).Floor as real == r * 100.0
  {
    if x >= 0.0 then
      var n := (x * 100.0).Floor;
      assert (n as real / 100.0) * 100.0 == n as real && (n as real).Floor == n;
      n as real / 100.0
    else
      var n := (-x * 100.0).Floor;
      assert (-(n as real / 100.0)) * 100.0 == (-n) as real && ((-n) as real).Floor == -n;
      -(n as real / 100.0)
  }

  /** Shifting by an even integer commutes with rounding half to even, ties
      included: the parity of the floor is kept. */
  lemma RoundHalfEvenShift(y: real, k: int)
    requires k % 2 == 0
    ensures RoundHalfEven(y - k as real) == RoundHalfEven(y) - k
  {
    var f := y.Floor;
    var g := (y - k as real).Floor;
    assert f as real <= y < f as real + 1.0;
    assert g as real <= y - k as real < g as real + 1.0;
    assert g == f - k;
    assert (y - k as real) - g as real == y - f as real;
    assert (g % 2 == 0) == (f % 2 == 0);
  }

  /** Subtracting a whole number of cents that is even (0.50, 5.00) commutes
      with round(x, 2). */
  lemma Round2Shift(x: real, cents: int)
    requires cents % 2 == 0
    ensures Round2(x - cents as real / 100.0) == Round2(x) - cents as real / 100.0
  {
    assert (x - cents as real / 100.0) * 100.0 == x * 100.0 - cents as real;
    RoundHalfEvenShift(x * 100.0, cents);
  }

  /** round(x, 2) is the identity on whole cents. */
  lemma Round2Cents(n: int)
    ensures Round2(n as real / 100.0) == n as real / 100.0
  {
    assert (n as real / 100.0) * 100.0 == n as real;
    assert (n as real).Floor == n;
  }

  /** round(x, 1) is the identity on whole tenths. */
  lemma Round1Tenths(n: int)
    ensures Round1(n as real / 10.0) == n as real / 10.0
  {
    assert (n as real / 10.0) * 10.0 == n as real;
    assert (n as real).Floor == n;
  }

  /** Rounding half to even never reverses an order. */
  lemma RoundHalfEvenMonotone(y: real, z: real)
    requires y <= z
    ensures RoundHalfEven(y) <= RoundHalfEven(z)
  {
  }

  lemma Round2Monotone(x: real, y: real)
    requires x <= y
    ensures Round2(x) <= Round2(y)
  {
    RoundHalfEvenMonotone(x * 100.0, y * 100.0);
  }

  lemma Round1Monotone(x: real, y: real)
    requires x <= y
    ensures Round1(x) <= Round1(y)
  {
    RoundHalfEvenMonotone(x * 10.0, y * 10.0);
  }
}
