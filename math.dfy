/**
 * The grind-deck arithmetic: the two-operand operator step with its tier-dependent
 * rounding, the one-operand function step, and the two named constants.
 * Numbers are exact reals; floating-point error is not modelled.
 */
module MathFunctions {
  import opened Optional
  import opened CardTypes

  /**
   * The transcendental built-ins (`Math.sqrt`, `Math.cbrt`, `Math.sin`, `Math.cos`,
   * `Math.tan`, `Math.log`, `Math.exp`, `Math.pow`), passed in because their values
   * are not computed by the model. Trigonometric entries take radians.
   */
  datatype MathLib = MathLib(
    sqrt: real -> real, cbrt: real -> real,
    sin: real -> real, cos: real -> real, tan: real -> real,
    ln: real -> real, exp: real -> real, pow: (real, real) -> real)

  /** The double literals of `Math.PI` and `Math.E`. */
  const JsPi: real := 3.141592653589793
  const JsE: real := 2.718281828459045

  /** A whole number of thousandths. */
  predicate IsThousandths(r: real) { (r * 1000.0).Floor as real == r * 1000.0 }

  predicate IsWhole(r: real) { r.Floor as real == r }

  /** `Math.round(x * 1000) / 1000`: the nearest thousandth, halves rounded up. */
  function Round3(x: real): (r: real)
    ensures r - 0.0005 <= x < r + 0.0005
    ensures IsThousandths(r)
  {
    ((1000.0 * x + 0.5).Floor as real) / 1000.0
  }

  /** Rounding to thousandths is idempotent. */
  lemma Round3OfThousandths(x: real)
    requires IsThousandths(x)
    ensures Round3(x) == x
  {
    var k := (x * 1000.0).Floor;
    assert x * 1000.0 == k as real;
    assert (1000.0 * x + 0.5).Floor == k;
  }

  lemma Round3Idempotent(x: real)
    ensures Round3(Round3(x)) == Round3(x)
  {
    Round3OfThousandths(Round3(x));
  }

  /** The result of a step that may throw. */
  datatype Outcome = Returns(value: real) | Throws

  /** The rounding of `calculateArithmetic`: the floor for basic-tier division, else thousandths. */
  function RoundByDifficulty(x: real, operator: string, difficulty: Difficulty): (r: real)
    ensures difficulty == BasicTier && operator == "÷" ==> IsWhole(r) && r <= x < r + 1.0
    ensures !(difficulty == BasicTier && operator == "÷") ==> r == Round3(x)
  {
    if difficulty == BasicTier && operator == "÷" then x.Floor as real else Round3(x)
  }

  /**
   * `calculateArithmetic(a, b, operator, difficulty)`: a zero grind value is
   * replaced by `b`; an unknown operator keeps `a`; division by zero throws.
   */
  function CalculateArithmetic(a: real, b: real, operator: string, difficulty: Difficulty): (r: Outcome)
    ensures r.Throws? <==> a != 0.0 && operator == "÷" && b == 0.0
    ensures r.Returns? && a == 0.0 ==> r.value == RoundByDifficulty(b, operator, difficulty)
  {
    if a == 0.0 then Returns(RoundByDifficulty(b, operator, difficulty))
    else if operator == "+" then Returns(RoundByDifficulty(a + b, operator, difficulty))
    else if operator == "-" then Returns(RoundByDifficulty(a - b, operator, difficulty))
    else if operator == "×" then Returns(RoundByDifficulty(a * b, operator, difficulty))
    else if operator == "÷" then
      if b == 0.0 then Throws
      else if difficulty == BasicTier then Returns((a / b).Floor as real)
      else Returns(RoundByDifficulty(a / b, operator, difficulty))
    else Returns(RoundByDifficulty(a, operator, difficulty))
  }

  /** What each of the four operators computes before rounding. */
  function Apply(op: ArithmeticOperator, a: real, b: real): real
    requires op == Divide ==> b != 0.0
  {
    match op
    case Plus => a + b
    case Minus => a - b
    case Times => a * b
    case Divide => a / b
  }

  /**
   * For a card operator and a non-zero grind value the step rounds the exact result:
   * to the quotient's floor on the basic tier's division, to thousandths otherwise.
   */
  lemma ArithmeticRounds(a: real, b: real, op: ArithmeticOperator, d: Difficulty)
    requires a != 0.0 && (op == Divide ==> b != 0.0)
    ensures CalculateArithmetic(a, b, Symbol(op), d)
         == Returns(if op == Divide && d == BasicTier then (a / b).Floor as real else Round3(Apply(op, a, b)))
  {
    assert "+" != "-" && "+" != "×" && "+" != "÷" && "-" != "×" && "-" != "÷" && "×" != "÷" by {
      assert "+"[0] != "-"[0] && "+"[0] != "×"[0] && "+"[0] != "÷"[0];
      assert "-"[0] != "×"[0] && "-"[0] != "÷"[0] && "×"[0] != "÷"[0];
    }
  }

  /** Every result on a tier other than basic is a whole number of thousandths. */
  lemma ArithmeticResultIsThousandths(a: real, b: real, operator: string, d: Difficulty)
    requires d != BasicTier && CalculateArithmetic(a, b, operator, d).Returns?
    ensures IsThousandths(CalculateArithmetic(a, b, operator, d).value)
  {
  }

  /** On the basic tier, every division yields a whole number. */
  lemma BasicDivisionIsWhole(a: real, b: real)
    requires CalculateArithmetic(a, b, "÷", BasicTier).Returns?
    ensures IsWhole(CalculateArithmetic(a, b, "÷", BasicTier).value)
  {
  }

  /** A zero grind value is replaced by the played number, rounded as the operator's tier demands. */
  lemma ArithmeticStartsFromZero(b: real, operator: string, d: Difficulty)
    ensures CalculateArithmetic(0.0, b, operator, d) == Returns(RoundByDifficulty(b, operator, d))
  {
  }

  /** Worked cases: 5 + 3 = 8; on the basic tier 7 ÷ 2 = 3 and −7 ÷ 2 = −4, elsewhere 7 ÷ 2 = 3.5. */
  lemma ArithmeticExamples()
    ensures CalculateArithmetic(5.0, 3.0, "+", BasicTier) == Returns(8.0)
    ensures CalculateArithmetic(7.0, 2.0, "÷", BasicTier) == Returns(3.0)
    ensures CalculateArithmetic(-7.0, 2.0, "÷", BasicTier) == Returns(-4.0)
    ensures CalculateArithmetic(7.0, 2.0, "÷", DecimalsTier) == Returns(3.5)
  {
    ArithmeticRounds(5.0, 3.0, Plus, BasicTier);
    Round3OfThousandths(8.0);
    ArithmeticRounds(7.0, 2.0, Divide, DecimalsTier);
    Round3OfThousandths(3.5);
  }

  /**
   * The product `v · (v − 1) · …` over the terms still above zero, the loop of
   * the `!` case; 1 when `v <= 0`.
   */
  function FallingProduct(v: real): real
    decreases if v <= 0.0 then 0 else v.Floor + 1
  {
    if v <= 0.0 then 1.0 else v * FallingProduct(v - 1.0)
  }

  function Fact(n: nat): nat {
    if n == 0 then 1 else n * Fact(n - 1)
  }

  /** On a natural number the `!` loop computes the factorial. */
  lemma {:induction false} FallingProductOfNat(n: nat)
    ensures FallingProduct(n as real) == Fact(n) as real
  {
    if n > 0 {
      FallingProductOfNat(n - 1);
      assert (n as real) - 1.0 == (n - 1) as real;
    }
  }

  /** The `!` loop always yields a positive number. */
  lemma {:induction false} FallingProductPositive(v: real)
    ensures FallingProduct(v) > 0.0
    decreases if v <= 0.0 then 0 else v.Floor + 1
  {
    if v > 0.0 {
      FallingProductPositive(v - 1.0);
      assert v * FallingProduct(v - 1.0) > 0.0;
    }
  }

  /** The functions whose second operand is read: `x^y` and `pyth`. */
  predicate TakesSecond(func: FunctionOperator) { func == Power || func == Pyth }

  /**
   * `calculateFunction(value, func, secondValue)` as a value: a zero grind value
   * yields the rounded second operand for `x^y`/`pyth` and 0 otherwise; the
   * trigonometric cases read `value` in degrees.
   */
  function FunctionResult(lib: MathLib, value: real, func: FunctionOperator, second: Option<real>): (r: real)
    ensures value == 0.0 ==> r == (if second.Some? && TakesSecond(func) then Round3(second.value) else 0.0)
    ensures value != 0.0 && (func == Sqrt || func == Ln) && value <= 0.0 ==> r == value
    ensures value != 0.0 && (func == Power || func == Pyth) && second.None? ==> r == value
  {
    if value == 0.0 then
      if second.Some? && TakesSecond(func) then Round3(second.value) else 0.0
    else
      match func
      case Sqrt => if value > 0.0 then Round3(lib.sqrt(value)) else value
      case Cbrt => Round3(lib.cbrt(value))
      case Sin => Round3(lib.sin(value * (JsPi / 180.0)))
      case Cos => Round3(lib.cos(value * (JsPi / 180.0)))
      case Tan => Round3(lib.tan(value * (JsPi / 180.0)))
      case Reciprocal => Round3(1.0 / value)
      case Power => if second.Some? then Round3(lib.pow(value, second.value)) else value
      case Mod => if value < 0.0 then -value else value
      case Pyth =>
        if second.Some? then Round3(lib.sqrt(lib.pow(value, 2.0) + lib.pow(second.value, 2.0))) else value
      case Factorial => FallingProduct(Round3(value))
      case Square => Round3(value * value)
      case Cube => Round3((value * value) * value)
      case Ln => if value > 0.0 then lib.ln(value) else value
      case Percent => value * 100.0
      case Exp => Round3(lib.exp(value))
      case Modulus => Round3(value)
  }

  /** The countdown loop of the `!` case: multiplies `i`, `i - 1`, ... while they stay above zero. */
  method FactorialLoop(val: real) returns (n: real)
    ensures n == FallingProduct(val)
  {
    n := 1.0;
    var i := val;
    while i > 0.0
      invariant n * FallingProduct(i) == FallingProduct(val)
      decreases if i <= 0.0 then 0 else i.Floor + 1
    {
      assert FallingProduct(i) == i * FallingProduct(i - 1.0);
      n := n * i;
      i := i - 1.0;
    }
  }

  /** `calculateFunction`, with the `!` case computed by its countdown loop. */
  method CalculateFunction(lib: MathLib, value: real, func: FunctionOperator, second: Option<real>) returns (r: real)
    ensures r == FunctionResult(lib, value, func, second)
  {
    if value != 0.0 && func == Factorial {
      r := FactorialLoop(Round3(value));
    } else {
      r := FunctionResult(lib, value, func, second);
    }
  }

  /** `!` rounds its input to thousandths, then multiplies down; on a natural number it is the factorial. */
  lemma FactorialOfNatural(lib: MathLib, n: nat, second: Option<real>)
    requires n > 0
    ensures FunctionResult(lib, n as real, Factorial, second) == Fact(n) as real
  {
    assert IsThousandths(n as real) by {
      assert (n as real) * 1000.0 == (n * 1000) as real;
    }
    Round3OfThousandths(n as real);
    FallingProductOfNat(n);
  }

  /** The unrounded cases: `%` is a hundredfold, `!` of a negative value is 1, `ln` of a positive value is the bare logarithm. */
  lemma UnroundedCases(lib: MathLib, v: real, s: Option<real>)
    requires v != 0.0
    ensures FunctionResult(lib, v, Percent, s) == 100.0 * v
    ensures v < 0.0 ==> FunctionResult(lib, v, Factorial, s) == 1.0
    ensures v > 0.0 ==> FunctionResult(lib, v, Ln, s) == lib.ln(v)
  {
    if v < 0.0 {
      var k := (Round3(v) * 1000.0).Floor;
      assert k as real == Round3(v) * 1000.0;
      assert k <= 0;
      assert FunctionResult(lib, v, Factorial, s) == FallingProduct(Round3(v));
    }
  }

  /** `mod` is the absolute value and ignores any second operand. */
  lemma ModIsAbsoluteValue(lib: MathLib, v: real, second: Option<real>)
    ensures FunctionResult(lib, v, Mod, second) == (if v < 0.0 then -v else v)
    ensures FunctionResult(lib, v, Mod, second) >= 0.0
  {
  }

  /** `modulus` has no case of its own: it rounds the grind value and ignores the second operand. */
  lemma ModulusKeepsValue(lib: MathLib, v: real, s1: Option<real>, s2: Option<real>)
    ensures FunctionResult(lib, v, Modulus, s1) == FunctionResult(lib, v, Modulus, s2) == Round3(v)
  {
  }

  /** Only `x^y` and `pyth` read their second operand. */
  lemma SecondOperandIgnored(lib: MathLib, v: real, func: FunctionOperator, s1: Option<real>, s2: Option<real>)
    requires !TakesSecond(func)
    ensures FunctionResult(lib, v, func, s1) == FunctionResult(lib, v, func, s2)
  {
  }

  /** The results that are rounded are whole numbers of thousandths; `mod`, `!`, `ln` and `%` are not rounded. */
  lemma FunctionResultRounded(lib: MathLib, v: real, func: FunctionOperator, second: Option<real>)
    requires v > 0.0 && func !in {Mod, Factorial, Ln, Percent}
    requires TakesSecond(func) ==> second.Some?
    ensures IsThousandths(FunctionResult(lib, v, func, second))
  {
  }

  /** The trigonometric cases convert the grind value from degrees to radians. */
  lemma TrigonometryInDegrees(lib: MathLib, v: real, second: Option<real>)
    requires v != 0.0
    ensures FunctionResult(lib, v, Sin, second) == Round3(lib.sin(v * JsPi / 180.0))
    ensures FunctionResult(lib, v, Cos, second) == Round3(lib.cos(v * JsPi / 180.0))
    ensures FunctionResult(lib, v, Tan, second) == Round3(lib.tan(v * JsPi / 180.0))
  {
    assert v * (JsPi / 180.0) == v * JsPi / 180.0;
  }

  /** `getConstantValue`: π and e rounded to thousandths, anything else 0. */
  function GetConstantValue(constant: string): (r: real)
    ensures constant == "π" ==> r == 3.142
    ensures constant == "e" ==> r == 2.718
    ensures constant != "π" && constant != "e" ==> r == 0.0
  {
    if constant == "π" then Round3(JsPi)
    else if constant == "e" then Round3(JsE)
    else 0.0
  }

  lemma IntegerIsThousandths(n: int)
    ensures IsThousandths(n as real)
  {
    assert (n as real) * 1000.0 == (n * 1000) as real;
  }

  /** The number a number-like card stands for; a constant's symbol goes through `getConstantValue`. */
  function CardValue(f: Face): (v: real)
    requires IsNumberLike(f)
    ensures IsThousandths(v)
    ensures f.Constant? ==> v == (if f.constant == Pi then 3.142 else 2.718)
    ensures !f.Constant? ==> v == NumericPayload(f) as real
  {
    if f.Constant? then
      assert IsThousandths(3.142) && IsThousandths(2.718);
      GetConstantValue(ConstantSymbol(f.constant))
    else
      IntegerIsThousandths(NumericPayload(f));
      NumericPayload(f) as real
  }
}
