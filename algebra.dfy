/**
 * The algebra function: the expression the algebra deck builds up card by card,
 * the JavaScript source text the game stores for it, a reader for that text,
 * and its evaluation at the grind value.
 */
module Algebra {
  import opened Optional
  import opened JsBuiltins
  import opened CardTypes
  import opened MathFunctions

  datatype MathCall = SqrtCall | CbrtCall | SinCall | CosCall | TanCall

  /**
   * An algebra function as the card templates build it. `n` fields are the
   * played number in thousandths (every card value is a whole number of thousandths).
   */
  datatype Expr =
    | XVar
    | Arith(op: ArithmeticOperator, f: Expr, n: int)
    | Call(call: MathCall, f: Expr)
    | Inverse(f: Expr)
    | PowerOf(f: Expr, n: int)
    | Remainder(f: Expr, n: int)
    | Hypot(f: Expr, n: int)

  /** The JavaScript operator each arithmetic card writes into the function. */
  function OpText(op: ArithmeticOperator): string {
    match op
    case Plus => "+"
    case Minus => "-"
    case Times => "*"
    case Divide => "/"
  }

  function CallName(c: MathCall): string {
    match c
    case SqrtCall => "sqrt"
    case CbrtCall => "cbrt"
    case SinCall => "sin"
    case CosCall => "cos"
    case TanCall => "tan"
  }

  /** The source text the templates produce, numbers printed as `Number#toString` does. */
  function Print(e: Expr): string {
    match e
    case XVar => "x"
    case Arith(op, f, n) => "(" + Print(f) + " " + OpText(op) + " " + MilliStr(n) + ")"
    case Call(c, f) => HeadText(CallHead(c)) + Print(f) + ")"
    case Inverse(f) => HeadText(InverseHead) + Print(f) + ")"
    case PowerOf(f, n) => "Math.pow(" + Print(f) + ", " + MilliStr(n) + ")"
    case Remainder(f, n) => "(" + Print(f) + " " + "%" + " " + MilliStr(n) + ")"
    case Hypot(f, n) => HeadText(CallHead(SqrtCall)) + Print(f) + "*" + Print(f) + " + " + MilliStr(n) + "*" + MilliStr(n) + ")"
  }

  predicate HasPrefix(s: string, p: string) { |p| <= |s| && s[..|p|] == p }

  /** The template whose opening text starts `s`. */
  datatype Head = XHead | InverseHead | ParenHead | PowHead | CallHead(call: MathCall)

  /** The opening text of each template. */
  function HeadText(h: Head): string {
    match h
    case XHead => "x"
    case InverseHead => "(1/"
    case ParenHead => "("
    case PowHead => "Math.pow("
    case CallHead(c) => "Math." + CallName(c) + "("
  }

  /** Recognises the opening text at the front of `s`. */
  function HeadAt(s: string): (r: Option<Head>)
    ensures r.Some? ==> HasPrefix(s, HeadText(r.value))
  {
    if HasPrefix(s, "x") then Some(XHead)
    else if HasPrefix(s, "(1/") then Some(InverseHead)
    else if HasPrefix(s, "(") then Some(ParenHead)
    else if HasPrefix(s, "Math.pow(") then Some(PowHead)
    else if HasPrefix(s, "Math.sqrt(") then Some(CallHead(SqrtCall))
    else if HasPrefix(s, "Math.cbrt(") then Some(CallHead(CbrtCall))
    else if HasPrefix(s, "Math.sin(") then Some(CallHead(SinCall))
    else if HasPrefix(s, "Math.cos(") then Some(CallHead(CosCall))
    else if HasPrefix(s, "Math.tan(") then Some(CallHead(TanCall))
    else None
  }

  /** The binary template an infix operator character stands for. */
  function Infix(c: char, f: Expr, n: int): Option<Expr> {
    if c == '+' then Some(Arith(Plus, f, n))
    else if c == '-' then Some(Arith(Minus, f, n))
    else if c == '*' then Some(Arith(Times, f, n))
    else if c == '/' then Some(Arith(Divide, f, n))
    else if c == '%' then Some(Remainder(f, n))
    else None
  }

  /** A numeral reader: it consumes at least one character whenever it succeeds. */
  type NumberReader = string -> Option<(int, string)>

  ghost predicate Consumes(num: NumberReader) {
    forall s :: num(s).Some? ==> |num(s).value.1| < |s|
  }

  /** The reader reads back every number `MilliStr` prints, leaving what follows. */
  ghost predicate ReadsMilli(num: NumberReader) {
    forall n, rest :: EndsNumber(rest) ==> num(MilliStr(n) + rest) == Some((n, rest))
  }

  lemma ParseMilliReader()
    ensures Consumes(ParseMilli) && ReadsMilli(ParseMilli)
  {
    forall n, rest | EndsNumber(rest)
      ensures ParseMilli(MilliStr(n) + rest) == Some((n, rest))
    {
      MilliRoundTrip(n, rest);
    }
  }

  /** Completes a template once its opening text and first argument `f` have been read. */
  function Finish(num: NumberReader, h: Head, r: Option<(Expr, string)>): (res: Option<(Expr, string)>)
    requires Consumes(num)
    ensures res.Some? ==> r.Some? && |res.value.1| < |r.value.1|
  {
    match r
    case None => None
    case Some((f, t)) =>
      match h
      case XHead => None
      case InverseHead => if HasPrefix(t, ")") then Some((Inverse(f), t[1..])) else None
      case CallHead(c) =>
        if HasPrefix(t, ")") then Some((Call(c, f), t[1..]))
        else if c == SqrtCall then FinishHypot(num, f, t)
        else None
      case ParenHead =>
        if |t| >= 3 && t[0] == ' ' && t[2] == ' ' then
          match num(t[3..])
          case None => None
          case Some((n, t2)) =>
            match Infix(t[1], f, n)
            case None => None
            case Some(e) => if HasPrefix(t2, ")") then Some((e, t2[1..])) else None
        else None
      case PowHead =>
        if HasPrefix(t, ", ") then
          match num(t[2..])
          case None => None
          case Some((n, t2)) => if HasPrefix(t2, ")") then Some((PowerOf(f, n), t2[1..])) else None
        else None
  }

  /**
   * Completes `Math.sqrt(f*f + n*n)` once `Math.sqrt(f` has been read: the
   * second copy of `f` must be the same text as the first.
   */
  function FinishHypot(num: NumberReader, f: Expr, t: string): (res: Option<(Expr, string)>)
    requires Consumes(num)
    ensures res.Some? ==> |res.value.1| < |t|
  {
    var q := "*" + Print(f) + " + ";
    if HasPrefix(t, q) then HypotTail(num, f, t[|q|..]) else None
  }

  /** Reads the `n*n)` that ends `Math.sqrt(f*f + n*n)`. */
  function HypotTail(num: NumberReader, f: Expr, t: string): (res: Option<(Expr, string)>)
    requires Consumes(num)
    ensures res.Some? ==> |res.value.1| < |t|
  {
    match num(t)
    case None => None
    case Some((n, t2)) =>
      if HasPrefix(t2, "*") then
        match num(t2[1..])
        case None => None
        case Some((n2, t3)) => if n2 == n && HasPrefix(t3, ")") then Some((Hypot(f, n), t3[1..])) else None
      else None
  }

  /**
   * Reads one algebra function from the front of `s`, returning it and the text
   * after it; `num` reads the numbers. After `Math.sqrt(f` a star selects the
   * `pyth` template.
   */
  function ParseExpr(num: NumberReader, s: string): (r: Option<(Expr, string)>)
    requires Consumes(num)
    ensures r.Some? ==> |r.value.1| < |s|
    decreases |s|
  {
    match HeadAt(s)
    case None => None
    case Some(h) =>
      if h == XHead then Some((XVar, s[1..]))
      else Finish(num, h, ParseExpr(num, s[|HeadText(h)|..]))
  }

  /** Reads a whole algebra function; `None` when the text is not one the templates produce. */
  function ParseAlgebraFunction(s: string): Option<Expr> {
    ParseMilliReader();
    match ParseExpr(ParseMilli, s)
    case Some((e, rest)) => if rest == [] then Some(e) else None
    case None => None
  }

  /** Every printed function starts with `x`, `(` or `M`, and never with `1`. */
  lemma PrintStart(e: Expr)
    ensures |Print(e)| >= 1
    ensures Print(e)[0] == 'x' || Print(e)[0] == '(' || Print(e)[0] == 'M'
  {
  }

  /** The opening text of each template is recognised as that template. */
  lemma HeadOfText(h: Head, u: string)
    requires h == ParenHead ==> |u| >= 1 && u[0] != '1'
    ensures HeadAt(HeadText(h) + u) == Some(h)
  {
    var s := HeadText(h) + u;
    assert s[..|HeadText(h)|] == HeadText(h);
    match h
    case XHead =>
    case InverseHead => assert s[0] == '(' && s[1] == '1';
    case ParenHead =>
      assert s[0] == '(' && s[1] == u[0];
      assert !HasPrefix(s, "(1/") by { if |s| >= 3 { assert s[..3][1] == s[1]; } }
    case PowHead => assert s[0] == 'M' && s[5] == 'p';
    case CallHead(c) =>
      assert s[0] == 'M' && s[5] == HeadText(h)[5] && s[6] == HeadText(h)[6];
      assert !HasPrefix(s, "x") && !HasPrefix(s, "(1/") && !HasPrefix(s, "(");
      assert !HasPrefix(s, "Math.pow(") by { assert s[..9][5] == s[5]; }
      match c
      case SqrtCall =>
      case CbrtCall =>
        assert !HasPrefix(s, "Math.sqrt(") by { assert s[..10][5] == s[5]; }
      case SinCall =>
        assert !HasPrefix(s, "Math.sqrt(") by { if |s| >= 10 { assert s[..10][6] == s[6]; } }
        assert !HasPrefix(s, "Math.cbrt(") by { if |s| >= 10 { assert s[..10][5] == s[5]; } }
      case CosCall =>
        assert !HasPrefix(s, "Math.sqrt(") by { if |s| >= 10 { assert s[..10][5] == s[5]; } }
        assert !HasPrefix(s, "Math.cbrt(") by { if |s| >= 10 { assert s[..10][6] == s[6]; } }
        assert !HasPrefix(s, "Math.sin(") by { assert s[..9][5] == s[5]; }
      case TanCall =>
        assert !HasPrefix(s, "Math.sqrt(") by { if |s| >= 10 { assert s[..10][5] == s[5]; } }
        assert !HasPrefix(s, "Math.cbrt(") by { if |s| >= 10 { assert s[..10][5] == s[5]; } }
        assert !HasPrefix(s, "Math.sin(") by { assert s[..9][5] == s[5]; }
        assert !HasPrefix(s, "Math.cos(") by { assert s[..9][5] == s[5]; }
  }

  /** One step of the reader on a template whose argument reads back and is followed by `t`. */
  lemma StepOver(num: NumberReader, h: Head, f: Expr, p: string, t: string)
    requires Consumes(num) && h != XHead
    requires h == ParenHead ==> |p| >= 1 && p[0] != '1'
    requires ParseExpr(num, p + t) == Some((f, t))
    ensures ParseExpr(num, HeadText(h) + (p + t)) == Finish(num, h, Some((f, t)))
  {
    var s := HeadText(h) + (p + t);
    HeadOfText(h, p + t);
    assert s[|HeadText(h)|..] == p + t;
  }

  /** The `)` that closes a template. */
  lemma CloseParen(rest: string)
    ensures HasPrefix(")" + rest, ")") && (")" + rest)[1..] == rest
  {
    assert (")" + rest)[..1] == ")";
  }

  lemma FinishParen(num: NumberReader, e: Expr, f: Expr, o: string, n: int, m: string, rest: string)
    requires Consumes(num) && |o| == 1 && Infix(o[0], f, n) == Some(e)
    requires num(m + (")" + rest)) == Some((n, ")" + rest))
    ensures Finish(num, ParenHead, Some((f, " " + o + " " + m + ")" + rest))) == Some((e, rest))
  {
    var t := " " + o + " " + m + ")" + rest;
    assert t[0] == ' ' && t[1] == o[0] && t[2] == ' ';
    assert t[3..] == m + (")" + rest);
    CloseParen(rest);
  }

  lemma FinishPow(num: NumberReader, f: Expr, n: int, m: string, rest: string)
    requires Consumes(num)
    requires num(m + (")" + rest)) == Some((n, ")" + rest))
    ensures Finish(num, PowHead, Some((f, ", " + m + ")" + rest))) == Some((PowerOf(f, n), rest))
  {
    var t := ", " + m + ")" + rest;
    assert t[..2] == ", ";
    assert t[2..] == m + (")" + rest);
    CloseParen(rest);
  }

  lemma HypotTailText(num: NumberReader, f: Expr, n: int, m: string, rest: string)
    requires Consumes(num)
    requires num(m + (")" + rest)) == Some((n, ")" + rest))
    requires num(m + ("*" + (m + (")" + rest)))) == Some((n, "*" + (m + (")" + rest))))
    ensures HypotTail(num, f, m + ("*" + (m + (")" + rest)))) == Some((Hypot(f, n), rest))
  {
    var t2 := "*" + (m + (")" + rest));
    assert t2[..1] == "*" && t2[1..] == m + (")" + rest);
    CloseParen(rest);
  }

  lemma FinishHypotText(num: NumberReader, f: Expr, n: int, m: string, rest: string)
    requires Consumes(num)
    requires num(m + (")" + rest)) == Some((n, ")" + rest))
    requires num(m + ("*" + (m + (")" + rest)))) == Some((n, "*" + (m + (")" + rest))))
    ensures Finish(num, CallHead(SqrtCall), Some((f, ("*" + Print(f) + " + ") + (m + ("*" + (m + (")" + rest)))))))
         == Some((Hypot(f, n), rest))
  {
    var u := m + ("*" + (m + (")" + rest)));
    StarNotClose(Print(f), u);
    HypotTailText(num, f, n, m, rest);
    SplitAfter("*" + Print(f) + " + ", u);
  }

  /** The text after the first copy of `f` in the `pyth` template does not close the call. */
  lemma StarNotClose(p: string, u: string)
    ensures !HasPrefix(("*" + p + " + ") + u, ")")
  {
    assert (("*" + p + " + ") + u)[0] == '*';
  }

  lemma SplitAfter(q: string, u: string)
    ensures HasPrefix(q + u, q) && (q + u)[|q|..] == u
  {
    assert (q + u)[..|q|] == q;
  }

  // How each template's text splits into its opening text, the argument's
  // text and the text after the argument.

  lemma ParenText(p: string, o: string, m: string, rest: string)
    ensures ("(" + p + " " + o + " " + m + ")") + rest == "(" + (p + (" " + o + " " + m + ")" + rest))
  {
  }

  lemma WrapText(h: string, p: string, rest: string)
    ensures (h + p + ")") + rest == h + (p + (")" + rest))
  {
  }

  lemma PowText(p: string, m: string, rest: string)
    ensures ("Math.pow(" + p + ", " + m + ")") + rest == "Math.pow(" + (p + (", " + m + ")" + rest))
  {
  }

  lemma HypotText(h: string, p: string, m: string, rest: string)
    ensures (h + p + "*" + p + " + " + m + "*" + m + ")") + rest
         == h + (p + (("*" + p + " + ") + (m + ("*" + (m + (")" + rest))))))
  {
  }

  /** A number is followed in every template by `)` or `*`, neither of which continues a numeral. */
  lemma ReadsMilliBefore(num: NumberReader, n: int, t: string)
    requires ReadsMilli(num) && t != [] && (t[0] == ')' || t[0] == '*')
    ensures num(MilliStr(n) + t) == Some((n, t))
  {
    assert EndsNumber(t);
  }

  lemma ReadsBeforeClose(num: NumberReader, n: int, rest: string)
    requires ReadsMilli(num)
    ensures num(MilliStr(n) + (")" + rest)) == Some((n, ")" + rest))
  {
    ReadsMilliBefore(num, n, ")" + rest);
  }

  lemma ReadsBeforeStar(num: NumberReader, n: int, u: string)
    requires ReadsMilli(num)
    ensures num(MilliStr(n) + ("*" + u)) == Some((n, "*" + u))
  {
    ReadsMilliBefore(num, n, "*" + u);
  }

  lemma OpTextInfix(op: ArithmeticOperator, f: Expr, n: int)
    ensures |OpText(op)| == 1 && Infix(OpText(op)[0], f, n) == Some(Arith(op, f, n))
  {
  }

  // One lemma per template: each takes the fact about the argument `f` and derives
  // the fact about the whole function.

  lemma CaseParen(num: NumberReader, e: Expr, f: Expr, o: string, n: int, m: string, rest: string)
    requires Consumes(num) && |o| == 1 && Infix(o[0], f, n) == Some(e)
    requires num(m + (")" + rest)) == Some((n, ")" + rest))
    requires ParseExpr(num, Print(f) + (" " + o + " " + m + ")" + rest))
          == Some((f, " " + o + " " + m + ")" + rest))
    ensures ParseExpr(num, ("(" + Print(f) + " " + o + " " + m + ")") + rest) == Some((e, rest))
  {
    ParenText(Print(f), o, m, rest);
    PrintStart(f);
    StepOver(num, ParenHead, f, Print(f), " " + o + " " + m + ")" + rest);
    FinishParen(num, e, f, o, n, m, rest);
  }

  lemma CaseWrap(num: NumberReader, h: Head, e: Expr, f: Expr, rest: string)
    requires Consumes(num) && (h == InverseHead || h.CallHead?)
    requires e == if h == InverseHead then Inverse(f) else Call(h.call, f)
    requires ParseExpr(num, Print(f) + (")" + rest)) == Some((f, ")" + rest))
    ensures ParseExpr(num, (HeadText(h) + Print(f) + ")") + rest) == Some((e, rest))
  {
    WrapText(HeadText(h), Print(f), rest);
    StepOver(num, h, f, Print(f), ")" + rest);
    CloseParen(rest);
  }

  lemma CasePower(num: NumberReader, f: Expr, n: int, m: string, rest: string)
    requires Consumes(num)
    requires num(m + (")" + rest)) == Some((n, ")" + rest))
    requires ParseExpr(num, Print(f) + (", " + m + ")" + rest)) == Some((f, ", " + m + ")" + rest))
    ensures ParseExpr(num, ("Math.pow(" + Print(f) + ", " + m + ")") + rest) == Some((PowerOf(f, n), rest))
  {
    PowText(Print(f), m, rest);
    StepOver(num, PowHead, f, Print(f), ", " + m + ")" + rest);
    FinishPow(num, f, n, m, rest);
  }

  lemma CaseHypot(num: NumberReader, f: Expr, n: int, m: string, rest: string)
    requires Consumes(num)
    requires num(m + (")" + rest)) == Some((n, ")" + rest))
    requires num(m + ("*" + (m + (")" + rest)))) == Some((n, "*" + (m + (")" + rest))))
    requires ParseExpr(num, Print(f) + (("*" + Print(f) + " + ") + (m + ("*" + (m + (")" + rest))))))
          == Some((f, ("*" + Print(f) + " + ") + (m + ("*" + (m + (")" + rest))))))
    ensures ParseExpr(num, (HeadText(CallHead(SqrtCall)) + Print(f) + "*" + Print(f) + " + " + m + "*" + m + ")") + rest)
         == Some((Hypot(f, n), rest))
  {
    HypotText(HeadText(CallHead(SqrtCall)), Print(f), m, rest);
    StepOver(num, CallHead(SqrtCall), f, Print(f), ("*" + Print(f) + " + ") + (m + ("*" + (m + (")" + rest)))));
    FinishHypotText(num, f, n, m, rest);
  }

  // The induction over the function, one lemma per template; each reads the
  // argument back by `ParsePrint` and then completes the template.

  lemma {:induction false} PrintParen(num: NumberReader, e: Expr, o: string, rest: string)
    requires Consumes(num) && ReadsMilli(num) && (e.Arith? || e.Remainder?)
    requires |o| == 1 && Infix(o[0], e.f, e.n) == Some(e)
    requires Print(e) == "(" + Print(e.f) + " " + o + " " + MilliStr(e.n) + ")"
    ensures ParseExpr(num, Print(e) + rest) == Some((e, rest))
    decreases e, 0
  {
    var m := MilliStr(e.n);
    ParsePrint(num, e.f, " " + o + " " + m + ")" + rest);
    ReadsBeforeClose(num, e.n, rest);
    CaseParen(num, e, e.f, o, e.n, m, rest);
  }

  lemma {:induction false} PrintWrap(num: NumberReader, h: Head, e: Expr, f: Expr, rest: string)
    requires Consumes(num) && ReadsMilli(num) && (h == InverseHead || h.CallHead?)
    requires e == if h == InverseHead then Inverse(f) else Call(h.call, f)
    ensures ParseExpr(num, Print(e) + rest) == Some((e, rest))
    decreases e, 0
  {
    ParsePrint(num, f, ")" + rest);
    CaseWrap(num, h, e, f, rest);
  }

  lemma {:induction false} PrintPower(num: NumberReader, f: Expr, n: int, rest: string)
    requires Consumes(num) && ReadsMilli(num)
    ensures ParseExpr(num, Print(PowerOf(f, n)) + rest) == Some((PowerOf(f, n), rest))
    decreases PowerOf(f, n), 0
  {
    var m := MilliStr(n);
    assert Print(PowerOf(f, n)) == "Math.pow(" + Print(f) + ", " + m + ")";
    ParsePrint(num, f, ", " + m + ")" + rest);
    ReadsBeforeClose(num, n, rest);
    CasePower(num, f, n, m, rest);
  }

  lemma {:induction false} PrintHypot(num: NumberReader, f: Expr, n: int, rest: string)
    requires Consumes(num) && ReadsMilli(num)
    ensures ParseExpr(num, Print(Hypot(f, n)) + rest) == Some((Hypot(f, n), rest))
    decreases Hypot(f, n), 0
  {
    var m := MilliStr(n);
    assert Print(Hypot(f, n)) == HeadText(CallHead(SqrtCall)) + Print(f) + "*" + Print(f) + " + " + m + "*" + m + ")";
    ParsePrint(num, f, ("*" + Print(f) + " + ") + (m + ("*" + (m + (")" + rest)))));
    ReadsBeforeClose(num, n, rest);
    ReadsBeforeStar(num, n, m + (")" + rest));
    CaseHypot(num, f, n, m, rest);
  }

  /** The reader recovers every printed function, whatever text follows it. */
  lemma {:induction false} ParsePrint(num: NumberReader, e: Expr, rest: string)
    requires Consumes(num) && ReadsMilli(num)
    ensures ParseExpr(num, Print(e) + rest) == Some((e, rest))
    decreases e, 1
  {
    match e
    case XVar => HeadOfText(XHead, rest);
    case Arith(op, f, n) =>
      OpTextInfix(op, f, n);
      PrintParen(num, e, OpText(op), rest);
    case Remainder(f, n) =>
      assert |"%"| == 1 && "%"[0] == '%';
      PrintParen(num, e, "%", rest);
    case Inverse(f) => PrintWrap(num, InverseHead, e, f, rest);
    case PowerOf(f, n) => PrintPower(num, f, n, rest);
    case Call(c, f) => PrintWrap(num, CallHead(c), e, f, rest);
    case Hypot(f, n) => PrintHypot(num, f, n, rest);
  }

  /** The stored text determines the function: reading it back gives the function that was printed. */
  lemma ParseAlgebraFunctionRoundTrip(e: Expr)
    ensures ParseAlgebraFunction(Print(e)) == Some(e)
  {
    ParseMilliReader();
    ParsePrint(ParseMilli, e, []);
    assert Print(e) + [] == Print(e);
  }

  /** Different functions are stored as different texts. */
  lemma PrintInjective(e1: Expr, e2: Expr)
    requires Print(e1) == Print(e2)
    ensures e1 == e2
  {
    ParseAlgebraFunctionRoundTrip(e1);
    ParseAlgebraFunctionRoundTrip(e2);
  }

  // ---------------------------------------------------------------------------
  // The templates the play actions write, on the stored text.

  /** The text an arithmetic card played on the algebra deck makes of the function text `f`. */
  function ArithmeticTemplate(f: string, op: ArithmeticOperator, n: int): string {
    "(" + f + " " + OpText(op) + " " + MilliStr(n) + ")"
  }

  /**
   * The text a function card played on the algebra deck makes of `f`; `second`
   * is the second card's value in thousandths when one was read. Operators
   * without a template, and the two-operand ones without a second value, keep `f`.
   */
  function FunctionTemplate(f: string, func: FunctionOperator, second: Option<int>): string {
    match func
    case Sqrt => HeadText(CallHead(SqrtCall)) + f + ")"
    case Cbrt => HeadText(CallHead(CbrtCall)) + f + ")"
    case Sin => HeadText(CallHead(SinCall)) + f + ")"
    case Cos => HeadText(CallHead(CosCall)) + f + ")"
    case Tan => HeadText(CallHead(TanCall)) + f + ")"
    case Reciprocal => HeadText(InverseHead) + f + ")"
    case Power => if second.Some? then "Math.pow(" + f + ", " + MilliStr(second.value) + ")" else f
    case Mod => if second.Some? then "(" + f + " " + "%" + " " + MilliStr(second.value) + ")" else f
    case Pyth =>
      if second.Some? then
        var m := MilliStr(second.value);
        HeadText(CallHead(SqrtCall)) + f + "*" + f + " + " + m + "*" + m + ")"
      else f
    case _ => f
  }

  /** The function tree a function card makes of `f`, the same case table as `FunctionTemplate`. */
  function FunctionStep(f: Expr, func: FunctionOperator, second: Option<int>): (r: Expr)
    ensures r == f || (!r.XVar? && r.f == f)
  {
    match func
    case Sqrt => Call(SqrtCall, f)
    case Cbrt => Call(CbrtCall, f)
    case Sin => Call(SinCall, f)
    case Cos => Call(CosCall, f)
    case Tan => Call(TanCall, f)
    case Reciprocal => Inverse(f)
    case Power => if second.Some? then PowerOf(f, second.value) else f
    case Mod => if second.Some? then Remainder(f, second.value) else f
    case Pyth => if second.Some? then Hypot(f, second.value) else f
    case _ => f
  }

  /** Which function cards rewrite the function: exactly the templated ones, the two-operand ones only with a second value. */
  predicate Templated(func: FunctionOperator, second: Option<int>) {
    func in {Sqrt, Cbrt, Sin, Cos, Tan, Reciprocal} || (func in {Power, Mod, Pyth} && second.Some?)
  }

  /** The arithmetic template on the printed text prints the arithmetic node. */
  lemma ArithmeticTemplatePrints(e: Expr, op: ArithmeticOperator, n: int)
    ensures ArithmeticTemplate(Print(e), op, n) == Print(Arith(op, e, n))
    ensures ParseAlgebraFunction(ArithmeticTemplate(Print(e), op, n)) == Some(Arith(op, e, n))
  {
    ParseAlgebraFunctionRoundTrip(Arith(op, e, n));
  }

  /** The function template on the printed text prints `FunctionStep`, so the stored text always reads back. */
  lemma FunctionTemplatePrints(e: Expr, func: FunctionOperator, second: Option<int>)
    ensures FunctionTemplate(Print(e), func, second) == Print(FunctionStep(e, func, second))
    ensures ParseAlgebraFunction(FunctionTemplate(Print(e), func, second)) == Some(FunctionStep(e, func, second))
  {
    ParseAlgebraFunctionRoundTrip(FunctionStep(e, func, second));
  }

  /** A function card changes the stored text exactly when it has a template that applies. */
  lemma FunctionTemplateChanges(e: Expr, func: FunctionOperator, second: Option<int>)
    ensures FunctionTemplate(Print(e), func, second) != Print(e) <==> Templated(func, second)
  {
    FunctionTemplatePrints(e, func, second);
    var r := FunctionStep(e, func, second);
    StepChanges(e, func, second);
    if r != e && Print(r) == Print(e) {
      PrintInjective(r, e);
    }
  }

  /** The function tree changes exactly when the card has a template that applies. */
  lemma StepChanges(e: Expr, func: FunctionOperator, second: Option<int>)
    ensures FunctionStep(e, func, second) != e <==> Templated(func, second)
  {
    var r := FunctionStep(e, func, second);
    if Templated(func, second) {
      assert !r.XVar? && r.f == e;
      NoSelfArgument(r);
    }
  }

  /** No function is its own argument. */
  lemma NoSelfArgument(r: Expr)
    requires !r.XVar?
    ensures r.f != r
  {
    assert r.f < r by {
      match r
      case Arith(_, g, _) =>
      case Call(_, g) =>
      case Inverse(g) =>
      case PowerOf(g, _) =>
      case Remainder(g, _) =>
      case Hypot(g, _) =>
    }
  }

  // ---------------------------------------------------------------------------
  // Evaluation at the grind value.

  /** A quotient truncated towards zero, as JavaScript's `%` uses it. */
  function Trunc(q: real): (t: int)
    ensures q >= 0.0 ==> t as real <= q < t as real + 1.0
    ensures q < 0.0 ==> t as real - 1.0 < q <= t as real
  {
    if q >= 0.0 then q.Floor else -((-q).Floor)
  }

  /** JavaScript's `%` on finite operands. */
  function JsRemainder(a: real, b: real): real
    requires b != 0.0
  {
    a - b * (Trunc(a / b) as real)
  }

  /**
   * The value of the function at `x`; `None` where JavaScript's result is not
   * finite: division by zero, the square root of a negative number, a negative
   * number to a fractional power, zero to a negative power, a zero remainder.
   * The trigonometric calls read their argument in radians.
   */
  function Eval(lib: MathLib, e: Expr, x: real): Option<real> {
    match e
    case XVar => Some(x)
    case Arith(op, f, n) =>
      var d := n as real / 1000.0;
      (match Eval(lib, f, x)
       case None => None
       case Some(v) => if op == Divide && d == 0.0 then None else Some(Apply(op, v, d)))
    case Call(c, f) =>
      (match Eval(lib, f, x)
       case None => None
       case Some(v) => CallValue(lib, c, v))
    case Inverse(f) =>
      (match Eval(lib, f, x)
       case None => None
       case Some(v) => if v == 0.0 then None else Some(1.0 / v))
    case PowerOf(f, n) =>
      var d := n as real / 1000.0;
      (match Eval(lib, f, x)
       case None => None
       case Some(v) => if (v < 0.0 && !IsWhole(d)) || (v == 0.0 && d < 0.0) then None else Some(lib.pow(v, d)))
    case Remainder(f, n) =>
      var d := n as real / 1000.0;
      (match Eval(lib, f, x)
       case None => None
       case Some(v) => if d == 0.0 then None else Some(JsRemainder(v, d)))
    case Hypot(f, n) =>
      var d := n as real / 1000.0;
      (match Eval(lib, f, x)
       case None => None
       case Some(v) => Some(lib.sqrt(v * v + d * d)))
  }

  /** The value of a `Math` call; the square root of a negative number is `NaN`. */
  function CallValue(lib: MathLib, c: MathCall, v: real): Option<real> {
    match c
    case SqrtCall => if v < 0.0 then None else Some(lib.sqrt(v))
    case CbrtCall => Some(lib.cbrt(v))
    case SinCall => Some(lib.sin(v))
    case CosCall => Some(lib.cos(v))
    case TanCall => Some(lib.tan(v))
  }

  /**
   * `evaluateAlgebraicExpression(text, x)`: the value rounded to thousandths,
   * `x` itself when the value is not finite, and 0 when the text is not a
   * function the templates build (the evaluation would throw).
   */
  function EvaluateAlgebraicExpression(lib: MathLib, text: string, x: real): (r: real)
    ensures ParseAlgebraFunction(text).None? ==> r == 0.0
    ensures ParseAlgebraFunction(text).Some? && Eval(lib, ParseAlgebraFunction(text).value, x).None? ==> r == x
    ensures ParseAlgebraFunction(text).Some? && Eval(lib, ParseAlgebraFunction(text).value, x).Some? ==>
              r == Round3(Eval(lib, ParseAlgebraFunction(text).value, x).value) && IsThousandths(r)
  {
    match ParseAlgebraFunction(text)
    case None => 0.0
    case Some(e) =>
      match Eval(lib, e, x)
      case None => x
      case Some(v) => Round3(v)
  }

  /** Evaluating stored text is evaluating the function it was printed from. */
  lemma EvaluatePrinted(lib: MathLib, e: Expr, x: real)
    ensures EvaluateAlgebraicExpression(lib, Print(e), x)
         == (match Eval(lib, e, x) case None => x case Some(v) => Round3(v))
  {
    ParseAlgebraFunctionRoundTrip(e);
  }

  /** A fresh algebra deck holds `x`, which gives back the grind value rounded to thousandths. */
  lemma EvaluateIdentity(lib: MathLib, x: real)
    ensures EvaluateAlgebraicExpression(lib, "x", x) == Round3(x)
  {
    assert Print(XVar) == "x";
    EvaluatePrinted(lib, XVar, x);
  }

  /**
   * An arithmetic card on `x` evaluates as the same card played on the grind
   * deck when the grind value is not zero, outside the basic tier's division.
   */
  lemma AlgebraArithmeticMatchesGrind(lib: MathLib, op: ArithmeticOperator, n: int, x: real, d: Difficulty)
    requires x != 0.0 && (op == Divide ==> n != 0 && d != BasicTier)
    ensures CalculateArithmetic(x, n as real / 1000.0, Symbol(op), d)
         == Returns(EvaluateAlgebraicExpression(lib, Print(Arith(op, XVar, n)), x))
  {
    EvaluatePrinted(lib, Arith(op, XVar, n), x);
    ArithmeticRounds(x, n as real / 1000.0, op, d);
  }

  /** On the basic tier the two decks divide differently: 7 ÷ 2 is 3 on the grind deck and 3.5 in the algebra function. */
  lemma BasicDivisionDiffers(lib: MathLib)
    ensures CalculateArithmetic(7.0, 2.0, "÷", BasicTier) == Returns(3.0)
    ensures EvaluateAlgebraicExpression(lib, Print(Arith(Divide, XVar, 2000)), 7.0) == 3.5
  {
    EvaluatePrinted(lib, Arith(Divide, XVar, 2000), 7.0);
    assert Round3(3.5) == 3.5 by { Round3OfThousandths(3.5); }
  }

  /** A zero grind value is replaced by the card on the grind deck, but multiplied in the algebra function. */
  lemma ZeroGrindValueDiffers(lib: MathLib, n: int, d: Difficulty)
    ensures CalculateArithmetic(0.0, n as real / 1000.0, "×", d) == Returns(Round3(n as real / 1000.0))
    ensures EvaluateAlgebraicExpression(lib, Print(Arith(Times, XVar, n)), 0.0) == 0.0
  {
    EvaluatePrinted(lib, Arith(Times, XVar, n), 0.0);
    Round3OfThousandths(0.0);
  }

  /** A `Math` call other than `sqrt` on `x` gives the call's value, rounded. */
  lemma CallOnVariable(lib: MathLib, c: MathCall, func: FunctionOperator, x: real)
    requires c != SqrtCall && FunctionStep(XVar, func, None) == Call(c, XVar)
    ensures EvaluateAlgebraicExpression(lib, FunctionTemplate("x", func, None), x) == Round3(CallValue(lib, c, x).value)
  {
    assert Print(XVar) == "x";
    FunctionTemplatePrints(XVar, func, None);
    EvaluatePrinted(lib, Call(c, XVar), x);
  }

  /** The algebra deck's trigonometric calls read radians, the grind deck's read degrees. */
  lemma TrigonometryInRadians(lib: MathLib, x: real)
    ensures EvaluateAlgebraicExpression(lib, FunctionTemplate("x", Sin, None), x) == Round3(lib.sin(x))
    ensures EvaluateAlgebraicExpression(lib, FunctionTemplate("x", Cos, None), x) == Round3(lib.cos(x))
    ensures EvaluateAlgebraicExpression(lib, FunctionTemplate("x", Tan, None), x) == Round3(lib.tan(x))
  {
    CallOnVariable(lib, SinCall, Sin, x);
    CallOnVariable(lib, CosCall, Cos, x);
    CallOnVariable(lib, TanCall, Tan, x);
  }
}
