/**
 * The card, move and game-state vocabulary of the game: the seven card variants,
 * the operator and tier enumerations, the move log entry, and the player and
 * game records the engine keeps.
 */
module CardTypes {
  import opened Optional

  /** The five difficulty tiers, in their order of difficulty. */
  datatype Difficulty = BasicTier | DecimalsTier | NegativeTier | FunctionsTier | AlgebraTier

  datatype GameMode = Solo | VsBot | VsPlayer

  datatype SoloGameMode = Unlimited | TimeLimited | DeckLimited | ReachScore

  datatype ArithmeticOperator = Plus | Minus | Times | Divide

  datatype FunctionOperator =
    | Sqrt | Cbrt | Sin | Cos | Tan | Reciprocal | Power | Mod | Pyth
    | Factorial | Square | Cube | Modulus | Percent | Ln | Exp

  datatype ConstantValue = Pi | E

  datatype CardType =
    | NumberType | ArithmeticType | ZeroType | NegativeType | FunctionType | ConstantType | VariableType

  /** What a card shows: exactly one of the seven variants, each with its own payload. */
  datatype Face =
    | Number(value: int)
    | Zero
    | Negative(value: int)
    | Arithmetic(op: ArithmeticOperator)
    | Function(fn: FunctionOperator)
    | Constant(constant: ConstantValue)
    | Variable

  type CardId = nat

  /** A card is its unique id and its face; identity is by id, never by face. */
  datatype Card = Card(id: CardId, face: Face)

  datatype MoveType = NumberMove | ArithmeticMove | FunctionMove | ConstantMove | VariableMove

  /** A move log entry; its description string is not modelled. */
  datatype Move = Move(id: nat, moveType: MoveType, timestamp: int, cards: seq<Card>, resultValue: Option<real>)

  datatype TargetDeck = Grind | AlgebraDeck | Opponent

  datatype EndReason = TimeUp | DeckFinished | ScoreReached

  function TypeOf(f: Face): CardType {
    match f
    case Number(_) => NumberType
    case Zero => ZeroType
    case Negative(_) => NegativeType
    case Arithmetic(_) => ArithmeticType
    case Function(_) => FunctionType
    case Constant(_) => ConstantType
    case Variable => VariableType
  }

  /** The card types the engine accepts where a number is expected. */
  predicate IsNumberLike(f: Face) {
    TypeOf(f) in {NumberType, ZeroType, NegativeType, ConstantType}
  }

  /** The `value` field of a number, zero or negative card; a zero card's is the literal 0. */
  function NumericPayload(f: Face): (v: int)
    requires f.Number? || f.Zero? || f.Negative?
    ensures f.Zero? ==> v == 0
    ensures !f.Zero? ==> v == f.value
  {
    match f
    case Number(n) => n
    case Zero => 0
    case Negative(n) => n
  }

  /** The string literal of each arithmetic operator. */
  function Symbol(op: ArithmeticOperator): string {
    match op
    case Plus => "+"
    case Minus => "-"
    case Times => "×"
    case Divide => "÷"
  }

  /** Reads an operator literal back; exactly the four literals are operators. */
  function OperatorOfSymbol(s: string): (r: Option<ArithmeticOperator>)
    ensures r.Some? <==> s in {"+", "-", "×", "÷"}
    ensures r.Some? ==> Symbol(r.value) == s
  {
    if s == "+" then Some(Plus)
    else if s == "-" then Some(Minus)
    else if s == "×" then Some(Times)
    else if s == "÷" then Some(Divide)
    else None
  }

  lemma SymbolRoundTrip(op: ArithmeticOperator)
    ensures OperatorOfSymbol(Symbol(op)) == Some(op)
  {
  }

  function ConstantSymbol(c: ConstantValue): string {
    match c
    case Pi => "π"
    case E => "e"
  }

  /** Every arithmetic operator, once each. */
  function AllArithmeticOperators(): (r: seq<ArithmeticOperator>)
    ensures |r| == 4
  {
    [Plus, Minus, Times, Divide]
  }

  lemma ArithmeticOperatorListed(op: ArithmeticOperator)
    ensures op in AllArithmeticOperators()
  {
    var r := AllArithmeticOperators();
    match op
    case Plus => assert r[0] == op;
    case Minus => assert r[1] == op;
    case Times => assert r[2] == op;
    case Divide => assert r[3] == op;
  }

  /** Every function operator of the type, once each; `modulus` is one of them. */
  function AllFunctionOperators(): (r: seq<FunctionOperator>)
    ensures |r| == 16
    ensures forall i, j :: 0 <= i < j < |r| ==> r[i] != r[j]
    ensures Modulus in r
  {
    [Sqrt, Cbrt, Sin, Cos, Tan, Reciprocal, Power, Mod, Pyth, Factorial, Square, Cube, Modulus, Percent, Ln, Exp]
  }

  /** Every function operator is in the list. */
  lemma FunctionOperatorListed(fn: FunctionOperator)
    ensures fn in AllFunctionOperators()
  {
    var r := AllFunctionOperators();
    match fn
    case Sqrt => assert r[0] == fn;
    case Cbrt => assert r[1] == fn;
    case Sin => assert r[2] == fn;
    case Cos => assert r[3] == fn;
    case Tan => assert r[4] == fn;
    case Reciprocal => assert r[5] == fn;
    case Power => assert r[6] == fn;
    case Mod => assert r[7] == fn;
    case Pyth => assert r[8] == fn;
    case Factorial => assert r[9] == fn;
    case Square => assert r[10] == fn;
    case Cube => assert r[11] == fn;
    case Modulus => assert r[12] == fn;
    case Percent => assert r[13] == fn;
    case Ln => assert r[14] == fn;
    case Exp => assert r[15] == fn;
  }

  /** The identity-free part of a sequence of cards. */
  function Faces(s: seq<Card>): (r: seq<Face>)
    ensures |r| == |s|
  {
    seq(|s|, i requires 0 <= i < |s| => s[i].face)
  }

  /** The first card of `s` with the given id (`Array.prototype.find`). */
  function FindById(s: seq<Card>, id: CardId): (r: Option<Card>)
    ensures r.Some? ==> r.value in s && r.value.id == id
    ensures r.None? <==> forall c :: c in s ==> c.id != id
    ensures r.Some? ==> exists i :: 0 <= i < |s| && s[i] == r.value && forall j :: 0 <= j < i ==> s[j].id != id
  {
    if s == [] then None else if s[0].id == id then Some(s[0]) else FindById(s[1..], id)
  }

  /** `s.filter(c => c.id !== id)`. */
  function RemoveId(s: seq<Card>, id: CardId): (r: seq<Card>)
    ensures |r| <= |s|
    ensures forall c :: c in r <==> c in s && c.id != id
    ensures (exists c :: c in s && c.id == id) ==> |r| < |s|
  {
    if s == [] then []
    else if s[0].id == id then RemoveId(s[1..], id)
    else [s[0]] + RemoveId(s[1..], id)
  }

  /** Filtering a concatenation filters each part, so the cards kept stay in their order. */
  lemma {:induction false} RemoveIdAppend(s: seq<Card>, t: seq<Card>, id: CardId)
    ensures RemoveId(s + t, id) == RemoveId(s, id) + RemoveId(t, id)
  {
    if s == [] {
      assert s + t == t;
    } else {
      assert (s + t)[1..] == s[1..] + t;
      RemoveIdAppend(s[1..], t, id);
    }
  }

  /** No two cards share an id, as fresh uuids guarantee. */
  predicate UniqueIds(s: seq<Card>) {
    forall i, j :: 0 <= i < j < |s| ==> s[i].id != s[j].id
  }

  /** Filtering out an id no card carries keeps the sequence. */
  lemma {:induction false} RemoveAbsent(s: seq<Card>, id: CardId)
    requires forall c :: c in s ==> c.id != id
    ensures RemoveId(s, id) == s
  {
    if s != [] {
      RemoveAbsent(s[1..], id);
    }
  }

  /** The tail of a sequence with unique ids has unique ids, none of them the head's. */
  lemma UniqueTail(s: seq<Card>)
    requires UniqueIds(s) && s != []
    ensures UniqueIds(s[1..])
    ensures forall d :: d in s[1..] ==> d.id != s[0].id
  {
    forall i, j | 0 <= i < j < |s[1..]| ensures s[1..][i].id != s[1..][j].id {
      assert s[1..][i] == s[i + 1] && s[1..][j] == s[j + 1];
    }
    forall d | d in s[1..] ensures d.id != s[0].id {
      var j :| 0 <= j < |s[1..]| && s[1..][j] == d;
      assert s[j + 1] == d;
    }
  }

  /** Filtering keeps ids unique. */
  lemma {:induction false} RemoveKeepsUnique(s: seq<Card>, id: CardId)
    requires UniqueIds(s)
    ensures UniqueIds(RemoveId(s, id))
  {
    if s != [] {
      UniqueTail(s);
      RemoveKeepsUnique(s[1..], id);
      if s[0].id != id {
        assert RemoveId(s, id) == [s[0]] + RemoveId(s[1..], id);
      }
    }
  }

  /** With unique ids, filtering out a card's id takes exactly that card out. */
  lemma {:induction false} RemoveOne(s: seq<Card>, c: Card)
    requires UniqueIds(s) && c in s
    ensures multiset(RemoveId(s, c.id)) + multiset{c} == multiset(s)
    ensures UniqueIds(RemoveId(s, c.id))
  {
    RemoveKeepsUnique(s, c.id);
    UniqueTail(s);
    assert s == [s[0]] + s[1..];
    if s[0] == c {
      RemoveAbsent(s[1..], c.id);
    } else {
      assert c in s[1..];
      RemoveOne(s[1..], c);
      assert RemoveId(s, c.id) == [s[0]] + RemoveId(s[1..], c.id);
    }
  }
}
