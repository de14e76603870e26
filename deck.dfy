/**
 * Deck generation: the two fixed card lists the engine builds per tier, the
 * Fisher-Yates shuffle that permutes them, and drawing from the top of a deck.
 * Randomness is a function `rand` from draw numbers to values in [0, 1) and a
 * cursor counting the draws made so far; uuids are consecutive fresh ids.
 */
module Decks {
  import opened CardTypes

  /** `Math.floor(r * k)`: a choice among `k` positions; clamped so that it is one for every `r`. */
  function Pick(r: real, k: nat): (j: nat)
    requires k > 0
    ensures j < k
  {
    var f := (r * k as real).Floor;
    if 0 <= f < k then f else 0
  }

  /** For a draw in [0, 1) the choice is exactly `Math.floor(r * k)`. */
  lemma PickIsFloor(r: real, k: nat)
    requires k > 0 && 0.0 <= r < 1.0
    ensures Pick(r, k) == (r * k as real).Floor
  {
    assert 0.0 <= r * k as real < k as real by {
      assert r * k as real < 1.0 * k as real;
    }
  }

  // ---------------------------------------------------------------------------
  // Fisher-Yates

  /** The destructuring swap `[a[i], a[j]] = [a[j], a[i]]` on a sequence. */
  function Swap<T>(s: seq<T>, i: nat, j: nat): (r: seq<T>)
    requires i < |s| && j < |s|
    ensures |r| == |s| && r[i] == s[j] && r[j] == s[i]
    ensures forall m :: 0 <= m < |s| && m != i && m != j ==> r[m] == s[m]
  {
    s[i := s[j]][j := s[i]]
  }

  /** The swaps of positions `i`, `i - 1`, ..., 1, each with a position chosen by the next draw. */
  function ShuffleFrom<T>(s: seq<T>, i: nat, rand: nat -> real, k: nat): (r: seq<T>)
    requires i < |s|
    decreases i
  {
    if i == 0 then s else ShuffleFrom(Swap(s, i, Pick(rand(k), i + 1)), i - 1, rand, k + 1)
  }

  /** `shuffleArray`: Fisher-Yates from the last position down, starting at draw `k`. */
  function Shuffle<T>(s: seq<T>, rand: nat -> real, k: nat): seq<T> {
    if |s| == 0 then s else ShuffleFrom(s, |s| - 1, rand, k)
  }

  /** How many draws a shuffle of `n` elements makes. */
  function ShuffleDraws(n: nat): nat { if n == 0 then 0 else n - 1 }

  lemma {:induction false} ShuffleFromPermutes<T>(s: seq<T>, i: nat, rand: nat -> real, k: nat)
    requires i < |s|
    ensures |ShuffleFrom(s, i, rand, k)| == |s|
    ensures multiset(ShuffleFrom(s, i, rand, k)) == multiset(s)
    decreases i
  {
    if i > 0 {
      ShuffleFromPermutes(Swap(s, i, Pick(rand(k), i + 1)), i - 1, rand, k + 1);
    }
  }

  /** Shuffling only reorders: the result is a permutation of the input. */
  lemma ShufflePermutes<T>(s: seq<T>, rand: nat -> real, k: nat)
    ensures |Shuffle(s, rand, k)| == |s|
    ensures multiset(Shuffle(s, rand, k)) == multiset(s)
  {
    if |s| > 0 {
      ShuffleFromPermutes(s, |s| - 1, rand, k);
    }
  }

  /** `shuffleArray` on a copy of the input, swapping array cells in place. */
  method ShuffleArray<T>(s: seq<T>, rand: nat -> real, k: nat) returns (r: seq<T>, k': nat)
    ensures r == Shuffle(s, rand, k)
    ensures k' == k + ShuffleDraws(|s|)
  {
    if |s| == 0 {
      return s, k;
    }
    var a := new T[|s|](i requires 0 <= i < |s| => s[i]);
    assert a[..] == s;
    var i := a.Length - 1;
    k' := k;
    while i > 0
      invariant 0 <= i < a.Length
      invariant k' == k + (|s| - 1 - i)
      invariant ShuffleFrom(a[..], i, rand, k') == Shuffle(s, rand, k)
      decreases i
    {
      var j := Pick(rand(k'), i + 1);
      ghost var before := a[..];
      a[i], a[j] := a[j], a[i];
      assert a[..] == Swap(before, i, j);
      i := i - 1;
      k' := k' + 1;
    }
    r := a[..];
  }

  // ---------------------------------------------------------------------------
  // The face lists.

  /** `c` copies of each face of `xs`, in order: one pass of the nested push loops. */
  function EachCopied(xs: seq<Face>, c: nat): (r: seq<Face>)
    ensures |r| == |xs| * c
  {
    if xs == [] then [] else EachCopied(xs[..|xs| - 1], c) + seq(c, _ => xs[|xs| - 1])
  }

  /** A face occurs among the copies exactly when it is in the list and the copy count is positive. */
  lemma {:induction false} InEachCopied(xs: seq<Face>, c: nat, f: Face)
    ensures f in EachCopied(xs, c) <==> c > 0 && f in xs
  {
    if xs != [] {
      var ys := xs[..|xs| - 1];
      InEachCopied(ys, c, f);
      assert xs == ys + [xs[|xs| - 1]];
      assert f in seq(c, _ => xs[|xs| - 1]) <==> c > 0 && f == xs[|xs| - 1] by {
        if c > 0 && f == xs[|xs| - 1] {
          assert seq(c, _ => xs[|xs| - 1])[0] == f;
        }
      }
    }
  }

  /** One block of the push order: every face of `faces`, `copies` times in a row. */
  datatype Block = Block(faces: seq<Face>, copies: nat)

  /** The faces a sequence of blocks pushes, in push order. */
  function Expand(bs: seq<Block>): seq<Face> {
    if bs == [] then [] else Expand(bs[..|bs| - 1]) + EachCopied(bs[|bs| - 1].faces, bs[|bs| - 1].copies)
  }

  function Digits(): (r: seq<Face>)
    ensures |r| == 9
  {
    seq(9, i => Number(i + 1))
  }

  function NegativeDigits(): (r: seq<Face>)
    ensures |r| == 9
  {
    seq(9, i => Negative(-(i + 1)))
  }

  function ArithmeticFaces(): (r: seq<Face>)
    ensures |r| == 4
  {
    [Arithmetic(Plus), Arithmetic(Minus), Arithmetic(Times), Arithmetic(Divide)]
  }

  /** `functionOps` of the initial deck: twelve operators, without `x^y`, `!` and `exp`. */
  function InitialFunctionFaces(): (r: seq<Face>)
    ensures |r| == 12
  {
    [Function(Sqrt), Function(Cbrt), Function(Sin), Function(Cos), Function(Tan), Function(Reciprocal),
     Function(Mod), Function(Pyth), Function(Square), Function(Cube), Function(Ln), Function(Percent)]
  }

  /** `functionOps` of a regenerated deck, and the synthesized function cards' choices: fifteen operators. */
  function DeckFunctionFaces(): (r: seq<Face>)
    ensures |r| == 15
  {
    [Function(Sqrt), Function(Cbrt), Function(Sin), Function(Cos), Function(Tan), Function(Reciprocal),
     Function(Power), Function(Mod), Function(Pyth), Function(Factorial), Function(Square), Function(Cube),
     Function(Ln), Function(Percent), Function(Exp)]
  }

  function ConstantFaces(): (r: seq<Face>)
    ensures |r| == 2
  {
    [Constant(Pi), Constant(E)]
  }

  /** A block that the tier may leave out. */
  function OptionalBlock(present: bool, b: Block): seq<Block> { if present then [b] else [] }

  /** The blocks every tier pushes first: the numbers and the operators `c` times each, then one zero. */
  function BasicBlocks(c: nat): seq<Block> {
    [Block(Digits(), c), Block(ArithmeticFaces(), c), Block([Zero], 1)]
  }

  predicate HasNegatives(d: Difficulty) { d in {NegativeTier, FunctionsTier, AlgebraTier} }
  predicate HasFunctions(d: Difficulty) { d in {FunctionsTier, AlgebraTier} }
  predicate HasConstants(d: Difficulty) { d != BasicTier }

  /**
   * The push order of the initial deck: numbers 1-9 three times, each operator
   * three times, one zero, then by tier negatives -1..-9 twice, the twelve
   * `functionOps` twice each and then once more each, and the two constants.
   */
  function InitialDeckBlocks(d: Difficulty): seq<Block> {
    BasicBlocks(3)
    + OptionalBlock(HasNegatives(d), Block(NegativeDigits(), 2))
    + OptionalBlock(HasFunctions(d), Block(InitialFunctionFaces(), 2))
    + OptionalBlock(HasFunctions(d), Block(InitialFunctionFaces(), 1))
    + OptionalBlock(HasConstants(d), Block(ConstantFaces(), 1))
  }

  /**
   * The push order of a regenerated deck: numbers twice, operators twice, one
   * zero, then by tier negatives once, the fifteen operators once, the constants.
   */
  function DeckBlocks(d: Difficulty): seq<Block> {
    BasicBlocks(2)
    + OptionalBlock(HasNegatives(d), Block(NegativeDigits(), 1))
    + OptionalBlock(HasFunctions(d), Block(DeckFunctionFaces(), 1))
    + OptionalBlock(HasConstants(d), Block(ConstantFaces(), 1))
  }

  /** The faces of the initial deck, in push order. */
  function InitialDeckFaces(d: Difficulty): seq<Face> {
    EachCopied(Digits(), 3) + EachCopied(ArithmeticFaces(), 3) + EachCopied([Zero], 1)
    + (if HasNegatives(d) then EachCopied(NegativeDigits(), 2) else [])
    + (if HasFunctions(d) then EachCopied(InitialFunctionFaces(), 2) else [])
    + (if HasFunctions(d) then EachCopied(InitialFunctionFaces(), 1) else [])
    + (if HasConstants(d) then EachCopied(ConstantFaces(), 1) else [])
  }

  /** The faces of a regenerated deck, in push order. */
  function DeckFaces(d: Difficulty): seq<Face> {
    EachCopied(Digits(), 2) + EachCopied(ArithmeticFaces(), 2) + EachCopied([Zero], 1)
    + (if HasNegatives(d) then EachCopied(NegativeDigits(), 1) else [])
    + (if HasFunctions(d) then EachCopied(DeckFunctionFaces(), 1) else [])
    + (if HasConstants(d) then EachCopied(ConstantFaces(), 1) else [])
  }

  /** Fresh cards for `faces`, numbered from `start` in push order. */
  function Numbered(faces: seq<Face>, start: nat): (r: seq<Card>)
    ensures |r| == |faces|
    ensures forall i :: 0 <= i < |r| ==> r[i] == Card(start + i, faces[i])
  {
    seq(|faces|, i requires 0 <= i < |faces| => Card(start + i, faces[i]))
  }

  lemma NumberedAppend(f: seq<Face>, g: seq<Face>, start: nat)
    ensures Numbered(f + g, start) == Numbered(f, start) + Numbered(g, start + |f|)
  {
  }

  lemma FacesOfNumbered(f: seq<Face>, start: nat)
    ensures Faces(Numbered(f, start)) == f
  {
  }

  // ---------------------------------------------------------------------------
  // The generators.

  /** The inner push loop: `c` fresh copies of one face. */
  method PushCopies(deck: seq<Card>, x: Face, c: nat, next: nat) returns (deck': seq<Card>)
    ensures deck' == deck + Numbered(seq(c, _ => x), next)
  {
    deck' := deck;
    var j := 0;
    while j < c
      invariant 0 <= j <= c
      invariant deck' == deck + Numbered(seq(j, _ => x), next)
    {
      NumberedAppend(seq(j, _ => x), [x], next);
      assert seq(j + 1, _ => x) == seq(j, _ => x) + [x];
      deck' := deck' + [Card(next + j, x)];
      j := j + 1;
    }
  }

  /** The nested loops of one block: for each face of `xs`, push `c` fresh copies. */
  method PushEachCopied(deck: seq<Card>, xs: seq<Face>, c: nat, next: nat) returns (deck': seq<Card>, next': nat)
    ensures deck' == deck + Numbered(EachCopied(xs, c), next)
    ensures next' == next + |xs| * c
  {
    deck', next' := deck, next;
    var i := 0;
    while i < |xs|
      invariant 0 <= i <= |xs|
      invariant deck' == deck + Numbered(EachCopied(xs[..i], c), next)
      invariant next' == next + i * c
    {
      deck' := PushCopies(deck', xs[i], c, next');
      assert xs[..i + 1][..i] == xs[..i];
      assert EachCopied(xs[..i + 1], c) == EachCopied(xs[..i], c) + seq(c, _ => xs[i]);
      NumberedAppend(EachCopied(xs[..i], c), seq(c, _ => xs[i]), next);
      assert (i + 1) * c == i * c + c;
      next' := next' + c;
      i := i + 1;
    }
    assert xs[..i] == xs;
  }

  /** Pushes the blocks one after the other, with fresh consecutive ids. */
  method PushBlocks(bs: seq<Block>, next: nat) returns (deck: seq<Card>, next': nat)
    ensures deck == Numbered(Expand(bs), next)
    ensures next' == next + |Expand(bs)|
  {
    deck, next' := [], next;
    var i := 0;
    while i < |bs|
      invariant 0 <= i <= |bs|
      invariant deck == Numbered(Expand(bs[..i]), next)
      invariant next' == next + |Expand(bs[..i])|
    {
      assert bs[..i + 1][..i] == bs[..i];
      NumberedAppend(Expand(bs[..i]), EachCopied(bs[i].faces, bs[i].copies), next);
      deck, next' := PushEachCopied(deck, bs[i].faces, bs[i].copies, next');
      i := i + 1;
    }
    assert bs[..i] == bs;
  }

  /** `generateInitialDeck`: the fixed list for the tier with fresh ids, then shuffled. */
  method GenerateInitialDeck(d: Difficulty, next: nat, rand: nat -> real, k: nat)
    returns (deck: seq<Card>, next': nat, k': nat)
    ensures deck == Shuffle(Numbered(InitialDeckFaces(d), next), rand, k)
    ensures next' == next + |InitialDeckFaces(d)|
    ensures k' == k + ShuffleDraws(|InitialDeckFaces(d)|)
  {
    var cards;
    cards, next' := PushBlocks(InitialDeckBlocks(d), next);
    InitialDeckPushOrder(d);
    deck, k' := ShuffleArray(cards, rand, k);
  }

  /** `generateDeck`: the smaller list for the tier with fresh ids, then shuffled. */
  method GenerateDeck(d: Difficulty, next: nat, rand: nat -> real, k: nat)
    returns (deck: seq<Card>, next': nat, k': nat)
    ensures deck == Shuffle(Numbered(DeckFaces(d), next), rand, k)
    ensures next' == next + |DeckFaces(d)|
    ensures k' == k + ShuffleDraws(|DeckFaces(d)|)
  {
    var cards;
    cards, next' := PushBlocks(DeckBlocks(d), next);
    DeckPushOrder(d);
    deck, k' := ShuffleArray(cards, rand, k);
  }

  // ---------------------------------------------------------------------------
  // Properties of the lists.

  /** The number of faces of a card type. */
  function CountType(faces: seq<Face>, t: CardType): (n: nat)
    ensures n <= |faces|
  {
    if faces == [] then 0
    else CountType(faces[..|faces| - 1], t) + (if TypeOf(faces[|faces| - 1]) == t then 1 else 0)
  }

  lemma {:induction false} CountTypeAppend(f: seq<Face>, g: seq<Face>, t: CardType)
    ensures CountType(f + g, t) == CountType(f, t) + CountType(g, t)
    decreases |g|
  {
    if g == [] {
      assert f + g == f;
    } else {
      var g' := g[..|g| - 1];
      assert (f + g)[..|f + g| - 1] == f + g';
      assert (f + g)[|f + g| - 1] == g[|g| - 1];
      CountTypeAppend(f, g', t);
    }
  }

  /** The counts of all seven types add up to the length. */
  lemma {:induction false} CountsCover(faces: seq<Face>)
    ensures CountType(faces, NumberType) + CountType(faces, ZeroType) + CountType(faces, NegativeType)
          + CountType(faces, ArithmeticType) + CountType(faces, FunctionType) + CountType(faces, ConstantType)
          + CountType(faces, VariableType) == |faces|
  {
    if faces != [] {
      CountsCover(faces[..|faces| - 1]);
    }
  }

  /** A list in which every face has type `u` counts all of its faces for `u` and none for another type. */
  lemma {:induction false} CountUniform(faces: seq<Face>, u: CardType, t: CardType)
    requires forall i :: 0 <= i < |faces| ==> TypeOf(faces[i]) == u
    ensures CountType(faces, t) == if t == u then |faces| else 0
  {
    if faces != [] {
      CountUniform(faces[..|faces| - 1], u, t);
    }
  }

  /** The copies of a list hold `c` times as many faces of each type. */
  lemma {:induction false} CountEachCopied(xs: seq<Face>, c: nat, t: CardType)
    ensures CountType(EachCopied(xs, c), t) == c * CountType(xs, t)
  {
    if xs != [] {
      var x := xs[|xs| - 1];
      var xs' := xs[..|xs| - 1];
      var one := if TypeOf(x) == t then 1 else 0;
      CountEachCopied(xs', c, t);
      CountTypeAppend(EachCopied(xs', c), seq(c, _ => x), t);
      CountUniform(seq(c, _ => x), TypeOf(x), t);
      assert CountType(xs, t) == CountType(xs', t) + one;
      Distribute(c, CountType(xs', t), one);
    }
  }

  lemma Distribute(c: nat, a: nat, b: nat)
    ensures c * (a + b) == c * a + c * b
  {
  }

  /** The count over seven consecutive parts. */
  lemma CountSeven(a0: seq<Face>, a1: seq<Face>, a2: seq<Face>, a3: seq<Face>, a4: seq<Face>, a5: seq<Face>, a6: seq<Face>, t: CardType)
    ensures CountType(a0 + a1 + a2 + a3 + a4 + a5 + a6, t)
         == CountType(a0, t) + CountType(a1, t) + CountType(a2, t) + CountType(a3, t)
          + CountType(a4, t) + CountType(a5, t) + CountType(a6, t)
  {
    CountTypeAppend(a0, a1, t);
    CountTypeAppend(a0 + a1, a2, t);
    CountTypeAppend(a0 + a1 + a2, a3, t);
    CountTypeAppend(a0 + a1 + a2 + a3, a4, t);
    CountTypeAppend(a0 + a1 + a2 + a3 + a4, a5, t);
    CountTypeAppend(a0 + a1 + a2 + a3 + a4 + a5, a6, t);
  }

  /** The full list of each face list's types. */
  lemma ListCounts(t: CardType)
    ensures CountType(Digits(), t) == if t == NumberType then 9 else 0
    ensures CountType(NegativeDigits(), t) == if t == NegativeType then 9 else 0
    ensures CountType(ArithmeticFaces(), t) == if t == ArithmeticType then 4 else 0
    ensures CountType(InitialFunctionFaces(), t) == if t == FunctionType then 12 else 0
    ensures CountType(DeckFunctionFaces(), t) == if t == FunctionType then 15 else 0
    ensures CountType(ConstantFaces(), t) == if t == ConstantType then 2 else 0
    ensures CountType([Zero], t) == if t == ZeroType then 1 else 0
  {
    CountUniform(Digits(), NumberType, t);
    CountUniform(NegativeDigits(), NegativeType, t);
    CountUniform(ArithmeticFaces(), ArithmeticType, t);
    CountUniform(InitialFunctionFaces(), FunctionType, t);
    CountUniform(DeckFunctionFaces(), FunctionType, t);
    CountUniform(ConstantFaces(), ConstantType, t);
    CountUniform([Zero], ZeroType, t);
  }

  /** The initial deck's count of a type, block by block. */
  lemma InitialDeckCountSum(d: Difficulty, t: CardType)
    ensures CountType(InitialDeckFaces(d), t)
         == 3 * CountType(Digits(), t) + 3 * CountType(ArithmeticFaces(), t) + CountType([Zero], t)
          + (if HasNegatives(d) then 2 * CountType(NegativeDigits(), t) else 0)
          + (if HasFunctions(d) then 2 * CountType(InitialFunctionFaces(), t) else 0)
          + (if HasFunctions(d) then CountType(InitialFunctionFaces(), t) else 0)
          + (if HasConstants(d) then CountType(ConstantFaces(), t) else 0)
  {
    var a3 := if HasNegatives(d) then EachCopied(NegativeDigits(), 2) else [];
    var a4 := if HasFunctions(d) then EachCopied(InitialFunctionFaces(), 2) else [];
    var a5 := if HasFunctions(d) then EachCopied(InitialFunctionFaces(), 1) else [];
    var a6 := if HasConstants(d) then EachCopied(ConstantFaces(), 1) else [];
    assert InitialDeckFaces(d) == EachCopied(Digits(), 3) + EachCopied(ArithmeticFaces(), 3) + EachCopied([Zero], 1) + a3 + a4 + a5 + a6;
    CountSeven(EachCopied(Digits(), 3), EachCopied(ArithmeticFaces(), 3), EachCopied([Zero], 1), a3, a4, a5, a6, t);
    CountEachCopied(Digits(), 3, t);
    CountEachCopied(ArithmeticFaces(), 3, t);
    CountEachCopied([Zero], 1, t);
    CountEachCopied(NegativeDigits(), 2, t);
    CountEachCopied(InitialFunctionFaces(), 2, t);
    CountEachCopied(InitialFunctionFaces(), 1, t);
    CountEachCopied(ConstantFaces(), 1, t);
  }

  /** A regenerated deck's count of a type, block by block. */
  lemma DeckCountSum(d: Difficulty, t: CardType)
    ensures CountType(DeckFaces(d), t)
         == 2 * CountType(Digits(), t) + 2 * CountType(ArithmeticFaces(), t) + CountType([Zero], t)
          + (if HasNegatives(d) then CountType(NegativeDigits(), t) else 0)
          + (if HasFunctions(d) then CountType(DeckFunctionFaces(), t) else 0)
          + (if HasConstants(d) then CountType(ConstantFaces(), t) else 0)
  {
    var a3 := if HasNegatives(d) then EachCopied(NegativeDigits(), 1) else [];
    var a4 := if HasFunctions(d) then EachCopied(DeckFunctionFaces(), 1) else [];
    var a5 := if HasConstants(d) then EachCopied(ConstantFaces(), 1) else [];
    assert DeckFaces(d) == EachCopied(Digits(), 2) + EachCopied(ArithmeticFaces(), 2) + EachCopied([Zero], 1) + a3 + a4 + a5 + [];
    CountSeven(EachCopied(Digits(), 2), EachCopied(ArithmeticFaces(), 2), EachCopied([Zero], 1), a3, a4, a5, [], t);
    CountEachCopied(Digits(), 2, t);
    CountEachCopied(ArithmeticFaces(), 2, t);
    CountEachCopied([Zero], 1, t);
    CountEachCopied(NegativeDigits(), 1, t);
    CountEachCopied(DeckFunctionFaces(), 1, t);
    CountEachCopied(ConstantFaces(), 1, t);
  }

  /** The initial deck holds 27 numbers, 12 operators, one zero, 18 negatives, 36 functions and 2 constants, as its tier has them. */
  lemma InitialDeckCounts(d: Difficulty, t: CardType)
    ensures CountType(InitialDeckFaces(d), t) == match t
      case NumberType => 27
      case ArithmeticType => 12
      case ZeroType => 1
      case NegativeType => if HasNegatives(d) then 18 else 0
      case FunctionType => if HasFunctions(d) then 36 else 0
      case ConstantType => if HasConstants(d) then 2 else 0
      case VariableType => 0
  {
    InitialDeckCountSum(d, t);
    match t
    case NumberType => ListCounts(NumberType);
    case ArithmeticType => ListCounts(ArithmeticType);
    case ZeroType => ListCounts(ZeroType);
    case NegativeType => ListCounts(NegativeType);
    case FunctionType => ListCounts(FunctionType);
    case ConstantType => ListCounts(ConstantType);
    case VariableType => ListCounts(VariableType);
  }

  /** A regenerated deck holds 18 numbers, 8 operators, one zero, 9 negatives, 15 functions and 2 constants, as its tier has them. */
  lemma DeckCounts(d: Difficulty, t: CardType)
    ensures CountType(DeckFaces(d), t) == match t
      case NumberType => 18
      case ArithmeticType => 8
      case ZeroType => 1
      case NegativeType => if HasNegatives(d) then 9 else 0
      case FunctionType => if HasFunctions(d) then 15 else 0
      case ConstantType => if HasConstants(d) then 2 else 0
      case VariableType => 0
  {
    DeckCountSum(d, t);
    match t
    case NumberType => ListCounts(NumberType);
    case ArithmeticType => ListCounts(ArithmeticType);
    case ZeroType => ListCounts(ZeroType);
    case NegativeType => ListCounts(NegativeType);
    case FunctionType => ListCounts(FunctionType);
    case ConstantType => ListCounts(ConstantType);
    case VariableType => ListCounts(VariableType);
  }

  /** The initial deck holds 40, 42, 60, 96 and 96 cards on the five tiers. */
  lemma InitialDeckSize(d: Difficulty)
    ensures |InitialDeckFaces(d)| == match d
      case BasicTier => 40 case DecimalsTier => 42 case NegativeTier => 60
      case FunctionsTier => 96 case AlgebraTier => 96
  {
    CountsCover(InitialDeckFaces(d));
    InitialDeckCounts(d, NumberType);
    InitialDeckCounts(d, ZeroType);
    InitialDeckCounts(d, NegativeType);
    InitialDeckCounts(d, ArithmeticType);
    InitialDeckCounts(d, FunctionType);
    InitialDeckCounts(d, ConstantType);
    InitialDeckCounts(d, VariableType);
  }

  /** A regenerated deck holds 27, 29, 38, 53 and 53 cards on the five tiers. */
  lemma DeckSize(d: Difficulty)
    ensures |DeckFaces(d)| == match d
      case BasicTier => 27 case DecimalsTier => 29 case NegativeTier => 38
      case FunctionsTier => 53 case AlgebraTier => 53
  {
    CountsCover(DeckFaces(d));
    DeckCounts(d, NumberType);
    DeckCounts(d, ZeroType);
    DeckCounts(d, NegativeType);
    DeckCounts(d, ArithmeticType);
    DeckCounts(d, FunctionType);
    DeckCounts(d, ConstantType);
    DeckCounts(d, VariableType);
  }

  /** `x^y`, `!` and `exp` never appear in the initial deck, because its second function loop repeats `functionOps`. */
  lemma InitialDeckLacksHardFunctions(d: Difficulty, f: Face)
    requires f in InitialDeckFaces(d)
    ensures f != Function(Power) && f != Function(Factorial) && f != Function(Exp)
  {
    if f in EachCopied(Digits(), 3) {
      InEachCopied(Digits(), 3, f);
    } else if f in EachCopied(ArithmeticFaces(), 3) {
      InEachCopied(ArithmeticFaces(), 3, f);
    } else if f in EachCopied([Zero], 1) {
      InEachCopied([Zero], 1, f);
    } else if f in EachCopied(NegativeDigits(), 2) {
      InEachCopied(NegativeDigits(), 2, f);
    } else if f in EachCopied(InitialFunctionFaces(), 2) {
      InEachCopied(InitialFunctionFaces(), 2, f);
      InitialFunctionsAreEasy(f);
    } else if f in EachCopied(InitialFunctionFaces(), 1) {
      InEachCopied(InitialFunctionFaces(), 1, f);
      InitialFunctionsAreEasy(f);
    } else {
      InEachCopied(ConstantFaces(), 1, f);
    }
  }

  lemma InitialFunctionsAreEasy(f: Face)
    requires f in InitialFunctionFaces()
    ensures f != Function(Power) && f != Function(Factorial) && f != Function(Exp)
  {
  }

  /** Pushing the initial deck's blocks pushes its faces. */
  lemma InitialDeckPushOrder(d: Difficulty)
    ensures Expand(InitialDeckBlocks(d)) == InitialDeckFaces(d)
  {
    InitialDeckBlocksSplit(d);
    ExpandBasic(3);
    ExpandOptional(HasNegatives(d), Block(NegativeDigits(), 2));
    ExpandOptional(HasFunctions(d), Block(InitialFunctionFaces(), 2));
    ExpandOptional(HasFunctions(d), Block(InitialFunctionFaces(), 1));
    ExpandOptional(HasConstants(d), Block(ConstantFaces(), 1));
  }

  lemma InitialDeckBlocksSplit(d: Difficulty)
    ensures Expand(InitialDeckBlocks(d))
         == Expand(BasicBlocks(3))
          + Expand(OptionalBlock(HasNegatives(d), Block(NegativeDigits(), 2)))
          + Expand(OptionalBlock(HasFunctions(d), Block(InitialFunctionFaces(), 2)))
          + Expand(OptionalBlock(HasFunctions(d), Block(InitialFunctionFaces(), 1)))
          + Expand(OptionalBlock(HasConstants(d), Block(ConstantFaces(), 1)))
  {
    ExpandFive(BasicBlocks(3), OptionalBlock(HasNegatives(d), Block(NegativeDigits(), 2)),
      OptionalBlock(HasFunctions(d), Block(InitialFunctionFaces(), 2)),
      OptionalBlock(HasFunctions(d), Block(InitialFunctionFaces(), 1)),
      OptionalBlock(HasConstants(d), Block(ConstantFaces(), 1)));
  }

  /** Pushing a regenerated deck's blocks pushes its faces. */
  lemma DeckPushOrder(d: Difficulty)
    ensures Expand(DeckBlocks(d)) == DeckFaces(d)
  {
    DeckBlocksSplit(d);
    ExpandBasic(2);
    ExpandOptional(HasNegatives(d), Block(NegativeDigits(), 1));
    ExpandOptional(HasFunctions(d), Block(DeckFunctionFaces(), 1));
    ExpandOptional(HasConstants(d), Block(ConstantFaces(), 1));
  }

  lemma DeckBlocksSplit(d: Difficulty)
    ensures Expand(DeckBlocks(d))
         == Expand(BasicBlocks(2))
          + Expand(OptionalBlock(HasNegatives(d), Block(NegativeDigits(), 1)))
          + Expand(OptionalBlock(HasFunctions(d), Block(DeckFunctionFaces(), 1)))
          + Expand(OptionalBlock(HasConstants(d), Block(ConstantFaces(), 1)))
  {
    ExpandFour(BasicBlocks(2), OptionalBlock(HasNegatives(d), Block(NegativeDigits(), 1)),
      OptionalBlock(HasFunctions(d), Block(DeckFunctionFaces(), 1)),
      OptionalBlock(HasConstants(d), Block(ConstantFaces(), 1)));
  }

  lemma ExpandBasic(c: nat)
    ensures Expand(BasicBlocks(c)) == EachCopied(Digits(), c) + EachCopied(ArithmeticFaces(), c) + EachCopied([Zero], 1)
  {
    var b0, b1, b2 := Block(Digits(), c), Block(ArithmeticFaces(), c), Block([Zero], 1);
    assert BasicBlocks(c) == [b0] + [b1] + [b2];
    ExpandAppend([b0] + [b1], [b2]);
    ExpandAppend([b0], [b1]);
    ExpandOptional(true, b0);
    ExpandOptional(true, b1);
    ExpandOptional(true, b2);
  }

  lemma ExpandFour(p0: seq<Block>, p1: seq<Block>, p2: seq<Block>, p3: seq<Block>)
    ensures Expand(p0 + p1 + p2 + p3) == Expand(p0) + Expand(p1) + Expand(p2) + Expand(p3)
  {
    ExpandAppend(p0 + p1 + p2, p3);
    ExpandAppend(p0 + p1, p2);
    ExpandAppend(p0, p1);
  }

  lemma ExpandFive(p0: seq<Block>, p1: seq<Block>, p2: seq<Block>, p3: seq<Block>, p4: seq<Block>)
    ensures Expand(p0 + p1 + p2 + p3 + p4) == Expand(p0) + Expand(p1) + Expand(p2) + Expand(p3) + Expand(p4)
  {
    ExpandAppend(p0 + p1 + p2 + p3, p4);
    ExpandAppend(p0 + p1 + p2, p3);
    ExpandAppend(p0 + p1, p2);
    ExpandAppend(p0, p1);
  }

  lemma {:induction false} ExpandAppend(bs: seq<Block>, cs: seq<Block>)
    ensures Expand(bs + cs) == Expand(bs) + Expand(cs)
    decreases |cs|
  {
    if cs == [] {
      assert bs + cs == bs;
    } else {
      var cs' := cs[..|cs| - 1];
      assert (bs + cs)[..|bs + cs| - 1] == bs + cs';
      assert (bs + cs)[|bs + cs| - 1] == cs[|cs| - 1];
      ExpandAppend(bs, cs');
    }
  }

  lemma ExpandOptional(present: bool, b: Block)
    ensures Expand(OptionalBlock(present, b)) == if present then EachCopied(b.faces, b.copies) else []
  {
    if present {
      assert [b][..0] == [];
    }
  }

  /** No initial deck holds a variable card. */
  lemma InitialDeckLacksVariables(d: Difficulty)
    ensures Variable !in InitialDeckFaces(d)
  {
    InitialDeckCounts(d, VariableType);
    NoVariableCounted(InitialDeckFaces(d));
  }

  /** No regenerated deck holds a variable card. */
  lemma DeckLacksVariables(d: Difficulty)
    ensures Variable !in DeckFaces(d)
  {
    DeckCounts(d, VariableType);
    NoVariableCounted(DeckFaces(d));
  }

  lemma NoVariableCounted(faces: seq<Face>)
    requires CountType(faces, VariableType) == 0
    ensures Variable !in faces
  {
    CountAbsent(faces, Variable, VariableType);
  }

  /** A face whose type is not counted does not occur. */
  lemma {:induction false} CountAbsent(faces: seq<Face>, f: Face, t: CardType)
    requires TypeOf(f) == t && CountType(faces, t) == 0
    ensures f !in faces
  {
    if faces != [] {
      assert faces == faces[..|faces| - 1] + [faces[|faces| - 1]];
      CountAbsent(faces[..|faces| - 1], f, t);
    }
  }

  lemma FacesOfSwap(s: seq<Card>, i: nat, j: nat)
    requires i < |s| && j < |s|
    ensures Faces(Swap(s, i, j)) == Swap(Faces(s), i, j)
  {
  }

  /** Shuffling cards shuffles their faces the same way. */
  lemma {:induction false} FacesOfShuffleFrom(s: seq<Card>, i: nat, rand: nat -> real, k: nat)
    requires i < |s|
    ensures Faces(ShuffleFrom(s, i, rand, k)) == ShuffleFrom(Faces(s), i, rand, k)
    decreases i
  {
    if i > 0 {
      var j := Pick(rand(k), i + 1);
      FacesOfSwap(s, i, j);
      FacesOfShuffleFrom(Swap(s, i, j), i - 1, rand, k + 1);
    }
  }

  /** Both generators return a permutation of their fixed list, with fresh consecutive ids. */
  lemma GeneratedDeckPermutes(faces: seq<Face>, next: nat, rand: nat -> real, k: nat)
    ensures multiset(Faces(Shuffle(Numbered(faces, next), rand, k))) == multiset(faces)
    ensures forall c :: c in Shuffle(Numbered(faces, next), rand, k) ==> next <= c.id < next + |faces|
  {
    var s := Numbered(faces, next);
    ShufflePermutes(s, rand, k);
    ShufflePermutes(faces, rand, k);
    FacesOfNumbered(faces, next);
    if |s| > 0 {
      FacesOfShuffleFrom(s, |s| - 1, rand, k);
    }
    forall c | c in Shuffle(s, rand, k)
      ensures next <= c.id < next + |faces|
    {
      assert c in multiset(Shuffle(s, rand, k));
    }
  }

  // ---------------------------------------------------------------------------
  // Drawing.

  /** `drawCards(deck, count)`: the first `count` cards, or all of them, and the rest. */
  function DrawCards(deck: seq<Card>, count: nat): (r: (seq<Card>, seq<Card>))
    ensures |r.0| == if count <= |deck| then count else |deck|
    ensures r.0 + r.1 == deck
  {
    if count <= |deck| then (deck[..count], deck[count..]) else (deck, [])
  }
}
