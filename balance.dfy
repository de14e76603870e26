/**
 * Hand balancing and refilling: the cards `ensureHandBalance` moves from the
 * player's deck into the hand (or makes up when the deck has none) so that the
 * hand keeps a number and operators, and the refill of the hand up to its size.
 */
module HandBalance {
  import opened Optional
  import opened CardTypes
  import opened Decks

  /** The hand, the player's deck, the next fresh id and the random-draw cursor. */
  datatype Stock = Stock(hand: seq<Card>, deck: seq<Card>, next: nat, k: nat)

  /** The three kinds of card the balance asks for. */
  datatype Want = WantNumber | WantArithmetic | WantFunction

  predicate Matches(w: Want, f: Face) {
    match w
    case WantNumber => IsNumberLike(f)
    case WantArithmetic => f.Arithmetic?
    case WantFunction => f.Function?
  }

  /** `findIndex`: the position of the first card of the kind, if any. */
  function FirstMatch(s: seq<Card>, w: Want): (r: Option<nat>)
    ensures r.Some? ==> r.value < |s| && Matches(w, s[r.value].face)
    ensures r.Some? ==> forall j :: 0 <= j < r.value ==> !Matches(w, s[j].face)
    ensures r.None? ==> forall j :: 0 <= j < |s| ==> !Matches(w, s[j].face)
  {
    if s == [] then None
    else if Matches(w, s[0].face) then Some(0)
    else
      match FirstMatch(s[1..], w)
      case None => None
      case Some(i) => Some(i + 1)
  }

  /** The cards of the kind in `s`. */
  function Count(s: seq<Card>, w: Want): (n: nat)
    ensures n <= |s|
  {
    if s == [] then 0 else Count(s[..|s| - 1], w) + (if Matches(w, s[|s| - 1].face) then 1 else 0)
  }

  lemma CountSnoc(s: seq<Card>, c: Card, w: Want)
    ensures Count(s + [c], w) == Count(s, w) + (if Matches(w, c.face) then 1 else 0)
  {
    assert (s + [c])[..|s|] == s;
  }

  /**
   * The card made up when the deck holds none of the kind, from the draw `r`:
   * a number 1-9, one of the four operators, or one of the fifteen function operators.
   */
  function Synthesized(w: Want, r: real): (f: Face)
    ensures Matches(w, f)
  {
    match w
    case WantNumber => Number(Pick(r, 9) + 1)
    case WantArithmetic => Arithmetic(AllArithmeticOperators()[Pick(r, 4)])
    case WantFunction => Function(SynthesizedOperators()[Pick(r, 15)])
  }

  /** The fifteen operators a made-up function card chooses from, all but `modulus`. */
  function SynthesizedOperators(): (r: seq<FunctionOperator>)
    ensures |r| == 15
  {
    [Sqrt, Cbrt, Sin, Cos, Tan, Reciprocal, Power, Mod, Pyth, Factorial, Square, Cube, Ln, Percent, Exp]
  }

  /**
   * One pass of a balance loop: the first card of the kind moves from the deck
   * to the end of the hand; when there is none, a made-up card with a fresh id
   * and one random draw is added instead.
   */
  function Pull(s: Stock, w: Want, rand: nat -> real): (r: Stock)
    ensures |r.hand| == |s.hand| + 1 && r.hand == s.hand + [r.hand[|s.hand|]]
    ensures Matches(w, r.hand[|s.hand|].face)
  {
    match FirstMatch(s.deck, w)
    case Some(i) => Stock(s.hand + [s.deck[i]], s.deck[..i] + s.deck[i + 1..], s.next, s.k)
    case None => Stock(s.hand + [Card(s.next, Synthesized(w, rand(s.k)))], s.deck, s.next + 1, s.k + 1)
  }

  /** `n` passes of a balance loop. */
  function PullTimes(s: Stock, w: Want, n: nat, rand: nat -> real): Stock {
    if n == 0 then s else Pull(PullTimes(s, w, n - 1, rand), w, rand)
  }

  /** The first loop of `ensureHandBalance`: one number-like card when the hand has none. */
  function NumberStep(s: Stock, rand: nat -> real): Stock {
    var numbers := Count(s.hand, WantNumber);
    if numbers < 1 then PullTimes(s, WantNumber, 1 - numbers, rand) else s
  }

  /**
   * The operator part of `ensureHandBalance`, from the counts of the hand before
   * balancing: on the functions tier a function card and an operator when the
   * hand had none of them, on every other tier operators up to two.
   */
  function OperatorStep(s: Stock, d: Difficulty, operators: nat, functions: nat, rand: nat -> real): Stock {
    if d == FunctionsTier then
      var s2 := if functions == 0 then Pull(s, WantFunction, rand) else s;
      if operators == 0 then Pull(s2, WantArithmetic, rand) else s2
    else if operators < 2 then PullTimes(s, WantArithmetic, 2 - operators, rand)
    else s
  }

  /** `ensureHandBalance` on the hand and the player's deck. */
  function Balance(s: Stock, d: Difficulty, rand: nat -> real): Stock {
    OperatorStep(NumberStep(s, rand), d, Count(s.hand, WantArithmetic), Count(s.hand, WantFunction), rand)
  }

  /**
   * `replenishHand`: balance, then draw the missing cards from the player's
   * deck, first replacing that deck by a fresh `generateDeck` when it is too short.
   */
  function Replenish(s: Stock, d: Difficulty, handSize: nat, rand: nat -> real): Stock {
    var b := Balance(s, d, rand);
    if |b.hand| >= handSize then b
    else
      var need := handSize - |b.hand|;
      var regenerate := |b.deck| < need;
      var deck := if regenerate then Shuffle(Numbered(DeckFaces(d), b.next), rand, b.k) else b.deck;
      var next := if regenerate then b.next + |DeckFaces(d)| else b.next;
      var k := if regenerate then b.k + ShuffleDraws(|DeckFaces(d)|) else b.k;
      var drawn := DrawCards(deck, need);
      Stock(b.hand + drawn.0, drawn.1, next, k)
  }

  // ---------------------------------------------------------------------------
  // Properties.

  /** A pass moves the first card of the kind, keeping every card; failing that it makes one up with the next id. */
  lemma PullMovesFirstMatch(s: Stock, w: Want, rand: nat -> real)
    ensures FirstMatch(s.deck, w).Some? ==>
      var i := FirstMatch(s.deck, w).value;
      Pull(s, w, rand) == Stock(s.hand + [s.deck[i]], s.deck[..i] + s.deck[i + 1..], s.next, s.k)
      && multiset(Pull(s, w, rand).hand) + multiset(Pull(s, w, rand).deck) == multiset(s.hand) + multiset(s.deck)
    ensures FirstMatch(s.deck, w).None? ==>
      Pull(s, w, rand).deck == s.deck && Pull(s, w, rand).hand[|s.hand|].id == s.next
      && Pull(s, w, rand).next == s.next + 1 && Pull(s, w, rand).k == s.k + 1
  {
    match FirstMatch(s.deck, w)
    case None =>
    case Some(i) =>
      assert s.deck == s.deck[..i] + [s.deck[i]] + s.deck[i + 1..];
  }

  /** A pass adds one card of the kind and loses none of any kind. */
  lemma PullCounts(s: Stock, w: Want, u: Want, rand: nat -> real)
    ensures Count(Pull(s, w, rand).hand, w) == Count(s.hand, w) + 1
    ensures Count(Pull(s, w, rand).hand, u) >= Count(s.hand, u)
  {
    var r := Pull(s, w, rand);
    CountSnoc(s.hand, r.hand[|s.hand|], w);
    CountSnoc(s.hand, r.hand[|s.hand|], u);
  }

  /** `n` passes append `n` cards of the kind to the hand and lose none of any kind. */
  lemma {:induction false} PullTimesAppends(s: Stock, w: Want, u: Want, n: nat, rand: nat -> real)
    ensures |PullTimes(s, w, n, rand).hand| == |s.hand| + n
    ensures s.hand <= PullTimes(s, w, n, rand).hand
    ensures Count(PullTimes(s, w, n, rand).hand, w) == Count(s.hand, w) + n
    ensures Count(PullTimes(s, w, n, rand).hand, u) >= Count(s.hand, u)
  {
    if n > 0 {
      var p := PullTimes(s, w, n - 1, rand);
      PullTimesAppends(s, w, u, n - 1, rand);
      PullCounts(p, w, u, rand);
    }
  }

  /** A pass only appends to the hand. */
  lemma PullAppends(s: Stock, w: Want, u: Want, rand: nat -> real)
    ensures s.hand <= Pull(s, w, rand).hand && |Pull(s, w, rand).hand| == |s.hand| + 1
    ensures Count(Pull(s, w, rand).hand, w) == Count(s.hand, w) + 1
    ensures Count(Pull(s, w, rand).hand, u) >= Count(s.hand, u)
  {
    PullCounts(s, w, u, rand);
  }

  /** The number step only appends, and leaves a number-like card in the hand. */
  lemma NumberStepAppends(s: Stock, u: Want, rand: nat -> real)
    ensures s.hand <= NumberStep(s, rand).hand
    ensures Count(NumberStep(s, rand).hand, WantNumber) >= 1
    ensures Count(NumberStep(s, rand).hand, u) >= Count(s.hand, u)
  {
    var numbers := Count(s.hand, WantNumber);
    if numbers < 1 {
      PullTimesAppends(s, WantNumber, u, 1 - numbers, rand);
      PullTimesAppends(s, WantNumber, WantNumber, 1 - numbers, rand);
    }
  }

  /** The operator step only appends and loses no card of any kind. */
  lemma OperatorStepAppends(s: Stock, d: Difficulty, operators: nat, functions: nat, u: Want, rand: nat -> real)
    ensures s.hand <= OperatorStep(s, d, operators, functions, rand).hand
    ensures Count(OperatorStep(s, d, operators, functions, rand).hand, u) >= Count(s.hand, u)
  {
    if d == FunctionsTier {
      var s2 := if functions == 0 then Pull(s, WantFunction, rand) else s;
      PullAppends(s, WantFunction, u, rand);
      PullAppends(s2, WantArithmetic, u, rand);
    } else if operators < 2 {
      PullTimesAppends(s, WantArithmetic, u, 2 - operators, rand);
    }
  }

  /** Balancing only appends to the hand: it never removes or reorders a card. */
  lemma BalanceOnlyAppends(s: Stock, d: Difficulty, rand: nat -> real)
    ensures s.hand <= Balance(s, d, rand).hand
  {
    var s1 := NumberStep(s, rand);
    NumberStepAppends(s, WantNumber, rand);
    OperatorStepAppends(s1, d, Count(s.hand, WantArithmetic), Count(s.hand, WantFunction), WantNumber, rand);
  }

  /** After balancing the hand holds a number-like card. */
  lemma BalanceHasNumber(s: Stock, d: Difficulty, rand: nat -> real)
    ensures Count(Balance(s, d, rand).hand, WantNumber) >= 1
  {
    var s1 := NumberStep(s, rand);
    NumberStepAppends(s, WantNumber, rand);
    OperatorStepAppends(s1, d, Count(s.hand, WantArithmetic), Count(s.hand, WantFunction), WantNumber, rand);
  }

  /** On the functions tier the balanced hand holds a function card and an operator. */
  lemma BalanceFunctionsTier(s: Stock, rand: nat -> real)
    ensures Count(Balance(s, FunctionsTier, rand).hand, WantFunction) >= 1
    ensures Count(Balance(s, FunctionsTier, rand).hand, WantArithmetic) >= 1
  {
    var operators := Count(s.hand, WantArithmetic);
    var functions := Count(s.hand, WantFunction);
    var s1 := NumberStep(s, rand);
    var s2 := if functions == 0 then Pull(s1, WantFunction, rand) else s1;
    NumberStepAppends(s, WantFunction, rand);
    NumberStepAppends(s, WantArithmetic, rand);
    PullAppends(s1, WantFunction, WantArithmetic, rand);
    PullAppends(s2, WantArithmetic, WantFunction, rand);
  }

  /** On every other tier the balanced hand holds at least two operators. */
  lemma BalanceOtherTiers(s: Stock, d: Difficulty, rand: nat -> real)
    requires d != FunctionsTier
    ensures Count(Balance(s, d, rand).hand, WantArithmetic) >= 2
  {
    var operators := Count(s.hand, WantArithmetic);
    var s1 := NumberStep(s, rand);
    NumberStepAppends(s, WantArithmetic, rand);
    if operators < 2 {
      PullTimesAppends(s1, WantArithmetic, WantArithmetic, 2 - operators, rand);
    }
  }

  /**
   * Refilling keeps the balanced hand as its prefix and fills it to `handSize`
   * (every regenerated deck has at least 27 cards); the drawn cards and the
   * new deck are the deck drawn from, in order.
   */
  lemma ReplenishFills(s: Stock, d: Difficulty, handSize: nat, rand: nat -> real)
    requires handSize <= 27
    ensures var b := Balance(s, d, rand);
      var r := Replenish(s, d, handSize, rand);
      b.hand <= r.hand && |r.hand| == if |b.hand| >= handSize then |b.hand| else handSize
  {
    var b := Balance(s, d, rand);
    if |b.hand| < handSize {
      DeckSize(d);
      ShufflePermutes(Numbered(DeckFaces(d), b.next), rand, b.k);
    }
  }

  /** A refill draws from the player's deck when it is long enough and from a freshly generated deck otherwise. */
  lemma ReplenishDrawsInOrder(s: Stock, d: Difficulty, handSize: nat, rand: nat -> real)
    ensures var b := Balance(s, d, rand);
      var r := Replenish(s, d, handSize, rand);
      |b.hand| < handSize ==>
        r.hand[|b.hand|..] + r.deck
        == if |b.deck| < handSize - |b.hand| then Shuffle(Numbered(DeckFaces(d), b.next), rand, b.k) else b.deck
  {
    var b := Balance(s, d, rand);
    var r := Replenish(s, d, handSize, rand);
    if |b.hand| < handSize {
      assert r.hand[|b.hand|..] == DrawCards(if |b.deck| < handSize - |b.hand| then Shuffle(Numbered(DeckFaces(d), b.next), rand, b.k) else b.deck, handSize - |b.hand|).0;
    }
  }
}
