/**
 * The game store: one object holding the game state, whose actions start and
 * reset a game, draw cards, play number, arithmetic, function, constant and
 * variable cards on the grind deck or the algebra deck, apply the algebra
 * function, and end a solo game.
 *
 * The store keeps its state as one immutable record that every `set` replaces
 * by an updated copy; here that record is the `state` field. Randomness and
 * fresh ids come from the `rand` stream with its `draws` cursor and from the
 * `nextId` counter; the clock is the `now` argument of the actions that read it.
 */
module CardGame {
  import opened Optional
  import opened CardTypes
  import opened MathFunctions
  import opened Algebra
  import opened Decks
  import opened HandBalance
  import opened Unlocks
  import opened SoloSession

  /** The state the store keeps under `player`. */
  datatype PlayerState = PlayerState(
    deck: seq<Card>, hand: seq<Card>, grindDeck: seq<Card>, grindDeckValue: real, currentScore: real,
    flags: Flags, algebraDeck: seq<Card>, algebraFunction: string, hasActiveAlgebraDeck: bool)

  /** The game state; the solo mode and its three limits are grouped as `limits`. */
  datatype GameState = GameState(
    difficulty: Difficulty, highScore: real, handSize: nat, moves: seq<Move>, limits: Limits,
    gameStartTime: Option<int>, cardsPlayed: int, gameEndTime: Option<int>, isGameEnded: bool,
    gameEndReason: Option<EndReason>, player: PlayerState, deckPool: seq<Card>, activeTargetDeck: Option<TargetDeck>)

  const InitialPlayer := PlayerState([], [], [], 0.0, 0.0, NoFlags, [], "x", false)

  /** `initialState`, with the high score read from storage. */
  function InitialState(hs: real): GameState {
    GameState(BasicTier, hs, 7, [], NoLimits, None, 0, None, false, None, InitialPlayer, [], None)
  }

  /** `newValue > currentScore ? newValue : currentScore`, and likewise for the high score. */
  function Better(v: real, score: real): (r: real)
    ensures r >= v && r >= score && (r == v || r == score)
  {
    if v > score then v else score
  }

  /** The thousandths a card value is printed with in an algebra template. */
  function Milli(v: real): (m: int)
    ensures IsThousandths(v) ==> m as real / 1000.0 == v
  {
    (v * 1000.0).Floor
  }

  /** The state after an end check that found `e` at time `now`. */
  function Ended(g: GameState, e: Option<EndReason>, now: int): GameState {
    if e.Some? then g.(isGameEnded := true, gameEndTime := Some(now), gameEndReason := e) else g
  }

  /** The state with a new hand and player's deck. */
  function WithSupply(g: GameState, s: Stock): GameState {
    g.(player := g.player.(hand := s.hand, deck := s.deck))
  }

  /** Whether the algebra deck is the one played on. */
  predicate OnAlgebra(g: GameState) {
    g.activeTargetDeck == Some(AlgebraDeck) && g.player.algebraDeck != []
  }

  /** The guard of `playArithmeticCard`: an operator and a number-like card in the hand, and no division by zero. */
  predicate ArithmeticPlayable(hand: seq<Card>, cardId: CardId, targetId: CardId) {
    var a := FindById(hand, cardId);
    var n := FindById(hand, targetId);
    a.Some? && a.value.face.Arithmetic? && n.Some? && IsNumberLike(n.value.face)
    && !(a.value.face.op == Divide && CardValue(n.value.face) == 0.0)
  }

  /** Whether `playFunctionCard` reads a second card: only for `x^y`, `pyth` and `modulus`, and only when one is given. */
  predicate ReadsSecond(fn: FunctionOperator, secondId: Option<CardId>) {
    fn in {Power, Pyth, Modulus} && secondId.Some?
  }

  /** The guard of `playFunctionCard`: a function card, and a number-like second card when one is read. */
  predicate FunctionPlayable(hand: seq<Card>, cardId: CardId, secondId: Option<CardId>) {
    var f := FindById(hand, cardId);
    f.Some? && f.value.face.Function?
    && (ReadsSecond(f.value.face.fn, secondId) ==>
          FindById(hand, secondId.value).Some? && IsNumberLike(FindById(hand, secondId.value).value.face))
  }

  /** The second card a function play uses. */
  function SecondCard(hand: seq<Card>, fn: FunctionOperator, secondId: Option<CardId>): Option<Card> {
    if ReadsSecond(fn, secondId) then FindById(hand, secondId.value) else None
  }

  /** The value of the second card, when it is number-like. */
  function SecondValue(second: Option<Card>): Option<real> {
    if second.Some? && IsNumberLike(second.value.face) then Some(CardValue(second.value.face)) else None
  }

  /** The cards a function play moves: the function card, then the second card if any. */
  function PlayedCards(f: Card, second: Option<Card>): seq<Card> {
    if second.Some? then [f, second.value] else [f]
  }

  /** The hand after a function play. */
  function AfterFunctionPlay(hand: seq<Card>, cardId: CardId, second: Option<Card>): seq<Card> {
    if second.Some? then RemoveId(RemoveId(hand, cardId), second.value.id) else RemoveId(hand, cardId)
  }

  /** The value an arithmetic play gives the grind deck; the play's guard rules out the division that throws. */
  function GrindArithmeticValue(g: GameState, a: Card, n: Card): (v: real)
    requires a.face.Arithmetic? && IsNumberLike(n.face)
    requires !(a.face.op == Divide && CardValue(n.face) == 0.0)
    ensures CalculateArithmetic(g.player.grindDeckValue, CardValue(n.face), Symbol(a.face.op), g.difficulty) == Returns(v)
  {
    CalculateArithmetic(g.player.grindDeckValue, CardValue(n.face), Symbol(a.face.op), g.difficulty).value
  }

  /**
   * The update of an arithmetic play on the grind deck: both cards leave the
   * hand for the grind deck, the value and the best score move, two cards
   * count as played and the play is logged.
   */
  function ArithmeticOnGrind(g: GameState, a: Card, n: Card, v: real, moveId: nat, now: int): GameState {
    var score := Better(v, g.player.currentScore);
    g.(player := g.player.(grindDeck := g.player.grindDeck + [a, n], grindDeckValue := v, currentScore := score,
                           hand := RemoveId(RemoveId(g.player.hand, a.id), n.id)),
       cardsPlayed := g.cardsPlayed + 2,
       moves := g.moves + [Move(moveId, ArithmeticMove, now, [a, n], Some(v))],
       highScore := Better(score, g.highScore))
  }

  /** The update of an arithmetic play on the algebra deck: both cards join it and the template rewrites the text. */
  function ArithmeticOnAlgebra(g: GameState, a: Card, n: Card): GameState
    requires a.face.Arithmetic? && IsNumberLike(n.face)
  {
    g.(player := g.player.(algebraDeck := g.player.algebraDeck + [a, n],
                           algebraFunction := ArithmeticTemplate(g.player.algebraFunction, a.face.op, Milli(CardValue(n.face))),
                           hand := RemoveId(RemoveId(g.player.hand, a.id), n.id)))
  }

  /** The second value in thousandths, as the algebra templates print it. */
  function MilliOf(v: Option<real>): Option<int> {
    if v.Some? then Some(Milli(v.value)) else None
  }

  /** The update of a function play on the grind deck, with one card counted as played. */
  function FunctionOnGrind(g: GameState, f: Card, second: Option<Card>, v: real, moveId: nat, now: int): GameState {
    var score := Better(v, g.player.currentScore);
    g.(player := g.player.(grindDeck := g.player.grindDeck + PlayedCards(f, second), grindDeckValue := v, currentScore := score,
                           hand := AfterFunctionPlay(g.player.hand, f.id, second)),
       moves := g.moves + [Move(moveId, FunctionMove, now, PlayedCards(f, second), Some(v))],
       highScore := Better(score, g.highScore),
       cardsPlayed := g.cardsPlayed + 1)
  }

  /** The update of a function play on the algebra deck. */
  function FunctionOnAlgebra(g: GameState, f: Card, second: Option<Card>): GameState
    requires f.face.Function?
  {
    g.(player := g.player.(algebraDeck := g.player.algebraDeck + PlayedCards(f, second),
                           algebraFunction := FunctionTemplate(g.player.algebraFunction, f.face.fn, MilliOf(SecondValue(second))),
                           hand := AfterFunctionPlay(g.player.hand, f.id, second)))
  }

  /** The update of `applyAlgebraFunction` once the function gave `v`: the algebra deck is cleared and play returns to the grind deck. */
  function AlgebraApplied(g: GameState, v: real): GameState {
    var score := Better(v, g.player.currentScore);
    g.(player := g.player.(grindDeckValue := v, currentScore := score,
                           algebraDeck := [], algebraFunction := "x", hasActiveAlgebraDeck := false),
       activeTargetDeck := Some(Grind),
       highScore := Better(score, g.highScore))
  }

  /** The state after the helper end check that a function play runs. */
  function HelperEnded(g: GameState, now: int): GameState {
    Ended(g, HelperEndCheck(g.limits, g.isGameEnded, g.cardsPlayed, g.player.currentScore), now)
  }

  /** The state after the store's end check at time `now`. */
  function StoreEnded(g: GameState, now: int): GameState {
    Ended(g, EndCheck(g.limits, g.isGameEnded, g.gameStartTime, now, g.cardsPlayed, g.player.currentScore), now)
  }

  // ---------------------------------------------------------------------------
  // Properties of the plays.

  /** Two different cards of a hand with unique ids have different ids. */
  lemma DistinctCardsDistinctIds(hand: seq<Card>, a: Card, n: Card)
    requires UniqueIds(hand) && a in hand && n in hand && a != n
    ensures a.id != n.id
  {
    var i :| 0 <= i < |hand| && hand[i] == a;
    var j :| 0 <= j < |hand| && hand[j] == n;
    if i < j {
      assert hand[i].id != hand[j].id;
    } else {
      assert hand[j].id != hand[i].id;
    }
  }

  /**
   * With unique ids, an arithmetic play takes exactly its two cards out of
   * the hand, the operator first, and the ids stay unique.
   */
  lemma ArithmeticPlayMovesCards(hand: seq<Card>, cardId: CardId, targetId: CardId)
    requires UniqueIds(hand) && ArithmeticPlayable(hand, cardId, targetId)
    ensures var a := FindById(hand, cardId).value;
      var n := FindById(hand, targetId).value;
      var rest := RemoveId(RemoveId(hand, cardId), targetId);
      multiset(rest) + multiset([a, n]) == multiset(hand) && UniqueIds(rest)
  {
    TwoCardsLeave(hand, FindById(hand, cardId).value, FindById(hand, targetId).value);
  }

  /**
   * With unique ids, a function play takes exactly the cards it plays out of
   * the hand: the function card, and the second card when one is read.
   */
  lemma FunctionPlayMovesCards(hand: seq<Card>, cardId: CardId, secondId: Option<CardId>)
    requires UniqueIds(hand) && FunctionPlayable(hand, cardId, secondId)
    ensures var f := FindById(hand, cardId).value;
      var second := SecondCard(hand, f.face.fn, secondId);
      var rest := AfterFunctionPlay(hand, cardId, second);
      multiset(rest) + multiset(PlayedCards(f, second)) == multiset(hand) && UniqueIds(rest)
  {
    var f := FindById(hand, cardId).value;
    var second := SecondCard(hand, f.face.fn, secondId);
    if second.Some? {
      var c := second.value;
      assert c in hand && IsNumberLike(c.face) && f.id == cardId;
      TwoCardsLeave(hand, f, c);
    } else {
      RemoveOne(hand, f);
      assert AfterFunctionPlay(hand, cardId, second) == RemoveId(hand, f.id) && PlayedCards(f, second) == [f];
    }
  }

  /** With unique ids, filtering out the ids of two different cards takes exactly those two out. */
  lemma TwoCardsLeave(hand: seq<Card>, f: Card, c: Card)
    requires UniqueIds(hand) && f in hand && c in hand && f != c
    ensures var rest := RemoveId(RemoveId(hand, f.id), c.id);
      multiset(rest) + multiset([f, c]) == multiset(hand) && UniqueIds(rest)
  {
    DistinctCardsDistinctIds(hand, f, c);
    RemoveOne(hand, f);
    RemoveOne(RemoveId(hand, f.id), c);
    assert multiset([f, c]) == multiset{f} + multiset{c};
  }

  /**
   * Every scoring update keeps the best score at least the new value and the
   * old score, and the high score at least the best score and the old high score.
   */
  lemma ScoringKeepsRecords(g: GameState, a: Card, n: Card, f: Card, second: Option<Card>, v: real, moveId: nat, now: int)
    ensures var h := ArithmeticOnGrind(g, a, n, v, moveId, now);
      h.player.grindDeckValue == v && h.player.currentScore >= v && h.player.currentScore >= g.player.currentScore
      && h.highScore >= h.player.currentScore && h.highScore >= g.highScore
    ensures var h := FunctionOnGrind(g, f, second, v, moveId, now);
      h.player.grindDeckValue == v && h.player.currentScore >= v && h.player.currentScore >= g.player.currentScore
      && h.highScore >= h.player.currentScore && h.highScore >= g.highScore
    ensures var h := AlgebraApplied(g, v);
      h.player.grindDeckValue == v && h.player.currentScore >= v && h.player.currentScore >= g.player.currentScore
      && h.highScore >= h.player.currentScore && h.highScore >= g.highScore
  {
  }

  /** The game state with the id and random-draw cursors. */
  datatype Machine = Machine(state: GameState, nextId: nat, draws: nat)

  /** `g` with its hand balanced by `ensureHandBalance`, from the cursors `next` and `k`. */
  function Rebalance(g: GameState, next: nat, k: nat, rand: nat -> real): Machine {
    var b := Balance(Stock(g.player.hand, g.player.deck, next, k), g.difficulty, rand);
    Machine(WithSupply(g, b), b.next, b.k)
  }

  /** `g` with its hand refilled by `replenishHand`, from the cursors `next` and `k`. */
  function Refill(g: GameState, next: nat, k: nat, rand: nat -> real): Machine {
    var r := Replenish(Stock(g.player.hand, g.player.deck, next, k), g.difficulty, g.handSize, rand);
    Machine(WithSupply(g, r), r.next, r.k)
  }

  /** `Refill`, followed by the store's end check at time `now`. */
  function RefillThenEnd(g: GameState, next: nat, k: nat, rand: nat -> real, now: int): Machine {
    var m := Refill(g, next, k, rand);
    m.(state := StoreEnded(m.state, now))
  }

  /** The seven cards `startGame` deals into the hand and the pool left, from the shuffled initial deck. */
  function InitialDeal(d: Difficulty, next: nat, rand: nat -> real, k: nat): (seq<Card>, seq<Card>) {
    DrawCards(Shuffle(Numbered(InitialDeckFaces(d), next), rand, k), 7)
  }

  /**
   * The deal gives seven cards to the hand, and the hand and the pool together
   * hold exactly the faces of the tier's initial deck, under fresh ids.
   */
  lemma InitialDealShares(d: Difficulty, next: nat, rand: nat -> real, k: nat)
    ensures var r := InitialDeal(d, next, rand, k);
      && |r.0| == 7
      && multiset(Faces(r.0 + r.1)) == multiset(InitialDeckFaces(d))
      && forall c :: c in r.0 + r.1 ==> next <= c.id < next + |InitialDeckFaces(d)|
  {
    InitialDeckSize(d);
    ShufflePermutes(Numbered(InitialDeckFaces(d), next), rand, k);
    GeneratedDeckPermutes(InitialDeckFaces(d), next, rand, k);
  }

  class Store {
    const lib: MathLib
    const rand: nat -> real
    var state: GameState
    var nextId: nat
    var draws: nat
    /** The function the stored algebra text was printed from. */
    ghost var algebra: Expr

    /** The stored algebra text is always the printed form of a function the templates build. */
    ghost predicate Valid()
      reads this
    {
      state.player.algebraFunction == Print(algebra) && state.handSize <= 9
    }

    /** The hand, the player's deck and the two cursors, as hand balancing sees them. */
    function Supply(): Stock
      reads this
    {
      Stock(state.player.hand, state.player.deck, nextId, draws)
    }

    /** The state with its two cursors. */
    function Current(): Machine
      reads this
    {
      Machine(state, nextId, draws)
    }

    /** Nothing changed. */
    twostate predicate Unchanged()
      reads this
    {
      state == old(state) && nextId == old(nextId) && draws == old(draws) && algebra == old(algebra)
    }

    /**
     * What no action within a game takes back: the best score and the high
     * score never drop, the move log only grows, an ended game stays ended,
     * and (the unlock pass having no effect as wired) the unlock flags and the
     * hand size stay as they were.
     */
    twostate predicate KeepsProgress()
      reads this
    {
      && state.player.currentScore >= old(state.player.currentScore)
      && state.highScore >= old(state.highScore)
      && old(state.moves) <= state.moves
      && (old(state.isGameEnded) ==> state.isGameEnded)
      && state.player.flags == old(state.player.flags)
      && state.handSize == old(state.handSize)
    }

    constructor (lib: MathLib, rand: nat -> real, storedHighScore: real)
      ensures this.lib == lib && this.rand == rand
      ensures state == InitialState(storedHighScore) && algebra == XVar && Valid()
      ensures nextId == 0 && draws == 0
    {
      this.lib := lib;
      this.rand := rand;
      state := InitialState(storedHighScore);
      nextId := 0;
      draws := 0;
      algebra := XVar;
    }

    /**
     * `startGame`: a fresh game on tier `d` with the solo limits given; the
     * shuffled initial deck deals seven cards to the hand and the rest stays
     * in the pool, while the player's own deck starts empty.
     */
    method StartGame(d: Difficulty, l: Limits, now: int, storedHighScore: real)
      modifies this
      ensures Valid() && algebra == XVar
      ensures var dealt := InitialDeal(d, old(nextId), rand, old(draws));
        state == InitialState(storedHighScore).(difficulty := d, limits := l, gameStartTime := Some(now),
                   player := InitialPlayer.(hand := dealt.0), deckPool := dealt.1)
      ensures nextId == old(nextId) + |InitialDeckFaces(d)|
      ensures draws == old(draws) + ShuffleDraws(|InitialDeckFaces(d)|)
    {
      var deck, next', k' := GenerateInitialDeck(d, nextId, rand, draws);
      var drawn := DrawCards(deck, 7);
      state := InitialState(storedHighScore).(difficulty := d, limits := l, gameStartTime := Some(now),
                 player := InitialPlayer.(hand := drawn.0), deckPool := drawn.1);
      nextId := next';
      draws := k';
      algebra := XVar;
    }

    /** `resetGame`: back to `initialState`, keeping the high score. */
    method ResetGame()
      modifies this
      ensures state == InitialState(old(state.highScore)) && algebra == XVar && Valid()
      ensures nextId == old(nextId) && draws == old(draws)
    {
      state := InitialState(state.highScore);
      algebra := XVar;
    }

    /** `resetWithSameDifficulty`: a new game on the same tier, without solo limits. */
    method ResetWithSameDifficulty(now: int, storedHighScore: real)
      modifies this
      ensures Valid() && algebra == XVar
      ensures var dealt := InitialDeal(old(state.difficulty), old(nextId), rand, old(draws));
        state == InitialState(storedHighScore).(difficulty := old(state.difficulty), gameStartTime := Some(now),
                   player := InitialPlayer.(hand := dealt.0), deckPool := dealt.1)
    {
      var d := state.difficulty;
      state := InitialState(state.highScore).(difficulty := d);
      StartGame(d, NoLimits, now, storedHighScore);
    }

    /**
     * `ensureHandBalance`: one number-like card when the hand has none, then on
     * the functions tier a function card and an operator when the hand had
     * none, elsewhere operators up to two, each taken from the player's deck
     * or made up.
     */
    method EnsureHandBalance()
      modifies this
      ensures KeepsProgress()
      ensures Current() == Rebalance(old(state), old(nextId), old(draws), rand) && algebra == old(algebra)
    {
      var s := Supply();
      var numbers := Count(s.hand, WantNumber);
      var operators := Count(s.hand, WantArithmetic);
      var functions := Count(s.hand, WantFunction);
      var t := s;
      if numbers < 1 {
        var i := 0;
        while i < 1 - numbers
          invariant 0 <= i <= 1 - numbers
          invariant t == PullTimes(s, WantNumber, i, rand)
        {
          t := Pull(t, WantNumber, rand);
          i := i + 1;
        }
      }
      assert t == NumberStep(s, rand);
      var u := t;
      if state.difficulty == FunctionsTier {
        if functions == 0 {
          t := Pull(t, WantFunction, rand);
        }
        if operators == 0 {
          t := Pull(t, WantArithmetic, rand);
        }
      } else if operators < 2 {
        var i := 0;
        while i < 2 - operators
          invariant 0 <= i <= 2 - operators
          invariant t == PullTimes(u, WantArithmetic, i, rand)
        {
          t := Pull(t, WantArithmetic, rand);
          i := i + 1;
        }
      }
      assert t == OperatorStep(u, state.difficulty, operators, functions, rand);
      ghost var g := state;
      state := WithSupply(state, t);
      nextId := t.next;
      draws := t.k;
      assert Current() == Rebalance(g, s.next, s.k, rand);
    }

    /** `replenishHand`: balance, then fill the hand from the player's deck, regenerating it when too short. */
    method ReplenishHand()
      modifies this
      ensures KeepsProgress()
      ensures Current() == Refill(old(state), old(nextId), old(draws), rand) && algebra == old(algebra)
      ensures state.handSize == old(state.handSize) && state.player.algebraFunction == old(state.player.algebraFunction)
    {
      ghost var g, next, k := state, nextId, draws;
      ghost var b := Balance(Stock(g.player.hand, g.player.deck, next, k), g.difficulty, rand);
      EnsureHandBalance();
      assert state == WithSupply(g, b) && nextId == b.next && draws == b.k;
      if |state.player.hand| >= state.handSize {
        return;
      }
      var need := state.handSize - |state.player.hand|;
      var deck, next', k' := state.player.deck, nextId, draws;
      if |deck| < need {
        deck, next', k' := GenerateDeck(state.difficulty, nextId, rand, draws);
      }
      var drawn := DrawCards(deck, need);
      var r := Stock(state.player.hand + drawn.0, drawn.1, next', k');
      assert r == Replenish(Stock(g.player.hand, g.player.deck, next, k), g.difficulty, g.handSize, rand);
      state := WithSupply(state, r);
      nextId := next';
      draws := k';
      assert Current() == Refill(g, next, k, rand);
    }

    /**
     * `drawCard`: nothing on a full hand; otherwise the first pool card joins
     * the hand and the hand is balanced. On an empty pool a new deck is
     * generated, spending ids and random draws, but the draw reads the empty
     * pool it had, so the pool stays empty and only the balancing adds cards.
     */
    method DrawCard()
      modifies this
      ensures KeepsProgress()
      ensures algebra == old(algebra)
      ensures |old(state.player.hand)| >= old(state.handSize) ==> Unchanged()
      ensures |old(state.player.hand)| < old(state.handSize) && old(state.deckPool) == [] ==>
        Current() == Rebalance(old(state), old(nextId) + |DeckFaces(old(state.difficulty))|,
                 old(draws) + ShuffleDraws(|DeckFaces(old(state.difficulty))|), rand)
      ensures |old(state.player.hand)| < old(state.handSize) && old(state.deckPool) != [] ==>
        var g := old(state);
        Current() == Rebalance(g.(deckPool := g.deckPool[1..], player := g.player.(hand := g.player.hand + [g.deckPool[0]])),
                 old(nextId), old(draws), rand)
    {
      if |state.player.hand| >= state.handSize {
        return;
      }
      var pool := state.deckPool;
      if pool == [] {
        var deck, next', k' := GenerateDeck(state.difficulty, nextId, rand, draws);
        state := state.(deckPool := deck);
        nextId := next';
        draws := k';
      }
      var drawn := DrawCards(pool, 1);
      assert pool != [] ==> drawn.0 == [pool[0]] && drawn.1 == pool[1..];
      state := state.(deckPool := drawn.1, player := state.player.(hand := state.player.hand + drawn.0));
      assert pool == [] ==> state.player.hand == old(state.player.hand);
      EnsureHandBalance();
    }

    /**
     * `playNumberCard`: a number-like card from the hand starts the grind deck
     * when it is empty, logging a move; on a started grind deck it only leaves
     * the hand. The hand is then refilled. The score is not touched.
     */
    method PlayNumberCard(cardId: CardId, now: int)
      modifies this
      ensures KeepsProgress()
      ensures algebra == old(algebra)
      ensures var c := FindById(old(state.player.hand), cardId);
        c.None? || !IsNumberLike(c.value.face) ==> Unchanged()
      ensures var c := FindById(old(state.player.hand), cardId);
        c.Some? && IsNumberLike(c.value.face) && old(state.player.grindDeck) == [] ==>
          var g := old(state);
          Current() == Refill(g.(moves := g.moves + [Move(old(nextId), NumberMove, now, [c.value], Some(CardValue(c.value.face)))],
                      player := g.player.(grindDeck := [c.value], grindDeckValue := CardValue(c.value.face),
                                          hand := RemoveId(g.player.hand, cardId))),
                   old(nextId) + 1, old(draws), rand)
      ensures var c := FindById(old(state.player.hand), cardId);
        c.Some? && IsNumberLike(c.value.face) && old(state.player.grindDeck) != [] ==>
          var g := old(state);
          Current() == Refill(g.(player := g.player.(hand := RemoveId(g.player.hand, cardId))), old(nextId), old(draws), rand)
    {
      var c := FindById(state.player.hand, cardId);
      if c.None? || !IsNumberLike(c.value.face) {
        return;
      }
      var card := c.value;
      var value := CardValue(card.face);
      if state.player.grindDeck == [] {
        var move := Move(nextId, NumberMove, now, [card], Some(value));
        nextId := nextId + 1;
        state := state.(moves := state.moves + [move],
                        player := state.player.(grindDeck := [card], grindDeckValue := value,
                                                hand := RemoveId(state.player.hand, cardId)));
      } else {
        state := state.(player := state.player.(hand := RemoveId(state.player.hand, cardId)));
      }
      // checkForUnlocks: no effect as wired (Unlocks.UnlockAsWired).
      ReplenishHand();
    }

    /**
     * `playConstantCard`: plays the card as a number card, so any number-like
     * card is accepted; a constant on an empty grind deck seeds it with 3.142
     * or 2.718.
     */
    method PlayConstantCard(cardId: CardId, now: int)
      modifies this
      ensures KeepsProgress()
      ensures algebra == old(algebra)
      ensures var c := FindById(old(state.player.hand), cardId);
        c.None? || !IsNumberLike(c.value.face) ==> Unchanged()
      ensures var c := FindById(old(state.player.hand), cardId);
        c.Some? && IsNumberLike(c.value.face) && old(state.player.grindDeck) == [] ==>
          var g := old(state);
          Current() == Refill(g.(moves := g.moves + [Move(old(nextId), NumberMove, now, [c.value], Some(CardValue(c.value.face)))],
                      player := g.player.(grindDeck := [c.value], grindDeckValue := CardValue(c.value.face),
                                          hand := RemoveId(g.player.hand, cardId))),
                   old(nextId) + 1, old(draws), rand)
      ensures var c := FindById(old(state.player.hand), cardId);
        c.Some? && IsNumberLike(c.value.face) && old(state.player.grindDeck) != [] ==>
          var g := old(state);
          Current() == Refill(g.(player := g.player.(hand := RemoveId(g.player.hand, cardId))), old(nextId), old(draws), rand)
      ensures var c := FindById(old(state.player.hand), cardId);
        c.Some? && c.value.face.Constant? && old(state.player.grindDeck) == [] ==>
          state.player.grindDeck == [c.value]
          && state.player.grindDeckValue == (if c.value.face.constant == Pi then 3.142 else 2.718)
          && state.moves == old(state.moves) + [Move(old(nextId), NumberMove, now, [c.value], Some(state.player.grindDeckValue))]
    {
      PlayNumberCard(cardId, now);
    }

    /**
     * `playArithmeticCard`: an operator card and a number-like card from the
     * hand. On an active, non-empty algebra deck the template rewrites the
     * function text; otherwise the grind value is recalculated, the play is
     * logged and counted, and the end conditions are checked after the hand is
     * refilled. Any other call changes nothing.
     */
    method PlayArithmeticCard(cardId: CardId, targetId: CardId, now: int)
      requires Valid()
      modifies this
      ensures KeepsProgress()
      ensures Valid()
      ensures !ArithmeticPlayable(old(state.player.hand), cardId, targetId) ==> Unchanged()
      ensures ArithmeticPlayable(old(state.player.hand), cardId, targetId) && OnAlgebra(old(state)) ==>
        var a := FindById(old(state.player.hand), cardId).value;
        var n := FindById(old(state.player.hand), targetId).value;
        algebra == Arith(a.face.op, old(algebra), Milli(CardValue(n.face)))
        && Current() == Refill(ArithmeticOnAlgebra(old(state), a, n), old(nextId), old(draws), rand)
      ensures ArithmeticPlayable(old(state.player.hand), cardId, targetId) && !OnAlgebra(old(state)) ==>
        var a := FindById(old(state.player.hand), cardId).value;
        var n := FindById(old(state.player.hand), targetId).value;
        algebra == old(algebra)
        && Current() == RefillThenEnd(ArithmeticOnGrind(old(state), a, n, GrindArithmeticValue(old(state), a, n), old(nextId), now),
                         old(nextId) + 1, old(draws), rand, now)
    {
      if !ArithmeticPlayable(state.player.hand, cardId, targetId) {
        return;
      }
      var a := FindById(state.player.hand, cardId).value;
      var n := FindById(state.player.hand, targetId).value;
      if OnAlgebra(state) {
        ArithmeticOnAlgebraDeck(a, n);
      } else {
        ArithmeticOnGrindDeck(a, n, GrindArithmeticValue(state, a, n), now);
      }
    }

    /** The algebra-deck branch of `playArithmeticCard`. */
    method ArithmeticOnAlgebraDeck(a: Card, n: Card)
      requires Valid() && a.face.Arithmetic? && IsNumberLike(n.face)
      modifies this
      ensures KeepsProgress()
      ensures Valid()
      ensures algebra == Arith(a.face.op, old(algebra), Milli(CardValue(n.face)))
      ensures Current() == Refill(ArithmeticOnAlgebra(old(state), a, n), old(nextId), old(draws), rand)
    {
      ArithmeticTemplatePrints(algebra, a.face.op, Milli(CardValue(n.face)));
      state := ArithmeticOnAlgebra(state, a, n);
      algebra := Arith(a.face.op, algebra, Milli(CardValue(n.face)));
      ReplenishHand();
    }

    /** The grind-deck branch of `playArithmeticCard`, once the play gave the value `v`. */
    method ArithmeticOnGrindDeck(a: Card, n: Card, v: real, now: int)
      requires Valid()
      modifies this
      ensures KeepsProgress()
      ensures Valid() && algebra == old(algebra)
      ensures Current() == RefillThenEnd(ArithmeticOnGrind(old(state), a, n, v, old(nextId), now), old(nextId) + 1, old(draws), rand, now)
    {
      ghost var g := ArithmeticOnGrind(state, a, n, v, nextId, now);
      ghost var next, k := nextId + 1, draws;
      state := ArithmeticOnGrind(state, a, n, v, nextId, now);
      nextId := nextId + 1;
      // checkForUnlocks: no effect as wired (Unlocks.UnlockAsWired).
      assert state == g && nextId == next && draws == k;
      ReplenishHand();
      CheckGameEndConditions(now);
    }

    /**
     * `playFunctionCard`: a function card from the hand, with a second
     * number-like card for `x^y`, `pyth` and `modulus` when one is named. On an
     * active algebra deck the template rewrites the function text; otherwise
     * the grind value is recalculated, the play is logged and counted, the
     * helper end check runs and then the hand is refilled.
     */
    method PlayFunctionCard(cardId: CardId, secondId: Option<CardId>, now: int)
      requires Valid()
      modifies this
      ensures KeepsProgress()
      ensures Valid()
      ensures !FunctionPlayable(old(state.player.hand), cardId, secondId) ==> Unchanged()
      ensures FunctionPlayable(old(state.player.hand), cardId, secondId) && OnAlgebra(old(state)) ==>
        var f := FindById(old(state.player.hand), cardId).value;
        var second := SecondCard(old(state.player.hand), f.face.fn, secondId);
        algebra == FunctionStep(old(algebra), f.face.fn, MilliOf(SecondValue(second)))
        && Current() == Refill(FunctionOnAlgebra(old(state), f, second), old(nextId), old(draws), rand)
      ensures FunctionPlayable(old(state.player.hand), cardId, secondId) && !OnAlgebra(old(state)) ==>
        var f := FindById(old(state.player.hand), cardId).value;
        var second := SecondCard(old(state.player.hand), f.face.fn, secondId);
        var v := FunctionResult(lib, old(state.player.grindDeckValue), f.face.fn, SecondValue(second));
        algebra == old(algebra)
        && Current() == Refill(HelperEnded(FunctionOnGrind(old(state), f, second, v, old(nextId), now), now), old(nextId) + 1, old(draws), rand)
    {
      if !FunctionPlayable(state.player.hand, cardId, secondId) {
        return;
      }
      var f := FindById(state.player.hand, cardId).value;
      var second := SecondCard(state.player.hand, f.face.fn, secondId);
      if OnAlgebra(state) {
        FunctionOnAlgebraDeck(f, second);
      } else {
        FunctionOnGrindDeck(f, second, FunctionResult(lib, state.player.grindDeckValue, f.face.fn, SecondValue(second)), now);
      }
    }

    /** The algebra-deck branch of `playFunctionCard`. */
    method FunctionOnAlgebraDeck(f: Card, second: Option<Card>)
      requires Valid() && f.face.Function?
      modifies this
      ensures KeepsProgress()
      ensures Valid()
      ensures algebra == FunctionStep(old(algebra), f.face.fn, MilliOf(SecondValue(second)))
      ensures Current() == Refill(FunctionOnAlgebra(old(state), f, second), old(nextId), old(draws), rand)
    {
      var m := MilliOf(SecondValue(second));
      FunctionTemplatePrints(algebra, f.face.fn, m);
      state := FunctionOnAlgebra(state, f, second);
      algebra := FunctionStep(algebra, f.face.fn, m);
      ReplenishHand();
    }

    /** The grind-deck branch of `playFunctionCard`, once the function card gave the value `v`. */
    method FunctionOnGrindDeck(f: Card, second: Option<Card>, v: real, now: int)
      requires Valid()
      modifies this
      ensures KeepsProgress()
      ensures Valid() && algebra == old(algebra)
      ensures Current() == Refill(HelperEnded(FunctionOnGrind(old(state), f, second, v, old(nextId), now), now), old(nextId) + 1, old(draws), rand)
    {
      ghost var g := HelperEnded(FunctionOnGrind(state, f, second, v, nextId, now), now);
      ghost var next, k := nextId + 1, draws;
      state := FunctionOnGrind(state, f, second, v, nextId, now);
      nextId := nextId + 1;
      // checkForUnlocks: no effect as wired (Unlocks.UnlockAsWired).
      CheckGameEndConditionsHelper(now);
      assert state == g && nextId == next && draws == k;
      ReplenishHand();
    }

    /** `playVariableCard`: the variable card starts a fresh algebra deck holding `x` and makes it the target. */
    method PlayVariableCard(cardId: CardId)
      modifies this
      ensures KeepsProgress()
      ensures nextId == old(nextId) && draws == old(draws)
      ensures var c := FindById(old(state.player.hand), cardId);
        c.None? || !c.value.face.Variable? ==> Unchanged()
      ensures var c := FindById(old(state.player.hand), cardId);
        c.Some? && c.value.face.Variable? ==>
          var p := old(state.player);
          state == old(state).(player := p.(hand := RemoveId(p.hand, cardId), algebraDeck := [c.value],
                                             algebraFunction := "x", hasActiveAlgebraDeck := true),
                               activeTargetDeck := Some(AlgebraDeck))
          && algebra == XVar && Valid() == (state.handSize <= 9)
    {
      var c := FindById(state.player.hand, cardId);
      if c.None? || !c.value.face.Variable? {
        return;
      }
      state := state.(player := state.player.(hand := RemoveId(state.player.hand, cardId), algebraDeck := [c.value],
                                              algebraFunction := "x", hasActiveAlgebraDeck := true),
                      activeTargetDeck := Some(AlgebraDeck));
      algebra := XVar;
    }

    /** `setActiveTargetDeck`: the grind deck, the algebra deck or none. */
    method SetActiveTargetDeck(t: Option<TargetDeck>)
      requires t != Some(Opponent)
      modifies this
      ensures KeepsProgress()
      ensures state == old(state).(activeTargetDeck := t)
      ensures nextId == old(nextId) && draws == old(draws) && algebra == old(algebra)
    {
      state := state.(activeTargetDeck := t);
    }

    /**
     * `applyAlgebraFunction`: with a non-empty algebra deck, the stored
     * function evaluated at the grind value becomes the grind value, the best
     * score follows, and the algebra deck is cleared.
     */
    method ApplyAlgebraFunction()
      requires Valid()
      modifies this
      ensures KeepsProgress()
      ensures Valid()
      ensures old(state.player.algebraDeck) == [] ==> Unchanged()
      ensures old(state.player.algebraDeck) != [] ==>
        var x := old(state.player.grindDeckValue);
        var v := match Eval(lib, old(algebra), x) case None => x case Some(y) => Round3(y);
        state == AlgebraApplied(old(state), v) && algebra == XVar && nextId == old(nextId) && draws == old(draws)
    {
      PrintStart(algebra);
      if state.player.algebraFunction == [] || state.player.algebraDeck == [] {
        return;
      }
      EvaluatePrinted(lib, algebra, state.player.grindDeckValue);
      var v := EvaluateAlgebraicExpression(lib, state.player.algebraFunction, state.player.grindDeckValue);
      state := AlgebraApplied(state, v);
      algebra := XVar;
      // checkForUnlocks: no effect as wired (Unlocks.UnlockAsWired).
    }

    /** `endGame`: the game is over for `reason` at time `now`. */
    method EndGame(reason: EndReason, now: int)
      modifies this
      ensures KeepsProgress()
      ensures state == Ended(old(state), Some(reason), now)
      ensures nextId == old(nextId) && draws == old(draws) && algebra == old(algebra)
    {
      state := state.(isGameEnded := true, gameEndTime := Some(now), gameEndReason := Some(reason));
    }

    /** The store action `checkGameEndConditions` at time `now`. */
    method CheckGameEndConditions(now: int)
      modifies this
      ensures KeepsProgress()
      ensures state == StoreEnded(old(state), now)
      ensures nextId == old(nextId) && draws == old(draws) && algebra == old(algebra)
    {
      var e := EndCheck(state.limits, state.isGameEnded, state.gameStartTime, now, state.cardsPlayed, state.player.currentScore);
      if e.Some? {
        EndGame(e.value, now);
      }
    }

    /** The module-level helper `checkGameEndConditions`, which never reads the clock but for the end time. */
    method CheckGameEndConditionsHelper(now: int)
      modifies this
      ensures KeepsProgress()
      ensures state == HelperEnded(old(state), now)
      ensures nextId == old(nextId) && draws == old(draws) && algebra == old(algebra)
    {
      var e := HelperEndCheck(state.limits, state.isGameEnded, state.cardsPlayed, state.player.currentScore);
      if e.Some? {
        EndGame(e.value, now);
      }
    }

    /** `getRemainingTime` at time `now`. */
    function GetRemainingTime(now: int): (r: Option<int>)
      reads this
      ensures r.Some? ==> r.value >= 0
      ensures r.Some? <==> state.limits.mode == Some(TimeLimited) && IsSet(state.limits.timeLimit) && IsSet(state.gameStartTime)
    {
      RemainingTime(state.limits, state.gameStartTime, now)
    }

    /** `getRemainingCards`. */
    function GetRemainingCards(): (r: Option<int>)
      reads this
      ensures r.Some? ==> r.value >= 0
      ensures r.Some? <==> state.limits.mode == Some(DeckLimited) && IsSet(state.limits.deckLimit)
    {
      RemainingCards(state.limits, state.cardsPlayed)
    }

    /**
     * `getFormattedAlgebraFunction`: it reads `algebraFunction` from the top
     * level of the state, where no field of that name exists (the text lives
     * under `player`), so `undefined || 'x'` is always `x`, whatever was built.
     */
    function GetFormattedAlgebraFunction(): (r: string)
      reads this
      ensures r == "x" && ParseAlgebraFunction(r) == Some(XVar)
    {
      PrintStart(XVar);
      ParseAlgebraFunctionRoundTrip(XVar);
      "x"
    }

    /**
     * The text the game board shows: the player's algebra text, or `x` for an
     * empty one; it reads back as the function built.
     */
    function ShownAlgebraFunction(): (r: string)
      reads this
      ensures r != []
      ensures state.player.algebraFunction != [] ==> r == state.player.algebraFunction
      ensures Valid() ==> ParseAlgebraFunction(r) == Some(algebra)
    {
      ParseAlgebraFunctionRoundTrip(algebra);
      PrintStart(algebra);
      if state.player.algebraFunction != [] then state.player.algebraFunction else "x"
    }
  }
}
