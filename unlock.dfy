/**
 * Score unlocks: the thresholds at which zero, negative, function, constant and
 * variable cards become available, the card each unlock hands out, and the
 * raise of the hand size that comes with function cards.
 *
 * In the store both `canUnlockFeature` and `checkForUnlocks` read the score from
 * a top-level `currentScore` field that the state never has (the score lives
 * under `player`), so the comparison is with `undefined` and is false. The
 * score is therefore an `Option<real>` here: `None` is the store as wired,
 * `Some(v)` the rule as written.
 */
module Unlocks {
  import opened Optional
  import opened JsBuiltins
  import opened CardTypes
  import opened Decks
  import opened HandBalance

  datatype Feature = ZeroFeature | NegativeFeature | FunctionsFeature | ConstantsFeature | VariableFeature

  function FeatureName(f: Feature): string {
    match f
    case ZeroFeature => "zero"
    case NegativeFeature => "negative"
    case FunctionsFeature => "functions"
    case ConstantsFeature => "constants"
    case VariableFeature => "variable"
  }

  /** The five `hasUnlocked…` flags. */
  datatype Flags = Flags(zero: bool, negative: bool, functions: bool, constants: bool, variable: bool)

  const NoFlags := Flags(false, false, false, false, false)

  function FlagOf(flags: Flags, f: Feature): bool {
    match f
    case ZeroFeature => flags.zero
    case NegativeFeature => flags.negative
    case FunctionsFeature => flags.functions
    case ConstantsFeature => flags.constants
    case VariableFeature => flags.variable
  }

  /** `canUnlockFeature(feature)`; an unknown feature name is never unlockable. */
  function CanUnlockFeature(score: Option<real>, d: Difficulty, feature: string): bool {
    match score
    case None => false
    case Some(v) =>
      if feature == "zero" then v >= 100.0
      else if feature == "negative" then v >= 500.0 && d in {NegativeTier, FunctionsTier, AlgebraTier}
      else if feature == "functions" then v >= 1000.0 && d in {FunctionsTier, AlgebraTier}
      else if feature == "constants" then v >= 10000.0 && d in {DecimalsTier, NegativeTier, FunctionsTier, AlgebraTier}
      else if feature == "variable" then v >= 10000.0 && d == AlgebraTier
      else false
  }

  /** The cards an unlock pass has made so far, with the id and random-draw cursors. */
  datatype Pending = Pending(cards: seq<Card>, next: nat, k: nat)

  /** What `checkForUnlocks` leaves behind: the flags, the hand size, the hand and the cursors. */
  datatype Unlocked = Unlocked(flags: Flags, handSize: nat, hand: seq<Card>, next: nat, k: nat)

  /** Adds a card with the next id when the feature fires. */
  function Step(p: Pending, fires: bool, f: Face, draws: nat): Pending {
    if fires then Pending(p.cards + [Card(p.next, f)], p.next + 1, p.k + draws) else p
  }

  /** The negative card an unlock hands out, from one random draw. */
  function NegativeFace(r: real): (f: Face)
    ensures f.Negative? && -9 <= f.value <= -1
  {
    Negative(-(Pick(r, 9) as int) - 1)
  }

  /** The function card an unlock hands out: any operator but `modulus`. */
  function FunctionFace(r: real): (f: Face)
    ensures f.Function? && f.fn != Modulus
  {
    var ops := SynthesizedOperators();
    assert Modulus !in ops;
    Function(ops[Pick(r, 15)])
  }

  /** The constant card an unlock hands out: pi or e. */
  function ConstantFace(r: real): (f: Face)
    ensures f.Constant?
  {
    Constant(if Pick(r, 2) == 0 then Pi else E)
  }

  /**
   * The cards the unlock pass makes, one per feature that fires, in the order
   * zero, negative (-1 to -9), function (one of fifteen operators), constant
   * (pi or e), variable; the negative, function and constant cards take one
   * random draw each.
   */
  function NewCards(w: Flags, next: nat, rand: nat -> real, k: nat): Pending {
    var p0 := Pending([], next, k);
    var p1 := Step(p0, w.zero, Zero, 0);
    var p2 := Step(p1, w.negative, NegativeFace(rand(p1.k)), 1);
    var p3 := Step(p2, w.functions, FunctionFace(rand(p2.k)), 1);
    var p4 := Step(p3, w.constants, ConstantFace(rand(p3.k)), 1);
    Step(p4, w.variable, Variable, 0)
  }

  /**
   * `checkForUnlocks`: each feature that fires sets its flag and adds its card;
   * the function unlock raises the hand size to 9. Only as many new cards join
   * the hand as fit into the hand size it had before, as `slice(0, space)`
   * takes them, with a negative space counting back from the end.
   */
  function CheckForUnlocks(score: Option<real>, d: Difficulty, flags: Flags, handSize: nat, hand: seq<Card>,
                           next: nat, rand: nat -> real, k: nat): Unlocked
  {
    match score
    case None => Unlocked(flags, handSize, hand, next, k)
    case Some(v) =>
      var w := Firing(v, d, flags);
      var p := NewCards(w, next, rand, k);
      Unlocked(
        Flags(flags.zero || w.zero, flags.negative || w.negative, flags.functions || w.functions,
              flags.constants || w.constants, flags.variable || w.variable),
        if w.functions && handSize < 9 then 9 else handSize,
        hand + SlicePrefix(p.cards, handSize - |hand|),
        p.next, p.k)
  }

  /**
   * Whether the rule as written fires for a feature: the flag is still clear
   * and the score and tier pass the same test as in `canUnlockFeature`.
   */
  predicate Fires(v: real, d: Difficulty, flags: Flags, f: Feature) {
    CanUnlockFeature(Some(v), d, FeatureName(f)) && !FlagOf(flags, f)
  }

  /** Which features fire on this pass. */
  function Firing(v: real, d: Difficulty, flags: Flags): Flags {
    Flags(Fires(v, d, flags, ZeroFeature), Fires(v, d, flags, NegativeFeature), Fires(v, d, flags, FunctionsFeature),
          Fires(v, d, flags, ConstantsFeature), Fires(v, d, flags, VariableFeature))
  }

  function CountSet(w: Flags): nat {
    (if w.zero then 1 else 0) + (if w.negative then 1 else 0) + (if w.functions then 1 else 0)
    + (if w.constants then 1 else 0) + (if w.variable then 1 else 0)
  }

  function Fired(v: real, d: Difficulty, flags: Flags): nat {
    CountSet(Firing(v, d, flags))
  }

  // ---------------------------------------------------------------------------
  // Properties.

  /** As wired the score is undefined: no feature is unlockable and nothing changes. */
  lemma UnlockAsWired(d: Difficulty, flags: Flags, handSize: nat, hand: seq<Card>, next: nat, rand: nat -> real, k: nat)
    ensures forall feature :: !CanUnlockFeature(None, d, feature)
    ensures CheckForUnlocks(None, d, flags, handSize, hand, next, rand, k) == Unlocked(flags, handSize, hand, next, k)
  {
  }

  /**
   * A flag ends up set exactly when it was set or the feature is unlockable by
   * `canUnlockFeature`; the threshold checks of the two functions agree.
   */
  lemma UnlockSetsFlags(v: real, d: Difficulty, flags: Flags, handSize: nat, hand: seq<Card>, next: nat, rand: nat -> real, k: nat)
    ensures var r := CheckForUnlocks(Some(v), d, flags, handSize, hand, next, rand, k);
      forall f :: FlagOf(r.flags, f) <==> FlagOf(flags, f) || CanUnlockFeature(Some(v), d, FeatureName(f))
  {
    var r := CheckForUnlocks(Some(v), d, flags, handSize, hand, next, rand, k);
    forall f ensures FlagOf(r.flags, f) <==> FlagOf(flags, f) || CanUnlockFeature(Some(v), d, FeatureName(f)) {
      match f
      case ZeroFeature =>
      case NegativeFeature =>
      case FunctionsFeature =>
      case ConstantsFeature =>
      case VariableFeature =>
    }
  }

  /** The hand size becomes 9 exactly when functions unlock now on a hand size under 9. */
  lemma UnlockRaisesHandSize(v: real, d: Difficulty, flags: Flags, handSize: nat, hand: seq<Card>, next: nat, rand: nat -> real, k: nat)
    ensures var r := CheckForUnlocks(Some(v), d, flags, handSize, hand, next, rand, k);
      r.handSize == if Fires(v, d, flags, FunctionsFeature) && handSize < 9 then 9 else handSize
  {
  }

  /**
   * One card with a fresh id is made per feature that fires, and the hand
   * grows by those of them that fit: it keeps its cards in front and never
   * passes the hand size it had unless it already did.
   */
  lemma UnlockAddsCards(v: real, d: Difficulty, flags: Flags, handSize: nat, hand: seq<Card>, next: nat, rand: nat -> real, k: nat)
    ensures var r := CheckForUnlocks(Some(v), d, flags, handSize, hand, next, rand, k);
      && r.next == next + Fired(v, d, flags)
      && hand <= r.hand
      && (|hand| <= handSize ==> |r.hand| == |hand| + if Fired(v, d, flags) < handSize - |hand| then Fired(v, d, flags) else handSize - |hand|)
      && (|hand| > handSize ==> |r.hand| <= |hand| + Fired(v, d, flags))
      && forall i :: |hand| <= i < |r.hand| ==> next <= r.hand[i].id < r.next
  {
    var p := NewCards(Firing(v, d, flags), next, rand, k);
    NewCardsFresh(Firing(v, d, flags), next, rand, k);
    var added := SlicePrefix(p.cards, handSize - |hand|);
    assert forall i :: 0 <= i < |added| ==> added[i] == p.cards[i];
  }

  /** The new cards carry consecutive fresh ids, one per feature that fires. */
  lemma NewCardsFresh(w: Flags, next: nat, rand: nat -> real, k: nat)
    ensures |NewCards(w, next, rand, k).cards| == CountSet(w)
    ensures Consecutive(NewCards(w, next, rand, k), next)
  {
    var p0 := Pending([], next, k);
    var p1 := Step(p0, w.zero, Zero, 0);
    var p2 := Step(p1, w.negative, NegativeFace(rand(p1.k)), 1);
    var p3 := Step(p2, w.functions, FunctionFace(rand(p2.k)), 1);
    var p4 := Step(p3, w.constants, ConstantFace(rand(p3.k)), 1);
    var p5 := Step(p4, w.variable, Variable, 0);
    StepConsecutive(p0, next, w.zero, Zero, 0);
    StepsConsecutive(p1, p2, p3, p4, p5, next, w,
      NegativeFace(rand(p1.k)),
      FunctionFace(rand(p2.k)),
      ConstantFace(rand(p3.k)));
  }

  lemma StepsConsecutive(p1: Pending, p2: Pending, p3: Pending, p4: Pending, p5: Pending, next: nat, w: Flags,
                         f2: Face, f3: Face, f4: Face)
    requires Consecutive(p1, next) && |p1.cards| == if w.zero then 1 else 0
    requires p2 == Step(p1, w.negative, f2, 1)
    requires p3 == Step(p2, w.functions, f3, 1)
    requires p4 == Step(p3, w.constants, f4, 1)
    requires p5 == Step(p4, w.variable, Variable, 0)
    ensures |p5.cards| == CountSet(w) && Consecutive(p5, next)
  {
    StepConsecutive(p1, next, w.negative, f2, 1);
    StepConsecutive(p2, next, w.functions, f3, 1);
    StepConsecutive(p3, next, w.constants, f4, 1);
    StepConsecutive(p4, next, w.variable, Variable, 0);
  }

  predicate Consecutive(p: Pending, start: nat) {
    p.next == start + |p.cards| && forall i :: 0 <= i < |p.cards| ==> p.cards[i].id == start + i
  }

  lemma StepConsecutive(p: Pending, start: nat, fires: bool, f: Face, draws: nat)
    requires Consecutive(p, start)
    ensures Consecutive(Step(p, fires, f, draws), start)
    ensures |Step(p, fires, f, draws).cards| == |p.cards| + if fires then 1 else 0
  {
  }

  /** The features that fire, in the order the unlock pass checks them. */
  function FiredFeatures(w: Flags): (fs: seq<Feature>)
    ensures |fs| == CountSet(w)
  {
    (if w.zero then [ZeroFeature] else []) + (if w.negative then [NegativeFeature] else [])
    + (if w.functions then [FunctionsFeature] else []) + (if w.constants then [ConstantsFeature] else [])
    + (if w.variable then [VariableFeature] else [])
  }

  /** Whether a card face is one the unlock of `f` hands out. */
  predicate HandsOut(f: Feature, face: Face) {
    match f
    case ZeroFeature => face == Zero
    case NegativeFeature => face.Negative? && -9 <= face.value <= -1
    case FunctionsFeature => face.Function? && face.fn != Modulus
    case ConstantsFeature => face.Constant?
    case VariableFeature => face == Variable
  }

  /** The pending cards are, one by one, cards handed out by the features `fs`. */
  predicate Matches(p: Pending, fs: seq<Feature>) {
    |p.cards| == |fs| && forall i :: 0 <= i < |fs| ==> HandsOut(fs[i], p.cards[i].face)
  }

  lemma StepMatches(p: Pending, fs: seq<Feature>, fires: bool, f: Feature, face: Face, draws: nat)
    requires Matches(p, fs) && HandsOut(f, face)
    ensures Matches(Step(p, fires, face, draws), fs + if fires then [f] else [])
  {
    var fs' := fs + if fires then [f] else [];
    var q := Step(p, fires, face, draws);
    forall i | 0 <= i < |fs'|
      ensures HandsOut(fs'[i], q.cards[i].face)
    {
      if i < |fs| {
        assert fs'[i] == fs[i] && q.cards[i] == p.cards[i];
      }
    }
  }

  /**
   * The unlock pass makes one card per feature that fires, in the order zero,
   * negative, function, constant, variable, each of the kind its feature hands out.
   */
  lemma NewCardsInOrder(w: Flags, next: nat, rand: nat -> real, k: nat)
    ensures Matches(NewCards(w, next, rand, k), FiredFeatures(w))
  {
    var p0 := Pending([], next, k);
    var p1 := Step(p0, w.zero, Zero, 0);
    var p2 := Step(p1, w.negative, NegativeFace(rand(p1.k)), 1);
    var p3 := Step(p2, w.functions, FunctionFace(rand(p2.k)), 1);
    var p4 := Step(p3, w.constants, ConstantFace(rand(p3.k)), 1);
    var f1 := [] + if w.zero then [ZeroFeature] else [];
    var f2 := f1 + if w.negative then [NegativeFeature] else [];
    var f3 := f2 + if w.functions then [FunctionsFeature] else [];
    var f4 := f3 + if w.constants then [ConstantsFeature] else [];
    StepMatches(p0, [], w.zero, ZeroFeature, Zero, 0);
    StepMatches(p1, f1, w.negative, NegativeFeature, NegativeFace(rand(p1.k)), 1);
    StepMatches(p2, f2, w.functions, FunctionsFeature, FunctionFace(rand(p2.k)), 1);
    StepMatches(p3, f3, w.constants, ConstantsFeature, ConstantFace(rand(p3.k)), 1);
    StepMatches(p4, f4, w.variable, VariableFeature, Variable, 0);
    assert f1 == if w.zero then [ZeroFeature] else [];
  }

  /**
   * The cards that join the hand are the first of the new cards, in the order
   * of the features that fired, each of the kind its feature hands out.
   */
  lemma UnlockCardsInOrder(v: real, d: Difficulty, flags: Flags, handSize: nat, hand: seq<Card>, next: nat, rand: nat -> real, k: nat)
    ensures var r := CheckForUnlocks(Some(v), d, flags, handSize, hand, next, rand, k);
      var fs := FiredFeatures(Firing(v, d, flags));
      |hand| <= |r.hand| <= |hand| + |fs|
      && forall i :: |hand| <= i < |r.hand| ==> HandsOut(fs[i - |hand|], r.hand[i].face)
  {
    var w := Firing(v, d, flags);
    var p := NewCards(w, next, rand, k);
    NewCardsInOrder(w, next, rand, k);
    var added := SlicePrefix(p.cards, handSize - |hand|);
    var r := CheckForUnlocks(Some(v), d, flags, handSize, hand, next, rand, k);
    assert r.hand == hand + added;
    forall i | |hand| <= i < |r.hand|
      ensures HandsOut(FiredFeatures(w)[i - |hand|], r.hand[i].face)
    {
      assert r.hand[i] == added[i - |hand|] == p.cards[i - |hand|];
    }
  }
}
