/**
 * The solo-mode session rules: when a time-limited, deck-limited or
 * reach-score game ends, and how much time or how many cards remain.
 *
 * The store has two copies of the end check. The store action runs after an
 * arithmetic play and also checks the time; the module-level helper runs after
 * a function play, never checks the time, and treats a card count or a score
 * of zero as "not reached". A limit counts as set when it is present and not
 * zero, as a JavaScript number is truthy.
 */
module SoloSession {
  import opened Optional
  import opened CardTypes

  /** The solo mode and its three limits as the store keeps them. */
  datatype Limits = Limits(mode: Option<SoloGameMode>, timeLimit: Option<int>, deckLimit: Option<int>, targetScore: Option<int>)

  const NoLimits := Limits(None, None, None, None)

  /** A numeric field is truthy: present and not zero. */
  predicate IsSet(x: Option<int>) { x.Some? && x.value != 0 }

  /** Whole seconds since the start (`Math.floor` of the milliseconds over 1000); 0 without a start time. */
  function ElapsedSeconds(start: Option<int>, now: int): int {
    if IsSet(start) then (now - start.value) / 1000 else 0
  }

  /** The store action `checkGameEndConditions`: the reason the game ends now, if any. */
  function EndCheck(l: Limits, ended: bool, start: Option<int>, now: int, cardsPlayed: int, score: real): Option<EndReason> {
    if l.mode.None? || ended then None
    else
      match l.mode.value
      case TimeLimited =>
        if IsSet(l.timeLimit) && ElapsedSeconds(start, now) >= l.timeLimit.value then Some(TimeUp) else None
      case DeckLimited =>
        if IsSet(l.deckLimit) && cardsPlayed >= l.deckLimit.value then Some(DeckFinished) else None
      case ReachScore =>
        if IsSet(l.targetScore) && score >= l.targetScore.value as real then Some(ScoreReached) else None
      case Unlimited => None
  }

  /** The module-level helper `checkGameEndConditions`. */
  function HelperEndCheck(l: Limits, ended: bool, cardsPlayed: int, score: real): Option<EndReason> {
    if l.mode.None? || ended then None
    else
      match l.mode.value
      case DeckLimited =>
        if IsSet(l.deckLimit) && cardsPlayed != 0 && cardsPlayed >= l.deckLimit.value then Some(DeckFinished) else None
      case ReachScore =>
        if IsSet(l.targetScore) && score != 0.0 && score >= l.targetScore.value as real then Some(ScoreReached) else None
      case TimeLimited => None
      case Unlimited => None
  }

  /** `getRemainingTime`: the seconds left, never negative, in a started time-limited game. */
  function RemainingTime(l: Limits, start: Option<int>, now: int): (r: Option<int>)
    ensures r.Some? ==> r.value >= 0
  {
    if l.mode != Some(TimeLimited) || !IsSet(l.timeLimit) || !IsSet(start) then None
    else
      var left := l.timeLimit.value - ElapsedSeconds(start, now);
      Some(if left > 0 then left else 0)
  }

  /** `getRemainingCards`: the cards left to play, never negative, in a deck-limited game. */
  function RemainingCards(l: Limits, cardsPlayed: int): (r: Option<int>)
    ensures r.Some? ==> r.value >= 0
  {
    if l.mode != Some(DeckLimited) || !IsSet(l.deckLimit) then None
    else
      var left := l.deckLimit.value - cardsPlayed;
      Some(if left > 0 then left else 0)
  }

  // ---------------------------------------------------------------------------
  // Properties.

  /** The elapsed time is the milliseconds since the start rounded down to whole seconds. */
  lemma ElapsedIsFloor(start: int, now: int)
    requires start != 0
    ensures var e := ElapsedSeconds(Some(start), now);
      e * 1000 <= now - start < e * 1000 + 1000
  {
  }

  /** Later clocks leave no more time. */
  lemma RemainingTimeDecreases(l: Limits, start: Option<int>, now1: int, now2: int)
    requires now1 <= now2
    requires RemainingTime(l, start, now1).Some?
    ensures RemainingTime(l, start, now2).Some?
    ensures RemainingTime(l, start, now2).value <= RemainingTime(l, start, now1).value
  {
  }

  /** In a running time-limited game the store check ends it exactly when no time remains. */
  lemma TimeUpWhenNoTimeLeft(l: Limits, start: Option<int>, now: int, cardsPlayed: int, score: real)
    requires l.mode == Some(TimeLimited) && IsSet(l.timeLimit) && IsSet(start)
    ensures EndCheck(l, false, start, now, cardsPlayed, score) == Some(TimeUp) <==> RemainingTime(l, start, now) == Some(0)
    ensures EndCheck(l, false, start, now, cardsPlayed, score).None? <==> RemainingTime(l, start, now).value > 0
  {
  }

  /** In a running deck-limited game the store check ends it exactly when no cards remain. */
  lemma DeckFinishedWhenNoCardsLeft(l: Limits, start: Option<int>, now: int, cardsPlayed: int, score: real)
    requires l.mode == Some(DeckLimited) && IsSet(l.deckLimit)
    ensures EndCheck(l, false, start, now, cardsPlayed, score) == Some(DeckFinished) <==> RemainingCards(l, cardsPlayed) == Some(0)
    ensures EndCheck(l, false, start, now, cardsPlayed, score).None? <==> RemainingCards(l, cardsPlayed).value > 0
  {
  }

  /** Whatever the helper ends the game with, the store check ends it with too, at any time. */
  lemma HelperImpliesStore(l: Limits, ended: bool, start: Option<int>, now: int, cardsPlayed: int, score: real)
    requires HelperEndCheck(l, ended, cardsPlayed, score).Some?
    ensures EndCheck(l, ended, start, now, cardsPlayed, score) == HelperEndCheck(l, ended, cardsPlayed, score)
  {
  }

  /** The helper never ends a time-limited game. */
  lemma HelperIgnoresTime(l: Limits, ended: bool, cardsPlayed: int, score: real)
    requires l.mode == Some(TimeLimited)
    ensures HelperEndCheck(l, ended, cardsPlayed, score).None?
  {
  }

  /**
   * With positive deck and score limits (as the mode screen sets them) the two
   * copies agree on everything but time; with a negative limit they do not.
   */
  lemma CopiesAgreeOnPositiveLimits(l: Limits, ended: bool, start: Option<int>, now: int, cardsPlayed: int, score: real)
    requires l.mode != Some(TimeLimited)
    requires l.deckLimit.Some? ==> l.deckLimit.value > 0
    requires l.targetScore.Some? ==> l.targetScore.value > 0
    ensures EndCheck(l, ended, start, now, cardsPlayed, score) == HelperEndCheck(l, ended, cardsPlayed, score)
  {
  }

  /** At zero cards or a zero score a negative limit separates them, for the deck and for the score alike. */
  lemma CopiesDisagreeOnNegativeLimit()
    ensures var l := Limits(Some(DeckLimited), None, Some(-1), None);
      EndCheck(l, false, None, 0, 0, 0.0) == Some(DeckFinished) && HelperEndCheck(l, false, 0, 0.0).None?
    ensures var l := Limits(Some(ReachScore), None, None, Some(-1));
      EndCheck(l, false, None, 0, 0, 0.0) == Some(ScoreReached) && HelperEndCheck(l, false, 0, 0.0).None?
  {
  }
}
