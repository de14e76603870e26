/**
 * The solo-mode screen: picking one of the four solo modes, typing or choosing
 * the limit that mode needs, and the configuration it hands to the game, from
 * which the store takes its limits.
 *
 * Navigation becomes the configuration a handler returns (`None` when it does
 * not navigate).
 */
module SoloSetup {
  import opened Optional
  import opened JsBuiltins
  import opened CardTypes
  import opened SoloSession

  const DefaultTimeLimit := 300
  const DefaultDeckLimit := 50
  const DefaultTargetScore := 1000

  const MinTimeLimit := 10
  const MinDeckLimit := 1
  const MinTargetScore := 100

  /** The state the screen navigates to the game with; the game mode is always `solo`. */
  datatype GameConfig = GameConfig(
    difficulty: Difficulty,
    soloGameMode: SoloGameMode,
    timeLimit: Option<int>,
    deckLimit: Option<int>,
    targetScore: Option<int>)

  /** The limits `startGame` receives from a configuration. */
  function ToLimits(c: GameConfig): Limits {
    Limits(Some(c.soloGameMode), c.timeLimit, c.deckLimit, c.targetScore)
  }

  /** `parseInt(value) || 0`: a value with no leading number counts as 0. */
  function ParsedOrZero(value: string): int {
    match ParseInt(value)
    case None => 0
    case Some(n) => n
  }

  /** `Math.max(minimum, parseInt(value) || 0)`. */
  function Clamp(value: string, minimum: int): (r: int)
    ensures r >= minimum
    ensures r == minimum || r == ParsedOrZero(value)
    ensures ParsedOrZero(value) >= minimum ==> r == ParsedOrZero(value)
  {
    var n := ParsedOrZero(value);
    if n > minimum then n else minimum
  }

  /** The minimum of the limit a mode asks for (the unlimited mode asks for none). */
  function Minimum(mode: SoloGameMode): int {
    match mode
    case TimeLimited => MinTimeLimit
    case DeckLimited => MinDeckLimit
    case ReachScore => MinTargetScore
    case Unlimited => 0
  }

  /** The preset buttons of each mode's dialog. */
  function Presets(mode: SoloGameMode): seq<int> {
    match mode
    case TimeLimited => [60, 300, 600, 900]
    case DeckLimited => [25, 50, 100, 200]
    case ReachScore => [500, 1000, 2500, 5000]
    case Unlimited => []
  }

  /** `handleStartGame`'s configuration: the selected mode and only the limit that mode uses. */
  function ConfigFor(d: Difficulty, mode: SoloGameMode, timeLimit: int, deckLimit: int, targetScore: int): (c: GameConfig)
    ensures c.difficulty == d && c.soloGameMode == mode
    ensures c.timeLimit.Some? <==> mode == TimeLimited
    ensures c.deckLimit.Some? <==> mode == DeckLimited
    ensures c.targetScore.Some? <==> mode == ReachScore
    ensures c.timeLimit.Some? ==> c.timeLimit.value == timeLimit
    ensures c.deckLimit.Some? ==> c.deckLimit.value == deckLimit
    ensures c.targetScore.Some? ==> c.targetScore.value == targetScore
  {
    GameConfig(d, mode,
      if mode == TimeLimited then Some(timeLimit) else None,
      if mode == DeckLimited then Some(deckLimit) else None,
      if mode == ReachScore then Some(targetScore) else None)
  }

  class SoloModeSelect {
    const difficulty: Difficulty
    var selectedMode: Option<SoloGameMode>
    var showConfigDialog: bool
    var timeLimit: int
    var deckLimit: int
    var targetScore: int

    /** Every limit the screen holds is at or above its minimum. */
    predicate Valid()
      reads this
    {
      timeLimit >= MinTimeLimit && deckLimit >= MinDeckLimit && targetScore >= MinTargetScore
    }

    /** The screen opens with the defaults; without a difficulty in the navigation state it is `basic`. */
    constructor (d: Option<Difficulty>)
      ensures difficulty == (if d.Some? then d.value else BasicTier)
      ensures selectedMode == None && !showConfigDialog
      ensures timeLimit == DefaultTimeLimit && deckLimit == DefaultDeckLimit && targetScore == DefaultTargetScore
      ensures Valid()
    {
      difficulty := if d.Some? then d.value else BasicTier;
      selectedMode := None;
      showConfigDialog := false;
      timeLimit := DefaultTimeLimit;
      deckLimit := DefaultDeckLimit;
      targetScore := DefaultTargetScore;
    }

    /** `handleModeSelect`: the unlimited mode starts the game at once; the others open the dialog. */
    method HandleModeSelect(mode: SoloGameMode) returns (nav: Option<GameConfig>)
      modifies this
      ensures selectedMode == Some(mode)
      ensures mode == Unlimited ==> nav == Some(GameConfig(difficulty, Unlimited, None, None, None)) && showConfigDialog == old(showConfigDialog)
      ensures mode != Unlimited ==> nav == None && showConfigDialog
      ensures timeLimit == old(timeLimit) && deckLimit == old(deckLimit) && targetScore == old(targetScore)
    {
      selectedMode := Some(mode);
      if mode == Unlimited {
        nav := Some(GameConfig(difficulty, Unlimited, None, None, None));
      } else {
        showConfigDialog := true;
        nav := None;
      }
    }

    /** `handleValueChange`: the typed value, clamped to the minimum, becomes the selected mode's limit. */
    method HandleValueChange(value: string)
      requires Valid()
      modifies this
      ensures Valid()
      ensures timeLimit == if selectedMode == Some(TimeLimited) then Clamp(value, MinTimeLimit) else old(timeLimit)
      ensures deckLimit == if selectedMode == Some(DeckLimited) then Clamp(value, MinDeckLimit) else old(deckLimit)
      ensures targetScore == if selectedMode == Some(ReachScore) then Clamp(value, MinTargetScore) else old(targetScore)
      ensures selectedMode == old(selectedMode) && showConfigDialog == old(showConfigDialog)
      ensures selectedMode.Some? && selectedMode.value != Unlimited ==>
                GetCurrentValue() == Clamp(value, Minimum(selectedMode.value))
    {
      if selectedMode == Some(TimeLimited) {
        timeLimit := Clamp(value, MinTimeLimit);
      } else if selectedMode == Some(DeckLimited) {
        deckLimit := Clamp(value, MinDeckLimit);
      } else if selectedMode == Some(ReachScore) {
        targetScore := Clamp(value, MinTargetScore);
      }
    }

    /** A preset button of the selected mode's dialog sets that mode's limit. */
    method ChoosePreset(v: int)
      requires Valid() && selectedMode.Some? && v in Presets(selectedMode.value)
      modifies this
      ensures Valid()
      ensures timeLimit == if selectedMode == Some(TimeLimited) then v else old(timeLimit)
      ensures deckLimit == if selectedMode == Some(DeckLimited) then v else old(deckLimit)
      ensures targetScore == if selectedMode == Some(ReachScore) then v else old(targetScore)
      ensures selectedMode == old(selectedMode) && showConfigDialog == old(showConfigDialog)
    {
      PresetsMeetMinimum(selectedMode.value, v);
      if selectedMode == Some(TimeLimited) {
        timeLimit := v;
      } else if selectedMode == Some(DeckLimited) {
        deckLimit := v;
      } else {
        targetScore := v;
      }
    }

    /** `getCurrentValue`: the limit of the selected mode that the dialog's input shows, 0 for no limit. */
    function GetCurrentValue(): (r: int)
      reads this
      ensures selectedMode.None? || selectedMode == Some(Unlimited) ==> r == 0
      ensures Valid() && selectedMode.Some? ==> r >= Minimum(selectedMode.value)
      ensures selectedMode == Some(TimeLimited) ==> r == timeLimit
      ensures selectedMode == Some(DeckLimited) ==> r == deckLimit
      ensures selectedMode == Some(ReachScore) ==> r == targetScore
    {
      match selectedMode
      case Some(TimeLimited) => timeLimit
      case Some(DeckLimited) => deckLimit
      case Some(ReachScore) => targetScore
      case _ => 0
    }

    /** `handleStartGame`: nothing without a selected mode, else the configuration for it. */
    function HandleStartGame(): (nav: Option<GameConfig>)
      reads this
      ensures nav.Some? <==> selectedMode.Some?
      ensures nav.Some? ==> nav.value == ConfigFor(difficulty, selectedMode.value, timeLimit, deckLimit, targetScore)
    {
      if selectedMode.None? then None
      else Some(ConfigFor(difficulty, selectedMode.value, timeLimit, deckLimit, targetScore))
    }
  }

  // ---------------------------------------------------------------------------
  // Properties.

  /** Typing a number at or above the minimum sets exactly that number; anything else sets at least the minimum. */
  lemma ClampReadsTypedNumber(n: int, minimum: int)
    ensures n >= minimum ==> Clamp(IntStr(n), minimum) == n
    ensures n < minimum ==> Clamp(IntStr(n), minimum) == minimum
  {
    ParseIntStr(n);
  }

  /** Text with no number in it counts as 0 and so sets the minimum, since every minimum is positive. */
  lemma UnparsableSetsMinimum(value: string, mode: SoloGameMode)
    requires ParseInt(value).None? && mode != Unlimited
    ensures Clamp(value, Minimum(mode)) == Minimum(mode)
  {
  }

  /** Every preset meets its mode's minimum. */
  lemma PresetsMeetMinimum(mode: SoloGameMode, v: int)
    requires v in Presets(mode)
    ensures v >= Minimum(mode) && mode != Unlimited
  {
  }

  /**
   * A game started from the screen has one positive limit at most, for its
   * own mode, so the store's two end checks agree on every mode but the
   * time-limited one.
   */
  lemma StartedGamesEndAlike(d: Difficulty, mode: SoloGameMode, timeLimit: int, deckLimit: int, targetScore: int,
                             ended: bool, start: Option<int>, now: int, cardsPlayed: int, score: real)
    requires timeLimit >= MinTimeLimit && deckLimit >= MinDeckLimit && targetScore >= MinTargetScore
    requires mode != TimeLimited
    ensures var l := ToLimits(ConfigFor(d, mode, timeLimit, deckLimit, targetScore));
      EndCheck(l, ended, start, now, cardsPlayed, score) == HelperEndCheck(l, ended, cardsPlayed, score)
  {
    var l := ToLimits(ConfigFor(d, mode, timeLimit, deckLimit, targetScore));
    CopiesAgreeOnPositiveLimits(l, ended, start, now, cardsPlayed, score);
  }

  /** The limit a started game runs under is set (present and not zero) exactly for its own mode. */
  lemma StartedLimitIsSet(d: Difficulty, mode: SoloGameMode, timeLimit: int, deckLimit: int, targetScore: int)
    requires timeLimit >= MinTimeLimit && deckLimit >= MinDeckLimit && targetScore >= MinTargetScore
    ensures var l := ToLimits(ConfigFor(d, mode, timeLimit, deckLimit, targetScore));
      && (IsSet(l.timeLimit) <==> mode == TimeLimited)
      && (IsSet(l.deckLimit) <==> mode == DeckLimited)
      && (IsSet(l.targetScore) <==> mode == ReachScore)
  {
  }
}
