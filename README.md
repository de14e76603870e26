# Top Sum card game: a verified model of the game engine

Top Sum is a single-player arithmetic card game played in the browser.
- **The hand.** The player holds number, zero, negative, operator, function, constant and variable cards.
- **The grind deck.** A number card starts it. From then on, each operator card with a number-like card, and each function card, recalculates the grind value. The best grind value reached is the score.
- **The algebra deck.** A variable card opens it. Operator and function cards then build up a function of `x` as JavaScript source text. Applying that function evaluates it at the grind value.

Five difficulty tiers (basic, decimals, negative, functions, algebra) decide what the decks hold. Four solo modes (unlimited, time-limited, deck-limited, reach-score) decide when a game ends. Around the store sit four more pieces:
- the hand's click-selection state machine;
- the match-history log;
- the replay viewer's cursor;
- the solo-mode screen that chooses and clamps the limits.

The Dafny modules follow the program's files:

| module | file | models |
|---|---|---|
| `Optional`, `JsBuiltins` | `option.dfy`, `js.dfy` | helpers: JavaScript's `toString`, `parseInt`, `padStart`, `slice` |
| `CardTypes` | `card.dfy` | the card, move and mode types |
| `MathFunctions` | `math.dfy` | `calculateArithmetic`, `calculateFunction` (the `!` loop as a method), `getConstantValue` |
| `Algebra` | `algebra.dfy` | the algebra function |
| `Decks` | `deck.dfy` | the deck generators, `shuffleArray` on an array, `drawCards` |
| `HandBalance` | `balance.dfy` | `ensureHandBalance`, `replenishHand` |
| `Unlocks` | `unlock.dfy` | `canUnlockFeature`, `checkForUnlocks` |
| `SoloSession` | `session.dfy` | both copies of the end-condition check, the remaining time and cards |
| `CardGame` | `store.dfy` | the store, as class `Store` |
| `HandSelection` | `hand.dfy` | the hand, as class `Hand` |
| `History` | `history.dfy` | the match history, as class `GameHistory` |
| `Replay` | `replay.dfy` | the replay viewer, as class `ReplayCursor` |
| `SoloSetup` | `solomode.dfy` | the solo-mode screen, as class `SoloModeSelect` |

The algebra function is modelled by:
- an expression tree (`Expr`);
- its printed template text (`Print`);
- a reader of that text (`ParseAlgebraFunction`), proved to invert the printer;
- an evaluator (`Eval`).

The store's state is one record, `GameState`. Each action replaces that record as the source's `set` does.

How the environment is represented:
- **Randomness** (`Math.random`) is a stream `rand: nat -> real` read through a `draws` cursor.
- **Fresh ids** (`uuidv4`, session ids) come from a counter.
- **The clock** (`Date.now`) is a `now` argument.
- **The transcendental functions** (`Math.sqrt`, `sin`, `log`, ...) are the fields of a `MathLib` record, so nothing is asserted about them.

Numbers are exact reals. Rounding to thousandths (`Math.round(x * 1000) / 1000`) is written out as `Round3`.

Every store action within a game ensures `KeepsProgress`: the score and the high score never drop, the move log only grows, an ended game stays ended, and the unlock flags and the hand size stay as they were (the last two because unlocks never fire, see below).

Where the store's code and its documented design differ, the model follows the code. Four such places:
- **A finished game still accepts moves.** No action checks `isGameEnded`.
- **Unlocks never fire.** The unlock code reads the score, the flags and the hand from the store's top level, where they are never set; `Unlocks.UnlockAsWired` proves the result.
- **Three functions are missing from the initial deck.** The initial deck's second function loop iterates `functionOps` again instead of `functionOpsHard`, so `x^y`, `!` and `exp` never appear there (`Decks.InitialDeckLacksHardFunctions`).
- **The formatted algebra function is always `x`.** `getFormattedAlgebraFunction` reads `algebraFunction` from the store's top level, but the text lives under `player`, so the getter returns `x` whatever was built (`CardGame.Store.GetFormattedAlgebraFunction`). The game board reads the player's text itself (`CardGame.Store.ShownAlgebraFunction`).

## Model

| member | source | states |
|---|---|---|
| CardTypes.NumericPayload | client/src/types/card.ts:59-72 | a number or negative card carries its value; a zero card's value is the literal 0 |
| CardTypes.OperatorOfSymbol | client/src/types/card.ts:36 | exactly the four literals `+ - × ÷` are arithmetic operators, and each reads back as itself |
| CardTypes.SymbolRoundTrip | client/src/types/card.ts:36 | reading an operator's literal gives that operator back |
| CardTypes.AllArithmeticOperators | client/src/types/card.ts:36 | there are exactly four arithmetic operators |
| CardTypes.ArithmeticOperatorListed | client/src/types/card.ts:36 | every arithmetic operator is among the four listed |
| CardTypes.AllFunctionOperators | client/src/types/card.ts:38-55 | the function operator type has 16 distinct members, `modulus` among them; `CardTypes.FunctionOperatorListed` shows the list is complete |
| CardTypes.FunctionOperatorListed | client/src/types/card.ts:38-55 | every function operator of the type is in the list |
| CardTypes.FindById | client/src/lib/stores/useCardGame.ts:217 | `find` by id returns the first card of the sequence with that id, and nothing exactly when no card has it |
| CardTypes.RemoveId | client/src/lib/stores/useCardGame.ts:245 | `filter` by id keeps exactly the cards with another id, and shrinks the sequence when the id occurs |
| CardTypes.RemoveIdAppend | client/src/lib/stores/useCardGame.ts:245 | `filter` by id works part by part on a concatenation, so the cards kept stay in their order |
| CardTypes.RemoveOne | client/src/lib/stores/useCardGame.ts:245 | with unique ids, filtering a card's id removes exactly that one card, and the ids stay unique |
| CardTypes.RemoveKeepsUnique | client/src/lib/stores/useCardGame.ts:245 | filtering keeps the ids unique |
| JsBuiltins.NatStrRoundTrip | client/src/components/game/Replay.tsx:56 | the decimal numeral a natural number prints as reads back as that number |
| JsBuiltins.MilliRoundTrip | client/src/lib/stores/useCardGame.ts:305-314 | a number of thousandths printed into a template reads back as itself, whatever text follows |
| JsBuiltins.ParseIntStr | client/src/pages/SoloModeSelect.tsx:215 | `parseInt` of an integer's `toString` gives the integer back |
| JsBuiltins.PadStart2 | client/src/components/game/Replay.tsx:56 | `padStart(2, '0')` gives at least two characters, ending in the input |
| JsBuiltins.SlicePrefix | client/src/lib/stores/useGameHistory.ts:45 | `slice(0, end)` gives a prefix; its length is `end` clamped to the sequence, and a negative `end` counts back from the end |
| MathFunctions.Round3 | client/src/components/game/MathFunctions.tsx:15 | the result is a whole number of thousandths, within half a thousandth of the input (halves rounded up) |
| MathFunctions.Round3Idempotent | client/src/components/game/MathFunctions.tsx:15 | rounding twice is rounding once |
| MathFunctions.RoundByDifficulty | client/src/components/game/MathFunctions.tsx:8-16 | basic-tier division gives the floor of the quotient; everything else is rounded to thousandths |
| MathFunctions.CalculateArithmetic | client/src/components/game/MathFunctions.tsx:6-43 | it throws exactly on a division of a non-zero value by zero; on a zero grind value it returns the played number, rounded by the tier |
| MathFunctions.ArithmeticRounds | client/src/components/game/MathFunctions.tsx:23-42 | on a non-zero value, each operator computes its sum, difference, product or quotient, rounded by the tier |
| MathFunctions.ArithmeticExamples | client/src/components/game/MathFunctions.tsx:23-39 | 5 + 3 is 8; on the basic tier 7 ÷ 2 is 3 and −7 ÷ 2 is −4 (floor), on the decimals tier 7 ÷ 2 is 3.5 |
| MathFunctions.ArithmeticResultIsThousandths | client/src/components/game/MathFunctions.tsx:8-16 | off the basic tier every result is a whole number of thousandths |
| MathFunctions.BasicDivisionIsWhole | client/src/components/game/MathFunctions.tsx:36-38 | on the basic tier every division result is a whole number |
| MathFunctions.ArithmeticStartsFromZero | client/src/components/game/MathFunctions.tsx:19-21 | a zero grind value is replaced by the played number |
| MathFunctions.FactorialLoop | client/src/components/game/MathFunctions.tsx:84-89 | the descending loop computes the falling product of its input |
| MathFunctions.FallingProductOfNat | client/src/components/game/MathFunctions.tsx:84-89 | on a natural number the falling product is its factorial |
| MathFunctions.FallingProductPositive | client/src/components/game/MathFunctions.tsx:84-89 | the loop's result is always positive |
| MathFunctions.FunctionResult | client/src/components/game/MathFunctions.tsx:48-109 | on a zero value, `x^y` and `pyth` give the rounded second operand and everything else 0; `√` and `ln` of a negative, and a two-operand function without its operand, return the value |
| MathFunctions.CalculateFunction | client/src/components/game/MathFunctions.tsx:48-109 | `calculateFunction`, with its `!` loop, equals the case table `FunctionResult` |
| MathFunctions.FactorialOfNatural | client/src/components/game/MathFunctions.tsx:83-89 | `!` of a positive natural number is its factorial |
| MathFunctions.ModIsAbsoluteValue | client/src/components/game/MathFunctions.tsx:77-78 | `mod` is the absolute value, never negative, whatever the second operand |
| MathFunctions.UnroundedCases | client/src/components/game/MathFunctions.tsx:83-103 | on a non-zero value, `%` is 100 times the value, `!` of a negative value is 1, and `ln` of a positive value is the unrounded logarithm |
| MathFunctions.ModulusKeepsValue | client/src/components/game/MathFunctions.tsx:48-109 | `modulus` has no case: it gives the rounded value whatever the second operand |
| MathFunctions.SecondOperandIgnored | client/src/components/game/MathFunctions.tsx:48-109 | only `x^y` and `pyth` read the second operand |
| MathFunctions.FunctionResultRounded | client/src/components/game/MathFunctions.tsx:62-107 | every rounded case gives a whole number of thousandths |
| MathFunctions.TrigonometryInDegrees | client/src/components/game/MathFunctions.tsx:67-72 | `sin`, `cos` and `tan` read the grind value in degrees |
| MathFunctions.GetConstantValue | client/src/components/game/MathFunctions.tsx:114-128 | π is 3.142, e is 2.718 and any other symbol 0 |
| MathFunctions.CardValue | client/src/lib/stores/useCardGame.ts:221-227 | a number-like card's value is a whole number of thousandths: its payload, or its constant's rounded value |
| Algebra.ParsePrint | client/src/lib/stores/useCardGame.ts:300-317 | the reader recovers every template-built function from its text, leaving the text after it |
| Algebra.ParseAlgebraFunctionRoundTrip | client/src/lib/stores/useCardGame.ts:300-317 | the stored text reads back as the function it was printed from |
| Algebra.PrintInjective | client/src/lib/stores/useCardGame.ts:423-467 | different functions are stored as different texts |
| Algebra.FunctionStep | client/src/lib/stores/useCardGame.ts:423-467 | a function card wraps the function in one template, or leaves it as it is |
| Algebra.ArithmeticTemplatePrints | client/src/lib/stores/useCardGame.ts:300-317 | the arithmetic template applied to the text prints the arithmetic node, and so it reads back |
| Algebra.FunctionTemplatePrints | client/src/lib/stores/useCardGame.ts:423-467 | the function template applied to the text prints `FunctionStep`, and so it reads back |
| Algebra.FunctionTemplateChanges | client/src/lib/stores/useCardGame.ts:423-467 | a function card changes the text exactly when it has a template: the six one-operand ones always, `x^y`, `mod` and `pyth` only with a second value |
| Algebra.StepChanges | client/src/lib/stores/useCardGame.ts:423-467 | the same, on the tree |
| Algebra.Trunc | client/src/lib/stores/useCardGame.ts:454 | truncation toward zero, as JavaScript's `%` uses it |
| Algebra.EvaluateAlgebraicExpression | client/src/components/game/MathFunctions.tsx:136-161 | the value of the function read from the text, rounded to thousandths; `x` for a non-finite value; 0 for text the reader rejects |
| Algebra.EvaluatePrinted | client/src/components/game/MathFunctions.tsx:136-161 | evaluating the stored text is evaluating the function it was printed from |
| Algebra.EvaluateIdentity | client/src/components/game/MathFunctions.tsx:136-161 | a fresh algebra deck (`x`) gives back the rounded grind value |
| Algebra.AlgebraArithmeticMatchesGrind | client/src/lib/stores/useCardGame.ts:297-379 | on a non-zero grind value, one operator card on `x` evaluates as the same card on the grind deck, except for basic-tier division |
| Algebra.BasicDivisionDiffers | client/src/components/game/MathFunctions.tsx:10-12 | on the basic tier 7 ÷ 2 is 3 on the grind deck but 3.5 in the algebra function |
| Algebra.ZeroGrindValueDiffers | client/src/components/game/MathFunctions.tsx:19-21 | a zero grind value is replaced by the card on the grind deck, but multiplied in the algebra function |
| Algebra.CallOnVariable | client/src/lib/stores/useCardGame.ts:428-440 | a `Math` call other than `sqrt` applied to `x` evaluates to the call's rounded value |
| Algebra.TrigonometryInRadians | client/src/lib/stores/useCardGame.ts:434-440 | in the algebra function `sin`, `cos` and `tan` read radians |
| Decks.Pick | client/src/lib/stores/useCardGame.ts:927 | `Math.floor(Math.random() * (i + 1))` is a position among the first `i + 1` |
| Decks.PickIsFloor | client/src/lib/stores/useCardGame.ts:927 | for a draw in [0, 1) it is exactly that floor |
| Decks.Swap | client/src/lib/stores/useCardGame.ts:928 | the swap exchanges two positions and keeps the rest |
| Decks.ShufflePermutes | client/src/lib/stores/useCardGame.ts:924-931 | shuffling only reorders: the result is a permutation of the input |
| Decks.ShuffleArray | client/src/lib/stores/useCardGame.ts:924-931 | the in-place loop on an array computes `Shuffle`, one draw per position from the last down to the second |
| Decks.GenerateInitialDeck | client/src/lib/stores/useCardGame.ts:742-828 | the tier's face list in push order, with fresh consecutive ids, shuffled |
| Decks.GenerateDeck | client/src/lib/stores/useCardGame.ts:831-914 | the same for the smaller regenerated deck |
| Decks.InitialDeckCounts | client/src/lib/stores/useCardGame.ts:742-828 | per tier, the initial deck holds 27 numbers, 12 operators, one zero, 18 negatives, 36 functions and 2 constants, as the tier has them |
| Decks.DeckCounts | client/src/lib/stores/useCardGame.ts:831-914 | per tier, a regenerated deck holds 18 numbers, 8 operators, one zero, 9 negatives, 15 functions and 2 constants, as the tier has them |
| Decks.InitialDeckSize | client/src/lib/stores/useCardGame.ts:742-828 | the initial deck has 40, 42, 60, 96 and 96 cards on the five tiers |
| Decks.DeckSize | client/src/lib/stores/useCardGame.ts:831-914 | a regenerated deck has 27, 29, 38, 53 and 53 cards on the five tiers |
| Decks.InitialDeckLacksHardFunctions | client/src/lib/stores/useCardGame.ts:788-806 | `x^y`, `!` and `exp` never appear in the initial deck |
| Decks.InitialFunctionsAreEasy | client/src/lib/stores/useCardGame.ts:789 | every initial-deck function is one of the twelve in `functionOps` |
| Decks.InitialDeckLacksVariables | client/src/lib/stores/useCardGame.ts:742-828 | no initial deck holds a variable card |
| Decks.DeckLacksVariables | client/src/lib/stores/useCardGame.ts:831-914 | no regenerated deck holds a variable card |
| Decks.GeneratedDeckPermutes | client/src/lib/stores/useCardGame.ts:742-914 | a generated deck is a permutation of its face list, and every id is fresh |
| Decks.DrawCards | client/src/lib/stores/useCardGame.ts:917-921 | the first `count` cards (or all of them), followed by the rest, make up the deck |
| HandBalance.FirstMatch | client/src/lib/stores/useCardGame.ts:953 | `findIndex` gives the first position of a card of the kind, or none when there is none |
| HandBalance.Pull | client/src/lib/stores/useCardGame.ts:953-966 | one pass appends exactly one card of the kind to the hand |
| HandBalance.PullMovesFirstMatch | client/src/lib/stores/useCardGame.ts:953-966 | a pass moves the deck's first card of the kind, keeping every card; failing that it makes one up with the next id |
| HandBalance.PullCounts | client/src/lib/stores/useCardGame.ts:953-966 | a pass adds one card of the kind and loses none of any kind |
| HandBalance.SynthesizedOperators | client/src/lib/stores/useCardGame.ts:996-1000 | a made-up function card chooses among fifteen operators |
| HandBalance.BalanceOnlyAppends | client/src/lib/stores/useCardGame.ts:934-1058 | balancing never removes or reorders a hand card |
| HandBalance.BalanceHasNumber | client/src/lib/stores/useCardGame.ts:947-968 | after balancing the hand holds a number-like card |
| HandBalance.BalanceFunctionsTier | client/src/lib/stores/useCardGame.ts:970-1021 | on the functions tier the balanced hand holds a function card and an operator |
| HandBalance.BalanceOtherTiers | client/src/lib/stores/useCardGame.ts:1022-1046 | on every other tier the balanced hand holds at least two operators |
| HandBalance.ReplenishFills | client/src/lib/stores/useCardGame.ts:1061-1097 | refilling keeps the balanced hand as a prefix and fills it to the hand size |
| HandBalance.ReplenishDrawsInOrder | client/src/lib/stores/useCardGame.ts:1061-1097 | the refill draws, in order, from the player's deck when it is long enough, else from a freshly generated deck |
| Unlocks.NegativeFace | client/src/lib/stores/useCardGame.ts:1149-1153 | an unlocked negative card has a value from -9 to -1 |
| Unlocks.FunctionFace | client/src/lib/stores/useCardGame.ts:1168-1169 | an unlocked function card is never `modulus` |
| Unlocks.UnlockAsWired | client/src/lib/stores/useCardGame.ts:115-132 | with the score read from the wrong place, no feature is unlockable and `checkForUnlocks` changes nothing |
| Unlocks.UnlockSetsFlags | client/src/lib/stores/useCardGame.ts:1108-1228 | a flag ends up set exactly when it was set, or its feature is unlockable by `canUnlockFeature` |
| Unlocks.UnlockRaisesHandSize | client/src/lib/stores/useCardGame.ts:1162-1181 | the hand size becomes 9 exactly when functions unlock now on a hand size under 9 |
| Unlocks.UnlockAddsCards | client/src/lib/stores/useCardGame.ts:1216-1227 | one fresh card per firing feature; the hand keeps its cards and grows by those that fit into its size |
| Unlocks.NewCardsFresh | client/src/lib/stores/useCardGame.ts:1131-1209 | the new cards carry consecutive fresh ids, one per feature that fires |
| Unlocks.NewCardsInOrder | client/src/lib/stores/useCardGame.ts:1131-1209 | the unlock pass makes one card per firing feature, in the order zero, negative, function, constant, variable, each of its feature's kind |
| Unlocks.UnlockCardsInOrder | client/src/lib/stores/useCardGame.ts:1216-1227 | the cards that join the hand are a prefix of the new cards, in that order and of those kinds |
| SoloSession.RemainingTime | client/src/lib/stores/useCardGame.ts:691-698 | the time left is never negative |
| SoloSession.RemainingCards | client/src/lib/stores/useCardGame.ts:700-706 | the cards left are never negative |
| SoloSession.ElapsedIsFloor | client/src/lib/stores/useCardGame.ts:655 | the elapsed time is the milliseconds since the start rounded down to whole seconds |
| SoloSession.RemainingTimeDecreases | client/src/lib/stores/useCardGame.ts:691-698 | a later clock leaves no more time |
| SoloSession.TimeUpWhenNoTimeLeft | client/src/lib/stores/useCardGame.ts:641-677 | a running time-limited game ends with `time_up` exactly when no time remains |
| SoloSession.DeckFinishedWhenNoCardsLeft | client/src/lib/stores/useCardGame.ts:641-677 | a running deck-limited game ends with `deck_finished` exactly when no cards remain |
| SoloSession.HelperImpliesStore | client/src/lib/stores/useCardGame.ts:712-739 | whatever end the helper check finds, the store check finds too |
| SoloSession.HelperIgnoresTime | client/src/lib/stores/useCardGame.ts:712-739 | the helper check never ends a time-limited game |
| SoloSession.CopiesAgreeOnPositiveLimits | client/src/lib/stores/useCardGame.ts:641-739 | with positive limits and no time limit, the two copies of the check agree |
| SoloSession.CopiesDisagreeOnNegativeLimit | client/src/lib/stores/useCardGame.ts:641-739 | at zero cards and a zero score, a negative deck limit or a negative target score ends the game in the store check but not in the helper |
| CardGame.Better | client/src/lib/stores/useCardGame.ts:357-369 | the kept score is the larger of the new value and the old score |
| CardGame.Milli | client/src/lib/stores/useCardGame.ts:305-314 | a card value in thousandths prints exactly |
| CardGame.GrindArithmeticValue | client/src/lib/stores/useCardGame.ts:335-340 | the value an allowed arithmetic play gives is what `calculateArithmetic` returns |
| CardGame.DistinctCardsDistinctIds | client/src/lib/stores/useCardGame.ts:273-279 | two different cards of a hand with unique ids have different ids |
| CardGame.ArithmeticPlayMovesCards | client/src/lib/stores/useCardGame.ts:358 | an arithmetic play takes exactly its two cards out of the hand, and the ids stay unique |
| CardGame.FunctionPlayMovesCards | client/src/lib/stores/useCardGame.ts:412-417 | a function play takes exactly its function card, plus the second card if one is read |
| CardGame.TwoCardsLeave | client/src/lib/stores/useCardGame.ts:326 | filtering two different cards' ids removes exactly those two |
| CardGame.ScoringKeepsRecords | client/src/lib/stores/useCardGame.ts:352-369 | every scoring update sets the grind value and never lowers the score or the high score |
| CardGame.InitialDealShares | client/src/lib/stores/useCardGame.ts:134-163 | the deal gives seven cards to the hand; hand and pool together hold exactly the tier's initial deck under fresh ids |
| CardGame.Store.constructor | client/src/lib/stores/useCardGame.ts:62-110 | `initialState`, with the stored high score |
| CardGame.Store.StartGame | client/src/lib/stores/useCardGame.ts:134-163 | a fresh game on the tier with the given limits and start time; seven dealt cards, the rest in the pool |
| CardGame.Store.ResetGame | client/src/lib/stores/useCardGame.ts:165-172 | back to `initialState`, keeping the high score |
| CardGame.Store.ResetWithSameDifficulty | client/src/lib/stores/useCardGame.ts:174-183 | a new game on the same tier, without solo limits |
| CardGame.Store.EnsureHandBalance | client/src/lib/stores/useCardGame.ts:934-1058 | the loops compute `Balance` on the hand and the player's deck |
| CardGame.Store.ReplenishHand | client/src/lib/stores/useCardGame.ts:1061-1097 | balance, then refill, as `Replenish` |
| CardGame.Store.DrawCard | client/src/lib/stores/useCardGame.ts:185-210 | nothing on a full hand; else the first pool card joins the hand, then the balance runs; an empty pool spends a regenerated deck's ids and draws but stays empty |
| CardGame.Store.PlayNumberCard | client/src/lib/stores/useCardGame.ts:212-265 | nothing for a missing or non-number card; on an empty grind deck the card starts it and a move is logged; otherwise it only leaves the hand; the hand is refilled; the score and played count are never touched |
| CardGame.Store.PlayConstantCard | client/src/lib/stores/useCardGame.ts:543-546 | exactly `playNumberCard`: nothing for a missing or non-number-like card (any number-like card is accepted, not only constants); on an empty grind deck the card starts it, a move is logged and the hand is refilled; otherwise the card only leaves the hand before the refill; a constant seeds the grind value with 3.142 or 2.718 |
| CardGame.Store.PlayArithmeticCard | client/src/lib/stores/useCardGame.ts:267-384 | nothing unless an operator and a number-like card are in the hand and it is no division by zero; on the algebra deck the template rewrites the text; on the grind deck the value, score, high score, played count (+2) and move log update, then refill and the end check |
| CardGame.Store.ArithmeticOnAlgebraDeck | client/src/lib/stores/useCardGame.ts:297-331 | the algebra branch: both cards join the algebra deck and the tree grows by the arithmetic node |
| CardGame.Store.ArithmeticOnGrindDeck | client/src/lib/stores/useCardGame.ts:333-379 | the grind branch, followed by refill and the store's end check |
| CardGame.Store.PlayFunctionCard | client/src/lib/stores/useCardGame.ts:386-541 | nothing unless the function card (and any second card read) is valid; on the algebra deck the template rewrites the text; on the grind deck the value and records update and the played count rises by 1 even for two cards; then the helper end check and the refill |
| CardGame.Store.FunctionOnAlgebraDeck | client/src/lib/stores/useCardGame.ts:420-483 | the algebra branch: the tree takes `FunctionStep` |
| CardGame.Store.FunctionOnGrindDeck | client/src/lib/stores/useCardGame.ts:485-540 | the grind branch: update, the helper end check, then the refill |
| CardGame.Store.PlayVariableCard | client/src/lib/stores/useCardGame.ts:548-567 | the variable card opens a fresh algebra deck holding `x` and makes it the target |
| CardGame.Store.SetActiveTargetDeck | client/src/lib/stores/useCardGame.ts:569-571 | only the target deck changes |
| CardGame.Store.ApplyAlgebraFunction | client/src/lib/stores/useCardGame.ts:573-613 | with a non-empty algebra deck, the function evaluated at the grind value becomes the grind value, the score follows, and the algebra deck resets to `x` |
| CardGame.Store.GetFormattedAlgebraFunction | client/src/lib/stores/useCardGame.ts:615-617 | always `x`, since the top-level field it reads is never set; that text reads back as the bare variable |
| CardGame.Store.ShownAlgebraFunction | client/src/components/game/GameBoard.tsx:45 | the player's algebra text, or `x` when empty, as the game board shows it; it reads back as the function built |
| CardGame.Store.EndGame | client/src/lib/stores/useCardGame.ts:679-689 | the game is over with the reason and end time |
| CardGame.Store.CheckGameEndConditions | client/src/lib/stores/useCardGame.ts:641-677 | the store's end check applied to the state |
| CardGame.Store.CheckGameEndConditionsHelper | client/src/lib/stores/useCardGame.ts:712-739 | the helper's end check applied to the state |
| CardGame.Store.GetRemainingTime | client/src/lib/stores/useCardGame.ts:691-698 | a value exactly for a started time-limited game with a set limit, never negative |
| CardGame.Store.GetRemainingCards | client/src/lib/stores/useCardGame.ts:700-706 | a value exactly for a deck-limited game with a set limit, never negative |
| HandSelection.Hand.constructor | client/src/components/game/Hand.tsx:33-37 | the hand starts with nothing selected |
| HandSelection.Hand.HandLengthChanged | client/src/components/game/Hand.tsx:33-37 | a change in hand length clears all selection state |
| HandSelection.Hand.IsCardSelectable | client/src/components/game/Hand.tsx:157-173 | at the opening only number-like cards; while a second card is awaited, the selected card and number-like cards; otherwise every card |
| HandSelection.Hand.HandleCardSelect | client/src/components/game/Hand.tsx:39-154 | the setters in order produce the selection and the store call of `Click` |
| HandSelection.ClickKeepsConsistent | client/src/components/game/Hand.tsx:39-154 | a second card is only awaited with a card selected, and a click that plays leaves nothing selected |
| HandSelection.ArithmeticCallsMeetStoreGuard | client/src/components/game/Hand.tsx:44-81 | an arithmetic play the hand fires has an operator and a number-like card; the store accepts it exactly when it is not a division by a zero-valued card |
| HandSelection.FunctionCallsMeetStoreGuard | client/src/components/game/Hand.tsx:39-154 | every function play the hand fires passes the store's guard |
| HandSelection.SingleCallsMatchCard | client/src/components/game/Hand.tsx:95-153 | number and constant plays happen only at the opening; a variable card clicked with nothing awaited always plays |
| HandSelection.OpeningPlaysOnlySingleCards | client/src/components/game/Hand.tsx:157-162 | at the opening only single-card plays fire, and exactly the number-like cards are selectable |
| HandSelection.ClickingSelectedDeselects | client/src/components/game/Hand.tsx:44-50 | while a second card is awaited, clicking the selected card drops the selection |
| History.Record | client/src/lib/stores/useGameHistory.ts:44-46 | the new session goes first, followed by the old log cut so the total is at most 100 |
| History.SessionOf | client/src/lib/stores/useGameHistory.ts:50-64 | a solo session at `now`; absent time, card count and moves become 0, 0 and none |
| History.MaxScore | client/src/lib/stores/useGameHistory.ts:85 | the highest score is at least every score and is some session's score |
| History.GameHistory.constructor | client/src/lib/stores/useGameHistory.ts:36 | the log starts empty |
| History.GameHistory.AddSession | client/src/lib/stores/useGameHistory.ts:38-47 | the session with its new id is recorded in front |
| History.GameHistory.AddGame | client/src/lib/stores/useGameHistory.ts:49-69 | the session built from the game data is recorded in front |
| History.GameHistory.ClearHistory | client/src/lib/stores/useGameHistory.ts:88-90 | the log is emptied |
| History.GameHistory.GetRecentSessions | client/src/lib/stores/useGameHistory.ts:71-73 | a prefix of the log, of `count` entries at most; a negative count counts back from the end |
| History.GameHistory.GetTotalGamesPlayed | client/src/lib/stores/useGameHistory.ts:75-77 | the number of sessions |
| History.GameHistory.GetTotalTimePlayed | client/src/lib/stores/useGameHistory.ts:79-81 | the sum of the sessions' times |
| History.GameHistory.GetHighestScore | client/src/lib/stores/useGameHistory.ts:83-86 | 0 for an empty log; otherwise a score of the log at least every other |
| History.RecordAllBounded | client/src/lib/stores/useGameHistory.ts:45 | however many sessions are recorded, the log never holds more than 100 |
| History.RecordAllNewestFirst | client/src/lib/stores/useGameHistory.ts:44-46 | recording sessions one by one leaves the 100 newest, newest first, ahead of the old log |
| History.SumTimeAppend | client/src/lib/stores/useGameHistory.ts:80 | the total time of two logs together is the sum of their totals |
| History.RecordTotalTime | client/src/lib/stores/useGameHistory.ts:44-46 | recording adds the new session's time, less the dropped oldest one's when the log was full |
| History.RecordHighestScore | client/src/lib/stores/useGameHistory.ts:83-86 | after recording, the highest score is at least the new score; and below 100 entries it is the larger of the new score and the old highest |
| Replay.IntRemainder | client/src/components/game/Replay.tsx:55 | JavaScript's `%` takes the sign of the dividend |
| Replay.ReplayCursor.constructor | client/src/components/game/Replay.tsx:16-17 | the replay starts at the first move, paused |
| Replay.ReplayCursor.HandlePlay | client/src/components/game/Replay.tsx:36 | play and pause toggle |
| Replay.ReplayCursor.HandleReset | client/src/components/game/Replay.tsx:37-40 | back to the first move, stopped |
| Replay.ReplayCursor.HandleNext | client/src/components/game/Replay.tsx:41-45 | one move on, unless at the last; the cursor stays in range |
| Replay.ReplayCursor.HandlePrevious | client/src/components/game/Replay.tsx:46-50 | one move back, unless at the first; the cursor stays in range |
| Replay.ReplayCursor.Tick | client/src/components/game/Replay.tsx:20-34 | one firing of the interval: stop at the last move, else advance; nothing while paused |
| Replay.ReplayCursor.JumpToEnd | client/src/components/game/Replay.tsx:224 | the cursor goes to the last move |
| Replay.ReplayCursor.SelectEntry | client/src/components/game/Replay.tsx:189 | a click on list entry `i` shows move `i` |
| Replay.ReplayCursor.CurrentMove | client/src/components/game/Replay.tsx:116 | the move shown is one of the game's moves |
| Replay.ControlsKeepInRange | client/src/components/game/Replay.tsx:20-50 | every control keeps the cursor inside the list of moves |
| Replay.NextPreviousInverse | client/src/components/game/Replay.tsx:41-50 | away from the ends, next undoes previous and previous undoes next |
| Replay.StepsMoveIffRoom | client/src/components/game/Replay.tsx:41-50 | next moves exactly when there is a later move and previous exactly when there is an earlier one; otherwise nothing changes |
| Replay.PausedStaysPut | client/src/components/game/Replay.tsx:20-21 | paused, the interval changes nothing however often it fires |
| Replay.AutoPlayAdvances | client/src/components/game/Replay.tsx:23-30 | auto-play shows each later move in turn |
| Replay.AutoPlayStopsAtEnd | client/src/components/game/Replay.tsx:23-30 | enough firings stop auto-play on the last move |
| Replay.TicksSplit | client/src/components/game/Replay.tsx:20-34 | `a + b` firings are `a` firings followed by `b` |
| Replay.FormatTimestampReadsBack | client/src/components/game/Replay.tsx:52-57 | from a non-negative start, `m:ss` reads back as the whole minutes and the remaining seconds (two digits, under 60) of the elapsed whole seconds |
| SoloSetup.Clamp | client/src/pages/SoloModeSelect.tsx:214-227 | `Math.max(minimum, parseInt(value) \|\| 0)`: at least the minimum, and the typed number when it reaches the minimum |
| SoloSetup.ConfigFor | client/src/pages/SoloModeSelect.tsx:126-139 | the configuration carries the tier, the mode, and only the limit that mode uses |
| SoloSetup.SoloModeSelect.constructor | client/src/pages/SoloModeSelect.tsx:58-64 | defaults of 300 s, 50 cards and 1000 points; the basic tier when no difficulty is passed |
| SoloSetup.SoloModeSelect.HandleModeSelect | client/src/pages/SoloModeSelect.tsx:109-124 | the unlimited mode starts the game at once with no limit; the others open the dialog |
| SoloSetup.SoloModeSelect.HandleValueChange | client/src/pages/SoloModeSelect.tsx:214-227 | the typed value, clamped to the minimum, becomes the selected mode's limit; the limits stay valid |
| SoloSetup.SoloModeSelect.ChoosePreset | client/src/pages/SoloModeSelect.tsx:145-198 | a preset button sets the selected mode's limit; the limits stay valid |
| SoloSetup.SoloModeSelect.GetCurrentValue | client/src/pages/SoloModeSelect.tsx:201-212 | the selected mode's limit, at least its minimum; 0 with no limited mode |
| SoloSetup.SoloModeSelect.HandleStartGame | client/src/pages/SoloModeSelect.tsx:126-139 | nothing without a selected mode; otherwise the configuration for it |
| SoloSetup.ClampReadsTypedNumber | client/src/pages/SoloModeSelect.tsx:214-227 | a typed number at or above the minimum is kept exactly; a lower one becomes the minimum |
| SoloSetup.UnparsableSetsMinimum | client/src/pages/SoloModeSelect.tsx:215 | text with no number in it counts as 0 and so sets the minimum |
| SoloSetup.PresetsMeetMinimum | client/src/pages/SoloModeSelect.tsx:145-198 | every preset meets its mode's minimum |
| SoloSetup.StartedGamesEndAlike | client/src/pages/Game.tsx:58-76 | a game started from the screen, when not time-limited, ends alike under the store's and the helper's check |
| SoloSetup.StartedLimitIsSet | client/src/pages/Game.tsx:58-76 | a started game's limit is set exactly for its own mode |

## Left out

- Floating point: numbers are exact reals. IEEE rounding, overflow to `Infinity` (a large `x^y`) and `NaN` are not modelled. The only exception is the algebra evaluation, which reports a non-finite value as `None`. There, a non-finite intermediate result counts as non-finite even where JavaScript would recover a finite value, as `1/(1/0)` is 0.
- The transcendental functions (`sqrt`, `cbrt`, `sin`, `cos`, `tan`, `log`, `exp`, `pow`) are fields of a `MathLib` record, and nothing is assumed about their values.
- Number printing: `toString` is modelled only for whole numbers of thousandths, the only values a card carries.
- Algebra.EvaluateAlgebraicExpression: the text goes through the reader and the expression tree instead of `Function` evaluation. Its catch path (0) stands for text the templates cannot build, which no store action can produce.
- CardGame.Store.PlayArithmeticCard: the catch branch is not modelled, because the guard already excludes the division that throws.
- CardGame.Store.ApplyAlgebraFunction: this is modelled as one synchronous step. The dynamic import, and the stale state its callback spreads, are concurrency.
- CardGame.Store.PlayFunctionCard: it uses the case table `FunctionResult`, not the `CalculateFunction` method. `CalculateFunction` is proved equal to `FunctionResult`.
- Persistence: the high score's `localStorage` read and write, and the history's `persist` middleware, are storage I/O. The stored high score is an argument.
- Move description strings and console logging are not modelled.
- The multiplayer fields (`gameMode`, `gameLength`, `gameCode`, the opponent deck) are not modelled, since no code path uses them.
- Rendering: `getCardColor`, the replay's `getCardDisplay` and colour maps, `getValueLabel`, and every other display component are not modelled.
- Timers: each firing of the replay's interval is one call of `Tick`. The playback speed, which only sets how often it fires, is not modelled. The solo game timer component is not modelled.
- Replay controls require at least one move, because the viewer only renders them then. A negative elapsed time formats as the source does (e.g. `-1:-5`); the read-back lemma covers only non-negative ones.
- Card.tsx's own click gating in front of the hand is not part of this model. The hand's `opening` flag stands for an empty grind deck with no active algebra deck.
- Session ids (`session_<time>_<random>`) become caller-supplied numbers. The `manual_end` reason is `None`.
- The solo mode and its three limits are grouped as one `Limits` value in the store's state.
- Navigation is the configuration a screen handler returns, not a route change.
- Unlocks.CanUnlockFeature: the rule is stated over an explicit score argument. In the store it is always called without one, because the score is read from a field that is never set.
