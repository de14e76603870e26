/**
 * The card-selection state machine of the hand: which card is selected,
 * whether a second card is awaited, and which store action a click fires.
 *
 * `opening` stands for the board the hand reads: an empty grind deck and no
 * active algebra deck. The engine actions are not called here; a click returns
 * the call it makes, if any.
 */
module HandSelection {
  import opened Optional
  import opened CardTypes
  import opened MathFunctions
  import opened CardGame

  /** The store action a click fires. */
  datatype EngineCall =
    | NoCall
    | PlayNumber(id: CardId)
    | PlayArithmetic(cardId: CardId, targetId: CardId)
    | PlayFunction(cardId: CardId, secondId: Option<CardId>)
    | PlayConstant(id: CardId)
    | PlayVariable(id: CardId)

  /** The three pieces of selection state the hand keeps. */
  datatype Selection = Selection(selected: Option<CardId>, secondNeeded: bool, secondSelected: Option<CardId>)

  const Idle := Selection(None, false, None)

  /** A second card is only awaited for a selected card. */
  predicate Consistent(s: Selection) {
    s.secondNeeded ==> s.selected.Some?
  }

  predicate IsPlainNumber(f: Face) { f.Number? || f.Zero? || f.Negative? }

  /**
   * `handleCardSelect`: the selection after a click on `cardId` and the
   * action it fires. While a second card is awaited, clicking the selected
   * card drops the selection, another operator takes its place, and a
   * number-like card completes the play of the first card. Otherwise the
   * clicked card is selected and, by its type, played at once, kept for a
   * second card, or dropped: number-like cards play at once only at the
   * opening, operators and functions never open, `x^y` and `pyth` await a
   * second card, other functions and the variable card play at once.
   */
  function Click(s: Selection, cards: seq<Card>, cardId: CardId, opening: bool): (Selection, EngineCall) {
    var c := FindById(cards, cardId);
    if c.None? then (s, NoCall)
    else
      var face := c.value.face;
      if s.secondNeeded then
        if s.selected == Some(cardId) then (s.(selected := None, secondNeeded := false), NoCall)
        else if !(IsNumberLike(face) || face.Arithmetic?) then (s, NoCall)
        else if face.Arithmetic? then (Selection(Some(cardId), true, None), NoCall)
        else
          var first := if s.selected.Some? then FindById(cards, s.selected.value) else None;
          var call :=
            if first.Some? && first.value.face.Function? then PlayFunction(s.selected.value, Some(cardId))
            else if first.Some? && first.value.face.Arithmetic? then PlayArithmetic(s.selected.value, cardId)
            else NoCall;
          (Idle, call)
      else if s.selected == Some(cardId) then (s.(selected := None, secondNeeded := false), NoCall)
      else if IsPlainNumber(face) then
        if opening then (s.(selected := None), PlayNumber(cardId)) else (s.(selected := Some(cardId)), NoCall)
      else if face.Arithmetic? then
        if opening then (s.(selected := None), NoCall) else (s.(selected := Some(cardId), secondNeeded := true), NoCall)
      else if face.Function? then
        if opening then (s.(selected := None), NoCall)
        else if face.fn == Power || face.fn == Pyth then (s.(selected := Some(cardId), secondNeeded := true), NoCall)
        else (s.(selected := None), PlayFunction(cardId, None))
      else if face.Constant? then
        if opening then (s.(selected := None), PlayConstant(cardId)) else (s.(selected := Some(cardId)), NoCall)
      else (s.(selected := None), PlayVariable(cardId))
  }

  /**
   * `isCardSelectable`: at the opening only number-like cards; while a second
   * card is awaited the selected card and number-like cards; otherwise any card.
   */
  function Selectable(s: Selection, card: Card, opening: bool): bool {
    if opening then IsNumberLike(card.face)
    else if s.secondNeeded then s.selected == Some(card.id) || IsNumberLike(card.face)
    else true
  }

  class Hand {
    var selectedCard: Option<CardId>
    var secondCardNeeded: bool
    var secondCardSelected: Option<CardId>

    function Current(): Selection
      reads this
    {
      Selection(selectedCard, secondCardNeeded, secondCardSelected)
    }

    constructor ()
      ensures Current() == Idle
    {
      selectedCard := None;
      secondCardNeeded := false;
      secondCardSelected := None;
    }

    /** The effect that clears the selection whenever the number of cards in the hand changes. */
    method HandLengthChanged()
      modifies this
      ensures Current() == Idle
    {
      selectedCard := None;
      secondCardNeeded := false;
      secondCardSelected := None;
    }

    function IsCardSelectable(card: Card, opening: bool): (r: bool)
      reads this
      ensures r == Selectable(Current(), card, opening)
    {
      if opening then IsNumberLike(card.face)
      else if secondCardNeeded then selectedCard == Some(card.id) || IsNumberLike(card.face)
      else true
    }

    /** `handleCardSelect`, through the setters in the order the handler calls them. */
    method HandleCardSelect(cards: seq<Card>, cardId: CardId, opening: bool) returns (call: EngineCall)
      modifies this
      ensures (Current(), call) == Click(old(Current()), cards, cardId, opening)
    {
      call := NoCall;
      var card := FindById(cards, cardId);
      if card.None? {
        return;
      }
      var face := card.value.face;
      if secondCardNeeded {
        if selectedCard == Some(cardId) {
          selectedCard := None;
          secondCardNeeded := false;
          return;
        }
        if !(IsNumberLike(face) || face.Arithmetic?) {
          return;
        }
        if face.Arithmetic? {
          selectedCard := Some(cardId);
          secondCardNeeded := true;
          secondCardSelected := None;
          return;
        }
        secondCardSelected := Some(cardId);
        var first := if selectedCard.Some? then FindById(cards, selectedCard.value) else None;
        if first.Some? && first.value.face.Function? {
          call := PlayFunction(selectedCard.value, Some(cardId));
        } else if first.Some? && first.value.face.Arithmetic? {
          call := PlayArithmetic(selectedCard.value, cardId);
        }
        selectedCard := None;
        secondCardNeeded := false;
        secondCardSelected := None;
        return;
      }
      if selectedCard == Some(cardId) {
        selectedCard := None;
        secondCardNeeded := false;
        return;
      }
      selectedCard := Some(cardId);
      if IsPlainNumber(face) {
        if opening {
          call := PlayNumber(cardId);
          selectedCard := None;
        }
      } else if face.Arithmetic? {
        if opening {
          selectedCard := None;
          return;
        }
        secondCardNeeded := true;
      } else if face.Function? {
        if opening {
          selectedCard := None;
          return;
        }
        if face.fn == Power || face.fn == Pyth {
          secondCardNeeded := true;
        } else {
          call := PlayFunction(cardId, None);
          selectedCard := None;
        }
      } else if face.Constant? {
        if opening {
          call := PlayConstant(cardId);
          selectedCard := None;
        }
      } else {
        call := PlayVariable(cardId);
        selectedCard := None;
      }
    }
  }

  // ---------------------------------------------------------------------------
  // Properties.

  /** A click keeps the selection consistent, and every click that fires an action leaves nothing awaited. */
  lemma ClickKeepsConsistent(s: Selection, cards: seq<Card>, cardId: CardId, opening: bool)
    requires Consistent(s)
    ensures Consistent(Click(s, cards, cardId, opening).0)
    ensures Click(s, cards, cardId, opening).1 != NoCall ==>
      Click(s, cards, cardId, opening).0.selected.None? && !Click(s, cards, cardId, opening).0.secondNeeded
  {
  }

  /**
   * An arithmetic play the hand fires has an operator and a number-like card
   * of the hand, so the store accepts it exactly when it is not a division by
   * a zero-valued card: the hand never checks for that.
   */
  lemma ArithmeticCallsMeetStoreGuard(s: Selection, cards: seq<Card>, cardId: CardId, opening: bool)
    requires Click(s, cards, cardId, opening).1.PlayArithmetic?
    ensures var call := Click(s, cards, cardId, opening).1;
      var a := FindById(cards, call.cardId);
      var n := FindById(cards, call.targetId);
      && a.Some? && a.value.face.Arithmetic? && n.Some? && IsNumberLike(n.value.face)
      && (ArithmeticPlayable(cards, call.cardId, call.targetId)
          <==> !(a.value.face.op == Divide && CardValue(n.value.face) == 0.0))
  {
  }

  /** Every function play the hand fires passes the store's guard. */
  lemma FunctionCallsMeetStoreGuard(s: Selection, cards: seq<Card>, cardId: CardId, opening: bool)
    requires Click(s, cards, cardId, opening).1.PlayFunction?
    ensures var call := Click(s, cards, cardId, opening).1;
      FunctionPlayable(cards, call.cardId, call.secondId)
  {
    var call := Click(s, cards, cardId, opening).1;
    var f := FindById(cards, call.cardId);
    assert f.Some? && f.value.face.Function?;
    if call.secondId.Some? {
      var c := FindById(cards, call.secondId.value);
      assert c.Some? && IsNumberLike(c.value.face);
    }
  }

  /**
   * The single-card plays match the card clicked: a number or constant only
   * at the opening, the variable card whenever it is clicked without a
   * second card awaited.
   */
  lemma SingleCallsMatchCard(s: Selection, cards: seq<Card>, cardId: CardId, opening: bool)
    ensures var call := Click(s, cards, cardId, opening).1;
      var c := FindById(cards, cardId);
      && (call.PlayNumber? ==> call.id == cardId && opening && c.Some? && IsPlainNumber(c.value.face))
      && (call.PlayConstant? ==> call.id == cardId && opening && c.Some? && c.value.face.Constant?)
      && (call.PlayVariable? ==> call.id == cardId && c.Some? && c.value.face.Variable?)
    ensures !s.secondNeeded && s.selected != Some(cardId) && FindById(cards, cardId).Some?
            && FindById(cards, cardId).value.face.Variable? ==>
      Click(s, cards, cardId, opening).1 == PlayVariable(cardId)
  {
  }

  /**
   * At the opening, with nothing awaited, a click fires only a number,
   * constant or variable play, and the cards the hand offers there are
   * exactly the number-like ones.
   */
  lemma OpeningPlaysOnlySingleCards(s: Selection, cards: seq<Card>, cardId: CardId)
    requires !s.secondNeeded
    ensures var call := Click(s, cards, cardId, true).1;
      call.NoCall? || call.PlayNumber? || call.PlayConstant? || call.PlayVariable?
    ensures forall c :: Selectable(s, c, true) <==> IsNumberLike(c.face)
  {
  }

  /** While a second card is awaited, clicking the selected card drops the selection, whatever the board. */
  lemma ClickingSelectedDeselects(s: Selection, cards: seq<Card>, cardId: CardId, opening: bool)
    requires s.secondNeeded && s.selected == Some(cardId) && FindById(cards, cardId).Some?
    ensures Click(s, cards, cardId, opening) == (s.(selected := None, secondNeeded := false), NoCall)
    ensures Selectable(s, FindById(cards, cardId).value, false)
  {
  }
}
