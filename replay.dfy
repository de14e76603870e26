/**
 * The replay viewer's cursor over a finished game's moves: the index of the
 * move shown, whether auto-play runs, the controls that move the index, the
 * auto-play interval's step, and the `m:ss` time stamp of each move.
 *
 * One firing of the auto-play interval is one call of `Tick`; the playback
 * speed only sets how often it fires and is not modelled. The controls are
 * only on screen when there is at least one move.
 */
module Replay {
  import opened CardTypes
  import opened JsBuiltins

  /** The index of the move shown and whether auto-play runs. */
  datatype Cursor = Cursor(index: int, playing: bool)

  const Start := Cursor(0, false)

  /** A cursor inside a list of `n` moves (index 0 for an empty list). */
  predicate InRange(c: Cursor, n: int) {
    0 <= c.index && (n > 0 ==> c.index < n)
  }

  /** One firing of the auto-play interval, which is only set while playing: stop at the last move, else advance. */
  function AutoStep(c: Cursor, n: int): Cursor {
    if !c.playing then c
    else if c.index >= n - 1 then c.(playing := false)
    else c.(index := c.index + 1)
  }

  /** The play/pause button. */
  function TogglePlay(c: Cursor): Cursor {
    c.(playing := !c.playing)
  }

  /** The reset button: back to the first move, stopped. */
  function ResetCursor(c: Cursor): Cursor {
    Cursor(0, false)
  }

  /** The next button: one move on, unless at the last. */
  function NextMove(c: Cursor, n: int): Cursor {
    if c.index < n - 1 then c.(index := c.index + 1) else c
  }

  /** The previous button: one move back, unless at the first. */
  function PreviousMove(c: Cursor): Cursor {
    if c.index > 0 then c.(index := c.index - 1) else c
  }

  /** The jump-to-end button. */
  function LastMove(c: Cursor, n: int): Cursor {
    c.(index := n - 1)
  }

  /** A click on entry `i` of the move list. */
  function SelectMove(c: Cursor, i: int): Cursor {
    c.(index := i)
  }

  /** `k` firings of the auto-play interval. */
  function Ticks(c: Cursor, n: int, k: nat): Cursor
    decreases k
  {
    if k == 0 then c else Ticks(AutoStep(c, n), n, k - 1)
  }

  /** The start time of the replay: the first move's time stamp, or 0 (also for a time stamp of 0). */
  function StartTime(moves: seq<Move>): int {
    if moves == [] then 0 else moves[0].timestamp
  }

  /** JavaScript's `%` on integers, which takes the sign of the dividend. */
  function IntRemainder(a: int, b: int): (r: int)
    requires b > 0
    ensures a >= 0 ==> r == a % b
    ensures a < 0 ==> r == -((-a) % b)
  {
    if a >= 0 then a % b else -((-a) % b)
  }

  /** `formatTimestamp`: whole elapsed seconds as minutes, a colon and the seconds padded to two digits. */
  function FormatTimestamp(timestamp: int, startTime: int): string {
    var elapsed := (timestamp - startTime) / 1000;
    var mins := elapsed / 60;
    var secs := IntRemainder(elapsed, 60);
    IntStr(mins) + ":" + PadStart2(IntStr(secs))
  }

  class ReplayCursor {
    const moves: seq<Move>
    var currentMoveIndex: int
    var isPlaying: bool

    function Current(): Cursor
      reads this
    {
      Cursor(currentMoveIndex, isPlaying)
    }

    predicate Valid()
      reads this
    {
      InRange(Current(), |moves|)
    }

    constructor (moves: seq<Move>)
      ensures this.moves == moves && Current() == Start && Valid()
    {
      this.moves := moves;
      currentMoveIndex := 0;
      isPlaying := false;
    }

    method HandlePlay()
      modifies this
      ensures Current() == TogglePlay(old(Current()))
    {
      isPlaying := !isPlaying;
    }

    method HandleReset()
      modifies this
      ensures Current() == ResetCursor(old(Current())) && Valid()
    {
      currentMoveIndex := 0;
      isPlaying := false;
    }

    method HandleNext()
      modifies this
      ensures Current() == NextMove(old(Current()), |moves|)
      ensures old(Valid()) ==> Valid()
    {
      if currentMoveIndex < |moves| - 1 {
        currentMoveIndex := currentMoveIndex + 1;
      }
    }

    method HandlePrevious()
      modifies this
      ensures Current() == PreviousMove(old(Current()))
      ensures old(Valid()) ==> Valid()
    {
      if currentMoveIndex > 0 {
        currentMoveIndex := currentMoveIndex - 1;
      }
    }

    /** One firing of the interval set up while `isPlaying`; none fires while paused. */
    method Tick()
      modifies this
      ensures Current() == AutoStep(old(Current()), |moves|)
      ensures old(Valid()) ==> Valid()
    {
      if !isPlaying {
        return;
      }
      var prev := currentMoveIndex;
      if prev >= |moves| - 1 {
        isPlaying := false;
        currentMoveIndex := prev;
      } else {
        currentMoveIndex := prev + 1;
      }
    }

    method JumpToEnd()
      requires |moves| > 0
      modifies this
      ensures Current() == LastMove(old(Current()), |moves|) && Valid()
    {
      currentMoveIndex := |moves| - 1;
    }

    method SelectEntry(i: int)
      requires 0 <= i < |moves|
      modifies this
      ensures Current() == SelectMove(old(Current()), i) && Valid()
    {
      currentMoveIndex := i;
    }

    /** The move on show; the cursor being in range makes the lookup safe. */
    function CurrentMove(): (m: Move)
      requires Valid() && |moves| > 0
      reads this
      ensures m in moves
    {
      moves[currentMoveIndex]
    }
  }

  // ---------------------------------------------------------------------------
  // Properties.

  /** Every control keeps the cursor inside the list of moves. */
  lemma ControlsKeepInRange(c: Cursor, n: int, i: int)
    requires InRange(c, n)
    ensures InRange(AutoStep(c, n), n) && InRange(TogglePlay(c), n) && InRange(ResetCursor(c), n)
    ensures InRange(NextMove(c, n), n) && InRange(PreviousMove(c), n)
    ensures n > 0 ==> InRange(LastMove(c, n), n)
    ensures 0 <= i < n ==> InRange(SelectMove(c, i), n)
  {
  }

  /** Next undoes previous and previous undoes next, away from the ends. */
  lemma NextPreviousInverse(c: Cursor, n: int)
    ensures 0 <= c.index < n - 1 ==> PreviousMove(NextMove(c, n)) == c
    ensures 0 < c.index <= n - 1 ==> NextMove(PreviousMove(c), n) == c
  {
  }

  /** Next moves forward exactly when there is a later move; previous back exactly when there is an earlier one. */
  lemma StepsMoveIffRoom(c: Cursor, n: int)
    ensures NextMove(c, n).index == c.index + 1 <==> c.index < n - 1
    ensures NextMove(c, n).index != c.index + 1 ==> NextMove(c, n) == c
    ensures PreviousMove(c).index == c.index - 1 <==> c.index > 0
    ensures PreviousMove(c).index != c.index - 1 ==> PreviousMove(c) == c
  {
  }

  /** Paused, the interval changes nothing however often it fires. */
  lemma {:induction false} PausedStaysPut(c: Cursor, n: int, k: nat)
    requires !c.playing
    ensures Ticks(c, n, k) == c
    decreases k
  {
    if k > 0 {
      PausedStaysPut(AutoStep(c, n), n, k - 1);
    }
  }

  /**
   * Auto-play from move `i` shows each later move in turn: after `k` firings
   * it is at move `i + k`, still playing, until the last move, and one more
   * firing there stops it on the last move.
   */
  lemma {:induction false} AutoPlayAdvances(i: int, n: int, k: nat)
    requires 0 <= i && i + k <= n - 1
    ensures Ticks(Cursor(i, true), n, k) == Cursor(i + k, true)
    decreases k
  {
    if k > 0 {
      assert AutoStep(Cursor(i, true), n) == Cursor(i + 1, true);
      AutoPlayAdvances(i + 1, n, k - 1);
    }
  }

  lemma AutoPlayStopsAtEnd(i: int, n: int, k: nat)
    requires 0 <= i <= n - 1 && k >= n - i
    ensures Ticks(Cursor(i, true), n, k) == Cursor(n - 1, false)
  {
    var m := n - 1 - i;
    AutoPlayAdvances(i, n, m);
    TicksSplit(Cursor(i, true), n, m, k - m);
    assert AutoStep(Cursor(n - 1, true), n) == Cursor(n - 1, false);
    assert Ticks(Cursor(n - 1, true), n, k - m) == Ticks(Cursor(n - 1, false), n, k - m - 1);
    PausedStaysPut(Cursor(n - 1, false), n, k - m - 1);
  }

  lemma {:induction false} TicksSplit(c: Cursor, n: int, a: nat, b: nat)
    ensures Ticks(c, n, a + b) == Ticks(Ticks(c, n, a), n, b)
    decreases a
  {
    if a > 0 {
      TicksSplit(AutoStep(c, n), n, a - 1, b);
    }
  }

  /**
   * From a non-negative start the time stamp reads back: the part before the
   * colon is the whole minutes and the two digits after it the remaining
   * seconds of the whole elapsed seconds.
   */
  lemma FormatTimestampReadsBack(timestamp: int, startTime: int)
    requires timestamp >= startTime
    ensures var r := FormatTimestamp(timestamp, startTime);
      var elapsed := (timestamp - startTime) / 1000;
      && |r| >= 4 && r[|r| - 3] == ':'
      && AllDigits(r[..|r| - 3]) && AllDigits(r[|r| - 2..])
      && DecimalValue(r[|r| - 2..]) < 60
      && 60 * DecimalValue(r[..|r| - 3]) + DecimalValue(r[|r| - 2..]) == elapsed
  {
    var elapsed: nat := (timestamp - startTime) / 1000;
    var mins: nat, secs: nat := elapsed / 60, elapsed % 60;
    assert IntRemainder(elapsed, 60) == secs;
    PadSecondsIsTwoDigits(secs);
    assert FormatTimestamp(timestamp, startTime) == Clock(mins, secs);
    ClockReadsBack(mins, secs);
  }

  /** Minutes, a colon and two digits of seconds. */
  function Clock(mins: nat, secs: nat): string
    requires secs < 60
  {
    NatStr(mins) + ":" + TwoDigits(secs)
  }

  lemma ClockReadsBack(mins: nat, secs: nat)
    requires secs < 60
    ensures var r := Clock(mins, secs);
      && |r| >= 4 && r[|r| - 3] == ':'
      && AllDigits(r[..|r| - 3]) && AllDigits(r[|r| - 2..])
      && DecimalValue(r[..|r| - 3]) == mins && DecimalValue(r[|r| - 2..]) == secs
  {
    var ms, ss := NatStr(mins), TwoDigits(secs);
    var r := Clock(mins, secs);
    assert r[..|r| - 3] == ms;
    assert r[|r| - 2..] == ss;
    NatStrRoundTrip(mins);
  }

  /** A number of seconds under 60 as two digits; it reads back as itself. */
  function TwoDigits(secs: nat): (s: string)
    requires secs < 60
    ensures |s| == 2 && AllDigits(s) && DecimalValue(s) == secs
  {
    var s := [DigitChar(secs / 10), DigitChar(secs % 10)];
    assert s[..1][..0] == [];
    assert DecimalValue(s[..1]) == secs / 10;
    s
  }

  /** `padStart(2, '0')` of the seconds' numeral gives those two digits. */
  lemma PadSecondsIsTwoDigits(secs: nat)
    requires secs < 60
    ensures PadStart2(IntStr(secs)) == TwoDigits(secs)
  {
    if secs < 10 {
      assert NatStr(secs) == [DigitChar(secs)];
      assert DigitChar(0) == '0';
      assert PadStart2(IntStr(secs)) == ['0'] + [DigitChar(secs)];
    } else {
      assert NatStr(secs / 10) == [DigitChar(secs / 10)];
      assert NatStr(secs) == NatStr(secs / 10) + [DigitChar(secs % 10)];
    }
  }
}
