/**
 * The match-history log: finished sessions, newest first, never more than 100,
 * with the aggregate queries the history page shows.
 *
 * Session ids (a timestamp and a random suffix) become a caller-supplied
 * number and the clock a `now` parameter. A `None` end reason stands for
 * `manual_end`. Persistence to the browser's storage is not modelled.
 */
module History {
  import opened Optional
  import opened JsBuiltins
  import opened CardTypes

  const MaxSessions := 100

  datatype GameSession = GameSession(
    id: nat,
    date: int,
    difficulty: Difficulty,
    gameMode: GameMode,
    soloGameMode: Option<SoloGameMode>,
    score: real,
    timePlayed: int,
    cardsPlayed: int,
    moves: seq<Move>,
    gameEndReason: Option<EndReason>,
    timeLimit: Option<int>,
    deckLimit: Option<int>,
    targetScore: Option<int>)

  /** What `addGame` is handed; the first three fields may be absent. */
  datatype GameData = GameData(
    timeTaken: Option<int>,
    cardsPlayed: Option<int>,
    moves: Option<seq<Move>>,
    difficulty: Difficulty,
    soloGameMode: Option<SoloGameMode>,
    score: real,
    gameEndReason: Option<EndReason>,
    timeLimit: Option<int>,
    deckLimit: Option<int>,
    targetScore: Option<int>)

  /** A session put in front of the log, which then keeps its first 100 entries. */
  function Record(log: seq<GameSession>, s: GameSession): (r: seq<GameSession>)
    ensures |r| == if |log| < MaxSessions then |log| + 1 else MaxSessions
    ensures r[0] == s && r[1..] == log[..|r| - 1]
  {
    SlicePrefix([s] + log, MaxSessions)
  }

  /** The session `addGame` builds: a solo game, with 0, 0 and no moves for absent fields. */
  function SessionOf(data: GameData, id: nat, now: int): (s: GameSession)
    ensures s.id == id && s.date == now && s.gameMode == Solo
    ensures s.timePlayed == (if data.timeTaken.Some? then data.timeTaken.value else 0)
    ensures s.cardsPlayed == (if data.cardsPlayed.Some? then data.cardsPlayed.value else 0)
    ensures s.moves == (if data.moves.Some? then data.moves.value else [])
    ensures s.difficulty == data.difficulty && s.soloGameMode == data.soloGameMode && s.score == data.score
    ensures s.gameEndReason == data.gameEndReason
    ensures s.timeLimit == data.timeLimit && s.deckLimit == data.deckLimit && s.targetScore == data.targetScore
  {
    GameSession(id, now, data.difficulty, Solo, data.soloGameMode, data.score,
      OrDefault(data.timeTaken, 0), OrDefault(data.cardsPlayed, 0), OrDefault(data.moves, []),
      data.gameEndReason, data.timeLimit, data.deckLimit, data.targetScore)
  }

  /** JavaScript's `x || d` for a field that is either absent or holds a value (a present 0 gives 0 either way). */
  function OrDefault<T>(x: Option<T>, d: T): T {
    if x.Some? then x.value else d
  }

  /** The time of all sessions, added up as `reduce` does, from the front. */
  function SumTime(log: seq<GameSession>): int {
    if log == [] then 0 else log[0].timePlayed + SumTime(log[1..])
  }

  /** The highest score of a non-empty log. */
  function MaxScore(log: seq<GameSession>): (m: real)
    requires log != []
    ensures forall i :: 0 <= i < |log| ==> log[i].score <= m
    ensures exists i :: 0 <= i < |log| && log[i].score == m
  {
    if |log| == 1 then log[0].score
    else
      var rest := MaxScore(log[1..]);
      assert forall i :: 1 <= i < |log| ==> log[i] == log[1..][i - 1];
      if log[0].score >= rest then log[0].score else rest
  }

  /** Sessions recorded one after another, oldest first, as the store of a long run of games sees them. */
  function RecordAll(log: seq<GameSession>, ss: seq<GameSession>): seq<GameSession>
    decreases |ss|
  {
    if ss == [] then log else RecordAll(Record(log, ss[0]), ss[1..])
  }

  function Reverse<T>(s: seq<T>): (r: seq<T>)
    ensures |r| == |s|
    ensures forall i :: 0 <= i < |s| ==> r[i] == s[|s| - 1 - i]
  {
    if s == [] then [] else Reverse(s[1..]) + [s[0]]
  }

  class GameHistory {
    var sessions: seq<GameSession>

    constructor ()
      ensures sessions == []
    {
      sessions := [];
    }

    /** `addSession`: the session, with its new id, goes in front of the log. */
    method AddSession(data: GameSession, id: nat)
      modifies this
      ensures sessions == Record(old(sessions), data.(id := id))
    {
      var session := data.(id := id);
      sessions := SlicePrefix([session] + sessions, MaxSessions);
    }

    /** `addGame`: the session built from the game data goes in front of the log. */
    method AddGame(data: GameData, id: nat, now: int)
      modifies this
      ensures sessions == Record(old(sessions), SessionOf(data, id, now))
    {
      var session := SessionOf(data, id, now);
      sessions := SlicePrefix([session] + sessions, MaxSessions);
    }

    /** `clearHistory`. */
    method ClearHistory()
      modifies this
      ensures sessions == []
    {
      sessions := [];
    }

    /** `getRecentSessions(count)`: `slice(0, count)`, a negative count counting back from the end. */
    function GetRecentSessions(count: int): (r: seq<GameSession>)
      reads this
      ensures r <= sessions
      ensures 0 <= count ==> |r| == if count < |sessions| then count else |sessions|
      ensures count < 0 ==> |r| == if |sessions| + count > 0 then |sessions| + count else 0
    {
      SlicePrefix(sessions, count)
    }

    function GetTotalGamesPlayed(): (r: nat)
      reads this
      ensures r == |sessions|
    {
      |sessions|
    }

    function GetTotalTimePlayed(): (r: int)
      reads this
      ensures r == SumTime(sessions)
    {
      SumTime(sessions)
    }

    /** `getHighestScore`: the largest score, attained by some session, or 0 for an empty log. */
    function GetHighestScore(): (r: real)
      reads this
      ensures sessions == [] ==> r == 0.0
      ensures forall i :: 0 <= i < |sessions| ==> sessions[i].score <= r
      ensures sessions != [] ==> exists i :: 0 <= i < |sessions| && sessions[i].score == r
    {
      if |sessions| > 0 then MaxScore(sessions) else 0.0
    }
  }

  // ---------------------------------------------------------------------------
  // Properties.

  /** However many sessions are recorded, the log never holds more than 100. */
  lemma {:induction false} RecordAllBounded(log: seq<GameSession>, ss: seq<GameSession>)
    requires |log| <= MaxSessions
    ensures |RecordAll(log, ss)| <= MaxSessions
    decreases |ss|
  {
    if ss != [] {
      RecordAllBounded(Record(log, ss[0]), ss[1..]);
    }
  }

  /**
   * Recording sessions one by one leaves them newest first in front of the
   * old log, cut to the 100 newest entries.
   */
  lemma {:induction false} RecordAllNewestFirst(log: seq<GameSession>, ss: seq<GameSession>)
    requires |log| <= MaxSessions
    ensures RecordAll(log, ss) == SlicePrefix(Reverse(ss) + log, MaxSessions)
    decreases |ss|
  {
    if ss != [] {
      var log' := Record(log, ss[0]);
      RecordAllNewestFirst(log', ss[1..]);
      var lhs := SlicePrefix(Reverse(ss[1..]) + log', MaxSessions);
      var rhs := SlicePrefix(Reverse(ss) + log, MaxSessions);
      assert Reverse(ss) == Reverse(ss[1..]) + [ss[0]];
      assert |lhs| == |rhs|;
      forall i | 0 <= i < |lhs|
        ensures lhs[i] == rhs[i]
      {
        var n := |ss| - 1;
        if i < n {
          assert lhs[i] == Reverse(ss[1..])[i];
          assert rhs[i] == Reverse(ss)[i];
        } else if i == n {
          assert lhs[i] == log'[0];
        } else {
          assert lhs[i] == log'[i - n];
          assert log'[i - n] == log'[1..][i - n - 1];
          assert rhs[i] == log[i - n - 1];
        }
      }
    }
  }

  lemma {:induction false} SumTimeAppend(a: seq<GameSession>, b: seq<GameSession>)
    ensures SumTime(a + b) == SumTime(a) + SumTime(b)
    decreases |a|
  {
    if a != [] {
      assert (a + b)[1..] == a[1..] + b;
      SumTimeAppend(a[1..], b);
    } else {
      assert a + b == b;
    }
  }

  /** Prepending a session adds its time. */
  lemma SumTimeCons(s: GameSession, log: seq<GameSession>)
    ensures SumTime([s] + log) == s.timePlayed + SumTime(log)
  {
    assert ([s] + log)[1..] == log;
  }

  /**
   * Recording a session adds its time to the total, less the time of the
   * oldest session when a full log drops it.
   */
  lemma RecordTotalTime(log: seq<GameSession>, s: GameSession)
    requires |log| <= MaxSessions
    ensures |log| < MaxSessions ==> SumTime(Record(log, s)) == s.timePlayed + SumTime(log)
    ensures |log| == MaxSessions ==>
      SumTime(Record(log, s)) == s.timePlayed + SumTime(log) - log[MaxSessions - 1].timePlayed
  {
    var r := Record(log, s);
    if |log| < MaxSessions {
      assert r == [s] + log;
      SumTimeCons(s, log);
    } else {
      assert r == [s] + log[..|log| - 1];
      SumTimeCons(s, log[..|log| - 1]);
      SumTimeDropLast(log);
    }
  }

  lemma SumTimeDropLast(log: seq<GameSession>)
    requires log != []
    ensures SumTime(log) == SumTime(log[..|log| - 1]) + log[|log| - 1].timePlayed
  {
    var kept, dropped := log[..|log| - 1], log[|log| - 1..];
    assert log == kept + dropped;
    SumTimeAppend(kept, dropped);
    SumTimeCons(log[|log| - 1], []);
    assert dropped == [log[|log| - 1]] + [];
  }

  /** A recorded session's score is at most the new highest score, which beats or equals every kept old score. */
  lemma RecordHighestScore(log: seq<GameSession>, s: GameSession)
    ensures MaxScore(Record(log, s)) >= s.score
    ensures |log| < MaxSessions && log != [] ==>
      MaxScore(Record(log, s)) == if s.score >= MaxScore(log) then s.score else MaxScore(log)
  {
    var r := Record(log, s);
    assert r[0] == s;
    if |log| < MaxSessions && log != [] {
      assert r == [s] + log;
      assert r[1..] == log;
    }
  }
}
