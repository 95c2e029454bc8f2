/** One game: its players, the running count and the two lifecycle
    timestamps, with the guards that make it move Pending -> Active -> Ended.

    The pure part (GameState and the transition functions) says what each
    operation does; the class Game is the mutable object and each of its
    methods is tied to the matching function. */
module Games {
  import opened Wrappers
  import opened Players

  /** A reading of the clock; `new Date()` becomes a parameter `now`. */
  type Time = int

  /** What a timestamp field holds: the Date object that startGame or
      endGame stored, or the ISO text that JSON.parse gives back in its
      place. Both denote the instant `at`. */
  datatype Stamp = DateObject(at: Time) | IsoText(at: Time)

  /** The errors the game's guards throw, one per message. */
  datatype GameError =
    | StartWhileRunning  // "Can't start a game that is already running"
    | StartAfterEnd      // "Can't start a game that has ended"
    | EndBeforeStart     // "Can't end a game that hasn't started"
    | EndTwice           // "Can't end a game that has already ended"
    | IncBeforeStart     // "Can't increment count if game hasn't started"
    | DecBeforeStart     // "Can't decrement count if game hasn't started"

  /** The four fields of a game. */
  datatype GameState = GameState(
    players: seq<Player>,
    startTime: Option<Stamp>,
    endTime: Option<Stamp>,
    count: int)

  /** The lifecycle phase, read off the two timestamps. The last one has an
      end but no start; no operation but fromJson can produce it. */
  datatype Phase = Pending | Active | Ended | EndedUnstarted

  function PhaseOf(g: GameState): Phase
  {
    match (g.startTime, g.endTime)
    case (None, None) => Pending
    case (Some(_), None) => Active
    case (Some(_), Some(_)) => Ended
    case (None, Some(_)) => EndedUnstarted
  }

  /** Position along Pending -> Active -> Ended. */
  function Rank(p: Phase): nat
  {
    match p
    case Pending => 0
    case Active => 1
    case Ended => 2
    case EndedUnstarted => 2
  }

  /** `new Game(players)`. */
  function NewGame(players: seq<Player>): (g: GameState)
    ensures PhaseOf(g) == Pending
    ensures g.players == players && g.count == 0
  {
    GameState(players, None, None, 0)
  }

  /** `startGame`: only a pending game may start; the start time is set. */
  function Start(g: GameState, now: Time): (r: Result<GameState, GameError>)
    ensures r.Success? <==> PhaseOf(g) == Pending
    ensures r.Failure? ==>
      r.error == (if g.startTime.Some? then StartWhileRunning else StartAfterEnd)
    ensures r.Success? ==> PhaseOf(r.value) == Active
    ensures r.Success? ==>
      && r.value.startTime == Some(DateObject(now))
      && r.value.endTime == g.endTime
      && r.value.count == g.count
      && r.value.players == g.players
  {
    if g.startTime.Some? then Failure(StartWhileRunning)
    else if g.endTime.Some? then Failure(StartAfterEnd)
    else Success(g.(startTime := Some(DateObject(now))))
  }

  /** `endGame`: only a started game that has not ended may end; the end
      time is set. */
  function End(g: GameState, now: Time): (r: Result<GameState, GameError>)
    ensures r.Success? <==> PhaseOf(g) == Active
    ensures r.Failure? ==>
      r.error == (if g.startTime.None? then EndBeforeStart else EndTwice)
    ensures r.Success? ==> PhaseOf(r.value) == Ended
    ensures r.Success? ==>
      && r.value.endTime == Some(DateObject(now))
      && r.value.startTime == g.startTime
      && r.value.count == g.count
      && r.value.players == g.players
  {
    if g.startTime.None? then Failure(EndBeforeStart)
    else if g.endTime.Some? then Failure(EndTwice)
    else Success(g.(endTime := Some(DateObject(now))))
  }

  /** `incCount`: allowed whenever the game has started, ended or not. */
  function Inc(g: GameState): (r: Result<GameState, GameError>)
    ensures r.Success? <==> g.startTime.Some?
    ensures r.Failure? ==> r.error == IncBeforeStart
    ensures r.Success? ==>
      && r.value.count == g.count + 1
      && r.value.startTime == g.startTime
      && r.value.endTime == g.endTime
      && r.value.players == g.players
  {
    if g.startTime.None? then Failure(IncBeforeStart)
    else Success(g.(count := g.count + 1))
  }

  /** `decCount`: allowed whenever the game has started; the count has no
      lower bound. */
  function Dec(g: GameState): (r: Result<GameState, GameError>)
    ensures r.Success? <==> g.startTime.Some?
    ensures r.Failure? ==> r.error == DecBeforeStart
    ensures r.Success? ==>
      && r.value.count == g.count - 1
      && r.value.startTime == g.startTime
      && r.value.endTime == g.endTime
      && r.value.players == g.players
  {
    if g.startTime.None? then Failure(DecBeforeStart)
    else Success(g.(count := g.count - 1))
  }

  /** A thrown error leaves the object as it was, since every guard runs
      before any field is assigned. */
  function Effect(r: Result<GameState, GameError>, g: GameState): (Outcome<GameError>, GameState)
  {
    match r
    case Success(g') => (Pass, g')
    case Failure(e) => (Fail(e), g)
  }

  /** The lifecycle and count operations, clock readings included.
      `fromJson`, which can put a game in any phase, is not among them. */
  datatype GameOp = StartOp(now: Time) | EndOp(now: Time) | IncOp | DecOp

  function Step(g: GameState, op: GameOp): Result<GameState, GameError>
  {
    match op
    case StartOp(now) => Start(g, now)
    case EndOp(now) => End(g, now)
    case IncOp => Inc(g)
    case DecOp => Dec(g)
  }

  /** The state after `op`, whether it threw or not. */
  function Apply(g: GameState, op: GameOp): GameState
  {
    Effect(Step(g, op), g).1
  }

  /** The state after the operations in `ops`, one after the other. */
  function Run(g: GameState, ops: seq<GameOp>): GameState
    decreases |ops|
  {
    if ops == [] then g else Run(Apply(g, ops[0]), ops[1..])
  }

  function Incs(ops: seq<GameOp>): nat
  {
    if ops == [] then 0 else (if ops[0].IncOp? then 1 else 0) + Incs(ops[1..])
  }

  function Decs(ops: seq<GameOp>): nat
  {
    if ops == [] then 0 else (if ops[0].DecOp? then 1 else 0) + Decs(ops[1..])
  }

  /** A game that has an end has a start. */
  predicate Consistent(g: GameState)
  {
    g.endTime.Some? ==> g.startTime.Some?
  }

  /** No `GameOp` moves a game back along Pending -> Active -> Ended, and
      none makes a consistent game inconsistent; players never change. */
  lemma {:induction false} RunIsMonotone(g: GameState, ops: seq<GameOp>)
    ensures Rank(PhaseOf(g)) <= Rank(PhaseOf(Run(g, ops)))
    ensures Consistent(g) ==> Consistent(Run(g, ops))
    ensures Run(g, ops).players == g.players
    decreases |ops|
  {
    if ops != [] {
      RunIsMonotone(Apply(g, ops[0]), ops[1..]);
    }
  }

  /** Ended is terminal: once a game has an end time, every later
      `GameOp` keeps both timestamps, and startGame and endGame throw. */
  lemma {:induction false} EndedIsTerminal(g: GameState, ops: seq<GameOp>, now: Time)
    requires g.endTime.Some?
    ensures Run(g, ops).startTime == g.startTime
    ensures Run(g, ops).endTime == g.endTime
    ensures Start(Run(g, ops), now) == Failure(if g.startTime.Some? then StartWhileRunning else StartAfterEnd)
    ensures End(Run(g, ops), now) == Failure(if g.startTime.Some? then EndTwice else EndBeforeStart)
    decreases |ops|
  {
    if ops != [] {
      EndedIsTerminal(Apply(g, ops[0]), ops[1..], now);
    }
  }

  /** After a successful endGame, no later startGame or endGame succeeds. */
  lemma EndThenNothingStarts(g: GameState, at: Time, ops: seq<GameOp>, now: Time)
    requires End(g, at).Success?
    ensures Start(Run(End(g, at).value, ops), now) == Failure(StartWhileRunning)
    ensures End(Run(End(g, at).value, ops), now) == Failure(EndTwice)
  {
    EndedIsTerminal(End(g, at).value, ops, now);
  }

  /** On a started game the count is the old count plus one per incCount
      minus one per decCount, whatever other `GameOp`s come in between
      (decCount has no floor, and endGame does not stop either). */
  lemma {:induction false} CountAfterRun(g: GameState, ops: seq<GameOp>)
    requires g.startTime.Some?
    ensures Run(g, ops).count == g.count + Incs(ops) - Decs(ops)
    decreases |ops|
  {
    if ops != [] {
      CountAfterRun(Apply(g, ops[0]), ops[1..]);
    }
  }

  /** Before the game starts, incCount and decCount throw, so the count
      stays put until a startGame. */
  lemma {:induction false} CountFrozenUntilStart(g: GameState, ops: seq<GameOp>)
    requires g.startTime.None?
    requires forall i :: 0 <= i < |ops| ==> !ops[i].StartOp?
    ensures Run(g, ops).count == g.count
    ensures Run(g, ops).startTime.None?
    decreases |ops|
  {
    if ops != [] {
      CountFrozenUntilStart(Apply(g, ops[0]), ops[1..]);
    }
  }

  /** The count goes negative: a fresh game, started and decremented once,
      holds -1. */
  lemma DecCountGoesNegative(players: seq<Player>, now: Time)
    ensures Run(NewGame(players), [StartOp(now), DecOp]).count == -1
  {
    CountAfterRun(Start(NewGame(players), now).value, [DecOp]);
  }

  /** The record that `toJson` writes and `fromJson` reads. JSON.stringify
      writes a Date as its ISO text; the record holds the instant that text
      denotes. */
  datatype Snapshot = Snapshot(
    players: seq<Player>,
    startTime: Option<Time>,
    endTime: Option<Time>,
    count: int)

  function StampText(t: Option<Stamp>): (s: Option<Time>)
    ensures s.Some? <==> t.Some?
    ensures t.Some? ==> s.value == t.value.at
  {
    match t
    case None => None
    case Some(st) => Some(st.at)
  }

  function ParsedStamp(s: Option<Time>): (t: Option<Stamp>)
    ensures t.Some? <==> s.Some?
    ensures s.Some? ==> t.value == IsoText(s.value)
  {
    match s
    case None => None
    case Some(at) => Some(IsoText(at))
  }

  /** `toJson`: exactly the four fields. */
  function SnapshotOf(g: GameState): (s: Snapshot)
    ensures s.players == g.players && s.count == g.count
    ensures s.startTime.Some? <==> g.startTime.Some?
    ensures s.endTime.Some? <==> g.endTime.Some?
  {
    Snapshot(g.players, StampText(g.startTime), StampText(g.endTime), g.count)
  }

  /** `fromJson`: all four fields are overwritten from the record; a
      timestamp comes back as text, not as a Date. */
  function Restore(s: Snapshot): (g: GameState)
    ensures g.players == s.players && g.count == s.count
    ensures g.startTime.Some? <==> s.startTime.Some?
    ensures g.endTime.Some? <==> s.endTime.Some?
  {
    GameState(s.players, ParsedStamp(s.startTime), ParsedStamp(s.endTime), s.count)
  }

  /** Writing a game and reading it back keeps its players, its count, its
      phase and the instants of its timestamps; only a Date turns into text. */
  lemma RestoreSnapshot(g: GameState)
    ensures Restore(SnapshotOf(g)).players == g.players
    ensures Restore(SnapshotOf(g)).count == g.count
    ensures PhaseOf(Restore(SnapshotOf(g))) == PhaseOf(g)
    ensures StampText(Restore(SnapshotOf(g)).startTime) == StampText(g.startTime)
    ensures StampText(Restore(SnapshotOf(g)).endTime) == StampText(g.endTime)
  {
  }

  /** Reading a record and writing it out again gives the same record. */
  lemma SnapshotOfRestore(s: Snapshot)
    ensures SnapshotOf(Restore(s)) == s
  {
  }

  /** A restored game behaves as the original under every operation, since
      the guards look only at null-ness. */
  lemma {:induction false} RestoredBehavesAlike(g: GameState, ops: seq<GameOp>)
    ensures SnapshotOf(Run(Restore(SnapshotOf(g)), ops)) == SnapshotOf(Run(g, ops))
    decreases |ops|
  {
    if ops != [] {
      var h := Restore(SnapshotOf(g));
      assert SnapshotOf(Apply(h, ops[0])) == SnapshotOf(Apply(g, ops[0]));
      assert Restore(SnapshotOf(Apply(h, ops[0]))) == Restore(SnapshotOf(Apply(g, ops[0])));
      RestoredBehavesAlike(Apply(g, ops[0]), ops[1..]);
      RestoredBehavesAlike(Apply(h, ops[0]), ops[1..]);
    }
  }

  /** The game object. Each method's effect is the matching function. */
  class Game {
    var players: seq<Player>
    var startTime: Option<Stamp>
    var endTime: Option<Stamp>
    var count: int

    function State(): GameState
      reads this
    {
      GameState(players, startTime, endTime, count)
    }

    constructor (players: seq<Player>)
      ensures State() == NewGame(players)
    {
      this.players := players;
      startTime := None;
      endTime := None;
      count := 0;
    }

    method StartGame(now: Time) returns (r: Outcome<GameError>)
      modifies this
      ensures (r, State()) == Effect(Start(old(State()), now), old(State()))
    {
      if startTime.Some? {
        return Fail(StartWhileRunning);
      }
      if endTime.Some? {
        return Fail(StartAfterEnd);
      }
      startTime := Some(DateObject(now));
      r := Pass;
    }

    method EndGame(now: Time) returns (r: Outcome<GameError>)
      modifies this
      ensures (r, State()) == Effect(End(old(State()), now), old(State()))
    {
      if startTime.None? {
        return Fail(EndBeforeStart);
      }
      if endTime.Some? {
        return Fail(EndTwice);
      }
      endTime := Some(DateObject(now));
      r := Pass;
    }

    method IncCount() returns (r: Outcome<GameError>)
      modifies this
      ensures (r, State()) == Effect(Inc(old(State())), old(State()))
    {
      if startTime.None? {
        return Fail(IncBeforeStart);
      }
      count := count + 1;
      r := Pass;
    }

    method DecCount() returns (r: Outcome<GameError>)
      modifies this
      ensures (r, State()) == Effect(Dec(old(State())), old(State()))
    {
      if startTime.None? {
        return Fail(DecBeforeStart);
      }
      count := count - 1;
      r := Pass;
    }

    function GetCount(): int reads this { count }

    function GetPlayers(): seq<Player> reads this { players }

    function GetNumPlayers(): nat reads this { |players| }

    function GetStartTime(): Option<Stamp> reads this { startTime }

    function GetEndTime(): Option<Stamp> reads this { endTime }

    function ToJson(): (s: Snapshot)
      reads this
      ensures s == SnapshotOf(State())
    {
      Snapshot(players, StampText(startTime), StampText(endTime), count)
    }

    method FromJson(s: Snapshot)
      modifies this
      ensures State() == Restore(s)
    {
      players := s.players;
      startTime := ParsedStamp(s.startTime);
      endTime := ParsedStamp(s.endTime);
      count := s.count;
    }
  }
}
