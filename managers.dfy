/** The game manager: at most one current game and a list of past games.

    As in the source, startGame replaces whatever game is current without
    asking, and endGame re-initialises the manager right after pushing the
    ended game, so the list of past games is empty again. */
module Managers {
  import opened Wrappers
  import opened Players
  import opened Games

  /** `this.game.endGame()` on a null game is a TypeError; an error thrown
      by the game itself passes through. */
  datatype ManagerError = NoCurrentGame | GameRefused(e: GameError)

  /** The manager's two fields, with each game seen through its state. */
  datatype ManagerState = ManagerState(current: Option<GameState>, history: seq<GameState>)

  /** `_init`, which the constructor also runs. */
  function Initial(): (m: ManagerState)
    ensures m.current.None? && m.history == []
  {
    ManagerState(None, [])
  }

  /** `resetGame`: the current game is dropped, the list is kept. */
  function ResetCurrent(m: ManagerState): (m': ManagerState)
    ensures m'.current.None? && m'.history == m.history
  {
    m.(current := None)
  }

  /** The game a new `startGame(players)` makes current: fresh and started. */
  function StartedGame(players: seq<Player>, now: Time): (g: GameState)
    ensures g == GameState(players, Some(DateObject(now)), None, 0)
    ensures PhaseOf(g) == Active
  {
    Start(NewGame(players), now).value
  }

  /** `startGame(players)`: never refuses, whatever the current game is. */
  function StartCurrent(m: ManagerState, players: seq<Player>, now: Time): (m': ManagerState)
    ensures m'.current == Some(StartedGame(players, now))
    ensures m'.history == m.history
  {
    m.(current := Some(StartedGame(players, now)))
  }

  /** `endGame`: ends the current game and pushes it onto the list, then runs
      `_init`, which throws that list away again; so on success the manager
      is left as `_init` leaves it. */
  function EndCurrent(m: ManagerState, now: Time): (r: Result<ManagerState, ManagerError>)
    ensures m.current.None? ==> r == Failure(NoCurrentGame)
    ensures m.current.Some? && End(m.current.value, now).Failure? ==>
      r == Failure(GameRefused(End(m.current.value, now).error))
    ensures r.Success? <==> m.current.Some? && PhaseOf(m.current.value) == Active
    ensures r.Success? ==> r.value == Initial()
  {
    match m.current
    case None => Failure(NoCurrentGame)
    case Some(g) =>
      match End(g, now)
      case Failure(e) => Failure(GameRefused(e))
      case Success(_) => Success(Initial())
  }

  /** The manager's startGame, endGame and resetGame, and the lifecycle and
      count operations of `GameOp` on the game that `getCurrentGame` hands
      out. `fromJson` on that game is not among them. */
  datatype ManagerOp =
    | StartGameOp(players: seq<Player>, now: Time)
    | EndGameOp(now: Time)
    | ResetGameOp
    | OnCurrent(op: GameOp)

  function ManagerStep(m: ManagerState, op: ManagerOp): Result<ManagerState, ManagerError>
  {
    match op
    case StartGameOp(players, now) => Success(StartCurrent(m, players, now))
    case EndGameOp(now) => EndCurrent(m, now)
    case ResetGameOp => Success(ResetCurrent(m))
    case OnCurrent(gop) =>
      match m.current
      case None => Failure(NoCurrentGame)
      case Some(g) =>
        match Step(g, gop)
        case Failure(e) => Failure(GameRefused(e))
        case Success(g') => Success(m.(current := Some(g')))
  }

  /** A thrown error leaves the manager as it was. */
  function ManagerApply(m: ManagerState, op: ManagerOp): ManagerState
  {
    match ManagerStep(m, op)
    case Success(m') => m'
    case Failure(_) => m
  }

  function ManagerRun(m: ManagerState, ops: seq<ManagerOp>): ManagerState
    decreases |ops|
  {
    if ops == [] then m else ManagerRun(ManagerApply(m, ops[0]), ops[1..])
  }

  /** What holds of every manager the program can reach: the list of past
      games is empty, and a current game has started and is consistent. */
  predicate Reachable(m: ManagerState)
  {
    && m.history == []
    && (m.current.Some? ==> m.current.value.startTime.Some? && Consistent(m.current.value))
  }

  lemma ManagerStepKeepsReachable(m: ManagerState, op: ManagerOp)
    requires Reachable(m)
    ensures Reachable(ManagerApply(m, op))
  {
    match op
    case OnCurrent(gop) =>
      if m.current.Some? {
        RunIsMonotone(m.current.value, [gop]);
        assert Run(m.current.value, [gop]) == Apply(m.current.value, gop);
      }
    case _ =>
  }

  /** From construction on, over any sequence of `ManagerOp`s, the list of
      past games stays empty and the current game, if any, has started; so
      incCount and decCount on it never throw. */
  lemma {:induction false} ReachableAfterRun(ops: seq<ManagerOp>, m: ManagerState)
    requires m == ManagerRun(Initial(), ops)
    ensures m.history == []
    ensures m.current.Some? ==> Inc(m.current.value).Success? && Dec(m.current.value).Success?
    ensures m.current.Some? ==> Consistent(m.current.value)
  {
    RunKeepsReachable(Initial(), ops);
  }

  lemma {:induction false} RunKeepsReachable(m: ManagerState, ops: seq<ManagerOp>)
    requires Reachable(m)
    ensures Reachable(ManagerRun(m, ops))
    decreases |ops|
  {
    if ops != [] {
      ManagerStepKeepsReachable(m, ops[0]);
      RunKeepsReachable(ManagerApply(m, ops[0]), ops[1..]);
    }
  }

  /** An ended game is never kept: right after a successful endGame there is
      no current game and no past game, whatever was there before. */
  lemma EndedGameIsDiscarded(m: ManagerState, now: Time)
    requires m.current.Some? && PhaseOf(m.current.value) == Active
    ensures ManagerApply(m, EndGameOp(now)) == ManagerState(None, [])
  {
  }

  /** The game states of a list of games. */
  function States(gs: seq<Game>): (r: seq<GameState>)
    reads set i | 0 <= i < |gs| :: gs[i]
    ensures |r| == |gs|
    ensures forall i :: 0 <= i < |gs| ==> r[i] == gs[i].State()
  {
    if gs == [] then [] else [gs[0].State()] + States(gs[1..])
  }

  class GameManager {
    var game: Game?
    var gameList: seq<Game>

    /** The manager seen as values. */
    function Model(): ManagerState
      reads this, game, set i | 0 <= i < |gameList| :: gameList[i]
    {
      ManagerState(if game == null then None else Some(game.State()), States(gameList))
    }

    constructor ()
      ensures game == null && gameList == []
      ensures Model() == Initial()
    {
      game := null;
      gameList := [];
    }

    method Init()
      modifies this
      ensures game == null && gameList == []
      ensures Model() == Initial()
    {
      game := null;
      gameList := [];
    }

    function GetCurrentGame(): Game? reads this { game }

    method ResetGame()
      modifies this
      ensures game == null && gameList == old(gameList)
      ensures Model() == ResetCurrent(old(Model()))
    {
      game := null;
    }

    method StartGame(players: seq<Player>, now: Time)
      modifies this
      ensures game != null && fresh(game)
      ensures gameList == old(gameList)
      ensures Model() == StartCurrent(old(Model()), players, now)
    {
      var g := new Game(players);
      var started := g.StartGame(now);
      assert started == Pass;
      game := g;
    }

    method EndGame(now: Time) returns (r: Outcome<ManagerError>)
      modifies this, game
      ensures old(game) == null ==> r == Fail(NoCurrentGame) && game == null && gameList == old(gameList)
      ensures old(game) != null ==> old(game).endTime == (if r.Pass? then Some(DateObject(now)) else old(game.endTime))
      ensures old(game) != null && r.Pass? ==> End(old(game.State()), now) == Success(old(game).State())
      ensures r.Fail? ==> game == old(game) && gameList == old(gameList) && Model() == old(Model())
      ensures r.Pass? ==> game == null && gameList == []
      ensures match EndCurrent(old(Model()), now)
              case Success(m') => r == Pass && Model() == m'
              case Failure(e) => r == Fail(e)
    {
      if game == null {
        return Fail(NoCurrentGame);
      }
      var ended := game.EndGame(now);
      if ended.Fail? {
        return Fail(GameRefused(ended.error));
      }
      gameList := gameList + [game];
      Init();
      r := Pass;
    }
  }
}
