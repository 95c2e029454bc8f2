# jeepscore in Dafny

A model of `jeepscore.js`, the game logic of a small score keeper for a
bidding game. The model covers four parts of that file:

- `Player`: a fixed name and bid.
- `Game`: the running count plus the two lifecycle time stamps. Guards keep
  a game moving Pending -> Active -> Ended. The game also writes and reads a
  flat JSON snapshot.
- `GameManager`: at most one current game and a list of past games.
- `getPrettyElapsedTime`: turns a number of seconds into text such as
  `"1y 2w 3d 4h 5m 6s"`, over a chosen set of units.

The files:

- `wrappers.dfy`
  - `Option` stands for a nullable field.
  - `Result` and `Outcome` stand for an operation that can throw.
- `text.dfy`
  - Decimal text of naturals and its parser.
  - `Array.prototype.join` and `String.prototype.split` on one separator
    character.
- `players.dfy`: the `Player` record. `getName` and `getBid` are its fields.
- `games.dfy`
  - What each `Game` operation does, as functions over a `GameState` value.
  - A `Game` class whose methods change the fields and are tied to those
    functions.
  - Lemmas about sequences of operations, and about the snapshot.
- `managers.dfy`
  - The manager as a value with its operations.
  - The invariant every reachable manager keeps.
  - The `GameManager` class over `Game` objects.
- `elapsed.dfy`
  - `getPrettyElapsedTime` as a method that follows the source step by step:
    - the unit strings are flattened and filtered;
    - five blocks peel off whole units;
    - the seconds block takes the rest;
    - a `for` loop writes the fields;
    - the fields are joined.
  - The specification functions the method is proved against.
  - Lemmas for conservation, the bounds, the order of the output and how
    it splits.

Throwing is modelled as a failed `Result` or `Outcome`. Every guard in the
source runs before any field is assigned, so a throw leaves the object as it
was. `Effect` states this, and every `Game` method's contract uses it; the
`GameManager` methods are tied to `ResetCurrent`, `StartCurrent` and
`EndCurrent` instead. `new Date()` is a clock read, so it becomes a parameter
`now: Time`.

The model follows the code as written:

- `decCount` has no floor, so the count can go negative.
- `incCount` and `decCount` check only that the game has started, so they
  still work after the game has ended.
- `GameManager.startGame` replaces a current game without any conflict
  check.
- `GameManager.endGame` pushes the ended game onto `gameList` and then runs
  `_init`, which empties the list again.

## Model

| member | source | states |
|---|---|---|
| Games.NewGame | jeepscore.js:82-90 | a new game is Pending (no start time, no end time), has count 0 and holds the given players |
| Games.Start | jeepscore.js:93-102 | startGame succeeds iff the game is Pending. A set start time gives "already running" and otherwise a set end time gives "has ended". On success the game is Active, the start time is the clock reading, and the end time, count and players are unchanged |
| Games.End | jeepscore.js:105-114 | endGame succeeds iff the game is Active. An unset start time gives "hasn't started" and otherwise a set end time gives "already ended". On success the game is Ended, the end time is the clock reading, and nothing else changes |
| Games.Inc | jeepscore.js:117-123 | incCount fails iff there is no start time, with its own error. Otherwise the count goes up by one and nothing else changes, so an ended game still counts |
| Games.Dec | jeepscore.js:126-132 | decCount fails iff there is no start time, with its own error. Otherwise the count goes down by one with no floor and nothing else changes |
| Games.RunIsMonotone | jeepscore.js:93-132 | along any sequence of startGame/endGame/incCount/decCount, successful or throwing, a game never moves back along Pending -> Active -> Ended, an end time always comes with a start time, and the players never change |
| Games.EndedIsTerminal | jeepscore.js:93-114 | once a game has an end time, any later sequence of startGame/endGame/incCount/decCount keeps both time stamps, and startGame and endGame then throw with the matching errors |
| Games.EndThenNothingStarts | jeepscore.js:105-114 | after a successful endGame, whatever startGame/endGame/incCount/decCount follow, startGame throws "already running" and endGame throws "already ended" |
| Games.CountAfterRun | jeepscore.js:117-132 | on a started game, after any sequence of startGame/endGame/incCount/decCount the count is the old count plus the number of incCounts minus the number of decCounts |
| Games.CountFrozenUntilStart | jeepscore.js:117-132 | without a startGame, a game that has not started keeps its count and stays unstarted whatever endGame/incCount/decCount are called |
| Games.DecCountGoesNegative | jeepscore.js:126-132 | a fresh game that is started and then decremented once holds -1 |
| Games.StampText | jeepscore.js:165-173 | a time stamp is written as the instant it denotes, and null is written as null |
| Games.ParsedStamp | jeepscore.js:175-182 | a written instant is read back as text denoting that instant, and null as null |
| Games.SnapshotOf | jeepscore.js:165-173 | toJson writes the players and the count, and writes each time stamp as null exactly when it is null |
| Games.Restore | jeepscore.js:175-182 | fromJson takes the players and count from the record, and each time stamp is null exactly when the record holds null |
| Games.RestoreSnapshot | jeepscore.js:165-182 | fromJson(toJson()) gives back the players, the count, the phase and the instants of both time stamps |
| Games.SnapshotOfRestore | jeepscore.js:165-182 | toJson(fromJson(record)) is the same record |
| Games.RestoredBehavesAlike | jeepscore.js:93-182 | a game rebuilt from its own snapshot behaves like the original under any sequence of startGame/endGame/incCount/decCount, as seen through toJson |
| Games.Game.constructor | jeepscore.js:82-90 | the object's fields are those of NewGame(players) |
| Games.Game.StartGame | jeepscore.js:93-102 | the outcome and the new fields are those of Start on the old fields, or the old fields when it throws |
| Games.Game.EndGame | jeepscore.js:105-114 | the outcome and the new fields are those of End on the old fields, or the old fields when it throws |
| Games.Game.IncCount | jeepscore.js:117-123 | the outcome and the new fields are those of Inc on the old fields, or the old fields when it throws |
| Games.Game.DecCount | jeepscore.js:126-132 | the outcome and the new fields are those of Dec on the old fields, or the old fields when it throws |
| Games.Game.ToJson | jeepscore.js:165-173 | the record written is SnapshotOf of the object's fields |
| Games.Game.FromJson | jeepscore.js:175-182 | all four fields are overwritten with Restore of the record |
| Managers.Initial | jeepscore.js:10-14 | `_init` leaves no current game and an empty list of past games |
| Managers.ResetCurrent | jeepscore.js:23-26 | resetGame drops the current game and keeps the list |
| Managers.StartedGame | jeepscore.js:29-33 | the game startGame makes current is a fresh game over the players, started at the clock reading, so it is Active |
| Managers.StartCurrent | jeepscore.js:29-33 | startGame makes that started game current whatever was current before, with no conflict check, and keeps the list |
| Managers.EndCurrent | jeepscore.js:36-42 | endGame with no current game fails. When the current game refuses to end, its error passes through. It succeeds iff the current game is Active, and it then leaves the manager as `_init` does |
| Managers.ManagerStepKeepsReachable | jeepscore.js:1-42 | every startGame, endGame or resetGame on the manager, and every startGame/endGame/incCount/decCount on its current game, keeps the list of past games empty and keeps any current game started and consistent |
| Managers.RunKeepsReachable | jeepscore.js:1-42 | that invariant holds after any sequence of those operations |
| Managers.ReachableAfterRun | jeepscore.js:1-42 | from construction, after any sequence of those operations, the list of past games is empty and incCount and decCount on the current game cannot throw |
| Managers.EndedGameIsDiscarded | jeepscore.js:36-42 | right after a successful endGame there is no current game and no past game, so the ended game is kept nowhere |
| Managers.GameManager.constructor | jeepscore.js:3-8 | a new manager has no game and an empty list |
| Managers.GameManager.Init | jeepscore.js:10-14 | `_init` sets no game and an empty list |
| Managers.GameManager.ResetGame | jeepscore.js:23-26 | the game becomes null and the list is kept, as ResetCurrent says |
| Managers.GameManager.StartGame | jeepscore.js:29-33 | the game becomes a fresh object, the list is kept, and the manager's value is StartCurrent of the old one |
| Managers.GameManager.EndGame | jeepscore.js:36-42 | with no game it fails and changes nothing. A refusing game passes its error through and nothing changes. On success the old game object is End of its old state, so only its end time changes, and the manager has no game and an empty list, and the outcome and new value are those of EndCurrent |
| Text.Decimal | jeepscore.js:250 | the decimal text of a number is non-empty, all digits, and has no leading zero |
| Text.ParseDecimalOfDecimal | jeepscore.js:250 | reading the decimal text of n gives back n |
| Text.Join | jeepscore.js:254 | definition of `join` with a one-character separator; its property is SplitJoin |
| Text.SplitJoin | jeepscore.js:254 | parts free of the separator, joined by it, split back into exactly those parts |
| ElapsedTime.Flatten | jeepscore.js:190 | a character is in the flattened units iff it occurs in one of the unit strings |
| ElapsedTime.WithoutZeros | jeepscore.js:195 | dropping "0" keeps exactly the other characters |
| ElapsedTime.KeepZero | jeepscore.js:194 | definition: whether "0" occurs among the unit characters; the written fields use it in ShownFieldsShape and ShownFieldsComplete |
| ElapsedTime.Selected | jeepscore.js:194-197 | the chosen units are the given characters other than "0", or all of y, w, d, h, m, s when no other character was given |
| ElapsedTime.DefaultsToAllUnits | jeepscore.js:196-197 | with nothing but "0" given (or nothing at all), exactly the six units get a field |
| ElapsedTime.UnitsShrink | jeepscore.js:201-238 | every unit holds more seconds than each later unit, and the six unit letters are distinct |
| ElapsedTime.Peel | jeepscore.js:199-239 | definition of the fields the six blocks set; its properties are PeelKeys, PeelConserves and the bounds below, and PeelFields is proved equal to it |
| ElapsedTime.PeelKeys | jeepscore.js:199-239 | a field is set exactly for the chosen units |
| ElapsedTime.PeelConserves | jeepscore.js:199-239 | the fields times their unit sizes, plus what is left after the last chosen unit, add up to the input seconds |
| ElapsedTime.RestAtMost | jeepscore.js:199-239 | what is left over is never more than the input |
| ElapsedTime.RestBelowChosenUnit | jeepscore.js:199-239 | what is left over is less than one of each chosen unit |
| ElapsedTime.NothingDroppedWithSeconds | jeepscore.js:236-238 | when seconds are chosen nothing is left over |
| ElapsedTime.FieldAtMost | jeepscore.js:199-239 | a chosen unit's field never stands for more seconds than the input |
| ElapsedTime.FieldBelowLargerUnit | jeepscore.js:199-239 | for two chosen units, the smaller one's field stands for less than one of the larger one, so with minutes chosen the seconds are below 60, with hours chosen the minutes are below 60, and so on |
| ElapsedTime.PeelIntoIsPeel | jeepscore.js:199-239 | filling the fields block by block, into fields that hold none of the units still to come, adds exactly the peeled fields |
| ElapsedTime.PeelFromNothing | jeepscore.js:199-239 | filling the fields block by block from an empty object gives exactly the peeled fields |
| ElapsedTime.SecondsTakeTheRest | jeepscore.js:236-238 | the seconds block, when seconds are chosen, sets the field to everything that is left |
| ElapsedTime.TakeUnit | jeepscore.js:201-234 | one unit block takes the truncated quotient by the unit size into the field and leaves the remainder, which is one step of the peel |
| ElapsedTime.PeelFields | jeepscore.js:199-239 | the six blocks fill the fields with exactly the peel of the input over the chosen units |
| ElapsedTime.ShownFields | jeepscore.js:241-252 | the written fields come in strictly increasing unit order, no earlier than the starting unit |
| ElapsedTime.AscendingInOrder | jeepscore.js:242 | in the written fields every earlier field has an earlier unit than every later one, so each unit is written at most once and in the order y, w, d, h, m, s |
| ElapsedTime.ShownFieldsShape | jeepscore.js:244-250 | every written field is for a unit that has a field, lies in the range walked, holds that field's amount, and is non-zero unless "0" was given |
| ElapsedTime.ShownFieldsComplete | jeepscore.js:244-250 | every unit that has a field, and is non-zero or has "0" given, is written |
| ElapsedTime.ShownFieldsTotal | jeepscore.js:247-248 | skipping zero fields loses no seconds: the written fields stand for the same seconds as all fields |
| ElapsedTime.RenderShownStep | jeepscore.js:241-252 | one turn of the loop appends the text of the unit's field when it is written, and nothing otherwise |
| ElapsedTime.Render | jeepscore.js:250 | one text per written field, in the same order, each being the amount in decimal followed by the unit letter |
| ElapsedTime.PartValueOfField | jeepscore.js:250 | the text of a field reads back as its amount times its unit size |
| ElapsedTime.RecombineRender | jeepscore.js:250 | the written texts read back as the seconds their fields stand for |
| ElapsedTime.FieldTextHasNoSpace | jeepscore.js:250 | no written field contains a space |
| ElapsedTime.RenderSplits | jeepscore.js:250-254 | the written fields, joined with single spaces, split at the spaces into exactly those fields |
| ElapsedTime.RenderedTotal | jeepscore.js:199-254 | the seconds read back from the written text, plus what is left over, equal the input |
| ElapsedTime.RenderedLoss | jeepscore.js:199-254 | the text stands for at most the input, the seconds it drops are fewer than one of any chosen unit, and it stands for exactly the input when seconds are chosen |
| ElapsedTime.WriteFields | jeepscore.js:241-252 | the loop produces exactly the texts of the written fields |
| ElapsedTime.Fields | jeepscore.js:194-239 | definition: the peel of the input over the chosen units; its properties are in PrettyAddsUp and DefaultsToAllUnits |
| ElapsedTime.PrettyParts | jeepscore.js:241-252 | definition: the texts of the written fields; its properties are in PrettySplits and PrettyAddsUp |
| ElapsedTime.Pretty | jeepscore.js:187-255 | definition: the written texts joined with spaces; PrettyElapsedTime is proved equal to it, and PrettySplits and PrettyAddsUp are about it |
| ElapsedTime.PrettySplits | jeepscore.js:254 | with no field written the result is the empty string. Otherwise it splits at single spaces into the written fields |
| ElapsedTime.PrettyAddsUp | jeepscore.js:187-255 | the result stands for at most the input seconds, the seconds it drops are fewer than one of any chosen unit, and it stands for exactly the input when "s" is chosen |
| ElapsedTime.PrettyElapsedTime | jeepscore.js:187-255 | the returned text is Pretty of the input and unit strings, the function all the lemmas above are about |

## Left out

- `GameUI` (jeepscore.js:258-432) is not modelled. It is DOM queries, event
  wiring and `window` globals.
- The clock: `new Date()` becomes the parameter `now`. The model says
  nothing about start and end times being in order, because the source
  does not enforce that.
- JSON text: `toJson` and `fromJson` are modelled as writing and reading a
  record, not text. Malformed text and missing or extra fields are not
  modelled. Neither is `undefined` standing in for a missing field.
- `fromJson` gives back plain objects in place of `Player` instances. The
  model does not capture that the methods are lost. A time stamp that comes
  back as text is modelled as `IsoText`, which keeps only the instant.
- Aliasing: `players` is stored and handed out as the caller's own array.
  The model holds it as a value.
- `getHistoricalGames` and `exportHistoricalData` (jeepscore.js:45-52) are
  empty and return nothing. They are not modelled.
- `getCurrentGame` and the `Game` getters are functions that return the
  field. They have no contract beyond that.
- `getPrettyElapsedTime` takes natural numbers of seconds only. Negative or
  fractional input and numbers beyond 2^53 are floating point in the source
  and are not modelled.
- `getPrettyElapsedTime`: `split("")` cuts strings into UTF-16 code units,
  and the model cuts them into characters.
- `count` is a JavaScript number in the source, so past 2^53 `++` and `--`
  stop changing it. The model's count is an unbounded integer.
- `fromJson` is not one of the operations of `GameOp` or `ManagerOp`. It
  overwrites all four fields and can put a game, including the manager's
  current game, in any phase, so `RunIsMonotone`, `EndedIsTerminal`,
  `CountAfterRun`, `CountFrozenUntilStart`, `RestoredBehavesAlike` and the
  manager's `Reachable` lemmas speak only of sequences of
  startGame/endGame/incCount/decCount (and, for the manager, its own
  startGame/endGame/resetGame).
