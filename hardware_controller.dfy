/** The hardware-enabled Flask server: the process-wide `game_state` round
    record with its two mutating handlers (`start_round` and
    `handle_button_press`, plus the GPIO guard `hardware_button_pressed`),
    and the leaderboard with its PostgreSQL-or-JSON storage. Clock readings
    are integer milliseconds passed in as `now`; `random.choice([1, 2])` is a
    parameter restricted to {1, 2}; the database and the JSON file are
    sequences of rows, and their failures are boolean parameters. */
module HardwareController {
  import opened Common
  import opened ScoreEntries
  import Ranking

  /** `game_state["last_message"]`, by the f-string that produced it. */
  datatype Message =
    | NotStarted                           // "Game not started"
    | CorrectPress(reaction: int)          // "Correct! Reaction time: ... ms"
    | WrongButton(expected: Option<int>)   // "Wrong button! Expected ..."

  /** The motor call a handled press makes when hardware is enabled. */
  datatype DeviceCall = NoCall | PerformanceMeter(reaction: int) | SnapBack

  class RoundState {
    var round: int
    var waitingForPress: bool
    var currentButton: Option<int>
    var lastMessage: Message
    var bestTime: BestTime
    var startTime: Option<int>
    var gameMode: string
    var tensionBuilding: bool
    /** `HARDWARE_ENABLED and hardware`, fixed at import time. */
    const hardwareEnabled: bool
    /** Every correct reaction time so far, oldest first. */
    ghost var correctTimes: seq<int>

    /** The round counter counts correct presses, the best time is the
        smallest of them, and a round waiting for a press has a start time. */
    ghost predicate Valid()
      reads this
    {
      && (waitingForPress ==> startTime.Some?)
      && round == |correctTimes|
      && bestTime == MinOf(correctTimes)
    }

    constructor (hardwareEnabled: bool)
      ensures Valid()
      ensures this.hardwareEnabled == hardwareEnabled
      ensures round == 0 && !waitingForPress && currentButton.None? && lastMessage == NotStarted
      ensures bestTime.Unset? && startTime.None? && gameMode == "time_attack" && !tensionBuilding
    {
      this.hardwareEnabled := hardwareEnabled;
      round := 0;
      waitingForPress := false;
      currentButton := None;
      lastMessage := NotStarted;
      bestTime := Unset;
      startTime := None;
      gameMode := "time_attack";
      tensionBuilding := false;
      correctTimes := [];
    }

    /** `start_round`: target the requested button, or a random one of
        {1, 2}, and open the round at `now`. Round count, best time and
        message are left alone. */
    method StartRound(requested: Option<int>, choice: int, now: int)
      requires Valid()
      requires choice == 1 || choice == 2
      modifies this
      ensures Valid()
      ensures currentButton == Some(OrElse(requested, choice))
      ensures requested.None? ==> currentButton == Some(1) || currentButton == Some(2)
      ensures waitingForPress && !tensionBuilding && startTime == Some(now)
      ensures round == old(round) && bestTime == old(bestTime) && lastMessage == old(lastMessage)
      ensures gameMode == old(gameMode) && correctTimes == old(correctTimes)
    {
      currentButton := Some(OrElse(requested, choice));
      waitingForPress := true;
      startTime := Some(now);
      tensionBuilding := false;
    }

    /** The new state after a press of `button` at `now` that found a round
        waiting, and the device call it made. The reaction time is `now`
        minus the start time. A correct press counts one more round, records
        the time, may improve the best time, ends any tension and animates
        the performance meter; a wrong press leaves round, best time and
        times alone and snaps the servo back. Either way the round stops
        waiting. */
    twostate predicate PressHandled(button: int, now: int, call: DeviceCall)
      reads this
    {
      && old(startTime).Some?
      && var rt := now - old(startTime).value;
      var correct := old(currentButton) == Some(button);
      && !waitingForPress
      && currentButton == old(currentButton) && startTime == old(startTime)
      && gameMode == old(gameMode)
      && (correct ==>
            && round == old(round) + 1
            && bestTime == Improve(old(bestTime), rt)
            && correctTimes == old(correctTimes) + [rt]
            && !tensionBuilding
            && lastMessage == CorrectPress(rt)
            && call == (if hardwareEnabled then PerformanceMeter(rt) else NoCall))
      && (!correct ==>
            && round == old(round) && bestTime == old(bestTime)
            && correctTimes == old(correctTimes)
            && tensionBuilding == old(tensionBuilding)
            && lastMessage == WrongButton(old(currentButton))
            && call == (if hardwareEnabled then SnapBack else NoCall))
    }

    /** `handle_button_press`. A press while no round is waiting is refused
        and changes nothing. Otherwise the reaction time is `now` minus the
        start time; a correct press counts one more round and may improve the
        best time, a wrong one changes neither; either way the round stops
        waiting, so a repeated press is refused. */
    method HandleButtonPress(button: int, now: int) returns (r: PressResult, call: DeviceCall)
      requires Valid()
      modifies this
      ensures Valid()
      ensures !old(waitingForPress) ==> r == NotWaiting && call == NoCall && unchanged(this)
      ensures old(waitingForPress) ==>
        && r == Handled(now - old(startTime).value, old(currentButton) == Some(button))
        && PressHandled(button, now, call)
      ensures AtMost(bestTime, old(bestTime))
    {
      if !waitingForPress {
        return NotWaiting, NoCall;
      }
      var rt := now - startTime.value;
      call := NoCall;
      if Some(button) == currentButton {
        CountCorrectPress(rt);
        if hardwareEnabled {
          call := PerformanceMeter(rt);
        }
        waitingForPress := false;
        tensionBuilding := false;
        r := Handled(rt, true);
      } else {
        lastMessage := WrongButton(currentButton);
        waitingForPress := false;
        if hardwareEnabled {
          call := SnapBack;
        }
        r := Handled(rt, false);
      }
    }

    /** The correct-press branch of `handle_button_press`: the message, a
        best time improved by `rt`, and one more round. */
    method CountCorrectPress(rt: int)
      requires Valid()
      modifies this
      ensures Valid()
      ensures lastMessage == CorrectPress(rt) && round == old(round) + 1
      ensures bestTime == Improve(old(bestTime), rt) && correctTimes == old(correctTimes) + [rt]
      ensures waitingForPress == old(waitingForPress) && currentButton == old(currentButton)
      ensures startTime == old(startTime) && gameMode == old(gameMode)
      ensures tensionBuilding == old(tensionBuilding)
    {
      lastMessage := CorrectPress(rt);
      if Beats(rt, bestTime) {
        bestTime := Ms(rt);
      }
      MinOfAppend(correctTimes, rt);
      correctTimes := correctTimes + [rt];
      round := round + 1;
    }

    /** `hardware_button_pressed`: a GPIO press reaches the handler only
        while a round waits for a press and no tension delay is running. */
    method HardwareButtonPressed(button: int, now: int) returns (forwarded: bool, call: DeviceCall)
      requires Valid()
      modifies this
      ensures Valid()
      ensures forwarded == old(waitingForPress && !tensionBuilding)
      ensures !forwarded ==> call == NoCall && unchanged(this)
      ensures forwarded ==> PressHandled(button, now, call)
    {
      forwarded := waitingForPress && !tensionBuilding;
      call := NoCall;
      if forwarded {
        var _, c := HandleButtonPress(button, now);
        call := c;
      }
    }
  }

  /** A second press right after an accepted one is refused. */
  method RepeatedPressRefused(s: RoundState, b1: int, b2: int, t1: int, t2: int)
    requires s.Valid() && s.waitingForPress
    modifies s
    ensures s.Valid()
  {
    var r1, _ := s.HandleButtonPress(b1, t1);
    assert r1.Handled?;
    var r2, _ := s.HandleButtonPress(b2, t2);
    assert r2 == NotWaiting;
  }

  // ---------------------------------------------------------------------
  // Leaderboard submissions
  // ---------------------------------------------------------------------

  /** The entry `save_score` builds from a request body, or the 400 reply
      when one of the five required fields is absent. The name is stripped
      and cut to 50 characters, an `avgTime` of "-" is stored as 0, and
      `difficulty` and `maxCombo` default to "unknown" and 0. */
  function NormaliseSubmission(sub: Submission, now: real): (r: Result<Entry, SubmitError>)
    ensures r.Err? <==> !HasRequiredFields(sub)
    ensures r.Err? ==> r.error == MissingFields
    ensures r.Ok? ==>
      var e := r.value;
      && |e.name| <= NameLimit
      && e.name <= Strip(sub.name.value)
      && |e.name| == (if |Strip(sub.name.value)| < NameLimit then |Strip(sub.name.value)| else NameLimit)
      && (e.name != [] ==> !IsSpace(e.name[0]))
      && e.score == sub.score && e.gameMode == sub.gameMode
      && (sub.avgTime.value.Dash? ==> e.avgTime == Some(0.0))
      && (sub.avgTime.value.Number? ==> e.avgTime == Some(sub.avgTime.value.v))
      && e.accuracy == sub.accuracy.value
      && e.difficulty == OrElse(sub.difficulty, DefaultDifficulty)
      && e.maxCombo == OrElse(sub.maxCombo, 0)
      && e.timestamp == now
  {
    if !HasRequiredFields(sub) then Err(MissingFields)
    else
      var avg := if sub.avgTime.value.Dash? then 0.0 else sub.avgTime.value.v;
      Ok(Entry(
        name := Truncate(Strip(sub.name.value), NameLimit),
        score := sub.score,
        gameMode := sub.gameMode,
        difficulty := OrElse(sub.difficulty, DefaultDifficulty),
        maxCombo := OrElse(sub.maxCombo, 0),
        avgTime := Some(avg),
        accuracy := sub.accuracy.value,
        timestamp := now))
  }

  /** A name with surrounding blanks is stored without them. */
  lemma PaddedNameIsStripped(sub: Submission, core: string, left: string, right: string, now: real)
    requires HasRequiredFields(sub)
    requires sub.name == Some(left + core + right)
    requires AllSpace(left) && AllSpace(right) && NoOuterSpace(core) && |core| <= NameLimit
    ensures NormaliseSubmission(sub, now).Ok?
    ensures NormaliseSubmission(sub, now).value.name == core
  {
    StripPadded(left, core, right);
  }

  // ---------------------------------------------------------------------
  // Leaderboard storage
  // ---------------------------------------------------------------------

  class ScoreStore {
    /** `USE_DATABASE` */
    var useDatabase: bool
    /** `db_connection` */
    var connection: Option<Connection>
    /** The rows of the `leaderboard` table, in insertion order. */
    var dbRows: seq<Entry>
    /** `leaderboard_data.json`; `None` when the file is missing or does
        not parse, both of which load as an empty list. */
    var jsonFile: Option<seq<Entry>>

    constructor (dbRows: seq<Entry>, jsonFile: Option<seq<Entry>>)
      ensures !useDatabase && connection.None?
      ensures this.dbRows == dbRows && this.jsonFile == jsonFile
    {
      useDatabase := false;
      connection := None;
      this.dbRows := dbRows;
      this.jsonFile := jsonFile;
    }

    /** `init_database`: with a non-empty `DATABASE_URL`, connect to its
        rewritten form and set up the schema (`connectOk` says whether that
        succeeded); the database is used exactly when both held. */
    method InitDatabase(databaseUrl: Option<string>, connectOk: bool)
      modifies this
      ensures useDatabase <==> databaseUrl.Some? && databaseUrl.value != "" && connectOk
      ensures useDatabase ==> connection == Some(Connection(RewriteDatabaseUrl(databaseUrl.value)))
      ensures databaseUrl.Some? && databaseUrl.value != "" && !connectOk ==> connection.None?
      ensures (databaseUrl.None? || databaseUrl.value == "") ==> connection == old(connection)
      ensures dbRows == old(dbRows) && jsonFile == old(jsonFile)
    {
      if databaseUrl.Some? && databaseUrl.value != "" {
        var url := RewriteDatabaseUrl(databaseUrl.value);
        if connectOk {
          connection := Some(Connection(url));
          useDatabase := true;
        } else {
          useDatabase := false;
          connection := None;
        }
      } else {
        useDatabase := false;
      }
    }

    /** `load_leaderboard_json` */
    function LoadJson(): seq<Entry>
      reads this
    {
      OrElse(jsonFile, [])
    }

    /** The database serves reads and writes: `USE_DATABASE and db_connection`. */
    predicate DatabaseServes()
      reads this
    {
      useDatabase && connection.Some?
    }

    /** `load_leaderboard`: the table's rows newest first when the database
        serves and the query succeeds (`selected` is the answer to
        `ORDER BY timestamp DESC`), otherwise the JSON rows. */
    function LoadLeaderboard(selected: seq<Entry>, readFails: bool): (rows: seq<Entry>)
      reads this
      requires multiset(selected) == multiset(dbRows) && NewestFirst(selected)
      ensures DatabaseServes() && !readFails ==> multiset(rows) == multiset(dbRows) && NewestFirst(rows)
      ensures !DatabaseServes() || readFails ==> rows == LoadJson()
    {
      if DatabaseServes() && !readFails then selected else LoadJson()
    }

    /** `get_leaderboard` after reading its query arguments: the ranked rows
        of `mode`, sliced to `limit`, and the number of rows of `mode`. */
    function GetLeaderboard(mode: string, limit: int, selected: seq<Entry>, readFails: bool): (q: Ranking.QueryResult)
      reads this
      requires multiset(selected) == multiset(dbRows) && NewestFirst(selected)
      ensures var loaded := LoadLeaderboard(selected, readFails);
        && q.total == |Ranking.OfMode(loaded, mode)|
        && (forall e :: e in q.scores ==> e in loaded && e.gameMode == Some(mode))
        && (limit >= 0 ==> |q.scores| <= limit)
      ensures q == Ranking.Query(LoadLeaderboard(selected, readFails), mode, limit)
    {
      var loaded := LoadLeaderboard(selected, readFails);
      Ranking.QueryRanks(loaded, mode, limit);
      Ranking.Query(loaded, mode, limit)
    }

    function StorageInUse(): StorageType
      reads this
    {
      if useDatabase then Database else Json
    }

    /** `save_score`. A body missing a required field is refused and nothing
        is stored. Otherwise the entry goes to the database when it serves
        and the insert succeeds; failing that, the JSON list is read, the
        entry appended at its end and the list written back (a failed write
        leaves the file as it was). */
    method SaveScore(sub: Submission, now: real, insertFails: bool, writeFails: bool)
      returns (r: Result<Entry, SubmitError>, storage: StorageType)
      modifies this
      ensures r == NormaliseSubmission(sub, now)
      ensures storage == StorageInUse()
      ensures useDatabase == old(useDatabase) && connection == old(connection)
      ensures r.Err? ==> unchanged(this)
      ensures r.Ok? ==>
        var inDb := old(DatabaseServes()) && !insertFails;
        && dbRows == old(dbRows) + (if inDb then [r.value] else [])
        && jsonFile == (if inDb || writeFails then old(jsonFile) else Some(old(LoadJson()) + [r.value]))
    {
      r := NormaliseSubmission(sub, now);
      storage := StorageInUse();
      if r.Err? {
        return;
      }
      var entry := r.value;
      ghost var rows0, file0, serves0 := dbRows, jsonFile, DatabaseServes();
      var success := false;
      if useDatabase {
        success := SaveToDatabase(entry, insertFails);
      }
      assert success == (serves0 && !insertFails);
      assert dbRows == rows0 + (if success then [entry] else []) && jsonFile == file0;
      if !success {
        var all := LoadJson();
        all := all + [entry];
        SaveJson(all, writeFails);
      }
    }

    /** `save_score_to_database` */
    method SaveToDatabase(entry: Entry, insertFails: bool) returns (success: bool)
      modifies this
      ensures success == (DatabaseServes() && !insertFails)
      ensures dbRows == old(dbRows) + (if success then [entry] else [])
      ensures useDatabase == old(useDatabase) && connection == old(connection) && jsonFile == old(jsonFile)
    {
      success := false;
      if useDatabase && connection.Some? && !insertFails {
        dbRows := dbRows + [entry];
        success := true;
      }
    }

    /** `save_leaderboard_json`: rewrite the whole file; a write error is
        logged and swallowed. */
    method SaveJson(data: seq<Entry>, writeFails: bool)
      modifies this
      ensures jsonFile == (if writeFails then old(jsonFile) else Some(data))
      ensures useDatabase == old(useDatabase) && connection == old(connection) && dbRows == old(dbRows)
    {
      if !writeFails {
        jsonFile := Some(data);
      }
    }
  }

  /** With the database failing, a saved score lands at the end of a
      readable JSON list and nothing else in the list changes. */
  method FallbackAppends(store: ScoreStore, sub: Submission, now: real)
    requires HasRequiredFields(sub)
    requires store.useDatabase && store.jsonFile.Some?
    modifies store
  {
    var before := store.jsonFile.value;
    var r, _ := store.SaveScore(sub, now, true, false);
    assert store.jsonFile == Some(before + [r.value]);
  }
}
