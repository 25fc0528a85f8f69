/** The web-only Flask server: the same `game_state` round record as the
    hardware server without its GPIO path, and a leaderboard whose database
    connection is opened lazily on first use and cached. Clock readings are
    integer milliseconds passed in as `now`, `random.choice([1, 2])` is a
    parameter restricted to {1, 2}, the `DATABASE_URL` environment variable
    is fixed when the store is made, and the outcome of each connection
    attempt, insert, select and file write is a boolean parameter. */
module App {
  import opened Common
  import opened ScoreEntries

  /** `game_state["last_message"]`, by the f-string that produced it. */
  datatype Message =
    | NotStarted              // "Game not started"
    | CorrectPress(ms: int)   // "✅ Correct! ... ms"
    | WrongButton             // "❌ Wrong button!"

  class RoundState {
    var round: int
    var waitingForPress: bool
    var currentButton: Option<int>
    var lastMessage: Message
    var bestTime: BestTime
    var startTime: Option<int>
    var gameMode: string
    var tensionBuilding: bool
    /** Every correct reaction time so far, oldest first. */
    ghost var correctTimes: seq<int>

    /** The round counter counts correct presses, the best time is the
        smallest of them, and a round waiting for a press has a start time. */
    ghost predicate Valid()
      reads this
    {
      && (waitingForPress ==> startTime.Some?)
      && round == |correctTimes|
      && bestTime == MinOf(correctTimes)
    }

    constructor ()
      ensures Valid()
      ensures round == 0 && !waitingForPress && currentButton.None? && lastMessage == NotStarted
      ensures bestTime.Unset? && startTime.None? && gameMode == "time_attack" && !tensionBuilding
    {
      round := 0;
      waitingForPress := false;
      currentButton := None;
      lastMessage := NotStarted;
      bestTime := Unset;
      startTime := None;
      gameMode := "time_attack";
      tensionBuilding := false;
      correctTimes := [];
    }

    /** `start_round`: target a random one of {1, 2} and open the round at
        `now`; everything else, the tension flag included, is left alone. */
    method StartRound(choice: int, now: int)
      requires Valid()
      requires choice == 1 || choice == 2
      modifies this
      ensures Valid()
      ensures currentButton == Some(1) || currentButton == Some(2)
      ensures currentButton == Some(choice) && waitingForPress && startTime == Some(now)
      ensures round == old(round) && bestTime == old(bestTime) && lastMessage == old(lastMessage)
      ensures gameMode == old(gameMode) && tensionBuilding == old(tensionBuilding)
      ensures correctTimes == old(correctTimes)
    {
      currentButton := Some(choice);
      waitingForPress := true;
      startTime := Some(now);
    }

    /** `handle_button_press`. A press while no round is waiting is refused
        and changes nothing. Otherwise the reaction time is `now` minus the
        start time; a correct press counts one more round and may improve the
        best time, a wrong one changes neither; either way the round stops
        waiting and the target stays set. */
    method HandleButtonPress(button: int, now: int) returns (r: PressResult)
      requires Valid()
      modifies this
      ensures Valid()
      ensures !old(waitingForPress) ==> r == NotWaiting && unchanged(this)
      ensures old(waitingForPress) ==>
        var rt := now - old(startTime).value;
        var correct := old(currentButton) == Some(button);
        && r == Handled(rt, correct)
        && !waitingForPress
        && currentButton == old(currentButton) && startTime == old(startTime)
        && gameMode == old(gameMode) && tensionBuilding == old(tensionBuilding)
        && (correct ==>
              && round == old(round) + 1
              && bestTime == Improve(old(bestTime), rt)
              && correctTimes == old(correctTimes) + [rt]
              && lastMessage == CorrectPress(rt))
        && (!correct ==>
              && round == old(round) && bestTime == old(bestTime)
              && correctTimes == old(correctTimes)
              && lastMessage == WrongButton)
      ensures AtMost(bestTime, old(bestTime))
    {
      if !waitingForPress {
        return NotWaiting;
      }
      var rt := now - startTime.value;
      if Some(button) == currentButton {
        CountCorrectPress(rt);
        r := Handled(rt, true);
      } else {
        lastMessage := WrongButton;
        r := Handled(rt, false);
      }
      waitingForPress := false;
    }

    /** The correct-press branch of `handle_button_press`: the message, a
        best time improved by `rt`, and one more round. */
    method CountCorrectPress(rt: int)
      requires Valid()
      modifies this
      ensures Valid()
      ensures lastMessage == CorrectPress(rt) && round == old(round) + 1
      ensures bestTime == Improve(old(bestTime), rt) && correctTimes == old(correctTimes) + [rt]
      ensures waitingForPress == old(waitingForPress) && currentButton == old(currentButton)
      ensures startTime == old(startTime) && gameMode == old(gameMode)
      ensures tensionBuilding == old(tensionBuilding)
    {
      lastMessage := CorrectPress(rt);
      if Beats(rt, bestTime) {
        bestTime := Ms(rt);
      }
      MinOfAppend(correctTimes, rt);
      correctTimes := correctTimes + [rt];
      round := round + 1;
    }
  }

  /** Once a round is handled, pressing again is refused until the next
      `start_round`. */
  method RepeatedPressRefused(s: RoundState, b1: int, b2: int, t1: int, t2: int)
    requires s.Valid() && s.waitingForPress
    modifies s
    ensures s.Valid()
  {
    var r1 := s.HandleButtonPress(b1, t1);
    assert r1.Handled?;
    var r2 := s.HandleButtonPress(b2, t2);
    assert r2 == NotWaiting;
  }

  // ---------------------------------------------------------------------
  // Leaderboard submissions
  // ---------------------------------------------------------------------

  /** The entry `save_score` builds. A missing required key raises
      `KeyError` and an `avgTime` of "-" makes `float("-")` raise
      `ValueError`; both end the request with a server error before
      anything is stored. The name is cut to 50 characters but not
      stripped. */
  function BuildEntry(sub: Submission, now: real): (r: Result<Entry, SubmitError>)
    ensures r.Err? <==> !HasRequiredFields(sub) || sub.avgTime.value.Dash?
    ensures r.Err? ==> r.error == ServerError
    ensures r.Ok? ==>
      var e := r.value;
      && |e.name| <= NameLimit
      && e.name <= sub.name.value
      && (|sub.name.value| <= NameLimit ==> e.name == sub.name.value)
      && (|sub.name.value| > NameLimit ==> |e.name| == NameLimit)
      && e.score == sub.score && e.gameMode == sub.gameMode
      && e.avgTime == Some(sub.avgTime.value.v)
      && e.accuracy == sub.accuracy.value
      && e.difficulty == OrElse(sub.difficulty, DefaultDifficulty)
      && e.maxCombo == OrElse(sub.maxCombo, 0)
      && e.timestamp == now
  {
    if !HasRequiredFields(sub) || sub.avgTime.value.Dash? then Err(ServerError)
    else
      Ok(Entry(
        name := Truncate(sub.name.value, NameLimit),
        score := sub.score,
        gameMode := sub.gameMode,
        difficulty := OrElse(sub.difficulty, DefaultDifficulty),
        maxCombo := OrElse(sub.maxCombo, 0),
        avgTime := Some(sub.avgTime.value.v),
        accuracy := sub.accuracy.value,
        timestamp := now))
  }

  /** Unlike the hardware server, blanks around a name are kept: a name
      that starts with a blank is stored starting with that blank. */
  lemma PaddingKept(sub: Submission, now: real)
    requires HasRequiredFields(sub) && sub.avgTime.value.Number?
    requires sub.name.value != [] && IsSpace(sub.name.value[0])
    ensures BuildEntry(sub, now).Ok?
    ensures BuildEntry(sub, now).value.name != []
    ensures IsSpace(BuildEntry(sub, now).value.name[0])
  {
    var name := sub.name.value;
    var e := BuildEntry(sub, now).value;
    assert |e.name| > 0 && e.name[0] == name[0];
  }

  // ---------------------------------------------------------------------
  // Leaderboard storage
  // ---------------------------------------------------------------------

  class ScoreStore {
    /** `USE_DATABASE` */
    var useDatabase: bool
    /** `db_connection`, cached after the first successful connect. */
    var connection: Option<Connection>
    /** The rows of the `leaderboard` table, in insertion order. */
    var dbRows: seq<Entry>
    /** `leaderboard_data.json`; `None` when the file is missing or does
        not parse, both of which load as an empty list. */
    var jsonFile: Option<seq<Entry>>
    /** `os.environ.get("DATABASE_URL")` */
    const databaseUrl: Option<string>

    /** The flag is set exactly while a connection is cached, and a cached
        connection was opened with the rewritten URL. */
    ghost predicate Valid()
      reads this
    {
      && (useDatabase <==> connection.Some?)
      && (connection.Some? ==>
            UrlSet() && connection.value == Connection(RewriteDatabaseUrl(databaseUrl.value)))
    }

    /** `if not database_url` fails for an absent and for an empty URL. */
    predicate UrlSet()
    {
      databaseUrl.Some? && databaseUrl.value != ""
    }

    constructor (databaseUrl: Option<string>, dbRows: seq<Entry>, jsonFile: Option<seq<Entry>>)
      ensures Valid()
      ensures !useDatabase && connection.None?
      ensures this.databaseUrl == databaseUrl && this.dbRows == dbRows && this.jsonFile == jsonFile
    {
      this.databaseUrl := databaseUrl;
      useDatabase := false;
      connection := None;
      this.dbRows := dbRows;
      this.jsonFile := jsonFile;
    }

    /** Whether a call to `get_db_connection` now yields a connection, when
        connecting would succeed exactly if `connectOk`. */
    predicate Connects(connectOk: bool)
      reads this
    {
      connection.Some? || (UrlSet() && connectOk)
    }

    /** `get_db_connection`: the cached connection when there is one, and
        then nothing changes. Otherwise no URL means no database; with a URL,
        a successful connect to its rewritten form is cached and switches
        the database on, and a failed one switches it off. */
    method GetDbConnection(connectOk: bool) returns (c: Option<Connection>)
      requires Valid()
      modifies this
      ensures Valid()
      ensures old(connection).Some? ==> c == old(connection) && unchanged(this)
      ensures c.Some? <==> old(Connects(connectOk))
      ensures c.Some? ==> !(LegacyScheme <= c.value.url)
      ensures c.Some? ==> c == connection
      ensures useDatabase <==> c.Some?
      ensures dbRows == old(dbRows) && jsonFile == old(jsonFile)
    {
      if connection.Some? {
        return connection;
      }
      if !UrlSet() {
        useDatabase := false;
        return None;
      }
      var url := RewriteDatabaseUrl(databaseUrl.value);
      if connectOk {
        connection := Some(Connection(url));
        useDatabase := true;
        c := connection;
      } else {
        useDatabase := false;
        connection := None;
        c := None;
      }
    }

    /** `load_leaderboard_json` */
    function LoadJson(): seq<Entry>
      reads this
    {
      OrElse(jsonFile, [])
    }

    /** `load_leaderboard`: the table's rows newest first when a connection
        is obtained and the query succeeds (`selected` is the answer to
        `ORDER BY timestamp DESC`), otherwise the JSON rows. */
    method LoadLeaderboard(connectOk: bool, selected: seq<Entry>, readFails: bool) returns (rows: seq<Entry>)
      requires Valid()
      requires multiset(selected) == multiset(dbRows) && NewestFirst(selected)
      modifies this
      ensures Valid()
      ensures dbRows == old(dbRows) && jsonFile == old(jsonFile)
      ensures useDatabase <==> old(Connects(connectOk))
      ensures old(Connects(connectOk)) && !readFails ==>
        multiset(rows) == multiset(dbRows) && NewestFirst(rows)
      ensures !old(Connects(connectOk)) || readFails ==> rows == LoadJson()
    {
      var c := GetDbConnection(connectOk);
      if c.Some? && !readFails {
        return selected;
      }
      rows := LoadJson();
    }

    /** `save_score_to_database`: insert the entry when a connection is
        obtained and the insert succeeds. */
    method SaveToDatabase(entry: Entry, connectOk: bool, insertFails: bool) returns (success: bool)
      requires Valid()
      modifies this
      ensures Valid()
      ensures success == (old(Connects(connectOk)) && !insertFails)
      ensures useDatabase <==> old(Connects(connectOk))
      ensures dbRows == old(dbRows) + (if success then [entry] else [])
      ensures jsonFile == old(jsonFile)
    {
      var c := GetDbConnection(connectOk);
      if c.None? {
        return false;
      }
      if insertFails {
        return false;
      }
      dbRows := dbRows + [entry];
      success := true;
    }

    /** `save_leaderboard_json`: rewrite the whole file; a write error is
        logged and swallowed. */
    method SaveJson(data: seq<Entry>, writeFails: bool)
      modifies this
      ensures jsonFile == (if writeFails then old(jsonFile) else Some(data))
      ensures useDatabase == old(useDatabase) && connection == old(connection) && dbRows == old(dbRows)
    {
      if !writeFails {
        jsonFile := Some(data);
      }
    }

    /** `save_score`. A body that makes building the entry raise stores
        nothing. Otherwise the entry goes to the database when a connection
        is obtained and the insert succeeds; when the save reports failure
        the JSON list is read, the entry appended at its end and the list
        written back, and when it succeeds the JSON file is untouched. The
        storage type reported is read after the save. */
    method SaveScore(sub: Submission, now: real, connectOk: bool, insertFails: bool, writeFails: bool)
      returns (r: Result<Entry, SubmitError>, storage: StorageType)
      requires Valid()
      modifies this
      ensures Valid()
      ensures r == BuildEntry(sub, now)
      ensures r.Err? ==> unchanged(this)
      ensures r.Ok? ==>
        var inDb := old(Connects(connectOk)) && !insertFails;
        && dbRows == old(dbRows) + (if inDb then [r.value] else [])
        && jsonFile == (if inDb || writeFails then old(jsonFile) else Some(old(LoadJson()) + [r.value]))
        && (storage == Database <==> old(Connects(connectOk)))
    {
      r := BuildEntry(sub, now);
      if r.Err? {
        storage := if useDatabase then Database else Json;
        return;
      }
      var entry := r.value;
      ghost var file0 := jsonFile;
      var success := SaveToDatabase(entry, connectOk, insertFails);
      assert jsonFile == file0;
      if !success {
        var all := LoadJson();
        all := all + [entry];
        SaveJson(all, writeFails);
      }
      storage := if useDatabase then Database else Json;
    }
  }

  /** Once a connection is cached, a failing connection attempt can no
      longer switch the database off. */
  method CachedConnectionKept(store: ScoreStore, entry: Entry)
    requires store.Valid() && store.UrlSet()
    modifies store
  {
    var c1 := store.GetDbConnection(true);
    assert c1.Some?;
    var ok := store.SaveToDatabase(entry, false, false);
    assert ok && store.useDatabase;
  }
}
