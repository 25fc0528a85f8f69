# Reaction game: a Dafny model of its round and leaderboard logic

The reaction game is a small web application for measuring reaction times.
A Flask server keeps one round record (`game_state`) and a leaderboard stored
in PostgreSQL or, failing that, in a JSON file. The hardware build feeds GPIO
button presses into the same round record. Several generations of browser
game pages keep their own state. The page engine (`game-core.js`) has
debouncing, a processing lock, time-attack scoring with combos, and a session
history saved in localStorage. There is an older three-button page
(`script.js`) and an early single-button click page (snapshot 4). The
browser also has live metrics and two "mini AI coaches".

This project models that bookkeeping and proves its properties:

- `common.dfy` (module `Common`): best times with "none" read as +infinity,
  attempt records, JavaScript's `slice(-n)` and `Math.round`/`toFixed`, and
  the localStorage key as a small class.
- `score_entries.dfy` (`ScoreEntries`): leaderboard entries and request
  bodies, Python's `strip()` and `[:n]`, and the `postgres://` URL rewrite.
- `ranking.dfy` (`Ranking`): the leaderboard query. It filters by mode, sorts
  stably (insertion sort stands in for Python's `list.sort`), then applies
  Python's `[:limit]`.
- `hardware_controller.py` is modelled in `hardware_controller.dfy`
  (`HardwareController`): the round record as a class, and the score store
  with database-to-JSON fallback as a class.
- `app.py` is modelled in `app.dfy` (`App`): the same round record, and a
  store whose connection is opened lazily and cached.
- `static/js/game-core.js` is modelled in `game_core.dfy` (`GameCore`): the
  page state as a class whose handlers and timer callbacks are methods.
- `static/script.js` is modelled in `script.dfy` (`Script`).
- `snapshots/snapshot4/.../static/script.js` is modelled in
  `click_reaction.dfy` (`ClickReaction`).
- `static/js/metrics.js` is modelled in `metrics.dfy` (`Metrics`).
- `static/js/coach.js` is modelled in `coach.dfy` (`Coach`), and
  `static/coach.js` in `simple_coach.dfy` (`SimpleCoach`).

Inputs from the outside world are parameters:

- The clock is an integer number of milliseconds, `now`.
- Each random draw is a parameter, restricted to the range the code maps it
  into.
- Each timer callback is a separate method that the event loop calls later.
- The database and the JSON file are sequences of entries. The outcome of
  each connection attempt, insert, select and file write is a boolean
  parameter.

Where the specification and the code disagree, the model follows the code:

- `save_score` returns no rank or total.
- There is no "clear" operation.
- Ties in the leaderboard keep the order in which rows were loaded rather
  than an earlier-`createdAt` order. The database loads rows newest first and
  the JSON file loads them oldest first, so equal scores rank differently
  depending on storage.
- The JSON file has no 100-entry cap.
- An empty name after stripping is accepted.
- There is no tension timer and no round-generation counter. `start_round`
  only clears `tension_building`.
- A handled press leaves `current_button` and `start_time` set.
- The target button is drawn from {1, 2}, or {1, 2, 3} in `static/script.js`.

## Model

| member | source | states |
|---|---|---|
| Common.Improve | hardware_controller.py:235-236 | the new best time is the old one or the new reaction, never larger than either, so a best time only decreases |
| Common.MinOf | static/js/metrics.js:72-76 | `Math.min` of the times: "none" exactly for no times, otherwise one of them and no larger than any of them |
| Common.MinimumIsMinOf | static/js/game-core.js:187-188 | the non-recursive "is the minimum of" predicate used in class invariants holds exactly for `MinOf` |
| Common.ImproveIsMinimum | static/js/game-core.js:187-188 | improving the minimum of the times seen with a new time gives the minimum of the extended list |
| Common.MinOfAppend | hardware_controller.py:235-236 | the minimum after one more time is the old minimum improved by it |
| Common.MinOfSubset | static/js/coach.js:77-79 | the minimum over more times is never larger than the minimum over a subset |
| Common.ValidTimes | static/js/metrics.js:72 | the reaction times of records with a time: every timed record's time is included, and there are no more times than records |
| Common.ValidTimesFromRecords | static/js/metrics.js:72 | every valid time is the reaction time of some record |
| Common.ValidTimesAppend | static/js/metrics.js:72 | one more record adds its time at the end of the times, or nothing for "-" |
| Common.ValidTimesOfSuffix | static/js/coach.js:6-9 | the times of a later part of the history are times of the whole history |
| Common.CountsPartition | static/js/metrics.js:6-7 | the "Correct" and "Wrong" counts add up to the history's length |
| Common.SumBounds | static/js/game-core.js:271-272 | a sum of n values in [lo, hi] lies in [n*lo, n*hi] |
| Common.Last | static/js/metrics.js:84 | `slice(-n)`: at most n elements, all of them when the input is shorter |
| Common.LastIsSuffix | static/js/metrics.js:84 | what is kept is the input's suffix of length min(n, length) |
| Common.LastAppend | static/js/metrics.js:84 | trimming, appending one record and trimming again equals appending to the untrimmed list and trimming |
| Common.LastIdempotent | static/js/game-core.js:78 | trimming an already trimmed session to the same length keeps it as it is |
| Common.TimesSeenLast | static/js/game-core.js:78 | trimming the session to its last records keeps every time in it among the times seen |
| Common.TimesSeenAppend | static/js/game-core.js:180 | appending a record whose time joins the times seen keeps the session's times covered |
| Common.RoundHalfUp | static/js/game-core.js:272 | `Math.round(a / b)`: the integer r with 2a - b < 2br <= 2a + b |
| Common.RoundHalfUpBetween | static/js/game-core.js:273-274 | rounding a quotient keeps any integer bounds the quotient satisfies |
| Common.MeanHundredths | static/script.js:173-175 | `toFixed(2)` of the mean: none without times, otherwise the mean to the nearest hundredth |
| Common.BrowserStorage.Read | static/js/metrics.js:89 | an absent key reads as the empty list, a present one as the stored list |
| Common.BrowserStorage.Write | static/js/metrics.js:85 | the key holds exactly the written list |
| ScoreEntries.StripLeft | hardware_controller.py:331 | `lstrip()`: a suffix of the input that does not start with whitespace |
| ScoreEntries.StripLeftDropsSpace | hardware_controller.py:331 | everything `lstrip()` removes is whitespace |
| ScoreEntries.StripRight | hardware_controller.py:331 | `rstrip()`: a prefix of the input that does not end with whitespace |
| ScoreEntries.StripRightDropsSpace | hardware_controller.py:331 | everything `rstrip()` removes is whitespace |
| ScoreEntries.Strip | hardware_controller.py:331 | `strip()`: a slice of the input with all-blank outside and no whitespace at either end |
| ScoreEntries.TrimmedSlice | hardware_controller.py:331 | blanks cut from the front and then from the back of the rest leave a slice with only blanks outside it |
| ScoreEntries.StripKeepsClean | hardware_controller.py:331 | a string without outer whitespace is unchanged by stripping |
| ScoreEntries.StripLeftSkips | hardware_controller.py:331 | leading blanks do not change the left strip |
| ScoreEntries.StripRightSkips | hardware_controller.py:331 | trailing blanks do not change the right strip |
| ScoreEntries.StripPadded | hardware_controller.py:331 | blanks around a clean name are exactly what is removed, all-blank names strip to "" |
| ScoreEntries.Truncate | hardware_controller.py:331 | `[:n]`: a prefix of at most n characters, the whole string when short enough, exactly n characters otherwise |
| ScoreEntries.RewriteDatabaseUrl | hardware_controller.py:74-75 | a `postgres://` URL becomes `postgresql://` with the rest unchanged, other URLs are unchanged, and the result never has the legacy scheme |
| ScoreEntries.RewriteIdempotent | app.py:81-82 | rewriting an already rewritten URL changes nothing |
| Ranking.OrderedAllPairs | hardware_controller.py:312-315 | neighbour-wise order of the sort key implies order of every pair |
| Ranking.WithKey | hardware_controller.py:312-315 | the rows with a given key, in order; never longer than the input |
| Ranking.Insert | hardware_controller.py:312-315 | insertion is a permutation adding one row, and the result starts with the new row or the old first row |
| Ranking.InsertOrdered | hardware_controller.py:312-315 | inserting into a sorted list keeps it sorted |
| Ranking.StableSort | hardware_controller.py:312-315 | the sort returns a permutation of its input in key order |
| Ranking.InsertStable | hardware_controller.py:312-315 | inserting a row in front of its equals keeps each key's rows in input order |
| Ranking.SortStable | hardware_controller.py:312-315 | the sort is stable: rows with equal keys keep their input order |
| Ranking.OfMode | hardware_controller.py:310 | a row is kept exactly when it is stored and has the requested `gameMode` |
| Ranking.PySlice | hardware_controller.py:319 | Python's `[:limit]`, including the negative-limit case: a prefix of the stated length |
| Ranking.WithKeyPrefix | hardware_controller.py:319 | a prefix keeps each key's rows as a prefix of them |
| Ranking.SortedPrefix | hardware_controller.py:312-319 | a prefix of the sorted rows holds rows of the input in key order, and for every key no more rows than the input has, in input order |
| Ranking.PrefixIsBest | hardware_controller.py:312-319 | every input row left out of a prefix of the sorted rows ranks no better than each row in the prefix |
| Ranking.QueryRanks | hardware_controller.py:310-320 | only rows of the mode; score non-increasing for time_attack, average non-decreasing with missing last otherwise; at most `limit` rows, all when `limit` is large enough; ties in stored order; every row of the mode left out ranks no better than every row returned; `total` is the number of rows of the mode |
| Ranking.TopScoreFirst | hardware_controller.py:312-319 | the first time_attack row returned has a score at least that of every stored time_attack row |
| HardwareController.RoundState.constructor | hardware_controller.py:49-58 | the initial `game_state`: round 0, not waiting, no target or best time, mode time_attack |
| HardwareController.RoundState.StartRound | hardware_controller.py:284-296 | requested target, or the random one in {1, 2}; waiting, tension cleared, start time now; round, best time and message untouched |
| HardwareController.RoundState.HandleButtonPress | hardware_controller.py:227-250 | refused and unchanged when not waiting; otherwise stops waiting; a correct press adds one round and takes the minimum best time (with the performance-meter call), a wrong one changes neither (with the snap-back call); round equals the number of correct presses and best time is their minimum |
| HardwareController.RoundState.CountCorrectPress | hardware_controller.py:234-241 | the correct message, the best time improved by the reaction time, and one more round |
| HardwareController.RoundState.HardwareButtonPressed | hardware_controller.py:223-225 | a GPIO press reaches the handler exactly while waiting without tension, and then has the handler's whole outcome (round, best time, times, message, device call); otherwise nothing changes |
| HardwareController.RepeatedPressRefused | hardware_controller.py:228-229 | a second press right after an accepted one is refused |
| HardwareController.NormaliseSubmission | hardware_controller.py:327-342 | rejected exactly when a required field is missing; otherwise the name is the stripped name cut to 50, "-" average stored as 0, defaults "unknown" and 0 |
| HardwareController.PaddedNameIsStripped | hardware_controller.py:331 | a name padded with blanks is stored without them |
| HardwareController.ScoreStore.constructor | hardware_controller.py:62-63 | no database and no connection before `init_database` |
| HardwareController.ScoreStore.InitDatabase | hardware_controller.py:66-139 | the database is used exactly when a non-empty URL is set and connecting succeeds, over the rewritten URL |
| HardwareController.ScoreStore.LoadLeaderboard | hardware_controller.py:148-177 | the table's rows newest first when the database serves and the read succeeds, otherwise the JSON rows |
| HardwareController.ScoreStore.GetLeaderboard | hardware_controller.py:306-322 | the query over the loaded rows: rows of the mode only, at most `limit`, `total` counts the mode's loaded rows; the result is exactly the ranked query, whose order Ranking.QueryRanks states |
| HardwareController.ScoreStore.SaveScore | hardware_controller.py:325-355 | refused bodies store nothing; otherwise the entry is inserted when the database serves and the insert succeeds, else appended at the end of the JSON list (a failed write keeps the file) |
| HardwareController.ScoreStore.SaveToDatabase | hardware_controller.py:179-204 | succeeds exactly when the database serves and the insert succeeds, and then adds exactly the entry |
| HardwareController.ScoreStore.SaveJson | hardware_controller.py:215-220 | the file holds the data unless the write fails |
| HardwareController.FallbackAppends | hardware_controller.py:344-349 | with the database failing, the JSON list grows by exactly the new entry at its end |
| App.RoundState.constructor | app.py:49-58 | the initial `game_state` |
| App.RoundState.StartRound | app.py:241-247 | a target in {1, 2}, waiting, start time now; the tension flag and everything else untouched |
| App.RoundState.HandleButtonPress | app.py:215-231 | refused and unchanged when not waiting; otherwise stops waiting; a correct press adds one round and takes the minimum best time, a wrong one changes neither |
| App.RoundState.CountCorrectPress | app.py:222-226 | the correct message, the best time improved by the reaction time, and one more round |
| App.RepeatedPressRefused | app.py:216-217 | once a press is handled, the next is refused |
| App.BuildEntry | app.py:264-277 | fails exactly when a key is missing or `avgTime` is "-"; the name is the raw name cut to 50, not stripped; defaults "unknown" and 0 |
| App.PaddingKept | app.py:268 | a name starting with a blank is stored starting with that blank |
| App.ScoreStore.constructor | app.py:65-67 | no database and no connection before first use |
| App.ScoreStore.GetDbConnection | app.py:69-102 | a cached connection is returned with nothing changed; otherwise a connection exactly when a URL is set and connecting succeeds, never with the legacy scheme; the flag records whether one was obtained |
| App.ScoreStore.LoadLeaderboard | app.py:108-158 | the table's rows newest first when a connection is obtained and the read succeeds, otherwise the JSON rows |
| App.ScoreStore.SaveToDatabase | app.py:161-191 | succeeds exactly when a connection is obtained and the insert succeeds, and then adds exactly the entry |
| App.ScoreStore.SaveJson | app.py:204-209 | the file holds the data unless the write fails |
| App.ScoreStore.SaveScore | app.py:263-287 | a failing body stores nothing; a failed database save appends the entry to the JSON list, a successful one leaves the file untouched; the reported storage is read after the save |
| App.CachedConnectionKept | app.py:72-73 | once a connection is cached, a failing connection attempt cannot switch the database off |
| Metrics.CalculateHighScore | static/js/metrics.js:71-77 | Infinity exactly when no record has a time; otherwise a recorded time no larger than any |
| Metrics.HighScoreIsMinimum | static/js/metrics.js:71-77 | the high score of a history is the minimum of its valid times, and those times cover every timed record |
| Metrics.AverageTime | static/js/metrics.js:19-35 | "-" exactly without times; otherwise the rounded mean |
| Metrics.AverageClassExact | static/js/metrics.js:23-34 | "fast" exactly when the mean is below 299.5, "slow" exactly when it is at least 500.5 |
| Metrics.CountsCoverSession | static/js/metrics.js:4-7 | the correct and wrong counts add up to the history length, each at most it |
| Metrics.LoadStoredAttempts | static/js/metrics.js:88-91 | at most 20 entries, [] when absent, the stored list's last entries in order, all of it when short |
| Metrics.InitializeFromStorage | static/js/metrics.js:93-101 | exactly what `loadStoredAttempts` returns |
| Metrics.SaveRecentAttempts | static/js/metrics.js:83-86 | the key holds exactly the last 20 records |
| Metrics.LoadAfterSave | static/js/metrics.js:83-91 | loading after a save gives back the saved records |
| Metrics.SavedWindowSlides | static/js/metrics.js:83-86 | saving after one more attempt keeps the same window as saving the whole history |
| GameCore.BasePoints | static/js/game-core.js:169 | at least 10 and at least 1000 minus the reaction time |
| GameCore.ComboPoints | static/js/game-core.js:172 | the combo never lowers the points: at least the base |
| GameCore.ComboPointsFloor | static/js/game-core.js:172 | the points are the floor of base times (9 + combo) / 10 |
| GameCore.TimeAttackDelay | static/js/game-core.js:110-113 | never below 200 ms and never above the drawn delay (or 200); otherwise the floor of the scaled delay |
| GameCore.TimeAttackSummary | static/js/game-core.js:269-288 | accuracy is the rounded percentage of timed records, in [0, 100], 0 for an empty session; average 0 without times, otherwise the mean of the times rounded half up; the coach line by the 1000/500/200 thresholds |
| GameCore.AverageWithinTimes | static/js/game-core.js:270-272 | the reported average lies within any bounds of the valid times |
| GameCore.ModeOfSelects | static/js/game-core.js:55 | "time_attack", "endurance" and "unlimited" each select exactly their mode; any other selector value is kept as it is |
| GameCore.NextRoundDelay | static/js/game-core.js:226-227 | 500 ms exactly for time attack, 1000 ms exactly for unlimited, 2000 ms for every other mode |
| GameCore.Game.constructor | static/js/game-core.js:371-386 | the initial state; the session is the stored attempts and the high score their best time |
| GameCore.Game.StartGame | static/js/game-core.js:48-87 | the mode the selector's value names and the chosen difficulty; round, target, lock and debounce reset; time attack resets clock, score, combos and session and starts the timer; endurance clears the session; other modes keep its last 20; the high score survives |
| GameCore.Game.InitializeMode | static/js/game-core.js:67-79 | time attack: the difficulty's time limit, score, combos and session reset and the timer running; endurance: an empty session; other modes: the last 20 records; the state invariant holds again |
| GameCore.Game.KeepRecentResults | static/js/game-core.js:78 | the session becomes its last 20 records |
| GameCore.Game.NextRound | static/js/game-core.js:89-118 | counts the round; endurance ends after round 5; time attack with no time left stops; the delay lies in the difficulty's range, or for time attack between 200 and the drawn delay |
| GameCore.Game.ShowTarget | static/js/game-core.js:120-133 | unless time attack has run out, lights the drawn button, releases the lock and starts the clock |
| GameCore.Game.HandleButtonPress | static/js/game-core.js:136-232 | debounced exactly within 100 ms, otherwise the debounce time is refreshed first; no target and a held lock change nothing but the debounce time; a processed press records exactly one attempt, scores it, saves the last 20, clears the target and keeps the lock until the next round |
| GameCore.Game.ProcessPress | static/js/game-core.js:159-227 | the processed-press state: one record, target cleared, last 20 saved, the next-round delay by mode; a correct time-attack press scores exactly the combo points of its base points |
| GameCore.Game.ProcessCorrectPress | static/js/game-core.js:166-193 | the processed-press state after a correct press, with exact time-attack points; the high score never rises |
| GameCore.Game.ProcessWrongPress | static/js/game-core.js:194-208 | the processed-press state after a wrong press; the high score is unchanged |
| GameCore.Game.FinishPress | static/js/game-core.js:214-223 | the last 20 records are saved and the target is cleared; nothing else changes |
| GameCore.Game.RecordCorrect | static/js/game-core.js:166-193 | a correct press records its time and takes the minimum high score; in time attack it grows the combo, keeps the best combo, and adds exactly the combo points of the base points (at least 10 and at least the base) |
| GameCore.Game.ScoreCorrect | static/js/game-core.js:168-174 | the combo grows by one, the best combo is raised to it, and at least 10 and at least the base points are added to the score |
| GameCore.Game.RecordWrong | static/js/game-core.js:194-208 | a wrong press records "-" with no points, resets a time-attack combo, leaves score, best combo and high score |
| GameCore.Game.ResumeAfterPress | static/js/game-core.js:228-231 | releases the lock and starts the next round |
| GameCore.Game.TimerTick | static/js/game-core.js:234-249 | one second less; at zero the timer stops and the game ends with its summary |
| GameCore.Game.EndTimeAttackGame | static/js/game-core.js:251-274 | stops the timer, clears target and lock, and reports the summary of the session |
| GameCore.DoublePressDropped | static/js/game-core.js:140-144 | a second press 50 ms after a processed one is debounced |
| Script.Game.constructor | static/script.js:61-70 | the session is the last 20 stored attempts and the high score their best time, if any |
| Script.Game.UpdateHighScore | static/script.js:155-158 | the high score becomes the minimum valid time, unchanged when there is none |
| Script.Game.SaveRecentAttempts | static/script.js:161-164 | stores the last 20 records, in order |
| Script.Game.StartGame | static/script.js:73-84 | takes mode and difficulty, trims the session to 20, and runs the first round (round 1) |
| Script.Game.KeepRecentResults | static/script.js:78 | the session becomes its last 20 records |
| Script.Game.NextRound | static/script.js:87-99 | counts the round; classic and endurance end after round 5 with the two-decimal average; otherwise the delay lies in the difficulty's range |
| Script.Game.ShowTarget | static/script.js:101-106 | lights a button in 1..3 and starts the clock |
| Script.Game.HandleButtonPress | static/script.js:110-136 | ignored without a target; otherwise appends one record (time or "-"), lowers the high score only for a strictly smaller time, saves the last 20, clears the target, next round after 1000 or 1500 ms |
| Script.Game.RecordPress | static/script.js:115-125 | the two branches of the press: the record appended and the high score update |
| ClickReaction.SpeedColour | snapshots/snapshot4/Stage_4_CSS_Styling/static/script.js:76-82 | green exactly below 250 ms, yellow exactly in [250, 400), red otherwise |
| ClickReaction.SpeedColourMonotone | snapshots/snapshot4/Stage_4_CSS_Styling/static/script.js:76-82 | a slower reaction never gets a better colour |
| ClickReaction.ClickGame.constructor | snapshots/snapshot4/Stage_4_CSS_Styling/static/script.js:8-12 | not waiting, not started, round 0, no best time |
| ClickReaction.ClickGame.StartClick | snapshots/snapshot4/Stage_4_CSS_Styling/static/script.js:14-25 | ignored while waiting; otherwise waiting, not started, one more round, its "GO!" scheduled |
| ClickReaction.ClickGame.Go | snapshots/snapshot4/Stage_4_CSS_Styling/static/script.js:34-38 | as written: any pending "GO!" starts the clock and arms the click, whatever round is being played |
| ClickReaction.ClickGame.GoForRound | snapshots/snapshot4/Stage_4_CSS_Styling/static/script.js:34-38 | corrected: only the current waiting round's "GO!" takes effect, so "GO!" is only ever shown for that round |
| ClickReaction.ClickGame.BodyClick | snapshots/snapshot4/Stage_4_CSS_Styling/static/script.js:51-99 | ignored when not waiting or on the start button; before "GO!" too early (round abandoned, best kept); after it the time is measured, the best becomes the minimum, a history row goes on top and the round ends |
| ClickReaction.StaleGoAcceptsEarlyClick | snapshots/snapshot4/Stage_4_CSS_Styling/static/script.js:25-61 | the counterexample: a click in round 2 is measured from round 1's leftover "GO!" |
| ClickReaction.StaleGoIgnoredWhenChecked | snapshots/snapshot4/Stage_4_CSS_Styling/static/script.js:34-38 | with the round check the same clicks give "too early" |
| Coach.SquaredDeviations | static/js/coach.js:103-104 | the sum of squared differences is never negative |
| Coach.CalculateVariance | static/js/coach.js:99-105 | 0 for an empty list and never negative |
| Coach.VarianceOfEqualTimes | static/js/coach.js:99-105 | equal times have that time as mean and variance 0 |
| Coach.Analyse | static/js/coach.js:25-83 | the speed advice is never the first-correct or the accuracy message |
| Coach.MiniCoach | static/js/coach.js:2-22 | no advice exactly for an empty list; "first correct" exactly when the last 10 hold no time, whatever the mistakes; accuracy exactly with a time and 4 or more mistakes in them |
| Coach.PersonalRecordWins | static/js/coach.js:76-82 | the record message exactly when the advice is about speed and the last time is the session's smallest and below 300; that time is then no larger than any |
| Coach.InconsistentOverridesBase | static/js/coach.js:66-74 | the consistency message exactly when there is no record, at least 5 times, variance of the last 5 above 15000 and average below 400 |
| Coach.TrendBeforeBand | static/js/coach.js:29-63 | without overrides, a gain above 50 gives "massive", above 20 "getting faster", a loss above 30 "breath", otherwise the band; with fewer than two correct times, the band |
| Coach.BandOnlyWithoutTrend | static/js/coach.js:46-64 | a band message is the band of the average and only appears without a trend |
| Coach.BandCutoffs | static/js/coach.js:48-63 | the bands on sum and count: below 250, 350, 450, 600 times the count, and the rest |
| Coach.OnlyWindowCounts | static/js/coach.js:6-9 | with 10 or more later records, earlier records change the advice only through the record message, and can only remove it |
| Coach.AnalyseDependsOnRecordOnly | static/js/coach.js:77-82 | the whole session enters the speed advice only through the record check |
| Coach.RecordSurvivesTrimming | static/js/coach.js:6-9 | a record over the whole session is a record over its later part |
| Coach.WindowOfLonger | static/js/coach.js:6 | records before the last 10 are outside the window |
| Coach.MultiplayerStanding | static/js/coach.js:108-120 | player 1 leads exactly with results and an opponent without any or with a larger average; two empty lists or equal averages tie |
| Coach.MultiplayerSymmetric | static/js/coach.js:114-120 | swapping the players swaps the leader and keeps a tie |
| SimpleCoach.MiniCoach | static/coach.js:2-20 | nothing for an empty list; the status is written exactly when the message is non-empty, with that message |
| SimpleCoach.MessageShape | static/coach.js:6-16 | at most two sentences, the mistakes sentence exactly with more than 3 wrong records and always first, "fast" and "react faster" never together |
| SimpleCoach.SpeedSentences | static/coach.js:7-16 | "fast" exactly when the mean is below 399.995, "react faster" exactly when it is at least 600.005 |
| SimpleCoach.NoTimesNoSpeed | static/coach.js:7-16 | without valid times the status only ever carries the mistakes sentence |

## Left out

- Flask routing, `jsonify`, `render_template`, the status and diagnostics routes, and the request-argument parsing of `get_leaderboard`.
- The SQL schema statements, the cursor API, and the ISO `date` field and its conversions. The `timestamp` is a parameter.
- The GPIO driver, the motor and the import-time hardware detection. `hardwareEnabled` is a constant of the round record.
- Python's `int()` and `float()` coercions of request fields, and the errors they raise on malformed values. Numbers arrive already typed.
- Seconds are read as floats and converted with `int((t1 - t0) * 1000)`. The model takes integer milliseconds and subtracts them.
- JSON parse errors. An unreadable JSON file loads as an empty list, like a missing one.
- The concurrency of Flask workers and GPIO callbacks, because no lock exists in the source.
- DOM updates, chart updates, confetti, chat logging, and the emoji and text of every message. Messages are datatype constructors.
- The coach calls made from the press handlers, because the coaches are modelled as functions of the history.
- `hardware.js`, `leaderboard.js`, `ui-updates.js`, `chat.js` and `charts.js`, because they are display or network glue.
- The engine's `endGame` (static/js/game-core.js:298-336) and its touch setup, because they are display formatting.
- GameCore.Game.HandleButtonPress: the reaction time uses the same `now` as the debounce check, where the source reads `Date.now()` a second time.
- GameCore.ComboPoints: the combo multiplier and the time-attack speed multiplier are exact rationals here. The source multiplies doubles, so a floor can differ by one at exact multiples.
- Coach.CalculateVariance: averages and the variance are exact reals, not doubles.
- Script.Game.HandleButtonPress: its records have no points field in the source and are stored with 0 points.
- Script.Game.NextRound: the end-of-game text is reduced to the two-decimal average.
- GameCore.Game.StartGame: the 1000 ms timer that runs the first round (static/js/game-core.js:86) is not a call. The next call to NextRound stands for it.
- ClickReaction.ClickGame.StartClick: the three-second countdown and the random 500-2000 ms delay before "GO!" are one pending timer per round. The source's delay is a fractional number of milliseconds.
- HardwareController.ScoreStore.SaveScore: the storage type is reported from the flag as it was before the save. The source reads `USE_DATABASE` after the save (hardware_controller.py:355). The two agree because the flag is assigned only at start-up (hardware_controller.py:129-146), and SaveScore ensures `useDatabase == old(useDatabase)`.
- Common.MeanHundredths: the mean is rounded to the hundredth exactly, with halves rounded up. The source rounds the double `sum / n` with `toFixed(2)`, so the two can differ by one hundredth at exact halves. For example, 200 times summing to 120001 give 600.00 in the source and 600.01 here.
- SimpleCoach.SpeedSentences: its thresholds 399.995 and 600.005 come from the exact rounding of Common.MeanHundredths. At an exact half the source's double can fall on the other side, so a mean of exactly 600.005 is "react faster" here but not in the source.
- GameCore.TimeAttackSummary: accuracy and the average are rounded exactly, with halves rounded up. The source applies `Math.round` to a double, so the two can differ by one at exact halves. For example, 23 timed records out of 40 give `Math.round(57.49999999999999)` = 57 in the source and 58 here; 46 of 80 and 69 of 120 behave the same way.

## Findings

| source | as written | input that shows it | evidently intended | confidence | as-written member | corrected member |
|---|---|---|---|---|---|---|
| snapshots/snapshot4/Stage_4_CSS_Styling/static/script.js:25-61 | a too-early click ends the round but leaves its countdown and "GO!" timers running, and "GO!" does not check which round it belongs to | start at 0 ms, click at 1000 ms (too early), start again at 1500 ms; round 1's "GO!" fires at 3500 ms during round 2's countdown, and a click at 3600 ms is recorded as a 100 ms reaction of round 2 and becomes the best time | "GO!" only takes effect for the round that scheduled it while that round is still waiting | high (not executed) | ClickReaction.StaleGoAcceptsEarlyClick | ClickReaction.ClickGame.GoForRound |
