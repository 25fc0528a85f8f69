/** The browser game engine: the module-level state of the game page and
    the handlers that change it (start a game, schedule and show a target,
    take a button press, count down a time-attack game and end it).
    `Date.now()` readings are the parameter `now`, each `Math.random()` draw
    is a parameter restricted to the range the code maps it to, and each
    `setTimeout`/`setInterval` callback is a separate method the event loop
    calls later. */
module GameCore {
  import opened Common
  import Metrics

  /** `gameMode` as the engine tells modes apart: the three values it
      compares against, and any other value of the mode selector. */
  datatype Mode = TimeAttack | Endurance | Unlimited | Other(value: string)

  /** The mode the selector's `value` selects. */
  function ModeOf(value: string): Mode
  {
    if value == TimeAttackValue then TimeAttack
    else if value == EnduranceValue then Endurance
    else if value == UnlimitedValue then Unlimited
    else Other(value)
  }

  /** The selector values of the three named modes. */
  const TimeAttackValue: string := "time_attack"
  const EnduranceValue: string := "endurance"
  const UnlimitedValue: string := "unlimited"

  /** Each of the three names selects its mode, and any other value is kept
      as it is. */
  lemma ModeOfSelects(value: string)
    ensures ModeOf(value) == TimeAttack <==> value == TimeAttackValue
    ensures ModeOf(value) == Endurance <==> value == EnduranceValue
    ensures ModeOf(value) == Unlimited <==> value == UnlimitedValue
    ensures ModeOf(value).Other? ==> ModeOf(value).value == value
  {
  }

  /** Presses closer together than this are dropped. */
  const DebounceMs: int := 100
  /** `maxRounds`, never reassigned. */
  const MaxRounds: int := 5
  /** A time-attack target never appears sooner than this after a round starts. */
  const MinTimeAttackDelay: int := 200

  datatype Difficulty = Easy | Medium | Hard

  /** `difficultySettings[d].minDelay` */
  function MinDelay(d: Difficulty): int
  {
    match d
    case Easy => 2000
    case Medium => 1000
    case Hard => 500
  }

  /** `difficultySettings[d].maxDelay` */
  function MaxDelay(d: Difficulty): int
  {
    match d
    case Easy => 4000
    case Medium => 3000
    case Hard => 2000
  }

  /** `difficultySettings[d].timeLimit`, in seconds. */
  function TimeLimit(d: Difficulty): int
  {
    match d
    case Easy => 60
    case Medium => 45
    case Hard => 30
  }

  /** The base points of a correct time-attack press:
      `Math.max(10, Math.floor(1000 - reactionTime))`. */
  function BasePoints(rt: int): (p: int)
    ensures p >= 10 && p >= 1000 - rt
    ensures p == 10 || p == 1000 - rt
  {
    if 1000 - rt > 10 then 1000 - rt else 10
  }

  /** `Math.floor(points * (1 + (combo - 1) * 0.1))` in exact arithmetic:
      the multiplier is (9 + combo) / 10, which is at least 1 for a combo of
      at least 1, so the combo never lowers the points. */
  function ComboPoints(base: int, combo: int): (p: int)
    requires base >= 0 && combo >= 1
    ensures p >= base
  {
    MulMonotone(base, 10, 9 + combo);
    base * (9 + combo) / 10
  }

  /** The combo points are the floor of the exact product. */
  lemma ComboPointsFloor(base: int, combo: int)
    requires base >= 0 && combo >= 1
    ensures 10 * ComboPoints(base, combo) <= base * (9 + combo) < 10 * ComboPoints(base, combo) + 10
  {
  }

  /** The time-attack delay: the drawn delay scaled by
      `1 - 0.4 * (timeLimit - timeLeft) / timeLimit`, which is
      (6 * limit + 4 * left) / (10 * limit), floored, and never below 200. */
  function TimeAttackDelay(delay: int, limit: int, left: int): (r: int)
    requires delay >= 0 && limit > 0 && 0 < left <= limit
    ensures r >= MinTimeAttackDelay
    ensures r <= if delay > MinTimeAttackDelay then delay else MinTimeAttackDelay
    ensures r == MinTimeAttackDelay || 10 * limit * r <= delay * (6 * limit + 4 * left) < 10 * limit * (r + 1)
  {
    MulMonotone(delay, 6 * limit + 4 * left, 10 * limit);
    var scaled := delay * (6 * limit + 4 * left) / (10 * limit);
    assert scaled * (10 * limit) <= delay * (10 * limit);
    assert scaled <= delay by {
      if scaled > delay {
        MulMonotone(10 * limit, delay + 1, scaled);
      }
    }
    if MinTimeAttackDelay > scaled then MinTimeAttackDelay else scaled
  }

  /** When `nextRound` returns: the endurance game is over, a finished
      time-attack game schedules nothing, or the target is shown after
      `delay` milliseconds. */
  datatype RoundOutcome = Ended | Stopped | Scheduled(delay: int)

  /** What `handleButtonPress` did with a press. */
  datatype PressOutcome =
    | Debounced                                   // within 100 ms of the last press
    | NoTarget                                    // no button is glowing
    | Busy                                        // another press is being processed
    | Processed(record: Attempt, nextDelay: int)  // recorded; next round after `nextDelay` ms

  /** The coach line at the end of a time-attack game, by final score. */
  datatype Verdict = Master | Great | GoodWork | NiceTry

  /** The statistics `endTimeAttackGame` shows and offers to the leaderboard. */
  datatype Summary = Summary(finalScore: int, avgTime: int, accuracy: int, maxCombo: int,
                             reactions: int, verdict: Verdict)

  /** `endTimeAttackGame`'s statistics: the rounded mean of the valid
      times (0 without any), the rounded percentage of records with a time
      (0 for an empty session), and the coach line for the score. */
  function TimeAttackSummary(h: seq<Attempt>, score: int, maxCombo: int): (s: Summary)
    ensures 0 <= s.accuracy <= 100
    ensures h == [] ==> s.accuracy == 0
    ensures h != [] ==>
      200 * |ValidTimes(h)| - |h| < 2 * |h| * s.accuracy <= 200 * |ValidTimes(h)| + |h|
    ensures ValidTimes(h) == [] ==> s.avgTime == 0
    ensures ValidTimes(h) != [] ==>
      2 * Sum(ValidTimes(h)) - |ValidTimes(h)| < 2 * |ValidTimes(h)| * s.avgTime
        <= 2 * Sum(ValidTimes(h)) + |ValidTimes(h)|
    ensures s.finalScore == score && s.maxCombo == maxCombo && s.reactions == |h|
    ensures s.verdict == Master <==> score > 1000
    ensures s.verdict == Great <==> 500 < score <= 1000
    ensures s.verdict == GoodWork <==> 200 < score <= 500
    ensures s.verdict == NiceTry <==> score <= 200
  {
    var ts := ValidTimes(h);
    var avg := if |ts| > 0 then RoundHalfUp(Sum(ts), |ts|) else 0;
    var acc := if |h| > 0 then RoundHalfUp(100 * |ts|, |h|) else 0;
    assert 0 <= acc <= 100 by {
      if |h| > 0 {
        RoundHalfUpBetween(100 * |ts|, |h|, 0, 100);
      }
    }
    var verdict :=
      if score > 1000 then Master
      else if score > 500 then Great
      else if score > 200 then GoodWork
      else NiceTry;
    Summary(score, avg, acc, maxCombo, |h|, verdict)
  }

  /** The reported average lies between any bounds of the valid times: it
      is never below the session's best time nor above its worst. */
  lemma AverageWithinTimes(h: seq<Attempt>, score: int, maxCombo: int, lo: int, hi: int)
    requires ValidTimes(h) != []
    requires forall t :: t in ValidTimes(h) ==> lo <= t <= hi
    ensures lo <= TimeAttackSummary(h, score, maxCombo).avgTime <= hi
  {
    var ts := ValidTimes(h);
    assert forall i :: 0 <= i < |ts| ==> ts[i] in ts;
    SumBounds(ts, lo, hi);
    RoundHalfUpBetween(Sum(ts), |ts|, lo, hi);
  }

  /** How long after a processed press the next round starts. */
  function NextRoundDelay(mode: Mode): (d: int)
    ensures d == 500 <==> mode == TimeAttack
    ensures d == 1000 <==> mode == Unlimited
    ensures d == 2000 <==> mode != TimeAttack && mode != Unlimited
  {
    if mode == TimeAttack then 500 else if mode == Unlimited then 1000 else 2000
  }

  class Game {
    var gameMode: Mode
    var difficulty: Difficulty
    var targetButton: Option<int>
    /** `startTime`; `None` is the initial `null`. */
    var startTime: Option<int>
    var round: int
    /** `highScore`; `Unset` is `Infinity`. */
    var highScore: BestTime
    /** Whether the one-second `gameTimer` interval is set. */
    var timerRunning: bool
    var gameTimeLeft: int
    var score: int
    var combo: int
    var maxCombo: int
    var sessionResults: seq<Attempt>
    var isProcessingButton: bool
    var lastButtonPressTime: int
    /** localStorage["reactionGameAttempts"] */
    const storage: BrowserStorage
    /** Every correct reaction time since the page loaded, after the times of
        the attempts restored from storage. */
    ghost var seen: seq<int>

    /** The combo never exceeds the best combo, the score is not negative,
        the high score is the smallest time seen and no better than any time
        in the session, a target is button 1 or 2 and comes with a start
        time, and a time-attack game never has more time left than its
        limit. */
    ghost predicate Valid()
      reads this
    {
      && 0 <= combo <= maxCombo
      && 0 <= score
      && IsMinimum(highScore, seen)
      && TimesSeen(sessionResults, seen)
      && (targetButton.Some? ==> (targetButton.value == 1 || targetButton.value == 2) && startTime.Some?)
      && (gameMode == TimeAttack ==> gameTimeLeft <= TimeLimit(difficulty))
    }

    /** The processing lock is never held while a target is glowing, so the
        lock check in `handleButtonPress` never refuses a press. */
    predicate LockIdle()
      reads this
    {
      targetButton.Some? ==> !isProcessingButton
    }

    /** The module's initial values followed by `initializeGame`: the stored
        attempts become the session and the high score is their best time
        (`Infinity` when none of them has a time). */
    constructor (storage: BrowserStorage)
      ensures Valid() && LockIdle()
      ensures this.storage == storage
      ensures sessionResults == Metrics.InitializeFromStorage(storage)
      ensures highScore == Metrics.CalculateHighScore(sessionResults)
      ensures gameMode == TimeAttack && difficulty == Easy && targetButton.None? && startTime.None?
      ensures round == 0 && !timerRunning && gameTimeLeft == 60
      ensures score == 0 && combo == 0 && maxCombo == 0
      ensures !isProcessingButton && lastButtonPressTime == 0
    {
      this.storage := storage;
      gameMode := TimeAttack;
      difficulty := Easy;
      targetButton := None;
      startTime := None;
      round := 0;
      highScore := Unset;
      timerRunning := false;
      gameTimeLeft := 60;
      score := 0;
      combo := 0;
      maxCombo := 0;
      sessionResults := [];
      isProcessingButton := false;
      lastButtonPressTime := 0;
      seen := [];
      new;
      var stored := Metrics.InitializeFromStorage(storage);
      Metrics.HighScoreIsMinimum(stored);
      sessionResults := stored;
      highScore := Metrics.CalculateHighScore(stored);
      seen := ValidTimes(stored);
    }

    /** `startGame`: take the chosen mode and difficulty and reset the round,
        target, lock and debounce time. Time attack also resets its clock,
        score and combos, clears the session and starts the countdown;
        endurance clears the session; other modes keep its last 20 records.
        The high score survives. */
    method StartGame(modeValue: string, diff: Difficulty)
      requires Valid()
      modifies this
      ensures Valid() && LockIdle()
      ensures gameMode == ModeOf(modeValue) && difficulty == diff
      ensures round == 0 && targetButton.None? && !isProcessingButton && lastButtonPressTime == 0
      ensures timerRunning == (gameMode == TimeAttack)
      ensures gameMode == TimeAttack ==>
        && gameTimeLeft == TimeLimit(diff) && score == 0 && combo == 0 && maxCombo == 0
        && sessionResults == []
      ensures gameMode != TimeAttack ==>
        && gameTimeLeft == old(gameTimeLeft) && score == old(score)
        && combo == old(combo) && maxCombo == old(maxCombo)
      ensures gameMode == Endurance ==> sessionResults == []
      ensures gameMode != TimeAttack && gameMode != Endurance ==>
        sessionResults == Last(old(sessionResults), Metrics.StoredLimit)
      ensures highScore == old(highScore) && seen == old(seen) && startTime == old(startTime)
    {
      timerRunning := false;
      gameMode := ModeOf(modeValue);
      difficulty := diff;
      round := 0;
      targetButton := None;
      isProcessingButton := false;
      lastButtonPressTime := 0;
      InitializeMode();
    }

    /** The mode-dependent part of `startGame`. Time attack gets the
        difficulty's time limit, a fresh score, combo and session, and
        `startTimeAttackTimer`; endurance clears the session; any other mode
        keeps its last 20 records. Only the target, the timer and the clock
        of the old state may be out of step with the new mode. */
    method InitializeMode()
      requires 0 <= combo <= maxCombo && 0 <= score
      requires IsMinimum(highScore, seen) && TimesSeen(sessionResults, seen)
      requires targetButton.None? && !timerRunning
      modifies this
      ensures Valid()
      ensures timerRunning == (gameMode == TimeAttack)
      ensures gameMode == TimeAttack ==>
        && gameTimeLeft == TimeLimit(difficulty) && score == 0 && combo == 0 && maxCombo == 0
        && sessionResults == []
      ensures gameMode != TimeAttack ==>
        && gameTimeLeft == old(gameTimeLeft) && score == old(score)
        && combo == old(combo) && maxCombo == old(maxCombo)
      ensures gameMode == Endurance ==> sessionResults == []
      ensures gameMode != TimeAttack && gameMode != Endurance ==>
        sessionResults == Last(old(sessionResults), Metrics.StoredLimit)
      ensures gameMode == old(gameMode) && difficulty == old(difficulty) && targetButton == old(targetButton)
      ensures startTime == old(startTime) && highScore == old(highScore) && round == old(round)
      ensures seen == old(seen) && isProcessingButton == old(isProcessingButton)
      ensures lastButtonPressTime == old(lastButtonPressTime)
    {
      if gameMode == TimeAttack {
        gameTimeLeft := TimeLimit(difficulty);
        score := 0;
        combo := 0;
        maxCombo := 0;
        sessionResults := [];
        timerRunning := true;
      } else if gameMode == Endurance {
        sessionResults := [];
      } else {
        KeepRecentResults();
      }
    }

    /** `sessionResults = sessionResults.slice(-20)` */
    method KeepRecentResults()
      requires Valid()
      modifies this
      ensures Valid()
      ensures sessionResults == Last(old(sessionResults), Metrics.StoredLimit)
      ensures gameMode == old(gameMode) && difficulty == old(difficulty) && targetButton == old(targetButton)
      ensures startTime == old(startTime) && highScore == old(highScore) && timerRunning == old(timerRunning)
      ensures gameTimeLeft == old(gameTimeLeft) && score == old(score) && combo == old(combo)
      ensures maxCombo == old(maxCombo) && round == old(round) && seen == old(seen)
      ensures isProcessingButton == old(isProcessingButton) && lastButtonPressTime == old(lastButtonPressTime)
    {
      TimesSeenLast(sessionResults, Metrics.StoredLimit, seen);
      sessionResults := Last(sessionResults, Metrics.StoredLimit);
    }

    /** `nextRound`: count the round; an endurance game ends after round 5
        and a time-attack game whose time is up schedules nothing. Otherwise
        the target appears after a delay drawn from the difficulty's range
        (`roll` is the random part), shortened as time runs out in time
        attack but never below 200 ms. */
    method NextRound(roll: int) returns (o: RoundOutcome)
      requires Valid()
      requires 0 <= roll <= MaxDelay(difficulty) - MinDelay(difficulty)
      modifies this
      ensures Valid()
      ensures round == old(round) + 1
      ensures o == Ended <==> gameMode == Endurance && round > MaxRounds
      ensures o == Stopped <==> !(gameMode == Endurance && round > MaxRounds) && gameMode == TimeAttack && gameTimeLeft <= 0
      ensures o.Scheduled? && gameMode == TimeAttack ==>
        MinTimeAttackDelay <= o.delay <= (if MinDelay(difficulty) + roll > MinTimeAttackDelay then MinDelay(difficulty) + roll else MinTimeAttackDelay)
      ensures o.Scheduled? && gameMode != TimeAttack ==>
        o.delay == MinDelay(difficulty) + roll && MinDelay(difficulty) <= o.delay <= MaxDelay(difficulty)
      ensures gameMode == old(gameMode) && difficulty == old(difficulty) && targetButton == old(targetButton)
      ensures startTime == old(startTime) && highScore == old(highScore) && timerRunning == old(timerRunning)
      ensures gameTimeLeft == old(gameTimeLeft) && score == old(score) && combo == old(combo)
      ensures maxCombo == old(maxCombo) && sessionResults == old(sessionResults)
      ensures isProcessingButton == old(isProcessingButton) && lastButtonPressTime == old(lastButtonPressTime)
      ensures seen == old(seen)
    {
      round := round + 1;
      if gameMode == Endurance && round > MaxRounds {
        return Ended;
      }
      if gameMode == TimeAttack && gameTimeLeft <= 0 {
        return Stopped;
      }
      var delay := MinDelay(difficulty) + roll;
      if gameMode == TimeAttack {
        delay := TimeAttackDelay(delay, TimeLimit(difficulty), gameTimeLeft);
      }
      o := Scheduled(delay);
    }

    /** The timeout `nextRound` schedules: unless a time-attack game has run
        out of time, light button `roll` (1 or 2), release the lock and
        start the clock at `now`. */
    method ShowTarget(roll: int, now: int) returns (shown: bool)
      requires Valid()
      requires roll == 1 || roll == 2
      modifies this
      ensures Valid()
      ensures shown <==> !(gameMode == TimeAttack && gameTimeLeft <= 0)
      ensures !shown ==> unchanged(this)
      ensures shown ==>
        && targetButton == Some(roll) && !isProcessingButton && startTime == Some(now)
        && LockIdle()
        && round == old(round) && score == old(score) && combo == old(combo)
        && maxCombo == old(maxCombo) && sessionResults == old(sessionResults)
        && highScore == old(highScore) && seen == old(seen) && gameMode == old(gameMode)
        && difficulty == old(difficulty) && gameTimeLeft == old(gameTimeLeft)
        && timerRunning == old(timerRunning) && lastButtonPressTime == old(lastButtonPressTime)
    {
      if gameMode == TimeAttack && gameTimeLeft <= 0 {
        return false;
      }
      targetButton := Some(roll);
      isProcessingButton := false;
      startTime := Some(now);
      shown := true;
    }

    /** `handleButtonPress`. A press within 100 ms of the previous press
        changes nothing. Any other press restarts the debounce window, and
        is refused when no target is glowing or the lock is held. A
        processed press records exactly one attempt, scores it, stores the
        last 20 attempts, clears the target and holds the lock until the
        next round. */
    method HandleButtonPress(button: int, now: int) returns (o: PressOutcome)
      requires Valid()
      modifies this, storage
      ensures Valid()
      ensures o == Debounced <==> now - old(lastButtonPressTime) < DebounceMs
      ensures o == Debounced ==> unchanged(this) && unchanged(storage)
      ensures now - old(lastButtonPressTime) >= DebounceMs ==> lastButtonPressTime == now
      ensures o == NoTarget || o == Busy ==>
        && unchanged(storage) && targetButton == old(targetButton)
        && sessionResults == old(sessionResults) && score == old(score) && combo == old(combo)
        && maxCombo == old(maxCombo) && highScore == old(highScore) && seen == old(seen)
        && isProcessingButton == old(isProcessingButton) && round == old(round)
        && startTime == old(startTime) && gameMode == old(gameMode) && difficulty == old(difficulty)
        && gameTimeLeft == old(gameTimeLeft) && timerRunning == old(timerRunning)
      ensures o == NoTarget <==> now - old(lastButtonPressTime) >= DebounceMs && old(targetButton).None?
      ensures o == Busy <==>
        now - old(lastButtonPressTime) >= DebounceMs && old(targetButton).Some? && old(isProcessingButton)
      ensures o == Busy ==> !old(LockIdle())
      ensures AtMost(highScore, old(highScore))
      ensures o.Processed? ==> LockIdle()
      ensures o.Processed? ==> ProcessedPress(button, now, o.record, o.nextDelay)
    {
      if now - lastButtonPressTime < DebounceMs {
        return Debounced;
      }
      lastButtonPressTime := now;
      if targetButton.None? {
        return NoTarget;
      }
      if isProcessingButton {
        return Busy;
      }
      var record, delay := ProcessPress(button, now);
      o := Processed(record, delay);
    }

    /** The part of `handleButtonPress` after the checks: take the lock,
        score and record the press, save the last 20 records and clear the
        target. */
    method ProcessPress(button: int, now: int) returns (record: Attempt, delay: int)
      requires Valid() && targetButton.Some? && lastButtonPressTime == now
      modifies this, storage
      ensures Valid() && LockIdle()
      ensures AtMost(highScore, old(highScore))
      ensures ProcessedPress(button, now, record, delay)
    {
      if Some(button) == targetButton {
        record, delay := ProcessCorrectPress(button, now);
      } else {
        record, delay := ProcessWrongPress(button, now);
      }
    }

    /** `ProcessPress` for the glowing button. */
    method ProcessCorrectPress(button: int, now: int) returns (record: Attempt, delay: int)
      requires Valid() && targetButton == Some(button) && lastButtonPressTime == now
      modifies this, storage
      ensures Valid() && LockIdle()
      ensures AtMost(highScore, old(highScore))
      ensures ProcessedPress(button, now, record, delay)
    {
      isProcessingButton := true;
      record := RecordCorrect(now - startTime.value);
      FinishPress();
      delay := NextRoundDelay(gameMode);
    }

    /** `ProcessPress` for any other button. */
    method ProcessWrongPress(button: int, now: int) returns (record: Attempt, delay: int)
      requires Valid() && targetButton.Some? && targetButton != Some(button) && lastButtonPressTime == now
      modifies this, storage
      ensures Valid() && LockIdle()
      ensures highScore == old(highScore)
      ensures ProcessedPress(button, now, record, delay)
    {
      isProcessingButton := true;
      record := RecordWrong();
      FinishPress();
      delay := NextRoundDelay(gameMode);
    }

    /** The end of a processed press: save the last 20 records and clear
        the target. */
    method FinishPress()
      requires Valid()
      modifies this, storage
      ensures Valid() && targetButton.None?
      ensures storage.saved == Some(Last(sessionResults, Metrics.StoredLimit))
      ensures sessionResults == old(sessionResults) && highScore == old(highScore) && seen == old(seen)
      ensures score == old(score) && combo == old(combo) && maxCombo == old(maxCombo)
      ensures isProcessingButton == old(isProcessingButton) && startTime == old(startTime)
      ensures gameMode == old(gameMode) && difficulty == old(difficulty) && round == old(round)
      ensures gameTimeLeft == old(gameTimeLeft) && timerRunning == old(timerRunning)
      ensures lastButtonPressTime == old(lastButtonPressTime)
    {
      Metrics.SaveRecentAttempts(storage, sessionResults);
      targetButton := None;
    }

    /** The correct branch of `handleButtonPress` for a reaction of `rt`
        ms: in time attack, score the press and grow the combo; then record
        the attempt and lower the high score if `rt` beats it. */
    method RecordCorrect(rt: int) returns (record: Attempt)
      requires Valid()
      modifies this
      ensures Valid()
      ensures sessionResults == old(sessionResults) + [record]
      ensures record.round == round && record.reaction == Timed(rt) && record.status == Correct
      ensures highScore == Improve(old(highScore), rt) && seen == old(seen) + [rt]
      ensures gameMode == TimeAttack ==>
        && combo == old(combo) + 1
        && maxCombo == (if combo > old(maxCombo) then combo else old(maxCombo))
        && record.points == ComboPoints(BasePoints(rt), combo)
        && record.points >= 10 && record.points >= BasePoints(rt)
        && score == old(score) + record.points
      ensures gameMode != TimeAttack ==>
        record.points == 0 && score == old(score) && combo == old(combo) && maxCombo == old(maxCombo)
      ensures targetButton == old(targetButton) && isProcessingButton == old(isProcessingButton)
      ensures gameMode == old(gameMode) && difficulty == old(difficulty) && round == old(round)
      ensures startTime == old(startTime) && gameTimeLeft == old(gameTimeLeft)
      ensures timerRunning == old(timerRunning) && lastButtonPressTime == old(lastButtonPressTime)
    {
      var points := 0;
      if gameMode == TimeAttack {
        points := ScoreCorrect(rt);
      }
      record := Attempt(round, Timed(rt), Correct, points);
      TimesSeenAppend(sessionResults, seen, record, [rt]);
      sessionResults := sessionResults + [record];
      if Beats(rt, highScore) {
        highScore := Ms(rt);
      }
      ImproveIsMinimum(old(highScore), seen, rt);
      seen := seen + [rt];
    }

    /** The time-attack points of a correct press: the base points for the
        time, the combo counted (and the best combo raised to it), the
        combo's bonus applied and the points added to the score. */
    method ScoreCorrect(rt: int) returns (points: int)
      requires Valid() && gameMode == TimeAttack
      modifies this
      ensures Valid()
      ensures combo == old(combo) + 1
      ensures maxCombo == (if combo > old(maxCombo) then combo else old(maxCombo))
      ensures points == ComboPoints(BasePoints(rt), combo)
      ensures points >= 10 && points >= BasePoints(rt)
      ensures score == old(score) + points
      ensures sessionResults == old(sessionResults) && highScore == old(highScore) && seen == old(seen)
      ensures targetButton == old(targetButton) && isProcessingButton == old(isProcessingButton)
      ensures gameMode == old(gameMode) && difficulty == old(difficulty) && round == old(round)
      ensures startTime == old(startTime) && gameTimeLeft == old(gameTimeLeft)
      ensures timerRunning == old(timerRunning) && lastButtonPressTime == old(lastButtonPressTime)
    {
      var base := BasePoints(rt);
      combo := combo + 1;
      if combo > maxCombo {
        maxCombo := combo;
      }
      points := ComboPoints(base, combo);
      score := score + points;
    }

    /** The wrong branch of `handleButtonPress`: break a time-attack combo
        and record "-" with no points. */
    method RecordWrong() returns (record: Attempt)
      requires Valid()
      modifies this
      ensures Valid()
      ensures sessionResults == old(sessionResults) + [record]
      ensures record == Attempt(round, Dash, Wrong, 0)
      ensures combo == (if gameMode == TimeAttack then 0 else old(combo))
      ensures highScore == old(highScore) && seen == old(seen)
      ensures score == old(score) && maxCombo == old(maxCombo)
      ensures targetButton == old(targetButton) && isProcessingButton == old(isProcessingButton)
      ensures gameMode == old(gameMode) && difficulty == old(difficulty) && round == old(round)
      ensures startTime == old(startTime) && gameTimeLeft == old(gameTimeLeft)
      ensures timerRunning == old(timerRunning) && lastButtonPressTime == old(lastButtonPressTime)
    {
      if gameMode == TimeAttack {
        combo := 0;
      }
      record := Attempt(round, Dash, Wrong, 0);
      TimesSeenAppend(sessionResults, seen, record, []);
      assert seen + [] == seen;
      sessionResults := sessionResults + [record];
    }

    /** The new state after a processed press of `button` at `now`, with
        `record` the attempt it recorded. The reaction time is `now` minus
        the start time. A correct press records the time and may lower the
        high score; in time attack it also adds at least 10 points, at least
        the base points, grows the combo and keeps the best combo at least
        as large. A wrong press records "-" with no points, resets a
        time-attack combo and leaves score, best combo and high score
        alone. */
    twostate predicate ProcessedPress(button: int, now: int, record: Attempt, nextDelay: int)
      reads this, storage
    {
      && old(targetButton).Some? && old(startTime).Some?
      && var rt := now - old(startTime).value;
      var correct := old(targetButton) == Some(button);
      && sessionResults == old(sessionResults) + [record]
      && record.round == old(round)
      && targetButton.None? && isProcessingButton
      && storage.saved == Some(Last(sessionResults, Metrics.StoredLimit))
      && nextDelay == NextRoundDelay(gameMode)
      && gameMode == old(gameMode) && difficulty == old(difficulty) && round == old(round)
      && startTime == old(startTime) && gameTimeLeft == old(gameTimeLeft)
      && timerRunning == old(timerRunning) && lastButtonPressTime == now
      && (correct ==>
            && record.reaction == Timed(rt) && record.status == Correct
            && highScore == Improve(old(highScore), rt) && seen == old(seen) + [rt])
      && (correct && gameMode == TimeAttack ==>
            && combo == old(combo) + 1
            && maxCombo == (if combo > old(maxCombo) then combo else old(maxCombo))
            && combo >= 1 && record.points == ComboPoints(BasePoints(rt), combo)
            && record.points >= 10 && record.points >= BasePoints(rt)
            && score == old(score) + record.points)
      && (correct && gameMode != TimeAttack ==>
            record.points == 0 && score == old(score) && combo == old(combo) && maxCombo == old(maxCombo))
      && (!correct ==>
            && record == Attempt(old(round), Dash, Wrong, 0)
            && highScore == old(highScore) && seen == old(seen)
            && score == old(score) && maxCombo == old(maxCombo)
            && combo == (if gameMode == TimeAttack then 0 else old(combo)))
    }

    /** The timeout after a processed press: release the lock and start
        the next round. */
    method ResumeAfterPress(roll: int) returns (o: RoundOutcome)
      requires Valid()
      requires 0 <= roll <= MaxDelay(difficulty) - MinDelay(difficulty)
      modifies this
      ensures Valid() && LockIdle()
      ensures !isProcessingButton && round == old(round) + 1
      ensures targetButton == old(targetButton) && sessionResults == old(sessionResults)
      ensures score == old(score) && combo == old(combo) && highScore == old(highScore)
      ensures o == Ended <==> gameMode == Endurance && round > MaxRounds
    {
      isProcessingButton := false;
      o := NextRound(roll);
    }

    /** One tick of the time-attack interval: one second less, and at zero
        the interval is cleared and the game ends. */
    method TimerTick() returns (ended: Option<Summary>)
      requires Valid()
      requires timerRunning
      modifies this
      ensures Valid()
      ensures old(LockIdle()) ==> LockIdle()
      ensures gameTimeLeft == old(gameTimeLeft) - 1
      ensures ended.Some? <==> gameTimeLeft <= 0
      ensures ended.Some? ==>
        && !timerRunning && targetButton.None? && !isProcessingButton
        && ended.value == TimeAttackSummary(sessionResults, score, maxCombo)
      ensures ended.None? ==> timerRunning && targetButton == old(targetButton) && isProcessingButton == old(isProcessingButton)
      ensures score == old(score) && sessionResults == old(sessionResults) && highScore == old(highScore)
      ensures round == old(round) && combo == old(combo) && maxCombo == old(maxCombo)
    {
      gameTimeLeft := gameTimeLeft - 1;
      if gameTimeLeft <= 0 {
        timerRunning := false;
        var s := EndTimeAttackGame();
        return Some(s);
      }
      ended := None;
    }

    /** `endTimeAttackGame`: stop the timer, clear the target and the lock,
        and report the game's statistics. */
    method EndTimeAttackGame() returns (s: Summary)
      requires Valid()
      modifies this
      ensures Valid() && LockIdle()
      ensures !timerRunning && targetButton.None? && !isProcessingButton
      ensures s == TimeAttackSummary(sessionResults, score, maxCombo)
      ensures 0 <= s.accuracy <= 100 && s.finalScore == score && s.maxCombo == maxCombo
      ensures score == old(score) && sessionResults == old(sessionResults) && highScore == old(highScore)
      ensures round == old(round) && combo == old(combo) && maxCombo == old(maxCombo)
      ensures gameTimeLeft == old(gameTimeLeft) && gameMode == old(gameMode) && difficulty == old(difficulty)
    {
      timerRunning := false;
      targetButton := None;
      isProcessingButton := false;
      s := TimeAttackSummary(sessionResults, score, maxCombo);
    }
  }

  /** Two presses 50 ms apart: the second is dropped whatever it is. */
  method DoublePressDropped(g: Game, b: int, now: int)
    requires g.Valid() && g.targetButton.Some? && !g.isProcessingButton
    requires now - g.lastButtonPressTime >= DebounceMs
    modifies g, g.storage
  {
    var o1 := g.HandleButtonPress(b, now);
    assert o1.Processed?;
    var o2 := g.HandleButtonPress(b, now + 50);
    assert o2 == Debounced;
  }
}
