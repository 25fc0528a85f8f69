/** The earlier browser game page: three buttons, classic, endurance and
    unlimited modes, one global session list kept in localStorage. As in
    the later engine, `Date.now()` is the parameter `now`, `Math.random()`
    draws are parameters restricted to the range the code maps them to, and
    each `setTimeout` callback is a separate method. */
module Script {
  import opened Common
  import GameCore

  const Classic: string := "classic"
  const Endurance: string := "endurance"
  const Unlimited: string := "unlimited"
  const MaxRounds: int := 5
  const StoredLimit: nat := 20

  /** What `nextRound` did: end the game, or show a target after `delay` ms. */
  datatype RoundOutcome = Ended(average: Option<int>) | Scheduled(delay: int)

  class Game {
    var gameMode: string
    var difficulty: GameCore.Difficulty
    var targetButton: Option<int>
    var startTime: Option<int>
    var round: int
    var highScore: BestTime
    var sessionResults: seq<Attempt>
    /** localStorage["reactionGameAttempts"] */
    const storage: BrowserStorage
    /** The times of the restored attempts, then every correct reaction
        time since the page loaded. */
    ghost var seen: seq<int>

    /** The high score is the smallest time seen and no better than any
        time in the session; a target is one of buttons 1 to 3 and comes
        with a start time. */
    ghost predicate Valid()
      reads this
    {
      && IsMinimum(highScore, seen)
      && TimesSeen(sessionResults, seen)
      && (targetButton.Some? ==> 1 <= targetButton.value <= 3 && startTime.Some?)
    }

    /** The initial values and the `DOMContentLoaded` handler: restore the
        last 20 stored attempts and take the high score from them. */
    constructor (storage: BrowserStorage)
      ensures Valid()
      ensures this.storage == storage
      ensures sessionResults == Last(storage.Read(), StoredLimit)
      ensures ValidTimes(sessionResults) == [] ==> highScore.Unset?
      ensures ValidTimes(sessionResults) != [] ==> IsMinimum(highScore, ValidTimes(sessionResults))
      ensures gameMode == Classic && difficulty == GameCore.Easy
      ensures targetButton.None? && startTime.None? && round == 0
    {
      this.storage := storage;
      gameMode := Classic;
      difficulty := GameCore.Easy;
      targetButton := None;
      startTime := None;
      round := 0;
      highScore := Unset;
      sessionResults := [];
      seen := [];
      new;
      var stored := storage.Read();
      if |stored| > 0 {
        sessionResults := Last(stored, StoredLimit);
        UpdateHighScore();
      }
      seen := ValidTimes(sessionResults);
      TimesSeenInValidTimes(sessionResults);
      MinimumIsMinOf(highScore, seen);
    }

    /** `updateHighScore`: the smallest time in the session when there is
        one; otherwise the high score is left as it was. */
    method UpdateHighScore()
      modifies this
      ensures ValidTimes(sessionResults) != [] ==> IsMinimum(highScore, ValidTimes(sessionResults))
      ensures ValidTimes(sessionResults) == [] ==> highScore == old(highScore)
      ensures sessionResults == old(sessionResults) && seen == old(seen)
      ensures gameMode == old(gameMode) && difficulty == old(difficulty) && round == old(round)
      ensures targetButton == old(targetButton) && startTime == old(startTime)
    {
      var times := ValidTimes(sessionResults);
      if |times| > 0 {
        highScore := MinOf(times);
        MinimumIsMinOf(highScore, times);
      }
    }

    /** `saveRecentAttempts`: store the last 20 records, in order. */
    method SaveRecentAttempts()
      modifies storage
      ensures storage.saved == Some(Last(sessionResults, StoredLimit))
      ensures |storage.saved.value| <= StoredLimit
      ensures storage.saved.value == sessionResults[|sessionResults| - |storage.saved.value|..]
    {
      storage.Write(Last(sessionResults, StoredLimit));
    }

    /** `startGame`: take the chosen mode and difficulty, start again from
        round 0 with no target, keep the last 20 records, and run the first
        `nextRound`. */
    method StartGame(mode: string, diff: GameCore.Difficulty, roll: int) returns (o: RoundOutcome)
      requires Valid()
      requires 0 <= roll <= GameCore.MaxDelay(diff) - GameCore.MinDelay(diff)
      modifies this
      ensures Valid()
      ensures gameMode == mode && difficulty == diff && round == 1 && targetButton.None?
      ensures sessionResults == Last(old(sessionResults), StoredLimit)
      ensures o == Scheduled(GameCore.MinDelay(diff) + roll)
      ensures highScore == old(highScore) && startTime == old(startTime) && seen == old(seen)
    {
      gameMode := mode;
      difficulty := diff;
      round := 0;
      targetButton := None;
      KeepRecentResults();
      o := NextRound(roll);
    }

    /** `sessionResults = sessionResults.slice(-20)` */
    method KeepRecentResults()
      requires Valid()
      modifies this
      ensures Valid()
      ensures sessionResults == Last(old(sessionResults), StoredLimit)
      ensures gameMode == old(gameMode) && difficulty == old(difficulty) && round == old(round)
      ensures targetButton == old(targetButton) && startTime == old(startTime)
      ensures highScore == old(highScore) && seen == old(seen)
    {
      TimesSeenLast(sessionResults, StoredLimit, seen);
      sessionResults := Last(sessionResults, StoredLimit);
    }

    /** `nextRound`: count the round; a classic or endurance game ends after
        round 5 and shows its average to two decimals. Otherwise a target is due after a
        delay drawn from the difficulty's range. */
    method NextRound(roll: int) returns (o: RoundOutcome)
      requires Valid()
      requires 0 <= roll <= GameCore.MaxDelay(difficulty) - GameCore.MinDelay(difficulty)
      modifies this
      ensures Valid()
      ensures round == old(round) + 1
      ensures o.Ended? <==> (gameMode == Classic || gameMode == Endurance) && round > MaxRounds
      ensures o.Ended? ==> o.average == MeanHundredths(sessionResults)
      ensures o.Scheduled? ==>
        o.delay == GameCore.MinDelay(difficulty) + roll
        && GameCore.MinDelay(difficulty) <= o.delay <= GameCore.MaxDelay(difficulty)
      ensures gameMode == old(gameMode) && difficulty == old(difficulty) && targetButton == old(targetButton)
      ensures startTime == old(startTime) && highScore == old(highScore)
      ensures sessionResults == old(sessionResults) && seen == old(seen)
    {
      round := round + 1;
      if (gameMode == Classic || gameMode == Endurance) && round > MaxRounds {
        return Ended(MeanHundredths(sessionResults));
      }
      o := Scheduled(GameCore.MinDelay(difficulty) + roll);
    }

    /** The timeout `nextRound` schedules: light button `roll` (1 to 3) and
        start the clock at `now`. */
    method ShowTarget(roll: int, now: int)
      requires Valid()
      requires 1 <= roll <= 3
      modifies this
      ensures Valid()
      ensures targetButton == Some(roll) && startTime == Some(now)
      ensures round == old(round) && sessionResults == old(sessionResults) && highScore == old(highScore)
      ensures gameMode == old(gameMode) && difficulty == old(difficulty) && seen == old(seen)
    {
      targetButton := Some(roll);
      startTime := Some(now);
    }

    /** `handleButtonPress`: ignored without a target. Otherwise one record
        is appended: the reaction time for the target button, "-" for
        another; a correct time strictly below the high score replaces it.
        The last 20 records are saved, the target is cleared, and the next
        round follows after `nextDelay` ms. */
    method HandleButtonPress(button: int, now: int) returns (handled: bool, nextDelay: int)
      requires Valid()
      modifies this, storage
      ensures Valid()
      ensures handled <==> old(targetButton).Some?
      ensures !handled ==> unchanged(this) && unchanged(storage)
      ensures handled ==>
        var rt := now - old(startTime).value;
        var correct := old(targetButton) == Some(button);
        && targetButton.None?
        && (correct ==>
              && sessionResults == old(sessionResults) + [Attempt(old(round), Timed(rt), Correct, 0)]
              && highScore == Improve(old(highScore), rt))
        && (!correct ==>
              && sessionResults == old(sessionResults) + [Attempt(old(round), Dash, Wrong, 0)]
              && highScore == old(highScore))
        && storage.saved == Some(Last(sessionResults, StoredLimit))
        && nextDelay == (if gameMode == Unlimited then 1000 else 1500)
        && round == old(round) && gameMode == old(gameMode) && difficulty == old(difficulty)
        && startTime == old(startTime)
      ensures AtMost(highScore, old(highScore))
    {
      if targetButton.None? {
        return false, 0;
      }
      var rt := now - startTime.value;
      RecordPress(Some(button) == targetButton, rt);
      SaveRecentAttempts();
      targetButton := None;
      handled := true;
      nextDelay := if gameMode == Unlimited then 1000 else 1500;
    }

    /** The two branches of `handleButtonPress`: append the record and,
        for a correct press, lower the high score if `rt` beats it. */
    method RecordPress(correct: bool, rt: int)
      requires Valid()
      modifies this
      ensures Valid()
      ensures correct ==>
        && sessionResults == old(sessionResults) + [Attempt(round, Timed(rt), Correct, 0)]
        && highScore == Improve(old(highScore), rt)
      ensures !correct ==>
        sessionResults == old(sessionResults) + [Attempt(round, Dash, Wrong, 0)] && highScore == old(highScore)
      ensures gameMode == old(gameMode) && difficulty == old(difficulty) && round == old(round)
      ensures targetButton == old(targetButton) && startTime == old(startTime)
    {
      if correct {
        TimesSeenAppend(sessionResults, seen, Attempt(round, Timed(rt), Correct, 0), [rt]);
        sessionResults := sessionResults + [Attempt(round, Timed(rt), Correct, 0)];
        ImproveIsMinimum(highScore, seen, rt);
        if Beats(rt, highScore) {
          highScore := Ms(rt);
        }
        seen := seen + [rt];
      } else {
        TimesSeenAppend(sessionResults, seen, Attempt(round, Dash, Wrong, 0), []);
        assert seen + [] == seen;
        sessionResults := sessionResults + [Attempt(round, Dash, Wrong, 0)];
      }
    }
  }
}
