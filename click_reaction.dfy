/** The single-button click-reaction page of the styling snapshot: a start
    button that begins a countdown followed by a random "GO!", and a click
    anywhere on the page that either comes too early or measures the
    reaction time. Each scheduled "GO!" is identified by the round whose
    start click scheduled it; the page clock is the parameter `now`. */
module ClickReaction {
  import opened Common

  /** The page colour after a measured reaction. */
  datatype Colour = Green | Yellow | Red

  /** Green below 250 ms, yellow below 400 ms, red otherwise. */
  function SpeedColour(rt: int): (c: Colour)
    ensures c == Green <==> rt < 250
    ensures c == Yellow <==> 250 <= rt < 400
    ensures c == Red <==> rt >= 400
  {
    if rt < 250 then Green else if rt < 400 then Yellow else Red
  }

  /** A slower reaction never gets a better colour. */
  lemma SpeedColourMonotone(a: int, b: int)
    requires a <= b
    ensures SpeedColour(b) == Green ==> SpeedColour(a) == Green
    ensures SpeedColour(a) == Red ==> SpeedColour(b) == Red
  {
  }

  /** A row of the history table: round, selected mode, reaction time. */
  datatype Row = Row(round: int, mode: string, ms: int)

  /** What a click on the page did. */
  datatype ClickResult = Ignored | TooEarly | Reacted(ms: int, colour: Colour)

  class ClickGame {
    var waiting: bool
    var gameStarted: bool
    var round: int
    /** `startTime`; `None` is both the initial `undefined` and `null`. */
    var startTime: Option<int>
    /** `bestTime`; `Unset` is `null`. */
    var bestTime: BestTime
    /** The history table, newest row first. */
    var history: seq<Row>
    /** The rounds whose "GO!" timer is still pending. */
    var pendingGo: set<int>
    /** Every measured reaction time, oldest first. */
    ghost var times: seq<int>
    /** The round whose "GO!" fired last (0 before any). */
    ghost var goRound: int

    /** The best time is the smallest measured time, one history row per
        measured time, a started game has a start time, and pending timers
        belong to rounds already started. */
    ghost predicate Valid()
      reads this
    {
      && IsMinimum(bestTime, times)
      && |history| == |times|
      && (gameStarted ==> startTime.Some?)
      && round >= 0
      && (forall r :: r in pendingGo ==> 1 <= r <= round)
    }

    /** "GO!" has been shown only for the round being played: a started
        game is waiting for a click and its start time is that round's. */
    ghost predicate GoIsCurrent()
      reads this
    {
      gameStarted ==> waiting && goRound == round
    }

    constructor ()
      ensures Valid() && GoIsCurrent()
      ensures !waiting && !gameStarted && round == 0 && startTime.None?
      ensures bestTime.Unset? && history == [] && pendingGo == {}
    {
      waiting := false;
      gameStarted := false;
      round := 0;
      startTime := None;
      bestTime := Unset;
      history := [];
      pendingGo := {};
      times := [];
      goRound := 0;
    }

    /** The start button's click handler: ignored while a round is waiting;
        otherwise start the next round, not yet at "GO!", and schedule its
        countdown and "GO!". */
    method StartClick() returns (started: bool)
      requires Valid()
      modifies this
      ensures Valid()
      ensures started <==> !old(waiting)
      ensures !started ==> unchanged(this)
      ensures started ==>
        && waiting && !gameStarted && round == old(round) + 1
        && pendingGo == old(pendingGo) + {round} && GoIsCurrent()
        && startTime == old(startTime) && bestTime == old(bestTime) && history == old(history)
      ensures goRound == old(goRound)
    {
      if waiting {
        return false;
      }
      waiting := true;
      gameStarted := false;
      round := round + 1;
      ghost var earlier := pendingGo;
      pendingGo := pendingGo + {round};
      assert forall x :: x in pendingGo ==> x in earlier || x == round;
      started := true;
    }

    /** The "GO!" timeout scheduled by the start click of round `from`, as
        written: it starts the clock and arms the click handler whatever
        happened since, including a too-early click and a new start. */
    method Go(from: int, now: int)
      requires Valid() && from in pendingGo
      modifies this
      ensures Valid()
      ensures startTime == Some(now) && gameStarted && goRound == from
      ensures pendingGo == old(pendingGo) - {from}
      ensures waiting == old(waiting) && round == old(round) && bestTime == old(bestTime)
      ensures history == old(history) && times == old(times)
    {
      pendingGo := pendingGo - {from};
      startTime := Some(now);
      gameStarted := true;
      goRound := from;
    }

    /** The "GO!" timeout with the round check it evidently needs: a timer
        left over from an abandoned round does nothing, so "GO!" is only
        ever shown for the round being played. */
    method GoForRound(from: int, now: int)
      requires Valid() && GoIsCurrent() && from in pendingGo
      modifies this
      ensures Valid() && GoIsCurrent()
      ensures pendingGo == old(pendingGo) - {from}
      ensures from == round && waiting ==> startTime == Some(now) && gameStarted
      ensures !(from == round && waiting) ==>
        startTime == old(startTime) && gameStarted == old(gameStarted)
      ensures waiting == old(waiting) && round == old(round) && bestTime == old(bestTime)
      ensures history == old(history) && times == old(times)
    {
      pendingGo := pendingGo - {from};
      if from == round && waiting {
        startTime := Some(now);
        gameStarted := true;
        goRound := from;
      }
    }

    /** The page's click handler. Ignored unless a round is waiting, and
        for the click on the start button itself. Before "GO!" the click is
        too early: the round is abandoned and the best time kept. After
        "GO!" the reaction time is measured, may become the best time, is
        added on top of the history, and the round ends. */
    method BodyClick(onStartButton: bool, now: int, mode: string) returns (r: ClickResult)
      requires Valid()
      modifies this
      ensures Valid()
      ensures old(GoIsCurrent()) ==> GoIsCurrent()
      ensures !old(waiting) || onStartButton ==> r == Ignored && unchanged(this)
      ensures r == TooEarly <==> old(waiting) && !onStartButton && !old(gameStarted)
      ensures r == TooEarly ==>
        && !waiting && startTime.None? && gameStarted == old(gameStarted)
        && bestTime == old(bestTime) && history == old(history) && round == old(round)
      ensures r.Reacted? <==> old(waiting) && !onStartButton && old(gameStarted)
      ensures r.Reacted? ==>
        && r.ms == now - old(startTime).value && r.colour == SpeedColour(r.ms)
        && bestTime == Improve(old(bestTime), r.ms)
        && history == [Row(round, mode, r.ms)] + old(history)
        && !waiting && !gameStarted && startTime.None? && round == old(round)
      ensures r.Reacted? && old(GoIsCurrent()) ==> old(goRound) == old(round)
      ensures AtMost(bestTime, old(bestTime))
      ensures pendingGo == old(pendingGo) && goRound == old(goRound)
    {
      if !waiting {
        return Ignored;
      }
      if onStartButton {
        return Ignored;
      }
      if !gameStarted {
        waiting := false;
        startTime := None;
        return TooEarly;
      }
      var rt := now - startTime.value;
      ImproveIsMinimum(bestTime, times, rt);
      if Beats(rt, bestTime) {
        bestTime := Ms(rt);
      }
      times := times + [rt];
      history := [Row(round, mode, rt)] + history;
      waiting := false;
      startTime := None;
      gameStarted := false;
      r := Reacted(rt, SpeedColour(rt));
    }
  }

  /** The page as written: start round 1, click too early at 1000 ms,
      start round 2 at 1500 ms; round 1's leftover "GO!" fires at 3500 ms,
      during round 2's countdown, and a click at 3600 ms is taken as a
      100 ms reaction of round 2 although round 2 never showed "GO!". */
  method StaleGoAcceptsEarlyClick() returns (g: ClickGame, r: ClickResult)
    ensures r == Reacted(100, Green)
    ensures g.round == 2 && g.goRound == 1
    ensures g.bestTime == Ms(100)
  {
    g := new ClickGame();
    var s1 := g.StartClick();
    var early := g.BodyClick(false, 1000, "classic");
    assert early == TooEarly;
    var s2 := g.StartClick();
    assert s2 && g.round == 2 && 1 in g.pendingGo;
    g.Go(1, 3500);
    r := g.BodyClick(false, 3600, "classic");
  }

  /** The same clicks with the round-checked "GO!": the leftover timer does
      nothing and the click at 3600 ms is too early. */
  method StaleGoIgnoredWhenChecked() returns (g: ClickGame, r: ClickResult)
    ensures r == TooEarly
    ensures g.round == 2 && g.bestTime.Unset?
  {
    g := new ClickGame();
    var s1 := g.StartClick();
    var early := g.BodyClick(false, 1000, "classic");
    var s2 := g.StartClick();
    assert s2 && g.round == 2 && 1 in g.pendingGo;
    g.GoForRound(1, 3500);
    r := g.BodyClick(false, 3600, "classic");
  }
}
