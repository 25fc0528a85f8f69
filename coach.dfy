/** The enhanced mini AI coach: one piece of advice chosen from the recent
    attempts of a session, and the two-player comparison. Averages and the
    variance are exact real numbers here; the browser computes them in
    double precision. */
module Coach {
  import opened Common

  /** Only the last 10 records count towards mistakes and recent times. */
  const WindowSize: nat := 10

  /** The coach's messages; the emoji shown with each is fixed by it.
      `Massive` and `Faster` carry the improvement in milliseconds. */
  datatype Advice =
    | FirstCorrect | Accuracy
    | Massive(ms: int) | Faster(ms: int) | Breath
    | Elite | Excellent | Good | GettingThere | Relax
    | Inconsistent | PersonalRecord

  function Window(h: seq<Attempt>): seq<Attempt>
  {
    Last(h, WindowSize)
  }

  /** `reduce(+) / length` of a non-empty list. */
  function Mean(ts: seq<int>): real
    requires ts != []
  {
    Sum(ts) as real / |ts| as real
  }

  /** The sum of the squared differences between `ts` and `m`. */
  function SquaredDeviations(ts: seq<int>, m: real): (r: real)
    ensures r >= 0.0
  {
    if ts == [] then 0.0
    else
      var d := ts[|ts| - 1] as real - m;
      SquaredDeviations(ts[..|ts| - 1], m) + d * d
  }

  /** `calculateVariance`: the population variance, 0 for an empty list. */
  function CalculateVariance(ts: seq<int>): (v: real)
    ensures ts == [] ==> v == 0.0
    ensures v >= 0.0
  {
    if ts == [] then 0.0 else SquaredDeviations(ts, Mean(ts)) / |ts| as real
  }

  /** Equal times have no spread: their mean is that time and their
      variance is 0. */
  lemma {:induction false} VarianceOfEqualTimes(ts: seq<int>, c: int)
    requires ts != []
    requires forall i :: 0 <= i < |ts| ==> ts[i] == c
    ensures Mean(ts) == c as real
    ensures CalculateVariance(ts) == 0.0
  {
    SumBounds(ts, c, c);
    assert Sum(ts) == |ts| * c;
    assert Sum(ts) as real == |ts| as real * c as real;
    NoDeviation(ts, c);
  }

  lemma {:induction false} NoDeviation(ts: seq<int>, c: int)
    requires forall i :: 0 <= i < |ts| ==> ts[i] == c
    ensures SquaredDeviations(ts, c as real) == 0.0
  {
    if ts != [] {
      NoDeviation(ts[..|ts| - 1], c);
    }
  }

  /** The trend between the last two correct times, if it is worth a
      message: `prev - last` above 50 or above 20, or below -30. */
  function Trend(ct: seq<int>): (r: Option<Advice>)
    requires |ct| >= 2
  {
    var improvement := ct[|ct| - 2] - ct[|ct| - 1];
    if improvement > 50 then Some(Massive(improvement))
    else if improvement > 20 then Some(Faster(improvement))
    else if improvement < -30 then Some(Breath)
    else None
  }

  /** The performance band of a recent average. */
  function Band(avg: real): Advice
  {
    if avg < 250.0 then Elite
    else if avg < 350.0 then Excellent
    else if avg < 450.0 then Good
    else if avg < 600.0 then GettingThere
    else Relax
  }

  /** The consistency override: at least 5 correct times, the last 5 spread
      with variance above 15000, and a recent average below 400. */
  predicate Erratic(ct: seq<int>)
    requires ct != []
  {
    |ct| >= 5 && CalculateVariance(Last(ct, 5)) > 15000.0 && Mean(ct) < 400.0
  }

  /** The personal-record override: the last correct time is the smallest
      correct time of the whole session and below 300. */
  predicate NewRecord(ct: seq<int>, all: seq<int>)
    requires ct != []
  {
    MinOf(all) == Ms(ct[|ct| - 1]) && ct[|ct| - 1] < 300
  }

  /** The advice once the window holds a correct time and fewer than 4
      mistakes: the trend, else the band; then the consistency override,
      then the record override. */
  function Analyse(ct: seq<int>, all: seq<int>): (r: Advice)
    requires ct != []
    ensures r != FirstCorrect && r != Accuracy
  {
    var base :=
      if |ct| >= 2 && Trend(ct).Some? then Trend(ct).value else Band(Mean(ct));
    var steady := if Erratic(ct) then Inconsistent else base;
    if NewRecord(ct, all) then PersonalRecord else steady
  }

  /** The window holds a correct time and fewer than 4 mistakes, so the
      advice is about speed. */
  predicate Analysed(h: seq<Attempt>)
  {
    h != [] && ValidTimes(Window(h)) != [] && Count(Window(h), Wrong) < 4
  }

  /** `miniCoach`: no advice for an empty list; "first correct response"
      while the window has no correct time, whatever the mistakes; the
      accuracy message with 4 or more mistakes in the window. */
  function MiniCoach(h: seq<Attempt>): (r: Option<Advice>)
    ensures r.None? <==> h == []
    ensures r == Some(FirstCorrect) <==> h != [] && ValidTimes(Window(h)) == []
    ensures r == Some(Accuracy) <==>
      h != [] && ValidTimes(Window(h)) != [] && Count(Window(h), Wrong) >= 4
    ensures Analysed(h) <==> r.Some? && r != Some(FirstCorrect) && r != Some(Accuracy)
  {
    if h == [] then None
    else
      var w := Window(h);
      var ct := ValidTimes(w);
      if ct == [] then Some(FirstCorrect)
      else if Count(w, Wrong) >= 4 then Some(Accuracy)
      else Some(Analyse(ct, ValidTimes(h)))
  }

  /** The record message has the last word: it is given exactly when the
      advice is about speed and the last correct time is the session's
      smallest and below 300; that time is then no larger than any correct
      time of the session. */
  lemma PersonalRecordWins(h: seq<Attempt>)
    ensures MiniCoach(h) == Some(PersonalRecord) <==>
      Analysed(h) && NewRecord(ValidTimes(Window(h)), ValidTimes(h))
    ensures MiniCoach(h) == Some(PersonalRecord) ==>
      var ct := ValidTimes(Window(h));
      var all := ValidTimes(h);
      && ct[|ct| - 1] < 300
      && forall i :: 0 <= i < |all| ==> ct[|ct| - 1] <= all[i]
  {
    if MiniCoach(h) == Some(PersonalRecord) {
      var all := ValidTimes(h);
      forall i | 0 <= i < |all|
        ensures AtMost(MinOf(all), Ms(all[i]))
      {
      }
    }
  }

  /** The consistency message overrides the trend and the band, and only
      the record message overrides it. */
  lemma InconsistentOverridesBase(h: seq<Attempt>)
    ensures MiniCoach(h) == Some(Inconsistent) <==>
      && Analysed(h)
      && !NewRecord(ValidTimes(Window(h)), ValidTimes(h))
      && Erratic(ValidTimes(Window(h)))
  {
  }

  /** Without either override, a trend message comes before the band: a
      gain above 50 is "massive", above 20 "getting faster", a loss above
      30 asks for a breath. With fewer than two correct times in the
      window there is no trend, and the band is given. */
  lemma TrendBeforeBand(h: seq<Attempt>)
    requires Analysed(h)
    requires var ct := ValidTimes(Window(h));
      !NewRecord(ct, ValidTimes(h)) && !Erratic(ct)
    ensures var ct := ValidTimes(Window(h));
      |ct| >= 2 ==>
        var improvement := ct[|ct| - 2] - ct[|ct| - 1];
        && (improvement > 50 ==> MiniCoach(h) == Some(Massive(improvement)))
        && (20 < improvement <= 50 ==> MiniCoach(h) == Some(Faster(improvement)))
        && (improvement < -30 ==> MiniCoach(h) == Some(Breath))
        && (-30 <= improvement <= 20 ==> MiniCoach(h) == Some(Band(Mean(ct))))
    ensures var ct := ValidTimes(Window(h));
      |ct| < 2 ==> MiniCoach(h) == Some(Band(Mean(ct)))
  {
  }

  predicate IsBand(a: Advice)
  {
    a.Elite? || a.Excellent? || a.Good? || a.GettingThere? || a.Relax?
  }

  /** A band is only chosen when no trend message applies. */
  lemma BandOnlyWithoutTrend(h: seq<Attempt>)
    requires Analysed(h)
    ensures var ct := ValidTimes(Window(h));
      MiniCoach(h).Some? && IsBand(MiniCoach(h).value) ==>
        && MiniCoach(h) == Some(Band(Mean(ct)))
        && (|ct| >= 2 ==> -30 <= ct[|ct| - 2] - ct[|ct| - 1] <= 20)
  {
    var ct := ValidTimes(Window(h));
    assert MiniCoach(h) == Some(Analyse(ct, ValidTimes(h)));
    if |ct| >= 2 && Trend(ct).Some? {
      assert !IsBand(Trend(ct).value);
    }
  }

  /** `a / n < c` for a positive count `n`, stated without division. */
  lemma MeanBelow(a: int, n: int, c: int)
    requires n > 0
    ensures a as real / n as real < c as real <==> a < c * n
  {
    var q := a as real / n as real;
    assert q * n as real == a as real;
    if a < c * n {
      assert q * n as real < c as real * n as real;
    } else {
      assert q * n as real >= c as real * n as real;
    }
  }

  /** The band cut-offs 250, 350, 450 and 600, stated on the sum of the
      recent correct times and their number. */
  lemma BandCutoffs(ct: seq<int>)
    requires ct != []
    ensures var s, n := Sum(ct), |ct|;
      && (Band(Mean(ct)) == Elite <==> s < 250 * n)
      && (Band(Mean(ct)) == Excellent <==> 250 * n <= s < 350 * n)
      && (Band(Mean(ct)) == Good <==> 350 * n <= s < 450 * n)
      && (Band(Mean(ct)) == GettingThere <==> 450 * n <= s < 600 * n)
      && (Band(Mean(ct)) == Relax <==> 600 * n <= s)
  {
    var s, n := Sum(ct), |ct|;
    MeanBelow(s, n, 250);
    MeanBelow(s, n, 350);
    MeanBelow(s, n, 450);
    MeanBelow(s, n, 600);
  }

  /** Records older than the last 10 only matter through the session's
      smallest time: with 10 or more later records, the advice is the same
      unless one of the two is the record message, and earlier records can
      take the record message away but never grant it. */
  lemma {:induction false} OnlyWindowCounts(p: seq<Attempt>, h: seq<Attempt>)
    requires |h| >= WindowSize
    ensures Window(p + h) == Window(h)
    ensures MiniCoach(p + h) != Some(PersonalRecord) && MiniCoach(h) != Some(PersonalRecord) ==>
      MiniCoach(p + h) == MiniCoach(h)
    ensures MiniCoach(p + h) == Some(PersonalRecord) ==> MiniCoach(h) == Some(PersonalRecord)
  {
    WindowOfLonger(p, h);
    var ct := ValidTimes(Window(h));
    if Analysed(h) {
      assert MiniCoach(p + h) == Some(Analyse(ct, ValidTimes(p + h)));
      assert MiniCoach(h) == Some(Analyse(ct, ValidTimes(h)));
      AnalyseDependsOnRecordOnly(ct, ValidTimes(p + h), ValidTimes(h));
      if MiniCoach(p + h) == Some(PersonalRecord) {
        RecordSurvivesTrimming(p, h);
      }
    } else {
      assert MiniCoach(p + h) == MiniCoach(h);
    }
  }

  /** The session's other times only enter the advice through the record
      check. */
  lemma AnalyseDependsOnRecordOnly(ct: seq<int>, a1: seq<int>, a2: seq<int>)
    requires ct != []
    ensures Analyse(ct, a1) != PersonalRecord && Analyse(ct, a2) != PersonalRecord ==>
      Analyse(ct, a1) == Analyse(ct, a2)
    ensures Analyse(ct, a1) == PersonalRecord <==> NewRecord(ct, a1)
  {
  }

  /** Earlier records do not reach the last 10. */
  lemma WindowOfLonger(p: seq<Attempt>, h: seq<Attempt>)
    requires |h| >= WindowSize
    ensures Window(p + h) == Window(h)
  {
    assert (p + h)[|p + h| - WindowSize..] == h[|h| - WindowSize..];
  }

  /** A record over the whole session is a record over its later part. */
  lemma RecordSurvivesTrimming(p: seq<Attempt>, h: seq<Attempt>)
    requires |h| >= WindowSize
    requires Window(p + h) == Window(h)
    requires ValidTimes(Window(h)) != []
    requires NewRecord(ValidTimes(Window(h)), ValidTimes(p + h))
    ensures NewRecord(ValidTimes(Window(h)), ValidTimes(h))
  {
    var ct := ValidTimes(Window(h));
    var all := ValidTimes(p + h);
    var mine := ValidTimes(h);
    var last := ct[|ct| - 1];
    assert last in ct;
    ValidTimesOfSuffix(h, |h| - WindowSize);
    assert h[|h| - WindowSize..] == Window(h);
    assert last in mine;
    ValidTimesOfSuffix(p + h, |p|);
    assert (p + h)[|p|..] == h;
    MinOfSubset(mine, all);
    var i :| 0 <= i < |mine| && mine[i] == last;
    assert AtMost(MinOf(mine), Ms(mine[i]));
  }

  // ---------------------------------------------------------------------
  // Two players
  // ---------------------------------------------------------------------

  datatype Standing = Player1Leads | Player2Leads | Tie

  /** A player's average, Infinity without results. */
  datatype Average = Finite(value: real) | Infinity

  function AverageOf(rs: seq<int>): Average
  {
    if rs == [] then Infinity else Finite(Mean(rs))
  }

  /** JavaScript's `<` on numbers that may be Infinity. */
  predicate Less(a: Average, b: Average)
  {
    match (a, b)
    case (Finite(x), Finite(y)) => x < y
    case (Finite(_), Infinity) => true
    case (Infinity, _) => false
  }

  /** `multiplayerCoach`: the player with the strictly smaller average
      leads; otherwise it is a tie. */
  function MultiplayerCoach(p1: seq<int>, p2: seq<int>): Standing
  {
    var a1, a2 := AverageOf(p1), AverageOf(p2);
    if Less(a1, a2) then Player1Leads
    else if Less(a2, a1) then Player2Leads
    else Tie
  }

  /** `s1 / n1 < s2 / n2` for positive counts, stated without division. */
  lemma MeansCompare(s1: int, n1: int, s2: int, n2: int)
    requires n1 > 0 && n2 > 0
    ensures s1 as real / n1 as real < s2 as real / n2 as real <==> s1 * n2 < s2 * n1
  {
    var q1, q2 := s1 as real / n1 as real, s2 as real / n2 as real;
    var k := n1 as real * n2 as real;
    assert q1 * k == s1 as real * n2 as real;
    assert q2 * k == s2 as real * n1 as real;
    if q1 < q2 {
      assert q1 * k < q2 * k;
    } else {
      assert q1 * k >= q2 * k;
    }
  }

  /** The outcome in terms of sums and counts: a player with results leads
      an opponent without any or with a strictly larger average; two empty
      lists and equal averages are a tie. */
  lemma MultiplayerStanding(p1: seq<int>, p2: seq<int>)
    ensures MultiplayerCoach(p1, p2) == Player1Leads <==>
      p1 != [] && (p2 == [] || Sum(p1) * |p2| < Sum(p2) * |p1|)
    ensures MultiplayerCoach(p1, p2) == Player2Leads <==>
      p2 != [] && (p1 == [] || Sum(p2) * |p1| < Sum(p1) * |p2|)
    ensures MultiplayerCoach(p1, p2) == Tie <==>
      (p1 == [] && p2 == []) || (p1 != [] && p2 != [] && Sum(p1) * |p2| == Sum(p2) * |p1|)
  {
    if p1 != [] && p2 != [] {
      MeansCompare(Sum(p1), |p1|, Sum(p2), |p2|);
      MeansCompare(Sum(p2), |p2|, Sum(p1), |p1|);
    }
  }

  /** Swapping the players swaps the leader and keeps a tie. */
  lemma MultiplayerSymmetric(p1: seq<int>, p2: seq<int>)
    ensures MultiplayerCoach(p2, p1) ==
      match MultiplayerCoach(p1, p2)
      case Player1Leads => Player2Leads
      case Player2Leads => Player1Leads
      case Tie => Tie
  {
  }
}
