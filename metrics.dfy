/** The browser's live metrics (`Metrics`) and attempt persistence
    (`Storage`): the best time of a session, the correct and wrong counts,
    the average-time display with its colour class, and the last 20
    attempts kept in localStorage. */
module Metrics {
  import opened Common

  const StoredLimit: nat := 20

  /** `Metrics.calculateHighScore`: the smallest reaction time of a record
      that has one, `Unset` (Infinity) when no record has one. */
  function CalculateHighScore(h: seq<Attempt>): (r: BestTime)
    ensures r.Unset? <==> forall i :: 0 <= i < |h| ==> h[i].reaction.Dash?
    ensures r.Ms? ==> exists i :: 0 <= i < |h| && h[i].reaction == Timed(r.ms)
    ensures forall i :: 0 <= i < |h| && h[i].reaction.Timed? ==> AtMost(r, Ms(h[i].reaction.ms))
  {
    var ts := ValidTimes(h);
    ValidTimesFromRecords(h);
    assert ts != [] ==> ts[0] in ts;
    MinOf(ts)
  }

  /** The high score of a list of records is the minimum of its valid
      times, and those times cover every timed record. */
  lemma HighScoreIsMinimum(h: seq<Attempt>)
    ensures IsMinimum(CalculateHighScore(h), ValidTimes(h))
    ensures TimesSeen(h, ValidTimes(h))
  {
    MinimumIsMinOf(CalculateHighScore(h), ValidTimes(h));
    TimesSeenInValidTimes(h);
  }

  /** The colour class `updateAverageTime` gives the average. */
  datatype SpeedClass = Fast | Plain | Slow

  /** The text of the average-time metric: "-", or the rounded average in
      milliseconds with its class. */
  datatype AverageText = NoAverage | Average(ms: int, cls: SpeedClass)

  /** `Metrics.updateAverageTime` on the records of a session: the mean of
      the valid times rounded by `toFixed(0)`, "fast" below 300 and "slow"
      above 500 (the rounded string compared with a number). */
  function AverageTime(h: seq<Attempt>): (r: AverageText)
    ensures r.NoAverage? <==> ValidTimes(h) == []
    ensures r.Average? ==> r.ms == RoundHalfUp(Sum(ValidTimes(h)), |ValidTimes(h)|)
  {
    var ts := ValidTimes(h);
    if ts == [] then NoAverage
    else
      var avg := RoundHalfUp(Sum(ts), |ts|);
      Average(avg, if avg < 300 then Fast else if avg > 500 then Slow else Plain)
  }

  /** The class, stated on the exact mean `sum / n` of the valid times
      rather than on its rounding: "fast" exactly when the mean is below
      299.5, "slow" exactly when it is at least 500.5. */
  lemma AverageClassExact(h: seq<Attempt>)
    requires ValidTimes(h) != []
    ensures var ts := ValidTimes(h);
      && (AverageTime(h).cls == Fast <==> 2 * Sum(ts) < 599 * |ts|)
      && (AverageTime(h).cls == Slow <==> 2 * Sum(ts) >= 1001 * |ts|)
  {
    var ts := ValidTimes(h);
    var a, b := Sum(ts), |ts|;
    var r := RoundHalfUp(a, b);
    if r < 300 {
      MulMonotone(2 * b, r, 299);
    } else {
      MulMonotone(2 * b, 300, r);
    }
    if r > 500 {
      MulMonotone(2 * b, 501, r);
    } else {
      MulMonotone(2 * b, r, 500);
    }
  }

  /** The two counters of `updateLiveMetrics` split the session: every
      record is counted exactly once. */
  lemma CountsCoverSession(h: seq<Attempt>)
    ensures Count(h, Correct) + Count(h, Wrong) == |h|
    ensures Count(h, Correct) <= |h| && Count(h, Wrong) <= |h|
  {
    CountsPartition(h);
  }

  // ---------------------------------------------------------------------
  // Storage
  // ---------------------------------------------------------------------

  /** `Storage.loadStoredAttempts`: at most the last 20 stored attempts, in
      their stored order; nothing when the key is absent. */
  function LoadStoredAttempts(st: BrowserStorage): (r: seq<Attempt>)
    reads st
    ensures |r| <= StoredLimit
    ensures st.saved.None? ==> r == []
    ensures st.saved.Some? ==> |r| <= |st.saved.value|
    ensures st.saved.Some? ==> r == st.saved.value[|st.saved.value| - |r|..]
    ensures st.saved.Some? && |st.saved.value| <= StoredLimit ==> r == st.saved.value
  {
    var stored := st.Read();
    if |stored| > 0 then Last(stored, StoredLimit) else []
  }

  /** `Storage.initializeFromStorage` hands back exactly what
      `loadStoredAttempts` read. */
  function InitializeFromStorage(st: BrowserStorage): (r: seq<Attempt>)
    reads st
    ensures r == LoadStoredAttempts(st)
  {
    var stored := LoadStoredAttempts(st);
    if |stored| > 0 then stored else []
  }

  /** `Storage.saveRecentAttempts`: store the last 20 records of the
      session. */
  method SaveRecentAttempts(st: BrowserStorage, h: seq<Attempt>)
    modifies st
    ensures st.saved == Some(Last(h, StoredLimit))
  {
    st.Write(Last(h, StoredLimit));
  }

  /** Loading what `saveRecentAttempts` stored gives back the saved
      records. */
  lemma LoadAfterSave(st: BrowserStorage, h: seq<Attempt>)
    requires st.saved == Some(Last(h, StoredLimit))
    ensures LoadStoredAttempts(st) == Last(h, StoredLimit)
  {
    LastIdempotent(h, StoredLimit);
  }

  /** Saving a longer session after a shorter one keeps the same window as
      saving the longer one from scratch. */
  lemma SavedWindowSlides(h: seq<Attempt>, a: Attempt)
    ensures Last(Last(h, StoredLimit) + [a], StoredLimit) == Last(h + [a], StoredLimit)
  {
    LastAppend(h, a, StoredLimit);
  }
}
