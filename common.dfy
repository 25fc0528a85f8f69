/** Values shared by the server and browser parts of the reaction game:
    optional values, best reaction times, the per-press attempt records the
    browser keeps, JavaScript's `slice(-n)` and `Math.round`, and the one
    localStorage key the browser code writes. */
module Common {

  datatype Option<+T> = None | Some(value: T)

  datatype Result<+T, +E> = Ok(value: T) | Err(error: E)

  /** What a server's `handle_button_press` reports: the error reply when no
      round is waiting for a press, otherwise the reaction time in
      milliseconds and whether the pressed button was the target. */
  datatype PressResult = NotWaiting | Handled(reaction: int, correct: bool)

  // ---------------------------------------------------------------------
  // Best reaction times
  // ---------------------------------------------------------------------

  /** A best (smallest) reaction time in milliseconds. `Unset` stands for
      Python's `None`, JavaScript's `null` and JavaScript's `Infinity`: every
      copy of the game treats "no best yet" as +infinity. */
  datatype BestTime = Unset | Ms(ms: int)

  /** `b <= c` in the order where `Unset` is +infinity. */
  predicate AtMost(b: BestTime, c: BestTime)
  {
    c.Unset? || (b.Ms? && b.ms <= c.ms)
  }

  /** The guard every copy of the game uses before recording a new best:
      "best is None (or Infinity) or t < best". */
  predicate Beats(t: int, b: BestTime)
  {
    b.Unset? || t < b.ms
  }

  /** The best time after a correct reaction of `t` ms: the smaller of the
      two, `Unset` counting as +infinity. */
  function Improve(b: BestTime, t: int): (r: BestTime)
    ensures r.Ms? && r.ms <= t
    ensures AtMost(r, b)
    ensures r == b || r == Ms(t)
  {
    if Beats(t, b) then Ms(t) else b
  }

  /** The smallest of `ts` (JavaScript's `Math.min(...ts)`), `Unset` when
      `ts` is empty. */
  function MinOf(ts: seq<int>): (r: BestTime)
    ensures r.Unset? <==> ts == []
    ensures r.Ms? ==> r.ms in ts
    ensures forall i :: 0 <= i < |ts| ==> AtMost(r, Ms(ts[i]))
  {
    if ts == [] then Unset else Improve(MinOf(ts[..|ts| - 1]), ts[|ts| - 1])
  }

  /** `b` is the smallest of `ts`, `Unset` for none: stated without
      recursion. */
  predicate IsMinimum(b: BestTime, ts: seq<int>)
  {
    && (b.Unset? <==> ts == [])
    && (b.Ms? ==> b.ms in ts)
    && (forall i :: 0 <= i < |ts| ==> AtMost(b, Ms(ts[i])))
  }

  /** `MinOf` computes the one best time that is the minimum. */
  lemma MinimumIsMinOf(b: BestTime, ts: seq<int>)
    ensures IsMinimum(b, ts) <==> b == MinOf(ts)
  {
    var m := MinOf(ts);
    if IsMinimum(b, ts) && b.Ms? {
      var i :| 0 <= i < |ts| && ts[i] == b.ms;
      var j :| 0 <= j < |ts| && ts[j] == m.ms;
      assert AtMost(b, Ms(ts[j])) && AtMost(m, Ms(ts[i]));
    }
  }

  /** A new time `t` turns the minimum of `ts` into the minimum of `ts + [t]`. */
  lemma ImproveIsMinimum(b: BestTime, ts: seq<int>, t: int)
    requires IsMinimum(b, ts)
    ensures IsMinimum(Improve(b, t), ts + [t])
  {
    var ts' := ts + [t];
    forall i | 0 <= i < |ts'|
      ensures AtMost(Improve(b, t), Ms(ts'[i]))
    {
      if i < |ts| {
        assert ts'[i] == ts[i];
      }
    }
  }

  /** Recording one more time keeps the best equal to the minimum of all
      recorded times. */
  lemma MinOfAppend(ts: seq<int>, t: int)
    ensures MinOf(ts + [t]) == Improve(MinOf(ts), t)
  {
    assert (ts + [t])[..|ts|] == ts;
  }

  /** The minimum of a longer history is never worse than that of a part of
      it: removing times cannot make the best smaller. */
  lemma MinOfSubset(small: seq<int>, big: seq<int>)
    requires forall t :: t in small ==> t in big
    ensures AtMost(MinOf(big), MinOf(small))
  {
    var m := MinOf(small);
    if m.Ms? {
      var i :| 0 <= i < |big| && big[i] == m.ms;
      assert AtMost(MinOf(big), Ms(big[i]));
    }
  }

  // ---------------------------------------------------------------------
  // Attempt records kept by the browser game
  // ---------------------------------------------------------------------

  datatype Status = Correct | Wrong

  /** A reaction time, or the placeholder string "-" stored for a wrong press. */
  datatype Reaction = Timed(ms: int) | Dash

  /** One entry of `sessionResults`: `{round, reactionTime, status, points}`. */
  datatype Attempt = Attempt(round: int, reaction: Reaction, status: Status, points: int)

  /** `results.filter(r => r.reactionTime !== "-").map(r => r.reactionTime)`. */
  function ValidTimes(h: seq<Attempt>): (ts: seq<int>)
    ensures |ts| <= |h|
    ensures forall i :: 0 <= i < |h| && h[i].reaction.Timed? ==> h[i].reaction.ms in ts
  {
    if h == [] then []
    else
      var init := ValidTimes(h[..|h| - 1]);
      var last := h[|h| - 1];
      assert forall i :: 0 <= i < |h| - 1 ==> h[..|h| - 1][i] == h[i];
      if last.reaction.Timed? then init + [last.reaction.ms] else init
  }

  /** Every valid time is the reaction time of some record. */
  lemma {:induction false} ValidTimesFromRecords(h: seq<Attempt>)
    ensures forall t :: t in ValidTimes(h) ==> exists i :: 0 <= i < |h| && h[i].reaction == Timed(t)
  {
    if h != [] {
      var init := h[..|h| - 1];
      ValidTimesFromRecords(init);
      forall t | t in ValidTimes(h)
        ensures exists i :: 0 <= i < |h| && h[i].reaction == Timed(t)
      {
        if t in ValidTimes(init) {
          var i :| 0 <= i < |init| && init[i].reaction == Timed(t);
          assert h[i] == init[i];
        } else {
          assert h[|h| - 1].reaction == Timed(t);
        }
      }
    }
  }

  /** One more record adds its time, if it has one, after the earlier times. */
  lemma ValidTimesAppend(h: seq<Attempt>, a: Attempt)
    ensures ValidTimes(h + [a]) == ValidTimes(h) + (if a.reaction.Timed? then [a.reaction.ms] else [])
  {
    assert (h + [a])[..|h|] == h;
  }

  /** Dropping older records keeps only times the full history had. */
  lemma ValidTimesOfSuffix(h: seq<Attempt>, k: nat)
    requires k <= |h|
    ensures forall t :: t in ValidTimes(h[k..]) ==> t in ValidTimes(h)
  {
    ValidTimesFromRecords(h[k..]);
    forall t | t in ValidTimes(h[k..])
      ensures t in ValidTimes(h)
    {
      var i :| 0 <= i < |h[k..]| && h[k..][i].reaction == Timed(t);
      assert h[k + i] == h[k..][i];
    }
  }

  /** Every record with a time has a time that `seen` holds: the high
      score, taken over `seen`, is never worse than any of them. */
  predicate TimesSeen(h: seq<Attempt>, seen: seq<int>)
  {
    forall i :: 0 <= i < |h| && h[i].reaction.Timed? ==> h[i].reaction.ms in seen
  }

  /** The records' own valid times cover them. */
  lemma TimesSeenInValidTimes(h: seq<Attempt>)
    ensures TimesSeen(h, ValidTimes(h))
  {
  }

  /** Keeping the last records keeps them covered. */
  lemma TimesSeenLast(h: seq<Attempt>, n: nat, seen: seq<int>)
    requires TimesSeen(h, seen)
    ensures TimesSeen(Last(h, n), seen)
  {
    var kept := Last(h, n);
    forall i | 0 <= i < |kept| && kept[i].reaction.Timed?
      ensures kept[i].reaction.ms in seen
    {
      assert kept[i] == h[|h| - |kept| + i];
    }
  }

  /** Appending a record whose time, if any, is the newest seen time keeps
      the records covered. */
  lemma TimesSeenAppend(h: seq<Attempt>, seen: seq<int>, a: Attempt, extra: seq<int>)
    requires TimesSeen(h, seen)
    requires a.reaction.Timed? ==> a.reaction.ms in extra
    ensures TimesSeen(h + [a], seen + extra)
  {
    var h' := h + [a];
    forall i | 0 <= i < |h'| && h'[i].reaction.Timed?
      ensures h'[i].reaction.ms in seen + extra
    {
      if i < |h| {
        assert h'[i] == h[i];
      }
    }
  }

  /** Number of records with the given status. */
  function Count(h: seq<Attempt>, s: Status): (n: nat)
    ensures n <= |h|
  {
    if h == [] then 0
    else (if h[|h| - 1].status == s then 1 else 0) + Count(h[..|h| - 1], s)
  }

  /** Every record is either "Correct" or "Wrong", so the two counts add up
      to the length of the history. */
  lemma {:induction false} CountsPartition(h: seq<Attempt>)
    ensures Count(h, Correct) + Count(h, Wrong) == |h|
  {
    if h != [] {
      CountsPartition(h[..|h| - 1]);
    }
  }

  /** `ts.reduce((a, b) => a + b, 0)` */
  function Sum(ts: seq<int>): int
  {
    if ts == [] then 0 else Sum(ts[..|ts| - 1]) + ts[|ts| - 1]
  }

  /** A sum of values between `lo` and `hi` lies between `n * lo` and
      `n * hi`, so their mean lies between `lo` and `hi`. */
  lemma {:induction false} SumBounds(ts: seq<int>, lo: int, hi: int)
    requires forall i :: 0 <= i < |ts| ==> lo <= ts[i] <= hi
    ensures |ts| * lo <= Sum(ts) <= |ts| * hi
  {
    if ts != [] {
      SumBounds(ts[..|ts| - 1], lo, hi);
      assert |ts| * lo == (|ts| - 1) * lo + lo;
      assert |ts| * hi == (|ts| - 1) * hi + hi;
    }
  }

  // ---------------------------------------------------------------------
  // JavaScript helpers
  // ---------------------------------------------------------------------

  /** `s.slice(-n)` for n > 0: the last `n` elements of `s`, all of `s` when it
      is shorter. */
  function Last<T>(s: seq<T>, n: nat): (r: seq<T>)
    ensures |r| <= n && |r| <= |s|
    ensures |s| <= n ==> r == s
  {
    if |s| <= n then s else s[|s| - n..]
  }

  /** What is kept is the suffix of `s` of length `min(n, |s|)`. */
  lemma LastIsSuffix<T>(s: seq<T>, n: nat)
    ensures |Last(s, n)| == if |s| <= n then |s| else n
    ensures Last(s, n) == s[|s| - |Last(s, n)|..]
  {
  }

  /** Keeping the last `n` of an already trimmed history and then adding one
      record keeps the same records as trimming the untrimmed history. */
  lemma {:induction false} LastAppend<T>(s: seq<T>, x: T, n: nat)
    requires n > 0
    ensures Last(Last(s, n) + [x], n) == Last(s + [x], n)
  {
    if |s| > n {
      assert Last(s, n) + [x] == (s + [x])[|s| - n..];
      assert (s + [x])[|s| - n..][1..] == (s + [x])[|s| + 1 - n..];
    }
  }

  /** Trimming an already trimmed list to the same length keeps it. */
  lemma LastIdempotent<T>(s: seq<T>, n: nat)
    ensures Last(Last(s, n), n) == Last(s, n)
  {
  }

  /** `Math.round(a / b)` for b > 0, also `(a / b).toFixed(0)` read back as a
      number: the integer nearest to a/b, halves rounded up. */
  function RoundHalfUp(a: int, b: int): (r: int)
    requires b > 0
    ensures 2 * a - b < 2 * b * r <= 2 * a + b
  {
    (2 * a + b) / (2 * b)
  }

  /** Rounding a quotient keeps it within bounds that hold for the quotient:
      if lo <= a/b <= hi then lo <= round(a/b) <= hi. */
  lemma RoundHalfUpBetween(a: int, b: int, lo: int, hi: int)
    requires b > 0
    requires b * lo <= a <= b * hi
    ensures lo <= RoundHalfUp(a, b) <= hi
  {
    var r := RoundHalfUp(a, b);
    if r < lo {
      assert 2 * b * r <= 2 * b * (lo - 1) by {
        assert r <= lo - 1;
        MulMonotone(2 * b, r, lo - 1);
      }
      assert false;
    }
    if r > hi {
      assert 2 * b * (hi + 1) <= 2 * b * r by {
        MulMonotone(2 * b, hi + 1, r);
      }
      assert false;
    }
  }

  lemma MulMonotone(k: int, x: int, y: int)
    requires k >= 0 && x <= y
    ensures k * x <= k * y
  {
    assert k * y - k * x == k * (y - x);
  }

  /** `(sum / n).toFixed(2)` of the valid times, in hundredths: the mean
      to the nearest hundredth, `None` (no average) without any time. */
  function MeanHundredths(h: seq<Attempt>): (r: Option<int>)
    ensures r.None? <==> ValidTimes(h) == []
    ensures r.Some? ==>
      var ts := ValidTimes(h);
      200 * Sum(ts) - |ts| < 2 * |ts| * r.value <= 200 * Sum(ts) + |ts|
  {
    var ts := ValidTimes(h);
    if ts == [] then None else Some(RoundHalfUp(100 * Sum(ts), |ts|))
  }

  // ---------------------------------------------------------------------
  // localStorage["reactionGameAttempts"]
  // ---------------------------------------------------------------------

  /** The browser's localStorage entry "reactionGameAttempts", holding the
      JSON list of recent attempts; `None` while the key is absent. */
  class BrowserStorage {
    var saved: Option<seq<Attempt>>

    constructor (initial: Option<seq<Attempt>>)
      ensures saved == initial
    {
      saved := initial;
    }

    /** `JSON.parse(localStorage.getItem(key) || "[]")`. */
    function Read(): (r: seq<Attempt>)
      reads this
      ensures saved.None? ==> r == []
      ensures saved.Some? ==> r == saved.value
    {
      if saved.Some? then saved.value else []
    }

    /** `localStorage.setItem(key, JSON.stringify(value))`. */
    method Write(value: seq<Attempt>)
      modifies this
      ensures saved == Some(value)
    {
      saved := Some(value);
    }
  }
}
