/** The leaderboard query of `GET /api/leaderboard` in the hardware-enabled
    server: keep the rows of one game mode, sort them with Python's stable
    `list.sort` (descending score for "time_attack", ascending average time
    otherwise, a missing average counting as infinity), then slice
    `[:limit]`. */
module Ranking {
  import opened Common
  import opened ScoreEntries

  const TimeAttack: string := "time_attack"

  /** A sort key: a number, or `float('inf')` for a row without `avgTime`. */
  datatype SortKey = Key(v: real) | Infinite

  predicate KeyLess(a: SortKey, b: SortKey)
  {
    a.Key? && (b.Infinite? || a.v < b.v)
  }

  predicate KeyAtMost(a: SortKey, b: SortKey)
  {
    !KeyLess(b, a)
  }

  /** `x.get('score', 0)` */
  function ScoreOf(e: Entry): int
  {
    OrElse(e.score, 0)
  }

  /** `x.get('avgTime', float('inf'))` */
  function AvgKey(e: Entry): SortKey
  {
    if e.avgTime.Some? then Key(e.avgTime.value) else Infinite
  }

  /** The key the rows of `mode` are sorted on, ascending. Sorting with
      `reverse=True` on the score is ascending on the negated score: Python's
      sort stays stable when reversed, so equal scores keep their order in
      both readings. */
  function RankKey(mode: string, e: Entry): SortKey
  {
    if mode == TimeAttack then Key(-(ScoreOf(e) as real)) else AvgKey(e)
  }

  /** Neighbours are in key order. */
  predicate Ordered(mode: string, s: seq<Entry>)
  {
    forall i :: 0 < i < |s| ==> KeyAtMost(RankKey(mode, s[i - 1]), RankKey(mode, s[i]))
  }

  /** Every pair is in key order. */
  predicate OrderedPairs(mode: string, s: seq<Entry>)
  {
    forall i, j :: 0 <= i < j < |s| ==> KeyAtMost(RankKey(mode, s[i]), RankKey(mode, s[j]))
  }

  lemma {:induction false} OrderedAllPairs(mode: string, s: seq<Entry>)
    requires Ordered(mode, s)
    ensures OrderedPairs(mode, s)
  {
    if |s| > 1 {
      OrderedAllPairs(mode, s[1..]);
      forall j | 1 <= j < |s|
        ensures KeyAtMost(RankKey(mode, s[0]), RankKey(mode, s[j]))
      {
        assert s[1..][j - 1] == s[j];
        if j > 1 {
          assert s[1..][0] == s[1];
        }
      }
      forall i, j | 0 <= i < j < |s|
        ensures KeyAtMost(RankKey(mode, s[i]), RankKey(mode, s[j]))
      {
        if i > 0 {
          assert s[1..][i - 1] == s[i] && s[1..][j - 1] == s[j];
        }
      }
    }
  }

  /** The rows of `s` whose key is `k`, in their order in `s`. Sorting is
      stable exactly when it leaves this sequence alone for every `k`. */
  function WithKey(mode: string, s: seq<Entry>, k: SortKey): (r: seq<Entry>)
    ensures |r| <= |s|
  {
    if s == [] then []
    else (if RankKey(mode, s[0]) == k then [s[0]] else []) + WithKey(mode, s[1..], k)
  }

  // ---------------------------------------------------------------------
  // Stable insertion sort
  // ---------------------------------------------------------------------

  /** Insert `x` in front of the first row that does not rank strictly
      before it, so that `x` precedes the rows it ties with. */
  function Insert(mode: string, x: Entry, t: seq<Entry>): (r: seq<Entry>)
    ensures multiset(r) == multiset(t) + multiset{x}
    ensures |r| == |t| + 1
    ensures r[0] == x || (t != [] && r[0] == t[0])
  {
    if t == [] then [x]
    else if KeyLess(RankKey(mode, t[0]), RankKey(mode, x)) then
      var rest := Insert(mode, x, t[1..]);
      assert t == [t[0]] + t[1..];
      [t[0]] + rest
    else [x] + t
  }

  /** Inserting into an ordered sequence keeps it ordered. */
  lemma {:induction false} InsertOrdered(mode: string, x: Entry, t: seq<Entry>)
    requires Ordered(mode, t)
    ensures Ordered(mode, Insert(mode, x, t))
  {
    if t != [] && KeyLess(RankKey(mode, t[0]), RankKey(mode, x)) {
      var rest := Insert(mode, x, t[1..]);
      InsertOrdered(mode, x, t[1..]);
      var r := [t[0]] + rest;
      assert Insert(mode, x, t) == r;
      forall i | 0 < i < |r|
        ensures KeyAtMost(RankKey(mode, r[i - 1]), RankKey(mode, r[i]))
      {
        if i > 1 {
          assert r[i - 1] == rest[i - 2] && r[i] == rest[i - 1];
        }
      }
    }
  }

  /** `list.sort(key=...)` on the rank key: a stable sort. */
  function StableSort(mode: string, s: seq<Entry>): (r: seq<Entry>)
    ensures multiset(r) == multiset(s)
    ensures Ordered(mode, r)
  {
    if s == [] then []
    else
      assert s == [s[0]] + s[1..];
      var sorted := StableSort(mode, s[1..]);
      InsertOrdered(mode, s[0], sorted);
      Insert(mode, s[0], sorted)
  }

  /** The rows with key `k` of a sequence with one row in front. */
  lemma WithKeyCons(mode: string, e: Entry, s: seq<Entry>, k: SortKey)
    ensures WithKey(mode, [e] + s, k)
      == (if RankKey(mode, e) == k then [e] else []) + WithKey(mode, s, k)
  {
    assert ([e] + s)[1..] == s;
  }

  /** One step of insertion: a row ranking strictly before `x` passes in
      front of it without changing the order of any key's rows. */
  lemma InsertStableStep(mode: string, x: Entry, first: Entry, others: seq<Entry>, rest: seq<Entry>, k: SortKey)
    requires KeyLess(RankKey(mode, first), RankKey(mode, x))
    requires WithKey(mode, rest, k) == WithKey(mode, [x] + others, k)
    ensures WithKey(mode, [first] + rest, k) == WithKey(mode, [x] + ([first] + others), k)
  {
    WithKeyCons(mode, first, rest, k);
    WithKeyCons(mode, x, others, k);
    WithKeyCons(mode, x, [first] + others, k);
    WithKeyCons(mode, first, others, k);
  }

  /** Inserting `x` keeps the rows of every key in the order they have
      with `x` put in front. */
  lemma {:induction false} InsertStable(mode: string, x: Entry, t: seq<Entry>, k: SortKey)
    ensures WithKey(mode, Insert(mode, x, t), k) == WithKey(mode, [x] + t, k)
  {
    if t != [] && KeyLess(RankKey(mode, t[0]), RankKey(mode, x)) {
      InsertStable(mode, x, t[1..], k);
      assert t == [t[0]] + t[1..];
      InsertStableStep(mode, x, t[0], t[1..], Insert(mode, x, t[1..]), k);
    }
  }

  /** Rows with equal keys leave the sort in the order they came in. */
  lemma {:induction false} SortStable(mode: string, s: seq<Entry>, k: SortKey)
    ensures WithKey(mode, StableSort(mode, s), k) == WithKey(mode, s, k)
  {
    if s != [] {
      SortStable(mode, s[1..], k);
      InsertStable(mode, s[0], StableSort(mode, s[1..]), k);
      assert ([s[0]] + StableSort(mode, s[1..]))[1..] == StableSort(mode, s[1..]);
    }
  }

  // ---------------------------------------------------------------------
  // Filter, slice, query
  // ---------------------------------------------------------------------

  /** `[s for s in all_scores if s.get('gameMode') == game_mode]` */
  function OfMode(all: seq<Entry>, mode: string): (r: seq<Entry>)
    ensures |r| <= |all|
    ensures forall e :: e in r <==> e in all && e.gameMode == Some(mode)
  {
    if all == [] then []
    else (if all[0].gameMode == Some(mode) then [all[0]] else []) + OfMode(all[1..], mode)
  }

  /** Python's `s[:limit]`: the first `limit` elements, or for a negative
      `limit` all but the last `-limit`. */
  function PySlice<T>(s: seq<T>, limit: int): (r: seq<T>)
    ensures r <= s
    ensures limit >= 0 ==> |r| == if limit < |s| then limit else |s|
    ensures limit < 0 ==> |r| == if |s| + limit > 0 then |s| + limit else 0
  {
    if limit >= 0 then (if limit < |s| then s[..limit] else s)
    else if |s| + limit > 0 then s[..|s| + limit] else []
  }

  datatype QueryResult = QueryResult(scores: seq<Entry>, total: int)

  /** The body of `get_leaderboard` after loading: `scores` is
      `mode_scores[:limit]` and `total` is `len(mode_scores)`. */
  function Query(all: seq<Entry>, mode: string, limit: int): QueryResult
  {
    var matching := OfMode(all, mode);
    QueryResult(PySlice(StableSort(mode, matching), limit), |matching|)
  }

  lemma {:induction false} WithKeyPrefix(mode: string, p: seq<Entry>, s: seq<Entry>, k: SortKey)
    requires p <= s
    ensures WithKey(mode, p, k) <= WithKey(mode, s, k)
  {
    if p != [] {
      assert p[1..] <= s[1..];
      WithKeyPrefix(mode, p[1..], s[1..], k);
    }
  }

  /** What a leaderboard query returns: only rows of the requested mode;
      the best first (non-increasing score for "time_attack", otherwise
      non-decreasing average with missing averages last); at most `limit`
      rows for a non-negative limit and all of them when the limit is large
      enough; rows that tie keep their stored order; and `total` counts
      every stored row of the mode. */
  lemma QueryRanks(all: seq<Entry>, mode: string, limit: int)
    ensures var q := Query(all, mode, limit);
      && q.total == |OfMode(all, mode)|
      && (forall e :: e in q.scores ==> e in all && e.gameMode == Some(mode))
      && multiset(q.scores) <= multiset(OfMode(all, mode))
      && (limit >= 0 ==> |q.scores| == if limit < q.total then limit else q.total)
      && (limit >= q.total ==> multiset(q.scores) == multiset(OfMode(all, mode)))
      && (mode == TimeAttack ==>
            forall i, j :: 0 <= i < j < |q.scores| ==> ScoreOf(q.scores[i]) >= ScoreOf(q.scores[j]))
      && (mode != TimeAttack ==>
            forall i, j :: 0 <= i < j < |q.scores| ==> KeyAtMost(AvgKey(q.scores[i]), AvgKey(q.scores[j])))
      && (forall k :: WithKey(mode, q.scores, k) <= WithKey(mode, OfMode(all, mode), k))
      && (forall e, i :: e in OfMode(all, mode) && e !in q.scores && 0 <= i < |q.scores| ==>
            KeyAtMost(RankKey(mode, q.scores[i]), RankKey(mode, e)))
  {
    var matching := OfMode(all, mode);
    var sorted := StableSort(mode, matching);
    var scores := PySlice(sorted, limit);
    SortedPrefix(mode, matching, scores);
    PrefixIsBest(mode, matching, scores);
    if limit >= |matching| {
      assert scores == sorted;
    }
  }

  /** A prefix of the sorted rows: rows of the input, in key order, and no
      more rows of any key than the input has, in their input order. */
  lemma SortedPrefix(mode: string, s: seq<Entry>, p: seq<Entry>)
    requires p <= StableSort(mode, s)
    ensures multiset(p) <= multiset(s)
    ensures forall e :: e in p ==> e in s
    ensures forall i, j :: 0 <= i < j < |p| ==> KeyAtMost(RankKey(mode, p[i]), RankKey(mode, p[j]))
    ensures forall k :: WithKey(mode, p, k) <= WithKey(mode, s, k)
  {
    var sorted := StableSort(mode, s);
    PrefixRows(sorted, p);
    PrefixOrdered(mode, sorted, p);
    forall e | e in p
      ensures e in s
    {
      assert e in multiset(sorted);
      assert e in multiset(s);
    }
    forall k
      ensures WithKey(mode, p, k) <= WithKey(mode, s, k)
    {
      WithKeyPrefix(mode, p, sorted, k);
      SortStable(mode, s, k);
    }
  }

  /** A prefix of the sorted rows holds the best ones: every row of the
      input left out of it ranks no better than any row in it. */
  lemma PrefixIsBest(mode: string, s: seq<Entry>, p: seq<Entry>)
    requires p <= StableSort(mode, s)
    ensures forall e, i :: e in s && e !in p && 0 <= i < |p| ==>
      KeyAtMost(RankKey(mode, p[i]), RankKey(mode, e))
  {
    var sorted := StableSort(mode, s);
    OrderedAllPairs(mode, sorted);
    forall e, i | e in s && e !in p && 0 <= i < |p|
      ensures KeyAtMost(RankKey(mode, p[i]), RankKey(mode, e))
    {
      assert e in multiset(s);
      assert e in multiset(sorted);
      var j :| 0 <= j < |sorted| && sorted[j] == e;
      assert p[i] == sorted[i];
    }
  }

  /** A prefix holds part of the multiset of the whole. */
  lemma PrefixRows<T>(s: seq<T>, p: seq<T>)
    requires p <= s
    ensures multiset(p) <= multiset(s)
    ensures forall e :: e in p ==> e in s
  {
    assert s == p + s[|p|..];
    assert multiset(s) == multiset(p) + multiset(s[|p|..]);
  }

  /** A prefix of an ordered sequence has every pair in key order. */
  lemma PrefixOrdered(mode: string, s: seq<Entry>, p: seq<Entry>)
    requires Ordered(mode, s) && p <= s
    ensures forall i, j :: 0 <= i < j < |p| ==> KeyAtMost(RankKey(mode, p[i]), RankKey(mode, p[j]))
  {
    OrderedAllPairs(mode, s);
    forall i, j | 0 <= i < j < |p|
      ensures KeyAtMost(RankKey(mode, p[i]), RankKey(mode, p[j]))
    {
      assert p[i] == s[i] && p[j] == s[j];
    }
  }

  /** For "time_attack" the query starts with a highest score of the mode:
      no row of the mode has a higher score than the first one returned. */
  lemma TopScoreFirst(all: seq<Entry>, limit: int, e: Entry)
    requires limit > 0
    requires e in all && e.gameMode == Some(TimeAttack)
    ensures Query(all, TimeAttack, limit).scores != []
    ensures ScoreOf(Query(all, TimeAttack, limit).scores[0]) >= ScoreOf(e)
  {
    var matching := OfMode(all, TimeAttack);
    var sorted := StableSort(TimeAttack, matching);
    assert e in multiset(sorted);
    var j :| 0 <= j < |sorted| && sorted[j] == e;
    OrderedAllPairs(TimeAttack, sorted);
    if j > 0 {
      assert KeyAtMost(RankKey(TimeAttack, sorted[0]), RankKey(TimeAttack, sorted[j]));
    }
  }
}
