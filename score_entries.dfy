/** Leaderboard entries as the two Flask servers build and store them, the
    request body they are built from, and the small string operations the
    servers apply: Python's `str.strip()`, slicing `[:n]`, and the
    `postgres://` to `postgresql://` rewrite of the database URL. */
module ScoreEntries {
  import opened Common

  // ---------------------------------------------------------------------
  // Python string helpers
  // ---------------------------------------------------------------------

  /** The characters for which Python's `str.isspace()` holds: the ones
      `str.strip()` removes when called without arguments. */
  const Whitespace: set<char> := {
    ' ', '\t', '\n', '\r', '\U{B}', '\U{C}', '\U{1C}', '\U{1D}', '\U{1E}', '\U{1F}',
    '\U{85}', '\U{A0}', '\U{1680}',
    '\U{2000}', '\U{2001}', '\U{2002}', '\U{2003}', '\U{2004}', '\U{2005}',
    '\U{2006}', '\U{2007}', '\U{2008}', '\U{2009}', '\U{200A}',
    '\U{2028}', '\U{2029}', '\U{202F}', '\U{205F}', '\U{3000}'
  }

  predicate IsSpace(c: char)
  {
    c in Whitespace
  }

  predicate AllSpace(s: string)
  {
    forall k :: 0 <= k < |s| ==> IsSpace(s[k])
  }

  /** Neither the first nor the last character is whitespace. */
  predicate NoOuterSpace(s: string)
  {
    s != [] ==> !IsSpace(s[0]) && !IsSpace(s[|s| - 1])
  }

  /** `s.lstrip()`: a suffix of `s` that does not start with whitespace. */
  function StripLeft(s: string): (r: string)
    ensures |r| <= |s| && r == s[|s| - |r|..]
    ensures r != [] ==> !IsSpace(r[0])
  {
    if s != [] && IsSpace(s[0]) then StripLeft(s[1..]) else s
  }

  /** `s.rstrip()`: a prefix of `s` that does not end with whitespace. */
  function StripRight(s: string): (r: string)
    ensures |r| <= |s| && r == s[..|r|]
    ensures r != [] ==> !IsSpace(r[|r| - 1])
  {
    if s != [] && IsSpace(s[|s| - 1]) then StripRight(s[..|s| - 1]) else s
  }

  /** What `lstrip()` removes is whitespace. */
  lemma {:induction false} StripLeftDropsSpace(s: string)
    ensures AllSpace(s[..|s| - |StripLeft(s)|])
  {
    if s != [] && IsSpace(s[0]) {
      StripLeftDropsSpace(s[1..]);
      var k := |s| - |StripLeft(s)|;
      forall m | 0 <= m < k
        ensures IsSpace(s[..k][m])
      {
        if m > 0 {
          assert s[..k][m] == s[1..][..k - 1][m - 1];
        }
      }
    }
  }

  /** What `rstrip()` removes is whitespace. */
  lemma {:induction false} StripRightDropsSpace(s: string)
    ensures AllSpace(s[|StripRight(s)|..])
  {
    if s != [] && IsSpace(s[|s| - 1]) {
      var init := s[..|s| - 1];
      StripRightDropsSpace(init);
      var k := |StripRight(s)|;
      forall m | 0 <= m < |s| - k
        ensures IsSpace(s[k..][m])
      {
        if k + m < |s| - 1 {
          assert s[k..][m] == init[k..][m];
        }
      }
    }
  }

  /** Python's `s.strip()`: `s` with its leading and trailing whitespace
      removed. The result is the slice `s[i..j]` whose outside is all
      whitespace and whose ends are not. */
  function Strip(s: string): (r: string)
    ensures exists i, j :: 0 <= i <= j <= |s| && r == s[i..j] && AllSpace(s[..i]) && AllSpace(s[j..])
    ensures NoOuterSpace(r)
  {
    var l := StripLeft(s);
    StripLeftDropsSpace(s);
    StripRightDropsSpace(l);
    TrimmedSlice(s, l, StripRight(l));
    StripRight(l)
  }

  /** Whitespace cut from the front of `s` and then from the back of what
      is left leaves a slice of `s` with only whitespace outside it. */
  lemma TrimmedSlice(s: string, l: string, r: string)
    requires |l| <= |s| && l == s[|s| - |l|..] && AllSpace(s[..|s| - |l|])
    requires |r| <= |l| && r == l[..|r|] && AllSpace(l[|r|..])
    ensures exists i, j :: 0 <= i <= j <= |s| && r == s[i..j] && AllSpace(s[..i]) && AllSpace(s[j..])
  {
    var i := |s| - |l|;
    PrefixOfSuffix(s, l, r);
    assert r == s[i..i + |r|] && AllSpace(s[..i]) && AllSpace(s[i + |r|..]);
  }

  /** A prefix `r` of a suffix `l` of `s` is a slice of `s`, and what
      follows it in `l` is what follows it in `s`. */
  lemma PrefixOfSuffix<T>(s: seq<T>, l: seq<T>, r: seq<T>)
    requires |l| <= |s| && l == s[|s| - |l|..]
    requires |r| <= |l| && r == l[..|r|]
    ensures r == s[|s| - |l|..|s| - |l| + |r|]
    ensures s[|s| - |l| + |r|..] == l[|r|..]
  {
  }

  /** Stripping is idempotent, and a string without outer whitespace is
      left as it is. */
  lemma StripKeepsClean(s: string)
    requires NoOuterSpace(s)
    ensures Strip(s) == s
  {
    assert StripLeft(s) == s;
  }

  lemma {:induction false} StripLeftSkips(left: string, x: string)
    requires AllSpace(left)
    ensures StripLeft(left + x) == StripLeft(x)
  {
    if left != [] {
      assert (left + x)[0] == left[0] && IsSpace(left[0]);
      assert (left + x)[1..] == left[1..] + x;
      assert StripLeft(left + x) == StripLeft((left + x)[1..]);
      assert AllSpace(left[1..]) by {
        forall k | 0 <= k < |left| - 1 ensures IsSpace(left[1..][k]) {
          assert left[1..][k] == left[k + 1];
        }
      }
      StripLeftSkips(left[1..], x);
    } else {
      assert left + x == x;
    }
  }

  lemma {:induction false} StripRightSkips(x: string, right: string)
    requires AllSpace(right)
    ensures StripRight(x + right) == StripRight(x)
  {
    if right != [] {
      var r' := right[..|right| - 1];
      assert (x + right)[|x + right| - 1] == right[|right| - 1];
      assert IsSpace(right[|right| - 1]);
      assert (x + right)[..|x + right| - 1] == x + r';
      assert StripRight(x + right) == StripRight((x + right)[..|x + right| - 1]);
      assert AllSpace(r') by {
        forall k | 0 <= k < |r'| ensures IsSpace(r'[k]) {
          assert r'[k] == right[k];
        }
      }
      StripRightSkips(x, r');
    } else {
      assert x + right == x;
    }
  }

  /** Blanks around a string without outer whitespace are exactly what
      `strip()` removes: "  Alice  " becomes "Alice", and an all-blank
      string becomes "". */
  lemma StripPadded(left: string, core: string, right: string)
    requires AllSpace(left) && AllSpace(right) && NoOuterSpace(core)
    ensures Strip(left + core + right) == core
  {
    assert left + core + right == left + (core + right);
    StripLeftSkips(left, core + right);
    if core != [] {
      StripCoreRight(core, right);
    } else {
      StripBlank(right);
    }
  }

  /** Trailing blanks after a string without outer whitespace are exactly
      what both strips remove. */
  lemma StripCoreRight(core: string, right: string)
    requires AllSpace(right) && NoOuterSpace(core) && core != []
    ensures StripRight(StripLeft(core + right)) == core
  {
    assert (core + right)[0] == core[0];
    assert StripLeft(core + right) == core + right;
    StripRightSkips(core, right);
  }

  /** An all-blank string strips to nothing. */
  lemma StripBlank(right: string)
    requires AllSpace(right)
    ensures StripRight(StripLeft(right)) == []
  {
    assert right == right + [];
    StripLeftSkips(right, []);
  }

  /** Python's `s[:n]` for `n >= 0`: at most the first `n` characters. */
  function Truncate(s: string, n: nat): (r: string)
    ensures |r| <= n && r <= s
    ensures |s| <= n ==> r == s
    ensures |s| > n ==> |r| == n
  {
    if |s| <= n then s else s[..n]
  }

  // ---------------------------------------------------------------------
  // The database URL
  // ---------------------------------------------------------------------

  const LegacyScheme: string := "postgres://"
  const PostgresqlScheme: string := "postgresql://"

  /** `url.replace("postgres://", "postgresql://", 1)` when `url` starts
      with "postgres://": since the prefix is the first occurrence, only the
      scheme changes. The result never starts with the legacy scheme. */
  function RewriteDatabaseUrl(url: string): (r: string)
    ensures !(LegacyScheme <= r)
    ensures LegacyScheme <= url ==>
              PostgresqlScheme <= r && r[|PostgresqlScheme|..] == url[|LegacyScheme|..]
    ensures !(LegacyScheme <= url) ==> r == url
  {
    if LegacyScheme <= url then
      var r := PostgresqlScheme + url[|LegacyScheme|..];
      assert r[8] != LegacyScheme[8];
      r
    else url
  }

  /** Rewriting twice is rewriting once. */
  lemma RewriteIdempotent(url: string)
    ensures RewriteDatabaseUrl(RewriteDatabaseUrl(url)) == RewriteDatabaseUrl(url)
  {
  }

  /** An open database connection, identified by the URL it was opened with. */
  datatype Connection = Connection(url: string)

  // ---------------------------------------------------------------------
  // Submissions and stored entries
  // ---------------------------------------------------------------------

  /** The `avgTime` of a request body: a number, or the placeholder "-". */
  datatype AvgInput = Dash | Number(v: real)

  /** A `POST /api/leaderboard` JSON body; `None` is an absent key. */
  datatype Submission = Submission(
    name: Option<string>,
    gameMode: Option<string>,
    score: Option<int>,
    avgTime: Option<AvgInput>,
    accuracy: Option<real>,
    difficulty: Option<string>,
    maxCombo: Option<int>)

  /** A leaderboard row. The servers always write `score`, `gameMode` and
      `avgTime`; they are optional here because the query reads them with
      `.get(...)` defaults from rows loaded back from storage. */
  datatype Entry = Entry(
    name: string,
    score: Option<int>,
    gameMode: Option<string>,
    difficulty: string,
    maxCombo: int,
    avgTime: Option<real>,
    accuracy: real,
    timestamp: real)

  datatype SubmitError =
    | MissingFields   // the 400 reply "Missing required fields"
    | ServerError     // an uncaught KeyError or ValueError: Flask answers 500

  const NameLimit: nat := 50
  const DefaultDifficulty: string := "unknown"

  function OrElse<T>(o: Option<T>, d: T): T
  {
    if o.Some? then o.value else d
  }

  /** The five keys both servers read without a default: `name`,
      `gameMode`, `score`, `avgTime` and `accuracy`. */
  predicate HasRequiredFields(sub: Submission)
  {
    sub.name.Some? && sub.gameMode.Some? && sub.score.Some? && sub.avgTime.Some? && sub.accuracy.Some?
  }

  /** `'database' if USE_DATABASE else 'json'` */
  datatype StorageType = Database | Json

  /** Rows sorted by descending `timestamp`, as `ORDER BY timestamp DESC`
      returns them. */
  predicate NewestFirst(rows: seq<Entry>)
  {
    forall i, j :: 0 <= i < j < |rows| ==> rows[i].timestamp >= rows[j].timestamp
  }
}
