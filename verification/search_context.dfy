/** The client-side session store (`SearchProvider`): the records the wizard
    passes between its screens, the state it holds, the most-recently-used
    search history and the session reset. Every setter of the store is a
    record update `s.(field := v)` on `SessionState`. */
module SearchContext {
  import opened Common

  datatype Platform = Reddit | YouTube {

    /** The `platform` string a post carries. */
    function Name(): string {
      match this
      case Reddit => "Reddit"
      case YouTube => "YouTube"
    }
  }

  /** A post's engagement: a number for live results, a display label
      ("42 Comments") for the canned demo results. */
  datatype Engagement = Count(n: int) | Label(text: string)

  datatype Post = Post(
    id: string,
    platform: Platform,
    text: string,
    url: string,
    engagement: Engagement,
    author: Option<string>,
    score: Option<int>)

  datatype AnalysisData = AnalysisData(level: string, count: int, classification: string)

  datatype SessionState = SessionState(
    keyword: string,
    variations: seq<string>,
    selectedKeyword: string,
    analysis: Option<AnalysisData>,
    selectedPosts: seq<Post>,
    results: seq<Post>,
    affiliateLink: string,
    history: seq<string>)

  /** A UI handler's outcome: the new store contents and what the user sees. */
  datatype Step = Step(state: SessionState, effect: Effect)

  const HistoryLimit: nat := 5

  /** The store as it is first provided, before saved history is loaded. */
  const Initial: SessionState := SessionState("", [], "", None, [], [], "", [])

  // ---------------------------------------------------------------------
  // Search history

  /** `history.filter(h => h !== k)`. */
  function Without(history: seq<string>, k: string): (r: seq<string>)
    ensures |r| <= |history|
    ensures forall x :: x in r <==> x in history && x != k
    ensures k !in history ==> r == history
  {
    if |history| == 0 then []
    else if history[0] == k then Without(history[1..], k)
    else [history[0]] + Without(history[1..], k)
  }

  /** The filter works piecewise on a concatenation, so the entries it
      keeps stay in their order, each as often as before. */
  lemma {:induction false} WithoutConcat(a: seq<string>, b: seq<string>, k: string)
    ensures Without(a + b, k) == Without(a, k) + Without(b, k)
  {
    if |a| > 0 {
      assert (a + b)[1..] == a[1..] + b;
      WithoutConcat(a[1..], b, k);
    } else {
      assert a + b == b;
    }
  }

  /** `addToHistory(k)`: `k` moves to the front, its older copies go, and
      the list is cut to `HistoryLimit` entries. */
  function AddToHistory(history: seq<string>, k: string): (r: seq<string>)
    ensures 1 <= |r| <= HistoryLimit
    ensures r[0] == k
    ensures k !in r[1..]
    ensures forall x :: x in r[1..] ==> x in history && x != k
    ensures |r| == Min(HistoryLimit, |Without(history, k)| + 1)
    ensures r[1..] == Without(history, k)[..|r| - 1]
  {
    ([k] + Without(history, k))[..Min(HistoryLimit, |Without(history, k)| + 1)]
  }

  /** Occurrences of `x` in `xs`. */
  function Occurrences(xs: seq<string>, x: string): nat {
    if |xs| == 0 then 0 else (if xs[0] == x then 1 else 0) + Occurrences(xs[1..], x)
  }

  predicate NoDuplicates(xs: seq<string>) {
    forall i, j :: 0 <= i < j < |xs| ==> xs[i] != xs[j]
  }

  lemma {:induction false} OccurrencesAbsent(xs: seq<string>, x: string)
    requires x !in xs
    ensures Occurrences(xs, x) == 0
  {
    if |xs| > 0 {
      assert x !in xs[1..];
      OccurrencesAbsent(xs[1..], x);
    }
  }

  /** After `AddToHistory(h, k)`, `k` is listed exactly once. */
  lemma AddToHistoryListsOnce(history: seq<string>, k: string)
    ensures Occurrences(AddToHistory(history, k), k) == 1
  {
    var r := AddToHistory(history, k);
    OccurrencesAbsent(r[1..], k);
  }

  /** Re-searching the most recent keyword leaves the history as it is. */
  lemma {:induction false} AddToHistoryIdempotent(history: seq<string>, k: string)
    ensures AddToHistory(AddToHistory(history, k), k) == AddToHistory(history, k)
  {
    var r := AddToHistory(history, k);
    var w := Without(r, k);
    WithoutHead(r, k);
    assert w == r[1..];
    assert |w| + 1 == |r| <= HistoryLimit;
    assert [k] + w == r;
  }

  lemma WithoutHead(r: seq<string>, k: string)
    requires |r| > 0 && r[0] == k && k !in r[1..]
    ensures Without(r, k) == r[1..]
  {
  }

  lemma {:induction false} WithoutKeepsDistinct(history: seq<string>, k: string)
    requires NoDuplicates(history)
    ensures NoDuplicates(Without(history, k))
  {
    if |history| > 0 {
      WithoutKeepsDistinct(history[1..], k);
      if history[0] != k {
        var rest := Without(history[1..], k);
        assert history[0] !in history[1..];
        assert history[0] !in rest;
        assert Without(history, k) == [history[0]] + rest;
      }
    }
  }

  /** A history without repeats stays without repeats. */
  lemma AddToHistoryKeepsDistinct(history: seq<string>, k: string)
    requires NoDuplicates(history)
    ensures NoDuplicates(AddToHistory(history, k))
  {
    var w := Without(history, k);
    WithoutKeepsDistinct(history, k);
    var r := AddToHistory(history, k);
    assert forall i, j :: 1 <= i < j < |r| ==> r[i] == w[i - 1] && r[j] == w[j - 1];
  }

  /** Length of the history after an insertion: unchanged (up to the cap)
      when the keyword was already listed, one more otherwise. */
  lemma {:induction false} AddToHistoryLength(history: seq<string>, k: string)
    requires NoDuplicates(history)
    ensures k in history ==> |AddToHistory(history, k)| == Min(HistoryLimit, |history|)
    ensures k !in history ==> |AddToHistory(history, k)| == Min(HistoryLimit, |history| + 1)
  {
    WithoutDropsOne(history, k);
  }

  lemma {:induction false} WithoutDropsOne(history: seq<string>, k: string)
    requires NoDuplicates(history)
    ensures k in history ==> |Without(history, k)| == |history| - 1
  {
    if |history| > 0 {
      WithoutDropsOne(history[1..], k);
      if history[0] == k {
        assert k !in history[1..];
      } else {
        assert k in history ==> k in history[1..];
      }
    }
  }

  /** Searching "x", then "y", then "x" again lists ["x", "y"]. */
  lemma HistoryExample()
    ensures AddToHistory(AddToHistory(AddToHistory([], "x"), "y"), "x") == ["x", "y"]
  {
    assert AddToHistory([], "x") == ["x"];
    assert Without(["x"], "y") == ["x"];
    assert AddToHistory(["x"], "y") == ["y", "x"];
    assert Without(["y", "x"], "x") == ["y"];
  }

  // ---------------------------------------------------------------------
  // Session reset

  /** `resetSession`: every working field back to its initial value; the
      history is kept. */
  function ResetSession(s: SessionState): (r: SessionState)
    ensures r.history == s.history
    ensures r.(history := Initial.history) == Initial
  {
    SessionState("", [], "", None, [], [], "", s.history)
  }

  /** Two sessions with the same history reset to the same state: nothing
      but the history survives a reset. */
  lemma ResetForgetsWork(s: SessionState, t: SessionState)
    requires s.history == t.history
    ensures ResetSession(s) == ResetSession(t)
  {
  }

  lemma ResetSessionIdempotent(s: SessionState)
    ensures ResetSession(ResetSession(s)) == ResetSession(s)
  {
  }
}
