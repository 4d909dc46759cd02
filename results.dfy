/** The results page: a copy of the result log sorted newest first (the sort
    is stable, so attempts with equal dates keep their log order), each shown
    with the title of its quiz. */
module Results {
  import opened Types

  const UnknownQuiz: string := "Unknown Quiz"
  /** The latest-result panel's fallback, spelled as the page spells it. */
  const UnknownLatest: string := "Unkown  Quize"

  /** Most recent first: dates never increase along the list. */
  predicate NewestFirst(rs: seq<QuizResult>) {
    forall i, j :: 0 <= i < j < |rs| ==> rs[i].date >= rs[j].date
  }

  /** The results of `rs` that carry date `d`, in their order in `rs`. */
  function WithDate(rs: seq<QuizResult>, d: int): seq<QuizResult> {
    if rs == [] then [] else (if rs[0].date == d then [rs[0]] else []) + WithDate(rs[1..], d)
  }

  /** Places `r` before the first entry that is not newer than it. */
  function Insert(r: QuizResult, sorted: seq<QuizResult>): (out: seq<QuizResult>)
    ensures multiset(out) == multiset(sorted) + multiset{r}
  {
    if sorted == [] then [r]
    else if r.date >= sorted[0].date then [r] + sorted
    else
      assert sorted == [sorted[0]] + sorted[1..];
      [sorted[0]] + Insert(r, sorted[1..])
  }

  lemma {:induction false} InsertKeepsOrder(r: QuizResult, sorted: seq<QuizResult>)
    requires NewestFirst(sorted)
    ensures NewestFirst(Insert(r, sorted))
  {
    if sorted != [] && r.date < sorted[0].date {
      var rest := Insert(r, sorted[1..]);
      InsertKeepsOrder(r, sorted[1..]);
      forall x | x in rest ensures x.date <= sorted[0].date {
        assert x in multiset(rest);
        if x != r {
          assert x in sorted[1..];
        }
      }
      var out := Insert(r, sorted);
      assert out == [sorted[0]] + rest;
      forall i, j | 0 <= i < j < |out| ensures out[i].date >= out[j].date {
        if i > 0 {
          assert out[i] == rest[i - 1] && out[j] == rest[j - 1];
        } else {
          assert out[j] == rest[j - 1] && out[j] in rest;
        }
      }
    }
  }

  /** `[...results].sort((a, b) => b.date - a.date)`, a stable sort on a copy. */
  function SortByDateDesc(rs: seq<QuizResult>): (sorted: seq<QuizResult>)
    ensures |sorted| == |rs|
    ensures multiset(sorted) == multiset(rs)
    ensures NewestFirst(sorted)
  {
    if rs == [] then []
    else
      assert rs == [rs[0]] + rs[1..];
      var out := Insert(rs[0], SortByDateDesc(rs[1..]));
      InsertKeepsOrder(rs[0], SortByDateDesc(rs[1..]));
      assert |out| == |multiset(out)|;
      out
  }

  lemma WithDateCons(x: QuizResult, s: seq<QuizResult>, d: int)
    ensures WithDate([x] + s, d) == (if x.date == d then [x] else []) + WithDate(s, d)
  {
    assert ([x] + s)[1..] == s;
  }

  lemma {:induction false} InsertWithDate(r: QuizResult, sorted: seq<QuizResult>, d: int)
    ensures WithDate(Insert(r, sorted), d) == (if r.date == d then [r] else []) + WithDate(sorted, d)
  {
    if sorted == [] {
      WithDateCons(r, [], d);
    } else if r.date >= sorted[0].date {
      WithDateCons(r, sorted, d);
    } else {
      InsertWithDate(r, sorted[1..], d);
      WithDateCons(sorted[0], Insert(r, sorted[1..]), d);
      WithDateCons(sorted[0], sorted[1..], d);
      assert sorted == [sorted[0]] + sorted[1..];
    }
  }

  /** Stability: for every date, the results with that date appear in the sorted
      list in the same order as in the log. */
  lemma {:induction false} SortIsStable(rs: seq<QuizResult>, d: int)
    ensures WithDate(SortByDateDesc(rs), d) == WithDate(rs, d)
  {
    if rs != [] {
      SortIsStable(rs[1..], d);
      InsertWithDate(rs[0], SortByDateDesc(rs[1..]), d);
    }
  }

  /** The two-date example: the later attempt is listed first. */
  lemma SortExample(a: QuizResult, b: QuizResult)
    requires a.date < b.date
    ensures SortByDateDesc([a, b]) == [b, a]
  {
  }

  /** `find(q => q.id === quizId)?.title || fallback`: a missing quiz, or an empty
      title, gives the fallback. */
  function TitleOr(seed: seq<Quiz>, userQuizzes: seq<Quiz>, quizId: string, fallback: string): (t: string)
    ensures (forall q :: q in Merged(seed, userQuizzes) ==> q.id != quizId) ==> t == fallback
    ensures t != fallback ==> exists q :: q in Merged(seed, userQuizzes) && q.id == quizId && q.title == t
    ensures Find(seed, quizId).Some? && Find(seed, quizId).value.title != "" ==> t == Find(seed, quizId).value.title
    ensures LookupQuiz(seed, userQuizzes, quizId).Some? && LookupQuiz(seed, userQuizzes, quizId).value.title != "" ==>
      t == LookupQuiz(seed, userQuizzes, quizId).value.title
    ensures LookupQuiz(seed, userQuizzes, quizId).None? || LookupQuiz(seed, userQuizzes, quizId).value.title == "" ==>
      t == fallback
  {
    match LookupQuiz(seed, userQuizzes, quizId)
    case None => fallback
    case Some(q) => if q.title != "" then q.title else fallback
  }

  /** One listed entry: a result and the title it is shown with. */
  datatype Entry = Entry(result: QuizResult, title: string)

  /** The "Past Results" list. */
  function PastResults(seed: seq<Quiz>, userQuizzes: seq<Quiz>, results: seq<QuizResult>): (entries: seq<Entry>)
    ensures |entries| == |results|
    ensures forall i :: 0 <= i < |entries| ==> entries[i].result == SortByDateDesc(results)[i]
    ensures forall i :: 0 <= i < |entries| ==>
      entries[i].title == TitleOr(seed, userQuizzes, entries[i].result.quizId, UnknownQuiz)
  {
    var sorted := SortByDateDesc(results);
    seq(|sorted|, i requires 0 <= i < |sorted| => Entry(sorted[i], TitleOr(seed, userQuizzes, sorted[i].quizId, UnknownQuiz)))
  }

  /** The "Latest Result" panel, shown only when navigation handed over a result. */
  function LatestPanel(seed: seq<Quiz>, userQuizzes: seq<Quiz>, latest: Option<QuizResult>): (panel: Option<Entry>)
    ensures panel.Some? <==> latest.Some?
    ensures panel.Some? ==> panel.value.result == latest.value
    ensures panel.Some? ==> panel.value.title == TitleOr(seed, userQuizzes, latest.value.quizId, UnknownLatest)
  {
    match latest
    case None => None
    case Some(r) => Some(Entry(r, TitleOr(seed, userQuizzes, r.quizId, UnknownLatest)))
  }
}
