/** The quiz provider: the user-created quizzes and the result log, written
    through to a key-value store after every change and read back once when
    the provider mounts. */
module QuizContext {
  import opened Types

  const QuizzesKey: string := "quizzes"
  const ResultsKey: string := "results"

  /** What the store can hold under a key. `Blank` is the empty string, which the
      truthiness test at load skips like a missing key; `Malformed` is text on
      which `JSON.parse` throws. */
  datatype Stored =
    | QuizzesJson(quizzes: seq<Quiz>)
    | ResultsJson(results: seq<QuizResult>)
    | Blank
    | Malformed

  /** The outcome of the load effect: both lists, or the key whose parse threw. */
  datatype Loaded = Loaded(quizzes: seq<Quiz>, results: seq<QuizResult>) | ParseFailure(key: string)

  /** `quizzes.map(quiz => quiz.id === updated.id ? updated : quiz)`. */
  function Replaced(qs: seq<Quiz>, updated: Quiz): (r: seq<Quiz>)
    ensures |r| == |qs|
    ensures forall i :: 0 <= i < |qs| ==> r[i] == (if qs[i].id == updated.id then updated else qs[i])
  {
    if qs == [] then []
    else [if qs[0].id == updated.id then updated else qs[0]] + Replaced(qs[1..], updated)
  }

  /** `quizzes.filter(quiz => quiz.id !== id)`. */
  function Without(qs: seq<Quiz>, id: string): (r: seq<Quiz>)
    ensures |r| <= |qs|
    ensures forall i :: 0 <= i < |r| ==> r[i].id != id
    ensures forall q :: q in r <==> q in qs && q.id != id
  {
    if qs == [] then []
    else (if qs[0].id == id then [] else [qs[0]]) + Without(qs[1..], id)
  }

  /** The number of quizzes in `qs` that carry `id`. */
  function CountId(qs: seq<Quiz>, id: string): nat {
    if qs == [] then 0 else (if qs[0].id == id then 1 else 0) + CountId(qs[1..], id)
  }

  /** The store after the save effect: both keys hold the current lists and
      nothing else changes. */
  function Save(storage: map<string, Stored>, qs: seq<Quiz>, rs: seq<QuizResult>): (s: map<string, Stored>)
    ensures s.Keys == storage.Keys + {QuizzesKey, ResultsKey}
    ensures Persisted(s, qs, rs)
    ensures forall k :: k in storage && k != QuizzesKey && k != ResultsKey ==> s[k] == storage[k]
  {
    storage[QuizzesKey := QuizzesJson(qs)][ResultsKey := ResultsJson(rs)]
  }

  /** The write-through invariant: the store holds exactly the current lists. */
  predicate Persisted(storage: map<string, Stored>, qs: seq<Quiz>, rs: seq<QuizResult>) {
    && QuizzesKey in storage && storage[QuizzesKey] == QuizzesJson(qs)
    && ResultsKey in storage && storage[ResultsKey] == ResultsJson(rs)
  }

  /** The load effect: a key that is missing or blank leaves its list empty; a
      key holding that list replaces it; anything else makes the parse throw,
      the quizzes key first. */
  function Load(storage: map<string, Stored>): (r: Loaded)
    ensures r.ParseFailure? <==>
      (QuizzesKey in storage && !storage[QuizzesKey].Blank? && !storage[QuizzesKey].QuizzesJson?) ||
      (ResultsKey in storage && !storage[ResultsKey].Blank? && !storage[ResultsKey].ResultsJson?)
    ensures r.ParseFailure? ==>
      r.key == (if QuizzesKey in storage && !storage[QuizzesKey].Blank? && !storage[QuizzesKey].QuizzesJson? then QuizzesKey else ResultsKey)
    ensures r.Loaded? ==>
      && r.quizzes == (if QuizzesKey in storage && storage[QuizzesKey].QuizzesJson? then storage[QuizzesKey].quizzes else [])
      && r.results == (if ResultsKey in storage && storage[ResultsKey].ResultsJson? then storage[ResultsKey].results else [])
  {
    var qs := if QuizzesKey in storage then storage[QuizzesKey] else Blank;
    var rs := if ResultsKey in storage then storage[ResultsKey] else Blank;
    if !qs.Blank? && !qs.QuizzesJson? then ParseFailure(QuizzesKey)
    else if !rs.Blank? && !rs.ResultsJson? then ParseFailure(ResultsKey)
    else Loaded(if qs.QuizzesJson? then qs.quizzes else [], if rs.ResultsJson? then rs.results else [])
  }

  /** Saving and loading again gives back the lists that were saved. */
  lemma SaveThenLoad(storage: map<string, Stored>, qs: seq<Quiz>, rs: seq<QuizResult>)
    ensures Load(Save(storage, qs, rs)) == Loaded(qs, rs)
  {
  }

  /** A store with neither key loads two empty lists. */
  lemma LoadEmptyStore(storage: map<string, Stored>)
    requires QuizzesKey !in storage && ResultsKey !in storage
    ensures Load(storage) == Loaded([], [])
  {
  }

  /** Replacing by id is idempotent. */
  lemma ReplacedIdempotent(qs: seq<Quiz>, updated: Quiz)
    ensures Replaced(Replaced(qs, updated), updated) == Replaced(qs, updated)
  {
  }

  /** Replacing an id that no entry has changes nothing. */
  lemma ReplacedAbsent(qs: seq<Quiz>, updated: Quiz)
    requires forall q :: q in qs ==> q.id != updated.id
    ensures Replaced(qs, updated) == qs
  {
  }

  /** Filtering distributes over concatenation: what survives keeps its relative order. */
  lemma {:induction false} WithoutConcat(a: seq<Quiz>, b: seq<Quiz>, id: string)
    ensures Without(a + b, id) == Without(a, id) + Without(b, id)
  {
    if a != [] {
      assert (a + b)[1..] == a[1..] + b;
      WithoutConcat(a[1..], b, id);
    } else {
      assert a + b == b;
    }
  }

  /** Deleting removes exactly the entries with the id: the length drops by their number. */
  lemma {:induction false} WithoutLength(qs: seq<Quiz>, id: string)
    ensures |Without(qs, id)| == |qs| - CountId(qs, id)
  {
    if qs != [] {
      WithoutLength(qs[1..], id);
    }
  }

  /** Deleting an id that no entry has changes nothing. */
  lemma {:induction false} WithoutAbsent(qs: seq<Quiz>, id: string)
    requires forall q :: q in qs ==> q.id != id
    ensures Without(qs, id) == qs
  {
    if qs != [] {
      assert qs[0] in qs;
      WithoutAbsent(qs[1..], id);
    }
  }

  /** Deleting the same id twice is the same as deleting it once. */
  lemma WithoutIdempotent(qs: seq<Quiz>, id: string)
    ensures Without(Without(qs, id), id) == Without(qs, id)
  {
    WithoutAbsent(Without(qs, id), id);
  }

  /** The provider's state: `quizzes`, `results`, and the store they are written to. */
  class QuizProvider {
    var quizzes: seq<Quiz>
    var results: seq<QuizResult>
    var storage: map<string, Stored>

    ghost predicate Valid()
      reads this
    {
      Persisted(storage, quizzes, results)
    }

    /** Mounting: both lists start empty; the load effect reads both keys, then the
        save effect of the first render writes the empty lists, and the render
        that follows the load writes the loaded ones. */
    constructor (initial: map<string, Stored>)
      requires Load(initial).Loaded?
      ensures Valid()
      ensures quizzes == Load(initial).quizzes && results == Load(initial).results
      ensures storage == Save(initial, quizzes, results)
    {
      quizzes := [];
      results := [];
      storage := initial;
      new;
      var loaded := Load(initial);
      storage := Save(storage, quizzes, results);
      quizzes := loaded.quizzes;
      results := loaded.results;
      storage := Save(storage, quizzes, results);
    }

    method AddQuiz(quiz: Quiz)
      requires Valid()
      modifies this
      ensures Valid()
      ensures quizzes == old(quizzes) + [quiz] && results == old(results)
      ensures storage == Save(old(storage), quizzes, results)
    {
      quizzes := quizzes + [quiz];
      storage := Save(storage, quizzes, results);
    }

    method UpdateQuiz(updated: Quiz)
      requires Valid()
      modifies this
      ensures Valid()
      ensures quizzes == Replaced(old(quizzes), updated) && results == old(results)
      ensures storage == Save(old(storage), quizzes, results)
    {
      quizzes := Replaced(quizzes, updated);
      storage := Save(storage, quizzes, results);
    }

    method DeleteQuiz(id: string)
      requires Valid()
      modifies this
      ensures Valid()
      ensures quizzes == Without(old(quizzes), id) && results == old(results)
      ensures storage == Save(old(storage), quizzes, results)
    {
      quizzes := Without(quizzes, id);
      storage := Save(storage, quizzes, results);
    }

    method AddResult(result: QuizResult)
      requires Valid()
      modifies this
      ensures Valid()
      ensures results == old(results) + [result] && quizzes == old(quizzes)
      ensures storage == Save(old(storage), quizzes, results)
    {
      results := results + [result];
      storage := Save(storage, quizzes, results);
    }
  }

  /** What a later mount over this provider's store loads is what it holds now. */
  method Remount(p: QuizProvider) returns (q: QuizProvider)
    requires p.Valid()
    ensures fresh(q) && q.Valid()
    ensures q.quizzes == p.quizzes && q.results == p.results
  {
    assert Load(p.storage) == Loaded(p.quizzes, p.results);
    q := new QuizProvider(p.storage);
  }
}
