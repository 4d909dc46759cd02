/** The records the quiz app passes around, and the seed-first lookup that
    every page uses to find a quiz in the combined catalog. */
module Types {

  datatype Option<+T> = None | Some(value: T)

  /** One multiple-choice question; `correctAnswer` is an index into `options`. */
  datatype Question = Question(id: string, text: string, options: seq<string>, correctAnswer: int)

  datatype Quiz = Quiz(id: string, title: string, questions: seq<Question>)

  /** The signed-in user as the authentication collaborator exposes it. */
  datatype User = User(id: string, username: string, password: string, isAdmin: bool)

  /** A completed attempt. Besides the five declared fields it carries the
      `id` and `userId` that the take-quiz page attaches to every result it
      stores. `date` is the attempt's timestamp as a number of milliseconds. */
  datatype QuizResult = QuizResult(
    id: string, userId: string, quizId: string, candidateName: string,
    score: int, totalQuestions: int, date: int)

  /** The shape a well-formed question has: at least two options and a
      correct answer among them. No page enforces it; lemmas say which edits keep it. */
  predicate ValidQuestion(q: Question) {
    |q.options| >= 2 && 0 <= q.correctAnswer < |q.options|
  }

  /** `findIndex(q => q.id === id)`: the position of the first quiz with that id, or -1. */
  function FindIndex(qs: seq<Quiz>, id: string): (r: int)
    ensures -1 <= r < |qs|
    ensures r >= 0 ==> qs[r].id == id
    ensures forall j :: 0 <= j < |qs| && (r < 0 || j < r) ==> qs[j].id != id
  {
    if qs == [] then -1
    else if qs[0].id == id then 0
    else
      var k := FindIndex(qs[1..], id);
      if k < 0 then -1 else k + 1
  }

  /** `find(q => q.id === id)`: the first quiz with that id, if any. */
  function Find(qs: seq<Quiz>, id: string): (r: Option<Quiz>)
    ensures r.None? <==> forall q :: q in qs ==> q.id != id
    ensures r.Some? ==> r.value.id == id && r.value in qs
    ensures r.Some? ==> exists k :: 0 <= k < |qs| && qs[k] == r.value && forall j :: 0 <= j < k ==> qs[j].id != id
  {
    var k := FindIndex(qs, id);
    if k < 0 then None else Some(qs[k])
  }

  /** The combined catalog every page shows or searches: seed quizzes, then user quizzes. */
  function Merged(seed: seq<Quiz>, userQuizzes: seq<Quiz>): (all: seq<Quiz>)
    ensures |all| == |seed| + |userQuizzes|
    ensures all[..|seed|] == seed && all[|seed|..] == userQuizzes
  {
    seed + userQuizzes
  }

  /** `[...quizlist, ...quizzes].find(q => q.id === id)`. */
  function LookupQuiz(seed: seq<Quiz>, userQuizzes: seq<Quiz>, id: string): (r: Option<Quiz>)
    ensures Find(seed, id).Some? ==> r == Find(seed, id)
    ensures Find(seed, id).None? ==> r == Find(userQuizzes, id)
  {
    FindSeedFirst(seed, userQuizzes, id);
    Find(Merged(seed, userQuizzes), id)
  }

  /** Searching a concatenation finds the first list's match before the second's. */
  lemma {:induction false} FindSeedFirst(seed: seq<Quiz>, userQuizzes: seq<Quiz>, id: string)
    ensures FindIndex(seed + userQuizzes, id) ==
      (if FindIndex(seed, id) >= 0 then FindIndex(seed, id)
       else if FindIndex(userQuizzes, id) >= 0 then |seed| + FindIndex(userQuizzes, id)
       else -1)
    ensures Find(seed + userQuizzes, id) ==
      (if Find(seed, id).Some? then Find(seed, id) else Find(userQuizzes, id))
  {
    if seed != [] {
      assert (seed + userQuizzes)[1..] == seed[1..] + userQuizzes;
      FindSeedFirst(seed[1..], userQuizzes, id);
    } else {
      assert seed + userQuizzes == userQuizzes;
    }
  }
}
