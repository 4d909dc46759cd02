/** The edit-quiz page: the quiz named by the route, edited as a value and
    written back on submit, but only when its id is in the seed list. */
module EditQuiz {
  import opened Types
  import Text
  import QE = QuestionEdits
  import QuizContext

  /** The Update button is enabled: a title that is not blank once trimmed, and
      at least one question. */
  function SubmitEnabled(title: string, questions: seq<Question>): (enabled: bool)
    ensures enabled <==> !Text.IsBlank(title) && questions != []
  {
    Text.Trim(title) != "" && |questions| > 0
  }

  /** A quiz that only the user list holds opens for editing, yet its submit is
      refused: the submit searches the seed list alone. */
  lemma UserQuizOpensButIsRefused(seed: seq<Quiz>, userQuizzes: seq<Quiz>, id: string)
    requires forall q :: q in seed ==> q.id != id
    requires exists q :: q in userQuizzes && q.id == id
    ensures LookupQuiz(seed, userQuizzes, id).Some?
    ensures LookupQuiz(seed, userQuizzes, id) == Find(userQuizzes, id)
    ensures FindIndex(seed, id) == -1
  {
  }

  /** The page's state: the quiz being edited, or none while nothing was found. */
  class EditQuizForm {
    var quiz: Option<Quiz>

    /** The lookup effect: the first quiz with the route id in seed ++ user. */
    constructor (seed: array<Quiz>, userQuizzes: seq<Quiz>, id: string)
      ensures quiz == LookupQuiz(seed[..], userQuizzes, id)
      ensures quiz.Some? ==> quiz.value.id == id
    {
      quiz := LookupQuiz(seed[..], userQuizzes, id);
    }

    method SetTitle(t: string)
      requires quiz.Some?
      modifies this
      ensures quiz == Some(old(quiz).value.(title := t))
    {
      quiz := Some(quiz.value.(title := t));
    }

    method UpdateQuestion(i: int, v: QE.FieldValue)
      requires quiz.Some? && 0 <= i < |quiz.value.questions|
      modifies this
      ensures quiz == Some(old(quiz).value.(questions := QE.UpdateQuestion(old(quiz).value.questions, i, v)))
    {
      quiz := Some(quiz.value.(questions := QE.UpdateQuestion(quiz.value.questions, i, v)));
    }

    method AddQuestion(id: string)
      requires quiz.Some?
      modifies this
      ensures quiz == Some(old(quiz).value.(questions := QE.AddQuestion(old(quiz).value.questions, id)))
    {
      quiz := Some(quiz.value.(questions := QE.AddQuestion(quiz.value.questions, id)));
    }

    method RemoveQuestion(i: int)
      requires quiz.Some?
      modifies this
      ensures quiz == Some(old(quiz).value.(questions := QE.RemoveQuestion(old(quiz).value.questions, i)))
    {
      quiz := Some(quiz.value.(questions := QE.RemoveQuestion(quiz.value.questions, i)));
    }

    method AddOption(i: int)
      requires quiz.Some? && 0 <= i < |quiz.value.questions|
      modifies this
      ensures quiz == Some(old(quiz).value.(questions := QE.AddOption(old(quiz).value.questions, i)))
    {
      quiz := Some(quiz.value.(questions := QE.AddOption(quiz.value.questions, i)));
    }

    method RemoveOption(i: int, j: int)
      requires quiz.Some? && 0 <= i < |quiz.value.questions|
      modifies this
      ensures quiz == Some(old(quiz).value.(questions := QE.RemoveOption(old(quiz).value.questions, i, j)))
    {
      quiz := Some(quiz.value.(questions := QE.RemoveOption(quiz.value.questions, i, j)));
    }

    /** When the quiz's id is in the seed list, overwrites that seed entry in place
        and replaces the quiz by id in the provider; otherwise reports failure and
        changes nothing. */
    method HandleSubmit(seed: array<Quiz>, provider: QuizContext.QuizProvider) returns (ok: bool)
      requires quiz.Some? && provider.Valid()
      modifies seed, provider
      ensures provider.Valid()
      ensures ok <==> exists k :: 0 <= k < seed.Length && old(seed[k]).id == quiz.value.id
      ensures ok ==> seed[..] == old(seed[..])[FindIndex(old(seed[..]), quiz.value.id) := quiz.value]
      ensures ok ==> provider.quizzes == QuizContext.Replaced(old(provider.quizzes), quiz.value)
      ensures ok ==> provider.storage == QuizContext.Save(old(provider.storage), provider.quizzes, provider.results)
      ensures !ok ==> seed[..] == old(seed[..]) && provider.quizzes == old(provider.quizzes)
      ensures !ok ==> provider.storage == old(provider.storage)
      ensures provider.results == old(provider.results)
    {
      var q := quiz.value;
      var k := FindIndex(seed[..], q.id);
      if k == -1 {
        ok := false;
        return;
      }
      seed[k] := q;
      provider.UpdateQuiz(q);
      ok := true;
    }
  }
}
