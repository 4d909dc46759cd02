/** The create-quiz page: a title and a list of questions edited in place,
    submitted as one new quiz to the provider. */
module CreateQuiz {
  import opened Types
  import QE = QuestionEdits
  import QuizContext
  import Text
  import EditQuiz

  /** The Create button is enabled: a non-empty title (not trimmed) and at
      least one question. */
  function SubmitEnabled(title: string, questions: seq<Question>): (enabled: bool)
    ensures EditQuiz.SubmitEnabled(title, questions) ==> enabled
    ensures title != "" && Text.IsBlank(title) && questions != [] ==> enabled
    ensures title == "" || questions == [] ==> !enabled
  {
    title != "" && |questions| > 0
  }

  /** The create gate does not trim: a title of one space passes it and fails the
      edit page's gate. */
  lemma TitleNotTrimmed(questions: seq<Question>)
    requires |questions| > 0
    ensures SubmitEnabled(" ", questions)
    ensures !EditQuiz.SubmitEnabled(" ", questions)
  {
    assert Text.IsBlank(" ");
  }

  /** The page's state. */
  class CreateQuizForm {
    var title: string
    var questions: seq<Question>

    constructor ()
      ensures title == "" && questions == []
    {
      title := "";
      questions := [];
    }

    method SetTitle(t: string)
      modifies this
      ensures title == t && questions == old(questions)
    {
      title := t;
    }

    method AddQuestion(id: string)
      modifies this
      ensures questions == QE.AddQuestion(old(questions), id) && title == old(title)
    {
      questions := QE.AddQuestion(questions, id);
    }

    method UpdateQuestion(i: int, v: QE.FieldValue)
      requires 0 <= i < |questions|
      modifies this
      ensures questions == QE.UpdateQuestion(old(questions), i, v) && title == old(title)
    {
      questions := QE.UpdateQuestion(questions, i, v);
    }

    method RemoveQuestion(i: int)
      modifies this
      ensures questions == QE.RemoveQuestion(old(questions), i) && title == old(title)
    {
      questions := QE.RemoveQuestion(questions, i);
    }

    method AddOption(i: int)
      requires 0 <= i < |questions|
      modifies this
      ensures questions == QE.AddOption(old(questions), i) && title == old(title)
    {
      questions := QE.AddOption(questions, i);
    }

    method RemoveOption(i: int, j: int)
      requires 0 <= i < |questions|
      modifies this
      ensures questions == QE.RemoveOption(old(questions), i, j) && title == old(title)
    {
      questions := QE.RemoveOption(questions, i, j);
    }

    /** Adds exactly one quiz, with the entered title and questions, to the provider.
        `id` stands for the clock reading that names it. */
    method HandleSubmit(provider: QuizContext.QuizProvider, id: string)
      requires provider.Valid()
      modifies provider
      ensures provider.Valid()
      ensures provider.quizzes == old(provider.quizzes) + [Quiz(id, title, questions)]
      ensures provider.results == old(provider.results)
      ensures provider.storage == QuizContext.Save(old(provider.storage), provider.quizzes, provider.results)
    {
      provider.AddQuiz(Quiz(id, title, questions));
    }
  }
}
