/** The take-quiz page: a candidate enters a name, starts, moves between the
    questions choosing answers, and finishes, which scores the attempt and
    appends the result to the provider's log. */
module TakeQuiz {
  import opened Types
  import Text
  import QuizContext

  const Anonymous: string := "anonymous"

  /** The indices whose answer is present and equals the question's correct answer. */
  function CorrectIndices(questions: seq<Question>, answers: seq<Option<int>>): set<int>
    requires |answers| <= |questions|
  {
    set i | 0 <= i < |answers| && answers[i] == Some(questions[i].correctAnswer)
  }

  /** The `reduce` over the answers, left to right from 0: a null answer adds nothing,
      any other adds 1 when it equals that question's correct answer. */
  function Score(questions: seq<Question>, answers: seq<Option<int>>): (score: nat)
    requires |answers| <= |questions|
    ensures score <= |answers|
  {
    if answers == [] then 0
    else
      var n := |answers| - 1;
      var total := Score(questions, answers[..n]);
      match answers[n]
      case None => total
      case Some(a) => total + (if a == questions[n].correctAnswer then 1 else 0)
  }

  /** The fold counts exactly the correctly answered questions. */
  lemma {:induction false} ScoreCountsCorrect(questions: seq<Question>, answers: seq<Option<int>>)
    requires |answers| <= |questions|
    ensures Score(questions, answers) == |CorrectIndices(questions, answers)|
  {
    if answers != [] {
      var n := |answers| - 1;
      var front := answers[..n];
      ScoreCountsCorrect(questions, front);
      var s := CorrectIndices(questions, answers);
      var t := CorrectIndices(questions, front);
      if answers[n] == Some(questions[n].correctAnswer) {
        assert s == t + {n};
        assert n !in t;
      } else {
        assert s == t;
      }
    }
  }

  /** The two-question example: correct answers 1 and 0, answers 1 and 1, score 1. */
  lemma ScoreExample()
    ensures Score([Question("a", "", ["x", "y"], 1), Question("b", "", ["x", "y"], 0)], [Some(1), Some(1)]) == 1
  {
  }

  /** `currentUser?.id || "anonymous"`: an absent user, or an empty id, gives the sentinel. */
  function UserIdOf(user: Option<User>): (id: string)
    ensures id != ""
    ensures user.None? ==> id == Anonymous
    ensures user.Some? && user.value.id != "" ==> id == user.value.id
    ensures user.Some? && user.value.id == "" ==> id == Anonymous
  {
    if user.Some? && user.value.id != "" then user.value.id else Anonymous
  }

  /** The result `handleFinish` builds. `resultId` and `date` stand for the clock readings. */
  function BuildResult(quiz: Quiz, answers: seq<Option<int>>, candidateName: string,
                       user: Option<User>, resultId: string, date: int): (r: QuizResult)
    requires |answers| <= |quiz.questions|
    ensures r.quizId == quiz.id && r.candidateName == candidateName
    ensures r.totalQuestions == |quiz.questions|
    ensures 0 <= r.score <= r.totalQuestions
    ensures r.score == |CorrectIndices(quiz.questions, answers)|
    ensures r.userId == (if user.Some? && user.value.id != "" then user.value.id else Anonymous)
    ensures r.id == resultId && r.date == date
  {
    ScoreCountsCorrect(quiz.questions, answers);
    QuizResult(resultId, UserIdOf(user), quiz.id, candidateName,
               Score(quiz.questions, answers), |quiz.questions|, date)
  }

  /** `Math.max(0, current - 1)`. */
  function PreviousIndex(current: int): (r: int)
    ensures current >= 0 ==> 0 <= r <= current
    ensures current >= 0 ==> (r == current <==> current == 0)
    ensures r != current && current >= 0 ==> r == current - 1
  {
    if current - 1 < 0 then 0 else current - 1
  }

  /** `Math.min(count - 1, current + 1)`. */
  function NextIndex(current: int, count: int): (r: int)
    ensures 0 <= current < count ==> current <= r < count
    ensures 0 <= current < count ==> (r == current <==> current == count - 1)
    ensures r != current && 0 <= current < count ==> r == current + 1
  {
    if count - 1 < current + 1 then count - 1 else current + 1
  }

  /** The Previous button is enabled. */
  function PreviousEnabled(current: int): (enabled: bool)
    ensures current >= 0 ==> (enabled <==> PreviousIndex(current) < current)
  {
    current != 0
  }

  /** The Next button is shown; otherwise the Finish button is. */
  function NextShown(current: int, count: int): (shown: bool)
    ensures 0 <= current < count ==> (shown <==> current < NextIndex(current, count))
    ensures 0 <= current < count ==> (!shown <==> current == count - 1)
  {
    current < count - 1
  }

  /** The guards offer a move exactly when it would change the index, and Finish
      appears only on the last question. */
  lemma GuardsMatchMoves(current: int, count: int)
    requires 0 <= current < count
    ensures PreviousEnabled(current) <==> PreviousIndex(current) != current
    ensures NextShown(current, count) <==> NextIndex(current, count) != current
    ensures !NextShown(current, count) <==> current == count - 1
  {
  }

  /** The answers array `startQuiz` creates: one null per question. */
  function Unanswered(count: nat): (answers: seq<Option<int>>)
    ensures |answers| == count
    ensures forall i :: 0 <= i < count ==> answers[i].None?
  {
    seq(count, _ => None)
  }

  /** An unanswered attempt scores 0. */
  lemma {:induction false} UnansweredScoresZero(questions: seq<Question>, count: nat)
    requires count <= |questions|
    ensures Score(questions, Unanswered(count)) == 0
  {
    ScoreCountsCorrect(questions, Unanswered(count));
    assert CorrectIndices(questions, Unanswered(count)) == {};
  }

  /** The session state of one take-quiz page for a quiz that was found. */
  class Session {
    const quiz: Quiz
    var quizStarted: bool
    var candidateName: string
    var currentQuestion: int
    var answers: seq<Option<int>>

    ghost predicate Valid()
      reads this
    {
      && |quiz.questions| >= 1
      && 0 <= currentQuestion < |quiz.questions|
      && (quizStarted ==> |answers| == |quiz.questions|)
      && (!quizStarted ==> answers == [] && currentQuestion == 0)
    }

    constructor (quiz: Quiz)
      requires |quiz.questions| >= 1
      ensures Valid() && this.quiz == quiz
      ensures !quizStarted && candidateName == "" && currentQuestion == 0 && answers == []
    {
      this.quiz := quiz;
      quizStarted := false;
      candidateName := "";
      currentQuestion := 0;
      answers := [];
    }

    /** The Start button is enabled: the trimmed name is not empty. */
    function StartEnabled(): (enabled: bool)
      reads this
      ensures enabled <==> !Text.IsBlank(candidateName)
    {
      Text.Trim(candidateName) != ""
    }

    /** Typing into the name field. */
    method SetCandidateName(name: string)
      requires Valid() && !quizStarted
      modifies this
      ensures Valid()
      ensures candidateName == name
      ensures quizStarted == old(quizStarted) && currentQuestion == old(currentQuestion) && answers == old(answers)
    {
      candidateName := name;
    }

    method StartQuiz()
      requires Valid()
      modifies this
      ensures Valid()
      ensures quizStarted == (old(quizStarted) || old(StartEnabled()))
      ensures answers == if old(StartEnabled()) then Unanswered(|quiz.questions|) else old(answers)
      ensures candidateName == old(candidateName) && currentQuestion == old(currentQuestion)
    {
      if Text.Trim(candidateName) != "" {
        quizStarted := true;
        answers := Unanswered(|quiz.questions|);
      }
    }

    method HandleAnswer(answer: int)
      requires Valid() && quizStarted
      modifies this
      ensures Valid()
      ensures answers == old(answers)[currentQuestion := Some(answer)]
      ensures quizStarted && currentQuestion == old(currentQuestion) && candidateName == old(candidateName)
    {
      answers := answers[currentQuestion := Some(answer)];
    }

    method HandlePrevious()
      requires Valid() && quizStarted
      modifies this
      ensures Valid()
      ensures currentQuestion == PreviousIndex(old(currentQuestion))
      ensures quizStarted && answers == old(answers) && candidateName == old(candidateName)
    {
      currentQuestion := PreviousIndex(currentQuestion);
    }

    method HandleNext()
      requires Valid() && quizStarted
      modifies this
      ensures Valid()
      ensures currentQuestion == NextIndex(old(currentQuestion), |quiz.questions|)
      ensures quizStarted && answers == old(answers) && candidateName == old(candidateName)
    {
      currentQuestion := NextIndex(currentQuestion, |quiz.questions|);
    }

    /** Scores the attempt and appends the result to the provider's log; the
        session itself is left as it was (the page navigates away). */
    method HandleFinish(provider: QuizContext.QuizProvider, user: Option<User>, resultId: string, date: int)
      returns (result: QuizResult)
      requires Valid() && provider.Valid()
      modifies provider
      ensures provider.Valid()
      ensures result == BuildResult(quiz, answers, candidateName, user, resultId, date)
      ensures provider.results == old(provider.results) + [result]
      ensures provider.quizzes == old(provider.quizzes)
      ensures provider.storage == QuizContext.Save(old(provider.storage), provider.quizzes, provider.results)
    {
      result := BuildResult(quiz, answers, candidateName, user, resultId, date);
      provider.AddResult(result);
    }
  }

  /** A later answer to the same question replaces the earlier one. */
  lemma AnswerOverwrites(answers: seq<Option<int>>, i: nat, first: int, second: int)
    requires i < |answers|
    ensures answers[i := Some(first)][i := Some(second)] == answers[i := Some(second)]
  {
  }
}
