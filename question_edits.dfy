/** The edits the create and edit pages make to a quiz's list of questions.
    Both pages implement them with the same spread, filter, push and splice
    expressions; here each is a function from the old list to the new one. */
module QuestionEdits {
  import opened Types

  /** The question "Add Question" appends: no text, two empty options, answer 0. */
  function DefaultQuestion(id: string): (q: Question)
    ensures q.id == id && q.text == "" && q.correctAnswer == 0
    ensures |q.options| == 2 && forall k :: 0 <= k < |q.options| ==> q.options[k] == ""
    ensures ValidQuestion(q)
  {
    Question(id, "", ["", ""], 0)
  }

  /** A `[field]: value` pair for `updateQuestion`. */
  datatype FieldValue =
    | IdValue(id: string)
    | TextValue(text: string)
    | OptionsValue(options: seq<string>)
    | CorrectAnswerValue(correctAnswer: int)

  /** `{ ...q, [field]: value }`. */
  function WithField(q: Question, v: FieldValue): (r: Question)
    ensures r.id == (if v.IdValue? then v.id else q.id)
    ensures r.text == (if v.TextValue? then v.text else q.text)
    ensures r.options == (if v.OptionsValue? then v.options else q.options)
    ensures r.correctAnswer == (if v.CorrectAnswerValue? then v.correctAnswer else q.correctAnswer)
  {
    match v
    case IdValue(x) => q.(id := x)
    case TextValue(x) => q.(text := x)
    case OptionsValue(x) => q.(options := x)
    case CorrectAnswerValue(x) => q.(correctAnswer := x)
  }

  function AddQuestion(qs: seq<Question>, id: string): (r: seq<Question>)
    ensures |r| == |qs| + 1 && r[..|qs|] == qs
    ensures r[|qs|] == DefaultQuestion(id) && ValidQuestion(r[|qs|])
  {
    qs + [DefaultQuestion(id)]
  }

  function UpdateQuestion(qs: seq<Question>, i: int, v: FieldValue): (r: seq<Question>)
    requires 0 <= i < |qs|
    ensures |r| == |qs|
    ensures forall j :: 0 <= j < |qs| && j != i ==> r[j] == qs[j]
    ensures r[i] == WithField(qs[i], v)
  {
    qs[i := WithField(qs[i], v)]
  }

  /** `filter((_, j) => j !== i)`: an index outside the list removes nothing. */
  function RemoveQuestion(qs: seq<Question>, i: int): (r: seq<Question>)
    ensures 0 <= i < |qs| ==> |r| == |qs| - 1
    ensures 0 <= i < |qs| ==> forall j :: 0 <= j < i ==> r[j] == qs[j]
    ensures 0 <= i < |qs| ==> forall j :: i <= j < |r| ==> r[j] == qs[j + 1]
    ensures 0 <= i < |qs| ==> multiset(r) + multiset{qs[i]} == multiset(qs)
    ensures !(0 <= i < |qs|) ==> r == qs
  {
    if 0 <= i < |qs| then
      assert qs == qs[..i] + [qs[i]] + qs[i + 1..];
      qs[..i] + qs[i + 1..]
    else qs
  }

  /** Putting the removed question back at its place restores the list. */
  lemma RemoveQuestionUndone(qs: seq<Question>, i: int)
    requires 0 <= i < |qs|
    ensures RemoveQuestion(qs, i)[..i] + [qs[i]] + RemoveQuestion(qs, i)[i..] == qs
  {
    var r := RemoveQuestion(qs, i);
    assert r[..i] == qs[..i];
    assert r[i..] == qs[i + 1..];
    assert qs == qs[..i] + [qs[i]] + qs[i + 1..];
  }

  /** `options.push("")` on question `i`. */
  function AddOption(qs: seq<Question>, i: int): (r: seq<Question>)
    requires 0 <= i < |qs|
    ensures |r| == |qs|
    ensures forall j :: 0 <= j < |qs| && j != i ==> r[j] == qs[j]
    ensures r[i].options == qs[i].options + [""]
    ensures r[i].id == qs[i].id && r[i].text == qs[i].text && r[i].correctAnswer == qs[i].correctAnswer
  {
    qs[i := qs[i].(options := qs[i].options + [""])]
  }

  /** `options.splice(start, 1)`: a negative start counts from the end, and a start
      at or past the end removes nothing. */
  function Splice(options: seq<string>, start: int): (r: seq<string>)
    ensures 0 <= start < |options| ==> r == options[..start] + options[start + 1..]
    ensures start >= |options| ==> r == options
    ensures |r| == if start >= |options| || options == [] then |options| else |options| - 1
  {
    var k := if start < 0 then (if |options| + start < 0 then 0 else |options| + start) else start;
    if k < |options| then options[..k] + options[k + 1..] else options
  }

  /** Removes option `j` of question `i` and leaves `correctAnswer` as it was. */
  function RemoveOption(qs: seq<Question>, i: int, j: int): (r: seq<Question>)
    requires 0 <= i < |qs|
    ensures |r| == |qs|
    ensures forall k :: 0 <= k < |qs| && k != i ==> r[k] == qs[k]
    ensures r[i].options == Splice(qs[i].options, j)
    ensures r[i].id == qs[i].id && r[i].text == qs[i].text && r[i].correctAnswer == qs[i].correctAnswer
  {
    qs[i := qs[i].(options := Splice(qs[i].options, j))]
  }

  /** The delete-option button is enabled only above two options. */
  function RemoveOptionEnabled(q: Question): (enabled: bool)
    ensures enabled ==> forall j :: 0 <= j < |q.options| ==> |Splice(q.options, j)| >= 2
    ensures !enabled && q.options != [] ==> |Splice(q.options, 0)| < 2
  {
    |q.options| > 2
  }

  /** Through the buttons, a question keeps at least two options: adding grows
      them by one, and removing (only offered above two) shrinks them by one. */
  lemma OptionsStayAtLeastTwo(qs: seq<Question>, i: int, j: int)
    requires 0 <= i < |qs| && |qs[i].options| >= 2
    ensures |AddOption(qs, i)[i].options| == |qs[i].options| + 1
    ensures RemoveOptionEnabled(qs[i]) && 0 <= j < |qs[i].options| ==>
      |RemoveOption(qs, i, j)[i].options| == |qs[i].options| - 1 >= 2
  {
  }

  /** Adding an option keeps a well-formed question well-formed. */
  lemma AddOptionKeepsValid(qs: seq<Question>, i: int)
    requires 0 <= i < |qs| && ValidQuestion(qs[i])
    ensures ValidQuestion(AddOption(qs, i)[i])
  {
  }

  /** Because `removeOption` leaves `correctAnswer` alone, removing an option can
      leave the correct answer pointing past the options. */
  lemma RemoveOptionCanInvalidate()
    ensures var qs := [Question("q", "", ["a", "b", "c"], 2)];
      ValidQuestion(qs[0]) && RemoveOptionEnabled(qs[0]) && !ValidQuestion(RemoveOption(qs, 0, 0)[0])
  {
    var qs := [Question("q", "", ["a", "b", "c"], 2)];
    assert |RemoveOption(qs, 0, 0)[0].options| == 2;
  }
}
