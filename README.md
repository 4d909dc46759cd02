# Quiz app: a verified model of its quiz state and scoring

The quiz app lets administrators create, edit and delete multiple-choice
quizzes. Any visitor can take a quiz and get scored, and every attempt is
logged. This project models the logic inside its React components and its
one context provider, leaving out the rendering:

- **Quiz provider** (`quiz_context.dfy`, `QuizContext.QuizProvider`). This class holds the
  user-created `quizzes` and the `results` log, plus the key-value store they are
  written through to. `AddQuiz` appends. `UpdateQuiz` replaces by id (a map).
  `DeleteQuiz` removes by id (a filter). `AddResult` appends. Every method
  keeps the write-through invariant: the store holds both current lists under
  `"quizzes"` and `"results"`. The constructor replays the mount sequence: the
  load effect reads both keys and the first save effect writes the empty lists.
  When either key held a list, the load's state update re-renders and the
  save effect writes the loaded lists; when neither did, nothing re-renders,
  and the empty lists written are the loaded ones.
- **Take-quiz session** (`take_quiz.dfy`, `TakeQuiz.Session`). This class holds the
  `quizStarted`, `candidateName`, `currentQuestion` and `answers` fields.
  Start is gated on the trimmed name. Previous and Next clamp the index. An
  answer writes one slot. Finish scores the attempt with the left fold
  `Score` and appends the result to the provider.
- **Question editing** (`question_edits.dfy`, plus the form classes in
  `create_quiz.dfy` and `edit_quiz.dfy`). The list edits both pages share
  are functions on `seq<Question>`. Creating submits one new quiz. Editing
  writes back only when the quiz's id is in the seed list: the seed entry is
  overwritten in place, then the provider replaces the quiz by id.
- **Results listing** (`results.dfy`). This is a stable sort by date, newest
  first, on a copy of the log. Titles are looked up seed-first, and the two
  panels use two different fallback strings.
- **Home** (`home.dfy`). This covers the combined catalog (seed, then user
  quizzes), the card actions gated on `isAdmin`, and the two-field delete
  dialog.

The seed catalog is a parameter. The edit page's submit writes into it, so
there it is an `array<Quiz>`. The signed-in user is an `Option<User>`. Clock
readings are inputs: result and question ids are strings, and dates are
integers (milliseconds).

In these points the code is less strict than one might expect:

- Load does not fail soft. Text that `JSON.parse` rejects makes it throw.
- `addQuiz` checks neither the title nor id uniqueness. The title check is
  only the disabled state of the create button.
- Delete filters the user list. A seed quiz's id removes nothing from the
  seed list, yet the page still reports a successful delete.
- The edit page refuses a quiz that is only in the user list
  (`EditQuiz.UserQuizOpensButIsRefused`). For a seed quiz, it overwrites the
  in-memory seed list. Nothing persists that change.
- The result stored by the take-quiz page carries `id` and `userId` besides
  the five declared fields. `Types.QuizResult` has all seven.

Several truthiness tests are modelled exactly:

- `if (stored)` skips an empty string as if the key were missing (`Stored.Blank`).
- `if (quizToDelete)` skips an empty id.
- `currentUser?.id || "anonymous"` turns an empty id into `"anonymous"`.
- `quiz?.title || fallback` shows the fallback for an empty title.

## Model

| member | source | states |
|---|---|---|
| Types.FindIndex | src/components/EditQuiz.tsx:81 | -1 when no quiz has the id, otherwise the position of the first quiz that has it |
| Types.Find | src/components/TakeQuiz.tsx:24 | None exactly when no quiz has the id; otherwise the first quiz with that id |
| Types.Merged | src/components/Home.tsx:53 | the combined list is the seed quizzes followed by the user quizzes, each in stored order |
| Types.LookupQuiz | src/components/TakeQuiz.tsx:24 | the quiz taken or edited is the seed's match when the seed has one, otherwise the user list's: seed entries win |
| Types.FindSeedFirst | src/components/TakeQuiz.tsx:24 | searching seed ++ user finds the seed match first, and the user match shifted by the seed's length otherwise |
| Text.AsciiWhitespace | src/components/TakeQuiz.tsx:94 | within ASCII, the characters `trim()` strips are exactly space, tab, line feed, carriage return, vertical tab and form feed |
| Text.TrimStart | src/components/TakeQuiz.tsx:72 | the suffix left after dropping the leading whitespace; it starts with a non-whitespace character or is empty |
| Text.TrimEnd | src/components/TakeQuiz.tsx:72 | the prefix left after dropping the trailing whitespace; it ends with a non-whitespace character or is empty |
| Text.Trim | src/components/TakeQuiz.tsx:72 | `trim()` is empty exactly when every character is whitespace, and is otherwise bounded by non-whitespace characters |
| Text.TrimIsInfix | src/components/TakeQuiz.tsx:94 | `trim()` returns the middle of the input, between a blank prefix and a blank suffix |
| Text.TrimEmptyIffBlank | src/components/TakeQuiz.tsx:94 | both directions of "the trimmed name is empty iff the name is all whitespace" |
| QuizContext.Replaced | src/context/QuizContext.tsx:35-37 | keeps length and order; every entry with the id becomes the new quiz and every other entry is unchanged |
| QuizContext.ReplacedIdempotent | src/context/QuizContext.tsx:35-37 | updating twice with the same quiz equals updating once |
| QuizContext.ReplacedAbsent | src/context/QuizContext.tsx:35-37 | updating an id no entry has leaves the list unchanged |
| QuizContext.Without | src/context/QuizContext.tsx:39-41 | no entry with the id survives, every entry without it does, and nothing new appears |
| QuizContext.WithoutConcat | src/context/QuizContext.tsx:39-41 | the filter distributes over concatenation, so the survivors keep their relative order |
| QuizContext.WithoutLength | src/context/QuizContext.tsx:39-41 | the length drops by exactly the number of entries with the id |
| QuizContext.WithoutAbsent | src/context/QuizContext.tsx:39-41 | deleting an absent id leaves the list unchanged |
| QuizContext.WithoutIdempotent | src/context/QuizContext.tsx:39-41 | repeating a delete changes nothing |
| QuizContext.Save | src/context/QuizContext.tsx:26-29 | after the save effect the store holds both current lists under their keys and every other key is unchanged |
| QuizContext.Load | src/context/QuizContext.tsx:19-24 | a missing or blank key leaves its list empty; a stored list replaces it; anything else is a parse failure, which names the quizzes key when that one is unparsable and the results key otherwise |
| QuizContext.SaveThenLoad | src/context/QuizContext.tsx:19-29 | loading what was saved gives back both lists unchanged |
| QuizContext.LoadEmptyStore | src/context/QuizContext.tsx:19-24 | a store with neither key loads two empty lists |
| QuizContext.QuizProvider.constructor | src/context/QuizContext.tsx:15-29 | after mounting, the lists are the loaded ones and the store holds them under both keys |
| QuizContext.QuizProvider.AddQuiz | src/context/QuizContext.tsx:31-33 | quizzes gain the new quiz at the end; results untouched; store written through |
| QuizContext.QuizProvider.UpdateQuiz | src/context/QuizContext.tsx:35-37 | quizzes become the replace-by-id of the old list; results untouched; store written through |
| QuizContext.QuizProvider.DeleteQuiz | src/context/QuizContext.tsx:39-41 | quizzes become the filter of the old list; results untouched; store written through |
| QuizContext.QuizProvider.AddResult | src/context/QuizContext.tsx:43-45 | results gain the new result at the end, earlier ones untouched; quizzes untouched; store written through |
| QuizContext.Remount | src/context/QuizContext.tsx:19-29 | a provider mounted later over the same store starts with exactly the current lists |
| TakeQuiz.Score | src/components/TakeQuiz.tsx:52-55 | the fold never exceeds the number of answers |
| TakeQuiz.ScoreCountsCorrect | src/components/TakeQuiz.tsx:52-55 | the fold equals the number of indices whose answer is non-null and equals that question's correct answer |
| TakeQuiz.ScoreExample | src/components/TakeQuiz.tsx:52-55 | correct answers 1 and 0 with answers 1 and 1 score 1 |
| TakeQuiz.UserIdOf | src/components/TakeQuiz.tsx:59 | the signed-in user's id when there is a user with a non-empty id, otherwise "anonymous"; never empty |
| TakeQuiz.BuildResult | src/components/TakeQuiz.tsx:57-65 | the result carries the quiz id, the entered name, the question count, the number of correct answers (between 0 and that count), and the user's id or "anonymous" when there is no user or the id is empty |
| TakeQuiz.PreviousIndex | src/components/TakeQuiz.tsx:41-43 | floors at 0; otherwise moves back by exactly one |
| TakeQuiz.NextIndex | src/components/TakeQuiz.tsx:45-49 | caps at the last question; otherwise moves forward by exactly one; stays within the questions |
| TakeQuiz.PreviousEnabled | src/components/TakeQuiz.tsx:132 | on a valid index, Previous is enabled exactly when pressing it moves back |
| TakeQuiz.NextShown | src/components/TakeQuiz.tsx:136 | on a valid index, Next is shown exactly when pressing it moves forward, and is hidden exactly on the last question |
| TakeQuiz.GuardsMatchMoves | src/components/TakeQuiz.tsx:129-148 | Previous is enabled exactly when it would move; Next is shown exactly when it would move; Finish is shown exactly on the last question |
| TakeQuiz.Unanswered | src/components/TakeQuiz.tsx:74 | one null answer per question |
| TakeQuiz.UnansweredScoresZero | src/components/TakeQuiz.tsx:74 | an attempt finished without answering scores 0 |
| TakeQuiz.AnswerOverwrites | src/components/TakeQuiz.tsx:35-39 | a later answer to the same question replaces the earlier one |
| TakeQuiz.Session.constructor | src/components/TakeQuiz.tsx:26-29 | not started, empty name, index 0, no answers |
| TakeQuiz.Session.StartEnabled | src/components/TakeQuiz.tsx:94 | Start is enabled exactly when the entered name is not all whitespace |
| TakeQuiz.Session.SetCandidateName | src/components/TakeQuiz.tsx:88 | only the name changes |
| TakeQuiz.Session.StartQuiz | src/components/TakeQuiz.tsx:71-76 | no effect unless the trimmed name is non-empty; then started with one null answer per question |
| TakeQuiz.Session.HandleAnswer | src/components/TakeQuiz.tsx:35-39 | only the current slot changes; the index stays |
| TakeQuiz.Session.HandlePrevious | src/components/TakeQuiz.tsx:41-43 | the index becomes the floored predecessor; answers unchanged; the index stays in range |
| TakeQuiz.Session.HandleNext | src/components/TakeQuiz.tsx:45-49 | the index becomes the capped successor; answers unchanged; the index stays in range |
| TakeQuiz.Session.HandleFinish | src/components/TakeQuiz.tsx:51-69 | appends exactly the built result to the provider's results and returns it; quizzes unchanged |
| QuestionEdits.DefaultQuestion | src/components/CreateQuiz.tsx:26-31 | the appended question has the given id, no text, two empty options and answer 0, so it is well-formed |
| QuestionEdits.WithField | src/components/CreateQuiz.tsx:41 | the named field takes the new value and the other three keep theirs |
| QuestionEdits.AddQuestion | src/components/CreateQuiz.tsx:23-33 | existing questions unchanged; one default question appended, whose correct answer lies within its two options |
| QuestionEdits.UpdateQuestion | src/components/CreateQuiz.tsx:35-43 | same count; only question i changes, and only in the named field |
| QuestionEdits.RemoveQuestion | src/components/CreateQuiz.tsx:45-47 | drops exactly question i and keeps the order of the rest; an index outside the list removes nothing |
| QuestionEdits.RemoveQuestionUndone | src/components/CreateQuiz.tsx:45-47 | reinserting the removed question at its index restores the list |
| QuestionEdits.AddOption | src/components/CreateQuiz.tsx:49-53 | question i gains one empty option at the end; nothing else changes |
| QuestionEdits.Splice | src/components/CreateQuiz.tsx:57 | `splice(j, 1)` deletes exactly the option at j when j is in range, and nothing when j is past the end |
| QuestionEdits.RemoveOption | src/components/EditQuiz.tsx:73-77 | question i loses the spliced option; its correct answer is not adjusted; other questions unchanged |
| QuestionEdits.RemoveOptionEnabled | src/components/CreateQuiz.tsx:117 | when the delete-option button is enabled, removing any option leaves at least two; when it is disabled, a removal would leave fewer |
| QuestionEdits.OptionsStayAtLeastTwo | src/components/CreateQuiz.tsx:49-59 | adding grows the options by one; removal, offered only above two, shrinks them by one and keeps at least two |
| QuestionEdits.AddOptionKeepsValid | src/components/EditQuiz.tsx:67-71 | adding an option keeps a well-formed question well-formed |
| QuestionEdits.RemoveOptionCanInvalidate | src/components/EditQuiz.tsx:73-77 | a concrete removal leaves the correct answer pointing past the options |
| CreateQuiz.SubmitEnabled | src/components/CreateQuiz.tsx:171 | disabled for an empty title or no questions; a whitespace-only title passes; every state the edit gate accepts passes too |
| CreateQuiz.TitleNotTrimmed | src/components/CreateQuiz.tsx:171 | a one-space title passes the create gate and fails the edit gate |
| CreateQuiz.CreateQuizForm.constructor | src/components/CreateQuiz.tsx:20-21 | empty title, no questions |
| CreateQuiz.CreateQuizForm.SetTitle | src/components/CreateQuiz.tsx:81 | only the title changes |
| CreateQuiz.CreateQuizForm.AddQuestion | src/components/CreateQuiz.tsx:23-33 | questions become the list with the default question appended |
| CreateQuiz.CreateQuizForm.UpdateQuestion | src/components/CreateQuiz.tsx:35-43 | questions become the one-field update |
| CreateQuiz.CreateQuizForm.RemoveQuestion | src/components/CreateQuiz.tsx:45-47 | questions become the list without index i |
| CreateQuiz.CreateQuizForm.AddOption | src/components/CreateQuiz.tsx:49-53 | questions become the list with the option pushed |
| CreateQuiz.CreateQuizForm.RemoveOption | src/components/CreateQuiz.tsx:55-59 | questions become the list with the option spliced out |
| CreateQuiz.CreateQuizForm.HandleSubmit | src/components/CreateQuiz.tsx:61-70 | adds exactly one quiz, carrying the entered title and questions, at the end of the provider's quizzes |
| EditQuiz.SubmitEnabled | src/components/EditQuiz.tsx:195 | Update is enabled exactly when the title is not all whitespace and there is at least one question |
| EditQuiz.UserQuizOpensButIsRefused | src/components/EditQuiz.tsx:79-89 | a quiz only the user list holds is found for editing, yet the seed search of the submit finds nothing |
| EditQuiz.EditQuizForm.constructor | src/components/EditQuiz.tsx:24-31 | the edited quiz is the first match of the route id in seed ++ user, or none |
| EditQuiz.EditQuizForm.SetTitle | src/components/EditQuiz.tsx:105 | only the title changes |
| EditQuiz.EditQuizForm.UpdateQuestion | src/components/EditQuiz.tsx:37-45 | the quiz's questions become the one-field update |
| EditQuiz.EditQuizForm.AddQuestion | src/components/EditQuiz.tsx:47-60 | the quiz's questions gain the default question |
| EditQuiz.EditQuizForm.RemoveQuestion | src/components/EditQuiz.tsx:62-65 | the quiz's questions lose index i |
| EditQuiz.EditQuizForm.AddOption | src/components/EditQuiz.tsx:67-71 | the quiz's question i gains an empty option |
| EditQuiz.EditQuizForm.RemoveOption | src/components/EditQuiz.tsx:73-77 | the quiz's question i loses the spliced option |
| EditQuiz.EditQuizForm.HandleSubmit | src/components/EditQuiz.tsx:79-94 | succeeds exactly when the id is in the seed list; then overwrites that seed entry and replaces by id in the provider; otherwise changes neither |
| Results.Insert | src/components/Results.tsx:41-43 | inserting adds exactly the one result to the multiset |
| Results.InsertKeepsOrder | src/components/Results.tsx:41-43 | inserting into a newest-first list keeps it newest first |
| Results.SortByDateDesc | src/components/Results.tsx:41-43 | a permutation of the log, of the same length, with dates non-increasing |
| Results.InsertWithDate | src/components/Results.tsx:41-43 | inserting places the result before every entry of its own date |
| Results.SortIsStable | src/components/Results.tsx:41-43 | for every date, the results with that date keep their log order |
| Results.SortExample | src/components/Results.tsx:41-43 | of two results, the later-dated one is listed first |
| Results.TitleOr | src/components/Results.tsx:69-82 | the title of the first quiz with the id in seed ++ user when that title is non-empty; the fallback when no quiz has the id or the first match's title is empty |
| Results.PastResults | src/components/Results.tsx:69-85 | one entry per result, in sorted order, each titled by lookup with fallback "Unknown Quiz" |
| Results.LatestPanel | src/components/Results.tsx:49-61 | shown exactly when a latest result is handed over, titled by the same lookup with fallback "Unkown  Quize" |
| Home.IsAdmin | src/components/Home.tsx:70 | `currentUser?.isAdmin`: false without a user, otherwise the user's flag |
| Home.CardActions | src/components/Home.tsx:70-99 | Edit and Delete exactly for admins; Take Test exactly for everyone else |
| Home.DeleteKeepsSeedQuizzes | src/components/Home.tsx:53 | after a delete a seed quiz is still the one found by its id, and an id no seed quiz has is no longer found |
| Home.DeleteDialog.constructor | src/components/Home.tsx:25-26 | dialog closed, nothing pending |
| Home.DeleteDialog.HandleDeleteClick | src/components/Home.tsx:28-31 | the id is pending and the dialog open; the catalog untouched |
| Home.DeleteDialog.HandleDeleteConfirm | src/components/Home.tsx:33-40 | deletes only when a non-empty id is pending; always closes the dialog and clears the pending id |
| Home.DeleteDialog.HandleDeleteCancel | src/components/Home.tsx:42-45 | closes the dialog and clears the pending id without deleting |

## Left out

- Rendering, layout and styling of every page and the header menu: no logic beyond the guards modelled above.
- Routing and navigation (`useParams`, `useNavigate`, `useLocation`). The route id and the handed-over latest result are plain inputs. Navigating away ends a page's state.
- Toast notifications. They are fire-and-forget. `EditQuizForm.HandleSubmit` returns `ok` where the page would show its error toast.
- Storage and serialisation. `localStorage` is a map from keys to abstract stored values, with no JSON text. A stored list of the other kind under a key counts as malformed. `JSON.parse` would accept it untyped.
- Parse failure. `QuizProvider.constructor` requires that loading succeeds, because the source's load effect throws on unparsable text and has no fallback. `Load` models that outcome as `ParseFailure`.
- Date handling. `Date.now()` ids, `toISOString()` and `getTime()` are inputs. Dates are integers, and invalid dates (a NaN comparator) are not modelled.
- `parseInt` of the answer and correct-answer fields. The integer is an input, and NaN is not modelled.
- The authentication context is not part of this model. The user is an `Option<User>`.
- The seed catalog's contents are not part of this model. It is a parameter.
- Aliasing. `addOption`, `removeOption` and the edit page's quiz share arrays with the catalog's stored quizzes. The model uses value semantics. So it does not capture that an option edit on the edit page already alters the catalog entry before submit.
- The edit page's lookup effect re-runs when the quizzes change, which discards unsaved edits. The model runs it once, in `EditQuizForm.constructor`.
- `QuestionEdits.UpdateQuestion`: `field` and `value` have independent types in the source. `FieldValue` pairs each field with a value of its own type.
- `TakeQuiz.Session.constructor` requires at least one question. A quiz without questions would index `questions[0]` while rendering.
- `TakeQuiz.Session.HandleAnswer`, `HandlePrevious` and `HandleNext` require a started session, because the page wires them only after start. `SetCandidateName` requires one not yet started.
- `TakeQuiz.Score` requires no more answers than questions. The session always has exactly one answer per question.
- Finish's guard `answers === null` never holds of an array, so Finish is always enabled once shown.
- React's asynchronous and batched state updates. Each handler is one atomic step on the current state.
