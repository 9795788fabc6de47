# Vocabulary quiz session and view access policy, in Dafny

This project models two parts of the Vocabulary application.

1. The quiz session stepper in `QuizForm`. A user practices a list of words. The form asks one word at a time. It grades what the user typed against the word's translation, and each right answer adds one to that word's progress. The form moves through the answers with "next" and ends with "finish", which grades the last answer and saves the quiz.
2. The view access policy in `AccessChecker.isAccessGranted`. It strips the first "View" from a view name. It then decides from four view lists and whether a user is signed in.

Files:

- `wrappers.dfy`: module `Wrappers`. Holds `Option` (in place of Java `null`), `Outcome` (an operation that may throw) and `Result`.
- `entities.dfy`: module `Entities`. Holds `Word` (original, translated, progress), `QuizAnswer` (a word, the typed answer, the correct flag) and the quiz as a sequence of answers. It also holds `CreateQuiz`, the assumed behaviour of `QuizService.createQuiz`.
- `quiz_session.dfy`: module `QuizSession`.
  - `CommitAndCheck` grades one answer as a value.
  - `GradedQuiz` is the specification of a fully graded quiz.
  - Class `QuizForm` has the Java form's fields: the cursor `answersDoneCounter`, `allWordsCount`, `currentAnswer`, the quiz, the two text fields' values and the visibility of the "next" and "finish" buttons, the quiz fields and the summary. `InitializeForm` models the public `initializeForm`, `EnterText` models the user typing into the `translated` field, and the other methods model the form's private methods.
  - `RunQuiz` drives the normal flow. It presses "next" while "next" is shown and then presses "finish".
- `access_checker.dfy`: module `AccessChecker`. Holds first-occurrence removal of a substring, the access decision and one lemma per rung of its decision ladder.

Three ghost fields of `QuizForm` record history:

- `words`: the words the quiz was built from.
- `inputs`: the text committed each time an answer was graded.
- `gradings`: how many times each answer has been graded.

`Active()` is the invariant while a quiz is in progress:

- The cursor is a valid index.
- `currentAnswer` is the cursor.
- Exactly one of "next" and "finish" is visible, and "next" only while `answersDoneCounter + 1 < allWordsCount`.
- Every answer below the cursor has been graded exactly once, against its own typed text.
- Every answer at or after the cursor is untouched.

`Finished()` is the state after "finish": every answer graded exactly once, and the quiz equal to `GradedQuiz(words, inputs)`.

The form has no aborted state, its cursor never reaches the length, and grading an answer twice raises no error. The model follows the code:

- The cursor never moves past the last answer. "finish" grades the answer under the cursor without advancing.
- There is no aborted state. `quitQuiz` only redirects.
- No error is raised for grading an answer twice or for finishing twice. The button visibility alone prevents both.

## Model

| member | source | states |
|---|---|---|
| Entities.CreateQuiz | src/main/java/pl/nikowis/ui/QuizForm.java:62 | the quiz has one answer per word, in order, each not yet answered and not correct (an assumption: `createQuiz` is not visible) |
| Entities.Word.IncrementProgress | src/main/java/pl/nikowis/ui/QuizForm.java:151 | the word keeps its original and translation, and its progress goes up by exactly 1 |
| QuizSession.CommitAndCheck | src/main/java/pl/nikowis/ui/QuizForm.java:148-154 | the typed text is always recorded. An exact, case-sensitive match with `translated` sets `correct` and adds exactly 1 to progress. A mismatch leaves the flag and the word unchanged |
| QuizSession.GradedQuiz | src/main/java/pl/nikowis/ui/QuizForm.java:139-154 | each saved answer holds its typed text and its own word's original and translation. It is correct iff the text equals the translation. Its progress is the old progress plus 1 if correct, else plus 0 |
| QuizSession.TotalProgressGain | src/main/java/pl/nikowis/ui/QuizForm.java:148-154 | over a whole quiz, the total progress gained equals the number of correct answers |
| QuizSession.TwoWordSession | src/main/java/pl/nikowis/ui/QuizForm.java:148-154 | for "dog"/"pies" and "cat"/"kot" answered "pies" twice: the first answer is right and gains 1, the second is wrong and gains 0 |
| QuizSession.QuizForm.Active | src/main/java/pl/nikowis/ui/QuizForm.java:113-119 | while a quiz is in progress, exactly one of "next" and "finish" is visible |
| QuizSession.QuizForm.constructor | src/main/java/pl/nikowis/ui/QuizForm.java:44-53 | before initialisation the quiz is empty, the counters are 0 and nothing is shown |
| QuizSession.QuizForm.InitializeForm | src/main/java/pl/nikowis/ui/QuizForm.java:59-71 | throws `UserHasNoWordsException` iff the word list is empty, after the cursor, quiz and count were reset. Otherwise: cursor 0, current answer 0, the first word shown, the input empty, every answer ungraded, and "finish" shown iff there are fewer than 2 words, "next" otherwise |
| QuizSession.QuizForm.InitializeComponents | src/main/java/pl/nikowis/ui/QuizForm.java:98-119 | shows the current word and an empty input. "finish" is visible iff `allWordsCount < 2`, and "next" is visible exactly when "finish" is not |
| QuizSession.QuizForm.EnterText | src/main/java/pl/nikowis/ui/QuizForm.java:102-103 | the user's typing sets the `translated` field's value |
| QuizSession.QuizForm.CommitAndCheckWord | src/main/java/pl/nikowis/ui/QuizForm.java:148-154 | only the current answer changes, and it is graded against the typed text. Its grading count goes up by one |
| QuizSession.QuizForm.SwitchToNextWord | src/main/java/pl/nikowis/ui/QuizForm.java:156-161 | the input becomes "", the cursor goes up by exactly 1, the current answer follows it and the next word is shown. The quiz is unchanged |
| QuizSession.QuizForm.ChangeToFinishButton | src/main/java/pl/nikowis/ui/QuizForm.java:163-166 | "next" becomes hidden and "finish" visible |
| QuizSession.QuizForm.GoToNext | src/main/java/pl/nikowis/ui/QuizForm.java:139-146 | only reachable while `cursor + 1 < allWordsCount`. It grades the current answer and changes no other answer. The cursor goes up by 1 and the input becomes "". "finish" replaces "next" iff the new cursor is the last. The invariant `Active()` is kept |
| QuizSession.QuizForm.QuitQuiz | src/main/java/pl/nikowis/ui/QuizForm.java:168-170 | only yields the redirect target. It modifies nothing, so nothing is graded or saved |
| QuizSession.QuizForm.FinishQuiz | src/main/java/pl/nikowis/ui/QuizForm.java:172-178 | grades the current (last) answer and saves the quiz. The saved quiz has every answer graded exactly once, in order, against its own text, and the total progress gained equals the number of correct answers. Afterwards the quiz fields, "next" and "finish" are hidden and the summary is shown; the cursor, the current answer and both text fields keep their values |
| QuizSession.QuizForm.HideQuizFields | src/main/java/pl/nikowis/ui/QuizForm.java:180-185 | hides the quiz fields and "finish" |
| QuizSession.QuizForm.ShowSummary | src/main/java/pl/nikowis/ui/QuizForm.java:187-188 | shows the summary grid |
| QuizSession.RunQuiz | src/main/java/pl/nikowis/ui/QuizForm.java:59-178 | fails iff the word list is empty. After n-1 presses of "next" and one of "finish" on an n-word quiz, the saved quiz is `GradedQuiz` of the words and the typed texts, and total progress grows by the number of correct answers |
| AccessChecker.IndexOfFrom | src/main/java/pl/nikowis/security/AccessChecker.java:48 | finds the first position at or after `from` where the pattern occurs, or reports that it occurs nowhere from there |
| AccessChecker.RemoveFirst | src/main/java/pl/nikowis/security/AccessChecker.java:48 | a name without the pattern is unchanged. Otherwise exactly the first occurrence is deleted, and putting the pattern back at that position gives the original name |
| AccessChecker.RemoveFirstSuffix | src/main/java/pl/nikowis/security/AccessChecker.java:48 | a name followed by "View", with no earlier occurrence, is reduced to the bare name |
| AccessChecker.HomeViewNormalised | src/main/java/pl/nikowis/security/AccessChecker.java:48 | "HomeView" is looked up as "Home" |
| AccessChecker.IsAccessGranted | src/main/java/pl/nikowis/security/AccessChecker.java:45-65 | the name is first normalised by `Normalised`, which removes its first "View" (line 48); access is then granted iff the normalised name is in `permitAllViews`, or a user is present and the name is in `authenticatedViews` |
| AccessChecker.PermitAllGranted | src/main/java/pl/nikowis/security/AccessChecker.java:50-52 | a permit-all name is granted whether or not a user is present |
| AccessChecker.AnonymousDenied | src/main/java/pl/nikowis/security/AccessChecker.java:53-55 | with no user, a name outside `permitAllViews` is denied |
| AccessChecker.AuthenticatedGranted | src/main/java/pl/nikowis/security/AccessChecker.java:56-57 | with a user, a name in `authenticatedViews` is granted |
| AccessChecker.OtherViewsDenied | src/main/java/pl/nikowis/security/AccessChecker.java:58-64 | with a user, a name in neither `permitAllViews` nor `authenticatedViews` is denied. This includes names in `userViews` or `adminViews`, whose branches are empty |
| AccessChecker.IgnoresUiAndView | src/main/java/pl/nikowis/security/AccessChecker.java:45-65 | the decision does not depend on the `ui` or `view` arguments |

## Left out

- The progress bar (`1.0f / allWordsCount`, `setValue(1.0f)`): floating point, presentation only.
- Vaadin layout and widget construction, grid columns and the summary's row styles: presentation only. The "next" and "finish" buttons are modelled as visibility flags and each text field as its string value.
- The `quit` button's visibility is not modelled: Java never hides it, so it stays visible next to the summary after "finish".
- `QuizService.createQuiz`: its code is not part of this model. `CreateQuiz` assumes one fresh answer per word, in order.
- `QuizService.save`: its code is not part of this model. "finish" returns the quiz it would save.
- Navigation: `QuitQuiz` returns the target view name, and the name itself is a parameter.
- Shared `Word` objects: in Java an answer's `Word` is an object that may be shared with the caller's list, so grading changes it in memory even if the quiz is later quit and never saved. The model holds words as values, so quitting changes no word.
- Two answers holding the same Java `Word` object would both add to that one object. The per-answer +1 of `GradedQuiz` and the sum in `TotalProgressGain` then no longer match the Java. The model assumes the answers' words are distinct objects.
- `Word.incrementProgress`: its Java body is not shown. `Entities.Word.IncrementProgress` takes it to add 1 on an unbounded integer, with no 32-bit wrap-around.
- Text field values are never `null` in the model.
- QuizSession.QuizForm.SwitchToNextWord: requires a further answer to exist. `Quiz` is not shown; `quiz.getAnswer` is assumed to throw past the end, which in Java would happen after the input was cleared and the counter incremented. Its only caller, `goToNext`, runs while "next" is visible, and that implies a further answer.
- QuizSession.QuizForm.GoToNext: requires the "next" button to be visible, since only its click listener calls it. QuizSession.QuizForm.FinishQuiz likewise requires "finish" to be visible.
- `sessionService.getUser()` is an `Option` parameter of `IsAccessGranted`.
- The contents of the four view lists are parameters. The values of `LoginView.VIEW_NAME`, `RegisterView.VIEW_NAME` and `HomeView.VIEW_NAME` are not part of this model.
- `String.replaceFirst` takes a regular expression. The pattern "View" has no metacharacters, so the model removes the literal substring.
- `WordListView`: CRUD and presentation. Its only logic is a non-empty field check and a floating-point progress renderer.
