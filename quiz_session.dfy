/**
 * The quiz session stepper of `QuizForm` without its widgets: a cursor over
 * the answers of a quiz, the answer it points at, the text typed by the user,
 * and the visibility of the "next" and "finish" buttons.
 */
module QuizSession {
  import opened Wrappers
  import opened Entities

  /** Thrown by `initializeForm` when the quiz would have no answers. */
  datatype QuizError = UserHasNoWordsException

  /**
   * `commitAndCheckWord` on values: the typed text is always recorded; only an
   * exact, case-sensitive match with the translation marks the answer correct
   * and adds one to the word's progress. A mismatch leaves the flag and the
   * word as they were (it does not reset `correct` to false).
   */
  function CommitAndCheck(a: QuizAnswer, typed: string): (r: QuizAnswer)
    ensures r.userAnswer == Some(typed)
    ensures r.word.original == a.word.original && r.word.translated == a.word.translated
    ensures typed == a.word.translated ==> r.correct && r.word.progress == a.word.progress + 1
    ensures typed != a.word.translated ==> r.correct == a.correct && r.word == a.word
  {
    var recorded := a.(userAnswer := Some(typed));
    if typed == a.word.translated then
      recorded.(word := a.word.IncrementProgress(), correct := true)
    else
      recorded
  }

  /**
   * The quiz as saved when every word was graded once, in order, against the
   * text typed for it.
   */
  function GradedQuiz(words: seq<Word>, typed: seq<string>): (q: Quiz)
    requires |typed| == |words|
    ensures |q| == |words|
    ensures forall i :: 0 <= i < |q| ==>
              && q[i].userAnswer == Some(typed[i])
              && q[i].word.original == words[i].original
              && q[i].word.translated == words[i].translated
              && (q[i].correct <==> typed[i] == words[i].translated)
              && q[i].word.progress == words[i].progress + (if typed[i] == words[i].translated then 1 else 0)
  {
    seq(|words|, i requires 0 <= i < |words| => CommitAndCheck(NewAnswer(words[i]), typed[i]))
  }

  /** The progress gained over a whole quiz is the number of correct answers. */
  lemma {:induction false} TotalProgressGain(words: seq<Word>, typed: seq<string>)
    requires |typed| == |words|
    ensures TotalProgress(Words(GradedQuiz(words, typed))) == TotalProgress(words) + CorrectCount(GradedQuiz(words, typed))
  {
    if words != [] {
      var q := GradedQuiz(words, typed);
      assert q[1..] == GradedQuiz(words[1..], typed[1..]);
      TotalProgressGain(words[1..], typed[1..]);
    }
  }

  /** A two-word session ("dog"/"pies", "cat"/"kot") answered "pies" twice: one right, one wrong. */
  lemma TwoWordSession()
    ensures GradedQuiz([Word("dog", "pies", 0), Word("cat", "kot", 3)], ["pies", "pies"])
         == [QuizAnswer(Word("dog", "pies", 1), Some("pies"), true),
             QuizAnswer(Word("cat", "kot", 3), Some("pies"), false)]
  {
  }

  class QuizForm {
    /** How many answers have been moved past: the cursor. */
    var answersDoneCounter: int
    /** The number of answers in the quiz. */
    var allWordsCount: int
    /** The position in `quiz` of the answer that `currentAnswer` refers to. */
    var currentAnswer: int
    /** The quiz being taken. */
    var quiz: Quiz
    /** The value of the read-only `original` text field: the word asked for. */
    var original: string
    /** The value of the `translated` text field: what the user typed. */
    var translated: string
    var nextVisible: bool
    var finishVisible: bool
    /** Visibility of the progress bar and the two text fields. */
    var quizFieldsVisible: bool
    /** Visibility of the summary grid. */
    var summaryVisible: bool

    /** The words the quiz was created from. */
    ghost var words: seq<Word>
    /** The text committed at each call of `CommitAndCheckWord`, in order. */
    ghost var inputs: seq<string>
    /** How many times each answer has been graded. */
    ghost var gradings: seq<nat>

    /** The cursor is a valid index, `currentAnswer` follows it, and the prompt shows its word. */
    ghost predicate Consistent()
      reads this
    {
      && allWordsCount == |quiz| == |words| == |gradings|
      && 0 <= answersDoneCounter < allWordsCount
      && currentAnswer == answersDoneCounter
      && original == quiz[answersDoneCounter].word.original
    }

    /**
     * A quiz in progress: exactly one of "next" and "finish" is shown, "next"
     * only while there is a further answer; answers before the cursor were
     * graded once each, in order, and the rest not at all.
     */
    ghost predicate Active()
      reads this
      ensures Active() ==> nextVisible != finishVisible
    {
      && Consistent()
      && quizFieldsVisible && !summaryVisible
      && nextVisible == (answersDoneCounter + 1 < allWordsCount)
      && finishVisible == !nextVisible
      && |inputs| == answersDoneCounter
      && (forall i :: 0 <= i < answersDoneCounter ==>
            quiz[i] == CommitAndCheck(NewAnswer(words[i]), inputs[i]) && gradings[i] == 1)
      && (forall i :: answersDoneCounter <= i < allWordsCount ==>
            quiz[i] == NewAnswer(words[i]) && gradings[i] == 0)
    }

    /** A finished quiz: every answer graded exactly once; the quiz fields, "next" and "finish" hidden and the summary shown. */
    ghost predicate Finished()
      reads this
    {
      && Consistent()
      && !quizFieldsVisible && summaryVisible && !nextVisible && !finishVisible
      && answersDoneCounter == allWordsCount - 1
      && |inputs| == allWordsCount
      && quiz == GradedQuiz(words, inputs)
      && (forall i :: 0 <= i < |gradings| ==> gradings[i] == 1)
    }

    /** The form as the framework creates it, before `InitializeForm`. */
    constructor ()
      ensures quiz == [] && allWordsCount == 0 && answersDoneCounter == 0
      ensures !nextVisible && !finishVisible && !quizFieldsVisible && !summaryVisible
    {
      answersDoneCounter, allWordsCount, currentAnswer := 0, 0, 0;
      quiz, original, translated := [], "", "";
      nextVisible, finishVisible, quizFieldsVisible, summaryVisible := false, false, false, false;
      words, inputs, gradings := [], [], [];
    }

    /**
     * Starts a quiz on `wordList`. An empty list throws after the cursor,
     * the quiz and the count have been reset; otherwise the first word is
     * asked and "finish" is shown instead of "next" when there is only one.
     */
    method InitializeForm(wordList: seq<Word>) returns (r: Outcome<QuizError>)
      modifies this
      ensures r.Fail? <==> |wordList| == 0
      ensures answersDoneCounter == 0 && quiz == CreateQuiz(wordList) && allWordsCount == |wordList|
      ensures r.Fail? ==>
                && r.error == UserHasNoWordsException
                && currentAnswer == old(currentAnswer) && original == old(original)
                && translated == old(translated)
                && nextVisible == old(nextVisible) && finishVisible == old(finishVisible)
                && quizFieldsVisible == old(quizFieldsVisible) && summaryVisible == old(summaryVisible)
                && words == old(words) && inputs == old(inputs) && gradings == old(gradings)
      ensures r.Pass? ==>
                && Active() && words == wordList && inputs == []
                && currentAnswer == 0 && original == wordList[0].original && translated == ""
                && (finishVisible <==> allWordsCount < 2) && nextVisible == !finishVisible
    {
      answersDoneCounter := 0;
      quiz := CreateQuiz(wordList);
      allWordsCount := |quiz|;
      if allWordsCount == 0 {
        return Fail(UserHasNoWordsException);
      }
      currentAnswer := answersDoneCounter;
      words, inputs, gradings := wordList, [], seq(|wordList|, _ => 0);
      InitializeComponents();
      r := Pass;
    }

    /** Builds fresh text fields and buttons; picks "finish" for a one-word quiz. */
    method InitializeComponents()
      requires 0 <= currentAnswer < |quiz|
      modifies this`original, this`translated, this`nextVisible, this`finishVisible,
               this`quizFieldsVisible, this`summaryVisible
      ensures original == quiz[currentAnswer].word.original && translated == ""
      ensures finishVisible == (allWordsCount < 2) && nextVisible == !finishVisible
      ensures quizFieldsVisible && !summaryVisible
    {
      summaryVisible := false;
      quizFieldsVisible := true;
      original := quiz[currentAnswer].word.original;
      translated := "";
      if allWordsCount < 2 {
        finishVisible := true;
        nextVisible := false;
      } else {
        finishVisible := false;
        nextVisible := true;
      }
    }

    /** The user types `text` into the `translated` field. */
    method EnterText(text: string)
      modifies this`translated
      ensures translated == text
    {
      translated := text;
    }

    /** Records the typed text on the current answer and grades it. */
    method CommitAndCheckWord()
      requires 0 <= currentAnswer < |quiz| == |gradings|
      modifies this`quiz, this`inputs, this`gradings
      ensures quiz == old(quiz)[currentAnswer := CommitAndCheck(old(quiz[currentAnswer]), translated)]
      ensures gradings == old(gradings)[currentAnswer := old(gradings[currentAnswer]) + 1]
      ensures inputs == old(inputs) + [translated]
    {
      quiz := quiz[currentAnswer := CommitAndCheck(quiz[currentAnswer], translated)];
      inputs := inputs + [translated];
      gradings := gradings[currentAnswer := gradings[currentAnswer] + 1];
    }

    /** Clears the input, moves the cursor on by one and asks the next word. */
    method SwitchToNextWord()
      requires 0 <= answersDoneCounter && answersDoneCounter + 1 < |quiz|
      modifies this`translated, this`answersDoneCounter, this`currentAnswer, this`original
      ensures translated == ""
      ensures answersDoneCounter == old(answersDoneCounter) + 1 && currentAnswer == answersDoneCounter
      ensures original == quiz[answersDoneCounter].word.original
    {
      translated := "";
      answersDoneCounter := answersDoneCounter + 1;
      currentAnswer := answersDoneCounter;
      original := quiz[currentAnswer].word.original;
    }

    /** Hides "next" and shows "finish". */
    method ChangeToFinishButton()
      modifies this`nextVisible, this`finishVisible
      ensures !nextVisible && finishVisible
    {
      nextVisible := false;
      finishVisible := true;
    }

    /**
     * The "next" button: grades the current answer, moves to the next one and
     * switches to "finish" when that one is the last.
     */
    method GoToNext()
      requires Active() && nextVisible
      modifies this
      ensures Active() && words == old(words)
      ensures answersDoneCounter == old(answersDoneCounter) + 1 && translated == ""
      ensures quiz == old(quiz)[old(answersDoneCounter) := CommitAndCheck(old(quiz[answersDoneCounter]), old(translated))]
      ensures inputs == old(inputs) + [old(translated)]
      ensures finishVisible <==> answersDoneCounter + 1 >= allWordsCount
    {
      ghost var c := answersDoneCounter;
      CommitAndCheckWord();
      SwitchToNextWord();
      if answersDoneCounter + 1 >= allWordsCount {
        ChangeToFinishButton();
      }
      assert quiz[c] == CommitAndCheck(NewAnswer(words[c]), inputs[c]);
    }

    /** The "quit" button: only redirects, so nothing is graded or saved. */
    method QuitQuiz(homeView: string) returns (redirectTo: string)
      ensures redirectTo == homeView
    {
      redirectTo := homeView;
    }

    /**
     * The "finish" button: grades the current answer one last time, saves the
     * quiz (returned as `saved`), hides the quiz fields and "finish" and shows
     * the summary.
     */
    method FinishQuiz() returns (saved: Quiz)
      requires Active() && finishVisible
      modifies this`quiz, this`inputs, this`gradings,
               this`quizFieldsVisible, this`finishVisible, this`summaryVisible
      ensures Finished() && words == old(words)
      ensures saved == quiz
      ensures quiz == old(quiz)[old(answersDoneCounter) := CommitAndCheck(old(quiz[answersDoneCounter]), old(translated))]
      ensures inputs == old(inputs) + [old(translated)]
      ensures TotalProgress(Words(saved)) == TotalProgress(words) + CorrectCount(saved)
    {
      CommitAndCheckWord();
      saved := quiz;
      HideQuizFields();
      ShowSummary();
      assert quiz == GradedQuiz(words, inputs);
      TotalProgressGain(words, inputs);
    }

    method HideQuizFields()
      modifies this`quizFieldsVisible, this`finishVisible
      ensures !quizFieldsVisible && !finishVisible
    {
      quizFieldsVisible := false;
      finishVisible := false;
    }

    method ShowSummary()
      modifies this`summaryVisible
      ensures summaryVisible
    {
      summaryVisible := true;
    }
  }

  /**
   * The normal flow of a session: start on `wordList`, type `typed[i]` for the
   * i-th word and press "next" while it is shown, then type the last text and
   * press "finish". Fails exactly when there are no words; otherwise every
   * word is graded once against its own text and the saved progress of each
   * word is its old progress plus one if it was answered right.
   */
  method RunQuiz(wordList: seq<Word>, typed: seq<string>) returns (r: Result<Quiz, QuizError>)
    requires |typed| == |wordList|
    ensures r.Failure? <==> |wordList| == 0
    ensures r.Failure? ==> r.error == UserHasNoWordsException
    ensures r.Success? ==> r.value == GradedQuiz(wordList, typed)
    ensures r.Success? ==> TotalProgress(Words(r.value)) == TotalProgress(wordList) + CorrectCount(r.value)
  {
    var form := new QuizForm();
    var init := form.InitializeForm(wordList);
    if init.Fail? {
      return Failure(init.error);
    }
    var i := 0;
    while form.nextVisible
      invariant form.Active() && form.words == wordList
      invariant form.answersDoneCounter == i
      invariant form.inputs == typed[..i]
      decreases |wordList| - i
    {
      form.EnterText(typed[i]);
      form.GoToNext();
      i := i + 1;
    }
    form.EnterText(typed[i]);
    var saved := form.FinishQuiz();
    assert form.inputs == typed;
    r := Success(saved);
  }
}
