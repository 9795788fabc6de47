/**
 * The persistent entities the quiz works on: a vocabulary word with its
 * learning progress, and a quiz answer pairing one word with what the user
 * typed for it. A quiz is the ordered list of its answers.
 */
module Entities {
  import opened Wrappers

  /** A vocabulary entry: a word, its translation and how often it was answered right. */
  datatype Word = Word(original: string, translated: string, progress: int)
  {
    /** `Word.incrementProgress`: one more correct answer. */
    function IncrementProgress(): (r: Word)
      ensures r.original == original && r.translated == translated
      ensures r.progress == progress + 1
    {
      this.(progress := progress + 1)
    }
  }

  /**
   * One item of a quiz. `userAnswer` is `None` until the item is graded
   * (the Java field starts out `null`) and `correct` starts out false.
   */
  datatype QuizAnswer = QuizAnswer(word: Word, userAnswer: Option<string>, correct: bool)

  type Quiz = seq<QuizAnswer>

  /** The answer created for a word before anything was typed for it. */
  function NewAnswer(w: Word): QuizAnswer
  {
    QuizAnswer(w, None, false)
  }

  /**
   * `QuizService.createQuiz` is not part of this model; it is assumed to make
   * one fresh answer per word, in the order of the words.
   */
  function CreateQuiz(words: seq<Word>): (q: Quiz)
    ensures |q| == |words|
    ensures forall i :: 0 <= i < |q| ==> q[i].word == words[i] && q[i].userAnswer.None? && !q[i].correct
  {
    seq(|words|, i requires 0 <= i < |words| => NewAnswer(words[i]))
  }

  /** The words of a quiz, in order, as they would be persisted. */
  function Words(q: Quiz): (ws: seq<Word>)
    ensures |ws| == |q|
  {
    if q == [] then [] else [q[0].word] + Words(q[1..])
  }

  /** The sum of the progress counters of a list of words. */
  function TotalProgress(ws: seq<Word>): int
  {
    if ws == [] then 0 else ws[0].progress + TotalProgress(ws[1..])
  }

  /** How many answers of a quiz are marked correct. */
  function CorrectCount(q: Quiz): (n: nat)
    ensures n <= |q|
  {
    if q == [] then 0 else (if q[0].correct then 1 else 0) + CorrectCount(q[1..])
  }
}
