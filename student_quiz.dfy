/** The five-question quiz of frontend/src/components/StudentQuiz.tsx: the
    selection of questions from the pool, answering, advancing, finishing,
    restarting, and the score, grade and time shown at the end.

    `Math.random` enters as the order the shuffle leaves the pool in (any
    permutation of its positions) and `Date.now` as a `now` argument. The
    answers given so far are kept as a ghost field, so the score can be
    stated as the number of correct answers among them. */
module Quiz {
  import opened Common

  datatype Question = Question(id: int, question: string, options: seq<string>, correctAnswer: int, explanation: string, category: string)

  /** What `onQuizComplete` is called with. */
  datatype Report = Report(finalScore: int, total: int, timeTaken: int)

  datatype Grade = Perfect | Excellent | Good | KeepPracticing

  /** The pool holds twenty questions; a quiz takes five of them. */
  const PoolSize := 20
  const QuizLength := 5

  // ---------------------------------------------------------------------
  // Selecting the questions
  // ---------------------------------------------------------------------

  /** A rearrangement of the positions 0 .. n - 1. */
  predicate IsPermutation(order: seq<nat>, n: nat) {
    && |order| == n
    && (forall i :: 0 <= i < n ==> order[i] < n)
    && (forall i, j :: 0 <= i < j < n ==> order[i] != order[j])
  }

  /** `shuffleQuestions`: the pool in the shuffled order, cut to five. */
  function SelectQuestions(pool: seq<Question>, order: seq<nat>): (qs: seq<Question>)
    requires IsPermutation(order, |pool|)
    ensures |qs| == if |pool| < QuizLength then |pool| else QuizLength
    ensures forall k :: 0 <= k < |qs| ==> qs[k] == pool[order[k]]
  {
    var n := if |pool| < QuizLength then |pool| else QuizLength;
    seq(n, k requires 0 <= k < n => pool[order[k]])
  }

  /** No question is asked twice: when the pool's questions are distinct,
      so are the five selected. */
  lemma SelectedAreDistinct(pool: seq<Question>, order: seq<nat>)
    requires IsPermutation(order, |pool|)
    requires forall i, j :: 0 <= i < j < |pool| ==> pool[i] != pool[j]
    ensures var qs := SelectQuestions(pool, order);
      forall k, l :: 0 <= k < l < |qs| ==> qs[k] != qs[l]
  {
    var qs := SelectQuestions(pool, order);
    forall k, l | 0 <= k < l < |qs|
      ensures qs[k] != qs[l]
    {
      assert order[k] != order[l];
      if order[k] < order[l] {
        assert pool[order[k]] != pool[order[l]];
      } else {
        assert pool[order[l]] != pool[order[k]];
      }
    }
  }

  // ---------------------------------------------------------------------
  // Scoring
  // ---------------------------------------------------------------------

  /** The number of the given answers (one per question, in order) that
      match their question's correct option. */
  function CorrectCount(qs: seq<Question>, answers: seq<int>): (n: nat)
    requires |answers| <= |qs|
    ensures n <= |answers|
  {
    if answers == [] then 0
    else
      var last := |answers| - 1;
      CorrectCount(qs, answers[..last]) + (if answers[last] == qs[last].correctAnswer then 1 else 0)
  }

  /** Every answer correct gives a full count. */
  lemma {:induction false} AllCorrectCount(qs: seq<Question>, answers: seq<int>)
    requires |answers| <= |qs|
    requires forall i :: 0 <= i < |answers| ==> answers[i] == qs[i].correctAnswer
    ensures CorrectCount(qs, answers) == |answers|
  {
    if answers != [] {
      AllCorrectCount(qs, answers[..|answers| - 1]);
    }
  }

  /** The final score as written: the running score plus one more if the
      selected answer to the last question is correct, although the running
      score already counted it. */
  function FinalScoreAsWritten(score: int, selected: Option<int>, lastCorrect: int): int {
    score + if selected == Some(lastCorrect) then 1 else 0
  }

  /** The final score as intended: the running score, which has counted
      every answer already. */
  function IntendedFinalScore(score: int): int {
    score
  }

  /** `Math.round(x)` of the elapsed milliseconds over 1000. */
  function ElapsedSeconds(startTime: int, now: int): int {
    RoundHalfUp((now - startTime) as real / 1000.0)
  }

  /** The closing message, tests in the source's order. */
  function GradeOf(finalScore: int, total: int): Grade {
    if finalScore == total then Perfect
    else if finalScore as real >= total as real * 0.8 then Excellent
    else if finalScore as real >= total as real * 0.6 then Good
    else KeepPracticing
  }

  /** For the five-question quiz: 5 is perfect, 4 excellent, 3 good, and 0
      to 2 need more practice; any score above 5 reads as excellent. */
  lemma GradeBands(s: int)
    ensures GradeOf(s, QuizLength) == Perfect <==> s == 5
    ensures GradeOf(s, QuizLength) == Excellent <==> s == 4 || s > 5
    ensures GradeOf(s, QuizLength) == Good <==> s == 3
    ensures GradeOf(s, QuizLength) == KeepPracticing <==> s < 3
  {
  }

  /** `Math.floor(t / 60)` minutes and `t % 60` seconds make up the time. */
  lemma MinutesAndSeconds(t: int)
    requires t >= 0
    ensures var minutes, seconds := t / 60, JsRem(t, 60);
      t == 60 * minutes + seconds && 0 <= seconds < 60
  {
  }

  /** The intended score never exceeds the number of questions and is the
      number of correct answers; a run with every answer correct is perfect. */
  lemma IntendedScoreIsCorrectCount(qs: seq<Question>, answers: seq<int>)
    requires |answers| == |qs| == QuizLength
    ensures IntendedFinalScore(CorrectCount(qs, answers)) <= |qs|
    ensures (forall i :: 0 <= i < |answers| ==> answers[i] == qs[i].correctAnswer) ==>
      GradeOf(IntendedFinalScore(CorrectCount(qs, answers)), |qs|) == Perfect
  {
    if forall i :: 0 <= i < |answers| ==> answers[i] == qs[i].correctAnswer {
      AllCorrectCount(qs, answers);
    }
  }

  /** As written, a correct last answer is counted twice: a run with every
      answer correct reports 6 out of 5 and is graded excellent, not
      perfect, while four correct answers including the last one report a
      perfect 5. */
  lemma DoubleCountedLastAnswer(qs: seq<Question>, answers: seq<int>)
    requires |answers| == |qs| == QuizLength
    requires answers[QuizLength - 1] == qs[QuizLength - 1].correctAnswer
    ensures var written := FinalScoreAsWritten(CorrectCount(qs, answers), Some(answers[QuizLength - 1]), qs[QuizLength - 1].correctAnswer);
      && written == CorrectCount(qs, answers) + 1
      && ((forall i :: 0 <= i < |answers| ==> answers[i] == qs[i].correctAnswer) ==>
            written == |qs| + 1 && GradeOf(written, |qs|) == Excellent)
      && (CorrectCount(qs, answers) == 4 ==> GradeOf(written, |qs|) == Perfect)
  {
    if forall i :: 0 <= i < |answers| ==> answers[i] == qs[i].correctAnswer {
      AllCorrectCount(qs, answers);
    }
  }

  // ---------------------------------------------------------------------
  // The quiz component
  // ---------------------------------------------------------------------

  class StudentQuiz {
    /** `allQuizQuestions`. */
    const pool: seq<Question>
    /** `currentQuestions`. */
    var questions: seq<Question>
    /** `currentQuestion`, the index of the question shown. */
    var current: int
    /** `selectedAnswer`. */
    var selected: Option<int>
    /** `quizScore`. */
    var score: int
    var showExplanation: bool
    var completed: bool
    var startTime: int
    /** The answers given so far, one per question, in order. */
    ghost var answers: seq<int>

    /** The quiz is five questions long, the shown question exists, one
        answer is recorded per question up to and including the shown one
        once it is answered, the explanation shows exactly when an answer
        is selected, the score is the number of correct answers given, and
        a completed quiz ended on its answered last question. */
    ghost predicate Valid()
      reads this
    {
      && |pool| == PoolSize
      && |questions| == QuizLength
      && 0 <= current < |questions|
      && |answers| == current + (if selected.Some? then 1 else 0)
      && (selected.Some? ==> answers[current] == selected.value)
      && (showExplanation <==> selected.Some?)
      && score == CorrectCount(questions, answers)
      && (completed ==> selected.Some? && current == |questions| - 1)
    }

    /** Mounting: five questions selected, the clock started. */
    constructor(allQuestions: seq<Question>, order: seq<nat>, now: int)
      requires |allQuestions| == PoolSize && IsPermutation(order, PoolSize)
      ensures Valid()
      ensures pool == allQuestions && questions == SelectQuestions(allQuestions, order)
      ensures current == 0 && selected.None? && score == 0 && !completed && startTime == now
    {
      pool := allQuestions;
      questions := SelectQuestions(allQuestions, order);
      current := 0;
      selected := None;
      score := 0;
      showExplanation := false;
      completed := false;
      startTime := now;
      answers := [];
    }

    /** `handleQuizAnswer`, offered only while no answer is selected: the
        answer is selected, the explanation shown, and the score rises by one
        exactly when the answer is the correct option. */
    method Answer(index: int)
      requires Valid() && selected.None? && !completed
      modifies this
      ensures Valid()
      ensures selected == Some(index) && showExplanation
      ensures score == old(score) + (if index == questions[current].correctAnswer then 1 else 0)
      ensures score <= current + 1
      ensures questions == old(questions) && current == old(current) && !completed && startTime == old(startTime)
      ensures answers == old(answers) + [index]
    {
      selected := Some(index);
      showExplanation := true;
      answers := answers + [index];
      assert answers[..current] == old(answers);
      if index == questions[current].correctAnswer {
        score := score + 1;
      }
    }

    /** `nextQuestion`, offered once the shown question is answered: before
        the last question it moves on and clears the selection; on the last
        one it completes the quiz and reports the final score as written,
        the number of questions and the elapsed seconds. */
    method NextQuestion(now: int) returns (report: Option<Report>)
      requires Valid() && selected.Some? && !completed
      modifies this
      ensures Valid()
      ensures questions == old(questions) && score == old(score) && startTime == old(startTime) && answers == old(answers)
      ensures old(current) < |questions| - 1 ==>
        && report.None? && current == old(current) + 1 && selected.None? && !showExplanation && !completed
      ensures old(current) == |questions| - 1 ==>
        && current == old(current) && selected == old(selected) && completed
        && report == Some(Report(
             FinalScoreAsWritten(score, selected, questions[current].correctAnswer),
             |questions|, ElapsedSeconds(startTime, now)))
        && report.value.finalScore == CorrectCount(questions, answers) + (if selected.value == questions[current].correctAnswer then 1 else 0)
    {
      if current < |questions| - 1 {
        current := current + 1;
        selected := None;
        showExplanation := false;
        report := None;
      } else {
        var finalScore := FinalScoreAsWritten(score, selected, questions[current].correctAnswer);
        var timeTaken := ElapsedSeconds(startTime, now);
        completed := true;
        report := Some(Report(finalScore, |questions|, timeTaken));
      }
    }

    /** `restartQuiz`, offered on the results screen: five newly selected
        questions, everything else back to the start. */
    method Restart(order: seq<nat>, now: int)
      requires Valid() && completed && IsPermutation(order, PoolSize)
      modifies this
      ensures Valid()
      ensures questions == SelectQuestions(pool, order)
      ensures current == 0 && selected.None? && !showExplanation && score == 0 && !completed && startTime == now
      ensures answers == []
    {
      questions := SelectQuestions(pool, order);
      current := 0;
      selected := None;
      showExplanation := false;
      score := 0;
      completed := false;
      startTime := now;
      answers := [];
    }
  }
}
