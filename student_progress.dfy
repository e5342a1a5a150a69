/** The progress bookkeeping of frontend/src/components/StudentDashboard.tsx:
    experience points, level and counters kept per user in browser storage,
    the list of quiz attempts, and the choice of the daily tip and tool.

    Storage is one map per kind of entry, keyed by the user id that the
    source interpolates into "student-progress-<id>" and
    "quiz-attempts-<id>"; the JSON encoding of an entry is taken to
    round-trip. Ids, dates and the day of the year are inputs. */
module StudentProgress {
  import opened Common

  datatype Progress = Progress(xp: int, level: int, quizzesTaken: int, toolsViewed: int, conversationsSaved: int)

  /** A saved quiz attempt. */
  datatype Attempt = Attempt(id: string, date: string, timeTaken: int, score: int, total: int)

  /** The results panel shown after a quiz. */
  datatype QuizResults = QuizResults(score: int, total: int, completed: bool, timeTaken: int, date: string)

  /** The progress of a student with nothing saved. */
  const DefaultProgress := Progress(0, 1, 0, 0, 0)

  /** There are seven daily tips and seven daily tools. */
  const TipCount := 7
  const ToolCount := 7

  /** `Math.floor(xp / 100) + 1`; Dafny's integer division by a positive
      divisor is the floor. */
  function LevelFor(xp: int): int {
    xp / 100 + 1
  }

  /** Level n covers the 100 points from 100·(n - 1); a student with no
      negative points is at least at level 1. */
  lemma LevelCoversHundred(xp: int)
    ensures (LevelFor(xp) - 1) * 100 <= xp < LevelFor(xp) * 100
    ensures xp >= 0 ==> LevelFor(xp) >= 1
  {
  }

  /** `xp % 100`, the filled part of the level bar. */
  function LevelBar(xp: int): int {
    JsRem(xp, 100)
  }

  /** For points that are not negative, the bar shows how far into the
      current level the student is, a value in [0, 100). */
  lemma LevelBarWithinLevel(xp: int)
    requires xp >= 0
    ensures 0 <= LevelBar(xp) < 100
    ensures LevelBar(xp) == xp - (LevelFor(xp) - 1) * 100
  {
  }

  /** `getDailyContent`: the day of the year modulo each list's length. */
  function DailyIndices(dayOfYear: nat): (r: (int, int))
    ensures 0 <= r.0 < TipCount && 0 <= r.1 < ToolCount
    ensures r.0 == dayOfYear % TipCount && r.1 == dayOfYear % ToolCount
  {
    (JsRem(dayOfYear, TipCount), JsRem(dayOfYear, ToolCount))
  }

  /** The daily choice repeats every week. */
  lemma DailyIndicesWeekly(dayOfYear: nat)
    ensures DailyIndices(dayOfYear + 7) == DailyIndices(dayOfYear)
  {
  }

  /** The progress after a completed quiz with the given score. */
  function Completed(p: Progress, score: int): (q: Progress)
    ensures q.xp == p.xp + 10 * score && q.level == LevelFor(q.xp)
    ensures q.quizzesTaken == p.quizzesTaken + 1
    ensures q.toolsViewed == p.toolsViewed && q.conversationsSaved == p.conversationsSaved
  {
    var xp := p.xp + score * 10;
    p.(xp := xp, level := xp / 100 + 1, quizzesTaken := p.quizzesTaken + 1)
  }

  /** Completing quizzes never loses points or levels when the scores are
      not negative, and each completion counts once. */
  lemma {:induction false} CompletionsAccumulate(p: Progress, scores: seq<int>)
    requires p.level == LevelFor(p.xp)
    requires forall i :: 0 <= i < |scores| ==> scores[i] >= 0
    ensures var q := CompleteAll(p, scores);
      && q.xp >= p.xp && q.level >= p.level
      && q.quizzesTaken == p.quizzesTaken + |scores|
      && q.xp == p.xp + 10 * SumScores(scores)
    decreases |scores|
  {
    if scores != [] {
      var p1 := Completed(p, scores[0]);
      assert forall i :: 0 <= i < |scores[1..]| ==> scores[1..][i] == scores[i + 1];
      CompletionsAccumulate(p1, scores[1..]);
    }
  }

  /** The progress after a series of completed quizzes, in order. */
  function CompleteAll(p: Progress, scores: seq<int>): Progress
    decreases |scores|
  {
    if scores == [] then p else CompleteAll(Completed(p, scores[0]), scores[1..])
  }

  function SumScores(scores: seq<int>): int {
    if scores == [] then 0 else scores[0] + SumScores(scores[1..])
  }

  class StudentDashboard {
    /** `currentUser.id`; the empty id is falsy and loads nothing. */
    const userId: string
    var progress: Progress
    var attempts: seq<Attempt>
    var quizResults: Option<QuizResults>
    var showQuiz: bool
    /** The "student-progress-<id>" entries of browser storage. */
    var storedProgress: map<string, Progress>
    /** The "quiz-attempts-<id>" entries of browser storage. */
    var storedAttempts: map<string, seq<Attempt>>

    /** Mounting: the saved progress and attempts of the user, or the
        defaults when the id is empty or nothing is saved. */
    constructor(id: string, savedProgress: map<string, Progress>, savedAttempts: map<string, seq<Attempt>>)
      ensures userId == id && storedProgress == savedProgress && storedAttempts == savedAttempts
      ensures progress == if id != "" && id in savedProgress then savedProgress[id] else DefaultProgress
      ensures attempts == if id != "" && id in savedAttempts then savedAttempts[id] else []
      ensures quizResults.None? && !showQuiz
    {
      userId := id;
      storedProgress := savedProgress;
      storedAttempts := savedAttempts;
      progress := if id != "" && id in savedProgress then savedProgress[id] else DefaultProgress;
      attempts := if id != "" && id in savedAttempts then savedAttempts[id] else [];
      quizResults := None;
      showQuiz := false;
    }

    /** `handleQuizComplete`: ten points per correct answer, the level
        recomputed, one more quiz taken, exactly one attempt appended, the
        quiz closed, the results shown, and both storage entries of this
        user rewritten with the new values (other users' entries kept). */
    method HandleQuizComplete(score: int, total: int, timeTaken: int, attemptId: string, date: string)
      modifies this
      ensures progress == Completed(old(progress), score)
      ensures attempts == old(attempts) + [Attempt(attemptId, date, timeTaken, score, total)]
      ensures storedProgress == old(storedProgress)[userId := progress]
      ensures storedAttempts == old(storedAttempts)[userId := attempts]
      ensures quizResults == Some(QuizResults(score, total, true, timeTaken, date)) && !showQuiz
    {
      var newXp := progress.xp + score * 10;
      var newLevel := newXp / 100 + 1;
      progress := progress.(xp := newXp, level := newLevel, quizzesTaken := progress.quizzesTaken + 1);
      storedProgress := storedProgress[userId := progress];
      showQuiz := false;
      attempts := attempts + [Attempt(attemptId, date, timeTaken, score, total)];
      storedAttempts := storedAttempts[userId := attempts];
      quizResults := Some(QuizResults(score, total, true, timeTaken, date));
    }
  }
}
