/** The Quizzes page (src/pages/Quizzes.jsx): which of its four views is
    shown, the handlers that move between them, the statistics row and the
    per-quiz "latest attempt" badge and button label. */
module QuizzesPage {
  import opened Text
  import opened Numbers
  import opened Records
  import opened QuizTaking
  import opened Scoreboard

  /** The student's stored attempt and quiz pair match. */
  predicate Matches(a: Attempt, studentId: string, quizId: string)
  {
    a.studentId == studentId && a.quizId == quizId
  }

  /** `myAttempts.find(a => a.quiz_id === quiz.id)`: the first attempt for
      the quiz in the student's list. */
  function LatestAttempt(mine: seq<Attempt>, quizId: string): (r: Option<Attempt>)
    ensures r.Some? ==> r.value in mine && r.value.quizId == quizId
    ensures r.None? <==> forall i :: 0 <= i < |mine| ==> mine[i].quizId != quizId
  {
    if mine == [] then None
    else if mine[0].quizId == quizId then Some(mine[0])
    else
      assert forall i :: 1 <= i < |mine| ==> mine[i] == mine[1..][i - 1];
      LatestAttempt(mine[1..], quizId)
  }

  /** Looking up the student's newest-first list, one stored attempt at a
      time from the newest. */
  lemma LatestStep(rows: seq<Attempt>, studentId: string, quizId: string)
    requires rows != []
    ensures var last := rows[|rows| - 1];
      LatestAttempt(NewestFirst(rows, studentId), quizId) ==
        if Matches(last, studentId, quizId) then Some(last)
        else LatestAttempt(NewestFirst(rows[..|rows| - 1], studentId), quizId)
  {
    var last, rest := rows[|rows| - 1], NewestFirst(rows[..|rows| - 1], studentId);
    if last.studentId == studentId {
      assert NewestFirst(rows, studentId) == [last] + rest;
      assert ([last] + rest)[1..] == rest;
    } else {
      assert NewestFirst(rows, studentId) == rest;
    }
  }

  /** The quiz has no attempt on its card exactly when the student never
      stored one for it. */
  lemma {:induction false} NoLatestIffNeverAttempted(rows: seq<Attempt>, studentId: string, quizId: string)
    ensures LatestAttempt(NewestFirst(rows, studentId), quizId).None? <==>
      forall i :: 0 <= i < |rows| ==> !Matches(rows[i], studentId, quizId)
  {
    if rows != [] {
      var n := |rows| - 1;
      NoLatestIffNeverAttempted(rows[..n], studentId, quizId);
      LatestStep(rows, studentId, quizId);
      assert forall i :: 0 <= i < n ==> rows[i] == rows[..n][i];
    }
  }

  /** `rows[j]` is `a`, the last stored attempt of the student for the quiz. */
  predicate LastCreated(rows: seq<Attempt>, j: int, a: Attempt, studentId: string, quizId: string)
  {
    && 0 <= j < |rows| && rows[j] == a && Matches(a, studentId, quizId)
    && forall k :: j < k < |rows| ==> !Matches(rows[k], studentId, quizId)
  }

  /** Because the student's list is newest first, the attempt found is the
      one the student created last for that quiz. */
  lemma {:induction false} LatestIsLastCreated(rows: seq<Attempt>, studentId: string, quizId: string)
    requires LatestAttempt(NewestFirst(rows, studentId), quizId).Some?
    ensures exists j :: LastCreated(rows, j, LatestAttempt(NewestFirst(rows, studentId), quizId).value, studentId, quizId)
  {
    var n := |rows| - 1;
    var init := rows[..n];
    var found := LatestAttempt(NewestFirst(rows, studentId), quizId).value;
    LatestStep(rows, studentId, quizId);
    if Matches(rows[n], studentId, quizId) {
      assert LastCreated(rows, n, found, studentId, quizId);
    } else {
      LatestIsLastCreated(init, studentId, quizId);
      var j :| LastCreated(init, j, found, studentId, quizId);
      assert rows[j] == init[j];
      assert forall k :: j < k < n ==> !Matches(init[k], studentId, quizId);
      forall k | j < k < |rows| ensures !Matches(rows[k], studentId, quizId) {
        if k < n {
          assert rows[k] == init[k];
        } else {
          assert k == n;
        }
      }
      assert LastCreated(rows, j, found, studentId, quizId);
    }
  }

  /** Right after an attempt is stored, it is the one the quiz card shows. */
  lemma LatestAfterSubmit(rows: seq<Attempt>, a: Attempt)
    ensures LatestAttempt(NewestFirst(rows + [a], a.studentId), a.quizId) == Some(a)
  {
    NewestFirstAfterCreate(rows, a);
  }

  /** The quiz card's button: "Retake Quiz" once the quiz has an attempt. */
  function StartLabel(mine: seq<Attempt>, quizId: string): (caption: string)
    ensures caption == "Retake Quiz" <==> exists i :: 0 <= i < |mine| && mine[i].quizId == quizId
    ensures caption == "Start Quiz" <==> forall i :: 0 <= i < |mine| ==> mine[i].quizId != quizId
  {
    if LatestAttempt(mine, quizId).Some? then "Retake Quiz" else "Start Quiz"
  }

  /** The statistics row of the list view. */
  datatype Stats = Stats(totalQuizzes: nat, attempted: nat, passed: nat, avgScore: int)

  function PageStats(quizzes: seq<Quiz>, mine: seq<Attempt>): (s: Stats)
    ensures s.totalQuizzes == |quizzes| && s.attempted == |mine|
    ensures s.passed == |PassedIndices(mine)| && s.passed <= s.attempted
    ensures s.passed == s.attempted <==> forall i :: 0 <= i < |mine| ==> mine[i].passed
    ensures mine != [] ==> RoundsTo(Sum(Scores(mine)), |mine|, s.avgScore)
    ensures mine == [] ==> s.avgScore == 0
  {
    PassedCountAll(mine);
    PassedCountIsCardinality(mine);
    Stats(|quizzes|, |mine|, PassedCount(mine), AverageScore(mine))
  }

  /** Attempts stored by submitting quizzes have percentage scores, and so
      the average shown is a percentage. */
  lemma AverageShownIsPercentage(quizzes: seq<Quiz>, mine: seq<Attempt>)
    requires forall i :: 0 <= i < |mine| ==> 0 <= mine[i].score <= 100
    ensures 0 <= PageStats(quizzes, mine).avgScore <= 100
  {
    AverageIsPercentage(mine);
  }

  /** The four views, in the order the page tests them. */
  datatype View = Taking(quiz: Quiz) | Reviewing(completion: Completion) | Creating | Listing

  class QuizzesView {
    var showCreator: bool
    var activeQuiz: Option<Quiz>
    var quizResults: Option<Completion>

    /** At most one of the three view fields is set: every handler clears the
        one it leaves. */
    predicate Exclusive()
      reads this
    {
      && (activeQuiz.Some? ==> quizResults.None? && !showCreator)
      && (quizResults.Some? ==> !showCreator)
    }

    /** The view the page renders: the taker, else the results, else the
        creator, else the list. */
    function Current(): (v: View)
      reads this
      ensures activeQuiz.Some? ==> v == Taking(activeQuiz.value)
      ensures activeQuiz.None? && quizResults.Some? ==> v == Reviewing(quizResults.value)
      ensures activeQuiz.None? && quizResults.None? ==> (v == Creating <==> showCreator)
      ensures v == Listing <==> activeQuiz.None? && quizResults.None? && !showCreator
    {
      if activeQuiz.Some? then Taking(activeQuiz.value)
      else if quizResults.Some? then Reviewing(quizResults.value)
      else if showCreator then Creating
      else Listing
    }

    constructor ()
      ensures !showCreator && activeQuiz == None && quizResults == None
      ensures Exclusive() && Current() == Listing
    {
      showCreator := false;
      activeQuiz := None;
      quizResults := None;
    }

    /** `startQuiz(quiz)`, from a quiz card of the list. */
    method StartQuiz(quiz: Quiz)
      requires Exclusive() && Current() == Listing
      modifies this`activeQuiz, this`quizResults
      ensures activeQuiz == Some(quiz) && quizResults == None && showCreator == old(showCreator)
      ensures Exclusive() && Current() == Taking(quiz)
    {
      activeQuiz := Some(quiz);
      quizResults := None;
    }

    /** `handleQuizComplete(results)`, the taker's `onComplete`. */
    method HandleQuizComplete(results: Completion)
      requires Exclusive() && Current().Taking?
      modifies this`activeQuiz, this`quizResults
      ensures quizResults == Some(results) && activeQuiz == None && showCreator == old(showCreator)
      ensures Exclusive() && Current() == Reviewing(results)
    {
      quizResults := Some(results);
      activeQuiz := None;
    }

    /** `handleQuizCreated(quiz)`, the creator's `onQuizCreated`: closes the
        creator and starts the new quiz. */
    method HandleQuizCreated(quiz: Quiz)
      requires Exclusive() && Current() == Creating
      modifies this
      ensures !showCreator && activeQuiz == Some(quiz) && quizResults == None
      ensures Exclusive() && Current() == Taking(quiz)
    {
      showCreator := false;
      activeQuiz := Some(quiz);
      quizResults := None;
    }

    /** The Create Quiz button of the list view. */
    method OpenCreator()
      requires Exclusive() && Current() == Listing
      modifies this`showCreator
      ensures showCreator && activeQuiz == old(activeQuiz) && quizResults == old(quizResults)
      ensures Exclusive() && Current() == Creating
    {
      showCreator := true;
    }

    /** The creator's `onCancel`. */
    method CancelCreator()
      requires Exclusive() && Current() == Creating
      modifies this`showCreator
      ensures !showCreator && activeQuiz == old(activeQuiz) && quizResults == old(quizResults)
      ensures Exclusive() && Current() == Listing
    {
      showCreator := false;
    }

    /** The taker's `onCancel`: back to the list, without results. */
    method CancelQuiz()
      requires Exclusive() && Current().Taking?
      modifies this`activeQuiz
      ensures activeQuiz == None && quizResults == old(quizResults) && showCreator == old(showCreator)
      ensures Exclusive() && Current() == Listing
    {
      activeQuiz := None;
    }

    /** The results screen's `onClose`. */
    method CloseResults()
      requires Exclusive() && Current().Reviewing?
      modifies this`quizResults
      ensures quizResults == None && activeQuiz == old(activeQuiz) && showCreator == old(showCreator)
      ensures Exclusive() && Current() == Listing
    {
      quizResults := None;
    }
  }
}
