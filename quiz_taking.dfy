/** Taking a quiz (src/components/quiz/QuizTaker.jsx): navigation between
    questions, the answer map, the Next/Submit buttons, and scoring the
    submitted attempt. */
module QuizTaking {
  import opened Text
  import opened Numbers
  import opened Records
  import opened Gateway

  /** The lowest passing score, in percent. */
  const PassMark := 70

  /** `answers[index]`: the selected option, if any. */
  function Lookup(answers: map<nat, nat>, i: nat): Option<nat>
  {
    if i in answers then Some(answers[i]) else None
  }

  /** The result entry `submitQuiz` builds for one question. */
  function ResultFor(q: Question, selected: Option<nat>): QuestionResult
  {
    QuestionResult(q.text, selected, q.correctAnswer,
      selected.Some? && selected.value == q.correctAnswer, q.explanation)
  }

  /** `quiz.questions.map(...)` in `submitQuiz`: one result per question, in
      question order, correct exactly where the selected option is the
      question's `correct_answer`. */
  function Grade(questions: seq<Question>, answers: map<nat, nat>): (results: seq<QuestionResult>)
    ensures |results| == |questions|
    ensures forall i :: 0 <= i < |questions| ==>
      && results[i].question == questions[i].text
      && results[i].selected == Lookup(answers, i)
      && results[i].correct == questions[i].correctAnswer
      && results[i].explanation == questions[i].explanation
    ensures forall i :: 0 <= i < |questions| ==>
      (results[i].isCorrect <==> i in answers && answers[i] == questions[i].correctAnswer)
  {
    seq(|questions|, i requires 0 <= i < |questions| => ResultFor(questions[i], Lookup(answers, i)))
  }

  /** `results.filter(r => r.isCorrect).length`. */
  function CorrectCount(results: seq<QuestionResult>): (c: nat)
    ensures c <= |results|
  {
    if results == [] then 0
    else (if results[0].isCorrect then 1 else 0) + CorrectCount(results[1..])
  }

  /** The indices of the correct results. */
  ghost function CorrectIndices(results: seq<QuestionResult>): set<nat>
  {
    set i: nat | i < |results| && results[i].isCorrect
  }

  /** Counting distributes over concatenation. */
  lemma {:induction false} CorrectCountAppend(a: seq<QuestionResult>, b: seq<QuestionResult>)
    ensures CorrectCount(a + b) == CorrectCount(a) + CorrectCount(b)
  {
    if a != [] {
      assert (a + b)[0] == a[0];
      assert (a + b)[1..] == a[1..] + b;
      CorrectCountAppend(a[1..], b);
    } else {
      assert a + b == b;
    }
  }

  /** The count is the number of positions whose result is correct. */
  lemma {:induction false} CorrectCountIsCardinality(results: seq<QuestionResult>)
    ensures CorrectCount(results) == |CorrectIndices(results)|
    decreases |results|
  {
    if results != [] {
      var n := |results| - 1;
      var init := results[..n];
      CorrectCountIsCardinality(init);
      assert results == init + [results[n]];
      CorrectCountAppend(init, [results[n]]);
      assert CorrectCount([results[n]]) == if results[n].isCorrect then 1 else 0 by {
        assert [results[n]][1..] == [];
      }
      assert n !in CorrectIndices(init);
      if results[n].isCorrect {
        assert CorrectIndices(results) == CorrectIndices(init) + {n};
      } else {
        assert CorrectIndices(results) == CorrectIndices(init);
      }
    } else {
      assert CorrectIndices(results) == {};
    }
  }

  /** `Math.round((correct / total) * 100)`, computed exactly. */
  function Score(correct: nat, total: nat): (score: int)
    requires total > 0
    ensures RoundsTo(100 * correct, total, score)
  {
    RoundDiv(100 * correct, total)
  }

  /** A score is a percentage: between 0 and 100, 100 when every answer is
      correct and 0 when none is. */
  lemma ScoreBounds(correct: nat, total: nat)
    requires 0 < total && correct <= total
    ensures 0 <= Score(correct, total) <= 100
    ensures correct == total ==> Score(correct, total) == 100
    ensures correct == 0 ==> Score(correct, total) == 0
  {
    RoundDivBetween(100 * correct, total, 0, 100);
    if correct == total {
      RoundDivExact(100, total);
    }
    if correct == 0 {
      RoundDivExact(0, total);
    }
  }

  /** An attempt passes exactly when at least 69.5% of the answers are
      correct, the fraction that rounds to 70. */
  lemma PassIff(correct: nat, total: nat)
    requires total > 0
    ensures Score(correct, total) >= PassMark <==> 200 * correct >= 139 * total
  {
    var s := Score(correct, total);
    if s >= PassMark {
      MulMonotone(2 * total, PassMark, s);
    } else {
      MulMonotone(2 * total, s + 1, PassMark);
    }
  }

  /** More correct answers never give a lower score. */
  lemma ScoreMonotone(c: nat, c': nat, total: nat)
    requires total > 0 && c <= c'
    ensures Score(c, total) <= Score(c', total)
  {
    RoundDivMonotone(100 * c, 100 * c', total);
  }

  /** What `submitQuiz` hands to `onComplete`. */
  datatype Completion = Completion(quiz: Quiz, results: seq<QuestionResult>, score: int, passed: bool)

  /** Scoring of a submitted answer map: the results, the score and the pass flag. */
  function Evaluate(quiz: Quiz, answers: map<nat, nat>): (c: Completion)
    requires |quiz.questions| > 0
    ensures c.quiz == quiz && c.results == Grade(quiz.questions, answers)
    ensures RoundsTo(100 * CorrectCount(c.results), |quiz.questions|, c.score)
    ensures 0 <= c.score <= 100
    ensures c.passed <==> c.score >= PassMark
    ensures c.passed <==> 200 * CorrectCount(c.results) >= 139 * |quiz.questions|
  {
    var results := Grade(quiz.questions, answers);
    var score := Score(CorrectCount(results), |quiz.questions|);
    ScoreBounds(CorrectCount(results), |quiz.questions|);
    PassIff(CorrectCount(results), |quiz.questions|);
    Completion(quiz, results, score, score >= PassMark)
  }

  /** Answering every question correctly scores 100 and passes. */
  lemma AllCorrectScoresFull(quiz: Quiz, answers: map<nat, nat>)
    requires |quiz.questions| > 0
    requires forall i :: 0 <= i < |quiz.questions| ==> i in answers && answers[i] == quiz.questions[i].correctAnswer
    ensures Evaluate(quiz, answers).score == 100 && Evaluate(quiz, answers).passed
  {
    var results := Grade(quiz.questions, answers);
    AllCorrectCount(results);
    ScoreBounds(CorrectCount(results), |quiz.questions|);
  }

  lemma {:induction false} AllCorrectCount(results: seq<QuestionResult>)
    requires forall i :: 0 <= i < |results| ==> results[i].isCorrect
    ensures CorrectCount(results) == |results|
  {
    if results != [] {
      AllCorrectCount(results[1..]);
    }
  }

  /** The set of indices 0 .. n-1. */
  function Indices(n: nat): (r: set<nat>)
    ensures forall i: nat :: i in r <==> i < n
  {
    if n == 0 then {} else Indices(n - 1) + {n - 1}
  }

  lemma {:induction false} IndicesCardinality(n: nat)
    ensures |Indices(n)| == n
  {
    if n > 0 {
      IndicesCardinality(n - 1);
      var smaller := Indices(n - 1);
      assert n - 1 !in smaller;
      assert Indices(n) == smaller + {n - 1};
      assert |smaller + {n - 1}| == |smaller| + 1;
    }
  }

  /** Because every key of the answer map is a question index, counting the
      keys (`Object.keys(answers).length === quiz.questions.length`) decides
      whether every question has an answer. */
  lemma KeyCountMeansAllAnswered(answers: map<nat, nat>, n: nat)
    requires forall k :: k in answers ==> k < n
    ensures |answers.Keys| == n <==> forall i :: 0 <= i < n ==> i in answers
  {
    IndicesCardinality(n);
    assert answers.Keys <= Indices(n);
    if |answers.Keys| == n {
      var missing := Indices(n) - answers.Keys;
      assert Indices(n) == answers.Keys + missing;
      assert |missing| == 0;
      forall i | 0 <= i < n ensures i in answers {
        assert (i as nat) in Indices(n);
        assert i !in missing;
      }
    }
    if forall i :: 0 <= i < n ==> i in answers {
      assert answers.Keys == Indices(n);
    }
  }

  /** The state of one quiz being taken. */
  class QuizTaker {
    const quiz: Quiz
    var currentQuestion: nat
    var answers: map<nat, nat>

    /** The question shown is a question of the quiz, and answers are only
        ever recorded for question indices. */
    ghost predicate Valid()
      reads this
    {
      && currentQuestion < |quiz.questions|
      && forall k :: k in answers ==> k < |quiz.questions|
    }

    /** A quiz opens on its first question with no answers; a quiz without
        questions cannot be shown (its first question does not exist). */
    constructor (quiz: Quiz)
      requires |quiz.questions| > 0
      ensures this.quiz == quiz && currentQuestion == 0 && answers == map[]
      ensures Valid()
    {
      this.quiz := quiz;
      currentQuestion := 0;
      answers := map[];
    }

    /** `selectAnswer(index)`: records the option for the current question only. */
    method SelectAnswer(index: nat)
      requires Valid()
      modifies this`answers
      ensures Valid()
      ensures answers == old(answers)[currentQuestion := index]
      ensures currentQuestion in answers && answers[currentQuestion] == index
      ensures forall k :: k != currentQuestion ==> Lookup(answers, k) == Lookup(old(answers), k)
    {
      answers := answers[currentQuestion := index];
    }

    /** `nextQuestion()`: advances unless on the last question. */
    method NextQuestion()
      requires Valid()
      modifies this`currentQuestion
      ensures Valid()
      ensures old(currentQuestion) < |quiz.questions| - 1 ==> currentQuestion == old(currentQuestion) + 1
      ensures old(currentQuestion) == |quiz.questions| - 1 ==> currentQuestion == old(currentQuestion)
    {
      if currentQuestion < |quiz.questions| - 1 {
        currentQuestion := currentQuestion + 1;
      }
    }

    /** `previousQuestion()`: goes back unless on the first question. */
    method PreviousQuestion()
      requires Valid()
      modifies this`currentQuestion
      ensures Valid()
      ensures old(currentQuestion) > 0 ==> currentQuestion == old(currentQuestion) - 1
      ensures old(currentQuestion) == 0 ==> currentQuestion == 0
    {
      if currentQuestion > 0 {
        currentQuestion := currentQuestion - 1;
      }
    }

    /** The Previous button is disabled on the first question. */
    predicate PreviousEnabled()
      reads this
    {
      currentQuestion != 0
    }

    /** Before the last question the Next button is shown; on it, Submit. */
    predicate ShowsNext()
      reads this
    {
      currentQuestion < |quiz.questions| - 1
    }

    /** Next is enabled once the current question has an answer. */
    predicate NextEnabled()
      reads this
    {
      ShowsNext() && currentQuestion in answers
    }

    /** `allAnswered`. */
    predicate AllAnswered()
      reads this
    {
      |answers.Keys| == |quiz.questions|
    }

    /** Submit is enabled once every question has an answer. */
    predicate SubmitEnabled()
      reads this
    {
      !ShowsNext() && AllAnswered()
    }

    /** Submit can only be pressed on the last question with every question
        answered, and Next only with the current question answered. */
    lemma ButtonsNeedAnswers()
      requires Valid()
      ensures SubmitEnabled() <==>
        currentQuestion == |quiz.questions| - 1 && forall i :: 0 <= i < |quiz.questions| ==> i in answers
      ensures NextEnabled() <==>
        currentQuestion < |quiz.questions| - 1 && currentQuestion in answers
    {
      KeyCountMeansAllAnswered(answers, |quiz.questions|);
    }

    /** `submitQuiz()`: scores the answers, persists one attempt carrying the
        results, score and pass flag, then hands the same values on. The
        student id is `None` while the current user has not been fetched;
        reading its `id` then throws before anything is persisted. A failed
        create also stops the handler before `onComplete`. */
    method Submit(user: Option<string>, attempts: Table<Attempt>, outcome: Call<()>, now: int)
      returns (completion: Option<Completion>)
      requires Valid()
      modifies attempts
      ensures completion.Some? <==> user.Some? && outcome.Done?
      ensures completion.Some? ==> completion.value == Evaluate(quiz, answers)
      ensures completion.Some? ==> attempts.rows == old(attempts.rows) + [
        Attempt(user.value, quiz.id, completion.value.results, completion.value.score, completion.value.passed, now)]
      ensures completion.None? ==> attempts.rows == old(attempts.rows)
    {
      if user.None? {
        return None;
      }
      var c := Evaluate(quiz, answers);
      var ok := attempts.Create(Attempt(user.value, quiz.id, c.results, c.score, c.passed, now), outcome);
      completion := if ok then Some(c) else None;
    }
  }

  /** The example of five questions with correct answers 0,1,2,3,0 answered
      0,1,2,3,1: four correct, a score of 80, a pass. */
  lemma FourOfFivePasses(quiz: Quiz)
    requires |quiz.questions| == 5
    requires forall i :: 0 <= i < 5 ==> quiz.questions[i].correctAnswer == [0, 1, 2, 3, 0][i]
    ensures var c := Evaluate(quiz, map[0 := 0, 1 := 1, 2 := 2, 3 := 3, 4 := 1]);
      CorrectCount(c.results) == 4 && c.score == 80 && c.passed
  {
    var answers := map[0 := 0, 1 := 1, 2 := 2, 3 := 3, 4 := 1];
    var results := Grade(quiz.questions, answers);
    assert results == results[..4] + [results[4]];
    AllCorrectCount(results[..4]);
    CorrectCountAppend(results[..4], [results[4]]);
    assert CorrectCount([results[4]]) == 0 by {
      assert [results[4]][1..] == [];
    }
    RoundDivExact(80, 5);
  }
}
