/** The results screen of a submitted quiz (src/components/quiz/QuizResults.jsx):
    correct and missed counts, the mastery figure, the pass-dependent banner
    and buttons, and the language-model feedback with its fixed fallback. */
module QuizReview {
  import opened Text
  import opened Numbers
  import opened Records
  import opened Gateway
  import opened QuizTaking

  /** `results.filter(r => !r.isCorrect).map(r => r.question)`. */
  function Missed(results: seq<QuestionResult>): seq<string>
  {
    if results == [] then []
    else (if results[0].isCorrect then [] else [results[0].question]) + Missed(results[1..])
  }

  /** Filtering keeps order: the missed list of a concatenation is the
      concatenation of the missed lists. */
  lemma {:induction false} MissedAppend(a: seq<QuestionResult>, b: seq<QuestionResult>)
    ensures Missed(a + b) == Missed(a) + Missed(b)
  {
    if a != [] {
      assert (a + b)[0] == a[0];
      assert (a + b)[1..] == a[1..] + b;
      MissedAppend(a[1..], b);
    } else {
      assert a + b == b;
    }
  }

  /** A one-result list is missed exactly when that result is not correct. */
  lemma MissedSingle(r: QuestionResult)
    ensures Missed([r]) == if r.isCorrect then [] else [r.question]
  {
    assert [r][1..] == [];
  }

  /** "To Review" (total minus correct) is the length of the missed list, so
      correct plus to-review is the number of questions. */
  lemma {:induction false} ToReviewIsMissedCount(results: seq<QuestionResult>)
    ensures |Missed(results)| == |results| - CorrectCount(results)
    ensures CorrectCount(results) + |Missed(results)| == |results|
  {
    if results != [] {
      ToReviewIsMissedCount(results[1..]);
    }
  }

  /** Every question answered wrongly is in the missed list, and every entry of
      the list is the text of a wrongly answered question. */
  lemma {:induction false} MissedMembers(results: seq<QuestionResult>)
    ensures forall i :: 0 <= i < |results| && !results[i].isCorrect ==> results[i].question in Missed(results)
    ensures forall q :: q in Missed(results) ==> exists i :: 0 <= i < |results| && !results[i].isCorrect && results[i].question == q
  {
    if results != [] {
      MissedMembers(results[1..]);
      forall i | 0 <= i < |results| && !results[i].isCorrect
        ensures results[i].question in Missed(results)
      {
        if i > 0 {
          assert results[i] == results[1..][i - 1];
        }
      }
      forall q | q in Missed(results)
        ensures exists i :: 0 <= i < |results| && !results[i].isCorrect && results[i].question == q
      {
        if q in Missed(results[1..]) {
          var j :| 0 <= j < |results[1..]| && !results[1..][j].isCorrect && results[1..][j].question == q;
          assert results[j + 1] == results[1..][j];
        } else {
          assert !results[0].isCorrect && results[0].question == q;
        }
      }
    }
  }

  /** The mastery percentage, `Math.round((correctCount / results.length) * 100)`. */
  function Mastery(results: seq<QuestionResult>): int
    requires |results| > 0
  {
    Score(CorrectCount(results), |results|)
  }

  /** For the results of a submitted quiz, mastery is the score the attempt
      was given, and so a percentage. */
  lemma MasteryIsScore(quiz: Quiz, answers: map<nat, nat>)
    requires |quiz.questions| > 0
    ensures var c := Evaluate(quiz, answers);
      |c.results| > 0 && Mastery(c.results) == c.score && 0 <= Mastery(c.results) <= 100
  {
  }

  /** The score card's pass-dependent parts. */
  datatype Banner = Banner(heading: string, badge: string, showsTryAgain: bool)

  function BannerFor(passed: bool): (b: Banner)
    ensures b.showsTryAgain <==> !passed
    ensures b.badge == "Try again to pass (70%+)" <==> !passed
  {
    if passed then Banner("Congratulations!", "Passed! \U{1F389}", false)
    else Banner("Keep Practicing!", "Try again to pass (70%+)", true)
  }

  /** For a submitted quiz, the retry badge and the Try Again button appear
      exactly when the score is below the pass mark. */
  lemma TryAgainIffBelowPassMark(quiz: Quiz, answers: map<nat, nat>)
    requires |quiz.questions| > 0
    ensures var c := Evaluate(quiz, answers);
      BannerFor(c.passed).showsTryAgain <==> c.score < PassMark
  {
  }

  /** The encouragement shown when the feedback request fails. */
  const FallbackFeedback := "Great effort on this quiz! Keep practicing and you'll continue to improve. \U{1F31F}"

  /** The feedback panel of the results screen. */
  class FeedbackPanel {
    var aiFeedback: Option<string>
    var isGenerating: bool

    constructor ()
      ensures aiFeedback == None && !isGenerating
    {
      aiFeedback := None;
      isGenerating := false;
    }

    /** `generateAIFeedback()`: the model's reply, or the fallback text when
        the call fails; the failure goes no further, and the spinner is off
        afterwards either way. */
    method GenerateFeedback(reply: Call<string>)
      modifies this
      ensures !isGenerating
      ensures reply.Done? ==> aiFeedback == Some(reply.value)
      ensures reply.Failed? ==> aiFeedback == Some(FallbackFeedback)
    {
      isGenerating := true;
      match reply {
        case Done(text) => aiFeedback := Some(text);
        case Failed(_) => aiFeedback := Some(FallbackFeedback);
      }
      isGenerating := false;
    }
  }
}
