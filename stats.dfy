/** The aggregates the Quizzes, Dashboard and Progress pages compute over a
    student's attempts (src/pages/Quizzes.jsx, src/pages/Dashboard.jsx,
    src/pages/Progress.jsx), and the store query that feeds them. */
module Scoreboard {
  import opened Numbers
  import opened Records

  /** `QuizAttempt.filter({student_id}, '-created_date')` over the stored
      attempts, which are kept in creation order: the student's attempts,
      newest first. */
  function NewestFirst(rows: seq<Attempt>, studentId: string): (mine: seq<Attempt>)
    ensures |mine| <= |rows|
    ensures forall i :: 0 <= i < |mine| ==> mine[i].studentId == studentId
  {
    if rows == [] then []
    else
      var last := rows[|rows| - 1];
      (if last.studentId == studentId then [last] else []) + NewestFirst(rows[..|rows| - 1], studentId)
  }

  /** Every stored attempt of the student is in their list, and nothing else is. */
  lemma {:induction false} NewestFirstMembers(rows: seq<Attempt>, studentId: string)
    ensures forall i :: 0 <= i < |rows| && rows[i].studentId == studentId ==> rows[i] in NewestFirst(rows, studentId)
    ensures forall a :: a in NewestFirst(rows, studentId) ==> a in rows
  {
    if rows != [] {
      var n := |rows| - 1;
      var init := rows[..n];
      NewestFirstMembers(init, studentId);
      var rest := NewestFirst(init, studentId);
      assert NewestFirst(rows, studentId) == (if rows[n].studentId == studentId then [rows[n]] else []) + rest;
      assert forall i :: 0 <= i < n ==> rows[i] == init[i];
      assert forall a :: a in init ==> a in rows;
    }
  }

  /** An attempt just created for the student comes first in their list. */
  lemma NewestFirstAfterCreate(rows: seq<Attempt>, a: Attempt)
    ensures NewestFirst(rows + [a], a.studentId) == [a] + NewestFirst(rows, a.studentId)
  {
    assert (rows + [a])[..|rows|] == rows;
  }

  /** The first `limit` entries, what a query with a limit returns. */
  function Take<T>(xs: seq<T>, limit: nat): (r: seq<T>)
    ensures |r| <= limit && |r| <= |xs|
    ensures |r| == limit || |r| == |xs|
    ensures r == xs[..|r|]
  {
    if |xs| <= limit then xs else xs[..limit]
  }

  /** `attempts.filter(a => a.passed).length`. */
  function PassedCount(attempts: seq<Attempt>): (n: nat)
    ensures n <= |attempts|
  {
    if attempts == [] then 0
    else (if attempts[0].passed then 1 else 0) + PassedCount(attempts[1..])
  }

  /** The positions of the passed attempts. */
  ghost function PassedIndices(attempts: seq<Attempt>): set<nat>
  {
    set i: nat | i < |attempts| && attempts[i].passed
  }

  /** Counting distributes over concatenation. */
  lemma {:induction false} PassedCountAppend(a: seq<Attempt>, b: seq<Attempt>)
    ensures PassedCount(a + b) == PassedCount(a) + PassedCount(b)
  {
    if a != [] {
      assert (a + b)[0] == a[0];
      assert (a + b)[1..] == a[1..] + b;
      PassedCountAppend(a[1..], b);
    } else {
      assert a + b == b;
    }
  }

  /** The pass count is the number of positions holding a passed attempt. */
  lemma {:induction false} PassedCountIsCardinality(attempts: seq<Attempt>)
    ensures PassedCount(attempts) == |PassedIndices(attempts)|
    decreases |attempts|
  {
    if attempts != [] {
      var n := |attempts| - 1;
      var init := attempts[..n];
      PassedCountIsCardinality(init);
      assert attempts == init + [attempts[n]];
      PassedCountAppend(init, [attempts[n]]);
      assert PassedCount([attempts[n]]) == if attempts[n].passed then 1 else 0 by {
        assert [attempts[n]][1..] == [];
      }
      assert n !in PassedIndices(init);
      if attempts[n].passed {
        assert PassedIndices(attempts) == PassedIndices(init) + {n};
      } else {
        assert PassedIndices(attempts) == PassedIndices(init);
      }
    } else {
      assert PassedIndices(attempts) == {};
    }
  }

  /** Every attempt passed exactly when the pass count is the number of attempts. */
  lemma {:induction false} PassedCountAll(attempts: seq<Attempt>)
    ensures PassedCount(attempts) == |attempts| <==> forall i :: 0 <= i < |attempts| ==> attempts[i].passed
  {
    if attempts != [] {
      PassedCountAll(attempts[1..]);
      if forall i :: 0 <= i < |attempts[1..]| ==> attempts[1..][i].passed {
        if attempts[0].passed {
          forall i | 0 <= i < |attempts| ensures attempts[i].passed {
            if i > 0 { assert attempts[i] == attempts[1..][i - 1]; }
          }
        }
      } else {
        var i :| 0 <= i < |attempts[1..]| && !attempts[1..][i].passed;
        assert !attempts[i + 1].passed;
      }
    }
  }

  /** The scores of a list of attempts, in order. */
  function Scores(attempts: seq<Attempt>): (xs: seq<int>)
    ensures |xs| == |attempts|
    ensures forall i :: 0 <= i < |attempts| ==> xs[i] == attempts[i].score
  {
    seq(|attempts|, i requires 0 <= i < |attempts| => attempts[i].score)
  }

  /** `attempts.length > 0 ? Math.round(sum / attempts.length) : 0`. */
  function AverageScore(attempts: seq<Attempt>): (avg: int)
    ensures attempts != [] ==> RoundsTo(Sum(Scores(attempts)), |attempts|, avg)
    ensures attempts == [] ==> avg == 0
  {
    RoundedMean(Scores(attempts))
  }

  /** The average lies between any lower and upper bound of the scores, so
      between the lowest and the highest score. */
  lemma AverageBetween(attempts: seq<Attempt>, lo: int, hi: int)
    requires |attempts| > 0
    requires forall i :: 0 <= i < |attempts| ==> lo <= attempts[i].score <= hi
    ensures lo <= AverageScore(attempts) <= hi
  {
    RoundedMeanBetween(Scores(attempts), lo, hi);
  }

  /** Scores are percentages, and so is their average. */
  lemma AverageIsPercentage(attempts: seq<Attempt>)
    requires forall i :: 0 <= i < |attempts| ==> 0 <= attempts[i].score <= 100
    ensures 0 <= AverageScore(attempts) <= 100
  {
    if attempts != [] {
      AverageBetween(attempts, 0, 100);
    }
  }

  /** The average of attempts that all scored the same is that score. */
  lemma AverageOfEqualScores(attempts: seq<Attempt>, s: int)
    requires |attempts| > 0
    requires forall i :: 0 <= i < |attempts| ==> attempts[i].score == s
    ensures AverageScore(attempts) == s
  {
    RoundedMeanConstant(Scores(attempts), s);
  }
}
