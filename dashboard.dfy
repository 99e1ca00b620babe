/** The Dashboard's statistics cards (src/pages/Dashboard.jsx), computed over
    the student's three newest chat sessions and five newest attempts. */
module Dashboard {
  import opened Numbers
  import opened Records
  import opened Scoreboard

  /** The query limits of the two lists the dashboard fetches. */
  const SessionLimit := 3
  const AttemptLimit := 5

  datatype Stats = Stats(totalChats: nat, quizzesTaken: nat, averageScore: int, achievements: nat)

  /** The cards for the student's sessions and attempts, both newest first;
      each list is first cut to its query limit. */
  function DashboardStats(sessions: seq<ChatSession>, attempts: seq<Attempt>): (s: Stats)
    ensures s.totalChats == if |sessions| < SessionLimit then |sessions| else SessionLimit
    ensures s.quizzesTaken == if |attempts| < AttemptLimit then |attempts| else AttemptLimit
    ensures s.achievements == |PassedIndices(attempts[..s.quizzesTaken])| && s.achievements <= s.quizzesTaken
    ensures s.quizzesTaken == 0 <==> attempts == []
    ensures s.quizzesTaken > 0 ==> RoundsTo(Sum(Scores(attempts[..s.quizzesTaken])), s.quizzesTaken, s.averageScore)
    ensures s.quizzesTaken == 0 ==> s.averageScore == 0
  {
    var recent := Take(attempts, AttemptLimit);
    PassedCountIsCardinality(recent);
    Stats(|Take(sessions, SessionLimit)|, |recent|, AverageScore(recent), PassedCount(recent))
  }

  /** The average card lies between the lowest and highest of the five newest
      scores (any bounds on them), and is a percentage when they are. */
  lemma AverageWithinRecentScores(sessions: seq<ChatSession>, attempts: seq<Attempt>, lo: int, hi: int)
    requires attempts != []
    requires forall i :: 0 <= i < |attempts| && i < AttemptLimit ==> lo <= attempts[i].score <= hi
    ensures lo <= DashboardStats(sessions, attempts).averageScore <= hi
  {
    var recent := Take(attempts, AttemptLimit);
    assert forall i :: 0 <= i < |recent| ==> recent[i] == attempts[i];
    AverageBetween(recent, lo, hi);
  }

  /** Attempts older than the five newest do not change any card. */
  lemma OlderAttemptsIgnored(sessions: seq<ChatSession>, attempts: seq<Attempt>, older: seq<Attempt>)
    requires |attempts| >= AttemptLimit
    ensures DashboardStats(sessions, attempts + older) == DashboardStats(sessions, attempts)
  {
    assert Take(attempts + older, AttemptLimit) == Take(attempts, AttemptLimit);
  }

  /** Achievements count the passed attempts among the five newest: all of
      them passed exactly when achievements equal quizzes taken. */
  lemma AchievementsAllPassed(sessions: seq<ChatSession>, attempts: seq<Attempt>)
    ensures var s := DashboardStats(sessions, attempts);
      s.achievements == s.quizzesTaken <==>
        forall i :: 0 <= i < |attempts| && i < AttemptLimit ==> attempts[i].passed
  {
    var recent := Take(attempts, AttemptLimit);
    PassedCountAll(recent);
    assert forall i :: 0 <= i < |recent| ==> recent[i] == attempts[i];
  }
}
