/** The Progress page (src/pages/Progress.jsx): the summary statistics and
    one progress entry per syllabus outcome, grouped by stage. */
module Progress {
  import opened Text
  import opened Numbers
  import opened Records
  import opened Scoreboard

  /** A syllabus outcome: its code and name. */
  datatype Outcome = Outcome(code: string, name: string)

  /** `NESA_OUTCOMES`, in declaration order: Stage 4 Working Scientifically,
      Stage 4 content, Stage 5 Working Scientifically, Stage 5 content. */
  const Outcomes: seq<Outcome> := [
    Outcome("SC4-WS-01", "Questioning and predicting"),
    Outcome("SC4-WS-02", "Planning investigations"),
    Outcome("SC4-WS-03", "Conducting investigations"),
    Outcome("SC4-WS-04", "Processing data and information"),
    Outcome("SC4-WS-05", "Analysing data and information"),
    Outcome("SC4-WS-06", "Problem-solving"),
    Outcome("SC4-WS-07", "Communicating"),
    Outcome("SC4-WS-08", "Working collaboratively"),
    Outcome("SC4-OTU-01", "Observing the Universe"),
    Outcome("SC4-FOR-01", "Forces"),
    Outcome("SC4-CLS-01", "Cells and Classification"),
    Outcome("SC4-SOL-01", "Solutions and Mixtures"),
    Outcome("SC4-LIV-01", "Living Systems"),
    Outcome("SC4-PRT-01", "Periodic Table and Atomic Structure"),
    Outcome("SC4-CHG-01", "Change"),
    Outcome("SC4-DA1-01", "Data Science 1"),
    Outcome("SC5-WS-01", "Questioning and predicting"),
    Outcome("SC5-WS-02", "Planning investigations"),
    Outcome("SC5-WS-03", "Conducting investigations"),
    Outcome("SC5-WS-04", "Processing data and information"),
    Outcome("SC5-WS-05", "Analysing data and information"),
    Outcome("SC5-WS-06", "Problem-solving"),
    Outcome("SC5-WS-07", "Communicating"),
    Outcome("SC5-WS-08", "Working collaboratively"),
    Outcome("SC5-EGY-01", "Energy"),
    Outcome("SC5-DIS-01", "Disease"),
    Outcome("SC5-MAT-01", "Materials"),
    Outcome("SC5-ENV-01", "Environmental Sustainability"),
    Outcome("SC5-GEV-01", "Genetics and Evolutionary Change 1"),
    Outcome("SC5-GEV-02", "Genetics and Evolutionary Change 2"),
    Outcome("SC5-RXN-01", "Reactions 1"),
    Outcome("SC5-RXN-02", "Reactions 2"),
    Outcome("SC5-WAM-01", "Waves and Motion 1"),
    Outcome("SC5-WAM-02", "Waves and Motion 2"),
    Outcome("SC5-DA2-01", "Data Science 2")
  ]

  /** The summary cards. */
  datatype Stats = Stats(totalSessions: nat, totalQuizzes: nat, passed: nat, avgScore: int)

  function ProgressStats(sessions: seq<ChatSession>, attempts: seq<Attempt>): (s: Stats)
    ensures s.totalSessions == |sessions| && s.totalQuizzes == |attempts|
    ensures s.passed == |PassedIndices(attempts)| && s.passed <= s.totalQuizzes
    ensures attempts != [] ==> RoundsTo(Sum(Scores(attempts)), |attempts|, s.avgScore)
    ensures attempts == [] ==> s.avgScore == 0
  {
    PassedCountIsCardinality(attempts);
    Stats(|sessions|, |attempts|, PassedCount(attempts), AverageScore(attempts))
  }

  /** `code.includes("SC4") ? 4 : 5`. */
  function StageOf(code: string): (stage: nat)
    ensures stage == 4 <==> Contains(code, "SC4")
    ensures stage == 5 <==> !Contains(code, "SC4")
  {
    if Contains(code, "SC4") then 4 else 5
  }

  const WorkingScientifically := "Working Scientifically"
  const ContentFocusArea := "Content Focus Area"

  /** The category badge: Working Scientifically exactly for codes containing "WS". */
  function CategoryOf(code: string): (category: string)
    ensures category == WorkingScientifically <==> Contains(code, "WS")
    ensures category == ContentFocusArea <==> !Contains(code, "WS")
  {
    if Contains(code, "WS") then WorkingScientifically else ContentFocusArea
  }

  /** One entry of `outcomesProgress`. */
  datatype OutcomeProgress = OutcomeProgress(
    code: string,
    name: string,
    progress: int,
    attempts: nat,
    stage: nat,
    category: string)

  /** The entry of one outcome. Attempts are not linked to outcomes (the
      filter keeps every attempt), so each entry carries the overall figures. */
  function ProgressOf(o: Outcome, attempts: seq<Attempt>): (p: OutcomeProgress)
    ensures p.code == o.code && p.name == o.name
    ensures p.progress == AverageScore(attempts) && p.attempts == |attempts|
    ensures p.stage == StageOf(o.code) && p.category == CategoryOf(o.code)
  {
    var relevant := attempts;
    OutcomeProgress(o.code, o.name, AverageScore(relevant), |relevant|, StageOf(o.code), CategoryOf(o.code))
  }

  /** `outcomesProgress`: one entry per catalogue outcome, in catalogue order. */
  function OutcomesProgress(attempts: seq<Attempt>): (ps: seq<OutcomeProgress>)
    ensures |ps| == |Outcomes|
    ensures forall i :: 0 <= i < |ps| ==> ps[i] == ProgressOf(Outcomes[i], attempts)
  {
    seq(|Outcomes|, i requires 0 <= i < |Outcomes| => ProgressOf(Outcomes[i], attempts))
  }

  /** Every entry shows the page's overall average and attempt count. */
  lemma EntriesShowOverallFigures(sessions: seq<ChatSession>, attempts: seq<Attempt>)
    ensures forall i :: 0 <= i < |OutcomesProgress(attempts)| ==>
      OutcomesProgress(attempts)[i].progress == ProgressStats(sessions, attempts).avgScore
      && OutcomesProgress(attempts)[i].attempts == ProgressStats(sessions, attempts).totalQuizzes
  {
  }

  /** `outcomesProgress.filter(o => o.stage === stage)`. */
  function OfStage(ps: seq<OutcomeProgress>, stage: nat): (r: seq<OutcomeProgress>)
    ensures |r| <= |ps|
    ensures forall i :: 0 <= i < |r| ==> r[i].stage == stage
  {
    if ps == [] then []
    else (if ps[0].stage == stage then [ps[0]] else []) + OfStage(ps[1..], stage)
  }

  /** Filtering keeps order: it distributes over concatenation. */
  lemma {:induction false} OfStageAppend(a: seq<OutcomeProgress>, b: seq<OutcomeProgress>, stage: nat)
    ensures OfStage(a + b, stage) == OfStage(a, stage) + OfStage(b, stage)
  {
    if a != [] {
      assert (a + b)[0] == a[0];
      assert (a + b)[1..] == a[1..] + b;
      OfStageAppend(a[1..], b, stage);
    } else {
      assert a + b == b;
    }
  }

  /** When every entry is of Stage 4 or 5, the two stage lists split the
      entries between them: each entry is in exactly as many copies in one
      of them as in the whole list, and in none of the other. */
  lemma {:induction false} StagesPartition(ps: seq<OutcomeProgress>)
    requires forall i :: 0 <= i < |ps| ==> ps[i].stage == 4 || ps[i].stage == 5
    ensures multiset(OfStage(ps, 4)) + multiset(OfStage(ps, 5)) == multiset(ps)
    ensures |OfStage(ps, 4)| + |OfStage(ps, 5)| == |ps|
  {
    if ps != [] {
      assert ps == [ps[0]] + ps[1..];
      StagesPartition(ps[1..]);
    }
  }

  /** A Stage 5 code ("SC5-" followed by text without a 'C') does not
      contain "SC4": no position can start it. */
  lemma Stage5CodeLacksSC4(code: string)
    requires |code| >= 4 && code[..4] == "SC5-" && 'C' !in code[4..]
    ensures !Contains(code, "SC4")
  {
    ContainsIffOccurs(code, "SC4");
    forall i | 0 <= i <= |code| - 3 ensures !OccursAt(code, "SC4", i) {
      if i == 0 {
        assert code[i..i + 3][2] == code[..4][2];
      } else if i < 4 {
        assert code[i..i + 3][0] == code[..4][i];
      } else {
        assert code[i..i + 3][1] == code[4..][i - 3];
      }
    }
  }

  /** The catalogue: 35 outcomes, the first 16 of Stage 4 and the other 19 of
      Stage 5. */
  lemma CatalogueStages()
    ensures |Outcomes| == 35
    ensures forall i :: 0 <= i < 16 ==> StageOf(Outcomes[i].code) == 4
    ensures forall i :: 16 <= i < 35 ==> StageOf(Outcomes[i].code) == 5
  {
    StageFourOutcomes();
    StageFiveWorkingScientifically();
    StageFiveContent();
  }

  /** The Stage 4 codes start with "SC4". */
  lemma StageFourOutcomes()
    ensures forall i :: 0 <= i < 16 ==> StageOf(Outcomes[i].code) == 4
  {
    forall i | 0 <= i < 16 ensures StageOf(Outcomes[i].code) == 4 {
      StartsWithContains(Outcomes[i].code, "SC4");
    }
  }

  /** The Stage 5 Working Scientifically codes lack "SC4". */
  lemma StageFiveWorkingScientifically()
    ensures forall i :: 16 <= i < 24 ==> StageOf(Outcomes[i].code) == 5
  {
    forall i | 16 <= i < 24 ensures StageOf(Outcomes[i].code) == 5 {
      Stage5CodeLacksSC4(Outcomes[i].code);
    }
  }

  /** The Stage 5 content codes lack "SC4". */
  lemma StageFiveContent()
    ensures forall i :: 24 <= i < 35 ==> StageOf(Outcomes[i].code) == 5
  {
    forall i | 24 <= i < 35 ensures StageOf(Outcomes[i].code) == 5 {
      Stage5CodeLacksSC4(Outcomes[i].code);
    }
  }

  /** The Stage 4 card lists the first 16 catalogue outcomes and the Stage 5
      card the other 19, each in catalogue order. */
  lemma StageCards(attempts: seq<Attempt>)
    ensures OfStage(OutcomesProgress(attempts), 4) == OutcomesProgress(attempts)[..16]
    ensures OfStage(OutcomesProgress(attempts), 5) == OutcomesProgress(attempts)[16..]
  {
    CatalogueStages();
    SplitByStage(OutcomesProgress(attempts), 16);
  }

  /** A list whose first `m` entries are of Stage 4 and the rest of Stage 5
      splits at `m` into the two stage lists. */
  lemma {:induction false} SplitByStage(ps: seq<OutcomeProgress>, m: nat)
    requires m <= |ps|
    requires forall i :: 0 <= i < m ==> ps[i].stage == 4
    requires forall i :: m <= i < |ps| ==> ps[i].stage == 5
    ensures OfStage(ps, 4) == ps[..m] && OfStage(ps, 5) == ps[m..]
  {
    if m == 0 {
      OfStageNone(ps, 4);
      OfStageAll(ps, 5);
    } else {
      var rest := ps[1..];
      assert forall i :: 0 <= i < |rest| ==> rest[i] == ps[i + 1];
      SplitByStage(rest, m - 1);
      assert ps[..m] == [ps[0]] + rest[..m - 1];
      assert ps[m..] == rest[m - 1..];
    }
  }

  lemma {:induction false} OfStageAll(ps: seq<OutcomeProgress>, stage: nat)
    requires forall i :: 0 <= i < |ps| ==> ps[i].stage == stage
    ensures OfStage(ps, stage) == ps
  {
    if ps != [] {
      OfStageAll(ps[1..], stage);
    }
  }

  lemma {:induction false} OfStageNone(ps: seq<OutcomeProgress>, stage: nat)
    requires forall i :: 0 <= i < |ps| ==> ps[i].stage != stage
    ensures OfStage(ps, stage) == []
  {
    if ps != [] {
      OfStageNone(ps[1..], stage);
    }
  }

  /** The line under an outcome's bar. */
  function PracticeNote(p: OutcomeProgress): (note: string)
    ensures note == "Not yet practiced" <==> p.attempts == 0
  {
    if p.attempts > 0 then NatToString(p.attempts) + " activities completed" else "Not yet practiced"
  }
}
