/** Generating a quiz (src/components/quiz/QuizCreator.jsx): the topic
    catalogue, the question-count input, the Generate button, the checks on
    the language model's reply and the quiz record that is persisted. */
module QuizGeneration {
  import opened Text
  import opened Records
  import opened Gateway

  /** A topic of the creator's drop-down list. */
  datatype CreatorTopic = CreatorTopic(value: string, name: string, stage: nat)

  /** `TOPICS`: eight Stage 4 topics followed by eight Stage 5 topics. */
  const Catalogue: seq<CreatorTopic> := [
    CreatorTopic("observing-universe", "Observing the Universe", 4),
    CreatorTopic("forces", "Forces", 4),
    CreatorTopic("cells-classification", "Cells and Classification", 4),
    CreatorTopic("solutions-mixtures", "Solutions and Mixtures", 4),
    CreatorTopic("living-systems", "Living Systems", 4),
    CreatorTopic("periodic-table", "Periodic Table & Atomic Structure", 4),
    CreatorTopic("change", "Change", 4),
    CreatorTopic("data-science-1", "Data Science 1", 4),
    CreatorTopic("energy", "Energy", 5),
    CreatorTopic("disease", "Disease", 5),
    CreatorTopic("materials", "Materials", 5),
    CreatorTopic("environmental-sustainability", "Environmental Sustainability", 5),
    CreatorTopic("genetics", "Genetics & Evolutionary Change", 5),
    CreatorTopic("reactions", "Reactions", 5),
    CreatorTopic("waves-motion", "Waves and Motion", 5),
    CreatorTopic("data-science-2", "Data Science 2", 5)
  ]

  /** The catalogue holds 16 topics, the first eight of Stage 4 and the last
      eight of Stage 5. */
  lemma CatalogueShape()
    ensures |Catalogue| == 16
    ensures forall i :: 0 <= i < 8 ==> Catalogue[i].stage == 4
    ensures forall i :: 8 <= i < 16 ==> Catalogue[i].stage == 5
  {
  }

  /** No two catalogue topics share a value. */
  lemma CatalogueValuesDistinct()
    ensures forall i, j :: 0 <= i < j < |Catalogue| ==> Catalogue[i].value != Catalogue[j].value
  {
  }

  /** The first catalogue index at or after `from` whose value is `value`. */
  function FindFrom(value: string, from: nat): (r: Option<nat>)
    requires from <= |Catalogue|
    ensures r.Some? ==> (from <= r.value < |Catalogue| && Catalogue[r.value].value == value
                         && forall k :: from <= k < r.value ==> Catalogue[k].value != value)
    ensures r.None? ==> forall k :: from <= k < |Catalogue| ==> Catalogue[k].value != value
    decreases |Catalogue| - from
  {
    if from == |Catalogue| then None
    else if Catalogue[from].value == value then Some(from)
    else FindFrom(value, from + 1)
  }

  /** `TOPICS.find(t => t.value === topic)`: the catalogue topic with that
      value, or `None` when no topic has it. */
  function FindTopic(value: string): (r: Option<CreatorTopic>)
    ensures r.Some? ==> r.value in Catalogue && r.value.value == value
    ensures r.None? <==> forall k :: 0 <= k < |Catalogue| ==> Catalogue[k].value != value
  {
    match FindFrom(value, 0)
    case Some(i) => Some(Catalogue[i])
    case None => None
  }

  /** The years label of a stage: "7-8" for Stage 4, "9-10" for any other. */
  function StageYears(stage: int): (r: string)
    ensures r == "7-8" <==> stage == 4
    ensures r == "9-10" <==> stage != 4
  {
    if stage == 4 then "7-8" else "9-10"
  }

  /** `parseInt(e.target.value) || 0`: the count typed into the number field,
      0 when it is not a number. */
  function CountFromInput(input: string): int
  {
    match ParseInt(input)
    case Some(n) => n
    case None => 0
  }

  /** The Generate button: `!topic || isGenerating || questionCount < 3 ||
      questionCount > 10 || questionCount === 0` disables it. */
  function CanGenerate(topic: string, isGenerating: bool, questionCount: int): (enabled: bool)
    ensures enabled <==> topic != "" && !isGenerating && 3 <= questionCount <= 10
  {
    !(topic == "" || isGenerating || questionCount < 3 || questionCount > 10 || questionCount == 0)
  }

  /** Typing a count from 3 to 10 (possibly followed by a fraction or other
      non-digit text) enables Generate once a topic is chosen and nothing is
      being generated; text that is not a number never does. */
  lemma CountInputEnables(topic: string, n: nat, rest: string)
    requires rest == [] || !IsDigit(rest[0])
    requires topic != ""
    ensures CountFromInput(NatToString(n) + rest) == n
    ensures CanGenerate(topic, false, CountFromInput(NatToString(n) + rest)) <==> 3 <= n <= 10
  {
    ParseIntOfNatToString(n, rest);
  }

  lemma NonNumericCountDisables(topic: string, isGenerating: bool, input: string)
    requires ParseInt(input) == None
    ensures CountFromInput(input) == 0
    ensures !CanGenerate(topic, isGenerating, CountFromInput(input))
  {
  }

  /** The structured reply of the language model; either field may be missing. */
  datatype QuizResponse = QuizResponse(title: Option<string>, questions: Option<seq<Question>>)

  /** A reply that passed the structure check. */
  datatype Draft = Draft(title: string, questions: seq<Question>)

  const InvalidStructure := "Invalid response structure from LLM."

  /** A reply with a non-empty title and a non-empty question list. */
  predicate WellFormed(resp: QuizResponse)
  {
    resp.title.Some? && resp.title.value != "" && resp.questions.Some? && |resp.questions.value| > 0
  }

  /** The call to the model followed by the check `!response || !response.title
      || !Array.isArray(response.questions) || response.questions.length === 0`:
      a failed call keeps its own error; a reply that is null, has no or an
      empty title, or no or an empty question list fails the check. */
  function Validate(reply: Call<Option<QuizResponse>>): (r: Call<Draft>)
    ensures r.Done? <==> reply.Done? && reply.value.Some? && WellFormed(reply.value.value)
    ensures r.Done? ==> r.value == Draft(reply.value.value.title.value, reply.value.value.questions.value)
    ensures reply.Failed? ==> r == Failed(reply.message)
    ensures reply.Done? && r.Failed? ==> r.message == InvalidStructure
  {
    match reply
    case Failed(m) => Failed(m)
    case Done(None) => Failed(InvalidStructure)
    case Done(Some(resp)) =>
      if resp.title.None? || resp.title.value == "" || resp.questions.None? || |resp.questions.value| == 0
      then Failed(InvalidStructure)
      else Done(Draft(resp.title.value, resp.questions.value))
  }

  /** The single outcome code a generated quiz is tagged with. */
  function OutcomeTag(stage: nat): (code: string)
    ensures StartsWith(code, "SC")
  {
    "SC" + NatToString(stage) + "-WS-01"
  }

  lemma OutcomeTagsOfStages()
    ensures OutcomeTag(4) == "SC4-WS-01" && OutcomeTag(5) == "SC5-WS-01"
  {
  }

  /** The quiz record that is persisted for a checked reply. */
  function QuizRecord(id: string, topic: CreatorTopic, difficulty: string, draft: Draft): (q: Quiz)
    ensures q.topic == topic.value && q.title == draft.title && q.difficulty == difficulty
    ensures q.nesaOutcomes == [OutcomeTag(topic.stage)]
    ensures q.questions == draft.questions
  {
    Quiz(id, topic.value, draft.title, difficulty, [OutcomeTag(topic.stage)], draft.questions)
  }

  const InvalidTopicError := "Please select a valid topic."

  /** The message shown when generation or persistence fails. */
  function GenerationError(message: string): string
  {
    "Failed to generate quiz. Please try again. " + message
  }

  /** The creator form. */
  class QuizCreator {
    var topic: string
    var difficulty: string
    var questionCount: int
    var isGenerating: bool
    var error: Option<string>

    constructor ()
      ensures topic == "" && difficulty == "intermediate" && questionCount == 5
      ensures !isGenerating && error == None
    {
      topic := "";
      difficulty := "intermediate";
      questionCount := 5;
      isGenerating := false;
      error := None;
    }

    /** The number field's `onChange`. */
    method SetCountInput(input: string)
      modifies this`questionCount
      ensures questionCount == CountFromInput(input)
    {
      questionCount := CountFromInput(input);
    }

    predicate GenerateEnabled()
      reads this
    {
      CanGenerate(topic, isGenerating, questionCount)
    }

    /** `generateQuiz()`. An unknown topic stops before the model is asked.
        Otherwise the reply is checked and, when it passes, one quiz record
        tagged with the topic's stage outcome is created (the store assigns
        `newId`); any failure sets the error and persists nothing. The busy
        flag is cleared on every path. */
    method GenerateQuiz(reply: Call<Option<QuizResponse>>, quizzes: Table<Quiz>, outcome: Call<()>, newId: string)
      returns (created: Option<Quiz>)
      modifies this`isGenerating, this`error, quizzes
      ensures !isGenerating
      ensures FindTopic(topic).None? ==>
        error == Some(InvalidTopicError) && created == None && quizzes.rows == old(quizzes.rows)
      ensures FindTopic(topic).Some? && Validate(reply).Failed? ==>
        error == Some(GenerationError(Validate(reply).message)) && created == None
        && quizzes.rows == old(quizzes.rows)
      ensures FindTopic(topic).Some? && Validate(reply).Done? && outcome.Failed? ==>
        error == Some(GenerationError(outcome.message)) && created == None
        && quizzes.rows == old(quizzes.rows)
      ensures FindTopic(topic).Some? && Validate(reply).Done? && outcome.Done? ==>
        var q := QuizRecord(newId, FindTopic(topic).value, difficulty, Validate(reply).value);
        error == None && created == Some(q) && quizzes.rows == old(quizzes.rows) + [q]
    {
      isGenerating := true;
      error := None;
      var selected := FindTopic(topic);
      if selected.None? {
        error := Some(InvalidTopicError);
        isGenerating := false;
        return None;
      }
      created := None;
      match Validate(reply) {
        case Failed(m) =>
          error := Some(GenerationError(m));
        case Done(draft) =>
          var q := QuizRecord(newId, selected.value, difficulty, draft);
          var ok := quizzes.Create(q, outcome);
          if ok {
            created := Some(q);
          } else {
            error := Some(GenerationError(outcome.message));
          }
      }
      isGenerating := false;
    }
  }
}
