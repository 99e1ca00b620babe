/** The Topics page (src/pages/Topics.jsx): the syllabus topic catalogue, the
    difficulty and stage filters, and the selected topic, which lives in the
    `topic` search parameter and is remembered in local storage. */
module Topics {
  import opened Text
  import opened Gateway
  import QuizGeneration

  /** A catalogue topic (its description, icon and colour are display only). */
  datatype Topic = Topic(id: string, title: string, outcomes: seq<string>, stage: nat, difficulty: string)

  /** `TOPICS`: eight Stage 4 topics followed by eight Stage 5 topics. */
  const Catalogue: seq<Topic> := [
    Topic("observing-universe", "Observing the Universe", ["SC4-OTU-01", "SC4-WS-01", "SC4-WS-02"], 4, "Beginner"),
    Topic("forces", "Forces", ["SC4-FOR-01", "SC4-WS-03", "SC4-WS-05"], 4, "Intermediate"),
    Topic("cells-classification", "Cells and Classification", ["SC4-CLS-01", "SC4-WS-01", "SC4-WS-06"], 4, "Beginner"),
    Topic("solutions-mixtures", "Solutions and Mixtures", ["SC4-SOL-01", "SC4-WS-02", "SC4-WS-04"], 4, "Beginner"),
    Topic("living-systems", "Living Systems", ["SC4-LIV-01", "SC4-WS-03", "SC4-WS-04"], 4, "Intermediate"),
    Topic("periodic-table", "Periodic Table & Atomic Structure", ["SC4-PRT-01", "SC4-WS-01", "SC4-WS-07"], 4, "Intermediate"),
    Topic("change", "Change", ["SC4-CHG-01", "SC4-WS-04", "SC4-WS-05"], 4, "Intermediate"),
    Topic("data-science-1", "Data Science 1", ["SC4-DA1-01", "SC4-WS-04", "SC4-WS-07"], 4, "Beginner"),
    Topic("energy", "Energy", ["SC5-EGY-01", "SC5-WS-04", "SC5-WS-06"], 5, "Advanced"),
    Topic("disease", "Disease", ["SC5-DIS-01", "SC5-WS-04", "SC5-WS-06"], 5, "Advanced"),
    Topic("materials", "Materials", ["SC5-MAT-01", "SC5-WS-02", "SC5-WS-03"], 5, "Advanced"),
    Topic("environmental-sustainability", "Environmental Sustainability", ["SC5-ENV-01", "SC5-WS-05", "SC5-WS-06"], 5, "Advanced"),
    Topic("genetics", "Genetics & Evolutionary Change", ["SC5-GEV-01", "SC5-GEV-02", "SC5-WS-04"], 5, "Advanced"),
    Topic("reactions", "Reactions", ["SC5-RXN-01", "SC5-RXN-02", "SC5-WS-03"], 5, "Advanced"),
    Topic("waves-motion", "Waves and Motion", ["SC5-WAM-01", "SC5-WAM-02", "SC5-WS-04"], 5, "Advanced"),
    Topic("data-science-2", "Data Science 2", ["SC5-DA2-01", "SC5-WS-07", "SC5-WS-08"], 5, "Advanced")
  ]

  /** The catalogue holds 16 topics, the first eight of Stage 4 and the last
      eight of Stage 5. */
  lemma CatalogueStages()
    ensures |Catalogue| == 16
    ensures forall i :: 0 <= i < 8 ==> Catalogue[i].stage == 4
    ensures forall i :: 8 <= i < 16 ==> Catalogue[i].stage == 5
  {
  }

  /** The catalogue's ids are non-empty and pairwise distinct. */
  lemma CatalogueIds()
    ensures forall i, j :: 0 <= i < j < |Catalogue| ==> Catalogue[i].id != Catalogue[j].id
    ensures forall i :: 0 <= i < |Catalogue| ==> Catalogue[i].id != ""
  {
  }

  /** Every outcome of a Stage 4 topic starts with "SC4", and every outcome of
      a Stage 5 topic with "SC5". */
  lemma CatalogueOutcomes()
    ensures forall i, k :: 0 <= i < 8 && 0 <= k < |Catalogue[i].outcomes| ==> StartsWith(Catalogue[i].outcomes[k], "SC4")
    ensures forall i, k :: 8 <= i < 16 && 0 <= k < |Catalogue[i].outcomes| ==> StartsWith(Catalogue[i].outcomes[k], "SC5")
  {
  }

  /** The quiz creator offers the same topics, in the same order, with the
      same titles and stages. */
  lemma CatalogueAgreesWithCreator()
    ensures |Catalogue| == |QuizGeneration.Catalogue|
    ensures forall i :: 0 <= i < |Catalogue| ==>
      Catalogue[i].id == QuizGeneration.Catalogue[i].value
      && Catalogue[i].title == QuizGeneration.Catalogue[i].name
      && Catalogue[i].stage == QuizGeneration.Catalogue[i].stage
  {
  }

  // ---------------------------------------------------------------------
  // Filters
  // ---------------------------------------------------------------------

  /** The test of `filteredTopics`: the lower-cased difficulty equals the
      selected one, and the stage equals `parseInt` of the selected one
      (`NaN` equals nothing); "all" accepts anything. */
  predicate Matches(t: Topic, difficulty: string, stage: string)
  {
    (difficulty == "all" || AsciiLower(t.difficulty) == difficulty)
    && (stage == "all" || ParseInt(stage) == Some(t.stage as int))
  }

  /** `topics.filter(...)` with the test above. */
  function Filter(topics: seq<Topic>, difficulty: string, stage: string): (shown: seq<Topic>)
    ensures |shown| <= |topics|
    ensures forall i :: 0 <= i < |shown| ==> Matches(shown[i], difficulty, stage)
  {
    if topics == [] then []
    else (if Matches(topics[0], difficulty, stage) then [topics[0]] else []) + Filter(topics[1..], difficulty, stage)
  }

  /** `filteredTopics`. */
  function FilteredTopics(difficulty: string, stage: string): seq<Topic>
  {
    Filter(Catalogue, difficulty, stage)
  }

  /** A topic is shown exactly when it is in the list and passes both filters. */
  lemma {:induction false} FilterMembers(topics: seq<Topic>, difficulty: string, stage: string, t: Topic)
    ensures t in Filter(topics, difficulty, stage) <==> t in topics && Matches(t, difficulty, stage)
  {
    if topics != [] {
      FilterMembers(topics[1..], difficulty, stage, t);
      assert topics == [topics[0]] + topics[1..];
    }
  }

  /** The filter keeps order: it distributes over concatenation. */
  lemma {:induction false} FilterAppend(a: seq<Topic>, b: seq<Topic>, difficulty: string, stage: string)
    ensures Filter(a + b, difficulty, stage) == Filter(a, difficulty, stage) + Filter(b, difficulty, stage)
  {
    if a != [] {
      assert (a + b)[0] == a[0];
      assert (a + b)[1..] == a[1..] + b;
      FilterAppend(a[1..], b, difficulty, stage);
    } else {
      assert a + b == b;
    }
  }

  /** A list all of whose topics pass is shown whole. */
  lemma {:induction false} FilterAll(topics: seq<Topic>, difficulty: string, stage: string)
    requires forall i :: 0 <= i < |topics| ==> Matches(topics[i], difficulty, stage)
    ensures Filter(topics, difficulty, stage) == topics
  {
    if topics != [] {
      FilterAll(topics[1..], difficulty, stage);
    }
  }

  /** A list none of whose topics pass is hidden. */
  lemma {:induction false} FilterNone(topics: seq<Topic>, difficulty: string, stage: string)
    requires forall i :: 0 <= i < |topics| ==> !Matches(topics[i], difficulty, stage)
    ensures Filter(topics, difficulty, stage) == []
  {
    if topics != [] {
      FilterNone(topics[1..], difficulty, stage);
    }
  }

  /** The initial filters, "all" and "all", show the whole catalogue. */
  lemma AllFiltersShowCatalogue(difficulty: string, stage: string)
    requires difficulty == "all" && stage == "all"
    ensures FilteredTopics(difficulty, stage) == Catalogue
  {
    FilterAll(Catalogue, difficulty, stage);
  }

  /** A stage button shows, of a list whose topics all have one stage, all
      of them when it names that stage and none when it names another. */
  lemma {:induction false} StageFilter(topics: seq<Topic>, n: nat, m: nat)
    requires forall i :: 0 <= i < |topics| ==> topics[i].stage == n
    ensures Filter(topics, "all", NatToString(m)) == if m == n then topics else []
  {
    ParseIntOfNatToString(m, "");
    assert NatToString(m) + "" == NatToString(m);
    if m == n {
      FilterAll(topics, "all", NatToString(m));
    } else {
      FilterNone(topics, "all", NatToString(m));
    }
  }

  /** A stage choice shows, of a list whose topics all have one stage, all of
      them when it reads as that stage and none otherwise. */
  lemma StageListFilter(topics: seq<Topic>, n: nat, stage: string)
    requires forall i :: 0 <= i < |topics| ==> topics[i].stage == n
    requires stage != "all"
    ensures ParseInt(stage) == Some(n) ==> Filter(topics, "all", stage) == topics
    ensures ParseInt(stage) != Some(n) ==> Filter(topics, "all", stage) == []
  {
    if ParseInt(stage) == Some(n) {
      FilterAll(topics, "all", stage);
    } else {
      FilterNone(topics, "all", stage);
    }
  }

  /** A stage choice that reads as 4 (the button "4") shows the eight Stage 4
      topics, one that reads as 5 the eight Stage 5 topics, and any other
      number none. */
  lemma StageButtons(stage: string)
    requires stage != "all" && ParseInt(stage).Some?
    ensures ParseInt(stage) == Some(4) ==> FilteredTopics("all", stage) == Catalogue[..8]
    ensures ParseInt(stage) == Some(5) ==> FilteredTopics("all", stage) == Catalogue[8..]
    ensures ParseInt(stage) != Some(4) && ParseInt(stage) != Some(5) ==> FilteredTopics("all", stage) == []
  {
    CatalogueStages();
    var first, second := Catalogue[..8], Catalogue[8..];
    assert Catalogue == first + second;
    FilterAppend(first, second, "all", stage);
    assert forall i :: 0 <= i < |first| ==> first[i].stage == 4;
    assert forall i :: 0 <= i < |second| ==> second[i].stage == Catalogue[i + 8].stage == 5;
    StageListFilter(first, 4, stage);
    StageListFilter(second, 5, stage);
  }

  /** The buttons read as the stages they name. */
  lemma StageButtonsRead()
    ensures ParseInt("4") == Some(4) && ParseInt("5") == Some(5)
  {
    ParseIntOfNatToString(4, "");
    ParseIntOfNatToString(5, "");
    assert NatToString(4) + "" == "4";
    assert NatToString(5) + "" == "5";
  }

  /** The Stage 4 topics are all "Beginner" or "Intermediate", the Stage 5
      topics all "Advanced". */
  lemma CatalogueDifficulties()
    ensures forall i :: 0 <= i < 8 ==> Catalogue[i].difficulty == "Beginner" || Catalogue[i].difficulty == "Intermediate"
    ensures forall i :: 8 <= i < 16 ==> Catalogue[i].difficulty == "Advanced"
  {
  }

  /** The difficulty choice "advanced" shows exactly the Stage 5 topics. */
  lemma AdvancedIsStageFive(level: string)
    requires level == AsciiLower("Advanced")
    ensures FilteredTopics(level, "all") == Catalogue[8..]
  {
    CatalogueStages();
    CatalogueDifficulties();
    var first, second := Catalogue[..8], Catalogue[8..];
    assert Catalogue == first + second;
    FilterAppend(first, second, level, "all");
    forall i | 0 <= i < |first| ensures !Matches(first[i], level, "all") {
      var d := Catalogue[i].difficulty;
      assert d[0] == 'B' || d[0] == 'I';
      assert AsciiLower(d)[0] != level[0];
    }
    FilterNone(first, level, "all");
    forall i | 0 <= i < |second| ensures Matches(second[i], level, "all") {
      assert second[i].difficulty == Catalogue[i + 8].difficulty == "Advanced";
    }
    FilterAll(second, level, "all");
  }

  /** A stage text that is not a number (`parseInt` gives `NaN`) hides every topic. */
  lemma NonNumericStageHidesAll(difficulty: string, stage: string)
    requires stage != "all" && ParseInt(stage).None?
    ensures FilteredTopics(difficulty, stage) == []
  {
    FilterNone(Catalogue, difficulty, stage);
  }

  // ---------------------------------------------------------------------
  // Selection
  // ---------------------------------------------------------------------

  /** `topics.find(t => t.id === id)`. */
  function FindById(topics: seq<Topic>, id: string): (found: Option<Topic>)
    ensures found.Some? ==> found.value in topics && found.value.id == id
    ensures found.None? <==> forall i :: 0 <= i < |topics| ==> topics[i].id != id
  {
    if topics == [] then None
    else if topics[0].id == id then Some(topics[0])
    else
      var rest := FindById(topics[1..], id);
      assert forall i :: 1 <= i < |topics| ==> topics[i] == topics[1..][i - 1];
      rest
  }

  /** The first topic with the id is the one found. */
  lemma {:induction false} FindFirst(topics: seq<Topic>, i: nat)
    requires i < |topics|
    requires forall j :: 0 <= j < i ==> topics[j].id != topics[i].id
    ensures FindById(topics, topics[i].id) == Some(topics[i])
  {
    if i > 0 {
      FindFirst(topics[1..], i - 1);
    }
  }

  /** `selectedTopic`: the catalogue topic named by a non-empty `topic`
      parameter, or none when the parameter is absent, empty or unknown. */
  function SelectedTopic(param: Option<string>): (selected: Option<Topic>)
    ensures selected.Some? ==> param.Some? && selected.value in Catalogue && selected.value.id == param.value
    ensures selected.None? <==>
      (param.None? || param.value == "" || forall i :: 0 <= i < |Catalogue| ==> Catalogue[i].id != param.value)
  {
    if param.Some? && param.value != "" then FindById(Catalogue, param.value) else None
  }

  /** Naming a catalogue topic's id selects that topic. */
  lemma SelectById(i: nat)
    requires i < |Catalogue|
    ensures SelectedTopic(Some(Catalogue[i].id)) == Some(Catalogue[i])
  {
    CatalogueIds();
    FindFirst(Catalogue, i);
  }

  /** The local-storage key that remembers the selection. */
  const TopicKey := "current_topic_id"

  /** What the mount effect leaves in the `topic` parameter: the stored id
      when the URL names no topic and storage holds a non-empty id;
      otherwise the parameter as it was. */
  function Restored(param: Option<string>, entries: map<string, Stored>): (restored: Option<string>)
    ensures param.Some? && param.value != "" ==> restored == param
    ensures TopicKey !in entries ==> restored == param
  {
    if (param.None? || param.value == "") && TopicKey in entries && entries[TopicKey].Plain? && entries[TopicKey].text != ""
    then Some(entries[TopicKey].text)
    else param
  }

  /** After a reload without a `topic` parameter, a topic that was selected
      before is selected again; one that was cleared stays cleared. */
  lemma ReloadRestoresSelection(entries: map<string, Stored>, i: nat)
    requires i < |Catalogue|
    ensures SelectedTopic(Restored(None, entries[TopicKey := Plain(Catalogue[i].id)])) == Some(Catalogue[i])
    ensures SelectedTopic(Restored(None, entries - {TopicKey})) == None
  {
    CatalogueIds();
    SelectById(i);
  }

  class TopicsPage {
    /** `searchParams.get("topic")`. */
    var topicParam: Option<string>
    var selectedDifficulty: string
    var selectedStage: string

    constructor (topicParam: Option<string>)
      ensures this.topicParam == topicParam
      ensures selectedDifficulty == "all" && selectedStage == "all"
    {
      this.topicParam := topicParam;
      selectedDifficulty := "all";
      selectedStage := "all";
    }

    function Selected(): Option<Topic>
      reads this
    {
      SelectedTopic(topicParam)
    }

    function Shown(): seq<Topic>
      reads this
    {
      FilteredTopics(selectedDifficulty, selectedStage)
    }

    /** The mount effect: restore the remembered topic into the URL when the
        URL names none. Storage is only read. */
    method Mount(storage: LocalStorage)
      modifies this`topicParam
      ensures topicParam == Restored(old(topicParam), storage.entries)
    {
      var urlTopicId := topicParam;
      if (urlTopicId.None? || urlTopicId.value == "") && TopicKey in storage.entries {
        var saved := storage.entries[TopicKey];
        if saved.Plain? && saved.text != "" {
          topicParam := Some(saved.text);
        }
      }
    }

    /** `setSelectedTopic(topic)`: selecting writes the id to storage and to
        the URL; clearing removes both. A refused storage write throws before
        the URL is changed. */
    method SetSelectedTopic(topic: Option<Topic>, storage: LocalStorage, accepted: bool)
      modifies this`topicParam, storage
      ensures topic.Some? && accepted ==>
        storage.entries == old(storage.entries)[TopicKey := Plain(topic.value.id)] && topicParam == Some(topic.value.id)
      ensures topic.Some? && !accepted ==> storage.entries == old(storage.entries) && topicParam == old(topicParam)
      ensures topic.None? ==> storage.entries == old(storage.entries) - {TopicKey} && topicParam == None
      ensures topic.Some? && accepted && topic.value in Catalogue ==> Selected() == topic
      ensures topic.None? ==> Selected() == None
    {
      if topic.Some? {
        var ok := storage.SetItem(TopicKey, Plain(topic.value.id), accepted);
        if ok {
          topicParam := Some(topic.value.id);
          if topic.value in Catalogue {
            var i :| 0 <= i < |Catalogue| && Catalogue[i] == topic.value;
            SelectById(i);
          }
        }
      } else {
        storage.RemoveItem(TopicKey);
        topicParam := None;
      }
    }

    /** Clicking a difficulty button. */
    method SetDifficulty(level: string)
      modifies this`selectedDifficulty
      ensures selectedDifficulty == level
      ensures forall t :: t in Shown() <==> t in Catalogue && Matches(t, level, selectedStage)
    {
      selectedDifficulty := level;
      forall t {
        FilterMembers(Catalogue, level, selectedStage, t);
      }
    }

    /** Clicking a stage button. */
    method SetStage(stage: string)
      modifies this`selectedStage
      ensures selectedStage == stage
      ensures forall t :: t in Shown() <==> t in Catalogue && Matches(t, selectedDifficulty, stage)
    {
      selectedStage := stage;
      forall t {
        FilterMembers(Catalogue, selectedDifficulty, stage, t);
      }
    }
  }
}
