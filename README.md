# ScienceSpark core, modelled in Dafny

ScienceSpark is a science-tutoring web application for students of the NSW
Science 7-10 syllabus. Students chat with a language-model tutor, take and
generate multiple-choice quizzes, browse syllabus topics, and follow their
progress. This project models the deterministic core of that application:

- `quiz_taking.dfy` (`QuizTaking`) covers taking a quiz. It models the answer map, bounded navigation, the Next and Submit buttons, and grading. The score is a half-up rounded percentage and the pass mark is 70. It also covers persisting the attempt.
- `quiz_review.dfy` (`QuizReview`) covers the results screen. It models the correct and "To Review" counts, the missed-question list and the mastery figure. It also models the pass-dependent badge and button, and the feedback with its fixed fallback.
- `quiz_generation.dfy` (`QuizGeneration`) covers the quiz creator. It models the topic catalogue and lookup, the years label, count parsing and the Generate button. It also models checking the model's reply and the quiz record it persists.
- `quizzes_page.dfy` (`QuizzesPage`) covers the Quizzes page. It models the four views and their handlers, the statistics row, and the latest attempt of each quiz.
- `stats.dfy` (`Scoreboard`) holds the shared aggregates: pass counts and rounded mean scores. It also holds the newest-first attempt query and query limits.
- `dashboard.dfy` (`Dashboard`) models the Dashboard cards, which use the 3 newest sessions and the 5 newest attempts.
- `progress.dfy` (`Progress`) models the Progress page. It covers the summary, one entry per syllabus outcome (stage and category come from the outcome code), and the split into stages.
- `chat.dfy` (`Chat`) models the tutor chat. It covers starting a session, the optional greeting, the send guard, and the send sequence over the message store. It also covers the six-message context, truncating the last message, and the message counter.
- `resources.dfy` (`Resources`) models the resource panel. It covers the per-topic local-storage cache, generation, and adding the `https://` scheme to links.
- `topics.dfy` (`Topics`) models the Topics page. It covers the catalogue, the difficulty and stage filters, the selected topic in the `topic` URL parameter, and remembering it in local storage.
- `routing.dfy` (`Routing`) models resolving the browser path to one of the five page names.

Supporting modules:

- `text.dfy` (`Text`) models the JavaScript string operations the code relies on: `startsWith`, `endsWith`, `includes`, `trim`, ASCII `toLowerCase`, `parseInt` and number display.
- `numbers.dfy` (`Numbers`) models `Math.round(a / b)` as exact half-up integer rounding `(2a + b) / (2b)`, plus sums and rounded means.
- `records.dfy` (`Records`) holds the stored entities.
- `gateway.dfy` (`Gateway`) holds the outside world.

**External calls.** Calls to the entity store, the language model and local storage are not decided by the model. Each is a parameter: a `Call` outcome that is either `Done(value)` or `Failed(message)`. The store's tables are objects: an append-only row sequence, a session map, and a local-storage map. Their methods apply the given outcome.

**Ordering.** Stored rows are kept in creation order. A `'-created_date'` query reads them from the end, and a `'created_date'` query from the front.

## Model

| member | source | states |
|---|---|---|
| QuizTaking.Grade | src/components/quiz/QuizTaker.jsx:40-46 | one result per question, in question order, carrying the question text, the selected option (if any), the correct option and the explanation; a result is correct exactly when the question has an answer equal to its `correct_answer` |
| QuizTaking.CorrectCountIsCardinality | src/components/quiz/QuizTaker.jsx:48 | the correct count is the number of positions whose result is correct |
| QuizTaking.ScoreBounds | src/components/quiz/QuizTaker.jsx:49 | the score lies in 0..100, is 100 when every answer is correct and 0 when none is |
| QuizTaking.PassIff | src/components/quiz/QuizTaker.jsx:49-50 | the attempt passes (score at least 70) exactly when 200 x correct >= 139 x questions, i.e. at least 69.5% correct |
| QuizTaking.ScoreMonotone | src/components/quiz/QuizTaker.jsx:49 | more correct answers never lower the score |
| QuizTaking.Evaluate | src/components/quiz/QuizTaker.jsx:39-50 | the completion carries the graded results; the score is 100 x correct / questions rounded half up (so in 0..100), and the pass flag that holds exactly when the score reaches the pass mark (equivalently when 200 x correct >= 139 x questions) |
| QuizTaking.AllCorrectScoresFull | src/components/quiz/QuizTaker.jsx:44-50 | answering every question correctly scores 100 and passes |
| QuizTaking.FourOfFivePasses | src/components/quiz/QuizTaker.jsx:40-50 | answers 0,1,2,3,1 to correct answers 0,1,2,3,0 give 4 correct, a score of 80, and a pass |
| QuizTaking.KeyCountMeansAllAnswered | src/components/quiz/QuizTaker.jsx:63 | because every key is a question index, the key count equals the question count exactly when every question has an answer |
| QuizTaking.QuizTaker.constructor | src/components/quiz/QuizTaker.jsx:11-12 | a quiz opens on question 0 with no answers |
| QuizTaking.QuizTaker.SelectAnswer | src/components/quiz/QuizTaker.jsx:23-25 | only the current question's answer changes, to the chosen option; every other answer and the current question stay as they were |
| QuizTaking.QuizTaker.NextQuestion | src/components/quiz/QuizTaker.jsx:27-31 | advances by one unless on the last question, where nothing changes; the current question stays a valid index |
| QuizTaking.QuizTaker.PreviousQuestion | src/components/quiz/QuizTaker.jsx:33-37 | goes back by one unless on the first question, where nothing changes |
| QuizTaking.QuizTaker.ButtonsNeedAnswers | src/components/quiz/QuizTaker.jsx:135-148 | Submit is enabled exactly on the last question with every question answered; Next exactly before the last question with the current one answered |
| QuizTaking.QuizTaker.Submit | src/components/quiz/QuizTaker.jsx:39-61 | with a known user and a successful create, exactly one attempt carrying the graded results, score and pass flag is appended, and the same values are handed on; otherwise nothing is stored or handed on |
| QuizReview.MissedMembers | src/components/quiz/QuizResults.jsx:24-26 | every wrongly answered question's text is in the missed list, and every entry of it is such a text |
| QuizReview.MissedAppend | src/components/quiz/QuizResults.jsx:24-26 | the missed list keeps the original order (it distributes over concatenation) |
| QuizReview.MissedSingle | src/components/quiz/QuizResults.jsx:25-26 | a single result is listed exactly when it is not correct |
| QuizReview.ToReviewIsMissedCount | src/components/quiz/QuizResults.jsx:137 | "To Review" (total minus correct) is the length of the missed list, so correct plus to-review is the total |
| QuizReview.MasteryIsScore | src/components/quiz/QuizResults.jsx:144 | for a submitted quiz, mastery equals the attempt's score and is a percentage |
| QuizReview.BannerFor | src/components/quiz/QuizResults.jsx:82-92 | the retry badge and the Try Again button appear exactly when the attempt did not pass |
| QuizReview.TryAgainIffBelowPassMark | src/components/quiz/QuizResults.jsx:88-92 | for a submitted quiz, Try Again shows exactly when the score is below 70 |
| QuizReview.FeedbackPanel.GenerateFeedback | src/components/quiz/QuizResults.jsx:20-58 | a reply becomes the feedback; a failed call gives the fixed fallback text and goes no further; the spinner is off afterwards |
| QuizGeneration.CatalogueShape | src/components/quiz/QuizCreator.jsx:12-31 | 16 topics, eight of Stage 4 followed by eight of Stage 5 |
| QuizGeneration.CatalogueValuesDistinct | src/components/quiz/QuizCreator.jsx:12-31 | no two topics share a value, so a value names one topic |
| QuizGeneration.FindTopic | src/components/quiz/QuizCreator.jsx:47 | a found topic is in the catalogue with the value asked for; nothing is found exactly when no topic has the value |
| QuizGeneration.StageYears | src/components/quiz/QuizCreator.jsx:54 | "7-8" exactly for Stage 4, "9-10" for every other stage |
| QuizGeneration.CanGenerate | src/components/quiz/QuizCreator.jsx:210 | Generate is enabled exactly when a topic is chosen, nothing is being generated, and the count is from 3 to 10 |
| QuizGeneration.CountInputEnables | src/components/quiz/QuizCreator.jsx:204-210 | a typed count n (with any non-digit tail) reads as n, and enables Generate exactly when 3 <= n <= 10 |
| QuizGeneration.NonNumericCountDisables | src/components/quiz/QuizCreator.jsx:204-210 | text that is not a number reads as 0 and disables Generate |
| QuizGeneration.Validate | src/components/quiz/QuizCreator.jsx:93-122 | a reply is accepted exactly when the call succeeded, the reply is present, and it has a non-empty title and a non-empty question list; a failed call keeps its message; any other reply fails with "Invalid response structure from LLM." |
| QuizGeneration.OutcomeTag | src/components/quiz/QuizCreator.jsx:129 | the outcome tag starts with "SC" |
| QuizGeneration.OutcomeTagsOfStages | src/components/quiz/QuizCreator.jsx:129 | Stage 4 quizzes are tagged "SC4-WS-01", Stage 5 quizzes "SC5-WS-01" |
| QuizGeneration.QuizRecord | src/components/quiz/QuizCreator.jsx:124-131 | the stored quiz has the topic value, the reply's title, the chosen difficulty, the single stage outcome tag, and the reply's questions unchanged |
| QuizGeneration.QuizCreator.constructor | src/components/quiz/QuizCreator.jsx:36-40 | the form opens with no topic, "intermediate", 5 questions, not generating, no error |
| QuizGeneration.QuizCreator.SetCountInput | src/components/quiz/QuizCreator.jsx:204 | the count becomes `parseInt` of the text, or 0 |
| QuizGeneration.QuizCreator.GenerateQuiz | src/components/quiz/QuizCreator.jsx:43-141 | an unknown topic sets "Please select a valid topic." and stores nothing; a rejected reply or a failed create sets the prefixed error and stores nothing; otherwise exactly one quiz record is stored and returned; the busy flag is off on every path |
| Scoreboard.NewestFirst | src/pages/Quizzes.jsx:42 | the student's list holds only their attempts and is no longer than the store |
| Scoreboard.NewestFirstMembers | src/pages/Quizzes.jsx:42 | every stored attempt of the student is in their list, and nothing else is |
| Scoreboard.NewestFirstAfterCreate | src/pages/Quizzes.jsx:42 | an attempt just created for the student is first in their list |
| Scoreboard.Take | src/pages/Dashboard.jsx:29-36 | a query limit returns the first min(limit, length) entries |
| Scoreboard.PassedCountIsCardinality | src/pages/Quizzes.jsx:78 | the pass count is the number of positions holding a passed attempt |
| Scoreboard.PassedCountAll | src/pages/Quizzes.jsx:78 | the pass count equals the number of attempts exactly when every attempt passed |
| Scoreboard.AverageScore | src/pages/Quizzes.jsx:79-81 | the average is the sum of the scores divided by their number, rounded half up; 0 when there are no attempts |
| Scoreboard.AverageBetween | src/pages/Quizzes.jsx:79-81 | the rounded mean lies between any lower and upper bound of the scores |
| Scoreboard.AverageIsPercentage | src/pages/Quizzes.jsx:79-81 | percentage scores have a percentage average |
| Scoreboard.AverageOfEqualScores | src/pages/Quizzes.jsx:79-81 | attempts that all scored s average s |
| Numbers.RoundDivUnique | src/components/quiz/QuizTaker.jsx:49 | exactly one integer is a quotient rounded half up, so the rounding relation the contracts use pins the value `Math.round` gives |
| Numbers.RoundedMean | src/pages/Dashboard.jsx:44-46 | a non-empty list's mean is its sum over its length rounded half up; the empty list gives 0 |
| Numbers.RoundDivBetween | src/components/quiz/QuizTaker.jsx:49 | half-up rounding of a quotient stays within any bounds of the exact quotient |
| Numbers.RoundedMeanBetween | src/pages/Dashboard.jsx:44-46 | the rounded mean of a non-empty list lies between its bounds |
| QuizzesPage.LatestAttempt | src/pages/Quizzes.jsx:141 | a found attempt is in the student's list and is for the quiz; none is found exactly when no attempt is for the quiz |
| QuizzesPage.NoLatestIffNeverAttempted | src/pages/Quizzes.jsx:141 | a quiz shows no attempt exactly when the student never stored one for it |
| QuizzesPage.LatestIsLastCreated | src/pages/Quizzes.jsx:141 | the attempt shown is the one the student created last for that quiz |
| QuizzesPage.LatestAfterSubmit | src/pages/Quizzes.jsx:141 | right after an attempt is stored, it is the one the quiz card shows |
| QuizzesPage.StartLabel | src/pages/Quizzes.jsx:184 | "Retake Quiz" exactly when the quiz has an attempt, "Start Quiz" exactly when it has none |
| QuizzesPage.PageStats | src/pages/Quizzes.jsx:75-82 | counts quizzes and attempts; passed is the number of passed attempts, equal to attempted exactly when all passed; the average is the rounded mean of the scores, 0 without attempts |
| QuizzesPage.AverageShownIsPercentage | src/pages/Quizzes.jsx:79-81 | the average shown is a percentage |
| QuizzesPage.QuizzesView.Current | src/pages/Quizzes.jsx:63-73 | an active quiz shows the taker; otherwise results show the results screen; otherwise the creator if open; otherwise the list |
| QuizzesPage.QuizzesView.constructor | src/pages/Quizzes.jsx:25-27 | the page opens on the list |
| QuizzesPage.QuizzesView.StartQuiz | src/pages/Quizzes.jsx:47-50 | sets the active quiz and clears results, so the taker is shown |
| QuizzesPage.QuizzesView.HandleQuizComplete | src/pages/Quizzes.jsx:52-55 | stores the results and clears the active quiz, so the results screen is shown |
| QuizzesPage.QuizzesView.HandleQuizCreated | src/pages/Quizzes.jsx:57-61 | closes the creator and starts the new quiz |
| QuizzesPage.QuizzesView.OpenCreator | src/pages/Quizzes.jsx:103 | the list's Create button opens the creator |
| QuizzesPage.QuizzesView.CancelCreator | src/pages/Quizzes.jsx:72 | cancelling the creator returns to the list |
| QuizzesPage.QuizzesView.CancelQuiz | src/pages/Quizzes.jsx:64 | leaving the taker returns to the list, without results |
| QuizzesPage.QuizzesView.CloseResults | src/pages/Quizzes.jsx:68 | closing the results returns to the list |
| Dashboard.DashboardStats | src/pages/Dashboard.jsx:27-48 | chats counted up to 3 and quizzes up to 5 (the query limits); achievements are the passed attempts among the five newest; the average is the rounded mean of their scores, 0 without attempts |
| Dashboard.AverageWithinRecentScores | src/pages/Dashboard.jsx:44-45 | the average lies between the lowest and highest of the five newest scores |
| Dashboard.OlderAttemptsIgnored | src/pages/Dashboard.jsx:34-48 | attempts older than the five newest change no card |
| Dashboard.AchievementsAllPassed | src/pages/Dashboard.jsx:47 | achievements equal quizzes taken exactly when each of the five newest passed |
| Progress.ProgressStats | src/pages/Progress.jsx:77-84 | counts sessions and attempts; passed is the number of passed attempts; the average is the rounded mean of the scores, 0 without attempts |
| Progress.StageOf | src/pages/Progress.jsx:94 | Stage 4 exactly when the code contains "SC4", otherwise Stage 5 |
| Progress.CategoryOf | src/pages/Progress.jsx:95-103 | "Working Scientifically" exactly when the code contains "WS", otherwise "Content Focus Area" |
| Progress.ProgressOf | src/pages/Progress.jsx:87-104 | an entry carries the outcome's code and name, the overall average and attempt count (the filter keeps everything), and the stage and category of its code |
| Progress.OutcomesProgress | src/pages/Progress.jsx:86-105 | one entry per catalogue outcome, in catalogue order |
| Progress.EntriesShowOverallFigures | src/pages/Progress.jsx:87-101 | every entry shows the page's overall average and attempt count |
| Progress.OfStageAppend | src/pages/Progress.jsx:108-109 | the stage filter keeps order |
| Progress.StagesPartition | src/pages/Progress.jsx:108-109 | when every entry is of Stage 4 or 5, the two stage lists together hold exactly the entries |
| Progress.CatalogueStages | src/pages/Progress.jsx:10-54 | the 35 outcomes are 16 of Stage 4 followed by 19 of Stage 5 |
| Progress.SplitByStage | src/pages/Progress.jsx:108-109 | a list of Stage 4 entries followed by Stage 5 entries splits, in order, into exactly the two stage lists |
| Progress.StageCards | src/pages/Progress.jsx:108-109 | the Stage 4 card lists the first 16 outcomes and the Stage 5 card the other 19, in catalogue order |
| Progress.PracticeNote | src/pages/Progress.jsx:189-191 | "Not yet practiced" exactly when the entry has no attempts |
| Chat.OfSession | src/pages/Chat.jsx:143-146 | a session's history holds only that session's messages |
| Chat.OfSessionAfterCreate | src/pages/Chat.jsx:137-146 | a message just created for the session is last in its history |
| Chat.OfSessionPrefix | src/pages/Chat.jsx:137-176 | the history only grows at its end: nothing is reordered or removed |
| Chat.Window | src/pages/Chat.jsx:148 | the last min(6, k) messages of the history, in order |
| Chat.Speaker | src/pages/Chat.jsx:149 | "Student" exactly for the student's messages, "Teacher" exactly for the tutor's |
| Chat.JoinEnds | src/pages/Chat.jsx:150 | a joined list starts with its first part and ends with its last |
| Chat.ContextEndsWithNewest | src/pages/Chat.jsx:148-150 | the context starts with the oldest message of the window and ends with the newest message |
| Chat.Prefix | src/pages/Chat.jsx:179 | the first min(n, length) characters |
| Chat.PrefixProperties | src/pages/Chat.jsx:179 | truncation to 100 is idempotent, keeps short messages whole and cuts long ones to 100 |
| Chat.NewSession | src/pages/Chat.jsx:81-87 | a new session has counter 0 and "Started new conversation"; the topic and "Learning about X" title when a topic is given, else "general" and "New Conversation" |
| Chat.ChatPage.CreateNewSession | src/pages/Chat.jsx:79-99 | a failed create only sets the session error; otherwise the session is stored and shown, and, with a topic, a successful greeting is stored |
| Chat.ChatPage.SendInitialMessage | src/pages/Chat.jsx:101-129 | the greeting is stored when both calls succeed; a failure is swallowed and changes nothing else |
| Chat.Exchange | src/pages/Chat.jsx:137-172 | the store steps of a send in order: the question is stored, the fetched history ends with it, the context is built from that history, and the answer is stored only after the model replied; each step needs the one before it to succeed |
| Chat.ChatPage.SendMessage | src/pages/Chat.jsx:131-200 | the question is stored before the model is asked and the answer after; the context is the window of the history including the question; the first failure stops the sequence with nothing rolled back and sets the send error; on success the session gets the truncated last message and counter history+2, and the input is cleared |
| Chat.ChatPage.HandleSend | src/pages/Chat.jsx:202-205 | a send happens exactly when the input is not blank and no send is in flight, and then it sends the typed text: the messages, session records, input and error end as a send of that text leaves them; otherwise nothing changes |
| Chat.CounterAfterSend | src/pages/Chat.jsx:180 | after a successful send the session's counter is one more than the messages the store then holds for it |
| Chat.GreetingNotCounted | src/pages/Chat.jsx:86 | a session with a stored greeting holds one message while its counter reads 0 |
| Text.TrimEmptyIff | src/pages/Chat.jsx:203 | the trimmed input is empty exactly when it is all white space |
| Text.ParseIntOfNatToString | src/components/quiz/QuizCreator.jsx:204 | `parseInt` reads back the decimal display of a natural number, also with a non-digit tail |
| Text.AsciiLowerIdempotent | src/pages/index.jsx:38 | lower-casing twice is lower-casing once |
| Resources.NormaliseUrl | src/components/learning/ResourceRecommender.jsx:278-281 | empty exactly for a missing or empty URL; a non-empty result has a scheme; a URL with a scheme is kept; one without gets "https://" in front |
| Resources.NormaliseIdempotent | src/components/learning/ResourceRecommender.jsx:278-281 | normalising twice is normalising once |
| Resources.NormaliseKeepsAddress | src/components/learning/ResourceRecommender.jsx:278-281 | the original text is the tail of the normalised URL |
| Resources.SimulationLinks | src/components/learning/ResourceRecommender.jsx:276-317 | at most one link per simulation, each opening a URL with a scheme |
| Resources.SimulationLinksAll | src/components/learning/ResourceRecommender.jsx:276-317 | simulations with URLs are rendered in order, opening the normalised URL and showing the raw one |
| Resources.SimulationLinksNone | src/components/learning/ResourceRecommender.jsx:283 | simulations without URLs render nothing |
| Resources.ReadingLinks | src/components/learning/ResourceRecommender.jsx:330-336 | at most one link per reading, each opening a URL with a scheme |
| Resources.ReadingLinksAll | src/components/learning/ResourceRecommender.jsx:330-336 | readings with URLs are rendered in order, opening the normalised URL |
| Resources.CacheKey | src/components/learning/ResourceRecommender.jsx:24 | the key starts with "resources_" |
| Resources.CacheKeyInjective | src/components/learning/ResourceRecommender.jsx:24 | different topics have different keys |
| Resources.CacheRoundTrip | src/components/learning/ResourceRecommender.jsx:149-150 | a stored bundle is read back for its topic, a later write replaces it, and other topics are unaffected |
| Resources.ResourceRecommender.Load | src/components/learning/ResourceRecommender.jsx:22-31 | the cached bundle of the topic is shown when there is one; otherwise nothing changes |
| Resources.ResourceRecommender.GenerateResources | src/components/learning/ResourceRecommender.jsx:33-156 | a reply is shown and overwrites the cache entry (a refused write is caught and the reply still shown); a failure changes neither; the spinner is off afterwards |
| Topics.CatalogueStages | src/pages/Topics.jsx:31-195 | 16 topics, eight of Stage 4 followed by eight of Stage 5 |
| Topics.CatalogueIds | src/pages/Topics.jsx:31-195 | the ids are non-empty and pairwise distinct |
| Topics.CatalogueOutcomes | src/pages/Topics.jsx:31-195 | Stage 4 topics list only "SC4" outcomes, Stage 5 topics only "SC5" outcomes |
| Topics.CatalogueAgreesWithCreator | src/pages/Topics.jsx:31-195 | the quiz creator offers the same topics in the same order, with the same titles and stages |
| Topics.Filter | src/pages/Topics.jsx:226-230 | every shown topic passes both filters, and the list is no longer than the catalogue |
| Topics.FilterMembers | src/pages/Topics.jsx:226-230 | a topic is shown exactly when it is in the catalogue and matches the lower-cased difficulty and the `parseInt` stage ("all" matches anything) |
| Topics.FilterAppend | src/pages/Topics.jsx:226 | the filter keeps catalogue order |
| Topics.StageListFilter | src/pages/Topics.jsx:226-230 | of topics sharing one stage, a stage choice shows all when it reads as that stage and none otherwise |
| Topics.AllFiltersShowCatalogue | src/pages/Topics.jsx:226-230 | the initial "all"/"all" filters show the whole catalogue |
| Topics.StageButtons | src/pages/Topics.jsx:228 | a stage reading as 4 shows the eight Stage 4 topics, as 5 the eight Stage 5 topics, as any other number none |
| Topics.StageButtonsRead | src/pages/Topics.jsx:300 | the buttons "4" and "5" read as 4 and 5 |
| Topics.CatalogueDifficulties | src/pages/Topics.jsx:31-195 | Stage 4 topics are Beginner or Intermediate, Stage 5 topics Advanced |
| Topics.AdvancedIsStageFive | src/pages/Topics.jsx:227 | the "advanced" choice shows exactly the Stage 5 topics |
| Topics.NonNumericStageHidesAll | src/pages/Topics.jsx:228 | a stage choice that is not a number (NaN) hides every topic |
| Topics.FindById | src/pages/Topics.jsx:214 | a found topic is in the list with the id asked for; none is found exactly when no topic has the id |
| Topics.FindFirst | src/pages/Topics.jsx:214 | the first topic with the id is the one found |
| Topics.SelectedTopic | src/pages/Topics.jsx:213-214 | a selected topic is a catalogue topic with the parameter's id; none is selected exactly when the parameter is absent, empty or unknown |
| Topics.SelectById | src/pages/Topics.jsx:213-214 | naming a catalogue topic's id selects that topic |
| Topics.Restored | src/pages/Topics.jsx:202-211 | a non-empty URL topic is kept; without a storage entry nothing changes |
| Topics.ReloadRestoresSelection | src/pages/Topics.jsx:202-224 | after a reload without a `topic` parameter, a selected topic is selected again and a cleared one stays cleared |
| Topics.TopicsPage.constructor | src/pages/Topics.jsx:197-199 | the page opens with both filters on "all" |
| Topics.TopicsPage.Mount | src/pages/Topics.jsx:202-211 | the `topic` parameter becomes the stored id exactly when the URL has none and storage holds a non-empty one |
| Topics.TopicsPage.SetSelectedTopic | src/pages/Topics.jsx:216-224 | selecting stores the id under "current_topic_id" and sets the parameter, so the topic is selected; clearing removes the entry and the parameter; a refused write throws before the parameter changes |
| Topics.TopicsPage.SetDifficulty | src/pages/Topics.jsx:321 | after choosing a difficulty, a topic is shown exactly when it matches the new filters |
| Topics.TopicsPage.SetStage | src/pages/Topics.jsx:305 | after choosing a stage, a topic is shown exactly when it matches the new filters |
| Routing.LastSegment | src/pages/index.jsx:33 | the text after the last '/': a suffix without '/', preceded by '/' unless it is the whole path |
| Routing.BeforeQuery | src/pages/index.jsx:34-36 | the text before the first '?': a prefix without '?', followed by '?' unless it is the whole segment |
| Routing.LastPart | src/pages/index.jsx:30-36 | the part used for matching has no '/' and no '?' |
| Routing.FindPage | src/pages/index.jsx:38 | a found name is in the list and matches the part ignoring case; none is found exactly when no name matches |
| Routing.Resolve | src/pages/index.jsx:38-39 | the result is one of the five page names, matches the part ignoring case, or is "Dashboard"; with no match it is "Dashboard" |
| Routing.CurrentPage | src/pages/index.jsx:29-40 | the result is always one of the five page names |
| Routing.NamesDistinctIgnoringCase | src/pages/index.jsx:15-27 | no two page names are equal ignoring case |
| Routing.ResolveNamesIgnoringCase | src/pages/index.jsx:38 | a segment equal to a page name in any letter case resolves to that page |
| Routing.ResolveIgnoresCase | src/pages/index.jsx:38 | changing the case of the segment does not change the page |
| Routing.FindPageIgnoresCase | src/pages/index.jsx:38 | the search depends on the lower-cased segment only |
| Routing.LastSegmentOf | src/pages/index.jsx:33 | the last segment of `prefix/segment` is the segment |
| Routing.BeforeQueryOf | src/pages/index.jsx:34-36 | the text before `?query` is kept whole |
| Routing.TrimmedBody | src/pages/index.jsx:30-32 | one trailing '/' is dropped, and a path not ending in '/' is kept |
| Routing.LastPartOfPath | src/pages/index.jsx:30-36 | `prefix/segment`, with or without a trailing '/', yields the segment |
| Routing.LastPartOfQuery | src/pages/index.jsx:30-36 | `prefix/segment?query`, with or without a trailing '/', yields the segment |
| Routing.PathResolvesAsSegment | src/pages/index.jsx:29-40 | only the last segment decides the page: directories before it, a query after it and one trailing '/' play no part |
| Routing.FallbackIsDashboard | src/pages/index.jsx:39 | an unknown segment, the root path and the empty path give "Dashboard" |

## Left out

- Rendering, animation, icons, colours, `window.open` and `setTimeout` are left out, as are the YouTube search URL (built with `encodeURIComponent`), date formatting and the progress bars. They are display only.
- The page layout's sidebar is left out. Its only logic is an equality test on the page name.
- `auth.me`, react-query caching, cache invalidation and effect timing are left out. The current user is a parameter (`None` while not yet fetched), and "in flight" is a boolean flag.
- Prompt texts and the language-model call are left out. A call is a parameter that either returns a value or fails. A reply's JSON is taken to be decoded exactly.
- Floating point is not modelled. `Math.round(c / n * 100)` is exact half-up integer rounding, and the mean score is `Math.round(sum / n)` over integer scores.
- Text.ParseInt reads decimal digits only. The hexadecimal `0x` prefix that `parseInt` without a radix accepts is not modelled, because no input reaching it here is meant to be hexadecimal.
- Text.AsciiLower lowers ASCII letters only. The lowered strings are ASCII page names, difficulties and filter values, so non-ASCII case mappings cannot make two of them equal.
- Chat.Prefix cuts at characters. JavaScript's `slice` counts UTF-16 code units, so a surrogate pair at position 100 is not split here.
- Chat.ChatPage.CreateNewSession requires the new session id to be unused. The store assigns fresh ids.
- Chat's resources panel toggle, `handleKeyPress` (which calls the same send guard) and the auto-scroll are left out. So is the retry that re-throws the send error to the query library. The model records only the error state it leaves.
- The creator's error display and the topic and difficulty selects are left out. They only set fields that `GenerateQuiz` reads.
- The quiz-creator result is not checked against the requested question count, the four options per question, or `correct_answer` being in range, because the code does not check these either. Answers and correct answers are natural numbers. A non-integer `correct_answer` is not modelled.
- No submit-time check rejects an answer map with the wrong size. The design description asks for one, but the code only disables the Submit button, and the model follows the code (`QuizTaking.QuizTaker.Submit` grades whatever answers exist).
- The design description says a session's `message_count` is at least the number of its stored messages. The code does not keep this after a greeting (`Chat.GreetingNotCounted`: one message, counter 0) or after a failed send (the question stays stored and the counter is not updated). The model follows the code.
- Resources.Load treats stored text that is not a bundle's JSON (including JSON that parses to something else) as unreadable, so the shown bundle stays as it was. A reply of `null` from the model is not modelled.
- Progress.CategoryOf states the "WS" rule for any code. The category of each of the 35 catalogue codes is not enumerated as a lemma, because deciding `includes` on those literals is too costly for the verifier.
- Topics.TopicsPage.Mount restores only plain text stored under "current_topic_id". The application stores resource bundles only under "resources_" keys, never under that key.
- Topic descriptions, icons and colours, and the Topics page's links into the chat, are left out as display only.
