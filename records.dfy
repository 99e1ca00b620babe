/** The records the application keeps in the backend's entity store, and the
    resource bundle it keeps in the browser's local storage. */
module Records {
  import opened Text

  /** One multiple-choice question as the language model returned it. Nothing
      checks that there are four options or that `correctAnswer` indexes one. */
  datatype Question = Question(text: string, options: seq<string>, correctAnswer: int, explanation: string)

  /** A persisted quiz; `id` is assigned by the store. */
  datatype Quiz = Quiz(
    id: string,
    topic: string,
    title: string,
    difficulty: string,
    nesaOutcomes: seq<string>,
    questions: seq<Question>)

  /** One entry of an attempt's `answers` list. `selected` is `None` where the
      answer map had no entry for the question (`answers[index]` undefined). */
  datatype QuestionResult = QuestionResult(
    question: string,
    selected: Option<nat>,
    correct: int,
    isCorrect: bool,
    explanation: string)

  /** A persisted quiz attempt; `createdAt` is the store's creation time. */
  datatype Attempt = Attempt(
    studentId: string,
    quizId: string,
    answers: seq<QuestionResult>,
    score: int,
    passed: bool,
    createdAt: int)

  /** A chat session; `messageCount` is a counter the page maintains, not one
      the store enforces. */
  datatype ChatSession = ChatSession(
    studentId: string,
    topic: string,
    title: string,
    lastMessage: string,
    messageCount: int)

  datatype Role = User | Assistant

  /** A chat message; messages of a session are ordered by creation. */
  datatype ChatMessage = ChatMessage(sessionId: string, role: Role, content: string)

  datatype Video = Video(title: string, description: string, channel: string)
  datatype Simulation = Simulation(title: string, description: string, url: Option<string>)
  datatype Reading = Reading(title: string, description: string, url: Option<string>, source: string)
  datatype Activity = Activity(title: string, description: string, materials: string)

  /** The structured learning-resource bundle the language model returns. */
  datatype ResourceBundle = ResourceBundle(
    videos: seq<Video>,
    simulations: seq<Simulation>,
    readings: seq<Reading>,
    activities: seq<Activity>,
    keyConcepts: seq<string>,
    australianConnection: string)
}
