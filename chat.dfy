/** The tutor chat (src/pages/Chat.jsx): starting a session, the optional
    greeting, sending a message through the store and the language model,
    and the pure pieces in between (the session's message list, the context
    window handed to the model, the truncated last message). */
module Chat {
  import opened Text
  import opened Records
  import opened Gateway

  /** `ChatMessage.filter({session_id}, 'created_date')`: the session's
      messages in creation order. */
  function OfSession(rows: seq<ChatMessage>, sessionId: string): (r: seq<ChatMessage>)
    ensures |r| <= |rows|
    ensures forall i :: 0 <= i < |r| ==> r[i].sessionId == sessionId
  {
    if rows == [] then []
    else
      var last := rows[|rows| - 1];
      OfSession(rows[..|rows| - 1], sessionId) + (if last.sessionId == sessionId then [last] else [])
  }

  /** A message just created for the session comes last in its list; one for
      another session leaves the list as it was. */
  lemma OfSessionAfterCreate(rows: seq<ChatMessage>, m: ChatMessage, sessionId: string)
    ensures OfSession(rows + [m], sessionId) ==
      OfSession(rows, sessionId) + (if m.sessionId == sessionId then [m] else [])
  {
    assert (rows + [m])[..|rows|] == rows;
  }

  /** The messages of one session are the store's messages of that session,
      in the same relative order: the list only grows at its end. */
  lemma {:induction false} OfSessionPrefix(rows: seq<ChatMessage>, more: seq<ChatMessage>, sessionId: string)
    ensures OfSession(rows, sessionId) <= OfSession(rows + more, sessionId)
    decreases |more|
  {
    if more != [] {
      var init := more[..|more| - 1];
      OfSessionPrefix(rows, init, sessionId);
      assert rows + more == (rows + init) + [more[|more| - 1]];
      OfSessionAfterCreate(rows + init, more[|more| - 1], sessionId);
    } else {
      assert rows + more == rows;
    }
  }

  /** `history.slice(-6)`: the last six messages, or all when fewer. */
  function Window(history: seq<ChatMessage>): (w: seq<ChatMessage>)
    ensures |w| == if |history| < 6 then |history| else 6
    ensures w == history[|history| - |w|..]
  {
    if |history| <= 6 then history else history[|history| - 6..]
  }

  /** The speaker label of a role in the context. */
  function Speaker(role: Role): (name: string)
    ensures name == "Student" <==> role.User?
    ensures name == "Teacher" <==> role.Assistant?
  {
    if role.User? then
      assert "Student"[0] != "Teacher"[0];
      "Student"
    else "Teacher"
  }

  function Line(m: ChatMessage): string
  {
    Speaker(m.role) + ": " + m.content
  }

  function Lines(ms: seq<ChatMessage>): (ls: seq<string>)
    ensures |ls| == |ms|
    ensures forall i :: 0 <= i < |ms| ==> ls[i] == Line(ms[i])
  {
    seq(|ms|, i requires 0 <= i < |ms| => Line(ms[i]))
  }

  /** `parts.join(sep)`. */
  function Join(parts: seq<string>, sep: string): string
  {
    if parts == [] then ""
    else if |parts| == 1 then parts[0]
    else parts[0] + sep + Join(parts[1..], sep)
  }

  /** A joined list ends with its last part, and begins with its first. */
  lemma {:induction false} JoinEnds(parts: seq<string>, sep: string)
    requires parts != []
    ensures EndsWith(Join(parts, sep), parts[|parts| - 1])
    ensures StartsWith(Join(parts, sep), parts[0])
  {
    if |parts| > 1 {
      JoinEnds(parts[1..], sep);
      var rest := Join(parts[1..], sep);
      var whole := parts[0] + sep + rest;
      assert whole[|whole| - |rest|..] == rest;
      assert parts[1..][|parts[1..]| - 1] == parts[|parts| - 1];
      var t := parts[|parts| - 1];
      assert whole[|whole| - |t|..] == rest[|rest| - |t|..];
      assert whole[..|parts[0]|] == parts[0];
    }
  }

  /** The conversation text handed to the model. */
  function Context(history: seq<ChatMessage>): string
  {
    Join(Lines(Window(history)), "\n\n")
  }

  /** The context opens with the oldest message of the window and ends with
      the newest message of the history, which after a send is the student's
      new message. */
  lemma ContextEndsWithNewest(history: seq<ChatMessage>)
    requires history != []
    ensures EndsWith(Context(history), Line(history[|history| - 1]))
    ensures StartsWith(Context(history), Line(history[|history| - |Window(history)|]))
  {
    var w := Window(history);
    JoinEnds(Lines(w), "\n\n");
    assert w[|w| - 1] == history[|history| - 1];
  }

  /** `message.slice(0, n)`. */
  function Prefix(s: string, n: nat): (r: string)
    ensures |r| == if |s| <= n then |s| else n
    ensures r == s[..|r|]
  {
    if |s| <= n then s else s[..n]
  }

  /** Truncation is idempotent and keeps a message of at most 100 characters whole. */
  lemma PrefixProperties(s: string)
    ensures Prefix(Prefix(s, 100), 100) == Prefix(s, 100)
    ensures |s| <= 100 ==> Prefix(s, 100) == s
    ensures |s| > 100 ==> |Prefix(s, 100)| == 100
  {
  }

  /** A URL parameter is truthy when present and non-empty. */
  predicate Given(param: Option<string>)
  {
    param.Some? && param.value != ""
  }

  /** The session record `createNewSession` creates. */
  function NewSession(studentId: string, topicParam: Option<string>): (s: ChatSession)
    ensures s.studentId == studentId && s.messageCount == 0
    ensures s.lastMessage == "Started new conversation"
    ensures Given(topicParam) ==> s.topic == topicParam.value && s.title == "Learning about " + topicParam.value
    ensures !Given(topicParam) ==> s.topic == "general" && s.title == "New Conversation"
  {
    if Given(topicParam)
    then ChatSession(studentId, topicParam.value, "Learning about " + topicParam.value, "Started new conversation", 0)
    else ChatSession(studentId, "general", "New Conversation", "Started new conversation", 0)
  }

  const SessionError := "Failed to start chat session. Please refresh the page."
  const SendError := "Failed to send message. Please try again."

  /** The external calls one send makes, in order, each of which may fail. */
  datatype SendCalls = SendCalls(
    storeQuestion: Call<()>,
    fetchHistory: Call<()>,
    reply: Call<string>,
    storeAnswer: Call<()>,
    updateSession: Call<()>)

  /** The question was stored and the history fetched, so the model was asked. */
  predicate Asked(calls: SendCalls)
  {
    calls.storeQuestion.Done? && calls.fetchHistory.Done?
  }

  /** The model replied and its answer was stored. */
  predicate Answered(calls: SendCalls)
  {
    Asked(calls) && calls.reply.Done? && calls.storeAnswer.Done?
  }

  /** The whole send succeeded: the session record exists and its update
      went through as well. */
  predicate Sent(sessions: map<string, ChatSession>, sid: string, calls: SendCalls)
  {
    Answered(calls) && calls.updateSession.Done? && sid in sessions
  }

  /** The history fetched after the question was stored: the session's
      earlier messages followed by the question. */
  function HistoryWith(rows: seq<ChatMessage>, sid: string, message: string): seq<ChatMessage>
  {
    OfSession(rows, sid) + [ChatMessage(sid, User, message)]
  }

  /** The store's messages after a send: the question once it is stored, then
      the answer once the model replied and it is stored too. */
  function RowsAfterSend(rows: seq<ChatMessage>, sid: string, message: string, calls: SendCalls): seq<ChatMessage>
  {
    rows
      + (if calls.storeQuestion.Done? then [ChatMessage(sid, User, message)] else [])
      + (if Answered(calls) then [ChatMessage(sid, Assistant, calls.reply.value)] else [])
  }

  /** The session records after a send: only a send that succeeded touches
      them, setting the session's last message to the first 100 characters
      and its counter to the history's length plus two. */
  function SessionsAfterSend(sessions: map<string, ChatSession>, rows: seq<ChatMessage>, sid: string,
                             message: string, calls: SendCalls): map<string, ChatSession>
  {
    if Sent(sessions, sid, calls)
    then sessions[sid := sessions[sid].(lastMessage := Prefix(message, 100),
                                        messageCount := |HistoryWith(rows, sid, message)| + 2)]
    else sessions
  }

  /** The message-store steps of a send: store the question, fetch the
      session's history (which then ends with the question), ask the model
      with the context built from it, and store the answer. Each step runs
      only when the one before it succeeded; what was stored stays stored. */
  method Exchange(sid: string, message: string, messages: Table<ChatMessage>, calls: SendCalls)
    returns (answered: bool, history: seq<ChatMessage>, context: Option<string>)
    modifies messages
    ensures answered <==> Answered(calls)
    ensures Asked(calls) ==> history == HistoryWith(old(messages.rows), sid, message)
    ensures context == (if Asked(calls) then Some(Context(history)) else None)
    ensures messages.rows == RowsAfterSend(old(messages.rows), sid, message, calls)
  {
    answered, history, context := false, [], None;
    var question := ChatMessage(sid, User, message);
    ghost var rows0 := messages.rows;
    var stored := messages.Create(question, calls.storeQuestion);
    if stored && calls.fetchHistory.Done? {
      OfSessionAfterCreate(rows0, question, sid);
      history := OfSession(messages.rows, sid);
      context := Some(Context(history));
      if calls.reply.Done? {
        answered := messages.Create(ChatMessage(sid, Assistant, calls.reply.value), calls.storeAnswer);
      }
    }
  }

  class ChatPage {
    var sessionId: Option<string>
    var currentTopic: Option<string>
    var input: string
    var isLoading: bool
    var error: Option<string>

    constructor ()
      ensures sessionId == None && currentTopic == None && input == ""
      ensures !isLoading && error == None
    {
      sessionId := None;
      currentTopic := None;
      input := "";
      isLoading := false;
      error := None;
    }

    /** The Send button and the Enter key: `!input.trim() || isLoading`
        disables them. */
    predicate SendEnabled()
      reads this
    {
      Trim(input) != [] && !isLoading
    }

    /** `createNewSession()`. The store assigns `newId`, an id not yet in
        use. On success the page shows the session and, when a topic was
        given, asks for a greeting; a failed create only sets the error. */
    method CreateNewSession(studentId: string, topicParam: Option<string>, newId: string,
                            sessions: SessionTable, created: Call<()>,
                            messages: Table<ChatMessage>, greeting: Call<string>, greetingStored: Call<()>)
      requires newId !in sessions.sessions
      modifies this`sessionId, this`currentTopic, this`error, sessions, messages
      ensures created.Failed? ==>
        && sessions.sessions == old(sessions.sessions) && messages.rows == old(messages.rows)
        && error == Some(SessionError) && sessionId == old(sessionId) && currentTopic == old(currentTopic)
      ensures created.Done? ==>
        && sessions.sessions == old(sessions.sessions)[newId := NewSession(studentId, topicParam)]
        && sessionId == Some(newId) && currentTopic == topicParam && error == None
        && messages.rows == old(messages.rows) +
             (if Given(topicParam) && greeting.Done? && greetingStored.Done?
              then [ChatMessage(newId, Assistant, greeting.value)] else [])
    {
      var ok := sessions.Create(newId, NewSession(studentId, topicParam), created);
      if !ok {
        error := Some(SessionError);
        return;
      }
      sessionId := Some(newId);
      currentTopic := topicParam;
      error := None;
      if Given(topicParam) {
        SendInitialMessage(newId, greeting, greetingStored, messages);
      }
    }

    /** `sendInitialMessage()`: stores the model's greeting; any failure is
        swallowed, leaving the page state as it was. */
    method SendInitialMessage(session: string, greeting: Call<string>, stored: Call<()>, messages: Table<ChatMessage>)
      modifies messages
      ensures messages.rows == old(messages.rows) +
        (if greeting.Done? && stored.Done? then [ChatMessage(session, Assistant, greeting.value)] else [])
    {
      if greeting.Done? {
        var _ := messages.Create(ChatMessage(session, Assistant, greeting.value), stored);
      }
    }

    /** `sendMessageMutation`: stores the student's message, fetches the
        session's history, asks the model with the last six messages as
        context, stores the answer and updates the session record. The first
        failure stops the sequence; what was stored stays stored. `context`
        is what the model was given, once the history was fetched. */
    method SendMessage(message: string, sessions: SessionTable, messages: Table<ChatMessage>, calls: SendCalls)
      returns (ok: bool, context: Option<string>)
      requires sessionId.Some?
      modifies this`isLoading, this`error, this`input, sessions, messages
      ensures !isLoading
      ensures var sid := sessionId.value;
        && (ok <==> Sent(old(sessions.sessions), sid, calls))
        && messages.rows == RowsAfterSend(old(messages.rows), sid, message, calls)
        && sessions.sessions == SessionsAfterSend(old(sessions.sessions), old(messages.rows), sid, message, calls)
        && context == (if Asked(calls) then Some(Context(HistoryWith(old(messages.rows), sid, message))) else None)
      ensures ok ==> input == "" && error == None
      ensures !ok ==> input == old(input) && error == Some(SendError)
    {
      isLoading := true;
      error := None;
      var sid := sessionId.value;
      var answered, history;
      answered, history, context := Exchange(sid, message, messages, calls);
      assert sessions.sessions == old(sessions.sessions);
      ok := false;
      if answered {
        ok := sessions.Update(sid, Prefix(message, 100), |history| + 2, calls.updateSession);
      }
      isLoading := false;
      if ok {
        input := "";
        error := None;
      } else {
        error := Some(SendError);
      }
    }

    /** `handleSend()`: sends the typed text unless it is blank or a send is
        in flight, in which case nothing at all changes. */
    method HandleSend(sessions: SessionTable, messages: Table<ChatMessage>, calls: SendCalls)
      returns (sent: bool)
      requires sessionId.Some?
      modifies this`isLoading, this`error, this`input, sessions, messages
      ensures sent <==> !AllSpace(old(input)) && !old(isLoading)
      ensures !sent ==> && input == old(input) && isLoading == old(isLoading) && error == old(error)
                        && sessions.sessions == old(sessions.sessions) && messages.rows == old(messages.rows)
      ensures sent ==> !isLoading
      ensures sent ==> var sid := sessionId.value;
        && messages.rows == RowsAfterSend(old(messages.rows), sid, old(input), calls)
        && sessions.sessions == SessionsAfterSend(old(sessions.sessions), old(messages.rows), sid, old(input), calls)
        && (Sent(old(sessions.sessions), sid, calls) ==> input == "" && error == None)
        && (!Sent(old(sessions.sessions), sid, calls) ==> input == old(input) && error == Some(SendError))
    {
      TrimEmptyIff(input);
      if Trim(input) == [] || isLoading {
        return false;
      }
      var _, _ := SendMessage(input, sessions, messages, calls);
      sent := true;
    }
  }

  /** After a successful send the session's counter is one more than the
      number of messages the session holds: the history already counted the
      new question, and the answer adds one more. */
  lemma CounterAfterSend(sessions: map<string, ChatSession>, rows: seq<ChatMessage>, sid: string,
                         message: string, calls: SendCalls)
    requires Sent(sessions, sid, calls)
    ensures SessionsAfterSend(sessions, rows, sid, message, calls)[sid].messageCount
      == |OfSession(RowsAfterSend(rows, sid, message, calls), sid)| + 1
  {
    var question := ChatMessage(sid, User, message);
    var answer := ChatMessage(sid, Assistant, calls.reply.value);
    assert RowsAfterSend(rows, sid, message, calls) == rows + [question] + [answer];
    OfSessionAfterCreate(rows, question, sid);
    OfSessionAfterCreate(rows + [question], answer, sid);
  }

  /** A session opened with a topic and a stored greeting holds one message
      while its counter still reads 0. */
  lemma GreetingNotCounted(rows: seq<ChatMessage>, studentId: string, topic: string, sid: string, greeting: string)
    requires topic != "" && OfSession(rows, sid) == []
    ensures NewSession(studentId, Some(topic)).messageCount == 0
    ensures |OfSession(rows + [ChatMessage(sid, Assistant, greeting)], sid)| == 1
  {
    OfSessionAfterCreate(rows, ChatMessage(sid, Assistant, greeting), sid);
  }
}
