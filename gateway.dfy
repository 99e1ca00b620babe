/** The application's external collaborators, seen only through what their
    calls return: the backend's entity store, the language model and the
    browser's local storage. Whether a call succeeds is an input to the model. */
module Gateway {
  import opened Records

  /** The outcome of one external call: it returned a value, or it failed with
      an error whose message the caller may show. */
  datatype Call<+T> = Done(value: T) | Failed(message: string)

  /** One record kind of the entity store, in creation order. */
  class Table<T> {
    var rows: seq<T>

    constructor (initial: seq<T>)
      ensures rows == initial
    {
      rows := initial;
    }

    /** `Entity.create(row)`: appends the row when the store accepts it. */
    method Create(row: T, outcome: Call<()>) returns (ok: bool)
      modifies this
      ensures ok == outcome.Done?
      ensures rows == if ok then old(rows) + [row] else old(rows)
    {
      ok := outcome.Done?;
      if ok {
        rows := rows + [row];
      }
    }
  }

  /** The `ChatSession` kind of the entity store, keyed by record id. */
  class SessionTable {
    var sessions: map<string, ChatSession>

    constructor (initial: map<string, ChatSession>)
      ensures sessions == initial
    {
      sessions := initial;
    }

    /** `ChatSession.create(session)`; the store assigns the fresh `id`. */
    method Create(id: string, session: ChatSession, outcome: Call<()>) returns (ok: bool)
      modifies this
      ensures ok == (outcome.Done? && id !in old(sessions))
      ensures sessions == if ok then old(sessions)[id := session] else old(sessions)
    {
      ok := outcome.Done? && id !in sessions;
      if ok {
        sessions := sessions[id := session];
      }
    }

    /** `ChatSession.update(id, {last_message, message_count})`. */
    method Update(id: string, lastMessage: string, messageCount: int, outcome: Call<()>) returns (ok: bool)
      modifies this
      ensures ok == (outcome.Done? && id in old(sessions))
      ensures ok ==> sessions == old(sessions)[id := old(sessions)[id].(lastMessage := lastMessage, messageCount := messageCount)]
      ensures !ok ==> sessions == old(sessions)
    {
      ok := outcome.Done? && id in sessions;
      if ok {
        sessions := sessions[id := sessions[id].(lastMessage := lastMessage, messageCount := messageCount)];
      }
    }
  }

  /** A value kept in local storage: plain text, or a resource bundle kept as
      its JSON text (JSON round-trips are taken to be exact). */
  datatype Stored = Plain(text: string) | BundleJson(bundle: ResourceBundle)

  /** The browser's `localStorage`. */
  class LocalStorage {
    var entries: map<string, Stored>

    constructor (initial: map<string, Stored>)
      ensures entries == initial
    {
      entries := initial;
    }

    /** `localStorage.setItem(key, value)`; a write can fail (quota). */
    method SetItem(key: string, value: Stored, accepted: bool) returns (ok: bool)
      modifies this
      ensures ok == accepted
      ensures entries == if ok then old(entries)[key := value] else old(entries)
    {
      ok := accepted;
      if ok {
        entries := entries[key := value];
      }
    }

    /** `localStorage.removeItem(key)`. */
    method RemoveItem(key: string)
      modifies this
      ensures entries == old(entries) - {key}
    {
      entries := entries - {key};
    }
  }
}
