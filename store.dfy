/**
  The in-memory registry of sessions. A session is created the first time its
  identifier is seen and the same object is handed out on every later lookup.
 */
module Store {
  import opened Wrappers
  import opened Messages

  /**
    The identifier a lookup actually uses: the requested one, or a freshly minted
    one when the request carries none or an empty string.
   */
  function EffectiveId(sessionId: Option<string>, freshId: string): (key: string)
    ensures sessionId.Some? && sessionId.value != "" ==> key == sessionId.value
    ensures sessionId.None? || sessionId.value == "" ==> key == freshId
    ensures freshId != "" ==> key != ""
  {
    if sessionId.None? || sessionId.value == "" then freshId else sessionId.value
  }

  class ChatMemoryStore {
    var sessions: map<string, ChatSession>

    /** Every registered session is filed under its own, non-empty identifier. */
    ghost predicate Valid()
      reads this
    {
      forall id :: id in sessions ==> id != "" && sessions[id].sessionId == id
    }

    constructor ()
      ensures Valid() && sessions == map[]
    {
      sessions := map[];
    }

    /**
      Returns the session filed under the requested identifier, creating and
      registering an empty one if there is none. `freshId` stands for the random
      identifier minted when the request names no session; a random hex string
      is never empty.
     */
    method GetOrCreate(sessionId: Option<string>, freshId: string) returns (s: ChatSession)
      requires Valid()
      requires freshId != ""
      modifies this
      ensures Valid()
      ensures var key := EffectiveId(sessionId, freshId);
        && key in sessions && sessions[key] == s && s.sessionId == key
        && (key in old(sessions) ==> sessions == old(sessions) && s == old(sessions)[key])
        && (key !in old(sessions) ==>
              fresh(s) && s.messages == [] && sessions == old(sessions)[key := s])
      ensures forall id :: id in old(sessions) ==> id in sessions && sessions[id] == old(sessions)[id]
    {
      var key := EffectiveId(sessionId, freshId);
      if key !in sessions {
        var created := new ChatSession(key);
        sessions := sessions[key := created];
      }
      s := sessions[key];
    }
  }

  /**
    Two lookups with the same non-empty identifier give the very same session,
    so a message added through the first is seen through the second.
   */
  method LookupIsShared(store: ChatMemoryStore, id: string, freshId: string, content: string)
    returns (first: ChatSession, second: ChatSession)
    requires store.Valid() && id != "" && freshId != ""
    modifies store, store.sessions.Values
    ensures store.Valid()
    ensures first == second && first.sessionId == id
    ensures id in old(store.sessions) ==>
      second.messages == old(store.sessions[id].messages) + [ChatMessage(User, content)]
    ensures id !in old(store.sessions) ==> second.messages == [ChatMessage(User, content)]
  {
    first := store.GetOrCreate(Some(id), freshId);
    first.Add(User, content);
    second := store.GetOrCreate(Some(id), freshId);
  }
}
