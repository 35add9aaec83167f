/** The session store of the original project: one record per chat, keyed
    by the chat id; an update replaces the whole record of a stored chat. */
module InsuranseRepository {
  import opened Wrappers
  import opened InsuranseModels

  type Store = map<int, UserSession>

  /** `FindAsync(chatId)`. */
  function Lookup(m: Store, chatId: int): Option<UserSession> {
    if chatId in m then Some(m[chatId]) else Option.None
  }

  /** The store after `UpdateAsync(s)`: `s` becomes the chat's record when
      the chat has one. */
  function Updated(m: Store, s: UserSession): Store {
    if s.chatId in m then m[s.chatId := s] else m
  }

  class UserSessionRepositoryInMemory {
    var sessions: Store

    constructor()
      ensures sessions == map[]
    {
      sessions := map[];
    }

    /** `AddAsync(s)`: refused, with nothing changed, when the chat already
        has a record. */
    method Add(s: UserSession) returns (ok: bool)
      modifies this
      ensures ok <==> s.chatId !in old(sessions)
      ensures sessions == if ok then old(sessions)[s.chatId := s] else old(sessions)
    {
      ok := s.chatId !in sessions;
      if ok {
        sessions := sessions[s.chatId := s];
      }
    }

    /** `DeleteAsync(chatId)`. */
    method Delete(chatId: int) returns (found: bool)
      modifies this
      ensures found <==> chatId in old(sessions)
      ensures sessions == old(sessions) - {chatId}
    {
      found := chatId in sessions;
      sessions := sessions - {chatId};
    }

    /** `GetAsync(chatId)`. */
    method Get(chatId: int) returns (r: Option<UserSession>)
      ensures r.Some? <==> chatId in sessions
      ensures r.Some? ==> r.value == sessions[chatId]
    {
      if chatId in sessions {
        r := Some(sessions[chatId]);
      } else {
        r := Option.None;
      }
    }

    /** `UpdateAsync(s)`. */
    method Update(s: UserSession)
      modifies this
      ensures sessions == Updated(old(sessions), s)
    {
      var existing := Get(s.chatId);
      if existing.Some? {
        sessions := sessions[s.chatId := s];
      }
    }
  }

  /** After adding a session for a chat without one, getting that chat
      returns it, and every other chat is as before. */
  lemma GetAfterAdd(m: Store, s: UserSession, other: int)
    requires s.chatId !in m
    ensures Lookup(m[s.chatId := s], s.chatId) == Some(s)
    ensures other != s.chatId ==> Lookup(m[s.chatId := s], other) == Lookup(m, other)
  {
  }

  /** Deleting removes the chat's record when present and is otherwise a
      no-op. */
  lemma GetAfterDelete(m: Store, chatId: int, other: int)
    ensures Lookup(m - {chatId}, chatId) == Option.None
    ensures other != chatId ==> Lookup(m - {chatId}, other) == Lookup(m, other)
    ensures chatId !in m ==> m - {chatId} == m
  {
  }

  /** An update stores the given session exactly when its chat has a record,
      and touches no other chat. */
  lemma UpdateReplacesStored(m: Store, s: UserSession, other: int)
    ensures s.chatId in m ==> Lookup(Updated(m, s), s.chatId) == Some(s)
    ensures s.chatId !in m ==> Updated(m, s) == m
    ensures other != s.chatId ==> Lookup(Updated(m, s), other) == Lookup(m, other)
  {
  }
}
