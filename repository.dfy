/** The session store of the newer revisions: one record per chat, keyed by
    the chat id, with an update that merges the passport and vehicle records
    instead of dropping them. */
module Repository {
  import opened Wrappers
  import opened Models

  type Store<St> = map<int, UserSession<St>>

  /** `FindAsync(chatId)`: the record stored for the chat, if any. */
  function Lookup<St>(m: Store<St>, chatId: int): Option<UserSession<St>> {
    if chatId in m then Some(m[chatId]) else Option.None
  }

  /** The stored record after `UpdateAsync(s)` found `existing`: the scalar
      fields (state and country) are copied from `s`, and a passport or
      vehicle record of `s` replaces the stored one; a missing one keeps it. */
  function Merge<St>(existing: UserSession<St>, s: UserSession<St>): UserSession<St> {
    existing.(
      state := s.state,
      countryCode := s.countryCode,
      passportData := if s.passportData.Some? then s.passportData else existing.passportData,
      vehicleData := if s.vehicleData.Some? then s.vehicleData else existing.vehicleData)
  }

  /** The store after `UpdateAsync(s)`: only the record of `s`'s chat, and
      only when there is one. */
  function Updated<St>(m: Store<St>, s: UserSession<St>): Store<St> {
    if s.chatId in m then m[s.chatId := Merge(m[s.chatId], s)] else m
  }

  /** Every record is stored under its own chat id. */
  predicate KeysMatch<St>(m: Store<St>) {
    forall k :: k in m ==> m[k].chatId == k
  }

  class UserSessionRepositoryInMemory<St> {
    var sessions: Store<St>

    constructor()
      ensures sessions == map[]
    {
      sessions := map[];
    }

    /** `AddAsync(s)`: the context refuses a second record for a chat, so
        `ok` is false and nothing changes when the chat already has one. */
    method Add(s: UserSession<St>) returns (ok: bool)
      modifies this
      ensures ok <==> s.chatId !in old(sessions)
      ensures sessions == if ok then old(sessions)[s.chatId := s] else old(sessions)
    {
      ok := s.chatId !in sessions;
      if ok {
        sessions := sessions[s.chatId := s];
      }
    }

    /** `DeleteAsync(chatId)`: removes the chat's record; `found` tells
        whether there was one (the source only logs a warning otherwise). */
    method Delete(chatId: int) returns (found: bool)
      modifies this
      ensures found <==> chatId in old(sessions)
      ensures sessions == old(sessions) - {chatId}
    {
      found := chatId in sessions;
      sessions := sessions - {chatId};
    }

    /** `GetAsync(chatId)`. */
    method Get(chatId: int) returns (r: Option<UserSession<St>>)
      ensures r.Some? <==> chatId in sessions
      ensures r.Some? ==> r.value == sessions[chatId]
    {
      if chatId in sessions {
        r := Some(sessions[chatId]);
      } else {
        r := Option.None;
      }
    }

    /** `UpdateAsync(s)`. */
    method Update(s: UserSession<St>)
      modifies this
      ensures sessions == Updated(old(sessions), s)
    {
      if s.chatId in sessions {
        var existing := sessions[s.chatId];
        var merged := existing.(state := s.state, countryCode := s.countryCode);
        if s.passportData.Some? {
          merged := merged.(passportData := s.passportData);
        }
        if s.vehicleData.Some? {
          merged := merged.(vehicleData := s.vehicleData);
        }
        sessions := sessions[s.chatId := merged];
      }
    }
  }

  /** After adding a session for a chat without one, getting that chat
      returns it, and every other chat is as before. */
  lemma GetAfterAdd<St>(m: Store<St>, s: UserSession<St>, other: int)
    requires s.chatId !in m
    ensures Lookup(m[s.chatId := s], s.chatId) == Some(s)
    ensures other != s.chatId ==> Lookup(m[s.chatId := s], other) == Lookup(m, other)
  {
  }

  /** Deleting removes the chat's record, present or not, and nothing else. */
  lemma GetAfterDelete<St>(m: Store<St>, chatId: int, other: int)
    ensures Lookup(m - {chatId}, chatId) == Option.None
    ensures other != chatId ==> Lookup(m - {chatId}, other) == Lookup(m, other)
    ensures chatId !in m ==> m - {chatId} == m
  {
  }

  /** Updating a chat without a record changes nothing. */
  lemma UpdateAbsent<St>(m: Store<St>, s: UserSession<St>)
    requires s.chatId !in m
    ensures Updated(m, s) == m
  {
  }

  /** Update touches only the record of the session's own chat, and never
      adds or removes a chat. */
  lemma UpdateOnlyOwnChat<St>(m: Store<St>, s: UserSession<St>, other: int)
    requires other != s.chatId
    ensures Lookup(Updated(m, s), other) == Lookup(m, other)
    ensures Updated(m, s).Keys == m.Keys
  {
  }

  /** After an update of a stored chat, its record has the session's state
      and country, and passport and vehicle records follow the merge rule:
      a missing one keeps the stored record, a present one replaces it. */
  lemma UpdateMergesRecords<St>(m: Store<St>, s: UserSession<St>)
    requires s.chatId in m
    ensures var r := Updated(m, s)[s.chatId];
      && r.chatId == m[s.chatId].chatId
      && r.state == s.state && r.countryCode == s.countryCode
      && (s.passportData.None? ==> r.passportData == m[s.chatId].passportData)
      && (s.passportData.Some? ==> r.passportData == s.passportData)
      && (s.vehicleData.None? ==> r.vehicleData == m[s.chatId].vehicleData)
      && (s.vehicleData.Some? ==> r.vehicleData == s.vehicleData)
  {
  }

  /** An update never loses a passport or vehicle record. */
  lemma UpdateKeepsRecords<St>(m: Store<St>, s: UserSession<St>)
    requires s.chatId in m
    ensures m[s.chatId].passportData.Some? ==> Updated(m, s)[s.chatId].passportData.Some?
    ensures m[s.chatId].vehicleData.Some? ==> Updated(m, s)[s.chatId].vehicleData.Some?
  {
  }

  /** Updating twice with the same session is updating once. */
  lemma UpdateIdempotent<St>(m: Store<St>, s: UserSession<St>)
    ensures Updated(Updated(m, s), s) == Updated(m, s)
  {
  }

  /** Writing back a session read from the store, with its own chat id,
      leaves the store as it was; so reading, changing and updating is the
      same as storing the changed session when it keeps both records. */
  lemma UpdateWithStoredRecord<St>(m: Store<St>, chatId: int)
    requires chatId in m && KeysMatch(m)
    ensures Updated(m, m[chatId]) == m
  {
  }

  /** Updating a stored chat with a changed copy of its record that keeps
      both records stores exactly that copy. */
  lemma UpdateWithChangedRecord<St>(m: Store<St>, s: UserSession<St>)
    requires s.chatId in m
    requires s == m[s.chatId].(state := s.state, countryCode := s.countryCode,
                               passportData := s.passportData, vehicleData := s.vehicleData)
    requires s.passportData.None? ==> m[s.chatId].passportData.None?
    requires s.vehicleData.None? ==> m[s.chatId].vehicleData.None?
    ensures Updated(m, s) == m[s.chatId := s]
  {
  }

  /** A later update of the same chat that carries at least the records of
      an earlier one supersedes it. */
  lemma UpdateSuperseded<St>(m: Store<St>, s1: UserSession<St>, s2: UserSession<St>)
    requires s1.chatId == s2.chatId
    requires s1.passportData.Some? ==> s2.passportData.Some?
    requires s1.vehicleData.Some? ==> s2.vehicleData.Some?
    ensures Updated(Updated(m, s1), s2) == Updated(m, s2)
  {
  }

  /** The update keeps every record under its own chat id. */
  lemma UpdateKeepsKeysMatch<St>(m: Store<St>, s: UserSession<St>)
    requires KeysMatch(m)
    ensures KeysMatch(Updated(m, s))
  {
  }
}
