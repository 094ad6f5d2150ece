/**
 * Session acquisition: turn the session id a request presents (already
 * parsed from its cookie, None when missing or malformed) into a session,
 * renewing the id whenever no stored session matches.
 */
module Acquisition {
  import opened Wrappers
  import opened Users
  import opened SessionRecords
  import opened Backends
  import opened SessionUsers
  import opened Sessions

  /**
   * `load_session`: Ok(Some(session)) when a stored session matches the
   * presented id, Ok(None) when the caller must start a fresh session.
   */
  method LoadSession(backend: MemoryBackend, presented: Option<SessionId>) returns (r: Result<Option<Session>, BackendError>)
    requires backend.Valid()
    modifies backend`log
    ensures presented.None? ==> r == Ok(None) && backend.log == old(backend.log)
    ensures presented.Some? ==> backend.log == old(backend.log) + [LoadSessionDataCall(presented.value)]
    ensures presented.Some? ==> (r.Err? <==> LoadSessionDataOp in backend.failing)
    ensures r.Ok? && r.value.None? ==> presented.None? || presented.value !in backend.sessions
    ensures r.Ok? && r.value.Some? ==>
      var s := r.value.value;
      && presented.Some? && presented.value in backend.sessions
      && fresh(s) && fresh(s.user) && s.Valid() && s.backend == backend
      && s.id == presented.value
      && s.State() == SessionState(Cache(backend.sessions[presented.value].userId, None), false)
      && s.data == backend.sessions[presented.value].data
    ensures presented.Some? && presented.value in backend.sessions && r.Ok? ==> r.value.Some?
  {
    if presented.None? {
      return Ok(None);
    }
    var loaded := backend.LoadSessionData(presented.value);
    if loaded.Err? {
      return Err(loaded.error);
    }
    if loaded.value.None? {
      return Ok(None);
    }
    var fields := loaded.value.value;
    var s := new Session(backend, presented.value, fields.userId, fields.data);
    return Ok(Some(s));
  }

  /**
   * `from_request_parts`: resume the stored session, or mint a new id (the
   * random `minted`) with fresh data and no user. The presented id is never
   * reused for a session it does not name.
   */
  method FromRequestParts(backend: MemoryBackend, presented: Option<SessionId>, minted: SessionId)
    returns (r: Result<Session, BackendError>)
    requires backend.Valid()
    modifies backend`log
    ensures r.Ok? ==> fresh(r.value) && fresh(r.value.user) && r.value.Valid() && r.value.backend == backend
    ensures r.Ok? ==> !r.value.needsSave && r.value.user.memo.None?
    ensures presented.Some? && presented.value in backend.sessions ==>
      && backend.log == old(backend.log) + [LoadSessionDataCall(presented.value)]
      && (r.Err? <==> LoadSessionDataOp in backend.failing)
      && (r.Ok? ==> r.value.id == presented.value
                    && r.value.user.id == backend.sessions[presented.value].userId
                    && r.value.data == backend.sessions[presented.value].data)
    ensures presented.None? ==>
      && backend.log == old(backend.log) + [CreateSessionDataCall]
      && (r.Err? <==> CreateSessionDataOp in backend.failing)
    ensures presented.Some? && presented.value !in backend.sessions ==>
      && |backend.log| > |old(backend.log)|
      && backend.log[..|old(backend.log)| + 1] == old(backend.log) + [LoadSessionDataCall(presented.value)]
      && (LoadSessionDataOp in backend.failing ==> r.Err? && |backend.log| == |old(backend.log)| + 1)
      && (LoadSessionDataOp !in backend.failing ==>
            backend.log == old(backend.log) + [LoadSessionDataCall(presented.value), CreateSessionDataCall]
            && (r.Err? <==> CreateSessionDataOp in backend.failing))
    ensures r.Ok? && (presented.None? || presented.value !in backend.sessions) ==>
      r.value.id == minted && r.value.user.id.None? && r.value.data == backend.freshData
  {
    var loaded := LoadSession(backend, presented);
    if loaded.Err? {
      return Err(loaded.error);
    }
    if loaded.value.Some? {
      return Ok(loaded.value.value);
    }
    var data := backend.CreateSessionData();
    if data.Err? {
      return Err(data.error);
    }
    var s := new Session(backend, minted, None, data.value);
    return Ok(s);
  }

  /** Renewal on a miss: a session started for an unknown id never carries that id. */
  method RenewsUnknownId(backend: MemoryBackend, presented: SessionId, minted: SessionId) returns (r: Result<Session, BackendError>)
    requires backend.Valid()
    requires presented !in backend.sessions
    requires minted != presented
    modifies backend`log
    ensures r.Ok? ==> r.value.id != presented && r.value.user.id.None?
  {
    r := FromRequestParts(backend, Some(presented), minted);
  }
}
