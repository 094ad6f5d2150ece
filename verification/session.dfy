/** The session identifier and the stored form of a session. */
module SessionRecords {
  import opened Wrappers
  import opened Users

  /** An opaque 128-bit random identifier, compared by value. */
  datatype SessionId = SessionId(uuid: bv128)

  /** The implementation-defined session payload. */
  type SessionData = seq<bv8>

  /** A session as the backend stores it. */
  datatype SessionFields = SessionFields(userId: Option<UserId>, data: SessionData)
}

/**
 * The session core: an immutable id, the payload, the user cache and a
 * needs-save flag that gates persistence.
 */
module Sessions {
  import opened Wrappers
  import opened Password
  import opened Users
  import opened SessionRecords
  import opened Backends
  import opened SessionUsers

  /** The part of a session its operations change: the cache and the flag. */
  datatype SessionState = SessionState(cache: Cache, needsSave: bool)

  /** `set_user_id`: the flag is raised when the id changes. */
  function AfterSetUserId(s: SessionState, id: Option<UserId>): SessionState
  {
    SessionState(CacheSetId(s.cache, id), s.needsSave || id != s.cache.id)
  }

  /** `set_user`: the flag is raised when the record's id differs from the current id. */
  function AfterSetUser(s: SessionState, u: Option<User>): SessionState
  {
    SessionState(CacheSetUser(s.cache, u), s.needsSave || IdOf(u) != s.cache.id)
  }

  function AfterMarkDirty(s: SessionState): SessionState
  {
    s.(needsSave := true)
  }

  /** A successful write of the session to the backend. */
  function AfterSaved(s: SessionState): SessionState
  {
    s.(needsSave := false)
  }

  /** `update_user_password` on an authenticated session, once the backend accepted the hash. */
  function AfterPasswordUpdate(s: SessionState, h: HashedPassword): SessionState
  {
    SessionState(CachePatchPassword(s.cache, h), true)
  }

  /**
   * Setting the current id, or installing the record already cached, changes
   * nothing: no flag is raised and the memo is kept.
   */
  lemma SameUserChangesNothing(s: SessionState)
    requires Coherent(s.cache)
    ensures AfterSetUserId(s, s.cache.id) == s
    ensures s.cache.memo.Some? ==> AfterSetUser(s, s.cache.memo) == s
  {
  }

  /** Logging out twice is logging out once; on an anonymous session it leaves the flag alone. */
  lemma LogoutIdempotent(s: SessionState)
    ensures AfterSetUser(s, None).cache == Cache(None, None)
    ensures AfterSetUser(AfterSetUser(s, None), None) == AfterSetUser(s, None)
    ensures s.cache.id.None? ==> AfterSetUser(s, None).needsSave == s.needsSave
  {
  }

  /** The state changes a sequence of session operations can make. */
  datatype Step =
    | SetUserIdStep(id: Option<UserId>)
    | SetUserStep(user: Option<User>)
    | MarkDirtyStep
    | PasswordUpdateStep(hashed: HashedPassword)
    | SavedStep

  function Apply(s: SessionState, step: Step): SessionState
  {
    match step
    case SetUserIdStep(id) => AfterSetUserId(s, id)
    case SetUserStep(u) => AfterSetUser(s, u)
    case MarkDirtyStep => AfterMarkDirty(s)
    case PasswordUpdateStep(h) => AfterPasswordUpdate(s, h)
    case SavedStep => AfterSaved(s)
  }

  /**
   * Runs `steps` from state `s`, given the user id the backend last stored for
   * this session; a save stores the current id.
   */
  function Run(s: SessionState, persisted: Option<UserId>, steps: seq<Step>): (SessionState, Option<UserId>)
    decreases |steps|
  {
    if steps == [] then (s, persisted)
    else
      var persisted' := if steps[0].SavedStep? then s.cache.id else persisted;
      Run(Apply(s, steps[0]), persisted', steps[1..])
  }

  /** A clean session holds the user id that was last stored. */
  predicate InSync(s: SessionState, persisted: Option<UserId>)
  {
    !s.needsSave ==> s.cache.id == persisted
  }

  /**
   * The needs-save invariant: whatever the operations, a session whose flag
   * is clear has the user id the backend last stored, so a change of user is
   * never lost by skipping a save.
   */
  lemma {:induction false} RunKeepsInSync(s: SessionState, persisted: Option<UserId>, steps: seq<Step>)
    requires InSync(s, persisted)
    ensures InSync(Run(s, persisted, steps).0, Run(s, persisted, steps).1)
    decreases |steps|
  {
    if steps != [] {
      var persisted' := if steps[0].SavedStep? then s.cache.id else persisted;
      RunKeepsInSync(Apply(s, steps[0]), persisted', steps[1..]);
    }
  }

  /** Operations other than a save never clear the flag. */
  lemma {:induction false} FlagStaysRaised(s: SessionState, persisted: Option<UserId>, steps: seq<Step>)
    requires s.needsSave
    requires forall i :: 0 <= i < |steps| ==> !steps[i].SavedStep?
    ensures Run(s, persisted, steps).0.needsSave
    decreases |steps|
  {
    if steps != [] {
      FlagStaysRaised(Apply(s, steps[0]), persisted, steps[1..]);
    }
  }

  class Session {
    const backend: MemoryBackend
    /** Implementation-defined payload. */
    var data: SessionData
    /** Never reassigned: the session id is fixed at construction. */
    const id: SessionId
    const user: SessionUser
    var needsSave: bool

    function State(): SessionState
      reads this, user
    {
      SessionState(user.State(), needsSave)
    }

    ghost predicate Valid()
      reads this, user, backend
    {
      user.Valid() && backend.Valid()
    }

    /** `Session::new`: clean, with the given id, user id and data and no memoized user. */
    constructor (backend: MemoryBackend, id: SessionId, userId: Option<UserId>, data: SessionData)
      requires backend.Valid()
      ensures Valid() && fresh(user)
      ensures this.backend == backend && this.id == id && this.data == data
      ensures State() == SessionState(Cache(userId, None), false)
    {
      this.backend := backend;
      this.id := id;
      this.data := data;
      this.user := new SessionUser(userId);
      this.needsSave := false;
    }

    function IsAuthenticated(): (b: bool)
      reads this, user
      ensures b <==> State().cache.id.Some?
    {
      user.IsAuthenticated()
    }

    /** `Session::user`: resolve through the cache. */
    method CurrentUser() returns (r: Result<Option<User>, BackendError>)
      requires Valid()
      modifies user, backend`log
      ensures Valid() && user.id == old(user.id)
      ensures old(user.id).None? ==> r == Ok(None) && backend.log == old(backend.log)
      ensures old(user.id).Some? && old(user.memo).Some? ==>
        r == Ok(old(user.memo)) && user.memo == old(user.memo) && backend.log == old(backend.log)
      ensures old(user.id).Some? && old(user.memo).None? ==>
        && backend.log == old(backend.log) + [LoadUserCall(old(user.id).value)]
        && r == backend.LoadUserAnswer(old(user.id).value)
        && user.memo == (if r.Ok? then r.value else None)
    {
      r := user.Resolve(backend);
    }

    /** `Session::user_mut`. */
    method CurrentUserMut() returns (r: Result<Option<User>, BackendError>)
      requires Valid()
      modifies user, backend`log
      ensures Valid() && user.id == old(user.id)
      ensures r.Ok? ==> r.value == user.memo
      ensures old(user.id).None? ==> r == Ok(None) && user.memo == old(user.memo) && backend.log == old(backend.log)
      ensures old(user.id).Some? && old(user.memo).Some? ==>
        r == Ok(old(user.memo)) && user.memo == old(user.memo) && backend.log == old(backend.log)
      ensures old(user.id).Some? && old(user.memo).None? ==>
        && backend.log == old(backend.log) + [LoadUserCall(old(user.id).value)]
        && r == backend.LoadUserAnswer(old(user.id).value)
        && user.memo == (if r.Ok? then r.value else None)
    {
      r := user.ResolveMut(backend);
    }

    method SetUserId(userId: Option<UserId>)
      requires Valid()
      modifies this, user
      ensures Valid() && data == old(data)
      ensures State() == AfterSetUserId(old(State()), userId)
    {
      if userId != user.id {
        MarkNeedsSave();
      }
      user.SetId(userId);
    }

    method SetUser(u: Option<User>)
      requires Valid()
      modifies this, user
      ensures Valid() && data == old(data)
      ensures State() == AfterSetUser(old(State()), u)
    {
      if IdOf(u) != user.id {
        MarkNeedsSave();
      }
      user.SetUser(u);
    }

    /** `needs_save`: mark the session as changed. */
    method MarkNeedsSave()
      modifies this`needsSave
      ensures State() == AfterMarkDirty(old(State()))
    {
      needsSave := true;
    }

    /** `force_save`: write unconditionally; the flag clears only when the write succeeds. */
    method ForceSave() returns (r: Result<(), BackendError>)
      requires Valid()
      modifies this`needsSave, backend`log, backend`sessions
      ensures Valid()
      ensures backend.log == old(backend.log) + [UpdateSessionDataCall(id, user.id, data)]
      ensures r == backend.Answer(UpdateSessionDataOp, ())
      ensures r.Ok? ==> State() == AfterSaved(old(State()))
      ensures r.Ok? ==> backend.sessions == old(backend.sessions)[id := SessionFields(user.id, data)]
      ensures r.Err? ==> needsSave == old(needsSave) && backend.sessions == old(backend.sessions)
    {
      var written := backend.UpdateSessionData(id, user.id, data);
      if written.Err? {
        return Err(written.error);
      }
      needsSave := false;
      return Ok(());
    }

    /** `save`: no write at all when the flag is clear, exactly one write when it is set. */
    method Save() returns (r: Result<(), BackendError>)
      requires Valid()
      modifies this`needsSave, backend`log, backend`sessions
      ensures Valid()
      ensures !old(needsSave) ==> r == Ok(()) && !needsSave && unchanged(backend)
      ensures old(needsSave) ==>
        && backend.log == old(backend.log) + [UpdateSessionDataCall(id, user.id, data)]
        && r == backend.Answer(UpdateSessionDataOp, ())
        && needsSave == r.Err?
        && backend.sessions == if r.Ok? then old(backend.sessions)[id := SessionFields(user.id, data)]
                               else old(backend.sessions)
    {
      if needsSave {
        r := ForceSave();
        if r.Err? {
          return;
        }
      }
      return Ok(());
    }

    method ForceLogin(userId: UserId) returns (r: Result<(), BackendError>)
      requires Valid()
      modifies this, user
      ensures Valid() && data == old(data) && r == Ok(())
      ensures State() == AfterSetUserId(old(State()), Some(userId))
    {
      SetUserId(Some(userId));
      return Ok(());
    }

    method ForceLoginUser(u: User) returns (r: Result<(), BackendError>)
      requires Valid()
      modifies this, user
      ensures Valid() && data == old(data) && r == Ok(())
      ensures State() == AfterSetUser(old(State()), Some(u))
    {
      SetUser(Some(u));
      return Ok(());
    }

    method Logout() returns (r: Result<(), BackendError>)
      requires Valid()
      modifies this, user
      ensures Valid() && data == old(data) && r == Ok(())
      ensures State() == AfterSetUser(old(State()), None)
      ensures !IsAuthenticated()
    {
      SetUser(None);
      return Ok(());
    }
  }

  /**
   * Dirty-flag gating: after a logout that changed something, the first save
   * writes once with no user id and a second save writes only if the first
   * failed; with nothing changed, neither save writes.
   */
  method LogoutThenSaveTwice(session: Session) returns (first: Result<(), BackendError>, second: Result<(), BackendError>)
    requires session.Valid()
    modifies session, session.user, session.backend`log, session.backend`sessions
    ensures first.Ok? ==> second == Ok(()) && !session.needsSave
    ensures old(session.needsSave) || old(session.user.id).Some? ==>
      var write := UpdateSessionDataCall(session.id, None, session.data);
      session.backend.log == old(session.backend.log) + (if first.Ok? then [write] else [write, write])
    ensures !old(session.needsSave) && old(session.user.id).None? ==>
      first == Ok(()) && session.backend.log == old(session.backend.log)
  {
    var _ := session.Logout();
    first := session.Save();
    second := session.Save();
  }
}
