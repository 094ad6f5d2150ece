/**
 * The backend contract, given as an in-memory backend: stored sessions and
 * users, a fixed set of operations that fail, and a ghost log of every call
 * the core makes, failed or not.
 */
module Backends {
  import opened Wrappers
  import opened Password
  import opened Users
  import opened SessionRecords

  /** The cookie name a cookie-carrying backend uses unless it says otherwise. */
  const DefaultSessionCookieName: string := "sessionid"

  datatype Operation =
    | LoadSessionDataOp
    | CreateSessionDataOp
    | UpdateSessionDataOp
    | LoadUserOp
    | LoadUserByEmailOp
    | UpdateUserPasswordOp

  /** The backend's own error type: which operation failed. */
  datatype BackendError = BackendError(op: Operation)

  /** One backend call with exactly the arguments the core passed. */
  datatype Call =
    | LoadSessionDataCall(sessionId: SessionId)
    | CreateSessionDataCall
    | UpdateSessionDataCall(sessionId: SessionId, sessionUserId: Option<UserId>, data: SessionData)
    | LoadUserCall(userId: UserId)
    | LoadUserByEmailCall(email: string)
    | UpdateUserPasswordCall(userId: UserId, hashed: HashedPassword)

  /** The user registered under `email`, if the address is known and its user is stored. */
  function LookupByEmail(users: map<UserId, User>, emails: map<string, UserId>, email: string): Option<User>
  {
    if email in emails && emails[email] in users then Some(users[emails[email]]) else None
  }

  /** The user store after a successful `update_user_password(uid, hashed)`. */
  function WithStoredHash(users: map<UserId, User>, uid: UserId, hashed: HashedPassword): map<UserId, User>
  {
    if uid in users then users[uid := users[uid].(hashedPassword := Some(hashed))] else users
  }

  class MemoryBackend {
    var sessions: map<SessionId, SessionFields>
    var users: map<UserId, User>
    /** Which user id each email address belongs to. */
    const emails: map<string, UserId>
    /** The operations that answer with an error. */
    const failing: set<Operation>
    /** What `create_session_data` hands out. */
    const freshData: SessionData
    /** A cookie name that overrides the default. */
    const cookieName: Option<string>
    ghost var log: seq<Call>

    /** Every stored user is stored under its own id. */
    ghost predicate Valid()
      reads this
    {
      forall uid :: uid in users ==> users[uid].id == uid
    }

    constructor (sessions: map<SessionId, SessionFields>, users: map<UserId, User>, emails: map<string, UserId>,
                 failing: set<Operation>, freshData: SessionData, cookieName: Option<string>)
      requires forall uid :: uid in users ==> users[uid].id == uid
      ensures Valid() && log == []
      ensures this.sessions == sessions && this.users == users && this.emails == emails
      ensures this.failing == failing && this.freshData == freshData && this.cookieName == cookieName
    {
      this.sessions := sessions;
      this.users := users;
      this.emails := emails;
      this.failing := failing;
      this.freshData := freshData;
      this.cookieName := cookieName;
      this.log := [];
    }

    /** `CookieSessionBackend::session_cookie_name`. */
    function SessionCookieName(): (name: string)
      ensures cookieName.None? ==> name == "sessionid"
      ensures cookieName.Some? ==> name == cookieName.value
    {
      if cookieName.Some? then cookieName.value else DefaultSessionCookieName
    }

    function Answer<T>(op: Operation, value: T): (r: Result<T, BackendError>)
    {
      if op in failing then Err(BackendError(op)) else Ok(value)
    }

    function UserById(uid: UserId): (r: Option<User>)
      reads this`users
    {
      if uid in users then Some(users[uid]) else None
    }

    function UserByEmail(email: string): (r: Option<User>)
      reads this`users
    {
      LookupByEmail(users, emails, email)
    }

    function LoadUserAnswer(uid: UserId): (r: Result<Option<User>, BackendError>)
      reads this`users
    {
      Answer(LoadUserOp, UserById(uid))
    }

    /** What `load_user` answers: an error, "not found", or the user stored under that id. */
    lemma LoadUserAnswerCases(uid: UserId)
      requires Valid()
      ensures LoadUserAnswer(uid).Err? <==> LoadUserOp in failing
      ensures LoadUserAnswer(uid) == Ok(None) <==> LoadUserOp !in failing && uid !in users
      ensures LoadUserAnswer(uid).Ok? && LoadUserAnswer(uid).value.Some? ==> LoadUserAnswer(uid).value.value.id == uid
    {
    }

    method LoadSessionData(id: SessionId) returns (r: Result<Option<SessionFields>, BackendError>)
      modifies this`log
      ensures log == old(log) + [LoadSessionDataCall(id)]
      ensures r == Answer(LoadSessionDataOp, if id in sessions then Some(sessions[id]) else None)
    {
      log := log + [LoadSessionDataCall(id)];
      if LoadSessionDataOp in failing {
        return Err(BackendError(LoadSessionDataOp));
      }
      r := Ok(if id in sessions then Some(sessions[id]) else None);
    }

    method CreateSessionData() returns (r: Result<SessionData, BackendError>)
      modifies this`log
      ensures log == old(log) + [CreateSessionDataCall]
      ensures r == Answer(CreateSessionDataOp, freshData)
    {
      log := log + [CreateSessionDataCall];
      if CreateSessionDataOp in failing {
        return Err(BackendError(CreateSessionDataOp));
      }
      r := Ok(freshData);
    }

    /** An upsert of the session's fields. */
    method UpdateSessionData(id: SessionId, userId: Option<UserId>, data: SessionData) returns (r: Result<(), BackendError>)
      modifies this`log, this`sessions
      ensures log == old(log) + [UpdateSessionDataCall(id, userId, data)]
      ensures r == Answer(UpdateSessionDataOp, ())
      ensures sessions == if r.Ok? then old(sessions)[id := SessionFields(userId, data)] else old(sessions)
    {
      log := log + [UpdateSessionDataCall(id, userId, data)];
      if UpdateSessionDataOp in failing {
        return Err(BackendError(UpdateSessionDataOp));
      }
      sessions := sessions[id := SessionFields(userId, data)];
      r := Ok(());
    }

    method LoadUser(uid: UserId) returns (r: Result<Option<User>, BackendError>)
      requires Valid()
      modifies this`log
      ensures log == old(log) + [LoadUserCall(uid)]
      ensures r == LoadUserAnswer(uid)
      ensures r.Ok? && r.value.Some? ==> r.value.value.id == uid
    {
      log := log + [LoadUserCall(uid)];
      if LoadUserOp in failing {
        return Err(BackendError(LoadUserOp));
      }
      r := Ok(UserById(uid));
    }

    method LoadUserByEmail(email: string) returns (r: Result<Option<User>, BackendError>)
      modifies this`log
      ensures log == old(log) + [LoadUserByEmailCall(email)]
      ensures r == Answer(LoadUserByEmailOp, UserByEmail(email))
    {
      log := log + [LoadUserByEmailCall(email)];
      if LoadUserByEmailOp in failing {
        return Err(BackendError(LoadUserByEmailOp));
      }
      r := Ok(UserByEmail(email));
    }

    /** Store a new hash for a user; an unknown id changes nothing. */
    method UpdateUserPassword(uid: UserId, hashed: HashedPassword) returns (r: Result<(), BackendError>)
      requires Valid()
      modifies this`log, this`users
      ensures Valid()
      ensures log == old(log) + [UpdateUserPasswordCall(uid, hashed)]
      ensures r == Answer(UpdateUserPasswordOp, ())
      ensures users == if r.Ok? then WithStoredHash(old(users), uid, hashed) else old(users)
    {
      log := log + [UpdateUserPasswordCall(uid, hashed)];
      if UpdateUserPasswordOp in failing {
        return Err(BackendError(UpdateUserPasswordOp));
      }
      if uid in users {
        users := users[uid := users[uid].(hashedPassword := Some(hashed))];
      }
      r := Ok(());
    }
  }
}
