/** Logging in by password and changing the logged-in user's password. */
module Func {
  import opened Wrappers
  import opened Password
  import opened Users
  import opened Backends
  import opened SessionUsers
  import opened Sessions

  /** Whether `u` exists, has a stored hash, and that hash verifies `password`. */
  predicate CredentialsMatch(u: Option<User>, password: string, algorithms: Algorithms)
  {
    u.Some? && u.value.hashedPassword.Some? && Verifies(algorithms.verify, password, u.value.hashedPassword.value)
  }

  /**
   * `login_by_password`: one lookup by email; every failure (no such user, no
   * stored hash, wrong password, backend error) leaves the session as it was,
   * so a logged-in user stays logged in. On success the found user replaces
   * the session's user.
   */
  method LoginByPassword(session: Session, email: string, password: string, algorithms: Algorithms)
    returns (r: Result<Option<Authenticated>, BackendError>)
    requires session.Valid()
    modifies session, session.user, session.backend`log
    ensures session.Valid()
    ensures session.backend.log == old(session.backend.log) + [LoadUserByEmailCall(email)]
    ensures r.Err? <==> LoadUserByEmailOp in session.backend.failing
    ensures r == Ok(Some(Authenticated)) <==>
      LoadUserByEmailOp !in session.backend.failing && CredentialsMatch(session.backend.UserByEmail(email), password, algorithms)
    ensures r == Ok(Some(Authenticated)) ==>
      session.State() == AfterSetUser(old(session.State()), session.backend.UserByEmail(email))
      && session.data == old(session.data)
    ensures r != Ok(Some(Authenticated)) ==> unchanged(session, session.user)
  {
    var found := session.backend.LoadUserByEmail(email);
    if found.Err? {
      return Err(found.error);
    }
    if found.value.None? {
      return Ok(None);
    }
    var u := found.value.value;
    if u.hashedPassword.None? {
      return Ok(None);
    }
    var auth, _ := Verify(u.hashedPassword.value, password, algorithms);
    if auth.None? {
      return Ok(None);
    }
    session.SetUser(Some(u));
    return Ok(Some(Authenticated));
  }

  /**
   * `update_user_password`: nothing at all on an anonymous session; otherwise
   * one `update_user_password` call with the current id and a hash of the new
   * password, after which the session is dirty and a memoized record carries
   * the new hash. A backend error leaves the session as it was.
   */
  method UpdateUserPassword(session: Session, password: ValidPassword, salt: Salt, algorithms: Algorithms)
    returns (r: Result<(), BackendError>)
    requires session.Valid()
    modifies session, session.user, session.backend`log, session.backend`users
    ensures session.Valid()
    ensures old(session.user.id).None? ==>
      r == Ok(()) && unchanged(session, session.user, session.backend)
    ensures old(session.user.id).Some? ==>
      var uid, h := old(session.user.id).value, HashPassword(password, salt, algorithms);
      && session.backend.log == old(session.backend.log) + [UpdateUserPasswordCall(uid, h)]
      && r == session.backend.Answer(UpdateUserPasswordOp, ())
      && (r.Err? ==> unchanged(session, session.user) && session.backend.users == old(session.backend.users))
      && (r.Ok? ==> session.State() == AfterPasswordUpdate(old(session.State()), h) && session.data == old(session.data))
      && (r.Ok? ==> session.backend.users == WithStoredHash(old(session.backend.users), uid, h))
    ensures r.Ok? && old(session.user.id).Some? && old(session.user.id).value in old(session.backend.users) && WellFormed(algorithms) ==>
      forall email :: email in session.backend.emails && session.backend.emails[email] == old(session.user.id).value ==>
        CredentialsMatch(session.backend.UserByEmail(email), password.secret, algorithms)
  {
    if session.user.id.None? {
      return Ok(());
    }
    var uid := session.user.id.value;
    var h := HashPassword(password, salt, algorithms);
    var stored := session.backend.UpdateUserPassword(uid, h);
    if stored.Err? {
      return Err(stored.error);
    }
    session.MarkNeedsSave();
    session.user.PatchPassword(h);
    if uid in old(session.backend.users) && WellFormed(algorithms) {
      forall email | email in session.backend.emails && session.backend.emails[email] == uid
        ensures CredentialsMatch(session.backend.UserByEmail(email), password.secret, algorithms)
      {
        NewPasswordLogsIn(old(session.backend.users), session.backend.emails, email, password, salt, algorithms);
      }
    }
    return Ok(());
  }

  /** After a password change the user id stays, the session is dirty, and a cached record holds the new hash if it mirrors it. */
  lemma PasswordUpdateEffect(s: SessionState, h: HashedPassword)
    requires Coherent(s.cache)
    ensures AfterPasswordUpdate(s, h).cache.id == s.cache.id
    ensures AfterPasswordUpdate(s, h).needsSave
    ensures Coherent(AfterPasswordUpdate(s, h).cache)
    ensures s.cache.memo.Some? && s.cache.memo.value.mirrorsPassword ==>
      AfterPasswordUpdate(s, h).cache.memo.value.hashedPassword == Some(h)
    ensures s.cache.memo.None? ==> AfterPasswordUpdate(s, h).cache.memo.None?
  {
  }

  /**
   * A new password logs in straight after it was set: once the backend stored
   * its hash for the user, a lookup by any of that user's email addresses
   * finds a record whose hash verifies the same password.
   */
  lemma NewPasswordLogsIn(users: map<UserId, User>, emails: map<string, UserId>, email: string,
                          password: ValidPassword, salt: Salt, algorithms: Algorithms)
    requires WellFormed(algorithms)
    requires email in emails && emails[email] in users
    ensures CredentialsMatch(LookupByEmail(WithStoredHash(users, emails[email], HashPassword(password, salt, algorithms)), emails, email),
                             password.secret, algorithms)
  {
    HashThenVerify(password, salt, algorithms);
  }

  /**
   * A fresh anonymous session logs in with matching credentials and saves:
   * it becomes authenticated as the found user, and the save is the one
   * `update_session_data` call, carrying that user's id.
   */
  method LoginThenSave(session: Session, email: string, password: string, algorithms: Algorithms)
    returns (login: Result<Option<Authenticated>, BackendError>, saved: Result<(), BackendError>)
    requires session.Valid()
    requires !session.needsSave && session.user.id.None?
    requires session.backend.failing == {}
    requires CredentialsMatch(session.backend.UserByEmail(email), password, algorithms)
    modifies session, session.user, session.backend`log, session.backend`sessions
    ensures login == Ok(Some(Authenticated)) && saved == Ok(())
    ensures session.IsAuthenticated() && session.user.id == Some(session.backend.UserByEmail(email).value.id)
    ensures !session.needsSave
    ensures session.backend.log == old(session.backend.log) +
      [LoadUserByEmailCall(email), UpdateSessionDataCall(session.id, session.user.id, session.data)]
  {
    login := LoginByPassword(session, email, password, algorithms);
    saved := session.Save();
  }
}
