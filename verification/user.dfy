/** The user record as the core sees it (the `User` interface). */
module Users {
  import opened Wrappers
  import opened Password

  type UserId = int

  /**
   * A user: its id, email and optional stored hash. `mirrorsPassword` says
   * whether the user type overrides `set_hashed_password`; the default
   * implementation discards the new hash.
   */
  datatype User = User(id: UserId, email: string, hashedPassword: Option<HashedPassword>, mirrorsPassword: bool)

  /** `User::set_hashed_password`. */
  function SetHashedPassword(u: User, h: Option<HashedPassword>): (r: User)
  {
    if u.mirrorsPassword then u.(hashedPassword := h) else u
  }

  /** Setting a hash never changes who the user is; it is stored exactly when the setter is overridden. */
  lemma SetHashedPasswordKeepsIdentity(u: User, h: Option<HashedPassword>)
    ensures SetHashedPassword(u, h).id == u.id && SetHashedPassword(u, h).email == u.email
    ensures SetHashedPassword(u, h).hashedPassword == (if u.mirrorsPassword then h else u.hashedPassword)
  {
  }

  function IdOf(u: Option<User>): Option<UserId>
  {
    if u.Some? then Some(u.value.id) else None
  }
}

/**
 * The lazy user cache of a session: an optional user id and a memo holding
 * the record once it has been fetched.
 */
module SessionUsers {
  import opened Wrappers
  import opened Password
  import opened Users
  import opened Backends

  /** The cache's abstract value. */
  datatype Cache = Cache(id: Option<UserId>, memo: Option<User>)

  /** A memoized record is the record of the cached id. */
  predicate Coherent(c: Cache)
  {
    c.memo.Some? ==> c.id == Some(c.memo.value.id)
  }

  /** `set_id`: only a different id replaces the id and empties the memo. */
  function CacheSetId(c: Cache, id: Option<UserId>): Cache
  {
    if id != c.id then Cache(id, None) else c
  }

  /** `set_user`: the memo becomes the given record and the id follows it. */
  function CacheSetUser(c: Cache, u: Option<User>): Cache
  {
    Cache(IdOf(u), u)
  }

  /** Writing through `get_mut`: a memoized record gets the new hash. */
  function CachePatchPassword(c: Cache, h: HashedPassword): Cache
  {
    if c.memo.Some? then Cache(c.id, Some(SetHashedPassword(c.memo.value, Some(h)))) else c
  }

  /** Every setter keeps a coherent cache coherent, whatever the backend answered before. */
  lemma CacheSettersKeepCoherence(c: Cache, id: Option<UserId>, u: Option<User>, h: HashedPassword)
    requires Coherent(c)
    ensures Coherent(CacheSetId(c, id)) && Coherent(CacheSetUser(c, u)) && Coherent(CachePatchPassword(c, h))
    ensures CachePatchPassword(c, h).id == c.id
  {
  }

  /** Setting the same id twice is setting it once. */
  lemma CacheSetIdIdempotent(c: Cache, id: Option<UserId>)
    ensures CacheSetId(CacheSetId(c, id), id) == CacheSetId(c, id)
  {
  }

  class SessionUser {
    var id: Option<UserId>
    var memo: Option<User>

    function State(): Cache
      reads this
    {
      Cache(id, memo)
    }

    ghost predicate Valid()
      reads this
    {
      Coherent(State())
    }

    /** `SessionUser::new`: the given id, nothing memoized. */
    constructor (id: Option<UserId>)
      ensures Valid()
      ensures State() == Cache(id, None)
    {
      this.id := id;
      this.memo := None;
    }

    function IsAuthenticated(): (b: bool)
      reads this
      ensures b <==> State().id.Some?
    {
      id.Some?
    }

    method SetId(newId: Option<UserId>)
      requires Valid()
      modifies this
      ensures Valid()
      ensures State() == CacheSetId(old(State()), newId)
    {
      if newId != id {
        id := newId;
        memo := None;
      }
    }

    method SetUser(u: Option<User>)
      modifies this
      ensures Valid()
      ensures State() == CacheSetUser(old(State()), u)
    {
      id := IdOf(u);
      memo := u;
    }

    /**
     * `user`: answer from the memo when it is filled; otherwise fetch through
     * `load_user` and memoize a found record. "Not found" answers None and
     * leaves the memo empty; a backend error leaves everything as it was.
     */
    method Resolve(backend: MemoryBackend) returns (r: Result<Option<User>, BackendError>)
      requires Valid() && backend.Valid()
      modifies this, backend`log
      ensures Valid() && id == old(id)
      ensures old(id).None? ==> r == Ok(None) && memo == old(memo) && backend.log == old(backend.log)
      ensures old(id).Some? && old(memo).Some? ==>
        r == Ok(old(memo)) && memo == old(memo) && backend.log == old(backend.log)
      ensures old(id).Some? && old(memo).None? ==>
        && backend.log == old(backend.log) + [LoadUserCall(old(id).value)]
        && r == backend.LoadUserAnswer(old(id).value)
        && memo == (if r.Ok? then r.value else None)
    {
      if id.None? {
        return Ok(None);
      }
      if memo.Some? {
        return Ok(memo);
      }
      var loaded := backend.LoadUser(id.value);
      if loaded.Err? {
        return Err(loaded.error);
      }
      memo := loaded.value;
      return Ok(memo);
    }

    /** `user_mut`: resolve, then hand out whatever the memo holds. */
    method ResolveMut(backend: MemoryBackend) returns (r: Result<Option<User>, BackendError>)
      requires Valid() && backend.Valid()
      modifies this, backend`log
      ensures Valid() && id == old(id)
      ensures r.Ok? ==> r.value == memo
      ensures old(id).None? ==> r == Ok(None) && memo == old(memo) && backend.log == old(backend.log)
      ensures old(id).Some? && old(memo).Some? ==>
        r == Ok(old(memo)) && memo == old(memo) && backend.log == old(backend.log)
      ensures old(id).Some? && old(memo).None? ==>
        && backend.log == old(backend.log) + [LoadUserCall(old(id).value)]
        && r == backend.LoadUserAnswer(old(id).value)
        && memo == (if r.Ok? then r.value else None)
    {
      var resolved := Resolve(backend);
      if resolved.Err? {
        return Err(resolved.error);
      }
      return Ok(memo);
    }

    /** `get_mut(...).set_hashed_password(Some(h))`: patch a memoized record in place. */
    method PatchPassword(h: HashedPassword)
      requires Valid()
      modifies this
      ensures Valid()
      ensures State() == CachePatchPassword(old(State()), h)
    {
      if memo.Some? {
        memo := Some(SetHashedPassword(memo.value, Some(h)));
      }
    }
  }

  /**
   * At most one fetch per id: resolving twice with a fixed id issues a single
   * `load_user` when the first resolve found the user, and two when it did not.
   */
  method ResolveTwice(cache: SessionUser, backend: MemoryBackend) returns (first: Result<Option<User>, BackendError>, second: Result<Option<User>, BackendError>)
    requires cache.Valid() && backend.Valid()
    modifies cache, backend`log
    ensures first.Ok? && first.value.Some? ==> second == first
    ensures first.Ok? && first.value.Some? ==> old(cache.id).Some?
    ensures first.Ok? && first.value.Some? && old(cache.id).Some? && old(cache.memo).None? ==>
      backend.log == old(backend.log) + [LoadUserCall(old(cache.id).value)]
    ensures first.Ok? && first.value.Some? && old(cache.memo).Some? ==> backend.log == old(backend.log)
    ensures old(cache.id).Some? && first == Ok(None) ==>
      backend.log == old(backend.log) + [LoadUserCall(old(cache.id).value), LoadUserCall(old(cache.id).value)]
  {
    first := cache.Resolve(backend);
    second := cache.Resolve(backend);
  }

  /** Invalidation: after `set_id` with a new id, the next resolve fetches again. */
  method ResolveAfterNewId(cache: SessionUser, backend: MemoryBackend, newId: UserId) returns (r: Result<Option<User>, BackendError>)
    requires cache.Valid() && backend.Valid()
    requires cache.id != Some(newId)
    modifies cache, backend`log
    ensures backend.log == old(backend.log) + [LoadUserCall(newId)]
    ensures r == backend.LoadUserAnswer(newId)
  {
    cache.SetId(Some(newId));
    r := cache.Resolve(backend);
  }
}
