/**
 * The credential subsystem: password validation, hashing under the generator
 * algorithm and verification against an ordered list of verifier algorithms.
 *
 * The hashing algorithms themselves (Argon2, the PHC string format) are not
 * modelled: an `Algorithm` carries an arbitrary digest function, and a verifier
 * accepts a hash when the hash names it and recomputing the digest from the
 * stored salt reproduces the stored digest.
 */
module Password {
  import opened Wrappers

  const MinPasswordLength: nat := 8
  const MaxPasswordLength: nat := 1024

  /** The number of bytes `c` takes in UTF-8 (Rust's `String::len` counts bytes). */
  function Utf8Width(c: char): (w: nat)
    ensures 1 <= w <= 4
    ensures w == 1 <==> (c as int) < 0x80
  {
    if (c as int) < 0x80 then 1
    else if (c as int) < 0x800 then 2
    else if (c as int) < 0x1_0000 then 3
    else 4
  }

  /** The UTF-8 byte length of `s`. */
  function Utf8Len(s: string): nat
  {
    if s == [] then 0 else Utf8Width(s[0]) + Utf8Len(s[1..])
  }

  /** A character takes one to four bytes, so the byte length is between |s| and 4|s|. */
  lemma {:induction false} Utf8LenBounds(s: string)
    ensures |s| <= Utf8Len(s) <= 4 * |s|
  {
    if s != [] {
      Utf8LenBounds(s[1..]);
    }
  }

  predicate IsAscii(s: string)
  {
    forall i :: 0 <= i < |s| ==> (s[i] as int) < 0x80
  }

  /** On ASCII text, bytes and characters coincide. */
  lemma {:induction false} AsciiUtf8Len(s: string)
    requires IsAscii(s)
    ensures Utf8Len(s) == |s|
  {
    if s != [] {
      assert IsAscii(s[1..]) by {
        forall i | 0 <= i < |s[1..]| ensures (s[1..][i] as int) < 0x80 {
          assert s[1..][i] == s[i + 1];
        }
      }
      AsciiUtf8Len(s[1..]);
    }
  }

  /** Why a password was refused (the strength-estimator reason is not modelled). */
  datatype BadPassword = TooShort | TooLong

  /** A plaintext candidate; `secret` is the text the user typed. */
  datatype CheckedPassword = ValidPassword(secret: string)

  /**
   * A password that passed validation. The length bound is part of the type,
   * so no value of it can hold a text `ValidPassword::new` would refuse.
   */
  type ValidPassword = p: CheckedPassword | MinPasswordLength <= Utf8Len(p.secret) <= MaxPasswordLength
    witness ValidPassword("aaaaaaaa")

  /**
   * `ValidPassword::new`: the byte length must lie in [8, 1024]; the shorter
   * bound is checked first. `fields` only feeds the strength estimator.
   */
  function NewValidPassword(password: string, fields: seq<string>): (r: Result<ValidPassword, BadPassword>)
    ensures r == Err(TooShort) <==> Utf8Len(password) < MinPasswordLength
    ensures r == Err(TooLong) <==> MaxPasswordLength < Utf8Len(password)
    ensures r.Ok? <==> MinPasswordLength <= Utf8Len(password) <= MaxPasswordLength
    ensures r.Ok? ==> r.value.secret == password
  {
    if Utf8Len(password) < MinPasswordLength then Err(TooShort)
    else if Utf8Len(password) > MaxPasswordLength then Err(TooLong)
    else Ok(ValidPassword(password))
  }

  /** Character counts that decide validation whatever the characters are. */
  lemma CharCountDecides(password: string, fields: seq<string>)
    ensures |password| < 2 ==> NewValidPassword(password, fields) == Err(TooShort)
    ensures |password| > MaxPasswordLength ==> NewValidPassword(password, fields) == Err(TooLong)
    ensures 8 <= |password| <= 256 ==> NewValidPassword(password, fields) == Ok(ValidPassword(password))
  {
    Utf8LenBounds(password);
  }

  /** The boundaries 7, 8, 1024 and 1025 for ASCII passwords. */
  lemma AsciiBoundaries(fields: seq<string>)
    ensures NewValidPassword(seq(7, _ => 'a'), fields) == Err(TooShort)
    ensures NewValidPassword(seq(8, _ => 'a'), fields).Ok?
    ensures NewValidPassword(seq(1024, _ => 'a'), fields).Ok?
    ensures NewValidPassword(seq(1025, _ => 'a'), fields) == Err(TooLong)
  {
    AsciiUtf8Len(seq(7, _ => 'a'));
    AsciiUtf8Len(seq(8, _ => 'a'));
    AsciiUtf8Len(seq(1024, _ => 'a'));
    AsciiUtf8Len(seq(1025, _ => 'a'));
  }

  type Salt = string
  type Digest = seq<bv8>

  /** A hashing algorithm: the tag it writes into its hashes and its digest function. */
  datatype Algorithm = Algorithm(ident: string, compute: (Salt, string) -> Digest)

  /** A self-describing hash: algorithm tag, salt and digest. */
  datatype HashedPassword = HashedPassword(algorithm: string, salt: Salt, digest: Digest)

  /** `verify_password` of one verifier. */
  predicate Accepts(a: Algorithm, password: string, h: HashedPassword)
  {
    h.algorithm == a.ident && a.compute(h.salt, password) == h.digest
  }

  /** `PasswordHash::generate`: a generator always accepts its own hash. */
  function Generate(a: Algorithm, password: string, salt: Salt): (h: HashedPassword)
    ensures Accepts(a, password, h)
    ensures h.algorithm == a.ident && h.salt == salt
  {
    HashedPassword(a.ident, salt, a.compute(salt, password))
  }

  /** The algorithm registry: one generator and the verifiers, in order. */
  datatype Algorithms = Algorithms(generate: Algorithm, verify: seq<Algorithm>)

  /** The registry shape `algorithms_init` builds: the generator is the first verifier. */
  ghost predicate WellFormed(r: Algorithms)
  {
    |r.verify| > 0 && r.verify[0] == r.generate
  }

  /** `algorithms_init`: the first algorithm generates and also verifies first, the rest only verify. */
  function AlgorithmsInit(algorithm0: Algorithm, others: seq<Algorithm>): (r: Algorithms)
    ensures WellFormed(r)
    ensures r.generate == algorithm0
    ensures r.verify == [algorithm0] + others
  {
    Algorithms(algorithm0, [algorithm0] + others)
  }

  const Argon2Ident: string := "argon2id"

  /** The configured registry: Argon2 with its default parameters, and nothing else. */
  function DefaultAlgorithms(argon2: (Salt, string) -> Digest): (r: Algorithms)
    ensures WellFormed(r) && |r.verify| == 1
    ensures r.generate.ident == Argon2Ident
  {
    AlgorithmsInit(Algorithm(Argon2Ident, argon2), [])
  }

  /** `HashedPassword::new`, with the random salt supplied by the caller. */
  function HashPassword(password: ValidPassword, salt: Salt, algorithms: Algorithms): (h: HashedPassword)
    ensures Accepts(algorithms.generate, password.secret, h)
    ensures h.algorithm == algorithms.generate.ident && h.salt == salt
  {
    Generate(algorithms.generate, password.secret, salt)
  }

  /** The index of the first verifier that accepts, if any. */
  function FirstAccepting(verifiers: seq<Algorithm>, password: string, h: HashedPassword): (r: Option<nat>)
    ensures r.Some? ==> r.value < |verifiers| && Accepts(verifiers[r.value], password, h)
    ensures r.Some? ==> forall j :: 0 <= j < r.value ==> !Accepts(verifiers[j], password, h)
    ensures r.None? ==> forall j :: 0 <= j < |verifiers| ==> !Accepts(verifiers[j], password, h)
  {
    if verifiers == [] then None
    else if Accepts(verifiers[0], password, h) then Some(0)
    else match FirstAccepting(verifiers[1..], password, h)
      case None => None
      case Some(i) => Some(i + 1)
  }

  predicate Verifies(verifiers: seq<Algorithm>, password: string, h: HashedPassword)
  {
    FirstAccepting(verifiers, password, h).Some?
  }

  /** The zero-data proof that a credential check succeeded. */
  datatype Authenticated = Authenticated

  /**
   * `HashedPassword::verify`: try the verifiers in order and stop at the first
   * that accepts. `tried` counts the verifiers consulted.
   */
  method Verify(h: HashedPassword, password: string, algorithms: Algorithms)
    returns (r: Option<Authenticated>, ghost tried: nat)
    ensures r.Some? <==> exists i :: 0 <= i < |algorithms.verify| && Accepts(algorithms.verify[i], password, h)
    ensures r.Some? <==> Verifies(algorithms.verify, password, h)
    ensures r.Some? ==> tried == FirstAccepting(algorithms.verify, password, h).value + 1
    ensures r.None? ==> tried == |algorithms.verify|
  {
    var verifiers := algorithms.verify;
    var i := 0;
    while i < |verifiers|
      invariant 0 <= i <= |verifiers|
      invariant forall j :: 0 <= j < i ==> !Accepts(verifiers[j], password, h)
    {
      if Accepts(verifiers[i], password, h) {
        FirstAcceptingIs(verifiers, password, h, i);
        return Some(Authenticated), i + 1;
      }
      i := i + 1;
    }
    return None, i;
  }

  /** An accepting index preceded only by refusals is the first accepting index. */
  lemma FirstAcceptingIs(verifiers: seq<Algorithm>, password: string, h: HashedPassword, i: nat)
    requires i < |verifiers| && Accepts(verifiers[i], password, h)
    requires forall j :: 0 <= j < i ==> !Accepts(verifiers[j], password, h)
    ensures FirstAccepting(verifiers, password, h) == Some(i)
  {
  }

  /** Round trip: a hash made with a well-formed registry verifies, at the first verifier. */
  lemma HashThenVerify(password: ValidPassword, salt: Salt, algorithms: Algorithms)
    requires WellFormed(algorithms)
    ensures FirstAccepting(algorithms.verify, password.secret, HashPassword(password, salt, algorithms)) == Some(0)
    ensures Verifies(algorithms.verify, password.secret, HashPassword(password, salt, algorithms))
  {
  }

  /** Appending verifiers never changes which verifier accepts first, nor turns acceptance into refusal. */
  lemma {:induction false} AppendKeepsFirstAccepting(verifiers: seq<Algorithm>, more: seq<Algorithm>, password: string, h: HashedPassword)
    requires Verifies(verifiers, password, h)
    ensures FirstAccepting(verifiers + more, password, h) == FirstAccepting(verifiers, password, h)
    ensures Verifies(verifiers + more, password, h)
  {
    if !Accepts(verifiers[0], password, h) {
      assert (verifiers + more)[1..] == verifiers[1..] + more;
      AppendKeepsFirstAccepting(verifiers[1..], more, password, h);
    }
  }

  /**
   * Migration: a hash made by an earlier generator still verifies under any
   * registry that keeps that generator among its verifiers.
   */
  lemma OldHashStillVerifies(previous: Algorithm, password: ValidPassword, salt: Salt, current: Algorithms, k: nat)
    requires k < |current.verify| && current.verify[k] == previous
    ensures Verifies(current.verify, password.secret, Generate(previous, password.secret, salt))
  {
    var h := Generate(previous, password.secret, salt);
    assert Accepts(current.verify[k], password.secret, h);
  }

  /** The digest of `a` determines the password for a given salt. */
  ghost predicate CollisionFree(a: Algorithm)
  {
    forall salt, p, q :: a.compute(salt, p) == a.compute(salt, q) ==> p == q
  }

  /** No two verifiers of the registry share a tag. */
  predicate DistinctIdents(verifiers: seq<Algorithm>)
  {
    forall i, j :: 0 <= i < j < |verifiers| ==> verifiers[i].ident != verifiers[j].ident
  }

  /**
   * Negative verification: with distinct tags and a collision-free generator,
   * a hash of one password refuses every other password.
   */
  lemma OtherPasswordRefused(p1: ValidPassword, p2: string, salt: Salt, algorithms: Algorithms)
    requires WellFormed(algorithms) && DistinctIdents(algorithms.verify)
    requires CollisionFree(algorithms.generate)
    requires p1.secret != p2
    ensures !Verifies(algorithms.verify, p2, HashPassword(p1, salt, algorithms))
  {
    var h := HashPassword(p1, salt, algorithms);
    forall i | 0 <= i < |algorithms.verify| ensures !Accepts(algorithms.verify[i], p2, h) {
      if i > 0 {
        assert algorithms.verify[0].ident != algorithms.verify[i].ident;
      }
    }
  }

  /** The `Debug` text of a validated password. */
  function DebugValidPassword(p: ValidPassword): string
  {
    "ValidPassword([...])"
  }

  /** The `Debug` text of a hashed password. */
  function DebugHashedPassword(h: HashedPassword): string
  {
    "HashedPassword([...])"
  }

  /** `Debug` output never depends on the secret it formats. */
  lemma DebugRedacts(p: ValidPassword, q: ValidPassword, g: HashedPassword, h: HashedPassword)
    ensures DebugValidPassword(p) == DebugValidPassword(q)
    ensures DebugHashedPassword(g) == DebugHashedPassword(h)
  {
  }
}
