/** The pbkdf2 package: a package-level configuration, the two key-derivation entry
    points that normalise it in place, and the password verifier. */
module Pbkdf2 {
  import opened Base
  import opened Config
  import Salt
  import Subtle

  /** The iteration count substituted for a configured count of 0. */
  const DefaultIter: int := 600000

  /** What `crypto/pbkdf2.Key` returns: a derived key or an error. */
  datatype KdfResult = Derived(key: seq<byte>) | KdfFailed(reason: string)

  /** `crypto/pbkdf2.Key(hash, password, salt, iter, keyLen)`: PBKDF2 of section 5.2 of
      RFC 8018, kept abstract. Being a function, it is deterministic. */
  type Kdf = (HashKind, seq<byte>, seq<byte>, int, int) -> KdfResult

  /** A successful derivation returns exactly keyLen bytes. */
  ghost predicate KeyLengthHonoured(kdf: Kdf) {
    forall h, p, s, i, l :: kdf(h, p, s, i, l).Derived? ==> |kdf(h, p, s, i, l).key| == l
  }

  /** Different passwords never derive the same key (an assumption about PBKDF2). */
  ghost predicate PasswordSensitive(kdf: Kdf) {
    forall h, p, q, s, i, l ::
      p != q && kdf(h, p, s, i, l).Derived? && kdf(h, q, s, i, l).Derived? ==>
        kdf(h, p, s, i, l).key != kdf(h, q, s, i, l).key
  }

  /** The configuration after both defaults: 0 iterations become 600000 and an unset
      hash becomes SHA-256. */
  function Normalized(c: Settings): (n: Settings)
    requires c.Iter >= 0
    ensures n.Iter > 0 && n.Hash != Unset
    ensures n.KeyLen == c.KeyLen && n.SaltLen == c.SaltLen
  {
    c.(Iter := if c.Iter == 0 then DefaultIter else c.Iter,
       Hash := if c.Hash == Unset then SHA256 else c.Hash)
  }

  /** The configuration afterwards and the key or error of `GeneratePasswordWithSalt`. */
  datatype Derivation = Derivation(config: Settings, key: Option<seq<byte>>, err: Option<Error>)

  /** `GeneratePasswordWithSalt(password, salt)` on configuration c. A key comes back
      exactly when no error does. */
  function DeriveWithSalt(kdf: Kdf, c: Settings, password: seq<byte>, salt: seq<byte>): (r: Derivation)
    ensures r.key.Some? <==> r.err.None?
  {
    if c.Iter < 0 then Derivation(c, None, Some(ErrPwdIter))
    else
      var n := Normalized(c);
      match kdf(n.Hash, password, salt, n.Iter, n.KeyLen)
      case Derived(k) => Derivation(n, Some(k), None)
      case KdfFailed(e) => Derivation(n, None, Some(KdfError(e)))
  }

  /** The configuration afterwards and the key, salt and error of `GeneratePasswordWithAutoSalt`. */
  datatype AutoDerivation = AutoDerivation(config: Settings, key: Option<seq<byte>>, salt: Option<seq<byte>>, err: Option<Error>)

  /** `GeneratePasswordWithAutoSalt(password)` on configuration c and random source draws:
      the iteration default, then the salt, then the hash default, then the derivation. */
  function DeriveWithAutoSalt(kdf: Kdf, c: Settings, password: seq<byte>, draws: seq<Salt.Draw>): (r: AutoDerivation)
    ensures r.key.Some? <==> r.err.None?
    ensures r.salt.Some? ==> r.key.Some?
  {
    if c.Iter < 0 then AutoDerivation(c, None, None, Some(ErrPwdIter))
    else
      var c1 := c.(Iter := if c.Iter == 0 then DefaultIter else c.Iter);
      var g := Salt.SaltOutcome(c1.SaltLen, draws);
      if g.err.Some? then AutoDerivation(c1, None, None, g.err)
      else
        var n := Normalized(c);
        // a nil salt (a swallowed draw failure) reaches PBKDF2 as the empty salt
        var s := if g.salt.Some? then g.salt.value else [];
        match kdf(n.Hash, password, s, n.Iter, n.KeyLen)
        case Derived(k) => AutoDerivation(n, Some(k), g.salt, None)
        case KdfFailed(e) => AutoDerivation(n, None, None, Some(KdfError(e)))
  }

  /** The configuration afterwards and the error of `ComparePassword`. */
  datatype Verification = Verification(config: Settings, err: Option<Error>)

  /** `ComparePassword(current, hashed, salt)` on configuration c. */
  function Verify(kdf: Kdf, c: Settings, current: seq<byte>, hashed: seq<byte>, salt: seq<byte>): (r: Verification)
    ensures r.config == DeriveWithSalt(kdf, c, current, salt).config
  {
    var d := DeriveWithSalt(kdf, c, current, salt);
    if d.err.Some? then Verification(d.config, d.err)
    else if d.key.value != hashed then Verification(d.config, Some(ErrComparePwd))
    else Verification(d.config, None)
  }

  /** The package-level `config` of the pbkdf2 package, with the functions that read and
      write it. `kdf` is the PBKDF2 implementation the package calls. */
  class PwdConfig {
    var Iter: int
    var KeyLen: int
    var Hash: HashKind
    var SaltLen: int
    const kdf: Kdf

    /** The configuration as a value. */
    function Current(): Settings
      reads this
    {
      Settings(Iter, KeyLen, Hash, SaltLen)
    }

    /** The zero value the package variable starts with. */
    constructor (kdf: Kdf)
      ensures Current() == ZeroSettings && this.kdf == kdf
    {
      Iter, KeyLen, Hash, SaltLen := 0, 0, Unset, 0;
      this.kdf := kdf;
    }

    /** `SetPwdConfig`: replaces the whole configuration, storing the numbers unchecked
        and the hash chosen by name. */
    method SetPwdConfig(h: string, itr: int, keyLen: int, sLen: int)
      modifies this
      ensures Current() == Settings(itr, keyLen, HashByName(h), sLen)
    {
      Iter, KeyLen, Hash, SaltLen := itr, keyLen, Unset, sLen;
      if h == "SHA256" {
        Hash := SHA256;
      } else if h == "SHA512" {
        Hash := SHA512;
      } else {
        Hash := SHA256;
      }
    }

    /** `GeneratePasswordWithAutoSalt`, drawing its salt from draws. */
    method GeneratePasswordWithAutoSalt(password: seq<byte>, draws: seq<Salt.Draw>)
      returns (dk: Option<seq<byte>>, salt: Option<seq<byte>>, err: Option<Error>)
      modifies this
      ensures AutoDerivation(Current(), dk, salt, err) == DeriveWithAutoSalt(kdf, old(Current()), password, draws)
    {
      if Iter == 0 {
        Iter := DefaultIter;
      } else if Iter < 0 {
        return None, None, Some(ErrPwdIter);
      }
      var s, saltErr, _ := Salt.GenerateSalt(SaltLen, draws);
      if saltErr.Some? {
        return None, None, saltErr;
      }
      if Hash == Unset {
        Hash := SHA256;
      }
      var bytes := if s.Some? then s.value else [];
      match kdf(Hash, password, bytes, Iter, KeyLen)
      case Derived(k) =>
        return Some(k), s, None;
      case KdfFailed(e) =>
        return None, None, Some(KdfError(e));
    }

    /** `GeneratePasswordWithSalt`. */
    method GeneratePasswordWithSalt(password: seq<byte>, salt: seq<byte>) returns (dk: Option<seq<byte>>, err: Option<Error>)
      modifies this
      ensures Derivation(Current(), dk, err) == DeriveWithSalt(kdf, old(Current()), password, salt)
    {
      if Iter == 0 {
        Iter := DefaultIter;
      } else if Iter < 0 {
        return None, Some(ErrPwdIter);
      }
      if Hash == Unset {
        Hash := SHA256;
      }
      match kdf(Hash, password, salt, Iter, KeyLen)
      case Derived(k) =>
        return Some(k), None;
      case KdfFailed(e) =>
        return None, Some(KdfError(e));
    }

    /** `ComparePassword`: re-derive, pass a derivation error on, compare in constant time. */
    method ComparePassword(currentPwd: seq<byte>, hashedPwd: seq<byte>, salt: seq<byte>) returns (err: Option<Error>)
      modifies this
      ensures Verification(Current(), err) == Verify(kdf, old(Current()), currentPwd, hashedPwd, salt)
    {
      var hashCurrentPwd, e := GeneratePasswordWithSalt(currentPwd, salt);
      if e.Some? {
        return e;
      }
      var same := Subtle.ConstantTimeCompare(hashCurrentPwd.value, hashedPwd);
      if same == 0 {
        return Some(ErrComparePwd);
      }
      return None;
    }
  }

  /** Hashing a password and then checking it against the result, with no
      `SetPwdConfig` in between, succeeds whenever the hashing did. */
  method HashThenCompare(cfg: PwdConfig, password: seq<byte>, salt: seq<byte>)
    returns (hashErr: Option<Error>, compareErr: Option<Error>)
    modifies cfg
    ensures hashErr.None? ==> compareErr.None?
    ensures cfg.Current() == DeriveWithSalt(cfg.kdf, old(cfg.Current()), password, salt).config
  {
    var hashed;
    hashed, hashErr := cfg.GeneratePasswordWithSalt(password, salt);
    if hashErr.Some? {
      return hashErr, None;
    }
    RoundTrip(cfg.kdf, old(cfg.Current()), password, salt);
    compareErr := cfg.ComparePassword(password, hashed.value, salt);
  }

  // ---------------------------------------------------------------------------
  // Properties of the entry points

  /** A negative iteration count: both entry points return `ErrPwdIter` and nothing else,
      leave the configuration as it was and take no random draw. */
  lemma NegativeIterRejected(kdf: Kdf, c: Settings, password: seq<byte>, salt: seq<byte>, draws: seq<Salt.Draw>)
    requires c.Iter < 0
    ensures DeriveWithSalt(kdf, c, password, salt) == Derivation(c, None, Some(ErrPwdIter))
    ensures DeriveWithAutoSalt(kdf, c, password, draws) == AutoDerivation(c, None, None, Some(ErrPwdIter))
    ensures DeriveWithAutoSalt(kdf, c, password, draws) == DeriveWithAutoSalt(kdf, c, password, [])
  {
  }

  /** A zero iteration count is stored back as 600000 by both entry points, whatever
      the outcome, a salt error included. */
  lemma ZeroIterPersists(kdf: Kdf, c: Settings, password: seq<byte>, salt: seq<byte>, draws: seq<Salt.Draw>)
    requires c.Iter == 0
    ensures DeriveWithSalt(kdf, c, password, salt).config.Iter == DefaultIter
    ensures DeriveWithAutoSalt(kdf, c, password, draws).config.Iter == DefaultIter
  {
  }

  /** With a non-negative count, both entry points leave an unset hash as SHA-256 and a set
      hash as it was (the auto-salt path only once its salt is made); a positive count,
      the key length and the salt length are never changed. */
  lemma ConfigNormalisation(kdf: Kdf, c: Settings, password: seq<byte>, salt: seq<byte>, draws: seq<Salt.Draw>)
    requires c.Iter >= 0
    ensures var a := DeriveWithSalt(kdf, c, password, salt).config;
      a.Hash == (if c.Hash == Unset then SHA256 else c.Hash) &&
      a.Iter == (if c.Iter == 0 then DefaultIter else c.Iter) &&
      a.KeyLen == c.KeyLen && a.SaltLen == c.SaltLen
    ensures var a := DeriveWithAutoSalt(kdf, c, password, draws);
      a.config.Iter == (if c.Iter == 0 then DefaultIter else c.Iter) &&
      a.config.KeyLen == c.KeyLen && a.config.SaltLen == c.SaltLen &&
      a.config.Hash == (if a.err == Some(ErrSaltLength) || c.Hash != Unset then c.Hash else SHA256)
  {
  }

  /** The key is PBKDF2 on the normalised configuration, of the configured length. */
  lemma DerivedKey(kdf: Kdf, c: Settings, password: seq<byte>, salt: seq<byte>)
    requires KeyLengthHonoured(kdf)
    requires DeriveWithSalt(kdf, c, password, salt).key.Some?
    ensures var d := DeriveWithSalt(kdf, c, password, salt);
      c.Iter >= 0 && d.config == Normalized(c) &&
      kdf(d.config.Hash, password, salt, d.config.Iter, d.config.KeyLen) == Derived(d.key.value) &&
      |d.key.value| == c.KeyLen
  {
  }

  /** A derivation error of PBKDF2 is returned by `GeneratePasswordWithSalt` with no key. */
  lemma KdfErrorPropagates(kdf: Kdf, c: Settings, password: seq<byte>, salt: seq<byte>)
    requires c.Iter >= 0
    requires kdf(Normalized(c).Hash, password, salt, Normalized(c).Iter, c.KeyLen).KdfFailed?
    ensures DeriveWithSalt(kdf, c, password, salt) ==
      Derivation(Normalized(c), None, Some(KdfError(kdf(Normalized(c).Hash, password, salt, Normalized(c).Iter, c.KeyLen).reason)))
  {
  }

  /** A derivation error of PBKDF2 on a generated salt is returned by the auto-salt path
      as is, with no key and no salt. */
  lemma AutoKdfErrorPropagates(kdf: Kdf, c: Settings, password: seq<byte>, draws: seq<Salt.Draw>)
    requires c.Iter >= 0 && c.SaltLen >= 0
    requires Salt.AllDrawn(draws, Salt.EffectiveLength(c.SaltLen))
    requires Salt.SaltOutcome(c.SaltLen, draws).salt.Some?
    requires kdf(Normalized(c).Hash, password, Salt.SaltOutcome(c.SaltLen, draws).salt.value,
                 Normalized(c).Iter, c.KeyLen).KdfFailed?
    ensures DeriveWithAutoSalt(kdf, c, password, draws) ==
      AutoDerivation(Normalized(c), None, None,
        Some(KdfError(kdf(Normalized(c).Hash, password, Salt.SaltOutcome(c.SaltLen, draws).salt.value,
                          Normalized(c).Iter, c.KeyLen).reason)))
  {
    Salt.SaltFromDraws(c.SaltLen, draws);
  }

  /** Normalising is idempotent: deriving again from the configuration a derivation left
      behind gives the same configuration, key and error. */
  lemma DeriveIdempotent(kdf: Kdf, c: Settings, password: seq<byte>, salt: seq<byte>)
    ensures var d := DeriveWithSalt(kdf, c, password, salt);
      DeriveWithSalt(kdf, d.config, password, salt) == d
  {
  }

  /** A salt error in the auto-salt path comes back alone, after the iteration default
      was stored and before the hash default. */
  lemma AutoSaltErrorPropagates(kdf: Kdf, c: Settings, password: seq<byte>, draws: seq<Salt.Draw>)
    requires c.Iter >= 0 && c.SaltLen < 0
    ensures DeriveWithAutoSalt(kdf, c, password, draws) ==
      AutoDerivation(c.(Iter := if c.Iter == 0 then DefaultIter else c.Iter), None, None, Some(ErrSaltLength))
  {
  }

  /** On success with every draw available, the auto-salt path returns the salt
      `GenerateSalt(SaltLen)` made (of length SaltLen, 15 for 0) and the key PBKDF2
      derives from it, of length KeyLen. */
  lemma AutoSaltSucceeds(kdf: Kdf, c: Settings, password: seq<byte>, draws: seq<Salt.Draw>)
    requires KeyLengthHonoured(kdf)
    requires c.SaltLen >= 0 && Salt.AllDrawn(draws, Salt.EffectiveLength(c.SaltLen))
    requires DeriveWithAutoSalt(kdf, c, password, draws).key.Some?
    ensures var a := DeriveWithAutoSalt(kdf, c, password, draws);
      a.salt == Salt.SaltOutcome(c.SaltLen, draws).salt && a.salt.Some? &&
      |a.salt.value| == Salt.EffectiveLength(c.SaltLen) &&
      a.key == DeriveWithSalt(kdf, c, password, a.salt.value).key &&
      |a.key.value| == c.KeyLen
  {
    Salt.SaltFromDraws(c.SaltLen, draws);
  }

  /** A failed draw does not stop the auto-salt path: it returns no salt, and (when PBKDF2
      succeeds) no error and a key derived from the empty salt. */
  lemma AutoSaltDrawFailure(kdf: Kdf, c: Settings, password: seq<byte>, draws: seq<Salt.Draw>)
    requires c.Iter >= 0 && c.SaltLen >= 0
    requires !Salt.AllDrawn(draws, Salt.EffectiveLength(c.SaltLen))
    ensures var a := DeriveWithAutoSalt(kdf, c, password, draws);
      a.salt.None? && a.key == DeriveWithSalt(kdf, c, password, []).key &&
      a.err == DeriveWithSalt(kdf, c, password, []).err
  {
    Salt.FailedDrawSwallowed(c.SaltLen, draws);
  }

  // ---------------------------------------------------------------------------
  // Properties of the verifier

  /** `ComparePassword` succeeds exactly when the derivation succeeds and its key equals the
      stored one byte for byte; a derivation error comes back unchanged, and otherwise the
      only error is `ErrComparePwd`. */
  lemma VerifyOutcome(kdf: Kdf, c: Settings, current: seq<byte>, hashed: seq<byte>, salt: seq<byte>)
    ensures var d := DeriveWithSalt(kdf, c, current, salt);
      var v := Verify(kdf, c, current, hashed, salt);
      (v.err.None? <==> d.key == Some(hashed)) &&
      (d.err.Some? ==> v.err == d.err) &&
      (d.key.Some? && d.key.value != hashed ==> v.err == Some(ErrComparePwd))
  {
  }

  /** Round trip: checking a password against the key just derived for it, with the
      configuration that derivation left, succeeds and changes nothing further. */
  lemma RoundTrip(kdf: Kdf, c: Settings, password: seq<byte>, salt: seq<byte>)
    requires DeriveWithSalt(kdf, c, password, salt).key.Some?
    ensures var d := DeriveWithSalt(kdf, c, password, salt);
      Verify(kdf, d.config, password, d.key.value, salt) == Verification(d.config, None)
  {
    DeriveIdempotent(kdf, c, password, salt);
  }

  /** A wrong password is rejected: with `ErrComparePwd`, or with PBKDF2's own error
      when deriving from it fails. */
  lemma WrongPasswordRejected(kdf: Kdf, c: Settings, password: seq<byte>, wrong: seq<byte>, salt: seq<byte>)
    requires PasswordSensitive(kdf)
    requires wrong != password
    requires DeriveWithSalt(kdf, c, password, salt).key.Some?
    ensures var d := DeriveWithSalt(kdf, c, password, salt);
      var w := DeriveWithSalt(kdf, d.config, wrong, salt);
      var v := Verify(kdf, d.config, wrong, d.key.value, salt);
      v.err.Some? && (w.err.None? ==> v.err == Some(ErrComparePwd)) && (w.err.Some? ==> v.err == w.err)
  {
    var d := DeriveWithSalt(kdf, c, password, salt);
    var n := d.config;
    assert n == Normalized(c) && Normalized(n) == n;
    var w := DeriveWithSalt(kdf, n, wrong, salt);
    if w.key.Some? {
      assert kdf(n.Hash, password, salt, n.Iter, n.KeyLen).Derived?;
      assert kdf(n.Hash, wrong, salt, n.Iter, n.KeyLen).Derived?;
      assert w.key.value != d.key.value;
    }
  }
}
