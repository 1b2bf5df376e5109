# epwd password hashing, modelled in Dafny

epwd derives a salted key from a password with PBKDF2 and later checks a candidate
password against the stored key. This project models its non-I/O surface:

- **Configuration** (`Config`, `Pbkdf2.PwdConfig`, `Epwd.PwdConfig`): each of the two Go
  packages, `pbkdf2` and the root `epwd`, has its own package-level `pwdConfig` variable.
  Each is modelled as an object of its own class. `SetPwdConfig` overwrites the whole record.
  It stores the iteration count, key length and salt length unchecked. It picks the hash by
  name: "SHA256" gives SHA-256, "SHA512" gives SHA-512, and any other name gives SHA-256.
- **Salt generator** (`Salt`): `GenerateSalt(sl)` maps a length of 0 to 15 and rejects a
  negative length with `ErrSaltLength`. It then takes one random draw per character and
  appends `SALTALLOWEDCHARS[draw]`. The random source is a sequence of draws, each an index
  in [0, 62) or a failure. A source that runs dry counts as a failure. A failed draw stops
  the loop and returns no salt and no error, as the code does. Go's `string(b)` UTF-8
  encodes the byte. Every alphabet byte is ASCII, so each draw adds exactly one byte.
- **Key derivation** (`Pbkdf2.DeriveWithSalt`, `Pbkdf2.DeriveWithAutoSalt` and the class
  methods `GeneratePasswordWithSalt`, `GeneratePasswordWithAutoSalt`): a count of 0 is
  written back as 600000 and a negative count gives `ErrPwdIter`. The auto-salt path then
  generates its salt. An unset hash is written back as SHA-256. Last comes the call to
  `crypto/pbkdf2.Key`. That call is an abstract function value `kdf` fixed when the
  configuration object is made. Being a function, it is deterministic. Two assumptions
  about it are stated as predicates and required only by the lemmas that need them:
  `KeyLengthHonoured` (a successful result has `keyLen` bytes) and `PasswordSensitive`
  (different passwords give different keys). The second is an idealised collision-freeness
  assumption, not a fact about PBKDF2: with keys of fixed length, some passwords must share
  a key. No lemma requires both assumptions.
- **Verifier** (`Pbkdf2.Verify`, `Pbkdf2.PwdConfig.ComparePassword`): it re-derives the key
  and passes a derivation error on unchanged. It then compares the two keys with
  `subtle.ConstantTimeCompare`, modelled in `Subtle` as Go computes it: it ORs the XOR of
  every byte pair, then applies `ConstantTimeByteEq`. A mismatch gives `ErrComparePwd`.

Each stateful method is proved against a function of the old configuration value
(`Current()`): `SaltOutcome`, `DeriveWithSalt`, `DeriveWithAutoSalt` or `Verify`. The properties are lemmas about those functions.

The code swallows a failed random draw and returns `(nil, nil)` from `GenerateSalt`, and the
two derivation entry points write their defaults back into the package configuration at
derivation time. The model does the same. `Pbkdf2.AutoSaltDrawFailure` shows what follows
from the swallowed draw: the auto-salt path then returns a nil salt and no error, with a key
derived from the empty salt.

## Model

| member | source | states |
|---|---|---|
| Config.HashByName | pbkdf2/config.go:50-57 | the hash is never unset; it is SHA-512 exactly for "SHA512", and SHA-256 for "SHA256" and for any other name, the empty one included |
| Pbkdf2.PwdConfig.constructor | pbkdf2/config.go:28-29 | the package configuration starts as the zero record: counts 0, hash unset |
| Pbkdf2.PwdConfig.SetPwdConfig | pbkdf2/config.go:43-58 | the whole configuration is replaced: Iter, KeyLen and SaltLen are exactly the arguments (negative or zero accepted), and the hash is the one chosen by name, never unset |
| Epwd.PwdConfig.constructor | config.go:16 | the root package's separate configuration starts as the zero record |
| Epwd.PwdConfig.SetPwdConfig | config.go:18-33 | the same replacement and name-to-hash choice on the root package's own configuration; only that object changes |
| Salt.AllowedByte | salt/generate.go:9 | every alphabet character is an ASCII letter or digit, below 0x80, so `string(b)` adds one byte |
| Salt.AllowedByteIsAlphabetChar | salt/generate.go:9 | the alphabet has 62 characters and the i-th alphabet byte is `SALTALLOWEDCHARS[i]` |
| Salt.AlphabetCoversAlnum | salt/generate.go:9 | every ASCII letter and digit is some character of `SALTALLOWEDCHARS`, so the alphabet is exactly `[a-zA-Z0-9]` |
| Salt.DrawLoop | salt/generate.go:28-34 | the draw loop never takes more draws than rounds, and takes all of them when it yields a salt |
| Salt.SaltOutcome | salt/generate.go:17-37 | a salt never comes back with an error; the only error is `ErrSaltLength`, exactly for a negative length, and then no draw is taken |
| Salt.FailureIsFinal | salt/generate.go:30-31 | after a failed draw the loop has returned: further rounds change neither the result nor the draws taken |
| Salt.GenerateSalt | salt/generate.go:17-37 | the length rule and draw loop return exactly the salt, error and number of draws `SaltOutcome` gives |
| Salt.DrawLoopSucceeds | salt/generate.go:28-34 | the loop yields a salt exactly when all its draws succeed; the salt has one byte per draw, the k-th being `SALTALLOWEDCHARS[draw_k]` |
| Salt.DrawLoopStopsAtFailure | salt/generate.go:28-32 | with no salt, the loop took exactly the draws up to and including the first failed one |
| Salt.SaltFromDraws | salt/generate.go:20-36 | for a length of at least 0 and successful draws: a salt of length 15 for 0 and otherwise of exactly the requested length, made of the selected alphabet characters in draw order |
| Salt.SaltShape | salt/generate.go:17-37 | any salt returned has the effective length and only characters from `[a-zA-Z0-9]` |
| Salt.FailedDrawSwallowed | salt/generate.go:28-32 | when a draw fails, the result is a nil salt and a nil error, with no partial salt and no draw taken after the failure |
| Subtle.ConstantTimeByteEq | pbkdf2/compare_pwd.go:28 | the branch-free byte test gives 1 exactly for equal bytes and 0 otherwise |
| Subtle.ConstantTimeCompare | pbkdf2/compare_pwd.go:28 | the result is 1 exactly when the two keys have the same length and the same bytes, and 0 otherwise |
| Pbkdf2.Normalized | pbkdf2/generate_pwd.go:64-74 | after the defaults the count is positive and the hash set; key and salt lengths are untouched |
| Pbkdf2.DeriveWithSalt | pbkdf2/generate_pwd.go:60-87 | a key comes back exactly when no error does |
| Pbkdf2.DeriveWithAutoSalt | pbkdf2/generate_pwd.go:18-48 | a key comes back exactly when no error does, and a salt only together with a key |
| Pbkdf2.Verify | pbkdf2/compare_pwd.go:17-33 | the verifier leaves the configuration exactly as the re-derivation does |
| Pbkdf2.PwdConfig.GeneratePasswordWithAutoSalt | pbkdf2/generate_pwd.go:18-48 | the new configuration and the returned key, salt and error are those `DeriveWithAutoSalt` gives for the old configuration |
| Pbkdf2.PwdConfig.GeneratePasswordWithSalt | pbkdf2/generate_pwd.go:60-87 | the new configuration and the returned key and error are those `DeriveWithSalt` gives for the old configuration |
| Pbkdf2.PwdConfig.ComparePassword | pbkdf2/compare_pwd.go:17-33 | the new configuration and the returned error are those `Verify` gives for the old configuration |
| Pbkdf2.HashThenCompare | pbkdf2/compare_pwd_test.go:23-32 | hashing a password and then comparing it with the result on the same configuration object succeeds whenever hashing did; afterwards the object holds the configuration the hashing left |
| Pbkdf2.AutoKdfErrorPropagates | pbkdf2/generate_pwd.go:42-45 | when PBKDF2 fails on a generated salt, the auto-salt path returns its error as is, with no key and no salt, after both defaults were stored |
| Pbkdf2.NegativeIterRejected | pbkdf2/generate_pwd.go:21-25 | a negative count makes both entry points return only `ErrPwdIter`, with the configuration unchanged and no draw used |
| Pbkdf2.ZeroIterPersists | pbkdf2/generate_pwd.go:64-65 | a zero count is stored back as 600000 by both entry points, whatever the outcome |
| Pbkdf2.ConfigNormalisation | pbkdf2/generate_pwd.go:18-87 | an unset hash becomes SHA-256 and a set one stays; in the auto-salt path this happens only after a salt without error; KeyLen and SaltLen never change |
| Pbkdf2.DerivedKey | pbkdf2/generate_pwd.go:81-86 | the key is PBKDF2 on the normalised configuration, and its length is KeyLen |
| Pbkdf2.KdfErrorPropagates | pbkdf2/generate_pwd.go:81-84 | a PBKDF2 error is returned as is, with no key, after the defaults were stored |
| Pbkdf2.DeriveIdempotent | pbkdf2/generate_pwd.go:64-86 | deriving again from the configuration left behind gives the same configuration, key and error |
| Pbkdf2.AutoSaltErrorPropagates | pbkdf2/generate_pwd.go:21-31 | a salt error comes back alone, after a zero count was stored and before the hash default |
| Pbkdf2.AutoSaltSucceeds | pbkdf2/generate_pwd.go:28-47 | on success the salt is exactly what `GenerateSalt(SaltLen)` made, its length is SaltLen (15 for 0), and the key is the supplied-salt key for it, of length KeyLen |
| Pbkdf2.AutoSaltDrawFailure | pbkdf2/generate_pwd.go:28-47 | after a failed draw the auto-salt path returns no salt, and the key and error of deriving from the empty salt |
| Pbkdf2.VerifyOutcome | pbkdf2/compare_pwd.go:21-32 | success exactly when re-derivation succeeds with a key equal to the stored one; a derivation error comes back unchanged; any other mismatch, in bytes or length, gives `ErrComparePwd` |
| Pbkdf2.RoundTrip | pbkdf2/compare_pwd.go:17-33 | checking a password against the key just derived for it, on the configuration left behind, succeeds and changes nothing more |
| Pbkdf2.WrongPasswordRejected | pbkdf2/compare_pwd_test.go:50-59 | if PBKDF2 separates passwords, a different password is rejected with `ErrComparePwd`, or with PBKDF2's own error when deriving from it fails |

## Left out

- PBKDF2, HMAC and SHA-2 internals (section 5.2 of RFC 8018, RFC 2104, FIPS 180-4): foreign library code, modelled as the abstract function `kdf`. Only two facts about it are used, and only as lemma requirements: the key-length one and the password-separation one.
- The hash is an enumeration `Unset | SHA256 | SHA512` in place of a constructor function value.
- `crypto/rand` and `math/big`: one call of `rand.Int(rand.Reader, 62)` is one draw, an index or a failure. The bytes it reads and its rejection sampling are not modelled. Randomness, uniformity and uniqueness of salts are out of reach of a proof.
- The timing of `subtle.ConstantTimeCompare`: only its result is modelled (its loop still visits every byte pair).
- Concurrent callers of the package-level configuration: the model runs calls one at a time on one object.
- The width of Go's `int`: the counts and lengths are unbounded integers. No arithmetic is done on them, so no wrap-around can arise.
- The reason text of PBKDF2's errors is an abstract string, passed through unchanged.
- The demo program pbkdf2/example/main.go: its work is printing and `log.Fatal`.
- The test files are not modelled as code; `HashThenCompare`, `WrongPasswordRejected` and `SaltFromDraws` state the checks they make.
