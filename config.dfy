/** The configuration record both packages keep (`pwdConfig`) and its hash-name switch. */
module Config {

  /** The `Hash` field: a nil constructor, `sha256.New` or `sha512.New`. */
  datatype HashKind = Unset | SHA256 | SHA512

  /** The switch of `SetPwdConfig`: "SHA256" and "SHA512" select their hash and any
      other name, the empty one included, silently selects SHA-256. */
  function HashByName(h: string): (k: HashKind)
    ensures k != Unset
    ensures k == SHA512 <==> h == "SHA512"
  {
    if h == "SHA256" then SHA256
    else if h == "SHA512" then SHA512
    else SHA256
  }

  /** The four fields of `pwdConfig`, as a value. */
  datatype Settings = Settings(Iter: int, KeyLen: int, Hash: HashKind, SaltLen: int)

  /** The zero value a package-level `pwdConfig` starts with. */
  const ZeroSettings: Settings := Settings(0, 0, Unset, 0)
}
