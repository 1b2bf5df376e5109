/** The root epwd package: its own `pwdConfig` variable and `SetPwdConfig`, separate from
    the pbkdf2 package's. */
module Epwd {
  import opened Config

  /** The package-level `config` of the epwd package. */
  class PwdConfig {
    var Iter: int
    var KeyLen: int
    var Hash: HashKind
    var SaltLen: int

    /** The configuration as a value. */
    function Current(): Settings
      reads this
    {
      Settings(Iter, KeyLen, Hash, SaltLen)
    }

    /** The zero value the package variable starts with. */
    constructor ()
      ensures Current() == ZeroSettings
    {
      Iter, KeyLen, Hash, SaltLen := 0, 0, Unset, 0;
    }

    /** `SetPwdConfig`: replaces the whole configuration, storing the numbers unchecked
        and the hash chosen by name; nothing but this object changes. */
    method SetPwdConfig(h: string, itr: int, keyLen: int, sLen: int)
      modifies this
      ensures Current() == Settings(itr, keyLen, HashByName(h), sLen)
    {
      Iter, KeyLen, Hash, SaltLen := itr, keyLen, Unset, sLen;
      if h == "SHA256" {
        Hash := SHA256;
      } else if h == "SHA512" {
        Hash := SHA512;
      } else {
        Hash := SHA256;
      }
    }
  }
}
