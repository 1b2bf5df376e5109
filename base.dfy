/** Values shared by every package of the library: bytes, Go's nil-able results and its errors. */
module Base {

  /** A Go `byte`. */
  type byte = x: int | 0 <= x < 256

  /** A Go value that may be nil: a nil slice or a nil error is `None`. */
  datatype Option<+T> = None | Some(value: T)

  /** The error values the library returns. `KdfError` carries whatever error the
      PBKDF2 implementation reports; the library passes it on untouched. */
  datatype Error =
    | ErrSaltLength            // salt package: negative salt length
    | ErrPwdIter               // pbkdf2 package: negative iteration count
    | ErrComparePwd            // pbkdf2 package: incorrect password
    | KdfError(reason: string) // an error of crypto/pbkdf2.Key
}
