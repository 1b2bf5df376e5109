/** The functional behaviour of Go's crypto/subtle comparison, which the verifier calls. */
module Subtle {
  import opened Base

  /** Bitwise exclusive or of two naturals, bit by bit from the lowest. */
  function Xor(a: nat, b: nat): nat
    decreases a + b
  {
    if a == 0 && b == 0 then 0 else 2 * Xor(a / 2, b / 2) + (a + b) % 2
  }

  /** Bitwise or of two naturals, bit by bit from the lowest. */
  function Or(a: nat, b: nat): nat
    decreases a + b
  {
    if a == 0 && b == 0 then 0
    else 2 * Or(a / 2, b / 2) + (if a % 2 == 1 || b % 2 == 1 then 1 else 0)
  }

  /** 2 to the power n; it serves only to state `BitwiseWidth`. */
  function Pow2(n: nat): (p: nat)
    ensures p >= 1
  {
    if n == 0 then 1 else 2 * Pow2(n - 1)
  }

  /** `x ^ y` is zero exactly when x and y are equal. */
  lemma {:induction false} XorZero(a: nat, b: nat)
    ensures Xor(a, b) == 0 <==> a == b
    decreases a + b
  {
    if !(a == 0 && b == 0) {
      XorZero(a / 2, b / 2);
    }
  }

  /** `x | y` is zero exactly when both are zero. */
  lemma {:induction false} OrZero(a: nat, b: nat)
    ensures Or(a, b) == 0 <==> a == 0 && b == 0
    decreases a + b
  {
    if !(a == 0 && b == 0) {
      OrZero(a / 2, b / 2);
    }
  }

  /** Neither operation leaves n bits. */
  lemma {:induction false} BitwiseWidth(a: nat, b: nat, n: nat)
    requires a < Pow2(n) && b < Pow2(n)
    ensures Xor(a, b) < Pow2(n) && Or(a, b) < Pow2(n)
    decreases a + b
  {
    if !(a == 0 && b == 0) {
      BitwiseWidth(a / 2, b / 2, n - 1);
    }
  }

  /** On bytes both operations give a byte. */
  lemma ByteOps(a: byte, b: byte)
    ensures Xor(a, b) < 256 && Or(a, b) < 256
  {
    assert Pow2(8) == 256;
    BitwiseWidth(a, b, 8);
  }

  /** `ConstantTimeByteEq(x, y)`: `(uint32(x ^ y) - 1) >> 31`, where the subtraction
      wraps modulo 2^32; 1 when the bytes are equal and 0 otherwise. */
  function ConstantTimeByteEq(x: byte, y: byte): (r: int)
    ensures r == 0 || r == 1
    ensures r == 1 <==> x == y
  {
    XorZero(x, y);
    ByteOps(x, y);
    ((Xor(x, y) - 1) % 0x1_0000_0000) / 0x8000_0000
  }

  /** `ConstantTimeCompare(x, y)`: 1 exactly when the slices have the same length and the
      same bytes. Every byte pair is folded into `v`, so the loop never exits early. */
  method ConstantTimeCompare(x: seq<byte>, y: seq<byte>) returns (r: int)
    ensures r == 0 || r == 1
    ensures r == 1 <==> x == y
  {
    if |x| != |y| {
      return 0;
    }
    var v: byte := 0;
    var i := 0;
    while i < |x|
      invariant 0 <= i <= |x|
      invariant v == 0 <==> x[..i] == y[..i]
    {
      assert x[..i + 1] == x[..i] + [x[i]] && y[..i + 1] == y[..i] + [y[i]];
      ByteOps(x[i], y[i]);
      ByteOps(v, Xor(x[i], y[i]));
      XorZero(x[i], y[i]);
      OrZero(v, Xor(x[i], y[i]));
      v := Or(v, Xor(x[i], y[i]));
      i := i + 1;
    }
    assert x[..i] == x && y[..i] == y;
    r := ConstantTimeByteEq(v, 0);
  }
}
