/** The salt package: a random salt over a 62-character alphabet. */
module Salt {
  import opened Base

  /** `SALTALLOWEDCHARS`, written as its three runs: lower-case letters, upper-case
      letters, then digits (62 characters). */
  const SaltAllowedChars: string := "abcdefghijklmnopqrstuvwxyz" + "ABCDEFGHIJKLMNOPQRSTUVWXYZ" + "0123456789"

  /** The length `GenerateSalt` substitutes for a requested length of 0. */
  const DefaultSaltLength: int := 15

  /** A value `rand.Int(rand.Reader, big.NewInt(62))` can return. */
  type AlphabetIndex = i: int | 0 <= i < 62

  /** One call of `rand.Int`: an index into the alphabet, or an error. */
  datatype Draw = Drawn(index: AlphabetIndex) | DrawFailed

  /** The k-th draw of the random source. A source that has run dry fails, as
      `rand.Int` does when its reader reaches end of input. */
  function DrawAt(draws: seq<Draw>, k: nat): Draw {
    if k < |draws| then draws[k] else DrawFailed
  }

  /** The first n draws all succeed. */
  predicate AllDrawn(draws: seq<Draw>, n: nat) {
    n <= |draws| && forall k :: 0 <= k < n ==> draws[k].Drawn?
  }

  /** The bytes `[a-zA-Z0-9]`. */
  predicate IsAlnum(b: byte) {
    (0x61 <= b <= 0x7A) || (0x41 <= b <= 0x5A) || (0x30 <= b <= 0x39)
  }

  /** The ASCII code of the i-th alphabet character: a run of 26 lower-case letters,
      26 upper-case letters and 10 digits. */
  function AlphabetCode(i: AlphabetIndex): int {
    if i < 26 then 0x61 + i else if i < 52 then 0x41 + (i - 26) else 0x30 + (i - 52)
  }

  /** The byte `SALTALLOWEDCHARS[i]`, by its code (see `AllowedByteIsAlphabetChar`). */
  function AllowedByte(i: AlphabetIndex): (b: byte)
    ensures IsAlnum(b) && b < 0x80
  {
    AlphabetCode(i)
  }

  /** `AllowedByte(i)` is `SALTALLOWEDCHARS[i]`: indexing a Go string yields a byte. */
  lemma AllowedByteIsAlphabetChar(i: AlphabetIndex)
    ensures |SaltAllowedChars| == 62 && AllowedByte(i) == SaltAllowedChars[i] as int
  {
    if i < 26 {
      assert SaltAllowedChars[i] == "abcdefghijklmnopqrstuvwxyz"[i];
    } else if i < 52 {
      assert SaltAllowedChars[i] == "ABCDEFGHIJKLMNOPQRSTUVWXYZ"[i - 26];
    } else {
      assert SaltAllowedChars[i] == "0123456789"[i - 52];
    }
  }

  /** The alphabet is exactly `[a-zA-Z0-9]`: every such byte is `SALTALLOWEDCHARS[i]` for some i. */
  lemma AlphabetCoversAlnum(b: byte)
    requires IsAlnum(b)
    ensures exists i: AlphabetIndex :: AllowedByte(i) == b
  {
    var i: AlphabetIndex;
    if 0x61 <= b <= 0x7A {
      i := b - 0x61;
    } else if 0x41 <= b <= 0x5A {
      i := 26 + (b - 0x41);
    } else {
      i := 52 + (b - 0x30);
    }
    assert AllowedByte(i) == b;
  }

  /** Go's `string(b)` for a byte b: the UTF-8 encoding of the code point b. */
  function RuneString(b: byte): seq<byte> {
    if b < 0x80 then [b] else [0xC0 + b / 64, 0x80 + b % 64]
  }

  /** The salt length after the length rule: 0 becomes 15, anything else is kept. */
  function EffectiveLength(sl: int): int {
    if sl == 0 then DefaultSaltLength else sl
  }

  /** State of the draw loop: the salt built so far (None once a draw failed) and
      how many draws it has taken from the source. */
  datatype Drawing = Drawing(salt: Option<seq<byte>>, used: nat)

  /** The draw loop run for n rounds: each round takes one draw and appends the
      chosen character; a failed draw stops the loop with no salt. */
  function DrawLoop(draws: seq<Draw>, n: nat): (d: Drawing)
    ensures d.used <= n
    ensures d.salt.Some? ==> d.used == n
  {
    if n == 0 then Drawing(Some([]), 0)
    else
      var prev := DrawLoop(draws, n - 1);
      if prev.salt.None? then prev
      else match DrawAt(draws, n - 1)
        case DrawFailed => Drawing(None, n)
        case Drawn(i) => Drawing(Some(prev.salt.value + RuneString(AllowedByte(i))), n)
  }

  /** What `GenerateSalt(sl)` returns, with the number of draws it took. */
  datatype SaltResult = SaltResult(salt: Option<seq<byte>>, err: Option<Error>, used: nat)

  /** `GenerateSalt(sl)` on the given random source. A salt and an error never come back
      together; the only error is `ErrSaltLength`, exactly for a negative length. */
  function SaltOutcome(sl: int, draws: seq<Draw>): (r: SaltResult)
    ensures !(r.salt.Some? && r.err.Some?)
    ensures r.err.Some? <==> sl < 0
    ensures r.err.Some? ==> r.err.value == ErrSaltLength && r.used == 0
  {
    if sl == 0 then
      var d := DrawLoop(draws, DefaultSaltLength);
      SaltResult(d.salt, None, d.used)
    else if sl < 0 then
      SaltResult(None, Some(ErrSaltLength), 0)
    else
      var d := DrawLoop(draws, sl);
      SaltResult(d.salt, None, d.used)
  }

  /** Once a draw has failed the loop has stopped: more rounds change nothing. */
  lemma {:induction false} FailureIsFinal(draws: seq<Draw>, m: nat, n: nat)
    requires m <= n
    requires DrawLoop(draws, m).salt.None?
    ensures DrawLoop(draws, n) == DrawLoop(draws, m)
    decreases n - m
  {
    if m < n {
      FailureIsFinal(draws, m, n - 1);
    }
  }

  /** The salt package's `GenerateSalt`, taking its random draws from `draws`. */
  method GenerateSalt(sl: int, draws: seq<Draw>) returns (salt: Option<seq<byte>>, err: Option<Error>, used: nat)
    ensures SaltResult(salt, err, used) == SaltOutcome(sl, draws)
  {
    var n := sl;
    if n == 0 {
      n := DefaultSaltLength;
    } else if n < 0 {
      return None, Some(ErrSaltLength), 0;
    }
    var s: seq<byte> := [];
    var k := 0;
    while k < n
      invariant 0 <= k <= n
      invariant DrawLoop(draws, k) == Drawing(Some(s), k)
    {
      var d := DrawAt(draws, k);
      if d.DrawFailed? {
        // the error of rand.Int is dropped: no salt and no error
        assert DrawLoop(draws, k + 1) == Drawing(None, k + 1);
        FailureIsFinal(draws, k + 1, n);
        return None, None, k + 1;
      }
      assert DrawLoop(draws, k + 1) == Drawing(Some(s + RuneString(AllowedByte(d.index))), k + 1);
      s := s + RuneString(AllowedByte(d.index));
      k := k + 1;
    }
    return Some(s), None, n;
  }

  /** The loop yields a salt exactly when its n draws all succeed; the salt then has one
      byte per draw, the k-th being `SALTALLOWEDCHARS[draw_k]`. */
  lemma {:induction false} DrawLoopSucceeds(draws: seq<Draw>, n: nat)
    ensures DrawLoop(draws, n).salt.Some? <==> AllDrawn(draws, n)
    ensures DrawLoop(draws, n).salt.Some? ==>
      var s := DrawLoop(draws, n).salt.value;
      |s| == n && forall k :: 0 <= k < n ==> s[k] == AllowedByte(draws[k].index)
  {
    if n > 0 {
      DrawLoopSucceeds(draws, n - 1);
      var prev := DrawLoop(draws, n - 1);
      if prev.salt.Some? {
        var s := prev.salt.value;
        match DrawAt(draws, n - 1)
        case DrawFailed =>
          assert n <= |draws| ==> draws[n - 1].DrawFailed?;
        case Drawn(i) =>
          assert AllDrawn(draws, n);
          assert RuneString(AllowedByte(i)) == [AllowedByte(i)];
      } else {
        assert AllDrawn(draws, n) ==> AllDrawn(draws, n - 1);
      }
    }
  }

  /** When a draw fails the loop has taken exactly the draws up to and including the
      first failed one. */
  lemma {:induction false} DrawLoopStopsAtFailure(draws: seq<Draw>, n: nat)
    requires DrawLoop(draws, n).salt.None?
    ensures var u := DrawLoop(draws, n).used;
      1 <= u <= n && DrawAt(draws, u - 1).DrawFailed? &&
      forall k :: 0 <= k < u - 1 ==> DrawAt(draws, k).Drawn?
  {
    var prev := DrawLoop(draws, n - 1);
    if prev.salt.None? {
      DrawLoopStopsAtFailure(draws, n - 1);
    } else {
      DrawLoopSucceeds(draws, n - 1);
    }
  }

  /** A non-negative length with every draw successful gives a salt of the effective
      length (15 for 0), made of the alphabet characters the draws select, in order. */
  lemma SaltFromDraws(sl: int, draws: seq<Draw>)
    requires sl >= 0 && AllDrawn(draws, EffectiveLength(sl))
    ensures SaltOutcome(sl, draws).salt.Some? && SaltOutcome(sl, draws).err.None?
    ensures var s := SaltOutcome(sl, draws).salt.value;
      |s| == EffectiveLength(sl) &&
      (forall k :: 0 <= k < |s| ==> s[k] == AllowedByte(draws[k].index) && IsAlnum(s[k]))
  {
    DrawLoopSucceeds(draws, EffectiveLength(sl));
  }

  /** Any salt that comes back has the effective length and only alphabet characters. */
  lemma SaltShape(sl: int, draws: seq<Draw>)
    requires SaltOutcome(sl, draws).salt.Some?
    ensures sl >= 0
    ensures var s := SaltOutcome(sl, draws).salt.value;
      |s| == EffectiveLength(sl) && forall k :: 0 <= k < |s| ==> IsAlnum(s[k])
  {
    DrawLoopSucceeds(draws, EffectiveLength(sl));
  }

  /** A failed draw is swallowed: no salt, no error, and no draw taken after the failed one. */
  lemma FailedDrawSwallowed(sl: int, draws: seq<Draw>)
    requires sl >= 0 && !AllDrawn(draws, EffectiveLength(sl))
    ensures SaltOutcome(sl, draws).salt.None? && SaltOutcome(sl, draws).err.None?
    ensures var u := SaltOutcome(sl, draws).used;
      1 <= u <= EffectiveLength(sl) && DrawAt(draws, u - 1).DrawFailed? &&
      forall k :: 0 <= k < u - 1 ==> DrawAt(draws, k).Drawn?
  {
    DrawLoopSucceeds(draws, EffectiveLength(sl));
    DrawLoopStopsAtFailure(draws, EffectiveLength(sl));
  }
}
