/**
 PBKDF2 with a 32-octet PRF (AsyncSecureSession.cpp, section 5.2 of RFC 8018).  The PRF,
 HMAC-SHA-256 in the code, stays an arbitrary function.
 */
module Pbkdf2 {
  import opened Common
  import Der

  const HLEN: nat := 32

  type Prf = (Bytes, Bytes) -> Bytes

  ghost predicate Digests(prf: Prf)
  {
    forall key, m :: |prf(key, m)| == HLEN
  }

  function Power2(n: nat): nat
  {
    if n == 0 then 1 else 2 * Power2(n - 1)
  }

  /** The `n` low bits of an exclusive or, least significant first. */
  function XorBits(a: nat, b: nat, n: nat): (r: nat)
    ensures r < Power2(n)
  {
    if n == 0 then 0 else (a % 2 + b % 2) % 2 + 2 * XorBits(a / 2, b / 2, n - 1)
  }

  function XorByte(a: byte, b: byte): byte
  {
    assert Power2(8) == 256 by { EightBits(); }
    XorBits(a as nat, b as nat, 8) as byte
  }

  lemma EightBits()
    ensures Power2(8) == 256
  {
    assert Power2(4) == 16;
    assert Power2(6) == 64;
  }

  /** Bit `k` of a number: the parity of what is left after halving it `k` times. */
  function Bit(x: nat, k: nat): (r: nat)
    ensures r < 2
  {
    if k == 0 then x % 2 else Bit(x / 2, k - 1)
  }

  lemma {:induction false} XorBitsAt(a: nat, b: nat, n: nat, k: nat)
    requires k < n
    ensures Bit(XorBits(a, b, n), k) == (Bit(a, k) + Bit(b, k)) % 2
  {
    if k > 0 {
      XorBitsAt(a / 2, b / 2, n - 1, k - 1);
      assert XorBits(a, b, n) / 2 == XorBits(a / 2, b / 2, n - 1);
    }
  }

  /** Each bit of an exclusive or is the sum modulo 2 of the bits of its arguments. */
  lemma XorByteBits(a: byte, b: byte, k: nat)
    requires k < 8
    ensures Bit(XorByte(a, b) as nat, k) == (Bit(a as nat, k) + Bit(b as nat, k)) % 2
  {
    XorBitsAt(a as nat, b as nat, 8, k);
  }

  function Xor(a: Bytes, b: Bytes): (r: Bytes)
    requires |a| == |b|
    ensures |r| == |a|
  {
    seq(|a|, i requires 0 <= i < |a| => XorByte(a[i], b[i]))
  }

  /** INT (i): four octets, most significant first. */
  function Int(i: nat): (r: Bytes)
    ensures |r| == 4
  {
    [(i / 0x100_0000 % 256) as byte, (i / 0x1_0000 % 256) as byte, (i / 0x100 % 256) as byte, (i % 256) as byte]
  }

  /** A block number below 2^32 is written as its four octets, most significant first. */
  lemma IntIsBigEndian(i: nat)
    requires i < 0x1_0000_0000
    ensures Der.BigEndian(Int(i)) == i
  {
    var s := Int(i);
    assert s[..3] == [s[0], s[1], s[2]] && s[..3][..2] == [s[0], s[1]] && s[..3][..2][..1] == [s[0]];
    assert Der.BigEndian([s[0]]) == s[0] as nat by { assert [s[0]][..0] == []; }
    assert Der.BigEndian(s[..3][..2]) == s[0] as nat * 256 + s[1] as nat;
    assert Der.BigEndian(s[..3]) == (s[0] as nat * 256 + s[1] as nat) * 256 + s[2] as nat;
    assert Der.BigEndian(s) == ((s[0] as nat * 256 + s[1] as nat) * 256 + s[2] as nat) * 256 + s[3] as nat;
    FourDigits(i);
  }

  lemma FourDigits(i: nat)
    requires i < 0x1_0000_0000
    ensures ((i / 0x100_0000 % 256 * 256 + i / 0x1_0000 % 256) * 256 + i / 0x100 % 256) * 256 + i % 256 == i
  {
    var a, b := i / 0x100, i / 0x1_0000;
    assert b == a / 0x100 && i / 0x100_0000 == b / 0x100;
  }

  /** U_j: the first is over the salt and the block number, each later one over its predecessor. */
  ghost function U(prf: Prf, pass: Bytes, salt: Bytes, i: nat, j: nat): (r: Bytes)
    requires Digests(prf) && j > 0
    ensures |r| == HLEN
  {
    if j == 1 then prf(pass, salt + Int(i)) else prf(pass, U(prf, pass, salt, i, j - 1))
  }

  /** F (P, S, c, i) = U_1 xor U_2 xor ... xor U_c. */
  ghost function F(prf: Prf, pass: Bytes, salt: Bytes, c: nat, i: nat): (r: Bytes)
    requires Digests(prf) && c > 0
    ensures |r| == HLEN
  {
    if c == 1 then U(prf, pass, salt, i, 1)
    else Xor(F(prf, pass, salt, c - 1, i), U(prf, pass, salt, i, c))
  }

  /** T_1 || T_2 || ... || T_l. */
  ghost function Blocks(prf: Prf, pass: Bytes, salt: Bytes, c: nat, l: nat): (r: Bytes)
    requires Digests(prf) && c > 0
    ensures |r| == HLEN * l
  {
    if l == 0 then [] else Blocks(prf, pass, salt, c, l - 1) + F(prf, pass, salt, c, l)
  }

  /** The derived key: the first `dkLen` octets of the blocks. */
  ghost function DerivedKey(prf: Prf, pass: Bytes, salt: Bytes, c: nat, dkLen: nat): (r: Bytes)
    requires Digests(prf) && c > 0
    ensures |r| == dkLen
  {
    var l := (dkLen + HLEN - 1) / HLEN;
    assert HLEN * l >= dkLen;
    Blocks(prf, pass, salt, c, l)[..dkLen]
  }

  /** More blocks only append: every prefix of the key is a shorter derived key. */
  lemma {:induction false} BlocksPrefix(prf: Prf, pass: Bytes, salt: Bytes, c: nat, m: nat, l: nat)
    requires Digests(prf) && c > 0 && m <= l
    ensures Blocks(prf, pass, salt, c, m) == Blocks(prf, pass, salt, c, l)[..HLEN * m]
    decreases l
  {
    if m < l {
      BlocksPrefix(prf, pass, salt, c, m, l - 1);
      var b := Blocks(prf, pass, salt, c, l - 1);
      assert Blocks(prf, pass, salt, c, l)[..HLEN * m] == b[..HLEN * m];
    } else {
      assert Blocks(prf, pass, salt, c, l)[..HLEN * l] == Blocks(prf, pass, salt, c, l);
    }
  }

  /** Octet `k` of the key is octet `k mod 32` of block `k / 32 + 1`. */
  lemma DerivedKeyAt(prf: Prf, pass: Bytes, salt: Bytes, c: nat, dkLen: nat, k: nat)
    requires Digests(prf) && c > 0 && k < dkLen
    ensures DerivedKey(prf, pass, salt, c, dkLen)[k] == F(prf, pass, salt, c, k / HLEN + 1)[k % HLEN]
  {
    var l := (dkLen + HLEN - 1) / HLEN;
    var m := k / HLEN;
    assert m + 1 <= l;
    BlocksPrefix(prf, pass, salt, c, m + 1, l);
    assert Blocks(prf, pass, salt, c, m + 1)[k] == F(prf, pass, salt, c, m + 1)[k - HLEN * m];
  }

  /** Bit `b` of octet `k` summed over U_1 to U_c. */
  ghost function BitSum(prf: Prf, pass: Bytes, salt: Bytes, c: nat, i: nat, k: nat, b: nat): nat
    requires Digests(prf) && c > 0 && k < HLEN
  {
    Bit(U(prf, pass, salt, i, c)[k] as nat, b) + if c == 1 then 0 else BitSum(prf, pass, salt, c - 1, i, k, b)
  }

  lemma ParityAdds(x: nat, y: nat)
    ensures (x % 2 + y) % 2 == (y + x) % 2
  {
  }

  /** Every bit of a block is the parity of that bit over U_1 to U_c. */
  lemma {:induction false} BlockBits(prf: Prf, pass: Bytes, salt: Bytes, c: nat, i: nat, k: nat, b: nat)
    requires Digests(prf) && c > 0 && k < HLEN && b < 8
    ensures Bit(F(prf, pass, salt, c, i)[k] as nat, b) == BitSum(prf, pass, salt, c, i, k, b) % 2
  {
    if c > 1 {
      BlockBits(prf, pass, salt, c - 1, i, k, b);
      var f, u := F(prf, pass, salt, c - 1, i), U(prf, pass, salt, i, c);
      assert F(prf, pass, salt, c, i)[k] == XorByte(f[k], u[k]);
      XorByteBits(f[k], u[k], b);
      ParityAdds(BitSum(prf, pass, salt, c - 1, i, k, b), Bit(u[k] as nat, b));
    }
  }

  /** The first block after one and after two iterations, written out. */
  lemma FirstBlock(prf: Prf, pass: Bytes, salt: Bytes)
    requires Digests(prf)
    ensures var u := prf(pass, salt + [0, 0, 0, 1]);
      && DerivedKey(prf, pass, salt, 1, HLEN) == u
      && DerivedKey(prf, pass, salt, 2, HLEN) == Xor(u, prf(pass, u))
  {
    assert Int(1) == [0, 0, 0, 1];
    var u := prf(pass, salt + [0, 0, 0, 1]);
    assert U(prf, pass, salt, 1, 1) == u && U(prf, pass, salt, 1, 2) == prf(pass, u);
    OneBlock(prf, pass, salt, 1);
    OneBlock(prf, pass, salt, 2);
  }

  lemma OneBlock(prf: Prf, pass: Bytes, salt: Bytes, c: nat)
    requires Digests(prf) && c > 0
    ensures DerivedKey(prf, pass, salt, c, HLEN) == F(prf, pass, salt, c, 1)
  {
    assert Blocks(prf, pass, salt, c, 0) == [];
    assert Blocks(prf, pass, salt, c, 1) == F(prf, pass, salt, c, 1);
  }

  /** The inner loop: `t ^= u`, octet by octet, in place. */
  method XorInto(t: array<byte>, u: Bytes)
    requires t.Length == HLEN && |u| == HLEN
    modifies t
    ensures t[..] == Xor(old(t[..]), u)
  {
    ghost var before := t[..];
    var k := 0;
    while k < HLEN
      invariant 0 <= k <= HLEN
      invariant forall i :: 0 <= i < k ==> t[i] == XorByte(before[i], u[i])
      invariant forall i :: k <= i < HLEN ==> t[i] == before[i]
    {
      t[k] := XorByte(t[k], u[k]);
      k := k + 1;
    }
  }

  /** `memcpy` into an array. */
  method CopyInto(dst: array<byte>, at: nat, src: Bytes)
    requires at + |src| <= dst.Length
    modifies dst
    ensures dst[..] == old(dst[..at]) + src + old(dst[at + |src|..])
  {
    ghost var before := dst[..];
    var k := 0;
    while k < |src|
      invariant 0 <= k <= |src|
      invariant forall i :: 0 <= i < k ==> dst[at + i] == src[i]
      invariant forall i :: 0 <= i < at || at + k <= i < dst.Length ==> dst[i] == before[i]
    {
      dst[at + k] := src[k];
      k := k + 1;
    }
  }

  /** The step from one iteration to the next. */
  lemma NextIteration(prf: Prf, pass: Bytes, salt: Bytes, idx: nat, i: nat)
    requires Digests(prf) && i > 0
    ensures U(prf, pass, salt, idx, i + 1) == prf(pass, U(prf, pass, salt, idx, i))
    ensures F(prf, pass, salt, i + 1, idx) == Xor(F(prf, pass, salt, i, idx), U(prf, pass, salt, idx, i + 1))
  {
  }

  /** The first PRF output, copied into `t`. */
  method FirstRound(prf: Prf, pass: Bytes, salt: Bytes, idx: nat, t: array<byte>) returns (u: Bytes)
    requires Digests(prf) && t.Length == HLEN
    modifies t
    ensures u == U(prf, pass, salt, idx, 1) && t[..] == F(prf, pass, salt, 1, idx)
  {
    u := prf(pass, salt + Int(idx));
    CopyInto(t, 0, u);
    assert t[..] == [] + u + [];
  }

  /** One block: the iterated PRF folded into `t`. */
  method Block(prf: Prf, pass: Bytes, salt: Bytes, iters: nat, idx: nat, t: array<byte>)
    requires Digests(prf) && iters > 0 && t.Length == HLEN
    modifies t
    ensures t[..] == F(prf, pass, salt, iters, idx)
  {
    var u := FirstRound(prf, pass, salt, idx, t);
    var i := 1;
    while i < iters
      invariant 1 <= i <= iters
      invariant u == U(prf, pass, salt, idx, i)
      invariant t[..] == F(prf, pass, salt, i, idx)
    {
      NextIteration(prf, pass, salt, idx, i);
      u := prf(pass, u);
      XorInto(t, u);
      i := i + 1;
    }
  }

  /** Before block `idx`: `o` octets of the output hold the blocks made so far, the last of them perhaps cut off. */
  ghost predicate Made(prf: Prf, pass: Bytes, salt: Bytes, iters: nat, out: Bytes, idx: nat, o: nat)
    requires Digests(prf) && iters > 0
  {
    && idx > 0 && HLEN * (idx - 1) < |out| + HLEN
    && o == (if HLEN * (idx - 1) < |out| then HLEN * (idx - 1) else |out|)
    && out[..o] == Blocks(prf, pass, salt, iters, idx - 1)[..o]
  }

  /** One turn of the output loop. */
  method NextBlock(prf: Prf, pass: Bytes, salt: Bytes, iters: nat, idx: nat, t: array<byte>, out: array<byte>, o: nat)
    returns (take: nat)
    requires Digests(prf) && iters > 0 && t != out && t.Length == HLEN
    requires o < out.Length && Made(prf, pass, salt, iters, out[..], idx, o)
    modifies t, out
    ensures take > 0 && Made(prf, pass, salt, iters, out[..], idx + 1, o + take)
  {
    Block(prf, pass, salt, iters, idx, t);
    take := HLEN;
    if take > out.Length - o {
      take := out.Length - o;
    }
    ghost var blocks := Blocks(prf, pass, salt, iters, idx - 1);
    assert out[..][..o] == out[..o] && blocks[..o] == blocks;
    AppendBlock(t, out, o, take, blocks);
    assert out[..][..o + take] == out[..o + take];
  }

  /**
   `brssl_pbkdf2`: fails only on a zero iteration count; otherwise fills `out` with the
   derived key.  The 32-bit block counter cannot wrap for any length a 32-bit size_t holds.
   */
  method Derive(prf: Prf, pass: Bytes, salt: Bytes, iters: nat, out: array<byte>) returns (ok: bool)
    requires Digests(prf) && out.Length < 0x1_0000_0000
    modifies out
    ensures ok <==> iters > 0
    ensures ok ==> out[..] == DerivedKey(prf, pass, salt, iters, out.Length)
    ensures !ok ==> out[..] == old(out[..])
  {
    if iters == 0 {
      return false;
    }
    var t := new byte[HLEN];
    var o := 0;
    var idx := 1;
    while o < out.Length
      invariant o <= out.Length && idx <= 0x800_0001
      invariant Made(prf, pass, salt, iters, out[..], idx, o)
      decreases out.Length - o
    {
      var take := NextBlock(prf, pass, salt, iters, idx, t, out, o);
      o := o + take;
      idx := idx + 1;
    }
    assert out[..][..o] == out[..];
    KeyComplete(prf, pass, salt, iters, out.Length, idx - 1);
    ok := true;
  }

  /** The blocks made when the loop ends are just enough for the key. */
  lemma KeyComplete(prf: Prf, pass: Bytes, salt: Bytes, c: nat, dkLen: nat, l: nat)
    requires Digests(prf) && c > 0
    requires dkLen <= HLEN * l < dkLen + HLEN
    ensures DerivedKey(prf, pass, salt, c, dkLen) == Blocks(prf, pass, salt, c, l)[..dkLen]
  {
    assert (dkLen + HLEN - 1) / HLEN == l;
  }

  /** The octets of a block that are wanted go behind the ones already there. */
  method AppendBlock(t: array<byte>, out: array<byte>, o: nat, take: nat, ghost blocks: Bytes)
    requires t != out && take <= t.Length && o + take <= out.Length
    requires o == |blocks| && out[..o] == blocks
    modifies out
    ensures out[..o + take] == (blocks + t[..])[..o + take]
  {
    CopyInto(out, o, t[..take]);
    assert out[..o + take] == blocks + t[..take];
    BlockAppends(blocks, t[..], take);
  }

  lemma BlockAppends(blocks: Bytes, next: Bytes, take: nat)
    requires take <= |next|
    ensures (blocks + next)[..|blocks| + take] == blocks + next[..take]
  {
  }
}
