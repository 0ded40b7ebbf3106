/**
 The DER element reader of the encrypted-key decoder (AsyncSecureSession.cpp) and the
 encoder it inverts (section 8.1.3 of X.690, definite lengths of up to four octets).
 */
module Der {
  import opened Common

  const MAX_LEN: nat := 0x1_0000_0000

  /** One element: its tag, its contents, and what follows it. */
  datatype Element = Element(tag: byte, value: Bytes, rest: Bytes)

  /** Big-endian value of a byte string. */
  function BigEndian(s: Bytes): nat
  {
    if s == [] then 0 else BigEndian(s[..|s| - 1]) * 256 + s[|s| - 1] as nat
  }

  /** The shortest big-endian representation; zero is empty. */
  function Digits(n: nat): Bytes
  {
    if n == 0 then [] else Digits(n / 256) + [(n % 256) as byte]
  }

  lemma BigEndianSnoc(d: Bytes, b: byte)
    ensures BigEndian(d + [b]) == BigEndian(d) * 256 + b as nat
    ensures (d + [b])[0] == if d == [] then b else d[0]
  {
    assert (d + [b])[..|d|] == d;
  }

  lemma {:induction false} DigitsRoundTrip(n: nat)
    ensures BigEndian(Digits(n)) == n
    ensures n > 0 ==> Digits(n) != [] && Digits(n)[0] != 0
  {
    if n > 0 {
      DigitsRoundTrip(n / 256);
      BigEndianSnoc(Digits(n / 256), (n % 256) as byte);
    }
  }

  lemma {:induction false} BigEndianPositive(s: Bytes)
    requires s != [] && s[0] != 0
    ensures BigEndian(s) > 0
  {
    if |s| > 1 {
      assert s[..|s| - 1][0] == s[0];
      BigEndianPositive(s[..|s| - 1]);
    }
  }

  /** A representation without a leading zero is the shortest one. */
  lemma {:induction false} DigitsCanonical(s: Bytes)
    requires s == [] || s[0] != 0
    ensures Digits(BigEndian(s)) == s
  {
    if s != [] {
      var init, last := s[..|s| - 1], s[|s| - 1];
      DigitsCanonical(init);
      BigEndianPositive(s);
      var n := BigEndian(s);
      assert n / 256 == BigEndian(init) && n % 256 == last as nat;
      assert s == init + [last];
    }
  }

  lemma {:induction false} DigitsLength(n: nat, k: nat)
    requires n < Power256(k)
    ensures |Digits(n)| <= k
  {
    if n > 0 {
      assert k > 0;
      DigitsLength(n / 256, k - 1);
    }
  }

  function Power256(k: nat): nat
  {
    if k == 0 then 1 else 256 * Power256(k - 1)
  }

  lemma {:induction false} BigEndianBound(s: Bytes)
    ensures BigEndian(s) < Power256(|s|)
  {
    if s != [] {
      BigEndianBound(s[..|s| - 1]);
    }
  }

  lemma FourOctets()
    ensures Power256(4) == MAX_LEN
  {
    assert Power256(1) == 256;
    assert Power256(2) == 65536;
    assert Power256(3) == 16777216;
  }

  // ---- Reading ----

  /** Where the contents start and how long they are said to be, if the header is readable. */
  function Header(s: Bytes): (h: Option<(nat, nat)>)
    ensures h.Some? ==> 2 <= h.value.0 <= |s|
  {
    if |s| < 2 || s[0] == 0x1f then None
    else if s[1] < 0x80 then Some((2, s[1] as nat))
    else
      var nb := s[1] as nat - 0x80;
      if nb == 0 || nb > 4 || |s| < 2 + nb then None
      else Some((2 + nb, BigEndian(s[2..2 + nb])))
  }

  /** `brssl_der_take`. */
  function Take(s: Bytes): Option<Element>
  {
    match Header(s)
    case None => None
    case Some((off, l)) => if l > |s| - off then None else Some(Element(s[0], s[off..off + l], s[off + l..]))
  }

  /** `brssl_der_peek_tag`: 0 when nothing is left. */
  function PeekTag(s: Bytes): byte
  {
    if s == [] then 0 else s[0]
  }

  // ---- Writing ----

  /** The octet that announces `k` length octets; 0x7f of them or more are not written. */
  function LongMark(k: nat): byte
  {
    if k < 0x7f then (0x80 + k) as byte else 0xff
  }

  /** Length octets: short form, or the count of the length's digits and the digits. */
  function EncodeLength(n: nat): (r: Bytes)
    ensures r != []
  {
    if n < 0x80 then [n as byte]
    else [LongMark(|Digits(n)|)] + Digits(n)
  }

  function Encode(tag: byte, value: Bytes): (r: Bytes)
    ensures |r| >= |value| + 2
  {
    [tag] + EncodeLength(|value|) + value
  }

  lemma ShortForm(tag: byte, value: Bytes)
    requires |value| < 0x80
    ensures Encode(tag, value) == [tag, |value| as byte] + value
  {
  }

  lemma OneDigit(n: nat)
    requires 0 < n < 256
    ensures Digits(n) == [n as byte]
  {
    assert Digits(0) == [];
  }

  /** The largest short length and the first ones of one and of two length octets, as X.690 writes them. */
  lemma KnownLengths()
    ensures EncodeLength(127) == [0x7f] && EncodeLength(128) == [0x81, 0x80] && EncodeLength(300) == [0x82, 0x01, 0x2c]
    ensures Digits(2048) == [0x08, 0x00] && BigEndian([0x01, 0x2c]) == 300
  {
    OneDigit(128);
    OneDigit(1);
    OneDigit(8);
    assert Digits(300) == Digits(1) + [0x2c];
    assert Digits(2048) == Digits(8) + [0x00];
    DigitsRoundTrip(300);
    assert Digits(300) == [0x01, 0x2c];
  }

  /** The header written for a length reads back as that length. */
  lemma HeaderInvertsLength(tag: byte, n: nat, tail: Bytes)
    requires n < MAX_LEN && tag != 0x1f
    ensures Header([tag] + EncodeLength(n) + tail) == Some((1 + |EncodeLength(n)|, n))
  {
    var len := EncodeLength(n);
    var s := [tag] + len + tail;
    assert s[0] == tag && s[1] == len[0];
    if n >= 0x80 {
      LongLength(n);
      assert s[2..1 + |len|] == len[1..];
    }
  }

  /** The long form: a count from one to four, then the digits. */
  lemma LongLength(n: nat)
    requires 0x80 <= n < MAX_LEN
    ensures var len := EncodeLength(n);
      && 1 <= |len| - 1 <= 4 && len[0] as nat == 0x80 + (|len| - 1) && BigEndian(len[1..]) == n && len[1] != 0
  {
    FourOctets();
    DigitsLength(n, 4);
    DigitsRoundTrip(n);
    LongForm(Digits(n));
  }

  lemma LongForm(d: Bytes)
    requires 1 <= |d| <= 4
    ensures var len := [LongMark(|d|)] + d;
      && |len| - 1 == |d| && len[0] as nat == 0x80 + |d| && len[1..] == d && len[1] == d[0]
  {
  }

  /** Reading what was written returns it and leaves what followed, for short and long lengths. */
  lemma TakeInvertsEncode(tag: byte, value: Bytes, rest: Bytes)
    requires |value| < MAX_LEN && tag != 0x1f
    ensures Take(Encode(tag, value) + rest) == Some(Element(tag, value, rest))
    ensures PeekTag(Encode(tag, value) + rest) == tag
  {
    var head := [tag] + EncodeLength(|value|);
    var s := Encode(tag, value) + rest;
    assert s == head + (value + rest);
    HeaderInvertsLength(tag, |value|, value + rest);
    Slices(head, value, rest);
    assert s == head + value + rest;
  }

  lemma Slices(head: Bytes, value: Bytes, rest: Bytes)
    ensures var s := head + value + rest;
      && s[|head|..|head| + |value|] == value
      && s[|head| + |value|..] == rest
      && |value| <= |s| - |head|
  {
  }

  /** The length octets are the shortest that say what they say. */
  predicate MinimalLength(s: Bytes)
    requires Header(s).Some?
  {
    s[1] < 0x80 || (s[2] != 0 && Header(s).value.1 >= 0x80)
  }

  /** A header is the one the encoder writes exactly when its length octets are minimal. */
  lemma HeaderMinimal(s: Bytes)
    requires Header(s).Some?
    ensures var (off, l) := Header(s).value;
      && off <= 6 && l < MAX_LEN
      && (s[..off] == [s[0]] + EncodeLength(l) <==> MinimalLength(s))
  {
    var (off, l) := Header(s).value;
    if s[1] < 0x80 {
      assert s[..off] == [s[0]] + EncodeLength(l);
    } else {
      var d := s[2..off];
      BigEndianBound(d);
      PowerGrows(|d|, 4);
      FourOctets();
      LongHeader(s, off, l);
    }
  }

  lemma LongHeader(s: Bytes, off: nat, l: nat)
    requires Header(s) == Some((off, l)) && s[1] >= 0x80 && l < MAX_LEN
    ensures s[..off] == [s[0]] + EncodeLength(l) <==> MinimalLength(s)
  {
    if MinimalLength(s) {
      MinimalIsEncoded(s, off, l);
    }
    if s[..off] == [s[0]] + EncodeLength(l) {
      EncodedIsMinimal(s, off, l);
    }
  }

  lemma MinimalIsEncoded(s: Bytes, off: nat, l: nat)
    requires Header(s) == Some((off, l)) && s[1] >= 0x80 && l < MAX_LEN && MinimalLength(s)
    ensures s[..off] == [s[0]] + EncodeLength(l)
  {
    var d := s[2..off];
    DigitsCanonical(d);
    LongForm(d);
    assert s[..off] == [s[0]] + ([s[1]] + d) by {
      SplitHead(s, off);
    }
  }

  lemma SplitHead(s: Bytes, off: nat)
    requires 2 <= off <= |s|
    ensures s[..off] == [s[0]] + ([s[1]] + s[2..off])
  {
  }

  lemma EncodedIsMinimal(s: Bytes, off: nat, l: nat)
    requires Header(s) == Some((off, l)) && s[1] >= 0x80 && l < MAX_LEN
    requires s[..off] == [s[0]] + EncodeLength(l)
    ensures MinimalLength(s)
  {
    assert s[1] == s[..off][1] == EncodeLength(l)[0];
    LongLength(l);
    assert s[2] == s[..off][2] == EncodeLength(l)[1];
  }

  /**
   Whatever is read, the input is a header of two to six octets, the contents and the rest;
   and it is exactly the DER encoding of the element, followed by the rest, if and only if
   the length octets are minimal, which the reader does not insist on.
   */
  lemma EncodeInvertsTake(s: Bytes) returns (off: nat)
    requires Take(s).Some?
    ensures var e := Take(s).value;
      && e.tag == s[0] != 0x1f
      && |e.value| < MAX_LEN
      && 2 <= off <= 6 && off + |e.value| + |e.rest| == |s|
      && s == s[..off] + e.value + e.rest
      && (s == Encode(e.tag, e.value) + e.rest <==> MinimalLength(s))
  {
    var e := Take(s).value;
    off := Header(s).value.0;
    var l := Header(s).value.1;
    HeaderMinimal(s);
    Layout(s, off, l);
    HeadDecides([e.tag] + EncodeLength(l), s[..off], e.value, e.rest);
  }

  lemma Layout(s: Bytes, off: nat, l: nat)
    requires off + l <= |s|
    ensures s == s[..off] + s[off..off + l] + s[off + l..]
  {
  }

  lemma HeadDecides(a: Bytes, b: Bytes, value: Bytes, rest: Bytes)
    ensures a + value + rest == b + value + rest <==> a == b
  {
    assert a + value + rest == a + (value + rest) && b + value + rest == b + (value + rest);
    if a + value + rest == b + value + rest {
      SameTail(a, b, value + rest);
    }
  }

  lemma SameTail(a: Bytes, b: Bytes, t: Bytes)
    requires a + t == b + t
    ensures a == b
  {
    assert |a| == |b|;
    assert a == (a + t)[..|a|] && b == (b + t)[..|b|];
  }

  lemma {:induction false} PowerGrows(a: nat, b: nat)
    requires a <= b
    ensures Power256(a) <= Power256(b)
    decreases b - a
  {
    if a < b {
      PowerGrows(a + 1, b);
    }
  }

  // ---- The cursor ----

  lemma WindowSlices(buf: Bytes, p: nat, n: nat, off: nat, l: nat)
    requires p + n <= |buf| && off + l <= n
    ensures buf[p..p + n][off..off + l] == buf[p + off..p + off + l]
    ensures buf[p..p + n][off + l..] == buf[p + off + l..p + n]
  {
    var w := buf[p..p + n];
    var a, b := w[off..off + l], buf[p + off..p + off + l];
    forall i | 0 <= i < l ensures a[i] == b[i] {
      assert w[off + i] == buf[p + off + i];
    }
  }

  /** BrsslDer: a window of a buffer, advanced element by element. */
  class BrsslDer {
    const buf: Bytes
    var p: nat
    var n: nat

    ghost predicate Valid()
      reads this
    {
      p + n <= |buf|
    }

    ghost function Window(): Bytes
      requires Valid()
      reads this
    {
      buf[p..p + n]
    }

    constructor (buf: Bytes, p: nat, n: nat)
      requires p + n <= |buf|
      ensures Valid() && this.buf == buf && Window() == buf[p..p + n]
    {
      this.buf, this.p, this.n := buf, p, n;
    }

    /** The tag and length octets: where the contents start and how long they are said to be. */
    method ReadHeader() returns (ok: bool, off: nat, l: nat)
      requires Valid()
      ensures Header(Window()) == if ok then Some((off, l)) else None
      ensures ok ==> 2 <= off <= n
    {
      ghost var s := Window();
      ok, off, l := false, 2, 0;
      if n < 2 {
        return;
      }
      assert buf[p] == s[0] && buf[p + 1] == s[1];
      if buf[p] == 0x1f {
        return;
      }
      l := buf[p + 1] as nat;
      if l >= 0x80 {
        var nb := l - 0x80;
        if nb == 0 || nb > 4 || n < off + nb {
          return;
        }
        l := ReadLength(nb);
        WindowSlices(buf, p, n, 2, nb);
        off := off + nb;
      }
      ok := true;
    }

    /** `brssl_der_take`: consumes one element, or fails and stays where it is. */
    method TakeElement() returns (ok: bool, tag: byte, val: nat, vlen: nat)
      requires Valid()
      modifies this
      ensures Valid()
      ensures ok <==> Take(old(Window())).Some?
      ensures !ok ==> Window() == old(Window())
      ensures ok ==> val + vlen <= |buf|
      ensures ok ==> Take(old(Window())) == Some(Element(tag, buf[val..val + vlen], Window()))
    {
      ok, tag, val, vlen := false, 0, 0, 0;
      var readable, off, l := ReadHeader();
      if !readable || l > n - off {
        return;
      }
      WindowSlices(buf, p, n, off, l);
      ok, tag, val, vlen := true, buf[p], p + off, l;
      p, n := p + off + l, n - (off + l);
    }

    /** The long-form length octets, most significant first; four of them fit 32 bits. */
    method ReadLength(nb: nat) returns (l: nat)
      requires Valid() && 2 + nb <= n && nb <= 4
      ensures l == BigEndian(buf[p + 2..p + 2 + nb]) < MAX_LEN
    {
      l := 0;
      var i := 0;
      while i < nb
        invariant 0 <= i <= nb
        invariant l == BigEndian(buf[p + 2..p + 2 + i])
      {
        assert buf[p + 2..p + 2 + i + 1][..i] == buf[p + 2..p + 2 + i];
        l := l * 256 + buf[p + 2 + i] as nat;
        i := i + 1;
      }
      BigEndianBound(buf[p + 2..p + 2 + nb]);
      PowerGrows(nb, 4);
      FourOctets();
    }

    method PeekNextTag() returns (tag: byte)
      requires Valid()
      ensures tag == PeekTag(Window())
    {
      tag := if n == 0 then 0 else buf[p];
    }
  }
}
