/**
 The outbound record ring of a BearSSL session (AsyncSecureSession.cpp): K slots pinned
 by no-copy writes and released by cumulative ACKs.  The specification is a FIFO of
 record lengths, oldest first, and an accumulator.
 */
module RecordRing {
  import opened Common

  // The widths of the C fields: uint16_t slot lengths and lwIP ACK lengths, uint32_t accumulator.
  newtype uint16 = x: int | 0 <= x < 0x1_0000
  newtype uint32 = x: int | 0 <= x < 0x1_0000_0000

  /** Un-ACKed records, oldest first, and ACKed bytes not yet charged to one. */
  datatype Ring = Ring(lens: seq<nat>, acked: nat)

  ghost predicate Positive(lens: seq<nat>)
  {
    forall i :: 0 <= i < |lens| ==> lens[i] > 0
  }

  /** The accumulator never covers the oldest record, and an empty ring holds none. */
  ghost predicate Settled(r: Ring)
  {
    Positive(r.lens) && if r.lens == [] then r.acked == 0 else r.acked < r.lens[0]
  }

  /** Ciphertext bytes in the ring the peer has not ACKed. */
  function Unacked(r: Ring): int
  {
    Sum(r.lens) - r.acked
  }

  /** Releases every record the accumulator covers, oldest first. */
  function Release(r: Ring): Ring
    decreases |r.lens|
  {
    if r.lens == [] then Ring([], 0)
    else if r.acked >= r.lens[0] then Release(Ring(r.lens[1..], r.acked - r.lens[0]))
    else r
  }

  /** `tcp_ssl_sent`. */
  function Sent(r: Ring, acked: nat): Ring
  {
    Release(r.(acked := r.acked + acked))
  }

  /** A record copied into the next slot and accepted by tcp_write. */
  function Pinned(r: Ring, len: nat): Ring
  {
    r.(lens := r.lens + [len])
  }

  lemma {:induction false} ReleaseSettles(r: Ring)
    requires Positive(r.lens)
    ensures Settled(Release(r))
    decreases |r.lens|
  {
    if r.lens != [] && r.acked >= r.lens[0] {
      ReleaseSettles(Ring(r.lens[1..], r.acked - r.lens[0]));
    }
  }

  lemma {:induction false} SumPrefix(lens: seq<nat>, k: nat)
    requires k <= |lens|
    ensures Sum(lens[..k]) + Sum(lens[k..]) == Sum(lens)
  {
    assert lens == lens[..k] + lens[k..];
    SumConcat(lens[..k], lens[k..]);
  }

  /**
   Exactly the covered records go: with `k` released, the accumulated bytes cover the first
   `k` records and not one more, and what stays is the rest of the ring, in order.
   */
  lemma {:induction false} ReleaseExact(r: Ring) returns (k: nat)
    requires Positive(r.lens)
    ensures k <= |r.lens|
    ensures Release(r).lens == r.lens[k..]
    ensures Sum(r.lens[..k]) <= r.acked
    ensures k < |r.lens| ==> r.acked < Sum(r.lens[..k + 1]) && Release(r).acked == r.acked - Sum(r.lens[..k])
    decreases |r.lens|
  {
    if r.lens == [] {
      k := 0;
    } else if r.acked >= r.lens[0] {
      var rest := Ring(r.lens[1..], r.acked - r.lens[0]);
      var j := ReleaseExact(rest);
      k := j + 1;
      assert r.lens[..k][1..] == rest.lens[..j];
      assert r.lens[k..] == rest.lens[j..];
      if k < |r.lens| {
        assert r.lens[..k + 1][1..] == rest.lens[..j + 1];
      }
    } else {
      k := 0;
      assert r.lens[..1][1..] == [];
    }
  }

  /** ACKs reduce the un-ACKed bytes one for one, down to nothing; writes add theirs. */
  lemma SentConserves(r: Ring, acked: nat)
    requires Settled(r)
    ensures Settled(Sent(r, acked))
    ensures Unacked(r) >= 0
    ensures Unacked(Sent(r, acked)) == if acked <= Unacked(r) then Unacked(r) - acked else 0
  {
    var s := r.(acked := r.acked + acked);
    ReleaseSettles(s);
    var k := ReleaseExact(s);
    SumPrefix(r.lens, k);
    if k == |r.lens| {
      assert r.lens[..k] == r.lens;
    } else {
      SumPrefix(r.lens, k + 1);
    }
    if r.lens != [] {
      assert Sum(r.lens) == r.lens[0] + Sum(r.lens[1..]);
    }
  }

  lemma PinnedConserves(r: Ring, len: nat)
    requires Settled(r) && len > 0
    ensures Settled(Pinned(r, len)) && Unacked(Pinned(r, len)) == Unacked(r) + len
  {
    SumConcat(r.lens, [len]);
    assert Sum([len]) == len by { assert [len][1..] == []; }
  }

  /** With no write between, it does not matter how an ACK is split. */
  lemma SplitAck(r: Ring, a: nat, b: nat)
    requires Settled(r)
    ensures Sent(Sent(r, a), b) == Sent(r, a + b)
  {
    SplitRelease(r.(acked := r.acked + a), b);
  }

  lemma {:induction false} SplitRelease(r: Ring, b: nat)
    ensures Sent(Release(r), b) == Release(r.(acked := r.acked + b))
    decreases |r.lens|
  {
    if r.lens != [] && r.acked >= r.lens[0] {
      SplitRelease(Ring(r.lens[1..], r.acked - r.lens[0]), b);
    }
  }

  /** The idle poll's zero-length ACK changes nothing. */
  lemma ZeroAck(r: Ring)
    requires Settled(r)
    ensures Sent(r, 0) == r
  {
  }

  // ---- Whole runs of writes and ACKs ----

  datatype Op = Write(len: nat) | Ack(len: nat)

  function Apply(r: Ring, op: Op): Ring
  {
    match op case Write(len) => Pinned(r, len) case Ack(len) => Sent(r, len)
  }

  function Replay(r: Ring, ops: seq<Op>): Ring
    decreases |ops|
  {
    if ops == [] then r else Replay(Apply(r, ops[0]), ops[1..])
  }

  /** Lengths of the records written by a run, in order. */
  function Written(ops: seq<Op>): seq<nat>
  {
    if ops == [] then [] else (if ops[0].Write? then [ops[0].len] else []) + Written(ops[1..])
  }

  function AckedBytes(ops: seq<Op>): nat
  {
    if ops == [] then 0 else (if ops[0].Ack? then ops[0].len else 0) + AckedBytes(ops[1..])
  }

  /** Records carry bytes, and the peer never ACKs more than is outstanding. */
  ghost predicate Honest(r: Ring, ops: seq<Op>)
    decreases |ops|
  {
    ops == [] || (&& (ops[0].Write? ==> ops[0].len > 0)
                  && (ops[0].Ack? ==> ops[0].len <= Unacked(r))
                  && Honest(Apply(r, ops[0]), ops[1..]))
  }

  /** The invariant holds along every run, and what is un-ACKed is what was written less what was ACKed. */
  lemma {:induction false} RunConserves(r: Ring, ops: seq<Op>)
    requires Settled(r) && Honest(r, ops)
    ensures Settled(Replay(r, ops))
    ensures Unacked(Replay(r, ops)) == Unacked(r) + Sum(Written(ops)) - AckedBytes(ops)
    decreases |ops|
  {
    if ops != [] {
      var len := ops[0].len;
      if ops[0].Write? {
        PinnedConserves(r, len);
        WrittenCons(ops);
      } else {
        SentConserves(r, len);
        assert Written(ops) == Written(ops[1..]);
      }
      RunConserves(Apply(r, ops[0]), ops[1..]);
    }
  }

  lemma WrittenCons(ops: seq<Op>)
    requires ops != [] && ops[0].Write?
    ensures Written(ops) == [ops[0].len] + Written(ops[1..])
    ensures Sum(Written(ops)) == ops[0].len + Sum(Written(ops[1..]))
  {
    assert Written(ops)[1..] == Written(ops[1..]);
  }

  /**
   FIFO release over any run, however its ACKs are split: the ring holds a suffix of the
   records ever written, in write order.
   */
  lemma {:induction false} RunIsFifo(r: Ring, ops: seq<Op>) returns (k: nat)
    requires Settled(r) && Honest(r, ops)
    ensures k <= |r.lens + Written(ops)| && Replay(r, ops).lens == (r.lens + Written(ops))[k..]
    decreases |ops|
  {
    if ops == [] {
      k := 0;
      assert r.lens + Written(ops) == r.lens;
    } else if ops[0].Write? {
      PinnedConserves(r, ops[0].len);
      k := RunIsFifo(Pinned(r, ops[0].len), ops[1..]);
      WrittenCons(ops);
      MoveOver(r.lens, ops[0].len, Written(ops[1..]));
    } else {
      SentConserves(r, ops[0].len);
      var m := RunIsFifo(Sent(r, ops[0].len), ops[1..]);
      k := AckThenFifo(r, ops[0].len, Written(ops[1..]), m);
      assert Written(ops) == Written(ops[1..]);
    }
  }

  lemma MoveOver(lens: seq<nat>, len: nat, w: seq<nat>)
    ensures (lens + [len]) + w == lens + ([len] + w)
  {
  }

  /** An ACK drops a prefix, so dropping `m` afterwards drops a longer one. */
  lemma AckThenFifo(r: Ring, acked: nat, w: seq<nat>, m: nat) returns (k: nat)
    requires Settled(r) && m <= |Sent(r, acked).lens + w|
    ensures k <= |r.lens + w| && (Sent(r, acked).lens + w)[m..] == (r.lens + w)[k..]
  {
    var j := ReleaseExact(r.(acked := r.acked + acked));
    DropTwice(r.lens, w, j, m);
    k := j + m;
  }

  lemma DropTwice(lens: seq<nat>, w: seq<nat>, j: nat, m: nat)
    requires j <= |lens| && m <= |lens[j..] + w|
    ensures (lens[j..] + w)[m..] == (lens + w)[j + m..]
  {
  }

  /**
   From an empty ring, record `i` of a run is released exactly when the cumulative ACKed
   bytes cover records 0 to `i`.
   */
  lemma ReleasedExactlyWhenCovered(ops: seq<Op>, i: nat)
    requires Honest(Ring([], 0), ops) && i < |Written(ops)|
    ensures var held := |Replay(Ring([], 0), ops).lens|;
      i < |Written(ops)| - held <==> Sum(Written(ops)[..i + 1]) <= AckedBytes(ops)
  {
    var r := Replay(Ring([], 0), ops);
    var w := Written(ops);
    var k := RunIsFifo(Ring([], 0), ops);
    assert [] + w == w;
    RunConserves(Ring([], 0), ops);
    SumPrefix(w, k);
    CoverageAt(w, k, i, r.acked);
  }

  /** With `k` records released and `over` bytes towards the next, exactly the first `k` are covered. */
  lemma CoverageAt(w: seq<nat>, k: nat, i: nat, over: nat)
    requires k <= |w| && i < |w|
    requires k < |w| ==> over < w[k]
    ensures i < k <==> Sum(w[..i + 1]) <= Sum(w[..k]) + over
  {
    if i < k {
      SumMonotone(w, i + 1, k);
    } else {
      SumMonotone(w, k + 1, i + 1);
      assert w[..k + 1] == w[..k] + [w[k]];
      SumConcat(w[..k], [w[k]]);
      assert Sum([w[k]]) == w[k] by { assert [w[k]][1..] == []; }
    }
  }

  lemma SumMonotone(lens: seq<nat>, a: nat, b: nat)
    requires a <= b <= |lens|
    ensures Sum(lens[..a]) <= Sum(lens[..b])
  {
    assert lens[..b][..a] == lens[..a];
    SumPrefix(lens[..b], a);
  }

  // ---- The slots ----

  /** The slot of the `i`-th pinned record, oldest first, when `next` is the write cursor. */
  function Slot(K: nat, next: nat, pinned: nat, i: nat): (slot: nat)
    requires next < K && i < pinned <= K
    ensures slot < K
  {
    if next + i >= pinned then next + i - pinned else next + i + K - pinned
  }

  function LensOf(buf: seq<uint16>, next: nat, pinned: nat): (lens: seq<nat>)
    requires next < |buf| && pinned <= |buf|
    ensures |lens| == pinned
  {
    seq(pinned, i requires 0 <= i < pinned => buf[Slot(|buf|, next, pinned, i)] as nat)
  }

  /** Reduction modulo K of anything below 2K is one conditional subtraction. */
  lemma ModOnce(x: nat, K: nat)
    requires 0 < K && x < 2 * K
    ensures x % K == if x < K then x else x - K
  {
    if x >= K {
      assert x == K + (x - K);
    }
  }

  /** Filling the slot at the cursor and advancing it appends one record and disturbs none. */
  lemma PinLens(buf: seq<uint16>, next: nat, pinned: nat, len: uint16)
    requires next < |buf| && pinned < |buf|
    ensures LensOf(buf[next := len], (next + 1) % |buf|, pinned + 1) == LensOf(buf, next, pinned) + [len as nat]
  {
    var K := |buf|;
    ModOnce(next + 1, K);
    var next' := (next + 1) % K;
    assert Slot(K, next', pinned + 1, pinned) == next;
    forall i | 0 <= i < pinned
      ensures Slot(K, next', pinned + 1, i) == Slot(K, next, pinned, i) != next
    {
    }
  }

  /** Clearing the oldest slot and unpinning it drops the first record and disturbs none. */
  lemma UnpinLens(buf: seq<uint16>, next: nat, pinned: nat)
    requires next < |buf| && 0 < pinned <= |buf|
    ensures LensOf(buf, next, pinned)[0] == buf[Slot(|buf|, next, pinned, 0)] as nat
    ensures LensOf(buf[Slot(|buf|, next, pinned, 0) := 0], next, pinned - 1) == LensOf(buf, next, pinned)[1..]
    ensures (next + |buf| - pinned) % |buf| == Slot(|buf|, next, pinned, 0)
  {
    var K := |buf|;
    ModOnce(next + K - pinned, K);
    var cleared := buf[Slot(K, next, pinned, 0) := 0];
    var before, after := LensOf(buf, next, pinned), LensOf(cleared, next, pinned - 1);
    forall i | 0 <= i < pinned - 1 ensures after[i] == before[i + 1] {
      assert Slot(K, next, pinned - 1, i) == Slot(K, next, pinned, i + 1) != Slot(K, next, pinned, 0);
    }
  }

  class SlotRing {
    const K: nat                          // SSL_RECORD_RING_SLOTS
    const ringLen: array<uint16>          // out_ring_len
    var next: nat                         // out_ring_next
    var pinned: nat                       // out_ring_pinned
    var acked: uint32                     // out_ring_acked

    ghost predicate Shape()
      reads this
    {
      0 < K == ringLen.Length <= 255 && next < K && pinned <= K
    }

    ghost function Contents(): Ring
      requires Shape()
      reads this, ringLen
    {
      Ring(LensOf(ringLen[..], next, pinned), acked as nat)
    }

    ghost predicate Valid()
      reads this, ringLen
    {
      && Shape()
      && Settled(Contents())
      && acked < 0x1_0000
    }

    constructor (K: nat)
      requires 0 < K <= 255
      ensures Valid() && this.K == K && fresh(ringLen) && Contents() == Ring([], 0)
    {
      this.K := K;
      ringLen := new uint16[K](_ => 0);
      next, pinned, acked := 0, 0, 0;
    }

    /** The successful branch of the record emitter in process_ssl_engine. */
    method Pin(len: uint16)
      requires Valid() && pinned < K && len > 0
      modifies this`next, this`pinned, ringLen
      ensures Valid() && Contents() == Pinned(old(Contents()), len as nat)
    {
      PinLens(ringLen[..], next, pinned, len);
      PinnedConserves(Contents(), len as nat);
      var slot := next;
      ringLen[slot] := len;
      next := (slot + 1) % K;
      pinned := pinned + 1;
    }

    /** Whether the accumulator covers the oldest record; if so, charge it and release the slot. */
    method ReleaseOldest() returns (released: bool)
      requires Shape() && pinned > 0
      modifies this`pinned, this`acked, ringLen
      ensures Shape()
      ensures released <==> old(Contents()).acked >= old(Contents()).lens[0]
      ensures released ==> pinned == old(pinned) - 1
      ensures Contents() == if released
                            then Ring(old(Contents()).lens[1..], old(Contents()).acked - old(Contents()).lens[0])
                            else old(Contents())
    {
      UnpinLens(ringLen[..], next, pinned);
      var oldest := (next + K - pinned) % K;
      released := acked >= ringLen[oldest] as uint32;
      if released {
        acked := acked - ringLen[oldest] as uint32;
        ringLen[oldest] := 0;
        pinned := pinned - 1;
      }
    }

    /**
     `tcp_ssl_sent`.  The 32-bit accumulator never wraps: at rest it stays below one
     record, and one ACK adds less than 64 KiB.
     */
    method AckBytes(n: uint16)
      requires Valid()
      modifies this`pinned, this`acked, ringLen
      ensures Valid() && Contents() == Sent(old(Contents()), n as nat)
    {
      ghost var r := Contents();
      SentConserves(r, n as nat);
      acked := acked + n as uint32;
      while pinned > 0
        invariant Shape() && next == old(next)
        invariant Release(Contents()) == Sent(r, n as nat)
        decreases pinned
      {
        var released := ReleaseOldest();
        if !released {
          break;
        }
      }
      if pinned == 0 {
        acked := 0;  // anchor; keep the total from creeping
      }
      assert Contents() == Sent(r, n as nat);
      if pinned > 0 {
        assert Contents().acked < Contents().lens[0];
      }
    }
  }
}
