/**
 The inbound ciphertext queue of a BearSSL session (AsyncSecureSession.cpp): received
 pbufs wait, un-ACKed, in a small array and are streamed into the engine's record buffer
 in whatever pieces it has room for.
 */
module InboundStream {
  import opened Common
  import opened PbufChain

  class RxQueue {
    const depth: nat                  // SSL_RX_PEND_MAX; rx_pend_n is a uint8_t
    const rxPend: array<Segment>      // rx_pend: chains, each by its first pbuf and all its bytes
    var rxPendN: nat
    var headOff: nat                  // rx_pend_head_off, a uint16_t
    var freed: seq<nat>               // pbufs given back to lwIP, in order
    ghost var queued: Bytes           // every byte accepted into the queue
    ghost var fed: Bytes              // every byte given to the engine
    ghost var credited: nat           // window credit returned

    ghost predicate Shape()
      reads this, rxPend
    {
      && rxPend.Length == depth <= 255 && rxPendN <= depth
      && (rxPendN == 0 ==> headOff == 0)
      && (rxPendN > 0 ==> headOff <= |rxPend[0].payload|)
      && (forall i :: 0 <= i < rxPendN ==> |rxPend[i].payload| < 0x1_0000)
    }

    /** The pbufs in the queue, oldest first. */
    ghost function Queued(): seq<Segment>
      requires rxPendN <= rxPend.Length
      reads this, rxPend
    {
      rxPend[..rxPendN]
    }

    /** The bytes queued but not yet fed. */
    ghost function Waiting(): Bytes
      requires Shape()
      reads this, rxPend
    {
      FlattenCovers(Payloads(Queued()));
      Flatten(Payloads(Queued()))[headOff..]
    }

    /**
     The stream: fed bytes followed by waiting bytes are all the bytes queued, in order;
     credit is the fed bytes less those of the pbuf still being read.
     */
    ghost predicate Valid()
      reads this, rxPend
    {
      && Shape()
      && fed + Waiting() == queued
      && credited + headOff == |fed|
    }

    constructor (depth: nat)
      requires depth <= 255
      ensures Valid() && this.depth == depth && fresh(rxPend)
      ensures queued == fed == [] && rxPendN == 0 && freed == []
    {
      this.depth := depth;
      rxPend := new Segment[depth](_ => Segment(0, []));
      rxPendN, headOff, freed := 0, 0, [];
      queued, fed, credited := [], [], 0;
    }

    /** The queueing half of `tcp_ssl_read`: takes ownership of the pbuf, or refuses and frees it when full. */
    method Queue(pb: Segment) returns (ok: bool)
      requires Valid() && |pb.payload| < 0x1_0000
      modifies this`rxPendN, this`queued, this`freed, rxPend
      ensures Valid()
      ensures ok <==> old(rxPendN) < depth
      ensures queued == if ok then old(queued) + pb.payload else old(queued)
      ensures freed == if ok then old(freed) else old(freed) + [pb.id]
      ensures Queued() == if ok then old(Queued()) + [pb] else old(Queued())
    {
      if rxPendN >= depth {
        freed := freed + [pb.id];
        return false;
      }
      ghost var chain := Queued();
      WaitingGrows(chain, pb, headOff);
      Associate(fed, Waiting(), pb.payload);
      rxPend[rxPendN] := pb;
      rxPendN := rxPendN + 1;
      assert Queued() == chain + [pb];
      queued := queued + pb.payload;
      ok := true;
    }

    /** memmove: the pbufs behind the head move down one place. */
    method ShiftDown()
      requires 0 < rxPendN <= rxPend.Length
      modifies this`rxPendN, rxPend
      ensures rxPendN == old(rxPendN) - 1 && Queued() == old(Queued())[1..]
    {
      ghost var chain := Queued();
      var n := rxPendN - 1;
      var i := 0;
      while i < n
        invariant 0 <= i <= n
        invariant forall k :: 0 <= k < i ==> rxPend[k] == chain[k + 1]
        invariant forall k :: i < k <= n ==> rxPend[k] == chain[k]
        modifies rxPend
      {
        rxPend[i] := rxPend[i + 1];
        i := i + 1;
      }
      rxPendN := n;
    }

    /** The head pbuf is fully fed: credit it, free it, and shift the others down. */
    method RetireHead()
      requires Valid() && rxPendN > 0 && headOff == |rxPend[0].payload|
      modifies this`rxPendN, this`headOff, this`credited, this`freed, rxPend
      ensures Valid() && headOff == 0
      ensures Queued() == old(Queued())[1..]
      ensures credited == old(credited) + |old(rxPend[0]).payload|
      ensures freed == old(freed) + [old(rxPend[0]).id]
    {
      ghost var chain := Queued();
      RetiredHead(chain);
      credited := credited + |rxPend[0].payload|;
      freed := freed + [rxPend[0].id];
      ShiftDown();
      headOff := 0;
      assert forall k :: 0 <= k < rxPendN ==> rxPend[k] == chain[k + 1];
    }

    /** pbuf_copy_partial into the engine's buffer, acknowledged to the engine. */
    method FeedPiece(toFeed: nat)
      requires Valid() && rxPendN > 0 && headOff + toFeed <= |rxPend[0].payload|
      modifies this`headOff, this`fed
      ensures Valid() && headOff == old(headOff) + toFeed
      ensures fed == old(fed) + rxPend[0].payload[old(headOff)..headOff]
    {
      var head := rxPend[0].payload;
      ghost var all := Payloads(Queued());
      PieceMoves(all, headOff, toFeed);
      assert all[0] == head;
      Associate(fed, head[headOff..headOff + toFeed], Flatten(all)[headOff + toFeed..]);
      fed := fed + head[headOff..headOff + toFeed];
      headOff := headOff + toFeed;
    }

    /** The first `n` pbufs of `all` have been used up and freed, in order. */
    ghost predicate Retired(all: seq<Segment>, n: nat, freed0: seq<nat>)
      requires rxPendN <= rxPend.Length
      reads this, rxPend
    {
      n <= |all| && Queued() == all[n..] && freed == freed0 + Ids(all[..n])
    }

    /** One turn of the streaming loop: a piece of the head, and the head's retirement once it is used up. */
    method FeedHead(available: nat, ghost all: seq<Segment>, ghost n: nat, ghost freed0: seq<nat>) returns (ghost m: nat)
      requires Valid() && rxPendN > 0 && available > 0 && Retired(all, n, freed0)
      modifies this`rxPendN, this`headOff, this`fed, this`credited, this`freed, rxPend
      ensures Valid() && old(fed) <= fed && Retired(all, m, freed0)
      ensures |fed| == old(|fed|) + Piece(old(|rxPend[0].payload|), old(headOff), available)
      ensures m == (if old(headOff) + available >= old(|rxPend[0].payload|) then n + 1 else n)
      ensures headOff == (if m == n then old(headOff) + available else 0)
    {
      var len := |rxPend[0].payload|;
      var toFeed := len - headOff;
      if toFeed > available {
        toFeed := available;
      }
      FeedPiece(toFeed);
      m := n;
      if headOff >= len {
        RetireHead();
        m := n + 1;
        IdsAdvance(all, n);
      }
    }

    /** What is still to come, on top of what was done, makes the whole pass. */
    ghost predicate OnWay(goal: Fed, bytes: int, n: nat, rooms: seq<nat>)
      requires Shape()
      reads this, rxPend
    {
      bytes >= 0 && goal == Onward(bytes, n, Feed(Sizes(Queued()), headOff, rooms))
    }

    /** One turn, with `rooms` the engine's answers from here on. */
    method Turn(available: nat, ghost all: seq<Segment>, ghost n: nat, ghost freed0: seq<nat>,
                ghost goal: Fed, ghost fed0: nat, ghost rooms: seq<nat>) returns (ghost m: nat)
      requires Valid() && rxPendN > 0 && available > 0 && Retired(all, n, freed0)
      requires rooms != [] && rooms[0] == available && OnWay(goal, |fed| - fed0, n, rooms)
      modifies this`rxPendN, this`headOff, this`fed, this`credited, this`freed, rxPend
      ensures Valid() && old(fed) <= fed && Retired(all, m, freed0)
      ensures OnWay(goal, |fed| - fed0, m, rooms[1..])
      ensures m == n + 1 || (m == n && headOff > old(headOff))
    {
      ghost var chain := Queued();
      assert Sizes(chain)[1..] == Sizes(chain[1..]);
      m := FeedHead(available, all, n, freed0);
      assert all[n..][1..] == all[n + 1..] || m == n;
    }

    /**
     The streaming loop of `process_ssl_engine`, where `rooms` is what the engine answers each
     time it is asked for room (0 from then on).  It feeds the engine a prefix of the waiting
     bytes, as many as those answers allow, frees exactly the pbufs it has used up, and stops
     early exactly when the engine reports no room.
     */
    method Stream(rooms: seq<nat>) returns (stalled: bool, ghost n: nat)
      requires Valid()
      modifies this`rxPendN, this`headOff, this`fed, this`credited, this`freed, rxPend
      ensures Valid() && queued == old(queued)
      ensures old(fed) <= fed
      ensures Retired(old(Queued()), n, old(freed))
      ensures Fed(|fed| - old(|fed|), n, stalled) == Feed(Sizes(old(Queued())), old(headOff), rooms)
      ensures !stalled <==> rxPendN == 0
      ensures !stalled ==> fed == queued && credited == |queued|
    {
      n := 0;
      var asked := 0;
      ghost var all, freed0, fed0 := Queued(), freed, |fed|;
      ghost var goal := Feed(Sizes(all), headOff, rooms);
      assert Ids(all[..0]) == [];
      while rxPendN > 0
        invariant Valid() && old(fed) <= fed
        invariant Retired(all, n, freed0)
        invariant asked <= |rooms|
        invariant OnWay(goal, |fed| - fed0, n, rooms[asked..])
        decreases |all| - n, if n < |all| then |all[n].payload| - headOff else 0
      {
        var available := if asked < |rooms| then rooms[asked] else 0;
        if available == 0 {
          return true, n;
        }
        assert rooms[asked..][1..] == rooms[asked + 1..];
        n := Turn(available, all, n, freed0, goal, fed0, rooms[asked..]);
        asked := asked + 1;
      }
      stalled := false;
    }

    /** `tcp_ssl_free_rx_pend`: teardown returns every queued pbuf, un-ACKed. */
    method FreePending()
      requires Shape()
      modifies this`rxPendN, this`headOff, this`freed
      ensures rxPendN == 0 && headOff == 0
      ensures freed == old(freed) + Ids(old(Queued()))
    {
      ghost var ids := Ids(Queued());
      var i := 0;
      while i < rxPendN
        invariant 0 <= i <= rxPendN == old(rxPendN)
        invariant freed == old(freed) + ids[..i]
      {
        assert ids[..i + 1] == ids[..i] + [rxPend[i].id];
        freed := freed + [rxPend[i].id];
        i := i + 1;
      }
      assert ids[..i] == ids;
      rxPendN, headOff := 0, 0;
    }
  }

  /** The payload lengths of a chain. */
  function Sizes(chain: seq<Segment>): (r: seq<nat>)
    ensures |r| == |chain|
  {
    seq(|chain|, i requires 0 <= i < |chain| => |chain[i].payload|)
  }

  /** How much of a head of `len` bytes, read up to `off`, goes into room for `available`. */
  function Piece(len: nat, off: nat, available: nat): nat
    requires off <= len
  {
    if off + available >= len then len - off else available
  }

  /** What a pass feeds: so many bytes, so many pbufs used up, and whether the engine had no room before the end. */
  datatype Fed = Fed(bytes: nat, retired: nat, stalled: bool)

  function Onward(bytes: nat, retired: nat, rest: Fed): Fed
  {
    Fed(bytes + rest.bytes, retired + rest.retired, rest.stalled)
  }

  /** Feeding pbufs of these sizes, the first read up to `off`, to an engine with these rooms. */
  function Feed(sizes: seq<nat>, off: nat, rooms: seq<nat>): Fed
    requires sizes != [] ==> off <= sizes[0]
    decreases |rooms|
  {
    if sizes == [] then Fed(0, 0, false)
    else if rooms == [] || rooms[0] == 0 then Fed(0, 0, true)
    else if off + rooms[0] >= sizes[0] then Onward(sizes[0] - off, 1, Feed(sizes[1..], 0, rooms[1..]))
    else Onward(rooms[0], 0, Feed(sizes, off + rooms[0], rooms[1..]))
  }

  /** Bytes still to be fed of pbufs of these sizes. */
  function Left(sizes: seq<nat>, off: nat): int
  {
    Sum(sizes) - off
  }

  /**
   A pass empties the queue or stops at an answer of no room: with as many positive answers
   as there are bytes and pbufs, it empties it; and it never feeds more than the room given.
   */
  lemma {:induction false} FeedLaws(sizes: seq<nat>, off: nat, rooms: seq<nat>)
    requires sizes != [] ==> off <= sizes[0]
    requires sizes == [] ==> off == 0
    ensures var r := Feed(sizes, off, rooms);
      && r.bytes <= Left(sizes, off) && r.bytes <= Sum(rooms) && r.retired <= |sizes|
      && (!r.stalled <==> r.retired == |sizes|)
      && (!r.stalled ==> r.bytes == Left(sizes, off))
      && (r.stalled ==> 0 in rooms || |rooms| < Left(sizes, off) + |sizes|)
    ensures 0 !in rooms && Feed(sizes, off, rooms).stalled ==> Feed(sizes, off, rooms).bytes >= |rooms| - Feed(sizes, off, rooms).retired
    decreases |rooms|
  {
    if sizes != [] && rooms != [] && rooms[0] != 0 {
      if off + rooms[0] >= sizes[0] {
        FeedLaws(sizes[1..], 0, rooms[1..]);
      } else {
        FeedLaws(sizes, off + rooms[0], rooms[1..]);
      }
    }
  }

  /** An engine with room for a whole pbuf each time takes one pbuf a turn, and one with no room takes nothing. */
  lemma {:induction false} RoomyEngine(sizes: seq<nat>, rooms: seq<nat>, room: nat)
    requires forall i :: 0 <= i < |sizes| ==> sizes[i] <= room
    requires room > 0 && forall i :: 0 <= i < |rooms| ==> rooms[i] == room
    ensures var r := Feed(sizes, 0, rooms);
      && r.retired == (if |rooms| < |sizes| then |rooms| else |sizes|)
      && r.bytes == Sum(sizes[..r.retired])
    decreases |rooms|
  {
    if sizes != [] && rooms != [] {
      RoomyEngine(sizes[1..], rooms[1..], room);
      var r := Feed(sizes, 0, rooms);
      assert sizes[..r.retired][1..] == sizes[1..][..r.retired - 1];
    }
  }

  /** The flattened chain starts with its first payload. */
  lemma FlattenCovers(chain: seq<Bytes>)
    ensures chain != [] ==> |Flatten(chain)| >= |chain[0]| && Flatten(chain)[..|chain[0]|] == chain[0]
    ensures chain != [] ==> Flatten(chain)[|chain[0]|..] == Flatten(chain[1..])
  {
  }

  /** Once its head is used up, what waits is the rest of the chain. */
  lemma RetiredHead(chain: seq<Segment>)
    requires chain != []
    ensures |Flatten(Payloads(chain))| >= |chain[0].payload|
    ensures Flatten(Payloads(chain))[|chain[0].payload|..] == Flatten(Payloads(chain[1..]))
  {
    FlattenCovers(Payloads(chain));
    assert Payloads(chain)[1..] == Payloads(chain[1..]);
  }

  lemma WaitingGrows(chain: seq<Segment>, pb: Segment, off: nat)
    requires off <= |Flatten(Payloads(chain))|
    ensures off <= |Flatten(Payloads(chain + [pb]))|
    ensures Flatten(Payloads(chain + [pb]))[off..] == Flatten(Payloads(chain))[off..] + pb.payload
  {
    assert Payloads(chain + [pb]) == Payloads(chain) + [pb.payload];
    FlattenConcat(Payloads(chain), [pb.payload]);
    assert Flatten([pb.payload]) == pb.payload by { assert [pb.payload][1..] == []; }
  }

  lemma PieceMoves(chain: seq<Bytes>, off: nat, k: nat)
    requires chain != [] && off + k <= |chain[0]|
    ensures |Flatten(chain)| >= |chain[0]|
    ensures chain[0][off..off + k] + Flatten(chain)[off + k..] == Flatten(chain)[off..]
  {
    FlattenCovers(chain);
  }

  lemma IdsAdvance(all: seq<Segment>, n: nat)
    requires n < |all|
    ensures Ids(all[..n]) + [all[n].id] == Ids(all[..n + 1])
    ensures all[n..][1..] == all[n + 1..]
  {
  }

  lemma Associate(a: Bytes, b: Bytes, c: Bytes)
    ensures a + (b + c) == (a + b) + c
  {
  }
}
