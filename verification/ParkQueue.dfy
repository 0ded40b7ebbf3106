/**
 The parked-connection admission queue (AsyncTCPParkQueue.h and the ESP32 side of
 AsyncSecureServer.cpp): a static pool of slots with a round-robin allocator, an intrusive
 FIFO threaded through the slots, and a count.  Every method is proved against the
 operation of ParkDesk it carries out.
 */
module ParkQueue {
  import opened Common
  import opened PbufChain
  import opened ParkDesk

  /** A pool slot; free while its pcb is null. */
  class PendingPcb {
    var pcb: Pcb
    var pb: seq<Counted<Pbuf>>         // the buffered chain, delivery by delivery
    var pbLen: nat
    var parkedMs: nat
    var next: PendingPcb?
    ghost var ticket: nat

    constructor ()
      ensures pcb == NULL_PCB && next == null
    {
      pcb, pb, pbLen, parkedMs, next, ticket := NULL_PCB, [], 0, 0, null, 0;
    }
  }

  /** `head` leads through exactly the slots `q`, in order, to null. */
  ghost predicate Linked(head: PendingPcb?, q: seq<PendingPcb>)
    reads q
  {
    && head == First(q)
    && (forall i {:trigger q[i].next} :: 0 <= i < |q| ==> q[i].next == if i + 1 < |q| then q[i + 1] else null)
  }

  ghost function First(q: seq<PendingPcb>): PendingPcb?
  {
    if q == [] then null else q[0]
  }

  /** The queue consists of pool slots. */
  ghost predicate InPool(pool: seq<PendingPcb>, q: seq<PendingPcb>)
  {
    forall i :: 0 <= i < |q| ==> q[i] in pool
  }

  /** More slots than queue entries: some slot is not queued. */
  lemma {:induction false} SomeSlotFree(pool: seq<PendingPcb>, q: seq<PendingPcb>) returns (k: nat)
    requires Distinct(pool) && |q| < |pool|
    ensures k < |pool| && pool[k] !in q
  {
    var slots, queued := set n | n in pool, set n | n in q;
    SetOfSeq(pool);
    SetOfSeqBound(q);
    if slots <= queued {
      SubsetSize(slots, queued);
    }
    var free :| free in slots && free !in queued;
    k :| 0 <= k < |pool| && pool[k] == free;
  }

  lemma {:induction false} SetOfSeq(s: seq<PendingPcb>)
    requires Distinct(s)
    ensures |set n | n in s| == |s|
  {
    if s != [] {
      SetOfSeq(s[1..]);
      assert (set n | n in s) == (set n | n in s[1..]) + {s[0]};
      assert s[0] !in s[1..];
    } else {
      assert (set n | n in s) == {};
    }
  }

  lemma {:induction false} SetOfSeqBound(s: seq<PendingPcb>)
    ensures |set n | n in s| <= |s|
  {
    if s != [] {
      SetOfSeqBound(s[1..]);
      assert (set n | n in s) == (set n | n in s[1..]) + {s[0]};
    } else {
      assert (set n | n in s) == {};
    }
  }

  lemma {:induction false} SubsetSize<T>(a: set<T>, b: set<T>)
    requires a <= b
    ensures |a| <= |b|
    decreases a
  {
    if a != {} {
      var x :| x in a;
      SubsetSize(a - {x}, b - {x});
    }
  }

  /** The cursor `d` places after `start`, on a wheel of N slots. */
  function Position(N: nat, start: nat, d: nat): (k: nat)
    requires start < N && d <= N
    ensures k < N
  {
    if start + d < N then start + d else start + d - N
  }

  lemma CursorSteps(N: nat, start: nat, d: nat)
    requires start < N && d < N
    ensures (Position(N, start, d) + 1) % N == Position(N, start, d + 1)
  {
    var x := Position(N, start, d) + 1;
    if x == N {
      assert N % N == 0;
    } else {
      assert x % N == x;
    }
  }

  /** N consecutive cursor positions visit every slot. */
  lemma CursorReaches(N: nat, start: nat, k: nat) returns (d: nat)
    requires start < N && k < N
    ensures d < N && Position(N, start, d) == k
  {
    d := if k >= start then k - start else k + N - start;
  }

  datatype Reply = Ok | Aborted

  /** What admission did with a new connection. */
  datatype Admission = ParkedNow | Refused | ServedNow(serve: Serve)

  ghost function EntriesOf(q: seq<PendingPcb>): (r: seq<Entry>)
    reads q
    ensures |r| == |q|
  {
    seq(|q|, i requires 0 <= i < |q| reads q => Entry(q[i].pcb, Plain(q[i].pb), q[i].parkedMs, q[i].ticket))
  }

  ghost function Cut(q: seq<PendingPcb>, k: nat): seq<PendingPcb>
    requires k < |q|
  {
    q[..k] + q[k + 1..]
  }

  lemma CutMembers(q: seq<PendingPcb>, k: nat)
    requires Distinct(q) && k < |q|
    ensures forall n :: n in Cut(q, k) <==> n in q && n != q[k]
  {
  }

  /** What the server does to buffers and pcbs through lwIP, and what becomes of each connection by it. */
  class Network {
    var freed: seq<Pbuf>                  // given back to the pool by pbuf_free
    ghost var stranded: seq<Pbuf>         // behind the point where a pbuf_free stopped
    var staged: seq<Pbuf>                 // stashed in a client
    var aborted: seq<Pcb>                 // tcp_abort
    ghost var arrived: seq<Pbuf>          // delivered to connections in our care
    ghost var fate: map<nat, Fate>
    ghost var pcbOf: map<nat, Pcb>
    ghost var promoted: seq<nat>
    ghost var tickets: nat

    constructor ()
      ensures freed == stranded == staged == arrived == [] && aborted == [] && promoted == []
      ensures fate == map[] && pcbOf == map[] && tickets == 0
    {
      freed, stranded, staged, aborted := [], [], [], [];
      arrived, fate, pcbOf, promoted, tickets := [], map[], map[], [], 0;
    }

    ghost function Books(): Ledger
      reads this
    {
      Ledger(fate, pcbOf, promoted, arrived, freed, stranded, staged, aborted)
    }

    /** A new connection is parked under the next ticket. */
    ghost method Issue(pcb: Pcb)
      modifies `fate, `pcbOf, `tickets
      ensures tickets == old(tickets) + 1
      ensures fate == old(fate)[old(tickets) := Parked] && pcbOf == old(pcbOf)[old(tickets) := pcb]
    {
      fate, pcbOf, tickets := fate[tickets := Parked], pcbOf[tickets := pcb], tickets + 1;
    }

    /** `pbuf_free`: the walk along the chain, up to the first pbuf still referred to. */
    method PbufFree(chain: seq<Counted<Pbuf>>)
      modifies `freed, `stranded
      ensures freed == old(freed) + Plain(chain[..Released(chain)])
      ensures stranded == old(stranded) + Plain(chain[Released(chain)..])
    {
      var n := Walk(chain);
      freed := freed + Plain(chain[..n]);
      stranded := stranded + Plain(chain[n..]);
    }

    /** Freeing what a parked connection buffered gives back its first delivery only. */
    method FreeAppended(chain: seq<Counted<Pbuf>>)
      requires Appended(chain)
      modifies `freed, `stranded
      ensures freed == old(freed) + GivenBack(Plain(chain))
      ensures stranded == old(stranded) + LeftBehind(Plain(chain))
    {
      AppendedReleases(chain);
      PbufFree(chain);
    }

    /** A delivery nobody chained goes back whole. */
    method FreeDelivery(pb: Pbuf)
      modifies `freed, `stranded
      ensures freed == old(freed) + GivenBack([pb]) && stranded == old(stranded) + LeftBehind([pb])
    {
      assert Plain([Counted(pb, 1)]) == [pb];
      FreeAppended([Counted(pb, 1)]);
    }

    method StageStaged(chain: seq<Counted<Pbuf>>)
      modifies `staged
      ensures staged == old(staged) + Plain(chain)
    {
      staged := staged + Plain(chain);
    }

    /** lwIP frees the pcb; `t` is its ticket, if it was ever parked. */
    method TcpAbort(pcb: Pcb, ghost t: Option<nat>)
      modifies `aborted, `fate
      ensures aborted == old(aborted) + [pcb]
      ensures fate == if t.Some? then old(fate)[t.value := Gone] else old(fate)
    {
      aborted := aborted + [pcb];
      fate := if t.Some? then fate[t.value := Gone] else fate;
    }
  }

  class SecureServer {
    const pool: seq<PendingPcb>           // pending_pool; its length is SSL_PARKED_SLOTS, and pool_idx a uint8_t
    const limits: Limits                  // the cap fits the uint16_t that counts buffered bytes
    const net: Network
    var poolIdx: nat
    var pending: PendingPcb?
    var parked: nat
    ghost var Queue: seq<PendingPcb>

    /** Buffered bytes are counted exactly and stay within the cap; clocks are 32 bits wide. */
    ghost predicate Sound(n: PendingPcb)
      reads n
    {
      Appended(n.pb) && n.pbLen == ChainLen(Plain(n.pb)) <= limits.rxCap && n.parkedMs < 0x1_0000_0000
    }

    /** The links alone: the queue threads distinct pool slots. */
    ghost predicate Threaded()
      reads this, pool
    {
      && 0 < |pool| <= 255 && Distinct(pool) && poolIdx < |pool|
      && Distinct(Queue) && InPool(pool, Queue)
      && Linked(pending, Queue)
    }

    /**
     What every reachable state keeps: the count is the list's length and within the pool,
     a slot has a pcb exactly when it is in the list, buffered lengths are exact and within
     the cap, and every delivery but a slot's first has a second reference.
     */
    ghost predicate Shape()
      reads this, pool
    {
      && Threaded()
      && parked == |Queue| <= |pool| && limits.rxCap < 0x1_0000
      && (forall n :: n in pool ==> (n.pcb != NULL_PCB <==> n in Queue))
      && (forall n :: n in Queue ==> Sound(n))
    }

    /** The abstract queue and its ledger. */
    ghost function View(): Desk
      reads this, Queue, net
    {
      Desk(EntriesOf(Queue), net.tickets, net.Books())
    }

    constructor (slots: seq<PendingPcb>, limits: Limits)
      requires 0 < |slots| <= 255 && Distinct(slots)
      requires limits.rxCap < 0x1_0000
      requires forall n :: n in slots ==> n.pcb == NULL_PCB
      ensures Shape() && View() == Empty() && pool == slots && this.limits == limits && fresh(net)
    {
      pool, poolIdx, pending, parked := slots, 0, null, 0;
      this.limits := limits;
      net := new Network();
      Queue := [];
    }

    // What goes out through lwIP leaves the queue alone and shows in the ledger only.

    method FreeBuffered(chain: seq<Counted<Pbuf>>)
      requires Shape() && Appended(chain)
      modifies net`freed, net`stranded
      ensures Shape() && View() == Free(old(View()), Plain(chain))
    {
      net.FreeAppended(chain);
    }

    method FreeDelivery(pb: Pbuf)
      requires Shape()
      modifies net`freed, net`stranded
      ensures Shape() && View() == Free(old(View()), [pb])
    {
      net.FreeDelivery(pb);
    }

    method StageChain(chain: seq<Counted<Pbuf>>)
      requires Shape()
      modifies net`staged
      ensures Shape() && View() == Stage(old(View()), Plain(chain))
    {
      net.StageStaged(chain);
    }

    method AbortHeld(pcb: Pcb, ghost t: nat)
      requires Shape()
      modifies net`aborted, net`fate
      ensures Shape() && View() == Settle(Abort(old(View()), pcb), t, Gone)
    {
      net.TcpAbort(pcb, Some(t));
    }

    ghost method SettleFate(t: nat, f: Fate)
      requires Shape()
      modifies net`fate
      ensures Shape() && View() == Settle(old(View()), t, f)
    {
      net.fate := net.fate[t := f];
    }

    ghost method Arrived(pb: Pbuf)
      requires Shape()
      modifies net`arrived
      ensures Shape() && View() == Arrive(old(View()), pb)
    {
      net.arrived := net.arrived + [pb];
    }

    /** `park_alloc`: one round-robin sweep finds a free slot whenever the queue is not full. */
    method ParkAlloc() returns (s: PendingPcb?)
      requires Shape()
      modifies `poolIdx
      ensures Shape()
      ensures parked < |pool| ==> s != null
      ensures s != null ==> s in pool && s.pcb == NULL_PCB && s !in Queue
    {
      s := null;
      var N := |pool|;
      ghost var start := poolIdx;
      var i := 0;
      while i < N
        invariant 0 <= i <= N
        invariant poolIdx == Position(N, start, i)
        invariant forall d :: 0 <= d < i ==> pool[Position(N, start, d)].pcb != NULL_PCB
      {
        var cand := pool[poolIdx];
        CursorSteps(N, start, i);
        poolIdx := (poolIdx + 1) % N;
        if cand.pcb == NULL_PCB {
          return cand;
        }
        i := i + 1;
      }
      if parked < N {
        var k := SomeSlotFree(pool, Queue);
        var d := CursorReaches(N, start, k);
      }
    }

    /** The lookup at the head of every callback: the queued slot of this pcb, if any. */
    method Lookup(pcb: Pcb) returns (p: PendingPcb?, ghost k: nat)
      requires Shape()
      ensures ParkDesk.Find(View().queue, pcb) == if p == null then |Queue| else k
      ensures p != null ==> k < |Queue| && p == Queue[k] && p.pcb == pcb && p in Queue
      ensures p != null ==> (k == 0 <==> pending == p)
    {
      p, k := pending, 0;
      while p != null && p.pcb != pcb
        invariant 0 <= k <= |Queue|
        invariant p == if k < |Queue| then Queue[k] else null
        invariant forall i :: 0 <= i < k ==> Queue[i].pcb != pcb
        decreases |Queue| - k
      {
        p := p.next;
        k := k + 1;
      }
      assert forall i :: 0 <= i < |Queue| ==> View().queue[i].pcb == Queue[i].pcb;
      FoundAt(View().queue, pcb, k);
    }

    /** The walk of `unlink_pending` to the slot before `p`. */
    method Predecessor(p: PendingPcb, ghost k: nat) returns (cur: PendingPcb)
      requires Threaded() && 0 < k < |Queue| && p == Queue[k]
      ensures cur == Queue[k - 1]
    {
      cur := pending;
      ghost var i := 0;
      while cur.next != null && cur.next != p
        invariant 0 <= i < k && cur == Queue[i]
        decreases k - i
      {
        cur := cur.next;
        i := i + 1;
      }
      assert cur.next == Queue[i + 1];
    }

    /** `unlink_pending`: fixes the head, middle and tail cases. */
    method UnlinkPending(p: PendingPcb, ghost k: nat)
      requires Threaded() && k < |Queue| && p == Queue[k]
      modifies this`pending, this`Queue, pool`next
      ensures Threaded() && Queue == Cut(old(Queue), k)
    {
      if pending == p {
        pending := p.next;
      } else {
        var cur := Predecessor(p, k);
        assert cur in pool;
        cur.next := p.next;
      }
      Queue := Cut(Queue, k);
    }

    /** `p` has left the list but not yet been given back: the count and its pcb still include it. */
    ghost predicate Leaving(p: PendingPcb)
      reads this, pool
    {
      && Threaded()
      && p in pool && p !in Queue
      && parked == |Queue| + 1 <= |pool| && limits.rxCap < 0x1_0000
      && (forall n :: n in pool && n != p ==> (n.pcb != NULL_PCB <==> n in Queue))
      && (forall n :: n in Queue ==> Sound(n))
    }

    /** Unlinking takes one entry out of the abstract queue. */
    method TakeOut(p: PendingPcb, ghost k: nat)
      requires Threaded() && k < |Queue| && p == Queue[k]
      modifies this`pending, this`Queue, pool`next
      ensures Threaded() && Queue == Cut(old(Queue), k)
      ensures EntriesOf(Queue) == Without(old(EntriesOf(Queue)), k)
    {
      ghost var q := Queue;
      UnlinkPending(p, k);
      SameEntries(q);
      EntriesCut(q, k);
    }

    /** Unlinking leaves that slot the only one out of step and changes no other slot's contents. */
    method UnlinkEntry(p: PendingPcb, ghost k: nat)
      requires Shape() && k < |Queue| && p == Queue[k]
      modifies `pending, `Queue, pool`next
      ensures Leaving(p)
      ensures EntriesOf(Queue) == Without(old(EntriesOf(Queue)), k)
    {
      ghost var q := Queue;
      CutMembers(q, k);
      assert p in pool;
      TakeOut(p, k);
      forall n | n in Queue ensures Sound(n) {
        assert n in q && old(Sound(n));
      }
      forall n | n in pool && n != p ensures n.pcb != NULL_PCB <==> n in Queue {
        assert n in Queue <==> n in q;
      }
    }

    /** Rewriting next fields does not change what the slots hold. */
    twostate lemma SameEntries(q: seq<PendingPcb>)
      requires forall n :: n in q ==> n.pcb == old(n.pcb) && n.pb == old(n.pb) && n.parkedMs == old(n.parkedMs) && n.ticket == old(n.ticket)
      ensures EntriesOf(q) == old(EntriesOf(q))
    {
    }

    static lemma EntriesCut(q: seq<PendingPcb>, k: nat)
      requires k < |q|
      ensures EntriesOf(Cut(q, k)) == Without(EntriesOf(q), k)
    {
    }

    /** An unlinked slot becomes free. */
    method FreeSlot(p: PendingPcb)
      requires Leaving(p)
      modifies `parked, p`pcb
      ensures Shape() && EntriesOf(Queue) == old(EntriesOf(Queue))
    {
      parked := parked - 1;
      p.pcb := NULL_PCB;
      assert forall n :: n in Queue ==> n != p && Sound(n);
    }

    /** A queued slot goes back to the pool, with what it held reported. */
    method Release(p: PendingPcb, ghost k: nat) returns (pcb: Pcb, pb: seq<Counted<Pbuf>>, ghost t: nat)
      requires Shape() && k < |Queue| && p == Queue[k]
      modifies `pending, `Queue, `parked, pool`next, pool`pcb
      ensures Shape() && View() == old(View()).(queue := Without(old(View()).queue, k))
      ensures var e := old(View()).queue[k]; pcb == e.pcb && Plain(pb) == e.pb && Appended(pb) && t == e.ticket
    {
      pcb, pb, t := p.pcb, p.pb, p.ticket;
      UnlinkEntry(p, k);
      FreeSlot(p);
    }

    /** Shedding: the slot is released and its buffered bytes freed, then the pcb gets its RST. */
    method ShedParked(p: PendingPcb, ghost k: nat)
      requires Shape() && k < |Queue| && p == Queue[k]
      modifies `pending, `Queue, `parked, pool`next, pool`pcb, net`freed, net`stranded, net`aborted, net`fate
      ensures Shape() && View() == Shed(old(View()), k)
    {
      var pcb, pb, t := Release(p, k);
      FreeBuffered(pb);
      AbortHeld(pcb, t);
    }

    /** The tail walk of `_acceptTls`: links a filled slot behind the last one. */
    method LinkTail(p: PendingPcb)
      requires Threaded() && p in pool && p !in Queue && p.next == null
      requires Sound(p) && forall n :: n in Queue ==> Sound(n)
      modifies this`pending, this`Queue, pool`next
      ensures Threaded() && Queue == old(Queue) + [p]
      ensures forall n :: n in Queue <==> n in old(Queue) || n == p
      ensures forall n :: n in Queue ==> Sound(n)
      ensures EntriesOf(Queue) == old(EntriesOf(Queue)) + [Entry(p.pcb, Plain(p.pb), p.parkedMs, p.ticket)]
    {
      if pending == null {
        pending := p;
      } else {
        var cur: PendingPcb := pending;
        ghost var i := 0;
        while cur.next != null
          invariant 0 <= i < |Queue| && cur == Queue[i]
          decreases |Queue| - i
        {
          cur := cur.next;
          i := i + 1;
        }
        assert cur in pool;
        cur.next := p;
      }
      Queue := Queue + [p];
    }

    /** `p` has been filled but is not in the list yet. */
    ghost predicate Filled(p: PendingPcb)
      reads this, pool, p
    {
      && Threaded()
      && p in pool && p !in Queue && p.next == null && p.pcb != NULL_PCB
      && parked == |Queue| < |pool| && limits.rxCap < 0x1_0000
      && (forall n :: n in pool && n != p ==> (n.pcb != NULL_PCB <==> n in Queue))
      && Sound(p) && (forall n :: n in Queue ==> Sound(n))
    }

    /** Everything holds but the count, which lacks the newest entry. */
    ghost predicate Entering()
      reads this, pool
    {
      && Threaded()
      && parked + 1 == |Queue| <= |pool| && limits.rxCap < 0x1_0000
      && (forall n :: n in pool ==> (n.pcb != NULL_PCB <==> n in Queue))
      && (forall n :: n in Queue ==> Sound(n))
    }

    /** Writing a free slot disturbs nothing queued. */
    method WriteSlot(p: PendingPcb, pcb: Pcb, now: nat)
      requires Shape() && p in pool && p !in Queue && parked < |pool|
      requires pcb != NULL_PCB && now < 0x1_0000_0000
      modifies p
      ensures Filled(p) && EntriesOf(Queue) == old(EntriesOf(Queue))
      ensures Entry(p.pcb, Plain(p.pb), p.parkedMs, p.ticket) == Entry(pcb, [], now, net.tickets)
    {
      p.pcb, p.pb, p.pbLen, p.parkedMs, p.next := pcb, [], 0, now, null;
      p.ticket := net.tickets;
      assert forall n :: n in Queue ==> n != p && Sound(n);
    }

    /** A filled slot joins the queue, with every other slot as it was. */
    method LinkSlot(p: PendingPcb)
      requires Filled(p)
      modifies this`pending, this`Queue, pool`next
      ensures Entering()
      ensures EntriesOf(Queue) == old(EntriesOf(Queue)) + [Entry(p.pcb, Plain(p.pb), p.parkedMs, p.ticket)]
    {
      LinkTail(p);
    }

    /** The newest entry is counted. */
    method CountIn()
      requires Entering()
      modifies `parked
      ensures Shape()
    {
      parked := parked + 1;
    }

    /** A free slot is filled and joins the queue. */
    method EnterSlot(p: PendingPcb, pcb: Pcb, now: nat)
      requires Shape() && p in pool && p !in Queue && parked < |pool|
      requires pcb != NULL_PCB && now < 0x1_0000_0000
      modifies `pending, `Queue, `parked, pool
      ensures Shape() && EntriesOf(Queue) == old(EntriesOf(Queue)) + [Entry(pcb, [], now, net.tickets)]
    {
      WriteSlot(p, pcb, now);
      LinkSlot(p);
      CountIn();
    }

    /** Parking a new connection in a free slot. */
    method FillSlot(p: PendingPcb, pcb: Pcb, now: nat)
      requires Shape() && p in pool && p !in Queue && parked < |pool|
      requires pcb != NULL_PCB && now < 0x1_0000_0000
      modifies `pending, `Queue, `parked, pool, net`fate, net`pcbOf, net`tickets
      ensures Shape() && View() == Park(old(View()), pcb, now)
    {
      EnterSlot(p, pcb, now);
      net.Issue(pcb);
    }

    /** `_acceptTls`: serve while budget remains, else park while a slot is free, else refuse. */
    method AcceptTls(pcb: Pcb, now: nat, live: nat, serve: Serve) returns (r: Admission)
      requires Shape() && NewPcb(View(), pcb) && now < 0x1_0000_0000
      modifies this, pool, net
      ensures Shape()
      ensures r == if live < limits.maxLive then ServedNow(serve)
                   else if old(parked) < |pool| then ParkedNow else Refused
      ensures View() == if r == ParkedNow then Park(old(View()), pcb, now)
                        else if r == ServedNow(Served) then old(View()) else Abort(old(View()), pcb)
    {
      if live >= limits.maxLive {
        if parked < |pool| {
          var p := ParkAlloc();
          FillSlot(p, pcb, now);
          return ParkedNow;
        }
        net.TcpAbort(pcb, None);
        return Refused;
      }
      // A pcb that was never parked has no error callback of ours, and nothing is staged.
      if serve != Served {
        net.TcpAbort(pcb, None);
      }
      r := ServedNow(serve);
    }

    /** A slot outside the queue forgets what it held. */
    method ForgetBuffers(p: PendingPcb)
      requires Shape() && p in pool && p !in Queue
      modifies p`pb
      ensures Shape() && View() == old(View())
    {
      p.pb := [];
      assert forall n :: n in Queue ==> n != p && Sound(n);
    }

    /** Popping the FIFO head for promotion. */
    method PopHead() returns (pcb: Pcb, staged: seq<Counted<Pbuf>>, ghost t: nat)
      requires Shape() && pending != null
      modifies `pending, `Queue, `parked, pool`pcb, pool`pb, net`promoted
      ensures Shape() && View() == Pop(old(View()))
      ensures var e := old(View()).queue[0]; pcb == e.pcb && Plain(staged) == e.pb && Appended(staged) && t == e.ticket
    {
      var p: PendingPcb := pending;
      ghost var e;
      pcb := p.pcb;
      staged, e := DropHead();
      ForgetBuffers(p);
      t := e.ticket;
      net.promoted := net.promoted + [t];
    }

    /**
     `_serveTls` for a connection popped from the queue.  Aborting the pcb before a client
     has rebound its callbacks makes lwIP call `_s_error` from inside tcp_abort.
     */
    method ServePromoted(pcb: Pcb, staged: seq<Counted<Pbuf>>, serve: Serve, ghost t: nat) returns (r: Reply)
      requires Shape() && Appended(staged)
      modifies this, pool, net
      ensures Shape()
      ensures r == if serve == Served then Ok else Aborted
      ensures View() == match serve
        case Served => Settle(Stage(old(View()), Plain(staged)), t, Handed)
        case NoClient => Drain(Settle(Abort(old(View()), pcb), t, Gone), pcb)
        case NoEvent => Settle(Abort(Stage(old(View()), Plain(staged)), pcb), t, Gone)
    {
      match serve
      case Served =>
        StageChain(staged);
        SettleFate(t, Handed);
        r := Ok;
      case NoClient =>
        AbortHeld(pcb, t);
        SError(pcb, t);
        r := Aborted;
      case NoEvent =>
        StageChain(staged);
        AbortHeld(pcb, t);
        r := Aborted;
    }

    /** `_promoteSlot`: the head, if there is one and live budget allows. */
    method PromoteSlot(live: nat, serve: Serve) returns (r: Reply)
      requires Shape()
      modifies this, pool, net
      ensures Shape()
      ensures View() == if old(View()).queue == [] || live >= limits.maxLive then old(View())
                        else Promote(old(View()), serve)
      ensures r == if old(View()).queue == [] || live >= limits.maxLive || serve == Served then Ok else Aborted
    {
      if pending == null || live >= limits.maxLive {
        return Ok;
      }
      var pcb, staged, t := PopHead();
      r := ServePromoted(pcb, staged, serve, t);
      if r != Ok {
        FreeBuffered(staged);
      }
    }

    /** The poll of a connection found in the queue: shed the idle, promote the head, or nothing. */
    method PollParked(p: PendingPcb, now: nat, live: nat, serve: Serve, ghost k: nat) returns (r: Reply)
      requires Shape() && k < |Queue| && p == Queue[k]
      modifies this, pool, net
      ensures Shape()
      ensures View() == if Elapsed(now, old(p.parkedMs)) > limits.idleMs then Shed(old(View()), k)
                        else if k == 0 && live < limits.maxLive then Promote(old(View()), serve)
                        else old(View())
    {
      if Elapsed(now, p.parkedMs) > limits.idleMs {
        ShedParked(p, k);
        return Aborted;
      }
      if pending == p && live < limits.maxLive {
        r := PromoteSlot(live, serve);
        return;
      }
      r := Ok;
    }

    lemma ClocksFit()
      requires Shape()
      ensures forall i :: 0 <= i < |View().queue| ==> View().queue[i].parkedMs < 0x1_0000_0000
    {
    }

    /** `_s_poll`, called by lwIP for a pcb it still has bound to us. */
    method SPoll(pcb: Pcb, now: nat, live: nat, serve: Serve, ghost t: nat) returns (r: Reply)
      requires Shape()
      requires Allowed(View(), DoReap(t, pcb)) || ParkDesk.Find(View().queue, pcb) < |View().queue|
      modifies this, pool, net
      ensures Shape()
      ensures var op := PollOp(limits, old(View()), pcb, t, now, live, serve);
        (op.Some? ==> Allowed(old(View()), op.value)) && View() == ApplyMaybe(old(View()), op)
    {
      ghost var d := View();
      ClocksFit();
      var p, k := Lookup(pcb);
      PollApplies(limits, d, pcb, t, now, live, serve);
      if p == null {
        AbortHeld(pcb, t);
        return Aborted;
      }
      r := PollParked(p, now, live, serve, k);
    }

    /** Bytes that fit go behind the ones already buffered. */
    method KeepBytes(p: PendingPcb, pb: Pbuf, ghost k: nat)
      requires Shape() && k < |Queue| && p == Queue[k] && p.pbLen + pb.len <= limits.rxCap
      modifies p`pb, p`pbLen
      ensures Shape()
      ensures var e := old(View()).queue[k];
        View() == old(View()).(queue := old(View()).queue[k := e.(pb := e.pb + [pb])])
    {
      ChainLenSnoc(Plain(p.pb), pb);
      AppendedGrows(p.pb, pb);
      p.pb := Chain(p.pb, [Counted(pb, 1)]);  // pbuf_chain, or the first delivery
      p.pbLen := p.pbLen + pb.len;
    }

    /** Buffering bytes for a parked connection, or dropping them over the cap. */
    method BufferParked(p: PendingPcb, pb: Pbuf, ghost k: nat)
      requires Shape() && k < |Queue| && p == Queue[k]
      modifies p`pb, p`pbLen, net`freed, net`stranded, net`arrived
      ensures Shape()
      ensures View() == Receive(old(View()), k, pb, ChainLen(Plain(old(p.pb))) + pb.len <= limits.rxCap)
    {
      Arrived(pb);
      if p.pbLen + pb.len <= limits.rxCap {
        KeepBytes(p, pb, k);
      } else {
        FreeDelivery(pb);
      }
    }

    /** `_s_recv`. */
    method SRecv(pcb: Pcb, pb: Option<Pbuf>) returns (r: Reply)
      requires Shape()
      modifies this, pool, net
      ensures Shape()
      ensures var op := RecvOp(limits, old(View()), pcb, pb);
        (op.Some? ==> Allowed(old(View()), op.value)) && View() == ApplyMaybe(old(View()), op)
    {
      RecvApplies(limits, View(), pcb, pb);
      var p, k := Lookup(pcb);
      if p == null {
        if pb.Some? {
          Arrived(pb.value);
          FreeDelivery(pb.value);
        }
        return Ok;
      }
      assert p in pool;
      if pb.None? {
        ShedParked(p, k);
        return Aborted;
      }
      BufferParked(p, pb.value, k);
      r := Ok;
    }

    /** The head slot goes back to the pool, its pcb untouched. */
    method DropHead() returns (pb: seq<Counted<Pbuf>>, ghost e: Entry)
      requires Shape() && pending != null
      modifies `pending, `Queue, `parked, pool`pcb
      ensures Shape() && old(pending) in pool && old(pending) !in Queue
      ensures e == old(View()).queue[0] && old(pending.pcb) == e.pcb && Plain(pb) == e.pb && Appended(pb)
      ensures View() == old(View()).(queue := old(View()).queue[1..])
    {
      ghost var rest := EntriesOf(Queue)[1..];
      var p: PendingPcb := pending;
      e := EntriesOf(Queue)[0];
      pending := p.next;
      assert p in pool;
      pb := p.pb;
      p.pcb := NULL_PCB;
      parked := parked - 1;
      Queue := Queue[1..];
      assert EntriesOf(Queue) == rest;
    }

    /** One turn of `free_queued_items`. */
    method FreeHead(ghost errored: Pcb)
      requires Shape() && pending != null
      modifies `pending, `Queue, `parked, pool`pcb, net`freed, net`stranded, net`fate
      ensures Shape() && |Queue| == |old(Queue)| - 1
      ensures View() == DrainedHead(old(View()), errored)
    {
      ghost var e;
      var pb;
      pb, e := DropHead();
      FreeBuffered(pb);
      SettleFate(e.ticket, Drained(e, errored));
    }

    /** `_s_error`: lwIP freed `errored`, ticket `t`; the bookkeeping of the whole queue is drained. */
    method SError(ghost errored: Pcb, ghost t: nat)
      requires Shape()
      modifies this, pool, net
      ensures Shape() && parked == 0 && pending == null
      ensures View() == ErrorDesk(old(View()), errored, t)
    {
      ghost var target := ErrorDesk(View(), errored, t);
      if t in net.fate && net.fate[t] == Orphaned {
        SettleFate(t, Gone);
      }
      while pending != null
        invariant Shape()
        invariant Drain(View(), errored) == target
        decreases |Queue|
      {
        FreeHead(errored);
      }
    }
  }
}
