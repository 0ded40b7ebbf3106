/**
 The specification of the parked-connection queue: a FIFO of entries and a ledger of what
 became of every connection ever parked and of every byte buffered for one.  ParkQueue
 implements these operations on the static slot pool.
 */
module ParkDesk {
  import opened Common
  import opened PbufChain

  type Pcb = nat

  const NULL_PCB: Pcb := 0

  /** A received pbuf chain: identity and tot_len. */
  datatype Pbuf = Pbuf(id: nat, len: nat)

  datatype Fate =
    | Parked
    | Orphaned        // its bookkeeping was drained by another connection's error; lwIP still has it
    | Handed          // promoted: an AsyncClient owns the pcb
    | Gone            // aborted, or freed by lwIP

  /** A parked connection; `ticket` numbers it in parking order. */
  datatype Entry = Entry(pcb: Pcb, pb: seq<Pbuf>, parkedMs: nat, ticket: nat)

  datatype Ledger = Ledger(
    fate: map<nat, Fate>,
    pcbOf: map<nat, Pcb>,
    promoted: seq<nat>,        // tickets in promotion order
    arrived: seq<Pbuf>,        // delivered to connections in our care
    freed: seq<Pbuf>,          // given back to the pool by pbuf_free
    stranded: seq<Pbuf>,       // behind the point where a pbuf_free stopped, with nobody left to free them
    staged: seq<Pbuf>,         // stashed in a promoted client
    aborted: seq<Pcb>)         // tcp_abort

  datatype Desk = Desk(queue: seq<Entry>, tickets: nat, ledger: Ledger)

  function Empty(): Desk
  {
    Desk([], 0, Ledger(map[], map[], [], [], [], [], [], []))
  }

  /** What serving an accepted pcb comes to. */
  datatype Serve =
    | Served        // a client owns the pcb and an ACCEPT packet is queued
    | NoClient      // the client could not be allocated
    | NoEvent       // the ACCEPT packet could not be allocated

  /** SSL_PARKED_RX_CAP, SSL_MAX_CONNECTIONS and SSL_QUEUE_IDLE_MS. */
  datatype Limits = Limits(rxCap: nat, maxLive: nat, idleMs: nat)

  // ---- Effects ----

  /** `pbuf_free` of deliveries that were chained one behind the other. */
  function Free(d: Desk, pbs: seq<Pbuf>): Desk
  {
    d.(ledger := d.ledger.(freed := d.ledger.freed + GivenBack(pbs), stranded := d.ledger.stranded + LeftBehind(pbs)))
  }

  function Stage(d: Desk, pbs: seq<Pbuf>): Desk
  {
    d.(ledger := d.ledger.(staged := d.ledger.staged + pbs))
  }

  function Abort(d: Desk, pcb: Pcb): Desk
  {
    d.(ledger := d.ledger.(aborted := d.ledger.aborted + [pcb]))
  }

  function Settle(d: Desk, t: nat, f: Fate): Desk
  {
    d.(ledger := d.ledger.(fate := d.ledger.fate[t := f]))
  }

  function Arrive(d: Desk, pb: Pbuf): Desk
  {
    d.(ledger := d.ledger.(arrived := d.ledger.arrived + [pb]))
  }

  // ---- Operations ----

  function Park(d: Desk, pcb: Pcb, now: nat): Desk
  {
    Desk(d.queue + [Entry(pcb, [], now, d.tickets)], d.tickets + 1,
         d.ledger.(fate := d.ledger.fate[d.tickets := Parked], pcbOf := d.ledger.pcbOf[d.tickets := pcb]))
  }

  /** The queue without its entry at position `k`. */
  function Without(q: seq<Entry>, k: nat): seq<Entry>
    requires k < |q|
  {
    q[..k] + q[k + 1..]
  }

  /** Shedding one parked connection: free what it buffered, RST it. */
  function Shed(d: Desk, k: nat): Desk
    requires k < |d.queue|
  {
    var e := d.queue[k];
    Settle(Abort(Free(d.(queue := Without(d.queue, k)), e.pb), e.pcb), e.ticket, Gone)
  }

  /** Bytes for the parked connection at position `k`, kept if they fit under the cap. */
  function Receive(d: Desk, k: nat, pb: Pbuf, fits: bool): Desk
    requires k < |d.queue|
  {
    var a := Arrive(d, pb);
    if fits then a.(queue := d.queue[k := d.queue[k].(pb := d.queue[k].pb + [pb])]) else Free(a, [pb])
  }

  /** Bytes for a connection no longer in the queue are dropped at once. */
  function Stray(d: Desk, pb: Pbuf): Desk
  {
    Free(Arrive(d, pb), [pb])
  }

  /** The head leaves the queue to be promoted. */
  function Pop(d: Desk): Desk
    requires d.queue != []
  {
    d.(queue := d.queue[1..], ledger := d.ledger.(promoted := d.ledger.promoted + [d.queue[0].ticket]))
  }

  /**
   Promotion of the head.  Without a client its pcb is aborted while the parked callbacks are
   still on it, so lwIP's error callback drains the whole queue before the buffers are freed.
   Without an ACCEPT packet the buffers are freed although they have been staged.
   */
  function Promote(d: Desk, serve: Serve): Desk
    requires d.queue != []
  {
    var e := d.queue[0];
    match serve
    case Served => Settle(Stage(Pop(d), e.pb), e.ticket, Handed)
    case NoClient => Free(Drain(Settle(Abort(Pop(d), e.pcb), e.ticket, Gone), e.pcb), e.pb)
    case NoEvent => Free(Settle(Abort(Stage(Pop(d), e.pb), e.pcb), e.ticket, Gone), e.pb)
  }

  /** What becomes of a drained connection: lwIP freed `errored` and still has the others. */
  function Drained(e: Entry, errored: Pcb): Fate
  {
    if e.pcb == errored then Gone else Orphaned
  }

  /** The queue after one turn of a drain. */
  function DrainedHead(d: Desk, errored: Pcb): Desk
    requires d.queue != []
  {
    var e := d.queue[0];
    Settle(Free(d.(queue := d.queue[1..]), e.pb), e.ticket, Drained(e, errored))
  }

  /** The bookkeeping of the whole queue goes; no pcb is touched. */
  function Drain(d: Desk, errored: Pcb): Desk
    decreases |d.queue|
  {
    if d.queue == [] then d else Drain(DrainedHead(d, errored), errored)
  }

  /** The ticket of the connection `pcb` that lwIP still has bound to us. */
  ghost predicate HeldAs(d: Desk, t: nat, pcb: Pcb)
  {
    t in d.ledger.fate && t in d.ledger.pcbOf && d.ledger.pcbOf[t] == pcb && Held(d.ledger.fate[t])
  }

  predicate Held(f: Fate)
  {
    f == Parked || f == Orphaned
  }

  /** An orphan is reaped by its own poll. */
  function Reap(d: Desk, t: nat, pcb: Pcb): Desk
  {
    Settle(Abort(d, pcb), t, Gone)
  }

  /** `_s_error`: lwIP freed `errored`, ticket `t`; an orphan is settled, and the queue is drained. */
  function ErrorDesk(d: Desk, errored: Pcb, t: nat): Desk
  {
    Drain(if t in d.ledger.fate && d.ledger.fate[t] == Orphaned then Settle(d, t, Gone) else d, errored)
  }

  // ---- The books ----

  function Tickets(q: seq<Entry>): (r: seq<nat>)
    ensures |r| == |q|
  {
    seq(|q|, i requires 0 <= i < |q| => q[i].ticket)
  }

  ghost predicate Increasing(s: seq<nat>)
  {
    forall i, j :: 0 <= i < j < |s| ==> s[i] < s[j]
  }

  /** Promotions came before everything still parked, both in parking order. */
  ghost predicate InOrder(d: Desk)
  {
    && Increasing(d.ledger.promoted + Tickets(d.queue))
    && (forall i :: 0 <= i < |d.ledger.promoted| ==> d.ledger.promoted[i] < d.tickets)
    && (forall i :: 0 <= i < |d.queue| ==> d.queue[i].ticket < d.tickets)
  }

  /** Every ticket has one fate; Parked means exactly "in the queue", Handed only "promoted". */
  ghost predicate OneFate(d: Desk)
  {
    && (forall t: nat :: t in d.ledger.fate <==> t < d.tickets)
    && (forall t: nat :: t in d.ledger.pcbOf <==> t < d.tickets)
    && (forall i :: 0 <= i < |d.queue| ==>
          var e := d.queue[i];
          e.ticket in d.ledger.fate && d.ledger.fate[e.ticket] == Parked
          && e.ticket in d.ledger.pcbOf && d.ledger.pcbOf[e.ticket] == e.pcb)
    && (forall t: nat :: t in d.ledger.fate && d.ledger.fate[t] == Parked ==> t in Tickets(d.queue))
    && (forall t: nat :: t in d.ledger.fate && d.ledger.fate[t] == Handed ==> t in d.ledger.promoted)
    && (forall t: nat :: t in d.ledger.promoted ==> t in d.ledger.fate && !Held(d.ledger.fate[t]))
  }

  /** lwIP's pcbs in our care are distinct and not null. */
  ghost predicate PcbsApart(d: Desk)
  {
    && (forall t: nat, u: nat, p: Pcb, q: Pcb :: HeldAs(d, t, p) && HeldAs(d, u, q) && t != u ==> p != q)
    && (forall t: nat, p: Pcb :: HeldAs(d, t, p) ==> p != NULL_PCB)
  }

  ghost predicate Books(d: Desk)
  {
    InOrder(d) && OneFate(d) && PcbsApart(d)
  }

  lemma TicketsAt(d: Desk, k: nat)
    requires InOrder(d) && k < |d.queue|
    ensures forall i :: 0 <= i < |d.queue| && i != k ==> d.queue[i].ticket != d.queue[k].ticket
    ensures d.queue[k].ticket !in d.ledger.promoted
  {
    var all := d.ledger.promoted + Tickets(d.queue);
    var n := |d.ledger.promoted|;
    forall i | 0 <= i < |d.queue| && i != k ensures d.queue[i].ticket != d.queue[k].ticket {
      assert all[n + i] == d.queue[i].ticket && all[n + k] == d.queue[k].ticket;
    }
    forall i | 0 <= i < n ensures d.ledger.promoted[i] != d.queue[k].ticket {
      assert all[i] == d.ledger.promoted[i] && all[n + k] == d.queue[k].ticket;
    }
  }

  /** A pcb lwIP has just accepted is not one it still keeps for us. */
  ghost predicate NewPcb(d: Desk, pcb: Pcb)
  {
    pcb != NULL_PCB && forall t: nat :: !HeldAs(d, t, pcb)
  }

  lemma ParkKeepsBooks(d: Desk, pcb: Pcb, now: nat)
    requires Books(d) && NewPcb(d, pcb)
    ensures Books(Park(d, pcb, now))
  {
    var e := Park(d, pcb, now);
    assert Tickets(e.queue) == Tickets(d.queue) + [d.tickets];
    assert e.ledger.promoted + Tickets(e.queue) == (d.ledger.promoted + Tickets(d.queue)) + [d.tickets];
    forall t: nat | t in e.ledger.fate && e.ledger.fate[t] == Parked ensures t in Tickets(e.queue) {
      if t == d.tickets {
        assert Tickets(e.queue)[|d.queue|] == t;
      }
    }
    forall t: nat, p: Pcb | HeldAs(e, t, p) ensures t == d.tickets || HeldAs(d, t, p) {
    }
  }

  /** Taking one entry out and giving it a final fate keeps the order. */
  lemma RemoveKeepsOrder(d: Desk, k: nat)
    requires InOrder(d) && k < |d.queue|
    ensures InOrder(d.(queue := Without(d.queue, k)))
  {
    var q := Without(d.queue, k);
    var all := d.ledger.promoted + Tickets(d.queue);
    var rest := d.ledger.promoted + Tickets(q);
    var n := |d.ledger.promoted|;
    forall i | 0 <= i < |rest| ensures rest[i] == all[if i < n + k then i else i + 1] {
      if i >= n {
        assert q[i - n] == d.queue[if i - n < k then i - n else i - n + 1];
      }
    }
  }

  lemma ShedKeepsBooks(d: Desk, k: nat)
    requires Books(d) && k < |d.queue|
    ensures Books(Shed(d, k))
  {
    var e := Shed(d, k);
    RemoveKeepsOrder(d, k);
    TicketsAt(d, k);
    TakenOut(d, k, e);
  }

  /** Entry `k` left the queue with a fate that lwIP no longer counts as ours, or orphaned. */
  lemma TakenOut(d: Desk, k: nat, e: Desk)
    requires Books(d) && k < |d.queue|
    requires e.queue == Without(d.queue, k) && e.tickets == d.tickets
    requires e.ledger.pcbOf == d.ledger.pcbOf
    requires d.queue[k].ticket in e.ledger.fate
    requires var f := e.ledger.fate[d.queue[k].ticket]; f != Parked && (f == Handed ==> d.queue[k].ticket in e.ledger.promoted)
    requires e.ledger.fate == d.ledger.fate[d.queue[k].ticket := e.ledger.fate[d.queue[k].ticket]]
    requires e.ledger.promoted == d.ledger.promoted
          || (e.ledger.promoted == d.ledger.promoted + [d.queue[k].ticket] && !Held(e.ledger.fate[d.queue[k].ticket]))
    ensures OneFate(e) && PcbsApart(e)
  {
    var x := d.queue[k].ticket;
    TicketsAt(d, k);
    forall t: nat | t in e.ledger.fate && e.ledger.fate[t] == Parked ensures t in Tickets(e.queue) {
      assert t in Tickets(d.queue);
      var i :| 0 <= i < |d.queue| && Tickets(d.queue)[i] == t;
      assert i != k;
      assert Tickets(e.queue)[if i < k then i else i - 1] == t;
    }
    forall t: nat, p: Pcb | HeldAs(e, t, p) ensures HeldAs(d, t, p) {
    }
  }

  /** Moving the head of the queue to the end of the promotions changes no order. */
  lemma PopKeepsOrder(d: Desk)
    requires InOrder(d) && d.queue != []
    ensures InOrder(Pop(d))
  {
    var e := Pop(d);
    assert Tickets(d.queue) == [d.queue[0].ticket] + Tickets(e.queue);
    assert e.ledger.promoted + Tickets(e.queue) == d.ledger.promoted + Tickets(d.queue);
  }

  /** The books speak of neither buffers nor aborts. */
  lemma BooksIgnore(d: Desk, e: Desk)
    requires Books(d) && e.queue == d.queue && e.tickets == d.tickets
    requires e.ledger.fate == d.ledger.fate && e.ledger.pcbOf == d.ledger.pcbOf && e.ledger.promoted == d.ledger.promoted
    ensures Books(e)
  {
    assert forall t: nat, p: Pcb :: HeldAs(e, t, p) <==> HeldAs(d, t, p);
  }

  /** The head popped and settled, served or not. */
  lemma PopKeepsBooks(d: Desk, f: Fate)
    requires Books(d) && d.queue != [] && (f == Handed || f == Gone)
    ensures Books(Settle(Pop(d), d.queue[0].ticket, f))
  {
    var e := Settle(Pop(d), d.queue[0].ticket, f);
    assert Without(d.queue, 0) == d.queue[1..];
    assert d.queue[0].ticket in e.ledger.promoted;
    PopKeepsOrder(d);
    TakenOut(d, 0, e);
  }

  lemma PromoteKeepsBooks(d: Desk, serve: Serve)
    requires Books(d) && d.queue != []
    ensures Books(Promote(d, serve))
  {
    var e := d.queue[0];
    PopKeepsBooks(d, if serve == Served then Handed else Gone);
    var settled := Settle(Pop(d), e.ticket, if serve == Served then Handed else Gone);
    match serve
    case NoClient =>
      var aborted := Settle(Abort(Pop(d), e.pcb), e.ticket, Gone);
      BooksIgnore(settled, aborted);
      DrainKeepsBooks(aborted, e.pcb);
      BooksIgnore(Drain(aborted, e.pcb), Promote(d, serve));
    case _ => BooksIgnore(settled, Promote(d, serve));
  }

  lemma ReceiveKeepsBooks(d: Desk, k: nat, pb: Pbuf, fits: bool)
    requires Books(d) && k < |d.queue|
    ensures Books(Receive(d, k, pb, fits))
  {
    var e := Receive(d, k, pb, fits);
    assert Tickets(e.queue) == Tickets(d.queue);
    assert forall t: nat, p: Pcb :: HeldAs(e, t, p) <==> HeldAs(d, t, p);
  }

  lemma DrainedHeadKeepsBooks(d: Desk, errored: Pcb)
    requires Books(d) && d.queue != []
    ensures Books(DrainedHead(d, errored))
  {
    assert Without(d.queue, 0) == d.queue[1..];
    RemoveKeepsOrder(d, 0);
    TakenOut(d, 0, DrainedHead(d, errored));
  }

  lemma {:induction false} DrainKeepsBooks(d: Desk, errored: Pcb)
    requires Books(d)
    ensures Books(Drain(d, errored)) && Drain(d, errored).queue == []
    decreases |d.queue|
  {
    if d.queue != [] {
      DrainedHeadKeepsBooks(d, errored);
      DrainKeepsBooks(DrainedHead(d, errored), errored);
    }
  }

  lemma SettleOrphanKeepsBooks(d: Desk, t: nat)
    requires Books(d) && t in d.ledger.fate && d.ledger.fate[t] == Orphaned
    ensures Books(Settle(d, t, Gone))
  {
    var e := Settle(d, t, Gone);
    assert forall i :: 0 <= i < |d.queue| ==> d.queue[i].ticket != t;
    assert forall u: nat, p: Pcb :: HeldAs(e, u, p) ==> HeldAs(d, u, p);
  }

  lemma ErrorKeepsBooks(d: Desk, errored: Pcb, t: nat)
    requires Books(d)
    ensures Books(ErrorDesk(d, errored, t))
  {
    if t in d.ledger.fate && d.ledger.fate[t] == Orphaned {
      SettleOrphanKeepsBooks(d, t);
      DrainKeepsBooks(Settle(d, t, Gone), errored);
    } else {
      DrainKeepsBooks(d, errored);
    }
  }

  // ---- Receive buffers ----

  function Buffered(q: seq<Entry>, b: Pbuf): nat
  {
    if q == [] then 0 else Count(q[0].pb, b) + Buffered(q[1..], b)
  }

  lemma {:induction false} BufferedConcat(p: seq<Entry>, q: seq<Entry>, b: Pbuf)
    ensures Buffered(p + q, b) == Buffered(p, b) + Buffered(q, b)
  {
    if p == [] {
      assert p + q == q;
    } else {
      assert (p + q)[1..] == p[1..] + q;
      BufferedConcat(p[1..], q, b);
    }
  }

  lemma BufferedOne(e: Entry, b: Pbuf)
    ensures Buffered([e], b) == Count(e.pb, b)
  {
    assert [e][1..] == [];
  }

  lemma BufferedSplit(q: seq<Entry>, k: nat, b: Pbuf)
    requires k < |q|
    ensures Buffered(q, b) == Buffered(q[..k], b) + Count(q[k].pb, b) + Buffered(q[k + 1..], b)
    ensures Buffered(Without(q, k), b) == Buffered(q[..k], b) + Buffered(q[k + 1..], b)
  {
    assert q == q[..k] + ([q[k]] + q[k + 1..]);
    BufferedConcat(q[..k], [q[k]] + q[k + 1..], b);
    BufferedConcat([q[k]], q[k + 1..], b);
    BufferedOne(q[k], b);
    BufferedConcat(q[..k], q[k + 1..], b);
  }

  /** How often buffer `b` was freed, stranded, staged or is still buffered. */
  function Placed(d: Desk, b: Pbuf): nat
  {
    Count(d.ledger.freed, b) + Count(d.ledger.stranded, b) + Count(d.ledger.staged, b) + Buffered(d.queue, b)
  }

  lemma FreePlaces(d: Desk, pbs: seq<Pbuf>, b: Pbuf)
    ensures Placed(Free(d, pbs), b) == Placed(d, b) + Count(pbs, b)
  {
    CountConcat(d.ledger.freed, GivenBack(pbs), b);
    CountConcat(d.ledger.stranded, LeftBehind(pbs), b);
    CountConcat(GivenBack(pbs), LeftBehind(pbs), b);
    assert GivenBack(pbs) + LeftBehind(pbs) == pbs;
  }

  lemma StagePlaces(d: Desk, pbs: seq<Pbuf>, b: Pbuf)
    ensures Placed(Stage(d, pbs), b) == Placed(d, b) + Count(pbs, b)
  {
    CountConcat(d.ledger.staged, pbs, b);
  }

  lemma ShedPlaces(d: Desk, k: nat, b: Pbuf)
    requires k < |d.queue|
    ensures Placed(Shed(d, k), b) == Placed(d, b)
  {
    BufferedSplit(d.queue, k, b);
    FreePlaces(d.(queue := Without(d.queue, k)), d.queue[k].pb, b);
  }

  lemma ParkPlaces(d: Desk, pcb: Pcb, now: nat, b: Pbuf)
    ensures Placed(Park(d, pcb, now), b) == Placed(d, b)
  {
    var e := Entry(pcb, [], now, d.tickets);
    BufferedConcat(d.queue, [e], b);
    BufferedOne(e, b);
  }

  lemma CountOne(pb: Pbuf, b: Pbuf)
    ensures Count([pb], b) == if pb == b then 1 else 0
  {
    assert [pb][1..] == [];
  }

  lemma ReceivePlaces(d: Desk, k: nat, pb: Pbuf, fits: bool, b: Pbuf)
    requires k < |d.queue|
    ensures Placed(Receive(d, k, pb, fits), b) == Placed(d, b) + Count([pb], b)
  {
    if fits {
      var q := d.queue[k := d.queue[k].(pb := d.queue[k].pb + [pb])];
      BufferedSplit(d.queue, k, b);
      BufferedSplit(q, k, b);
      assert q[..k] == d.queue[..k] && q[k + 1..] == d.queue[k + 1..];
      CountConcat(d.queue[k].pb, [pb], b);
    } else {
      FreePlaces(Arrive(d, pb), [pb], b);
    }
  }

  lemma {:induction false} DrainPlaces(d: Desk, errored: Pcb, b: Pbuf)
    ensures Placed(Drain(d, errored), b) == Placed(d, b)
    ensures Drain(d, errored).ledger.arrived == d.ledger.arrived
    decreases |d.queue|
  {
    if d.queue != [] {
      FreePlaces(d.(queue := d.queue[1..]), d.queue[0].pb, b);
      DrainPlaces(DrainedHead(d, errored), errored, b);
    }
  }

  /** A promotion keeps every buffer's place, except that one without an ACCEPT packet doubles it. */
  lemma PromotePlaces(d: Desk, serve: Serve, b: Pbuf)
    requires d.queue != []
    ensures Placed(Promote(d, serve), b) == Placed(d, b) + if serve == NoEvent then Count(d.queue[0].pb, b) else 0
    ensures Promote(d, serve).ledger.arrived == d.ledger.arrived
  {
    var e, p := d.queue[0], Pop(d);
    assert Placed(d, b) == Placed(p, b) + Count(e.pb, b);
    match serve
    case Served => StagePlaces(p, e.pb, b);
    case NoClient =>
      var aborted := Settle(Abort(p, e.pcb), e.ticket, Gone);
      DrainPlaces(aborted, e.pcb, b);
      FreePlaces(Drain(aborted, e.pcb), e.pb, b);
    case NoEvent =>
      StagePlaces(p, e.pb, b);
      FreePlaces(Settle(Abort(Stage(p, e.pb), e.pcb), e.ticket, Gone), e.pb, b);
  }

  // ---- Whole runs ----

  datatype Op =
    | DoPark(pcb: Pcb, now: nat)
    | DoShed(k: nat)
    | DoReceive(k: nat, pb: Pbuf, fits: bool)
    | DoStray(pb: Pbuf)
    | DoPromote(serve: Serve)
    | DoError(errored: Pcb, ticket: nat)
    | DoReap(ticket: nat, pcb: Pcb)

  ghost predicate Allowed(d: Desk, op: Op)
  {
    match op
    case DoPark(pcb, _) => NewPcb(d, pcb)
    case DoShed(k) => k < |d.queue|
    case DoReceive(k, _, _) => k < |d.queue|
    case DoPromote(_) => d.queue != []
    case DoError(errored, t) => HeldAs(d, t, errored)
    case DoReap(t, pcb) => HeldAs(d, t, pcb) && d.ledger.fate[t] == Orphaned
    case DoStray(_) => true
  }

  ghost function Apply(d: Desk, op: Op): Desk
    requires Allowed(d, op)
  {
    match op
    case DoPark(pcb, now) => Park(d, pcb, now)
    case DoShed(k) => Shed(d, k)
    case DoReceive(k, pb, fits) => Receive(d, k, pb, fits)
    case DoStray(pb) => Stray(d, pb)
    case DoPromote(serve) => Promote(d, serve)
    case DoError(errored, t) => ErrorDesk(d, errored, t)
    case DoReap(t, pcb) => Reap(d, t, pcb)
  }

  ghost predicate Run(d: Desk, ops: seq<Op>)
    decreases |ops|
  {
    ops == [] || (Allowed(d, ops[0]) && Run(Apply(d, ops[0]), ops[1..]))
  }

  ghost function Exec(d: Desk, ops: seq<Op>): Desk
    requires Run(d, ops)
    decreases |ops|
  {
    if ops == [] then d else Exec(Apply(d, ops[0]), ops[1..])
  }

  lemma OpKeepsBooks(d: Desk, op: Op)
    requires Books(d) && Allowed(d, op)
    ensures Books(Apply(d, op))
  {
    match op
    case DoPark(pcb, now) => ParkKeepsBooks(d, pcb, now);
    case DoShed(k) => ShedKeepsBooks(d, k);
    case DoReceive(k, pb, fits) => ReceiveKeepsBooks(d, k, pb, fits);
    case DoStray(pb) => BooksIgnore(d, Stray(d, pb));
    case DoPromote(serve) => PromoteKeepsBooks(d, serve);
    case DoError(errored, t) => ErrorKeepsBooks(d, errored, t);
    case DoReap(t, pcb) =>
      SettleOrphanKeepsBooks(d, t);
      BooksIgnore(Settle(d, t, Gone), Reap(d, t, pcb));
  }

  /** The buffers an operation both stages and frees: those of a head promoted without an ACCEPT packet. */
  function DoubledBy(d: Desk, op: Op): seq<Pbuf>
  {
    if op == DoPromote(NoEvent) && d.queue != [] then d.queue[0].pb else []
  }

  ghost function Doubled(d: Desk, ops: seq<Op>): seq<Pbuf>
    requires Run(d, ops)
    decreases |ops|
  {
    if ops == [] then [] else DoubledBy(d, ops[0]) + Doubled(Apply(d, ops[0]), ops[1..])
  }

  /** Every operation places what arrives once, except the one failure that places a buffer again. */
  lemma OpPlaces(d: Desk, op: Op, b: Pbuf)
    requires Allowed(d, op)
    ensures var e := Apply(d, op);
      Placed(e, b) + Count(d.ledger.arrived, b) == Placed(d, b) + Count(e.ledger.arrived, b) + Count(DoubledBy(d, op), b)
  {
    match op
    case DoPark(pcb, now) => ParkPlaces(d, pcb, now, b);
    case DoShed(k) => ShedPlaces(d, k, b);
    case DoReceive(k, pb, fits) =>
      ReceivePlaces(d, k, pb, fits, b);
      CountConcat(d.ledger.arrived, [pb], b);
    case DoStray(pb) =>
      FreePlaces(Arrive(d, pb), [pb], b);
      CountConcat(d.ledger.arrived, [pb], b);
    case DoPromote(serve) => PromotePlaces(d, serve, b);
    case DoError(errored, t) =>
      DrainPlaces(d, errored, b);
      DrainPlaces(Settle(d, t, Gone), errored, b);
    case DoReap(t, pcb) =>
  }

  lemma {:induction false} RunKeepsBooks(d: Desk, ops: seq<Op>)
    requires Books(d) && Run(d, ops)
    ensures Books(Exec(d, ops))
    decreases |ops|
  {
    if ops != [] {
      OpKeepsBooks(d, ops[0]);
      RunKeepsBooks(Apply(d, ops[0]), ops[1..]);
    }
  }

  /** Over any run, buffers are placed once per arrival and once more per failure of that one kind. */
  lemma {:induction false} RunPlaces(d: Desk, ops: seq<Op>, b: Pbuf)
    requires Run(d, ops)
    ensures var e := Exec(d, ops);
      Placed(e, b) + Count(d.ledger.arrived, b) == Placed(d, b) + Count(e.ledger.arrived, b) + Count(Doubled(d, ops), b)
    decreases |ops|
  {
    if ops != [] {
      OpPlaces(d, ops[0], b);
      RunPlaces(Apply(d, ops[0]), ops[1..], b);
      CountConcat(DoubledBy(d, ops[0]), Doubled(Apply(d, ops[0]), ops[1..]), b);
    }
  }

  /**
   Over any run: connections are promoted in the order they were parked, ahead of all those
   still waiting, which wait in that order too; and every parked connection has exactly one
   fate, Parked exactly while it is queued.
   */
  lemma PromotedInOrder(ops: seq<Op>)
    requires Run(Empty(), ops)
    ensures var d := Exec(Empty(), ops);
      && Increasing(d.ledger.promoted + Tickets(d.queue))
      && (forall t: nat :: t < d.tickets <==> t in d.ledger.fate)
      && (forall t: nat :: t in d.ledger.fate ==> (d.ledger.fate[t] == Parked <==> t in Tickets(d.queue)))
  {
    EmptyIsGood();
    RunKeepsBooks(Empty(), ops);
    ParkedIffQueued(Exec(Empty(), ops));
  }

  /** At most one delivery: nothing was chained. */
  predicate Short(e: Entry)
  {
    |e.pb| <= 1
  }

  ghost predicate AllShort(q: seq<Entry>)
  {
    forall i :: 0 <= i < |q| ==> Short(q[i])
  }

  /** The operation frees no chain of two or more deliveries. */
  ghost predicate FreesNoChain(d: Desk, op: Op)
    requires Allowed(d, op)
  {
    match op
    case DoShed(k) => Short(d.queue[k])
    case DoPromote(NoClient) => AllShort(d.queue)
    case DoPromote(NoEvent) => Short(d.queue[0])
    case DoError(_, _) => AllShort(d.queue)
    case _ => true
  }

  lemma FreeStrands(d: Desk, pbs: seq<Pbuf>)
    ensures |Free(d, pbs).ledger.stranded| == |d.ledger.stranded| + if |pbs| <= 1 then 0 else |pbs| - 1
  {
  }

  lemma {:induction false} DrainStrands(d: Desk, errored: Pcb)
    ensures |Drain(d, errored).ledger.stranded| >= |d.ledger.stranded|
    ensures |Drain(d, errored).ledger.stranded| == |d.ledger.stranded| <==> AllShort(d.queue)
    decreases |d.queue|
  {
    if d.queue != [] {
      FreeStrands(d.(queue := d.queue[1..]), d.queue[0].pb);
      DrainStrands(DrainedHead(d, errored), errored);
      if Short(d.queue[0]) && AllShort(d.queue[1..]) {
        assert forall i :: 0 < i < |d.queue| ==> d.queue[i] == d.queue[1..][i - 1];
      }
    }
  }

  lemma PromoteStrands(d: Desk, serve: Serve)
    requires d.queue != []
    ensures |Promote(d, serve).ledger.stranded| >= |d.ledger.stranded|
    ensures |Promote(d, serve).ledger.stranded| == |d.ledger.stranded|
       <==> serve == Served || (serve == NoEvent && Short(d.queue[0])) || (serve == NoClient && AllShort(d.queue))
  {
    var e, p := d.queue[0], Pop(d);
    match serve
    case Served =>
    case NoClient =>
      var aborted := Settle(Abort(p, e.pcb), e.ticket, Gone);
      DrainStrands(aborted, e.pcb);
      FreeStrands(Drain(aborted, e.pcb), e.pb);
      assert forall i :: 0 < i < |d.queue| ==> d.queue[i] == p.queue[i - 1];
      assert forall i :: 0 <= i < |p.queue| ==> p.queue[i] == d.queue[i + 1];
    case NoEvent => FreeStrands(Settle(Abort(Stage(p, e.pb), e.pcb), e.ticket, Gone), e.pb);
  }

  /** An operation strands buffers exactly when it frees a chain. */
  lemma OpStrands(d: Desk, op: Op)
    requires Allowed(d, op)
    ensures |Apply(d, op).ledger.stranded| >= |d.ledger.stranded|
    ensures |Apply(d, op).ledger.stranded| == |d.ledger.stranded| <==> FreesNoChain(d, op)
  {
    match op
    case DoShed(k) => FreeStrands(d.(queue := Without(d.queue, k)), d.queue[k].pb);
    case DoPromote(serve) => PromoteStrands(d, serve);
    case DoError(errored, t) =>
      DrainStrands(d, errored);
      DrainStrands(Settle(d, t, Gone), errored);
    case _ =>
  }

  /**
   No operation of the run freed a chain of two or more deliveries, and no promotion with
   buffered bytes failed at the allocation of its ACCEPT packet.
   */
  ghost predicate CleanRun(d: Desk, ops: seq<Op>)
    requires Run(d, ops)
    decreases |ops|
  {
    ops == [] || (&& FreesNoChain(d, ops[0])
                  && !(ops[0] == DoPromote(NoEvent) && d.queue[0].pb != [])
                  && CleanRun(Apply(d, ops[0]), ops[1..]))
  }

  lemma {:induction false} RunStrands(d: Desk, ops: seq<Op>)
    requires Run(d, ops)
    ensures |Exec(d, ops).ledger.stranded| >= |d.ledger.stranded|
    ensures |Exec(d, ops).ledger.stranded| == |d.ledger.stranded| && Doubled(d, ops) == [] <==> CleanRun(d, ops)
    decreases |ops|
  {
    if ops != [] {
      OpStrands(d, ops[0]);
      RunStrands(Apply(d, ops[0]), ops[1..]);
    }
  }

  /** Every buffer that arrived is freed, staged or still buffered, once, and none is stranded. */
  ghost predicate PlacedOnce(d: Desk)
  {
    d.ledger.stranded == [] && forall b :: Placed(d, b) == Count(d.ledger.arrived, b)
  }

  /**
   Every buffer that arrived for a parked connection was freed, or staged to the promoted
   client, or is still buffered, once, in exactly the runs in which no shed, drain or failed
   promotion freed two or more chained deliveries of a connection, and no promotion with
   buffered bytes failed at the allocation of its ACCEPT packet.
   */
  lemma PlacedOnceExactly(ops: seq<Op>)
    requires Run(Empty(), ops)
    ensures PlacedOnce(Exec(Empty(), ops)) <==> CleanRun(Empty(), ops)
  {
    var d, twice := Exec(Empty(), ops), Doubled(Empty(), ops);
    RunStrands(Empty(), ops);
    forall b ensures Placed(d, b) == Count(d.ledger.arrived, b) + Count(twice, b) {
      RunPlaces(Empty(), ops, b);
    }
    if twice != [] {
      assert Count(twice, twice[0]) > 0;
      assert Placed(d, twice[0]) != Count(d.ledger.arrived, twice[0]);
    } else {
      assert forall b :: Count(twice, b) == 0;
    }
  }

  /** Running one operation and then the others. */
  lemma Prefix(d: Desk, op: Op, rest: seq<Op>)
    requires Allowed(d, op) && Run(Apply(d, op), rest)
    ensures Run(d, [op] + rest) && Exec(d, [op] + rest) == Exec(Apply(d, op), rest)
  {
    assert ([op] + rest)[1..] == rest;
  }

  /** A run of three operations. */
  lemma Starting(op1: Op, op2: Op, op3: Op)
    requires Allowed(Empty(), op1)
    requires var d1 := Apply(Empty(), op1); Allowed(d1, op2) && Allowed(Apply(d1, op2), op3)
    ensures Run(Empty(), [op1, op2, op3])
    ensures Exec(Empty(), [op1, op2, op3]) == Apply(Apply(Apply(Empty(), op1), op2), op3)
  {
    var d1 := Apply(Empty(), op1);
    var d2 := Apply(d1, op2);
    assert Run(Apply(d2, op3), []) && Exec(Apply(d2, op3), []) == Apply(d2, op3);
    Prefix(d2, op3, []);
    Prefix(d1, op2, [op3]);
    Prefix(Empty(), op1, [op2, op3]);
    assert [op1] + [op2, op3] == [op1, op2, op3] && [op2] + [op3] == [op2, op3] && [op3] + [] == [op3];
  }

  /** Park, receive, promote without an ACCEPT packet: the buffer is staged and freed. */
  lemma MissingEventDoubles(pb: Pbuf) returns (ops: seq<Op>)
    ensures Run(Empty(), ops)
    ensures var l := Exec(Empty(), ops).ledger; l.arrived == [pb] && l.staged == [pb] && l.freed == [pb]
  {
    ops := [DoPark(1, 0), DoReceive(0, pb, true), DoPromote(NoEvent)];
    Starting(ops[0], ops[1], ops[2]);
  }

  /** Park two, promote without a client: the second connection becomes an orphan. */
  lemma MissingClientOrphans() returns (ops: seq<Op>)
    ensures Run(Empty(), ops)
    ensures var d := Exec(Empty(), ops);
      && d.queue == [] && d.tickets == 2
      && 0 in d.ledger.fate && d.ledger.fate[0] == Gone
      && 1 in d.ledger.fate && d.ledger.fate[1] == Orphaned
  {
    ops := [DoPark(1, 0), DoPark(2, 0), DoPromote(NoClient)];
    Starting(ops[0], ops[1], ops[2]);
    var d1 := Park(Empty(), 1, 0);
    var d2 := Park(d1, 2, 0);
    var aborted := Settle(Abort(Pop(d2), 1), 0, Gone);
    assert aborted.queue == [Entry(2, [], 0, 1)];
    assert DrainedHead(aborted, 1).queue == [];
    assert Drain(aborted, 1) == DrainedHead(aborted, 1);
  }

  /** Park, receive twice, shed: the second delivery never goes back to the pool. */
  lemma ChainedShedStrands(pb: Pbuf, more: Pbuf) returns (ops: seq<Op>)
    ensures Run(Empty(), ops)
    ensures var l := Exec(Empty(), ops).ledger;
      l.arrived == [pb, more] && l.freed == [pb] && l.stranded == [more] && l.staged == []
  {
    ops := [DoPark(1, 0), DoReceive(0, pb, true), DoReceive(0, more, true), DoShed(0)];
    var d1 := Park(Empty(), 1, 0);
    var d2 := Receive(d1, 0, pb, true);
    var d3 := Receive(d2, 0, more, true);
    var d4 := Shed(d3, 0);
    assert d3.queue[0].pb == [pb, more];
    assert Run(d4, []) && Exec(d4, []) == d4;
    Prefix(d3, ops[3], []);
    Prefix(d2, ops[2], [ops[3]]);
    Prefix(d1, ops[1], [ops[2], ops[3]]);
    Prefix(Empty(), ops[0], [ops[1], ops[2], ops[3]]);
    assert ops == [ops[0]] + [ops[1], ops[2], ops[3]];
  }

  // ---- Fates are final ----

  ghost predicate Settled(d: Desk, t: nat)
  {
    t in d.ledger.fate && !Held(d.ledger.fate[t])
  }

  lemma {:induction false} DrainFates(d: Desk, errored: Pcb, t: nat)
    requires Books(d) && t in d.ledger.fate
    ensures var f := Drain(d, errored).ledger.fate;
      && t in f
      && f[t] == if d.ledger.fate[t] != Parked then d.ledger.fate[t]
                 else if t in d.ledger.pcbOf && d.ledger.pcbOf[t] == errored then Gone else Orphaned
    decreases |d.queue|
  {
    if d.queue != [] {
      DrainedHeadKeepsBooks(d, errored);
      TicketsAt(d, 0);
      DrainFates(DrainedHead(d, errored), errored, t);
    } else {
      ParkedIsFound(d, t);
    }
  }

  /**
   An error settles the connection it struck, parked or orphaned, and no other: everything
   else that was parked becomes an orphan, and no other fate changes.
   */
  lemma ErrorSettlesOne(d: Desk, errored: Pcb, t: nat, u: nat)
    requires Books(d) && HeldAs(d, t, errored) && u in d.ledger.fate
    ensures var f := ErrorDesk(d, errored, t).ledger.fate;
      && u in f
      && f[u] == if u == t then Gone else if d.ledger.fate[u] == Parked then Orphaned else d.ledger.fate[u]
  {
    var e := if d.ledger.fate[t] == Orphaned then Settle(d, t, Gone) else d;
    if d.ledger.fate[t] == Orphaned {
      SettleOrphanKeepsBooks(d, t);
    }
    DrainFates(e, errored, u);
    if u != t && d.ledger.fate[u] == Parked {
      assert HeldAs(d, u, d.ledger.pcbOf[u]);
    }
  }

  /**
   A promotion settles the head and, if its client could be allocated, nobody else; without
   a client every other parked connection becomes an orphan.
   */
  lemma PromoteFates(d: Desk, serve: Serve, u: nat)
    requires Books(d) && d.queue != [] && u in d.ledger.fate
    ensures var f := Promote(d, serve).ledger.fate;
      && u in f
      && f[u] == if u == d.queue[0].ticket then (if serve == Served then Handed else Gone)
                 else if d.ledger.fate[u] == Parked && serve == NoClient then Orphaned else d.ledger.fate[u]
    ensures serve == NoClient ==> Promote(d, serve).queue == []
  {
    if serve == NoClient {
      var e := d.queue[0];
      var aborted := Settle(Abort(Pop(d), e.pcb), e.ticket, Gone);
      PopKeepsBooks(d, Gone);
      BooksIgnore(Settle(Pop(d), e.ticket, Gone), aborted);
      DrainFates(aborted, e.pcb, u);
      DrainKeepsBooks(aborted, e.pcb);
      if u != e.ticket && d.ledger.fate[u] == Parked {
        assert HeldAs(d, u, d.ledger.pcbOf[u]) && HeldAs(d, e.ticket, e.pcb);
      }
    }
  }

  /** Once handed over or gone, a connection's fate never changes. */
  lemma OpKeepsSettled(d: Desk, op: Op, t: nat)
    requires Books(d) && Allowed(d, op) && Settled(d, t)
    ensures Settled(Apply(d, op), t) && Apply(d, op).ledger.fate[t] == d.ledger.fate[t]
  {
    match op
    case DoPromote(serve) => PromoteFates(d, serve, t);
    case DoError(errored, u) => ErrorSettlesOne(d, errored, u, t);
    case _ =>
  }

  lemma {:induction false} FateFinal(d: Desk, ops: seq<Op>, t: nat)
    requires Books(d) && Run(d, ops) && Settled(d, t)
    ensures Settled(Exec(d, ops), t) && Exec(d, ops).ledger.fate[t] == d.ledger.fate[t]
    decreases |ops|
  {
    if ops != [] {
      OpKeepsBooks(d, ops[0]);
      OpKeepsSettled(d, ops[0], t);
      FateFinal(Apply(d, ops[0]), ops[1..], t);
    }
  }

  /** The connection is gone after the operation and was not before. */
  ghost predicate WentDown(before: map<nat, Fate>, after: map<nat, Fate>, u: nat)
  {
    u in after && after[u] == Gone && !(u in before && before[u] == Gone)
  }

  /** A fate the operation gives to connections other than the one it is about. */
  function Bystander(op: Op, f: Fate): Fate
  {
    if f == Parked && (op == DoPromote(NoClient) || op.DoError?) then Orphaned else f
  }

  /** The connection an operation settles, if any. */
  ghost function Subject(d: Desk, op: Op): Option<nat>
    requires Allowed(d, op)
  {
    match op
    case DoShed(k) => Some(d.queue[k].ticket)
    case DoPromote(_) => Some(d.queue[0].ticket)
    case DoError(_, t) => Some(t)
    case DoReap(t, _) => Some(t)
    case _ => None
  }

  /** What an operation makes of every connection ever parked. */
  lemma OpFates(d: Desk, op: Op, u: nat)
    requires Books(d) && Allowed(d, op) && u in d.ledger.fate
    ensures var f := Apply(d, op).ledger.fate;
      && u in f
      && f[u] == (if Subject(d, op) == Some(u) then (if op == DoPromote(Served) then Handed else Gone)
                  else Bystander(op, d.ledger.fate[u]))
  {
    match op
    case DoPromote(serve) => PromoteFates(d, serve, u);
    case DoError(errored, t) => ErrorSettlesOne(d, errored, t, u);
    case _ =>
  }

  lemma {:induction false} DrainAborts(d: Desk, errored: Pcb)
    ensures Drain(d, errored).ledger.aborted == d.ledger.aborted && Drain(d, errored).ledger.pcbOf == d.ledger.pcbOf
    decreases |d.queue|
  {
    if d.queue != [] {
      DrainAborts(DrainedHead(d, errored), errored);
    }
  }

  /** The pcb an operation resets: that of the connection it settles, unless it is handed over or lwIP has freed it. */
  lemma OpAborts(d: Desk, op: Op)
    requires Books(d) && Allowed(d, op)
    ensures var (e, x) := (Apply(d, op), Subject(d, op));
      if x == None || op.DoError? || op == DoPromote(Served) then e.ledger.aborted == d.ledger.aborted
      else x.value in d.ledger.pcbOf && e.ledger.aborted == d.ledger.aborted + [d.ledger.pcbOf[x.value]]
  {
    match op
    case DoPark(_, _) =>
    case DoShed(k) =>
    case DoReceive(_, _, _) =>
    case DoStray(_) =>
    case DoPromote(serve) =>
      if serve == NoClient {
        DrainAborts(Settle(Abort(Pop(d), d.queue[0].pcb), d.queue[0].ticket, Gone), d.queue[0].pcb);
      }
    case DoError(errored, t) =>
      DrainAborts(d, errored);
      DrainAborts(Settle(d, t, Gone), errored);
    case DoReap(_, _) =>
  }

  /**
   A connection goes down by tcp_abort exactly if lwIP has not freed it already: whichever
   operation makes it Gone resets its pcb, once and no other, except the error that struck it.
   */
  lemma GoneIsAborted(d: Desk, op: Op)
    requires Books(d) && Allowed(d, op)
    ensures var e := Apply(d, op);
      && d.ledger.aborted <= e.ledger.aborted
      && (forall u: nat :: WentDown(d.ledger.fate, e.ledger.fate, u) ==>
            if op.DoError? then u == op.ticket && e.ledger.aborted == d.ledger.aborted
            else u in d.ledger.pcbOf && e.ledger.aborted == d.ledger.aborted + [d.ledger.pcbOf[u]])
      && (e.ledger.aborted != d.ledger.aborted ==> exists u: nat :: WentDown(d.ledger.fate, e.ledger.fate, u))
  {
    var e := Apply(d, op);
    OpAborts(d, op);
    forall u: nat | WentDown(d.ledger.fate, e.ledger.fate, u) ensures Subject(d, op) == Some(u) && op != DoPromote(Served) {
      if u in d.ledger.fate {
        OpFates(d, op, u);
      } else {
        OpTickets(d, op, u);
      }
    }
    if e.ledger.aborted != d.ledger.aborted {
      var u := Subject(d, op).value;
      OpFates(d, op, u);
      assert WentDown(d.ledger.fate, e.ledger.fate, u);
    }
  }

  /** Only parking adds a connection, and that one is Parked. */
  lemma OpTickets(d: Desk, op: Op, u: nat)
    requires Books(d) && Allowed(d, op) && u !in d.ledger.fate && u in Apply(d, op).ledger.fate
    ensures op.DoPark? && u == d.tickets && Apply(d, op).ledger.fate[u] == Parked
  {
    OpKeepsBooks(d, op);
    match op
    case DoPark(_, _) =>
    case DoPromote(serve) => PromoteTickets(d, serve);
    case DoError(errored, t) => ErrorTickets(d, errored, t);
    case _ =>
  }

  lemma {:induction false} DrainTickets(d: Desk, errored: Pcb)
    ensures Drain(d, errored).tickets == d.tickets
    decreases |d.queue|
  {
    if d.queue != [] {
      DrainTickets(DrainedHead(d, errored), errored);
    }
  }

  lemma PromoteTickets(d: Desk, serve: Serve)
    requires d.queue != []
    ensures Promote(d, serve).tickets == d.tickets
  {
    DrainTickets(Settle(Abort(Pop(d), d.queue[0].pcb), d.queue[0].ticket, Gone), d.queue[0].pcb);
  }

  lemma ErrorTickets(d: Desk, errored: Pcb, t: nat)
    ensures ErrorDesk(d, errored, t).tickets == d.tickets
  {
    DrainTickets(d, errored);
    DrainTickets(Settle(d, t, Gone), errored);
  }

  // ---- Buffers keep their order ----

  /** `a` is what is left of `b` when some elements are crossed out. */
  ghost predicate Within(a: seq<Pbuf>, b: seq<Pbuf>)
    decreases |b|
  {
    a == [] || (b != [] && (
      || (a[|a| - 1] == b[|b| - 1] && Within(a[..|a| - 1], b[..|b| - 1]))
      || Within(a, b[..|b| - 1])))
  }

  lemma WithinGrows(a: seq<Pbuf>, b: seq<Pbuf>, pb: Pbuf)
    requires Within(a, b)
    ensures Within(a, b + [pb]) && Within(a + [pb], b + [pb])
  {
    assert (b + [pb])[..|b|] == b;
    assert (a + [pb])[..|a|] == a;
  }

  /** Every connection's buffered deliveries stand in the order they arrived. */
  ghost predicate Arranged(d: Desk)
  {
    forall e :: e in d.queue ==> Within(e.pb, d.ledger.arrived)
  }

  lemma {:induction false} DrainEmpties(d: Desk, errored: Pcb)
    ensures Drain(d, errored).queue == []
    decreases |d.queue|
  {
    if d.queue != [] {
      DrainEmpties(DrainedHead(d, errored), errored);
    }
  }

  lemma OpKeepsArranged(d: Desk, op: Op)
    requires Arranged(d) && Allowed(d, op)
    ensures Arranged(Apply(d, op))
  {
    match op
    case DoReceive(k, pb, fits) =>
      var e := Receive(d, k, pb, fits);
      forall x | x in e.queue ensures Within(x.pb, e.ledger.arrived) {
        var i :| 0 <= i < |e.queue| && e.queue[i] == x;
        WithinGrows(d.queue[i].pb, d.ledger.arrived, pb);
      }
    case DoStray(pb) =>
      forall x | x in d.queue ensures Within(x.pb, d.ledger.arrived + [pb]) {
        WithinGrows(x.pb, d.ledger.arrived, pb);
      }
    case DoPromote(serve) =>
      if serve == NoClient {
        DrainEmpties(Settle(Abort(Pop(d), d.queue[0].pcb), d.queue[0].ticket, Gone), d.queue[0].pcb);
      }
    case DoError(errored, t) =>
      DrainEmpties(d, errored);
      DrainEmpties(Settle(d, t, Gone), errored);
    case DoPark(_, _) =>
    case DoShed(_) =>
    case DoReap(_, _) =>
  }

  lemma {:induction false} RunKeepsArranged(d: Desk, ops: seq<Op>)
    requires Arranged(d) && Run(d, ops)
    ensures Arranged(Exec(d, ops))
    decreases |ops|
  {
    if ops != [] {
      OpKeepsArranged(d, ops[0]);
      RunKeepsArranged(Apply(d, ops[0]), ops[1..]);
    }
  }

  /**
   In every run, what a promotion stages in its client is what the connection had buffered,
   in the order it arrived: nothing if the client could not be allocated.
   */
  lemma StagedInOrder(ops: seq<Op>, serve: Serve)
    requires Run(Empty(), ops) && Exec(Empty(), ops).queue != []
    ensures var d := Exec(Empty(), ops);
      var (e, pbs) := (Promote(d, serve), d.queue[0].pb);
      && e.ledger.staged == (if serve == NoClient then d.ledger.staged else d.ledger.staged + pbs)
      && Within(pbs, d.ledger.arrived)
  {
    RunKeepsArranged(Empty(), ops);
    var d := Exec(Empty(), ops);
    assert d.queue[0] in d.queue;
    DrainStages(Settle(Abort(Pop(d), d.queue[0].pcb), d.queue[0].ticket, Gone), d.queue[0].pcb);
  }

  lemma {:induction false} DrainStages(d: Desk, errored: Pcb)
    ensures Drain(d, errored).ledger.staged == d.ledger.staged
    decreases |d.queue|
  {
    if d.queue != [] {
      DrainStages(DrainedHead(d, errored), errored);
    }
  }

  lemma EmptyIsGood()
    ensures Books(Empty())
  {
  }

  lemma ParkedIffQueued(d: Desk)
    requires OneFate(d)
    ensures forall t: nat :: t in d.ledger.fate ==> (d.ledger.fate[t] == Parked <==> t in Tickets(d.queue))
  {
    forall t: nat | t in d.ledger.fate && t in Tickets(d.queue) ensures d.ledger.fate[t] == Parked {
      var i :| 0 <= i < |d.queue| && Tickets(d.queue)[i] == t;
    }
  }

  // ---- Which operation a callback performs ----

  function ChainLen(chain: seq<Pbuf>): nat
  {
    if chain == [] then 0 else chain[0].len + ChainLen(chain[1..])
  }

  lemma {:induction false} ChainLenSnoc(chain: seq<Pbuf>, pb: Pbuf)
    ensures ChainLen(chain + [pb]) == ChainLen(chain) + pb.len
  {
    if chain == [] {
      assert [pb][1..] == [];
    } else {
      assert (chain + [pb])[1..] == chain[1..] + [pb];
      ChainLenSnoc(chain[1..], pb);
    }
  }

  /** The position of the first entry of `pcb`, or the length of the queue. */
  function Find(q: seq<Entry>, pcb: Pcb): (k: nat)
    ensures k <= |q|
    ensures forall i :: 0 <= i < k ==> q[i].pcb != pcb
    ensures k < |q| ==> q[k].pcb == pcb
  {
    if q == [] || q[0].pcb == pcb then 0 else 1 + Find(q[1..], pcb)
  }

  lemma FoundAt(q: seq<Entry>, pcb: Pcb, k: nat)
    requires k <= |q|
    requires forall i :: 0 <= i < k ==> q[i].pcb != pcb
    requires k < |q| ==> q[k].pcb == pcb
    ensures Find(q, pcb) == k
  {
    var f := Find(q, pcb);
    assert f < |q| ==> q[f].pcb == pcb;
  }

  /** A 32-bit millisecond clock, which wraps. */
  function Elapsed(now: nat, since: nat): nat
    requires since < 0x1_0000_0000
  {
    (now + 0x1_0000_0000 - since) % 0x1_0000_0000
  }

  /** `_s_poll`: reap an orphan, shed the idle, promote the head, or nothing. */
  function PollOp(limits: Limits, d: Desk, pcb: Pcb, t: nat, now: nat, live: nat, serve: Serve): Option<Op>
    requires forall i :: 0 <= i < |d.queue| ==> d.queue[i].parkedMs < 0x1_0000_0000
  {
    var k := Find(d.queue, pcb);
    if k == |d.queue| then Some(DoReap(t, pcb))
    else if Elapsed(now, d.queue[k].parkedMs) > limits.idleMs then Some(DoShed(k))
    else if k == 0 && live < limits.maxLive then Some(DoPromote(serve))
    else None
  }

  /** `_s_recv`: drop a stray, shed on the peer's close, buffer what fits under the cap. */
  function RecvOp(limits: Limits, d: Desk, pcb: Pcb, pb: Option<Pbuf>): Option<Op>
  {
    var k := Find(d.queue, pcb);
    if k == |d.queue| then (if pb.Some? then Some(DoStray(pb.value)) else None)
    else if pb.None? then Some(DoShed(k))
    else Some(DoReceive(k, pb.value, ChainLen(d.queue[k].pb) + pb.value.len <= limits.rxCap))
  }

  /** On the wrapping clock the time since `at` is what it is, as long as it is below 2^32 milliseconds. */
  lemma ElapsedIsTime(at: nat, dt: nat)
    requires dt < 0x1_0000_0000
    ensures Elapsed((at + dt) % 0x1_0000_0000, at % 0x1_0000_0000) == dt
  {
    var w := 0x1_0000_0000;
    var since, now := at % w, (at + dt) % w;
    assert now == since + dt || now == since + dt - w;
  }

  /** The position behind which a connection just parked is found. */
  lemma ParkedIsLast(d: Desk, pcb: Pcb, now: nat)
    requires Books(d) && NewPcb(d, pcb)
    ensures Find(Park(d, pcb, now).queue, pcb) == |d.queue|
  {
    forall i | 0 <= i < |d.queue| ensures d.queue[i].pcb != pcb {
      var e := d.queue[i];
      assert !HeldAs(d, e.ticket, pcb);
    }
    FoundAt(Park(d, pcb, now).queue, pcb, |d.queue|);
  }

  /**
   A connection parked at time `at` and polled `dt` later is shed exactly if it has waited
   longer than the idle limit, across any wrap of the clock; otherwise it is promoted exactly
   if nobody waits ahead of it and there is budget.
   */
  lemma PolledAfter(limits: Limits, d: Desk, pcb: Pcb, at: nat, dt: nat, t: nat, live: nat, serve: Serve)
    requires Books(d) && NewPcb(d, pcb) && dt < 0x1_0000_0000
    requires forall i :: 0 <= i < |d.queue| ==> d.queue[i].parkedMs < 0x1_0000_0000
    ensures var (e, w) := (Park(d, pcb, at % 0x1_0000_0000), 0x1_0000_0000);
      var op := PollOp(limits, e, pcb, t, (at + dt) % w, live, serve);
      && (dt > limits.idleMs <==> op == Some(DoShed(|d.queue|)))
      && (dt <= limits.idleMs && d.queue == [] && live < limits.maxLive <==> op == Some(DoPromote(serve)))
      && (op == None || op == Some(DoShed(|d.queue|)) || op == Some(DoPromote(serve)))
  {
    ElapsedIsTime(at, dt);
    ParkedIsLast(d, pcb, at % 0x1_0000_0000);
  }

  /**
   What a delivery to a parked connection comes to: it joins the end of the connection's
   buffers exactly if they then hold no more than the cap, and no connection's buffers ever
   exceed the cap.
   */
  lemma CapIsKept(limits: Limits, d: Desk, pcb: Pcb, pb: Pbuf)
    requires Find(d.queue, pcb) < |d.queue|
    requires forall e :: e in d.queue ==> ChainLen(e.pb) <= limits.rxCap
    ensures var (k, e) := (Find(d.queue, pcb), ApplyMaybe(d, RecvOp(limits, d, pcb, Some(pb))));
      && |e.queue| == |d.queue|
      && (forall x :: x in e.queue ==> ChainLen(x.pb) <= limits.rxCap)
      && (forall i :: 0 <= i < |d.queue| && i != k ==> e.queue[i] == d.queue[i])
      && e.queue[k] == d.queue[k].(pb := e.queue[k].pb)
      && (e.queue[k].pb == d.queue[k].pb + [pb] <==> ChainLen(d.queue[k].pb) + pb.len <= limits.rxCap)
      && (e.queue[k].pb == d.queue[k].pb <==> ChainLen(d.queue[k].pb) + pb.len > limits.rxCap)
      && e.ledger.arrived == d.ledger.arrived + [pb]
  {
    var k := Find(d.queue, pcb);
    ChainLenSnoc(d.queue[k].pb, pb);
    assert d.queue[k] in d.queue;
    assert |d.queue[k].pb + [pb]| != |d.queue[k].pb|;
  }

  /** A close by the peer resets a parked connection. */
  lemma PeerCloses(limits: Limits, d: Desk, t: nat, pcb: Pcb)
    requires Books(d) && HeldAs(d, t, pcb) && d.ledger.fate[t] == Parked
    ensures var op := RecvOp(limits, d, pcb, None);
      && op.Some? && Allowed(d, op.value)
      && var l := Apply(d, op.value).ledger;
         t in l.fate && l.fate[t] == Gone && l.aborted == d.ledger.aborted + [pcb]
  {
    ParkedIsFound(d, t);
    var k := Find(d.queue, pcb);
    assert HeldAs(d, d.queue[k].ticket, pcb);
    OpFates(d, DoShed(k), t);
    OpAborts(d, DoShed(k));
  }

  /** While the books hold, whatever a poll or delivery leads to is an allowed operation. */
  lemma CallbacksAllowed(limits: Limits, d: Desk, pcb: Pcb, t: nat, now: nat, live: nat, serve: Serve, pb: Option<Pbuf>)
    requires Books(d) && HeldAs(d, t, pcb)
    requires forall i :: 0 <= i < |d.queue| ==> d.queue[i].parkedMs < 0x1_0000_0000
    ensures var op := PollOp(limits, d, pcb, t, now, live, serve); op.Some? ==> Allowed(d, op.value)
    ensures var op := RecvOp(limits, d, pcb, pb); op.Some? ==> Allowed(d, op.value)
  {
    if Find(d.queue, pcb) == |d.queue| {
      UnqueuedIsOrphan(d, t, pcb);
    }
  }

  ghost function ApplyMaybe(d: Desk, op: Option<Op>): Desk
    requires op.Some? ==> Allowed(d, op.value)
  {
    if op.Some? then Apply(d, op.value) else d
  }

  /** The operation of a poll, spelled out. */
  lemma PollApplies(limits: Limits, d: Desk, pcb: Pcb, t: nat, now: nat, live: nat, serve: Serve)
    requires forall i :: 0 <= i < |d.queue| ==> d.queue[i].parkedMs < 0x1_0000_0000
    requires Allowed(d, DoReap(t, pcb)) || Find(d.queue, pcb) < |d.queue|
    ensures var (op, k) := (PollOp(limits, d, pcb, t, now, live, serve), Find(d.queue, pcb));
      && (op.Some? ==> Allowed(d, op.value))
      && ApplyMaybe(d, op)
         == if k == |d.queue| then Reap(d, t, pcb)
            else if Elapsed(now, d.queue[k].parkedMs) > limits.idleMs then Shed(d, k)
            else if k == 0 && live < limits.maxLive then Promote(d, serve)
            else d
  {
  }

  /** The operation of a delivery, spelled out. */
  lemma RecvApplies(limits: Limits, d: Desk, pcb: Pcb, pb: Option<Pbuf>)
    ensures var (op, k) := (RecvOp(limits, d, pcb, pb), Find(d.queue, pcb));
      && (op.Some? ==> Allowed(d, op.value))
      && ApplyMaybe(d, op)
         == if k == |d.queue| then (if pb.Some? then Stray(d, pb.value) else d)
            else if pb.None? then Shed(d, k)
            else Receive(d, k, pb.value, ChainLen(d.queue[k].pb) + pb.value.len <= limits.rxCap)
  {
  }

  lemma ParkedIsFound(d: Desk, t: nat)
    requires OneFate(d)
    ensures t in d.ledger.fate && d.ledger.fate[t] == Parked ==> t in d.ledger.pcbOf && Find(d.queue, d.ledger.pcbOf[t]) < |d.queue|
  {
    if t in d.ledger.fate && d.ledger.fate[t] == Parked {
      assert t in Tickets(d.queue);
      var i :| 0 <= i < |d.queue| && Tickets(d.queue)[i] == t;
      assert d.queue[i].pcb == d.ledger.pcbOf[t];
    }
  }

  /** A pcb lwIP still has for us but that is not in the queue is an orphan. */
  lemma UnqueuedIsOrphan(d: Desk, t: nat, pcb: Pcb)
    requires Books(d) && HeldAs(d, t, pcb) && Find(d.queue, pcb) == |d.queue|
    ensures d.ledger.fate[t] == Orphaned
  {
    ParkedIsFound(d, t);
  }
}
