/**
 Receive-window credit on the plain path (AsyncTCP.cpp): _recv, ack, ackLater, close and
 abort, with application callbacks that may call any of them again, to any depth.

 What a callback does is a finite tree of actions chosen freely; lwIP's own steps
 (new data arriving, the connection failing) are actions too, so they can fall inside any
 callback.  Contexts of _recv and _error form the `_cb_ctx` chain, innermost first.
 */
module ReceiveWindow {
  import opened Common

  datatype Pbuf = Pbuf(id: nat, len: nat)

  datatype Action =
    | AckLater
    | Ack(len: nat)
    | Close(raced: bool, onDisconnect: seq<Action>)
    | Abort(onError: seq<Action>, onDisconnect: seq<Action>)
    | LwipData(len: nat)
    | LwipError

  /** One application callback; `raced` puts an lwIP failure between its return and the code that follows. */
  datatype Callback = Callback(script: seq<Action>, raced: bool)

  /** AsyncClientCallbackContext; its client_is_valid is settled by Lifecycle.NeverSeenDead. */
  datatype Context = Context(ackLater: bool, ackLen: nat)

  function AckSum(ctx: seq<Context>): nat
  {
    if ctx == [] then 0 else ctx[0].ackLen + AckSum(ctx[1..])
  }

  function Lens(ctx: seq<Context>): (r: seq<nat>)
    ensures |r| == |ctx|
  {
    seq(|ctx|, i requires 0 <= i < |ctx| => ctx[i].ackLen)
  }

  lemma {:induction false} AckSumIsLens(ctx: seq<Context>)
    ensures AckSum(ctx) == Sum(Lens(ctx))
  {
    if ctx != [] {
      AckSumIsLens(ctx[1..]);
      assert Lens(ctx)[1..] == Lens(ctx[1..]);
    }
  }

  lemma LensTail(a: seq<Context>, b: seq<Context>)
    requires Lens(a) == Lens(b) && b != []
    ensures a != [] && a[0].ackLen == b[0].ackLen && Lens(a[1..]) == Lens(b[1..])
  {
    assert |Lens(a)| == |a| && |Lens(b)| == |b|;
    assert Lens(a)[0] == Lens(b)[0];
    assert Lens(a[1..]) == Lens(a)[1..] && Lens(b[1..]) == Lens(b)[1..];
  }

  /** Marking contexts ack-later changes no length, so the sum stays. */
  lemma SameLensSameSum(a: seq<Context>, b: seq<Context>)
    requires Lens(a) == Lens(b)
    ensures AckSum(a) == AckSum(b)
  {
    AckSumIsLens(a);
    AckSumIsLens(b);
  }

  function TotalLen(chain: seq<Pbuf>): nat
  {
    if chain == [] then 0 else chain[0].len + TotalLen(chain[1..])
  }

  function Ids(chain: seq<Pbuf>): (r: seq<nat>)
    ensures |r| == |chain|
  {
    seq(|chain|, i requires 0 <= i < |chain| => chain[i].id)
  }

  // ---- What callbacks do to the credit, on values ----

  /** Deferred credit, issued credit, and whether the innermost callback has asked to ack later. */
  datatype Window = Window(rxAckLen: nat, credited: nat, later: bool)

  /** The connection does not survive the action. */
  predicate Fatal(a: Action)
  {
    a.Close? || a.Abort? || a.LwipError?
  }

  predicate Ends(script: seq<Action>)
  {
    script != [] && (Fatal(script[0]) || Ends(script[1..]))
  }

  function Least(a: nat, b: nat): nat
  {
    if a < b then a else b
  }

  /** One action of a callback that leaves the connection open. */
  function Play1(a: Action, w: Window): Window
  {
    match a
    case AckLater => w.(later := true)
    case Ack(len) => w.(rxAckLen := w.rxAckLen - Least(len, w.rxAckLen), credited := w.credited + Least(len, w.rxAckLen))
    case _ => w
  }

  function Play(script: seq<Action>, w: Window): Window
  {
    if script == [] then w else Play(script[1..], Play1(script[0], w))
  }

  /**
   Credit issued in all by a script that begins with the connection open and `held` bytes
   held by callbacks in progress: a close() returns everything at once, an abort or a
   failure nothing more.
   */
  function Issued(script: seq<Action>, w: Window, held: nat): nat
  {
    if script == [] then w.credited
    else if script[0].Close? then w.credited + if script[0].raced then 0 else w.rxAckLen + held
    else if Fatal(script[0]) then w.credited
    else Issued(script[1..], Play1(script[0], w), held)
  }

  /** How a receive loop ends: buffers given to callbacks, whether the connection is open, and the credit. */
  datatype Outcome = Outcome(given: nat, open: bool, w: Window)

  /** The receive loop from buffer `i` on, over an open connection; onPacket buffers hold no credit. */
  function Loop(chain: seq<Pbuf>, callbacks: seq<Callback>, onPacket: bool, i: nat, w: Window, outer: nat): Outcome
    requires i <= |chain| == |callbacks|
    decreases |chain| - i
  {
    if i == |chain| then Outcome(i, true, w)
    else
      var (script, len) := (callbacks[i].script, if onPacket then 0 else chain[i].len);
      var v := Play(script, w.(later := false));
      if Ends(script) then
        Outcome(i + 1, false, v.(credited := Issued(script, w.(later := false), len + outer)))
      else if callbacks[i].raced then
        // The loop does not notice before the next buffer's callback has run.
        Outcome(if i + 1 < |chain| then i + 2 else i + 1, false, v)
      else
        Loop(chain, callbacks, onPacket, i + 1,
             if v.later then v.(rxAckLen := v.rxAckLen + len) else v.(credited := v.credited + len), outer)
  }

  class AsyncClient {
    const noSys: bool               // lwIP built without its own thread
    var pcb: bool                   // _pcb != nullptr
    var errorQueued: bool           // an ERROR packet of this client waits in the queue
    var rxAckLen: nat
    var cbCtx: seq<Context>
    var errored: nat                // onError calls
    var fired: nat                  // onDisconnect calls
    var freed: seq<nat>
    var handed: seq<nat>
    ghost var received: nat         // bytes lwIP handed in while the connection was open
    ghost var undelivered: nat      // ... of which not yet given to a callback
    ghost var packetBytes: nat      // ... given to onPacket, whose owner acks them itself
    ghost var delivered: nat        // bytes given to onData
    ghost var credited: nat         // window credit returned by tcp_recved
    ghost var closedWith: Option<nat> // set by a close() that took the pcb down: bytes delivered by then
    ghost var carried: nat          // deferred credit of an earlier connection, still there at adoption

    /**
     Conservation: while the connection is open, credit issued, credit deferred, credit of
     the callbacks in progress and bytes not yet delivered make up what was received, and
     what an earlier connection left deferred.  A close() leaves the credit at exactly the
     bytes delivered, and that.  Credit never exceeds it.
     */
    ghost predicate Valid()
      reads this
    {
      && (pcb ==> credited + rxAckLen + AckSum(cbCtx) + undelivered + packetBytes == received + carried)
      && (pcb ==> credited + rxAckLen + AckSum(cbCtx) == delivered + carried)
      && credited <= delivered + carried
      && (closedWith.Some? ==> !pcb && credited == closedWith.value + carried)
    }

    /** The property proper: no credit but for bytes of this connection. */
    ghost predicate Conserved()
      reads this
    {
      && (pcb ==> credited + rxAckLen + AckSum(cbCtx) + undelivered + packetBytes == received)
      && credited <= delivered
      && (closedWith.Some? ==> credited == closedWith.value)
    }

    constructor (noSys: bool)
      ensures Valid() && Conserved() && pcb && this.noSys == noSys && received == credited == 0 && carried == 0
      ensures rxAckLen == delivered == undelivered == packetBytes == 0 && cbCtx == []
    {
      this.noSys := noSys;
      pcb, errorQueued, rxAckLen, cbCtx, freed, handed := true, false, 0, [], [], [];
      errored, fired := 0, 0;
      received, undelivered, packetBytes, delivered, credited, closedWith := 0, 0, 0, 0, 0, None;
      carried := 0;
    }

    /**
     `_connected` on a client used before, with `waiting` bytes already queued behind the
     packet.  It takes the new pcb and leaves `_rx_ack_len` as the last connection left it,
     so conservation holds from here on exactly if nothing was deferred then.
     */
    method Reconnect(ghost waiting: nat)
      requires !pcb && cbCtx == []
      modifies this
      ensures Valid() && pcb && rxAckLen == old(rxAckLen) && cbCtx == []
      ensures carried == old(rxAckLen) && received == undelivered == waiting
      ensures delivered == credited == packetBytes == 0 && closedWith == None
      ensures freed == old(freed) && handed == old(handed)
      ensures Conserved() <==> old(rxAckLen) == 0
    {
      pcb := true;
      received, undelivered, packetBytes, delivered, credited, closedWith := waiting, waiting, 0, 0, 0, None;
      carried := rxAckLen;
    }

    /** In any state of a connection, conservation is off by exactly what was carried into it. */
    lemma ConservedIffNothingCarried()
      requires Valid()
      ensures carried == 0 ==> Conserved()
      ensures pcb || closedWith.Some? ==> (Conserved() <==> carried == 0)
    {
    }

    ghost function Win(): Window
      reads this
    {
      Window(rxAckLen, credited, cbCtx == [] || cbCtx[0].ackLater)
    }

    /** An onDisconnect call is due: with the connection, or with the ERROR packet that took its place. */
    ghost function Due(): nat
      reads this
    {
      if pcb || errorQueued then 1 else 0
    }

    /** `_tcp_recved`: does nothing once lwIP has taken the pcb away. */
    method TcpRecved(len: nat)
      modifies `credited
      ensures credited == if pcb then old(credited) + len else old(credited)
    {
      if pcb {
        credited := credited + len;
      }
    }

    method AckLaterAll()
      requires Valid()
      modifies `cbCtx
      ensures Valid() && Lens(cbCtx) == Lens(old(cbCtx))
      ensures forall i :: 0 <= i < |cbCtx| ==> cbCtx[i].ackLater
    {
      var marked := seq(|cbCtx|, i requires 0 <= i < |cbCtx| reads this => cbCtx[i].(ackLater := true));
      SameLensSameSum(marked, cbCtx);
      cbCtx := marked;
    }

    /** `ack`: returns deferred credit, never more than is deferred. */
    method AckDeferred(len: nat) returns (done: nat)
      requires Valid()
      modifies `rxAckLen, `credited
      ensures Valid()
      ensures done == if len > old(rxAckLen) then old(rxAckLen) else len
      ensures rxAckLen == old(rxAckLen) - done
      ensures pcb ==> credited == old(credited) + done
      ensures !pcb ==> credited == old(credited)
    {
      done := if len > rxAckLen then rxAckLen else len;
      if done > 0 {
        TcpRecved(done);
      }
      rxAckLen := rxAckLen - done;
    }

    /** What any call made from inside a callback may have done, and what it left alone. */
    twostate predicate Nested()
      reads this
    {
      && Lens(cbCtx) == Lens(old(cbCtx))
      && (pcb ==> old(pcb))
      && freed == old(freed) && handed == old(handed)
      && delivered == old(delivered) && packetBytes == old(packetBytes) && carried == old(carried)
      && undelivered >= old(undelivered)
      && (!old(pcb) ==> credited == old(credited) && closedWith == old(closedWith))
      && (old(pcb) && closedWith.Some? ==> closedWith == Some(delivered))
      && fired + Due() == old(fired) + old(Due())
      && errored >= old(errored) && (old(Due()) == 0 ==> Due() == 0 && errored == old(errored))
    }

    /**
     Any call from inside a callback: what each does, and what the callback that made it can
     rely on.
     */
    method Perform(a: Action)
      requires Valid()
      modifies this
      ensures Valid() && Nested()
      ensures old(pcb) ==> pcb == !Fatal(a)
      ensures old(pcb) && !Fatal(a) ==> Win() == Play1(a, old(Win())) && AckSum(cbCtx) == old(AckSum(cbCtx))
      ensures old(pcb) && Fatal(a) ==> credited == Issued([a], old(Win()), old(AckSum(cbCtx)))
      ensures a.AckLater? ==> forall i :: 0 <= i < |cbCtx| ==> cbCtx[i].ackLater
      ensures a.Ack? ==> rxAckLen == old(rxAckLen) - Least(a.len, old(rxAckLen))
      ensures a.Close? ==> !pcb && !errorQueued
      ensures a.Close? && old(pcb) && !a.raced ==> closedWith == Some(delivered) && credited == delivered + carried
      ensures a.Abort? && old(pcb) ==> !errorQueued && errored == old(errored) + 1
      ensures a.LwipData? && old(pcb) ==> received == old(received) + a.len && undelivered == old(undelivered) + a.len
      ensures a.LwipError? && old(pcb) ==> errorQueued
      decreases a, 1
    {
      match a
      case AckLater => AckLaterAll();
      case Ack(len) => var done := AckDeferred(len);
      case Close(raced, onDisconnect) => CloseConnection(raced, onDisconnect);
      case Abort(_, _) => AbortConnection(a);
      case LwipData(len) =>
        if pcb {
          received, undelivered := received + len, undelivered + len;
        }
      case LwipError =>
        LwipFails();
    }

    /**
     Any sequence of calls: the connection survives exactly if none of them ends it, and the
     credit is what they say, together with what a close() returns.
     */
    method RunScript(script: seq<Action>)
      requires Valid()
      modifies this
      ensures Valid() && Nested()
      ensures old(pcb) ==> pcb == !Ends(script)
      ensures old(pcb) && !Ends(script) ==> Win() == Play(script, old(Win()))
      ensures old(pcb) ==> credited == Issued(script, old(Win()), old(AckSum(cbCtx)))
      decreases script, 0
    {
      if script != [] {
        Perform(script[0]);
        RunScript(script[1..]);
      }
    }

    /** `tcp_error`: lwIP has freed the pcb; an ERROR packet follows through the queue. */
    method LwipFails()
      requires Valid()
      modifies `pcb, `errorQueued
      ensures Valid() && !pcb
      ensures errorQueued == (old(errorQueued) || old(pcb))
    {
      if pcb {
        pcb, errorQueued := false, true;
      }
    }

    /** The credit `close` returns: what was deferred plus what callbacks in progress hold. */
    method PendingCredit() returns (pending: nat)
      ensures pending == rxAckLen + AckSum(cbCtx)
    {
      pending := rxAckLen;
      var i := 0;
      while i < |cbCtx|
        invariant 0 <= i <= |cbCtx|
        invariant pending + AckSum(cbCtx[i..]) == rxAckLen + AckSum(cbCtx)
      {
        assert cbCtx[i..][1..] == cbCtx[i + 1..];
        pending := pending + cbCtx[i].ackLen;
        i := i + 1;
      }
    }

    /** The first half of `close`, up to the teardown. */
    method SettleAndDrop(raced: bool) returns (disposed: bool)
      requires Valid()
      modifies `rxAckLen, `credited, `pcb, `errorQueued, `closedWith
      ensures Valid() && !pcb && !errorQueued
      ensures old(pcb) ==> credited == old(credited) + if raced then 0 else old(rxAckLen) + AckSum(cbCtx)
      ensures old(pcb) && !raced ==> closedWith == Some(delivered) && credited == delivered + carried
      ensures old(pcb) && closedWith.Some? ==> closedWith == Some(delivered)
      ensures !old(pcb) ==> credited == old(credited) && closedWith == old(closedWith)
      ensures rxAckLen == if old(pcb) then 0 else old(rxAckLen)
      ensures disposed <==> old(pcb) || old(errorQueued)
    {
      if pcb {
        var pending := PendingCredit();
        rxAckLen := 0;
        if raced {
          pcb, errorQueued := false, true;
        }
        if pending > 0 {
          TcpRecved(pending);
        }
      }
      // _tcp_close: interlocked teardown and purge.
      disposed := pcb || errorQueued;
      if pcb {
        closedWith := Some(delivered);
      }
      pcb, errorQueued := false, false;
    }

    /** `close`: credits exactly what was delivered, tears down, then runs onDisconnect. */
    method CloseConnection(raced: bool, onDisconnect: seq<Action>)
      requires Valid()
      modifies this
      ensures Valid() && Nested() && !pcb && !errorQueued
      ensures old(pcb) && !raced ==> closedWith == Some(delivered) && credited == delivered + carried
      ensures old(pcb) ==> credited == old(credited) + if raced then 0 else old(rxAckLen) + old(AckSum(cbCtx))
      ensures fired == old(fired) + old(Due())
      decreases onDisconnect, 1
    {
      var disposed := SettleAndDrop(raced);
      if disposed {
        fired := fired + 1;
        label Dropped:
        RunScript(onDisconnect);
        assert Nested@Dropped();
      }
    }

    /** `abort`, then `_error` with its own callback context, then onDisconnect. */
    method AbortConnection(a: Action)
      requires a.Abort?
      requires Valid()
      modifies this
      ensures Valid() && Nested()
      ensures old(pcb) ==> !pcb && !errorQueued && credited == old(credited)
      ensures old(pcb) || (noSys && old(errorQueued)) ==> errored == old(errored) + 1 && fired == old(fired) + 1
      decreases a, 0
    {
      var found := pcb || (noSys && errorQueued);
      if found {
        pcb, errorQueued := false, false;
        cbCtx := [Context(false, 0)] + cbCtx;
        ghost var entered := cbCtx;
        errored := errored + 1;
        RunScript(a.onError);
        LensTail(cbCtx, entered);
        cbCtx := cbCtx[1..];
        fired := fired + 1;
        RunScript(a.onDisconnect);
      }
    }

    /** Between two buffers the loop's own context holds nothing. */
    ghost predicate LoopContext(outer: seq<nat>)
      reads this
    {
      Lens(cbCtx) == [0] + outer
    }

    /** Replaces the innermost context, keeping the ones beneath it. */
    method SetInnermost(ctx: Context)
      requires cbCtx != []
      modifies `cbCtx
      ensures |cbCtx| == |old(cbCtx)| && cbCtx[0] == ctx && cbCtx[1..] == old(cbCtx)[1..]
      ensures AckSum(cbCtx) == ctx.ackLen + AckSum(old(cbCtx)[1..])
      ensures Lens(cbCtx) == [ctx.ackLen] + Lens(old(cbCtx))[1..]
    {
      assert Lens(cbCtx)[1..] == Lens(cbCtx[1..]);
      cbCtx := [ctx] + cbCtx[1..];
      assert Lens(cbCtx) == [ctx.ackLen] + Lens(cbCtx[1..]);
    }

    lemma OuterSum(outer: seq<nat>)
      requires cbCtx != [] && Lens(cbCtx)[1..] == outer
      ensures AckSum(cbCtx[1..]) == Sum(outer)
    {
      AckSumIsLens(cbCtx[1..]);
      assert Lens(cbCtx[1..]) == Lens(cbCtx)[1..];
    }

    /** After onData: credit the buffer now, or defer it if the callback asked to ack later. */
    method SettleBuffer(b: Pbuf, raced: bool, ghost outer: seq<nat>)
      requires Valid() && pcb && Lens(cbCtx) == [b.len] + outer
      modifies `rxAckLen, `credited, `pcb, `errorQueued, `cbCtx
      ensures Valid() && LoopContext(outer)
      ensures pcb == !raced && errorQueued == (old(errorQueued) || raced)
      ensures raced ==> credited == old(credited)
      ensures !raced && old(cbCtx[0]).ackLater ==> credited == old(credited) && rxAckLen == old(rxAckLen) + b.len
      ensures !raced && !old(cbCtx[0]).ackLater ==> credited == old(credited) + b.len && rxAckLen == old(rxAckLen)
    {
      assert cbCtx[0].ackLen == Lens(cbCtx)[0] == b.len;
      var later := cbCtx[0].ackLater;
      if raced {
        pcb, errorQueued := false, true;
      }
      if !later {
        TcpRecved(cbCtx[0].ackLen);
      } else {
        rxAckLen := rxAckLen + cbCtx[0].ackLen;
      }
      SetInnermost(Context(later, 0));
    }

    /** One turn of the `_recv` loop with onData registered. */
    method DataBuffer(b: Pbuf, cb: Callback, ghost outer: seq<nat>) returns (goOn: bool)
      requires Valid() && LoopContext(outer)
      requires pcb ==> b.len <= undelivered
      modifies this
      ensures Valid()
      ensures if goOn then LoopContext(outer) else !pcb && Lens(cbCtx) == [b.len] + outer
      ensures freed == old(freed) + [b.id] && handed == old(handed)
      ensures delivered == old(delivered) + b.len
      ensures pcb ==> old(pcb) && undelivered >= old(undelivered) - b.len
      ensures old(pcb) && closedWith.Some? ==> closedWith == Some(delivered) && !goOn
      ensures carried == old(carried) && fired + Due() == old(fired) + old(Due())
      ensures !old(pcb) ==> !goOn && credited == old(credited) && closedWith == old(closedWith)
      ensures old(pcb) ==> Turned(cb, b.len, old(Win()), goOn, Sum(outer))
    {
      assert cbCtx[0].ackLen == Lens(cbCtx)[0] == 0;
      OuterSum(outer);
      SetInnermost(Context(false, b.len));
      delivered := delivered + b.len;
      undelivered := if pcb then undelivered - b.len else undelivered;
      RunScript(cb.script);
      freed := freed + [b.id];
      if !pcb {
        return false;
      }
      SettleBuffer(b, cb.raced, outer);
      goOn := true;
    }

    /** What one turn of the loop over an open connection did, `len` bytes of credit being the buffer's. */
    ghost predicate Turned(cb: Callback, len: nat, before: Window, goOn: bool, outer: nat)
      reads this
    {
      var w := before.(later := false);
      var v := Play(cb.script, w);
      if Ends(cb.script) then !goOn && !pcb && credited == Issued(cb.script, w, len + outer)
      else if cb.raced then goOn && !pcb && credited == v.credited
      else
        && goOn && pcb
        && rxAckLen == v.rxAckLen + (if v.later then len else 0)
        && credited == v.credited + (if v.later then 0 else len)
    }

    /** One turn of the `_recv` loop with onPacket registered: the buffer belongs to the callback. */
    method PacketBuffer(b: Pbuf, cb: Callback, ghost outer: seq<nat>) returns (goOn: bool)
      requires Valid() && LoopContext(outer)
      requires pcb ==> b.len <= undelivered
      modifies this
      ensures Valid() && LoopContext(outer)
      ensures !goOn ==> !pcb
      ensures handed == old(handed) + [b.id] && freed == old(freed)
      ensures delivered == old(delivered)
      ensures pcb ==> old(pcb) && undelivered >= old(undelivered) - b.len
      ensures old(pcb) && closedWith.Some? ==> closedWith == Some(delivered) && !goOn
      ensures carried == old(carried) && fired + Due() == old(fired) + old(Due())
      ensures !old(pcb) ==> !goOn && credited == old(credited) && closedWith == old(closedWith)
      ensures old(pcb) ==> Turned(cb, 0, old(Win()), goOn, Sum(outer))
    {
      assert cbCtx[0].ackLen == Lens(cbCtx)[0] == 0;
      OuterSum(outer);
      SetInnermost(Context(false, 0));
      handed := handed + [b.id];
      if pcb {
        undelivered, packetBytes := undelivered - b.len, packetBytes + b.len;
      }
      RunScript(cb.script);
      goOn := pcb;
      if cb.raced {
        LwipFails();
      }
    }

    /** `_recv` unlinks its context, which holds no credit unless the connection is gone. */
    method LeaveLoop(ghost outer: seq<nat>)
      requires Valid() && cbCtx != [] && Lens(cbCtx)[1..] == outer
      requires pcb ==> LoopContext(outer)
      modifies `cbCtx
      ensures Valid() && Lens(cbCtx) == outer
    {
      assert Lens(cbCtx[1..]) == Lens(cbCtx)[1..];
      assert cbCtx[0].ackLen == Lens(cbCtx)[0];
      cbCtx := cbCtx[1..];
    }

    /** One turn of the `_recv` loop. */
    method OneBuffer(b: Pbuf, cb: Callback, onPacket: bool, ghost outer: seq<nat>) returns (goOn: bool)
      requires Valid() && LoopContext(outer)
      requires pcb ==> b.len <= undelivered
      modifies this
      ensures Valid()
      ensures if goOn then LoopContext(outer) else !pcb && cbCtx != [] && Lens(cbCtx)[1..] == outer
      ensures freed == old(freed) + (if onPacket then [] else [b.id])
      ensures handed == old(handed) + (if onPacket then [b.id] else [])
      ensures delivered == old(delivered) + (if onPacket then 0 else b.len)
      ensures pcb ==> old(pcb) && undelivered >= old(undelivered) - b.len
      ensures old(pcb) && closedWith.Some? ==> closedWith == Some(delivered) && !goOn
      ensures carried == old(carried) && fired + Due() == old(fired) + old(Due())
      ensures !old(pcb) ==> !goOn && credited == old(credited) && closedWith == old(closedWith)
      ensures old(pcb) ==> Turned(cb, if onPacket then 0 else b.len, old(Win()), goOn, Sum(outer))
    {
      if onPacket {
        goOn := PacketBuffer(b, cb, outer);
      } else {
        goOn := DataBuffer(b, cb, outer);
      }
    }

    /** Where the loop stands before buffer `i`, given how it is to end. */
    ghost predicate OnCourse(chain: seq<Pbuf>, callbacks: seq<Callback>, onPacket: bool, i: nat, goOn: bool, end: Outcome, outer: nat)
      requires i <= |chain| == |callbacks|
      reads this
    {
      if pcb then goOn && Loop(chain, callbacks, onPacket, i, Win(), outer).(w := end.w) == end
                       && SameCredit(Loop(chain, callbacks, onPacket, i, Win(), outer).w, end.w)
      else
        && !end.open && credited == end.w.credited
        && end.given == if goOn && i < |chain| then i + 1 else i
    }

    static ghost predicate SameCredit(v: Window, w: Window)
    {
      v.credited == w.credited && v.rxAckLen == w.rxAckLen
    }

    lemma LoopIgnoresLater(chain: seq<Pbuf>, callbacks: seq<Callback>, onPacket: bool, i: nat, v: Window, w: Window, outer: nat)
      requires i <= |chain| == |callbacks| && SameCredit(v, w)
      ensures var (a, b) := (Loop(chain, callbacks, onPacket, i, v, outer), Loop(chain, callbacks, onPacket, i, w, outer));
        a.given == b.given && a.open == b.open && SameCredit(a.w, b.w)
    {
      assert v.(later := false) == w.(later := false);
    }

    /** The loop of `_recv`: buffers go to the callbacks one by one until the connection is gone. */
    method HandOut(chain: seq<Pbuf>, onPacket: bool, callbacks: seq<Callback>, ghost outer: seq<nat>, ghost end: Outcome) returns (i: nat)
      requires Valid() && LoopContext(outer)
      requires |callbacks| == |chain|
      requires pcb ==> TotalLen(chain) <= undelivered && end == Loop(chain, callbacks, onPacket, 0, Win(), Sum(outer))
      modifies this
      ensures Valid()
      ensures cbCtx != [] && Lens(cbCtx)[1..] == outer && (pcb ==> LoopContext(outer))
      ensures i <= |chain| && (pcb ==> i == |chain|)
      ensures freed == old(freed) + (if onPacket then [] else Ids(chain)[..i])
      ensures handed == old(handed) + (if onPacket then Ids(chain)[..i] else [])
      ensures !onPacket ==> delivered == old(delivered) + TotalLen(chain[..i])
      ensures old(pcb) && closedWith.Some? ==> closedWith == Some(delivered)
      ensures carried == old(carried) && fired + Due() == old(fired) + old(Due())
      ensures !old(pcb) ==> credited == old(credited) && closedWith == old(closedWith) && i == if chain == [] then 0 else 1
      ensures old(pcb) ==> Ended(end, i)
    {
      i := 0;
      var goOn := true;
      assert chain[..0] == [] && chain[0..] == chain && Ids(chain)[..0] == [];
      while i < |chain| && goOn
        invariant 0 <= i <= |chain|
        invariant Valid()
        invariant goOn ==> LoopContext(outer)
        invariant cbCtx != [] && Lens(cbCtx)[1..] == outer
        invariant carried == old(carried) && fired + Due() == old(fired) + old(Due())
        invariant pcb ==> goOn && old(pcb) && TotalLen(chain[i..]) <= undelivered
        invariant freed == old(freed) + (if onPacket then [] else Ids(chain)[..i])
        invariant handed == old(handed) + (if onPacket then Ids(chain)[..i] else [])
        invariant !onPacket ==> delivered == old(delivered) + TotalLen(chain[..i])
        invariant old(pcb) && closedWith.Some? ==> closedWith == Some(delivered) && !goOn
        invariant !old(pcb) ==> credited == old(credited) && closedWith == old(closedWith) && i == if goOn then 0 else 1
        invariant old(pcb) ==> OnCourse(chain, callbacks, onPacket, i, goOn, end, Sum(outer))
      {
        TotalLenSnoc(chain, i);
        assert Ids(chain)[..i + 1] == Ids(chain)[..i] + [chain[i].id];
        goOn := HandOne(chain, onPacket, callbacks, i, end, outer);
        i := i + 1;
      }
    }

    /** One turn, seen from the whole loop. */
    method HandOne(chain: seq<Pbuf>, onPacket: bool, callbacks: seq<Callback>, i: nat, ghost end: Outcome, ghost outer: seq<nat>) returns (goOn: bool)
      requires i < |chain| == |callbacks|
      requires Valid() && LoopContext(outer)
      requires pcb ==> chain[i].len <= undelivered
      modifies this
      ensures Valid()
      ensures if goOn then LoopContext(outer) else !pcb && cbCtx != [] && Lens(cbCtx)[1..] == outer
      ensures freed == old(freed) + (if onPacket then [] else [chain[i].id])
      ensures handed == old(handed) + (if onPacket then [chain[i].id] else [])
      ensures delivered == old(delivered) + (if onPacket then 0 else chain[i].len)
      ensures pcb ==> old(pcb) && undelivered >= old(undelivered) - chain[i].len
      ensures old(pcb) && closedWith.Some? ==> closedWith == Some(delivered) && !goOn
      ensures carried == old(carried) && fired + Due() == old(fired) + old(Due())
      ensures !old(pcb) ==> !goOn && credited == old(credited) && closedWith == old(closedWith)
      ensures old(OnCourse(chain, callbacks, onPacket, i, true, end, Sum(outer))) ==> OnCourse(chain, callbacks, onPacket, i + 1, goOn, end, Sum(outer))
    {
      ghost var w, len := Win(), if onPacket then 0 else chain[i].len;
      goOn := OneBuffer(chain[i], callbacks[i], onPacket, outer);
      if old(pcb) && pcb {
        ghost var v := Play(callbacks[i].script, w.(later := false));
        LoopIgnoresLater(chain, callbacks, onPacket, i + 1,
                         if v.later then v.(rxAckLen := v.rxAckLen + len) else v.(credited := v.credited + len), Win(), Sum(outer));
      }
    }

    /** The loop has ended as `end` says. */
    ghost predicate Ended(end: Outcome, given: nat)
      reads `pcb, `credited, `rxAckLen
    {
      given == end.given && pcb == end.open && credited == end.w.credited && (pcb ==> rxAckLen == end.w.rxAckLen)
    }

    /** Release any unprocessed buffers if the connection went away during a callback, and leave the loop. */
    method ReleaseRest(chain: seq<Pbuf>, i: nat, ghost outer: seq<nat>)
      requires Valid() && i <= |chain| && cbCtx != [] && Lens(cbCtx)[1..] == outer
      requires pcb ==> LoopContext(outer)
      modifies `freed, `cbCtx
      ensures Valid() && Lens(cbCtx) == outer
      ensures freed == old(freed) + Ids(chain)[i..]
    {
      freed := freed + Ids(chain[i..]);
      assert Ids(chain[i..]) == Ids(chain)[i..];
      LeaveLoop(outer);
    }

    /**
     `_recv`: hands the chain's buffers out one by one.  Conservation (Valid) holds at every
     callback and at the end.  On the onData path every buffer of the chain is freed, once
     and in order; on the onPacket path the first `given` are handed over and the others
     freed.  If a callback closed the connection, the credit issued is exactly the bytes
     delivered; if the connection is still open, the whole chain has been delivered.  How
     many buffers are given, and what credit is issued, is what the callbacks' scripts say.
     */
    method Receive(chain: seq<Pbuf>, onPacket: bool, callbacks: seq<Callback>) returns (ghost given: nat)
      requires Valid()
      requires |callbacks| == |chain|
      requires pcb ==> TotalLen(chain) <= undelivered
      modifies this
      ensures Valid()
      ensures Lens(cbCtx) == Lens(old(cbCtx))
      ensures given <= |chain| && (pcb ==> given == |chain|)
      ensures !onPacket ==> freed == old(freed) + Ids(chain) && handed == old(handed)
      ensures !onPacket ==> delivered == old(delivered) + TotalLen(chain[..given])
      ensures onPacket ==> handed == old(handed) + Ids(chain)[..given] && freed == old(freed) + Ids(chain)[given..]
      ensures old(pcb) && closedWith.Some? ==> credited == delivered + carried
      ensures carried == old(carried) && fired + Due() == old(fired) + old(Due())
      ensures !old(pcb) ==> credited == old(credited) && closedWith == old(closedWith) && given == if chain == [] then 0 else 1
      ensures old(pcb) ==> Ended(Loop(chain, callbacks, onPacket, 0, old(Win()).(later := false), old(AckSum(cbCtx))), given)
    {
      ghost var outer, end := Lens(cbCtx), Loop(chain, callbacks, onPacket, 0, Win().(later := false), AckSum(cbCtx));
      EnterLoop();
      var i := HandOut(chain, onPacket, callbacks, outer, end);
      given := i;
      ghost var before := freed;
      ReleaseRest(chain, i, outer);
      AllIds(old(freed), before, Ids(chain), i, onPacket);
    }

    /** `_recv` links its own context. */
    method EnterLoop()
      requires Valid()
      modifies `cbCtx
      ensures Valid() && LoopContext(old(Lens(cbCtx)))
      ensures Sum(old(Lens(cbCtx))) == old(AckSum(cbCtx)) && !cbCtx[0].ackLater
    {
      AckSumIsLens(cbCtx);
      ghost var outer := Lens(cbCtx);
      cbCtx := [Context(false, 0)] + cbCtx;
      assert Lens(cbCtx) == [0] + outer;
    }
  }

  /** What was freed one by one and what was freed at the end make up the whole chain. */
  lemma AllIds(freed0: seq<nat>, freed1: seq<nat>, ids: seq<nat>, i: nat, onPacket: bool)
    requires i <= |ids| && freed1 == freed0 + (if onPacket then [] else ids[..i])
    ensures freed1 + ids[i..] == freed0 + (if onPacket then ids[i..] else ids)
  {
    assert ids == ids[..i] + ids[i..];
  }

  /** The first callback whose script ends the connection is the last that is given a buffer. */
  lemma {:induction false} FirstEndStops(chain: seq<Pbuf>, callbacks: seq<Callback>, onPacket: bool, i: nat, k: nat, w: Window, outer: nat)
    requires i <= k < |chain| == |callbacks| && Ends(callbacks[k].script)
    requires forall j :: i <= j < k ==> !Ends(callbacks[j].script) && !callbacks[j].raced
    ensures var end := Loop(chain, callbacks, onPacket, i, w, outer); end.given == k + 1 && !end.open
    decreases k - i
  {
    if i < k {
      var len := if onPacket then 0 else chain[i].len;
      var v := Play(callbacks[i].script, w.(later := false));
      FirstEndStops(chain, callbacks, onPacket, i + 1, k,
                    if v.later then v.(rxAckLen := v.rxAckLen + len) else v.(credited := v.credited + len), outer);
    }
  }

  /** A script with a close(), and one with an abort(), end the connection, wherever they stand in it. */
  lemma {:induction false} EndsIfAny(script: seq<Action>)
    ensures Ends(script) <==> exists i :: 0 <= i < |script| && Fatal(script[i])
  {
    if script != [] {
      EndsIfAny(script[1..]);
      if i :| 0 < i < |script| && Fatal(script[i]) {
        assert Fatal(script[1..][i - 1]);
      }
      if i :| 0 <= i < |script[1..]| && Fatal(script[1..][i]) {
        assert Fatal(script[i + 1]);
      }
    }
  }

  /**
   A connection that failed with credit deferred, a redial on the same client, and an ack():
   credit for bytes the new connection never received.
   */
  method RedialOvercredits(noSys: bool) returns (c: AsyncClient)
    ensures c.pcb && c.received == 0 && c.credited == 10 && !c.Conserved()
  {
    c := new AsyncClient(noSys);
    // Ten bytes through onData, with ackLater() called in it.
    c.received, c.delivered := 10, 10;
    c.cbCtx := [Context(false, 10)];
    AckSumIsLens(c.cbCtx);
    c.AckLaterAll();
    c.SettleBuffer(Pbuf(1, 10), false, []);
    c.LeaveLoop([]);
    c.LwipFails();
    c.Reconnect(0);
    var done := c.AckDeferred(10);
  }

  lemma {:induction false} TotalLenSnoc(chain: seq<Pbuf>, i: nat)
    requires i < |chain|
    ensures TotalLen(chain[..i + 1]) == TotalLen(chain[..i]) + chain[i].len
    ensures TotalLen(chain[i..]) == chain[i].len + TotalLen(chain[i + 1..])
  {
    assert chain[i..][1..] == chain[i + 1..];
    if i == 0 {
      assert chain[..1][1..] == [];
    } else {
      TotalLenSnoc(chain[1..], i - 1);
      assert chain[..i + 1][1..] == chain[1..][..i];
      assert chain[..i][1..] == chain[1..][..i - 1];
      assert chain[1..][i - 1] == chain[i];
      assert chain[1..][i - 1..] == chain[i..];
    }
  }
}
