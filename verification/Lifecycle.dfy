/**
 One connection from adoption to teardown (AsyncTCP.cpp).  An accepted connection is adopted
 when its client is built; an outbound one when the CONNECTED packet is dispatched, with
 whatever lwIP has queued behind that packet meanwhile.

 lwIP's callbacks interleave at every step with the code of the async task, whose call
 stack is explicit: a frame per call in progress, innermost first.  Every application
 callback may call close(), abort() or delete the client handle before it returns, to any
 depth.  The queue holds this client's packets only; what other clients queue does not
 touch it (EventQueue.PurgeExact).
 */
module Lifecycle {
  import opened Common

  type Pbuf = nat

  datatype Packet = Recv(pbs: seq<Pbuf>) | Fin | Error | Other

  datatype Frame =
    | InEvent                                   // handle_async_event: the packet holds a reference
    | CloseCall                                 // _close() up to and including _tcp_close
    | DropRef                                   // ~AsyncClient after its close(): the handle's reference goes
    | Discard                                   // teardown done here, onDisconnect not yet called
    | DiscardCb                                 // inside onDisconnect
    | AbortCall                                 // abort() before _tcp_abort looks at the pcb
    | AbortApi                                  // the interlocked part of _tcp_abort
    | ErrorEntry                                // _error() before onError
    | ErrorCb                                   // inside onError
    | RecvLoop(rest: seq<Pbuf>)                 // _recv() between two buffers
    | RecvData(b: Pbuf, rest: seq<Pbuf>)        // inside onData
    | RecvPacket(rest: seq<Pbuf>)               // inside onPacket, which owns its buffer now
    | OtherCb                                   // inside onConnect, onAck, onPoll or onTimeout

  datatype Stack = Nil | Cons(top: Frame, below: Stack)

  datatype State = State(
    pcb: bool,                // _pcb != nullptr
    bound: bool,              // lwIP still has the pcb, with our callbacks on it
    queue: seq<Packet>,
    stack: Stack,
    handle: bool,             // the application still has its AsyncClient
    owned: bool,              // the handle's shared_ptr still counts
    dead: bool,               // ~AsyncClientImpl has run
    fired: nat,               // onDisconnect calls
    lost: nat,                // onDisconnect calls skipped: client destroyed inside its onError
    errored: nat,             // onError calls
    pbufs: Pbufs)

  /** Receive buffers that entered tcp_recv, where they went, and the ones given to onData or onPacket. */
  datatype Pbufs = Pbufs(entered: seq<Pbuf>, freed: seq<Pbuf>, handed: seq<Pbuf>, leaked: seq<Pbuf>, given: seq<Pbuf>)

  datatype Step =
    | LwipRecv(pbs: seq<Pbuf>)
    | LwipFin
    | LwipOther
    | LwipError
    | Dispatch(closes: bool)       // the async task takes the next packet; a poll may hit the rx timeout
    | Proceed(onPacket: bool)      // the innermost call advances, or its callback returns
    | CallClose
    | CallAbort
    | DeleteHandle

  /** A freshly accepted connection with nothing queued yet. */
  function Accepted(): State
  {
    State(true, true, [], Nil, true, true, false, 0, 0, 0, Pbufs([], [], [], [], []))
  }

  /**
   An outbound connection whose CONNECTED packet is in dispatch: `_connected` has stored the
   pcb and runs onConnect, with `queue` behind it.  An ERROR in there means that lwIP freed
   the pcb before it was stored; tcp_error found no `_pcb` to clear.
   */
  function Connected(queue: seq<Packet>): State
  {
    State(true, Error !in queue, queue, Cons(OtherCb, Cons(InEvent, Nil)), true, true, false, 0, 0, 0,
          Pbufs(QueuePbufs(queue), [], [], [], []))
  }

  predicate IsCallback(f: Frame)
  {
    f == DiscardCb || f == ErrorCb || f.RecvData? || f.RecvPacket? || f == OtherCb
  }

  /** Application code runs at the bottom of the stack or inside a callback. */
  predicate AppRuns(stack: Stack)
  {
    stack == Nil || IsCallback(stack.top)
  }

  predicate Enabled(s: State, step: Step)
  {
    match step
    case LwipRecv(_) => s.bound
    case LwipFin => s.bound
    case LwipOther => s.bound
    case LwipError => s.bound
    case Dispatch(_) => s.stack == Nil && s.queue != []
    case Proceed(_) => s.stack != Nil
    case CallClose => s.handle && AppRuns(s.stack)
    case CallAbort => s.handle && AppRuns(s.stack)
    case DeleteHandle => s.handle && AppRuns(s.stack)
  }

  function HeldBy(e: Packet): seq<Pbuf>
  {
    match e case Recv(pbs) => pbs case _ => []
  }

  function QueuePbufs(queue: seq<Packet>): seq<Pbuf>
  {
    if queue == [] then [] else HeldBy(queue[0]) + QueuePbufs(queue[1..])
  }

  /** `_remove_events_for_client`: every packet freed, and its buffers with it. */
  function Purged(s: State): State
  {
    s.(queue := [], pbufs := s.pbufs.(freed := s.pbufs.freed + QueuePbufs(s.queue)))
  }

  /** `tcp_error`: lwIP has freed the pcb. */
  function TcpError(s: State): State
  {
    var t := if s.pcb then Purged(s).(pcb := false) else s;
    t.(bound := false, queue := t.queue + [Error])
  }

  /** `_tcp_close_api`, interlocked with lwIP. */
  function TcpClose(s: State): State
    requires s.stack != Nil
  {
    var below := s.stack.below;
    if s.pcb then Purged(s).(pcb := false, bound := false, stack := Cons(Discard, below))
    else if s.queue != [] then Purged(s).(stack := Cons(Discard, below))
    else s.(stack := below)
  }

  /** `_tcp_abort_api`, interlocked with lwIP. */
  function TcpAbort(s: State): State
    requires s.stack != Nil
  {
    var below := s.stack.below;
    if s.pcb then Purged(s).(pcb := false, bound := false, stack := Cons(ErrorEntry, below))
    else if s.queue != [] then Purged(s).(stack := Cons(ErrorEntry, below))
    else s.(stack := below)
  }

  /** `_recv` after a callback: go on, or free what is left if the connection went away. */
  function AfterBuffer(s: State, rest: seq<Pbuf>, below: Stack): State
  {
    if s.dead || !s.pcb then s.(stack := below, pbufs := s.pbufs.(freed := s.pbufs.freed + rest))
    else s.(stack := Cons(RecvLoop(rest), below))
  }

  predicate IsReceiving(f: Frame)
  {
    f.RecvLoop? || f.RecvData? || f.RecvPacket?
  }

  /** `_recv`: the next buffer, or the return from a callback. */
  function Receiving(s: State, onPacket: bool): State
    requires s.stack != Nil && IsReceiving(s.stack.top)
  {
    var below := s.stack.below;
    match s.stack.top
    case RecvLoop(rest) =>
      if rest == [] then s.(stack := below)
      else if onPacket then
        s.(stack := Cons(RecvPacket(rest[1..]), below), pbufs := s.pbufs.(given := s.pbufs.given + [rest[0]], handed := s.pbufs.handed + [rest[0]]))
      else s.(stack := Cons(RecvData(rest[0], rest[1..]), below), pbufs := s.pbufs.(given := s.pbufs.given + [rest[0]]))
    case RecvData(b, rest) =>
      AfterBuffer(s.(pbufs := s.pbufs.(freed := s.pbufs.freed + [b])), rest, below)
    case RecvPacket(rest) => AfterBuffer(s, rest, below)
  }

  /** The innermost call of the async task takes its next atomic action. */
  function Advance(noSys: bool, s: State, onPacket: bool): State
    requires s.stack != Nil
  {
    var below := s.stack.below;
    match s.stack.top
    case InEvent => s.(stack := below)
    case CloseCall => TcpClose(s)
    case DropRef => s.(owned := false, stack := below)
    case Discard => s.(fired := s.fired + 1, stack := Cons(DiscardCb, below))
    case DiscardCb => s.(stack := below)
    case AbortCall => if noSys || s.pcb then s.(stack := Cons(AbortApi, below)) else s.(stack := below)
    case AbortApi => TcpAbort(s)
    case ErrorEntry => s.(errored := s.errored + 1, stack := Cons(ErrorCb, below))
    case ErrorCb =>
      if s.dead then s.(lost := s.lost + 1, stack := below) else s.(stack := Cons(Discard, below))
    case RecvLoop(_) => Receiving(s, onPacket)
    case RecvData(_, _) => Receiving(s, onPacket)
    case RecvPacket(_) => Receiving(s, onPacket)
    case OtherCb => s.(stack := below)
  }

  /** `handle_async_event` up to the client method it calls. */
  function Handle(s: State, closes: bool): State
    requires s.queue != []
  {
    var t := s.(queue := s.queue[1..]);
    var held := Cons(InEvent, s.stack);
    match s.queue[0]
    case Recv(pbs) =>
      if s.dead then t.(stack := held, pbufs := s.pbufs.(leaked := s.pbufs.leaked + pbs))
      else t.(stack := Cons(RecvLoop(pbs), held))
    case Fin => t.(stack := if !s.dead && s.pcb then Cons(CloseCall, held) else held)
    case Error => t.(stack := if !s.dead then Cons(ErrorEntry, held) else held)
    case Other =>
      t.(stack := if s.dead || !s.pcb then held else if closes then Cons(CloseCall, held) else Cons(OtherCb, held))
  }

  function Act(noSys: bool, s: State, step: Step): State
    requires Enabled(s, step)
  {
    match step
    case LwipRecv(pbs) =>
      s.(queue := s.queue + [Recv(pbs)], pbufs := s.pbufs.(entered := s.pbufs.entered + pbs))
    case LwipFin => s.(queue := s.queue + [Fin])
    case LwipOther => s.(queue := s.queue + [Other])
    case LwipError => TcpError(s)
    case Dispatch(closes) => Handle(s, closes)
    case Proceed(onPacket) => Advance(noSys, s, onPacket)
    case CallClose => s.(stack := Cons(CloseCall, s.stack))
    case CallAbort => s.(stack := Cons(AbortCall, s.stack))
    case DeleteHandle => s.(handle := false, stack := Cons(CloseCall, Cons(DropRef, s.stack)))
  }

  predicate HoldsEvent(stack: Stack)
  {
    match stack case Nil => false case Cons(f, t) => f == InEvent || HoldsEvent(t)
  }

  /** The handle, every queued packet and every packet in dispatch hold a reference. */
  predicate Referenced(s: State)
  {
    s.owned || s.queue != [] || HoldsEvent(s.stack)
  }

  /** A step of the running system; the last reference to go runs the destructor. */
  function Do(noSys: bool, s: State, step: Step): State
    requires Enabled(s, step)
  {
    var t := Act(noSys, s, step);
    t.(dead := s.dead || !Referenced(t))
  }

  ghost predicate Run(noSys: bool, s: State, steps: seq<Step>)
    decreases |steps|
  {
    steps == [] || (Enabled(s, steps[0]) && Run(noSys, Do(noSys, s, steps[0]), steps[1..]))
  }

  ghost function Exec(noSys: bool, s: State, steps: seq<Step>): State
    requires Run(noSys, s, steps)
    decreases |steps|
  {
    if steps == [] then s else Exec(noSys, Do(noSys, s, steps[0]), steps[1..])
  }

  // ---- The obligation to fire onDisconnect ----

  function Errors(queue: seq<Packet>): nat
  {
    if queue == [] then 0 else (if queue[0] == Error then 1 else 0) + Errors(queue[1..])
  }

  function Owed(stack: Stack): nat
  {
    match stack
    case Nil => 0
    case Cons(f, t) => (if Owes(f) then 1 else 0) + Owed(t)
  }

  /**
   One obligation exists per connection.  It sits with the live pcb, with the queued ERROR,
   with the call that won the teardown, or has been discharged.
   */
  ghost predicate OneObligation(s: State)
  {
    (if s.pcb then 1 else 0) + Errors(s.queue) + Owed(s.stack) + s.fired + s.lost == 1
  }

  /** Once the pcb is gone nothing but its ERROR can be queued. */
  ghost predicate OnlyErrorAfterPcb(s: State)
  {
    !s.pcb ==> forall i :: 0 <= i < |s.queue| ==> s.queue[i] == Error
  }

  lemma {:induction false} ErrorsSnoc(queue: seq<Packet>, e: Packet)
    ensures Errors(queue + [e]) == Errors(queue) + (if e == Error then 1 else 0)
  {
    if queue == [] {
      assert [e][1..] == [];
    } else {
      assert (queue + [e])[1..] == queue[1..] + [e];
      ErrorsSnoc(queue[1..], e);
    }
  }

  /** The interlocked teardown takes over whatever obligation the pcb or a queued ERROR carried. */
  lemma TeardownKeepsObligation(s: State)
    requires s.stack != Nil && (s.stack.top == CloseCall || s.stack.top == AbortApi)
    requires OneObligation(s) && OnlyErrorAfterPcb(s)
    ensures OneObligation(TcpClose(s)) && OneObligation(TcpAbort(s))
  {
    if !s.pcb && s.queue != [] {
      assert s.queue[0] == Error;
    }
  }

  predicate Owes(f: Frame)
  {
    f == Discard || f == ErrorEntry || f == ErrorCb
  }

  lemma AfterBufferMoves(s: State, rest: seq<Pbuf>, below: Stack)
    ensures var t := AfterBuffer(s, rest, below);
      && t == s.(stack := t.stack, pbufs := t.pbufs)
      && (t.stack == below || t.stack == Cons(RecvLoop(rest), below))
  {
  }

  /** A receive loop changes nothing but its own frame and the buffers. */
  lemma ReceivingMoves(s: State, onPacket: bool)
    requires s.stack != Nil && IsReceiving(s.stack.top)
    ensures var t := Receiving(s, onPacket);
      && t == s.(stack := t.stack, pbufs := t.pbufs)
      && (t.stack == s.stack.below || (t.stack.Cons? && t.stack.below == s.stack.below && IsReceiving(t.stack.top)))
  {
    match s.stack.top
    case RecvData(b, rest) =>
      AfterBufferMoves(s.(pbufs := s.pbufs.(freed := s.pbufs.freed + [b])), rest, s.stack.below);
    case RecvPacket(rest) => AfterBufferMoves(s, rest, s.stack.below);
    case _ =>
  }

  /** Where a call that is neither a teardown nor a receive loop can lead. */
  ghost predicate Moved(s: State, t: State)
    requires s.stack != Nil
  {
    && t == s.(owned := t.owned, fired := t.fired, lost := t.lost, errored := t.errored, stack := t.stack)
    && (t.stack == s.stack.below
        || (t.stack.Cons? && t.stack.below == s.stack.below && !IsReceiving(t.stack.top)
            && t.stack.top != CloseCall && t.stack.top != DropRef))
  }

  lemma OwingCallMoves(noSys: bool, s: State, onPacket: bool)
    requires s.stack != Nil && Owes(s.stack.top)
    ensures Moved(s, Advance(noSys, s, onPacket))
  {
  }

  lemma ReturningCallMoves(noSys: bool, s: State, onPacket: bool)
    requires s.stack != Nil && s.stack.top in {InEvent, DropRef, DiscardCb, AbortCall, OtherCb}
    ensures var t := Advance(noSys, s, onPacket);
      && Moved(s, t) && t.fired == s.fired && t.lost == s.lost
      && (t.stack == s.stack.below || !Owes(t.stack.top))
  {
  }

  /** Any other call but a teardown leaves the connection, the queue and the buffers alone. */
  lemma CallMoves(noSys: bool, s: State, onPacket: bool)
    requires s.stack != Nil && s.stack.top != CloseCall && s.stack.top != AbortApi && !IsReceiving(s.stack.top)
    ensures Moved(s, Advance(noSys, s, onPacket))
  {
    if Owes(s.stack.top) {
      OwingCallMoves(noSys, s, onPacket);
    } else {
      ReturningCallMoves(noSys, s, onPacket);
    }
  }

  /** A frame that owes nothing advances without touching anybody's obligation. */
  lemma FreeFramesOweNothing(noSys: bool, s: State, onPacket: bool)
    requires s.stack != Nil && s.stack.top != CloseCall && s.stack.top != AbortApi && !Owes(s.stack.top)
    ensures var t := Advance(noSys, s, onPacket);
      && t.pcb == s.pcb && t.bound == s.bound && t.queue == s.queue && t.fired == s.fired && t.lost == s.lost
      && (t.stack == s.stack.below || (t.stack.Cons? && t.stack.below == s.stack.below && !Owes(t.stack.top)))
  {
    if IsReceiving(s.stack.top) {
      ReceivingMoves(s, onPacket);
    } else {
      ReturningCallMoves(noSys, s, onPacket);
    }
  }

  /** A frame that owes passes its obligation on or discharges it. */
  lemma OwingFramesPassOn(noSys: bool, s: State, onPacket: bool)
    requires s.stack != Nil && Owes(s.stack.top)
    ensures var t := Advance(noSys, s, onPacket);
      && t.pcb == s.pcb && t.bound == s.bound && t.queue == s.queue
      && Owed(t.stack) + t.fired + t.lost == Owed(s.stack) + s.fired + s.lost
  {
  }

  /** Away from teardown a frame only moves its own obligation on. */
  lemma OtherFramesKeepObligation(noSys: bool, s: State, onPacket: bool)
    requires s.stack != Nil && s.stack.top != CloseCall && s.stack.top != AbortApi
    ensures var t := Advance(noSys, s, onPacket);
      && t.pcb == s.pcb && t.bound == s.bound && t.queue == s.queue
      && Owed(t.stack) + t.fired + t.lost == Owed(s.stack) + s.fired + s.lost
  {
    if Owes(s.stack.top) {
      OwingFramesPassOn(noSys, s, onPacket);
    } else {
      FreeFramesOweNothing(noSys, s, onPacket);
    }
  }

  lemma AdvanceKeepsObligation(noSys: bool, s: State, onPacket: bool)
    requires s.stack != Nil && OneObligation(s) && OnlyErrorAfterPcb(s)
    ensures OneObligation(Advance(noSys, s, onPacket)) && OnlyErrorAfterPcb(Advance(noSys, s, onPacket))
  {
    if s.stack.top == CloseCall || s.stack.top == AbortApi {
      TeardownKeepsObligation(s);
    } else {
      OtherFramesKeepObligation(noSys, s, onPacket);
    }
  }

  lemma HandleKeepsObligation(s: State, closes: bool)
    requires s.queue != [] && !s.dead && OneObligation(s) && OnlyErrorAfterPcb(s)
    ensures OneObligation(Handle(s, closes)) && OnlyErrorAfterPcb(Handle(s, closes))
  {
    var t := Handle(s, closes);
    HandleMoves(s, closes);
    assert Owed(Cons(InEvent, s.stack)) == Owed(s.stack);
    assert Owed(t.stack) == Owed(s.stack) + (if s.queue[0] == Error then 1 else 0);
  }

  lemma StepKeepsObligation(noSys: bool, s: State, step: Step)
    requires Enabled(s, step) && OneObligation(s) && OnlyErrorAfterPcb(s)
    requires (s.queue != [] ==> !s.dead) && (s.bound ==> s.pcb)
    ensures OneObligation(Do(noSys, s, step)) && OnlyErrorAfterPcb(Do(noSys, s, step))
  {
    match step
    case LwipRecv(pbs) => ErrorsSnoc(s.queue, Recv(pbs));
    case LwipFin => ErrorsSnoc(s.queue, Fin);
    case LwipOther => ErrorsSnoc(s.queue, Other);
    case LwipError => ErrorsSnoc(if s.pcb then [] else s.queue, Error);
    case Dispatch(closes) => HandleKeepsObligation(s, closes);
    case Proceed(onPacket) => AdvanceKeepsObligation(noSys, s, onPacket);
    case DeleteHandle =>
      assert Owed(Cons(CloseCall, Cons(DropRef, s.stack))) == Owed(Cons(DropRef, s.stack)) == Owed(s.stack);
    case _ =>
  }

  // ---- References: who may still be alive ----

  function DropRefs(stack: Stack): nat
  {
    match stack case Nil => 0 case Cons(f, t) => (if f == DropRef then 1 else 0) + DropRefs(t)
  }

  /** A handle's reference is released only after its close() has disposed of the pcb. */
  ghost predicate ClosedFirst(stack: Stack, pcb: bool)
  {
    match stack
    case Nil => true
    case Cons(f, t) =>
      if f == DropRef then !pcb && ClosedFirst(t, pcb)
      else if f == CloseCall && t.Cons? && t.top == DropRef then ClosedFirst(t.below, pcb)
      else ClosedFirst(t, pcb)
  }

  ghost predicate RefInv(s: State)
  {
    && DropRefs(s.stack) + (if s.handle then 1 else 0) == (if s.owned then 1 else 0)
    && ClosedFirst(s.stack, s.pcb)
    && (s.pcb ==> s.owned)
    && (s.bound ==> s.pcb)
    && (s.dead ==> !Referenced(s))
  }

  lemma {:induction false} ClosedFirstWithoutPcb(stack: Stack)
    requires ClosedFirst(stack, true)
    ensures ClosedFirst(stack, false)
  {
    match stack
    case Nil =>
    case Cons(f, t) =>
      if f == CloseCall && t.Cons? && t.top == DropRef {
        ClosedFirstWithoutPcb(t.below);
      } else {
        ClosedFirstWithoutPcb(t);
      }
  }

  /** Popping a frame that is not a close() keeps the discipline; so does pushing one. */
  lemma ClosedFirstPop(f: Frame, t: Stack, pcb: bool)
    requires ClosedFirst(Cons(f, t), pcb)
    requires f != CloseCall
    ensures ClosedFirst(t, pcb)
    ensures forall g :: g != CloseCall && g != DropRef ==> ClosedFirst(Cons(g, t), pcb)
    ensures ClosedFirst(Cons(CloseCall, t), pcb)
  {
    if t.Cons? && t.top == DropRef {
      assert !pcb && ClosedFirst(t.below, pcb);
    }
  }

  lemma CloseCallDischarges(t: Stack)
    requires ClosedFirst(Cons(CloseCall, t), false)
    ensures ClosedFirst(t, false)
    ensures ClosedFirst(Cons(Discard, t), false)
  {
  }

  lemma TcpCloseKeepsRefs(s: State)
    requires s.stack != Nil && s.stack.top == CloseCall && RefInv(s)
    ensures var t := TcpClose(s); RefInv(t.(dead := s.dead || !Referenced(t)))
  {
    if s.pcb {
      ClosedFirstWithoutPcb(s.stack);
    }
    CloseCallDischarges(s.stack.below);
  }

  lemma TcpAbortKeepsRefs(s: State)
    requires s.stack != Nil && s.stack.top == AbortApi && RefInv(s)
    ensures var t := TcpAbort(s); RefInv(t.(dead := s.dead || !Referenced(t)))
  {
    if s.pcb {
      ClosedFirstWithoutPcb(s.stack);
    }
    ClosedFirstPop(AbortApi, s.stack.below, s.pcb);
    if s.pcb {
      ClosedFirstPop(AbortApi, s.stack.below, false);
    }
  }

  lemma OtherFramesKeepRefs(noSys: bool, s: State, onPacket: bool)
    requires s.stack != Nil && s.stack.top != CloseCall && s.stack.top != AbortApi && RefInv(s)
    ensures var t := Advance(noSys, s, onPacket); RefInv(t.(dead := s.dead || !Referenced(t)))
  {
    var t := Advance(noSys, s, onPacket);
    if IsReceiving(s.stack.top) {
      ReceivingMoves(s, onPacket);
    } else {
      CallMoves(noSys, s, onPacket);
    }
    ClosedFirstPop(s.stack.top, s.stack.below, s.pcb);
    assert t.pcb == s.pcb && t.queue == s.queue && t.handle == s.handle;
    assert t.stack == s.stack.below
        || (t.stack.Cons? && t.stack.below == s.stack.below && t.stack.top != CloseCall && t.stack.top != DropRef);
  }

  lemma AdvanceKeepsRefs(noSys: bool, s: State, onPacket: bool)
    requires s.stack != Nil && RefInv(s)
    ensures var t := Advance(noSys, s, onPacket); RefInv(t.(dead := s.dead || !Referenced(t)))
  {
    if s.stack.top == CloseCall {
      TcpCloseKeepsRefs(s);
    } else if s.stack.top == AbortApi {
      TcpAbortKeepsRefs(s);
    } else {
      OtherFramesKeepRefs(noSys, s, onPacket);
    }
  }

  lemma PushKeepsClosedFirst(s: State, f: Frame)
    requires ClosedFirst(s.stack, s.pcb) && f != DropRef
    requires s.stack == Nil || s.stack.top != DropRef
    ensures ClosedFirst(Cons(f, s.stack), s.pcb)
  {
  }

  lemma StepKeepsRefs(noSys: bool, s: State, step: Step)
    requires Enabled(s, step) && RefInv(s)
    ensures RefInv(Do(noSys, s, step))
  {
    match step
    case LwipError => ClosedFirstWithoutPcb(s.stack);
    case Dispatch(closes) =>
    case Proceed(onPacket) => AdvanceKeepsRefs(noSys, s, onPacket);
    case CallClose => PushKeepsClosedFirst(s, CloseCall);
    case CallAbort => PushKeepsClosedFirst(s, AbortCall);
    case DeleteHandle =>
      assert ClosedFirst(Cons(CloseCall, Cons(DropRef, s.stack)), s.pcb);
    case _ =>
  }

  // ---- Receive buffers ----

  lemma CountOne(c: Pbuf, b: Pbuf)
    ensures Count([c], b) == if c == b then 1 else 0
  {
    assert [c][1..] == [];
  }

  /** How many times buffer `b` occurs in the queued packets, and in the receive loops in progress. */
  function Queued(queue: seq<Packet>, b: Pbuf): nat
  {
    if queue == [] then 0 else Count(HeldBy(queue[0]), b) + Queued(queue[1..], b)
  }

  function InLoop(f: Frame, b: Pbuf): nat
  {
    match f
    case RecvLoop(rest) => Count(rest, b)
    case RecvData(c, rest) => (if c == b then 1 else 0) + Count(rest, b)
    case RecvPacket(rest) => Count(rest, b)
    case _ => 0
  }

  function InProgress(stack: Stack, b: Pbuf): nat
  {
    match stack case Nil => 0 case Cons(f, t) => InLoop(f, b) + InProgress(t, b)
  }

  /** Buffer `b` is queued, in a receive loop, freed or handed over, exactly as often as it entered. */
  ghost predicate Balanced(s: State, b: Pbuf)
  {
    && Count(s.pbufs.entered, b)
    == Queued(s.queue, b) + InProgress(s.stack, b) + Count(s.pbufs.freed, b) + Count(s.pbufs.handed, b)
    && Count(s.pbufs.leaked, b) == 0
  }

  ghost predicate PbufInv(s: State)
  {
    forall b :: Balanced(s, b)
  }

  lemma {:induction false} QueuedSnoc(queue: seq<Packet>, e: Packet, b: Pbuf)
    ensures Queued(queue + [e], b) == Queued(queue, b) + Count(HeldBy(e), b)
  {
    if queue == [] {
      assert [e][1..] == [];
    } else {
      assert (queue + [e])[1..] == queue[1..] + [e];
      QueuedSnoc(queue[1..], e, b);
    }
  }

  lemma {:induction false} QueuePbufsCount(queue: seq<Packet>, b: Pbuf)
    ensures Count(QueuePbufs(queue), b) == Queued(queue, b)
  {
    if queue != [] {
      QueuePbufsCount(queue[1..], b);
      CountConcat(HeldBy(queue[0]), QueuePbufs(queue[1..]), b);
    }
  }

  lemma PurgeKeepsBalance(s: State, b: Pbuf)
    requires Balanced(s, b)
    ensures Balanced(Purged(s), b)
  {
    QueuePbufsCount(s.queue, b);
    CountConcat(s.pbufs.freed, QueuePbufs(s.queue), b);
  }

  lemma AfterBufferKeepsBalance(s: State, rest: seq<Pbuf>, below: Stack, b: Pbuf)
    requires Balanced(s.(stack := Cons(RecvLoop(rest), below)), b)
    ensures Balanced(AfterBuffer(s, rest, below), b)
  {
    CountConcat(s.pbufs.freed, rest, b);
  }

  lemma HandOverKeepsBalance(s: State, c: Pbuf, rest: seq<Pbuf>, below: Stack, b: Pbuf)
    requires Balanced(s.(stack := Cons(RecvData(c, rest), below)), b)
    ensures Balanced(s.(stack := Cons(RecvPacket(rest), below), pbufs := s.pbufs.(given := s.pbufs.given + [c], handed := s.pbufs.handed + [c])), b)
  {
    CountOne(c, b);
    CountConcat(s.pbufs.handed, [c], b);
  }

  lemma NextBufferKeepsBalance(s: State, rest: seq<Pbuf>, below: Stack, onPacket: bool, b: Pbuf)
    requires s.stack == Cons(RecvLoop(rest), below) && Balanced(s, b)
    ensures Balanced(Receiving(s, onPacket), b)
  {
    if rest != [] {
      assert Balanced(s.(stack := Cons(RecvData(rest[0], rest[1..]), below)), b);
      HandOverKeepsBalance(s, rest[0], rest[1..], below, b);
    }
  }

  lemma DataReturnKeepsBalance(s: State, c: Pbuf, rest: seq<Pbuf>, below: Stack, b: Pbuf)
    requires s.stack == Cons(RecvData(c, rest), below) && Balanced(s, b)
    ensures Balanced(AfterBuffer(s.(pbufs := s.pbufs.(freed := s.pbufs.freed + [c])), rest, below), b)
  {
    CountOne(c, b);
    CountConcat(s.pbufs.freed, [c], b);
    AfterBufferKeepsBalance(s.(pbufs := s.pbufs.(freed := s.pbufs.freed + [c])), rest, below, b);
  }

  /** Replacing or dropping an innermost frame that holds no buffer. */
  lemma TopKeepsBalance(s: State, f: Frame, b: Pbuf)
    requires s.stack != Nil && InLoop(s.stack.top, b) == 0 && InLoop(f, b) == 0 && Balanced(s, b)
    ensures Balanced(s.(stack := s.stack.below), b)
    ensures Balanced(s.(stack := Cons(f, s.stack.below)), b)
  {
    assert InProgress(s.stack, b) == InProgress(s.stack.below, b);
    assert InProgress(Cons(f, s.stack.below), b) == InProgress(s.stack.below, b);
  }

  lemma TeardownKeepsBalance(s: State, b: Pbuf)
    requires s.stack != Nil && InLoop(s.stack.top, b) == 0 && Balanced(s, b)
    ensures Balanced(TcpClose(s), b) && Balanced(TcpAbort(s), b)
  {
    PurgeKeepsBalance(s, b);
    var p := Purged(s).(pcb := false);
    TopKeepsBalance(p, Discard, b);
    TopKeepsBalance(p, ErrorEntry, b);
    TopKeepsBalance(Purged(s), Discard, b);
    TopKeepsBalance(Purged(s), ErrorEntry, b);
    TopKeepsBalance(s, Discard, b);
  }

  lemma AdvanceKeepsBalance(noSys: bool, s: State, onPacket: bool, b: Pbuf)
    requires s.stack != Nil && Balanced(s, b)
    ensures Balanced(Advance(noSys, s, onPacket), b)
  {
    var below := s.stack.below;
    match s.stack.top
    case RecvLoop(rest) => NextBufferKeepsBalance(s, rest, below, onPacket, b);
    case RecvData(c, rest) => DataReturnKeepsBalance(s, c, rest, below, b);
    case RecvPacket(rest) => AfterBufferKeepsBalance(s, rest, below, b);
    case CloseCall => TeardownKeepsBalance(s, b);
    case AbortApi => TeardownKeepsBalance(s, b);
    case _ => OtherFramesKeepBalance(noSys, s, onPacket, b);
  }

  /** Frames that neither receive nor tear down move no buffer. */
  lemma OtherFramesKeepBalance(noSys: bool, s: State, onPacket: bool, b: Pbuf)
    requires s.stack != Nil && Balanced(s, b)
    requires !IsReceiving(s.stack.top)
    requires s.stack.top != CloseCall && s.stack.top != AbortApi
    ensures Balanced(Advance(noSys, s, onPacket), b)
  {
    CallMoves(noSys, s, onPacket);
  }

  /** A dispatch takes the head packet and starts at most one call above it. */
  lemma HandleMoves(s: State, closes: bool)
    requires s.queue != [] && !s.dead
    ensures var (t, held) := (Handle(s, closes), Cons(InEvent, s.stack));
      && t == s.(queue := s.queue[1..], stack := t.stack)
      && (match s.queue[0]
          case Recv(pbs) => t.stack == Cons(RecvLoop(pbs), held)
          case Error => t.stack == Cons(ErrorEntry, held)
          case _ => t.stack == held || (t.stack.Cons? && t.stack.below == held && (t.stack.top == CloseCall || t.stack.top == OtherCb)))
  {
  }

  lemma HandleKeepsBalance(s: State, closes: bool, b: Pbuf)
    requires s.queue != [] && !s.dead && Balanced(s, b)
    ensures Balanced(Handle(s, closes), b)
  {
    var t := Handle(s, closes);
    assert InProgress(Cons(InEvent, s.stack), b) == InProgress(s.stack, b);
    HandleMoves(s, closes);
    if !s.queue[0].Recv? && t.stack != Cons(InEvent, s.stack) {
      assert InProgress(t.stack, b) == InProgress(Cons(InEvent, s.stack), b);
    }
  }

  lemma StepKeepsBalance(noSys: bool, s: State, step: Step, b: Pbuf)
    requires Enabled(s, step) && Balanced(s, b)
    requires s.queue != [] ==> !s.dead
    ensures Balanced(Do(noSys, s, step), b)
  {
    match step
    case LwipRecv(pbs) =>
      QueuedSnoc(s.queue, Recv(pbs), b);
      CountConcat(s.pbufs.entered, pbs, b);
    case LwipFin => QueuedSnoc(s.queue, Fin, b);
    case LwipOther => QueuedSnoc(s.queue, Other, b);
    case LwipError =>
      PurgeKeepsBalance(s, b);
      QueuedSnoc(if s.pcb then [] else s.queue, Error, b);
    case Dispatch(closes) => HandleKeepsBalance(s, closes, b);
    case Proceed(onPacket) => AdvanceKeepsBalance(noSys, s, onPacket, b);
    case DeleteHandle =>
      assert InProgress(Cons(CloseCall, Cons(DropRef, s.stack)), b) == InProgress(Cons(DropRef, s.stack), b);
    case _ =>
  }

  lemma StepKeepsPbufs(noSys: bool, s: State, step: Step)
    requires Enabled(s, step) && PbufInv(s)
    requires s.queue != [] ==> !s.dead
    ensures PbufInv(Do(noSys, s, step))
  {
    forall b ensures Balanced(Do(noSys, s, step), b) {
      assert Balanced(s, b);
      StepKeepsBalance(noSys, s, step, b);
    }
  }

  // ---- What each call does ----

  /** The connection and its queue are gone; the queued buffers are freed. */
  function Gone(s: State): State
  {
    Purged(s).(pcb := false, bound := false)
  }

  lemma {:induction false} Chained(noSys: bool, s: State, a: seq<Step>, b: seq<Step>)
    requires Run(noSys, s, a) && Run(noSys, Exec(noSys, s, a), b)
    ensures Run(noSys, s, a + b) && Exec(noSys, s, a + b) == Exec(noSys, Exec(noSys, s, a), b)
    decreases |a|
  {
    if a == [] {
      assert a + b == b;
    } else {
      assert (a + b)[1..] == a[1..] + b;
      Chained(noSys, Do(noSys, s, a[0]), a[1..], b);
    }
  }

  lemma One(noSys: bool, s: State, step: Step)
    requires Enabled(s, step)
    ensures Run(noSys, s, [step]) && Exec(noSys, s, [step]) == Do(noSys, s, step)
  {
    assert [step][1..] == [];
    assert Run(noSys, Do(noSys, s, step), []);
  }

  /** `k` steps of the innermost call, callbacks returning at once. */
  function Proceeds(k: nat, onPacket: bool): (steps: seq<Step>)
    ensures |steps| == k
  {
    if k == 0 then [] else [Proceed(onPacket)] + Proceeds(k - 1, onPacket)
  }

  lemma More(noSys: bool, s: State, k: nat, onPacket: bool)
    requires k > 0 && s.stack != Nil && Run(noSys, Do(noSys, s, Proceed(onPacket)), Proceeds(k - 1, onPacket))
    ensures Run(noSys, s, Proceeds(k, onPacket))
    ensures Exec(noSys, s, Proceeds(k, onPacket)) == Exec(noSys, Do(noSys, s, Proceed(onPacket)), Proceeds(k - 1, onPacket))
  {
    assert Proceeds(k, onPacket)[1..] == Proceeds(k - 1, onPacket);
  }

  lemma NoMore(noSys: bool, s: State, onPacket: bool)
    ensures Run(noSys, s, Proceeds(0, onPacket)) && Exec(noSys, s, Proceeds(0, onPacket)) == s
  {
  }

  /** A call runs to its end: `k` steps, in callbacks that do nothing, lead from `s` to `t`. */
  ghost predicate Leads(noSys: bool, s: State, k: nat, t: State)
  {
    Run(noSys, s, Proceeds(k, false)) && Exec(noSys, s, Proceeds(k, false)) == t
  }

  lemma Leading(noSys: bool, s: State, k: nat, t: State)
    requires k > 0 && s.stack != Nil && Leads(noSys, Do(noSys, s, Proceed(false)), k - 1, t)
    ensures Leads(noSys, s, k, t)
  {
    More(noSys, s, k, false);
  }

  /** onDisconnect is called once, and returns. */
  lemma DiscardLeads(noSys: bool, s: State)
    requires s.owned && s.stack.Cons? && s.stack.top == Discard
    ensures Leads(noSys, s, 2, s.(fired := s.fired + 1, stack := s.stack.below))
  {
    var t := s.(fired := s.fired + 1, stack := s.stack.below);
    var s1 := Do(noSys, s, Proceed(false));
    assert s1 == s.(fired := s.fired + 1, stack := Cons(DiscardCb, s.stack.below));
    assert Do(noSys, s1, Proceed(false)) == t;
    NoMore(noSys, t, false);
    Leading(noSys, s1, 1, t);
    Leading(noSys, s, 2, t);
  }

  /** onError is called once, then onDisconnect. */
  lemma ErrorLeads(noSys: bool, s: State)
    requires s.owned && !s.dead && s.stack.Cons? && s.stack.top == ErrorEntry
    ensures Leads(noSys, s, 4, s.(errored := s.errored + 1, fired := s.fired + 1, stack := s.stack.below))
  {
    var s1 := Do(noSys, s, Proceed(false));
    assert s1 == s.(errored := s.errored + 1, stack := Cons(ErrorCb, s.stack.below));
    var s2 := Do(noSys, s1, Proceed(false));
    assert s2 == s.(errored := s.errored + 1, stack := Cons(Discard, s.stack.below));
    DiscardLeads(noSys, s2);
    var t := s.(errored := s.errored + 1, fired := s.fired + 1, stack := s.stack.below);
    Leading(noSys, s1, 3, t);
    Leading(noSys, s, 4, t);
  }

  /** A close() in progress takes the connection down, purges, and calls onDisconnect once; with nothing to take down it does nothing. */
  lemma CloseLeads(noSys: bool, s: State)
    requires s.owned && s.stack.Cons? && s.stack.top == CloseCall
    ensures s.pcb ==> Leads(noSys, s, 3, Gone(s).(fired := s.fired + 1, stack := s.stack.below))
    ensures !s.pcb && s.queue != [] ==> Leads(noSys, s, 3, Purged(s).(fired := s.fired + 1, stack := s.stack.below))
    ensures !s.pcb && s.queue == [] ==> Leads(noSys, s, 1, s.(stack := s.stack.below))
  {
    var s1 := Do(noSys, s, Proceed(false));
    if s.pcb || s.queue != [] {
      assert s1 == (if s.pcb then Gone(s) else Purged(s)).(stack := Cons(Discard, s.stack.below));
      DiscardLeads(noSys, s1);
      Leading(noSys, s, 3, s1.(fired := s.fired + 1, stack := s.stack.below));
    } else {
      assert s1 == s.(stack := s.stack.below);
      NoMore(noSys, s1, false);
      Leading(noSys, s, 1, s1);
    }
  }

  /** An abort() that finds a pcb, or a queued ERROR where it looks for one. */
  lemma AbortTakesDown(noSys: bool, s: State)
    requires s.owned && !s.dead && s.stack.Cons? && s.stack.top == AbortCall
    requires s.pcb || (noSys && s.queue != [])
    ensures var torn := if s.pcb then Gone(s) else Purged(s);
      Leads(noSys, s, 6, torn.(errored := s.errored + 1, fired := s.fired + 1, stack := s.stack.below))
  {
    var torn := if s.pcb then Gone(s) else Purged(s);
    var s1 := Do(noSys, s, Proceed(false));
    assert s1 == s.(stack := Cons(AbortApi, s.stack.below));
    AbortApiTakesDown(noSys, s1, torn);
    var s2 := torn.(stack := Cons(ErrorEntry, s.stack.below));
    var t := torn.(errored := s.errored + 1, fired := s.fired + 1, stack := s.stack.below);
    ErrorFrom(noSys, s2, t);
    Leading(noSys, s1, 5, t);
    Leading(noSys, s, 6, t);
  }

  lemma ErrorFrom(noSys: bool, s: State, t: State)
    requires s.owned && !s.dead && s.stack.Cons? && s.stack.top == ErrorEntry
    requires t == s.(errored := s.errored + 1, fired := s.fired + 1, stack := s.stack.below)
    ensures Leads(noSys, s, 4, t)
  {
    ErrorLeads(noSys, s);
  }

  lemma AbortApiTakesDown(noSys: bool, s: State, torn: State)
    requires s.owned && s.stack.Cons? && s.stack.top == AbortApi && (s.pcb || s.queue != [])
    requires torn.(stack := s.stack) == if s.pcb then Gone(s) else Purged(s)
    ensures Do(noSys, s, Proceed(false)) == torn.(stack := Cons(ErrorEntry, s.stack.below))
  {
  }

  /** An abort() that finds nothing does nothing. */
  lemma AbortIdles(noSys: bool, s: State)
    requires s.owned && s.stack.Cons? && s.stack.top == AbortCall && !s.pcb
    ensures !noSys ==> Leads(noSys, s, 1, s.(stack := s.stack.below))
    ensures noSys && s.queue == [] ==> Leads(noSys, s, 2, s.(stack := s.stack.below))
  {
    var t := s.(stack := s.stack.below);
    NoMore(noSys, t, false);
    var s1 := Do(noSys, s, Proceed(false));
    if !noSys {
      assert s1 == t;
      Leading(noSys, s, 1, t);
    } else if s.queue == [] {
      assert s1 == s.(stack := Cons(AbortApi, s.stack.below));
      assert Do(noSys, s1, Proceed(false)) == t;
      Leading(noSys, s1, 1, t);
      Leading(noSys, s, 2, t);
    }
  }

  /**
   An abort() in progress takes the connection down, purges, and calls onError and onDisconnect
   once.  Without a pcb it does the same to a queued ERROR on a build without lwIP's own
   thread, and nothing otherwise.
   */
  lemma AbortLeads(noSys: bool, s: State)
    requires s.owned && !s.dead && s.stack.Cons? && s.stack.top == AbortCall
    ensures s.pcb ==> Leads(noSys, s, 6, Gone(s).(errored := s.errored + 1, fired := s.fired + 1, stack := s.stack.below))
    ensures !s.pcb && noSys && s.queue != [] ==>
      Leads(noSys, s, 6, Purged(s).(errored := s.errored + 1, fired := s.fired + 1, stack := s.stack.below))
    ensures !s.pcb && noSys && s.queue == [] ==> Leads(noSys, s, 2, s.(stack := s.stack.below))
    ensures !s.pcb && !noSys ==> Leads(noSys, s, 1, s.(stack := s.stack.below))
  {
    if s.pcb || (noSys && s.queue != []) {
      AbortTakesDown(noSys, s);
    } else {
      AbortIdles(noSys, s);
    }
  }

  /** A receive loop over a live connection gives onData every buffer, in order, and frees it. */
  lemma {:induction false} RecvLeads(noSys: bool, s: State, rest: seq<Pbuf>)
    requires s.owned && !s.dead && s.pcb && s.stack.Cons? && s.stack.top == RecvLoop(rest)
    ensures Leads(noSys, s, 2 * |rest| + 1,
                  s.(pbufs := s.pbufs.(given := s.pbufs.given + rest, freed := s.pbufs.freed + rest), stack := s.stack.below))
    decreases |rest|
  {
    var below := s.stack.below;
    var t := s.(pbufs := s.pbufs.(given := s.pbufs.given + rest, freed := s.pbufs.freed + rest), stack := below);
    var s1 := Do(noSys, s, Proceed(false));
    if rest == [] {
      assert t == s1;
      NoMore(noSys, t, false);
      Leading(noSys, s, 1, t);
    } else {
      var s2 := Do(noSys, s1, Proceed(false));
      var one := s.pbufs.(given := s.pbufs.given + [rest[0]], freed := s.pbufs.freed + [rest[0]]);
      assert s1 == s.(pbufs := s.pbufs.(given := s.pbufs.given + [rest[0]]), stack := Cons(RecvData(rest[0], rest[1..]), below));
      assert s2 == s.(pbufs := one, stack := Cons(RecvLoop(rest[1..]), below));
      RecvLeads(noSys, s2, rest[1..]);
      FrontFirst(s.pbufs.given, rest);
      FrontFirst(s.pbufs.freed, rest);
      Leading(noSys, s1, 2 * |rest|, t);
      Leading(noSys, s, 2 * |rest| + 1, t);
    }
  }

  lemma FrontFirst(a: seq<Pbuf>, rest: seq<Pbuf>)
    requires rest != []
    ensures (a + [rest[0]]) + rest[1..] == a + rest
  {
  }

  /** With onPacket registered it hands every buffer over, in order, and frees none. */
  lemma {:induction false} PacketsLead(noSys: bool, s: State, rest: seq<Pbuf>)
    requires s.owned && !s.dead && s.pcb && s.stack.Cons? && s.stack.top == RecvLoop(rest)
    ensures Run(noSys, s, Proceeds(2 * |rest| + 1, true))
    ensures Exec(noSys, s, Proceeds(2 * |rest| + 1, true))
         == s.(pbufs := s.pbufs.(given := s.pbufs.given + rest, handed := s.pbufs.handed + rest), stack := s.stack.below)
    decreases |rest|
  {
    var below := s.stack.below;
    var t := s.(pbufs := s.pbufs.(given := s.pbufs.given + rest, handed := s.pbufs.handed + rest), stack := below);
    var s1 := Do(noSys, s, Proceed(true));
    if rest == [] {
      assert t == s1;
      NoMore(noSys, t, true);
      More(noSys, s, 1, true);
    } else {
      var s2 := Do(noSys, s1, Proceed(true));
      var one := s.pbufs.(given := s.pbufs.given + [rest[0]], handed := s.pbufs.handed + [rest[0]]);
      assert s1 == s.(pbufs := one, stack := Cons(RecvPacket(rest[1..]), below));
      assert s2 == s.(pbufs := one, stack := Cons(RecvLoop(rest[1..]), below));
      PacketsLead(noSys, s2, rest[1..]);
      FrontFirst(s.pbufs.given, rest);
      FrontFirst(s.pbufs.handed, rest);
      More(noSys, s1, 2 * |rest|, true);
      More(noSys, s, 2 * |rest| + 1, true);
    }
  }

  /** The packet's reference goes with the end of its dispatch. */
  lemma EventEnds(noSys: bool, s: State)
    requires s.owned && s.stack.Cons? && s.stack.top == InEvent
    ensures Leads(noSys, s, 1, s.(stack := s.stack.below))
  {
    var t := s.(stack := s.stack.below);
    assert Do(noSys, s, Proceed(false)) == t;
    NoMore(noSys, t, false);
    Leading(noSys, s, 1, t);
  }

  lemma {:induction false} ThenLeads(noSys: bool, s: State, j: nat, t: State, k: nat, u: State)
    requires Leads(noSys, s, j, t) && Leads(noSys, t, k, u)
    ensures Leads(noSys, s, j + k, u)
    decreases j
  {
    if j > 0 {
      assert Proceeds(j, false)[1..] == Proceeds(j - 1, false);
      assert s.stack != Nil;
      ThenLeads(noSys, Do(noSys, s, Proceed(false)), j - 1, t, k, u);
      Leading(noSys, s, j + k, u);
    }
  }

  /**
   The dispatch of a packet over a live connection whose callbacks do nothing.  A RECV shows
   and frees its buffers in order; a FIN, or a poll that hits the receive timeout, closes; an
   ERROR is reported; any other packet reaches its callback; and nothing else changes.
   */
  lemma DispatchLeads(noSys: bool, s: State, closes: bool)
    requires s.owned && !s.dead && s.pcb && s.stack == Nil && s.queue != []
    ensures Enabled(s, Dispatch(closes))
    ensures var (d, rest) := (Do(noSys, s, Dispatch(closes)), s.(queue := s.queue[1..]));
      match s.queue[0]
      case Recv(pbs) =>
        Leads(noSys, d, 2 * |pbs| + 2, rest.(pbufs := s.pbufs.(given := s.pbufs.given + pbs, freed := s.pbufs.freed + pbs)))
      case Fin => Leads(noSys, d, 4, Gone(rest).(fired := s.fired + 1))
      case Error => Leads(noSys, d, 5, rest.(errored := s.errored + 1, fired := s.fired + 1))
      case Other =>
        if closes then Leads(noSys, d, 4, Gone(rest).(fired := s.fired + 1))
        else d.stack == Cons(OtherCb, Cons(InEvent, Nil)) && Leads(noSys, d, 2, rest)
  {
    var d, rest := Do(noSys, s, Dispatch(closes)), s.(queue := s.queue[1..]);
    HandleMoves(s, closes);
    match s.queue[0]
    case Recv(pbs) => RecvDispatch(noSys, d, rest, pbs);
    case Fin => ClosedDispatch(noSys, d, rest);
    case Error => ErrorDispatch(noSys, d, rest);
    case Other =>
      if closes {
        ClosedDispatch(noSys, d, rest);
      } else {
        OtherDispatch(noSys, d, rest);
      }
  }

  lemma RecvDispatch(noSys: bool, d: State, rest: State, pbs: seq<Pbuf>)
    requires rest.owned && !rest.dead && rest.pcb && rest.stack == Nil
    requires d == rest.(stack := Cons(RecvLoop(pbs), Cons(InEvent, Nil)))
    ensures Leads(noSys, d, 2 * |pbs| + 2, rest.(pbufs := rest.pbufs.(given := rest.pbufs.given + pbs, freed := rest.pbufs.freed + pbs)))
  {
    var u := rest.(pbufs := rest.pbufs.(given := rest.pbufs.given + pbs, freed := rest.pbufs.freed + pbs), stack := Cons(InEvent, Nil));
    RecvLeads(noSys, d, pbs);
    EventEnds(noSys, u);
    ThenLeads(noSys, d, 2 * |pbs| + 1, u, 1, u.(stack := Nil));
  }

  lemma ErrorDispatch(noSys: bool, d: State, rest: State)
    requires rest.owned && !rest.dead && rest.stack == Nil
    requires d == rest.(stack := Cons(ErrorEntry, Cons(InEvent, Nil)))
    ensures Leads(noSys, d, 5, rest.(errored := rest.errored + 1, fired := rest.fired + 1))
  {
    ErrorLeads(noSys, d);
    var u := rest.(errored := rest.errored + 1, fired := rest.fired + 1, stack := Cons(InEvent, Nil));
    EventEnds(noSys, u);
    ThenLeads(noSys, d, 4, u, 1, u.(stack := Nil));
  }

  lemma OtherDispatch(noSys: bool, d: State, rest: State)
    requires rest.owned && !rest.dead && rest.stack == Nil
    requires d == rest.(stack := Cons(OtherCb, Cons(InEvent, Nil)))
    ensures Leads(noSys, d, 2, rest)
  {
    var u := rest.(stack := Cons(InEvent, Nil));
    assert Do(noSys, d, Proceed(false)) == u;
    EventEnds(noSys, u);
    Leading(noSys, d, 2, rest);
  }

  lemma ClosedDispatch(noSys: bool, d: State, rest: State)
    requires rest.owned && !rest.dead && rest.pcb && rest.stack == Nil
    requires d == rest.(stack := Cons(CloseCall, Cons(InEvent, Nil)))
    ensures Leads(noSys, d, 4, Gone(rest).(fired := rest.fired + 1))
  {
    CloseLeads(noSys, d);
    var u := Gone(rest).(fired := rest.fired + 1, stack := Cons(InEvent, Nil));
    EventEnds(noSys, u);
    ThenLeads(noSys, d, 3, u, 1, u.(stack := Nil));
  }

  /** lwIP failing the connection purges what is queued, leaves its ERROR alone in the queue, and clears the pcb. */
  lemma ErrorTakesOver(noSys: bool, s: State)
    requires s.owned && s.pcb && s.bound
    ensures Do(noSys, s, LwipError) == Gone(s).(queue := [Error])
  {
  }

  // ---- Buffers reach the application in the order they came ----

  /** What the receive loops in progress have still to give, innermost first. */
  function ToGive(stack: Stack): seq<Pbuf>
  {
    match stack
    case Nil => []
    case Cons(f, t) => (if f.RecvLoop? || f.RecvData? || f.RecvPacket? then f.rest else []) + ToGive(t)
  }

  /** While the connection lasts, the buffers given, to be given and queued are those that entered, in order. */
  ghost predicate InOrder(s: State)
  {
    s.pcb ==> s.pbufs.given + (ToGive(s.stack) + QueuePbufs(s.queue)) == s.pbufs.entered
  }

  lemma {:induction false} QueuePbufsSnoc(queue: seq<Packet>, e: Packet)
    ensures QueuePbufs(queue + [e]) == QueuePbufs(queue) + HeldBy(e)
  {
    if queue == [] {
      assert [e][1..] == [];
    } else {
      assert (queue + [e])[1..] == queue[1..] + [e];
      QueuePbufsSnoc(queue[1..], e);
    }
  }

  lemma Joined(a: seq<Pbuf>, b: seq<Pbuf>, c: seq<Pbuf>)
    ensures (a + b) + c == a + (b + c) && [] + a == a == a + []
  {
  }

  lemma ReceivingKeepsOrder(s: State, onPacket: bool)
    requires s.stack != Nil && IsReceiving(s.stack.top) && InOrder(s) && !s.dead
    ensures InOrder(Receiving(s, onPacket))
  {
    var t, f, below := Receiving(s, onPacket), s.stack.top, s.stack.below;
    ReceivingMoves(s, onPacket);
    if s.pcb {
      Joined(f.rest, ToGive(below), QueuePbufs(s.queue));
      if f.RecvLoop? && f.rest != [] {
        assert t.stack.top.rest == f.rest[1..] && t.pbufs.given == s.pbufs.given + [f.rest[0]];
        assert f.rest == [f.rest[0]] + f.rest[1..];
        Joined([f.rest[0]], f.rest[1..], ToGive(below));
        Joined([f.rest[0]], f.rest[1..] + ToGive(below), QueuePbufs(s.queue));
        Joined(s.pbufs.given, [f.rest[0]], (f.rest[1..] + ToGive(below)) + QueuePbufs(s.queue));
      } else {
        assert t.pbufs.given == s.pbufs.given && t.pbufs.entered == s.pbufs.entered;
        assert ToGive(t.stack) == ToGive(s.stack);
      }
    }
  }

  lemma AdvanceKeepsInOrder(noSys: bool, s: State, onPacket: bool)
    requires s.stack != Nil && InOrder(s) && !s.dead
    ensures InOrder(Advance(noSys, s, onPacket))
  {
    var t := Advance(noSys, s, onPacket);
    if IsReceiving(s.stack.top) {
      ReceivingKeepsOrder(s, onPacket);
    } else if s.stack.top != CloseCall && s.stack.top != AbortApi {
      CallMoves(noSys, s, onPacket);
      Joined(ToGive(s.stack.below), [], []);
      assert ToGive(t.stack) == ToGive(s.stack);
    } else if s.pcb {
      assert !t.pcb;
    }
  }

  lemma HandleToGive(s: State, closes: bool)
    requires s.queue != [] && !s.dead && s.stack == Nil
    ensures ToGive(Handle(s, closes).stack) == HeldBy(s.queue[0])
  {
    var held := Cons(InEvent, Nil);
    assert ToGive(held) == [];
    match s.queue[0]
    case Recv(pbs) => assert ToGive(Cons(RecvLoop(pbs), held)) == pbs;
    case Fin => assert ToGive(Cons(CloseCall, held)) == [];
    case Error => assert ToGive(Cons(ErrorEntry, held)) == [];
    case Other => assert ToGive(Cons(CloseCall, held)) == [] && ToGive(Cons(OtherCb, held)) == [];
  }

  lemma HandleKeepsInOrder(s: State, closes: bool)
    requires s.queue != [] && !s.dead && s.stack == Nil && InOrder(s)
    ensures InOrder(Handle(s, closes))
  {
    HandleMoves(s, closes);
    HandleToGive(s, closes);
    assert QueuePbufs(s.queue) == HeldBy(s.queue[0]) + QueuePbufs(s.queue[1..]);
    Joined(QueuePbufs(s.queue), [], []);
  }

  lemma StepKeepsInOrder(noSys: bool, s: State, step: Step)
    requires Enabled(s, step) && InOrder(s) && (s.bound ==> s.pcb) && (s.pcb ==> !s.dead) && (s.queue != [] ==> !s.dead)
    ensures InOrder(Do(noSys, s, step))
  {
    match step
    case LwipRecv(pbs) =>
      QueuePbufsSnoc(s.queue, Recv(pbs));
      Joined(ToGive(s.stack), QueuePbufs(s.queue), pbs);
      Joined(s.pbufs.given, ToGive(s.stack) + QueuePbufs(s.queue), pbs);
    case LwipFin =>
      QueuePbufsSnoc(s.queue, Fin);
      Joined(QueuePbufs(s.queue), [], []);
    case LwipOther =>
      QueuePbufsSnoc(s.queue, Other);
      Joined(QueuePbufs(s.queue), [], []);
    case LwipError =>
    case Dispatch(closes) => HandleKeepsInOrder(s, closes);
    case Proceed(onPacket) =>
      if s.pcb {
        AdvanceKeepsInOrder(noSys, s, onPacket);
      } else {
        PcbStaysGone(noSys, s, onPacket);
      }
    case CallClose => Joined(ToGive(s.stack), [], []);
    case CallAbort => Joined(ToGive(s.stack), [], []);
    case DeleteHandle =>
      assert ToGive(Cons(CloseCall, Cons(DropRef, s.stack))) == [] + ([] + ToGive(s.stack));
      Joined(ToGive(s.stack), [], []);
  }

  lemma PcbStaysGone(noSys: bool, s: State, onPacket: bool)
    requires s.stack != Nil && !s.pcb
    ensures !Advance(noSys, s, onPacket).pcb
  {
    if IsReceiving(s.stack.top) {
      ReceivingMoves(s, onPacket);
    } else if s.stack.top != CloseCall && s.stack.top != AbortApi {
      CallMoves(noSys, s, onPacket);
    }
  }

  // ---- Adoption with a packet of the past behind it ----

  /** An ERROR that dispatch reaches before any FIN. */
  predicate Doomed(queue: seq<Packet>)
  {
    queue != [] && queue[0] != Fin && (queue[0] == Error || Doomed(queue[1..]))
  }

  /**
   A stale pcb: lwIP freed it before `_connected` stored it.  While nothing has fired, a FIN
   ahead of the ERROR, or a close in progress, will purge the ERROR with everything else.
   */
  ghost predicate Shielded(s: State)
  {
    && s.pcb && !s.bound
    && Owed(s.stack) + s.fired + s.lost == 0
    && (!Doomed(s.queue) || (s.stack.Cons? && s.stack.top == CloseCall))
  }

  ghost predicate Obliged(s: State)
  {
    (OneObligation(s) && OnlyErrorAfterPcb(s)) || Shielded(s)
  }

  lemma AdvanceKeepsShielded(noSys: bool, s: State, onPacket: bool)
    requires s.stack != Nil && Shielded(s)
    ensures Obliged(Advance(noSys, s, onPacket))
  {
    var t := Advance(noSys, s, onPacket);
    if s.stack.top == CloseCall || s.stack.top == AbortApi {
      assert t.queue == [] && Owed(t.stack) == 1;
    } else {
      OtherFramesKeepObligation(noSys, s, onPacket);
    }
  }

  lemma HandleKeepsShielded(s: State, closes: bool)
    requires s.queue != [] && !s.dead && s.stack == Nil && Shielded(s)
    ensures Shielded(Handle(s, closes))
  {
    HandleMoves(s, closes);
  }

  lemma StepKeepsObliged(noSys: bool, s: State, step: Step)
    requires Enabled(s, step) && Obliged(s)
    requires (s.queue != [] ==> !s.dead) && (s.bound ==> s.pcb)
    ensures Obliged(Do(noSys, s, step))
  {
    if !Shielded(s) {
      StepKeepsObligation(noSys, s, step);
    } else {
      match step
      case Dispatch(closes) => HandleKeepsShielded(s, closes);
      case Proceed(onPacket) => AdvanceKeepsShielded(noSys, s, onPacket);
      case DeleteHandle => assert Owed(Cons(CloseCall, Cons(DropRef, s.stack))) == Owed(Cons(DropRef, s.stack)) == Owed(s.stack);
      case _ =>
    }
  }

  // ---- The theorems about whole runs ----

  /** Every way a connection is adopted, with any packets behind a dispatched CONNECTED. */
  ghost predicate Adopted(s: State)
  {
    s == Accepted() || s == Connected(s.queue)
  }

  /** What holds of every run from adoption. */
  ghost predicate Sound(s: State)
  {
    RefInv(s) && PbufInv(s) && InOrder(s) && (s.lost > 0 ==> s.dead)
  }

  lemma AdoptedIsSound(s: State)
    requires Adopted(s)
    ensures Sound(s)
    ensures !Doomed(s.queue) ==> Obliged(s)
  {
    forall b ensures Balanced(s, b) {
      QueuePbufsCount(s.queue, b);
      assert InProgress(Cons(InEvent, Nil), b) == 0;
      assert InProgress(s.stack, b) == 0;
    }
    NoErrors(s.queue);
    assert Owed(s.stack) == 0;
  }

  lemma {:induction false} NoErrors(queue: seq<Packet>)
    ensures Error !in queue ==> Errors(queue) == 0
  {
    if queue != [] {
      NoErrors(queue[1..]);
    }
  }

  lemma StepKeepsSound(noSys: bool, s: State, step: Step)
    requires Enabled(s, step) && Sound(s)
    ensures Sound(Do(noSys, s, step))
  {
    StepKeepsRefs(noSys, s, step);
    StepKeepsPbufs(noSys, s, step);
    StepKeepsInOrder(noSys, s, step);
    StepLost(noSys, s, step);
  }

  lemma StepLost(noSys: bool, s: State, step: Step)
    requires Enabled(s, step)
    ensures Do(noSys, s, step).lost > s.lost ==> s.dead
    ensures s.dead ==> Do(noSys, s, step).dead
  {
    match step
    case Proceed(onPacket) => AdvanceLost(noSys, s, onPacket);
    case Dispatch(closes) => assert Handle(s, closes).lost == s.lost;
    case _ =>
  }

  lemma AdvanceLost(noSys: bool, s: State, onPacket: bool)
    requires s.stack != Nil
    ensures Advance(noSys, s, onPacket).lost > s.lost ==> s.dead
  {
    if IsReceiving(s.stack.top) {
      ReceivingMoves(s, onPacket);
    }
  }

  lemma {:induction false} RunKeepsSound(noSys: bool, s: State, steps: seq<Step>)
    requires Sound(s) && Run(noSys, s, steps)
    ensures Sound(Exec(noSys, s, steps))
    ensures Obliged(s) ==> Obliged(Exec(noSys, s, steps))
    decreases |steps|
  {
    if steps != [] {
      StepKeepsSound(noSys, s, steps[0]);
      if Obliged(s) {
        StepKeepsObliged(noSys, s, steps[0]);
      }
      RunKeepsSound(noSys, Do(noSys, s, steps[0]), steps[1..]);
    }
  }

  ghost predicate TornDown(s: State)
  {
    !s.pcb && s.queue == [] && s.stack == Nil
  }

  /**
   Unless an ERROR waits behind the CONNECTED packet with no FIN before it, onDisconnect
   fires at most once in every interleaving; and once teardown has finished it has fired
   exactly once, unless the client was destroyed inside its own onError, which needs the
   application to have deleted its handle.
   */
  lemma DisconnectOnce(noSys: bool, start: State, steps: seq<Step>)
    requires Adopted(start) && !Doomed(start.queue) && Run(noSys, start, steps)
    ensures var s := Exec(noSys, start, steps);
      && s.fired <= 1
      && (TornDown(s) ==> s.fired + s.lost == 1)
      && (TornDown(s) && s.handle ==> s.fired == 1)
      && (s.lost > 0 ==> s.dead && !s.handle)
  {
    AdoptedIsSound(start);
    RunKeepsSound(noSys, start, steps);
  }

  /**
   onDisconnect fires at most once in every run of an outbound connection if and only if no
   ERROR, other than one behind a FIN, is queued when CONNECTED is dispatched.
   */
  lemma DisconnectOnceExactly(noSys: bool, queue: seq<Packet>)
    ensures (forall steps :: Run(noSys, Connected(queue), steps) ==> Exec(noSys, Connected(queue), steps).fired <= 1)
       <==> !Doomed(queue)
  {
    if Doomed(queue) {
      var steps := DoomedFiresTwice(noSys, queue);
    } else {
      forall steps | Run(noSys, Connected(queue), steps) ensures Exec(noSys, Connected(queue), steps).fired <= 1 {
        DisconnectOnce(noSys, Connected(queue), steps);
      }
    }
  }

  /** The shortest such case: one ERROR behind CONNECTED, and later a close(). */
  lemma LateErrorFiresTwice(noSys: bool) returns (steps: seq<Step>)
    ensures Run(noSys, Connected([Error]), steps) && Exec(noSys, Connected([Error]), steps).fired == 2
  {
    steps := DoomedFiresTwice(noSys, [Error]);
  }

  /** A FIN before the ERROR makes it harmless: the close it causes purges the ERROR. */
  lemma FinShieldsError(noSys: bool, steps: seq<Step>)
    requires Run(noSys, Connected([Fin, Error]), steps)
    ensures Exec(noSys, Connected([Fin, Error]), steps).fired <= 1
  {
    DisconnectOnce(noSys, Connected([Fin, Error]), steps);
  }

  /** A doomed connection fires onDisconnect when its ERROR is dispatched and again when it is closed. */
  lemma DoomedFiresTwice(noSys: bool, queue: seq<Packet>) returns (steps: seq<Step>)
    requires Doomed(queue)
    ensures Run(noSys, Connected(queue), steps) && Exec(noSys, Connected(queue), steps).fired == 2
  {
    steps := StaleFiresTwice(noSys, Connected(queue));
  }

  /** On its way, in callbacks that do nothing, to dispatching the ERROR over a stale pcb. */
  ghost predicate Stale(s: State)
  {
    s.pcb && s.owned && s.handle && !s.dead && s.fired == 0 && Heading(s.stack, s.queue)
  }

  predicate Heading(stack: Stack, queue: seq<Packet>)
  {
    match stack
    case Nil => Doomed(queue)
    case Cons(InEvent, below) => below == Nil && Doomed(queue)
    case Cons(f, below) =>
      && below == Cons(InEvent, Nil)
      && (Owes(f) || ((f == OtherCb || f.RecvLoop? || f.RecvData?) && Doomed(queue)))
  }

  function Weight(stack: Stack): nat
  {
    match stack
    case Nil => 0
    case Cons(f, _) =>
      match f
      case InEvent => 1
      case RecvLoop(rest) => 2 * |rest| + 2
      case RecvData(_, rest) => 2 * |rest| + 3
      case ErrorEntry => 4
      case ErrorCb => 3
      case _ => 2
  }

  function NextStep(s: State): Step
  {
    if s.stack == Nil then Dispatch(false) else Proceed(false)
  }

  /** Each step brings the ERROR closer, until onDisconnect has fired over the stale pcb. */
  lemma StaleMovesOn(noSys: bool, s: State)
    requires Stale(s)
    ensures Enabled(s, NextStep(s))
    ensures var t := Do(noSys, s, NextStep(s));
      if s.stack.Cons? && s.stack.top == Discard
      then t == s.(fired := 1, stack := Cons(DiscardCb, Cons(InEvent, Nil)))
      else Stale(t) && (|t.queue| < |s.queue| || (t.queue == s.queue && Weight(t.stack) < Weight(s.stack)))
  {
    if s.stack == Nil {
      HandleMoves(s, false);
    }
  }

  lemma {:induction false} StaleFiresTwice(noSys: bool, s: State) returns (steps: seq<Step>)
    requires Stale(s)
    ensures Run(noSys, s, steps) && Exec(noSys, s, steps).fired == 2
    decreases |s.queue|, Weight(s.stack)
  {
    StaleMovesOn(noSys, s);
    var t := Do(noSys, s, NextStep(s));
    var rest;
    if s.stack.Cons? && s.stack.top == Discard {
      rest := CloseFiresAgain(noSys, t);
    } else {
      rest := StaleFiresTwice(noSys, t);
    }
    steps := [NextStep(s)] + rest;
    Prefix(noSys, s, NextStep(s), rest);
  }

  /** The handlers return, and the application closes a connection it has already been told is gone. */
  lemma CloseFiresAgain(noSys: bool, s: State) returns (steps: seq<Step>)
    requires s.pcb && s.owned && s.handle && !s.dead && s.fired == 1 && s.stack == Cons(DiscardCb, Cons(InEvent, Nil))
    ensures Run(noSys, s, steps) && Exec(noSys, s, steps).fired == 2
  {
    var p := Proceed(false);
    steps := [p, p, CallClose, p, p];
    var s1 := Do(noSys, s, p);
    var s2 := Do(noSys, s1, p);
    var s3 := Do(noSys, s2, CallClose);
    var s4 := Do(noSys, s3, p);
    Prefix(noSys, s4, p, []);
    Prefix(noSys, s3, p, [p]);
    Prefix(noSys, s2, CallClose, [p, p]);
    Prefix(noSys, s1, p, [CallClose, p, p]);
    Prefix(noSys, s, p, [p, CallClose, p, p]);
  }

  /** Running one step and then the others. */
  lemma Prefix(noSys: bool, s: State, step: Step, rest: seq<Step>)
    requires Enabled(s, step) && Run(noSys, Do(noSys, s, step), rest)
    ensures Run(noSys, s, [step] + rest)
    ensures Exec(noSys, s, [step] + rest) == Exec(noSys, Do(noSys, s, step), rest)
  {
    assert ([step] + rest)[1..] == rest;
  }

  /**
   In every run, while the connection lasts, the buffers are given to the application in the
   order they came, without a gap: what it has been given begins what entered, and the rest
   is what the receive loops and the queue still hold, in order.
   */
  lemma GivenInOrder(noSys: bool, start: State, steps: seq<Step>)
    requires Adopted(start) && Run(noSys, start, steps) && Exec(noSys, start, steps).pcb
    ensures var s := Exec(noSys, start, steps);
      s.pbufs.given + (ToGive(s.stack) + QueuePbufs(s.queue)) == s.pbufs.entered
  {
    AdoptedIsSound(start);
    RunKeepsSound(noSys, start, steps);
  }

  lemma HandleIsOwned(s: State)
    requires RefInv(s) && s.handle
    ensures s.owned && !s.dead
  {
  }

  /** In every reachable state a handle the application still has is counted, and its client lives. */
  lemma LiveHandle(noSys: bool, start: State, steps: seq<Step>)
    requires Adopted(start) && Run(noSys, start, steps) && Exec(noSys, start, steps).handle
    ensures Exec(noSys, start, steps).owned && !Exec(noSys, start, steps).dead
  {
    AdoptedIsSound(start);
    RunKeepsSound(noSys, start, steps);
    HandleIsOwned(Exec(noSys, start, steps));
  }

  /**
   In every reachable state with a connection an abort() takes it down in two steps, with
   nothing left queued, and with callbacks that do nothing four more call onError once and
   onDisconnect once.
   */
  lemma AbortWorksAnywhere(noSys: bool, start: State, steps: seq<Step>)
    requires Adopted(start) && Run(noSys, start, steps)
    requires var s := Exec(noSys, start, steps); s.pcb && s.handle && AppRuns(s.stack)
    ensures var s := Exec(noSys, start, steps);
      && Leads(noSys, Do(noSys, s, CallAbort), 2, Gone(s).(stack := Cons(ErrorEntry, s.stack)))
      && Leads(noSys, Do(noSys, s, CallAbort), 6, Gone(s).(errored := s.errored + 1, fired := s.fired + 1))
  {
    LiveHandle(noSys, start, steps);
    AbortWorks(noSys, Exec(noSys, start, steps));
  }

  /** And a close() takes it down in one step, and two more call onDisconnect once. */
  lemma CloseWorksAnywhere(noSys: bool, start: State, steps: seq<Step>)
    requires Adopted(start) && Run(noSys, start, steps)
    requires var s := Exec(noSys, start, steps); s.pcb && s.handle && AppRuns(s.stack)
    ensures var s := Exec(noSys, start, steps);
      && Leads(noSys, Do(noSys, s, CallClose), 1, Gone(s).(stack := Cons(Discard, s.stack)))
      && Leads(noSys, Do(noSys, s, CallClose), 3, Gone(s).(fired := s.fired + 1))
  {
    LiveHandle(noSys, start, steps);
    CloseWorks(noSys, Exec(noSys, start, steps));
  }

  lemma AbortWorks(noSys: bool, s: State)
    requires s.pcb && s.handle && s.owned && !s.dead && AppRuns(s.stack)
    ensures Leads(noSys, Do(noSys, s, CallAbort), 2, Gone(s).(stack := Cons(ErrorEntry, s.stack)))
    ensures Leads(noSys, Do(noSys, s, CallAbort), 6, Gone(s).(errored := s.errored + 1, fired := s.fired + 1))
  {
    var a := Do(noSys, s, CallAbort);
    assert a == s.(stack := Cons(AbortCall, s.stack));
    AbortLeads(noSys, a);
    TornInTwo(noSys, a);
  }

  lemma CloseWorks(noSys: bool, s: State)
    requires s.pcb && s.handle && s.owned && !s.dead && AppRuns(s.stack)
    ensures Leads(noSys, Do(noSys, s, CallClose), 1, Gone(s).(stack := Cons(Discard, s.stack)))
    ensures Leads(noSys, Do(noSys, s, CallClose), 3, Gone(s).(fired := s.fired + 1))
  {
    var c := Do(noSys, s, CallClose);
    assert c == s.(stack := Cons(CloseCall, s.stack));
    CloseLeads(noSys, c);
    TornInOne(noSys, c);
  }

  lemma TornInTwo(noSys: bool, a: State)
    requires a.owned && a.pcb && a.stack.Cons? && a.stack.top == AbortCall
    ensures Leads(noSys, a, 2, Gone(a).(stack := Cons(ErrorEntry, a.stack.below)))
  {
    var t := Gone(a).(stack := Cons(ErrorEntry, a.stack.below));
    var s1 := Do(noSys, a, Proceed(false));
    assert s1 == a.(stack := Cons(AbortApi, a.stack.below)) && Do(noSys, s1, Proceed(false)) == t;
    NoMore(noSys, t, false);
    Leading(noSys, s1, 1, t);
    Leading(noSys, a, 2, t);
  }

  lemma TornInOne(noSys: bool, c: State)
    requires c.owned && c.pcb && c.stack.Cons? && c.stack.top == CloseCall
    ensures Leads(noSys, c, 1, Gone(c).(stack := Cons(Discard, c.stack.below)))
  {
    var t := Gone(c).(stack := Cons(Discard, c.stack.below));
    assert Do(noSys, c, Proceed(false)) == t;
    NoMore(noSys, t, false);
    Leading(noSys, c, 1, t);
  }

  /** Deleting the handle closes first, and then lets its reference go. */
  lemma DeletionCloses(noSys: bool, start: State, steps: seq<Step>)
    requires Adopted(start) && Run(noSys, start, steps)
    requires var s := Exec(noSys, start, steps); s.pcb && s.handle && AppRuns(s.stack)
    ensures var s := Exec(noSys, start, steps);
      var t := Gone(s).(fired := s.fired + 1, handle := false, owned := false);
      Leads(noSys, Do(noSys, s, DeleteHandle), 4, t.(dead := !Referenced(t)))
  {
    LiveHandle(noSys, start, steps);
    DeletionWorks(noSys, Exec(noSys, start, steps));
  }

  lemma DeletionWorks(noSys: bool, s: State)
    requires s.pcb && s.handle && s.owned && !s.dead && AppRuns(s.stack)
    ensures var t := Gone(s).(fired := s.fired + 1, handle := false, owned := false);
      Leads(noSys, Do(noSys, s, DeleteHandle), 4, t.(dead := !Referenced(t)))
  {
    var d := Do(noSys, s, DeleteHandle);
    assert d == s.(handle := false, stack := Cons(CloseCall, Cons(DropRef, s.stack)));
    CloseLeads(noSys, d);
    var u := Gone(s).(fired := s.fired + 1, handle := false, stack := Cons(DropRef, s.stack));
    ReferenceGoes(noSys, u);
    ThenLeads(noSys, d, 3, u, 1, u.(owned := false, stack := s.stack, dead := !Referenced(u.(owned := false, stack := s.stack))));
  }

  lemma ReferenceGoes(noSys: bool, u: State)
    requires u.owned && !u.dead && u.stack.Cons? && u.stack.top == DropRef
    ensures var t := u.(owned := false, stack := u.stack.below); Leads(noSys, u, 1, t.(dead := !Referenced(t)))
  {
    var t := u.(owned := false, stack := u.stack.below);
    var v := t.(dead := !Referenced(t));
    assert Do(noSys, u, Proceed(false)) == v;
    NoMore(noSys, v, false);
    Leading(noSys, u, 1, v);
  }

  /** A client reached through a packet, queued or in dispatch, is never dead; a dead one has no pcb. */
  lemma NeverSeenDead(noSys: bool, start: State, steps: seq<Step>)
    requires Adopted(start) && Run(noSys, start, steps)
    ensures var s := Exec(noSys, start, steps);
      && (s.queue != [] || HoldsEvent(s.stack) ==> !s.dead)
      && (s.pcb ==> !s.dead)
  {
    AdoptedIsSound(start);
    RunKeepsSound(noSys, start, steps);
  }

  /**
   Every receive buffer is, at any time, queued, in a receive loop, freed or handed to
   onPacket, exactly as often as it entered; none leaks; and none is left behind by teardown.
   */
  lemma PbufsOnce(noSys: bool, start: State, steps: seq<Step>, b: Pbuf)
    requires Adopted(start) && Run(noSys, start, steps)
    ensures var s := Exec(noSys, start, steps);
      && Count(s.pbufs.entered, b)
      == Queued(s.queue, b) + InProgress(s.stack, b) + Count(s.pbufs.freed, b) + Count(s.pbufs.handed, b)
      && Count(s.pbufs.leaked, b) == 0
      && (TornDown(s) ==> Count(s.pbufs.entered, b) == Count(s.pbufs.freed, b) + Count(s.pbufs.handed, b))
  {
    AdoptedIsSound(start);
    RunKeepsSound(noSys, start, steps);
    assert Balanced(Exec(noSys, start, steps), b);
  }
}
