/**
 The BearSSL engine pump (AsyncSecureSession.cpp): process_ssl_engine, its scheduling, and
 sessions that may be freed under it by any yield or application callback.

 A run of process_ssl_engine is a frame; runs may nest, because a yield or a callback can
 reach the pump again.  While the innermost frame is suspended (in a yield or a callback)
 the environment opens, frees and kicks sessions and starts scheduled runs at will.  The
 engine's state bits and lwIP's answers are free choices.  Session identities are never
 reused.
 */
module EnginePump {
  import opened Common

  type Id = nat

  const SSL_MAX_FEED_LOOPS: nat := 10

  datatype Pump = Idle | Dropped | Queued

  datatype Session = Session(isServer: bool, handshakeDone: bool, pump: Pump)

  /** Program points of process_ssl_engine. */
  datatype Point =
    | Feeding                              // streaming queued ciphertext into the engine
    | Yielding(i: nat)                     // in yield(), turn i of the engine loop
    | Turn(i: nat)                         // flush, closed test, handshake test
    | InError                              // in on_error
    | InHandshake(i: nat, recvApp: bool)   // in on_handshake, inside the loop
    | Deliver(i: nat, recvApp: bool)       // plaintext test
    | InData(i: nat)                       // in on_data
    | Sending(i: nat)                      // the record emitter
    | Leaving                              // past the loop, before the liveness test
    | Tail                                 // reschedule or late handshake
    | InLateHandshake                      // in on_handshake, after the loop

  datatype Stack = Empty | Frame(id: Id, at: Point, below: Stack)

  /** What the pump observed and what it called. */
  datatype Entry =
    | Saw(id: Id, recvApp: bool, sendApp: bool)   // the engine state a turn goes by
    | HandshakeFired(id: Id)
    | PlaintextDelivered(id: Id)
    | RecordSent(id: Id)
    | ErrorReported(id: Id)

  datatype State = State(
    live: map<Id, Session>,     // tcp_ssl_pcbs
    nextId: Id,
    servers: set<Id>,           // every server session ever opened
    scheduled: seq<Id>,         // schedule_function closures not yet run
    stack: Stack,
    log: seq<Entry>,
    fault: bool)                // a freed session was touched

  /** What the engine and lwIP report at one point of the run. */
  datatype Choice = Choice(
    closed: bool, recvApp: bool, sendApp: bool, sendRec: bool,
    fits: bool, ringFull: bool, wrote: bool, deferred: bool, armed: bool)

  datatype Step =
    | Open(isServer: bool)
    | Free(id: Id)                    // tcp_ssl_free
    | Kick(id: Id, armed: bool)       // schedule_ssl_engine from tcp_ssl_read, _sent or _write
    | RunScheduled(k: nat)            // a scheduled closure starts
    | Poll(id: Id)                    // pump() from the poll callback
    | Proceed(choice: Choice)         // the innermost run goes on

  predicate Suspended(p: Point)
  {
    p.Yielding? || p == InError || p.InHandshake? || p.InData? || p == InLateHandshake
  }

  /** Points whose code reads or writes the session without testing that it lives. */
  predicate Touches(p: Point)
  {
    p == Feeding || p.Turn? || p.Deliver? || p.Sending? || p == Tail
  }

  predicate EnvironmentRuns(stack: Stack)
  {
    stack == Empty || Suspended(stack.at)
  }

  predicate Enabled(s: State, step: Step)
  {
    match step
    case Open(_) => EnvironmentRuns(s.stack)
    case Free(id) => EnvironmentRuns(s.stack) && id in s.live
    case Kick(id, _) => EnvironmentRuns(s.stack) && id in s.live
    case RunScheduled(k) => EnvironmentRuns(s.stack) && k < |s.scheduled|
    case Poll(id) => EnvironmentRuns(s.stack) && id in s.live
    case Proceed(_) => s.stack != Empty
  }

  /** `schedule_ssl_engine`. */
  function Schedule(s: State, id: Id, armed: bool): State
  {
    if id !in s.live || s.live[id].pump == Queued then s
    else if armed then
      s.(live := s.live[id := s.live[id].(pump := Queued)], scheduled := s.scheduled + [id])
    else
      s.(live := s.live[id := s.live[id].(pump := Dropped)])
  }

  function LoopAt(i: nat): Point
  {
    if i < SSL_MAX_FEED_LOOPS then Yielding(i) else Leaving
  }

  /** Whether an engine state completes the handshake: RECVAPP for a server, SENDAPP for a client. */
  predicate Completes(isServer: bool, recvApp: bool, sendApp: bool)
  {
    (isServer && recvApp) || (!isServer && sendApp)
  }

  /** A turn reads the engine state and, the first time it completes the handshake, calls on_handshake. */
  function Look(s: State, id: Id, c: Choice, fired: Stack, otherwise: Stack): State
    requires id in s.live
  {
    var session, seen := s.live[id], s.log + [Saw(id, c.recvApp, c.sendApp)];
    if !session.handshakeDone && Completes(session.isServer, c.recvApp, c.sendApp) then
      s.(live := s.live[id := session.(handshakeDone := true)], log := seen + [HandshakeFired(id)], stack := fired)
    else
      s.(log := seen, stack := otherwise)
  }

  /** The pump proper, at a point where its session is known to live. */
  function Work(s: State, id: Id, at: Point, below: Stack, c: Choice): State
    requires Touches(at) && id in s.live
  {
    match at
    case Feeding => s.(stack := Frame(id, LoopAt(0), below))
    case Turn(i) =>
      if c.closed then s.(stack := Frame(id, InError, below), log := s.log + [ErrorReported(id)])
      else Look(s, id, c, Frame(id, InHandshake(i, c.recvApp), below), Frame(id, Deliver(i, c.recvApp), below))
    case Deliver(i, recvApp) =>
      if recvApp && c.fits then s.(stack := Frame(id, InData(i), below), log := s.log + [PlaintextDelivered(id)])
      else s.(stack := Frame(id, Sending(i), below))
    case Sending(i) =>
      if !c.ringFull && c.wrote then s.(stack := Frame(id, LoopAt(i + 1), below), log := s.log + [RecordSent(id)])
      else s.(stack := Frame(id, Leaving, below))
    case Tail =>
      if !c.deferred && !c.ringFull && c.sendRec then Schedule(s, id, c.armed).(stack := below)
      else Look(s, id, c, Frame(id, InLateHandshake, below), below)
  }

  /** The innermost run goes on: re-validate after a suspension, or work on the session. */
  function Advance(s: State, c: Choice): State
    requires s.stack != Empty
  {
    var (id, at, below) := (s.stack.id, s.stack.at, s.stack.below);
    match at
    case Yielding(i) => if id in s.live then s.(stack := Frame(id, Turn(i), below)) else s.(stack := below)
    case InError => s.(stack := below)
    case InHandshake(i, recvApp) =>
      if id in s.live then s.(stack := Frame(id, Deliver(i, recvApp), below)) else s.(stack := below)
    case InData(i) => s.(stack := Frame(id, LoopAt(i + 1), below))
    case Leaving => if id in s.live then s.(stack := Frame(id, Tail, below)) else s.(stack := below)
    case InLateHandshake => s.(stack := below)
    case _ => if id in s.live then Work(s, id, at, below, c) else s.(fault := true)
  }

  function Do(s: State, step: Step): State
    requires Enabled(s, step)
  {
    match step
    case Open(isServer) =>
      s.(live := s.live[s.nextId := Session(isServer, false, Idle)],
         nextId := s.nextId + 1,
         servers := if isServer then s.servers + {s.nextId} else s.servers)
    case Free(id) => s.(live := s.live - {id})
    case Kick(id, armed) => Schedule(s, id, armed)
    case RunScheduled(k) =>
      var id := s.scheduled[k];
      var t := s.(scheduled := s.scheduled[..k] + s.scheduled[k + 1..]);
      if id in s.live
      then t.(live := s.live[id := s.live[id].(pump := Idle)], stack := Frame(id, Feeding, s.stack))
      else t
    case Poll(id) => s.(stack := Frame(id, Feeding, s.stack))
    case Proceed(c) => Advance(s, c)
  }

  function Initial(): State
  {
    State(map[], 0, {}, [], Empty, [], false)
  }

  ghost predicate Run(s: State, steps: seq<Step>)
    decreases |steps|
  {
    steps == [] || (Enabled(s, steps[0]) && Run(Do(s, steps[0]), steps[1..]))
  }

  ghost function Exec(s: State, steps: seq<Step>): State
    requires Run(s, steps)
    decreases |steps|
  {
    if steps == [] then s else Exec(Do(s, steps[0]), steps[1..])
  }

  // ---- No freed session is touched ----

  ghost predicate AllSuspended(stack: Stack)
  {
    match stack case Empty => true case Frame(_, at, below) => Suspended(at) && AllSuspended(below)
  }

  /** Only the innermost run can be at work, and then on a live session. */
  ghost predicate SafeInv(s: State)
  {
    && !s.fault
    && (s.stack != Empty ==> AllSuspended(s.stack.below) && (Touches(s.stack.at) ==> s.stack.id in s.live))
  }

  lemma StepKeepsSafe(s: State, step: Step)
    requires SafeInv(s) && Enabled(s, step)
    ensures SafeInv(Do(s, step))
  {
  }

  // ---- One scheduled run exactly while QUEUED ----

  lemma CountSnoc(ids: seq<Id>, x: Id, id: Id)
    ensures Count(ids + [x], id) == Count(ids, id) + (if x == id then 1 else 0)
  {
    CountConcat(ids, [x], id);
    assert [x][1..] == [];
  }

  lemma CountRemove(ids: seq<Id>, k: nat, id: Id)
    requires k < |ids|
    ensures Count(ids[..k] + ids[k + 1..], id) == Count(ids, id) - (if ids[k] == id then 1 else 0)
  {
    assert ids == ids[..k] + ([ids[k]] + ids[k + 1..]);
    CountConcat(ids[..k], [ids[k]] + ids[k + 1..], id);
    CountConcat([ids[k]], ids[k + 1..], id);
    CountConcat(ids[..k], ids[k + 1..], id);
    assert [ids[k]][1..] == [];
  }

  /** Session `id` has one pending run if its pump is QUEUED and none otherwise. */
  ghost predicate Armed(s: State, id: Id)
  {
    && (id in s.live ==> id < s.nextId && Count(s.scheduled, id) == if s.live[id].pump == Queued then 1 else 0)
    && (id >= s.nextId ==> Count(s.scheduled, id) == 0)
  }

  lemma ScheduleKeepsArmed(s: State, x: Id, armed: bool, id: Id)
    requires Armed(s, id)
    ensures Armed(Schedule(s, x, armed), id)
  {
    CountSnoc(s.scheduled, x, id);
  }

  lemma LookKeepsPump(s: State, x: Id, c: Choice, fired: Stack, otherwise: Stack, id: Id)
    requires x in s.live && Armed(s, id)
    ensures Armed(Look(s, x, c, fired, otherwise), id)
  {
  }

  lemma TailKeepsArmed(s: State, c: Choice, id: Id)
    requires s.stack != Empty && s.stack.at == Tail && s.stack.id in s.live && Armed(s, id)
    ensures Armed(Work(s, s.stack.id, Tail, s.stack.below, c), id)
  {
    if !c.deferred && !c.ringFull && c.sendRec {
      ScheduleKeepsArmed(s, s.stack.id, c.armed, id);
    } else {
      LookKeepsPump(s, s.stack.id, c, Frame(s.stack.id, InLateHandshake, s.stack.below), s.stack.below, id);
    }
  }

  /** A run changes a pump state or the schedule only where it reschedules itself. */
  lemma AdvanceKeepsArmed(s: State, c: Choice, id: Id)
    requires s.stack != Empty && Armed(s, id)
    ensures Armed(Advance(s, c), id)
  {
    if s.stack.at != Tail {
      AdvanceKeepsPump(s, c, id);
    } else if s.stack.id in s.live {
      TailKeepsArmed(s, c, id);
    }
  }

  lemma AdvanceKeepsPump(s: State, c: Choice, id: Id)
    requires s.stack != Empty && s.stack.at != Tail
    ensures var t := Advance(s, c);
      && t.scheduled == s.scheduled && t.nextId == s.nextId
      && (id in t.live <==> id in s.live)
      && (id in t.live ==> t.live[id].pump == s.live[id].pump)
  {
  }

  lemma StepKeepsArmed(s: State, step: Step, id: Id)
    requires Enabled(s, step) && Armed(s, id)
    ensures Armed(Do(s, step), id)
  {
    match step
    case Kick(x, armed) => ScheduleKeepsArmed(s, x, armed, id);
    case RunScheduled(k) => CountRemove(s.scheduled, k, id);
    case Proceed(c) => AdvanceKeepsArmed(s, c, id);
    case _ =>
  }

  // ---- Handshake once, and for servers before any plaintext ----

  ghost predicate FiredOnce(log: seq<Entry>)
  {
    forall i, j :: 0 <= i < j < |log| && log[i].HandshakeFired? ==> log[j] != log[i]
  }

  /** In a server's log every plaintext delivery comes after its handshake callback. */
  ghost predicate HandshakeFirst(log: seq<Entry>, servers: set<Id>)
  {
    forall j :: 0 <= j < |log| && log[j].PlaintextDelivered? && log[j].id in servers ==>
      HandshakeFired(log[j].id) in log[..j]
  }

  ghost predicate SawReceive(log: seq<Entry>, id: Id)
  {
    Saw(id, true, false) in log || Saw(id, true, true) in log
  }

  /** Some turn of the session saw an engine state that completes its handshake. */
  ghost predicate SawComplete(log: seq<Entry>, id: Id, isServer: bool)
  {
    if isServer then SawReceive(log, id) else Saw(id, false, true) in log || Saw(id, true, true) in log
  }

  /**
   Plaintext comes only after a turn has seen RECVAPP, and the handshake callback has come
   before it exactly when a turn before it has seen the handshake complete.
   */
  ghost predicate Explained(log: seq<Entry>, servers: set<Id>)
  {
    forall j :: 0 <= j < |log| && log[j].PlaintextDelivered? ==>
      var (id, past) := (log[j].id, log[..j]);
      SawReceive(past, id) && (HandshakeFired(id) in past <==> SawComplete(past, id, id in servers))
  }

  lemma ExplainedIsFirst(log: seq<Entry>, servers: set<Id>)
    requires Explained(log, servers)
    ensures HandshakeFirst(log, servers)
  {
  }

  ghost predicate Matched(log: seq<Entry>, servers: set<Id>, n: Id)
  {
    forall id: Id :: id < n ==> (HandshakeFired(id) in log <==> SawComplete(log, id, id in servers))
  }

  ghost predicate Sensible(log: seq<Entry>, servers: set<Id>, n: Id)
  {
    && (forall e :: e in log ==> e.id < n)
    && (forall id :: id in servers ==> id < n)
    && FiredOnce(log) && Explained(log, servers) && Matched(log, servers, n)
  }

  /** A run that is about to deliver plaintext has seen RECVAPP. */
  ghost predicate ReadyPoint(log: seq<Entry>, id: Id, at: Point)
  {
    (at.InHandshake? && at.recvApp) || (at.Deliver? && at.recvApp) ==> SawReceive(log, id)
  }

  ghost predicate ReadyToDeliver(log: seq<Entry>, stack: Stack)
  {
    match stack
    case Empty => true
    case Frame(id, at, below) => ReadyPoint(log, id, at) && ReadyToDeliver(log, below)
  }

  ghost predicate LogInv(s: State)
  {
    && (forall id :: id in s.live ==> id < s.nextId && (s.live[id].isServer <==> id in s.servers))
    && Flagged(s.live, s.log)
    && Sensible(s.log, s.servers, s.nextId)
    && ReadyToDeliver(s.log, s.stack)
  }

  lemma {:induction false} ReadyStays(log: seq<Entry>, more: seq<Entry>, stack: Stack)
    requires ReadyToDeliver(log, stack) && log <= more
    ensures ReadyToDeliver(more, stack)
  {
    match stack
    case Empty =>
    case Frame(id, at, below) =>
      assert forall e :: e in log ==> e in more;
      ReadyStays(log, more, below);
  }

  /** Entries that deliver nothing leave earlier deliveries explained. */
  lemma ExplainedStays(log: seq<Entry>, e: Entry, servers: set<Id>)
    requires Explained(log, servers)
    requires e.PlaintextDelivered? ==>
      SawReceive(log, e.id) && (HandshakeFired(e.id) in log <==> SawComplete(log, e.id, e.id in servers))
    ensures Explained(log + [e], servers)
  {
    var l := log + [e];
    forall j | 0 <= j < |l| && l[j].PlaintextDelivered?
      ensures SawReceive(l[..j], l[j].id)
      ensures HandshakeFired(l[j].id) in l[..j] <==> SawComplete(l[..j], l[j].id, l[j].id in servers)
    {
      assert l[..j] == if j < |log| then log[..j] else log;
    }
  }

  /** Reporting an error, sending a record, or delivering plaintext after RECVAPP was seen. */
  lemma CallIsSensible(log: seq<Entry>, e: Entry, servers: set<Id>, n: Id)
    requires Sensible(log, servers, n) && e.id < n
    requires e.ErrorReported? || e.RecordSent? || (e.PlaintextDelivered? && SawReceive(log, e.id))
    ensures Sensible(log + [e], servers, n)
  {
    ExplainedStays(log, e, servers);
    assert forall id :: HandshakeFired(id) in log + [e] <==> HandshakeFired(id) in log;
    assert forall id, r, w :: Saw(id, r, w) in log + [e] <==> Saw(id, r, w) in log;
  }

  /** What one more look adds to what has been seen. */
  lemma SawMore(log: seq<Entry>, id: Id, r: bool, w: bool, x: Id, isServer: bool)
    ensures SawComplete(log + [Saw(id, r, w)], x, isServer)
       <==> SawComplete(log, x, isServer) || (x == id && Completes(isServer, r, w))
  {
    var e := Saw(id, r, w);
    assert forall y :: y in log + [e] <==> y in log || y == e;
  }

  /** Looking at the engine with no callback due. */
  lemma SeenIsSensible(log: seq<Entry>, id: Id, r: bool, w: bool, servers: set<Id>, n: Id)
    requires Sensible(log, servers, n) && id < n
    requires HandshakeFired(id) in log || !Completes(id in servers, r, w)
    ensures Sensible(log + [Saw(id, r, w)], servers, n)
  {
    ExplainedStays(log, Saw(id, r, w), servers);
    forall x: Id | x < n
      ensures HandshakeFired(x) in log + [Saw(id, r, w)] <==> SawComplete(log + [Saw(id, r, w)], x, x in servers)
    {
      SawMore(log, id, r, w, x, x in servers);
    }
  }

  /** Looking at the engine and calling on_handshake the first time it is due. */
  lemma FiredIsSensible(log: seq<Entry>, id: Id, r: bool, w: bool, servers: set<Id>, n: Id)
    requires Sensible(log, servers, n) && id < n
    requires HandshakeFired(id) !in log && Completes(id in servers, r, w)
    ensures Sensible(log + [Saw(id, r, w)] + [HandshakeFired(id)], servers, n)
  {
    var seen := log + [Saw(id, r, w)];
    ExplainedStays(log, Saw(id, r, w), servers);
    ExplainedStays(seen, HandshakeFired(id), servers);
    forall x: Id | x < n
      ensures HandshakeFired(x) in seen + [HandshakeFired(id)] <==> SawComplete(seen + [HandshakeFired(id)], x, x in servers)
    {
      SawMore(log, id, r, w, x, x in servers);
      assert SawComplete(seen + [HandshakeFired(id)], x, x in servers) <==> SawComplete(seen, x, x in servers);
    }
  }

  /** Every run in progress is of a session that was opened. */
  ghost predicate StackIdsBelow(stack: Stack, n: Id)
  {
    match stack case Empty => true case Frame(id, _, below) => id < n && StackIdsBelow(below, n)
  }

  lemma {:induction false} StackIdsGrow(stack: Stack, n: Id, m: Id)
    requires StackIdsBelow(stack, n) && n <= m
    ensures StackIdsBelow(stack, m)
  {
    match stack case Empty => case Frame(_, _, below) => StackIdsGrow(below, n, m);
  }

  /** A new session has no entries, so opening it explains the log as before. */
  lemma OpenIsSensible(log: seq<Entry>, servers: set<Id>, n: Id, isServer: bool)
    requires Sensible(log, servers, n)
    ensures Sensible(log, if isServer then servers + {n} else servers, n + 1)
  {
    var more := if isServer then servers + {n} else servers;
    assert forall e :: e in log ==> (e.id in more <==> e.id in servers);
    assert !SawComplete(log, n, true) && !SawComplete(log, n, false) && HandshakeFired(n) !in log;
    forall j | 0 <= j < |log| && log[j].PlaintextDelivered?
      ensures HandshakeFired(log[j].id) in log[..j] <==> SawComplete(log[..j], log[j].id, log[j].id in more)
    {
      assert log[j] in log;
    }
  }

  lemma OpenKeepsLog(s: State, isServer: bool)
    requires LogInv(s) && StackIdsBelow(s.stack, s.nextId) && EnvironmentRuns(s.stack)
    ensures LogInv(Do(s, Open(isServer))) && StackIdsBelow(s.stack, s.nextId + 1)
  {
    OpenIsSensible(s.log, s.servers, s.nextId, isServer);
    StackIdsGrow(s.stack, s.nextId, s.nextId + 1);
    assert HandshakeFired(s.nextId) !in s.log;
  }

  /** The pump's own flag and the log agree on who has had the handshake callback. */
  ghost predicate Flagged(live: map<Id, Session>, log: seq<Entry>)
  {
    forall id :: id in live ==> (live[id].handshakeDone <==> HandshakeFired(id) in log)
  }

  lemma FlagStays(live: map<Id, Session>, log: seq<Entry>, e: Entry)
    requires Flagged(live, log) && !e.HandshakeFired?
    ensures Flagged(live, log + [e])
  {
    assert forall x :: HandshakeFired(x) in log + [e] <==> HandshakeFired(x) in log;
  }

  lemma FlagSet(live: map<Id, Session>, log: seq<Entry>, id: Id)
    requires Flagged(live, log) && id in live
    ensures Flagged(live[id := live[id].(handshakeDone := true)], log + [HandshakeFired(id)])
  {
    assert forall x :: HandshakeFired(x) in log + [HandshakeFired(id)] <==> HandshakeFired(x) in log || x == id;
  }

  lemma SeeKeepsLog(s: State, id: Id, r: bool, w: bool, stack: Stack)
    requires id in s.live && LogInv(s)
    requires s.live[id].handshakeDone || !Completes(id in s.servers, r, w)
    requires ReadyToDeliver(s.log + [Saw(id, r, w)], stack)
    ensures LogInv(s.(log := s.log + [Saw(id, r, w)], stack := stack))
  {
    FlagStays(s.live, s.log, Saw(id, r, w));
    SeenIsSensible(s.log, id, r, w, s.servers, s.nextId);
  }

  lemma FireKeepsLog(s: State, id: Id, r: bool, w: bool, stack: Stack)
    requires id in s.live && LogInv(s)
    requires !s.live[id].handshakeDone && Completes(id in s.servers, r, w)
    requires ReadyToDeliver(s.log + [Saw(id, r, w)] + [HandshakeFired(id)], stack)
    ensures LogInv(s.(live := s.live[id := s.live[id].(handshakeDone := true)],
                      log := s.log + [Saw(id, r, w)] + [HandshakeFired(id)],
                      stack := stack))
  {
    FlagStays(s.live, s.log, Saw(id, r, w));
    FlagSet(s.live, s.log + [Saw(id, r, w)], id);
    FiredIsSensible(s.log, id, r, w, s.servers, s.nextId);
  }

  lemma LookKeepsLog(s: State, id: Id, c: Choice, fired: Stack, otherwise: Stack)
    requires id in s.live && LogInv(s)
    requires var t := Look(s, id, c, fired, otherwise); ReadyToDeliver(t.log, t.stack)
    ensures LogInv(Look(s, id, c, fired, otherwise))
  {
    if !s.live[id].handshakeDone && Completes(id in s.servers, c.recvApp, c.sendApp) {
      FireKeepsLog(s, id, c.recvApp, c.sendApp, fired);
    } else {
      SeeKeepsLog(s, id, c.recvApp, c.sendApp, otherwise);
    }
  }

  /** Frames above a run whose points need only what a look has just seen. */
  lemma LookedReady(log: seq<Entry>, id: Id, r: bool, w: bool, at: Point, below: Stack, more: seq<Entry>)
    requires ReadyToDeliver(log, below) && log + [Saw(id, r, w)] <= more
    requires (at.InHandshake? ==> at.recvApp == r) && (at.Deliver? ==> at.recvApp == r)
    ensures ReadyToDeliver(more, below) && ReadyToDeliver(more, Frame(id, at, below))
  {
    assert log <= log + [Saw(id, r, w)] <= more;
    ReadyStays(log, more, below);
    assert more[|log|] == Saw(id, r, w);
  }

  lemma TurnKeepsLog(s: State, i: nat, c: Choice)
    requires s.stack != Empty && s.stack.at == Turn(i) && s.stack.id in s.live
    requires LogInv(s) && StackIdsBelow(s.stack, s.nextId)
    ensures var t := Work(s, s.stack.id, s.stack.at, s.stack.below, c); LogInv(t) && StackIdsBelow(t.stack, t.nextId)
  {
    var id, below := s.stack.id, s.stack.below;
    if c.closed {
      CallIsSensible(s.log, ErrorReported(id), s.servers, s.nextId);
      ReadyStays(s.log, s.log + [ErrorReported(id)], below);
      FlagStays(s.live, s.log, ErrorReported(id));
    } else {
      var fired, otherwise := Frame(id, InHandshake(i, c.recvApp), below), Frame(id, Deliver(i, c.recvApp), below);
      var log := Look(s, id, c, fired, otherwise).log;
      LookedReady(s.log, id, c.recvApp, c.sendApp, fired.at, below, log);
      LookedReady(s.log, id, c.recvApp, c.sendApp, otherwise.at, below, log);
      LookKeepsLog(s, id, c, fired, otherwise);
    }
  }

  lemma TailKeepsLog(s: State, c: Choice)
    requires s.stack != Empty && s.stack.at == Tail && s.stack.id in s.live
    requires LogInv(s) && StackIdsBelow(s.stack, s.nextId)
    ensures var t := Work(s, s.stack.id, s.stack.at, s.stack.below, c); LogInv(t) && StackIdsBelow(t.stack, t.nextId)
  {
    var id, below := s.stack.id, s.stack.below;
    if !(!c.deferred && !c.ringFull && c.sendRec) {
      var fired := Frame(id, InLateHandshake, below);
      LookedReady(s.log, id, c.recvApp, c.sendApp, InLateHandshake, below, Look(s, id, c, fired, below).log);
      LookKeepsLog(s, id, c, fired, below);
    }
  }

  lemma WorkKeepsLog(s: State, c: Choice)
    requires s.stack != Empty && Touches(s.stack.at) && s.stack.id in s.live
    requires LogInv(s) && StackIdsBelow(s.stack, s.nextId)
    ensures var t := Work(s, s.stack.id, s.stack.at, s.stack.below, c); LogInv(t) && StackIdsBelow(t.stack, t.nextId)
  {
    var id, below := s.stack.id, s.stack.below;
    match s.stack.at
    case Turn(i) => TurnKeepsLog(s, i, c);
    case Deliver(i, recvApp) =>
      if recvApp && c.fits {
        CallIsSensible(s.log, PlaintextDelivered(id), s.servers, s.nextId);
        ReadyStays(s.log, s.log + [PlaintextDelivered(id)], below);
        FlagStays(s.live, s.log, PlaintextDelivered(id));
      }
    case Sending(i) =>
      if !c.ringFull && c.wrote {
        CallIsSensible(s.log, RecordSent(id), s.servers, s.nextId);
        ReadyStays(s.log, s.log + [RecordSent(id)], below);
        FlagStays(s.live, s.log, RecordSent(id));
      }
    case Tail => TailKeepsLog(s, c);
    case _ =>
  }

  lemma AdvanceKeepsLog(s: State, c: Choice)
    requires s.stack != Empty && LogInv(s) && StackIdsBelow(s.stack, s.nextId)
    ensures LogInv(Advance(s, c)) && StackIdsBelow(Advance(s, c).stack, Advance(s, c).nextId)
  {
    match s.stack.at
    case Yielding(_) =>
    case InError =>
    case InHandshake(_, _) =>
    case InData(_) =>
    case Leaving =>
    case InLateHandshake =>
    case _ =>
      if s.stack.id in s.live {
        WorkKeepsLog(s, c);
      }
  }

  lemma StepKeepsLog(s: State, step: Step)
    requires LogInv(s) && StackIdsBelow(s.stack, s.nextId) && Enabled(s, step)
    ensures LogInv(Do(s, step)) && StackIdsBelow(Do(s, step).stack, Do(s, step).nextId)
  {
    match step
    case Open(isServer) => OpenKeepsLog(s, isServer);
    case Proceed(c) => AdvanceKeepsLog(s, c);
    case _ =>
  }

  // ---- Whole runs ----

  ghost predicate Inv(s: State)
  {
    SafeInv(s) && LogInv(s) && StackIdsBelow(s.stack, s.nextId) && forall id :: Armed(s, id)
  }

  lemma StepKeepsInv(s: State, step: Step)
    requires Inv(s) && Enabled(s, step)
    ensures Inv(Do(s, step))
  {
    StepKeepsSafe(s, step);
    StepKeepsLog(s, step);
    forall id ensures Armed(Do(s, step), id) {
      assert Armed(s, id);
      StepKeepsArmed(s, step, id);
    }
  }

  lemma {:induction false} RunKeepsInv(s: State, steps: seq<Step>)
    requires Inv(s) && Run(s, steps)
    ensures Inv(Exec(s, steps))
    decreases |steps|
  {
    if steps != [] {
      StepKeepsInv(s, steps[0]);
      RunKeepsInv(Do(s, steps[0]), steps[1..]);
    }
  }

  /** Whatever yields and callbacks free, the pump never touches a freed session. */
  lemma NeverTouchesFreed(steps: seq<Step>)
    requires Run(Initial(), steps)
    ensures !Exec(Initial(), steps).fault
  {
    RunKeepsInv(Initial(), steps);
  }

  /** The handshake callback of a session fires at most once and, for a server, before any plaintext. */
  lemma HandshakeOnceAndFirst(steps: seq<Step>)
    requires Run(Initial(), steps)
    ensures var s := Exec(Initial(), steps); FiredOnce(s.log) && HandshakeFirst(s.log, s.servers)
  {
    RunKeepsInv(Initial(), steps);
    ExplainedIsFirst(Exec(Initial(), steps).log, Exec(Initial(), steps).servers);
  }

  /**
   When plaintext precedes the handshake callback: at any delivery of plaintext to a session
   a turn has seen RECVAPP, and the callback has not come before it exactly when no turn so
   far has seen the state that completes the handshake, which is SENDAPP for a client and,
   as it is RECVAPP for a server, never happens to one.
   */
  lemma PlaintextBeforeHandshake(steps: seq<Step>, j: nat)
    requires Run(Initial(), steps) && j < |Exec(Initial(), steps).log|
    requires Exec(Initial(), steps).log[j].PlaintextDelivered?
    ensures var s := Exec(Initial(), steps);
      var (id, past) := (s.log[j].id, s.log[..j]);
      && SawReceive(past, id)
      && (HandshakeFired(id) !in past <==>
          id !in s.servers && forall recvApp :: Saw(id, recvApp, true) !in past)
  {
    RunKeepsInv(Initial(), steps);
    var s := Exec(Initial(), steps);
    var (id, past) := (s.log[j].id, s.log[..j]);
    assert Explained(s.log, s.servers);
    assert forall recvApp :: Saw(id, recvApp, true) == Saw(id, false, true) || Saw(id, recvApp, true) == Saw(id, true, true);
  }

  /** A live session has exactly one scheduled run waiting if and only if its pump state is QUEUED. */
  lemma OneRunIffQueued(steps: seq<Step>, id: Id)
    requires Run(Initial(), steps)
    requires id in Exec(Initial(), steps).live
    ensures var s := Exec(Initial(), steps);
      && Count(s.scheduled, id) <= 1
      && (Count(s.scheduled, id) == 1 <==> s.live[id].pump == Queued)
  {
    RunKeepsInv(Initial(), steps);
    assert Armed(Exec(Initial(), steps), id);
  }

  /**
   For a client the order is not guaranteed: an engine reporting plaintext before it accepts
   application data delivers it with no handshake callback before it.
   */
  lemma ClientPlaintextMayComeFirst() returns (steps: seq<Step>)
    ensures Run(Initial(), steps)
    ensures var s := Exec(Initial(), steps);
      PlaintextDelivered(0) in s.log && HandshakeFired(0) !in s.log && 0 in s.live
  {
    var c := Choice(false, true, false, false, true, false, false, false, false);
    var p := Proceed(c);
    steps := [Open(false), Poll(0), p, p, p, p];
    var s1 := Do(Initial(), Open(false));
    var s2 := Do(s1, Poll(0));
    var s3 := Do(s2, p);
    var s4 := Do(s3, p);
    var s5 := Do(s4, p);
    Prefix(s5, p, []);
    Prefix(s4, p, [p]);
    Prefix(s3, p, [p, p]);
    Prefix(s2, p, [p, p, p]);
    Prefix(s1, Poll(0), [p, p, p, p]);
    Prefix(Initial(), Open(false), [Poll(0), p, p, p, p]);
    assert Exec(Initial(), steps).log == [Saw(0, true, false), PlaintextDelivered(0)];
  }

  // ---- What a run of the pump does ----

  /** How a turn on an open engine ends: plaintext is handed over, a record is sent, or there is nothing to do. */
  datatype Ending = HandedOver | Sent | Stuck

  function TurnEnds(c: Choice): Ending
  {
    if c.recvApp && c.fits then HandedOver
    else if c.wrote && !c.ringFull then Sent
    else Stuck
  }

  /** A session after some part of a run, and what that part observed and called. */
  datatype After = After(session: Session, calls: seq<Entry>)

  /** Looking at the engine: the handshake callback is due the first time the state completes it. */
  function Looked(id: Id, session: Session, c: Choice): After
  {
    if session.handshakeDone || !Completes(session.isServer, c.recvApp, c.sendApp)
    then After(session, [Saw(id, c.recvApp, c.sendApp)])
    else After(session.(handshakeDone := true), [Saw(id, c.recvApp, c.sendApp), HandshakeFired(id)])
  }

  /** Records wait that the emitter could have sent: the run has to be continued by another. */
  predicate RecordsWait(c: Choice)
  {
    c.sendRec && !c.deferred && !c.ringFull
  }

  /** The pump state of a session asked to be scheduled. */
  function Remembered(pump: Pump, armed: bool): Pump
  {
    if armed || pump == Queued then Queued else Dropped
  }

  function AfterLoop(id: Id, session: Session, c: Choice): After
  {
    if RecordsWait(c) then After(session.(pump := Remembered(session.pump, c.armed)), []) else Looked(id, session, c)
  }

  function Then(calls: seq<Entry>, rest: After): After
  {
    rest.(calls := calls + rest.calls)
  }

  /** A run left alone: turn after turn while there is something to hand over or send, then the tail. */
  function Pass(id: Id, session: Session, turns: seq<Choice>, last: Choice): After
    decreases |turns|, 1
  {
    if turns == [] then AfterLoop(id, session, last)
    else if turns[0].closed then After(session, [ErrorReported(id)])
    else
      var looked := Looked(id, session, turns[0]);
      Then(looked.calls, FromDelivery(id, looked.session, turns, last))
  }

  /** The part of a turn from the plaintext test on, and the turns behind it. */
  function FromDelivery(id: Id, session: Session, turns: seq<Choice>, last: Choice): After
    requires turns != [] && !turns[0].closed
    decreases |turns|, 0
  {
    match TurnEnds(turns[0])
    case HandedOver => Then([PlaintextDelivered(id)], Pass(id, session, turns[1..], last))
    case Sent => Then([RecordSent(id)], Pass(id, session, turns[1..], last))
    case Stuck => AfterLoop(id, session, last)
  }

  /** From `s` the run `id` on top, left alone, gets to where `after` says, having added its calls to the log. */
  ghost predicate Does(s: State, steps: seq<Step>, id: Id, at: Stack, after: After)
  {
    && Run(s, steps) && (forall step :: step in steps ==> step.Proceed?)
    && var t := Exec(s, steps);
       && t.stack == at && t.log == s.log + after.calls
       && id in s.live && t.live == s.live[id := after.session]
       && t.scheduled == s.scheduled + (if after.session.pump == Queued && s.live[id].pump != Queued then [id] else [])
       && t.nextId == s.nextId && t.servers == s.servers && t.fault == s.fault
  }

  lemma ThenDoes(s: State, step: Step, rest: seq<Step>, id: Id, at: Stack, more: After, after: After)
    requires step.Proceed? && Enabled(s, step) && Does(Do(s, step), rest, id, at, more)
    requires var t := Do(s, step);
      && id in s.live && t.live == s.live[id := t.live[id]] && t.live[id].pump == s.live[id].pump
      && t.scheduled == s.scheduled && t.nextId == s.nextId && t.servers == s.servers && t.fault == s.fault
      && t.log + more.calls == s.log + after.calls && more.session == after.session
    ensures Does(s, [step] + rest, id, at, after)
  {
    Prefix(s, step, rest);
  }

  lemma DoesNothing(s: State, id: Id)
    requires id in s.live
    ensures Does(s, [], id, s.stack, After(s.live[id], []))
  {
    assert s.live == s.live[id := s.live[id]];
  }

  /** Where a callback returned to a loop that had nothing else to do. */
  lemma LastCallReturns(s: State, id: Id, at: Point, below: Stack, c: Choice)
    requires s.stack == Frame(id, at, below) && (at == InError || at == InLateHandshake) && id in s.live
    ensures Does(s, [Proceed(c)] + [], id, below, After(s.live[id], []))
  {
    DoesNothing(Do(s, Proceed(c)), id);
    ThenDoes(s, Proceed(c), [], id, below, After(s.live[id], []), After(s.live[id], []));
  }

  lemma TailAlone(s: State, id: Id, below: Stack, c: Choice) returns (steps: seq<Step>)
    requires s.stack == Frame(id, Tail, below) && id in s.live
    ensures Does(s, steps, id, below, AfterLoop(id, s.live[id], c))
  {
    var after := AfterLoop(id, s.live[id], c);
    var p := Proceed(c);
    var t := Do(s, p);
    assert Exec(t, []) == t && Exec(s, [p]) == t by { assert [p] + [] == [p]; Prefix(s, p, []); }
    if t.stack == below {
      steps := [p];
      Prefix(s, p, []);
    } else {
      LastCallReturns(t, id, InLateHandshake, below, c);
      steps := [p] + ([p] + []);
      Prefix(s, p, [p] + []);
    }
  }

  lemma LeavingAlone(s: State, id: Id, below: Stack, c: Choice) returns (steps: seq<Step>)
    requires s.stack == Frame(id, Leaving, below) && id in s.live
    ensures Does(s, steps, id, below, AfterLoop(id, s.live[id], c))
  {
    var p := Proceed(c);
    var rest := TailAlone(Do(s, p), id, below, c);
    steps := [p] + rest;
    var after := AfterLoop(id, s.live[id], c);
    ThenDoes(s, p, rest, id, below, after, after);
  }

  lemma DeliveryAlone(s: State, id: Id, i: nat, below: Stack, turns: seq<Choice>, last: Choice) returns (steps: seq<Step>)
    requires 0 < |turns| <= SSL_MAX_FEED_LOOPS && i == SSL_MAX_FEED_LOOPS - |turns| && !turns[0].closed
    requires s.stack == Frame(id, Deliver(i, turns[0].recvApp), below) && id in s.live
    ensures Does(s, steps, id, below, FromDelivery(id, s.live[id], turns, last))
    decreases |turns|, 0
  {
    var p := Proceed(turns[0]);
    var after := FromDelivery(id, s.live[id], turns, last);
    var t := Do(s, p);
    var u := Do(t, p);
    match TurnEnds(turns[0])
    case HandedOver =>
      var rest := LoopAlone(u, id, below, turns[1..], last);
      var more := Pass(id, s.live[id], turns[1..], last);
      ThenDoes(t, p, rest, id, below, more, more);
      ThenDoes(s, p, [p] + rest, id, below, more, after);
      steps := [p] + ([p] + rest);
    case Sent =>
      var rest := LoopAlone(u, id, below, turns[1..], last);
      var more := Pass(id, s.live[id], turns[1..], last);
      ThenDoes(t, p, rest, id, below, more, after);
      ThenDoes(s, p, [p] + rest, id, below, after, after);
      steps := [p] + ([p] + rest);
    case Stuck =>
      var rest := LeavingAlone(u, id, below, last);
      ThenDoes(t, p, rest, id, below, after, after);
      ThenDoes(s, p, [p] + rest, id, below, after, after);
      steps := [p] + ([p] + rest);
  }

  /** The look itself, with the callback it may call. */
  lemma LookDoes(s: State, id: Id, i: nat, below: Stack, c: Choice)
    requires s.stack == Frame(id, Turn(i), below) && id in s.live && !c.closed
    ensures var (t, looked) := (Advance(s, c), Looked(id, s.live[id], c));
      && t == s.(live := s.live[id := looked.session], log := s.log + looked.calls, stack := t.stack)
      && t.stack == Frame(id, if looked.session == s.live[id] then Deliver(i, c.recvApp) else InHandshake(i, c.recvApp), below)
  {
    assert s.live == s.live[id := s.live[id]];
    assert s.log + [Saw(id, c.recvApp, c.sendApp)] + [HandshakeFired(id)] == s.log + [Saw(id, c.recvApp, c.sendApp), HandshakeFired(id)];
  }

  lemma ThenLooked(s: State, c: Choice, rest: seq<Step>, id: Id, i: nat, below: Stack, turns: seq<Choice>, last: Choice)
    requires turns != [] && c == turns[0] && !c.closed && s.stack == Frame(id, Turn(i), below) && id in s.live
    requires var t := Advance(s, c); id in t.live && Does(t, rest, id, below, FromDelivery(id, t.live[id], turns, last))
    ensures Does(s, [Proceed(c)] + rest, id, below, Pass(id, s.live[id], turns, last))
  {
    LookDoes(s, id, i, below, c);
    var looked := Looked(id, s.live[id], c);
    var more := FromDelivery(id, looked.session, turns, last);
    assert (s.log + looked.calls) + more.calls == s.log + (looked.calls + more.calls);
    ThenDoes(s, Proceed(c), rest, id, below, more, Pass(id, s.live[id], turns, last));
  }

  /** What is left of a turn once its yield is over. */
  lemma TurnAlone(s: State, id: Id, i: nat, below: Stack, turns: seq<Choice>, last: Choice) returns (steps: seq<Step>)
    requires 0 < |turns| <= SSL_MAX_FEED_LOOPS && i == SSL_MAX_FEED_LOOPS - |turns|
    requires s.stack == Frame(id, Turn(i), below) && id in s.live
    ensures Does(s, steps, id, below, Pass(id, s.live[id], turns, last))
    decreases |turns|, 1
  {
    var c := turns[0];
    var p := Proceed(c);
    var t := Advance(s, c);
    if c.closed {
      LastCallReturns(t, id, InError, below, c);
      steps := [p] + ([p] + []);
      ThenDoes(s, p, [p] + [], id, below, After(t.live[id], []), After(s.live[id], [ErrorReported(id)]));
    } else {
      LookDoes(s, id, i, below, c);
      if t.stack.at.InHandshake? {
        var more := FromDelivery(id, t.live[id], turns, last);
        var rest := DeliveryAlone(Do(t, p), id, i, below, turns, last);
        ThenDoes(t, p, rest, id, below, more, more);
        steps := [p] + rest;
      } else {
        steps := DeliveryAlone(t, id, i, below, turns, last);
      }
      ThenLooked(s, c, steps, id, i, below, turns, last);
      steps := [p] + steps;
    }
  }

  lemma {:induction false} LoopAlone(s: State, id: Id, below: Stack, turns: seq<Choice>, last: Choice) returns (steps: seq<Step>)
    requires |turns| <= SSL_MAX_FEED_LOOPS
    requires s.stack == Frame(id, LoopAt(SSL_MAX_FEED_LOOPS - |turns|), below) && id in s.live
    ensures Does(s, steps, id, below, Pass(id, s.live[id], turns, last))
    decreases |turns|, 2
  {
    if turns == [] {
      steps := LeavingAlone(s, id, below, last);
    } else {
      var p := Proceed(turns[0]);
      var rest := TurnAlone(Do(s, p), id, SSL_MAX_FEED_LOOPS - |turns|, below, turns, last);
      var after := Pass(id, s.live[id], turns, last);
      ThenDoes(s, p, rest, id, below, after, after);
      steps := [p] + rest;
    }
  }

  /**
   A run of the pump, left alone and whatever the engine and lwIP report in its turns, does
   what the loop written out does: it calls what each turn calls for, ends at the first turn
   with nothing to do, at a closed engine or after SSL_MAX_FEED_LOOPS turns, and leaves a
   session with records still waiting QUEUED with a run scheduled, or DROPPED.
   */
  lemma PumpRuns(s: State, id: Id, turns: seq<Choice>, last: Choice) returns (steps: seq<Step>)
    requires EnvironmentRuns(s.stack) && id in s.live && |turns| == SSL_MAX_FEED_LOOPS
    ensures Does(Do(s, Poll(id)), steps, id, s.stack, Pass(id, s.live[id], turns, last))
  {
    var t, p := Do(s, Poll(id)), Proceed(last);
    var rest := LoopAlone(Do(t, p), id, s.stack, turns, last);
    var after := Pass(id, s.live[id], turns, last);
    ThenDoes(t, p, rest, id, s.stack, after, after);
    steps := [p] + rest;
  }

  /**
   A QUEUED session of any run is pumped: while the environment runs its scheduled run can
   start, no longer QUEUED, and, left alone, does what the loop written out does.
   */
  lemma QueuedIsPumped(before: seq<Step>, id: Id, turns: seq<Choice>, last: Choice) returns (k: nat, steps: seq<Step>)
    requires Run(Initial(), before) && EnvironmentRuns(Exec(Initial(), before).stack)
    requires id in Exec(Initial(), before).live && Exec(Initial(), before).live[id].pump == Queued
    requires |turns| == SSL_MAX_FEED_LOOPS
    ensures var s := Exec(Initial(), before);
      && k < |s.scheduled| && s.scheduled[k] == id && Enabled(s, RunScheduled(k))
      && var t := Do(s, RunScheduled(k));
         && Count(t.scheduled, id) == 0
         && Does(t, steps, id, s.stack, Pass(id, s.live[id].(pump := Idle), turns, last))
  {
    var s := Exec(Initial(), before);
    OneRunIffQueued(before, id);
    k := CountedAt(s.scheduled, id);
    CountRemove(s.scheduled, k, id);
    var t, p := Do(s, RunScheduled(k)), Proceed(last);
    var rest := LoopAlone(Do(t, p), id, s.stack, turns, last);
    var after := Pass(id, t.live[id], turns, last);
    ThenDoes(t, p, rest, id, s.stack, after, after);
    steps := [p] + rest;
  }

  lemma {:induction false} CountedAt(ids: seq<Id>, id: Id) returns (k: nat)
    requires Count(ids, id) > 0
    ensures k < |ids| && ids[k] == id
  {
    if ids[0] == id {
      k := 0;
    } else {
      k := CountedAt(ids[1..], id);
      k := k + 1;
    }
  }

  /** Asked for, a live session's pump is never left IDLE: one run is scheduled, or the request is remembered as DROPPED. */
  lemma KickRemembers(before: seq<Step>, id: Id, armed: bool)
    requires Run(Initial(), before) && Enabled(Exec(Initial(), before), Kick(id, armed))
    ensures var s := Exec(Initial(), before); var t := Do(s, Kick(id, armed));
      && t.live[id].pump == (if armed || s.live[id].pump == Queued then Queued else Dropped)
      && Count(t.scheduled, id) == (if t.live[id].pump == Queued then 1 else 0)
      && forall x :: x != id && x in s.live ==> x in t.live && t.live[x] == s.live[x]
  {
    RunKeepsInv(Initial(), before);
    var s := Exec(Initial(), before);
    assert Armed(s, id);
    StepKeepsArmed(s, Kick(id, armed), id);
  }

  /** Records waiting past the loop of an open session are remembered, and by a scheduled run if one could be armed. */
  lemma {:induction false} WaitingIsRemembered(id: Id, session: Session, turns: seq<Choice>, last: Choice)
    requires (forall c :: c in turns ==> !c.closed) && last.sendRec && !last.deferred && !last.ringFull
    ensures var pump := Pass(id, session, turns, last).session.pump;
      pump != Idle && (last.armed ==> pump == Queued)
    decreases |turns|
  {
    if turns != [] && TurnEnds(turns[0]) != Stuck {
      WaitingIsRemembered(id, Looked(id, session, turns[0]).session, turns[1..], last);
    }
  }

  /** While plaintext keeps coming every turn hands some over, and while only records do every turn sends one. */
  lemma {:induction false} BusyTurns(id: Id, session: Session, turns: seq<Choice>, last: Choice)
    requires forall c :: c in turns ==> !c.closed && ((c.recvApp && c.fits) || (c.wrote && !c.ringFull))
    ensures var calls := Pass(id, session, turns, last).calls;
      Count(calls, PlaintextDelivered(id)) + Count(calls, RecordSent(id)) == |turns|
    ensures (forall c :: c in turns ==> c.recvApp && c.fits) ==>
      Count(Pass(id, session, turns, last).calls, PlaintextDelivered(id)) == |turns|
    ensures (forall c :: c in turns ==> !(c.recvApp && c.fits)) ==>
      Count(Pass(id, session, turns, last).calls, RecordSent(id)) == |turns|
    decreases |turns|
  {
    if turns == [] {
      LookedCallsOnly(id, session, last);
    } else {
      var looked := Looked(id, session, turns[0]);
      BusyTurns(id, looked.session, turns[1..], last);
      LookedCallsOnly(id, session, turns[0]);
      var rest := Pass(id, looked.session, turns[1..], last).calls;
      var call := if TurnEnds(turns[0]) == HandedOver then PlaintextDelivered(id) else RecordSent(id);
      assert Pass(id, session, turns, last).calls == looked.calls + ([call] + rest);
      CountBehind(looked.calls, call, rest, PlaintextDelivered(id));
      CountBehind(looked.calls, call, rest, RecordSent(id));
    }
  }

  lemma LookedCallsOnly(id: Id, session: Session, c: Choice)
    ensures Count(Looked(id, session, c).calls, PlaintextDelivered(id)) == 0
    ensures Count(Looked(id, session, c).calls, RecordSent(id)) == 0
  {
    NoneCounted(Looked(id, session, c).calls, PlaintextDelivered(id));
    NoneCounted(Looked(id, session, c).calls, RecordSent(id));
  }

  lemma {:induction false} NoneCounted(calls: seq<Entry>, e: Entry)
    requires e !in calls
    ensures Count(calls, e) == 0
  {
    if calls != [] {
      NoneCounted(calls[1..], e);
    }
  }

  lemma CountBehind(first: seq<Entry>, call: Entry, rest: seq<Entry>, e: Entry)
    ensures Count(first + ([call] + rest), e) == Count(first, e) + (if call == e then 1 else 0) + Count(rest, e)
  {
    CountConcat(first, [call] + rest, e);
    assert ([call] + rest)[1..] == rest;
  }

  // ---- A run is bounded, and ends when its session goes ----

  predicate InLoop(p: Point)
  {
    match p
    case Yielding(i) => i < SSL_MAX_FEED_LOOPS
    case Turn(i) => i < SSL_MAX_FEED_LOOPS
    case InHandshake(i, _) => i < SSL_MAX_FEED_LOOPS
    case Deliver(i, _) => i < SSL_MAX_FEED_LOOPS
    case InData(i) => i < SSL_MAX_FEED_LOOPS
    case Sending(i) => i < SSL_MAX_FEED_LOOPS
    case _ => true
  }

  /** How many steps of its own a run has left at most. */
  function StepsLeft(p: Point): (r: int)
    requires InLoop(p)
    ensures 0 < r <= 5 * SSL_MAX_FEED_LOOPS + 4
  {
    match p
    case Feeding => 5 * SSL_MAX_FEED_LOOPS + 4
    case Yielding(i) => 5 * (SSL_MAX_FEED_LOOPS - i) + 3
    case Turn(i) => 5 * (SSL_MAX_FEED_LOOPS - i) + 2
    case InHandshake(i, _) => 5 * (SSL_MAX_FEED_LOOPS - i) + 1
    case Deliver(i, _) => 5 * (SSL_MAX_FEED_LOOPS - i)
    case InData(i) => 5 * (SSL_MAX_FEED_LOOPS - i) - 1
    case Sending(i) => 5 * (SSL_MAX_FEED_LOOPS - i) - 1
    case Leaving => 3
    case Tail => 2
    case InError => 1
    case InLateHandshake => 1
  }

  ghost predicate Bounded(stack: Stack)
  {
    match stack case Empty => true case Frame(_, at, below) => InLoop(at) && Bounded(below)
  }

  lemma WorkIsBounded(s: State, id: Id, at: Point, below: Stack, c: Choice)
    requires Touches(at) && InLoop(at) && id in s.live
    ensures var t := Work(s, id, at, below, c);
      t.stack == below || (t.stack.Frame? && t.stack.id == id && t.stack.below == below && InLoop(t.stack.at) && StepsLeft(t.stack.at) < StepsLeft(at))
  {
    match at
    case Feeding =>
    case Turn(i) =>
    case Deliver(i, _) =>
    case Sending(i) =>
    case Tail =>
  }

  /** Every step of a run brings it nearer to its end, whatever happened while it was suspended. */
  lemma RunsAreBounded(s: State, c: Choice)
    requires SafeInv(s) && s.stack != Empty && Bounded(s.stack)
    ensures var t := Advance(s, c);
      && Bounded(t.stack)
      && (t.stack != s.stack.below ==>
            t.stack.Frame? && t.stack.id == s.stack.id && t.stack.below == s.stack.below && StepsLeft(t.stack.at) < StepsLeft(s.stack.at))
  {
    if Touches(s.stack.at) {
      WorkIsBounded(s, s.stack.id, s.stack.at, s.stack.below, c);
    }
  }

  /** A run whose session was freed under it calls nothing more and changes nothing: two steps and it is gone. */
  lemma FreedRunEnds(s: State, c: Choice, d: Choice)
    requires SafeInv(s) && s.stack != Empty && s.stack.id !in s.live
    ensures var t := Advance(s, c);
      t == s.(stack := s.stack.below) || (t.stack != Empty && Advance(t, d) == s.(stack := s.stack.below))
  {
  }

  /** Running one step and then the others. */
  lemma Prefix(s: State, step: Step, rest: seq<Step>)
    requires Enabled(s, step) && Run(Do(s, step), rest)
    ensures Run(s, [step] + rest) && Exec(s, [step] + rest) == Exec(Do(s, step), rest)
  {
    assert ([step] + rest)[1..] == rest;
  }
}
