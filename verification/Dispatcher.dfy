/**
 Whole runs of the event queue: lwIP callbacks, the app and the async task take atomic
 steps in any order, on both scheduling back ends.

 The state carries the running code's variables (queue, generator, listener sessions, the
 number of scheduled runs or task notifications) and, beside them, the history the
 theorems speak of.  Every packet is stamped with the clock of the step that built it.
 */
module Dispatcher {
  import opened Common
  import opened EventQueue

  datatype Platform = Esp8266 | Esp32

  datatype Config = Config(platform: Platform, queueSize: nat)

  /**
   Where the consumer stands.  Resting is the ESP8266 loop between two scheduled runs, or
   the ESP32 task blocked on its notification; AboutToWait is the ESP32 task between an
   empty fetch and that block.  A popped packet is looked at (an ACCEPT is matched against its
   listener's session) before its handler runs.
   */
  datatype Phase = Resting | Fetching | Popped(event: Event) | Handling(event: Event) | AboutToWait

  /** How an ACCEPT packet ended, when that was settled, and whether its listener changed session before. */
  datatype AcceptOutcome = AcceptOutcome(event: Event, at: nat, accepted: bool, changedSince: bool)

  datatype State = State(
    queue: seq<Event>,
    rng: bv32,
    clock: nat,
    pending: nat,
    phase: Phase,
    pollGate: bool,
    session: map<nat, nat>,
    lastChange: map<nat, nat>,
    log: History)

  /** Every packet built so far, and what became of it. */
  datatype History = History(
    sent: seq<Event>,
    delivered: seq<Event>,
    purged: seq<Event>,
    dropped: seq<Drop>,
    accepts: seq<AcceptOutcome>)

  datatype Step =
    | Push(kind: Kind, impl: nat)      // tcp_recv, tcp_sent, tcp_error, connected, dns
    | PollCheck                        // the throttle test at the head of tcp_poll
    | PollPush(impl: nat)              // the push at the end of tcp_poll
    | PollFails                        // its packet could not be allocated
    | AcceptConnection(server: nat)    // tcp_accept or queueAcceptEvent
    | SessionChange(server: nat)       // begin() or end()
    | PurgeClient(impl: nat)           // _remove_events_for_client
    | Wake                             // the scheduled run starts, or the notified task unblocks
    | Fetch                            // _get_async_event
    | Start                            // handle_async_event, up to the call of the handler
    | Finish                           // the handler returns
    | Block                            // ulTaskNotifyTake

  function Lookup(m: map<nat, nat>, server: nat): nat
  {
    if server in m then m[server] else 0
  }

  function Initial(): State
  {
    State([], 31, 1, 0, Resting, false, map[], map[], History([], [], [], [], []))
  }

  predicate Enabled(s: State, step: Step)
  {
    match step
    case Push(kind, impl) => kind != Poll && kind != Accept && impl != 0
    case PollCheck => !s.pollGate
    case PollPush(impl) => s.pollGate && impl != 0
    case PollFails => s.pollGate
    case AcceptConnection(_) => true
    case SessionChange(_) => true
    case PurgeClient(impl) => impl != 0
    case Wake => s.phase == Resting && s.pending > 0
    case Fetch => s.phase == Fetching
    case Start => s.phase.Popped?
    case Finish => s.phase.Handling?
    case Block => s.phase == AboutToWait
  }

  /** `_send_async_event` and `_prepend_async_event`: queue, then wake the consumer. */
  function Queued(platform: Platform, s: State, queue: seq<Event>, e: Event): State
  {
    var wakeups := if platform == Esp32 || |queue| == 1 then 1 else 0;
    s.(queue := queue, pending := s.pending + wakeups, log := s.log.(sent := s.log.sent + [e]))
  }

  /** `schedule_function` at the end of a run that leaves work behind. */
  function Rearm(pending: nat, queue: seq<Event>): nat
  {
    if |queue| > 0 then pending + 1 else pending
  }

  /** The consumer after `_get_async_event` came back with `d`. */
  function Fetched(platform: Platform, s: State, d: Outcome): State
  {
    s.(queue := d.rest,
       rng := d.rng,
       phase := if d.event.Some? then Popped(d.event.value)
                else if platform == Esp8266 then Resting else AboutToWait,
       pending := if d.event.None? && platform == Esp8266 then Rearm(s.pending, d.rest) else s.pending,
       log := s.log.(delivered := s.log.delivered + Taken(d.event), dropped := s.log.dropped + d.drops))
  }

  /** An ACCEPT packet is matched against its listener's session before its handler runs. */
  function Judge(s: State, e: Event): AcceptOutcome
  {
    AcceptOutcome(e, s.clock, Lookup(s.session, e.server) == e.epoch, Lookup(s.lastChange, e.server) > e.id)
  }

  /** Whatever happens to the session from here on, the outcome of an ACCEPT stands. */
  function Started(s: State): State
    requires s.phase.Popped?
  {
    var e := s.phase.event;
    s.(phase := Handling(e),
       log := if e.kind == Accept then s.log.(accepts := s.log.accepts + [Judge(s, e)]) else s.log)
  }

  /** The tail of a dispatch. */
  function Finished(platform: Platform, s: State): State
    requires s.phase.Handling?
  {
    s.(phase := if platform == Esp8266 then Resting else Fetching,
       pending := if platform == Esp8266 then Rearm(s.pending, s.queue) else s.pending)
  }

  function Act(cfg: Config, s: State, step: Step): State
    requires cfg.queueSize > 0 && Enabled(s, step)
  {
    match step
    case Push(kind, impl) =>
      var e := Event(s.clock, kind, impl, 0, 0);
      Queued(cfg.platform, s, s.queue + [e], e)
    case PollCheck =>
      var next := XorShift(s.rng);
      s.(rng := next, pollGate := |s.queue| <= ThrottleLimit(next, cfg.queueSize))
    case PollPush(impl) =>
      var e := Event(s.clock, Poll, impl, 0, 0);
      Queued(cfg.platform, s, s.queue + [e], e).(pollGate := false)
    case PollFails => s.(pollGate := false)
    case AcceptConnection(server) =>
      var e := Event(s.clock, Accept, 0, server, Lookup(s.session, server));
      Queued(cfg.platform, s, [e] + s.queue, e)
    case SessionChange(server) =>
      s.(session := s.session[server := Lookup(s.session, server) + 1],
         lastChange := s.lastChange[server := s.clock])
    case PurgeClient(impl) =>
      s.(queue := Purge(s.queue, impl), log := s.log.(purged := s.log.purged + Filter(s.queue, OfClient(impl))))
    case Wake =>
      s.(phase := Fetching, pending := if cfg.platform == Esp8266 then s.pending - 1 else 0)
    case Fetch => Fetched(cfg.platform, s, Dequeue(s.queue, s.rng, Standard(cfg.queueSize)))
    case Start => Started(s)
    case Finish => Finished(cfg.platform, s)
    case Block => s.(phase := Resting)
  }

  function Do(cfg: Config, s: State, step: Step): State
    requires cfg.queueSize > 0 && Enabled(s, step)
  {
    Act(cfg, s, step).(clock := s.clock + 1)
  }

  /** `steps` can be taken one after the other from `s`. */
  ghost predicate Run(cfg: Config, s: State, steps: seq<Step>)
    requires cfg.queueSize > 0
    decreases |steps|
  {
    steps == [] || (Enabled(s, steps[0]) && Run(cfg, Do(cfg, s, steps[0]), steps[1..]))
  }

  ghost function Exec(cfg: Config, s: State, steps: seq<Step>): State
    requires cfg.queueSize > 0 && Run(cfg, s, steps)
    decreases |steps|
  {
    if steps == [] then s else Exec(cfg, Do(cfg, s, steps[0]), steps[1..])
  }

  // ---- Nothing lost, nothing delivered twice ----

  ghost predicate Stamped(sent: seq<Event>, clock: nat)
  {
    && (forall i, j :: 0 <= i < j < |sent| ==> sent[i].id < sent[j].id)
    && (forall i :: 0 <= i < |sent| ==> sent[i].id < clock)
  }

  ghost predicate Accounted(queue: seq<Event>, log: History)
  {
    multiset(log.sent) == multiset(queue) + multiset(log.delivered) + multiset(log.purged) + multiset(DroppedEvents(log.dropped))
  }

  ghost predicate DropsLegitimate(Q: nat, dropped: seq<Drop>)
  {
    forall d :: d in dropped ==> Legitimate(d, Q)
  }

  ghost predicate LogInv(cfg: Config, s: State)
  {
    Stamped(s.log.sent, s.clock) && Accounted(s.queue, s.log) && DropsLegitimate(cfg.queueSize, s.log.dropped)
  }

  lemma MultisetShuffle(sent: multiset<Event>, q: multiset<Event>, d: multiset<Event>, p: multiset<Event>, x: multiset<Event>,
                        taken: multiset<Event>, rest: multiset<Event>, drops: multiset<Event>)
    requires sent == q + d + p + x && q == taken + rest + drops
    ensures sent == rest + (d + taken) + p + (x + drops)
  {
  }

  lemma FetchKeepsLog(cfg: Config, s: State, d: Outcome)
    requires LogInv(cfg, s)
    requires multiset(s.queue) == multiset(Taken(d.event)) + multiset(d.rest) + multiset(DroppedEvents(d.drops))
    requires forall x :: x in d.drops ==> Legitimate(x, cfg.queueSize)
    ensures LogInv(cfg, Fetched(cfg.platform, s, d).(clock := s.clock + 1))
  {
    var t := Fetched(cfg.platform, s, d);
    DroppedConcat(s.log.dropped, d.drops);
    MultisetShuffle(multiset(s.log.sent), multiset(s.queue), multiset(s.log.delivered), multiset(s.log.purged),
                    multiset(DroppedEvents(s.log.dropped)),
                    multiset(Taken(d.event)), multiset(d.rest), multiset(DroppedEvents(d.drops)));
    assert Accounted(t.queue, t.log);
  }

  lemma PurgeKeepsAccount(queue: seq<Event>, log: History, impl: nat)
    requires Accounted(queue, log)
    ensures Accounted(Purge(queue, impl), log.(purged := log.purged + Filter(queue, OfClient(impl))))
  {
    PurgeExact(queue, impl);
    assert multiset(log.purged + Filter(queue, OfClient(impl))) == multiset(log.purged) + multiset(Filter(queue, OfClient(impl)));
  }

  lemma PushKeepsAccount(queue: seq<Event>, log: History, more: seq<Event>, e: Event)
    requires Accounted(queue, log)
    requires more == queue + [e] || more == [e] + queue
    ensures Accounted(more, log.(sent := log.sent + [e]))
  {
    assert multiset(more) == multiset(queue) + multiset{e};
    assert multiset(log.sent + [e]) == multiset(log.sent) + multiset{e};
  }

  /** Steps of the consumer and the throttle that move no packet and judge none. */
  predicate Quiet(step: Step)
  {
    step.PollCheck? || step.PollFails? || step.Wake? || step.Finish? || step.Block?
  }

  lemma QuietStep(cfg: Config, s: State, step: Step)
    requires cfg.queueSize > 0 && Enabled(s, step) && Quiet(step)
    ensures var t := Do(cfg, s, step);
      && t.queue == s.queue && t.log == s.log && t.clock == s.clock + 1
      && t.session == s.session && t.lastChange == s.lastChange
      && (t.phase.Popped? ==> t.phase == s.phase) && InHand(t) == InHand(s)
  {
    match step
    case PollCheck =>
    case PollFails =>
    case Wake =>
    case Finish =>
    case Block =>
  }

  lemma StepKeepsLog(cfg: Config, s: State, step: Step)
    requires cfg.queueSize > 0 && LogInv(cfg, s) && Enabled(s, step)
    ensures LogInv(cfg, Do(cfg, s, step))
  {
    if Quiet(step) {
      QuietStep(cfg, s, step);
      return;
    }
    match step
    case Push(kind, impl) =>
      var e := Event(s.clock, kind, impl, 0, 0);
      PushKeepsAccount(s.queue, s.log, s.queue + [e], e);
    case PollPush(impl) =>
      var e := Event(s.clock, Poll, impl, 0, 0);
      PushKeepsAccount(s.queue, s.log, s.queue + [e], e);
    case AcceptConnection(server) =>
      var e := Event(s.clock, Accept, 0, server, Lookup(s.session, server));
      PushKeepsAccount(s.queue, s.log, [e] + s.queue, e);
    case PurgeClient(impl) => PurgeKeepsAccount(s.queue, s.log, impl);
    case Fetch =>
      DequeueConserves(s.queue, s.rng, Standard(cfg.queueSize));
      forall x ensures Standard(cfg.queueSize).limit(x) >= cfg.queueSize * 3 / 4 {
        StandardDice(cfg.queueSize, x);
      }
      DequeueDropsLegitimate(s.queue, s.rng, Standard(cfg.queueSize), cfg.queueSize);
      FetchKeepsLog(cfg, s, Dequeue(s.queue, s.rng, Standard(cfg.queueSize)));
    case Start =>
      assert Do(cfg, s, step).log == s.log.(accepts := Do(cfg, s, step).log.accepts);
    case _ =>
  }

  lemma {:induction false} RunKeepsLog(cfg: Config, s: State, steps: seq<Step>)
    requires cfg.queueSize > 0 && LogInv(cfg, s) && Run(cfg, s, steps)
    ensures LogInv(cfg, Exec(cfg, s, steps))
    decreases |steps|
  {
    if steps != [] {
      StepKeepsLog(cfg, s, steps[0]);
      RunKeepsLog(cfg, Do(cfg, s, steps[0]), steps[1..]);
    }
  }

  lemma {:induction false} IncreasingCountsOnce(q: seq<Event>, e: Event)
    requires forall i, j :: 0 <= i < j < |q| ==> q[i].id < q[j].id
    requires e in q
    ensures multiset(q)[e] == 1
  {
    assert q == [q[0]] + q[1..];
    if e == q[0] {
      assert e !in q[1..];
    } else {
      IncreasingCountsOnce(q[1..], e);
    }
  }

  /**
   In every run from the initial state, each packet ever built is at any time in exactly
   one place, once: queued, handed to the dispatcher, purged, or dropped; and only POLLs
   are ever dropped.
   */
  lemma ExactlyOnePlace(cfg: Config, steps: seq<Step>, e: Event)
    requires cfg.queueSize > 0 && Run(cfg, Initial(), steps)
    requires e in Exec(cfg, Initial(), steps).log.sent
    ensures var s := Exec(cfg, Initial(), steps);
      && multiset(s.queue)[e] + multiset(s.log.delivered)[e] + multiset(s.log.purged)[e] + multiset(DroppedEvents(s.log.dropped))[e] == 1
      && (e.kind != Poll ==> e !in DroppedEvents(s.log.dropped))
  {
    RunKeepsLog(cfg, Initial(), steps);
    var s := Exec(cfg, Initial(), steps);
    IncreasingCountsOnce(s.log.sent, e);
    if e in DroppedEvents(s.log.dropped) {
      var i :| 0 <= i < |s.log.dropped| && DroppedEvents(s.log.dropped)[i] == e;
      assert s.log.dropped[i] in s.log.dropped;
    }
  }

  // ---- Queue order ----

  /** Non-POLL packets built before `n` and outside `lost`. */
  function Tracked(n: nat, lost: set<nat>): Event -> bool
  {
    (e: Event) => e.kind != Poll && e.id < n && e.id !in lost
  }

  /** `lost` names at least the packets purged so far. */
  ghost predicate Covers(lost: set<nat>, purged: seq<Event>)
  {
    forall e :: e in purged ==> e.id in lost
  }

  lemma CoversPrefix(lost: set<nat>, a: seq<Event>, b: seq<Event>)
    requires a <= b && Covers(lost, b)
    ensures Covers(lost, a)
  {
    assert forall e :: e in a ==> e in b;
  }

  lemma {:induction false} TrackedThroughNotPoll(q: seq<Event>, n: nat, lost: set<nat>)
    ensures Filter(Filter(q, NotPoll()), Tracked(n, lost)) == Filter(q, Tracked(n, lost))
  {
    if q != [] {
      TrackedThroughNotPoll(q[1..], n, lost);
      if q[0].kind != Poll {
        var f := Filter(q[1..], NotPoll());
        assert ([q[0]] + f)[1..] == f;
      }
    }
  }

  lemma {:induction false} TrackedThroughPurge(q: seq<Event>, impl: nat, n: nat, lost: set<nat>)
    requires forall e :: e in q && e.impl == impl ==> e.id in lost
    ensures Filter(Purge(q, impl), Tracked(n, lost)) == Filter(q, Tracked(n, lost))
  {
    if q != [] {
      assert forall e :: e in q[1..] ==> e in q;
      TrackedThroughPurge(q[1..], impl, n, lost);
      if q[0].impl != impl {
        var f := Purge(q[1..], impl);
        assert ([q[0]] + f)[1..] == f;
      } else {
        assert q[0] in q;
      }
    }
  }

  lemma TrackedFetch(q: seq<Event>, rng: bv32, dice: Dice, n: nat, lost: set<nat>)
    ensures var d := Dequeue(q, rng, dice);
      Filter(q, Tracked(n, lost)) == Filter(Taken(d.event), Tracked(n, lost)) + Filter(d.rest, Tracked(n, lost))
  {
    var d := Dequeue(q, rng, dice);
    DequeueKeepsOrder(q, rng, dice);
    TrackedThroughNotPoll(q, n, lost);
    TrackedThroughNotPoll(Taken(d.event) + d.rest, n, lost);
    FilterConcat(Taken(d.event), d.rest, Tracked(n, lost));
  }

  lemma NewIsUntracked(e: Event, n: nat, lost: set<nat>)
    requires e.id >= n
    ensures Filter([e], Tracked(n, lost)) == []
  {
  }

  lemma FetchKeepsOrder(cfg: Config, s: State, n: nat, lost: set<nat>)
    requires cfg.queueSize > 0 && s.phase == Fetching
    ensures var t := Do(cfg, s, Fetch);
      && s.log.delivered <= t.log.delivered
      && Filter(s.queue, Tracked(n, lost)) == Filter(t.log.delivered[|s.log.delivered|..], Tracked(n, lost)) + Filter(t.queue, Tracked(n, lost))
  {
    var d, t := Dequeue(s.queue, s.rng, Standard(cfg.queueSize)), Do(cfg, s, Fetch);
    TrackedFetch(s.queue, s.rng, Standard(cfg.queueSize), n, lost);
    assert t.log.delivered[|s.log.delivered|..] == Taken(d.event);
  }

  lemma PurgeKeepsOrder(q: seq<Event>, impl: nat, n: nat, lost: set<nat>)
    requires Covers(lost, Filter(q, OfClient(impl)))
    ensures Filter(Purge(q, impl), Tracked(n, lost)) == Filter(q, Tracked(n, lost))
  {
    forall e | e in q && e.impl == impl ensures e.id in lost {
      FilterMember(q, OfClient(impl), e);
    }
    TrackedThroughPurge(q, impl, n, lost);
  }

  /** Steps other than a fetch deliver nothing and leave the tracked part of the queue alone. */
  lemma OtherStepsKeepOrder(cfg: Config, s: State, step: Step, n: nat, lost: set<nat>)
    requires cfg.queueSize > 0 && Enabled(s, step) && step != Fetch
    requires n <= s.clock
    requires Covers(lost, Do(cfg, s, step).log.purged)
    ensures var t := Do(cfg, s, step);
      && t.log.delivered == s.log.delivered
      && Filter(t.queue, Tracked(n, lost)) == Filter(s.queue, Tracked(n, lost))
  {
    var t := Do(cfg, s, step);
    match step
    case Push(kind, impl) => QueueEndUntracked(s.queue, Event(s.clock, kind, impl, 0, 0), n, lost);
    case PollPush(impl) => QueueEndUntracked(s.queue, Event(s.clock, Poll, impl, 0, 0), n, lost);
    case AcceptConnection(server) =>
      var e := Event(s.clock, Accept, 0, server, Lookup(s.session, server));
      NewIsUntracked(e, n, lost);
      FilterConcat([e], s.queue, Tracked(n, lost));
    case PurgeClient(impl) =>
      assert forall e :: e in Filter(s.queue, OfClient(impl)) ==> e in t.log.purged;
      PurgeKeepsOrder(s.queue, impl, n, lost);
    case _ =>
  }

  lemma QueueEndUntracked(q: seq<Event>, e: Event, n: nat, lost: set<nat>)
    requires e.id >= n
    ensures Filter(q + [e], Tracked(n, lost)) == Filter(q, Tracked(n, lost))
  {
    FilterConcat(q, [e], Tracked(n, lost));
    NewIsUntracked(e, n, lost);
    assert Filter(q, Tracked(n, lost)) + [] == Filter(q, Tracked(n, lost));
  }

  /** One step moves tracked packets from the head of the queue to the end of the deliveries, or not at all. */
  lemma StepKeepsOrder(cfg: Config, s: State, step: Step, n: nat, lost: set<nat>)
    requires cfg.queueSize > 0 && Enabled(s, step)
    requires n <= s.clock
    requires Covers(lost, Do(cfg, s, step).log.purged)
    ensures var t := Do(cfg, s, step);
      && s.log.delivered <= t.log.delivered
      && Filter(s.queue, Tracked(n, lost)) == Filter(t.log.delivered[|s.log.delivered|..], Tracked(n, lost)) + Filter(t.queue, Tracked(n, lost))
  {
    if step == Fetch {
      FetchKeepsOrder(cfg, s, n, lost);
    } else {
      OtherStepsKeepOrder(cfg, s, step, n, lost);
      assert s.log.delivered[|s.log.delivered|..] == [];
    }
  }

  lemma {:induction false} HistoryGrows(cfg: Config, s: State, steps: seq<Step>)
    requires cfg.queueSize > 0 && Run(cfg, s, steps)
    ensures s.log.purged <= Exec(cfg, s, steps).log.purged
    ensures s.log.delivered <= Exec(cfg, s, steps).log.delivered
    ensures s.log.accepts <= Exec(cfg, s, steps).log.accepts
    decreases |steps|
  {
    if steps != [] {
      HistoryGrows(cfg, Do(cfg, s, steps[0]), steps[1..]);
    }
  }

  /**
   Queue order survives every run.  Take any state and any continuation: the non-POLL
   packets queued in that state, minus those purged by the end, are exactly the ones of
   them delivered since, in queue order, followed by the ones still waiting, in queue
   order; later arrivals, wherever they were inserted, never reorder them.
   */
  lemma {:induction false} DeliveryFollowsQueueOrder(cfg: Config, s: State, steps: seq<Step>, n: nat, lost: set<nat>)
    requires cfg.queueSize > 0 && Run(cfg, s, steps)
    requires n <= s.clock
    requires Covers(lost, Exec(cfg, s, steps).log.purged)
    ensures s.log.delivered <= Exec(cfg, s, steps).log.delivered
    ensures var t := Exec(cfg, s, steps);
      Filter(s.queue, Tracked(n, lost)) == Filter(t.log.delivered[|s.log.delivered|..], Tracked(n, lost)) + Filter(t.queue, Tracked(n, lost))
    decreases |steps|
  {
    if steps == [] {
      assert s.log.delivered[|s.log.delivered|..] == [];
    } else {
      var u := Do(cfg, s, steps[0]);
      var t := Exec(cfg, u, steps[1..]);
      HistoryGrows(cfg, u, steps[1..]);
      CoversPrefix(lost, u.log.purged, t.log.purged);
      StepKeepsOrder(cfg, s, steps[0], n, lost);
      DeliveryFollowsQueueOrder(cfg, u, steps[1..], n, lost);
      SplitDeliveries(s.log.delivered, u.log.delivered, t.log.delivered, Tracked(n, lost));
      SeqAssociates(Filter(u.log.delivered[|s.log.delivered|..], Tracked(n, lost)),
                    Filter(t.log.delivered[|u.log.delivered|..], Tracked(n, lost)), Filter(t.queue, Tracked(n, lost)));
    }
  }

  lemma SeqAssociates(a: seq<Event>, b: seq<Event>, c: seq<Event>)
    ensures a + (b + c) == (a + b) + c
  {
  }

  lemma SplitDeliveries(a: seq<Event>, b: seq<Event>, c: seq<Event>, p: Event -> bool)
    requires a <= b <= c
    ensures Filter(c[|a|..], p) == Filter(b[|a|..], p) + Filter(c[|b|..], p)
  {
    assert c[|a|..] == b[|a|..] + c[|b|..];
    FilterConcat(b[|a|..], c[|b|..], p);
  }

  // ---- No lost wake-up ----

  /** Whenever the consumer rests (or is about to), queued work has a run or notification pending. */
  ghost predicate WakeInv(cfg: Config, s: State)
  {
    && (cfg.platform == Esp8266 ==> s.phase != AboutToWait)
    && (s.phase in {Resting, AboutToWait} && s.queue != [] ==> s.pending > 0)
  }

  lemma StepKeepsWake(cfg: Config, s: State, step: Step)
    requires cfg.queueSize > 0 && WakeInv(cfg, s) && Enabled(s, step)
    ensures WakeInv(cfg, Do(cfg, s, step))
  {
    match step
    case PurgeClient(impl) => PurgeExact(s.queue, impl);
    case Fetch => DequeueKeepsOrder(s.queue, s.rng, Standard(cfg.queueSize));
    case _ =>
  }

  /** No lost wake-up: in every reachable state where the consumer rests over a nonempty queue, it can wake. */
  lemma {:induction false} NoLostWakeup(cfg: Config, s: State, steps: seq<Step>)
    requires cfg.queueSize > 0 && WakeInv(cfg, s) && Run(cfg, s, steps)
    ensures var t := Exec(cfg, s, steps);
      && WakeInv(cfg, t)
      && (t.phase == Resting && t.queue != [] ==> Enabled(t, Wake))
    decreases |steps|
  {
    if steps != [] {
      StepKeepsWake(cfg, s, steps[0]);
      NoLostWakeup(cfg, Do(cfg, s, steps[0]), steps[1..]);
    }
  }

  // ---- The bound on queued polls ----

  function PollCount(q: seq<Event>): nat
  {
    |Filter(q, IsPoll())|
  }

  function PollBound(Q: nat): nat
  {
    if Q == 0 then 0 else Q / 4 + (Q - 1) / 2 + 1
  }

  ghost predicate PollInv(cfg: Config, s: State)
  {
    PollCount(s.queue) + (if s.pollGate then 1 else 0) <= PollBound(cfg.queueSize)
  }

  lemma {:induction false} PollCountBounded(q: seq<Event>)
    ensures PollCount(q) <= |q|
  {
    if q != [] {
      PollCountBounded(q[1..]);
    }
  }

  lemma ThrottleLimitBounded(x: bv32, Q: nat)
    requires Q > 0
    ensures ThrottleLimit(x, Q) < PollBound(Q)
  {
    assert (x as int) % Q <= Q - 1;
  }

  lemma {:induction false} PurgeDropsPolls(q: seq<Event>, impl: nat)
    ensures PollCount(Purge(q, impl)) <= PollCount(q)
  {
    if q != [] {
      PurgeDropsPolls(q[1..], impl);
      if q[0].impl != impl {
        assert ([q[0]] + Purge(q[1..], impl))[1..] == Purge(q[1..], impl);
      }
    }
  }

  lemma SuffixDropsPolls(q: seq<Event>, k: nat)
    requires k <= |q|
    ensures PollCount(q[k..]) <= PollCount(q)
  {
    assert q == q[..k] + q[k..];
    FilterConcat(q[..k], q[k..], IsPoll());
  }

  lemma PushCountsPoll(q: seq<Event>, e: Event)
    ensures PollCount(q + [e]) == PollCount(q) + (if e.kind == Poll then 1 else 0)
    ensures PollCount([e] + q) == PollCount(q) + (if e.kind == Poll then 1 else 0)
  {
    FilterConcat(q, [e], IsPoll());
    FilterConcat([e], q, IsPoll());
    assert |Filter([e], IsPoll())| == if e.kind == Poll then 1 else 0;
  }

  lemma StepKeepsPolls(cfg: Config, s: State, step: Step)
    requires cfg.queueSize > 0 && PollInv(cfg, s) && Enabled(s, step)
    ensures PollInv(cfg, Do(cfg, s, step))
  {
    match step
    case Push(kind, impl) => PushCountsPoll(s.queue, Event(s.clock, kind, impl, 0, 0));
    case PollPush(impl) => PushCountsPoll(s.queue, Event(s.clock, Poll, impl, 0, 0));
    case AcceptConnection(server) =>
      PushCountsPoll(s.queue, Event(s.clock, Accept, 0, server, Lookup(s.session, server)));
    case PollCheck =>
      ThrottleLimitBounded(XorShift(s.rng), cfg.queueSize);
      PollCountBounded(s.queue);
    case PurgeClient(impl) => PurgeDropsPolls(s.queue, impl);
    case Fetch =>
      var k := DequeueLeavesSuffix(s.queue, s.rng, Standard(cfg.queueSize));
      SuffixDropsPolls(s.queue, k);
    case _ =>
  }

  /** In every run, whatever else is queued between the throttle test and the push, polls stay bounded. */
  lemma {:induction false} PollsBounded(cfg: Config, s: State, steps: seq<Step>)
    requires cfg.queueSize > 0 && PollInv(cfg, s) && Run(cfg, s, steps)
    ensures PollInv(cfg, Exec(cfg, s, steps))
    ensures PollCount(Exec(cfg, s, steps).queue) <= PollBound(cfg.queueSize)
    ensures cfg.queueSize == 64 ==> PollCount(Exec(cfg, s, steps).queue) <= 48
    decreases |steps|
  {
    if steps != [] {
      StepKeepsPolls(cfg, s, steps[0]);
      PollsBounded(cfg, Do(cfg, s, steps[0]), steps[1..]);
    }
  }

  /** The generator is never stuck at zero, in any run from the initial state. */
  lemma {:induction false} GeneratorNeverZero(cfg: Config, s: State, steps: seq<Step>)
    requires cfg.queueSize > 0 && s.rng != 0 && Run(cfg, s, steps)
    ensures Exec(cfg, s, steps).rng != 0
    decreases |steps|
  {
    if steps != [] {
      XorShiftNonZero(s.rng);
      forall x ensures x != 0 ==> Standard(cfg.queueSize).next(x) != 0 {
        StandardDice(cfg.queueSize, x);
      }
      DequeueKeepsGenerator(s.queue, s.rng, Standard(cfg.queueSize));
      GeneratorNeverZero(cfg, Do(cfg, s, steps[0]), steps[1..]);
    }
  }

  // ---- No stale accept ----

  /** The packet's epoch still names the listener's session exactly when no begin/end came after it. */
  ghost predicate EpochHonest(s: State, e: Event)
  {
    e.kind == Accept ==>
      && e.epoch <= Lookup(s.session, e.server)
      && (e.epoch == Lookup(s.session, e.server) <==> Lookup(s.lastChange, e.server) <= e.id)
  }

  function IsAccept(): Event -> bool
  {
    (e: Event) => e.kind == Accept
  }

  function OutcomeEvents(outcomes: seq<AcceptOutcome>): (r: seq<Event>)
    ensures |r| == |outcomes|
  {
    seq(|outcomes|, i requires 0 <= i < |outcomes| => outcomes[i].event)
  }

  function InHand(s: State): seq<Event>
  {
    if s.phase.Popped? && s.phase.event.kind == Accept then [s.phase.event] else []
  }

  ghost predicate EpochsInv(s: State)
  {
    && (forall server :: server in s.lastChange ==> 0 < s.lastChange[server] < s.clock)
    && 0 < s.clock
    && (forall e :: e in s.queue ==> e.id < s.clock && EpochHonest(s, e))
    && (s.phase.Popped? ==> s.phase.event.id < s.clock && EpochHonest(s, s.phase.event))
  }

  ghost predicate AcceptInv(s: State)
  {
    && EpochsInv(s)
    && (forall o :: o in s.log.accepts ==> o.event.kind == Accept && o.accepted == !o.changedSince)
    && Filter(s.log.delivered, IsAccept()) == OutcomeEvents(s.log.accepts) + InHand(s)
  }

  lemma FetchKeepsEpochs(cfg: Config, s: State)
    requires cfg.queueSize > 0 && EpochsInv(s) && s.phase == Fetching
    ensures EpochsInv(Do(cfg, s, Fetch))
  {
    var d, t := Dequeue(s.queue, s.rng, Standard(cfg.queueSize)), Do(cfg, s, Fetch);
    forall e | e in d.rest || d.event == Some(e) ensures e.id < t.clock && EpochHonest(t, e) {
      DequeueTakesFrom(s.queue, s.rng, Standard(cfg.queueSize), e);
      assert EpochHonest(s, e);
    }
  }

  lemma FetchKeepsAccepts(cfg: Config, s: State)
    requires cfg.queueSize > 0 && AcceptInv(s) && s.phase == Fetching
    ensures AcceptInv(Do(cfg, s, Fetch))
  {
    FetchKeepsEpochs(cfg, s);
    var d, t := Dequeue(s.queue, s.rng, Standard(cfg.queueSize)), Do(cfg, s, Fetch);
    FilterConcat(s.log.delivered, Taken(d.event), IsAccept());
    assert InHand(s) == [];
    assert Filter(Taken(d.event), IsAccept()) == InHand(t);
  }

  lemma StartKeepsAccepts(cfg: Config, s: State)
    requires cfg.queueSize > 0 && AcceptInv(s) && s.phase.Popped?
    ensures AcceptInv(Do(cfg, s, Start))
  {
    var t := Do(cfg, s, Start);
    assert EpochHonest(s, s.phase.event);
    forall e | e in t.queue ensures EpochHonest(t, e) {
      assert EpochHonest(s, e);
    }
    assert InHand(t) == [];
    assert OutcomeEvents(t.log.accepts) + [] == OutcomeEvents(s.log.accepts) + InHand(s);
  }

  lemma SessionKeepsEpochs(cfg: Config, s: State, server: nat)
    requires cfg.queueSize > 0 && EpochsInv(s)
    ensures EpochsInv(Do(cfg, s, SessionChange(server)))
  {
    var t := Do(cfg, s, SessionChange(server));
    forall e | e in t.queue ensures EpochHonest(t, e) {
      assert EpochHonest(s, e);
    }
    if t.phase.Popped? {
      assert EpochHonest(s, s.phase.event);
    }
  }

  lemma PushKeepsEpochs(cfg: Config, s: State, step: Step)
    requires cfg.queueSize > 0 && EpochsInv(s) && Enabled(s, step)
    requires step.Push? || step.PollPush? || step.AcceptConnection?
    ensures EpochsInv(Do(cfg, s, step))
  {
    var t := Do(cfg, s, step);
    forall e | e in t.queue ensures e.id < t.clock && EpochHonest(t, e) {
      if e in s.queue {
        assert EpochHonest(s, e);
      }
    }
  }

  lemma QuietKeepsAccepts(s: State, t: State)
    requires AcceptInv(s)
    requires t.queue == s.queue && t.log == s.log && t.clock == s.clock + 1
    requires t.session == s.session && t.lastChange == s.lastChange
    requires (t.phase.Popped? ==> t.phase == s.phase) && InHand(t) == InHand(s)
    ensures AcceptInv(t)
  {
    forall e | e in t.queue || (t.phase.Popped? && e == t.phase.event) ensures EpochHonest(t, e) {
      assert EpochHonest(s, e);
    }
  }

  lemma StepKeepsAccepts(cfg: Config, s: State, step: Step)
    requires cfg.queueSize > 0 && AcceptInv(s) && Enabled(s, step)
    ensures AcceptInv(Do(cfg, s, step))
  {
    if Quiet(step) {
      QuietStep(cfg, s, step);
      QuietKeepsAccepts(s, Do(cfg, s, step));
      return;
    }
    match step
    case Push(_, _) => PushKeepsEpochs(cfg, s, step);
    case PollPush(_) => PushKeepsEpochs(cfg, s, step);
    case AcceptConnection(_) => PushKeepsEpochs(cfg, s, step);
    case SessionChange(server) => SessionKeepsEpochs(cfg, s, server);
    case PurgeClient(impl) => PurgeExact(s.queue, impl);
    case Fetch => FetchKeepsAccepts(cfg, s);
    case Start => StartKeepsAccepts(cfg, s);
    case _ =>
  }

  /**
   No stale accept: in every run, each dispatched ACCEPT has exactly one outcome, in
   dispatch order; it reached the server's accept path exactly when no begin() or end() of
   that listener came between its queueing and its dispatch, and otherwise was refused.
   */
  lemma {:induction false} NoStaleAccept(cfg: Config, s: State, steps: seq<Step>)
    requires cfg.queueSize > 0 && AcceptInv(s) && Run(cfg, s, steps)
    ensures var t := Exec(cfg, s, steps);
      && AcceptInv(t)
      && (forall o :: o in t.log.accepts ==> (o.accepted <==> !o.changedSince))
      && Filter(t.log.delivered, IsAccept()) == OutcomeEvents(t.log.accepts) + InHand(t)
    decreases |steps|
  {
    if steps != [] {
      StepKeepsAccepts(cfg, s, steps[0]);
      NoStaleAccept(cfg, Do(cfg, s, steps[0]), steps[1..]);
    }
  }

  // ---- Arrival order ----

  /** `a` may stand before `b` in the queue: an ACCEPT goes before everything older, anything else behind. */
  predicate Before(a: Event, b: Event)
  {
    if b.kind == Accept then a.kind == Accept && a.id > b.id else a.kind == Accept || a.id < b.id
  }

  ghost predicate QueueShape(q: seq<Event>)
  {
    q == [] || ((forall e :: e in q[1..] ==> Before(q[0], e)) && QueueShape(q[1..]))
  }

  /** Packets other than ACCEPTs stand in the order they were built. */
  ghost predicate Chronological(s: seq<Event>)
  {
    s == [] || ((forall e :: e in s[1..] && s[0].kind != Accept && e.kind != Accept ==> s[0].id < e.id) && Chronological(s[1..]))
  }

  ghost predicate AllBefore(a: seq<Event>, b: seq<Event>)
  {
    forall x, y :: x in a && y in b && x.kind != Accept && y.kind != Accept ==> x.id < y.id
  }

  lemma {:induction false} ChronologicalConcat(a: seq<Event>, b: seq<Event>)
    ensures Chronological(a + b) <==> Chronological(a) && Chronological(b) && AllBefore(a, b)
  {
    if a == [] {
      assert a + b == b;
    } else {
      assert (a + b)[1..] == a[1..] + b;
      ChronologicalConcat(a[1..], b);
      assert forall x :: x in a <==> x == a[0] || x in a[1..];
      assert forall y :: y in a[1..] + b <==> y in a[1..] || y in b;
    }
  }

  lemma {:induction false} ShapeConcat(a: seq<Event>, b: seq<Event>)
    ensures QueueShape(a + b) <==> QueueShape(a) && QueueShape(b) && (forall x, y :: x in a && y in b ==> Before(x, y))
  {
    if a == [] {
      assert a + b == b;
    } else {
      assert (a + b)[1..] == a[1..] + b;
      ShapeConcat(a[1..], b);
      assert forall x :: x in a <==> x == a[0] || x in a[1..];
      assert forall y :: y in a[1..] + b <==> y in a[1..] || y in b;
    }
  }

  lemma {:induction false} ShapeFilter(q: seq<Event>, p: Event -> bool)
    requires QueueShape(q)
    ensures QueueShape(Filter(q, p))
  {
    if q != [] {
      ShapeFilter(q[1..], p);
      var rest := Filter(q[1..], p);
      forall e | e in rest ensures Before(q[0], e) {
        FilterMember(q[1..], p, e);
      }
      assert ([q[0]] + rest)[1..] == rest;
    }
  }

  lemma {:induction false} ShapeIsChronological(q: seq<Event>)
    requires QueueShape(q)
    ensures Chronological(q)
  {
    if q != [] {
      ShapeIsChronological(q[1..]);
    }
  }

  ghost predicate OrderInv(s: State)
  {
    && QueueShape(s.queue)
    && (forall e :: e in s.queue ==> e.id < s.clock)
    && (forall e :: e in s.log.delivered ==> e.id < s.clock)
    && Chronological(s.log.delivered) && AllBefore(s.log.delivered, s.queue)
  }

  lemma PushKeepsShape(q: seq<Event>, e: Event)
    requires QueueShape(q) && forall x :: x in q ==> x.id < e.id
    ensures e.kind != Accept ==> QueueShape(q + [e])
    ensures e.kind == Accept ==> QueueShape([e] + q)
  {
    if e.kind == Accept {
      assert ([e] + q)[1..] == q;
    } else {
      assert QueueShape([e]);
      ShapeConcat(q, [e]);
    }
  }

  /** Taking the packet at `i` off the first `k`, and leaving the rest. */
  lemma TakingKeepsArrivals(delivered: seq<Event>, q: seq<Event>, i: nat, k: nat)
    requires QueueShape(q) && i < k <= |q|
    requires Chronological(delivered) && AllBefore(delivered, q)
    ensures QueueShape(q[k..]) && Chronological(delivered + [q[i]]) && AllBefore(delivered + [q[i]], q[k..])
  {
    LeavingKeepsArrivals(delivered, q, k);
    assert Chronological([q[i]]);
    ChronologicalConcat(delivered, [q[i]]);
    forall y | y in q[k..] && q[i].kind != Accept && y.kind != Accept ensures q[i].id < y.id {
      var j :| k <= j < |q| && q[j] == y;
      ShapeAt(q, i, j);
    }
  }

  lemma LeavingKeepsArrivals(delivered: seq<Event>, q: seq<Event>, k: nat)
    requires QueueShape(q) && k <= |q| && AllBefore(delivered, q)
    ensures QueueShape(q[k..]) && AllBefore(delivered, q[k..]) && forall e :: e in q[k..] ==> e in q
  {
    assert q == q[..k] + q[k..];
    ShapeConcat(q[..k], q[k..]);
  }

  lemma FetchKeepsArrivals(s: State, dice: Dice)
    requires OrderInv(s)
    ensures var d := Dequeue(s.queue, s.rng, dice);
      && QueueShape(d.rest) && (forall e :: e in d.rest || d.event == Some(e) ==> e in s.queue)
      && Chronological(s.log.delivered + Taken(d.event)) && AllBefore(s.log.delivered + Taken(d.event), d.rest)
  {
    var d := Dequeue(s.queue, s.rng, dice);
    var i, k := DequeueTakesBefore(s.queue, s.rng, dice);
    LeavingKeepsArrivals(s.log.delivered, s.queue, k);
    if d.event.Some? {
      TakingKeepsArrivals(s.log.delivered, s.queue, i, k);
    } else {
      assert s.log.delivered + Taken(d.event) == s.log.delivered;
    }
  }

  lemma StepKeepsArrivals(cfg: Config, s: State, step: Step)
    requires cfg.queueSize > 0 && OrderInv(s) && Enabled(s, step)
    ensures OrderInv(Do(cfg, s, step))
  {
    var t := Do(cfg, s, step);
    match step
    case Push(kind, impl) => PushKeepsShape(s.queue, Event(s.clock, kind, impl, 0, 0));
    case PollPush(impl) => PushKeepsShape(s.queue, Event(s.clock, Poll, impl, 0, 0));
    case AcceptConnection(server) => PushKeepsShape(s.queue, Event(s.clock, Accept, 0, server, Lookup(s.session, server)));
    case PurgeClient(impl) =>
      ShapeFilter(s.queue, Others(impl));
      PurgeExact(s.queue, impl);
    case Fetch => FetchKeepsArrivals(s, Standard(cfg.queueSize));
    case SessionChange(_) =>
    case Start =>
    case _ => QuietStep(cfg, s, step);
  }

  lemma {:induction false} RunKeepsArrivals(cfg: Config, s: State, steps: seq<Step>)
    requires cfg.queueSize > 0 && OrderInv(s) && Run(cfg, s, steps)
    ensures OrderInv(Exec(cfg, s, steps))
    decreases |steps|
  {
    if steps != [] {
      StepKeepsArrivals(cfg, s, steps[0]);
      RunKeepsArrivals(cfg, Do(cfg, s, steps[0]), steps[1..]);
    }
  }

  /**
   In every run packets other than ACCEPTs are delivered, and wait, in the order they were
   built; and the queue is always its ACCEPTs, newest first, followed by the others, oldest
   first, so that an ACCEPT goes before everything that was waiting when it was built.
   */
  lemma DeliveredInArrivalOrder(cfg: Config, steps: seq<Step>)
    requires cfg.queueSize > 0 && Run(cfg, Initial(), steps)
    ensures var s := Exec(cfg, Initial(), steps);
      Chronological(s.log.delivered + s.queue) && QueueShape(s.queue)
  {
    RunKeepsArrivals(cfg, Initial(), steps);
    var s := Exec(cfg, Initial(), steps);
    ShapeIsChronological(s.queue);
    ChronologicalConcat(s.log.delivered, s.queue);
  }

  /** What QueueShape says, position by position. */
  lemma {:induction false} ShapeAt(q: seq<Event>, i: nat, j: nat)
    requires QueueShape(q) && i < j < |q|
    ensures Before(q[i], q[j])
  {
    if i > 0 {
      ShapeAt(q[1..], i - 1, j - 1);
    } else {
      assert q[j] in q[1..] by { assert q[j] == q[1..][j - 1]; }
    }
  }

  // ---- What was built, and what became of an ACCEPT, told from the steps alone ----

  /** Session changes of a listener among the first `n` steps. */
  function Changes(steps: seq<Step>, n: nat, server: nat): nat
    requires n <= |steps|
  {
    if n == 0 then 0 else Changes(steps, n - 1, server) + if steps[n - 1] == SessionChange(server) then 1 else 0
  }

  lemma {:induction false} ChangesGrow(steps: seq<Step>, m: nat, n: nat, server: nat)
    requires m <= n <= |steps|
    ensures Changes(steps, m, server) <= Changes(steps, n, server)
    ensures Changes(steps, m, server) == Changes(steps, n, server) <==> forall k :: m <= k < n ==> steps[k] != SessionChange(server)
  {
    if m < n {
      ChangesGrow(steps, m, n - 1, server);
    }
  }

  /** The packet that step `k` of a run builds, stamped with its number. */
  function BuiltBy(steps: seq<Step>, k: nat): seq<Event>
    requires k < |steps|
  {
    match steps[k]
    case Push(kind, impl) => [Event(k + 1, kind, impl, 0, 0)]
    case PollPush(impl) => [Event(k + 1, Poll, impl, 0, 0)]
    case AcceptConnection(server) => [Event(k + 1, Accept, 0, server, Changes(steps, k, server))]
    case _ => []
  }

  function Built(steps: seq<Step>, n: nat): seq<Event>
    requires n <= |steps|
  {
    if n == 0 then [] else Built(steps, n - 1) + BuiltBy(steps, n - 1)
  }

  /** A settled ACCEPT: built by its step, judged by a Start, accepted exactly if no session change came between. */
  ghost predicate Settled(steps: seq<Step>, o: AcceptOutcome)
  {
    && 0 < o.event.id < o.at <= |steps|
    && steps[o.event.id - 1] == AcceptConnection(o.event.server)
    && steps[o.at - 1] == Start
    && (o.accepted <==> Changes(steps, o.event.id - 1, o.event.server) == Changes(steps, o.at - 1, o.event.server))
  }

  /** An ACCEPT packet is the one its step built. */
  ghost predicate Genuine(steps: seq<Step>, n: nat, e: Event)
    requires n <= |steps|
  {
    e.kind == Accept ==>
      && 0 < e.id <= n && steps[e.id - 1] == AcceptConnection(e.server)
      && e.epoch == Changes(steps, e.id - 1, e.server)
  }

  /** After `n` steps the state is what the steps say. */
  ghost predicate Told(steps: seq<Step>, n: nat, s: State)
    requires n <= |steps|
  {
    && s.clock == n + 1
    && s.log.sent == Built(steps, n)
    && (forall server: nat :: Lookup(s.session, server) == Changes(steps, n, server))
    && (forall e :: e in s.queue ==> Genuine(steps, n, e))
    && (s.phase.Popped? ==> Genuine(steps, n, s.phase.event))
    && (forall o :: o in s.log.accepts ==> Settled(steps, o))
  }

  lemma GenuineStays(steps: seq<Step>, n: nat, e: Event)
    requires n < |steps| && Genuine(steps, n, e)
    ensures Genuine(steps, n + 1, e)
  {
  }

  lemma BuildKeepsTold(cfg: Config, steps: seq<Step>, n: nat, s: State)
    requires cfg.queueSize > 0 && n < |steps| && Told(steps, n, s) && Enabled(s, steps[n])
    requires steps[n].Push? || steps[n].PollPush? || steps[n].AcceptConnection?
    ensures Told(steps, n + 1, Do(cfg, s, steps[n]))
  {
    var t := Do(cfg, s, steps[n]);
    assert t.log.sent == s.log.sent + BuiltBy(steps, n);
    forall e | e in t.queue ensures Genuine(steps, n + 1, e) {
      if e in s.queue {
        GenuineStays(steps, n, e);
      }
    }
  }

  lemma FetchKeepsTold(cfg: Config, steps: seq<Step>, n: nat, s: State)
    requires cfg.queueSize > 0 && n < |steps| && Told(steps, n, s) && Enabled(s, steps[n]) && steps[n] == Fetch
    ensures Told(steps, n + 1, Do(cfg, s, Fetch))
  {
    var t, dice := Do(cfg, s, Fetch), Standard(cfg.queueSize);
    var d := Dequeue(s.queue, s.rng, dice);
    forall e | e in d.rest || d.event == Some(e) ensures Genuine(steps, n + 1, e) {
      DequeueTakesFrom(s.queue, s.rng, dice, e);
      GenuineStays(steps, n, e);
    }
    NothingBuilt(steps, n);
    assert t == Fetched(cfg.platform, s, d).(clock := s.clock + 1);
    assert t.phase.Popped? ==> d.event == Some(t.phase.event);
  }

  lemma PurgeKeepsTold(cfg: Config, steps: seq<Step>, n: nat, s: State, impl: nat)
    requires cfg.queueSize > 0 && n < |steps| && Told(steps, n, s) && Enabled(s, steps[n]) && steps[n] == PurgeClient(impl)
    ensures Told(steps, n + 1, Do(cfg, s, PurgeClient(impl)))
  {
    var t := Do(cfg, s, PurgeClient(impl));
    PurgeExact(s.queue, impl);
    NothingBuilt(steps, n);
    assert forall e :: e in t.queue ==> e in s.queue;
  }

  /** A step that builds nothing and changes no session. */
  lemma NothingBuilt(steps: seq<Step>, n: nat)
    requires n < |steps| && BuiltBy(steps, n) == []
    ensures Built(steps, n + 1) == Built(steps, n)
    ensures !steps[n].SessionChange? ==> forall server: nat :: Changes(steps, n + 1, server) == Changes(steps, n, server)
    ensures forall e :: Genuine(steps, n, e) ==> Genuine(steps, n + 1, e)
  {
    assert Built(steps, n) + [] == Built(steps, n);
  }

  lemma JudgedIsSettled(steps: seq<Step>, n: nat, s: State, e: Event)
    requires n < |steps| && steps[n] == Start && Told(steps, n, s) && Genuine(steps, n, e) && e.kind == Accept
    ensures Settled(steps, Judge(s, e))
  {
  }

  lemma StartKeepsTold(cfg: Config, steps: seq<Step>, n: nat, s: State)
    requires cfg.queueSize > 0 && n < |steps| && Told(steps, n, s) && Enabled(s, steps[n]) && steps[n] == Start
    ensures Told(steps, n + 1, Do(cfg, s, Start))
  {
    var t, e := Do(cfg, s, Start), s.phase.event;
    NothingBuilt(steps, n);
    if e.kind == Accept {
      JudgedIsSettled(steps, n, s, e);
    }
    forall o | o in t.log.accepts ensures Settled(steps, o) {
      if o !in s.log.accepts {
        assert o == Judge(s, e);
      }
    }
    assert !t.phase.Popped?;
    assert t.queue == s.queue && t.session == s.session && t.clock == n + 2 && t.log.sent == s.log.sent;
  }

  lemma SessionKeepsTold(cfg: Config, steps: seq<Step>, n: nat, s: State, server: nat)
    requires cfg.queueSize > 0 && n < |steps| && Told(steps, n, s) && Enabled(s, steps[n]) && steps[n] == SessionChange(server)
    ensures Told(steps, n + 1, Do(cfg, s, SessionChange(server)))
  {
    var t := Do(cfg, s, SessionChange(server));
    NothingBuilt(steps, n);
    forall other: nat ensures Lookup(t.session, other) == Changes(steps, n + 1, other) {
      assert Lookup(s.session, other) == Changes(steps, n, other);
    }
  }

  lemma StepKeepsTold(cfg: Config, steps: seq<Step>, n: nat, s: State)
    requires cfg.queueSize > 0 && n < |steps| && Told(steps, n, s) && Enabled(s, steps[n])
    ensures Told(steps, n + 1, Do(cfg, s, steps[n]))
  {
    match steps[n]
    case Push(_, _) => BuildKeepsTold(cfg, steps, n, s);
    case PollPush(_) => BuildKeepsTold(cfg, steps, n, s);
    case AcceptConnection(_) => BuildKeepsTold(cfg, steps, n, s);
    case PurgeClient(impl) => PurgeKeepsTold(cfg, steps, n, s, impl);
    case Fetch => FetchKeepsTold(cfg, steps, n, s);
    case Start => StartKeepsTold(cfg, steps, n, s);
    case SessionChange(server) => SessionKeepsTold(cfg, steps, n, s, server);
    case _ =>
      QuietStep(cfg, s, steps[n]);
      NothingBuilt(steps, n);
  }

  lemma {:induction false} RunKeepsTold(cfg: Config, steps: seq<Step>, n: nat, s: State)
    requires cfg.queueSize > 0 && n <= |steps| && Told(steps, n, s) && Run(cfg, s, steps[n..])
    ensures Told(steps, |steps|, Exec(cfg, s, steps[n..]))
    decreases |steps| - n
  {
    if n < |steps| {
      assert steps[n..][1..] == steps[n + 1..];
      StepKeepsTold(cfg, steps, n, s);
      RunKeepsTold(cfg, steps, n + 1, Do(cfg, s, steps[n]));
    }
  }

  /**
   In every run the packets built are exactly those its steps call for, in order: kind,
   client, listener and session epoch.  And a dispatched ACCEPT was accepted if and only if
   none of the steps between the one that queued it and the one that judged it changed its
   listener's session.
   */
  lemma StepsTellAll(cfg: Config, steps: seq<Step>)
    requires cfg.queueSize > 0 && Run(cfg, Initial(), steps)
    ensures var s := Exec(cfg, Initial(), steps);
      && s.log.sent == Built(steps, |steps|)
      && (forall o :: o in s.log.accepts ==>
            && 0 < o.event.id < o.at <= |steps|
            && steps[o.event.id - 1] == AcceptConnection(o.event.server) && steps[o.at - 1] == Start
            && (o.accepted <==> forall k :: o.event.id - 1 <= k < o.at - 1 ==> steps[k] != SessionChange(o.event.server)))
  {
    assert steps[0..] == steps;
    RunKeepsTold(cfg, steps, 0, Initial());
    var s := Exec(cfg, Initial(), steps);
    forall o | o in s.log.accepts
      ensures 0 < o.event.id < o.at <= |steps|
      ensures steps[o.event.id - 1] == AcceptConnection(o.event.server) && steps[o.at - 1] == Start
      ensures o.accepted <==> forall k :: o.event.id - 1 <= k < o.at - 1 ==> steps[k] != SessionChange(o.event.server)
    {
      assert Settled(steps, o);
      ChangesGrow(steps, o.event.id - 1, o.at - 1, o.event.server);
    }
  }

  // ---- What the consumer and a purge achieve ----

  predicate Consumes(step: Step)
  {
    step == Wake || step == Fetch || step == Start || step == Finish || step == Block
  }

  ghost predicate AllConsume(steps: seq<Step>)
  {
    forall i :: 0 <= i < |steps| ==> Consumes(steps[i])
  }

  /** Running one step and then the others. */
  lemma Prefix(cfg: Config, s: State, step: Step, rest: seq<Step>)
    requires cfg.queueSize > 0 && Enabled(s, step) && Run(cfg, Do(cfg, s, step), rest)
    ensures Run(cfg, s, [step] + rest) && Exec(cfg, s, [step] + rest) == Exec(cfg, Do(cfg, s, step), rest)
  {
    assert ([step] + rest)[1..] == rest;
  }

  /** What the consumer has handed over, as far as non-POLLs go, after some steps of its own. */
  ghost predicate Emptied(cfg: Config, s: State, steps: seq<Step>)
    requires cfg.queueSize > 0
  {
    && Run(cfg, s, steps) && AllConsume(steps)
    && var t := Exec(cfg, s, steps);
       && t.queue == []
       && Filter(t.log.delivered, NotPoll()) == Filter(s.log.delivered, NotPoll()) + Filter(s.queue, NotPoll())
  }

  lemma ThenEmptied(cfg: Config, s: State, step: Step, rest: seq<Step>)
    requires cfg.queueSize > 0 && Enabled(s, step) && Consumes(step) && Emptied(cfg, Do(cfg, s, step), rest)
    requires var t := Do(cfg, s, step);
      Filter(t.log.delivered, NotPoll()) + Filter(t.queue, NotPoll()) == Filter(s.log.delivered, NotPoll()) + Filter(s.queue, NotPoll())
    ensures Emptied(cfg, s, [step] + rest)
  {
    Prefix(cfg, s, step, rest);
  }

  lemma FetchHandsOver(cfg: Config, s: State)
    requires cfg.queueSize > 0 && s.phase == Fetching
    ensures var t := Do(cfg, s, Fetch);
      Filter(t.log.delivered, NotPoll()) + Filter(t.queue, NotPoll()) == Filter(s.log.delivered, NotPoll()) + Filter(s.queue, NotPoll())
  {
    var dice := Standard(cfg.queueSize);
    var d := Dequeue(s.queue, s.rng, dice);
    DequeueKeepsOrder(s.queue, s.rng, dice);
    FilterConcat(Taken(d.event), d.rest, NotPoll());
    FilterConcat(s.log.delivered, Taken(d.event), NotPoll());
    Associates(Filter(s.log.delivered, NotPoll()), Filter(Taken(d.event), NotPoll()), Filter(d.rest, NotPoll()));
  }

  /** A fetch takes a packet off the queue, or finds nothing to hand over and leaves nothing. */
  lemma FetchShrinks(cfg: Config, s: State)
    requires cfg.queueSize > 0 && s.phase == Fetching
    ensures var t := Do(cfg, s, Fetch);
      if t.phase.Popped? then |t.queue| < |s.queue| else t.queue == []
  {
    TakingShortens(s.queue, s.rng, Standard(cfg.queueSize));
  }

  lemma TakingShortens(q: seq<Event>, rng: bv32, dice: Dice)
    ensures var d := Dequeue(q, rng, dice);
      if d.event.Some? then |d.rest| < |q| else d.rest == []
  {
    DequeueKeepsOrder(q, rng, dice);
    var i, k := DequeueTakesBefore(q, rng, dice);
  }

  lemma Associates(a: seq<Event>, b: seq<Event>, c: seq<Event>)
    ensures (a + b) + c == a + (b + c) && a + [] == a
  {
  }

  /** From a fetch on, the consumer alone empties the queue. */
  lemma {:induction false} FetchingEmpties(cfg: Config, s: State) returns (steps: seq<Step>)
    requires cfg.queueSize > 0 && s.phase == Fetching
    ensures Emptied(cfg, s, steps)
    decreases |s.queue|
  {
    FetchHandsOver(cfg, s);
    FetchShrinks(cfg, s);
    var t := Do(cfg, s, Fetch);
    if t.phase.Popped? {
      var u := Do(cfg, t, Start);
      var v := Do(cfg, u, Finish);
      var rest := AfterFinishEmpties(cfg, s, v);
      ThenEmptied(cfg, u, Finish, rest);
      ThenEmptied(cfg, t, Start, [Finish] + rest);
      steps := [Fetch] + ([Start] + ([Finish] + rest));
      ThenEmptied(cfg, s, Fetch, [Start] + ([Finish] + rest));
    } else {
      Associates(Filter(t.log.delivered, NotPoll()), [], []);
      assert Emptied(cfg, t, []);
      steps := [Fetch] + [];
      ThenEmptied(cfg, s, Fetch, []);
    }
  }

  lemma {:induction false} AfterFinishEmpties(cfg: Config, s: State, v: State) returns (steps: seq<Step>)
    requires cfg.queueSize > 0 && |v.queue| < |s.queue|
    requires v.phase == (if cfg.platform == Esp8266 then Resting else Fetching)
    requires v.phase == Resting && v.queue != [] ==> v.pending > 0
    ensures Emptied(cfg, v, steps)
    decreases |s.queue|, 0
  {
    if v.phase == Fetching {
      steps := FetchingEmpties(cfg, v);
    } else if v.queue == [] {
      steps := [];
      Associates(Filter(v.log.delivered, NotPoll()), [], []);
    } else {
      var rest := FetchingEmpties(cfg, Do(cfg, v, Wake));
      steps := [Wake] + rest;
      ThenEmptied(cfg, v, Wake, rest);
    }
  }

  /**
   From every rest point of every run, on both back ends, the consumer left to itself empties
   the queue, handing over every waiting non-POLL packet, in queue order.
   */
  lemma ConsumerEmpties(cfg: Config, before: seq<Step>) returns (steps: seq<Step>)
    requires cfg.queueSize > 0 && Run(cfg, Initial(), before) && Exec(cfg, Initial(), before).phase == Resting
    ensures Emptied(cfg, Exec(cfg, Initial(), before), steps)
  {
    var s := Exec(cfg, Initial(), before);
    NoLostWakeup(cfg, Initial(), before);
    if s.queue == [] {
      steps := [];
      Associates(Filter(s.log.delivered, NotPoll()), [], []);
    } else {
      var rest := FetchingEmpties(cfg, Do(cfg, s, Wake));
      steps := [Wake] + rest;
      ThenEmptied(cfg, s, Wake, rest);
    }
  }

  /** Packets of a client built before `n`, if any are queued, will never be delivered. */
  lemma {:induction false} NoneBefore(cfg: Config, s: State, steps: seq<Step>, impl: nat, n: nat)
    requires cfg.queueSize > 0 && Run(cfg, s, steps) && n <= s.clock
    requires forall e :: e in s.queue && e.impl == impl ==> e.id >= n
    ensures var t := Exec(cfg, s, steps);
      && s.log.delivered <= t.log.delivered
      && (forall e :: e in t.log.delivered[|s.log.delivered|..] && e.impl == impl ==> e.id >= n)
    decreases |steps|
  {
    if steps != [] {
      var u := Do(cfg, s, steps[0]);
      NoneQueuedBefore(cfg, s, steps[0], impl, n);
      NoneBefore(cfg, u, steps[1..], impl, n);
      var t := Exec(cfg, s, steps);
      var first, more := u.log.delivered[|s.log.delivered|..], t.log.delivered[|u.log.delivered|..];
      assert t.log.delivered[|s.log.delivered|..] == first + more;
    }
  }

  lemma NoneQueuedBefore(cfg: Config, s: State, step: Step, impl: nat, n: nat)
    requires cfg.queueSize > 0 && Enabled(s, step) && n <= s.clock
    requires forall e :: e in s.queue && e.impl == impl ==> e.id >= n
    ensures var u := Do(cfg, s, step);
      && (forall e :: e in u.queue && e.impl == impl ==> e.id >= n)
      && s.log.delivered <= u.log.delivered
      && (forall e :: e in u.log.delivered[|s.log.delivered|..] && e.impl == impl ==> e.id >= n)
  {
    var u := Do(cfg, s, step);
    match step
    case Fetch =>
      var dice := Standard(cfg.queueSize);
      forall e | e in u.queue || e in u.log.delivered[|s.log.delivered|..] ensures e in s.queue {
        DequeueTakesFrom(s.queue, s.rng, dice, e);
      }
    case PurgeClient(c) => PurgeExact(s.queue, c);
    case _ =>
  }

  /** Once a client is purged, no packet of it built before that is ever delivered again. */
  lemma PurgedNeverDelivered(cfg: Config, s: State, impl: nat, steps: seq<Step>)
    requires cfg.queueSize > 0 && impl != 0 && Run(cfg, Do(cfg, s, PurgeClient(impl)), steps)
    ensures var t := Exec(cfg, Do(cfg, s, PurgeClient(impl)), steps);
      && s.log.delivered <= t.log.delivered
      && (forall e :: e in t.log.delivered[|s.log.delivered|..] && e.impl == impl ==> e.id > s.clock)
  {
    var u := Do(cfg, s, PurgeClient(impl));
    PurgeExact(s.queue, impl);
    NoneBefore(cfg, u, steps, impl, s.clock + 1);
  }

  /** Each purged packet belongs to a client that some step among the first `n` purged. */
  ghost predicate Asked(steps: seq<Step>, n: nat, purged: seq<Event>)
    requires n <= |steps|
  {
    forall e :: e in purged ==> PurgeClient(e.impl) in steps[..n]
  }

  /** A step purges packets of the client it names, and none unless it is a purge. */
  lemma StepPurges(cfg: Config, s: State, step: Step)
    requires cfg.queueSize > 0 && Enabled(s, step)
    ensures forall e :: e in Do(cfg, s, step).log.purged ==> e in s.log.purged || step == PurgeClient(e.impl)
  {
    match step
    case PurgeClient(impl) =>
      forall e | e in Filter(s.queue, OfClient(impl)) ensures e.impl == impl {
        FilterMember(s.queue, OfClient(impl), e);
      }
    case _ =>
  }

  /** In every run only packets of clients that the run purges are purged. */
  lemma {:induction false} OnlyAskedPurged(cfg: Config, steps: seq<Step>, n: nat, s: State)
    requires cfg.queueSize > 0 && n <= |steps| && Run(cfg, s, steps[n..]) && Asked(steps, n, s.log.purged)
    ensures Asked(steps, |steps|, Exec(cfg, s, steps[n..]).log.purged)
    decreases |steps| - n
  {
    if n < |steps| {
      assert steps[n..][1..] == steps[n + 1..];
      StepPurges(cfg, s, steps[n]);
      assert steps[..n + 1] == steps[..n] + [steps[n]];
      OnlyAskedPurged(cfg, steps, n + 1, Do(cfg, s, steps[n]));
    }
  }

  /** The throttle admits every poll up to a quarter of the queue size, and none above the upper bound. */
  lemma ThrottleAnswers(cfg: Config, s: State)
    requires cfg.queueSize > 0 && Enabled(s, PollCheck)
    ensures var t := Do(cfg, s, PollCheck);
      && (|s.queue| <= cfg.queueSize / 4 ==> Enabled(t, PollPush(1)))
      && (|s.queue| > cfg.queueSize / 4 + (cfg.queueSize - 1) / 2 ==> !Enabled(t, PollPush(1)))
  {
    ThrottleRange(XorShift(s.rng), cfg.queueSize);
  }

  /** The initial state satisfies every invariant above, so the theorems hold of all its runs. */
  lemma InitialIsGood(cfg: Config)
    requires cfg.queueSize > 0
    ensures LogInv(cfg, Initial()) && WakeInv(cfg, Initial()) && PollInv(cfg, Initial()) && AcceptInv(Initial())
    ensures Initial().rng != 0
  {
  }
}
