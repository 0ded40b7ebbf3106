/**
 The global lwIP event queue of AsyncTCP.cpp: what one dequeue does to the list of
 queued packets, and the imperative queue that does it.
 */
module EventQueue {
  import opened Common
  import opened IntrusiveList

  datatype Kind = Sent | Recv | Fin | Error | Poll | Accept | Connected | Dns

  /**
   A queued packet.  `impl` is the client it refers to (0 for a null reference, as in
   ACCEPT packets); `server` and `epoch` are meaningful for ACCEPT packets only.
   `id` is the packet's identity: no two packets ever built share one.
   */
  datatype Event = Event(id: nat, kind: Kind, impl: nat, server: nat, epoch: nat)

  // ---- The poll-coalescing random number generator ----

  function Left13(x: bv32): bv32 { x ^ (x << 13) }

  function Right17(x: bv32): bv32 { x ^ (x >> 17) }

  function Left5(x: bv32): bv32 { x ^ (x << 5) }

  function XorShift(state: bv32): bv32
  {
    Left5(Right17(Left13(state)))
  }

  lemma Left13NonZero(x: bv32)
    requires x != 0
    ensures Left13(x) != 0
  {
  }

  lemma Right17NonZero(x: bv32)
    requires x != 0
    ensures Right17(x) != 0
  {
    assert x != x >> 17;
  }

  lemma Left5NonZero(x: bv32)
    requires x != 0
    ensures Left5(x) != 0
  {
  }

  /** A generator seeded with a nonzero state never reaches zero. */
  lemma XorShiftNonZero(state: bv32)
    requires state != 0
    ensures XorShift(state) != 0
  {
    Left13NonZero(state);
    Right17NonZero(Left13(state));
    Left5NonZero(Right17(Left13(state)));
  }

  // ---- The two load thresholds, with C's operator precedence and truncation ----

  function ThrottleLimit(x: bv32, Q: nat): nat
    requires Q > 0
  {
    (x as int) % Q / 2 + Q / 4
  }

  function DiscardLimit(x: bv32, Q: nat): nat
    requires Q > 0
  {
    (x as int) % Q / 4 + Q * 3 / 4
  }

  /** xorshift32 with shifts 13, 17 and 5: its published first value, the one after it, and the code's own seed's. */
  lemma KnownDraws()
    ensures XorShift(1) == 270369 && XorShift(270369) == 67634689
    ensures XorShift(31) == 8381406
  {
    KnownDraw1();
    KnownDraw2();
    KnownDraw31();
  }

  lemma KnownDraw1()
    ensures XorShift(1) == 270369
  {
    assert Left13(1) == 8193;
    assert Right17(8193) == 8193;
    assert Left5(8193) == 270369;
  }

  lemma KnownDraw2()
    ensures XorShift(270369) == 67634689
  {
  }

  lemma KnownDraw31()
    ensures XorShift(31) == 8381406
  {
  }

  /** The polls that fit the throttle: its limit takes every value from Q/4 to Q/4 + (Q-1)/2, and no other. */
  lemma ThrottleRange(x: bv32, Q: nat)
    requires Q > 0
    ensures Q / 4 <= ThrottleLimit(x, Q) <= Q / 4 + (Q - 1) / 2
  {
    assert (x as int) % Q <= Q - 1;
  }

  lemma ThrottleAttained(x: bv32, Q: nat, k: nat)
    requires 0 < Q && k <= (Q - 1) / 2 && x as int == 2 * k
    ensures ThrottleLimit(x, Q) == Q / 4 + k
  {
    SmallMod(2 * k, Q);
  }

  /** And the discard limit every value from 3Q/4 to 3Q/4 + (Q-1)/4. */
  lemma DiscardRange(x: bv32, Q: nat)
    requires Q > 0
    ensures Q * 3 / 4 <= DiscardLimit(x, Q) <= Q * 3 / 4 + (Q - 1) / 4
  {
    assert (x as int) % Q <= Q - 1;
  }

  lemma DiscardAttained(x: bv32, Q: nat, k: nat)
    requires 0 < Q && k <= (Q - 1) / 4 && x as int == 4 * k
    ensures DiscardLimit(x, Q) == Q * 3 / 4 + k
  {
    SmallMod(4 * k, Q);
  }

  lemma SmallMod(i: nat, Q: nat)
    requires i < Q
    ensures i % Q == i
  {
  }

  /** How a dequeue decides: the generator's step, and the load beyond which a poll is discarded. */
  datatype Dice = Dice(next: bv32 -> bv32, limit: bv32 -> nat)

  function Standard(Q: nat): Dice
    requires Q > 0
  {
    Dice((x: bv32) => XorShift(x), (x: bv32) => DiscardLimit(x, Q))
  }

  /** The generator stays alive, and nothing is discarded at or below three quarters of the queue size. */
  lemma StandardDice(Q: nat, x: bv32)
    requires Q > 0
    ensures Standard(Q).next(x) == XorShift(x) && Standard(Q).limit(x) == DiscardLimit(x, Q) >= Q * 3 / 4
    ensures x != 0 ==> Standard(Q).next(x) != 0
  {
    if x != 0 {
      XorShiftNonZero(x);
    }
  }

  // ---- What one dequeue does ----

  /** Why a packet was dropped instead of dispatched. */
  datatype Drop =
    | Coalesced(event: Event, into: Event)
    | Discarded(event: Event, behind: nat)

  datatype Outcome = Outcome(event: Option<Event>, rest: seq<Event>, rng: bv32, drops: seq<Drop>)

  function WithDrops(earlier: seq<Drop>, o: Outcome): Outcome
  {
    o.(drops := earlier + o.drops)
  }

  /** The polls of client `c` at the head of the queue. */
  function PollRun(q: seq<Event>, c: nat): nat
  {
    if q != [] && q[0].impl == c && q[0].kind == Poll then 1 + PollRun(q[1..], c) else 0
  }

  lemma {:induction false} PollRunBound(q: seq<Event>, c: nat)
    ensures PollRun(q, c) <= |q|
    ensures forall i :: 0 <= i < PollRun(q, c) ==> q[i].kind == Poll && q[i].impl == c
    ensures PollRun(q, c) < |q| ==> !(q[PollRun(q, c)].impl == c && q[PollRun(q, c)].kind == Poll)
  {
    if q != [] && q[0].impl == c && q[0].kind == Poll {
      PollRunBound(q[1..], c);
      forall i | 0 <= i < PollRun(q, c) ensures q[i].kind == Poll && q[i].impl == c {
        if i > 0 {
          assert q[i] == q[1..][i - 1];
        }
      }
    }
  }

  function CoalesceDrops(q: seq<Event>, n: nat, into: Event): seq<Drop>
    requires n <= |q|
  {
    seq(n, i requires 0 <= i < n => Coalesced(q[i], into))
  }

  /** What follows a poll at the head once the adjacent polls of its client are merged into it. */
  function AfterRun(q: seq<Event>): (tail: seq<Event>)
    requires q != []
    ensures |tail| < |q|
  {
    PollRunBound(q[1..], q[0].impl);
    q[1..][PollRun(q[1..], q[0].impl)..]
  }

  function Merged(q: seq<Event>): (drops: seq<Drop>)
    requires q != []
  {
    PollRunBound(q[1..], q[0].impl);
    CoalesceDrops(q[1..], PollRun(q[1..], q[0].impl), q[0])
  }

  /** The packet `_get_async_event` hands out, and everything it throws away on the way. */
  function Dequeue(q: seq<Event>, rng: bv32, dice: Dice): Outcome
    decreases |q|
  {
    if q == [] then Outcome(None, [], rng, [])
    else if q[0].kind != Poll then Outcome(Some(q[0]), q[1..], rng, [])
    else
      var tail := AfterRun(q);
      var next := dice.next(rng);
      if |tail| > dice.limit(next) then
        var later := Dequeue(tail, next, dice);
        later.(drops := Merged(q) + [Discarded(q[0], |tail|)] + later.drops)
      else
        Outcome(Some(q[0]), tail, next, Merged(q))
  }

  function Purge(q: seq<Event>, client: nat): seq<Event>
  {
    Filter(q, Others(client))
  }

  function Others(client: nat): Event -> bool
  {
    (e: Event) => e.impl != client
  }

  function OfClient(client: nat): Event -> bool
  {
    (e: Event) => e.impl == client
  }

  function IsPoll(): Event -> bool
  {
    (e: Event) => e.kind == Poll
  }

  function NotPoll(): Event -> bool
  {
    (e: Event) => e.kind != Poll
  }

  function DroppedEvents(drops: seq<Drop>): (r: seq<Event>)
    ensures |r| == |drops|
  {
    seq(|drops|, i requires 0 <= i < |drops| => drops[i].event)
  }

  function Taken(e: Option<Event>): seq<Event>
  {
    match e case None => [] case Some(x) => [x]
  }

  /** A drop is legitimate: an adjacent poll of the same client, or a poll under heavy load. */
  ghost predicate Legitimate(d: Drop, Q: nat)
  {
    match d
    case Coalesced(e, into) => e.kind == Poll && into.kind == Poll && e.impl == into.impl
    case Discarded(e, behind) => e.kind == Poll && behind > Q * 3 / 4
  }

  lemma {:induction false} FilterAllPolls(q: seq<Event>)
    requires forall i :: 0 <= i < |q| ==> q[i].kind == Poll
    ensures Filter(q, NotPoll()) == []
  {
    if q != [] {
      FilterAllPolls(q[1..]);
    }
  }

  /** The polls merged into the head, as packets. */
  lemma MergedRun(q: seq<Event>)
    requires q != [] && q[0].kind == Poll
    ensures PollRun(q[1..], q[0].impl) <= |q[1..]|
    ensures DroppedEvents(Merged(q)) == q[1..][..PollRun(q[1..], q[0].impl)]
    ensures forall e :: e in DroppedEvents(Merged(q)) ==> e.kind == Poll && e.impl == q[0].impl
    ensures forall d :: d in Merged(q) ==> d.Coalesced? && d.event.kind == Poll && d.into == q[0] && d.event.impl == q[0].impl
  {
    PollRunBound(q[1..], q[0].impl);
  }

  lemma Cutting(q: seq<Event>, n: nat)
    requires q != [] && n <= |q| - 1
    ensures q == ([q[0]] + q[1..][..n]) + q[1..][n..]
    ensures q[1..][n..] == q[n + 1..]
  {
  }

  /** A poll at the head, the polls merged into it, and the rest make up the queue. */
  lemma HeadPoll(q: seq<Event>)
    requires q != [] && q[0].kind == Poll
    ensures q == ([q[0]] + DroppedEvents(Merged(q))) + AfterRun(q)
    ensures AfterRun(q) == q[|q| - |AfterRun(q)|..]
    ensures Filter(q, NotPoll()) == Filter(AfterRun(q), NotPoll())
    ensures forall d :: d in Merged(q) ==> d.Coalesced? && d.event.kind == Poll && d.into == q[0] && d.event.impl == q[0].impl
  {
    MergedRun(q);
    var run := DroppedEvents(Merged(q));
    Cutting(q, |run|);
    assert forall e :: e in [q[0]] + run ==> e.kind == Poll;
    FilterAllPolls([q[0]] + run);
    FilterConcat([q[0]] + run, AfterRun(q), NotPoll());
  }

  /**
   A dequeue keeps every non-POLL packet, in order: what it hands out followed by what it
   leaves is exactly the queue as far as non-polls go.  It comes back empty-handed only
   when the queue is exhausted.
   */
  lemma {:induction false} DequeueKeepsOrder(q: seq<Event>, rng: bv32, dice: Dice)
    ensures var d := Dequeue(q, rng, dice);
      Filter(q, NotPoll()) == Filter(Taken(d.event) + d.rest, NotPoll())
    ensures Dequeue(q, rng, dice).event.None? ==> Dequeue(q, rng, dice).rest == []
    decreases |q|
  {
    var d := Dequeue(q, rng, dice);
    if q == [] {
    } else if q[0].kind != Poll {
      assert Taken(d.event) + d.rest == q;
    } else {
      HeadPoll(q);
      if d.event != Some(q[0]) || d.rest != AfterRun(q) {
        DequeueKeepsOrder(AfterRun(q), dice.next(rng), dice);
      } else {
        FilterConcat([q[0]], AfterRun(q), NotPoll());
        FilterAllPolls([q[0]]);
        DequeueKeepsOrder(AfterRun(q), dice.next(rng), dice);
      }
    }
  }

  lemma DroppedConcat(a: seq<Drop>, b: seq<Drop>)
    ensures DroppedEvents(a + b) == DroppedEvents(a) + DroppedEvents(b)
  {
  }

  lemma HeadPollCounts(q: seq<Event>)
    requires q != [] && q[0].kind == Poll
    ensures multiset(q) == multiset([q[0]]) + multiset(DroppedEvents(Merged(q))) + multiset(AfterRun(q))
  {
    HeadPoll(q);
  }

  lemma DiscardCounts(merged: seq<Drop>, e: Event, behind: nat, later: seq<Drop>)
    ensures multiset(DroppedEvents(merged + [Discarded(e, behind)] + later))
         == multiset(DroppedEvents(merged)) + multiset([e]) + multiset(DroppedEvents(later))
  {
    DroppedConcat(merged + [Discarded(e, behind)], later);
    DroppedConcat(merged, [Discarded(e, behind)]);
    assert DroppedEvents([Discarded(e, behind)]) == [e];
  }

  lemma CountsAdd(q: multiset<Event>, head: multiset<Event>, merged: multiset<Event>, tail: multiset<Event>,
                  taken: multiset<Event>, rest: multiset<Event>, drops: multiset<Event>)
    requires q == head + merged + tail && tail == taken + rest + drops
    ensures q == taken + rest + (merged + head + drops)
  {
  }

  /** Every packet taken out of the queue is handed out or dropped, exactly once. */
  lemma {:induction false} DequeueConserves(q: seq<Event>, rng: bv32, dice: Dice)
    ensures var d := Dequeue(q, rng, dice);
      multiset(q) == multiset(Taken(d.event)) + multiset(d.rest) + multiset(DroppedEvents(d.drops))
    decreases |q|
  {
    if q == [] {
    } else if q[0].kind != Poll {
      assert q == [q[0]] + q[1..];
    } else {
      HeadPollCounts(q);
      var tail, next := AfterRun(q), dice.next(rng);
      if |tail| > dice.limit(next) {
        DequeueConserves(tail, next, dice);
        var later := Dequeue(tail, next, dice);
        DiscardCounts(Merged(q), q[0], |tail|, later.drops);
        CountsAdd(multiset(q), multiset([q[0]]), multiset(DroppedEvents(Merged(q))), multiset(tail),
                  multiset(Taken(later.event)), multiset(later.rest), multiset(DroppedEvents(later.drops)));
      }
    }
  }

  /** What a dequeue hands out or leaves was in the queue. */
  lemma DequeueTakesFrom(q: seq<Event>, rng: bv32, dice: Dice, e: Event)
    requires e in Dequeue(q, rng, dice).rest || Dequeue(q, rng, dice).event == Some(e)
    ensures e in q
  {
    DequeueConserves(q, rng, dice);
    if Dequeue(q, rng, dice).event == Some(e) {
      assert e in Taken(Dequeue(q, rng, dice).event);
    }
    assert e in multiset(q);
  }

  /** Only polls are dropped, and only for one of the two stated reasons. */
  lemma {:induction false} DequeueDropsLegitimate(q: seq<Event>, rng: bv32, dice: Dice, Q: nat)
    requires forall x :: dice.limit(x) >= Q * 3 / 4
    ensures forall d :: d in Dequeue(q, rng, dice).drops ==> Legitimate(d, Q)
    decreases |q|
  {
    if q != [] && q[0].kind == Poll {
      HeadPoll(q);
      if |AfterRun(q)| > dice.limit(dice.next(rng)) {
        DequeueDropsLegitimate(AfterRun(q), dice.next(rng), dice, Q);
      }
    }
  }

  /** Positions `i` to `j` hold polls of client `c` only. */
  ghost predicate PollsOnly(q: seq<Event>, i: nat, j: nat, c: nat)
    requires j < |q|
  {
    forall k :: i <= k <= j ==> q[k].kind == Poll && q[k].impl == c
  }

  /**
   A coalesced packet stood in an unbroken run of polls that begins with the one it was
   merged into; a discarded one began such a run, and `behind` counts what followed the run.
   */
  ghost predicate Adjacent(q: seq<Event>, d: Drop)
  {
    match d
    case Coalesced(e, into) =>
      exists i, j :: 0 <= i < j < |q| && q[i] == into && q[j] == e && PollsOnly(q, i, j, into.impl)
    case Discarded(e, behind) =>
      && behind < |q|
      && (exists i :: 0 <= i < |q| - behind && q[i] == e && PollsOnly(q, i, |q| - behind - 1, e.impl))
      && (behind > 0 ==> !(q[|q| - behind].kind == Poll && q[|q| - behind].impl == e.impl))
  }

  lemma AdjacentLater(q: seq<Event>, n: nat, d: Drop)
    requires n <= |q| && Adjacent(q[n..], d)
    ensures Adjacent(q, d)
  {
    var t := q[n..];
    match d
    case Coalesced(e, into) =>
      var i, j :| 0 <= i < j < |t| && t[i] == into && t[j] == e && PollsOnly(t, i, j, into.impl);
      assert PollsOnly(q, n + i, n + j, into.impl) by {
        assert forall k :: n + i <= k <= n + j ==> q[k] == t[k - n];
      }
      assert q[n + i] == into && q[n + j] == e;
    case Discarded(e, behind) =>
      var i :| 0 <= i < |t| - behind && t[i] == e && PollsOnly(t, i, |t| - behind - 1, e.impl);
      assert PollsOnly(q, n + i, |q| - behind - 1, e.impl) by {
        assert forall k :: n + i <= k < |q| - behind ==> q[k] == t[k - n];
      }
      assert q[n + i] == e;
  }

  /** The run at the head: everything merged into the first poll, or discarded with it, is adjacent. */
  lemma HeadAdjacent(q: seq<Event>)
    requires q != [] && q[0].kind == Poll
    ensures forall d :: d in Merged(q) ==> Adjacent(q, d)
    ensures Adjacent(q, Discarded(q[0], |AfterRun(q)|))
  {
    var c, n := q[0].impl, PollRun(q[1..], q[0].impl);
    PollRunBound(q[1..], c);
    assert PollsOnly(q, 0, n, c) by {
      assert forall k :: 1 <= k <= n ==> q[k] == q[1..][k - 1];
    }
    forall d | d in Merged(q) ensures Adjacent(q, d) {
      var i :| 0 <= i < n && d == Coalesced(q[1..][i], q[0]);
      assert q[i + 1] == d.event && PollsOnly(q, 0, i + 1, c);
    }
    assert |q| - |AfterRun(q)| - 1 == n;
    if |AfterRun(q)| > 0 {
      assert q[n + 1] == q[1..][n];
    }
  }

  /**
   Whatever a dequeue coalesces is the unbroken run of polls right behind the packet merged
   into, up to the first packet that is not a poll of that client.
   */
  lemma {:induction false} DequeueDropsAdjacent(q: seq<Event>, rng: bv32, dice: Dice)
    ensures forall d :: d in Dequeue(q, rng, dice).drops ==> Adjacent(q, d)
    ensures var o := Dequeue(q, rng, dice);
      o.event.Some? && o.event.value.kind == Poll && o.rest != []
      ==> !(o.rest[0].kind == Poll && o.rest[0].impl == o.event.value.impl)
    decreases |q|
  {
    if q != [] && q[0].kind == Poll {
      HeadAdjacent(q);
      PollRunBound(q[1..], q[0].impl);
      var tail, next := AfterRun(q), dice.next(rng);
      if |tail| > dice.limit(next) {
        DequeueDropsAdjacent(tail, next, dice);
        HeadPoll(q);
        forall d | d in Dequeue(tail, next, dice).drops ensures Adjacent(q, d) {
          AdjacentLater(q, |q| - |tail|, d);
        }
      }
    }
  }

  lemma AfterRunSuffix(q: seq<Event>) returns (k: nat)
    requires q != []
    ensures k <= |q| && AfterRun(q) == q[k..]
  {
    PollRunBound(q[1..], q[0].impl);
    k := PollRun(q[1..], q[0].impl) + 1;
    Cutting(q, k - 1);
  }

  lemma SuffixOfSuffix(q: seq<Event>, k: nat, m: nat)
    requires k + m <= |q|
    ensures q[k..][m..] == q[k + m..]
  {
  }

  /** What stays queued is a suffix of what was queued. */
  lemma {:induction false} DequeueLeavesSuffix(q: seq<Event>, rng: bv32, dice: Dice) returns (k: nat)
    ensures k <= |q| && Dequeue(q, rng, dice).rest == q[k..]
    decreases |q|
  {
    if q == [] {
      k := 0;
    } else if q[0].kind != Poll {
      k := 1;
    } else {
      var tail, next := AfterRun(q), dice.next(rng);
      k := AfterRunSuffix(q);
      if |tail| > dice.limit(next) {
        var m := DequeueLeavesSuffix(tail, next, dice);
        SuffixOfSuffix(q, k, m);
        k := k + m;
      }
    }
  }

  /** What is handed out stood before everything that stays. */
  lemma {:induction false} DequeueTakesBefore(q: seq<Event>, rng: bv32, dice: Dice) returns (i: nat, k: nat)
    ensures k <= |q| && Dequeue(q, rng, dice).rest == q[k..]
    ensures Dequeue(q, rng, dice).event.Some? ==> i < k && q[i] == Dequeue(q, rng, dice).event.value
    decreases |q|
  {
    i, k := 0, 0;
    if q != [] {
      if q[0].kind != Poll {
        k := 1;
      } else {
        var tail, next := AfterRun(q), dice.next(rng);
        var m := AfterRunSuffix(q);
        k := m;
        if |tail| > dice.limit(next) {
          i, k := DequeueTakesBefore(tail, next, dice);
          SuffixOfSuffix(q, m, k);
          i, k := i + m, k + m;
        } else {
          RunIsNotEmpty(q, m);
        }
      }
    }
  }

  lemma RunIsNotEmpty(q: seq<Event>, k: nat)
    requires q != [] && k <= |q| && AfterRun(q) == q[k..]
    ensures k > 0
  {
    assert |AfterRun(q)| < |q|;
  }

  function Discards(drops: seq<Drop>): (r: seq<nat>)
  {
    if drops == [] then [] else (if drops[0].Discarded? then [drops[0].behind] else []) + Discards(drops[1..])
  }

  lemma {:induction false} DiscardsConcat(a: seq<Drop>, b: seq<Drop>)
    ensures Discards(a + b) == Discards(a) + Discards(b)
  {
    if a == [] {
      assert a + b == b;
    } else {
      assert (a + b)[1..] == a[1..] + b;
      DiscardsConcat(a[1..], b);
      Joined(if a[0].Discarded? then [a[0].behind] else [], Discards(a[1..]), Discards(b));
    }
  }

  lemma Joined(a: seq<nat>, b: seq<nat>, c: seq<nat>)
    ensures (a + b) + c == a + (b + c)
  {
  }

  lemma {:induction false} NoDiscards(drops: seq<Drop>)
    requires forall d :: d in drops ==> d.Coalesced?
    ensures Discards(drops) == []
  {
    if drops != [] {
      assert drops[0] in drops && forall d :: d in drops[1..] ==> d in drops;
      NoDiscards(drops[1..]);
    }
  }

  /**
   Weighing, draw by draw: each load in `discards` was above the limit of its draw; then a
   poll was handed out at or below the limit of one more draw, or no draw was made.
   */
  ghost predicate Weighed(discards: seq<nat>, o: Outcome, rng: bv32, dice: Dice)
  {
    var next := dice.next(rng);
    if discards != [] then discards[0] > dice.limit(next) && Weighed(discards[1..], o, next, dice)
    else if o.event.Some? && o.event.value.kind == Poll then |o.rest| <= dice.limit(next) && o.rng == next
    else o.rng == rng
  }

  /** Weighing speaks of the packet, the rest and the generator only. */
  lemma {:induction false} WeighedIgnoresDrops(discards: seq<nat>, o: Outcome, p: Outcome, rng: bv32, dice: Dice)
    requires o.event == p.event && o.rest == p.rest && o.rng == p.rng
    ensures Weighed(discards, o, rng, dice) <==> Weighed(discards, p, rng, dice)
  {
    if discards != [] {
      WeighedIgnoresDrops(discards[1..], o, p, dice.next(rng), dice);
    }
  }

  /**
   Every poll is weighed against a fresh draw: discarded exactly above its limit, and the
   one handed out was at or below it.  One draw is made for each poll weighed, and none else.
   */
  lemma {:induction false} DequeueWeighs(q: seq<Event>, rng: bv32, dice: Dice)
    ensures Weighed(Discards(Dequeue(q, rng, dice).drops), Dequeue(q, rng, dice), rng, dice)
    decreases |q|
  {
    if q != [] && q[0].kind == Poll {
      HeadPoll(q);
      NoDiscards(Merged(q));
      var tail, next := AfterRun(q), dice.next(rng);
      if |tail| > dice.limit(next) {
        DequeueWeighs(tail, next, dice);
        var later := Dequeue(tail, next, dice);
        DiscardFirst(Merged(q), q[0], |tail|, later.drops);
        WeighedIgnoresDrops(Discards(later.drops), later, Dequeue(q, rng, dice), next, dice);
        assert ([|tail|] + Discards(later.drops))[1..] == Discards(later.drops);
      }
    }
  }

  lemma DiscardFirst(merged: seq<Drop>, e: Event, behind: nat, later: seq<Drop>)
    requires Discards(merged) == []
    ensures Discards(merged + [Discarded(e, behind)] + later) == [behind] + Discards(later)
  {
    var head := Discarded(e, behind);
    DiscardsConcat(merged + [head], later);
    DiscardsConcat(merged, [head]);
    assert Discards([head]) == [behind] by { assert [head][1..] == []; }
  }

  /** However many polls it weighs, a dequeue leaves the generator alive. */
  lemma {:induction false} DequeueKeepsGenerator(q: seq<Event>, rng: bv32, dice: Dice)
    requires forall x :: x != 0 ==> dice.next(x) != 0
    requires rng != 0
    ensures Dequeue(q, rng, dice).rng != 0
    decreases |q|
  {
    if q != [] && q[0].kind == Poll {
      if |AfterRun(q)| > dice.limit(dice.next(rng)) {
        DequeueKeepsGenerator(AfterRun(q), dice.next(rng), dice);
      }
    }
  }

  /** With at most three quarters of the queue size behind it, a POLL is never discarded. */
  lemma LightLoadKeepsPolls(q: seq<Event>, rng: bv32, dice: Dice, Q: nat)
    requires forall x :: dice.limit(x) >= Q * 3 / 4
    requires |q| <= Q * 3 / 4 + 1
    ensures forall d :: d in Dequeue(q, rng, dice).drops ==> d.Coalesced?
    ensures q != [] && q[0].kind == Poll ==> Dequeue(q, rng, dice).event == Some(q[0])
  {
    if q != [] && q[0].kind == Poll {
      PollRunBound(q[1..], q[0].impl);
    }
  }

  /** After a purge nothing refers to the client, and nobody else's packets moved. */
  lemma {:induction false} PurgeExact(q: seq<Event>, client: nat)
    ensures forall e :: e in Purge(q, client) <==> e in q && e.impl != client
    ensures multiset(q) == multiset(Purge(q, client)) + multiset(Filter(q, OfClient(client)))
    ensures |Purge(q, client)| <= |q|
  {
    if q != [] {
      PurgeExact(q[1..], client);
      assert q == [q[0]] + q[1..];
    }
  }

  /** One round over a poll at the head, with what was dropped before it. */
  lemma RoundOf(drops: seq<Drop>, q: seq<Event>, rng: bv32, dice: Dice)
    requires q != [] && q[0].kind == Poll
    ensures var tail, next := AfterRun(q), dice.next(rng);
      WithDrops(drops, Dequeue(q, rng, dice))
      == if |tail| > dice.limit(next)
         then WithDrops(drops + (Merged(q) + [Discarded(q[0], |tail|)]), Dequeue(tail, next, dice))
         else Outcome(Some(q[0]), tail, next, drops + Merged(q))
  {
    var tail, next := AfterRun(q), dice.next(rng);
    if |tail| > dice.limit(next) {
      DropsAssociate(drops, Merged(q) + [Discarded(q[0], |tail|)], Dequeue(tail, next, dice).drops);
    }
  }

  lemma DropsAssociate(a: seq<Drop>, b: seq<Drop>, c: seq<Drop>)
    ensures a + (b + c) == (a + b) + c
  {
  }

  // ---- The queue itself ----

  class AsyncQueue {
    const list: SimpleIntrusiveList<Event>
    const queueSize: nat
    var xorShiftState: bv32

    ghost predicate Valid()
      reads this, list, list.Nodes
    {
      queueSize > 0 && list.Valid()
    }

    ghost function Queue(): seq<Event>
      reads this, list
    {
      list.Items()
    }

    constructor (queueSize: nat)
      requires queueSize > 0
      ensures Valid() && fresh(list) && Queue() == [] && this.queueSize == queueSize && xorShiftState == 31
    {
      list := new SimpleIntrusiveList<Event>();
      this.queueSize := queueSize;
      xorShiftState := 31;  // any nonzero seed will do
    }

    method XorShiftNext() returns (x: bv32)
      modifies this
      ensures x == xorShiftState == XorShift(old(xorShiftState))
    {
      x := xorShiftState;
      x := Left13(x);
      x := Right17(x);
      x := Left5(x);
      xorShiftState := x;
    }

    method SendAsyncEvent(e: Event)
      requires Valid()
      modifies list, list.Nodes
      ensures Valid() && Queue() == old(Queue()) + [e]
      ensures fresh(set n | n in list.Nodes && n !in old(list.Nodes))
    {
      var packet := new Node(e);
      list.PushBack(packet);
    }

    method PrependAsyncEvent(e: Event)
      requires Valid()
      modifies list
      ensures Valid() && Queue() == [e] + old(Queue())
      ensures fresh(set n | n in list.Nodes && n !in old(list.Nodes))
    {
      var packet := new Node(e);
      list.PushFront(packet);
    }

    /** `_remove_events_for_client`: unlinks, frees and counts the client's packets. */
    method RemoveEventsForClient(client: nat) returns (count: nat)
      requires Valid()
      modifies list, list.Nodes
      ensures Valid() && Queue() == Purge(old(Queue()), client)
      ensures count == |Filter(old(Queue()), OfClient(client))|
      ensures forall e :: e in Queue() ==> e.impl != client
    {
      ghost var q, nodes := Queue(), list.Nodes;
      var cond := OfClient(client);
      var removed := list.RemoveIf(cond);
      FilterCongruent(q, Not(cond), Others(client));
      PurgeExact(q, client);
      count := ListSize(removed, Reverse(Keep(nodes, cond)));
      ReverseLength(Keep(nodes, cond));
      KeepItems(nodes, cond);
    }

    /** The coalescing loop of `_get_async_event`: discards the adjacent polls of the same client. */
    method Coalesce(e: Event)
      requires Valid()
      modifies list
      ensures Valid()
      ensures PollRun(old(Queue()), e.impl) <= |old(Queue())|
      ensures Queue() == old(Queue())[PollRun(old(Queue()), e.impl)..]
    {
      ghost var behind := Queue();
      ghost var n, run := 0, PollRun(behind, e.impl);
      PollRunBound(behind, e.impl);
      var nextPkt := list.head;
      while nextPkt != null && nextPkt.item.impl == e.impl && nextPkt.item.kind == Poll
        invariant Valid() && nextPkt == list.head
        invariant 0 <= n <= run && Queue() == behind[n..]
        decreases |list.Nodes|
      {
        assert nextPkt.item == Queue()[0] == behind[n];
        PollRunSuffix(behind, e.impl, n);
        var dropped := list.PopFront();
        n := n + 1;
        nextPkt := list.head;
      }
      PollRunSuffix(behind, e.impl, n);
    }

    /** One round of `_get_async_event` for a poll popped off the head: merge, then keep it or drop it. */
    method WeighPoll(e: Event, ghost q: seq<Event>) returns (discard: bool)
      requires Valid()
      requires q != [] && e == q[0] && Queue() == q[1..]
      modifies this, list
      ensures Valid()
      ensures Queue() == AfterRun(q) && xorShiftState == XorShift(old(xorShiftState))
      ensures discard <==> |Queue()| > DiscardLimit(xorShiftState, queueSize)
    {
      Coalesce(e);
      var x := XorShiftNext();
      discard := list.size > DiscardLimit(x, queueSize);
    }

    /** `_get_async_event`. */
    method GetAsyncEvent() returns (event: Option<Event>, ghost drops: seq<Drop>)
      requires Valid()
      modifies this, list
      ensures Valid()
      ensures Outcome(event, Queue(), xorShiftState, drops) == Dequeue(old(Queue()), old(xorShiftState), Standard(queueSize))
    {
      drops := [];
      ghost var want := Dequeue(Queue(), xorShiftState, Standard(queueSize));
      assert drops + want.drops == want.drops;
      while true
        invariant Valid()
        invariant WithDrops(drops, Dequeue(Queue(), xorShiftState, Standard(queueSize))) == want
        decreases |Queue()|
      {
        ghost var q, rng := Queue(), xorShiftState;
        var e := list.PopFront();
        if e == null || e.item.kind != Poll {
          return if e == null then None else Some(e.item), drops;
        }
        var discard := WeighPoll(e.item, q);
        RoundOf(drops, q, rng, Standard(queueSize));
        if !discard {
          return Some(e.item), drops + Merged(q);
        }
        drops := drops + (Merged(q) + [Discarded(q[0], |AfterRun(q)|)]);
      }
    }

    /** The throttle test at the head of `tcp_poll`: false means the poll is skipped. */
    method PollAdmitted() returns (ok: bool)
      requires Valid()
      modifies this
      ensures Valid() && Queue() == old(Queue())
      ensures xorShiftState == XorShift(old(xorShiftState))
      ensures ok <==> |Queue()| <= ThrottleLimit(xorShiftState, queueSize)
    {
      var x := XorShiftNext();
      ok := !(list.size > ThrottleLimit(x, queueSize));
    }
  }

  /** Inside the run of polls, and only there, the next packet still belongs to the run. */
  lemma {:induction false} PollRunSuffix(q: seq<Event>, c: nat, n: nat)
    requires n <= |q| && n <= PollRun(q, c)
    ensures n < |q| && q[n].impl == c && q[n].kind == Poll <==> n < PollRun(q, c)
  {
    PollRunBound(q, c);
  }

  lemma {:induction false} FilterCongruent(q: seq<Event>, p: Event -> bool, r: Event -> bool)
    requires forall e :: p(e) == r(e)
    ensures Filter(q, p) == Filter(q, r)
  {
    if q != [] {
      FilterCongruent(q[1..], p, r);
    }
  }

  lemma {:induction false} ReverseLength<T>(s: seq<T>)
    ensures |Reverse(s)| == |s|
  {
    if s != [] {
      ReverseAt(s, 0);
    }
  }
}
