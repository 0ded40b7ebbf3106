/**
 Connecting by name (AsyncTCP.cpp): token identity decides which DNS answers are acted on.

 A token is an address from the heap.  An address can be handed out again as soon as
 nothing refers to it, so a stale answer could in principle meet a new token at its old
 address; that it never does is the point of Valid().  Dials carry a number of their own,
 which the running code does not have, to say what "the same dial" means.
 */
module DnsDial {
  import opened Common

  type Address = nat

  /** A reference to a token: a lookup in flight, or an answer queued or in dispatch. */
  datatype Reference = Reference(token: Address, dial: nat)

  datatype Answer = Answer(ref: Reference, resolved: bool)

  /** How dns_gethostbyname answers on the spot. */
  datatype Lookup = NoContext | Cached | InProgress | Refused

  datatype Outcome = Dropped | Dialed | ReportedFailure

  class DnsClient {
    var dnsToken: Option<Address>
    var lookups: seq<Reference>       // dns_lookup_ctx_t held by lwIP
    var answers: seq<Answer>          // queued DNS packets
    var inHand: Option<Answer>        // the DNS packet being dispatched
    var attempts: nat                 // connection attempts started, by an address or a resolved name
    var nextDial: nat                 // numbering of dials, for the specification only
    ghost var current: Option<nat>    // the latest connect-by-name, unless since closed, aborted or superseded
    ghost var dialed: seq<nat>        // dials an answer led to, in order

    /** Every reference that keeps a token from being freed, apart from the client's own. */
    ghost predicate Refers(r: Reference)
      reads this
    {
      || r in lookups
      || (exists a :: a in answers && a.ref == r)
      || (inHand.Some? && inHand.value.ref == r)
    }

    /** The token a reference holds is the client's own exactly when its dial is the current one. */
    ghost predicate Honest(r: Reference)
      reads this
    {
      r.dial < nextDial && (dnsToken == Some(r.token) <==> current == Some(r.dial))
    }

    ghost predicate Valid()
      reads this
    {
      && (forall r :: Refers(r) ==> Honest(r))
      && (dnsToken.Some? <==> current.Some?)
      && (current.Some? ==> current.value < nextDial)
      && Distinct(dialed)
      && (forall d :: d in dialed ==> d < nextDial && current != Some(d))
    }

    /** The allocator may hand out any address that nothing refers to. */
    ghost predicate Unreferenced(token: Address)
      reads this
    {
      dnsToken != Some(token) && forall r :: Refers(r) ==> r.token != token
    }

    constructor ()
      ensures Valid() && current == None && dialed == [] && attempts == 0
    {
      dnsToken, lookups, answers, inHand, attempts := None, [], [], None, 0;
      nextDial, current, dialed := 0, None, [];
    }

    /** `connect(host, port)`: a fresh token per dial. */
    method ConnectByName(token: Address, lookup: Lookup)
      requires Valid() && Unreferenced(token)
      modifies this
      ensures Valid()
      ensures dialed == old(dialed) && answers == old(answers) && inHand == old(inHand)
      ensures current == if lookup == Cached then None else Some(old(nextDial))
      ensures nextDial == old(nextDial) + 1
      ensures attempts == old(attempts) + if lookup == Cached then 1 else 0
      ensures lookups == old(lookups) + if lookup == InProgress then [Reference(token, old(nextDial))] else []
    {
      dnsToken := Some(token);
      if lookup == InProgress {
        lookups := lookups + [Reference(token, nextDial)];
      }
      current, nextDial := Some(nextDial), nextDial + 1;
      assert forall r :: Refers(r) ==> old(Refers(r)) || (r.token == token && r.dial == old(nextDial));
      assert forall r :: Refers(r) ==> Honest(r);
      if lookup == Cached {
        ConnectDirect();
      }
    }

    /** `connect(addr, port)`: a direct dial; also the end of a resolved one. */
    method ConnectDirect()
      requires Valid()
      modifies `dnsToken, `current, `attempts
      ensures Valid() && current == None && dnsToken == None && attempts == old(attempts) + 1
    {
      dnsToken, current, attempts := None, None, attempts + 1;
      assert forall r :: Refers(r) ==> old(Refers(r));
    }

    /** `close` and `abort`: cancel; the client's queued packets may be purged with it. */
    method Cancel(purges: bool)
      requires Valid()
      modifies `dnsToken, `current, `answers
      ensures Valid() && current == None && dnsToken == None
      ensures answers == if purges then [] else old(answers)
    {
      dnsToken, current := None, None;
      if purges {
        answers := [];
      }
      assert forall r :: Refers(r) ==> old(Refers(r));
    }

    /** `tcp_error` purges the client's packets, queued answers included. */
    method Purge()
      requires Valid()
      modifies `answers
      ensures Valid() && answers == []
    {
      answers := [];
      assert forall r :: Refers(r) ==> old(Refers(r));
    }

    /** `_tcp_dns_found` for the lookup at position `i`: queue the answer, or drop a superseded one. */
    method Answered(i: nat, resolved: bool)
      requires Valid() && i < |lookups|
      modifies `lookups, `answers
      ensures Valid()
      ensures lookups == old(lookups)[..i] + old(lookups)[i + 1..]
      ensures answers == if current == Some(old(lookups)[i].dial)
                         then old(answers) + [Answer(old(lookups)[i], resolved)] else old(answers)
    {
      var ctx := lookups[i];
      assert Refers(ctx);
      lookups := lookups[..i] + lookups[i + 1..];
      if dnsToken == Some(ctx.token) {
        answers := answers + [Answer(ctx, resolved)];
      }
      assert forall r :: Refers(r) ==> old(Refers(r));
    }

    /** The async task takes the next DNS packet. */
    method Take()
      requires Valid() && inHand == None && answers != []
      modifies `answers, `inHand
      ensures Valid() && inHand == Some(old(answers)[0]) && answers == old(answers)[1..]
    {
      inHand, answers := Some(answers[0]), answers[1..];
      assert forall r :: Refers(r) ==> old(Refers(r));
    }

    /**
     The dispatch of the packet in hand.  It is acted on exactly when its dial is the
     latest connect-by-name not since closed, aborted or superseded; it leads to a
     connection attempt exactly when, besides, the name resolved; and no dial is ever
     answered twice.
     */
    method Dispatch() returns (outcome: Outcome)
      requires Valid() && inHand.Some?
      modifies `dnsToken, `current, `inHand, `dialed, `attempts
      ensures Valid() && inHand == None
      ensures outcome == Dropped <==> old(current) != Some(old(inHand).value.ref.dial)
      ensures outcome == Dialed <==> old(current) == Some(old(inHand).value.ref.dial) && old(inHand).value.resolved
      ensures outcome == Dialed ==> old(inHand).value.ref.dial !in old(dialed)
      ensures dialed == if outcome == Dialed then old(dialed) + [old(inHand).value.ref.dial] else old(dialed)
      ensures attempts == old(attempts) + |dialed| - |old(dialed)|
      ensures current == if outcome == Dropped then old(current) else None
    {
      var a := inHand.value;
      assert Refers(a.ref);
      if dnsToken == Some(a.ref.token) {
        // _dns_found: the lookup is finished either way.
        dnsToken, current := None, None;
        if a.resolved {
          dialed, attempts := dialed + [a.ref.dial], attempts + 1;
          outcome := Dialed;
        } else {
          outcome := ReportedFailure;
        }
      } else {
        outcome := Dropped;
      }
      inHand := None;
      assert forall r :: Refers(r) ==> old(Refers(r));
    }
  }
}
