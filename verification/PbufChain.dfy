/**
 Reference counts of chained pbufs, as lwIP documents them: pbuf_chain takes a reference on
 the chain it appends, and pbuf_free gives pbufs back from the head of a chain up to the
 first one that something else still refers to.
 */
module PbufChain {
  import opened Common

  type RefCount = r: nat | r > 0 witness 1

  /** A pbuf, or a chain delivered as one, with the reference count of its head. */
  datatype Counted<+T> = Counted(pb: T, refs: RefCount)

  /** One pbuf of a chain: its identity and its bytes. */
  datatype Segment = Segment(id: nat, payload: Bytes)

  function Ids(chain: seq<Segment>): (r: seq<nat>)
    ensures |r| == |chain|
  {
    seq(|chain|, i requires 0 <= i < |chain| => chain[i].id)
  }

  function Payloads(chain: seq<Segment>): (r: seq<Bytes>)
    ensures |r| == |chain|
  {
    seq(|chain|, i requires 0 <= i < |chain| => chain[i].payload)
  }

  function Plain<T>(chain: seq<Counted<T>>): (r: seq<T>)
    ensures |r| == |chain|
  {
    seq(|chain|, i requires 0 <= i < |chain| => chain[i].pb)
  }

  /** `pbuf_chain (head, tail)` with a head, or a plain assignment without one. */
  function Chain<T>(head: seq<Counted<T>>, tail: seq<Counted<T>>): (r: seq<Counted<T>>)
    ensures |r| == |head| + |tail|
  {
    if head == [] || tail == [] then head + tail
    else head + [tail[0].(refs := tail[0].refs + 1)] + tail[1..]
  }

  lemma ChainPlain<T>(head: seq<Counted<T>>, tail: seq<Counted<T>>)
    ensures Plain(Chain(head, tail)) == Plain(head) + Plain(tail)
  {
  }

  /** How many elements from the head `pbuf_free` gives back. */
  function Released<T>(chain: seq<Counted<T>>): (n: nat)
    ensures n <= |chain|
  {
    if chain == [] || chain[0].refs > 1 then 0 else 1 + Released(chain[1..])
  }

  /** Everything before position `n` goes, and `n` is the end or the first one still referred to. */
  lemma {:induction false} ReleasedAt<T>(chain: seq<Counted<T>>, n: nat)
    requires n <= |chain|
    ensures n == Released(chain)
       <==> (forall i :: 0 <= i < n ==> chain[i].refs <= 1) && (n < |chain| ==> chain[n].refs > 1)
  {
    if chain != [] && chain[0].refs <= 1 {
      if n > 0 {
        ReleasedAt(chain[1..], n - 1);
        assert forall i :: 0 <= i < n - 1 ==> chain[1..][i] == chain[i + 1];
      }
    }
  }

  /** The walk of `pbuf_free` from the head of a chain. */
  method Walk<T>(chain: seq<Counted<T>>) returns (n: nat)
    ensures n == Released(chain)
  {
    n := 0;
    while n < |chain|
      invariant n <= |chain|
      invariant forall i :: 0 <= i < n ==> chain[i].refs <= 1
    {
      if chain[n].refs > 1 {
        ReleasedAt(chain, n);
        return;
      }
      n := n + 1;
    }
    ReleasedAt(chain, n);
  }

  /** Deliveries appended one by one: the first has the one reference of its owner, the others one more. */
  ghost predicate Appended<T>(chain: seq<Counted<T>>)
  {
    var n := |chain|;
    n == 0 || (chain[n - 1].refs == (if n == 1 then 1 else 2) && Appended(chain[..n - 1]))
  }

  lemma {:induction false} AppendedAt<T>(chain: seq<Counted<T>>, i: nat)
    requires Appended(chain) && i < |chain|
    ensures chain[i].refs == if i == 0 then 1 else 2
  {
    if i < |chain| - 1 {
      AppendedAt(chain[..|chain| - 1], i);
    }
  }

  lemma AppendedGrows<T>(chain: seq<Counted<T>>, pb: T)
    requires Appended(chain)
    ensures Appended(Chain(chain, [Counted(pb, 1)]))
    ensures Plain(Chain(chain, [Counted(pb, 1)])) == Plain(chain) + [pb]
  {
    var grown := Chain(chain, [Counted(pb, 1)]);
    assert grown[..|chain|] == chain;
  }

  /** What freeing an appended chain gives back, and what it leaves with a reference nobody holds. */
  function GivenBack<T>(pbs: seq<T>): seq<T>
  {
    if pbs == [] then [] else [pbs[0]]
  }

  function LeftBehind<T>(pbs: seq<T>): seq<T>
  {
    if pbs == [] then [] else pbs[1..]
  }

  /** Only the first delivery of an appended chain goes back to the pool. */
  lemma AppendedReleases<T>(chain: seq<Counted<T>>)
    requires Appended(chain)
    ensures Plain(chain[..Released(chain)]) == GivenBack(Plain(chain))
    ensures Plain(chain[Released(chain)..]) == LeftBehind(Plain(chain))
  {
    if chain != [] {
      AppendedAt(chain, 0);
      if |chain| > 1 {
        AppendedAt(chain, 1);
      }
      ReleasedAt(chain, 1);
    }
  }
}
