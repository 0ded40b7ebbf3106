/**
 The singly linked intrusive list of AsyncTCPSimpleIntrusiveList.h.

 The C++ tail is a pointer to a pointer: it addresses either the list's own
 head field or the next field of the last node.  Both cases are the two
 constructors of Link, and every method moves links the way the source does.
 */
module IntrusiveList {
  import opened Common

  class Node<T> {
    const item: T
    var next: Node?<T>

    constructor (item: T)
      ensures this.item == item && next == null
    {
      this.item := item;
      next := null;
    }
  }

  /** A `T **`: the address of the head field, or of a node's next field. */
  datatype Link<T> = HeadField | NextField(node: Node<T>)

  /** `start` leads through exactly the nodes `ns`, in order, to null. */
  ghost predicate Chain<T>(start: Node?<T>, ns: seq<Node<T>>)
    reads ns
  {
    && (ns == [] ==> start == null)
    && (ns != [] ==> start == ns[0] && ns[|ns| - 1].next == null)
    && (forall i {:trigger ns[i].next} :: 0 <= i < |ns| - 1 ==> ns[i].next == ns[i + 1])
    && Distinct(ns)
  }

  /** The link a new last node must be written through. */
  ghost function EndLink<T>(ns: seq<Node<T>>): Link<T>
  {
    if ns == [] then HeadField else NextField(ns[|ns| - 1])
  }

  ghost function ItemsOf<T>(ns: seq<Node<T>>): (items: seq<T>)
    ensures |items| == |ns|
  {
    seq(|ns|, i requires 0 <= i < |ns| => ns[i].item)
  }

  ghost function Keep<T>(ns: seq<Node<T>>, p: T -> bool): (r: seq<Node<T>>)
  {
    Filter(ns, (n: Node<T>) => p(n.item))
  }

  /** Filtering nodes and then looking at their items filters the items. */
  lemma {:induction false} KeepItems<T>(ns: seq<Node<T>>, p: T -> bool)
    ensures ItemsOf(Keep(ns, p)) == Filter(ItemsOf(ns), p)
  {
    if ns == [] {
    } else {
      KeepItems(ns[1..], p);
      assert ItemsOf(ns)[1..] == ItemsOf(ns[1..]);
      var f := (n: Node<T>) => p(n.item);
      if p(ns[0].item) {
        assert ItemsOf(Keep(ns, p)) == [ns[0].item] + ItemsOf(Keep(ns[1..], p));
      }
    }
  }

  lemma {:induction false} KeepSnoc<T>(ns: seq<Node<T>>, n: Node<T>, p: T -> bool)
    ensures Keep(ns + [n], p) == if p(n.item) then Keep(ns, p) + [n] else Keep(ns, p)
  {
    var f := (m: Node<T>) => p(m.item);
    FilterConcat(ns, [n], f);
    assert Filter([n], f) == if p(n.item) then [n] else [];
    assert Keep(ns, p) + [] == Keep(ns, p);
  }

  lemma {:induction false} ReverseSnoc<T>(s: seq<T>, x: T)
    ensures Reverse(s + [x]) == [x] + Reverse(s)
  {
    if s == [] {
    } else {
      assert (s + [x])[1..] == s[1..] + [x];
      ReverseSnoc(s[1..], x);
    }
  }

  /** `list_size` of a null-terminated chain. */
  method ListSize<T>(chain: Node?<T>, ghost ns: seq<Node<T>>) returns (count: nat)
    requires Chain(chain, ns)
    ensures count == |ns|
  {
    count := 0;
    var c := chain;
    while c != null
      invariant 0 <= count <= |ns|
      invariant c == if count < |ns| then ns[count] else null
      decreases |ns| - count
    {
      count := count + 1;
      c := c.next;
    }
  }

  /** `delete_list`: every node of the chain is deleted, once, after its successor has been read. */
  method DeleteList<T>(chain: Node?<T>, ghost ns: seq<Node<T>>) returns (ghost deleted: seq<Node<T>>)
    requires Chain(chain, ns)
    ensures deleted == ns
  {
    deleted := [];
    var c := chain;
    while c != null
      invariant |deleted| <= |ns| && deleted == ns[..|deleted|]
      invariant c == if |deleted| < |ns| then ns[|deleted|] else null
      decreases |ns| - |deleted|
    {
      var t: Node<T> := c;
      c := c.next;
      deleted := deleted + [t];  // delete t
    }
  }

  function Not<T>(p: T -> bool): T -> bool
  {
    x => !p(x)
  }

  /** A pass over `all` has reached `rest`, having sorted what came before into kept and gone. */
  ghost predicate Sorted<T>(all: seq<Node<T>>, rest: seq<Node<T>>, kept: seq<Node<T>>, gone: seq<Node<T>>,
                            condition: T -> bool)
  {
    && |rest| <= |all|
    && rest == all[|all| - |rest|..]
    && kept == Keep(all[..|all| - |rest|], Not(condition))
    && gone == Reverse(Keep(all[..|all| - |rest|], condition))
    && (forall n :: n in kept + rest ==> n in all)
  }

  lemma SortedStep<T>(all: seq<Node<T>>, rest: seq<Node<T>>, kept: seq<Node<T>>, gone: seq<Node<T>>,
                      condition: T -> bool)
    requires Sorted(all, rest, kept, gone, condition) && rest != []
    ensures rest[0] in all && forall n :: n in kept ==> n in all
    ensures condition(rest[0].item) ==> Sorted(all, rest[1..], kept, [rest[0]] + gone, condition)
    ensures !condition(rest[0].item) ==> Sorted(all, rest[1..], kept + [rest[0]], gone, condition)
  {
    var done := |all| - |rest|;
    assert all[..done + 1] == all[..done] + [rest[0]];
    KeepSnoc(all[..done], rest[0], Not(condition));
    KeepSnoc(all[..done], rest[0], condition);
    ReverseSnoc(Keep(all[..done], condition), rest[0]);
    assert forall n :: n in kept ==> n in kept + rest;
    assert rest[0] == all[done];
  }

  lemma SortedDone<T>(all: seq<Node<T>>, kept: seq<Node<T>>, gone: seq<Node<T>>,
                      condition: T -> bool)
    requires Sorted(all, [], kept, gone, condition)
    ensures kept == Keep(all, Not(condition)) && gone == Reverse(Keep(all, condition))
  {
    assert all[..|all|] == all;
  }

  class SimpleIntrusiveList<T> {
    var head: Node?<T>
    var tail: Link<T>
    var size: nat
    ghost var Nodes: seq<Node<T>>

    ghost predicate Valid()
      reads this, Nodes
    {
      && Chain(head, Nodes)
      && tail == EndLink(Nodes)
      && size == |Nodes|
    }

    ghost function Items(): seq<T>
      reads this
    {
      ItemsOf(Nodes)
    }

    constructor ()
      ensures Valid() && Nodes == []
    {
      head, tail, size := null, HeadField, 0;
      Nodes := [];
    }

    /** Appends a node whose own next field is null, as freshly built packets are. */
    method PushBack(obj: Node<T>)
      requires Valid()
      requires obj !in Nodes && obj.next == null
      modifies this, Nodes
      ensures Valid()
      ensures Nodes == old(Nodes) + [obj]
      ensures Items() == old(Items()) + [obj.item]
    {
      match tail {
        case HeadField => head := obj;
        case NextField(last) => last.next := obj;
      }
      tail := NextField(obj);
      size := size + 1;
      Nodes := Nodes + [obj];
    }

    method PushFront(obj: Node<T>)
      requires Valid()
      requires obj !in Nodes
      modifies this, obj
      ensures Valid()
      ensures Nodes == [obj] + old(Nodes)
      ensures Items() == [obj.item] + old(Items())
    {
      if head == null {
        tail := NextField(obj);
      }
      obj.next := head;
      head := obj;
      size := size + 1;
      Nodes := [obj] + Nodes;
    }

    /** Unlinks the first node; like the source it leaves that node's next field alone. */
    method PopFront() returns (rv: Node?<T>)
      requires Valid()
      modifies this
      ensures Valid()
      ensures old(Nodes) == [] ==> rv == null && Nodes == []
      ensures old(Nodes) != [] ==> rv == old(Nodes)[0] && Nodes == old(Nodes)[1..]
      ensures old(Nodes) != [] ==> rv.item == old(Items())[0] && Items() == old(Items())[1..]
    {
      rv := head;
      if head != null {
        if tail == NextField(head) {
          tail := HeadField;
          assert |Nodes| == 1;
        }
        head := head.next;
        size := size - 1;
        Nodes := Nodes[1..];
      }
    }

    /** Deletes every node, from the head, and starts over. */
    method Clear() returns (ghost deleted: seq<Node<T>>)
      requires Valid()
      modifies this
      ensures Valid() && Nodes == [] && Items() == []
      ensures deleted == old(Nodes)
    {
      deleted := DeleteList(head, Nodes);
      head, tail, size := null, HeadField, 0;
      Nodes := [];
    }

    /**
     The middle of a `remove_if` pass: nodes already kept, nodes not yet visited and the
     chain of removed nodes, with the cursor on the link that leads to the next visit.
     */
    ghost predicate InPass(kept: seq<Node<T>>, rest: seq<Node<T>>, gone: seq<Node<T>>, currentPtr: Link<T>, removed: Node?<T>)
      reads this, kept, rest, gone
    {
      && Distinct(kept)
      && (forall n :: n in kept ==> n !in rest && n !in gone)
      && (forall n :: n in rest ==> n !in gone)
      && currentPtr == EndLink(kept)
      && (forall i {:trigger kept[i].next} :: 0 <= i < |kept| - 1 ==> kept[i].next == kept[i + 1])
      && (kept != [] ==> head == kept[0] && kept[|kept| - 1].next == First(rest))
      && (kept == [] ==> head == First(rest))
      && Chain(First(rest), rest)
      && Chain(removed, gone)
      && tail == (if rest == [] then EndLink(kept) else EndLink(rest))
      && size == |kept| + |rest|
    }

    static ghost function First(ns: seq<Node<T>>): Node?<T>
    {
      if ns == [] then null else ns[0]
    }

    /** The cursor sits on the link that leads to the first unvisited node. */
    lemma CursorAtRest(kept: seq<Node<T>>, rest: seq<Node<T>>, gone: seq<Node<T>>, currentPtr: Link<T>, removed: Node?<T>)
      requires InPass(kept, rest, gone, currentPtr, removed)
      ensures Deref(currentPtr) == First(rest)
    {
    }

    /** The keeping branch of `remove_if` only moves the cursor. */
    lemma Advance(kept: seq<Node<T>>, rest: seq<Node<T>>, gone: seq<Node<T>>, currentPtr: Link<T>, removed: Node?<T>)
      requires InPass(kept, rest, gone, currentPtr, removed)
      requires rest != []
      ensures InPass(kept + [rest[0]], rest[1..], gone, NextField(rest[0]), removed)
    {
      assert rest[0] in rest && rest[0] !in rest[1..];
      assert forall n :: n in rest[1..] ==> n in rest;
    }

    /** The removal branch of `remove_if`. */
    method Unlink(currentPtr: Link<T>, current: Node<T>, removed: Node?<T>,
                  ghost kept: seq<Node<T>>, ghost rest: seq<Node<T>>, ghost gone: seq<Node<T>>)
      requires InPass(kept, rest, gone, currentPtr, removed)
      requires rest != [] && current == rest[0]
      requires current in Nodes && forall n :: n in kept ==> n in Nodes
      modifies this, Nodes
      ensures Nodes == old(Nodes)
      ensures InPass(kept, rest[1..], [current] + gone, currentPtr, current)
    {
      assert current in rest;
      assert current !in rest[1..];
      // Remove this item from the list by moving the next item in.
      match currentPtr {
        case HeadField => head := current.next;
        case NextField(node) =>
          assert node in kept;
          node.next := current.next;
      }
      // If it was the last item, the tail falls back to the link just rewritten.
      if current.next == null {
        tail := currentPtr;
      }
      size := size - 1;
      // Prepend the item to the removed chain.
      current.next := removed;
      assert Chain(First(rest[1..]), rest[1..]);
      assert Chain(current, [current] + gone);
    }

    /** One turn of the `remove_if` loop: drop the visited node, or move past it. */
    method Visit(condition: T -> bool, current: Node<T>, currentPtr: Link<T>, removed: Node?<T>,
                 ghost kept: seq<Node<T>>, ghost rest: seq<Node<T>>, ghost gone: seq<Node<T>>)
      returns (nextPtr: Link<T>, chain: Node?<T>, ghost kept': seq<Node<T>>, ghost gone': seq<Node<T>>)
      requires InPass(kept, rest, gone, currentPtr, removed)
      requires rest != [] && current == rest[0]
      requires Sorted(Nodes, rest, kept, gone, condition)
      modifies this, Nodes
      ensures Nodes == old(Nodes)
      ensures InPass(kept', rest[1..], gone', nextPtr, chain)
      ensures Sorted(Nodes, rest[1..], kept', gone', condition)
    {
      SortedStep(Nodes, rest, kept, gone, condition);
      if condition(current.item) {
        Unlink(currentPtr, current, removed, kept, rest, gone);
        nextPtr, chain, kept', gone' := currentPtr, current, kept, [current] + gone;
      } else {
        Advance(kept, rest, gone, currentPtr, removed);
        nextPtr, chain, kept', gone' := NextField(current), removed, kept + [current], gone;
      }
    }

    /** The cursor has reached null: the kept nodes are the list. */
    ghost method FinishPass(condition: T -> bool, currentPtr: Link<T>, removed: Node?<T>,
                            kept: seq<Node<T>>, rest: seq<Node<T>>, gone: seq<Node<T>>)
      requires InPass(kept, rest, gone, currentPtr, removed)
      requires Sorted(Nodes, rest, kept, gone, condition)
      requires Deref(currentPtr) == null
      modifies `Nodes
      ensures Valid()
      ensures Nodes == Keep(old(Nodes), Not(condition))
      ensures Items() == Filter(old(Items()), Not(condition))
      ensures Chain(removed, Reverse(Keep(old(Nodes), condition)))
    {
      CursorAtRest(kept, rest, gone, currentPtr, removed);
      SortedDone(Nodes, kept, gone, condition);
      KeepItems(Nodes, Not(condition));
      Nodes := kept;
    }

    /** The pass starts with everything unvisited. */
    lemma StartPass(condition: T -> bool)
      requires Valid()
      ensures InPass([], Nodes, [], HeadField, null)
      ensures Sorted(Nodes, Nodes, [], [], condition)
      ensures Deref(HeadField) == First(Nodes)
    {
      assert Nodes[..0] == [];
    }

    /**
     Unlinks every node satisfying the condition through a moving `T **`, in one pass.
     What stays is the order-preserving filter; what was removed comes back as a
     chain in exactly reversed order.
     */
    method RemoveIf(condition: T -> bool) returns (removed: Node?<T>)
      requires Valid()
      modifies this, Nodes
      ensures Valid()
      ensures Nodes == Keep(old(Nodes), Not(condition))
      ensures Items() == Filter(old(Items()), Not(condition))
      ensures Chain(removed, Reverse(Keep(old(Nodes), condition)))
    {
      removed := null;
      var currentPtr: Link<T> := HeadField;
      ghost var rest, kept, gone := Nodes, [], [];
      StartPass(condition);
      while Deref(currentPtr) != null
        invariant Nodes == old(Nodes)
        invariant Sorted(Nodes, rest, kept, gone, condition)
        invariant InPass(kept, rest, gone, currentPtr, removed)
        decreases |rest|
      {
        CursorAtRest(kept, rest, gone, currentPtr, removed);
        currentPtr, removed, kept, gone := Visit(condition, Deref(currentPtr), currentPtr, removed, kept, rest, gone);
        rest := rest[1..];
      }
      FinishPass(condition, currentPtr, removed, kept, rest, gone);
    }

    function Deref(link: Link<T>): Node?<T>
      reads this, (match link case HeadField => {} case NextField(n) => {n})
    {
      match link
      case HeadField => head
      case NextField(n) => n.next
    }

    /** `validate_tail`: walks to the last node and compares its next field's address with the tail. */
    method ValidateTail() returns (ok: bool)
      requires Chain(head, Nodes)
      ensures ok <==> tail == EndLink(Nodes)
    {
      if head == null {
        return tail == HeadField;
      }
      var p: Node<T> := head;
      ghost var i := 0;
      while p.next != null
        invariant 0 <= i < |Nodes| && p == Nodes[i]
        decreases |Nodes| - i
      {
        p := p.next;
        i := i + 1;
      }
      ok := tail == NextField(p);
    }
  }
}
