/** Circular, doubly linked intrusive lists (`LIST_ENTRY`): a sentinel head, and entries
    whose `flink`/`blink` fields are rewritten in place by the three link primitives. */
module IntrusiveList {
  import opened Collections

  class Entry<T> {
    var flink: Entry<T>
    var blink: Entry<T>
    const value: T

    /** `InitializeListHead`: an unlinked entry points to itself. */
    constructor (v: T)
      ensures value == v && flink == this && blink == this
    {
      value := v;
      flink := this;
      blink := this;
    }
  }

  /** Position `i` on the ring: 0 and |nodes| + 1 are the head. */
  ghost function Ring<T>(head: Entry<T>, nodes: seq<Entry<T>>, i: int): (e: Entry<T>) {
    if 1 <= i <= |nodes| then nodes[i - 1] else head
  }

  /** Ring positions `i` and `i + 1` point at each other. */
  ghost predicate Joined<T>(head: Entry<T>, nodes: seq<Entry<T>>, i: int)
    reads Ring(head, nodes, i), Ring(head, nodes, i + 1)
  {
    && Ring(head, nodes, i).flink == Ring(head, nodes, i + 1)
    && Ring(head, nodes, i + 1).blink == Ring(head, nodes, i)
  }

  class List<T> {
    const head: Entry<T>
    ghost var nodes: seq<Entry<T>>
    ghost var repr: set<Entry<T>>  // every entry that was ever linked here, and the head

    ghost function At(i: int): (e: Entry<T>)
      reads this
    {
      Ring(head, nodes, i)
    }

    ghost predicate Valid()
      reads this, repr
    {
      && head in repr
      && (forall i :: 0 <= i < |nodes| ==> nodes[i] in repr)
      && Distinct(nodes)
      && head !in nodes
      && (forall i :: 0 <= i <= |nodes| ==> Joined(head, nodes, i))
    }

    constructor (v: T)
      ensures Valid() && nodes == [] && fresh(repr) && head.value == v
    {
      head := new Entry(v);
      nodes := [];
      repr := {head};
    }

    /** `RemoveEntryList`. The removed entry keeps its stale links. */
    method Remove(x: Entry<T>, ghost k: nat)
      requires Valid()
      requires k < |nodes| && nodes[k] == x
      modifies `nodes, repr
      ensures Valid()
      ensures nodes == old(nodes)[..k] + old(nodes)[k + 1..]
    {
      ghost var before := nodes;
      assert Joined(head, before, k) && Joined(head, before, k + 1);
      var next, prev := x.flink, x.blink;
      prev.flink := next;
      next.blink := prev;
      nodes := nodes[..k] + nodes[k + 1..];
      forall i | 0 <= i <= |nodes|
        ensures Joined(head, nodes, i)
      {
        assert old(Joined(head, before, if i <= k then i else i + 1));
      }
    }

    /** `InsertTailList(p, x)`: links `x` in front of the list position `p`. */
    method InsertBefore(p: Entry<T>, x: Entry<T>, ghost k: nat)
      requires Valid()
      requires k <= |nodes| && At(k + 1) == p
      requires x !in nodes && x != head
      modifies `nodes, `repr, repr, x
      ensures Valid() && repr == old(repr) + {x}
      ensures nodes == old(nodes)[..k] + [x] + old(nodes)[k..]
    {
      ghost var before := nodes;
      assert Joined(head, before, k);
      var prev := p.blink;
      x.flink := p;
      x.blink := prev;
      prev.flink := x;
      p.blink := x;
      nodes := nodes[..k] + [x] + nodes[k..];
      repr := repr + {x};
      forall i | 0 <= i <= |nodes|
        ensures Joined(head, nodes, i)
      {
        assert old(Joined(head, before, if i <= k then i else i - 1));
      }
    }

    /** `InsertHeadList(head, x)`: links `x` right after the head. */
    method InsertHead(x: Entry<T>)
      requires Valid()
      requires x !in nodes && x != head
      modifies `nodes, `repr, repr, x
      ensures Valid() && repr == old(repr) + {x}
      ensures nodes == [x] + old(nodes)
    {
      assert Joined(head, nodes, 0);
      var first := head.flink;
      InsertBefore(first, x, 0);
    }

    /** `Flink` of the head: the first entry, or the head itself if there is none. */
    method First() returns (e: Entry<T>)
      requires Valid()
      ensures e == if nodes == [] then head else nodes[0]
      ensures e == head <==> nodes == []
    {
      assert Joined(head, nodes, 0);
      e := head.flink;
    }

    /** `InsertTailList(head, x)`. */
    method InsertTail(x: Entry<T>)
      requires Valid()
      requires x !in nodes && x != head
      modifies `nodes, `repr, repr, x
      ensures Valid() && repr == old(repr) + {x}
      ensures nodes == old(nodes) + [x]
    {
      InsertBefore(head, x, |nodes|);
    }

    /** `RemoveHeadList`. */
    method RemoveHead() returns (e: Entry<T>)
      requires Valid() && nodes != []
      modifies `nodes, repr
      ensures Valid()
      ensures e == old(nodes)[0] && nodes == old(nodes)[1..]
    {
      e := First();
      Remove(e, 0);
    }
  }
}
