/** The lock-free queue in the hands of one thread, as a heap structure over its pool. */
module SequentialQueue {

  import opened Freelist

  /** 2^64, the number of tags. */
  const TAGS: nat := 0x1_0000_0000_0000_0000

  function NextTag(tag: nat): nat {
    (tag + 1) % TAGS
  }

  /** Each node but the last points to the one after it. */
  ghost predicate Row<T(0)>(nodes: seq<Node<T>>)
    reads nodes`next
  {
    && nodes != []
    && (forall i {:trigger Succ(nodes, i)} | 0 <= i < |nodes| :: nodes[i].next.ptr == Succ(nodes, i))
    && (forall i, j | 0 <= i < j < |nodes| :: nodes[i] != nodes[j])
  }

  ghost function SetOf<T(0)>(nodes: seq<Node<T>>): set<Node<T>> {
    set n | n in nodes
  }

  lemma InSet<T(0)>(nodes: seq<Node<T>>)
    ensures forall m :: m in SetOf(nodes) <==> m in nodes
  {
  }

  lemma SetOne<T(0)>(n: Node<T>)
    ensures SetOf([n]) == {n}
  {
  }

  lemma SetAdd<T(0)>(nodes: seq<Node<T>>, n: Node<T>)
    ensures SetOf(nodes + [n]) == SetOf(nodes) + {n}
    ensures forall m :: m in SetOf(nodes) <==> m in nodes
  {
  }

  /** The queued values are those of the nodes after the first, the dummy. */
  ghost predicate Holds<T(0)>(nodes: seq<Node<T>>, contents: seq<T>)
    reads nodes`data
  {
    && |nodes| == |contents| + 1
    && forall i | 1 <= i < |nodes| :: nodes[i].data == contents[i - 1]
  }

  lemma RowAt<T(0)>(nodes: seq<Node<T>>, i: nat)
    requires i < |nodes| && Row(nodes)
    ensures nodes[i].next.ptr == if i + 1 < |nodes| then nodes[i + 1] else null
    ensures i + 1 < |nodes| ==> nodes[i] != nodes[i + 1]
  {
    assert Succ(nodes, i) == if i + 1 < |nodes| then nodes[i + 1] else null;
  }

  lemma RowFacts<T(0)>(nodes: seq<Node<T>>, contents: seq<T>)
    requires Row(nodes) && Holds(nodes, contents)
    ensures |nodes| == |contents| + 1 && (|nodes| > 1 ==> nodes[1].data == contents[0])
    ensures forall i, j | 0 <= i < j < |nodes| :: nodes[i] != nodes[j]
  {
  }

  lemma RowDrop<T(0)>(nodes: seq<Node<T>>, contents: seq<T>)
    requires |nodes| > 1 && Row(nodes) && Holds(nodes, contents)
    ensures Row(nodes[1..]) && Holds(nodes[1..], contents[1..])
    ensures nodes[0] !in nodes[1..] && nodes[1].data == contents[0]
    ensures SetOf(nodes[1..]) == SetOf(nodes) - {nodes[0]}
  {
    var rest := nodes[1..];
    forall i | 0 <= i < |rest| ensures rest[i].next.ptr == Succ(rest, i) { RowAt(nodes, i + 1); }
    assert nodes == [nodes[0]] + rest;
  }

  class Queue<T(0)> {
    var head: Tagged<T>
    var tail: Tagged<T>
    const pool: Freelist<T>
    ghost var nodes: seq<Node<T>>
    ghost var lag: nat
    ghost var contents: seq<T>

    /** The nodes in use are those from the head on; the tail is the last or the one
        before it. */
    ghost predicate Valid()
      reads this, pool, pool.free`link, nodes`next, nodes`data
    {
      InUse({})
    }

    ghost predicate InUse(extra: set<Node<T>>)
      reads this, pool, pool.free`link, nodes`next, nodes`data
    {
      && Row(nodes) && Holds(nodes, contents) && head.ptr == nodes[0]
      && lag <= 1 && lag < |nodes| && tail.ptr == nodes[|nodes| - 1 - lag]
      && pool.Valid() && pool.Complete() && pool.out == SetOf(nodes) + extra
    }

    constructor (maxSize: nat)
      ensures Valid() && contents == [] && lag == 0 && pool.maxSize == maxSize
    {
      pool := new Freelist(maxSize);
      new;
      Initialize();
    }

    /** initialize: a dummy node. */
    method Initialize()
      requires pool.Valid() && pool.Complete() && pool.out == {}
      modifies this, pool, SetOf(pool.free)`next
      ensures Valid() && contents == [] && lag == 0
    {
      hide Chain, SetOf;
      InSet(pool.free);
      var n := pool.Allocate();
      n.next := Tagged(null, 0);
      head, tail := Tagged(n, 0), Tagged(n, 0);
      nodes, lag, contents := [n], 0, [];
      assert Succ(nodes, 0) == null;
      SetOne(n);
    }

    method CasTail(expected: Tagged<T>, desired: Tagged<T>) returns (ok: bool)
      modifies this`tail
      ensures ok <==> old(tail) == expected
      ensures tail == if ok then desired else old(tail)
    {
      ok := tail == expected;
      if ok { tail := desired; }
    }

    method CasHead(expected: Tagged<T>, desired: Tagged<T>) returns (ok: bool)
      modifies this`head
      ensures ok <==> old(head) == expected
      ensures head == if ok then desired else old(head)
    {
      ok := head == expected;
      if ok { head := desired; }
    }

    method CasNext(n: Node<T>, expected: Tagged<T>, desired: Tagged<T>) returns (ok: bool)
      modifies n`next
      ensures ok <==> old(n.next) == expected
      ensures n.next == if ok then desired else old(n.next)
    {
      ok := n.next == expected;
      if ok { n.next := desired; }
    }
  
    /** Helping: the tail is moved on to the last node. */
    method Help(ghost extra: set<Node<T>>, t: Tagged<T>, next: Tagged<T>)
      requires InUse(extra) && t == tail && lag == 1 && next.ptr == nodes[|nodes| - 1]
      modifies this`tail, this`lag
      ensures InUse(extra) && lag == 0
    {
      hide Row, Holds, Chain, SetOf;
      var done := CasTail(t, Tagged(next.ptr, NextTag(t.tag)));
      lag := 0;
    }

    /** The first node goes back to the pool. */
    method ReturnFirst(n: Node<T>)
      requires |nodes| > 1 && n == nodes[0] && Row(nodes) && Holds(nodes, contents)
      requires pool.Valid() && pool.Complete() && pool.out == SetOf(nodes)
      modifies this`nodes, this`contents, pool, n`link
      ensures |old(contents)| > 0 && nodes == old(nodes)[1..] && contents == old(contents)[1..]
      ensures Row(nodes) && Holds(nodes, contents)
      ensures pool.Valid() && pool.Complete() && pool.out == SetOf(nodes)
    {
      hide Row, Holds, Chain, SetOf;
      RowFacts(nodes, contents);
      RowDrop(nodes, contents);
      InSet(nodes);
      nodes, contents := nodes[1..], contents[1..];
      pool.Deallocate(n);
    }

    /** The old dummy goes back, after the head was moved to the next node. */
    method DropDummy(n: Node<T>)
      requires |nodes| > 1 && n == nodes[0] && head.ptr == nodes[1] && Row(nodes) && Holds(nodes, contents)
      requires lag <= 1 && lag < |nodes| - 1 && tail.ptr == nodes[|nodes| - 1 - lag]
      requires pool.Valid() && pool.Complete() && pool.out == SetOf(nodes)
      modifies this`nodes, this`contents, pool, n`link
      ensures Valid() && |old(contents)| > 0 && contents == old(contents)[1..] && lag == old(lag)
    {
      hide Row, Holds, Chain, SetOf;
      ReturnFirst(n);
    }

    /** try_dequeue. With the tail behind and in the way, the first turn of the loop helps
        it on. */
    method TryDequeue() returns (ok: bool, value: T)
      requires Valid()
      modifies this, pool, SetOf(nodes)`link
      ensures Valid() && (ok <==> old(contents) != [])
      ensures ok ==> value == old(contents)[0] && contents == old(contents)[1..]
      ensures !ok ==> contents == old(contents)
      ensures lag <= old(lag)
    {
      hide Row, Holds, Chain;
      ok := false;
      value := *;
      while true
        invariant Valid() && nodes == old(nodes) && contents == old(contents) && lag <= old(lag)
        invariant unchanged(pool)
        decreases lag
      {
        var h, t := head, tail;
        var next := h.ptr.next;
        RowAt(nodes, 0);
        RowFacts(nodes, contents);
        if h == head {
          if h.ptr == t.ptr {
            if next.ptr == null { return; }
            Help({}, t, next);
          } else {
            value := next.ptr.data;
            var done := CasHead(h, Tagged(next.ptr, NextTag(h.tag)));
            if done {
              DropDummy(h.ptr);
              ok := true;
              return;
            }
          }
        }
      }
    }
  
    /** The last node gets a successor. */
    method Link(last: Node<T>, next: Tagged<T>, n: Node<T>) returns (done: bool)
      requires Row(nodes) && Holds(nodes, contents) && last == nodes[|nodes| - 1] && last.next == next
      requires n !in nodes && n.next.ptr == null
      modifies last`next
      ensures done && last.next.ptr == n
      ensures Row(nodes + [n]) && Holds(nodes + [n], contents + [n.data])
    {
      RowAt(nodes, |nodes| - 1);
      ghost var longer := nodes + [n];
      forall i | 0 <= i < |nodes| - 1 ensures nodes[i].next.ptr == longer[i + 1] { RowAt(nodes, i); }
      done := CasNext(last, next, Tagged(n, NextTag(next.tag)));
      forall i | 0 <= i < |longer| ensures longer[i].next.ptr == Succ(longer, i) {
        if i < |nodes| - 1 { assert longer[i] == nodes[i] != last; }
      }
    }

    /** A node of the pool that holds value. */
    method MakeNode(value: T) returns (n: Node<T>)
      requires Valid()
      modifies pool, SetOf(pool.free)`next, SetOf(pool.free)`data
      ensures InUse({n}) && n !in nodes && n.next == Tagged(null, 0) && n.data == value
    {
      hide Row, Holds, Chain;
      n := pool.Allocate();
      n.next := Tagged(null, 0);
      n.data := value;
    }

    /** n becomes the last node, and the tail is moved to it. */
    method LinkAndSwing(t: Tagged<T>, next: Tagged<T>, n: Node<T>) returns (done: bool)
      requires InUse({n}) && n !in nodes && n.next.ptr == null
      requires t == tail && lag == 0 && t.ptr.next == next
      modifies this`tail, this`nodes, this`contents, SetOf(nodes)`next
      ensures done && Valid() && contents == old(contents) + [n.data]
    {
      hide Row, Holds, Chain, SetOf;
      SetAdd(nodes, n);
      done := Link(t.ptr, next, n);
      if done {
        var swung := CasTail(t, Tagged(n, NextTag(tail.tag)));
        nodes, contents := nodes + [n], contents + [n.data];
      }
    }

    /** enqueue(node*). With the tail behind, the first turn of the loop helps it on. */
    method EnqueueNode(n: Node<T>)
      requires InUse({n}) && n !in nodes && n.next.ptr == null
      modifies this`tail, this`lag, this`nodes, this`contents, SetOf(nodes)`next
      ensures Valid() && contents == old(contents) + [n.data] && lag == 0
    {
      hide Row, Holds, Chain, SetOf;
      while true
        invariant InUse({n}) && n !in nodes && n.next.ptr == null
        invariant nodes == old(nodes) && contents == old(contents)
        decreases lag
      {
        var t := tail;
        var next := t.ptr.next;
        SetAdd(nodes, n);
        RowAt(nodes, |nodes| - 1 - lag);
        if t == tail {
          if next.ptr == null {
            var done := LinkAndSwing(t, next, n);
            if done { return; }
          } else {
            Help({n}, t, next);
          }
        }
      }
    }

    /** enqueue(value). */
    method Enqueue(value: T)
      requires Valid()
      modifies this, pool, SetOf(nodes)`next
      modifies SetOf(pool.free)`next, SetOf(pool.free)`data
      ensures Valid() && contents == old(contents) + [value] && lag == 0
    {
      hide Row, Holds, Chain;
      var n := MakeNode(value);
      EnqueueNode(n);
    }

    /** empty. With the tail behind it may call a queue of one element empty. */
    method Empty() returns (r: bool)
      requires Valid()
      ensures r <==> |contents| == lag
    {
      hide Row, Holds, Chain;
      RowFacts(nodes, contents);
      r := tail.ptr == head.ptr;
    }

    /** The destructor: every node goes back to the pool, whose destructor then finds them
        all. */
    method Destroy() returns (returned: seq<Node<T>>)
      requires lag == 0 && Valid()
      modifies this, pool, SetOf(nodes)`link
      ensures |returned| == pool.maxSize
    {
      hide Row, Holds, Chain;
      RowFacts(nodes, contents);
      var h := head;
      while h.ptr != tail.ptr
        invariant Row(nodes) && Holds(nodes, contents) && |nodes| == |contents| + 1
        invariant h.ptr == nodes[0] && tail.ptr == nodes[|nodes| - 1]
        invariant pool.Valid() && pool.Complete() && pool.out == SetOf(nodes)
        invariant forall n <- nodes :: n in old(nodes)
        decreases |nodes|
      {
        RowAt(nodes, 0);
        RowFacts(nodes, contents);
        assert nodes[|nodes| - 1] != nodes[0];
        var n := h.ptr;
        h := h.ptr.next;
        ReturnFirst(n);
        RowFacts(nodes, contents);
      }
      RowFacts(nodes, contents);
      pool.Deallocate(tail.ptr);
      returned := pool.Destroy();
    }
  }
}
