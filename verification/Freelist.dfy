/** The pool of nodes of the lock-free queue, used by one thread at a time. */
module Freelist {

  /** A pointer with the count of its changes. */
  datatype Tagged<T(0)> = Tagged(ptr: Node?<T>, tag: nat)

  /** A queue node. `link` is what the freelist keeps in the memory of a free node. */
  class Node<T(0)> {
    var next: Tagged<T>
    var data: T
    var link: Node?<T>

    constructor ()
    {
      next, link := Tagged(null, 0), null;
    }
  }

  function Succ<T(0)>(list: seq<Node<T>>, i: int): Node?<T> {
    if 0 <= i + 1 < |list| then list[i + 1] else null
  }

  /** The list that starts at head. */
  ghost predicate Chain<T(0)>(head: Node?<T>, list: seq<Node<T>>)
    reads list`link
  {
    && head == Succ(list, -1)
    && (forall i {:trigger Succ(list, i)} | 0 <= i < |list| :: list[i].link == Succ(list, i))
    && (forall i, j | 0 <= i < j < |list| :: list[i] != list[j])
  }

  lemma ChainFirst<T(0)>(head: Node?<T>, list: seq<Node<T>>)
    requires Chain(head, list)
    ensures list != [] <==> head != null
    ensures list != [] ==> head == list[0] && head !in list[1..] && Chain(head.link, list[1..])
  {
    if list != [] {
      var rest := list[1..];
      assert list[0].link == Succ(list, 0);
      forall i | 0 <= i < |rest| ensures rest[i].link == Succ(rest, i) {
        assert list[i + 1].link == Succ(list, i + 1);
      }
    }
  }

  lemma ChainPush<T(0)>(n: Node<T>, list: seq<Node<T>>)
    requires n !in list && Chain(n.link, list)
    ensures Chain(n, [n] + list)
  {
    var longer := [n] + list;
    assert Succ(longer, 0) == Succ(list, -1);
    forall i | 0 <= i < |longer| ensures longer[i].link == Succ(longer, i) {
      if i > 0 { assert list[i - 1].link == Succ(list, i - 1); }
    }
  }

  class Freelist<T(0)> {
    const maxSize: nat
    var head: Node?<T>
    var size: nat
    ghost var free: seq<Node<T>>
    ghost var out: set<Node<T>>

    /** The free nodes are on the list, the allocated ones are not. */
    ghost predicate Valid()
      reads this, free`link
    {
      && Chain(head, free) && size == |free| <= maxSize
      && (forall n <- free :: n !in out)
    }

    /** No node is missing. */
    ghost predicate Complete()
      reads this
    {
      size + |out| >= maxSize
    }

    constructor (maxSize: nat)
      ensures Valid() && Complete() && this.maxSize == maxSize && size == maxSize && out == {} && fresh(free)
    {
      this.maxSize, head, size, free, out := maxSize, null, 0, [], {};
      new;
      for i := 0 to maxSize
        invariant Valid() && size == i && out == {} && fresh(free)
      {
        var n := new Node<T>();
        out := {n};
        Deallocate(n);
      }
    }

    /** The compare-and-swap of the list's head, which fails only when head has changed. */
    method CasHead(expected: Node?<T>, desired: Node?<T>) returns (ok: bool, seen: Node?<T>)
      modifies this`head
      ensures ok <==> old(head) == expected
      ensures head == if ok then desired else old(head)
      ensures seen == old(head)
    {
      seen := head;
      ok := head == expected;
      if ok { head := desired; }
    }

    method Allocate() returns (n: Node<T>)
      requires Valid()
      modifies this`head, this`size, this`free, this`out
      ensures Valid() && n !in old(out) && out == old(out) + {n}
      ensures if old(free) == [] then fresh(n) && free == [] else [n] + free == old(free)
      ensures old(Complete()) ==> Complete()
    {
      hide Chain;
      ChainFirst(head, free);
      var h := head;
      if h == null {
        n := new Node<T>();
        out := out + {n};
        return;
      }
      var ok := false;
      while !ok
        invariant free == old(free) && size == old(size) && out == old(out)
        invariant h == old(head) && head == if ok then h.link else h
        decreases !ok
      {
        ok, h := CasHead(h, h.link);
      }
      size := size - 1;
      n := h;
      free := free[1..];
      out := out + {n};
    }

    method Deallocate(n: Node<T>)
      requires n in out && Valid()
      modifies this`head, this`size, this`free, this`out, n`link
      ensures Valid() && out == old(out) - {n}
      ensures free == if old(size) == maxSize then old(free) else [n] + old(free)
      ensures old(Complete()) ==> Complete()
    {
      hide Chain;
      if size == maxSize {
        out := out - {n};
        return;
      }
      n.link := head;
      var ok := false;
      while !ok
        invariant free == old(free) && size == old(size) && out == old(out)
        invariant n.link == old(head) && head == if ok then n else n.link
        decreases !ok
      {
        ok, n.link := CasHead(n.link, n);
      }
      size := size + 1;
      ChainPush(n, free);
      free := [n] + free;
      out := out - {n};
    }

    /** The destructor, which asserts that all nodes are back. It returns each of them once. */
    method Destroy() returns (returned: seq<Node<T>>)
      requires out == {} && Complete() && Valid()
      ensures returned == free && |returned| == maxSize
    {
      hide Chain;
      returned := [];
      if maxSize == 0 { return; }
      assert size == maxSize;
      var h := head;
      ChainFirst(head, free);
      assert h != null;
      while h != null
        invariant |returned| <= |free| && returned == free[..|returned|]
        invariant Chain(h, free[|returned|..])
        decreases |free| - |returned|
      {
        ChainFirst(h, free[|returned|..]);
        var n := h;
        h := h.link;
        returned := returned + [n];
        assert free[|returned| - 1..][1..] == free[|returned|..];
      }
      ChainFirst(h, free[|returned|..]);
    }
  }
}
