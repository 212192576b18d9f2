/** The Michael-Scott queue of cyan::lockfree as a transition system.

    Any number of threads share `head_`, `tail_` and the nodes.  Every atomic
    load, every compare-exchange and the one plain read of a node's data is a
    step of its own, and the steps of different threads interleave freely.
    Memory is sequentially consistent and an allocation never returns the
    address of an earlier node. */
module LockFreeQueue {
  import opened Basics

  /** Number of values of the tag type, std::size_t. */
  const TAG_SPACE: nat := 0x1_0000_0000_0000_0000

  type NodeId = nat
  type Thread = nat

  datatype Tagged = Tagged(ptr: Option<NodeId>, tag: nat) {
    function NextTag(): nat {
      (tag + 1) % TAG_SPACE
    }
  }

  const NULL_TAGGED := Tagged(None, 0)

  datatype Node<T> = Node(data: T, next: Tagged)

  /** What an idle thread may call. The order of the two loads of empty() is left open by
      the language; tailFirst says which one it is. */
  datatype Call<T> = Enqueue(value: T) | TryDequeue | Empty(tailFirst: bool)

  /** Program counters; the arguments are the local variables that are live. */
  datatype Pc<T> =
    | Idle
    // enqueue(node*)
    | EnqLoadTail(n: NodeId)
    | EnqLoadNext(n: NodeId, tail: Tagged)
    | EnqCheck(n: NodeId, tail: Tagged, next: Tagged)
    | EnqLink(n: NodeId, tail: Tagged, next: Tagged)
    | EnqLoadTag(n: NodeId, tail: Tagged)
    | EnqSwing(n: NodeId, tail: Tagged, tag: nat)
    | EnqHelp(n: NodeId, tail: Tagged, next: Tagged)
    // try_dequeue(reference)
    | DeqLoadHead
    | DeqLoadTail(head: Tagged)
    | DeqLoadNext(head: Tagged, tail: Tagged)
    | DeqCheck(head: Tagged, tail: Tagged, next: Tagged)
    | DeqHelp(tail: Tagged, next: Tagged)
    | DeqRead(head: Tagged, next: Tagged)
    | DeqTake(head: Tagged, next: Tagged, value: T)
    | DeqRetire(head: Tagged, value: T)
    // empty()
    | EmpLoad(tailFirst: bool)
    | EmpCompare(tailFirst: bool, first: Tagged)

  /** The shared memory, the set of nodes handed back to the pool, and the threads. */
  datatype State<T> = State(
    nodes: map<NodeId, Node<T>>,
    head: Tagged,
    tail: Tagged,
    retired: set<NodeId>,
    pc: map<Thread, Pc<T>>)

  /** What an observer of the queue is told about a step. */
  datatype Event<T> =
    | Called(call: Call<T>)
    | Linked(value: T)
    | EnqueueReturned
    | SawEmpty
    | Retried
    | Took(value: T)
    | DequeueReturned(found: Option<T>)
    | EmptyAnswered(empty: bool)
    | Internal

  /** initialize(): one dummy node, both ends on it with tag 0. */
  ghost predicate Init<T>(s: State<T>) {
    && s.head.ptr.Some?
    && s.head == s.tail == Tagged(s.head.ptr, 0)
    && s.nodes.Keys == {s.head.ptr.value}
    && s.nodes[s.head.ptr.value].next == NULL_TAGGED
    && s.retired == {}
    && forall t <- s.pc :: s.pc[t] == Idle
  }

  /** An address no earlier allocation returned. */
  predicate FreshId<T>(s: State<T>, n: NodeId) {
    n !in s.nodes
  }

  predicate Deref<T>(s: State<T>, p: Tagged) {
    p.ptr.Some? && p.ptr.value in s.nodes
  }

  /** The pointers that thread t dereferences in its next step are those of nodes. */
  predicate Safe<T>(s: State<T>, t: Thread) {
    && t in s.pc
    && match s.pc[t] {
         case EnqLoadNext(_, tail) => Deref(s, tail)
         case EnqLink(n, tail, _) => Deref(s, tail) && n in s.nodes
         case EnqHelp(_, _, next) => Deref(s, next)
         case DeqLoadNext(head, _) => Deref(s, head)
         case DeqRead(_, next) => Deref(s, next)
         case DeqHelp(_, next) => Deref(s, next)
         case DeqTake(head, next, _) => Deref(s, head) && Deref(s, next)
         case DeqRetire(head, _) => Deref(s, head)
         case _ => true
       }
  }

  function Go<T>(s: State<T>, t: Thread, pc: Pc<T>): State<T> {
    s.(pc := s.pc[t := pc])
  }

  /** One step of thread t.  An idle thread makes the call given; `n` is the
      address its allocation returns. */
  function Step<T>(s: State<T>, t: Thread, call: Call<T>, n: NodeId): (r: (State<T>, Event<T>))
    requires Safe(s, t) && FreshId(s, n)
    ensures r.0.pc.Keys == s.pc.Keys
  {
    match s.pc[t] {
      case Idle => StepCall(s, t, call, n)
      case EnqLoadTail(n) => (Go(s, t, EnqLoadNext(n, s.tail)), Internal)
      case EnqLoadNext(n, tail) => (Go(s, t, EnqCheck(n, tail, s.nodes[tail.ptr.value].next)), Internal)
      case EnqCheck(n, tail, next) =>
        if tail != s.tail then (Go(s, t, EnqLoadTail(n)), Internal)
        else if next.ptr.None? then (Go(s, t, EnqLink(n, tail, next)), Internal)
        else (Go(s, t, EnqHelp(n, tail, next)), Internal)
      case EnqLink(n, tail, next) => StepLink(s, t, n, tail, next)
      case EnqLoadTag(n, tail) => (Go(s, t, EnqSwing(n, tail, s.tail.NextTag())), Internal)
      case EnqSwing(n, tail, tag) =>
        (Go(SwingTail(s, tail, Tagged(Some(n), tag)), t, Idle), EnqueueReturned)
      case EnqHelp(n, tail, next) =>
        (Go(SwingTail(s, tail, Tagged(next.ptr, tail.NextTag())), t, EnqLoadTail(n)), Internal)
      case DeqLoadHead => (Go(s, t, DeqLoadTail(s.head)), Internal)
      case DeqLoadTail(head) => (Go(s, t, DeqLoadNext(head, s.tail)), Internal)
      case DeqLoadNext(head, tail) =>
        var next := s.nodes[head.ptr.value].next;
        (Go(s, t, DeqCheck(head, tail, next)), if next.ptr.None? then SawEmpty else Internal)
      case DeqCheck(head, tail, next) => StepDeqCheck(s, t, head, tail, next)
      case DeqHelp(tail, next) =>
        (Go(SwingTail(s, tail, Tagged(next.ptr, tail.NextTag())), t, DeqLoadHead), Internal)
      case DeqRead(head, next) => (Go(s, t, DeqTake(head, next, s.nodes[next.ptr.value].data)), Internal)
      case DeqTake(head, next, value) =>
        if s.head == head
        then (Go(s.(head := Tagged(next.ptr, head.NextTag())), t, DeqRetire(head, value)), Took(value))
        else (Go(s, t, DeqLoadHead), Internal)
      case DeqRetire(head, value) =>
        (Go(s.(retired := s.retired + {head.ptr.value}), t, Idle), DequeueReturned(Some(value)))
      case EmpLoad(tailFirst) =>
        (Go(s, t, EmpCompare(tailFirst, if tailFirst then s.tail else s.head)), Internal)
      case EmpCompare(tailFirst, first) =>
        (Go(s, t, Idle), EmptyAnswered(first.ptr == (if tailFirst then s.head else s.tail).ptr))
    }
  }

  function StepCall<T>(s: State<T>, t: Thread, call: Call<T>, n: NodeId): (State<T>, Event<T>) {
    match call
    case Enqueue(v) =>
      (Go(s.(nodes := s.nodes[n := Node(v, NULL_TAGGED)]), t, EnqLoadTail(n)), Called(call))
    case TryDequeue => (Go(s, t, DeqLoadHead), Called(call))
    case Empty(tailFirst) => (Go(s, t, EmpLoad(tailFirst)), Called(call))
  }

  /** The compare-exchange of `tail->next`. */
  function StepLink<T>(s: State<T>, t: Thread, n: NodeId, tail: Tagged, next: Tagged): (State<T>, Event<T>)
    requires Deref(s, tail) && n in s.nodes
  {
    var last := tail.ptr.value;
    if s.nodes[last].next == next
    then (Go(s.(nodes := s.nodes[last := s.nodes[last].(next := Tagged(Some(n), next.NextTag()))]), t,
             EnqLoadTag(n, tail)),
          Linked(s.nodes[n].data))
    else (Go(s, t, EnqLoadTail(n)), Internal)
  }

  /** The compare-exchange of `tail_`. */
  function SwingTail<T>(s: State<T>, expected: Tagged, desired: Tagged): State<T> {
    if s.tail == expected then s.(tail := desired) else s
  }

  function StepDeqCheck<T>(s: State<T>, t: Thread, head: Tagged, tail: Tagged, next: Tagged): (State<T>, Event<T>) {
    if head != s.head then (Go(s, t, DeqLoadHead), Retried)
    else if head.ptr == tail.ptr then
      if next.ptr.None? then (Go(s, t, Idle), DequeueReturned(None))
      else (Go(s, t, DeqHelp(tail, next)), Internal)
    else (Go(s, t, DeqRead(head, next)), Internal)
  }

  // ---------------------------------------------------------------------
  // Contents: the data of the nodes reachable from the one after the dummy
  // ---------------------------------------------------------------------

  /** The data met by following `next` from p, at most `fuel` nodes. */
  function Walk<T>(nodes: map<NodeId, Node<T>>, p: Option<NodeId>, fuel: nat): seq<T>
    decreases fuel
  {
    if p.None? || p.value !in nodes || fuel == 0 then []
    else [nodes[p.value].data] + Walk(nodes, nodes[p.value].next.ptr, fuel - 1)
  }

  function Contents<T>(s: State<T>): seq<T> {
    if Deref(s, s.head) then Walk(s.nodes, s.nodes[s.head.ptr.value].next.ptr, |s.nodes|) else []
  }
}
