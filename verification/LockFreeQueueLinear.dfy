/** Linearizability: the step machine refines a queue whose operations take
    effect in one step, and the values of every run come out in the order in
    which they went in. */
module LockFreeQueueLinear {
  import opened Basics
  import opened LockFreeQueue
  import opened LockFreeQueueShape

  // ---------------------------------------------------------------------
  // Contents and the chain
  // ---------------------------------------------------------------------

  lemma InChain<T>(nodes: map<NodeId, Node<T>>, rank: Ranking, n: NodeId)
    requires ChainOk(nodes, rank) && n in rank
    ensures n in nodes && rank[n] < |rank| && NextOf(rank, rank[n], nodes[n].next)
    ensures nodes[n].next.ptr.None? <==> rank[n] == |rank| - 1
  {
    assert LinkOk(nodes, rank, n);
  }

  /** Fuel beyond the end of the chain makes no difference. */
  lemma {:induction false} WalkFuel<T>(nodes: map<NodeId, Node<T>>, rank: Ranking, p: NodeId, f: nat, g: nat)
    requires ChainOk(nodes, rank) && p in rank
    requires f >= |rank| - rank[p] && g >= |rank| - rank[p]
    ensures Walk(nodes, Some(p), f) == Walk(nodes, Some(p), g)
    decreases |rank| - rank[p]
  {
    hide ChainOk, TagOf;
    InChain(nodes, rank, p);
    var next := nodes[p].next;
    if next.ptr.Some? {
      WalkFuel(nodes, rank, next.ptr.value, f - 1, g - 1);
    }
  }

  /** Nodes outside the chain make no difference. */
  lemma {:induction false} WalkFrame<T>(nodes: map<NodeId, Node<T>>, nodes': map<NodeId, Node<T>>, rank: Ranking,
                                        p: NodeId, f: nat)
    requires ChainOk(nodes, rank) && p in rank
    requires forall n <- rank :: n in nodes' && nodes'[n] == nodes[n]
    ensures Walk(nodes', Some(p), f) == Walk(nodes, Some(p), f)
    decreases f
  {
    hide ChainOk, TagOf;
    InChain(nodes, rank, p);
    var next := nodes[p].next;
    if next.ptr.Some? && f > 0 {
      WalkFrame(nodes, nodes', rank, next.ptr.value, f - 1);
    }
  }

  /** The link appends one value to every walk along the chain. */
  lemma {:induction false} WalkLink<T>(nodes: map<NodeId, Node<T>>, rank: Ranking, p: NodeId, f: nat, last: NodeId,
                                       n: NodeId)
    requires ChainOk(nodes, rank) && p in rank && f > |rank| - rank[p]
    requires last in rank && rank[last] == |rank| - 1
    requires n in nodes && n !in rank && nodes[n].next == NULL_TAGGED
    requires last in nodes
    ensures var nodes' := nodes[last := nodes[last].(next := Tagged(Some(n), 1))];
      Walk(nodes', Some(p), f) == Walk(nodes, Some(p), f) + [nodes[n].data]
    decreases f
  {
    hide ChainOk, TagOf;
    InChain(nodes, rank, last);
    var nodes' := nodes[last := nodes[last].(next := Tagged(Some(n), 1))];
    InChain(nodes, rank, p);
    if p == last {
      assert Walk(nodes, Some(p), f) == [nodes[p].data] + [];
      assert Walk(nodes', Some(n), f - 1) == [nodes[n].data] + [];
    } else {
      ChainIsInjective(nodes, rank);
      assert rank[p] != |rank| - 1;
      var q := nodes[p].next.ptr.value;
      WalkLink(nodes, rank, q, f - 1, last, n);
      assert Walk(nodes', Some(p), f) == [nodes[p].data] + (Walk(nodes, Some(q), f - 1) + [nodes[n].data]);
    }
  }

  /** The contents, walked with just the fuel that the chain needs. */
  lemma RankingFits<T>(nodes: map<NodeId, Node<T>>, rank: Ranking)
    requires ChainOk(nodes, rank)
    ensures |rank| <= |nodes|
  {
    assert |rank.Keys| <= |nodes.Keys| by { SubsetSize(rank.Keys, nodes.Keys); }
  }

  lemma RankingFitsBut<T>(nodes: map<NodeId, Node<T>>, rank: Ranking, n: NodeId)
    requires ChainOk(nodes, rank) && n in nodes && n !in rank
    ensures |rank| < |nodes|
  {
    SubsetSize(rank.Keys + {n}, nodes.Keys);
    assert |rank.Keys + {n}| == |rank.Keys| + 1;
  }

  lemma SubsetSize(a: set<NodeId>, b: set<NodeId>)
    requires a <= b
    ensures |a| <= |b|
  {
    assert b == a + (b - a);
  }

  lemma {:induction false} ContentsFrame<T>(s: State<T>, rank: Ranking, s': State<T>)
    requires ChainOk(s.nodes, rank) && ChainOk(s'.nodes, rank) && Reached(rank, s.head) && s'.head == s.head
    requires forall n <- rank :: n in s'.nodes && s'.nodes[n] == s.nodes[n]
    ensures Contents(s') == Contents(s)
  {
    hide ChainOk, TagOf;
    var h := s.head.ptr.value;
    InChain(s.nodes, rank, s.head.ptr.value);
    var next := s.nodes[h].next;
    RankingFits(s.nodes, rank);
    RankingFits(s'.nodes, rank);
    if next.ptr.Some? {
      WalkFrame(s.nodes, s'.nodes, rank, next.ptr.value, |s'.nodes|);
      WalkFuel(s.nodes, rank, next.ptr.value, |s'.nodes|, |s.nodes|);
    }
  }

  lemma {:induction false} ContentsLink<T>(s: State<T>, rank: Ranking, last: NodeId, n: NodeId, s': State<T>)
    requires ChainOk(s.nodes, rank) && Reached(rank, s.head) && s'.head == s.head
    requires last in rank && rank[last] == |rank| - 1
    requires n in s.nodes && n !in rank && s.nodes[n].next == NULL_TAGGED
    requires last in s.nodes && s'.nodes == s.nodes[last := s.nodes[last].(next := Tagged(Some(n), 1))]
    ensures Contents(s') == Contents(s) + [s.nodes[n].data]
  {
    hide ChainOk, TagOf;
    var h := s.head.ptr.value;
    InChain(s.nodes, rank, s.head.ptr.value);
    ChainIsInjective(s.nodes, rank);
    InChain(s.nodes, rank, last);
    assert s'.nodes.Keys == s.nodes.Keys;
    assert |s'.nodes.Keys| == |s.nodes.Keys|;
    RankingFitsBut(s.nodes, rank, n);
    if h == last {
      assert Walk(s'.nodes, Some(n), |s'.nodes|) == [s.nodes[n].data] + [];
    } else {
      var q := s.nodes[h].next.ptr.value;
      WalkLink(s.nodes, rank, q, |s.nodes|, last, n);
    }
  }

  lemma {:induction false} ContentsTake<T>(s: State<T>, rank: Ranking, s': State<T>)
    requires ChainOk(s.nodes, rank) && Reached(rank, s.head) && Reached(rank, s'.head)
    requires At(rank, s'.head) == At(rank, s.head) + 1 && s'.nodes == s.nodes
    ensures s'.head.ptr.value in s.nodes
    ensures Contents(s) == [s.nodes[s'.head.ptr.value].data] + Contents(s')
  {
    hide ChainOk, TagOf;
    InChain(s.nodes, rank, s.head.ptr.value);
    InChain(s.nodes, rank, s'.head.ptr.value);
    ChainIsInjective(s.nodes, rank);
    RankingFits(s.nodes, rank);
    var q := s'.head.ptr.value;
    assert s.nodes[s.head.ptr.value].next.ptr == Some(q);
    assert |s.nodes| > 0;
    assert Contents(s) == [s.nodes[q].data] + Walk(s.nodes, s.nodes[q].next.ptr, |s.nodes| - 1);
    var next := s.nodes[q].next;
    if next.ptr.Some? {
      WalkFuel(s.nodes, rank, next.ptr.value, |s.nodes| - 1, |s.nodes|);
    }
  }

  lemma {:induction false} ContentsLast<T>(s: State<T>, rank: Ranking)
    requires ChainOk(s.nodes, rank) && Reached(rank, s.head)
    ensures Contents(s) == [] <==> At(rank, s.head) == |rank| - 1
  {
    hide ChainOk, TagOf;
    var h := s.head.ptr.value;
    InChain(s.nodes, rank, h);
    RankingFits(s.nodes, rank);
    if s.nodes[h].next.ptr.Some? {
      InChain(s.nodes, rank, s.nodes[h].next.ptr.value);
    }
  }

  // ---------------------------------------------------------------------
  // The atomic queue
  // ---------------------------------------------------------------------

  /** How far a call has come, as far as the atomic queue is concerned. */
  datatype Op<T> =
    | Quiet
    | Enqueuing(value: T)
    | Enqueued
    | Dequeuing(sawEmpty: bool)
    | Dequeued(value: T)
    | Asking

  datatype Atomic<T> = Atomic(items: seq<T>, ops: map<Thread, Op<T>>)

  /** The atomic queue.  A call takes effect in exactly one step between its
      start and its return; a dequeue may return empty-handed only after it saw
      the queue empty, and a retry forgets what it saw. */
  ghost predicate AtomicStep<T>(a: Atomic<T>, t: Thread, e: Event<T>, b: Atomic<T>) {
    && t in a.ops
    && (forall u <- a.ops | u != t :: u in b.ops && b.ops[u] == a.ops[u])
    && b.ops.Keys == a.ops.Keys
    && match e {
         case Called(Enqueue(v)) => a.ops[t] == Quiet && b.ops[t] == Enqueuing(v) && b.items == a.items
         case Called(TryDequeue) => a.ops[t] == Quiet && b.ops[t] == Dequeuing(false) && b.items == a.items
         case Called(Empty(_)) => a.ops[t] == Quiet && b.ops[t] == Asking && b.items == a.items
         case EmptyAnswered(_) => a.ops[t] == Asking && b.ops[t] == Quiet && b.items == a.items
         case Linked(v) => a.ops[t] == Enqueuing(v) && b.ops[t] == Enqueued && b.items == a.items + [v]
         case EnqueueReturned => a.ops[t] == Enqueued && b.ops[t] == Quiet && b.items == a.items
         case SawEmpty =>
           a.ops[t].Dequeuing? && a.items == [] && b.ops[t] == Dequeuing(true) && b.items == a.items
         case Retried => a.ops[t].Dequeuing? && b.ops[t] == Dequeuing(false) && b.items == a.items
         case Took(v) => a.ops[t].Dequeuing? && b.ops[t] == Dequeued(v) && a.items == [v] + b.items
         case DequeueReturned(None) => a.ops[t] == Dequeuing(true) && b.ops[t] == Quiet && b.items == a.items
         case DequeueReturned(Some(v)) => a.ops[t] == Dequeued(v) && b.ops[t] == Quiet && b.items == a.items
         case Internal => b == a
       }
  }

  function AbsOp<T>(nodes: map<NodeId, Node<T>>, pc: Pc<T>): Op<T> {
    match pc {
      case Idle => Quiet
      case EnqLoadTag(_, _) => Enqueued
      case EnqSwing(_, _, _) => Enqueued
      case DeqLoadHead => Dequeuing(false)
      case DeqLoadTail(_) => Dequeuing(false)
      case DeqLoadNext(_, _) => Dequeuing(false)
      case DeqCheck(_, _, next) => Dequeuing(next.ptr.None?)
      case DeqHelp(_, _) => Dequeuing(false)
      case DeqRead(_, _) => Dequeuing(false)
      case DeqTake(_, _, _) => Dequeuing(false)
      case DeqRetire(_, v) => Dequeued(v)
      case EmpLoad(_) => Asking
      case EmpCompare(_, _) => Asking
      case _ => var n := Owned(pc); if n.Some? && n.value in nodes then Enqueuing(nodes[n.value].data) else Quiet
    }
  }

  function Abs<T>(s: State<T>): Atomic<T> {
    Atomic(Contents(s), map t <- s.pc :: AbsOp(s.nodes, s.pc[t]))
  }

  lemma AbsOthers<T>(s: State<T>, rank: Ranking, t: Thread, s': State<T>)
    requires ThreadsOk(s, rank) && t in s.pc && t in s'.pc && s'.pc == s.pc[t := s'.pc[t]]
    requires forall n <- s.nodes :: n in s'.nodes && s'.nodes[n].data == s.nodes[n].data
    ensures forall u <- s.pc | u != t :: AbsOp(s'.nodes, s'.pc[u]) == AbsOp(s.nodes, s.pc[u])
  {
    hide ThreadsOk;
    forall u <- s.pc | u != t ensures AbsOp(s'.nodes, s'.pc[u]) == AbsOp(s.nodes, s.pc[u]) {
      ThreadKnows(s, rank, u);
    }
  }

  // ---------------------------------------------------------------------
  // Refinement
  // ---------------------------------------------------------------------

  /** A step that leaves the nodes and the head alone changes only t's own operation. */
  lemma QuietStep<T>(s: State<T>, t: Thread, s': State<T>)
    requires t in s.pc && t in s'.pc && s'.pc == s.pc[t := s'.pc[t]]
    requires s'.nodes == s.nodes && s'.head == s.head
    ensures Abs(s') == Abs(s).(ops := Abs(s).ops[t := AbsOp(s.nodes, s'.pc[t])])
  {
    hide AbsOp, Walk;
    assert Contents(s') == Contents(s);
  }

  lemma {:induction false} AllocateRefines<T>(s: State<T>, rank: Ranking, t: Thread, v: T, n: NodeId)
    requires Shape(s, rank) && t in s.pc && s.pc[t].Idle? && FreshId(s, n)
    ensures var r := StepCall(s, t, Enqueue(v), n); AtomicStep(Abs(s), t, r.1, Abs(r.0))
  {
    hide ThreadsOk, OwnersOk, LagOk, RetiredOk, ChainOk, TagOf, Contents;
    var s' := StepCall(s, t, Enqueue(v), n).0;
    ChainKeepsUnlinked(s.nodes, rank, n, Node(v, NULL_TAGGED));
    ContentsFrame(s, rank, s');
    AbsOthers(s, rank, t, s');
  }

  lemma {:induction false} CallRefines<T>(s: State<T>, rank: Ranking, t: Thread, call: Call<T>, n: NodeId)
    requires Shape(s, rank) && t in s.pc && s.pc[t].Idle? && FreshId(s, n)
    ensures var r := StepCall(s, t, call, n); AtomicStep(Abs(s), t, r.1, Abs(r.0))
  {
    hide Shape, Contents, Abs;
    match call {
      case Enqueue(v) => AllocateRefines(s, rank, t, v, n);
      case TryDequeue =>
        QuietStep(s, t, Go(s, t, DeqLoadHead));
        AbsAt(s, t);
      case Empty(tailFirst) =>
        QuietStep(s, t, Go(s, t, EmpLoad(tailFirst)));
        AbsAt(s, t);
    }
  }

  lemma {:induction false} LinkRefines<T>(s: State<T>, rank: Ranking, t: Thread, n: NodeId, tail: Tagged, next: Tagged)
    requires Shape(s, rank) && t in s.pc && s.pc[t] == EnqLink(n, tail, next)
    requires Deref(s, tail) && n in s.nodes && s.nodes[tail.ptr.value].next == next
    ensures var r := StepLink(s, t, n, tail, next); AtomicStep(Abs(s), t, r.1, Abs(r.0))
  {
    hide ThreadsOk, OwnersOk, LagOk, RetiredOk, ChainOk, TagOf, Contents, PcOk;
    ThreadKnows(s, rank, t);
    AtLink(s, rank, n, tail, next);
    var s' := StepLink(s, t, n, tail, next).0;
    InChain(s.nodes, rank, tail.ptr.value);
    ContentsLink(s, rank, tail.ptr.value, n, s');
    AbsOthers(s, rank, t, s');
  }

  lemma {:induction false} TakeRefines<T>(s: State<T>, rank: Ranking, t: Thread, head: Tagged, next: Tagged, v: T)
    requires Shape(s, rank) && t in s.pc && s.pc[t] == DeqTake(head, next, v) && s.head == head
    ensures var s' := Go(s.(head := Tagged(next.ptr, head.NextTag())), t, DeqRetire(head, v));
      AtomicStep(Abs(s), t, Took(v), Abs(s'))
  {
    hide ThreadsOk, OwnersOk, LagOk, RetiredOk, ChainOk, TagOf, Contents, PcOk;
    ThreadKnows(s, rank, t);
    AtTake(s, rank, head, next, v);
    TakeValue(s, rank, head, next, v);
    NextTagOf(head, At(rank, head));
    var s' := Go(s.(head := Tagged(next.ptr, head.NextTag())), t, DeqRetire(head, v));
    ContentsTake(s, rank, s');
    AbsOthers(s, rank, t, s');
  }

  lemma TakeValue<T>(s: State<T>, rank: Ranking, head: Tagged, next: Tagged, v: T)
    requires PcOk(s, rank, DeqTake(head, next, v))
    ensures next.ptr.Some? && next.ptr.value in s.nodes && v == s.nodes[next.ptr.value].data
  {
  }

  /** The null that a dequeue reads in head->next is the null at the end of the
      chain, and the head has not moved on. */
  lemma {:induction false} SawEmptyRefines<T>(s: State<T>, rank: Ranking, t: Thread, head: Tagged, tail: Tagged)
    requires Shape(s, rank) && t in s.pc && s.pc[t] == DeqLoadNext(head, tail)
    requires Deref(s, head) && s.nodes[head.ptr.value].next.ptr.None?
    ensures Contents(s) == []
  {
    hide ThreadsOk, OwnersOk, LagOk, RetiredOk, ChainOk, TagOf, Contents;
    ThreadKnows(s, rank, t);
    InChain(s.nodes, rank, head.ptr.value);
    InChain(s.nodes, rank, s.head.ptr.value);
    ContentsLast(s, rank);
  }

  /** With a null next the head and tail that were loaded agree. */
  lemma {:induction false} NullNextAgrees<T>(s: State<T>, rank: Ranking, t: Thread, head: Tagged, tail: Tagged,
                                             next: Tagged)
    requires Shape(s, rank) && t in s.pc && s.pc[t] == DeqCheck(head, tail, next) && next.ptr.None?
    ensures head.ptr == tail.ptr
  {
    hide ThreadsOk, OwnersOk, LagOk, RetiredOk, ChainOk, TagOf;
    ThreadKnows(s, rank, t);
    ChainIsInjective(s.nodes, rank);
  }

  lemma {:induction false} QuietEnqueueRefines<T>(s: State<T>, t: Thread, call: Call<T>, id: NodeId)
    requires Safe(s, t) && FreshId(s, id) && Enqueues(s.pc[t])
    requires s.pc[t].EnqLink? ==> s.nodes[s.pc[t].tail.ptr.value].next != s.pc[t].next
    ensures var r := Step(s, t, call, id); AtomicStep(Abs(s), t, r.1, Abs(r.0))
  {
    hide Contents, Abs, Owned;
    var (s', e) := Step(s, t, call, id);
    QuietStep(s, t, s');
    AbsAt(s, t);
    OwnedWhileEnqueuing(s.pc[t]);
    OwnedWhileEnqueuing(s'.pc[t]);
  }

  lemma OwnedWhileEnqueuing<T>(pc: Pc<T>)
    ensures Enqueues(pc) && !pc.EnqLoadTag? && !pc.EnqSwing? ==> Owned(pc) == Some(pc.n)
  {
  }

  lemma AbsAt<T>(s: State<T>, t: Thread)
    requires t in s.pc
    ensures t in Abs(s).ops && Abs(s).ops[t] == AbsOp(s.nodes, s.pc[t])
    ensures Abs(s).items == Contents(s)
  {
    hide AbsOp, Contents;
  }

  lemma {:induction false} LoadNextRefines<T>(s: State<T>, rank: Ranking, t: Thread, call: Call<T>, id: NodeId)
    requires Safe(s, t) && FreshId(s, id) && s.pc[t].DeqLoadNext?
    requires Shape(s, rank)
    ensures var r := Step(s, t, call, id); AtomicStep(Abs(s), t, r.1, Abs(r.0))
  {
    hide Shape, Contents, Abs;
    var pc := s.pc[t];
    var (s', e) := Step(s, t, call, id);
    QuietStep(s, t, s');
    AbsAt(s, t);
    if e.SawEmpty? { SawEmptyRefines(s, rank, t, pc.head, pc.tail); }
  }

  lemma {:induction false} DequeueCheckRefines<T>(s: State<T>, rank: Ranking, t: Thread, call: Call<T>, id: NodeId)
    requires Safe(s, t) && FreshId(s, id) && s.pc[t].DeqCheck?
    requires Shape(s, rank)
    ensures var r := Step(s, t, call, id); AtomicStep(Abs(s), t, r.1, Abs(r.0))
  {
    hide Shape, Contents, Abs;
    var pc := s.pc[t];
    var (s', e) := Step(s, t, call, id);
    QuietStep(s, t, s');
    AbsAt(s, t);
    if pc.next.ptr.None? { NullNextAgrees(s, rank, t, pc.head, pc.tail, pc.next); }
  }

  lemma {:induction false} QuietDequeueRefines<T>(s: State<T>, t: Thread, call: Call<T>, id: NodeId)
    requires Safe(s, t) && FreshId(s, id) && !Enqueues(s.pc[t]) && !s.pc[t].Idle?
    requires !s.pc[t].DeqLoadNext? && !s.pc[t].DeqCheck? && !s.pc[t].EmpLoad? && !s.pc[t].EmpCompare?
    requires s.pc[t].DeqTake? ==> s.head != s.pc[t].head
    ensures var r := Step(s, t, call, id); AtomicStep(Abs(s), t, r.1, Abs(r.0))
  {
    hide Contents, Abs;
    QuietStep(s, t, Step(s, t, call, id).0);
    AbsAt(s, t);
  }

  lemma {:induction false} EmptyRefines<T>(s: State<T>, t: Thread, call: Call<T>, id: NodeId)
    requires Safe(s, t) && FreshId(s, id) && (s.pc[t].EmpLoad? || s.pc[t].EmpCompare?)
    ensures var r := Step(s, t, call, id); AtomicStep(Abs(s), t, r.1, Abs(r.0))
  {
    hide Contents, Abs;
    QuietStep(s, t, Step(s, t, call, id).0);
    AbsAt(s, t);
  }

  /** Every step of the queue is the step of the atomic queue that its event names. */
  lemma {:induction false} StepRefines<T>(s: State<T>, rank: Ranking, t: Thread, call: Call<T>, id: NodeId)
    requires Shape(s, rank) && Safe(s, t) && FreshId(s, id)
    ensures var r := Step(s, t, call, id); AtomicStep(Abs(s), t, r.1, Abs(r.0))
  {
    hide Shape, Contents, AtomicStep, AbsOp;
    var pc := s.pc[t];
    if pc.Idle? {
      CallRefines(s, rank, t, call, id);
    } else if pc.EnqLink? && s.nodes[pc.tail.ptr.value].next == pc.next {
      LinkRefines(s, rank, t, pc.n, pc.tail, pc.next);
    } else if pc.DeqTake? && s.head == pc.head {
      TakeRefines(s, rank, t, pc.head, pc.next, pc.value);
    } else if Enqueues(pc) {
      QuietEnqueueRefines(s, t, call, id);
    } else if pc.DeqLoadNext? {
      LoadNextRefines(s, rank, t, call, id);
    } else if pc.DeqCheck? {
      DequeueCheckRefines(s, rank, t, call, id);
    } else if pc.EmpLoad? || pc.EmpCompare? {
      EmptyRefines(s, t, call, id);
    } else {
      QuietDequeueRefines(s, t, call, id);
    }
  }

  // ---------------------------------------------------------------------
  // Runs
  // ---------------------------------------------------------------------

  /** Thread t moved; `call` and `id` are what Step was given, `event` is what it said. */
  datatype Move<T> = Move(t: Thread, call: Call<T>, id: NodeId, event: Event<T>)

  ghost predicate IsRun<T>(states: seq<State<T>>, moves: seq<Move<T>>) {
    && |states| == |moves| + 1
    && Init(states[0])
    && forall i | 0 <= i < |moves| :: IsMove(states[i], moves[i], states[i + 1])
  }

  ghost predicate IsMove<T>(s: State<T>, m: Move<T>, s': State<T>) {
    Safe(s, m.t) && FreshId(s, m.id) && Step(s, m.t, m.call, m.id) == (s', m.event)
  }

  lemma {:induction false} RunKeepsShape<T>(states: seq<State<T>>, moves: seq<Move<T>>, k: nat) returns (rank: Ranking)
    requires IsRun(states, moves) && k <= |moves|
    ensures Shape(states[k], rank)
  {
    hide Shape, Step;
    if k == 0 {
      rank := InitHasShape(states[0]);
    } else {
      var before := RunKeepsShape(states, moves, k - 1);
      var m := moves[k - 1];
      assert IsMove(states[k - 1], m, states[k]);
      StepKeepsShape(states[k - 1], before, m.t, m.call, m.id);
      rank := NextRank(states[k - 1], m.t, before);
    }
  }

  /** No thread ever dereferences a null or unallocated pointer: every reachable
      state can be continued by every thread. */
  lemma RunIsSafe<T>(states: seq<State<T>>, moves: seq<Move<T>>, k: nat, t: Thread)
    requires IsRun(states, moves) && k <= |moves| && t in states[k].pc
    ensures Safe(states[k], t)
  {
    hide Shape, Step, Safe;
    var rank := RunKeepsShape(states, moves, k);
    ShapeIsSafe(states[k], rank, t);
  }

  /** Linearizability: every run is, step by step, a run of the atomic queue. */
  lemma RunRefines<T>(states: seq<State<T>>, moves: seq<Move<T>>)
    requires IsRun(states, moves)
    ensures Abs(states[0]).items == []
    ensures forall i | 0 <= i < |moves| :: AtomicStep(Abs(states[i]), moves[i].t, moves[i].event, Abs(states[i + 1]))
  {
    hide Shape, Step, AtomicStep, Safe;
    forall i | 0 <= i < |moves|
      ensures AtomicStep(Abs(states[i]), moves[i].t, moves[i].event, Abs(states[i + 1]))
    {
      var rank := RunKeepsShape(states, moves, i);
      assert IsMove(states[i], moves[i], states[i + 1]);
      StepRefines(states[i], rank, moves[i].t, moves[i].call, moves[i].id);
    }
  }

  /** The values linked by a run, in the order of the links. */
  function Entered<T>(moves: seq<Move<T>>): seq<T> {
    if moves == [] then []
    else Entered(moves[..|moves| - 1]) + var e := moves[|moves| - 1].event; if e.Linked? then [e.value] else []
  }

  /** The values taken by a run, in the order of the head exchanges. */
  function Left<T>(moves: seq<Move<T>>): seq<T> {
    if moves == [] then []
    else Left(moves[..|moves| - 1]) + var e := moves[|moves| - 1].event; if e.Took? then [e.value] else []
  }

  /** FIFO: in every run the values taken out are the first of the values put
      in, in the same order, and the rest are the contents. */
  lemma {:induction false} RunIsFifo<T>(states: seq<State<T>>, moves: seq<Move<T>>)
    requires IsRun(states, moves)
    ensures Entered(moves) == Left(moves) + Contents(states[|moves|])
  {
    hide Step, Safe, Shape, Contents, AtomicStep;
    RunRefines(states, moves);
    FifoPrefix(states, moves, |moves|);
    assert moves[..|moves|] == moves;
  }

  lemma ItemsOf<T>(s: State<T>)
    ensures Abs(s).items == Contents(s)
  {
    hide AbsOp, Contents;
  }

  /** What a step of the atomic queue does to the items. */
  lemma AtomicItems<T>(a: Atomic<T>, t: Thread, e: Event<T>, b: Atomic<T>)
    requires AtomicStep(a, t, e, b)
    ensures e.Linked? ==> b.items == a.items + [e.value]
    ensures e.Took? ==> a.items == [e.value] + b.items
    ensures !e.Linked? && !e.Took? ==> b.items == a.items
  {
  }

  lemma {:induction false} FifoPrefix<T>(states: seq<State<T>>, moves: seq<Move<T>>, k: nat)
    requires |states| == |moves| + 1 && k <= |moves|
    requires Contents(states[0]) == []
    requires forall i | 0 <= i < |moves| :: AtomicStep(Abs(states[i]), moves[i].t, moves[i].event, Abs(states[i + 1]))
    ensures Entered(moves[..k]) == Left(moves[..k]) + Contents(states[k])
  {
    hide Abs, AtomicStep, Contents;
    if k > 0 {
      FifoPrefix(states, moves, k - 1);
      var before, after := Abs(states[k - 1]), Abs(states[k]);
      var e := moves[k - 1].event;
      assert moves[..k][..k - 1] == moves[..k - 1];
      ItemsOf(states[k - 1]);
      ItemsOf(states[k]);
      assert AtomicStep(before, moves[k - 1].t, e, after);
      AtomicItems(before, moves[k - 1].t, e, after);
      if e.Linked? {
        assert after.items == before.items + [e.value];
        assert Left(moves[..k]) == Left(moves[..k - 1]) + [];
        assert Entered(moves[..k]) == Left(moves[..k]) + (before.items + [e.value]);
      } else if e.Took? {
        assert before.items == [e.value] + after.items;
        assert Entered(moves[..k]) == Entered(moves[..k - 1]) + [];
        assert Left(moves[..k - 1]) + ([e.value] + after.items) == (Left(moves[..k - 1]) + [e.value]) + after.items;
      } else {
        assert after.items == before.items;
        assert Entered(moves[..k]) == Entered(moves[..k - 1]) + [];
        assert Left(moves[..k]) == Left(moves[..k - 1]) + [];
      }
    }
  }
}
