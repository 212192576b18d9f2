/** What every reachable state of the queue looks like, and why every step keeps it. */
module LockFreeQueueShape {
  import opened Basics
  import opened LockFreeQueue

  // ---------------------------------------------------------------------
  // Shape: `rank` numbers the nodes in the order in which they were linked
  // ---------------------------------------------------------------------

  type Ranking = map<NodeId, nat>

  /** Both ends start with tag 0 and every move adds one. */
  function TagOf(k: nat): nat {
    k % TAG_SPACE
  }

  predicate Reached(rank: Ranking, p: Tagged) {
    p.ptr.Some? && p.ptr.value in rank && p.tag == TagOf(rank[p.ptr.value])
  }

  function At(rank: Ranking, p: Tagged): nat {
    if p.ptr.Some? && p.ptr.value in rank then rank[p.ptr.value] else 0
  }

  /** `next` is a value that the next field of the node of rank k has had. */
  predicate NextOf(rank: Ranking, k: nat, next: Tagged) {
    next == NULL_TAGGED || (next.tag == 1 && next.ptr.Some? && next.ptr.value in rank && rank[next.ptr.value] == k + 1)
  }

  ghost predicate Injective(rank: Ranking) {
    forall m <- rank, n <- rank :: rank[m] == rank[n] ==> m == n
  }

  predicate LinkOk<T>(nodes: map<NodeId, Node<T>>, rank: Ranking, n: NodeId) {
    n in rank && n in nodes && NextOf(rank, rank[n], nodes[n].next)
    && (nodes[n].next.ptr.None? <==> rank[n] == |rank| - 1)
  }

  /** The chain of nodes: ranks run from 0 to |rank|-1, next goes up by one
      rank, and only the last node's next is null. */
  ghost predicate ChainOk<T>(nodes: map<NodeId, Node<T>>, rank: Ranking) {
    && rank.Keys <= nodes.Keys
    && (forall n <- rank :: rank[n] < |rank|)
    && Injective(rank)
    && (forall n {:trigger LinkOk(nodes, rank, n)} :: n in rank ==> LinkOk(nodes, rank, n))
  }

  /** The head is not past the tail, and the tail is one of the last two nodes. */
  ghost predicate EndsOk(head: Tagged, tail: Tagged, rank: Ranking) {
    && Reached(rank, head)
    && Reached(rank, tail)
    && At(rank, head) <= At(rank, tail)
    && |rank| <= At(rank, tail) + 2
  }

  ghost predicate Fresh<T>(s: State<T>, rank: Ranking, n: NodeId) {
    n in s.nodes && n !in rank && s.nodes[n].next == NULL_TAGGED
  }

  ghost predicate OldTail<T>(s: State<T>, rank: Ranking, tail: Tagged) {
    Reached(rank, tail) && Reached(rank, s.tail) && At(rank, tail) <= At(rank, s.tail)
  }

  ghost predicate OldHead<T>(s: State<T>, rank: Ranking, head: Tagged) {
    Reached(rank, head) && Reached(rank, s.head) && At(rank, head) <= At(rank, s.head)
  }

  /** What the local variables of a thread say about the shared memory. */
  ghost predicate PcOk<T>(s: State<T>, rank: Ranking, pc: Pc<T>) {
    match pc {
      case Idle => true
      case EnqLoadTail(n) => Fresh(s, rank, n)
      case EnqLoadNext(n, tail) => Fresh(s, rank, n) && OldTail(s, rank, tail)
      case EnqCheck(n, tail, next) => Fresh(s, rank, n) && OldTail(s, rank, tail) && NextOf(rank, At(rank, tail), next)
      case EnqLink(n, tail, next) => Fresh(s, rank, n) && OldTail(s, rank, tail) && next == NULL_TAGGED
      case EnqLoadTag(n, tail) => OldTail(s, rank, tail) && n in rank && rank[n] == At(rank, tail) + 1
      case EnqSwing(n, tail, tag) =>
        && OldTail(s, rank, tail) && n in rank && rank[n] == At(rank, tail) + 1
        && (tail == s.tail ==> tag == tail.NextTag())
      case EnqHelp(n, tail, next) =>
        && Fresh(s, rank, n) && OldTail(s, rank, tail)
        && NextOf(rank, At(rank, tail), next) && next.ptr.Some?
      case DeqLoadHead => true
      case DeqLoadTail(head) => OldHead(s, rank, head)
      case DeqLoadNext(head, tail) =>
        OldHead(s, rank, head) && OldTail(s, rank, tail) && At(rank, head) <= At(rank, tail)
      case DeqCheck(head, tail, next) =>
        && OldHead(s, rank, head) && OldTail(s, rank, tail) && At(rank, head) <= At(rank, tail)
        && NextOf(rank, At(rank, head), next)
        && (next.ptr.None? ==> At(rank, head) == At(rank, tail))
      case DeqHelp(tail, next) =>
        OldTail(s, rank, tail) && NextOf(rank, At(rank, tail), next) && next.ptr.Some?
      case DeqRead(head, next) =>
        && OldHead(s, rank, head) && Reached(rank, s.tail) && At(rank, head) < At(rank, s.tail)
        && NextOf(rank, At(rank, head), next) && next.ptr.Some?
      case DeqTake(head, next, value) =>
        && OldHead(s, rank, head) && Reached(rank, s.tail) && At(rank, head) < At(rank, s.tail)
        && NextOf(rank, At(rank, head), next) && next.ptr.Some?
        && next.ptr.value in s.nodes && value == s.nodes[next.ptr.value].data
      case DeqRetire(head, _) =>
        && Reached(rank, head) && Reached(rank, s.head) && At(rank, head) < At(rank, s.head)
        && head.ptr.value !in s.retired
      case EmpLoad(_) => true
      case EmpCompare(tailFirst, first) => if tailFirst then OldTail(s, rank, first) else OldHead(s, rank, first)
    }
  }

  ghost predicate ThreadsOk<T>(s: State<T>, rank: Ranking) {
    forall t <- s.pc :: PcOk(s, rank, s.pc[t])
  }

  /** The node a thread alone may still write to or hand back. */
  function Owned<T>(pc: Pc<T>): Option<NodeId> {
    match pc
    case EnqLoadTail(n) => Some(n)
    case EnqLoadNext(n, _) => Some(n)
    case EnqCheck(n, _, _) => Some(n)
    case EnqLink(n, _, _) => Some(n)
    case EnqHelp(n, _, _) => Some(n)
    case DeqRetire(head, _) => head.ptr
    case _ => None
  }

  ghost predicate OwnersOk<T>(pc: map<Thread, Pc<T>>) {
    forall t <- pc, u <- pc :: Owned(pc[t]).Some? && Owned(pc[t]) == Owned(pc[u]) ==> t == u
  }

  /** The thread linked node n and has not yet tried to swing the tail to it. */
  predicate Swinging<T>(pc: Pc<T>, n: NodeId) {
    (pc.EnqLoadTag? || pc.EnqSwing?) && pc.n == n
  }

  predicate Retiring<T>(pc: Pc<T>, n: NodeId) {
    pc.DeqRetire? && pc.head.ptr == Some(n)
  }

  /** The tail lags only while the enqueue that linked the last node has not swung it. */
  ghost predicate LagOk<T>(tail: Tagged, pc: map<Thread, Pc<T>>, rank: Ranking) {
    At(rank, tail) + 1 == |rank|
    || exists t, n :: t in pc && Swinging(pc[t], n) && n in rank && rank[n] + 1 == |rank|
  }

  /** Exactly the nodes before the dummy have been, or are being, handed back. */
  ghost predicate RetiredOk<T>(head: Tagged, retired: set<NodeId>, pc: map<Thread, Pc<T>>, rank: Ranking) {
    && (forall n <- retired :: n in rank && rank[n] < At(rank, head))
    && (forall n {:trigger n in retired} :: n in rank && rank[n] < At(rank, head) ==>
      n in retired || BeingRetired(pc, n))
  }

  ghost predicate BeingRetired<T>(pc: map<Thread, Pc<T>>, n: NodeId) {
    exists t :: t in pc && Retiring(pc[t], n)
  }

  ghost predicate Shape<T>(s: State<T>, rank: Ranking) {
    && ChainOk(s.nodes, rank)
    && EndsOk(s.head, s.tail, rank)
    && ThreadsOk(s, rank)
    && OwnersOk(s.pc)
    && LagOk(s.tail, s.pc, rank)
    && RetiredOk(s.head, s.retired, s.pc, rank)
  }

  ghost predicate Inv<T>(s: State<T>) {
    exists rank :: Shape(s, rank)
  }

  // ---------------------------------------------------------------------
  // Every step keeps the shape
  // ---------------------------------------------------------------------

  lemma InitHasShape<T>(s: State<T>) returns (rank: Ranking)
    requires Init(s)
    ensures Shape(s, rank)
  {
    rank := map[s.head.ptr.value := 0];
  }

  lemma ShapeIsSafe<T>(s: State<T>, rank: Ranking, t: Thread)
    requires Shape(s, rank) && t in s.pc
    ensures Safe(s, t)
  {
    assert PcOk(s, rank, s.pc[t]);
  }

  /** The ranking after the step: the link gives the new node the next rank. */
  function NextRank<T>(s: State<T>, t: Thread, rank: Ranking): Ranking
    requires Safe(s, t)
  {
    match s.pc[t]
    case EnqLink(n, tail, next) =>
      if s.nodes[tail.ptr.value].next == next then rank[n := |rank|] else rank
    case _ => rank
  }

  /** How the shared memory may change under the other threads. */
  ghost predicate Later<T>(s: State<T>, rank: Ranking, s': State<T>, rank': Ranking) {
    && Reached(rank, s.head) && Reached(rank, s.tail) && Reached(rank', s'.head) && Reached(rank', s'.tail)
    && (forall n <- s.nodes :: n in s'.nodes && s'.nodes[n].data == s.nodes[n].data)
    && (forall n <- rank :: n in rank' && rank'[n] == rank[n])
    && At(rank, s.head) <= At(rank', s'.head)
    && At(rank, s.tail) <= At(rank', s'.tail)
  }

  /** The node that a thread at pc owns is still its own in s'. */
  ghost predicate KeepsOwn<T>(s': State<T>, rank': Ranking, pc: Pc<T>) {
    && (Owned(pc).Some? && !pc.DeqRetire? ==> Fresh(s', rank', Owned(pc).value))
    && (pc.DeqRetire? && pc.head.ptr.Some? ==> pc.head.ptr.value !in s'.retired)
  }

  ghost predicate OthersKeepOwn<T>(s: State<T>, t: Thread, s': State<T>, rank': Ranking) {
    forall u <- s.pc | u != t :: KeepsOwn(s', rank', s.pc[u])
  }

  predicate Enqueues<T>(pc: Pc<T>) {
    pc.EnqLoadTail? || pc.EnqLoadNext? || pc.EnqCheck? || pc.EnqLink? || pc.EnqLoadTag? || pc.EnqSwing? || pc.EnqHelp?
  }

  /** What was an old value of an end is one still, and next values stay next values. */
  lemma OldStays<T>(s: State<T>, rank: Ranking, s': State<T>, rank': Ranking, p: Tagged)
    requires Later(s, rank, s', rank')
    ensures OldTail(s, rank, p) ==> OldTail(s', rank', p)
    ensures OldHead(s, rank, p) ==> OldHead(s', rank', p)
    ensures Reached(rank, p) ==> Reached(rank', p) && At(rank', p) == At(rank, p)
  {
  }

  lemma NextStays<T>(s: State<T>, rank: Ranking, s': State<T>, rank': Ranking, k: nat, next: Tagged)
    requires Later(s, rank, s', rank') && NextOf(rank, k, next)
    ensures NextOf(rank', k, next)
  {
  }

  lemma {:induction false} EnqueuerStable<T>(s: State<T>, rank: Ranking, s': State<T>, rank': Ranking, pc: Pc<T>)
    requires Enqueues(pc) && Injective(rank) && Later(s, rank, s', rank')
    requires PcOk(s, rank, pc) && KeepsOwn(s', rank', pc)
    ensures PcOk(s', rank', pc)
  {
    hide OldTail, OldHead, NextOf, Fresh, Reached, Later, Injective;
    if !pc.EnqLoadTail? {
      OldStays(s, rank, s', rank', pc.tail);
      TailStays(s, rank, s', rank', pc.tail);
    }
    if pc.EnqCheck? || pc.EnqHelp? { NextStays(s, rank, s', rank', At(rank, pc.tail), pc.next); }
    if pc.EnqLoadTag? || pc.EnqSwing? { RankStays(s, rank, s', rank', pc.n); }
  }

  lemma RankStays<T>(s: State<T>, rank: Ranking, s': State<T>, rank': Ranking, n: NodeId)
    requires Later(s, rank, s', rank') && n in rank
    ensures n in rank' && rank'[n] == rank[n]
  {
  }

  /** An old value of the tail that is its value again has been its value all along. */
  lemma TailStays<T>(s: State<T>, rank: Ranking, s': State<T>, rank': Ranking, tail: Tagged)
    requires Later(s, rank, s', rank') && OldTail(s, rank, tail) && Injective(rank)
    ensures Reached(rank, tail) && Reached(rank', tail) && At(rank', tail) == At(rank, tail)
    ensures tail == s'.tail ==> tail == s.tail
  {
  }

  lemma {:induction false} DequeuerStable<T>(s: State<T>, rank: Ranking, s': State<T>, rank': Ranking, pc: Pc<T>)
    requires !Enqueues(pc) && Later(s, rank, s', rank')
    requires PcOk(s, rank, pc) && KeepsOwn(s', rank', pc)
    ensures PcOk(s', rank', pc)
  {
  }

  lemma {:induction false} PcStable<T>(s: State<T>, rank: Ranking, s': State<T>, rank': Ranking, pc: Pc<T>)
    requires Injective(rank) && Later(s, rank, s', rank')
    requires PcOk(s, rank, pc)
    requires KeepsOwn(s', rank', pc)
    ensures PcOk(s', rank', pc)
  {
    hide PcOk, Later, KeepsOwn, Injective, Enqueues;
    if Enqueues(pc) { EnqueuerStable(s, rank, s', rank', pc); } else { DequeuerStable(s, rank, s', rank', pc); }
  }

  /** A step of thread t leaves what the other threads know true. */
  lemma {:induction false} OthersStable<T>(s: State<T>, rank: Ranking, t: Thread, s': State<T>, rank': Ranking)
    requires Injective(rank) && ThreadsOk(s, rank) && t in s.pc
    requires t in s'.pc && s'.pc == s.pc[t := s'.pc[t]]
    requires Later(s, rank, s', rank') && OthersKeepOwn(s, t, s', rank')
    requires PcOk(s', rank', s'.pc[t])
    ensures ThreadsOk(s', rank')
  {
    hide PcOk, Later, KeepsOwn, Injective;
    forall u <- s'.pc ensures PcOk(s', rank', s'.pc[u]) {
      if u != t { PcStable(s, rank, s', rank', s.pc[u]); }
    }
  }

  lemma ThreadKnows<T>(s: State<T>, rank: Ranking, t: Thread)
    requires ThreadsOk(s, rank) && t in s.pc
    ensures PcOk(s, rank, s.pc[t])
  {
    hide PcOk;
  }

  /** What the other threads own is theirs alone. */
  lemma {:induction false} OthersOwn<T>(s: State<T>, rank: Ranking, t: Thread)
    requires ThreadsOk(s, rank) && OwnersOk(s.pc) && t in s.pc
    ensures OthersKeepOwn(s, t, s, rank)
    ensures forall u <- s.pc | u != t :: Owned(s.pc[u]).None? || Owned(s.pc[u]) != Owned(s.pc[t])
  {
    hide ThreadsOk;
    forall u <- s.pc | u != t ensures KeepsOwn(s, rank, s.pc[u]) {
      ThreadKnows(s, rank, u);
    }
  }

  lemma OwnersStay<T>(pc: map<Thread, Pc<T>>, t: Thread, pc': Pc<T>)
    requires OwnersOk(pc) && t in pc
    requires Owned(pc').None? || Owned(pc') == Owned(pc[t])
    ensures OwnersOk(pc[t := pc'])
  {
    hide Owned;
  }

  lemma LagStays<T>(tail: Tagged, pc: map<Thread, Pc<T>>, rank: Ranking, t: Thread, pc': Pc<T>)
    requires LagOk(tail, pc, rank) && t in pc
    requires forall n :: Swinging(pc[t], n) && n in rank && rank[n] + 1 == |rank| ==>
               Swinging(pc', n) || At(rank, tail) + 1 == |rank|
    ensures LagOk(tail, pc[t := pc'], rank)
  {
    hide Swinging, At;
    if At(rank, tail) + 1 != |rank| {
      var u, n :| u in pc && Swinging(pc[u], n) && n in rank && rank[n] + 1 == |rank|;
      assert Swinging(pc[t := pc'][u], n);
    }
  }

  lemma RetiredStays<T>(head: Tagged, retired: set<NodeId>, pc: map<Thread, Pc<T>>, rank: Ranking, t: Thread,
                        pc': Pc<T>)
    requires RetiredOk(head, retired, pc, rank) && t in pc
    requires !pc[t].DeqRetire?
    ensures RetiredOk(head, retired, pc[t := pc'], rank)
  {
    hide At;
    forall n <- rank | rank[n] < At(rank, head) && n !in retired
      ensures BeingRetired(pc[t := pc'], n)
    {
      var u :| u in pc && Retiring(pc[u], n);
      assert Retiring(pc[t := pc'][u], n);
    }
  }

  /** A step that only moves thread t on. */
  lemma {:induction false} LocalStep<T>(s: State<T>, rank: Ranking, t: Thread, pc: Pc<T>)
    requires Shape(s, rank) && t in s.pc && !s.pc[t].DeqRetire? && !pc.DeqRetire?
    requires PcOk(Go(s, t, pc), rank, pc)
    requires Owned(pc) == Owned(s.pc[t])
    requires forall n :: Swinging(s.pc[t], n) ==> Swinging(pc, n)
    ensures Shape(Go(s, t, pc), rank)
  {
    hide PcOk, ThreadsOk, ChainOk, OwnersOk, LagOk, RetiredOk, Owned;
    var s' := Go(s, t, pc);
    assert ChainOk(s'.nodes, rank);
    OwnersStay(s.pc, t, pc);
    LagStays(s.tail, s.pc, rank, t, pc);
    RetiredStays(s.head, s.retired, s.pc, rank, t, pc);
    OthersOwn(s, rank, t);
    assert OthersKeepOwn(s, t, s', rank) by {
      forall u <- s.pc | u != t ensures KeepsOwn(s', rank, s.pc[u]) { assert KeepsOwn(s, rank, s.pc[u]); }
    }
    ChainIsInjective(s.nodes, rank);
    OthersStable(s, rank, t, s', rank);
  }

  lemma ChainIsInjective<T>(nodes: map<NodeId, Node<T>>, rank: Ranking)
    requires ChainOk(nodes, rank)
    ensures Injective(rank)
  {
  }

  /** A new owner: t comes to own a node that no other thread owns. */
  lemma OwnersGrow<T>(pc: map<Thread, Pc<T>>, t: Thread, pc': Pc<T>)
    requires OwnersOk(pc) && t in pc
    requires forall u <- pc | u != t :: Owned(pc[u]).None? || Owned(pc[u]) != Owned(pc')
    ensures OwnersOk(pc[t := pc'])
  {
    hide Owned;
  }

  lemma {:induction false} AllocateKeepsShape<T>(s: State<T>, rank: Ranking, t: Thread, v: T, n: NodeId)
    requires Shape(s, rank) && t in s.pc && s.pc[t].Idle? && FreshId(s, n)
    ensures Shape(StepCall(s, t, Enqueue(v), n).0, rank)
  {
    hide PcOk, ThreadsOk, OwnersOk, LagOk, RetiredOk, ChainOk, KeepsOwn;
    var pc: Pc<T> := EnqLoadTail(n);
    var s' := StepCall(s, t, Enqueue(v), n).0;
    ChainKeepsUnlinked(s.nodes, rank, n, Node(v, NULL_TAGGED));
    ChainIsInjective(s.nodes, rank);
    forall u <- s.pc | u != t
      ensures KeepsOwn(s', rank, s.pc[u]) && (Owned(s.pc[u]).None? || Owned(s.pc[u]) != Some(n))
    {
      ThreadKnows(s, rank, u);
      AllocationIsNew(s, rank, s.pc[u], n, Node(v, NULL_TAGGED), s');
    }
    OwnersGrow(s.pc, t, pc);
    LagStays(s.tail, s.pc, rank, t, pc);
    RetiredStays(s.head, s.retired, s.pc, rank, t, pc);
    assert PcOk(s', rank, pc) by { PcFresh(s', rank, n); }
    OthersStable(s, rank, t, s', rank);
  }

  lemma PcFresh<T>(s: State<T>, rank: Ranking, n: NodeId)
    requires Fresh(s, rank, n)
    ensures PcOk(s, rank, EnqLoadTail(n))
  {
  }

  lemma AllocationIsNew<T>(s: State<T>, rank: Ranking, pc: Pc<T>, n: NodeId, node: Node<T>, s': State<T>)
    requires PcOk(s, rank, pc) && rank.Keys <= s.nodes.Keys && n !in s.nodes
    requires s'.nodes == s.nodes[n := node] && s'.retired == s.retired
    ensures KeepsOwn(s', rank, pc) && (Owned(pc).None? || Owned(pc) != Some(n))
  {
  }

  lemma ChainKeepsUnlinked<T>(nodes: map<NodeId, Node<T>>, rank: Ranking, n: NodeId, node: Node<T>)
    requires ChainOk(nodes, rank) && n !in nodes
    ensures ChainOk(nodes[n := node], rank) && n !in rank && rank.Keys <= nodes.Keys
  {
    forall m | m in rank ensures LinkOk(nodes[n := node], rank, m) {
      assert LinkOk(nodes, rank, m);
    }
  }

  lemma NextOfGrows(rank: Ranking, k: nat, next: Tagged, n: NodeId)
    requires NextOf(rank, k, next) && n !in rank
    ensures NextOf(rank[n := |rank|], k, next)
  {
  }

  /** The link: last.next goes from null to n, and n gets the next rank. */
  lemma {:induction false} ChainGrows<T>(nodes: map<NodeId, Node<T>>, rank: Ranking, last: NodeId, n: NodeId,
                                         next: Tagged)
    requires ChainOk(nodes, rank)
    requires last in rank && nodes[last].next.ptr.None?
    requires n in nodes && n !in rank && nodes[n].next == NULL_TAGGED
    requires next == Tagged(Some(n), 1)
    ensures rank[last] == |rank| - 1
    ensures ChainOk(nodes[last := nodes[last].(next := next)], rank[n := |rank|])
  {
    hide NextOf, Injective;
    var rank' := rank[n := |rank|];
    var nodes' := nodes[last := nodes[last].(next := next)];
    assert |rank'| == |rank| + 1;
    NewLink(rank, n, next);
    InjectiveGrows(rank, n);
    assert LinkOk(nodes, rank, last);
    forall m | m in rank' ensures LinkOk(nodes', rank', m) {
      if m != last && m != n {
        assert LinkOk(nodes, rank, m);
        NextOfGrows(rank, rank[m], nodes[m].next, n);
        Distinct(rank, m, last);
      }
    }
  }

  lemma NewLink(rank: Ranking, n: NodeId, next: Tagged)
    requires n !in rank && next == Tagged(Some(n), 1)
    ensures |rank| > 0 ==> NextOf(rank[n := |rank|], |rank| - 1, next)
    ensures NextOf(rank[n := |rank|], |rank|, NULL_TAGGED)
  {
  }

  lemma Distinct(rank: Ranking, m: NodeId, n: NodeId)
    requires Injective(rank) && m in rank && n in rank && m != n
    ensures rank[m] != rank[n]
  {
  }

  lemma InjectiveGrows(rank: Ranking, n: NodeId)
    requires Injective(rank) && n !in rank && forall m <- rank :: rank[m] < |rank|
    ensures Injective(rank[n := |rank|])
  {
  }

  lemma {:induction false} LinkKeepsShape<T>(s: State<T>, rank: Ranking, t: Thread, n: NodeId, tail: Tagged,
                                             next: Tagged)
    requires Shape(s, rank) && t in s.pc && s.pc[t] == EnqLink(n, tail, next)
    requires Deref(s, tail) && n in s.nodes && s.nodes[tail.ptr.value].next == next
    ensures Shape(StepLink(s, t, n, tail, next).0, rank[n := |rank|])
  {
    hide PcOk, ThreadsOk, OwnersOk, LagOk, ChainOk, RetiredOk;
    ThreadKnows(s, rank, t);
    AtLink(s, rank, n, tail, next);
    var pc: Pc<T> := EnqLoadTag(n, tail);
    var s' := StepLink(s, t, n, tail, next).0;
    var rank' := rank[n := |rank|];
    var last := tail.ptr.value;
    ChainGrows(s.nodes, rank, last, n, Tagged(Some(n), 1));
    RankBound(s.nodes, rank, s.tail);
    OthersOwn(s, rank, t);
    OwnersStay(s.pc, t, pc);
    RetiredStays(s.head, s.retired, s.pc, rank, t, pc);
    RetiredGrows(s.head, s.retired, s'.pc, rank, n);
    assert LagOk(s'.tail, s'.pc, rank') by { LinkLag(s'.tail, s'.pc, rank', t, n); }
    assert OthersKeepOwn(s, t, s', rank') by {
      forall u <- s.pc | u != t ensures KeepsOwn(s', rank', s.pc[u]) { assert KeepsOwn(s, rank, s.pc[u]); }
    }
    PcLinked(s', rank', n, tail);
    ChainIsInjective(s.nodes, rank);
    OthersStable(s, rank, t, s', rank');
  }

  lemma AtLink<T>(s: State<T>, rank: Ranking, n: NodeId, tail: Tagged, next: Tagged)
    requires PcOk(s, rank, EnqLink(n, tail, next))
    ensures Fresh(s, rank, n) && OldTail(s, rank, tail) && next == NULL_TAGGED
  {
  }

  lemma PcLinked<T>(s: State<T>, rank: Ranking, n: NodeId, tail: Tagged)
    requires OldTail(s, rank, tail) && n in rank && rank[n] == At(rank, tail) + 1
    ensures PcOk(s, rank, EnqLoadTag(n, tail))
  {
  }

  lemma LinkLag<T>(tail: Tagged, pc: map<Thread, Pc<T>>, rank: Ranking, t: Thread, n: NodeId)
    requires t in pc && pc[t].EnqLoadTag? && pc[t].n == n && n in rank && rank[n] + 1 == |rank|
    ensures LagOk(tail, pc, rank)
  {
    assert Swinging(pc[t], n);
  }

  lemma RankBound<T>(nodes: map<NodeId, Node<T>>, rank: Ranking, p: Tagged)
    requires ChainOk(nodes, rank) && Reached(rank, p)
    ensures At(rank, p) < |rank| && p.ptr.value in nodes
  {
  }

  lemma RetiredGrows<T>(head: Tagged, retired: set<NodeId>, pc: map<Thread, Pc<T>>, rank: Ranking, n: NodeId)
    requires RetiredOk(head, retired, pc, rank) && Reached(rank, head) && At(rank, head) <= |rank| && n !in rank
    ensures RetiredOk(head, retired, pc, rank[n := |rank|])
  {
    hide BeingRetired;
  }

  lemma NextTagOf(p: Tagged, k: nat)
    requires p.tag == TagOf(k)
    ensures p.NextTag() == TagOf(k + 1)
  {
  }

  /** The compare-exchange of `tail_` moves the tail up one rank, or fails. */
  lemma {:induction false} SwingEnds<T>(s: State<T>, rank: Ranking, expected: Tagged, desired: Tagged)
    requires ChainOk(s.nodes, rank) && EndsOk(s.head, s.tail, rank)
    requires Reached(rank, expected) && desired.ptr.Some? && desired.ptr.value in rank
    requires rank[desired.ptr.value] == At(rank, expected) + 1
    requires s.tail == expected ==> desired.tag == expected.NextTag()
    ensures var tail' := SwingTail(s, expected, desired).tail;
      && EndsOk(s.head, tail', rank)
      && (s.tail != expected ==> tail' == s.tail && At(rank, expected) != At(rank, s.tail))
      && (s.tail == expected ==> At(rank, tail') == At(rank, s.tail) + 1 && At(rank, tail') + 1 == |rank|)
  {
    hide TagOf, ChainOk;
    NextTagOf(expected, At(rank, expected));
    RankBound(s.nodes, rank, s.tail);
    RankBound(s.nodes, rank, Tagged(desired.ptr, TagOf(rank[desired.ptr.value])));
    ChainIsInjective(s.nodes, rank);
    if At(rank, expected) == At(rank, s.tail) {
      assert expected.ptr == s.tail.ptr;
    }
  }

  lemma {:induction false} SwingKeepsShape<T>(s: State<T>, rank: Ranking, t: Thread, expected: Tagged,
                                              desired: Tagged, pc: Pc<T>)
    requires Shape(s, rank) && t in s.pc && !s.pc[t].DeqRetire? && !pc.DeqRetire?
    requires Reached(rank, expected) && desired.ptr.Some? && desired.ptr.value in rank
    requires rank[desired.ptr.value] == At(rank, expected) + 1 && At(rank, expected) <= At(rank, s.tail)
    requires s.tail == expected ==> desired.tag == expected.NextTag()
    requires PcOk(Go(SwingTail(s, expected, desired), t, pc), rank, pc)
    requires Owned(pc) == Owned(s.pc[t])
    requires forall n :: Swinging(s.pc[t], n) ==> n == desired.ptr.value
    ensures Shape(Go(SwingTail(s, expected, desired), t, pc), rank)
  {
    hide PcOk, ThreadsOk, OwnersOk, LagOk, RetiredOk, ChainOk, Owned;
    var s' := Go(SwingTail(s, expected, desired), t, pc);
    SwingEnds(s, rank, expected, desired);
    assert ChainOk(s'.nodes, rank);
    OthersOwn(s, rank, t);
    OwnersStay(s.pc, t, pc);
    RetiredStays(s.head, s.retired, s.pc, rank, t, pc);
    if s.tail != expected {
      RankBound(s.nodes, rank, s.tail);
      LagStays(s.tail, s.pc, rank, t, pc);
    } else {
      NoLag(s'.tail, s'.pc, rank);
    }
    assert OthersKeepOwn(s, t, s', rank) by {
      forall u <- s.pc | u != t ensures KeepsOwn(s', rank, s.pc[u]) { assert KeepsOwn(s, rank, s.pc[u]); }
    }
    ChainIsInjective(s.nodes, rank);
    OthersStable(s, rank, t, s', rank);
  }

  lemma NoLag<T>(tail: Tagged, pc: map<Thread, Pc<T>>, rank: Ranking)
    requires At(rank, tail) + 1 == |rank|
    ensures LagOk(tail, pc, rank)
  {
  }

  lemma {:induction false} TakeKeepsShape<T>(s: State<T>, rank: Ranking, t: Thread, head: Tagged, next: Tagged, v: T)
    requires Shape(s, rank) && t in s.pc && s.pc[t] == DeqTake(head, next, v) && s.head == head
    ensures Shape(Go(s.(head := Tagged(next.ptr, head.NextTag())), t, DeqRetire(head, v)), rank)
  {
    hide PcOk, ThreadsOk, OwnersOk, LagOk, RetiredOk, ChainOk, TagOf;
    ThreadKnows(s, rank, t);
    AtTake(s, rank, head, next, v);
    var pc := DeqRetire(head, v);
    var s' := Go(s.(head := Tagged(next.ptr, head.NextTag())), t, pc);
    NextTagOf(head, At(rank, head));
    assert EndsOk(s'.head, s'.tail, rank);
    TakeOwners(s, rank, t);
    OwnersGrow(s.pc, t, pc);
    LagStays(s.tail, s.pc, rank, t, pc);
    ChainIsInjective(s.nodes, rank);
    TakeRetired(s.head, s.retired, s.pc, rank, t, pc, s'.head);
    assert OthersKeepOwn(s, t, s', rank) by {
      forall u <- s.pc | u != t ensures KeepsOwn(s', rank, s.pc[u]) { assert KeepsOwn(s, rank, s.pc[u]); }
    }
    PcRetiring(s', rank, head, v);
    OthersStable(s, rank, t, s', rank);
  }

  lemma AtTake<T>(s: State<T>, rank: Ranking, head: Tagged, next: Tagged, v: T)
    requires PcOk(s, rank, DeqTake(head, next, v))
    ensures OldHead(s, rank, head) && At(rank, head) < At(rank, s.tail)
    ensures NextOf(rank, At(rank, head), next) && next.ptr.Some?
  {
  }

  /** The dummy is nobody's until the head CAS gives it to the thread that won. */
  lemma {:induction false} TakeOwners<T>(s: State<T>, rank: Ranking, t: Thread)
    requires Shape(s, rank) && t in s.pc
    ensures OthersKeepOwn(s, t, s, rank)
    ensures forall u <- s.pc | u != t :: Owned(s.pc[u]).None? || Owned(s.pc[u]) != s.head.ptr
    ensures s.head.ptr.value !in s.retired
  {
    hide ThreadsOk, OwnersOk, LagOk, ChainOk;
    OthersOwn(s, rank, t);
    forall u <- s.pc | u != t ensures Owned(s.pc[u]).None? || Owned(s.pc[u]) != s.head.ptr {
      ThreadKnows(s, rank, u);
    }
  }

  lemma PcRetiring<T>(s: State<T>, rank: Ranking, head: Tagged, v: T)
    requires Reached(rank, head) && Reached(rank, s.head) && At(rank, head) < At(rank, s.head)
    requires head.ptr.value !in s.retired
    ensures PcOk(s, rank, DeqRetire(head, v))
  {
  }

  lemma TakeRetired<T>(head: Tagged, retired: set<NodeId>, pc: map<Thread, Pc<T>>, rank: Ranking,
                       t: Thread, pc': Pc<T>, head': Tagged)
    requires RetiredOk(head, retired, pc, rank) && t in pc && !pc[t].DeqRetire? && Injective(rank)
    requires Reached(rank, head) && At(rank, head') == At(rank, head) + 1
    requires pc'.DeqRetire? && pc'.head == head
    ensures RetiredOk(head', retired, pc[t := pc'], rank)
  {
    hide RetiredOk;
    RetiredStays(head, retired, pc, rank, t, pc');
    var all := pc[t := pc'];
    assert Retiring(all[t], head.ptr.value);
    assert BeingRetired(all, head.ptr.value);
    assert RetiredOk(head', retired, all, rank) by { RetiredAdvance(head, retired, all, rank, head'); }
  }

  lemma RetiredAdvance<T>(head: Tagged, retired: set<NodeId>, pc: map<Thread, Pc<T>>, rank: Ranking, head': Tagged)
    requires RetiredOk(head, retired, pc, rank) && Injective(rank)
    requires Reached(rank, head) && At(rank, head') == At(rank, head) + 1 && BeingRetired(pc, head.ptr.value)
    ensures RetiredOk(head', retired, pc, rank)
  {
    hide BeingRetired;
  }

  lemma {:induction false} RetireKeepsShape<T>(s: State<T>, rank: Ranking, t: Thread, head: Tagged, v: T)
    requires Shape(s, rank) && t in s.pc && s.pc[t] == DeqRetire(head, v)
    ensures head.ptr.Some? && Shape(Go(s.(retired := s.retired + {head.ptr.value}), t, Idle), rank)
  {
    hide PcOk, ThreadsOk, OwnersOk, LagOk, RetiredOk, ChainOk, KeepsOwn;
    ThreadKnows(s, rank, t);
    AtRetire(s, rank, head, v);
    var s' := Go(s.(retired := s.retired + {head.ptr.value}), t, Idle);
    OthersOwn(s, rank, t);
    OwnersStay(s.pc, t, Idle);
    LagStays(s.tail, s.pc, rank, t, Idle);
    RetireDone(s.head, s.retired, s.pc, rank, t, head.ptr.value);
    assert OthersKeepOwn(s, t, s', rank) by {
      forall u <- s.pc | u != t ensures KeepsOwn(s', rank, s.pc[u]) {
        RetireLeavesOwn(s, rank, s.pc[u], head.ptr.value, s');
      }
    }
    ChainIsInjective(s.nodes, rank);
    assert PcOk(s', rank, Idle) by { PcIdle(s', rank); }
    OthersStable(s, rank, t, s', rank);
  }

  lemma AtRetire<T>(s: State<T>, rank: Ranking, head: Tagged, v: T)
    requires PcOk(s, rank, DeqRetire(head, v))
    ensures Reached(rank, head) && At(rank, head) < At(rank, s.head)
  {
  }

  lemma RetireLeavesOwn<T>(s: State<T>, rank: Ranking, pc: Pc<T>, n: NodeId, s': State<T>)
    requires KeepsOwn(s, rank, pc) && (Owned(pc).None? || Owned(pc) != Some(n))
    requires s'.nodes == s.nodes && s'.retired == s.retired + {n}
    ensures KeepsOwn(s', rank, pc)
  {
  }

  lemma PcIdle<T>(s: State<T>, rank: Ranking)
    ensures PcOk(s, rank, Idle)
  {
  }

  lemma RetireDone<T>(head: Tagged, retired: set<NodeId>, pc: map<Thread, Pc<T>>, rank: Ranking, t: Thread, n: NodeId)
    requires RetiredOk(head, retired, pc, rank) && t in pc && Retiring(pc[t], n)
    requires n in rank && rank[n] < At(rank, head)
    ensures RetiredOk(head, retired + {n}, pc[t := Idle], rank)
  {
    forall m <- rank | rank[m] < At(rank, head) && m !in retired && m != n
      ensures BeingRetired(pc[t := Idle], m)
    {
      var u :| u in pc && Retiring(pc[u], m);
      assert Retiring(pc[t := Idle][u], m);
    }
  }

  lemma Knows<T>(s: State<T>, rank: Ranking, t: Thread)
    requires Shape(s, rank) && t in s.pc
    ensures PcOk(s, rank, s.pc[t])
    ensures ChainOk(s.nodes, rank) && EndsOk(s.head, s.tail, rank)
  {
    hide PcOk, ThreadsOk, OwnersOk, LagOk, RetiredOk, ChainOk, EndsOk;
    ThreadKnows(s, rank, t);
  }

  lemma ChainNext<T>(nodes: map<NodeId, Node<T>>, rank: Ranking, p: Tagged)
    requires ChainOk(nodes, rank) && Reached(rank, p)
    ensures p.ptr.value in nodes
    ensures var next := nodes[p.ptr.value].next;
      NextOf(rank, At(rank, p), next) && (next.ptr.None? <==> At(rank, p) == |rank| - 1)
  {
    assert LinkOk(nodes, rank, p.ptr.value);
  }

  lemma {:induction false} EnqueueLoadKeepsShape<T>(s: State<T>, rank: Ranking, t: Thread, call: Call<T>, id: NodeId)
    requires Shape(s, rank) && Safe(s, t) && FreshId(s, id)
    requires s.pc[t].EnqLoadTail? || s.pc[t].EnqLoadNext? || s.pc[t].EnqLoadTag?
    ensures Shape(Step(s, t, call, id).0, NextRank(s, t, rank))
  {
    hide Shape, ChainOk;
    Knows(s, rank, t);
    match s.pc[t] {
      case EnqLoadTail(n) => LocalStep(s, rank, t, EnqLoadNext(n, s.tail));
      case EnqLoadNext(n, tail) =>
        ChainNext(s.nodes, rank, tail);
        LocalStep(s, rank, t, EnqCheck(n, tail, s.nodes[tail.ptr.value].next));
      case EnqLoadTag(n, tail) => LocalStep(s, rank, t, EnqSwing(n, tail, s.tail.NextTag()));
    }
  }

  lemma {:induction false} EnqueueCheckKeepsShape<T>(s: State<T>, rank: Ranking, t: Thread, call: Call<T>, id: NodeId)
    requires Shape(s, rank) && Safe(s, t) && FreshId(s, id)
    requires s.pc[t].EnqCheck?
    ensures Shape(Step(s, t, call, id).0, NextRank(s, t, rank))
  {
    hide Shape, ChainOk;
    Knows(s, rank, t);
    var EnqCheck(n, tail, next) := s.pc[t];
    if tail != s.tail { LocalStep(s, rank, t, EnqLoadTail(n)); }
    else if next.ptr.None? { LocalStep(s, rank, t, EnqLink(n, tail, next)); }
    else { LocalStep(s, rank, t, EnqHelp(n, tail, next)); }
  }

  lemma {:induction false} EnqueueCasKeepsShape<T>(s: State<T>, rank: Ranking, t: Thread, call: Call<T>, id: NodeId)
    requires Shape(s, rank) && Safe(s, t) && FreshId(s, id)
    requires s.pc[t].EnqLink? || s.pc[t].EnqSwing? || s.pc[t].EnqHelp?
    ensures Shape(Step(s, t, call, id).0, NextRank(s, t, rank))
  {
    hide Shape, ChainOk;
    Knows(s, rank, t);
    match s.pc[t] {
      case EnqLink(n, tail, next) =>
        if s.nodes[tail.ptr.value].next == next { LinkKeepsShape(s, rank, t, n, tail, next); }
        else { LocalStep(s, rank, t, EnqLoadTail(n)); }
      case EnqSwing(n, tail, tag) => SwingKeepsShape(s, rank, t, tail, Tagged(Some(n), tag), Idle);
      case EnqHelp(n, tail, next) =>
        SwingKeepsShape(s, rank, t, tail, Tagged(next.ptr, tail.NextTag()), EnqLoadTail(n));
    }
  }

  lemma {:induction false} DequeueLoadKeepsShape<T>(s: State<T>, rank: Ranking, t: Thread, call: Call<T>, id: NodeId)
    requires Shape(s, rank) && Safe(s, t) && FreshId(s, id)
    requires s.pc[t].DeqLoadHead? || s.pc[t].DeqLoadTail? || s.pc[t].DeqLoadNext? || s.pc[t].DeqRead?
    ensures Shape(Step(s, t, call, id).0, NextRank(s, t, rank))
  {
    hide Shape, ChainOk;
    Knows(s, rank, t);
    match s.pc[t] {
      case DeqLoadHead => LocalStep(s, rank, t, DeqLoadTail(s.head));
      case DeqLoadTail(head) => LocalStep(s, rank, t, DeqLoadNext(head, s.tail));
      case DeqLoadNext(head, tail) =>
        ChainNext(s.nodes, rank, head);
        RankBound(s.nodes, rank, tail);
        LocalStep(s, rank, t, DeqCheck(head, tail, s.nodes[head.ptr.value].next));
      case DeqRead(head, next) => LocalStep(s, rank, t, DeqTake(head, next, s.nodes[next.ptr.value].data));
    }
  }

  lemma {:induction false} DequeueCheckKeepsShape<T>(s: State<T>, rank: Ranking, t: Thread, call: Call<T>, id: NodeId)
    requires Shape(s, rank) && Safe(s, t) && FreshId(s, id)
    requires s.pc[t].DeqCheck?
    ensures Shape(Step(s, t, call, id).0, NextRank(s, t, rank))
  {
    hide Shape, ChainOk;
    Knows(s, rank, t);
    ChainIsInjective(s.nodes, rank);
    var DeqCheck(head, tail, next) := s.pc[t];
    if head != s.head { LocalStep(s, rank, t, DeqLoadHead); }
    else if head.ptr == tail.ptr {
      if next.ptr.None? { LocalStep(s, rank, t, Idle); } else { LocalStep(s, rank, t, DeqHelp(tail, next)); }
    } else { LocalStep(s, rank, t, DeqRead(head, next)); }
  }

  lemma {:induction false} DequeueCasKeepsShape<T>(s: State<T>, rank: Ranking, t: Thread, call: Call<T>, id: NodeId)
    requires Shape(s, rank) && Safe(s, t) && FreshId(s, id)
    requires s.pc[t].DeqHelp? || s.pc[t].DeqTake? || s.pc[t].DeqRetire?
    ensures Shape(Step(s, t, call, id).0, NextRank(s, t, rank))
  {
    hide Shape, ChainOk;
    Knows(s, rank, t);
    match s.pc[t] {
      case DeqHelp(tail, next) =>
        SwingKeepsShape(s, rank, t, tail, Tagged(next.ptr, tail.NextTag()), DeqLoadHead);
      case DeqTake(head, next, value) =>
        if s.head == head { TakeKeepsShape(s, rank, t, head, next, value); }
        else { LocalStep(s, rank, t, DeqLoadHead); }
      case DeqRetire(head, value) => RetireKeepsShape(s, rank, t, head, value);
    }
  }

  lemma {:induction false} EmptyKeepsShape<T>(s: State<T>, rank: Ranking, t: Thread, call: Call<T>, id: NodeId)
    requires Shape(s, rank) && Safe(s, t) && FreshId(s, id)
    requires s.pc[t].EmpLoad? || s.pc[t].EmpCompare?
    ensures Shape(Step(s, t, call, id).0, NextRank(s, t, rank))
  {
    hide Shape, ChainOk;
    Knows(s, rank, t);
    if s.pc[t].EmpLoad? {
      var tailFirst := s.pc[t].tailFirst;
      LocalStep(s, rank, t, EmpCompare(tailFirst, if tailFirst then s.tail else s.head));
    } else {
      LocalStep(s, rank, t, Idle);
    }
  }

  /** Main safety theorem: every step of every thread keeps the shape. */
  lemma {:induction false} StepKeepsShape<T>(s: State<T>, rank: Ranking, t: Thread, call: Call<T>, id: NodeId)
    requires Shape(s, rank) && Safe(s, t) && FreshId(s, id)
    ensures Shape(Step(s, t, call, id).0, NextRank(s, t, rank))
  {
    hide Shape, PcOk;
    var pc := s.pc[t];
    if pc.Idle? {
      match call {
        case Enqueue(v) => AllocateKeepsShape(s, rank, t, v, id);
        case TryDequeue => CallKeepsShape(s, rank, t, DeqLoadHead);
        case Empty(tailFirst) => CallKeepsShape(s, rank, t, EmpLoad(tailFirst));
      }
    } else if pc.EnqLoadTail? || pc.EnqLoadNext? || pc.EnqLoadTag? {
      EnqueueLoadKeepsShape(s, rank, t, call, id);
    } else if pc.EnqCheck? {
      EnqueueCheckKeepsShape(s, rank, t, call, id);
    } else if pc.EnqLink? || pc.EnqSwing? || pc.EnqHelp? {
      EnqueueCasKeepsShape(s, rank, t, call, id);
    } else if pc.DeqCheck? {
      DequeueCheckKeepsShape(s, rank, t, call, id);
    } else if pc.DeqHelp? || pc.DeqTake? || pc.DeqRetire? {
      DequeueCasKeepsShape(s, rank, t, call, id);
    } else if pc.EmpLoad? || pc.EmpCompare? {
      EmptyKeepsShape(s, rank, t, call, id);
    } else {
      DequeueLoadKeepsShape(s, rank, t, call, id);
    }
  }

  lemma CallKeepsShape<T>(s: State<T>, rank: Ranking, t: Thread, pc: Pc<T>)
    requires Shape(s, rank) && t in s.pc && s.pc[t].Idle? && (pc.DeqLoadHead? || pc.EmpLoad?)
    ensures Shape(Go(s, t, pc), rank)
  {
    hide Shape;
    LocalStep(s, rank, t, pc);
  }
}
