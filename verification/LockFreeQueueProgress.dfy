/** What the shape means in the queue's own terms, how the tags move, and that a
    thread left alone finishes its call. */
module LockFreeQueueProgress {
  import opened Basics
  import opened LockFreeQueue
  import opened LockFreeQueueShape
  import opened LockFreeQueueLinear

  // ---------------------------------------------------------------------
  // Shape
  // ---------------------------------------------------------------------

  /** The node k links after p. */
  function Follow<T>(nodes: map<NodeId, Node<T>>, p: Option<NodeId>, k: nat): Option<NodeId>
    decreases k
  {
    if k == 0 || p.None? || p.value !in nodes then p else Follow(nodes, nodes[p.value].next.ptr, k - 1)
  }

  lemma {:induction false} FollowRanks<T>(nodes: map<NodeId, Node<T>>, rank: Ranking, m: NodeId, n: NodeId)
    requires ChainOk(nodes, rank) && m in rank && n in rank && rank[m] <= rank[n]
    ensures Follow(nodes, Some(m), rank[n] - rank[m]) == Some(n)
    decreases rank[n] - rank[m]
  {
    hide ChainOk;
    InChain(nodes, rank, m);
    InChain(nodes, rank, n);
    ChainIsInjective(nodes, rank);
    if rank[m] < rank[n] {
      FollowRanks(nodes, rank, nodes[m].next.ptr.value, n);
    }
  }

  /** The chain from the head reaches the tail, and the tail is the last node
      except while the enqueue that linked the last node has yet to swing it. */
  lemma {:induction false} QueueShape<T>(s: State<T>)
    requires Inv(s)
    ensures Deref(s, s.head) && Deref(s, s.tail)
    ensures exists k :: Follow(s.nodes, s.head.ptr, k) == s.tail.ptr
    ensures var next := s.nodes[s.tail.ptr.value].next.ptr;
      next.Some? ==>
        && next.value in s.nodes && s.nodes[next.value].next.ptr.None?
        && exists t :: t in s.pc && Swinging(s.pc[t], next.value)
  {
    var rank :| Shape(s, rank);
    hide ThreadsOk, OwnersOk, RetiredOk, ChainOk, TagOf;
    var h, l := s.head.ptr.value, s.tail.ptr.value;
    InChain(s.nodes, rank, h);
    InChain(s.nodes, rank, l);
    FollowRanks(s.nodes, rank, h, l);
    ChainIsInjective(s.nodes, rank);
    var next := s.nodes[l].next.ptr;
    if next.Some? {
      InChain(s.nodes, rank, next.value);
      var t, n :| t in s.pc && Swinging(s.pc[t], n) && n in rank && rank[n] + 1 == |rank|;
      assert n == next.value;
    }
  }

  /** The only value there is of an enqueue that has not returned. */
  ghost predicate HoldsUnreturned<T>(s: State<T>) {
    exists t, n :: t in s.pc && Swinging(s.pc[t], n) && n in s.nodes && Contents(s) == [s.nodes[n].data]
  }

  /** When the two ends are equal at one moment, the queue is empty then or holds
      one value, of an enqueue that has not returned. */
  lemma {:induction false} EndsAgree<T>(s: State<T>)
    requires Inv(s) && s.head.ptr == s.tail.ptr
    ensures Contents(s) == [] || HoldsUnreturned(s)
  {
    var rank :| Shape(s, rank);
    QueueShape(s);
    hide Shape;
    var next := s.nodes[s.tail.ptr.value].next.ptr;
    if next.Some? {
      var t :| t in s.pc && Swinging(s.pc[t], next.value);
      assert Walk(s.nodes, next, |s.nodes|) == [s.nodes[next.value].data] + [] by {
        assert |s.nodes| > 0;
      }
    }
  }

  /** The end is where it was, or at the next node with the next tag. */
  predicate MovesToNext<T>(nodes: map<NodeId, Node<T>>, end: Tagged, end': Tagged) {
    end' == end || (end.ptr.Some? && end.ptr.value in nodes &&
      end' == Tagged(nodes[end.ptr.value].next.ptr, end.NextTag()))
  }

  /** Each successful exchange of an end moves it to the next node and raises
      its tag by one, although enqueue loads the tag separately. */
  lemma {:induction false} EndsMoveByOne<T>(s: State<T>, rank: Ranking, t: Thread, call: Call<T>, id: NodeId)
    requires Safe(s, t) && FreshId(s, id)
    requires Shape(s, rank)
    ensures var s' := Step(s, t, call, id).0;
      MovesToNext(s.nodes, s.head, s'.head) && MovesToNext(s.nodes, s.tail, s'.tail)
  {
    hide Shape, ChainOk, TagOf, EndsOk, Walk;
    var pc := s.pc[t];
    if pc.EnqSwing? || pc.EnqHelp? || pc.DeqHelp? || pc.DeqTake? {
      Knows(s, rank, t);
      var n := if pc.EnqSwing? then pc.n else pc.next.ptr.value;
      TailInChain(s, rank);
      SuccessorIsNext(s.nodes, rank, if pc.DeqTake? then s.head else s.tail, n);
    }
  }

  lemma {:induction false} SuccessorIsNext<T>(nodes: map<NodeId, Node<T>>, rank: Ranking, p: Tagged, n: NodeId)
    requires ChainOk(nodes, rank) && Reached(rank, p) && n in rank
    ensures p.ptr.value in nodes
    ensures rank[n] == At(rank, p) + 1 ==> nodes[p.ptr.value].next.ptr == Some(n)
  {
    hide ChainOk, TagOf;
    InChain(nodes, rank, p.ptr.value);
    InChain(nodes, rank, n);
    ChainIsInjective(nodes, rank);
  }

  // ---------------------------------------------------------------------
  // A thread left alone finishes
  // ---------------------------------------------------------------------

  /** Steps that thread t still needs if no other thread moves.  What it loaded
      may be out of date, which costs one failed round; the tail may lag, which
      costs one round of helping. */
  function LinkCost<T>(s: State<T>, tail: Tagged, next: Tagged): nat {
    if Deref(s, tail) && s.nodes[tail.ptr.value].next == next then 3 else 11
  }

  function EnqHelpCost<T>(s: State<T>, tail: Tagged): nat {
    if tail == s.tail then 7 else 11
  }

  function EnqCheckCost<T>(s: State<T>, tail: Tagged, next: Tagged): nat {
    if tail != s.tail then 11
    else if next.ptr.None? then 1 + LinkCost(s, tail, next)
    else 1 + EnqHelpCost(s, tail)
  }

  function NextField<T>(s: State<T>, p: Tagged): Tagged {
    if Deref(s, p) then s.nodes[p.ptr.value].next else NULL_TAGGED
  }

  function DeqHelpCost<T>(s: State<T>, tail: Tagged): nat {
    if tail == s.tail then 8 else 13
  }

  function DeqCheckCost<T>(s: State<T>, head: Tagged, tail: Tagged, next: Tagged): nat {
    if head != s.head then 13
    else if head.ptr == tail.ptr then if next.ptr.None? then 1 else 1 + DeqHelpCost(s, tail)
    else 4
  }

  function Cost<T>(s: State<T>, pc: Pc<T>): nat {
    match pc {
      case Idle => 0
      case EnqSwing(_, _, _) => 1
      case EnqLoadTag(_, _) => 2
      case EnqLink(_, tail, next) => LinkCost(s, tail, next)
      case EnqHelp(_, tail, _) => EnqHelpCost(s, tail)
      case EnqCheck(_, tail, next) => EnqCheckCost(s, tail, next)
      case EnqLoadNext(_, tail) => 1 + EnqCheckCost(s, tail, NextField(s, tail))
      case EnqLoadTail(_) => 2 + EnqCheckCost(s, s.tail, NextField(s, s.tail))
      case DeqRetire(_, _) => 1
      case DeqTake(head, _, _) => if head == s.head then 2 else 13
      case DeqRead(head, _) => 1 + if head == s.head then 2 else 13
      case DeqHelp(tail, _) => DeqHelpCost(s, tail)
      case DeqCheck(head, tail, next) => DeqCheckCost(s, head, tail, next)
      case DeqLoadNext(head, tail) => 1 + DeqCheckCost(s, head, tail, NextField(s, head))
      case DeqLoadTail(head) => 2 + DeqCheckCost(s, head, s.tail, NextField(s, head))
      case DeqLoadHead => 3 + DeqCheckCost(s, s.head, s.tail, NextField(s, s.head))
      case EmpLoad(_) => 2
      case EmpCompare(_, _) => 1
    }
  }

  /** After a successful help the tail is the last node. */
  lemma {:induction false} HelpedTailIsLast<T>(s: State<T>, rank: Ranking, expected: Tagged, next: Tagged)
    requires ChainOk(s.nodes, rank) && EndsOk(s.head, s.tail, rank) && s.tail == expected
    requires NextOf(rank, At(rank, expected), next) && next.ptr.Some?
    ensures next.ptr.value in s.nodes && s.nodes[next.ptr.value].next == NULL_TAGGED
    ensures next == s.nodes[expected.ptr.value].next
  {
    hide ChainOk, TagOf;
    InChain(s.nodes, rank, next.ptr.value);
    InChain(s.nodes, rank, expected.ptr.value);
    ChainIsInjective(s.nodes, rank);
  }

  lemma {:induction false} EnqueueStepCosts<T>(s: State<T>, rank: Ranking, t: Thread, call: Call<T>, id: NodeId)
    requires Safe(s, t) && FreshId(s, id) && Enqueues(s.pc[t])
    requires Shape(s, rank)
    ensures var s' := Step(s, t, call, id).0; Cost(s', s'.pc[t]) < Cost(s, s.pc[t]) <= 16
  {
    hide Shape, ChainOk, TagOf, EndsOk;
    Knows(s, rank, t);
    var pc := s.pc[t];
    TailInChain(s, rank);
    if pc.EnqHelp? && pc.tail == s.tail {
      HelpedTailIsLast(s, rank, pc.tail, pc.next);
    } else if pc.EnqLoadTail? || pc.EnqLoadNext? || pc.EnqCheck? {
      ChainNext(s.nodes, rank, s.tail);
    }
  }

  lemma TailInChain<T>(s: State<T>, rank: Ranking)
    requires ChainOk(s.nodes, rank) && EndsOk(s.head, s.tail, rank)
    ensures Reached(rank, s.tail) && Deref(s, s.tail) && Reached(rank, s.head) && Deref(s, s.head)
  {
    hide ChainOk, TagOf;
    InChain(s.nodes, rank, s.tail.ptr.value);
    InChain(s.nodes, rank, s.head.ptr.value);
  }

  lemma {:induction false} DequeueLoadCosts<T>(s: State<T>, rank: Ranking, t: Thread, call: Call<T>, id: NodeId)
    requires Safe(s, t) && FreshId(s, id) && (s.pc[t].DeqLoadHead? || s.pc[t].DeqLoadTail? || s.pc[t].DeqLoadNext?)
    requires Shape(s, rank)
    ensures var s' := Step(s, t, call, id).0; Cost(s', s'.pc[t]) < Cost(s, s.pc[t]) <= 16
  {
    hide Shape, ChainOk, TagOf, EndsOk;
    Knows(s, rank, t);
    TailInChain(s, rank);
  }

  lemma {:induction false} DequeueCheckCosts<T>(s: State<T>, rank: Ranking, t: Thread, call: Call<T>, id: NodeId)
    requires Safe(s, t) && FreshId(s, id) && (s.pc[t].DeqHelp? || s.pc[t].DeqCheck?)
    requires Shape(s, rank)
    ensures var s' := Step(s, t, call, id).0; Cost(s', s'.pc[t]) < Cost(s, s.pc[t]) <= 16
  {
    hide Shape, ChainOk, TagOf, EndsOk;
    Knows(s, rank, t);
    var pc := s.pc[t];
    TailInChain(s, rank);
    ChainNext(s.nodes, rank, s.head);
    if pc.DeqHelp? && pc.tail == s.tail {
      HelpedTailIsLast(s, rank, pc.tail, pc.next);
    }
  }

  lemma {:induction false} DequeueTakeCosts<T>(s: State<T>, rank: Ranking, t: Thread, call: Call<T>, id: NodeId)
    requires Safe(s, t) && FreshId(s, id) && (s.pc[t].DeqRead? || s.pc[t].DeqTake? || s.pc[t].DeqRetire?)
    requires Shape(s, rank)
    ensures var s' := Step(s, t, call, id).0; Cost(s', s'.pc[t]) < Cost(s, s.pc[t]) <= 16
  {
    hide Shape, ChainOk, TagOf, EndsOk;
    Knows(s, rank, t);
    TailInChain(s, rank);
  }

  lemma EmptyCosts<T>(s: State<T>, t: Thread, call: Call<T>, id: NodeId)
    requires Safe(s, t) && FreshId(s, id) && (s.pc[t].EmpLoad? || s.pc[t].EmpCompare?)
    ensures var s' := Step(s, t, call, id).0; Cost(s', s'.pc[t]) < Cost(s, s.pc[t]) <= 16
  {
  }

  /** Every step of a call brings it nearer to its return. */
  lemma {:induction false} StepCosts<T>(s: State<T>, rank: Ranking, t: Thread, call: Call<T>, id: NodeId)
    requires Safe(s, t) && FreshId(s, id) && !s.pc[t].Idle?
    requires Shape(s, rank)
    ensures var s' := Step(s, t, call, id).0; Cost(s', s'.pc[t]) < Cost(s, s.pc[t]) <= 16
  {
    hide Shape, Cost, Step;
    var pc := s.pc[t];
    if Enqueues(pc) {
      EnqueueStepCosts(s, rank, t, call, id);
    } else if pc.DeqLoadHead? || pc.DeqLoadTail? || pc.DeqLoadNext? {
      DequeueLoadCosts(s, rank, t, call, id);
    } else if pc.DeqHelp? || pc.DeqCheck? {
      DequeueCheckCosts(s, rank, t, call, id);
    } else if pc.EmpLoad? || pc.EmpCompare? {
      EmptyCosts(s, t, call, id);
    } else {
      DequeueTakeCosts(s, rank, t, call, id);
    }
  }

  /** path is what happens when only thread t moves, from inside a call to its return. */
  ghost predicate Alone<T>(path: seq<State<T>>, t: Thread, call: Call<T>, id: NodeId) {
    && |path| > 0
    && (forall i | 0 <= i < |path| - 1 ::
          Safe(path[i], t) && FreshId(path[i], id) && !path[i].pc[t].Idle? &&
            Step(path[i], t, call, id).0 == path[i + 1])
    && t in path[|path| - 1].pc && path[|path| - 1].pc[t].Idle?
  }

  lemma StepKeepsIds<T>(s: State<T>, t: Thread, call: Call<T>, id: NodeId)
    requires Safe(s, t) && FreshId(s, id) && !s.pc[t].Idle?
    ensures Step(s, t, call, id).0.nodes.Keys == s.nodes.Keys
  {
  }

  /** Obstruction freedom: in every reachable state, a thread inside a call that
      runs alone returns after at most Cost <= 16 steps. */
  lemma {:induction false} AloneReturns<T>(s: State<T>, rank: Ranking, t: Thread, call: Call<T>, id: NodeId)
    returns (path: seq<State<T>>)
    requires Shape(s, rank) && t in s.pc && FreshId(s, id)
    ensures Alone(path, t, call, id) && path[0] == s && |path| <= Cost(s, s.pc[t]) + 1
    decreases Cost(s, s.pc[t])
  {
    hide Shape, Step, Cost, Safe;
    if s.pc[t].Idle? {
      path := [s];
    } else {
      ShapeIsSafe(s, rank, t);
      StepCosts(s, rank, t, call, id);
      StepKeepsShape(s, rank, t, call, id);
      StepKeepsIds(s, t, call, id);
      var s' := Step(s, t, call, id).0;
      var rest := AloneReturns(s', NextRank(s, t, rank), t, call, id);
      path := [s] + rest;
    }
  }
}
