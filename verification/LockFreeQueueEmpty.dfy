/** What empty() may conclude from its two loads, and that nothing comes of what is read
    through a node that was handed back. */
module LockFreeQueueEmpty {
  import opened Basics
  import opened LockFreeQueue
  import opened LockFreeQueueShape
  import opened LockFreeQueueLinear
  import opened LockFreeQueueProgress

  // ---------------------------------------------------------------------
  // Counting with ranks
  // ---------------------------------------------------------------------

  /** How the ends and the ranks count what happened: a link adds one rank, and a taken
      value moves the head up by one. */
  ghost predicate Counts<T>(s: State<T>, rank: Ranking, r: (State<T>, Event<T>), rank': Ranking) {
    && |rank'| == |rank| + (if r.1.Linked? then 1 else 0)
    && At(rank', r.0.head) == At(rank, s.head) + (if r.1.Took? then 1 else 0)
    && At(rank, s.tail) <= At(rank', r.0.tail)
    && (forall n <- rank :: n in rank' && rank'[n] == rank[n])
  }

  /** The steps that leave the ends and the chain alone, and those that may move the tail. */
  lemma {:induction false} TailCounts<T>(s: State<T>, rank: Ranking, t: Thread, call: Call<T>, id: NodeId)
    requires Safe(s, t) && FreshId(s, id) && !s.pc[t].EnqLink? && !s.pc[t].DeqTake?
    requires Shape(s, rank)
    ensures Counts(s, rank, Step(s, t, call, id), NextRank(s, t, rank))
  {
    hide Shape, ChainOk, TagOf, EndsOk, Walk;
    Knows(s, rank, t);
    TailInChain(s, rank);
  }

  lemma {:induction false} HeadCounts<T>(s: State<T>, rank: Ranking, t: Thread, call: Call<T>, id: NodeId)
    requires Safe(s, t) && FreshId(s, id) && (s.pc[t].EnqLink? || s.pc[t].DeqTake?)
    requires Shape(s, rank)
    ensures Counts(s, rank, Step(s, t, call, id), NextRank(s, t, rank))
  {
    hide Shape, ChainOk, TagOf, EndsOk, Walk;
    Knows(s, rank, t);
    TailInChain(s, rank);
  }

  lemma StepCounts<T>(s: State<T>, rank: Ranking, t: Thread, call: Call<T>, id: NodeId)
    requires Safe(s, t) && FreshId(s, id)
    requires Shape(s, rank)
    ensures Counts(s, rank, Step(s, t, call, id), NextRank(s, t, rank))
  {
    hide Shape, Step, Counts;
    if s.pc[t].EnqLink? || s.pc[t].DeqTake? {
      HeadCounts(s, rank, t, call, id);
    } else {
      TailCounts(s, rank, t, call, id);
    }
  }

  /** The rankings of a run up to state k, which grow. */
  lemma {:induction false} RunCounts<T>(states: seq<State<T>>, moves: seq<Move<T>>, k: nat)
    returns (ranks: seq<Ranking>)
    requires IsRun(states, moves) && k <= |moves|
    ensures |ranks| == k + 1
    ensures forall j | 0 <= j <= k :: Counted(states, moves, ranks, j)
    ensures forall i, j | 0 <= i <= j <= k :: Grows(states, ranks, i, j)
  {
    hide Shape, Step, Counted, Grows;
    if k == 0 {
      var rank := InitHasShape(states[0]);
      InitCounts(states[0], rank);
      ranks := [rank];
      CountsFirst(states, moves, ranks);
    } else {
      var before := RunCounts(states, moves, k - 1);
      var m := moves[k - 1];
      assert IsMove(states[k - 1], m, states[k]);
      CountedShape(states, moves, before, k - 1);
      StepKeepsShape(states[k - 1], before[k - 1], m.t, m.call, m.id);
      StepCounts(states[k - 1], before[k - 1], m.t, m.call, m.id);
      ranks := before + [NextRank(states[k - 1], m.t, before[k - 1])];
      CountsMore(states, moves, before, ranks[k]);
    }
  }

  ghost predicate Counted<T>(states: seq<State<T>>, moves: seq<Move<T>>, ranks: seq<Ranking>, j: nat)
    requires j < |states| && j < |ranks| && j <= |moves|
  {
    && Shape(states[j], ranks[j])
    && |ranks[j]| == 1 + |Entered(moves[..j])|
    && At(ranks[j], states[j].head) == |Left(moves[..j])|
  }

  ghost predicate Grows<T>(states: seq<State<T>>, ranks: seq<Ranking>, i: nat, j: nat)
    requires i < |states| && i < |ranks| && j < |states| && j < |ranks|
  {
    && (forall n <- ranks[i] :: n in ranks[j] && ranks[j][n] == ranks[i][n])
    && At(ranks[i], states[i].tail) <= At(ranks[j], states[j].tail)
    && At(ranks[i], states[i].head) <= At(ranks[j], states[j].head)
  }

  lemma InitCounts<T>(s: State<T>, rank: Ranking)
    requires Init(s) && Shape(s, rank)
    ensures |rank| == 1 && At(rank, s.head) == 0
  {
    assert rank.Keys <= {s.head.ptr.value};
    SubsetSize(rank.Keys, {s.head.ptr.value});
  }

  lemma CountedShape<T>(states: seq<State<T>>, moves: seq<Move<T>>, ranks: seq<Ranking>, j: nat)
    requires j < |states| && j < |ranks| && j <= |moves| && Counted(states, moves, ranks, j)
    ensures Shape(states[j], ranks[j])
    ensures |ranks[j]| == 1 + |Entered(moves[..j])| && At(ranks[j], states[j].head) == |Left(moves[..j])|
  {
    hide Shape;
  }

  lemma CountsFirst<T>(states: seq<State<T>>, moves: seq<Move<T>>, ranks: seq<Ranking>)
    requires |states| > 0 && |ranks| == 1 && Shape(states[0], ranks[0])
    requires |ranks[0]| == 1 && At(ranks[0], states[0].head) == 0
    ensures Counted(states, moves, ranks, 0) && Grows(states, ranks, 0, 0)
  {
    hide Shape;
    assert moves[..0] == [];
  }

  lemma CountsMore<T>(states: seq<State<T>>, moves: seq<Move<T>>, before: seq<Ranking>, rank: Ranking)
    requires 0 < |before| < |states| && |before| <= |moves|
    requires forall j | 0 <= j < |before| :: Counted(states, moves, before, j)
    requires forall i, j | 0 <= i <= j < |before| :: Grows(states, before, i, j)
    requires Shape(states[|before|], rank)
    requires var k := |before|;
      Counts(states[k - 1], before[k - 1], (states[k], moves[k - 1].event), rank)
    ensures var ranks := before + [rank];
      && (forall j | 0 <= j <= |before| :: Counted(states, moves, ranks, j))
      && (forall i, j | 0 <= i <= j <= |before| :: Grows(states, ranks, i, j))
  {
    hide Shape;
    var k, ranks := |before|, before + [rank];
    assert moves[..k][..k - 1] == moves[..k - 1];
    assert Counted(states, moves, before, k - 1);
    forall j | 0 <= j <= k ensures Counted(states, moves, ranks, j) {
      if j < k { assert Counted(states, moves, before, j); }
    }
    forall i, j | 0 <= i <= j <= k ensures Grows(states, ranks, i, j) {
      if j < k { assert Grows(states, before, i, j); }
      else if i < k { assert Grows(states, before, i, k - 1); }
    }
  }

  // ---------------------------------------------------------------------
  // empty()
  // ---------------------------------------------------------------------

  /** In the run, thread t's call of empty() makes its first load in move i and its second,
      which answers, in move k. */
  ghost predicate EmptyCall<T>(states: seq<State<T>>, moves: seq<Move<T>>, i: nat, k: nat, t: Thread, tailFirst: bool) {
    && IsRun(states, moves) && i < k < |moves| && moves[i].t == t && moves[k].t == t
    && t in states[i].pc && states[i].pc[t] == EmpLoad(tailFirst)
    && forall m | i < m < k :: moves[m].t != t
  }

  lemma {:induction false} EmptyWaits<T>(states: seq<State<T>>, moves: seq<Move<T>>, i: nat, m: nat, k: nat, t: Thread,
                                         tailFirst: bool)
    requires EmptyCall(states, moves, i, k, t, tailFirst) && i < m <= k
    ensures t in states[m].pc
    ensures states[m].pc[t] == EmpCompare(tailFirst, if tailFirst then states[i].tail else states[i].head)
    decreases m
  {
    assert IsMove(states[m - 1], moves[m - 1], states[m]);
    if m > i + 1 {
      EmptyWaits(states, moves, i, m - 1, k, t, tailFirst);
      OthersWait(states[m - 1], moves[m - 1].t, moves[m - 1].call, moves[m - 1].id, t);
    }
  }

  lemma OthersWait<T>(s: State<T>, u: Thread, call: Call<T>, id: NodeId, t: Thread)
    requires Safe(s, u) && FreshId(s, id) && t in s.pc && t != u
    ensures Step(s, u, call, id).0.pc[t] == s.pc[t]
  {
  }

  lemma EmptyAnswer<T>(states: seq<State<T>>, moves: seq<Move<T>>, i: nat, k: nat, t: Thread, tailFirst: bool)
    requires EmptyCall(states, moves, i, k, t, tailFirst)
    ensures moves[k].event.EmptyAnswered?
    ensures moves[k].event.empty <==>
      if tailFirst then states[i].tail.ptr == states[k].head.ptr else states[i].head.ptr == states[k].tail.ptr
  {
    EmptyWaits(states, moves, i, k, k, t, tailFirst);
    assert IsMove(states[k], moves[k], states[k + 1]);
  }

  /** Nobody takes a value from move i until move k. */
  predicate NobodyTakes<T>(moves: seq<Move<T>>, i: nat, k: nat)
    requires k <= |moves|
  {
    forall m | i <= m < k :: !moves[m].event.Took?
  }

  lemma {:induction false} HeadStays<T>(states: seq<State<T>>, moves: seq<Move<T>>, i: nat, k: nat)
    requires IsRun(states, moves) && i <= k <= |moves| && NobodyTakes(moves, i, k)
    ensures states[k].head == states[i].head
    decreases k
  {
    if i < k {
      HeadStays(states, moves, i, k - 1);
      assert IsMove(states[k - 1], moves[k - 1], states[k]);
      HeadMoves(states[k - 1], moves[k - 1].t, moves[k - 1].call, moves[k - 1].id);
    }
  }

  lemma HeadMoves<T>(s: State<T>, t: Thread, call: Call<T>, id: NodeId)
    requires Safe(s, t) && FreshId(s, id)
    ensures Step(s, t, call, id).1.Took? || Step(s, t, call, id).0.head == s.head
  {
  }

  /** For the sole consumer, or whenever nobody takes a value between the loads: empty()
      answers whether the ends were equal when it loaded the tail. If they were, the queue
      was empty then or held one value of an enqueue that had not returned; if not, it was
      not empty. */
  lemma {:induction false} ConsumerAnswer<T>(states: seq<State<T>>, moves: seq<Move<T>>, i: nat, k: nat, t: Thread,
                                             tailFirst: bool)
    requires EmptyCall(states, moves, i, k, t, tailFirst) && NobodyTakes(moves, i, k)
    ensures moves[k].event.EmptyAnswered?
    ensures var s := states[if tailFirst then i else k];
      && (moves[k].event.empty <==> s.head.ptr == s.tail.ptr)
      && (moves[k].event.empty ==> Contents(s) == [] || HoldsUnreturned(s))
      && (!moves[k].event.empty ==> Contents(s) != [])
  {
    hide Contents, Shape, HoldsUnreturned;
    EmptyAnswer(states, moves, i, k, t, tailFirst);
    HeadStays(states, moves, i, k);
    var m := if tailFirst then i else k;
    var rank := RunKeepsShape(states, moves, m);
    if moves[k].event.empty { EndsAgree(states[m]); } else { EndsDiffer(states[m], rank); }
  }

  lemma EndsDiffer<T>(s: State<T>, rank: Ranking)
    requires Shape(s, rank) && s.head.ptr != s.tail.ptr
    ensures Contents(s) != []
  {
    hide Contents, ThreadsOk, OwnersOk, LagOk, RetiredOk, ChainOk, TagOf;
    ChainIsInjective(s.nodes, rank);
    InChain(s.nodes, rank, s.tail.ptr.value);
    ContentsLast(s, rank);
  }

  /** For any caller: a true answer means that every value linked before the first load was
      taken before the second, but perhaps one, of an enqueue that had not returned. */
  lemma {:induction false} TrueAnswer<T>(states: seq<State<T>>, moves: seq<Move<T>>, i: nat, k: nat, t: Thread,
                                         tailFirst: bool)
    requires EmptyCall(states, moves, i, k, t, tailFirst) && moves[k].event == EmptyAnswered(true)
    ensures || |Left(moves[..k])| >= |Entered(moves[..i])|
            || (|Left(moves[..k])| == |Entered(moves[..i])| - 1 && SomeSwinging(states[i]))
  {
    hide Shape, Counted, Grows;
    EmptyAnswer(states, moves, i, k, t, tailFirst);
    var ranks := RunCounts(states, moves, k);
    assert Counted(states, moves, ranks, i) && Counted(states, moves, ranks, k) && Grows(states, ranks, i, k);
    CountedShape(states, moves, ranks, i);
    CountedShape(states, moves, ranks, k);
    TrueRanks(states, ranks, i, k, tailFirst);
  }

  ghost predicate SomeSwinging<T>(s: State<T>) {
    exists t, n :: t in s.pc && Swinging(s.pc[t], n)
  }

  lemma TrueRanks<T>(states: seq<State<T>>, ranks: seq<Ranking>, i: nat, k: nat, tailFirst: bool)
    requires i < k < |states| && k < |ranks| && Grows(states, ranks, i, k)
    requires Shape(states[i], ranks[i]) && Shape(states[k], ranks[k])
    requires if tailFirst then states[i].tail.ptr == states[k].head.ptr else states[i].head.ptr == states[k].tail.ptr
    ensures At(ranks[k], states[k].head) >= |ranks[i]| - 1
         || (At(ranks[k], states[k].head) == |ranks[i]| - 2 && SomeSwinging(states[i]))
  {
    hide ChainOk, ThreadsOk, OwnersOk, RetiredOk, TagOf;
  }

  // ---------------------------------------------------------------------
  // Reading through nodes that were handed back
  // ---------------------------------------------------------------------

  /** The thread has read, or is about to read, a field of a node that was handed back. */
  predicate ThroughRetired<T>(s: State<T>, pc: Pc<T>) {
    || ((pc.EnqLoadNext? || pc.EnqCheck? || pc.EnqLink? || pc.EnqHelp? || pc.DeqHelp?) && Gone(s, pc.tail))
    || ((pc.DeqLoadNext? || pc.DeqCheck? || pc.DeqRead? || pc.DeqTake?) && Gone(s, pc.head))
    || ((pc.DeqRead? || pc.DeqTake?) && Gone(s, pc.next))
  }

  predicate Gone<T>(s: State<T>, p: Tagged) {
    p.ptr.Some? && p.ptr.value in s.retired
  }

  predicate StartsAgain<T>(pc: Pc<T>) {
    pc.EnqLoadTail? || pc.DeqLoadHead?
  }

  /** A thread stalled with a pointer to a node that was handed back does read through it,
      but nothing comes of that: its next step changes no shared variable, returns nothing,
      and leaves it as it is or starts the call's loop again. */
  lemma {:induction false} RetiredReadsAreVain<T>(s: State<T>, rank: Ranking, t: Thread, call: Call<T>, id: NodeId)
    requires Safe(s, t) && FreshId(s, id) && ThroughRetired(s, s.pc[t])
    requires Shape(s, rank)
    ensures var (s', e) := Step(s, t, call, id);
      && s'.nodes == s.nodes && s'.head == s.head && s'.tail == s.tail && s'.retired == s.retired
      && (e == Internal || e == Retried)
      && (StartsAgain(s'.pc[t]) || ThroughRetired(s', s'.pc[t]))
  {
    hide Shape, ChainOk, TagOf, EndsOk, Walk;
    Knows(s, rank, t);
    TailInChain(s, rank);
    RetiredIsBefore(s, rank);
    var pc := s.pc[t];
    if pc.EnqLink? { ChainNext(s.nodes, rank, pc.tail); }
    if pc.DeqLoadNext? { ChainNext(s.nodes, rank, pc.head); }
  }

  lemma RetiredIsBefore<T>(s: State<T>, rank: Ranking)
    requires Shape(s, rank)
    ensures forall n <- s.retired :: n in rank && rank[n] < At(rank, s.head) <= At(rank, s.tail) < |rank|
  {
    hide ChainOk, ThreadsOk, OwnersOk, LagOk, TagOf;
    RankBound(s.nodes, rank, s.tail);
  }
}
