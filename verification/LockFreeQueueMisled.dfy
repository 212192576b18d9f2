/** A run in which empty() answers true to a thread that is not the sole consumer while a
    value whose enqueue has returned is in the queue. */
module LockFreeQueueMisled {
  import opened Basics
  import opened LockFreeQueue
  import opened LockFreeQueueShape
  import opened LockFreeQueueLinear

  function Last<T>(states: seq<State<T>>): State<T>
    requires states != []
  {
    states[|states| - 1]
  }

  /** One more step of thread t. */
  lemma Extend<T>(states: seq<State<T>>, moves: seq<Move<T>>, t: Thread, call: Call<T>, id: NodeId)
    returns (states': seq<State<T>>, moves': seq<Move<T>>)
    requires states != [] && IsRun(states, moves) && t in Last(states).pc && FreshId(Last(states), id)
    ensures states' != [] && IsRun(states', moves') && |moves'| == |moves| + 1 && Safe(Last(states), t)
    ensures var r := Step(Last(states), t, call, id); Last(states') == r.0 && moves'[|moves|].event == r.1
  {
    hide Step, Safe, Init;
    RunIsSafe(states, moves, |moves|, t);
    var r := Step(Last(states), t, call, id);
    states', moves' := states + [r.0], moves + [Move(t, call, id, r.1)];
    forall i | 0 <= i < |moves'| ensures IsMove(states'[i], moves'[i], states'[i + 1]) {
      if i < |moves| { assert IsMove(states[i], moves[i], states[i + 1]); }
    }
  }

  /** The thread is back where it was. */
  ghost predicate Returned<T>(s: State<T>, s': State<T>, t: Thread) {
    t in s.pc && s.pc[t] == Idle && s'.pc == s.pc
  }

  /** An enqueue that nobody disturbs, on a queue whose tail is the last node, as far as
      the link. */
  lemma EnqueueToLink<T>(states: seq<State<T>>, moves: seq<Move<T>>, t: Thread, v: T, id: NodeId, spare: NodeId)
    returns (states': seq<State<T>>, moves': seq<Move<T>>)
    requires states != [] && IsRun(states, moves) && id != spare
    requires var s := Last(states);
      && t in s.pc && s.pc[t] == Idle && FreshId(s, id) && FreshId(s, spare)
      && Deref(s, s.tail) && s.nodes[s.tail.ptr.value].next == NULL_TAGGED
    ensures states' != [] && IsRun(states', moves')
    ensures var s := Last(states);
      Last(states') == Go(s.(nodes := s.nodes[id := Node(v, NULL_TAGGED)]), t, EnqLink(id, s.tail, NULL_TAGGED))
  {
    hide IsRun;
    var s := Last(states);
    states', moves' := Extend(states, moves, t, Enqueue(v), id);
    states', moves' := Extend(states', moves', t, TryDequeue, spare);
    states', moves' := Extend(states', moves', t, TryDequeue, spare);
    states', moves' := Extend(states', moves', t, TryDequeue, spare);
    assert Last(states').pc == s.pc[t := EnqLink(id, s.tail, NULL_TAGGED)];
  }

  lemma LinkToReturn<T>(states: seq<State<T>>, moves: seq<Move<T>>, t: Thread, id: NodeId, spare: NodeId)
    returns (states': seq<State<T>>, moves': seq<Move<T>>)
    requires states != [] && IsRun(states, moves)
    requires var s := Last(states);
      && t in s.pc && s.pc[t] == EnqLink(id, s.tail, NULL_TAGGED) && id in s.nodes && FreshId(s, spare)
      && Deref(s, s.tail) && s.nodes[s.tail.ptr.value].next == NULL_TAGGED
    ensures states' != [] && IsRun(states', moves')
    ensures var s := Last(states);
      Last(states') == Go(s.(
        nodes := s.nodes[s.tail.ptr.value := s.nodes[s.tail.ptr.value].(next := Tagged(Some(id), 1))],
        tail := Tagged(Some(id), s.tail.NextTag())), t, Idle)
  {
    hide IsRun;
    var s := Last(states);
    states', moves' := Extend(states, moves, t, TryDequeue, spare);
    states', moves' := Extend(states', moves', t, TryDequeue, spare);
    states', moves' := Extend(states', moves', t, TryDequeue, spare);
    assert Last(states').pc == s.pc[t := Idle];
  }

  lemma SoloEnqueue<T>(states: seq<State<T>>, moves: seq<Move<T>>, t: Thread, v: T, id: NodeId, spare: NodeId)
    returns (states': seq<State<T>>, moves': seq<Move<T>>)
    requires states != [] && IsRun(states, moves) && id != spare
    requires var s := Last(states);
      && t in s.pc && s.pc[t] == Idle && FreshId(s, id) && FreshId(s, spare)
      && Deref(s, s.tail) && s.nodes[s.tail.ptr.value].next == NULL_TAGGED
    ensures states' != [] && IsRun(states', moves')
    ensures var s, s' := Last(states), Last(states');
      && s'.nodes == s.nodes[id := Node(v, NULL_TAGGED)][s.tail.ptr.value :=
           s.nodes[s.tail.ptr.value].(next := Tagged(Some(id), 1))]
      && s'.tail == Tagged(Some(id), s.tail.NextTag()) && s'.head == s.head && Returned(s, s', t)
  {
    hide IsRun;
    states', moves' := EnqueueToLink(states, moves, t, v, id, spare);
    states', moves' := LinkToReturn(states', moves', t, id, spare);
    assert Last(states').pc == Last(states).pc;
  }

  /** A dequeue that nobody disturbs, on a queue whose ends differ, as far as the check. */
  lemma DequeueToCheck<T>(states: seq<State<T>>, moves: seq<Move<T>>, t: Thread, spare: NodeId)
    returns (states': seq<State<T>>, moves': seq<Move<T>>)
    requires states != [] && IsRun(states, moves)
    requires var s := Last(states);
      t in s.pc && s.pc[t] == Idle && FreshId(s, spare) && Deref(s, s.head)
    ensures states' != [] && IsRun(states', moves')
    ensures var s := Last(states); Last(states') == Go(s, t, DeqCheck(s.head, s.tail, s.nodes[s.head.ptr.value].next))
  {
    hide IsRun;
    var s := Last(states);
    states', moves' := Extend(states, moves, t, TryDequeue, spare);
    states', moves' := Extend(states', moves', t, TryDequeue, spare);
    states', moves' := Extend(states', moves', t, TryDequeue, spare);
    states', moves' := Extend(states', moves', t, TryDequeue, spare);
    assert Last(states').pc == s.pc[t := DeqCheck(s.head, s.tail, s.nodes[s.head.ptr.value].next)];
  }

  lemma CheckToReturn<T>(states: seq<State<T>>, moves: seq<Move<T>>, t: Thread, next: Tagged, spare: NodeId)
    returns (states': seq<State<T>>, moves': seq<Move<T>>)
    requires states != [] && IsRun(states, moves)
    requires var s := Last(states);
      && t in s.pc && s.pc[t] == DeqCheck(s.head, s.tail, next) && FreshId(s, spare)
      && s.head.ptr != s.tail.ptr && s.head.ptr.Some? && Deref(s, next)
    ensures states' != [] && IsRun(states', moves')
    ensures var s := Last(states);
      Last(states') ==
        Go(s.(head := Tagged(next.ptr, s.head.NextTag()), retired := s.retired + {s.head.ptr.value}), t, Idle)
  {
    hide IsRun;
    var s := Last(states);
    states', moves' := Extend(states, moves, t, TryDequeue, spare);
    states', moves' := Extend(states', moves', t, TryDequeue, spare);
    states', moves' := Extend(states', moves', t, TryDequeue, spare);
    states', moves' := Extend(states', moves', t, TryDequeue, spare);
    assert Last(states').pc == s.pc[t := Idle];
  }

  lemma SoloDequeue<T>(states: seq<State<T>>, moves: seq<Move<T>>, t: Thread, spare: NodeId)
    returns (states': seq<State<T>>, moves': seq<Move<T>>)
    requires states != [] && IsRun(states, moves)
    requires var s := Last(states);
      && t in s.pc && s.pc[t] == Idle && FreshId(s, spare) && s.head.ptr != s.tail.ptr
      && Deref(s, s.head) && Deref(s, s.nodes[s.head.ptr.value].next)
    ensures states' != [] && IsRun(states', moves')
    ensures var s, s' := Last(states), Last(states');
      && s'.nodes == s.nodes && s'.tail == s.tail && Returned(s, s', t)
      && s'.head == Tagged(s.nodes[s.head.ptr.value].next.ptr, s.head.NextTag())
  {
    hide IsRun;
    states', moves' := DequeueToCheck(states, moves, t, spare);
    states', moves' := CheckToReturn(states', moves', t, Last(states).nodes[Last(states).head.ptr.value].next, spare);
    assert Last(states').pc == Last(states).pc;
  }

  /** With a in the queue thread 0 loads the tail, b is put in by a call that returns, a is
      taken out, and thread 0 loads the head: it is told that the queue is empty, but b is
      there. */
  lemma EmptyMisleads<T>(a: T, b: T) returns (states: seq<State<T>>, moves: seq<Move<T>>)
    ensures states != [] && IsRun(states, moves) && moves != [] && moves[|moves| - 1].event == EmptyAnswered(true)
    ensures Contents(Last(states)) == [b] && forall t <- Last(states).pc :: Last(states).pc[t] == Idle
  {
    hide IsRun, Contents, Step;
    var dummy := Tagged(Some(0), 0);
    var s0 := State(map[0 := Node(a, NULL_TAGGED)], dummy, dummy, {}, map[0 := Idle, 1 := Idle, 2 := Idle]);
    StartsRun(s0);
    states, moves := SoloEnqueue([s0], [], 1, a, 1, 3);
    states, moves := Ask(states, moves, 0, 3);
    states, moves := SoloEnqueue(states, moves, 1, b, 2, 3);
    states, moves := SoloDequeue(states, moves, 2, 3);
    states, moves := Answered(states, moves, 0, 3);
    OneLeft(Last(states), 1, 2);
  }

  lemma StartsRun<T>(s: State<T>)
    requires Init(s)
    ensures IsRun([s], [])
  {
  }

  /** The call of empty() and its first load, of the tail. */
  lemma Ask<T>(states: seq<State<T>>, moves: seq<Move<T>>, t: Thread, spare: NodeId)
    returns (states': seq<State<T>>, moves': seq<Move<T>>)
    requires states != [] && IsRun(states, moves)
    requires t in Last(states).pc && Last(states).pc[t] == Idle && FreshId(Last(states), spare)
    ensures states' != [] && IsRun(states', moves')
    ensures Last(states') == Go(Last(states), t, EmpCompare(true, Last(states).tail))
  {
    hide IsRun;
    var s := Last(states);
    states', moves' := Extend(states, moves, t, Empty(true), spare);
    states', moves' := Extend(states', moves', t, Empty(true), spare);
    assert Last(states').pc == s.pc[t := EmpCompare(true, s.tail)];
  }

  /** Its second load, of the head. */
  lemma Answered<T>(states: seq<State<T>>, moves: seq<Move<T>>, t: Thread, spare: NodeId)
    returns (states': seq<State<T>>, moves': seq<Move<T>>)
    requires states != [] && IsRun(states, moves)
    requires var s := Last(states);
      t in s.pc && s.pc[t].EmpCompare? && s.pc[t].tailFirst && s.pc[t].first.ptr == s.head.ptr && FreshId(s, spare)
    ensures states' != [] && IsRun(states', moves') && moves' != [] && moves'[|moves'| - 1].event == EmptyAnswered(true)
    ensures Last(states') == Go(Last(states), t, Idle)
  {
    hide IsRun;
    states', moves' := Extend(states, moves, t, Empty(true), spare);
  }

  lemma OneLeft<T>(s: State<T>, m: NodeId, n: NodeId)
    requires s.head.ptr == Some(m) && m in s.nodes && n in s.nodes && m != n
    requires s.nodes[m].next.ptr == Some(n) && s.nodes[n].next.ptr == None
    ensures Contents(s) == [s.nodes[n].data]
  {
    TwoOf(s.nodes, m, n);
    assert Walk(s.nodes, Some(n), |s.nodes|) == [s.nodes[n].data] + [];
  }

  lemma TwoOf<T>(nodes: map<NodeId, Node<T>>, m: NodeId, n: NodeId)
    requires m in nodes && n in nodes && m != n
    ensures |nodes| >= 2
  {
    SubsetSize({m, n}, nodes.Keys);
  }
}
