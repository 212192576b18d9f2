/** How a thread pool picks the worker for a message, with any number of posting threads. */
module RoundRobin {

  import opened Basics

  /** 2^32: indices are of type uint32_t. */
  const WIDTH: nat := 0x1_0000_0000

  type Tid = nat

  /** Where a thread is in get_next_thread_idx; idx is its local variable. */
  datatype Pc = Idle | Looping(idx: nat) | Returned(idx: nat)

  /** cur_idx_ and the threads. */
  datatype State = State(cur: nat, pc: map<Tid, Pc>)

  function After(idx: nat, size: nat): nat
    requires size > 0
  {
    (idx + 1) % WIDTH % size
  }

  /** One atomic access of thread t: the load, or a compare-and-swap, whose success goes
      round the loop once more. */
  function Step(s: State, t: Tid, size: nat): State
    requires t in s.pc && size > 0
  {
    match s.pc[t]
    case Idle => s.(pc := s.pc[t := Looping(s.cur)])
    case Looping(idx) =>
      if s.cur == idx then s.(cur := After(idx, size))
      else s.(pc := s.pc[t := Returned(s.cur)])
    case Returned(_) => s.(pc := s.pc[t := Idle])
  }

  function Run(s: State, ts: seq<Tid>, size: nat): State
    requires size > 0 && forall t <- ts :: t in s.pc
    decreases |ts|
  {
    if ts == [] then s else
      var u := Step(s, ts[0], size);
      Run(u, ts[1..], size)
  }

  /** At first, cur_idx_ may be anything, because nothing initialises it. */
  predicate Init(s: State) {
    s.cur < WIDTH && forall t | t in s.pc :: s.pc[t] == Idle
  }

  /** Out-of-range values can only be the first one, seen by all while it lasts. */
  predicate Inv(s: State, first: nat, size: nat) {
    && (s.cur < size || (s.cur == first && forall t | t in s.pc && s.pc[t].Looping? :: s.pc[t].idx == first))
    && (forall t | t in s.pc && s.pc[t].Returned? :: s.pc[t].idx < size)
  }

  lemma StepKeepsInv(s: State, t: Tid, first: nat, size: nat)
    requires t in s.pc && 2 <= size < WIDTH && Inv(s, first, size)
    ensures Inv(Step(s, t, size), first, size)
  {
  }

  /** Whatever the interleaving, every returned index is one of a worker. */
  lemma {:induction false} ReturnedInRange(s: State, ts: seq<Tid>, first: nat, size: nat, t: Tid)
    requires 2 <= size < WIDTH && t in s.pc && forall u <- ts :: u in s.pc
    requires Inv(s, first, size)
    ensures t in Run(s, ts, size).pc && Inv(Run(s, ts, size), first, size)
    ensures Run(s, ts, size).pc[t].Returned? ==> Run(s, ts, size).pc[t].idx < size
    decreases |ts|
  {
    if ts != [] {
      StepKeepsInv(s, ts[0], first, size);
      ReturnedInRange(Step(s, ts[0], size), ts[1..], first, size, t);
    }
  }

  lemma InitInv(s: State, size: nat)
    requires Init(s)
    ensures Inv(s, s.cur, size)
  {
  }

  /** An undisturbed call takes three accesses: one swap that succeeds and one that fails
      because of it. It returns what it has left in cur_idx_. */
  lemma LoneCall(s: State, t: Tid, size: nat)
    requires t in s.pc && s.pc[t] == Idle && 2 <= size < WIDTH
    ensures Run(s, [t, t, t], size) ==
      s.(cur := After(s.cur, size), pc := s.pc[t := Returned(After(s.cur, size))])
  {
    var a := Step(s, t, size);
    var b := Step(a, t, size);
    var c := Step(b, t, size);
    assert [t, t, t][1..] == [t, t] && [t, t][1..] == [t] && [t][1..] == [];
    assert Run(b, [t], size) == c;
    assert Run(a, [t, t], size) == c;
    AfterMoves(s.cur, size);
    assert b.pc[t] == Looping(s.cur) && b.cur == After(s.cur, size);
    assert c.pc == s.pc[t := Returned(After(s.cur, size))];
  }

  lemma AfterMoves(cur: nat, size: nat)
    requires 2 <= size < WIDTH
    ensures After(cur, size) < size && After(cur, size) != cur
  {
    if cur < size { Mod(cur, size); }
  }

  lemma Mod(cur: nat, size: nat)
    requires cur < size < WIDTH
    ensures After(cur, size) == if cur + 1 == size then 0 else cur + 1
  {
    Quotient(cur + 1, 0, WIDTH);
    if cur + 1 == size { Quotient(size, 1, size); } else { Quotient(cur + 1, 0, size); }
  }

  lemma Quotient(a: nat, q: nat, n: nat)
    requires n > 0 && q * n <= a < (q + 1) * n
    ensures a / n == q && a % n == a - q * n
  {
    MulCancel(q, a / n + 1, n);
    MulCancel(a / n, q + 1, n);
  }

  /** With a single worker the swap succeeds for ever and the call does not return. */
  lemma {:induction false} SingleSpins(s: State, t: Tid, ts: seq<Tid>)
    requires t in s.pc && s.cur == 0 && s.pc[t] == Looping(0) && forall u <- ts :: u == t
    ensures t in Run(s, ts, 1).pc && !Run(s, ts, 1).pc[t].Returned?
    decreases |ts|
  {
    if ts != [] {
      assert ts[0] in ts && After(0, 1) == 0;
      assert Step(s, t, 1) == s;
      forall u <- ts[1..] ensures u == t { assert u in ts; }
      SingleSpins(s, t, ts[1..]);
    }
  }

  /** How many of m undisturbed calls in a row return worker w. */
  function Times(w: nat, cur: nat, size: nat, m: nat): nat
    requires size > 0
    decreases m
  {
    if m == 0 then 0
    else (if After(cur, size) == w then 1 else 0) + Times(w, After(cur, size), size, m - 1)
  }

  /** The calls until w's turn. */
  function Wait(w: nat, cur: nat, size: nat): nat
    requires w < size
  {
    if cur < w then w - cur - 1 else if cur < size then size - 1 - cur + w else 0
  }

  lemma {:induction false} TimesIs(w: nat, cur: nat, size: nat, m: nat)
    requires w < size && cur < size && 2 <= size < WIDTH
    ensures Times(w, cur, size, m) == if m <= Wait(w, cur, size) then 0 else (m - Wait(w, cur, size) - 1) / size + 1
    decreases m
  {
    if m > 0 {
      hide After;
      Mod(cur, size);
      var next := After(cur, size);
      TimesIs(w, next, size, m - 1);
      if next == w {
        if m > size { Less(m - 1, size); } else { DivSmall(m - 1, size); }
      }
    }
  }

  lemma Less(m: nat, size: nat)
    requires 0 < size <= m
    ensures (m - size) / size + 1 == m / size
  {
    var q := (m - size) / size;
    assert (q + 1) * size == q * size + size;
    assert (q + 2) * size == q * size + size + size;
    Quotient(m, q + 1, size);
  }

  function Floor(m: nat, size: nat): nat
    requires size > 0
  {
    m / size
  }

  function Ceiling(m: nat, size: nat): nat
    requires size > 0
  {
    (m + size - 1) / size
  }

  /** m undisturbed calls return each worker m / size times, rounded down or up, whatever
      cur_idx_ was at first. */
  lemma Fair(w: nat, cur: nat, size: nat, m: nat)
    requires w < size && 2 <= size < WIDTH
    ensures Floor(m, size) <= Times(w, cur, size, m) <= Ceiling(m, size)
  {
    hide After, Floor, Ceiling;
    if cur < size || m == 0 {
      FairFrom(w, if cur < size then cur else 0, size, m);
    } else {
      AfterMoves(cur, size);
      var c := After(cur, size);
      var before := if c == 0 then size - 1 else c - 1;
      Mod(before, size);
      assert Times(w, cur, size, m) == Times(w, before, size, m);
      FairFrom(w, before, size, m);
    }
  }

  lemma FairFrom(w: nat, cur: nat, size: nat, m: nat)
    requires w < size && cur < size && 2 <= size < WIDTH
    ensures Floor(m, size) <= Times(w, cur, size, m) <= Ceiling(m, size)
  {
    hide Times;
    TimesIs(w, cur, size, m);
    var wait := Wait(w, cur, size);
    if m > wait {
      DivMono(m, m - wait - 1 + size, size);
      DivMono(m - wait - 1 + size, m + size - 1, size);
      Less(m - wait - 1 + size, size);
    } else {
      DivSmall(m, size);
    }
  }

  lemma DivMono(a: nat, b: nat, size: nat)
    requires a <= b && size > 0
    ensures a / size <= b / size
  {
    MulCancel(a / size, b / size + 1, size);
  }

  lemma DivSmall(m: nat, size: nat)
    requires m < size
    ensures m / size == 0
  {
    Quotient(m, 0, size);
  }

  /** The indices returned in a run, in order. */
  function Returns(s: State, ts: seq<Tid>, size: nat): seq<nat>
    requires size > 0 && forall t <- ts :: t in s.pc
    decreases |ts|
  {
    if ts == [] then [] else
      var t, u := ts[0], Step(s, ts[0], size);
      (if s.pc[t].Looping? && u.pc[t].Returned? then [u.pc[t].idx] else []) + Returns(u, ts[1..], size)
  }

  /** The accesses of calls that do not overlap, the k-th made by cs[k]. */
  function OneByOne(cs: seq<Tid>): seq<Tid> {
    if cs == [] then [] else [cs[0], cs[0], cs[0], cs[0]] + OneByOne(cs[1..])
  }

  lemma {:induction false} OnlyCallers(cs: seq<Tid>)
    ensures forall t <- OneByOne(cs) :: t in cs
  {
    if cs != [] { OnlyCallers(cs[1..]); }
  }

  lemma OneCall(s: State, t: Tid, rest: seq<Tid>, size: nat)
    requires t in s.pc && s.pc[t] == Idle && 2 <= size < WIDTH && forall u <- rest :: u in s.pc
    ensures Returns(s, [t, t, t, t] + rest, size) ==
      [After(s.cur, size)] + Returns(s.(cur := After(s.cur, size)), rest, size)
  {
    hide After;
    var next := After(s.cur, size);
    AfterMoves(s.cur, size);
    var a := Step(s, t, size);
    var b := Step(a, t, size);
    var c := Step(b, t, size);
    var d := Step(c, t, size);
    assert c.pc == s.pc[t := Returned(next)] && d.pc == s.pc;
    assert ([t, t, t, t] + rest)[1..] == [t, t, t] + rest && ([t, t, t] + rest)[1..] == [t, t] + rest;
    assert ([t, t] + rest)[1..] == [t] + rest && ([t] + rest)[1..] == rest;
    assert Returns(c, [t] + rest, size) == Returns(d, rest, size);
    assert Returns(b, [t, t] + rest, size) == [next] + Returns(d, rest, size);
  }

  lemma {:induction false} ReturnsAre(s: State, cs: seq<Tid>, size: nat, w: nat)
    requires 2 <= size < WIDTH && forall t <- cs :: t in s.pc && s.pc[t] == Idle
    requires forall t <- OneByOne(cs) :: t in s.pc
    ensures |Returns(s, OneByOne(cs), size)| == |cs|
    ensures multiset(Returns(s, OneByOne(cs), size))[w] == Times(w, s.cur, size, |cs|)
    decreases |cs|
  {
    hide After, Step;
    if cs != [] {
      var rest, t := OneByOne(cs[1..]), s.(cur := After(s.cur, size));
      OnlyCallers(cs[1..]);
      OneCall(s, cs[0], rest, size);
      ReturnsAre(t, cs[1..], size, w);
      assert multiset([After(s.cur, size)] + Returns(t, rest, size))[w] ==
        multiset([After(s.cur, size)])[w] + multiset(Returns(t, rest, size))[w];
    }
  }

  /** Of any number of calls that do not overlap, made by whichever threads, each worker is
      returned by its share, rounded down or up, whatever cur_idx_ was at first. */
  lemma FairRun(s: State, cs: seq<Tid>, size: nat, w: nat)
    requires w < size && 2 <= size < WIDTH && forall t <- cs :: t in s.pc && s.pc[t] == Idle
    ensures forall t <- OneByOne(cs) :: t in s.pc
    ensures var returned := Returns(s, OneByOne(cs), size);
      && |returned| == |cs| && (forall i <- returned :: i < size)
      && Floor(|cs|, size) <= multiset(returned)[w] <= Ceiling(|cs|, size)
  {
    hide Times, Returns, Floor, Ceiling;
    OnlyCallers(cs);
    ReturnsAre(s, cs, size, w);
    Fair(w, s.cur, size, |cs|);
    ReturnsInRange(s, cs, size);
  }

  lemma {:induction false} ReturnsInRange(s: State, cs: seq<Tid>, size: nat)
    requires 2 <= size < WIDTH && forall t <- cs :: t in s.pc && s.pc[t] == Idle
    requires forall t <- OneByOne(cs) :: t in s.pc
    ensures forall i <- Returns(s, OneByOne(cs), size) :: i < size
    decreases |cs|
  {
    hide After, Step;
    if cs != [] {
      var rest, t := OneByOne(cs[1..]), s.(cur := After(s.cur, size));
      OnlyCallers(cs[1..]);
      OneCall(s, cs[0], rest, size);
      AfterMoves(s.cur, size);
      ReturnsInRange(t, cs[1..], size);
    }
  }
}
