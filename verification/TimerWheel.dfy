/** Cyan's timer wheel: requests in a multimap by expiry, reset lazily. */
module TimerWheel {

  import opened Basics

  /** 2^64, the number of request ids. */
  const ID_SPACE: nat := 0x1_0000_0000_0000_0000

  /** Nanoseconds in a millisecond. */
  const MS: int := 1000000

  /** Times are in nanoseconds, but a request keeps its timeout in whole milliseconds. */
  class Request {
    const id: nat
    const timeout: int
    var isCancelled: bool
    var expiry: int

    constructor (id: nat, timeout: int, expiry: int)
      ensures this.id == id && this.timeout == timeout && this.expiry == expiry && !isCancelled
    {
      this.id, this.timeout, this.expiry, isCancelled := id, timeout, expiry, false;
    }
  }

  /** An element of the multimap; the key is what the expiry was when it was put there. */
  datatype Entry = Entry(key: int, req: Request)

  /** What happens to a request. */
  datatype Act =
    | Posted(r: Request, expiry: int)
    | Cancelled(r: Request)
    | Reset(r: Request, expiry: int)
    | Fired(r: Request, now: int)

  /** What the requests' own fields must be after the acts of a trace. */
  function ExpiryOf(trace: seq<Act>, r: Request): int {
    if trace == [] then 0 else
      var a := trace[|trace| - 1];
      if a.r == r && (a.Posted? || a.Reset?) then a.expiry else ExpiryOf(trace[..|trace| - 1], r)
  }

  predicate Had(trace: seq<Act>, a: Act) {
    a in trace
  }

  predicate WasFired(trace: seq<Act>, r: Request) {
    exists i :: 0 <= i < |trace| && trace[i].Fired? && trace[i].r == r
  }

  /** The act at i, if a firing, is the first of its request, which was not cancelled
      before and whose expiry then was not after the time. */
  predicate Rightful(trace: seq<Act>, i: int)
    requires 0 <= i < |trace|
  {
    trace[i].Fired? ==>
      && !WasFired(trace[..i], trace[i].r) && !Had(trace[..i], Cancelled(trace[i].r))
      && ExpiryOf(trace[..i], trace[i].r) <= trace[i].now
  }

  predicate AllRightful(trace: seq<Act>) {
    forall i | 0 <= i < |trace| :: Rightful(trace, i)
  }

  /** The wheel at one moment. */
  datatype Snap = Snap(
    requests: map<nat, Request>,
    hier: seq<Entry>,
    expiry: map<Request, int>,
    cancelled: map<Request, bool>,
    trace: seq<Act>)

  predicate Sorted(hier: seq<Entry>) {
    forall i, j | 0 <= i < j < |hier| :: hier[i].key <= hier[j].key
  }

  predicate OneEach(hier: seq<Entry>) {
    forall i, j | 0 <= i < j < |hier| :: hier[i].req != hier[j].req
  }

  function Reqs(hier: seq<Entry>): set<Request> {
    set e | e in hier :: e.req
  }

  /** What the fields of r and the trace have to do with each other; only a busy request,
      whose callback is running, may still be in the multimap after being fired. */
  predicate ReqOk(s: Snap, r: Request, busy: set<Request>)
    requires r in s.expiry && r in s.cancelled
  {
    && s.expiry[r] == ExpiryOf(s.trace, r)
    && (Had(s.trace, Cancelled(r)) <==> s.cancelled[r])
    && (r in Reqs(s.hier) - busy ==> !WasFired(s.trace, r))
  }

  /** The two containers only hold requests that were posted, the multimap each at most
      once, in the order of the keys. */
  ghost predicate Shape(s: Snap) {
    && Sorted(s.hier) && OneEach(s.hier)
    && s.expiry.Keys == s.cancelled.Keys
    && Reqs(s.hier) <= s.expiry.Keys
    && (forall id | id in s.requests :: s.requests[id] in s.expiry)
  }

  /** What always holds. */
  ghost predicate Ok(s: Snap, busy: set<Request>) {
    && Shape(s)
    && (forall a <- s.trace :: a.r in s.expiry)
    && (forall r | r in s.expiry :: ReqOk(s, r, busy))
    && AllRightful(s.trace)
  }

  /** The two containers hold the same requests. */
  ghost predicate Matched(s: Snap) {
    && (forall id | id in s.requests :: s.requests[id].id == id && s.requests[id] in Reqs(s.hier))
    && (forall r <- Reqs(s.hier) :: r.id in s.requests && s.requests[r.id] == r)
  }

  /** Where a multimap puts a new element: after those with the same key. */
  function UpperBound(hier: seq<Entry>, key: int): (p: nat)
    ensures p <= |hier|
    ensures p < |hier| ==> key < hier[p].key
    ensures Sorted(hier) ==> forall i | 0 <= i < p :: hier[i].key <= key
  {
    if hier == [] || key < hier[0].key then 0 else
      assert forall i | 1 <= i < |hier| :: hier[i] == hier[1..][i - 1];
      1 + UpperBound(hier[1..], key)
  }

  function Emplace(hier: seq<Entry>, e: Entry): seq<Entry> {
    hier[..UpperBound(hier, e.key)] + [e] + hier[UpperBound(hier, e.key)..]
  }

  function Erase(hier: seq<Entry>, i: nat): seq<Entry>
    requires i < |hier|
  {
    hier[..i] + hier[i + 1..]
  }

  lemma EmplaceAt(hier: seq<Entry>, e: Entry)
    ensures var p, r := UpperBound(hier, e.key), Emplace(hier, e);
      && |r| == |hier| + 1 && r[p] == e
      && (forall i | 0 <= i < p :: r[i] == hier[i])
      && (forall i | p < i < |r| :: r[i] == hier[i - 1])
  {
  }

  lemma EmplaceSorted(hier: seq<Entry>, e: Entry)
    requires Sorted(hier)
    ensures Sorted(Emplace(hier, e))
  {
    hide Emplace;
    EmplaceAt(hier, e);
  }

  lemma ReqsSum(a: seq<Entry>, b: seq<Entry>)
    ensures Reqs(a + b) == Reqs(a) + Reqs(b)
  {
  }

  lemma EmplaceReqs(hier: seq<Entry>, e: Entry)
    ensures Reqs(Emplace(hier, e)) == Reqs(hier) + {e.req}
  {
    hide UpperBound, Reqs;
    OneReq(e);
    var p := UpperBound(hier, e.key);
    assert hier == hier[..p] + hier[p..];
    ReqsSum(hier[..p], hier[p..]);
    ReqsSum(hier[..p] + [e], hier[p..]);
    ReqsSum(hier[..p], [e]);
  }

  lemma OneReq(e: Entry)
    ensures Reqs([e]) == {e.req}
  {
  }

  lemma EmplaceOneEach(hier: seq<Entry>, e: Entry)
    requires OneEach(hier) && e.req !in Reqs(hier)
    ensures OneEach(Emplace(hier, e))
  {
    hide Emplace;
    EmplaceAt(hier, e);
    assert forall k | 0 <= k < |hier| :: hier[k].req in Reqs(hier);
  }

  lemma EraseAt(hier: seq<Entry>, i: nat)
    requires i < |hier|
    ensures var r := Erase(hier, i);
      && |r| == |hier| - 1
      && (forall k | 0 <= k < i :: r[k] == hier[k])
      && (forall k | i <= k < |r| :: r[k] == hier[k + 1])
  {
  }

  lemma EraseKeeps(hier: seq<Entry>, i: nat)
    requires i < |hier| && Sorted(hier) && OneEach(hier)
    ensures Sorted(Erase(hier, i)) && OneEach(Erase(hier, i))
    ensures Reqs(Erase(hier, i)) == Reqs(hier) - {hier[i].req}
  {
    hide Erase;
    var r := Erase(hier, i);
    EraseAt(hier, i);
    forall q <- Reqs(hier) - {hier[i].req} ensures q in Reqs(r) {
      var k :| 0 <= k < |hier| && hier[k].req == q;
      assert r[if k < i then k else k - 1].req == q;
    }
    forall q <- Reqs(r) ensures q in Reqs(hier) - {hier[i].req} {
      var k :| 0 <= k < |r| && r[k].req == q;
      assert hier[if k < i then k else k + 1].req == q;
    }
  }

  lemma TraceMore(trace: seq<Act>, a: Act, r: Request)
    ensures ExpiryOf(trace + [a], r) == if a.r == r && (a.Posted? || a.Reset?) then a.expiry else ExpiryOf(trace, r)
    ensures Had(trace + [a], Cancelled(r)) == (Had(trace, Cancelled(r)) || a == Cancelled(r))
    ensures WasFired(trace + [a], r) <==> WasFired(trace, r) || (a.Fired? && a.r == r)
  {
    var longer := trace + [a];
    assert longer[..|trace|] == trace;
    assert longer[|trace|] == a;
    if WasFired(trace, r) {
      var i :| 0 <= i < |trace| && trace[i].Fired? && trace[i].r == r;
      assert longer[i] == trace[i];
    }
  }

  lemma RightfulMore(trace: seq<Act>, a: Act)
    requires AllRightful(trace)
    requires a.Fired? ==>
      && !WasFired(trace, a.r) && !Had(trace, Cancelled(a.r)) && ExpiryOf(trace, a.r) <= a.now
    ensures AllRightful(trace + [a])
  {
    hide WasFired, Had, ExpiryOf;
    var longer := trace + [a];
    forall i | 0 <= i < |longer| ensures Rightful(longer, i) {
      assert longer[..i] == if i < |trace| then trace[..i] else trace;
      assert i < |trace| ==> Rightful(trace, i);
    }
  }

  function Posting(s: Snap, r: Request, expiry: int): Snap {
    Snap(if r.id in s.requests then s.requests else s.requests[r.id := r],
         Emplace(s.hier, Entry(expiry, r)),
         s.expiry[r := expiry], s.cancelled[r := false], s.trace + [Posted(r, expiry)])
  }

  function Cancelling(s: Snap, r: Request): Snap {
    s.(cancelled := s.cancelled[r := true], trace := s.trace + [Cancelled(r)])
  }

  function Resetting(s: Snap, r: Request, expiry: int): Snap {
    s.(expiry := s.expiry[r := expiry], trace := s.trace + [Reset(r, expiry)])
  }

  /** A stale entry is put where it belongs. */
  function Moving(s: Snap, i: nat): Snap
    requires i < |s.hier| && s.hier[i].req in s.expiry
  {
    var r := s.hier[i].req;
    s.(hier := Emplace(Erase(s.hier, i), Entry(s.expiry[r], r)))
  }

  function Firing(s: Snap, r: Request, now: int): Snap {
    s.(trace := s.trace + [Fired(r, now)])
  }

  function Removing(s: Snap, i: nat): Snap
    requires i < |s.hier|
  {
    s.(requests := s.requests - {s.hier[i].req.id}, hier := Erase(s.hier, i))
  }

  lemma PostOk(s: Snap, busy: set<Request>, r: Request, expiry: int)
    requires r !in s.expiry && Ok(s, busy)
    ensures Ok(Posting(s, r, expiry), busy)
    ensures Matched(s) ==> (Matched(Posting(s, r, expiry)) <==> r.id !in s.requests)
  {
    hide WasFired, Had, ExpiryOf, AllRightful, Emplace, Sorted, OneEach;
    var t, a := Posting(s, r, expiry), Posted(r, expiry);
    EmplaceSorted(s.hier, Entry(expiry, r));
    EmplaceReqs(s.hier, Entry(expiry, r));
    EmplaceOneEach(s.hier, Entry(expiry, r));
    RightfulMore(s.trace, a);
    NeverSeen(s, busy, r);
    forall q | q in t.expiry ensures ReqOk(t, q, busy) {
      TraceMore(s.trace, a, q);
      assert q != r ==> ReqOk(s, q, busy);
    }
    if Matched(s) && r.id !in s.requests {
      forall q <- Reqs(t.hier) ensures q.id in t.requests && t.requests[q.id] == q {
        assert q == r || q in Reqs(s.hier);
      }
    }
  }

  lemma NeverSeen(s: Snap, busy: set<Request>, r: Request)
    requires r !in s.expiry && Ok(s, busy)
    ensures !Had(s.trace, Cancelled(r)) && !WasFired(s.trace, r)
  {
  }

  lemma CancelOk(s: Snap, busy: set<Request>, r: Request)
    requires r in s.expiry && Ok(s, busy)
    ensures Ok(Cancelling(s, r), busy)
    ensures Matched(Cancelling(s, r)) == Matched(s)
  {
    hide WasFired, Had, ExpiryOf, AllRightful;
    var t, a := Cancelling(s, r), Cancelled(r);
    RightfulMore(s.trace, a);
    forall q | q in t.expiry ensures ReqOk(t, q, busy) {
      TraceMore(s.trace, a, q);
      assert ReqOk(s, q, busy);
    }
  }

  lemma ResetOk(s: Snap, busy: set<Request>, r: Request, expiry: int)
    requires r in s.expiry && Ok(s, busy)
    ensures Ok(Resetting(s, r, expiry), busy)
    ensures Matched(Resetting(s, r, expiry)) == Matched(s)
  {
    hide WasFired, Had, ExpiryOf, AllRightful;
    var t, a := Resetting(s, r, expiry), Reset(r, expiry);
    RightfulMore(s.trace, a);
    forall q | q in t.expiry ensures ReqOk(t, q, busy) {
      TraceMore(s.trace, a, q);
      assert ReqOk(s, q, busy);
    }
  }

  lemma MoveOk(s: Snap, busy: set<Request>, i: nat)
    requires i < |s.hier| && s.hier[i].req in s.expiry && Ok(s, busy)
    ensures Ok(Moving(s, i), busy)
    ensures Matched(Moving(s, i)) == Matched(s)
  {
    hide WasFired, Had, ExpiryOf, AllRightful, Emplace, Erase, Sorted, OneEach;
    var r := s.hier[i].req;
    var e, h := Entry(s.expiry[r], r), Erase(s.hier, i);
    EraseKeeps(s.hier, i);
    EmplaceSorted(h, e);
    EmplaceReqs(h, e);
    EmplaceOneEach(h, e);
    assert s.hier[i].req in Reqs(s.hier);
    assert Reqs(Moving(s, i).hier) == Reqs(s.hier);
    SameReqsOk(s, Moving(s, i), busy);
  }

  lemma SameReqsOk(s: Snap, t: Snap, busy: set<Request>)
    requires Ok(s, busy) && Shape(t)
    requires t == s.(hier := t.hier) && Reqs(t.hier) == Reqs(s.hier)
    ensures Ok(t, busy) && Matched(t) == Matched(s)
  {
    hide WasFired, Had, ExpiryOf, AllRightful, Sorted, OneEach;
    forall r | r in t.expiry ensures r in t.cancelled && ReqOk(t, r, busy) {
      assert ReqOk(s, r, busy);
    }
  }

  lemma FireOk(s: Snap, r: Request, now: int)
    requires r in s.expiry && r in s.cancelled && r in Reqs(s.hier)
    requires s.expiry[r] <= now && !s.cancelled[r] && Ok(s, {})
    ensures Ok(Firing(s, r, now), {r})
    ensures Matched(Firing(s, r, now)) == Matched(s)
  {
    hide WasFired, Had, ExpiryOf, AllRightful;
    var t, a := Firing(s, r, now), Fired(r, now);
    assert ReqOk(s, r, {});
    RightfulMore(s.trace, a);
    forall q | q in t.expiry ensures ReqOk(t, q, {r}) {
      TraceMore(s.trace, a, q);
      assert ReqOk(s, q, {});
    }
  }

  lemma RemoveOk(s: Snap, busy: set<Request>, i: nat)
    requires i < |s.hier| && busy <= {s.hier[i].req} && Ok(s, busy)
    ensures Ok(Removing(s, i), {})
    ensures Matched(s) ==> Matched(Removing(s, i))
  {
    hide WasFired, Had, ExpiryOf, AllRightful, Erase, Sorted, OneEach;
    EraseKeeps(s.hier, i);
    var t := Removing(s, i);
    assert s.hier[i].req in Reqs(s.hier);
    forall r | r in t.expiry ensures ReqOk(t, r, {}) {
      assert ReqOk(s, r, busy);
    }
  }

  /** An entry that reset has made out of date. */
  predicate Stale(e: Entry, expiry: map<Request, int>) {
    e.req in expiry && expiry[e.req] != e.key
  }

  function StaleCount(hier: seq<Entry>, expiry: map<Request, int>): nat {
    if hier == [] then 0
    else StaleCount(hier[..|hier| - 1], expiry) + if Stale(hier[|hier| - 1], expiry) then 1 else 0
  }

  lemma {:induction false} StaleSum(a: seq<Entry>, b: seq<Entry>, expiry: map<Request, int>)
    ensures StaleCount(a + b, expiry) == StaleCount(a, expiry) + StaleCount(b, expiry)
    decreases |b|
  {
    if b == [] {
      assert a + b == a;
    } else {
      assert (a + b)[..|a + b| - 1] == a + b[..|b| - 1];
      StaleSum(a, b[..|b| - 1], expiry);
    }
  }

  lemma EraseStale(hier: seq<Entry>, i: nat, expiry: map<Request, int>)
    requires i < |hier|
    ensures StaleCount(hier, expiry) ==
      StaleCount(Erase(hier, i), expiry) + if Stale(hier[i], expiry) then 1 else 0
  {
    assert hier == hier[..i] + [hier[i]] + hier[i + 1..];
    StaleSum(hier[..i], [hier[i]], expiry);
    StaleSum(hier[..i] + [hier[i]], hier[i + 1..], expiry);
    StaleSum(hier[..i], hier[i + 1..], expiry);
    assert [hier[i]][..0] == [];
  }

  lemma EmplaceStale(hier: seq<Entry>, e: Entry, expiry: map<Request, int>)
    ensures StaleCount(Emplace(hier, e), expiry) ==
      StaleCount(hier, expiry) + if Stale(e, expiry) then 1 else 0
  {
    var p := UpperBound(hier, e.key);
    assert hier == hier[..p] + hier[p..];
    StaleSum(hier[..p], hier[p..], expiry);
    StaleSum(hier[..p], [e], expiry);
    StaleSum(hier[..p] + [e], hier[p..], expiry);
    assert [e][..0] == [];
  }

  lemma MoveStale(s: Snap, i: nat)
    requires i < |s.hier| && Stale(s.hier[i], s.expiry)
    ensures StaleCount(Moving(s, i).hier, s.expiry) == StaleCount(s.hier, s.expiry) - 1
  {
    var r := s.hier[i].req;
    EraseStale(s.hier, i, s.expiry);
    EmplaceStale(Erase(s.hier, i), Entry(s.expiry[r], r), s.expiry);
  }

  /** A bookkeeping pass from position i on, when callbacks do nothing. */
  ghost function PassFrom(s: Snap, i: nat, now: int): (t: Snap)
    requires i <= |s.hier| && Ok(s, {})
    ensures Ok(t, {}) && t.expiry == s.expiry && t.cancelled == s.cancelled
    decreases StaleCount(s.hier, s.expiry), |s.hier| - i
  {
    hide Ok, Shape;
    if i == |s.hier| then s else
      var e := s.hier[i];
      Known(s, i);
      if Stale(e, s.expiry) then
        MoveOk(s, {}, i);
        MoveStale(s, i);
        PassFrom(Moving(s, i), UpperBound(Erase(s.hier, i), s.expiry[e.req]), now)
      else if e.key <= now then
        EraseStale(s.hier, i, s.expiry);
        PassFrom(Done(s, i, now), i, now)
      else s
  }

  lemma Known(s: Snap, i: nat)
    requires i < |s.hier| && Ok(s, {})
    ensures s.hier[i].req in s.expiry && s.hier[i].req in s.cancelled && s.hier[i].req in Reqs(s.hier)
  {
    assert s.hier[i].req in Reqs(s.hier);
  }

  /** What PassFrom does first. */
  lemma PassStep(s: Snap, i: nat, now: int)
    requires i < |s.hier| && Ok(s, {})
    ensures s.hier[i].req in s.expiry && s.hier[i].req in s.cancelled && s.hier[i].req in Reqs(s.hier)
    ensures Stale(s.hier[i], s.expiry) ==>
      var k := UpperBound(Erase(s.hier, i), s.expiry[s.hier[i].req]);
      && k <= |Moving(s, i).hier| && Ok(Moving(s, i), {})
      && PassFrom(s, i, now) == PassFrom(Moving(s, i), k, now)
    ensures !Stale(s.hier[i], s.expiry) && s.hier[i].key <= now ==>
      && i <= |Done(s, i, now).hier| && PassFrom(s, i, now) == PassFrom(Done(s, i, now), i, now)
    ensures !Stale(s.hier[i], s.expiry) && s.hier[i].key > now ==> PassFrom(s, i, now) == s
  {
    hide Ok;
    Known(s, i);
    MoveOk(s, {}, i);
    MoveIndex(s, i);
    EraseAt(s.hier, i);
  }

  lemma PassEnd(s: Snap, now: int)
    requires Ok(s, {})
    ensures PassFrom(s, |s.hier|, now) == s
  {
    hide Ok;
  }

  lemma MoveIs(s: Snap, i: nat)
    requires i < |s.hier| && s.hier[i].req in s.expiry
    ensures Erase(s.hier, i) == s.hier[..i] + s.hier[i + 1..]
    ensures var e := s.expiry[s.hier[i].req];
      var h := Erase(s.hier, i);
      Moving(s, i) == s.(hier := h[..UpperBound(h, e)] + [Entry(e, s.hier[i].req)] + h[UpperBound(h, e)..])
  {
    EmplaceIs(Erase(s.hier, i), Entry(s.expiry[s.hier[i].req], s.hier[i].req));
  }

  /** A due entry's callback is called, if it was not cancelled, and the entry is gone. */
  ghost function Done(s: Snap, i: nat, now: int): (t: Snap)
    requires i < |s.hier| && s.hier[i].req in s.expiry && s.hier[i].req in s.cancelled && s.hier[i].req in Reqs(s.hier)
    requires s.expiry[s.hier[i].req] <= now && Ok(s, {})
    ensures Ok(t, {}) && t.expiry == s.expiry && t.cancelled == s.cancelled && t.hier == Erase(s.hier, i)
    ensures Matched(s) ==> Matched(t)
  {
    hide Ok, Matched;
    var r := s.hier[i].req;
    if s.cancelled[r] then
      RemoveOk(s, {}, i);
      Removing(s, i)
    else
      FireOk(s, r, now);
      RemoveOk(Firing(s, r, now), {r}, i);
      Removing(Firing(s, r, now), i)
  }

  /** No key is after its request's expiry: with timeouts of whole milliseconds and a clock
      that does not go back, reset only puts expiries off. */
  ghost predicate KeysFirst(s: Snap) {
    forall e <- s.hier :: e.req in s.expiry && e.key <= s.expiry[e.req]
  }

  /** What a request of s has come to in t. */
  predicate LeftOrDealtWith(s: Snap, t: Snap, r: Request, now: int)
    requires r in s.cancelled
  {
    r in Reqs(t.hier) || s.cancelled[r] || Had(t.trace, Fired(r, now))
  }

  ghost predicate Passed(s: Snap, t: Snap, now: int) {
    && s.trace <= t.trace
    && (Matched(s) ==> Matched(t)) && (KeysFirst(s) ==> KeysFirst(t))
    && StaleCount(t.hier, t.expiry) <= StaleCount(s.hier, s.expiry)
    && Reqs(t.hier) <= Reqs(s.hier)
    && forall r <- Reqs(s.hier) :: r in s.cancelled && LeftOrDealtWith(s, t, r, now)
  }

  lemma PassedTrans(s: Snap, t: Snap, u: Snap, now: int)
    requires t.cancelled == s.cancelled && Passed(s, t, now) && Passed(t, u, now)
    ensures Passed(s, u, now)
  {
    hide Matched, KeysFirst, Reqs;
    forall r <- Reqs(s.hier) ensures r in s.cancelled && LeftOrDealtWith(s, u, r, now) {
      assert LeftOrDealtWith(s, t, r, now);
      if r in Reqs(t.hier) { assert LeftOrDealtWith(t, u, r, now); }
    }
  }

  lemma PassedNone(s: Snap, now: int)
    requires Ok(s, {})
    ensures Passed(s, s, now)
  {
  }

  lemma MovePassed(s: Snap, i: nat, now: int)
    requires i < |s.hier| && s.hier[i].req in s.expiry && Stale(s.hier[i], s.expiry) && Ok(s, {})
    ensures Passed(s, Moving(s, i), now)
  {
    hide WasFired, Had, ExpiryOf, AllRightful, Emplace, Sorted, OneEach, Matched;
    var t := Moving(s, i);
    MoveOk(s, {}, i);
    MoveStale(s, i);
    MoveIn(s, i);
    forall r <- Reqs(s.hier) ensures r in s.cancelled && LeftOrDealtWith(s, t, r, now) { }
  }

  lemma MoveIn(s: Snap, i: nat)
    requires i < |s.hier| && s.hier[i].req in s.expiry && Ok(s, {})
    ensures Reqs(Moving(s, i).hier) == Reqs(s.hier)
    ensures KeysFirst(s) ==> KeysFirst(Moving(s, i))
  {
    hide Ok, Emplace, Erase, KeysFirst;
    var r := s.hier[i].req;
    var e, h := Entry(s.expiry[r], r), Erase(s.hier, i);
    IsSorted(s);
    EraseKeeps(s.hier, i);
    EmplaceReqs(h, e);
    assert r in Reqs(s.hier);
    if KeysFirst(s) { MoveKeys(s, i); }
  }

  lemma IsSorted(s: Snap)
    requires Ok(s, {})
    ensures Sorted(s.hier) && OneEach(s.hier)
  {
  }

  lemma MoveKeys(s: Snap, i: nat)
    requires i < |s.hier| && s.hier[i].req in s.expiry && KeysFirst(s)
    ensures KeysFirst(Moving(s, i))
  {
    var r := s.hier[i].req;
    var e, h, t := Entry(s.expiry[r], r), Erase(s.hier, i), Moving(s, i);
    forall x <- t.hier ensures x in s.hier || x == e {
      assert x in h || x == e;
    }
  }

  lemma DonePassed(s: Snap, i: nat, now: int)
    requires i < |s.hier| && s.hier[i].req in s.expiry && s.hier[i].req in s.cancelled && s.hier[i].req in Reqs(s.hier)
    requires s.expiry[s.hier[i].req] <= now && Ok(s, {})
    ensures Passed(s, Done(s, i, now), now)
  {
    hide WasFired, ExpiryOf, AllRightful, Matched;
    var t, r := Done(s, i, now), s.hier[i].req;
    EraseKeeps(s.hier, i);
    EraseStale(s.hier, i, s.expiry);
    EraseAt(s.hier, i);
    if !s.cancelled[r] {
      assert t.trace == s.trace + [Fired(r, now)];
      assert t.trace[|s.trace|] == Fired(r, now);
    }
    forall q <- Reqs(s.hier) ensures q in s.cancelled && LeftOrDealtWith(s, t, q, now) { }
  }

  lemma {:induction false} PassFromPassed(s: Snap, i: nat, now: int)
    requires i <= |s.hier| && Ok(s, {})
    ensures Passed(s, PassFrom(s, i, now), now)
    decreases StaleCount(s.hier, s.expiry), |s.hier| - i
  {
    hide Ok, Shape, Passed, Done, Moving, Erase;
    PassedNone(s, now);
    if i < |s.hier| {
      var e := s.hier[i];
      Known(s, i);
      if Stale(e, s.expiry) {
        MoveOk(s, {}, i);
        MoveStale(s, i);
        MovePassed(s, i, now);
        MoveIndex(s, i);
        PassFromPassed(Moving(s, i), UpperBound(Erase(s.hier, i), s.expiry[e.req]), now);
        PassedTrans(s, Moving(s, i), PassFrom(s, i, now), now);
      } else if e.key <= now {
        EraseStale(s.hier, i, s.expiry);
        EraseAt(s.hier, i);
        DonePassed(s, i, now);
        PassFromPassed(Done(s, i, now), i, now);
        PassedTrans(s, Done(s, i, now), PassFrom(s, i, now), now);
      }
    }
  }

  lemma MoveIndex(s: Snap, i: nat)
    requires i < |s.hier| && s.hier[i].req in s.expiry
    ensures UpperBound(Erase(s.hier, i), s.expiry[s.hier[i].req]) < |Moving(s, i).hier| == |s.hier|
    ensures Moving(s, i).expiry == s.expiry && Moving(s, i).cancelled == s.cancelled
  {
    EmplaceAt(Erase(s.hier, i), Entry(s.expiry[s.hier[i].req], s.hier[i].req));
  }

  /** A pass either meets a stale entry, and then there are fewer, or deals with all that
      is due. */
  lemma {:induction false} PassProgress(s: Snap, i: nat, now: int)
    requires i <= |s.hier| && Ok(s, {})
    ensures var t := PassFrom(s, i, now);
      StaleCount(t.hier, t.expiry) < StaleCount(s.hier, s.expiry)
      || (i <= |t.hier| && forall j | i <= j < |t.hier| :: now < t.hier[j].key)
    decreases |s.hier| - i
  {
    hide Ok, Passed, Done, Moving, Erase;
    if i < |s.hier| {
      var e := s.hier[i];
      Known(s, i);
      if Stale(e, s.expiry) {
        MoveOk(s, {}, i);
        MoveStale(s, i);
        MoveIndex(s, i);
        var u := Moving(s, i);
        var k := UpperBound(Erase(s.hier, i), s.expiry[e.req]);
        PassFromPassed(u, k, now);
        PassedStale(u, PassFrom(u, k, now), now);
      } else if e.key <= now {
        EraseStale(s.hier, i, s.expiry);
        EraseAt(s.hier, i);
        PassProgress(Done(s, i, now), i, now);
      } else {
        SortedFrom(s, i, now);
      }
    }
  }

  lemma PassedStale(s: Snap, t: Snap, now: int)
    requires Passed(s, t, now)
    ensures StaleCount(t.hier, t.expiry) <= StaleCount(s.hier, s.expiry)
  {
  }

  lemma SortedFrom(s: Snap, i: nat, now: int)
    requires i < |s.hier| && now < s.hier[i].key && Ok(s, {})
    ensures forall j | i <= j < |s.hier| :: now < s.hier[j].key
  {
    hide WasFired, Had, ExpiryOf, AllRightful, OneEach, Reqs;
  }

  // ---------------------------------------------------------------------
  // Passes whose callbacks act
  // ---------------------------------------------------------------------

  predicate ResetIn(trace: seq<Act>, n: nat, r: Request) {
    exists i :: n <= i < |trace| && trace[i].Reset? && trace[i].r == r
  }

  /** From n on resets put expiries off, as they do with timeouts of whole milliseconds. */
  predicate Forward(trace: seq<Act>, n: nat) {
    forall i | n <= i < |trace| && trace[i].Reset? :: ExpiryOf(trace[..i], trace[i].r) <= trace[i].expiry
  }

  function Resets(trace: seq<Act>): nat {
    if trace == [] then 0 else Resets(trace[..|trace| - 1]) + if trace[|trace| - 1].Reset? then 1 else 0
  }

  lemma ResetMore(trace: seq<Act>, a: Act, n: nat)
    requires n <= |trace|
    ensures Resets(trace + [a]) == Resets(trace) + if a.Reset? then 1 else 0
    ensures Forward(trace + [a], n) <==> Forward(trace, n) && (a.Reset? ==> ExpiryOf(trace, a.r) <= a.expiry)
    ensures forall r :: ResetIn(trace, n, r) || (a.Reset? && a.r == r) ==> ResetIn(trace + [a], n, r)
  {
    hide ExpiryOf;
    var longer := trace + [a];
    assert longer[..|trace|] == trace && longer[|trace|] == a;
    assert forall i | 0 <= i < |trace| :: longer[i] == trace[i] && longer[..i] == trace[..i];
    forall r | ResetIn(trace, n, r) ensures ResetIn(longer, n, r) {
      var i :| n <= i < |trace| && trace[i].Reset? && trace[i].r == r;
      assert longer[i] == trace[i];
    }
  }

  lemma {:induction false} ForwardPrefix(trace: seq<Act>, longer: seq<Act>, n: nat)
    requires trace <= longer && Forward(longer, n)
    ensures Forward(trace, n)
  {
    hide ExpiryOf;
    forall i | n <= i < |trace| && trace[i].Reset? ensures ExpiryOf(trace[..i], trace[i].r) <= trace[i].expiry {
      assert longer[i] == trace[i] && longer[..i] == trace[..i];
    }
  }

  /** Since s0 only acts have been added, and expiries changed only by reset. */
  ghost predicate Carried(s0: Snap, s: Snap) {
    && s0.trace <= s.trace && s0.expiry.Keys <= s.expiry.Keys
    && forall r | r in s0.expiry :: s.expiry[r] == s0.expiry[r] || ResetIn(s.trace, |s0.trace|, r)
  }

  ghost predicate KeysKept(s0: Snap, s: Snap) {
    KeysFirst(s0) && Forward(s.trace, |s0.trace|) ==> KeysFirst(s)
  }

  /** Each request of s0 is still there, was cancelled, or has been fired at now. */
  ghost predicate AllDealt(s0: Snap, s: Snap, now: int) {
    forall r <- Reqs(s0.hier) :: r in s.cancelled && LeftOrDealtWith(s, s, r, now)
  }

  /** Only resets make entries stale, and moving one leaves one fewer. */
  ghost predicate Budget(s0: Snap, s: Snap, moved: bool) {
    StaleCount(s.hier, s.expiry) + (if moved then 1 else 0) + Resets(s0.trace) <=
      StaleCount(s0.hier, s0.expiry) + Resets(s.trace)
  }

  /** What a pass has done so far; moved says whether it has met a stale entry. */
  ghost predicate Went(s0: Snap, s: Snap, now: int, moved: bool) {
    Carried(s0, s) && KeysKept(s0, s) && AllDealt(s0, s, now) && Budget(s0, s, moved)
  }

  lemma WentNone(s: Snap, now: int)
    requires Ok(s, {})
    ensures Went(s, s, now, false)
  {
    hide Forward, StaleCount, Resets, ResetIn;
  }

  /** The trace grows by an act that is not a reset, and expiries stay. */
  lemma CarriedOn(s0: Snap, s: Snap, t: Snap, a: Act)
    requires Carried(s0, s) && t.trace == s.trace + [a]
    requires s0.expiry.Keys <= t.expiry.Keys
    requires forall r | r in s0.expiry :: t.expiry[r] == s.expiry[r] || (a.Reset? && a.r == r)
    ensures Carried(s0, t)
    ensures Forward(t.trace, |s0.trace|) <==>
      Forward(s.trace, |s0.trace|) && (a.Reset? ==> ExpiryOf(s.trace, a.r) <= a.expiry)
    ensures Resets(t.trace) == Resets(s.trace) + if a.Reset? then 1 else 0
  {
    hide Forward, Resets, ResetIn, ExpiryOf;
    ResetMore(s.trace, a, |s0.trace|);
  }

  lemma {:induction false} WentMove(s0: Snap, s: Snap, i: nat, now: int, moved: bool)
    requires i < |s.hier| && s.hier[i].req in s.expiry && Stale(s.hier[i], s.expiry) && Ok(s, {})
    requires Went(s0, s, now, moved)
    ensures Went(s0, Moving(s, i), now, true)
  {
    hide Ok, Moving, Forward, StaleCount, Resets, ResetIn, KeysFirst, Reqs, Had;
    MoveIn(s, i);
    MoveStale(s, i);
    MoveSame(s, i);
  }

  lemma MoveSame(s: Snap, i: nat)
    requires i < |s.hier| && s.hier[i].req in s.expiry
    ensures Moving(s, i) == s.(hier := Moving(s, i).hier)
  {
  }

  lemma HadMore(trace: seq<Act>, a: Act, b: Act)
    ensures Had(trace + [a], b) <==> Had(trace, b) || a == b
  {
    assert (trace + [a])[|trace|] == a;
  }

  lemma {:induction false} WentFire(s0: Snap, s: Snap, r: Request, now: int, moved: bool)
    requires Went(s0, s, now, moved)
    ensures Went(s0, Firing(s, r, now), now, moved)
    ensures Had(Firing(s, r, now).trace, Fired(r, now))
  {
    hide Forward, StaleCount, Resets, ResetIn, Reqs, Had;
    var t, a := Firing(s, r, now), Fired(r, now);
    CarriedOn(s0, s, t, a);
    HadMore(s.trace, a, a);
    forall q <- Reqs(s0.hier) ensures LeftOrDealtWith(t, t, q, now) {
      assert LeftOrDealtWith(s, s, q, now);
      HadMore(s.trace, a, Fired(q, now));
    }
  }

  lemma {:induction false} WentRemove(s0: Snap, s: Snap, i: nat, now: int, moved: bool)
    requires i < |s.hier| && Sorted(s.hier) && OneEach(s.hier) && Went(s0, s, now, moved)
    requires s.hier[i].req in s.cancelled
    requires s.cancelled[s.hier[i].req] || Had(s.trace, Fired(s.hier[i].req, now))
    ensures Went(s0, Removing(s, i), now, moved)
  {
    hide Forward, StaleCount, Resets, ResetIn, Reqs, Had, Erase, Sorted, OneEach;
    EraseKeeps(s.hier, i);
    EraseStale(s.hier, i, s.expiry);
    EraseIn(s.hier, i);
    forall q <- Reqs(s0.hier) ensures LeftOrDealtWith(Removing(s, i), Removing(s, i), q, now) {
      assert LeftOrDealtWith(s, s, q, now);
    }
  }

  lemma EraseIn(hier: seq<Entry>, i: nat)
    requires i < |hier|
    ensures forall e <- Erase(hier, i) :: e in hier
  {
  }

  lemma {:induction false} WentPost(s0: Snap, s: Snap, busy: set<Request>, r: Request, expiry: int, now: int,
                                    moved: bool)
    requires r !in s.expiry && Ok(s, busy) && Went(s0, s, now, moved)
    ensures Went(s0, Posting(s, r, expiry), now, moved)
  {
    hide Ok, Forward, StaleCount, Resets, ResetIn, Reqs, Had, Emplace;
    var t, e := Posting(s, r, expiry), Entry(expiry, r);
    CarriedOn(s0, s, t, Posted(r, expiry));
    AreKnown(s, busy);
    StaleChanged(s.hier, s.expiry, r, expiry);
    EmplaceStale(s.hier, e, t.expiry);
    EmplaceReqs(s.hier, e);
    forall y <- t.hier ensures y == e || y in s.hier { EmplaceIn(s.hier, e, y); }
    forall y <- s.hier ensures y.req in Reqs(s.hier) { InReqs(s.hier, y); }
    forall q <- Reqs(s0.hier) ensures q in t.cancelled && LeftOrDealtWith(t, t, q, now) {
      assert LeftOrDealtWith(s, s, q, now);
      HadMore(s.trace, Posted(r, expiry), Fired(q, now));
    }
  }

  lemma AreKnown(s: Snap, busy: set<Request>)
    requires Ok(s, busy)
    ensures Sorted(s.hier) && OneEach(s.hier)
    ensures Reqs(s.hier) <= s.expiry.Keys == s.cancelled.Keys
    ensures forall r | r in s.expiry :: s.expiry[r] == ExpiryOf(s.trace, r)
  {
    hide Sorted, OneEach, Reqs, ExpiryOf, WasFired, Had, AllRightful;
    forall r | r in s.expiry ensures s.expiry[r] == ExpiryOf(s.trace, r) { assert ReqOk(s, r, busy); }
  }

  lemma {:induction false} WentCancel(s0: Snap, s: Snap, r: Request, now: int, moved: bool)
    requires r in s.expiry && Went(s0, s, now, moved)
    ensures Went(s0, Cancelling(s, r), now, moved)
  {
    hide Forward, StaleCount, Resets, ResetIn, Reqs, Had;
    var t, a := Cancelling(s, r), Cancelled(r);
    CarriedOn(s0, s, t, a);
    forall q <- Reqs(s0.hier) ensures q in t.cancelled && LeftOrDealtWith(t, t, q, now) {
      assert LeftOrDealtWith(s, s, q, now);
      HadMore(s.trace, a, Fired(q, now));
    }
  }

  lemma {:induction false} WentReset(s0: Snap, s: Snap, busy: set<Request>, r: Request, e: int, now: int, moved: bool)
    requires r in s.expiry && Ok(s, busy) && Went(s0, s, now, moved)
    ensures Went(s0, Resetting(s, r, e), now, moved)
  {
    hide Ok, Forward, StaleCount, Resets, ResetIn, Reqs, Had, ExpiryOf;
    var t, a := Resetting(s, r, e), Act.Reset(r, e);
    CarriedOn(s0, s, t, a);
    AreKnown(s, busy);
    StaleChanged(s.hier, s.expiry, r, e);
    forall q <- Reqs(s0.hier) ensures q in t.cancelled && LeftOrDealtWith(t, t, q, now) {
      assert LeftOrDealtWith(s, s, q, now);
      HadMore(s.trace, a, Fired(q, now));
    }
  }

  /** No request that was known at s0 has an entry that is due. */
  ghost predicate AllLater(s0: Snap, t: Snap, now: int) {
    forall e <- t.hier :: e.req in s0.expiry ==> now < e.key
  }

  /** From n on only requests that expired no later than bound have been fired. */
  ghost predicate FiredUpTo(trace: seq<Act>, n: nat, bound: int) {
    forall i | n <= i < |trace| && trace[i].Fired? :: ExpiryOf(trace[..i], trace[i].r) <= bound
  }

  /** From n on requests have been fired in the order of their expiries then. */
  ghost predicate FiredInOrder(trace: seq<Act>, n: nat) {
    forall i, j | n <= i < j < |trace| && trace[i].Fired? && trace[j].Fired? ::
      ExpiryOf(trace[..i], trace[i].r) <= ExpiryOf(trace[..j], trace[j].r)
  }

  lemma OrderStays(trace: seq<Act>, longer: seq<Act>, n: nat)
    requires n <= |trace| && trace <= longer && forall i | |trace| <= i < |longer| :: !longer[i].Fired?
    ensures FiredInOrder(trace, n) ==> FiredInOrder(longer, n)
    ensures forall b :: FiredUpTo(trace, n, b) ==> FiredUpTo(longer, n, b)
    ensures Forward(longer, n) ==> Forward(trace, n)
  {
    hide ExpiryOf;
    assert forall i | 0 <= i < |trace| :: longer[i] == trace[i] && longer[..i] == trace[..i];
  }

  lemma OrderMore(trace: seq<Act>, n: nat, r: Request, now: int)
    requires n <= |trace| && FiredInOrder(trace, n) && FiredUpTo(trace, n, ExpiryOf(trace, r))
    ensures FiredInOrder(trace + [Fired(r, now)], n) && FiredUpTo(trace + [Fired(r, now)], n, ExpiryOf(trace, r))
  {
    hide ExpiryOf;
    var longer := trace + [Fired(r, now)];
    assert forall i | 0 <= i < |trace| :: longer[i] == trace[i] && longer[..i] == trace[..i];
    assert longer[..|trace|] == trace;
  }

  /** Under a clock that does not go back what was fired is in order, and no later than the
      entry at i, where the pass is. */
  ghost predicate InOrder(s0: Snap, trace: seq<Act>, hier: seq<Entry>, i: nat) {
    KeysFirst(s0) && Forward(trace, |s0.trace|) ==>
      FiredInOrder(trace, |s0.trace|) && (i < |hier| ==> FiredUpTo(trace, |s0.trace|, hier[i].key))
  }

  /** t is what a pass over s may leave, whatever its callbacks do. */
  ghost predicate Acted(s: Snap, t: Snap, now: int) {
    && Ok(s, {}) && Ok(t, {}) && Went(s, t, now, false)
    && (Went(s, t, now, true) || AllLater(s, t, now))
    && InOrder(s, t.trace, [], 0)
  }

  /** The entry at i has been fired or was cancelled; the next is no earlier. */
  lemma OrderFinished(s0: Snap, trace: seq<Act>, hier: seq<Entry>, i: nat, trace': seq<Act>, hier': seq<Entry>, at: nat,
                      called: bool, now: int)
    requires |s0.trace| <= |trace| && i < |hier| && InOrder(s0, trace, hier, i)
    requires called ==> ExpiryOf(trace, hier[i].req) == hier[i].key
    requires called ==> |trace| < |trace'| && trace + [Fired(hier[i].req, now)] == trace'[..|trace| + 1]
    requires called ==> forall k | |trace| < k < |trace'| :: !trace'[k].Fired?
    requires !called ==> trace' == trace
    requires at < |hier'| ==> hier[i].key <= hier'[at].key
    ensures InOrder(s0, trace', hier', at)
  {
    hide ExpiryOf, FiredUpTo, FiredInOrder, Forward, KeysFirst;
    var n := |s0.trace|;
    if KeysFirst(s0) && Forward(trace', n) {
      if called {
        var fired := trace + [Fired(hier[i].req, now)];
        OrderStays(fired, trace', n);
        ForwardPrefix(trace, fired, n);
        OrderMore(trace, n, hier[i].req, now);
      }
      if at < |hier'| { UpToMore(trace', n, hier[i].key, hier'[at].key); }
    }
  }

  lemma OrderNone(s: Snap)
    ensures InOrder(s, s.trace, s.hier, 0)
  {
  }

  lemma OrderDone(s0: Snap, trace: seq<Act>, hier: seq<Entry>, i: nat)
    requires InOrder(s0, trace, hier, i)
    ensures InOrder(s0, trace, [], 0)
  {
  }

  lemma UpToMore(trace: seq<Act>, n: nat, a: int, b: int)
    requires FiredUpTo(trace, n, a) && a <= b
    ensures FiredUpTo(trace, n, b)
  {
  }

  lemma OrderMoved(s0: Snap, s: Snap, i: nat, hier': seq<Entry>, at: nat, now: int, moved: bool)
    requires Went(s0, s, now, moved) && i < |s.hier| && s.hier[i].req in s.expiry && InOrder(s0, s.trace, s.hier, i)
    requires at < |hier'| && hier'[at].key == s.expiry[s.hier[i].req]
    ensures InOrder(s0, s.trace, hier', at)
  {
    hide ExpiryOf, FiredUpTo, FiredInOrder, Forward, Carried, AllDealt, Budget;
    if KeysFirst(s0) && Forward(s.trace, |s0.trace|) {
      assert s.hier[i].key <= hier'[at].key;
      UpToMore(s.trace, |s0.trace|, s.hier[i].key, hier'[at].key);
    }
  }

  lemma WentLess(s0: Snap, s: Snap, now: int, moved: bool)
    requires Went(s0, s, now, moved)
    ensures Went(s0, s, now, false)
  {
    hide Carried, KeysKept, AllDealt, StaleCount, Resets;
  }

  lemma {:induction false} ResetCounts(trace: seq<Act>, n: nat)
    requires n <= |trace|
    ensures Resets(trace) >= Resets(trace[..n])
    ensures Resets(trace) == Resets(trace[..n]) <==> forall i | n <= i < |trace| :: !trace[i].Reset?
    decreases |trace|
  {
    if n == |trace| {
      assert trace[..n] == trace;
    } else {
      assert trace[..|trace| - 1][..n] == trace[..n];
      ResetCounts(trace[..|trace| - 1], n);
    }
  }

  /** With no stale entry and callbacks that reset nothing, whatever else they do, a pass deals
      with every request that is due: it is gone, fired at now or cancelled. */
  lemma {:induction false} ActedClean(s: Snap, t: Snap, now: int, r: Request)
    requires Acted(s, t, now) && StaleCount(s.hier, s.expiry) == 0 && r in Reqs(s.hier) && r in s.expiry
    requires forall i | |s.trace| <= i < |t.trace| :: !t.trace[i].Reset?
    requires s.expiry[r] <= now
    ensures r !in Reqs(t.hier) && r in t.cancelled && (t.cancelled[r] || Had(t.trace, Fired(r, now)))
  {
    hide Ok, StaleCount, Resets, Had, Forward, KeysFirst;
    ResetCounts(t.trace, |s.trace|);
    assert t.trace[..|s.trace|] == s.trace;
    assert LeftOrDealtWith(t, t, r, now);
    if e :| e in t.hier && e.req == r {
      var j :| 0 <= j < |t.hier| && t.hier[j] == e;
      NoneStale(t, j);
    }
  }

  /** What happens to a wheel: a pass with whatever callbacks, or between passes a post, a
      cancel or a reset. */
  datatype Turn =
    | PassTurn(now: int)
    | PostTurn(r: Request, expiry: int)
    | CancelTurn(r: Request)
    | ResetTurn(r: Request, expiry: int)

  ghost predicate Turns(s: Snap, turn: Turn, t: Snap) {
    match turn
    case PassTurn(now) => Acted(s, t, now)
    case PostTurn(r, expiry) => r !in s.expiry && t == Posting(s, r, expiry)
    case CancelTurn(r) => r in s.expiry && t == Cancelling(s, r)
    case ResetTurn(r, expiry) => r in s.expiry && t == Resetting(s, r, expiry)
  }

  ghost predicate IsRun(states: seq<Snap>, turns: seq<Turn>) {
    && |states| == |turns| + 1
    && Ok(states[0], {})
    && forall i | 0 <= i < |turns| :: Turns(states[i], turns[i], states[i + 1])
  }

  function CountPasses(turns: seq<Turn>): nat {
    if turns == [] then 0 else (if turns[0].PassTurn? then 1 else 0) + CountPasses(turns[1..])
  }

  /** Changing one expiry makes at most one more entry stale. */
  lemma {:induction false} StaleChanged(hier: seq<Entry>, expiry: map<Request, int>, x: Request, e: int)
    requires OneEach(hier)
    ensures StaleCount(hier, expiry[x := e]) <= StaleCount(hier, expiry) + 1
    ensures x !in Reqs(hier) ==> StaleCount(hier, expiry[x := e]) == StaleCount(hier, expiry)
  {
    if hier != [] {
      var last, rest := hier[|hier| - 1], hier[..|hier| - 1];
      StaleChanged(rest, expiry, x, e);
      assert last.req in Reqs(hier) && Reqs(rest) <= Reqs(hier);
      if last.req == x { assert x !in Reqs(rest); }
    }
  }

  lemma InReqs(hier: seq<Entry>, e: Entry)
    requires e in hier
    ensures e.req in Reqs(hier)
  {
  }

  /** From n on r is neither cancelled nor reset, and resets of others put expiries off. */
  ghost predicate Spared(trace: seq<Act>, n: nat, r: Request) {
    && Forward(trace, n) && !ResetIn(trace, n, r)
    && forall i | n <= i < |trace| :: trace[i] != Cancelled(r)
  }

  /** The request is there, due at every pass to come, and not cancelled; all is the whole
      trace of the run. */
  ghost predicate Awaited(s: Snap, all: seq<Act>, turns: seq<Turn>, r: Request) {
    && r in Reqs(s.hier) && KeysFirst(s) && Ok(s, {})
    && r in s.cancelled && !s.cancelled[r] && r in s.expiry
    && s.trace <= all && Spared(all, |s.trace|, r)
    && forall i | 0 <= i < |turns| && turns[i].PassTurn? :: s.expiry[r] <= turns[i].now
  }

  /** The time of the pass; any, when the turn is not one. */
  function TimeOf(turn: Turn): int {
    if turn.PassTurn? then turn.now else 0
  }

  lemma {:induction false} TurnWent(s: Snap, turn: Turn, t: Snap)
    requires Turns(s, turn, t) && Ok(s, {})
    ensures Ok(t, {}) && Went(s, t, TimeOf(turn), false)
  {
    hide Ok, Went;
    WentNone(s, TimeOf(turn));
    match turn
    case PassTurn(_) =>
    case PostTurn(r, expiry) =>
      PostOk(s, {}, r, expiry);
      WentPost(s, s, {}, r, expiry, 0, false);
    case CancelTurn(r) =>
      CancelOk(s, {}, r);
      WentCancel(s, s, r, 0, false);
    case ResetTurn(r, expiry) =>
      ResetOk(s, {}, r, expiry);
      WentReset(s, s, {}, r, expiry, 0, false);
  }

  lemma {:induction false} SparedOn(trace: seq<Act>, all: seq<Act>, n: nat, r: Request)
    requires n <= |trace| && trace <= all && Spared(all, n, r)
    ensures Spared(all, |trace|, r) && Forward(trace, n) && !ResetIn(trace, n, r)
    ensures !Had(trace[..n], Cancelled(r)) ==> !Had(trace, Cancelled(r))
  {
    hide ExpiryOf;
    ForwardPrefix(trace, all, n);
    forall i | n <= i < |trace| ensures !(trace[i].Reset? && trace[i].r == r) { assert all[i] == trace[i]; }
    if i :| 0 <= i < |trace| && trace[i] == Cancelled(r) {
      assert all[i] == trace[i];
      if i < n { assert trace[..n][i] == trace[i]; }
    }
  }

  lemma FlagIs(s: Snap, r: Request)
    requires Ok(s, {}) && r in s.cancelled
    ensures s.cancelled[r] <==> Had(s.trace, Cancelled(r))
  {
    hide WasFired, Had, ExpiryOf, AllRightful, Sorted, OneEach, Reqs;
    assert ReqOk(s, r, {});
  }

  /** A turn fires the request, or it is still awaited. */
  lemma {:induction false} StillAwaited(s: Snap, t: Snap, all: seq<Act>, turns: seq<Turn>, r: Request, now: int)
    requires turns != [] && Awaited(s, all, turns, r) && Went(s, t, now, false) && Ok(t, {}) && t.trace <= all
    ensures Had(t.trace, Fired(r, now)) || Awaited(t, all, turns[1..], r)
    ensures r in t.expiry && t.expiry[r] == s.expiry[r]
  {
    hide Ok, StaleCount, Resets, Had, Forward, KeysFirst, ResetIn, Reqs;
    SparedOn(t.trace, all, |s.trace|, r);
    assert t.trace[..|s.trace|] == s.trace;
    FlagIs(s, r);
    assert r in t.cancelled && LeftOrDealtWith(t, t, r, now);
    FlagIs(t, r);
  }

  lemma PassLeft(s: Snap, t: Snap, r: Request, now: int)
    requires Acted(s, t, now) && r in s.expiry && r in Reqs(t.hier) && KeysFirst(t)
    requires r in t.expiry && t.expiry[r] <= now
    ensures StaleCount(t.hier, t.expiry) + 1 + Resets(s.trace) <= StaleCount(s.hier, s.expiry) + Resets(t.trace)
  {
    hide Ok, StaleCount, Resets, Carried, KeysKept, AllDealt;
    NotAllLater(t, r, now);
  }

  lemma {:induction false} TraceGrows(states: seq<Snap>, turns: seq<Turn>, k: nat)
    requires IsRun(states, turns) && k <= |turns|
    ensures states[k].trace <= states[|turns|].trace && Ok(states[k], {})
    decreases |turns| - k
  {
    hide Ok, Turns, Went;
    RunOk(states, turns, k);
    if k < |turns| {
      assert Turns(states[k], turns[k], states[k + 1]);
      TurnWent(states[k], turns[k], states[k + 1]);
      TraceGrows(states, turns, k + 1);
      WentTrace(states[k], states[k + 1], TimeOf(turns[k]));
    }
  }

  lemma WentTrace(s: Snap, t: Snap, now: int)
    requires Went(s, t, now, false)
    ensures s.trace <= t.trace
    ensures StaleCount(t.hier, t.expiry) + Resets(s.trace) <= StaleCount(s.hier, s.expiry) + Resets(t.trace)
  {
  }

  lemma {:induction false} RunOk(states: seq<Snap>, turns: seq<Turn>, k: nat)
    requires IsRun(states, turns) && k <= |turns|
    ensures Ok(states[k], {})
  {
    hide Ok, Turns, Went;
    if k > 0 {
      RunOk(states, turns, k - 1);
      assert Turns(states[k - 1], turns[k - 1], states[k]);
      TurnWent(states[k - 1], turns[k - 1], states[k]);
    }
  }

  lemma RunTail(states: seq<Snap>, turns: seq<Turn>)
    requires IsRun(states, turns) && turns != [] && Ok(states[1], {})
    ensures IsRun(states[1..], turns[1..])
  {
    hide Ok, Turns;
    forall i | 0 <= i < |turns| - 1 ensures Turns(states[1..][i], turns[1..][i], states[1..][i + 1]) {
      assert Turns(states[i + 1], turns[i + 1], states[i + 2]);
    }
  }

  lemma HadStays(trace: seq<Act>, longer: seq<Act>, a: Act)
    requires trace <= longer && Had(trace, a)
    ensures Had(longer, a)
  {
  }

  lemma AwaitedParts(s: Snap, all: seq<Act>, turns: seq<Turn>, r: Request)
    requires Awaited(s, all, turns, r)
    ensures r in Reqs(s.hier) && KeysFirst(s) && r in s.expiry && Ok(s, {})
    ensures turns != [] && turns[0].PassTurn? ==> s.expiry[r] <= turns[0].now
  {
  }

  /** Bounded lateness: over any run of posts, cancels, resets and passes whose callbacks post,
      cancel and reset, a request that is due at every pass and neither cancelled nor reset has
      been fired once there were more passes than entries stale at first and resets since. */
  lemma {:induction false} FiredWithin(states: seq<Snap>, turns: seq<Turn>, r: Request) returns (now: int)
    requires IsRun(states, turns) && Awaited(states[0], states[|turns|].trace, turns, r)
    requires CountPasses(turns) + Resets(states[0].trace) >
      StaleCount(states[0].hier, states[0].expiry) + Resets(states[|turns|].trace)
    ensures Had(states[|turns|].trace, Fired(r, now))
    decreases |turns|
  {
    hide Ok, Turns, Had, Awaited, Went, StaleCount, Resets, Acted;
    var all := states[|turns|].trace;
    if turns == [] {
      now := 0;
    } else {
      var s, t := states[0], states[1];
      assert Turns(s, turns[0], t);
      TraceGrows(states, turns, 1);
      AwaitedParts(s, all, turns, r);
      TurnWent(s, turns[0], t);
      WentTrace(s, t, TimeOf(turns[0]));
      StillAwaited(s, t, all, turns, r, TimeOf(turns[0]));
      if Had(t.trace, Fired(r, TimeOf(turns[0]))) {
        now := TimeOf(turns[0]);
        HadStays(t.trace, all, Fired(r, now));
      } else {
        AwaitedParts(t, all, turns[1..], r);
        if turns[0].PassTurn? {
          IsPass(s, turns[0], t);
          PassLeft(s, t, r, turns[0].now);
        }
        RunTail(states, turns);
        now := FiredWithin(states[1..], turns[1..], r);
      }
    }
  }

  lemma IsPass(s: Snap, turn: Turn, t: Snap)
    requires Turns(s, turn, t) && turn.PassTurn?
    ensures Acted(s, t, turn.now)
  {
  }

  lemma NotAllLater(t: Snap, r: Request, now: int)
    requires r in Reqs(t.hier) && r in t.expiry && t.expiry[r] <= now && KeysFirst(t)
    ensures exists j :: 0 <= j < |t.hier| && t.hier[j].key <= now
  {
    var e :| e in t.hier && e.req == r;
    var j :| 0 <= j < |t.hier| && t.hier[j] == e;
  }

  /** The firings of the entries es, in their order, but for the cancelled. */
  function Firings(es: seq<Entry>, cancelled: map<Request, bool>, now: int): seq<Act>
    requires forall e <- es :: e.req in cancelled
  {
    if es == [] then [] else
      (if cancelled[es[0].req] then [] else [Fired(es[0].req, now)]) + Firings(es[1..], cancelled, now)
  }

  lemma NoneStale(s: Snap, i: nat)
    requires i < |s.hier| && StaleCount(s.hier, s.expiry) == 0 && Ok(s, {})
    ensures s.hier[i].req in s.cancelled && s.hier[i].req in s.expiry && s.expiry[s.hier[i].req] == s.hier[i].key
  {
    hide Ok;
    Known(s, i);
    EraseStale(s.hier, i, s.expiry);
  }

  lemma DueFirst(s: Snap, now: int, i: nat)
    requires i < |s.hier| && Ok(s, {})
    ensures i < UpperBound(s.hier, now) <==> s.hier[i].key <= now
  {
    hide Ok;
    IsSorted(s);
  }

  /** With nothing stale a pass fires exactly the due requests that are not cancelled, in
      order of expiry, and keeps the others. */
  lemma CleanPass(s: Snap, now: int)
    requires StaleCount(s.hier, s.expiry) == 0 && Ok(s, {})
    ensures forall i | 0 <= i < |s.hier| ::
      s.hier[i].req in s.cancelled && s.hier[i].req in s.expiry && s.expiry[s.hier[i].req] == s.hier[i].key
    ensures Sorted(s.hier) && forall i | 0 <= i < |s.hier| :: i < UpperBound(s.hier, now) <==> s.hier[i].key <= now
    ensures var k, t := UpperBound(s.hier, now), PassFrom(s, 0, now);
      && t.hier == s.hier[k..]
      && t.trace == s.trace + Firings(s.hier[..k], s.cancelled, now)
  {
    hide Ok, PassFrom, StaleCount, UpperBound, Firings, Sorted;
    forall i | 0 <= i < |s.hier|
      ensures s.hier[i].req in s.cancelled && s.hier[i].req in s.expiry && s.expiry[s.hier[i].req] == s.hier[i].key
    {
      NoneStale(s, i);
    }
    IsSorted(s);
    forall i | 0 <= i < |s.hier| ensures i < UpperBound(s.hier, now) <==> s.hier[i].key <= now { DueFirst(s, now, i); }
    FiresDue(s, now);
  }

  lemma {:induction false} FiresDue(s: Snap, now: int)
    requires forall i | 0 <= i < |s.hier| :: s.hier[i].req in s.cancelled
    requires StaleCount(s.hier, s.expiry) == 0 && Ok(s, {})
    ensures var k, t := UpperBound(s.hier, now), PassFrom(s, 0, now);
      && t.hier == s.hier[k..]
      && t.trace == s.trace + Firings(s.hier[..k], s.cancelled, now)
    decreases |s.hier|
  {
    hide Ok, PassFrom, Done, StaleCount, Erase, UpperBound, Firings;
    PassFirst(s, now);
    Boundary(s.hier, now);
    if s.hier != [] && s.hier[0].key <= now {
      var u, k := Done(s, 0, now), UpperBound(s.hier, now);
      EraseStale(s.hier, 0, s.expiry);
      EraseFirst(s.hier);
      assert u.hier == s.hier[1..];
      FiresDue(u, now);
      FiringsFirst(s.hier, k, s.cancelled, now);
      TailOf(s.hier, k);
      Regroup(s.trace, if s.cancelled[s.hier[0].req] then [] else [Fired(s.hier[0].req, now)],
        Firings(u.hier[..k - 1], s.cancelled, now));
    } else {
      assert Firings([], s.cancelled, now) == [] by { NoFirings(s.cancelled, now); }
      assert s.hier[..0] == [] && s.hier[0..] == s.hier;
    }
  }

  lemma Boundary(hier: seq<Entry>, now: int)
    ensures hier == [] || now < hier[0].key ==> UpperBound(hier, now) == 0
    ensures hier != [] && hier[0].key <= now ==> UpperBound(hier, now) == 1 + UpperBound(hier[1..], now)
  {
  }

  lemma TailOf(hier: seq<Entry>, k: nat)
    requires 0 < k <= |hier|
    ensures hier[1..][k - 1..] == hier[k..]
  {
  }

  lemma NoFirings(cancelled: map<Request, bool>, now: int)
    ensures Firings([], cancelled, now) == []
  {
  }

  lemma FiringsFirst(hier: seq<Entry>, k: nat, cancelled: map<Request, bool>, now: int)
    requires 0 < k <= |hier| && forall i | 0 <= i < |hier| :: hier[i].req in cancelled
    ensures Firings(hier[..k], cancelled, now) ==
      (if cancelled[hier[0].req] then [] else [Fired(hier[0].req, now)]) + Firings(hier[1..][..k - 1], cancelled, now)
  {
    assert hier[..k][1..] == hier[1..][..k - 1];
  }

  lemma EraseFirst(hier: seq<Entry>)
    requires hier != []
    ensures Erase(hier, 0) == hier[1..]
  {
  }

  lemma PassFirst(s: Snap, now: int)
    requires StaleCount(s.hier, s.expiry) == 0 && Ok(s, {})
    ensures s.hier == [] ==> PassFrom(s, 0, now) == s
    ensures s.hier != [] ==>
      && s.hier[0].req in s.expiry && s.hier[0].req in s.cancelled && s.hier[0].req in Reqs(s.hier)
      && (s.hier[0].key > now ==> PassFrom(s, 0, now) == s)
      && (s.hier[0].key <= now ==>
        && s.expiry[s.hier[0].req] == s.hier[0].key
        && Done(s, 0, now).trace ==
          s.trace + (if s.cancelled[s.hier[0].req] then [] else [Fired(s.hier[0].req, now)])
        && PassFrom(s, 0, now) == PassFrom(Done(s, 0, now), 0, now))
  {
    hide Ok;
    if s.hier != [] {
      Known(s, 0);
      EraseStale(s.hier, 0, s.expiry);
    }
  }

  /** Every request expires at most its timeout after the clock, and no key is after its
      request's expiry. */
  ghost predicate OnTime(s: Snap, clock: int) {
    KeysFirst(s) && forall r <- Reqs(s.hier) :: r in s.expiry && s.expiry[r] <= clock + r.timeout * MS
  }

  /** Posting keeps that just when the timeout is not above its whole milliseconds. */
  lemma PostOnTime(s: Snap, clock: int, now: int, r: Request, timeout: int)
    requires clock <= now && r !in s.expiry && Reqs(s.hier) <= s.expiry.Keys && OnTime(s, clock)
    ensures OnTime(Posting(s, r, now + timeout), now) <==> timeout <= r.timeout * MS
  {
    hide Emplace;
    var t, e := Posting(s, r, now + timeout), Entry(now + timeout, r);
    EmplaceReqs(s.hier, e);
    forall x <- t.hier ensures x == e || x in s.hier { EmplaceIn(s.hier, e, x); }
    forall x <- s.hier ensures x.req in Reqs(s.hier) { }
    assert r in Reqs(t.hier) && t.expiry[r] == now + timeout;
  }

  /** That is, when it is not positive or is of whole milliseconds. */
  lemma WholeMilliseconds(timeout: int)
    ensures timeout <= Truncate(timeout, MS) * MS <==> timeout <= 0 || timeout % MS == 0
  {
  }

  lemma EmplaceIn(hier: seq<Entry>, e: Entry, x: Entry)
    requires x in Emplace(hier, e)
    ensures x == e || x in hier
  {
  }

  /** Resetting needs no more than a clock that does not go back. */
  lemma ResetOnTime(s: Snap, clock: int, now: int, r: Request)
    requires clock <= now && r in s.expiry && OnTime(s, clock)
    ensures OnTime(Resetting(s, r, now + r.timeout * MS), now)
  {
    forall x <- s.hier ensures x.req in Reqs(s.hier) { }
  }

  lemma PassOnTime(s: Snap, clock: int, now: int)
    requires OnTime(s, clock) && Ok(s, {})
    ensures OnTime(PassFrom(s, 0, now), clock)
  {
    hide Ok, PassFrom, KeysFirst;
    PassFromPassed(s, 0, now);
  }

  const EMPTY := Snap(map[], [], map[], map[], [])

  /** Half a millisecond posted at 0 and reset at 0: the expiry is brought forward. Behind
      another request that is not due it then is due, but no number of passes fires it. */
  function Blocked(a: Request, r: Request): Snap {
    Resetting(Posting(Posting(EMPTY, a, 1), r, 0 + MS / 2), r, 0 + r.timeout * MS)
  }

  lemma PartMillisecond(a: Request, r: Request, n: nat)
    requires a != r && r.timeout == Truncate(MS / 2, MS)
    ensures var s := Blocked(a, r);
      && !KeysFirst(s) && Ok(s, {}) && StaleCount(s.hier, s.expiry) == 1
      && r in Reqs(s.hier) && r in s.expiry && r in s.cancelled && !s.cancelled[r] && s.expiry[r] <= 0
      && !WasFired(s.trace, r)
      && IsRun(seq(n + 1, _ => s), seq(n, _ => PassTurn(0))) && CountPasses(seq(n, _ => PassTurn(0))) == n
  {
    hide Ok, Blocked, KeysFirst, StaleCount, Reqs, WasFired, IsRun;
    BlockedOk(a, r);
    BlockedIsDue(a, r);
    BlockedRun(a, r, n);
    PassesAll(n);
  }

  lemma BlockedIsDue(a: Request, r: Request)
    requires a != r && r.timeout == 0
    ensures var s := Blocked(a, r);
      && !KeysFirst(s) && StaleCount(s.hier, s.expiry) == 1
      && r in Reqs(s.hier) && r in s.expiry && r in s.cancelled && !s.cancelled[r] && s.expiry[r] <= 0
      && !WasFired(s.trace, r)
  {
    hide Blocked, StaleCount;
    BlockedIs(a, r);
    var s := Blocked(a, r);
    assert s.hier[1] == Entry(MS / 2, r);
  }

  lemma BlockedRun(a: Request, r: Request, n: nat)
    requires a != r && r.timeout == 0
    ensures IsRun(seq(n + 1, _ => Blocked(a, r)), seq(n, _ => PassTurn(0)))
  {
    hide Ok, Acted, Blocked;
    BlockedOk(a, r);
    BlockedActs(a, r);
    var states, turns := seq(n + 1, _ => Blocked(a, r)), seq(n, _ => PassTurn(0));
    forall i | 0 <= i < n ensures Turns(states[i], turns[i], states[i + 1]) { }
  }

  lemma BlockedOk(a: Request, r: Request)
    requires a != r && r.timeout == 0
    ensures Ok(Blocked(a, r), {})
  {
    hide Ok, Emplace;
    EmptyOk();
    PostOk(EMPTY, {}, a, 1);
    PostOk(Posting(EMPTY, a, 1), {}, r, MS / 2);
    ResetOk(Posting(Posting(EMPTY, a, 1), r, MS / 2), {}, r, 0);
  }

  lemma BlockedActs(a: Request, r: Request)
    requires a != r && r.timeout == 0
    ensures Acted(Blocked(a, r), Blocked(a, r), 0)
  {
    hide Ok, Went;
    BlockedOk(a, r);
    BlockedIs(a, r);
    WentNone(Blocked(a, r), 0);
  }

  lemma EmptyOk()
    ensures Ok(EMPTY, {}) && Matched(EMPTY)
  {
  }

  lemma BlockedIs(a: Request, r: Request)
    requires a != r && r.timeout == 0
    ensures var s := Blocked(a, r);
      && s.hier == [Entry(1, a), Entry(MS / 2, r)] && s.expiry == map[a := 1, r := 0]
      && r in s.cancelled && !s.cancelled[r]
      && s.trace == [Posted(a, 1), Posted(r, MS / 2), Reset(r, 0)]
      && StaleCount(s.hier, s.expiry) == 1
  {
    var s := Blocked(a, r);
    assert Emplace([], Entry(1, a)) == [Entry(1, a)];
    assert UpperBound([Entry(1, a)], MS / 2) == 1 by { assert [Entry(1, a)][1..] == []; }
    assert s.hier == [Entry(1, a), Entry(MS / 2, r)];
    StaleSum([Entry(1, a)], [Entry(MS / 2, r)], s.expiry);
    assert [Entry(1, a)][..0] == [] && [Entry(MS / 2, r)][..0] == [];
    assert [Entry(1, a)] + [Entry(MS / 2, r)] == s.hier;
  }

  lemma {:induction false} PassesAll(n: nat)
    ensures CountPasses(seq(n, _ => PassTurn(0))) == n
  {
    if n > 0 {
      PassesAll(n - 1);
      assert seq(n, _ => PassTurn(0))[1..] == seq(n - 1, _ => PassTurn(0));
    }
  }

  /** Two requests with one id: the map keeps the first, the multimap holds both. */
  lemma PostCollides(q: Request, r: Request, e: int, f: int)
    requires q != r && q.id == r.id
    ensures var s := Posting(EMPTY, q, e); Ok(s, {}) && Matched(s) && !Matched(Posting(s, r, f))
  {
    hide Ok, Matched;
    EmptyOk();
    PostOk(EMPTY, {}, q, e);
    PostOk(Posting(EMPTY, q, e), {}, r, f);
  }

  lemma EmplaceIs(hier: seq<Entry>, e: Entry)
    ensures Emplace(hier, e) == hier[..UpperBound(hier, e.key)] + [e] + hier[UpperBound(hier, e.key)..]
  {
  }

  lemma PostIs(s: Snap, r: Request, expiry: int)
    ensures Posting(s, r, expiry) == Snap(
      if r.id in s.requests then s.requests else s.requests[r.id := r],
      s.hier[..UpperBound(s.hier, expiry)] + [Entry(expiry, r)] + s.hier[UpperBound(s.hier, expiry)..],
      s.expiry[r := expiry], s.cancelled[r := false], s.trace + [Posted(r, expiry)])
  {
    EmplaceIs(s.hier, Entry(expiry, r));
  }

  /** Division towards zero. */
  function Truncate(a: int, b: int): int
    requires b > 0
  {
    if a >= 0 then a / b else -(-a / b)
  }

  datatype Outcome = Success | OutOfRange

  /** What a callback does; the times are those the clock then shows. */
  datatype Op = PostOp(timeout: int, now: int) | CancelOp(id: nat) | ResetOp(id: nat, now: int)

  /** What op makes of s. */
  ghost predicate Did(op: Op, s: Snap, t: Snap) {
    match op
    case PostOp(timeout, now) =>
      exists r | r in t.expiry ::
        && r !in s.expiry && r.timeout == Truncate(timeout, MS)
        && t == Posting(s, r, now + timeout)
    case CancelOp(id) =>
      t == if id in s.requests then Cancelling(s, s.requests[id]) else s
    case ResetOp(id, now) =>
      t == if id in s.requests then Resetting(s, s.requests[id], now + s.requests[id].timeout * MS) else s
  }

  /** snaps are the states before, between and after ops. */
  ghost predicate Ran(ops: seq<Op>, snaps: seq<Snap>) {
    |snaps| == |ops| + 1 && forall k | 0 <= k < |ops| :: Did(ops[k], snaps[k], snaps[k + 1])
  }

  /** What each callback was to do it did. */
  ghost predicate AllRan(script: seq<seq<Op>>, runs: seq<seq<Snap>>) {
    forall n | 0 <= n < |runs| :: Ran(Part(script, n), runs[n])
  }

  lemma AllRanNone(script: seq<seq<Op>>)
    ensures AllRan(script, [])
  {
  }

  lemma AllRanMore(script: seq<seq<Op>>, runs: seq<seq<Snap>>, snaps: seq<Snap>)
    requires AllRan(script, runs) && Ran(Part(script, |runs|), snaps)
    ensures AllRan(script, runs + [snaps])
  {
    hide Ran, Part;
  }

  function Min(a: nat, b: nat): nat {
    if a < b then a else b
  }

  /** The script says what the n-th callback does; beyond it callbacks do nothing. */
  function Part(script: seq<seq<Op>>, n: nat): seq<Op> {
    if n < |script| then script[n] else []
  }

  class Wheel {
    var requests: map<nat, Request>
    var hier: seq<Entry>
    var requestId: nat
    var active: bool
    ghost var all: set<Request>
    ghost var trace: seq<Act>

    ghost function Expiries(): map<Request, int>
      reads this`all, all`expiry
    {
      map r | r in all :: r.expiry
    }

    ghost function Flags(): map<Request, bool>
      reads this`all, all`isCancelled
    {
      map r | r in all :: r.isCancelled
    }

    ghost function Now(): Snap
      reads this`requests, this`hier, this`all, this`trace, all
    {
      Snap(requests, hier, Expiries(), Flags(), trace)
    }

    ghost predicate Valid(busy: set<Request>)
      reads this`requests, this`hier, this`all, this`trace, this`requestId, all
    {
      requestId < ID_SPACE && Ok(Now(), busy)
    }

    /** Over the wheel's whole history: a request is fired at most once, not after it was
        cancelled, and not before the expiry it then has. */
    lemma FiringIsRightful(busy: set<Request>, j: nat)
      requires Valid(busy) && j < |trace| && trace[j].Fired?
      ensures ExpiryOf(trace[..j], trace[j].r) <= trace[j].now
      ensures forall i | 0 <= i < |trace| && i != j && trace[i].r == trace[j].r ::
        !trace[i].Fired? && (trace[i].Cancelled? ==> j < i)
    {
      hide ExpiryOf, Shape, ReqOk;
      assert Rightful(trace, j);
      forall i | 0 <= i < |trace| && i != j && trace[i].r == trace[j].r
        ensures !trace[i].Fired? && (trace[i].Cancelled? ==> j < i)
      {
        assert Rightful(trace, i);
        if i < j { assert trace[..j][i] == trace[i]; } else { assert trace[..i][j] == trace[j]; }
      }
    }

    /** The entries before position i are of requests that are not among known. */
    ghost predicate PassedNew(i: nat, known: set<Request>)
      reads this`hier
    {
      i <= |hier| && forall j | 0 <= j < i :: hier[j].req !in known
    }

    /** A pass that began at s0 has come to position i; moved says whether it has met a stale
        entry. */
    ghost predicate Midway(s0: Snap, now: int, i: nat, moved: bool)
      reads this`requests, this`hier, this`all, this`trace, all
    {
      Went(s0, Now(), now, moved) && InOrder(s0, trace, hier, i) && (!moved ==> PassedNew(i, s0.expiry.Keys))
    }

    lemma MidwayNone(now: int)
      requires Valid({})
      ensures Midway(Now(), now, 0, false)
    {
      hide Ok, Went, InOrder;
      WentNone(Now(), now);
      OrderNone(Now());
    }

    lemma MidwayDone(s0: Snap, now: int, i: nat, moved: bool)
      requires Midway(s0, now, i, moved) && Ok(s0, {}) && Valid({})
      requires i <= |hier| && forall j | i <= j < |hier| :: now < hier[j].key
      ensures Acted(s0, Now(), now)
    {
      hide Ok, Went, InOrder;
      WentLess(s0, Now(), now, moved);
      OrderDone(s0, trace, hier, i);
    }

    lemma KnowsAll(s0: Snap, time: int, moved: bool)
      requires Went(s0, Now(), time, moved)
      ensures s0.expiry.Keys <= all && s0.trace <= trace
    {
      hide KeysKept, AllDealt, Budget;
    }

    lemma ReqsPosted(busy: set<Request>)
      requires Valid(busy)
      ensures forall id | id in requests :: requests[id] in Now().expiry
    {
    }

    lemma NotPosted()
      ensures Now().expiry.Keys == all
    {
    }

    lemma EntryExpiry(i: nat)
      requires i < |hier| && hier[i].req in Now().expiry
      ensures Now().expiry[hier[i].req] == hier[i].req.expiry
      ensures hier[i].req in Now().cancelled && Now().cancelled[hier[i].req] == hier[i].req.isCancelled
    {
    }

    constructor ()
      ensures Valid({}) && Matched(Now()) && OnTime(Now(), 0) && !active && requestId == 0 && trace == []
    {
      requests, hier, requestId, active, all, trace := map[], [], 0, false, {}, [];
    }

    method Start()
      modifies this`active
      ensures active == (old(active) || |requests| > 0)
    {
      if |requests| > 0 && !active { active := true; }
    }

    method Stop()
      modifies this`active
      ensures !active
    {
      active := false;
    }

    /** A new request with the next id. */
    method MakeRequest(timeout: int, now: int) returns (req: Request)
      modifies this`requestId, this`all
      ensures fresh(req) && all == old(all) + {req}
      ensures req.id == old(requestId) && requestId == (old(requestId) + 1) % ID_SPACE
      ensures req.timeout == Truncate(timeout, MS) && req.expiry == now + timeout
      ensures Expiries() == old(Expiries())[req := now + timeout]
      ensures Flags() == old(Flags())[req := false]
      ensures req !in old(Expiries())
    {
      req := new Request(requestId, Truncate(timeout, MS), now + timeout);
      requestId := (requestId + 1) % ID_SPACE;
      all := all + {req};
    }

    /** Registers a new request that expires timeout after now. */
    method Post(ghost busy: set<Request>, timeout: int, now: int) returns (id: nat, req: Request)
      requires Valid(busy)
      modifies this
      ensures Valid(busy) && fresh(req) && all == old(all) + {req}
      ensures id == req.id == old(requestId) && req.timeout == Truncate(timeout, MS)
      ensures requestId == (old(requestId) + 1) % ID_SPACE
      ensures Now() == Posting(old(Now()), req, now + timeout) && active
      ensures Matched(old(Now())) ==> (Matched(Now()) <==> id !in old(requests))
    {
      hide Ok, Matched, UpperBound, Emplace, Posting, Expiries, Flags;
      ghost var s := Now();
      req := MakeRequest(timeout, now);
      id := req.id;
      var expiry := req.expiry;
      PostOk(s, busy, req, expiry);
      PostIs(s, req, expiry);
      if id !in requests { requests := requests[id := req]; }
      var p := UpperBound(hier, expiry);
      hier := hier[..p] + [Entry(expiry, req)] + hier[p..];
      trace := trace + [Posted(req, expiry)];
      Start();
      assert Now() == Posting(s, req, expiry);
    }

    method Cancel(ghost busy: set<Request>, id: nat) returns (o: Outcome)
      requires Valid(busy)
      modifies this`trace, all`isCancelled
      ensures Valid(busy) && (o == Success <==> id in requests)
      ensures Now() == if id in requests then Cancelling(old(Now()), requests[id]) else old(Now())
      ensures Matched(Now()) == Matched(old(Now()))
    {
      hide WasFired, Had, ExpiryOf, AllRightful, Matched, Sorted, OneEach, Reqs;
      if id in requests {
        ghost var s := Now();
        CancelOk(s, busy, requests[id]);
        requests[id].isCancelled := true;
        trace := trace + [Cancelled(requests[id])];
        assert Now() == Cancelling(s, requests[id]);
        o := Success;
      } else {
        o := OutOfRange;
      }
    }

    method Reset(ghost busy: set<Request>, id: nat, now: int) returns (o: Outcome)
      requires Valid(busy)
      modifies this`trace, all`expiry
      ensures Valid(busy) && (o == Success <==> id in requests)
      ensures Now() ==
        if id in requests then Resetting(old(Now()), requests[id], now + requests[id].timeout * MS) else old(Now())
      ensures Matched(Now()) == Matched(old(Now()))
    {
      hide WasFired, Had, ExpiryOf, AllRightful, Matched, Sorted, OneEach, Reqs;
      if id in requests {
        ghost var s, e := Now(), now + requests[id].timeout * MS;
        ResetOk(s, busy, requests[id], e);
        requests[id].expiry := now + requests[id].timeout * MS;
        trace := trace + [Act.Reset(requests[id], e)];
        assert Now() == Resetting(s, requests[id], e);
        o := Success;
      } else {
        o := OutOfRange;
      }
    }
  
    method PostOne(ghost busy: set<Request>, timeout: int, now: int, i: nat,
                   ghost s0: Snap, ghost time: int, ghost moved: bool)
      returns (at: nat, ghost collided: bool)
      requires i < |hier| && Valid(busy)
      requires Went(s0, Now(), time, moved) && (!moved ==> PassedNew(i, s0.expiry.Keys))
      modifies this, all
      ensures Valid(busy) && old(all) <= all && fresh(all - old(all))
      ensures at < |hier| && hier[at] == old(hier[i]) && old(trace) <= trace
      ensures Matched(old(Now())) && !collided ==> Matched(Now())
      ensures Did(PostOp(timeout, now), old(Now()), Now())
      ensures forall k | |old(trace)| <= k < |trace| :: !trace[k].Fired?
      ensures Went(s0, Now(), time, moved) && (!moved ==> PassedNew(at, s0.expiry.Keys))
    {
      hide Ok, Matched, Emplace, Expiries, Flags, UpperBound, Went;
      ghost var s, h := Now(), hier;
      KnowsAll(s0, time, moved);
      var p := UpperBound(hier, now + timeout);
      collided := requestId in requests;
      NotPosted();
      var id, req := Post(busy, timeout, now);
      NotPosted();
      WentPost(s0, s, busy, req, now + timeout, time, moved);
      EmplaceAt(h, Entry(now + timeout, req));
      at := if p <= i then i + 1 else i;
    }

    /** One call of a callback, while the bookkeeper is at position i. The multimap's
        iterator stays with its element: at is where that is then. */
    method DoOp(ghost busy: set<Request>, op: Op, i: nat, ghost s0: Snap, ghost time: int, ghost moved: bool)
      returns (at: nat, ghost collided: bool)
      requires i < |hier| && Valid(busy)
      requires Went(s0, Now(), time, moved) && (!moved ==> PassedNew(i, s0.expiry.Keys))
      modifies this, all
      ensures Valid(busy) && old(all) <= all && fresh(all - old(all))
      ensures at < |hier| && hier[at] == old(hier[i]) && old(trace) <= trace
      ensures Matched(old(Now())) && !collided ==> Matched(Now())
      ensures Did(op, old(Now()), Now())
      ensures forall k | |old(trace)| <= k < |trace| :: !trace[k].Fired?
      ensures Went(s0, Now(), time, moved) && (!moved ==> PassedNew(at, s0.expiry.Keys))
    {
      hide Ok, Matched, Emplace, Expiries, Flags, UpperBound, Went;
      ghost var s := Now();
      KnowsAll(s0, time, moved);
      at, collided := i, false;
      match op
      case PostOp(timeout, now) =>
        at, collided := PostOne(busy, timeout, now, i, s0, time, moved);
      case CancelOp(id) =>
        ReqsPosted(busy);
        if id in requests { WentCancel(s0, s, requests[id], time, moved); }
        var o := Cancel(busy, id);
      case ResetOp(id, now) =>
        ReqsPosted(busy);
        if id in requests {
          WentReset(s0, s, busy, requests[id], now + requests[id].timeout * MS, time, moved);
        }
        var o := Reset(busy, id, now);
    }

    method RunCallback(ghost busy: set<Request>, ops: seq<Op>, i: nat,
                       ghost s0: Snap, ghost time: int, ghost moved: bool)
      returns (at: nat, ghost collided: bool, ghost snaps: seq<Snap>)
      requires i < |hier| && Valid(busy)
      requires Went(s0, Now(), time, moved) && (!moved ==> PassedNew(i, s0.expiry.Keys))
      modifies this, all
      ensures Valid(busy) && old(all) <= all && fresh(all - old(all))
      ensures at < |hier| && hier[at] == old(hier[i]) && old(trace) <= trace
      ensures Matched(old(Now())) && !collided ==> Matched(Now())
      ensures Ran(ops, snaps) && snaps[0] == old(Now()) && snaps[|ops|] == Now()
      ensures ops == [] ==> at == i && active == old(active) && !collided
      ensures forall k | |old(trace)| <= k < |trace| :: !trace[k].Fired?
      ensures Went(s0, Now(), time, moved) && (!moved ==> PassedNew(at, s0.expiry.Keys))
    {
      hide Ok, Matched, Expiries, Flags, Did, Now, Went;
      at, collided, snaps := i, false, [Now()];
      var k := 0;
      while k < |ops|
        invariant 0 <= k <= |ops| && Valid(busy) && old(all) <= all && fresh(all - old(all))
        invariant at < |hier| && hier[at] == old(hier[i]) && old(trace) <= trace
        invariant Matched(old(Now())) && !collided ==> Matched(Now())
        invariant |snaps| == k + 1 && snaps[0] == old(Now()) && snaps[k] == Now()
        invariant forall j | 0 <= j < k :: Did(ops[j], snaps[j], snaps[j + 1])
        invariant k == 0 ==> at == i && active == old(active) && !collided
        invariant forall j | |old(trace)| <= j < |trace| :: !trace[j].Fired?
        invariant Went(s0, Now(), time, moved) && (!moved ==> PassedNew(at, s0.expiry.Keys))
      {
        ghost var c;
        at, c := DoOp(busy, ops[k], at, s0, time, moved);
        collided := collided || c;
        snaps := snaps + [Now()];
        k := k + 1;
      }
    }
  
    /** Erases the entry at i, which has been dealt with, from both containers. */
    method EraseEntry(i: nat, now: int, ghost busy: set<Request>, ghost s0: Snap, ghost moved: bool)
      requires i < |hier| && Valid(busy) && busy <= {hier[i].req}
      requires Went(s0, Now(), now, moved) && (!moved ==> PassedNew(i, s0.expiry.Keys))
      requires hier[i].req.isCancelled || Had(trace, Fired(hier[i].req, now))
      modifies this`requests, this`hier
      ensures Valid({}) && Now() == Removing(old(Now()), i) && i <= |hier|
      ensures i < |hier| ==> old(hier[i].key) <= hier[i].key
      ensures Matched(old(Now())) ==> Matched(Now())
      ensures Went(s0, Now(), now, moved) && (!moved ==> PassedNew(i, s0.expiry.Keys))
    {
      hide Ok, Matched, Expiries, Flags, Went, Had;
      ghost var t := Now();
      AreKnown(t, busy);
      InReqs(hier, hier[i]);
      EntryExpiry(i);
      RemoveOk(t, busy, i);
      WentRemove(s0, t, i, now, moved);
      requests := requests - {hier[i].req.id};
      hier := hier[..i] + hier[i + 1..];
      assert Now() == Removing(t, i);
    }

    /** Calls the callback of the due entry at i, unless cancelled, and erases it. */
    method Finish(i: nat, now: int, ops: seq<Op>, ghost s0: Snap, ghost moved: bool)
      returns (at: nat, called: bool, ghost collided: bool, ghost snaps: seq<Snap>)
      requires i < |hier| && !Stale(hier[i], Now().expiry) && hier[i].key <= now && Valid({})
      requires Midway(s0, now, i, moved)
      modifies this, all
      ensures Valid({}) && old(all) <= all && fresh(all - old(all))
      ensures at <= |hier| && old(trace) <= trace
      ensures Matched(old(Now())) && !collided ==> Matched(Now())
      ensures called <==> old(Known(Now(), i); !hier[i].req.isCancelled)
      ensures called ==> Ran(ops, snaps) && snaps[0] == Firing(old(Now()), old(hier[i].req), now)
      ensures called ==> at < |snaps[|ops|].hier| && Now() == Removing(snaps[|ops|], at)
      ensures !called || ops == [] ==> at == i && active == old(active) && !collided
      ensures !called || ops == [] ==> Now() == old(Known(Now(), i); Done(Now(), i, now))
      ensures Midway(s0, now, at, moved)
    {
      hide Ok, Matched, Expiries, Flags, Did, Went, Had, InOrder;
      ghost var s := Now();
      Known(s, i);
      EntryExpiry(i);
      AreKnown(s, {});
      KnowsAll(s0, now, moved);
      var req := hier[i].req;
      snaps := [];
      at, called, collided := i, !req.isCancelled, false;
      if called {
        FireOk(s, req, now);
        WentFire(s0, s, req, now, moved);
        trace := trace + [Fired(req, now)];
        assert Now() == Firing(s, req, now);
        at, collided, snaps := RunCallback({req}, ops, i, s0, now, moved);
        HadStays(Firing(s, req, now).trace, trace, Fired(req, now));
      }
      EraseEntry(at, now, if called then {req} else {}, s0, moved);
      OrderFinished(s0, s.trace, s.hier, i, trace, hier, at, called, now);
    }
  
    /** Puts the entry at i where its request's expiry belongs, and says where that is. */
    method MoveEntry(i: nat, ghost s0: Snap, ghost now: int, ghost moved: bool) returns (at: nat)
      requires i < |hier| && Stale(hier[i], Now().expiry) && Valid({}) && Midway(s0, now, i, moved)
      modifies this`hier
      ensures Valid({}) && at < |hier| && Matched(Now()) == Matched(old(Now()))
      ensures old(hier[i]).req in old(Now()).expiry && Now().expiry == old(Now()).expiry
      ensures StaleCount(hier, Now().expiry) < StaleCount(old(hier), Now().expiry)
      ensures at == UpperBound(Erase(old(hier), i), old(hier[i]).req.expiry)
      ensures Now() == old(Known(Now(), i); Moving(Now(), i))
      ensures Midway(s0, now, at, true)
    {
      hide Ok, Matched, Moving, Erase, UpperBound, StaleCount, Expiries, Flags, Went, InOrder;
      ghost var s := Now();
      Known(s, i);
      EntryExpiry(i);
      MoveIs(s, i);
      MoveOk(s, {}, i);
      MoveIndex(s, i);
      MoveStale(s, i);
      WentMove(s0, s, i, now, moved);
      WentLess(s0, s, now, moved);
      var rep := hier[i].req;
      var h := hier[..i] + hier[i + 1..];
      at := UpperBound(h, rep.expiry);
      hier := h[..at] + [Entry(rep.expiry, rep)] + h[at..];
      assert Now() == Moving(s, i);
      OrderMoved(s0, s, i, hier, at, now, false);
    }

    /** The bookkeeper, when the n-th callback it calls does script[n] and those beyond the
        script do nothing. It ends because the script does, stale entries get fewer, and
        then the entries ahead. */
    method Bookkeeper(now: int, script: seq<seq<Op>>)
      returns (calls: nat, ghost collided: bool, ghost runs: seq<seq<Snap>>)
      requires Valid({})
      modifies this, all
      ensures Valid({}) && old(trace) <= trace
      ensures Matched(old(Now())) && !collided ==> Matched(Now())
      ensures |runs| == calls && AllRan(script, runs)
      ensures script == [] ==> !collided && Now() == PassFrom(old(Now()), 0, now)
      ensures Acted(old(Now()), Now(), now)
      ensures hier == [] ==> !active
      ensures script == [] && hier != [] ==> active == old(active)
    {
      hide Ok, Matched, PassFrom, Moving, Done, Erase, UpperBound, StaleCount, Expiries, Flags, Ran, AllRan, Midway;
      ghost var s0, moved := Now(), false;
      MidwayNone(now);
      var i: nat := 0;
      calls, collided, runs := 0, false, [];
      AllRanNone(script);
      while i < |hier|
        invariant i <= |hier| && Valid({}) && old(trace) <= trace
        invariant old(all) <= all && fresh(all - old(all))
        invariant Matched(s0) && !collided ==> Matched(Now())
        invariant script == [] ==> !collided && PassFrom(Now(), i, now) == PassFrom(s0, 0, now)
        invariant script == [] ==> active == old(active)
        invariant |runs| == calls && AllRan(script, runs)
        invariant Midway(s0, now, i, moved)
        decreases |script| - Min(calls, |script|), StaleCount(hier, Now().expiry), |hier| - i
      {
        ghost var s := Now();
        Known(s, i);
        EntryExpiry(i);
        PassStep(s, i, now);
        var entry := hier[i];
        if entry.req.expiry != entry.key {
          i := MoveEntry(i, s0, now, moved);
          moved := true;
        } else if entry.key - now <= 0 {
          EraseStale(hier, i, s.expiry);
          EraseAt(hier, i);
          var called: bool;
          ghost var c, snaps;
          i, called, c, snaps := Finish(i, now, Part(script, calls), s0, moved);
          collided := collided || c;
          if called {
            AllRanMore(script, runs, snaps);
            calls, runs := calls + 1, runs + [snaps];
          }
        } else {
          SortedFrom(s, i, now);
          break;
        }
      }
      if i == |hier| { PassEnd(Now(), now); }
      MidwayDone(s0, now, i, moved);
      if hier == [] { Stop(); }
    }
  }
}
