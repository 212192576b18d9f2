/** libev's pending queues, one for each priority: events are fed into them and callbacks
    are invoked from them, callbacks feeding and clearing as they please. */
module PendingQueues {

  import opened Basics
  import opened Watchers

  /** An event mask as the set of its bits; masks are or-ed by union. */
  type Mask = set<nat>

  /** An entry of a pending queue. */
  datatype Pending = Pending(w: Watcher, events: Mask)

  const MINPRI := -2
  const MAXPRI := 2
  const NUMPRI: nat := MAXPRI - MINPRI + 1

  function AbsPri(w: Watcher): int {
    w.priority - MINPRI
  }

  /** What a callback does to the pending queues. */
  datatype Op = Feed(w: Watcher, events: Mask) | Clear(w: Watcher)

  /** What happens to a watcher, in the order it happens. */
  datatype Act =
    | Fed(w: Watcher, events: Mask)
    | Cleared(w: Watcher, events: Mask)
    | Invoked(w: Watcher, events: Mask)

  /** The events fed to w since it was last invoked or cleared, if there were feeds. */
  function Owed(trace: seq<Act>, w: Watcher): Option<Mask> {
    if trace == [] then None else
      var a, before := trace[|trace| - 1], Owed(trace[..|trace| - 1], w);
      if a.w != w then before
      else if !a.Fed? then None
      else if before.None? then Some(a.events)
      else Some(before.value + a.events)
  }

  /** The act at i, if an invocation, passes what was owed, and nothing of a higher
      priority was owed. */
  ghost predicate Rightful(trace: seq<Act>, watchers: set<Watcher>, i: int)
    requires 0 <= i < |trace|
  {
    trace[i].Invoked? ==>
      && Owed(trace[..i], trace[i].w) == Some(trace[i].events)
      && forall v <- watchers | Owed(trace[..i], v).Some? :: v.priority <= trace[i].w.priority
  }

  ghost predicate AllRightful(trace: seq<Act>, watchers: set<Watcher>) {
    forall i | 0 <= i < |trace| :: Rightful(trace, watchers, i)
  }

  /** A clearing tells which events it dropped. */
  ghost predicate ClearsTold(trace: seq<Act>) {
    forall i | 0 <= i < |trace| && trace[i].Cleared? ::
      trace[i].events == match Owed(trace[..i], trace[i].w) case None => {} case Some(e) => e
  }

  lemma {:induction false} OneMore(trace: seq<Act>, a: Act, watchers: set<Watcher>)
    requires AllRightful(trace, watchers) && ClearsTold(trace)
    requires a.Invoked? ==>
      && Owed(trace, a.w) == Some(a.events)
      && forall v <- watchers | Owed(trace, v).Some? :: v.priority <= a.w.priority
    requires a.Cleared? ==> a.events == match Owed(trace, a.w) case None => {} case Some(e) => e
    ensures AllRightful(trace + [a], watchers) && ClearsTold(trace + [a])
  {
    var longer := trace + [a];
    forall i | 0 <= i < |longer| ensures longer[..i] == if i < |trace| then trace[..i] else trace { }
    forall i | 0 <= i < |longer| ensures Rightful(longer, watchers, i) {
      assert i < |trace| ==> Rightful(trace, watchers, i);
    }
  }

  lemma {:induction false} OwedOneMore(trace: seq<Act>, a: Act, w: Watcher)
    ensures Owed(trace + [a], w) ==
      if a.w != w then Owed(trace, w)
      else if !a.Fed? then None
      else Some(match Owed(trace, w) case None => a.events case Some(e) => e + a.events)
  {
    assert (trace + [a])[..|trace|] == trace;
  }

  /** A feed of w that no later act has settled. */
  predicate OpenFeed(trace: seq<Act>, w: Watcher, i: int) {
    && 0 <= i < |trace| && trace[i].Fed? && trace[i].w == w
    && forall k | i < k < |trace| && trace[k].w == w :: trace[k].Fed?
  }

  /** What is owed is exactly the or of the open feeds. */
  lemma {:induction false} OwedIsOpen(trace: seq<Act>, w: Watcher, b: nat)
    ensures Owed(trace, w).Some? <==> exists i :: OpenFeed(trace, w, i)
    ensures Owed(trace, w).Some? && b in Owed(trace, w).value <==>
      exists i :: OpenFeed(trace, w, i) && b in trace[i].events
  {
    if trace != [] {
      var n := |trace| - 1;
      var before, a := trace[..n], trace[n];
      OwedIsOpen(before, w, b);
      forall i | i < n ensures OpenFeed(trace, w, i) <==> OpenFeed(before, w, i) && (a.w == w ==> a.Fed?) {
        if OpenFeed(before, w, i) && (a.w == w ==> a.Fed?) {
          forall k | i < k < |trace| && trace[k].w == w ensures trace[k].Fed? {
            assert k < n ==> before[k] == trace[k];
          }
        }
        if OpenFeed(trace, w, i) {
          forall k | i < k < n && before[k].w == w ensures before[k].Fed? { assert trace[k].Fed?; }
        }
      }
      assert OpenFeed(trace, w, n) <==> a.w == w && a.Fed?;
    }
  }

  /** Every invocation passes exactly the events of the feeds still open then. */
  lemma InvokedWithFed(trace: seq<Act>, watchers: set<Watcher>, j: nat, b: nat)
    requires j < |trace| && trace[j].Invoked? && AllRightful(trace, watchers)
    ensures exists i :: OpenFeed(trace[..j], trace[j].w, i)
    ensures b in trace[j].events <==> exists i :: OpenFeed(trace[..j], trace[j].w, i) && b in trace[i].events
  {
    hide Owed, OpenFeed;
    assert Rightful(trace, watchers, j);
    OwedIsOpen(trace[..j], trace[j].w, b);
    forall i | OpenFeed(trace[..j], trace[j].w, i) ensures 0 <= i < j && trace[..j][i] == trace[i] {
      OpenIsEarlier(trace[..j], trace[j].w, i);
    }
  }

  lemma OpenIsEarlier(trace: seq<Act>, w: Watcher, i: int)
    requires OpenFeed(trace, w, i)
    ensures 0 <= i < |trace|
  {
  }

  /** A feed that is not open any more was settled exactly once: by the first act on its
      watcher that is not a feed, and that act had its events. */
  lemma {:induction false} FedIsSettled(trace: seq<Act>, watchers: set<Watcher>, i: nat) returns (j: nat)
    requires i < |trace| && trace[i].Fed? && !OpenFeed(trace, trace[i].w, i)
    requires AllRightful(trace, watchers) && ClearsTold(trace)
    ensures i < j < |trace| && trace[j].w == trace[i].w && !trace[j].Fed?
    ensures OpenFeed(trace[..j], trace[i].w, i) && trace[i].events <= trace[j].events
  {
    var n := |trace| - 1;
    if OpenFeed(trace[..n], trace[i].w, i) {
      j := n;
      assert Rightful(trace, watchers, n);
      forall b <- trace[i].events ensures b in trace[n].events {
        OwedIsOpen(trace[..n], trace[i].w, b);
      }
    } else {
      var before := trace[..n];
      assert i < n;
      forall k | 0 <= k < n ensures before[..k] == trace[..k] { }
      assert forall k | 0 <= k < n :: Rightful(trace, watchers, k) ==> Rightful(before, watchers, k);
      j := FedIsSettled(before, watchers, i);
    }
  }

  /** The callbacks' own acts. */
  function OpsOf(trace: seq<Act>): seq<Op> {
    if trace == [] then [] else
      OpsOf(trace[..|trace| - 1]) +
      match trace[|trace| - 1]
      case Fed(w, events) => [Feed(w, events)]
      case Cleared(w, _) => [Clear(w)]
      case Invoked(_, _) => []
  }

  function Invocations(trace: seq<Act>): nat {
    if trace == [] then 0
    else Invocations(trace[..|trace| - 1]) + if trace[|trace| - 1].Invoked? then 1 else 0
  }

  function Flat(script: seq<seq<Op>>): seq<Op> {
    if script == [] then [] else Flat(script[..|script| - 1]) + script[|script| - 1]
  }

  lemma OpsOneMore(trace: seq<Act>, a: Act)
    ensures OpsOf(trace + [a]) == OpsOf(trace) +
      match a
      case Fed(w, events) => [Feed(w, events)]
      case Cleared(w, _) => [Clear(w)]
      case Invoked(_, _) => []
    ensures Invocations(trace + [a]) == Invocations(trace) + if a.Invoked? then 1 else 0
  {
    assert (trace + [a])[..|trace|] == trace;
  }

  function Total(pendings: seq<seq<Pending>>): nat {
    if pendings == [] then 0 else Total(pendings[..|pendings| - 1]) + |pendings[|pendings| - 1]|
  }

  lemma {:induction false} TotalUpdate(pendings: seq<seq<Pending>>, p: nat, q: seq<Pending>)
    requires p < |pendings|
    ensures Total(pendings[p := q]) == Total(pendings) - |pendings[p]| + |q|
  {
    var m := |pendings| - 1;
    if p == m {
      assert pendings[p := q][..m] == pendings[..m];
    } else {
      TotalUpdate(pendings[..m], p, q);
      assert pendings[p := q][..m] == pendings[..m][p := q];
    }
  }

  /** What is pending: the queues, each watcher's place, what has happened. */
  datatype Snap = Snap(pendings: seq<seq<Pending>>, place: map<Watcher, nat>, trace: seq<Act>)

  /** Entry i of queue p is the dummy, or a watcher that knows its place. */
  predicate EntryOk(s: Snap, dummy: Watcher, p: int, i: int)
    requires 0 <= p < |s.pendings| && 0 <= i < |s.pendings[p]|
  {
    var w := s.pendings[p][i].w;
    w == dummy || (w in s.place && AbsPri(w) == p && s.place[w] == i + 1)
  }

  /** A pending watcher is where it says, with the events it is owed. */
  predicate WatcherOk(s: Snap, w: Watcher)
    requires w in s.place
  {
    if s.place[w] == 0 then Owed(s.trace, w) == None else
      && 0 <= AbsPri(w) < |s.pendings| && s.place[w] <= |s.pendings[AbsPri(w)]|
      && var e := s.pendings[AbsPri(w)][s.place[w] - 1]; e.w == w && Owed(s.trace, w) == Some(e.events)
  }

  ghost predicate Agree(s: Snap, dummy: Watcher) {
    && |s.pendings| == NUMPRI && dummy !in s.place
    && (forall w | w in s.place :: MINPRI <= w.priority <= MAXPRI)
    && (forall p, i | 0 <= p < NUMPRI && 0 <= i < |s.pendings[p]| :: EntryOk(s, dummy, p, i))
    && (forall w | w in s.place :: WatcherOk(s, w))
    && AllRightful(s.trace, s.place.Keys) && ClearsTold(s.trace)
  }

  /** The queues with entry i of w's queue changed to e. */
  function Put(s: Snap, w: Watcher, i: nat, e: Pending): seq<seq<Pending>>
    requires 0 <= AbsPri(w) < |s.pendings| && i < |s.pendings[AbsPri(w)]|
  {
    s.pendings[AbsPri(w) := s.pendings[AbsPri(w)][i := e]]
  }

  function FedSnap(s: Snap, w: Watcher, revents: Mask): (r: Snap)
    requires w in s.place && 0 <= AbsPri(w) < |s.pendings| && WatcherOk(s, w)
  {
    var pri, i := AbsPri(w), s.place[w];
    if i > 0 then
      Snap(Put(s, w, i - 1, s.pendings[pri][i - 1].(events := s.pendings[pri][i - 1].events + revents)),
           s.place, s.trace + [Fed(w, revents)])
    else
      Snap(s.pendings[pri := s.pendings[pri] + [Pending(w, revents)]],
           s.place[w := |s.pendings[pri]| + 1], s.trace + [Fed(w, revents)])
  }

  lemma FeedAgrees(s: Snap, dummy: Watcher, w: Watcher, revents: Mask)
    requires w in s.place && Agree(s, dummy)
    ensures WatcherOk(s, w) && Agree(FedSnap(s, w, revents), dummy)
  {
    hide AllRightful, ClearsTold, Owed;
    var r, a := FedSnap(s, w, revents), Fed(w, revents);
    OneMore(s.trace, a, s.place.Keys);
    assert r.place.Keys == s.place.Keys;
    forall v | v in s.place ensures WatcherOk(r, v) {
      OwedOneMore(s.trace, a, v);
      assert WatcherOk(s, v) && WatcherOk(s, w);
    }
    forall p, i | 0 <= p < NUMPRI && 0 <= i < |r.pendings[p]| ensures EntryOk(r, dummy, p, i) {
      assert i < |s.pendings[p]| ==> EntryOk(s, dummy, p, i);
    }
  }

  function ClearedSnap(s: Snap, dummy: Watcher, w: Watcher): (r: Snap)
    requires w in s.place && 0 <= AbsPri(w) < |s.pendings| && WatcherOk(s, w)
  {
    if s.place[w] == 0 then s.(trace := s.trace + [Cleared(w, {})]) else
      var e := s.pendings[AbsPri(w)][s.place[w] - 1];
      Snap(Put(s, w, s.place[w] - 1, e.(w := dummy)), s.place[w := 0], s.trace + [Cleared(w, e.events)])
  }

  lemma ClearAgrees(s: Snap, dummy: Watcher, w: Watcher)
    requires w in s.place && Agree(s, dummy)
    ensures WatcherOk(s, w) && Agree(ClearedSnap(s, dummy, w), dummy)
  {
    hide AllRightful, ClearsTold, Owed;
    assert WatcherOk(s, w);
    var r := ClearedSnap(s, dummy, w);
    var a := Cleared(w, if s.place[w] > 0 then s.pendings[AbsPri(w)][s.place[w] - 1].events else {});
    OneMore(s.trace, a, s.place.Keys);
    assert r.place.Keys == s.place.Keys;
    forall v | v in s.place ensures WatcherOk(r, v) {
      OwedOneMore(s.trace, a, v);
      assert WatcherOk(s, v);
    }
    forall p, i | 0 <= p < NUMPRI && 0 <= i < |r.pendings[p]| ensures EntryOk(r, dummy, p, i) {
      assert EntryOk(s, dummy, p, i);
    }
  }

  lemma ClearedKeys(s: Snap, dummy: Watcher, w: Watcher)
    requires w in s.place && 0 <= AbsPri(w) < |s.pendings| && WatcherOk(s, w)
    ensures ClearedSnap(s, dummy, w).place.Keys == s.place.Keys
  {
  }

  /** Clearing again changes nothing but the trace. */
  lemma ClearedTwice(s: Snap, dummy: Watcher, w: Watcher)
    requires w in s.place && Agree(s, dummy)
    ensures var t := ClearedSnap(s, dummy, w);
      && Agree(t, dummy) && t.place[w] == 0
      && ClearedSnap(t, dummy, w).pendings == t.pendings && ClearedSnap(t, dummy, w).place == t.place
  {
    ClearAgrees(s, dummy, w);
  }

  /** The last entry of queue p taken off it, and its watcher invoked. */
  function InvokedSnap(s: Snap, dummy: Watcher, p: nat): (r: Snap)
    requires p < |s.pendings| && |s.pendings[p]| > 0
  {
    var e := s.pendings[p][|s.pendings[p]| - 1];
    var left := s.pendings[p := s.pendings[p][..|s.pendings[p]| - 1]];
    if e.w == dummy then s.(pendings := left)
    else Snap(left, s.place[e.w := 0], s.trace + [Invoked(e.w, e.events)])
  }

  /** No queue above p has anything. */
  predicate EmptyAbove(pendings: seq<seq<Pending>>, p: int) {
    forall q | p < q < |pendings| && 0 <= q :: pendings[q] == []
  }

  lemma InvokeAgrees(s: Snap, dummy: Watcher, p: nat)
    requires p < |s.pendings| && |s.pendings[p]| > 0
    requires EmptyAbove(s.pendings, p) && Agree(s, dummy)
    ensures var w := s.pendings[p][|s.pendings[p]| - 1].w; w == dummy || w in s.place
    ensures Agree(InvokedSnap(s, dummy, p), dummy)
  {
    hide AllRightful, ClearsTold, Owed;
    var e := s.pendings[p][|s.pendings[p]| - 1];
    var r, a := InvokedSnap(s, dummy, p), Invoked(e.w, e.events);
    assert EntryOk(s, dummy, p, |s.pendings[p]| - 1);
    if e.w != dummy {
      assert WatcherOk(s, e.w);
      forall v | v in s.place && Owed(s.trace, v).Some? ensures v.priority <= e.w.priority {
        assert WatcherOk(s, v);
      }
      OneMore(s.trace, a, s.place.Keys);
      assert r.place.Keys == s.place.Keys;
    }
    forall v | v in s.place ensures WatcherOk(r, v) {
      OwedOneMore(s.trace, a, v);
      assert WatcherOk(s, v);
    }
    forall q, i | 0 <= q < NUMPRI && 0 <= i < |r.pendings[q]| ensures EntryOk(r, dummy, q, i) {
      assert EntryOk(s, dummy, q, i);
    }
  }

  /** The invocations that empty a queue whose callbacks do nothing: from its end. */
  function RevActs(q: seq<Pending>, dummy: Watcher): seq<Act> {
    if q == [] then [] else
      var e := q[|q| - 1];
      (if e.w == dummy then [] else [Invoked(e.w, e.events)]) + RevActs(q[..|q| - 1], dummy)
  }

  /** Those that empty the first k queues: from the highest. */
  function AllActs(pendings: seq<seq<Pending>>, k: nat, dummy: Watcher): seq<Act>
    requires k <= |pendings|
  {
    if k == 0 then [] else RevActs(pendings[k - 1], dummy) + AllActs(pendings, k - 1, dummy)
  }

  lemma {:induction false} AllActsBelow(a: seq<seq<Pending>>, b: seq<seq<Pending>>, k: nat, dummy: Watcher)
    requires k <= |a| && k <= |b| && forall i | 0 <= i < k :: a[i] == b[i]
    ensures AllActs(a, k, dummy) == AllActs(b, k, dummy)
  {
    if k > 0 { AllActsBelow(a, b, k - 1, dummy); }
  }

  lemma InvokeOrder(s: Snap, dummy: Watcher, p: nat, done: seq<Act>)
    requires p < |s.pendings| && |s.pendings[p]| > 0
    requires s.trace + AllActs(s.pendings, p + 1, dummy) == done
    ensures InvokedSnap(s, dummy, p).trace + AllActs(InvokedSnap(s, dummy, p).pendings, p + 1, dummy) == done
  {
    var q, r := s.pendings[p], InvokedSnap(s, dummy, p);
    var e := q[|q| - 1];
    AllActsBelow(s.pendings, r.pendings, p, dummy);
    var first: seq<Act> := if e.w == dummy then [] else [Invoked(e.w, e.events)];
    assert RevActs(q, dummy) == first + RevActs(q[..|q| - 1], dummy);
    assert r.trace == s.trace + first;
    var rest, below := RevActs(q[..|q| - 1], dummy), AllActs(r.pendings, p, dummy);
    Regroup(first, rest, below);
    Regroup(s.trace, first, rest + below);
  }

  function Min(a: nat, b: nat): nat {
    if a < b then a else b
  }

  lemma FlatOneMore(script: seq<seq<Op>>, n: nat)
    requires n < |script|
    ensures Flat(script[..n + 1]) == Flat(script[..n]) + script[n]
  {
    assert script[..n + 1][..n] == script[..n];
  }

  /** The watchers ws fed one after the other, from the last to the first. */
  ghost function FedBack(s: Snap, dummy: Watcher, ws: seq<Watcher>, revents: Mask): (r: Snap)
    requires (forall w <- ws :: w in s.place) && Agree(s, dummy)
    ensures Agree(r, dummy) && r.place.Keys == s.place.Keys
    decreases |ws|
  {
    if ws == [] then s else
      var w := ws[|ws| - 1];
      FeedAgrees(s, dummy, w, revents);
      FedKeys(s, w, revents);
      FedBack(FedSnap(s, w, revents), dummy, ws[..|ws| - 1], revents)
  }

  lemma FedKeys(s: Snap, w: Watcher, revents: Mask)
    requires w in s.place && 0 <= AbsPri(w) < |s.pendings| && WatcherOk(s, w)
    ensures FedSnap(s, w, revents).place.Keys == s.place.Keys
  {
  }

  predicate Fresh(s: Snap, w: Watcher, p: int) {
    w in s.place && s.place[w] == 0 && AbsPri(w) == p
  }

  /** The new entries that feeding ws backwards adds to queue p. */
  function NewEntries(s: Snap, ws: seq<Watcher>, p: int, revents: Mask): seq<Pending>
  {
    if ws == [] then [] else
      var w, before := ws[|ws| - 1], ws[..|ws| - 1];
      (if Fresh(s, w, p) then [Pending(w, revents)] else []) + NewEntries(s, before, p, revents)
  }

  /** Invocations of those of ws that were not pending, in the order of ws. */
  function FreshInvoked(s: Snap, ws: seq<Watcher>, p: int, revents: Mask): seq<Act> {
    if ws == [] then [] else
      var w, before := ws[|ws| - 1], ws[..|ws| - 1];
      FreshInvoked(s, before, p, revents) + if Fresh(s, w, p) then [Invoked(w, revents)] else []
  }

  predicate NoRepeats(ws: seq<Watcher>) {
    forall i, j | 0 <= i < j < |ws| :: ws[i] != ws[j]
  }

  lemma {:induction false} NewEntriesSame(s: Snap, t: Snap, ws: seq<Watcher>, p: int, revents: Mask)
    requires forall w <- ws :: Fresh(s, w, p) == Fresh(t, w, p)
    ensures NewEntries(s, ws, p, revents) == NewEntries(t, ws, p, revents)
  {
    if ws != [] { NewEntriesSame(s, t, ws[..|ws| - 1], p, revents); }
  }

  /** What feeding v does to queue p, and to which watchers are not yet pending. */
  lemma FedQueue(s: Snap, dummy: Watcher, v: Watcher, revents: Mask, p: nat)
    requires p < NUMPRI && v in s.place && Agree(s, dummy)
    ensures var q, t := s.pendings[p], FedSnap(s, v, revents);
      && |t.pendings| == NUMPRI
      && (Fresh(s, v, p) ==> t.pendings[p] == q + [Pending(v, revents)])
      && (!Fresh(s, v, p) ==> |t.pendings[p]| == |q|)
      && (forall i | 0 <= i < |q| :: t.pendings[p][i].w == q[i].w && (q[i].w != v ==> t.pendings[p][i] == q[i]))
      && (forall w | w != v :: Fresh(s, w, p) == Fresh(t, w, p))
  {
    hide AllRightful, ClearsTold, Owed, EntryOk;
  }

  lemma Sizes(s: Snap, dummy: Watcher)
    requires Agree(s, dummy)
    ensures |s.pendings| == NUMPRI && dummy !in s.place
  {
  }

  /** Feeding backwards appends the new ones to their queues and leaves what was there in
      place, unchanged but for what was fed again. */
  lemma {:induction false} FedBackQueue(s: Snap, dummy: Watcher, ws: seq<Watcher>, revents: Mask, p: nat)
    requires p < NUMPRI && NoRepeats(ws)
    requires (forall w <- ws :: w in s.place) && Agree(s, dummy)
    ensures var q, r := s.pendings[p], FedBack(s, dummy, ws, revents).pendings[p];
      && |q| <= |r| && r[|q|..] == NewEntries(s, ws, p, revents)
      && forall i | 0 <= i < |q| :: r[i].w == q[i].w && (q[i].w !in ws ==> r[i] == q[i])
    decreases |ws|
  {
    hide AllRightful, ClearsTold, Owed, EntryOk, WatcherOk, FedSnap, Fresh;
    if ws != [] {
      var w, before := ws[|ws| - 1], ws[..|ws| - 1];
      FeedAgrees(s, dummy, w, revents);
      FedKeys(s, w, revents);
      var t := FedSnap(s, w, revents);
      FedQueue(s, dummy, w, revents, p);
      FedBackQueue(t, dummy, before, revents, p);
      NewEntriesSame(s, t, before, p, revents);
      var q, r := s.pendings[p], FedBack(s, dummy, ws, revents).pendings[p];
      if Fresh(s, w, p) {
        assert t.pendings[p] == q + [Pending(w, revents)];
        assert r[|q|..] == [r[|q|]] + r[|q| + 1..];
      } else {
        assert |t.pendings[p]| == |q|;
      }
    }
  }

  lemma {:induction false} RevActsConcat(a: seq<Pending>, b: seq<Pending>, dummy: Watcher)
    ensures RevActs(a + b, dummy) == RevActs(b, dummy) + RevActs(a, dummy)
    decreases |b|
  {
    if b == [] {
      assert a + b == a;
    } else {
      assert (a + b)[..|a + b| - 1] == a + b[..|b| - 1];
      RevActsConcat(a, b[..|b| - 1], dummy);
    }
  }

  lemma {:induction false} NewEntriesInvoked(s: Snap, ws: seq<Watcher>, p: int, revents: Mask, dummy: Watcher)
    requires dummy !in s.place
    ensures RevActs(NewEntries(s, ws, p, revents), dummy) == FreshInvoked(s, ws, p, revents)
  {
    if ws != [] {
      var w, before := ws[|ws| - 1], ws[..|ws| - 1];
      NewEntriesInvoked(s, before, p, revents, dummy);
      var first: seq<Pending> := if Fresh(s, w, p) then [Pending(w, revents)] else [];
      RevActsConcat(first, NewEntries(s, before, p, revents), dummy);
      if Fresh(s, w, p) { assert first[..0] == []; }
    }
  }

  /** The two reversals cancel: watchers fed backwards, if not pending already, are invoked
      in their own order, before what was pending at their priority. */
  lemma FedBackInvoked(s: Snap, dummy: Watcher, ws: seq<Watcher>, revents: Mask, p: nat)
    requires p < NUMPRI && NoRepeats(ws)
    requires (forall w <- ws :: w in s.place) && Agree(s, dummy)
    ensures p < |FedBack(s, dummy, ws, revents).pendings|
    ensures FreshInvoked(s, ws, p, revents) <= RevActs(FedBack(s, dummy, ws, revents).pendings[p], dummy)
  {
    hide Agree, FedBack, NewEntries, FreshInvoked, RevActs;
    Sizes(s, dummy);
    Sizes(FedBack(s, dummy, ws, revents), dummy);
    FedBackQueue(s, dummy, ws, revents, p);
    NewEntriesInvoked(s, ws, p, revents, dummy);
    var q, r := s.pendings[p], FedBack(s, dummy, ws, revents).pendings[p];
    assert r == r[..|q|] + r[|q|..];
    RevActsConcat(r[..|q|], r[|q|..], dummy);
  }

  /** What feeding v does to the places. */
  lemma FedPlaces(s: Snap, dummy: Watcher, v: Watcher, revents: Mask)
    requires v in s.place && Agree(s, dummy)
    ensures 0 <= AbsPri(v) < NUMPRI == |s.pendings|
    ensures var t := FedSnap(s, v, revents);
      && |t.pendings| == NUMPRI && t.place.Keys == s.place.Keys
      && (forall w | w in s.place && (w != v || s.place[v] != 0) :: t.place[w] == s.place[w])
      && (s.place[v] == 0 ==> t.place[v] == |s.pendings[AbsPri(v)]| + 1 == |t.pendings[AbsPri(v)]|)
      && (forall p | 0 <= p < NUMPRI :: |s.pendings[p]| <= |t.pendings[p]|)
  {
    hide AllRightful, ClearsTold, Owed, EntryOk;
  }

  /** Feeding backwards leaves pending watchers in place and puts the others behind. */
  lemma {:induction false} FedPlace(s: Snap, dummy: Watcher, ws: seq<Watcher>, revents: Mask, w: Watcher)
    requires w in s.place && (forall v <- ws :: v in s.place) && Agree(s, dummy)
    ensures 0 <= AbsPri(w) < NUMPRI == |s.pendings|
    ensures var fed := FedBack(s, dummy, ws, revents);
      if w !in ws || s.place[w] != 0 then fed.place[w] == s.place[w]
      else fed.place[w] > |s.pendings[AbsPri(w)]|
    decreases |ws|
  {
    hide Agree, FedSnap, WatcherOk;
    Facts(s, dummy, w);
    NothingAbove(s, dummy);
    if ws != [] {
      var v, before := ws[|ws| - 1], ws[..|ws| - 1];
      FeedAgrees(s, dummy, v, revents);
      FedPlaces(s, dummy, v, revents);
      FedPlace(FedSnap(s, v, revents), dummy, before, revents, w);
      assert w in ws <==> w == v || w in before;
    }
  }

  /** Both are pending at one priority, u in the greater place. */
  predicate Ahead(s: Snap, u: Watcher, v: Watcher) {
    u in s.place && v in s.place && AbsPri(u) == AbsPri(v) && s.place[u] > s.place[v] > 0
  }

  lemma {:induction false} FedPlacesIff(s: Snap, dummy: Watcher, ws: seq<Watcher>, revents: Mask, i: nat, j: nat)
    requires i < j < |ws| && NoRepeats(ws) && AbsPri(ws[i]) == AbsPri(ws[j])
    requires (forall v <- ws :: v in s.place) && Agree(s, dummy)
    ensures ws[i] in s.place && ws[j] in s.place
    ensures var fed := FedBack(s, dummy, ws, revents);
      fed.place[ws[i]] > fed.place[ws[j]] <==>
      s.place[ws[i]] == 0 || (s.place[ws[j]] != 0 && s.place[ws[i]] > s.place[ws[j]])
    decreases |ws|
  {
    hide Agree, FedSnap, WatcherOk;
    var u, v := ws[i], ws[j];
    var x, before := ws[|ws| - 1], ws[..|ws| - 1];
    assert u in ws && v in ws && u in before && before[i] == u;
    PlaceBound(s, dummy, u);
    PlaceBound(s, dummy, v);
    FeedAgrees(s, dummy, x, revents);
    FedPlaces(s, dummy, x, revents);
    var t := FedSnap(s, x, revents);
    if j == |ws| - 1 {
      FedPlace(t, dummy, before, revents, u);
      FedPlace(t, dummy, before, revents, v);
    } else {
      FedPlacesIff(t, dummy, before, revents, i, j);
    }
  }

  /** When ws is fed backwards, u before v in ws gets ahead of v just when u was not
      pending, or both were and u was ahead already; otherwise v gets ahead of u. */
  lemma FedOrderIff(s: Snap, dummy: Watcher, ws: seq<Watcher>, revents: Mask, i: nat, j: nat)
    requires i < j < |ws| && NoRepeats(ws) && AbsPri(ws[i]) == AbsPri(ws[j])
    requires (forall v <- ws :: v in s.place) && Agree(s, dummy)
    ensures ws[i] in s.place && ws[j] in s.place
    ensures var fed, first := FedBack(s, dummy, ws, revents), s.place[ws[i]] == 0 || Ahead(s, ws[i], ws[j]);
      && (first <==> Ahead(fed, ws[i], ws[j])) && (!first <==> Ahead(fed, ws[j], ws[i]))
  {
    hide Agree, FedBack;
    FedPlacesIff(s, dummy, ws, revents, i, j);
    FedPlace(s, dummy, ws, revents, ws[i]);
    FedPlace(s, dummy, ws, revents, ws[j]);
    PlacesDiffer(FedBack(s, dummy, ws, revents), dummy, ws[i], ws[j]);
  }

  lemma PlacesDiffer(s: Snap, dummy: Watcher, u: Watcher, v: Watcher)
    requires u in s.place && v in s.place && u != v && AbsPri(u) == AbsPri(v) && Agree(s, dummy)
    ensures s.place[u] != s.place[v] || s.place[u] == 0
  {
    assert WatcherOk(s, u) && WatcherOk(s, v);
  }

  lemma PlaceBound(s: Snap, dummy: Watcher, w: Watcher)
    requires w in s.place && Agree(s, dummy)
    ensures 0 <= AbsPri(w) < |s.pendings| && s.place[w] <= |s.pendings[AbsPri(w)]|
  {
    assert WatcherOk(s, w);
  }

  /** An invocation or a clearing of w. */
  predicate Settles(a: Act, w: Watcher) {
    a.w == w && !a.Fed?
  }

  /** Where w is first settled in the trace from n on; the end when it is not. */
  function FirstSettled(trace: seq<Act>, n: nat, w: Watcher): (i: nat)
    requires n <= |trace|
    ensures n <= i <= |trace| && (i < |trace| ==> Settles(trace[i], w))
    ensures forall k | n <= k < i :: !Settles(trace[k], w)
    decreases |trace|
  {
    if n == |trace| then n else
      var last := |trace| - 1;
      var i := FirstSettled(trace[..last], n, w);
      if i < last || Settles(trace[last], w) then i else |trace|
  }

  lemma SettledOneMore(trace: seq<Act>, a: Act, n: nat, w: Watcher)
    requires n <= |trace|
    ensures var i := FirstSettled(trace, n, w);
      FirstSettled(trace + [a], n, w) == if i < |trace| || Settles(a, w) then i else |trace| + 1
  {
    assert (trace + [a])[..|trace|] == trace;
  }

  /** From n on v, if it is not cleared first, is invoked only after u has been settled. */
  predicate InTurn(trace: seq<Act>, n: nat, u: Watcher, v: Watcher)
    requires n <= |trace|
  {
    var j := FirstSettled(trace, n, v);
    j < |trace| && trace[j].Invoked? ==> FirstSettled(trace, n, u) < j
  }

  /** From s0 to s what was pending stayed in its place until it was settled, and it took
      its turn: at each priority the greatest place first. */
  ghost predicate Turnwise(s0: Snap, s: Snap) {
    && s0.trace <= s.trace && s.place.Keys == s0.place.Keys
    && (forall w | w in s0.place && s0.place[w] > 0 && FirstSettled(s.trace, |s0.trace|, w) == |s.trace| ::
      s.place[w] == s0.place[w])
    && (forall u, v | u in s0.place && v in s0.place && Ahead(s0, u, v) :: InTurn(s.trace, |s0.trace|, u, v))
  }

  /** One more act keeps the turns when an invocation is of the last of its queue. */
  lemma TurnMore(s0: Snap, s: Snap, t: Snap, a: Act)
    requires t.trace == s.trace + [a] && t.place.Keys == s.place.Keys && a.w in s.place && Turnwise(s0, s)
    requires forall w | w in s.place && s.place[w] > 0 && !Settles(a, w) :: t.place[w] == s.place[w]
    requires a.Invoked? ==> forall u | u in s.place && AbsPri(u) == AbsPri(a.w) :: s.place[u] <= s.place[a.w]
    ensures Turnwise(s0, t)
  {
    var n := |s0.trace|;
    forall w | w in s0.place && s0.place[w] > 0 && FirstSettled(t.trace, n, w) == |t.trace|
      ensures t.place[w] == s0.place[w]
    {
      SettledOneMore(s.trace, a, n, w);
    }
    forall u, v | u in s0.place && v in s0.place && Ahead(s0, u, v) ensures InTurn(t.trace, n, u, v) {
      SettledOneMore(s.trace, a, n, u);
      SettledOneMore(s.trace, a, n, v);
      assert InTurn(s.trace, n, u, v);
    }
  }

  lemma FedTurn(s0: Snap, s: Snap, dummy: Watcher, w: Watcher, revents: Mask)
    requires w in s.place && Agree(s, dummy) && Turnwise(s0, s)
    ensures WatcherOk(s, w) && Turnwise(s0, FedSnap(s, w, revents))
  {
    hide AllRightful, ClearsTold, Owed, EntryOk, Turnwise;
    FedPlaces(s, dummy, w, revents);
    TurnMore(s0, s, FedSnap(s, w, revents), Fed(w, revents));
  }

  lemma ClearedTurn(s0: Snap, s: Snap, dummy: Watcher, w: Watcher)
    requires w in s.place && Agree(s, dummy) && Turnwise(s0, s)
    ensures WatcherOk(s, w) && Turnwise(s0, ClearedSnap(s, dummy, w))
  {
    hide AllRightful, ClearsTold, Owed, EntryOk, Turnwise;
    var t := ClearedSnap(s, dummy, w);
    TurnMore(s0, s, t, t.trace[|s.trace|]);
  }

  lemma InvokedTurn(s0: Snap, s: Snap, dummy: Watcher, p: nat)
    requires p < |s.pendings| && |s.pendings[p]| > 0 && Agree(s, dummy) && Turnwise(s0, s)
    ensures Turnwise(s0, InvokedSnap(s, dummy, p))
  {
    hide AllRightful, ClearsTold, Owed, WatcherOk;
    var e, t := s.pendings[p][|s.pendings[p]| - 1], InvokedSnap(s, dummy, p);
    if e.w != dummy {
      assert EntryOk(s, dummy, p, |s.pendings[p]| - 1);
      forall u | u in s.place && AbsPri(u) == AbsPri(e.w) ensures s.place[u] <= s.place[e.w] {
        PlaceBound(s, dummy, u);
      }
      TurnMore(s0, s, t, Invoked(e.w, e.events));
    }
  }

  lemma TurnsNone(s: Snap)
    ensures Turnwise(s, s)
  {
  }

  /** When nothing is left pending, what was pending has been settled. */
  lemma TurnsTaken(s0: Snap, s: Snap, w: Watcher)
    requires w in s0.place && s0.place[w] > 0 && w in s.place && s.place[w] == 0 && Turnwise(s0, s)
    ensures |s0.trace| <= |s.trace| && FirstSettled(s.trace, |s0.trace|, w) < |s.trace|
  {
  }

  lemma {:induction false} AllInvoked(pendings: seq<seq<Pending>>, k: nat, dummy: Watcher)
    requires k <= |pendings|
    ensures forall a <- AllActs(pendings, k, dummy) :: a.Invoked?
  {
    if k > 0 {
      RevInvoked(pendings[k - 1], dummy);
      AllInvoked(pendings, k - 1, dummy);
    }
  }

  lemma {:induction false} RevInvoked(q: seq<Pending>, dummy: Watcher)
    ensures forall a <- RevActs(q, dummy) :: a.Invoked?
  {
    if q != [] { RevInvoked(q[..|q| - 1], dummy); }
  }

  /** When callbacks do nothing the one ahead is the one invoked first. */
  lemma AheadIsFirst(s0: Snap, s: Snap, dummy: Watcher, u: Watcher, v: Watcher)
    requires Ahead(s0, u, v) && Turnwise(s0, s) && (forall w | w in s.place :: s.place[w] == 0)
    requires NUMPRI <= |s0.pendings| && s.trace == s0.trace + AllActs(s0.pendings, NUMPRI, dummy)
    ensures |s0.trace| <= |s.trace|
    ensures var n := |s0.trace|;
      var i, j := FirstSettled(s.trace, n, u), FirstSettled(s.trace, n, v);
      i < j < |s.trace| && s.trace[i].Invoked? && s.trace[j].Invoked?
  {
    hide Turnwise;
    var acts := AllActs(s0.pendings, NUMPRI, dummy);
    AllInvoked(s0.pendings, NUMPRI, dummy);
    TurnKeys(s0, s, u, v);
    TurnsTaken(s0, s, u);
    TurnsTaken(s0, s, v);
    forall k | |s0.trace| <= k < |s.trace| ensures s.trace[k].Invoked? {
      assert s.trace[k] == acts[k - |s0.trace|];
    }
  }

  lemma TurnKeys(s0: Snap, s: Snap, u: Watcher, v: Watcher)
    requires Ahead(s0, u, v) && Turnwise(s0, s)
    ensures u in s.place && v in s.place
    ensures |s0.trace| <= |s.trace| && InTurn(s.trace, |s0.trace|, u, v)
  {
  }

  /** A watcher that was pending already is invoked after a later one that was not. */
  lemma PendingIsLate(s: Snap, dummy: Watcher, u: Watcher, v: Watcher, revents: Mask, t: Snap)
    requires u in s.place && v in s.place && u != v && AbsPri(u) == AbsPri(v)
    requires s.place[u] != 0 && s.place[v] == 0 && Agree(s, dummy)
    requires Turnwise(FedBack(s, dummy, [u, v], revents), t)
    ensures var n := |FedBack(s, dummy, [u, v], revents).trace|;
      n <= |t.trace| && InTurn(t.trace, n, v, u)
  {
    hide Agree, FedBack, Turnwise;
    FedOrderIff(s, dummy, [u, v], revents, 0, 1);
    TurnKeys(FedBack(s, dummy, [u, v], revents), t, v, u);
  }

  /** What the scripted callbacks of ops may touch. */
  ghost predicate Among(ops: seq<Op>, watchers: set<Watcher>) {
    forall op <- ops :: op.w in watchers
  }

  lemma FedTrace(s: Snap, w: Watcher, revents: Mask, p: int)
    requires w in s.place && 0 <= AbsPri(w) < |s.pendings| && WatcherOk(s, w)
    ensures FedSnap(s, w, revents).trace == s.trace + [Fed(w, revents)]
  {
  }

  lemma ClearedTrace(s: Snap, dummy: Watcher, w: Watcher, p: int)
    requires w in s.place && 0 <= AbsPri(w) < |s.pendings| && WatcherOk(s, w)
    ensures var t := ClearedSnap(s, dummy, w);
      && |t.trace| == |s.trace| + 1 && t.trace[..|s.trace|] == s.trace
      && t.trace[|s.trace|].Cleared? && t.trace[|s.trace|].w == w
      && (EmptyAbove(s.pendings, p) ==> EmptyAbove(t.pendings, p))
  {
  }

  lemma InvokedTrace(s: Snap, dummy: Watcher, p: nat)
    requires p < |s.pendings| && |s.pendings[p]| > 0
    ensures var e, t := s.pendings[p][|s.pendings[p]| - 1], InvokedSnap(s, dummy, p);
      && t.trace == (if e.w == dummy then s.trace else s.trace + [Invoked(e.w, e.events)])
      && Total(t.pendings) < Total(s.pendings)
      && (EmptyAbove(s.pendings, p) ==> EmptyAbove(t.pendings, p))
  {
    TotalUpdate(s.pendings, p, s.pendings[p][..|s.pendings[p]| - 1]);
  }

  /** From s to t callbacks did ops. Feeding sends the invoking loop back to the top. */
  ghost predicate Did(s: Snap, pri: int, t: Snap, pri': int, ops: seq<Op>) {
    && s.trace <= t.trace && OpsOf(t.trace) == OpsOf(s.trace) + ops
    && Invocations(t.trace) == Invocations(s.trace)
    && (EmptyAbove(s.pendings, pri) ==> EmptyAbove(t.pendings, pri'))
    && (pri' == pri || pri' == NUMPRI - 1)
  }

  lemma DidNone(s: Snap, pri: int)
    ensures Did(s, pri, s, pri, [])
  {
  }

  lemma DidOne(s: Snap, pri: int, t: Snap, pri': int, op: Op)
    requires |t.trace| == |s.trace| + 1 && t.trace[..|s.trace|] == s.trace
    requires t.trace[|s.trace|] == match op
      case Feed(w, events) => Fed(w, events)
      case Clear(w) => Cleared(w, t.trace[|s.trace|].events)
    requires EmptyAbove(s.pendings, pri) ==> EmptyAbove(t.pendings, pri')
    requires pri' == pri || pri' == NUMPRI - 1
    ensures Did(s, pri, t, pri', [op])
  {
    assert t.trace == s.trace + [t.trace[|s.trace|]];
    OpsOneMore(s.trace, t.trace[|s.trace|]);
  }

  lemma DidMore(s: Snap, p0: int, t: Snap, p1: int, u: Snap, p2: int, ops: seq<Op>, op: Op)
    requires Did(s, p0, t, p1, ops) && Did(t, p1, u, p2, [op])
    ensures Did(s, p0, u, p2, ops + [op])
  {
  }

  /** From s0 to s, calls callbacks have run, each doing its part of the script. */
  ghost predicate Running(s0: Snap, s: Snap, script: seq<seq<Op>>, calls: nat) {
    && s0.trace <= s.trace
    && Invocations(s.trace) == Invocations(s0.trace) + calls
    && OpsOf(s.trace) == OpsOf(s0.trace) + Flat(script[..Min(calls, |script|)])
  }

  /** The script says what the calls-th callback does; beyond it callbacks do nothing. */
  function Part(script: seq<seq<Op>>, calls: nat): seq<Op> {
    if calls < |script| then script[calls] else []
  }

  lemma RunningMore(s0: Snap, s: Snap, t: Snap, u: Snap, script: seq<seq<Op>>, calls: nat, pri: int, pri': int, a: Act)
    requires a.Invoked? && t.trace == s.trace + [a]
    requires Running(s0, s, script, calls) && Did(t, pri, u, pri', Part(script, calls))
    ensures Running(s0, u, script, calls + 1)
  {
    hide OpsOf, Invocations, Flat, EmptyAbove;
    OpsOneMore(s.trace, a);
    if calls < |script| { FlatOneMore(script, calls); }
    assert OpsOf(u.trace) == OpsOf(s0.trace) + (Flat(script[..Min(calls, |script|)]) + Part(script, calls));
  }

  /** With callbacks that do nothing: what is done and what is still to do, below queue k. */
  ghost predicate Ordered(s0: Snap, s: Snap, dummy: Watcher, k: nat) {
    && |s0.pendings| == |s.pendings| == NUMPRI && k <= NUMPRI
    && s.trace + AllActs(s.pendings, k, dummy) == s0.trace + AllActs(s0.pendings, NUMPRI, dummy)
  }

  lemma OrderedMore(s0: Snap, s: Snap, dummy: Watcher, p: nat)
    requires p < |s.pendings| && |s.pendings[p]| > 0 && Ordered(s0, s, dummy, p + 1)
    ensures Ordered(s0, InvokedSnap(s, dummy, p), dummy, p + 1)
  {
    InvokeOrder(s, dummy, p, s.trace + AllActs(s.pendings, p + 1, dummy));
  }

  lemma OrderedDown(s0: Snap, s: Snap, dummy: Watcher, p: nat)
    requires p < |s.pendings| && s.pendings[p] == [] && Ordered(s0, s, dummy, p + 1)
    ensures Ordered(s0, s, dummy, p)
  {
  }

  /** With all queues empty no watcher is pending or owed anything. */
  lemma AllDone(s: Snap, dummy: Watcher)
    requires Agree(s, dummy) && EmptyAbove(s.pendings, -1)
    ensures forall w | w in s.place :: s.place[w] == 0 && Owed(s.trace, w) == None
  {
    hide AllRightful, ClearsTold, Owed;
    forall w | w in s.place ensures s.place[w] == 0 && Owed(s.trace, w) == None {
      assert WatcherOk(s, w);
    }
  }

  lemma Started(s: Snap, dummy: Watcher, script: seq<seq<Op>>)
    requires |s.pendings| == NUMPRI
    ensures Running(s, s, script, 0) && Ordered(s, s, dummy, NUMPRI)
  {
    assert script[..0] == [];
  }

  lemma RunningSame(s0: Snap, s: Snap, t: Snap, script: seq<seq<Op>>, calls: nat)
    requires t.trace == s.trace && Running(s0, s, script, calls)
    ensures Running(s0, t, script, calls)
  {
  }

  lemma OrderedDone(s0: Snap, s: Snap, dummy: Watcher)
    requires Ordered(s0, s, dummy, 0)
    ensures s.trace == s0.trace + AllActs(s0.pendings, NUMPRI, dummy)
  {
  }

  lemma DidKeeps(s: Snap, pri: int, t: Snap, pri': int, ops: seq<Op>)
    requires Did(s, pri, t, pri', ops)
    ensures EmptyAbove(s.pendings, pri) ==> EmptyAbove(t.pendings, pri')
    ensures pri' == pri || pri' == NUMPRI - 1
  {
  }

  lemma Facts(s: Snap, dummy: Watcher, w: Watcher)
    requires w in s.place && Agree(s, dummy)
    ensures 0 <= AbsPri(w) < |s.pendings| && WatcherOk(s, w)
  {
  }

  lemma NothingAbove(s: Snap, dummy: Watcher)
    requires Agree(s, dummy)
    ensures |s.pendings| == NUMPRI && EmptyAbove(s.pendings, NUMPRI - 1)
  {
  }

  class Queues {
    ghost const watchers: set<Watcher>
    const dummy: Watcher
    var pendings: seq<seq<Pending>>
    var pendingpri: int
    var rfeeds: seq<Watcher>
    ghost var trace: seq<Act>

    ghost function Now(): Snap
      reads this`pendings, this`trace, watchers`pending
    {
      Snap(pendings, map w | w in watchers :: w.pending, trace)
    }

    ghost predicate Valid()
      reads this`pendings, this`trace, this`rfeeds, watchers`pending
    {
      Agree(Now(), dummy) && forall w <- rfeeds :: w in watchers
    }

    lemma NowPlaces(w: Watcher)
      requires w in watchers
      ensures w in Now().place && Now().place[w] == w.pending
      ensures Now().pendings == pendings && Now().trace == trace
    {
    }

    lemma NowKeys()
      ensures Now().place.Keys == watchers
    {
    }

    lemma NowPending()
      requires forall w <- watchers :: w.pending == 0
      ensures forall w | w in Now().place :: Now().place[w] == 0
    {
    }

    lemma NowIs()
      ensures Now().pendings == pendings && Now().trace == trace
    {
    }

    constructor (ghost ws: set<Watcher>)
      requires forall w <- ws :: MINPRI <= w.priority <= MAXPRI && w.pending == 0
      ensures Valid() && watchers == ws && trace == [] && rfeeds == []
      ensures fresh(dummy) && forall p | 0 <= p < NUMPRI :: pendings[p] == []
    {
      watchers := ws;
      var d := new Watcher(0, 0.0, 0.0);
      dummy, rfeeds := d, [];
      pendings, pendingpri := seq(NUMPRI, _ => []), 0;
      trace := [];
    }

    /** ev_feed_event. */
    method FeedEvent(w: Watcher, revents: Mask)
      requires w in watchers && Valid()
      modifies this`pendings, this`pendingpri, this`trace, w`pending
      ensures Now() == FedSnap(old(Now()), w, revents)
      ensures Valid() && pendingpri == NUMPRI - 1
    {
      hide AllRightful, ClearsTold, Owed, EntryOk;
      FeedAgrees(Now(), dummy, w, revents);
      var pri := AbsPri(w);
      if w.pending > 0 {
        var e := pendings[pri][w.pending - 1];
        pendings := pendings[pri := pendings[pri][w.pending - 1 := e.(events := e.events + revents)]];
      } else {
        w.pending := |pendings[pri]| + 1;
        pendings := pendings[pri := pendings[pri] + [Pending(w, revents)]];
      }
      pendingpri := NUMPRI - 1;
      trace := trace + [Fed(w, revents)];
      assert Now() == FedSnap(old(Now()), w, revents);
    }

    /** ev_clear_pending; clear_pending is the same but for the result. */
    method ClearPending(w: Watcher) returns (events: Mask)
      requires w in watchers && Valid()
      modifies this`pendings, this`trace, w`pending
      ensures Now() == ClearedSnap(old(Now()), dummy, w)
      ensures events == match Owed(old(trace), w) case None => {} case Some(e) => e
      ensures Valid()
    {
      hide AllRightful, ClearsTold, Owed, EntryOk;
      ClearAgrees(Now(), dummy, w);
      var pending := w.pending;
      if pending > 0 {
        var e := pendings[AbsPri(w)][pending - 1];
        pendings := pendings[AbsPri(w) := pendings[AbsPri(w)][pending - 1 := e.(w := dummy)]];
        w.pending := 0;
        events := e.events;
      } else {
        events := {};
      }
      trace := trace + [Cleared(w, events)];
      assert Now() == ClearedSnap(old(Now()), dummy, w);
    }
  
    /** feed_reverse. */
    method FeedReverse(w: Watcher)
      requires w in watchers && Valid()
      modifies this`rfeeds
      ensures Valid() && rfeeds == old(rfeeds) + [w]
    {
      rfeeds := rfeeds + [w];
    }

    /** feed_reverse_done; its callers have fed something. */
    method FeedReverseDone(revents: Mask)
      requires rfeeds != [] && Valid()
      modifies this`pendings, this`pendingpri, this`trace, this`rfeeds, watchers`pending
      ensures Now() == FedBack(old(Now()), dummy, old(rfeeds), revents)
      ensures Valid() && rfeeds == [] && pendingpri == NUMPRI - 1
    {
      hide AllRightful, ClearsTold, Owed, EntryOk, WatcherOk, FedSnap, Agree;
      ghost var s0, all := Now(), rfeeds;
      var first := true;
      while first || rfeeds != []
        invariant first ==> rfeeds != []
        invariant Valid() && (!first ==> pendingpri == NUMPRI - 1)
        invariant Agree(s0, dummy) && (forall w <- all :: w in s0.place)
        invariant FedBack(Now(), dummy, rfeeds, revents) == FedBack(s0, dummy, all, revents)
        decreases |rfeeds|
      {
        first := false;
        var w := rfeeds[|rfeeds| - 1];
        rfeeds := rfeeds[..|rfeeds| - 1];
        FeedEvent(w, revents);
      }
    }
  
    method DoOp(ghost s0: Snap, op: Op)
      requires op.w in watchers && Turnwise(s0, Now()) && Valid()
      modifies this`pendings, this`pendingpri, this`trace, op.w`pending
      ensures Valid() && Did(old(Now()), old(pendingpri), Now(), pendingpri, [op])
      ensures Turnwise(s0, Now())
    {
      hide AllRightful, ClearsTold, Owed, EntryOk, WatcherOk, FedSnap, ClearedSnap, Agree, Did, Turnwise;
      ghost var s := Now();
      Facts(s, dummy, op.w);
      if op.Feed? {
        FedTrace(s, op.w, op.events, pendingpri);
        FedTurn(s0, s, dummy, op.w, op.events);
        FeedEvent(op.w, op.events);
        NothingAbove(Now(), dummy);
      } else {
        ClearedTrace(s, dummy, op.w, pendingpri);
        ClearedTurn(s0, s, dummy, op.w);
        var dropped := ClearPending(op.w);
      }
      DidOne(s, old(pendingpri), Now(), pendingpri, op);
    }

    /** A callback that does ops. */
    method RunCallback(ghost s0: Snap, ops: seq<Op>)
      requires Among(ops, watchers) && Turnwise(s0, Now()) && Valid()
      modifies this`pendings, this`pendingpri, this`trace, watchers`pending
      ensures Valid() && Did(old(Now()), old(pendingpri), Now(), pendingpri, ops)
      ensures Turnwise(s0, Now())
      ensures ops == [] ==> Now() == old(Now()) && pendingpri == old(pendingpri)
    {
      hide AllRightful, ClearsTold, Owed, EntryOk, WatcherOk, FedSnap, ClearedSnap, Agree, Did, Turnwise;
      var i := 0;
      DidNone(Now(), pendingpri);
      while i < |ops|
        invariant 0 <= i <= |ops| && Valid() && Turnwise(s0, Now())
        invariant Did(old(Now()), old(pendingpri), Now(), pendingpri, ops[..i])
        invariant i == 0 ==> Now() == old(Now()) && pendingpri == old(pendingpri)
      {
        ghost var s, pri := Now(), pendingpri;
        assert ops[i] in ops;
        DoOp(s0, ops[i]);
        DidMore(old(Now()), old(pendingpri), s, pri, Now(), pendingpri, ops[..i], ops[i]);
        assert ops[..i + 1] == ops[..i] + [ops[i]];
        i := i + 1;
      }
      assert ops[..i] == ops;
    }
  
    /** Takes the last entry of the current queue. */
    method TakeLast() returns (w: Watcher)
      requires 0 <= pendingpri < |pendings| && pendings[pendingpri] != []
      requires EmptyAbove(pendings, pendingpri) && Valid()
      modifies this`pendings, this`trace, watchers`pending, dummy`pending
      ensures Now() == InvokedSnap(old(Now()), dummy, pendingpri) && Valid()
      ensures old(pendings[pendingpri][|pendings[pendingpri]| - 1].w) == w
    {
      hide AllRightful, ClearsTold, Owed, EntryOk, WatcherOk;
      InvokeAgrees(Now(), dummy, pendingpri);
      var q := pendings[pendingpri];
      var e := q[|q| - 1];
      pendings := pendings[pendingpri := q[..|q| - 1]];
      w := e.w;
      w.pending := 0;
      if w != dummy { trace := trace + [Invoked(w, e.events)]; }
      assert Now() == InvokedSnap(old(Now()), dummy, pendingpri);
    }

    /** The body of the invoking loop: the calls-th callback does its part of the script. */
    method InvokeOne(ghost s0: Snap, script: seq<seq<Op>>, calls: nat) returns (calls': nat)
      requires 0 <= pendingpri < |pendings| == NUMPRI && pendings[pendingpri] != []
      requires EmptyAbove(pendings, pendingpri) && Running(s0, Now(), script, calls) && Turnwise(s0, Now())
      requires script == [] ==> Ordered(s0, Now(), dummy, pendingpri + 1)
      requires (forall ops <- script :: Among(ops, watchers)) && Valid()
      modifies this`pendings, this`pendingpri, this`trace, watchers`pending, dummy`pending
      ensures 0 <= pendingpri < |pendings| == NUMPRI && Valid()
      ensures EmptyAbove(pendings, pendingpri) && Running(s0, Now(), script, calls') && Turnwise(s0, Now())
      ensures script == [] ==> Ordered(s0, Now(), dummy, pendingpri + 1)
      ensures calls' == calls || calls' == calls + 1
      ensures calls' == calls || calls >= |script| ==>
        Total(pendings) < Total(old(pendings)) && pendingpri == old(pendingpri)
    {
      hide AllRightful, ClearsTold, Owed, EntryOk, WatcherOk, Agree, Did, Running, Ordered, InvokedSnap, AllActs,
        Turnwise;
      ghost var s := Now();
      InvokedTrace(s, dummy, pendingpri);
      InvokedTurn(s0, s, dummy, pendingpri);
      if script == [] { OrderedMore(s0, s, dummy, pendingpri); }
      var w := TakeLast();
      if w != dummy {
        ghost var t, pri := Now(), pendingpri;
        RunCallback(s0, Part(script, calls));
        DidKeeps(t, pri, Now(), pendingpri, Part(script, calls));
        RunningMore(s0, s, t, Now(), script, calls, pri, pendingpri, t.trace[|s.trace|]);
        calls' := calls + 1;
      } else {
        RunningSame(s0, s, Now(), script, calls);
        calls' := calls;
      }
      NothingAbove(Now(), dummy);
    }

    /** ev_invoke_pending, when the n-th callback it invokes does script[n] and those
        beyond the script do nothing. */
    method InvokePending(script: seq<seq<Op>>) returns (calls: nat)
      requires (forall ops <- script :: Among(ops, watchers)) && Valid()
      modifies this`pendings, this`pendingpri, this`trace, watchers`pending, dummy`pending
      ensures Valid() && Running(old(Now()), Now(), script, calls) && Turnwise(old(Now()), Now())
      ensures forall w | w in Now().place :: w.pending == 0 && Owed(trace, w) == None
      ensures script == [] ==> trace == old(trace) + AllActs(old(pendings), NUMPRI, dummy)
    {
      hide AllRightful, ClearsTold, Owed, EntryOk, WatcherOk, Agree, Did, Running, Ordered, InvokedSnap, AllActs,
        Turnwise;
      ghost var s0 := Now();
      NothingAbove(s0, dummy);
      pendingpri := NUMPRI;
      calls := 0;
      Started(s0, dummy, script);
      TurnsNone(s0);
      while pendingpri != 0
        invariant 0 <= pendingpri <= |pendings| == NUMPRI && Valid()
        invariant Running(s0, Now(), script, calls) && Turnwise(s0, Now())
        invariant EmptyAbove(pendings, pendingpri - 1)
        invariant script == [] ==> Ordered(s0, Now(), dummy, pendingpri)
        decreases |script| - Min(calls, |script|), Total(pendings), pendingpri
      {
        pendingpri := pendingpri - 1;
        ghost var rem0, total0, pri0 := |script| - Min(calls, |script|), Total(pendings), pendingpri;
        while pendings[pendingpri] != []
          invariant 0 <= pendingpri < |pendings| == NUMPRI && Valid()
          invariant Running(s0, Now(), script, calls) && Turnwise(s0, Now())
          invariant EmptyAbove(pendings, pendingpri)
          invariant script == [] ==> Ordered(s0, Now(), dummy, pendingpri + 1)
          invariant |script| - Min(calls, |script|) <= rem0
          invariant |script| - Min(calls, |script|) == rem0 ==>
            Total(pendings) < total0 || (Total(pendings) == total0 && pendingpri == pri0)
          decreases |script| - Min(calls, |script|), Total(pendings)
        {
          calls := InvokeOne(s0, script, calls);
        }
        if script == [] { OrderedDown(s0, Now(), dummy, pendingpri); }
      }
      AllDone(Now(), dummy);
      if script == [] { OrderedDone(s0, Now(), dummy); }
    }
  }
}
