/** libev's timers: starting, stopping and restarting them, and making the expired ones
    pending. */
module Timers {

  import opened Basics
  import opened Watchers
  import opened TimerHeap
  import PQ = PendingQueues
  import Growth

  /** The bit of EV_TIMER (0x100). */
  const EV_TIMER: PQ.Mask := {8}

  /** Bytes of a heap entry. */
  const ENTRY_SIZE: nat := 16

  /** Each entry caches the expiry of its watcher. */
  predicate Cached(s: seq<Entry>, n: nat)
    requires HEAP0 + n <= |s|
    reads WatchersIn(s, n)`at
  {
    forall i | HEAP0 <= i < HEAP0 + n :: s[i].at == s[i].w.at
  }

  /** Watchers without an entry are not active. */
  predicate OthersIdle(s: seq<Entry>, n: nat, ws: set<Watcher>)
    requires HEAP0 + n <= |s|
    reads (ws - WatchersIn(s, n))`active
  {
    forall w <- ws - WatchersIn(s, n) :: w.active == 0
  }

  /** What verify_heap asserts, and that only the watchers on the heap are active. */
  predicate TimersOk(s: seq<Entry>, n: nat, ws: set<Watcher>)
    reads ws`active, ws`at
  {
    && Heap(s, n) && Distinct(s, n)
    && WatchersIn(s, n) <= ws
    && KnowSlots(s, n, 0) && Cached(s, n) && OthersIdle(s, n, ws)
  }

  /** The active timers and when they expire. */
  function Armed(s: seq<Entry>, n: nat): map<Watcher, real>
    requires HEAP0 + n <= |s|
    reads WatchersIn(s, n)`at
  {
    map w | w in WatchersIn(s, n) :: w.at
  }

  lemma StillCached(s: seq<Entry>, s': seq<Entry>, n: nat)
    requires Rearranged(s, s', n) && Cached(s, n)
    ensures Cached(s', n)
  {
    var a, b := Live(s, n), Live(s', n);
    forall i | Slot(n, i) ensures s'[i].at == s'[i].w.at {
      assert s'[i] == b[i - HEAP0] && b[i - HEAP0] in multiset(b);
      assert b[i - HEAP0] in multiset(a);
      var j :| 0 <= j < |a| && a[j] == b[i - HEAP0];
      assert s[j + HEAP0] == a[j];
    }
  }

  /** All is right but for the place of the entry in slot k. */
  ghost predicate UnsettledAt(s: seq<Entry>, n: nat, k: int, ws: set<Watcher>)
    reads ws`active, ws`at
  {
    && Slot(n, k) && HEAP0 + n <= |s|
    && Hole(s, s, n, k)
    && WatchersIn(s, n) <= ws
    && KnowSlots(s, n, k) && Cached(s, n) && OthersIdle(s, n, ws)
  }

  /** A rearrangement that is a heap again is all right again. */
  lemma Settled(s: seq<Entry>, s': seq<Entry>, n: nat, ws: set<Watcher>)
    requires HEAP0 + n <= |s| && WatchersIn(s, n) <= ws
    requires Rearranged(s, s', n) && Heap(s', n) && Distinct(s', n) && WatchersIn(s', n) == WatchersIn(s, n)
    requires KnowSlots(s', n, 0) && Cached(s, n) && OthersIdle(s, n, ws)
    ensures TimersOk(s', n, ws) && Armed(s', n) == Armed(s, n)
  {
    hide Heap, Rearranged, Distinct;
    StillCached(s, s', n);
  }

  /** The parts of TimersOk; w is active just when it is on the heap. */
  lemma Parts(s: seq<Entry>, n: nat, ws: set<Watcher>, w: Watcher)
    requires w in ws && TimersOk(s, n, ws)
    ensures HEAP0 + n <= |s| && Heap(s, n) && Distinct(s, n) && WatchersIn(s, n) <= ws
    ensures KnowSlots(s, n, 0) && Cached(s, n) && OthersIdle(s, n, ws - {w})
    ensures w in WatchersIn(s, n) <==> w.active != 0
    ensures w.active != 0 ==> Slot(n, w.active) && s[w.active].w == w
  {
  }

  /** s' is s with one more entry, w's. */
  lemma Appendix(s: seq<Entry>, s': seq<Entry>, n: nat, w: Watcher)
    requires Heap(s, n) && Distinct(s, n) && w !in WatchersIn(s, n)
    requires HEAP0 + n < |s'| && s'[..HEAP0 + n] == s[..HEAP0 + n] && s'[HEAP0 + n].w == w
    ensures forall i | 0 <= i < HEAP0 + n :: s'[i] == s[i]
    ensures WatchersIn(s', n + 1) == WatchersIn(s, n) + {w}
    ensures AboveChildren(s', n + 1, HEAP0 + n) && Hole(s', s', n + 1, HEAP0 + n)
  {
    forall i | 0 <= i < HEAP0 + n ensures s'[i] == s[i] {
      assert s'[..HEAP0 + n][i] == s[..HEAP0 + n][i];
    }
    forall i | HEAP0 < i < HEAP0 + n ensures InOrder(s', i) {
      ParentOfChild(HEAP0, i);
      assert InOrder(s, i);
    }
    Appended(s', n);
    WatchersPlus(s, s', n, w);
  }

  lemma WatchersPlus(s: seq<Entry>, s': seq<Entry>, n: nat, w: Watcher)
    requires HEAP0 + n <= |s| && w !in WatchersIn(s, n) && HEAP0 + n < |s'| && s'[HEAP0 + n].w == w
    requires forall i | 0 <= i < HEAP0 + n :: s'[i] == s[i]
    ensures WatchersIn(s', n + 1) == WatchersIn(s, n) + {w}
    ensures Distinct(s, n) ==> Distinct(s', n + 1)
  {
    forall v <- WatchersIn(s, n) ensures v in WatchersIn(s', n + 1) {
      var i :| HEAP0 <= i < HEAP0 + n && s[i].w == v;
      assert s'[i].w == v;
    }
    assert s'[HEAP0 + n].w in WatchersIn(s', n + 1);
    forall i | HEAP0 <= i < HEAP0 + n ensures s'[i].w in WatchersIn(s, n) {
      assert s[i].w in WatchersIn(s, n);
    }
  }

  lemma Entered(s: seq<Entry>, s': seq<Entry>, n: nat, ws: set<Watcher>, w: Watcher)
    requires HEAP0 + n <= |s| && HEAP0 + n < |s'| && s'[..HEAP0 + n] == s[..HEAP0 + n]
    requires s'[HEAP0 + n] == Entry(w.at, w) && w in ws
    requires Heap(s, n) && Distinct(s, n) && w !in WatchersIn(s, n) && WatchersIn(s, n) <= ws
    requires KnowSlots(s, n, 0) && Cached(s, n) && OthersIdle(s, n, ws - {w})
    ensures UnsettledAt(s', n + 1, HEAP0 + n, ws) && AboveChildren(s', n + 1, HEAP0 + n)
    ensures Armed(s', n + 1) == Armed(s, n)[w := w.at]
  {
    hide Heap, Distinct, Hole, AboveChildren, WatchersIn;
    Appendix(s, s', n, w);
  }

  /** s' is s with slot k's watcher w gone, the last entry put in its place. */
  lemma TakenOut(s: seq<Entry>, s': seq<Entry>, n: nat, k: int, w: Watcher)
    requires n > 0 && Slot(n, k) && HEAP0 + n <= |s| && s[k].w == w
    requires s' == s[k := s[HEAP0 + n - 1]] && Heap(s, n) && Distinct(s, n)
    ensures WatchersIn(s', n - 1) == WatchersIn(s, n) - {w} && Distinct(s', n - 1)
    ensures Slot(n - 1, k) ==> Hole(s', s', n - 1, k)
    ensures k == HEAP0 + n - 1 ==> Heap(s', n - 1)
  {
    var last := HEAP0 + n - 1;
    forall v <- WatchersIn(s, n) - {w} ensures v in WatchersIn(s', n - 1) {
      var i :| HEAP0 <= i < HEAP0 + n && s[i].w == v;
      assert s'[if i == last then k else i].w == v;
    }
    forall v <- WatchersIn(s', n - 1) ensures v in WatchersIn(s, n) - {w} {
      var i :| HEAP0 <= i < last && s'[i].w == v;
      assert s[if i == k then last else i].w == v;
    }
    forall i | HEAP0 < i < last ensures HEAP0 <= HParent(i) < i && InOrder(s, i) { ParentOfChild(HEAP0, i); }
    if Slot(n - 1, k) {
      Replaced(s, n - 1, k, s[last]);
    }
  }

  lemma TakenOutRest(s: seq<Entry>, s': seq<Entry>, n: nat, k: int, ws: set<Watcher>, w: Watcher)
    requires w in ws && n > 0 && Slot(n, k) && HEAP0 + n <= |s| && s[k].w == w
    requires s' == s[k := s[HEAP0 + n - 1]] && TimersOk(s, n, ws)
    ensures Slot(n - 1, k) ==> UnsettledAt(s', n - 1, k, ws - {w})
    ensures k == HEAP0 + n - 1 ==> TimersOk(s', n - 1, ws - {w})
    ensures Armed(s', n - 1) == Armed(s, n) - {w}
  {
    hide Heap, Hole, WatchersIn;
    TakenOut(s, s', n, k, w);
  }

  /** The rest of the timers, when only w's expiry may differ from a. */
  ghost predicate RestSame(s: seq<Entry>, n: nat, a: map<Watcher, real>, w: Watcher)
    requires HEAP0 + n <= |s|
    reads (WatchersIn(s, n) - {w})`at
  {
    && a.Keys == WatchersIn(s, n)
    && (forall i | HEAP0 <= i < HEAP0 + n && s[i].w != w :: s[i].at == s[i].w.at)
    && (forall v <- WatchersIn(s, n) - {w} :: a[v] == v.at)
  }

  lemma RestOf(s: seq<Entry>, n: nat, w: Watcher)
    requires HEAP0 + n <= |s| && Cached(s, n)
    ensures RestSame(s, n, Armed(s, n), w)
  {
  }

  lemma Retimed(s: seq<Entry>, s': seq<Entry>, n: nat, ws: set<Watcher>, w: Watcher, a: map<Watcher, real>)
    requires Slot(n, w.active) && HEAP0 + n <= |s| && s[w.active].w == w && WatchersIn(s, n) <= ws
    requires s' == s[w.active := Entry(w.at, w)] && Heap(s, n) && Distinct(s, n)
    requires KnowSlots(s, n, 0) && OthersIdle(s, n, ws) && RestSame(s, n, a, w)
    ensures UnsettledAt(s', n, w.active, ws) && Armed(s', n) == a[w := w.at]
  {
    Replaced(s, n, w.active, Entry(w.at, w));
    assert s[w.active].w in WatchersIn(s, n);
    forall i | Slot(n, i) ensures s'[i].w == s[i].w { }
    assert WatchersIn(s', n) == WatchersIn(s, n);
  }

  /** A stopped watcher need not be told apart. */
  lemma Stopped(s: seq<Entry>, n: nat, ws: set<Watcher>, w: Watcher)
    requires w in ws && w.active == 0 && TimersOk(s, n, ws - {w})
    ensures TimersOk(s, n, ws)
  {
  }

  lemma Within(s: seq<Entry>, n: nat, ws: set<Watcher>)
    requires TimersOk(s, n, ws)
    ensures HEAP0 + n <= |s| && WatchersIn(s, n) <= ws
  {
  }

  lemma NotArmed(s: seq<Entry>, n: nat, w: Watcher)
    requires HEAP0 + n <= |s| && w !in WatchersIn(s, n)
    ensures Armed(s, n) - {w} == Armed(s, n)
  {
  }

  lemma UnsettledParts(s: seq<Entry>, n: nat, k: int, ws: set<Watcher>)
    requires UnsettledAt(s, n, k, ws)
    ensures Slot(n, k) && HEAP0 + n <= |s| && Hole(s, s, n, k) && WatchersIn(s, n) <= ws
    ensures KnowSlots(s, n, k) && Cached(s, n) && OthersIdle(s, n, ws)
  {
  }

  /** The intervals at which the watchers repeat; 0 is not at all. */
  function Repeats(ws: set<Watcher>): map<Watcher, real>
    reads ws`repeat_
  {
    map w | w in ws :: w.repeat_
  }

  /** The pending queues after those of ws that do not repeat are stopped. */
  ghost function StopAll(s: PQ.Snap, dummy: Watcher, ws: seq<Watcher>, rep: map<Watcher, real>): (r: PQ.Snap)
    requires (forall w <- ws :: w in s.place) && s.place.Keys == rep.Keys && PQ.Agree(s, dummy)
    ensures PQ.Agree(r, dummy) && r.place.Keys == s.place.Keys
    decreases |ws|
  {
    hide PQ.Agree, PQ.ClearedSnap;
    if ws == [] then s else
      var w, t := ws[|ws| - 1], StopAll(s, dummy, ws[..|ws| - 1], rep);
      if rep[w] != 0.0 then t else
        PQ.ClearAgrees(t, dummy, w);
        PQ.Facts(t, dummy, w);
        PQ.ClearedKeys(t, dummy, w);
        PQ.ClearedSnap(t, dummy, w)
  }

  /** The timers a, those of due that repeat put off to their next expiry, no earlier than
      now, and the others of due stopped. */
  function Rescheduled(a: map<Watcher, real>, due: set<Watcher>, rep: map<Watcher, real>, now: real)
    : map<Watcher, real>
    requires a.Keys <= rep.Keys
  {
    map w | w in a && (w !in due || rep[w] != 0.0) ::
      if w !in due then a[w] else if a[w] + rep[w] < now then now else a[w] + rep[w]
  }

  /** Of the timers dealt with exactly those that repeat go on, at the least time that is
      neither before now nor less than an interval after their last expiry; others stay. */
  lemma PutOffLeast(a: map<Watcher, real>, due: set<Watcher>, rep: map<Watcher, real>, now: real, w: Watcher, t: real)
    requires a.Keys <= rep.Keys && w in a
    ensures var r := Rescheduled(a, due, rep, now);
      && (w !in due ==> w in r && r[w] == a[w])
      && (w in due ==> (w in r <==> rep[w] != 0.0))
      && (w in due && w in r ==> (t >= r[w] <==> t >= now && t >= a[w] + rep[w]))
  {
  }

  /** ws has no repeats and is in order of expiry. */
  predicate ByExpiry(ws: seq<Watcher>, a: map<Watcher, real>) {
    && PQ.NoRepeats(ws)
    && (forall w <- ws :: w in a)
    && forall i, j | 0 <= i < j < |ws| :: a[ws[i]] <= a[ws[j]]
  }

  function Elems(ws: seq<Watcher>): set<Watcher> {
    set w | w in ws
  }

  function Due(a: map<Watcher, real>, now: real): set<Watcher> {
    set w | w in a && a[w] < now
  }

  lemma Root(s: seq<Entry>, n: nat, ws: set<Watcher>)
    requires n > 0 && TimersOk(s, n, ws)
    ensures HEAP0 + n <= |s| && s[HEAP0].w in ws && s[HEAP0].w.active == HEAP0
    ensures s[HEAP0].w in Armed(s, n) && Armed(s, n)[s[HEAP0].w] == s[HEAP0].at == s[HEAP0].w.at
    ensures forall v | v in Armed(s, n) :: s[HEAP0].at <= Armed(s, n)[v]
  {
    assert s[HEAP0].w in WatchersIn(s, n);
    forall v | v in Armed(s, n) ensures s[HEAP0].at <= Armed(s, n)[v] {
      var i :| HEAP0 <= i < HEAP0 + n && s[i].w == v;
      RootIsEarliest(s, n, i);
    }
  }

  /** Midway: of the timers a0, those of ws were expired and have been dealt with. */
  ghost predicate Reified(a0: map<Watcher, real>, a: map<Watcher, real>, ws: seq<Watcher>,
                          rep: map<Watcher, real>, now: real)
  {
    && a0.Keys <= rep.Keys && a == Rescheduled(a0, Elems(ws), rep, now)
    && ByExpiry(ws, a0) && Elems(ws) <= Due(a0, now)
    && forall v, w | v in a0 && v !in ws && w in ws :: a0[w] <= a0[v]
  }

  lemma ReifiedMore(a0: map<Watcher, real>, a: map<Watcher, real>, a': map<Watcher, real>,
                    ws: seq<Watcher>, rep: map<Watcher, real>, now: real, w: Watcher)
    requires Reified(a0, a, ws, rep, now)
    requires w in a && a[w] < now && forall v | v in a :: a[w] <= a[v]
    requires a' == if rep[w] == 0.0 then a - {w} else
      a[w := if a[w] + rep[w] < now then now else a[w] + rep[w]]
    ensures Reified(a0, a', ws + [w], rep, now)
    ensures Due(a', now) < Due(a, now)
  {
    assert w !in ws;
    assert w in Due(a, now) && w !in Due(a', now);
    assert Elems(ws + [w]) == Elems(ws) + {w};
    assert a[w] == a0[w];
    assert a' == Rescheduled(a0, Elems(ws + [w]), rep, now);
    forall v, u | v in a0 && v !in ws + [w] && u in ws + [w] ensures a0[u] <= a0[v] {
      assert v in a && a[v] == a0[v];
    }
  }

  lemma ReifiedNone(s: seq<Entry>, n: nat, ws: set<Watcher>, s0: PQ.Snap, dummy: Watcher,
                    rep: map<Watcher, real>, now: real)
    requires rep.Keys == ws == s0.place.Keys && TimersOk(s, n, ws) && PQ.Agree(s0, dummy)
    ensures HEAP0 + n <= |s| && Reified(Armed(s, n), Armed(s, n), [], rep, now)
    ensures StopAll(s0, dummy, [], rep) == s0 && PQ.FedBack(s0, dummy, [], EV_TIMER) == s0
    ensures StopsDone(s0, s0, dummy, [], rep)
  {
    hide PQ.Agree;
  }

  /** t is s after stopping those of ws that do not repeat. */
  ghost predicate StopsDone(s: PQ.Snap, t: PQ.Snap, dummy: Watcher, ws: seq<Watcher>, rep: map<Watcher, real>) {
    && (forall v <- ws :: v in s.place) && s.place.Keys == rep.Keys && PQ.Agree(s, dummy)
    && t == StopAll(s, dummy, ws, rep)
  }

  lemma StopsAre(s: PQ.Snap, t: PQ.Snap, dummy: Watcher, ws: seq<Watcher>, rep: map<Watcher, real>)
    requires StopsDone(s, t, dummy, ws, rep)
    ensures (forall v <- ws :: v in s.place) && s.place.Keys == rep.Keys && PQ.Agree(s, dummy)
    ensures t == StopAll(s, dummy, ws, rep)
  {
  }

  lemma StopMore(s: PQ.Snap, t: PQ.Snap, t': PQ.Snap, dummy: Watcher, ws: seq<Watcher>, w: Watcher,
                 rep: map<Watcher, real>)
    requires StopsDone(s, t, dummy, ws, rep) && w in s.place
    requires 0 <= PQ.AbsPri(w) < |t.pendings| && w in t.place && PQ.WatcherOk(t, w)
    requires t' == if rep[w] != 0.0 then t else PQ.ClearedSnap(t, dummy, w)
    ensures StopsDone(s, t', dummy, ws + [w], rep)
  {
    hide PQ.Agree, PQ.ClearedSnap;
    assert (ws + [w])[..|ws + [w]| - 1] == ws;
  }

  /** When the root has not expired, all that had expired are dealt with. */
  lemma ReifiedAll(s: seq<Entry>, n: nat, all: set<Watcher>, a0: map<Watcher, real>, ws: seq<Watcher>,
                   rep: map<Watcher, real>, now: real)
    requires HEAP0 + n <= |s| && TimersOk(s, n, all) && Reified(a0, Armed(s, n), ws, rep, now)
    requires n > 0 ==> HEAP0 < |s| && s[HEAP0].at >= now
    ensures Elems(ws) == Due(a0, now) && ByExpiry(ws, a0) && Due(Armed(s, n), now) == {}
    ensures Armed(s, n) == Rescheduled(a0, Elems(ws), rep, now)
  {
    hide TimersOk, WatchersIn;
    var a := Armed(s, n);
    assert Due(a0, now) - Elems(ws) <= Due(a, now);
    if n > 0 { Root(s, n, all); } else { EmptyArmed(s); }
    assert Due(a, now) == {};
    forall w <- Due(a0, now) ensures w in Elems(ws) {
      assert w in Elems(ws) || w in Due(a0, now) - Elems(ws);
    }
  }

  lemma EmptyArmed(s: seq<Entry>)
    requires HEAP0 <= |s|
    ensures Armed(s, 0) == map[]
  {
  }

  /** The acts are invocations of watchers of ws in order of expiry. */
  ghost predicate ActsByExpiry(acts: seq<PQ.Act>, ws: seq<Watcher>, a: map<Watcher, real>) {
    && (forall i | 0 <= i < |acts| :: acts[i].Invoked? && acts[i].w in ws && acts[i].w in a)
    && (forall i, j | 0 <= i < j < |acts| :: a[acts[i].w] <= a[acts[j].w])
  }

  lemma {:induction false} FreshByExpiry(s: PQ.Snap, ws: seq<Watcher>, p: int, a: map<Watcher, real>)
    requires ByExpiry(ws, a)
    ensures ActsByExpiry(PQ.FreshInvoked(s, ws, p, EV_TIMER), ws, a)
    ensures forall w <- ws :: PQ.Fresh(s, w, p) ==> PQ.Invoked(w, EV_TIMER) in PQ.FreshInvoked(s, ws, p, EV_TIMER)
  {
    if ws != [] {
      var w, before := ws[|ws| - 1], ws[..|ws| - 1];
      FreshByExpiry(s, before, p, a);
      assert forall v <- before :: a[v] <= a[w];
    }
  }

  /** When fed is what feeding ws made of stopped: at every priority the timers of ws that
      were not pending are invoked first, by expiry. */
  ghost predicate RunFirst(stopped: PQ.Snap, fed: PQ.Snap, dummy: Watcher, ws: seq<Watcher>, a: map<Watcher, real>) {
    && |fed.pendings| == PQ.NUMPRI
    && forall p | 0 <= p < PQ.NUMPRI ::
      && PQ.FreshInvoked(stopped, ws, p, EV_TIMER) <= PQ.RevActs(fed.pendings[p], dummy)
      && ActsByExpiry(PQ.FreshInvoked(stopped, ws, p, EV_TIMER), ws, a)
  }

  lemma ExpiredFirst(s: PQ.Snap, dummy: Watcher, ws: seq<Watcher>, rep: map<Watcher, real>, a: map<Watcher, real>)
    requires (forall v <- ws :: v in s.place) && s.place.Keys == rep.Keys && ByExpiry(ws, a) && PQ.Agree(s, dummy)
    ensures var stopped := StopAll(s, dummy, ws, rep);
      RunFirst(stopped, PQ.FedBack(stopped, dummy, ws, EV_TIMER), dummy, ws, a)
  {
    hide PQ.FreshInvoked, PQ.RevActs, StopAll, PQ.FedBack, ActsByExpiry;
    var stopped := StopAll(s, dummy, ws, rep);
    forall p | 0 <= p < PQ.NUMPRI
      ensures PQ.FreshInvoked(stopped, ws, p, EV_TIMER) <=
        PQ.RevActs(PQ.FedBack(stopped, dummy, ws, EV_TIMER).pendings[p], dummy)
      ensures ActsByExpiry(PQ.FreshInvoked(stopped, ws, p, EV_TIMER), ws, a)
    {
      PQ.FedBackInvoked(stopped, dummy, ws, EV_TIMER, p);
      FreshByExpiry(stopped, ws, p, a);
    }
  }

  lemma {:induction false} StopPlaces(s: PQ.Snap, dummy: Watcher, ws: seq<Watcher>, rep: map<Watcher, real>, w: Watcher)
    requires (forall v <- ws :: v in s.place) && s.place.Keys == rep.Keys && PQ.Agree(s, dummy)
    requires w in s.place
    ensures StopAll(s, dummy, ws, rep).place[w] == if w in ws && rep[w] == 0.0 then 0 else s.place[w]
    decreases |ws|
  {
    hide PQ.Agree, PQ.WatcherOk;
    if ws != [] {
      var v, before := ws[|ws| - 1], ws[..|ws| - 1];
      StopPlaces(s, dummy, before, rep, w);
      var t := StopAll(s, dummy, before, rep);
      PQ.Facts(t, dummy, v);
      assert w in ws <==> w == v || w in before;
    }
  }

  /** w repeats, so that it is not stopped, and is pending already. */
  predicate Held(s: PQ.Snap, rep: map<Watcher, real>, w: Watcher) {
    w in s.place && w in rep && rep[w] != 0.0 && s.place[w] != 0
  }

  /** u, which expired no later than v, is still to be invoked first. */
  predicate KeepsOrder(s: PQ.Snap, rep: map<Watcher, real>, u: Watcher, v: Watcher) {
    Held(s, rep, u) ==> Held(s, rep, v) && PQ.Ahead(s, u, v)
  }

  /** fed is what the expired timers ws made of the queues s. */
  ghost predicate FedFrom(s: PQ.Snap, fed: PQ.Snap, dummy: Watcher, ws: seq<Watcher>, rep: map<Watcher, real>) {
    && PQ.NoRepeats(ws) && (forall w <- ws :: w in s.place) && s.place.Keys == rep.Keys && PQ.Agree(s, dummy)
    && fed == PQ.FedBack(StopAll(s, dummy, ws, rep), dummy, ws, EV_TIMER)
  }

  lemma FedAhead(s: PQ.Snap, fed: PQ.Snap, dummy: Watcher, ws: seq<Watcher>, rep: map<Watcher, real>, i: nat, j: nat)
    requires i < j < |ws| && PQ.AbsPri(ws[i]) == PQ.AbsPri(ws[j]) && FedFrom(s, fed, dummy, ws, rep)
    ensures KeepsOrder(s, rep, ws[i], ws[j]) <==> PQ.Ahead(fed, ws[i], ws[j])
    ensures !KeepsOrder(s, rep, ws[i], ws[j]) <==> PQ.Ahead(fed, ws[j], ws[i])
  {
    hide PQ.Agree, PQ.FedBack, StopAll;
    StopPlaces(s, dummy, ws, rep, ws[i]);
    StopPlaces(s, dummy, ws, rep, ws[j]);
    PQ.FedOrderIff(StopAll(s, dummy, ws, rep), dummy, ws, EV_TIMER, i, j);
  }

  lemma FedByExpiry(s: PQ.Snap, fed: PQ.Snap, dummy: Watcher, ws: seq<Watcher>, rep: map<Watcher, real>,
                    a: map<Watcher, real>)
    requires (forall w <- ws :: w in s.place) && s.place.Keys == rep.Keys && ByExpiry(ws, a) && PQ.Agree(s, dummy)
    requires fed == PQ.FedBack(StopAll(s, dummy, ws, rep), dummy, ws, EV_TIMER)
    ensures FedFrom(s, fed, dummy, ws, rep)
  {
    hide PQ.Agree, PQ.FedBack, StopAll;
  }

  /** Two timers of ws of one priority, the i-th expiring no later than the j-th. */
  predicate Rivals(ws: seq<Watcher>, i: int, j: int) {
    0 <= i < j < |ws| && PQ.AbsPri(ws[i]) == PQ.AbsPri(ws[j])
  }

  /** From n on, whatever callbacks do: the later of two timers of ws, unless it is cleared
      first, waits for the earlier when that keeps the order, and otherwise the other way
      round. */
  ghost predicate TakeTurns(s: PQ.Snap, rep: map<Watcher, real>, ws: seq<Watcher>, trace: seq<PQ.Act>, n: nat) {
    && n <= |trace|
    && forall i, j | Rivals(ws, i, j) ::
      if KeepsOrder(s, rep, ws[i], ws[j]) then PQ.InTurn(trace, n, ws[i], ws[j]) else PQ.InTurn(trace, n, ws[j], ws[i])
  }

  /** From n on both are invoked, u first just when the order is kept. */
  ghost predicate FirstIff(s: PQ.Snap, rep: map<Watcher, real>, trace: seq<PQ.Act>, n: nat, u: Watcher, v: Watcher) {
    && n <= |trace|
    && var i, j := PQ.FirstSettled(trace, n, u), PQ.FirstSettled(trace, n, v);
      && i < |trace| && trace[i].Invoked? && j < |trace| && trace[j].Invoked?
      && (i < j <==> KeepsOrder(s, rep, u, v))
  }

  lemma TurnsTaken(s: PQ.Snap, fed: PQ.Snap, t: PQ.Snap, dummy: Watcher, ws: seq<Watcher>, rep: map<Watcher, real>)
    requires FedFrom(s, fed, dummy, ws, rep) && PQ.Turnwise(fed, t)
    ensures |fed.trace| <= |t.trace| && TakeTurns(s, rep, ws, t.trace, |fed.trace|)
  {
    hide KeepsOrder, PQ.InTurn, PQ.Ahead, PQ.FirstSettled, FedFrom;
    forall i, j | Rivals(ws, i, j)
      ensures if KeepsOrder(s, rep, ws[i], ws[j]) then PQ.InTurn(t.trace, |fed.trace|, ws[i], ws[j])
        else PQ.InTurn(t.trace, |fed.trace|, ws[j], ws[i])
    {
      FedAhead(s, fed, dummy, ws, rep, i, j);
      if KeepsOrder(s, rep, ws[i], ws[j]) {
        PQ.TurnKeys(fed, t, ws[i], ws[j]);
      } else {
        PQ.TurnKeys(fed, t, ws[j], ws[i]);
      }
    }
  }

  /** When callbacks do nothing. */
  lemma OrderIff(s: PQ.Snap, fed: PQ.Snap, t: PQ.Snap, dummy: Watcher, ws: seq<Watcher>, rep: map<Watcher, real>)
    requires FedFrom(s, fed, dummy, ws, rep) && PQ.Turnwise(fed, t) && (forall w | w in t.place :: t.place[w] == 0)
    requires PQ.NUMPRI <= |fed.pendings| && t.trace == fed.trace + PQ.AllActs(fed.pendings, PQ.NUMPRI, dummy)
    ensures forall i, j | Rivals(ws, i, j) :: FirstIff(s, rep, t.trace, |fed.trace|, ws[i], ws[j])
  {
    hide KeepsOrder, PQ.Turnwise, PQ.Ahead, PQ.FirstSettled, PQ.AllActs, FedFrom;
    forall i, j | Rivals(ws, i, j) ensures FirstIff(s, rep, t.trace, |fed.trace|, ws[i], ws[j]) {
      FedAhead(s, fed, dummy, ws, rep, i, j);
      if KeepsOrder(s, rep, ws[i], ws[j]) {
        PQ.AheadIsFirst(fed, t, dummy, ws[i], ws[j]);
      } else {
        PQ.AheadIsFirst(fed, t, dummy, ws[j], ws[i]);
      }
    }
  }

  /** u is pending with the default priority, and nothing else is. */
  function OnePending(u: Watcher, v: Watcher): PQ.Snap {
    PQ.Snap([[], [], [PQ.Pending(u, EV_TIMER)], [], []], map[u := 1, v := 0], [PQ.Fed(u, EV_TIMER)])
  }

  lemma OnePendingAgrees(dummy: Watcher, u: Watcher, v: Watcher)
    requires dummy != u && u != v && v != dummy && u.priority == v.priority == 0
    ensures PQ.Agree(OnePending(u, v), dummy)
  {
    var trace := OnePending(u, v).trace;
    assert trace[..0] == [] && PQ.Owed(trace[..0], u) == None && PQ.Owed(trace[..0], v) == None;
    assert PQ.Owed(trace, u) == Some(EV_TIMER) && PQ.Owed(trace, v) == None;
  }

  /** The order is not always kept: when u repeats and was pending, v, which was not, is
      invoked before it although it expired no earlier. */
  lemma LateTimer(dummy: Watcher, u: Watcher, v: Watcher)
    requires dummy != u && u != v && v != dummy && u.priority == v.priority == 0
    ensures var s, rep := OnePending(u, v), map[u := 1.0, v := 0.0];
      && PQ.Agree(s, dummy) && !KeepsOrder(s, rep, u, v)
      && var fed := PQ.FedBack(StopAll(s, dummy, [u, v], rep), dummy, [u, v], EV_TIMER);
        && |fed.pendings| == PQ.NUMPRI
        && PQ.AllActs(fed.pendings, PQ.NUMPRI, dummy) == [PQ.Invoked(v, EV_TIMER), PQ.Invoked(u, EV_TIMER)]
  {
    hide PQ.Agree, PQ.AllActs;
    var s, rep := OnePending(u, v), map[u := 1.0, v := 0.0];
    OnePendingAgrees(dummy, u, v);
    LateStopped(dummy, u, v, rep);
    LateFed(StopAll(s, dummy, [u, v], rep), dummy, u, v);
    LateActs(dummy, u, v);
  }

  lemma LateStopped(dummy: Watcher, u: Watcher, v: Watcher, rep: map<Watcher, real>)
    requires u != v && u.priority == v.priority == 0 && rep == map[u := 1.0, v := 0.0]
    requires PQ.Agree(OnePending(u, v), dummy)
    ensures var stopped := StopAll(OnePending(u, v), dummy, [u, v], rep);
      stopped.pendings == OnePending(u, v).pendings && stopped.place == OnePending(u, v).place
  {
    hide PQ.Agree, PQ.WatcherOk;
    assert [u, v][..1] == [u] && [u][..0] == [];
    assert StopAll(OnePending(u, v), dummy, [u], rep) == OnePending(u, v);
    PQ.Facts(OnePending(u, v), dummy, v);
  }

  lemma LateFed(s: PQ.Snap, dummy: Watcher, u: Watcher, v: Watcher)
    requires u != v && u.priority == v.priority == 0 && PQ.Agree(s, dummy)
    requires s.pendings == OnePending(u, v).pendings && s.place == OnePending(u, v).place
    ensures PQ.FedBack(s, dummy, [u, v], EV_TIMER).pendings ==
      [[], [], [PQ.Pending(u, EV_TIMER), PQ.Pending(v, EV_TIMER)], [], []]
  {
    hide PQ.Agree, PQ.WatcherOk;
    assert [u, v][..1] == [u] && [u][..0] == [];
    PQ.Facts(s, dummy, v);
    var t := PQ.FedSnap(s, v, EV_TIMER);
    PQ.FeedAgrees(s, dummy, v, EV_TIMER);
    PQ.Facts(t, dummy, u);
    var r := PQ.FedSnap(t, u, EV_TIMER);
    PQ.FeedAgrees(t, dummy, u, EV_TIMER);
    PQ.FedKeys(s, v, EV_TIMER);
    assert EV_TIMER + EV_TIMER == EV_TIMER;
    assert t.place == map[u := 1, v := 2];
    assert t.pendings[2] == [PQ.Pending(u, EV_TIMER), PQ.Pending(v, EV_TIMER)];
    assert r.pendings[2] == [PQ.Pending(u, EV_TIMER), PQ.Pending(v, EV_TIMER)];
    assert r.pendings == [[], [], [PQ.Pending(u, EV_TIMER), PQ.Pending(v, EV_TIMER)], [], []];
    assert PQ.FedBack(r, dummy, [], EV_TIMER) == r;
    assert PQ.FedBack(t, dummy, [u], EV_TIMER) == r;
  }

  lemma LateActs(dummy: Watcher, u: Watcher, v: Watcher)
    requires dummy != u && v != dummy
    ensures PQ.AllActs([[], [], [PQ.Pending(u, EV_TIMER), PQ.Pending(v, EV_TIMER)], [], []], PQ.NUMPRI, dummy) ==
      [PQ.Invoked(v, EV_TIMER), PQ.Invoked(u, EV_TIMER)]
  {
    var both := [PQ.Pending(u, EV_TIMER), PQ.Pending(v, EV_TIMER)];
    var pendings := [[], [], both, [], []];
    var first := both[..1];
    assert first[..0] == [] && PQ.RevActs(first[..0], dummy) == [];
    assert PQ.RevActs(first, dummy) == [PQ.Invoked(u, EV_TIMER)];
    assert PQ.RevActs(both, dummy) == [PQ.Invoked(v, EV_TIMER)] + PQ.RevActs(first, dummy);
    assert PQ.AllActs(pendings, 0, dummy) == [] && PQ.AllActs(pendings, 1, dummy) == [];
    assert PQ.AllActs(pendings, 2, dummy) == [];
    assert PQ.AllActs(pendings, 3, dummy) == PQ.RevActs(both, dummy);
    assert PQ.AllActs(pendings, 4, dummy) == PQ.RevActs(both, dummy);
  }

  class Loop {
    var timers: array<Entry>
    var timercnt: nat
    var mnNow: real
    const queues: PQ.Queues

    ghost predicate TimersValid()
      reads this`timers, this`timercnt, timers, queues.watchers`active, queues.watchers`at
    {
      && HEAP0 + timercnt <= timers.Length
      && TimersOk(timers[..], timercnt, queues.watchers)
    }

    ghost predicate QueuesValid()
      reads queues, queues.watchers`pending, queues.watchers`repeat_
    {
      && queues.Valid() && queues.dummy !in queues.watchers
      && forall w <- queues.watchers :: w.repeat_ >= 0.0
    }

    ghost predicate Valid()
      reads this, timers, queues, queues.watchers
    {
      QueuesValid() && TimersValid()
    }

    ghost function Active(): map<Watcher, real>
      requires HEAP0 + timercnt <= timers.Length
      reads this`timers, this`timercnt, timers, WatchersIn(timers[..], timercnt)`at
    {
      Armed(timers[..], timercnt)
    }

    constructor (queues: PQ.Queues, now: real)
      requires queues.Valid() && queues.dummy !in queues.watchers
      requires forall w <- queues.watchers :: w.active == 0 && w.repeat_ >= 0.0
      ensures Valid() && this.queues == queues && mnNow == now && Active() == map[]
    {
      this.queues, mnNow, timercnt := queues, now, 0;
      timers := new Entry[HEAP0](_ => Entry(0.0, queues.dummy));
      new;
      assert WatchersIn(timers[..], 0) == {};
    }

    /** Makes room for cnt entries. */
    method NeedSize(ghost n: nat, cnt: nat)
      requires HEAP0 + n <= timers.Length
      modifies this`timers
      ensures cnt <= timers.Length && HEAP0 + n <= timers.Length
      ensures timers[..HEAP0 + n] == old(timers[..HEAP0 + n])
      ensures timers == old(timers) || fresh(timers)
    {
      if cnt > timers.Length {
        var size := Growth.NextSize(ENTRY_SIZE, timers.Length, cnt);
        var was, filler := timers, Entry(0.0, queues.dummy);
        timers := new Entry[size](i requires 0 <= i reads was => if i < was.Length then was[i] else filler);
      }
    }

    /** Puts w, which is not active, in a new last slot. */
    method Enter(w: Watcher)
      requires w in queues.watchers && w.active == 0 && TimersValid()
      modifies this`timers, this`timercnt, timers, w`active
      ensures timers == old(timers) || fresh(timers)
      ensures timercnt == old(timercnt) + 1 && w.active == HEAP0 + timercnt - 1 < timers.Length
      ensures UnsettledAt(timers[..], timercnt, w.active, queues.watchers)
      ensures AboveChildren(timers[..], timercnt, w.active)
      ensures Active() == old(Active())[w := w.at]
    {
      hide Heap, Distinct, WatchersIn, Hole, KnowSlots, Cached, OthersIdle, Armed, TimersOk, UnsettledAt, AboveChildren;
      Parts(timers[..], timercnt, queues.watchers, w);
      ghost var s, n := timers[..], timercnt;
      timercnt := timercnt + 1;
      w.active := timercnt + HEAP0 - 1;
      NeedSize(n, w.active + 1);
      timers[w.active] := Entry(w.at, w);
      assert timers[..][..HEAP0 + n] == s[..HEAP0 + n];
      Entered(s, timers[..], n, queues.watchers, w);
    }

    /** ev_timer_start. */
    method Start(w: Watcher)
      requires w in queues.watchers && Valid()
      modifies this`timers, this`timercnt, timers, queues.watchers`active, w`at
      ensures Valid() && (timers == old(timers) || fresh(timers))
      ensures old(w.active) != 0 ==> Active() == old(Active()) && w.at == old(w.at)
      ensures old(w.active) == 0 ==>
        Active() == old(Active())[w := old(w.at) + mnNow] && w.at == old(w.at) + mnNow
    {
      hide WatchersIn, Hole, KnowSlots, Cached, OthersIdle, Armed, PQ.Agree, PQ.Queues.Now, Heap, Distinct, Rearranged;
      Parts(timers[..], timercnt, queues.watchers, w);
      if w.active != 0 { return; }
      w.at := w.at + mnNow;
      Enter(w);
      ghost var s := timers[..];
      Upheap(timers, timercnt, w.active);
      Settled(s, timers[..], timercnt, queues.watchers);
    }
  
    /** Takes the entry of w, which is active, off the array. */
    method TakeOut(w: Watcher) returns (moved: bool)
      requires w in queues.watchers && w.active != 0 && TimersValid()
      modifies this`timercnt, timers
      ensures timercnt == old(timercnt) - 1 && HEAP0 + timercnt <= timers.Length
      ensures moved ==> 0 <= w.active && UnsettledAt(timers[..], timercnt, w.active, queues.watchers - {w})
      ensures !moved ==> TimersOk(timers[..], timercnt, queues.watchers - {w})
      ensures Active() == old(Active()) - {w}
    {
      hide Heap, Distinct, WatchersIn, Hole, KnowSlots, Cached, OthersIdle, Armed, TimersOk, UnsettledAt;
      Parts(timers[..], timercnt, queues.watchers, w);
      var active := w.active;
      ghost var s, n := timers[..], timercnt;
      timercnt := timercnt - 1;
      moved := active < timercnt + HEAP0;
      if moved {
        timers[active] := timers[timercnt + HEAP0];
      }
      TakenOutRest(s, timers[..], n, active, queues.watchers, w);
    }

    /** Takes w, which is active, off the heap and makes it inactive. */
    method Unlink(w: Watcher)
      requires w in queues.watchers && w.active != 0 && TimersValid()
      modifies this`timercnt, timers, queues.watchers`active, w`at
      ensures TimersValid() && w.active == 0 && Active() == old(Active()) - {w}
      ensures w.at == old(w.at) - mnNow
    {
      hide WatchersIn, Hole, KnowSlots, Cached, OthersIdle, Armed, TimersOk, UnsettledAt, Heap, Distinct, Rearranged;
      var moved := TakeOut(w);
      ghost var ws := queues.watchers - {w};
      if moved {
        ghost var s := timers[..];
        UnsettledParts(s, timercnt, w.active, ws);
        Adjustheap(timers, timercnt, w.active);
        Settled(s, timers[..], timercnt, ws);
      }
      Within(timers[..], timercnt, ws);
      w.at := w.at - mnNow;
      w.active := 0;
      Stopped(timers[..], timercnt, queues.watchers, w);
    }

    /** ev_timer_stop. */
    method Stop(w: Watcher)
      requires w in queues.watchers && Valid()
      modifies this`timercnt, timers, queues.watchers`active, w`at, queues`pendings, queues`trace, w`pending
      ensures Valid() && w.active == 0 && w.pending == 0 && Active() == old(Active()) - {w}
      ensures queues.Now() == PQ.ClearedSnap(old(queues.Now()), queues.dummy, w)
      ensures w.at == if old(w.active) == 0 then old(w.at) else old(w.at) - mnNow
    {
      hide WatchersIn, Armed, TimersOk, PQ.Agree, PQ.Queues.Now, PQ.ClearedSnap;
      Parts(timers[..], timercnt, queues.watchers, w);
      queues.NowPlaces(w);
      PQ.ClearedTwice(queues.Now(), queues.dummy, w);
      var dropped := queues.ClearPending(w);
      queues.NowPlaces(w);
      if w.active == 0 {
        NotArmed(timers[..], timercnt, w);
        return;
      }
      Unlink(w);
    }

    /** Sets the expiry of w, which is active, also where it is cached. */
    method SetAt(w: Watcher, at: real)
      requires w in queues.watchers && w.active != 0 && TimersValid()
      modifies timers, w`at
      ensures w.at == at && UnsettledAt(timers[..], timercnt, w.active, queues.watchers)
      ensures Active() == old(Active())[w := at]
    {
      hide Heap, Distinct, WatchersIn, Hole, KnowSlots, Cached, OthersIdle, Armed, TimersOk, UnsettledAt, RestSame;
      Parts(timers[..], timercnt, queues.watchers, w);
      ghost var s, a := timers[..], Active();
      RestOf(s, timercnt, w);
      w.at := at;
      timers[w.active] := Entry(w.at, w);
      Retimed(s, timers[..], timercnt, queues.watchers, w, a);
    }

    /** Sets the expiry of w, which is active, and puts it where it then belongs. */
    method Rearm(w: Watcher, at: real)
      requires w in queues.watchers && w.active != 0 && TimersValid()
      modifies timers, queues.watchers`active, w`at
      ensures TimersValid() && Active() == old(Active())[w := at]
    {
      hide WatchersIn, Hole, KnowSlots, Cached, OthersIdle, Armed, TimersOk, UnsettledAt, Heap, Distinct, Rearranged;
      SetAt(w, at);
      ghost var s := timers[..];
      UnsettledParts(s, timercnt, w.active, queues.watchers);
      Adjustheap(timers, timercnt, w.active);
      Settled(s, timers[..], timercnt, queues.watchers);
    }

    method SetIdleAt(w: Watcher, at: real)
      requires w in queues.watchers && w.active == 0 && TimersValid()
      modifies w`at
      ensures TimersValid() && Active() == old(Active()) && w.at == at
    {
      hide WatchersIn, KnowSlots, Cached, OthersIdle, Armed, Heap, Distinct;
      Parts(timers[..], timercnt, queues.watchers, w);
      w.at := at;
    }

    /** ev_timer_again. */
    method Again(w: Watcher)
      requires w in queues.watchers && Valid()
      modifies this`timers, this`timercnt, timers, queues.watchers`active, w`at
      modifies queues`pendings, queues`trace, w`pending
      ensures Valid() && (timers == old(timers) || fresh(timers)) && w.pending == 0
      ensures var again := PQ.ClearedSnap(old(queues.Now()), queues.dummy, w);
        queues.pendings == again.pendings && again.place == queues.Now().place
      ensures Active() ==
        if w.repeat_ != 0.0 then old(Active())[w := mnNow + w.repeat_] else old(Active()) - {w}
    {
      hide WatchersIn, Armed, TimersOk, PQ.Agree, PQ.Queues.Now, PQ.ClearedSnap;
      Parts(timers[..], timercnt, queues.watchers, w);
      queues.NowPlaces(w);
      PQ.ClearedTwice(queues.Now(), queues.dummy, w);
      var dropped := queues.ClearPending(w);
      queues.NowPlaces(w);
      if w.active != 0 {
        if w.repeat_ != 0.0 {
          Rearm(w, mnNow + w.repeat_);
        } else {
          Stop(w);
          queues.NowPlaces(w);
        }
      } else if w.repeat_ != 0.0 {
        SetIdleAt(w, w.repeat_);
        Start(w);
      } else {
        NotArmed(timers[..], timercnt, w);
      }
    }
  
    /** The same for the root, which can only move down. */
    method RearmRoot(w: Watcher, at: real)
      requires w in queues.watchers && w.active == HEAP0 && TimersValid()
      modifies timers, queues.watchers`active, w`at
      ensures TimersValid() && Active() == old(Active())[w := at]
    {
      hide WatchersIn, Hole, KnowSlots, Cached, OthersIdle, Armed, TimersOk, UnsettledAt, Heap, Distinct, Rearranged;
      SetAt(w, at);
      ghost var s := timers[..];
      UnsettledParts(s, timercnt, w.active, queues.watchers);
      Downheap(timers, timercnt, HEAP0);
      Settled(s, timers[..], timercnt, queues.watchers);
    }

    /** Deals with the root, which has expired. */
    method ReifyRoot() returns (w: Watcher)
      requires timercnt > 0 && Valid() && timers[HEAP0].at < mnNow
      modifies this`timercnt, timers, queues.watchers`active, queues.watchers`at
      modifies queues`pendings, queues`trace, queues`rfeeds, queues.watchers`pending
      ensures Valid() && w in old(Active()) && old(Active())[w] < mnNow
      ensures forall v | v in old(Active()) :: old(Active())[w] <= old(Active())[v]
      ensures Active() ==
        if w.repeat_ == 0.0 then old(Active()) - {w} else old(Active())[w :=
          if old(Active())[w] + w.repeat_ < mnNow then mnNow else old(Active())[w] + w.repeat_]
      ensures queues.Now() == if w.repeat_ != 0.0 then old(queues.Now()) else
        PQ.ClearedSnap(old(queues.Now()), queues.dummy, w)
      ensures w in queues.watchers && queues.rfeeds == old(queues.rfeeds) + [w]
    {
      hide WatchersIn, Armed, TimersOk, PQ.Agree, PQ.Queues.Now, PQ.ClearedSnap;
      Root(timers[..], timercnt, queues.watchers);
      ghost var a := Active();
      w := timers[HEAP0].w;
      if w.repeat_ != 0.0 {
        var at := w.at + w.repeat_;
        if at < mnNow { at := mnNow; }
        RearmRoot(w, at);
        assert Active() == a[w := if a[w] + w.repeat_ < mnNow then mnNow else a[w] + w.repeat_];
      } else {
        Stop(w);
        assert Active() == a - {w};
      }
      Within(timers[..], timercnt, queues.watchers);
      queues.FeedReverse(w);
    }
  
    /** Deals with one expired timer after the other. */
    method ReifyExpired() returns (ghost ws: seq<Watcher>)
      requires timercnt > 0 && queues.rfeeds == [] && Valid() && timers[HEAP0].at < mnNow
      modifies this`timercnt, timers, queues.watchers`active, queues.watchers`at
      modifies queues`pendings, queues`trace, queues`rfeeds, queues.watchers`pending
      ensures Valid() && queues.rfeeds == ws != []
      ensures timercnt > 0 ==> timers[HEAP0].at >= mnNow
      ensures Reified(old(Active()), Active(), ws, Repeats(queues.watchers), mnNow)
      ensures StopsDone(old(queues.Now()), queues.Now(), queues.dummy, ws, Repeats(queues.watchers))
    {
      hide WatchersIn, Armed, TimersOk, PQ.Agree, PQ.Queues.Now, PQ.ClearedSnap, Reified, StopsDone, Due;
      ghost var a0, s0, rep := Active(), queues.Now(), Repeats(queues.watchers);
      ws := [];
      queues.NowKeys();
      ReifiedNone(timers[..], timercnt, queues.watchers, s0, queues.dummy, rep, mnNow);
      while true
        invariant Valid() && queues.rfeeds == ws && Repeats(queues.watchers) == rep
        invariant timercnt > 0 && timers[HEAP0].at < mnNow
        invariant Reified(a0, Active(), ws, rep, mnNow)
        invariant StopsDone(s0, queues.Now(), queues.dummy, ws, rep)
        decreases Due(Active(), mnNow)
      {
        ghost var a, t := Active(), queues.Now();
        queues.NowKeys();
        var w := ReifyRoot();
        PQ.Facts(t, queues.dummy, w);
        ReifiedMore(a0, a, Active(), ws, rep, mnNow, w);
        StopMore(s0, t, queues.Now(), queues.dummy, ws, w, rep);
        ws := ws + [w];
        if !(timercnt > 0 && timers[HEAP0].at < mnNow) { break; }
      }
    }

    /** timers_reify. ws are the watchers it feeds. */
    method TimersReify() returns (ghost ws: seq<Watcher>)
      requires queues.rfeeds == [] && Valid()
      modifies this`timercnt, timers, queues.watchers`active, queues.watchers`at
      modifies queues`pendings, queues`pendingpri, queues`trace, queues`rfeeds, queues.watchers`pending
      ensures Valid() && queues.rfeeds == [] && forall w <- ws :: w in queues.watchers
      ensures Elems(ws) == Due(old(Active()), mnNow) && ByExpiry(ws, old(Active()))
      ensures Active() == Rescheduled(old(Active()), Elems(ws), Repeats(queues.watchers), mnNow)
      ensures Due(Active(), mnNow) == {}
      ensures queues.Now() == PQ.FedBack(
        StopAll(old(queues.Now()), queues.dummy, ws, Repeats(queues.watchers)), queues.dummy, ws, EV_TIMER)
    {
      hide WatchersIn, Armed, TimersOk, PQ.Agree, PQ.Queues.Now, PQ.FedBack,
        Reified, StopAll, StopsDone, Rescheduled, ByExpiry, Due, Elems;
      ghost var a0, s0, rep := Active(), queues.Now(), Repeats(queues.watchers);
      queues.NowKeys();
      ReifiedNone(timers[..], timercnt, queues.watchers, s0, queues.dummy, rep, mnNow);
      ws := [];
      if timercnt > 0 && timers[HEAP0].at < mnNow {
        ws := ReifyExpired();
        StopsAre(s0, queues.Now(), queues.dummy, ws, rep);
        Within(timers[..], timercnt, queues.watchers);
        queues.FeedReverseDone(EV_TIMER);
      }
      ReifiedAll(timers[..], timercnt, queues.watchers, a0, ws, rep, mnNow);
    }
  
    /** One round of the loop in which only timers expire, the n-th callback doing
        script[n]. Of each priority the expired timers take turns; when callbacks do nothing
        those that were not pending run first, in order of expiry. */
    method RunTimers(script: seq<seq<PQ.Op>>) returns (ghost ws: seq<Watcher>, ghost fed: PQ.Snap, calls: nat)
      requires queues.rfeeds == [] && Valid() && forall ops <- script :: PQ.Among(ops, queues.watchers)
      modifies this`timercnt, timers, queues.watchers`active, queues.watchers`at
      modifies queues`pendings, queues`pendingpri, queues`trace, queues`rfeeds
      modifies queues.watchers`pending, queues.dummy`pending
      ensures Valid() && queues.rfeeds == []
      ensures Elems(ws) == Due(old(Active()), mnNow) && ByExpiry(ws, old(Active()))
      ensures var stopped := StopAll(old(queues.Now()), queues.dummy, ws, Repeats(queues.watchers));
        && fed == PQ.FedBack(stopped, queues.dummy, ws, EV_TIMER)
        && RunFirst(stopped, fed, queues.dummy, ws, old(Active()))
      ensures PQ.Running(fed, queues.Now(), script, calls)
      ensures TakeTurns(old(queues.Now()), Repeats(queues.watchers), ws, queues.trace, |fed.trace|)
      ensures PQ.NUMPRI <= |fed.pendings|
      ensures script == [] ==> queues.trace == fed.trace + PQ.AllActs(fed.pendings, PQ.NUMPRI, queues.dummy)
      ensures script == [] ==> forall i, j | Rivals(ws, i, j) ::
        FirstIff(old(queues.Now()), Repeats(queues.watchers), queues.trace, |fed.trace|, ws[i], ws[j])
      ensures forall w <- queues.watchers :: w.pending == 0
    {
      hide WatchersIn, Armed, TimersOk, PQ.Agree, PQ.FedBack, StopAll, Rescheduled, Due, Elems, PQ.Queues.Now,
        PQ.AllActs, PQ.Running, PQ.Turnwise, TakeTurns, FirstIff, FedFrom, ByExpiry, RunFirst;
      ghost var a0, s0, rep := Active(), queues.Now(), Repeats(queues.watchers);
      queues.NowKeys();
      ws := TimersReify();
      fed := queues.Now();
      queues.NowIs();
      ExpiredFirst(s0, queues.dummy, ws, rep, a0);
      FedByExpiry(s0, fed, queues.dummy, ws, rep, a0);
      PQ.NothingAbove(fed, queues.dummy);
      Within(timers[..], timercnt, queues.watchers);
      calls := queues.InvokePending(script);
      queues.NowIs();
      queues.NowKeys();
      TurnsTaken(s0, fed, queues.Now(), queues.dummy, ws, rep);
      queues.NowPending();
      if script == [] { OrderIff(s0, fed, queues.Now(), queues.dummy, ws, rep); }
    }
  }
}
