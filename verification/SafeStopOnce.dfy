/** What becomes of each message posted to a handler_thread: it is processed, or handed to the
    timer wheel, once, and dropped only when the thread is stopping. */
module SafeStopOnce {
  import opened SafeStop

  // ---------------------------------------------------------------------
  // Every message is in one place
  // ---------------------------------------------------------------------

  predicate InHand(w: WorkerPc, id: Id) {
    (w.Handling? || w.RCheck? || w.RPut?) && !w.m.StopMessage? && w.m.id == id
  }

  function OfId(q: seq<Msg>, id: Id): nat {
    multiset(q)[Plain(id)] + multiset(q)[Timed(id)] + multiset(q)[Serial(id)]
  }

  function Gone(done: Done, id: Id): nat {
    multiset(done.processed)[id] + multiset(done.timed)[id] + if id in done.dropped then 1 else 0
  }

  /** How many there are of message id: in the queue, in the worker's hand, processed, put
      off, dropped. */
  function Copies(s: State, id: Id): nat {
    OfId(s.queue, id) + (if InHand(s.worker, id) then 1 else 0) + Gone(s.h.done, id)
  }

  predicate PosterHas(pc: PosterPc, id: Id) {
    (pc.PCheck? || pc.PPut?) && !pc.m.StopMessage? && pc.m.id == id
  }

  /** The message is still with the poster that is enqueueing it. */
  ghost predicate Waiting(posters: map<Caller, PosterPc>, id: Id) {
    exists p :: p in posters && PosterHas(posters[p], id)
  }

  /** What was posted is with its poster, or there is one of it. */
  ghost predicate OneOf(s: State, id: Id) {
    Copies(s, id) == if id in s.h.used && !Waiting(s.posters, id) then 1 else 0
  }

  ghost predicate OnceOk(s: State) {
    forall id: Id :: OneOf(s, id)
  }

  /** m is what was posted under its id. */
  predicate Known(used: map<Id, Msg>, m: Msg) {
    !m.StopMessage? ==> m.id in used && used[m.id] == m
  }

  predicate PostersKnown(used: map<Id, Msg>, posters: map<Caller, PosterPc>) {
    forall p <- posters :: !posters[p].PIdle? ==> Known(used, posters[p].m)
  }

  predicate QueueKnown(used: map<Id, Msg>, q: seq<Msg>) {
    forall m <- q :: Known(used, m)
  }

  predicate HandKnown(used: map<Id, Msg>, w: WorkerPc) {
    w.Handling? || w.RCheck? || w.RPut? ==> Known(used, w.m)
  }

  predicate UsedOk(used: map<Id, Msg>) {
    forall id <- used :: !used[id].StopMessage? && used[id].id == id
  }

  /** Timed messages go to the wheel, and no others do. */
  predicate DoneKnown(used: map<Id, Msg>, done: Done) {
    && (forall id <- done.processed :: id in used && !used[id].Timed?)
    && (forall id <- done.timed :: id in used && used[id].Timed?)
  }

  /** Every message is what was posted under its id. */
  predicate KindsOk(s: State) {
    && UsedOk(s.h.used) && PostersKnown(s.h.used, s.posters) && QueueKnown(s.h.used, s.queue)
    && HandKnown(s.h.used, s.worker) && DoneKnown(s.h.used, s.h.done)
  }

  ghost predicate WithPoster(posters: map<Caller, PosterPc>, m: Msg) {
    exists p :: p in posters && !posters[p].PIdle? && posters[p].m == m
  }

  /** Only a stopping thread drops messages; a plain one is with its poster until the call of
      enqueue has returned. */
  ghost predicate HandedOk(s: State) {
    && (s.h.done.dropped != {} ==> s.stopping)
    && forall id <- s.h.used | s.h.used[id] == Plain(id) ::
      WithPoster(s.posters, Plain(id)) || id in s.h.returned || id in s.h.done.dropped
  }

  ghost predicate Once(s: State) {
    OnceOk(s) && KindsOk(s) && HandedOk(s)
  }

  lemma InitOnce(s: State)
    requires Init(s)
    ensures Once(s)
  {
  }

  // ---------------------------------------------------------------------
  // Every step keeps that
  // ---------------------------------------------------------------------

  lemma QueuedMore(q: seq<Msg>, m: Msg, id: Id)
    ensures OfId(q + [m], id) == OfId(q, id) + if !m.StopMessage? && m.id == id then 1 else 0
  {
  }

  lemma QueuedLess(q: seq<Msg>, id: Id)
    requires q != []
    ensures OfId(q, id) == OfId(q[1..], id) + if !q[0].StopMessage? && q[0].id == id then 1 else 0
  {
    assert q == [q[0]] + q[1..];
  }

  lemma GoneMore(done: Done, m: Msg, id: Id)
    requires m.StopMessage? || m.id !in done.dropped
    ensures Gone(done.Drop(m), id) == Gone(done, id) + if !m.StopMessage? && m.id == id then 1 else 0
  {
  }

  lemma GoneOn(done: Done, x: Id, id: Id)
    ensures Gone(done.Process(x), id) == Gone(done, id) + if x == id then 1 else 0
    ensures Gone(done.PutOff(x), id) == Gone(done, id) + if x == id then 1 else 0
  {
  }

  /** Only poster p moves, and only its own message is concerned. */
  lemma WaitingElse(posters: map<Caller, PosterPc>, p: Caller, pc: PosterPc, id: Id)
    requires p in posters && !PosterHas(posters[p], id) && !PosterHas(pc, id)
    ensures Waiting(posters[p := pc], id) == Waiting(posters, id)
  {
    var posters' := posters[p := pc];
    if q :| q in posters && PosterHas(posters[q], id) { assert PosterHas(posters'[q], id); }
    if q :| q in posters' && PosterHas(posters'[q], id) { assert PosterHas(posters[q], id); }
  }

  lemma WaitingAlone(posters: map<Caller, PosterPc>, p: Caller, pc: PosterPc)
    requires Distinct(posters) && p in posters && !posters[p].PIdle? && !posters[p].m.StopMessage?
    requires !PosterHas(pc, posters[p].m.id)
    ensures !Waiting(posters[p := pc], posters[p].m.id)
  {
    var posters' := posters[p := pc];
    forall q | q in posters' ensures !PosterHas(posters'[q], posters[p].m.id) {
      if q != p { DistinctApart(posters, p, q); }
    }
  }

  lemma {:induction false} PostOnce(s: State, p: Caller, m: Msg)
    requires OnceOk(s) && Enabled(s, Post(p, m))
    ensures OnceOk(Next(s, Post(p, m)))
  {
    hide OfId, Gone;
    var s' := Next(s, Post(p, m));
    forall id: Id ensures OneOf(s', id) {
      assert OneOf(s, id);
      if id == m.id { assert PosterHas(s'.posters[p], id); } else { WaitingElse(s.posters, p, PCheck(m), id); }
    }
  }

  lemma {:induction false} PosterOnce(s: State, p: Caller)
    requires OnceOk(s) && PostersFresh(s) && Enabled(s, PosterStep(p))
    ensures OnceOk(NextPoster(s, p))
  {
    hide OfId, Gone, Distinct, Waiting;
    var s', m := NextPoster(s, p), s.posters[p].m;
    if !s.posters[p].PSend? { HasWaits(s.posters, p, m.id); }
    forall id: Id ensures OneOf(s', id) {
      assert OneOf(s, id) && OneOf(s, m.id);
      if id != m.id || s.posters[p].PSend? {
        WaitingElse(s.posters, p, s'.posters[p], id);
      } else {
        if s'.posters[p].PPut? { HasWaits(s'.posters, p, id); } else { WaitingAlone(s.posters, p, s'.posters[p]); }
      }
      if s.posters[p].PPut? { QueuedMore(s.queue, m, id); }
      if s.posters[p].PCheck? && s.stopping {
        NotGone(s, m.id);
        GoneMore(s.h.done, m, id);
      }
    }
  }

  lemma HasWaits(posters: map<Caller, PosterPc>, p: Caller, id: Id)
    requires p in posters && PosterHas(posters[p], id)
    ensures Waiting(posters, id)
  {
  }

  lemma NotGone(s: State, id: Id)
    requires Copies(s, id) == 0 || (InHand(s.worker, id) && Copies(s, id) <= 1)
    ensures id !in s.h.done.dropped
  {
  }

  lemma {:induction false} StopperOnce(s: State, c: Caller, empty: bool)
    requires OnceOk(s) && c in s.stoppers
    ensures OnceOk(NextStopper(s, c, empty))
  {
    hide OfId, Gone, Waiting;
    var s' := NextStopper(s, c, empty);
    forall id: Id ensures OneOf(s', id) {
      assert OneOf(s, id);
      QueuedMore(s.queue, StopMessage, id);
    }
  }

  /** The worker's step moves messages but makes and loses none. */
  lemma SameCopies(s: State, s': State)
    requires OnceOk(s) && s'.posters == s.posters && s'.h.used == s.h.used
    requires forall id: Id :: Copies(s', id) == Copies(s, id)
    ensures OnceOk(s')
  {
    hide Copies, Waiting;
    forall id: Id ensures OneOf(s', id) { assert OneOf(s, id); }
  }

  lemma {:induction false} HandleCopies(s: State, acquired: bool, id: Id)
    requires s.worker.Handling?
    ensures Copies(Handle(s, s.worker.m, acquired), id) == Copies(s, id)
  {
    hide OfId, Gone;
    if !s.worker.m.StopMessage? { GoneOn(s.h.done, s.worker.m.id, id); }
  }

  lemma {:induction false} PutBackCopies(s: State, id: Id)
    requires PuttingBack(s.worker) && OnceOk(s)
    ensures Copies(PutBack(s), id) == Copies(s, id)
  {
    hide OfId, Gone, Waiting;
    if s.worker.RCheck? && !s.worker.m.StopMessage? {
      assert OneOf(s, s.worker.m.id);
      NotGone(s, s.worker.m.id);
      GoneMore(s.h.done, s.worker.m, id);
    }
    if s.worker.RPut? { QueuedMore(s.queue, s.worker.m, id); }
  }

  lemma {:induction false} WindCopies(s: State, empty: bool, id: Id)
    requires Winding(s.worker)
    ensures Copies(Wind(s, empty), id) == Copies(s, id)
  {
    hide OfId, Gone;
  }

  lemma {:induction false} TurnCopies(s: State, acquired: bool, id: Id)
    requires OnceOk(s) && !Winding(s.worker)
    ensures Copies(Turn(s, acquired), id) == Copies(s, id)
  {
    hide OnceOk, OfId, Gone, Handle, PutBack;
    if s.worker.Handling? { HandleCopies(s, acquired, id); }
    else if PuttingBack(s.worker) { PutBackCopies(s, id); }
    else if s.worker.Dequeue? && |s.queue| > 0 { QueuedLess(s.queue, id); }
  }

  lemma {:induction false} WorkerCopies(s: State, empty: bool, acquired: bool, id: Id)
    requires OnceOk(s)
    ensures Copies(NextWorker(s, empty, acquired), id) == Copies(s, id)
  {
    hide OnceOk, Copies, Wind, Turn;
    if Winding(s.worker) { WindCopies(s, empty, id); } else { TurnCopies(s, acquired, id); }
  }

  lemma {:induction false} StepOnce(s: State, step: Step)
    requires Inv(s) && OnceOk(s) && Enabled(s, step)
    ensures OnceOk(Next(s, step))
  {
    hide Inv, Enabled, NextPoster, NextStopper, NextWorker, OnceOk;
    match step {
      case Post(p, m) => PostOnce(s, p, m);
      case PosterStep(p) =>
        InvParts(s);
        PosterOnce(s, p);
      case CallStop(c, safe) => CallStopOnce(s, c, safe);
      case StopperStep(c, empty) =>
        AreCallers(s, step);
        StopperOnce(s, c, empty);
      case WorkerStep(empty, acquired) =>
        InvParts(s);
        forall id: Id ensures Copies(NextWorker(s, empty, acquired), id) == Copies(s, id) {
          WorkerCopies(s, empty, acquired, id);
        }
        SameCopies(s, NextWorker(s, empty, acquired));
    }
  }

  lemma InvParts(s: State)
    requires Inv(s)
    ensures PhasesOk(s) && PostersFresh(s)
  {
  }

  lemma AreCallers(s: State, step: Step)
    requires Enabled(s, step)
    ensures step.StopperStep? ==> step.c in s.stoppers
  {
  }

  lemma CallStopOnce(s: State, c: Caller, safe: bool)
    requires OnceOk(s) && Enabled(s, CallStop(c, safe))
    ensures OnceOk(Next(s, CallStop(c, safe)))
  {
    hide OfId, Gone, Waiting;
    forall id: Id ensures OneOf(Next(s, CallStop(c, safe)), id) { assert OneOf(s, id); }
  }

  lemma QueueMore(used: map<Id, Msg>, q: seq<Msg>, m: Msg)
    requires QueueKnown(used, q) && Known(used, m)
    ensures QueueKnown(used, q + [m])
  {
  }

  lemma QueueLess(used: map<Id, Msg>, q: seq<Msg>)
    requires QueueKnown(used, q) && q != []
    ensures QueueKnown(used, q[1..]) && Known(used, q[0])
  {
  }

  lemma DoneMore(used: map<Id, Msg>, done: Done, m: Msg)
    requires DoneKnown(used, done) && Known(used, m) && !m.StopMessage?
    ensures m.Timed? ==> DoneKnown(used, done.PutOff(m.id))
    ensures !m.Timed? ==> DoneKnown(used, done.Process(m.id))
    ensures DoneKnown(used, done.Drop(m))
  {
  }

  lemma PosterMoves(used: map<Id, Msg>, posters: map<Caller, PosterPc>, p: Caller, pc: PosterPc)
    requires PostersKnown(used, posters) && (pc.PIdle? || Known(used, pc.m))
    ensures PostersKnown(used, posters[p := pc])
  {
  }

  lemma {:induction false} HandleKinds(s: State, acquired: bool)
    requires s.worker.Handling? && KindsOk(s)
    ensures KindsOk(Handle(s, s.worker.m, acquired))
  {
    hide UsedOk, PostersKnown, QueueKnown, DoneKnown;
    if !s.worker.m.StopMessage? { DoneMore(s.h.used, s.h.done, s.worker.m); }
  }

  lemma {:induction false} PutBackKinds(s: State)
    requires PuttingBack(s.worker) && KindsOk(s)
    ensures KindsOk(PutBack(s))
  {
    hide UsedOk, PostersKnown, QueueKnown, DoneKnown, Known;
    if s.worker.RPut? { QueueMore(s.h.used, s.queue, s.worker.m); }
    if s.worker.RCheck? && !s.worker.m.StopMessage? { DoneMore(s.h.used, s.h.done, s.worker.m); }
  }

  lemma {:induction false} WindKinds(s: State, empty: bool)
    requires Winding(s.worker) && KindsOk(s)
    ensures KindsOk(Wind(s, empty))
  {
    hide UsedOk, PostersKnown, QueueKnown, DoneKnown, Known;
  }

  lemma {:induction false} TurnKinds(s: State, acquired: bool)
    requires !Winding(s.worker) && KindsOk(s)
    ensures KindsOk(Turn(s, acquired))
  {
    hide UsedOk, PostersKnown, QueueKnown, DoneKnown, Known, Handle, PutBack;
    if s.worker.Handling? { HandleKinds(s, acquired); }
    else if PuttingBack(s.worker) { PutBackKinds(s); }
    else if s.worker.Dequeue? && s.queue != [] { QueueLess(s.h.used, s.queue); }
  }

  lemma {:induction false} PosterKinds(s: State, p: Caller)
    requires KindsOk(s) && p in s.posters && !s.posters[p].PIdle?
    ensures KindsOk(NextPoster(s, p))
  {
    var m := s.posters[p].m;
    assert Known(s.h.used, m);
    hide UsedOk, PostersKnown, QueueKnown, DoneKnown, Known;
    PosterMoves(s.h.used, s.posters, p, NextPoster(s, p).posters[p]);
    if s.posters[p].PPut? { QueueMore(s.h.used, s.queue, m); }
    if s.posters[p].PCheck? && !m.StopMessage? { DoneMore(s.h.used, s.h.done, m); }
  }

  lemma {:induction false} StopperKinds(s: State, c: Caller, empty: bool)
    requires KindsOk(s) && c in s.stoppers
    ensures KindsOk(NextStopper(s, c, empty))
  {
    hide UsedOk, PostersKnown, QueueKnown, DoneKnown, NextStopper;
    StopperDone(s, c, empty);
    QueueMore(s.h.used, s.queue, StopMessage);
  }

  lemma StopperDone(s: State, c: Caller, empty: bool)
    requires c in s.stoppers
    ensures NextStopper(s, c, empty).h.done == s.h.done
  {
  }

  lemma {:induction false} PostKinds(s: State, p: Caller, m: Msg)
    requires KindsOk(s) && Enabled(s, Post(p, m))
    ensures KindsOk(Next(s, Post(p, m)))
  {
  }

  lemma CallStopKinds(s: State, c: Caller, safe: bool)
    requires KindsOk(s) && Enabled(s, CallStop(c, safe))
    ensures KindsOk(Next(s, CallStop(c, safe)))
  {
    hide UsedOk, PostersKnown, QueueKnown, DoneKnown, HandKnown;
  }

  lemma {:induction false} StepKinds(s: State, step: Step)
    requires KindsOk(s) && Enabled(s, step)
    ensures KindsOk(Next(s, step))
  {
    hide KindsOk, NextPoster, NextStopper, Wind, Turn, EmptyAnswers;
    match step {
      case Post(p, m) => PostKinds(s, p, m);
      case PosterStep(p) => PosterKinds(s, p);
      case CallStop(c, safe) => CallStopKinds(s, c, safe);
      case StopperStep(c, empty) => StopperKinds(s, c, empty);
      case WorkerStep(empty, acquired) =>
        if Winding(s.worker) { WindKinds(s, empty); } else { TurnKinds(s, acquired); }
    }
  }

  /** A step in which no poster's call ends. */
  lemma HandedStays(s: State, s': State)
    requires HandedOk(s) && s'.h.used == s.h.used && s'.h.returned == s.h.returned && s'.posters == s.posters
    requires s.h.done.dropped <= s'.h.done.dropped && (s'.h.done.dropped != s.h.done.dropped ==> s.stopping)
    requires s.stopping ==> s'.stopping
    ensures HandedOk(s')
  {
  }

  lemma {:induction false} TurnDrops(s: State, acquired: bool)
    ensures var s' := Turn(s, acquired);
      s.h.done.dropped <= s'.h.done.dropped && (s'.h.done.dropped != s.h.done.dropped ==> s.stopping)
  {
    hide Handle, PutBack;
  }

  lemma {:induction false} PosterHanded(s: State, p: Caller)
    requires HandedOk(s) && p in s.posters && !s.posters[p].PIdle?
    ensures HandedOk(NextPoster(s, p))
  {
    var s' := NextPoster(s, p);
    forall id <- s'.h.used | s'.h.used[id] == Plain(id)
      ensures WithPoster(s'.posters, Plain(id)) || id in s'.h.returned || id in s'.h.done.dropped
    {
      if WithPoster(s.posters, Plain(id)) {
        var q :| q in s.posters && !s.posters[q].PIdle? && s.posters[q].m == Plain(id);
        if !s'.posters[q].PIdle? { assert s'.posters[q].m == Plain(id); }
      }
    }
  }

  lemma {:induction false} PostHanded(s: State, p: Caller, m: Msg)
    requires HandedOk(s) && Enabled(s, Post(p, m))
    ensures HandedOk(Next(s, Post(p, m)))
  {
    var s' := Next(s, Post(p, m));
    forall id <- s'.h.used | s'.h.used[id] == Plain(id)
      ensures WithPoster(s'.posters, Plain(id)) || id in s'.h.returned || id in s'.h.done.dropped
    {
      assert s'.posters[p].m == m;
      if q :| q in s.posters && !s.posters[q].PIdle? && s.posters[q].m == Plain(id) {
        assert s'.posters[q].m == Plain(id);
      }
    }
  }

  lemma {:induction false} StepHanded(s: State, step: Step)
    requires HandedOk(s) && Enabled(s, step)
    ensures HandedOk(Next(s, step))
  {
    hide HandedOk, NextPoster, NextStopper, Wind, Turn, EmptyAnswers;
    match step {
      case Post(p, m) => PostHanded(s, p, m);
      case PosterStep(p) => PosterHanded(s, p);
      case CallStop(c, safe) => HandedStays(s, Next(s, step));
      case StopperStep(c, empty) =>
        StopperDone(s, c, empty);
        HandedStays(s, Next(s, step));
      case WorkerStep(empty, acquired) =>
        TurnDrops(s, acquired);
        HandedStays(s, Next(s, step));
    }
  }

  lemma {:induction false} StepKeepsOnce(s: State, step: Step)
    requires Inv(s) && Once(s) && Enabled(s, step)
    ensures Once(Next(s, step))
  {
    hide Inv, OnceOk, KindsOk, HandedOk, Enabled, Next;
    StepOnce(s, step);
    StepKinds(s, step);
    StepHanded(s, step);
  }

  // ---------------------------------------------------------------------
  // Runs
  // ---------------------------------------------------------------------

  lemma {:induction false} RunOnce(states: seq<State>, steps: seq<Step>, k: nat)
    requires IsRun(states, steps) && k <= |steps|
    ensures Once(states[k])
  {
    hide Inv, Once, Enabled, Next, Init;
    if k == 0 {
      InitOnce(states[0]);
    } else {
      RunOnce(states, steps, k - 1);
      RunKeepsInv(states, steps, k - 1);
      assert Enabled(states[k - 1], steps[k - 1]) && Next(states[k - 1], steps[k - 1]) == states[k];
      StepKeepsOnce(states[k - 1], steps[k - 1]);
    }
  }

  /** Conservation: in every run, of every message posted, plain, timed or serial, there is
      one: with its poster, in the queue, in the worker's hand, processed, put off or dropped;
      of what was not posted there is none. */
  lemma {:induction false} InOnePlace(states: seq<State>, steps: seq<Step>, k: nat, id: Id)
    requires IsRun(states, steps) && k <= |steps|
    ensures (if Waiting(states[k].posters, id) then 1 else 0) + Copies(states[k], id) ==
      if id in states[k].h.used then 1 else 0
    ensures multiset(states[k].h.done.processed)[id] > 0 ==> !states[k].h.used[id].Timed?
    ensures multiset(states[k].h.done.timed)[id] > 0 ==> states[k].h.used[id].Timed?
    ensures states[k].h.done.dropped != {} ==> states[k].stopping
  {
    hide Enabled, Next, Init, Inv, Copies, Waiting;
    RunOnce(states, steps, k);
    RunKeepsInv(states, steps, k);
    assert OneOf(states[k], id);
    WaitingIsUsed(states[k], id);
  }

  lemma WaitingIsUsed(s: State, id: Id)
    requires Inv(s)
    ensures Waiting(s.posters, id) ==> id in s.h.used
  {
    hide PhasesOk, QueueAnnounced, StopAnnounced, HeldOk, ReturnedKept, SendingQueued, EarlyFirst;
  }

  /** Until stop is called nothing is refused: a plain message is with its poster, or its call
      of enqueue has returned having queued it. */
  lemma {:induction false} KeptUntilStop(states: seq<State>, steps: seq<Step>, j: nat, k: nat, p: Caller, id: Id)
    requires IsRun(states, steps) && j < k <= |steps| && steps[j] == Post(p, Plain(id)) && !states[k].stopping
    ensures WithPoster(states[k].posters, Plain(id)) || id in states[k].h.returned
  {
    hide Init, Inv, OnceOk, KindsOk, NextPoster, NextStopper, NextWorker;
    assert Enabled(states[j], steps[j]) && Next(states[j], steps[j]) == states[j + 1];
    StillUsed(states, steps, j + 1, k, id);
    RunOnce(states, steps, k);
  }

  lemma {:induction false} StillUsed(states: seq<State>, steps: seq<Step>, j: nat, k: nat, id: Id)
    requires IsRun(states, steps) && j <= k <= |steps| && id in states[j].h.used
    ensures id in states[k].h.used && states[k].h.used[id] == states[j].h.used[id]
  {
    hide Init, NextPoster, NextStopper, NextWorker, EmptyAnswers;
    if j < k {
      StillUsed(states, steps, j, k - 1, id);
      assert Enabled(states[k - 1], steps[k - 1]) && Next(states[k - 1], steps[k - 1]) == states[k];
      UsedStays(states[k - 1], steps[k - 1]);
    }
  }

  lemma {:induction false} UsedStays(s: State, step: Step)
    requires Enabled(s, step)
    ensures forall id <- s.h.used :: id in Next(s, step).h.used && Next(s, step).h.used[id] == s.h.used[id]
  {
    hide NextWorker, EmptyAnswers;
  }

  /** Safe stop: in every run, a plain message whose enqueue returned before stop was first
      called has been processed exactly once when the worker finalizes. */
  lemma {:induction false} EarlyRunsOnce(states: seq<State>, steps: seq<Step>, j: nat, i: nat, k: nat,
                                         p: Caller, id: Id, c: Caller, safe: bool)
    requires IsRun(states, steps) && j < i < k <= |steps|
    requires steps[j] == PosterStep(p) && p in states[j].posters && states[j].posters[p] == PSend(Plain(id))
    requires steps[i] == CallStop(c, safe) && !states[i].stopping
    requires states[k].worker.Finalizing? || states[k].worker.Finished?
    ensures multiset(states[k].h.done.processed)[id] == 1 == Copies(states[k], id)
  {
    hide IsRun, Waiting;
    EarlyIsProcessed(states, steps, j, i, k, p, id, c, safe);
    InOnePlace(states, steps, k, id);
  }

  // ---------------------------------------------------------------------
  // Calls return
  // ---------------------------------------------------------------------

  function PosterRank(pc: PosterPc): nat {
    match pc case PIdle => 0 case PSend(_) => 1 case PPut(_) => 2 case PCheck(_) => 3
  }

  function StopperRank(pc: StopperPc): nat {
    match pc
    case TIdle => 0
    case TSend => 1
    case TPut => 2
    case TEmpty(_, _) => 3
    case TLoad => 4
    case TRunning(_) => 5
  }

  /** A caller's own steps, at most three of enqueue and five of stop, bring its call to its
      end; nobody else's step moves it. */
  lemma {:induction false} PosterReturns(s: State, p: Caller)
    requires p in s.posters && !s.posters[p].PIdle?
    ensures var s' := NextPoster(s, p);
      && p in s'.posters && PosterRank(s'.posters[p]) < PosterRank(s.posters[p])
      && s'.posters == s.posters[p := s'.posters[p]]
  {
  }

  lemma {:induction false} StopperReturns(s: State, c: Caller, empty: bool)
    requires c in s.stoppers && !s.stoppers[c].TIdle?
    ensures var s' := NextStopper(s, c, empty);
      && c in s'.stoppers && StopperRank(s'.stoppers[c]) < StopperRank(s.stoppers[c])
      && s'.stoppers == s.stoppers[c := s'.stoppers[c]]
  {
  }

  lemma {:induction false} EnqueueReturns(s: State, step: Step, p: Caller)
    requires Enabled(s, step) && p in s.posters && !s.posters[p].PIdle?
    ensures p in Next(s, step).posters
    ensures if step == PosterStep(p) then PosterRank(Next(s, step).posters[p]) < PosterRank(s.posters[p])
      else Next(s, step).posters[p] == s.posters[p]
  {
    hide NextWorker, NextStopper, NextPoster, EmptyAnswers;
    if step.PosterStep? { PosterReturns(s, step.p); }
  }

  lemma {:induction false} StopReturns(s: State, step: Step, c: Caller)
    requires Enabled(s, step) && c in s.stoppers && !s.stoppers[c].TIdle?
    ensures c in Next(s, step).stoppers
    ensures if step.StopperStep? && step.c == c
      then StopperRank(Next(s, step).stoppers[c]) < StopperRank(s.stoppers[c])
      else Next(s, step).stoppers[c] == s.stoppers[c]
  {
    hide NextWorker, NextPoster, NextStopper, EmptyAnswers;
    if step.StopperStep? { StopperReturns(s, step.c, step.empty); }
  }

  /** From just after step i to state k the caller is in the call of stop that step i begins,
      and the worker runs. */
  ghost predicate StopCall(states: seq<State>, steps: seq<Step>, i: nat, k: nat, c: Caller, safe: bool) {
    && i + 1 < k < |states| && k <= |steps| && steps[i] == CallStop(c, safe)
    && forall n | i < n < k :: c in states[n].stoppers && !states[n].stoppers[c].TIdle? && states[n].running
  }

  /** The call has come to queueing a stop message. */
  ghost predicate Puts(states: seq<State>, i: nat, n: nat, c: Caller)
    requires n < |states|
  {
    exists m | i < m <= n :: c in states[m].stoppers && states[m].stoppers[c].TPut?
  }

  predicate Answer(s: State, step: Step, c: Caller) {
    c in s.stoppers && s.stoppers[c].TEmpty? && step == StopperStep(c, true)
  }

  /** empty() has told the call that the queue is empty. */
  ghost predicate Told(states: seq<State>, steps: seq<Step>, i: nat, n: nat, c: Caller)
    requires n < |states| && n <= |steps|
  {
    exists m | i < m < n :: Answer(states[m], steps[m], c)
  }

  /** How far the call is, when put and told say what it has done so far. */
  predicate Phase(pc: StopperPc, safe: bool, put: bool, told: bool) {
    match pc
    case TRunning(x) => x == safe && !put && !told
    case TPut => put && (safe <==> told)
    case TSend => put && (safe <==> told)
    case TIdle => put <==> !safe || told
    case _ => safe && !put && !told
  }

  lemma PhaseStep(s: State, c: Caller, empty: bool, safe: bool, put: bool, told: bool)
    requires c in s.stoppers && !s.stoppers[c].TIdle? && s.running && Phase(s.stoppers[c], safe, put, told)
    ensures c in NextStopper(s, c, empty).stoppers
    ensures var pc := NextStopper(s, c, empty).stoppers[c];
      Phase(pc, safe, put || pc.TPut?, told || (s.stoppers[c].TEmpty? && empty))
  {
  }

  lemma {:induction false} PhaseOn(s: State, step: Step, c: Caller, safe: bool, put: bool, told: bool)
    requires Enabled(s, step) && c in s.stoppers && !s.stoppers[c].TIdle? && s.running
    requires Phase(s.stoppers[c], safe, put, told)
    requires s.stoppers[c].TPut? ==> put
    ensures c in Next(s, step).stoppers
    ensures var pc := Next(s, step).stoppers[c]; Phase(pc, safe, put || pc.TPut?, told || Answer(s, step, c))
  {
    hide Next, Phase;
    StopReturns(s, step, c);
    if step.StopperStep? && step.c == c {
      PhaseStep(s, c, step.empty, safe, put, told);
      assert Next(s, step) == NextStopper(s, c, step.empty) by { IsStopperStep(s, step); }
    }
  }

  lemma IsStopperStep(s: State, step: Step)
    requires Enabled(s, step) && step.StopperStep?
    ensures Next(s, step) == NextStopper(s, step.c, step.empty)
  {
    hide NextStopper, NextPoster, NextWorker;
  }

  lemma {:induction false} StopPhase(states: seq<State>, steps: seq<Step>, i: nat, k: nat, c: Caller, safe: bool,
                                     n: nat)
    requires IsRun(states, steps) && StopCall(states, steps, i, k, c, safe) && i < n < k
    ensures Phase(states[n].stoppers[c], safe, Puts(states, i, n, c), Told(states, steps, i, n, c))
    ensures states[n].stoppers[c].TPut? ==> Puts(states, i, n, c)
  {
    hide Init, Enabled, Next, Phase, Puts, Told, Answer;
    assert Enabled(states[n - 1], steps[n - 1]) && Next(states[n - 1], steps[n - 1]) == states[n];
    if n > i + 1 {
      StopPhase(states, steps, i, k, c, safe, n - 1);
      PhaseOn(states[n - 1], steps[n - 1], c, safe, Puts(states, i, n - 1, c), Told(states, steps, i, n - 1, c));
      MoreSeen(states, steps, i, n, c);
    } else {
      StopBegins(states, steps, i, c, safe);
    }
  }

  lemma StopBegins(states: seq<State>, steps: seq<Step>, i: nat, c: Caller, safe: bool)
    requires i + 1 < |states| && i + 1 <= |steps| && steps[i] == CallStop(c, safe)
    requires Enabled(states[i], steps[i]) && Next(states[i], steps[i]) == states[i + 1]
    ensures c in states[i + 1].stoppers && states[i + 1].stoppers[c] == TRunning(safe)
    ensures Phase(states[i + 1].stoppers[c], safe, Puts(states, i, i + 1, c), Told(states, steps, i, i + 1, c))
    ensures !states[i + 1].stoppers[c].TPut?
  {
    hide NextStopper, NextPoster, NextWorker;
  }

  lemma MoreSeen(states: seq<State>, steps: seq<Step>, i: nat, n: nat, c: Caller)
    requires i + 1 < n < |states| && n <= |steps|
    ensures Puts(states, i, n, c) <==>
      Puts(states, i, n - 1, c) || (c in states[n].stoppers && states[n].stoppers[c].TPut?)
    ensures Told(states, steps, i, n, c) <==> Told(states, steps, i, n - 1, c) || Answer(states[n - 1], steps[n - 1], c)
  {
    hide Answer;
  }

  /** An unsafe stop of a running worker queues a stop message; a safe one just when empty()
      tells it that the queue is empty. */
  lemma StopPutsIff(states: seq<State>, steps: seq<Step>, i: nat, k: nat, c: Caller, safe: bool)
    requires IsRun(states, steps) && StopCall(states, steps, i, k, c, safe)
    requires c in states[k].stoppers && states[k].stoppers[c].TIdle?
    ensures Puts(states, i, k, c) <==> !safe || Told(states, steps, i, k, c)
  {
    hide Init, Enabled, Next, Puts, Told, Answer;
    StopPhase(states, steps, i, k, c, safe, k - 1);
    assert Enabled(states[k - 1], steps[k - 1]) && Next(states[k - 1], steps[k - 1]) == states[k];
    PhaseOn(states[k - 1], steps[k - 1], c, safe, Puts(states, i, k - 1, c), Told(states, steps, i, k - 1, c));
    MoreSeen(states, steps, i, k, c);
  }

  predicate ToldToEnd(s: State) {
    s.loopDone || s.worker == Handling(StopMessage)
  }

  lemma {:induction false} WorkerStillTold(s: State, empty: bool, acquired: bool)
    requires ToldToEnd(s)
    ensures NextWorker(s, empty, acquired).loopDone
  {
    hide PutBack;
  }

  lemma {:induction false} StillTold(s: State, step: Step)
    requires Enabled(s, step) && ToldToEnd(s)
    ensures ToldToEnd(Next(s, step))
  {
    hide NextWorker, EmptyAnswers;
    if step.WorkerStep? { WorkerStillTold(s, step.empty, step.acquired); }
  }

  /** A worker that has come to a stop message never sleeps again, and nor does one whose loop
      was told to stop. */
  lemma {:induction false} NeverSleepsAgain(states: seq<State>, steps: seq<Step>, j: nat, k: nat)
    requires IsRun(states, steps) && j <= k <= |steps| && ToldToEnd(states[j])
    ensures ToldToEnd(states[k]) && !states[k].worker.Asleep?
  {
    hide Init, Enabled, Next, Inv;
    RunKeepsInv(states, steps, k);
    InvParts(states[k]);
    if j < k {
      NeverSleepsAgain(states, steps, j, k - 1);
      assert Enabled(states[k - 1], steps[k - 1]) && Next(states[k - 1], steps[k - 1]) == states[k];
      StillTold(states[k - 1], steps[k - 1]);
    }
  }

  // ---------------------------------------------------------------------
  // The worker empties its queue
  // ---------------------------------------------------------------------

  /** What the worker has still to deal with. */
  function Left(s: State): nat {
    |s.queue| + if s.worker.RPut? then 2 else if s.worker.RCheck? then 3 else 0
  }

  predicate Lower(s': State, s: State) {
    || Left(s') < Left(s)
    || (Left(s') == Left(s) && Signals(s') < Signals(s))
    || (Left(s') == Left(s) && Signals(s') == Signals(s) && Rank(s'.worker) < Rank(s.worker))
  }

  lemma {:induction false} AwakeStep(s: State)
    requires s.worker.Asleep? ==> s.signal
    requires PhasesOk(s) && !s.stopping && !s.loopDone && !s.worker.Finished? && !s.worker.Finalizing?
    ensures Enabled(s, WorkerStep(|s.queue| == 0, true))
    ensures Lower(NextWorker(s, |s.queue| == 0, true), s)
  {
  }

  /** Working(s): reachable, no call under way, and nobody has called stop. */
  ghost predicate Working(s: State) {
    Inv(s) && Once(s) && Quiescent(s) && !s.stopping
  }

  ghost predicate Drains(path: seq<State>) {
    && path != []
    && forall i | 0 <= i < |path| - 1 :: WorkerMove(path[i], true, path[i + 1])
  }

  /** With no call under way and no stop the worker on its own, its tokens letting it, comes
      to sleep, and then every message ever posted has been processed, or put off, once. */
  lemma {:induction false} DrainEnds(s: State) returns (path: seq<State>)
    requires Working(s)
    ensures Drains(path) && path[0] == s
    ensures var t := path[|path| - 1];
      && t.worker.Asleep? && !t.signal && t.queue == [] && t.h.used == s.h.used
      && forall id <- s.h.used ::
        (if s.h.used[id].Timed? then multiset(t.h.done.timed)[id] else multiset(t.h.done.processed)[id]) == 1
    decreases Left(s), Signals(s), Rank(s.worker)
  {
    hide Inv, Once, NextWorker, Enabled, Quiescent;
    Facts(s);
    if s.worker.Asleep? && !s.signal {
      path := [s];
      AllGone(s);
    } else {
      AwakeStep(s);
      var step := WorkerStep(|s.queue| == 0, true);
      StepKeepsInv(s, step);
      StepKeepsOnce(s, step);
      var s' := NextWorker(s, |s.queue| == 0, true);
      SameCallers(s, s');
      var rest := DrainEnds(s');
      path := [s] + rest;
      assert WorkerMove(s, true, s');
      forall i | 0 <= i < |path| - 1 ensures WorkerMove(path[i], true, path[i + 1]) {
        if i > 0 { assert WorkerMove(rest[i - 1], true, rest[i]); }
      }
    }
  }

  lemma SameCallers(s: State, s': State)
    requires Quiescent(s) && s'.posters == s.posters && s'.stoppers == s.stoppers
    ensures Quiescent(s')
  {
  }

  lemma Facts(s: State)
    requires Working(s)
    ensures PhasesOk(s) && !s.loopDone && !s.worker.Finished? && !s.worker.Finalizing?
    ensures s.worker != Handling(StopMessage)
    ensures s.worker.Asleep? && !s.signal ==> s.queue == []
  {
    hide Once, StopAnnounced, HeldOk, ReturnedKept, SendingQueued, PostersFresh;
    assert !PosterSending(s) && !StopperSending(s);
  }

  lemma AllGone(s: State)
    requires Working(s) && s.worker.Asleep? && s.queue == []
    ensures forall id <- s.h.used ::
      (if s.h.used[id].Timed? then multiset(s.h.done.timed)[id] else multiset(s.h.done.processed)[id]) == 1
  {
    hide Inv;
    forall id <- s.h.used
      ensures (if s.h.used[id].Timed? then multiset(s.h.done.timed)[id] else multiset(s.h.done.processed)[id]) == 1
    {
      assert OneOf(s, id) && !Waiting(s.posters, id);
      assert id in s.h.done.processed ==> !s.h.used[id].Timed?;
      assert id in s.h.done.timed ==> s.h.used[id].Timed?;
    }
  }
}
