/** Stopping a handler_thread whose worker is in its event loop.

    Posters, callers of stop() and the worker share the queue, the stopping flag
    and the async event; each load, store, queue operation and send is one step.
    The queue is an atomic FIFO, and the async event is a lossless wake-up. empty()
    answers as the queue's two loads do: to the worker, the sole consumer, what held
    at one moment (ConsumerAnswer in LockFreeQueueEmpty); to a caller of stop true at
    any time (EmptyMisleads in LockFreeQueueMisled), and false only if the queue held
    something at some moment of the call. */
module SafeStop {

  type Caller = nat
  type Id = nat

  /** Plain: untimed and token-free.  A timed message goes to the timer wheel, a serial one
      is processed or put back, as its token answers. */
  datatype Msg = Plain(id: Id) | Timed(id: Id) | Serial(id: Id) | StopMessage

  datatype PosterPc = PIdle | PCheck(m: Msg) | PPut(m: Msg) | PSend(m: Msg)

  /** While stop() asks whether the queue is empty: what was so at its first load. */
  datatype StopperPc = TIdle | TRunning(safe: bool) | TLoad | TEmpty(held: bool, count: nat) | TPut | TSend

  datatype WorkerPc =
    | Asleep
    | Dequeue
    | Handling(m: Msg)
    | RCheck(m: Msg)
    | RPut(m: Msg)
    | RSend
    | CheckStop
    | CheckEmpty
    | Decide(empty: bool)
    | Back
    | Finalizing
    | Finished

  /** What has become of messages: processed, handed to the timer wheel, dropped. */
  datatype Done = Done(processed: seq<Id>, timed: seq<Id>, dropped: set<Id>) {
    function Process(id: Id): Done {
      Done(processed + [id], timed, dropped)
    }

    function PutOff(id: Id): Done {
      Done(processed, timed + [id], dropped)
    }

    function Drop(m: Msg): Done {
      if m.StopMessage? then this else Done(processed, timed, dropped + {m.id})
    }
  }

  /** History, read by no step: what has become of messages, the plain ones whose enqueue
      returned having queued them, all that were posted, what had returned when stop was
      first called, and how many messages were ever queued. */
  datatype History = History(done: Done, returned: set<Id>, used: map<Id, Msg>, early: set<Id>, count: nat)

  /** `loopDone` is set by ev_break. */
  datatype State = State(
    queue: seq<Msg>,
    stopping: bool,
    running: bool,
    signal: bool,
    loopDone: bool,
    posters: map<Caller, PosterPc>,
    stoppers: map<Caller, StopperPc>,
    worker: WorkerPc,
    h: History)

  datatype Step =
    | Post(p: Caller, m: Msg)
    | PosterStep(p: Caller)
    | CallStop(c: Caller, safe: bool)
    | StopperStep(c: Caller, empty: bool)
    | WorkerStep(empty: bool, acquired: bool)

  /** The message at the end belongs to a call that has not returned. */
  ghost predicate LastUnreturned(s: State) {
    && |s.queue| == 1
    && ((exists p :: p in s.posters && s.posters[p] == PSend(s.queue[0]))
        || (s.queue[0] == StopMessage && exists c :: c in s.stoppers && s.stoppers[c].TSend?))
  }

  /** What empty() may answer to the worker. */
  ghost predicate EmptyAnswers(s: State, empty: bool) {
    if empty then |s.queue| == 0 || LastUnreturned(s) else |s.queue| > 0
  }

  /** The queue has held something since the caller of stop made its first load. */
  predicate HasHeld(s: State, pc: StopperPc) {
    pc.TEmpty? && (pc.held || pc.count < s.h.count)
  }

  ghost predicate Enabled(s: State, step: Step) {
    match step
    case Post(p, m) => p in s.posters && s.posters[p].PIdle? && !m.StopMessage? && m.id !in s.h.used
    case PosterStep(p) => p in s.posters && !s.posters[p].PIdle?
    case CallStop(c, _) => c in s.stoppers && s.stoppers[c].TIdle?
    case StopperStep(c, empty) =>
      c in s.stoppers && !s.stoppers[c].TIdle? && (s.stoppers[c].TEmpty? && !empty ==> HasHeld(s, s.stoppers[c]))
    case WorkerStep(empty, _) =>
      && !s.worker.Finished?
      && (s.worker.Asleep? ==> s.signal)
      && (s.worker.CheckEmpty? ==> EmptyAnswers(s, empty))
  }

  function NextPoster(s: State, p: Caller): (r: State)
    requires p in s.posters && !s.posters[p].PIdle?
    ensures r.stopping == s.stopping && r.h.early == s.h.early && s.h.returned <= r.h.returned
    ensures r.worker == s.worker && r.loopDone == s.loopDone && r.running == s.running && r.stoppers == s.stoppers
  {
    match s.posters[p] {
      case PIdle => s
      case PCheck(m) =>
        if s.stopping then s.(posters := s.posters[p := PIdle], h := s.h.(done := s.h.done.Drop(m)))
        else s.(posters := s.posters[p := PPut(m)])
      case PPut(m) => s.(queue := s.queue + [m], h := s.h.(count := s.h.count + 1), posters := s.posters[p := PSend(m)])
      case PSend(m) =>
        s.(signal := true, posters := s.posters[p := PIdle],
           h := if m.Plain? then s.h.(returned := s.h.returned + {m.id}) else s.h)
    }
  }

  function NextStopper(s: State, c: Caller, empty: bool): (r: State)
    requires c in s.stoppers
    ensures r.stopping == s.stopping && r.h.early == s.h.early && r.h.returned == s.h.returned && r.h.used == s.h.used
    ensures r.worker == s.worker && r.loopDone == s.loopDone && r.running == s.running && r.posters == s.posters
    ensures r.h.done.processed == s.h.done.processed
    ensures r.queue == if s.stoppers[c].TPut? then s.queue + [StopMessage] else s.queue
  {
    match s.stoppers[c] {
      case TIdle => s
      case TRunning(safe) =>
        s.(stoppers := s.stoppers[c := if !s.running then TIdle else if safe then TLoad else TPut])
      case TLoad => s.(stoppers := s.stoppers[c := TEmpty(|s.queue| > 0, s.h.count)])
      case TEmpty(_, _) => s.(stoppers := s.stoppers[c := if empty then TPut else TIdle])
      case TPut =>
        s.(queue := s.queue + [StopMessage], h := s.h.(count := s.h.count + 1), stoppers := s.stoppers[c := TSend])
      case TSend => s.(signal := true, stoppers := s.stoppers[c := TIdle])
    }
  }

  /** Between the last dequeue of a callback and the next wake-up. */
  predicate PastDrain(w: WorkerPc) {
    w.Asleep? || w.CheckStop? || w.CheckEmpty? || w.Decide? || w.Back?
  }

  function Handle(s: State, m: Msg, acquired: bool): (r: State)
    ensures r.posters == s.posters && r.stoppers == s.stoppers && r.queue == s.queue
    ensures r.stopping == s.stopping && r.signal == s.signal
    ensures r.h.early == s.h.early && r.h.returned == s.h.returned && r.h.used == s.h.used
    ensures r.running == s.running && (r.worker.Dequeue? || (r.worker.RCheck? && r.worker.m == m && m.Serial?))
    ensures r.loopDone ==> s.loopDone || m.StopMessage?
    ensures r.h.count == s.h.count && r.h.done.dropped == s.h.done.dropped
  {
    match m
    case Plain(id) => s.(h := s.h.(done := s.h.done.Process(id)), worker := Dequeue)
    case Timed(id) => s.(h := s.h.(done := s.h.done.PutOff(id)), worker := Dequeue)
    case Serial(id) =>
      if acquired then s.(h := s.h.(done := s.h.done.Process(id)), worker := Dequeue) else s.(worker := RCheck(m))
    case StopMessage => s.(loopDone := true, worker := Dequeue)
  }

  /** With the queue drained, on the way to sleep or to the end. */
  predicate Winding(w: WorkerPc) {
    w.CheckStop? || w.CheckEmpty? || w.Decide? || w.Back?
  }

  function Wind(s: State, empty: bool): (r: State)
    ensures r.posters == s.posters && r.stoppers == s.stoppers && r.stopping == s.stopping && r.h == s.h
    ensures r.queue == s.queue && r.signal == s.signal && r.running == s.running
  {
    match s.worker
    case CheckStop => s.(worker := if s.stopping then CheckEmpty else Back)
    case CheckEmpty => s.(worker := Decide(empty))
    case Decide(e) => s.(loopDone := s.loopDone || e, worker := Back)
    case Back => s.(worker := if s.loopDone then Finalizing else Asleep)
    case _ => s
  }

  predicate PuttingBack(w: WorkerPc) {
    w.RCheck? || w.RPut? || w.RSend?
  }

  /** handler_thread::enqueue, called by the worker itself. */
  function PutBack(s: State): (r: State)
    ensures r.posters == s.posters && r.stoppers == s.stoppers && r.stopping == s.stopping
    ensures r.h.early == s.h.early && r.h.returned == s.h.returned && r.h.used == s.h.used && r.h.count >= s.h.count
    ensures r.running == s.running && r.loopDone == s.loopDone
    ensures r.h.done.processed == s.h.done.processed && r.h.done.timed == s.h.done.timed
    ensures s.h.done.dropped <= r.h.done.dropped && (r.h.done.dropped != s.h.done.dropped ==> s.stopping)
    ensures PuttingBack(s.worker) ==>
      r.worker.Dequeue? || r.worker == RSend || (s.worker.RCheck? && !s.stopping && r.worker == RPut(s.worker.m))
  {
    match s.worker
    case RCheck(m) =>
      if s.stopping then s.(worker := Dequeue, h := s.h.(done := s.h.done.Drop(m))) else s.(worker := RPut(m))
    case RPut(m) => s.(queue := s.queue + [m], h := s.h.(count := s.h.count + 1), worker := RSend)
    case RSend => s.(signal := true, worker := Dequeue)
    case _ => s
  }

  function Turn(s: State, acquired: bool): (r: State)
    ensures r.posters == s.posters && r.stoppers == s.stoppers && r.stopping == s.stopping
    ensures r.h.early == s.h.early && r.h.returned == s.h.returned && r.h.used == s.h.used && r.h.count >= s.h.count
    ensures !Winding(s.worker) ==> !r.worker.Asleep? && !r.worker.Back? && !r.worker.Decide?
  {
    match s.worker
    case Asleep => s.(signal := false, worker := Dequeue)
    case Dequeue =>
      if |s.queue| == 0 then s.(worker := CheckStop)
      else s.(queue := s.queue[1..], worker := Handling(s.queue[0]))
    case Handling(m) => Handle(s, m, acquired)
    case Finalizing => s.(running := false, worker := Finished)
    case _ => if PuttingBack(s.worker) then PutBack(s) else s
  }

  function NextWorker(s: State, empty: bool, acquired: bool): (r: State)
    ensures r.posters == s.posters && r.stoppers == s.stoppers && r.stopping == s.stopping
    ensures r.h.early == s.h.early && r.h.returned == s.h.returned && r.h.used == s.h.used && r.h.count >= s.h.count
  {
    if Winding(s.worker) then Wind(s, empty) else Turn(s, acquired)
  }

  function Next(s: State, step: Step): State
    requires Enabled(s, step)
  {
    match step {
      case Post(p, m) => s.(posters := s.posters[p := PCheck(m)], h := s.h.(used := s.h.used[m.id := m]))
      case PosterStep(p) => NextPoster(s, p)
      case CallStop(c, safe) =>
        s.(stopping := true, h := s.h.(early := if s.stopping then s.h.early else s.h.returned),
           stoppers := s.stoppers[c := TRunning(safe)])
      case StopperStep(c, empty) => NextStopper(s, c, empty)
      case WorkerStep(empty, acquired) => NextWorker(s, empty, acquired)
    }
  }

  /** The worker is asleep in its loop; nothing was posted and stop was not called. */
  predicate Init(s: State) {
    && s.queue == [] && !s.stopping && s.running && !s.signal && !s.loopDone
    && (forall p <- s.posters :: s.posters[p].PIdle?)
    && (forall c <- s.stoppers :: s.stoppers[c].TIdle?)
    && s.worker == Asleep
    && s.h == History(Done([], [], {}), {}, map[], {}, 0)
  }

  // ---------------------------------------------------------------------
  // Invariant
  // ---------------------------------------------------------------------

  ghost predicate PosterSending(s: State) {
    exists p :: p in s.posters && s.posters[p].PSend?
  }

  ghost predicate StopperSending(s: State) {
    exists c :: c in s.stoppers && s.stoppers[c].TSend?
  }

  ghost predicate StopUnderWay(s: State) {
    exists c :: c in s.stoppers && !s.stoppers[c].TIdle?
  }

  /** A message queued behind the worker's back has announced itself, or will. */
  ghost predicate QueueAnnounced(s: State) {
    PastDrain(s.worker) && |s.queue| > 0 ==> s.signal || PosterSending(s) || StopperSending(s)
  }

  /** A stop that the worker did not see has announced itself, or will. */
  ghost predicate StopAnnounced(s: State) {
    s.stopping && (s.worker.Asleep? || s.worker.Back?) && !s.loopDone ==>
      s.signal || PosterSending(s) || StopUnderWay(s)
  }

  /** While some stop() may answer that the queue is not empty, or the worker has found so,
      a worker that is going to sleep leaves something in the queue. */
  ghost predicate HeldOk(s: State) {
    && (forall c <- s.stoppers :: s.stoppers[c].TEmpty? ==> s.stoppers[c].count <= s.h.count)
    && (SomeHeld(s) && (s.worker.Asleep? || s.worker.Back?) && !s.loopDone ==> |s.queue| > 0)
    && (s.worker == Decide(false) ==> |s.queue| > 0)
  }

  ghost predicate SomeHeld(s: State) {
    exists c :: c in s.stoppers && HasHeld(s, s.stoppers[c])
  }

  predicate Held(s: State, id: Id) {
    Plain(id) in s.queue || s.worker == Handling(Plain(id))
  }

  /** Each plain message whose enqueue returned is processed, queued or in hand. */
  predicate ReturnedKept(s: State) {
    && s.h.early <= s.h.returned <= s.h.used.Keys
    && (!s.stopping ==> s.h.early == {})
    && forall id <- s.h.returned :: id in s.h.done.processed || Held(s, id)
  }

  /** A message still in a poster's hands has an id of its own. */
  predicate PostersFresh(s: State) {
    && (forall p <- s.posters :: !s.posters[p].PIdle? ==>
          !s.posters[p].m.StopMessage? && s.posters[p].m.id in s.h.used && s.posters[p].m.id !in s.h.returned)
    && Distinct(s.posters)
  }

  predicate Distinct(posters: map<Caller, PosterPc>) {
    forall p <- posters, q <- posters :: SameId(posters[p], posters[q]) ==> p == q
  }

  predicate SameId(a: PosterPc, b: PosterPc) {
    !a.PIdle? && !b.PIdle? && !a.m.StopMessage? && !b.m.StopMessage? && a.m.id == b.m.id
  }

  /** The loop was told to stop, or is about to be. */
  predicate Ending(s: State) {
    s.loopDone || s.worker == Handling(StopMessage) || s.worker == Decide(true)
  }

  /** No early message waits behind a stop message, or after the loop was told to stop. */
  predicate EarlyFirst(s: State) {
    && (forall i, j | 0 <= i < j < |s.queue| :: s.queue[i].StopMessage? && s.queue[j].Plain? ==>
      s.queue[j].id !in s.h.early)
    && (Ending(s) ==> forall id <- s.h.early :: !Held(s, id))
    && (!s.stopping ==> StopMessage !in s.queue && !Ending(s))
  }

  /** A plain message that was queued by a call still to return is kept as well. */
  predicate SendingQueued(s: State) {
    forall p <- s.posters :: s.posters[p].PSend? && s.posters[p].m.Plain? ==>
      s.posters[p].m.id in s.h.done.processed || Held(s, s.posters[p].m.id)
  }

  predicate PhasesOk(s: State) {
    && (s.running <==> !s.worker.Finished?)
    && (s.worker.Finalizing? || s.worker.Finished? ==> s.loopDone)
    && (s.worker.Asleep? ==> !s.loopDone)
    && (s.worker.CheckEmpty? || s.worker.Decide? ==> s.stopping)
    && (!s.stopping ==> forall c <- s.stoppers :: s.stoppers[c].TIdle?)
    && (s.worker.RCheck? || s.worker.RPut? ==> s.worker.m.Serial?)
  }

  ghost predicate Inv(s: State) {
    && PhasesOk(s)
    && QueueAnnounced(s)
    && StopAnnounced(s)
    && HeldOk(s)
    && ReturnedKept(s)
    && SendingQueued(s)
    && PostersFresh(s)
    && EarlyFirst(s)
  }

  lemma InitInv(s: State)
    requires Init(s)
    ensures Inv(s)
  {
  }

  lemma {:induction false} PostKeepsInv(s: State, p: Caller, m: Msg)
    requires Inv(s) && Enabled(s, Post(p, m))
    ensures Inv(Next(s, Post(p, m)))
  {
    var s' := Next(s, Post(p, m));
    SendersStay(s, s', p);
  }

  /** Posters other than p, and all stoppers, are where they were. */
  lemma SendersStay(s: State, s': State, p: Caller)
    requires p in s.posters && p in s'.posters && s'.posters == s.posters[p := s'.posters[p]] &&
      s'.stoppers == s.stoppers
    requires s.posters[p].PSend? ==> s'.signal
    ensures PosterSending(s) ==> PosterSending(s') || s'.signal
    ensures StopperSending(s) ==> StopperSending(s')
    ensures StopUnderWay(s) ==> StopUnderWay(s')
  {
    if PosterSending(s) {
      var q :| q in s.posters && s.posters[q].PSend?;
      if q != p { assert s'.posters[q].PSend?; }
    }
    if StopperSending(s) {
      var c :| c in s.stoppers && s.stoppers[c].TSend?;
      assert s'.stoppers[c].TSend?;
    }
    if StopUnderWay(s) {
      var c :| c in s.stoppers && !s.stoppers[c].TIdle?;
      assert !s'.stoppers[c].TIdle?;
    }
  }

  lemma {:induction false} PosterKeepsAnnounced(s: State, p: Caller)
    requires Enabled(s, PosterStep(p)) && QueueAnnounced(s) && StopAnnounced(s)
    ensures QueueAnnounced(NextPoster(s, p)) && StopAnnounced(NextPoster(s, p))
  {
    var s' := NextPoster(s, p);
    SendersStay(s, s', p);
    if s.posters[p].PPut? { assert s'.posters[p].PSend?; }
  }

  /** A longer queue still holds what it held. */
  lemma HeldStays(s: State, s': State)
    requires s.queue <= s'.queue && s'.worker == s.worker && s'.h.done.processed == s.h.done.processed
    ensures forall id :: Held(s, id) ==> Held(s', id)
  {
    assert forall m <- s.queue :: m in s'.queue;
  }

  lemma {:induction false} PosterKeepsKept(s: State, p: Caller)
    requires Enabled(s, PosterStep(p)) && ReturnedKept(s) && PostersFresh(s) && SendingQueued(s)
    ensures var s' := NextPoster(s, p); ReturnedKept(s') && SendingQueued(s')
  {
    hide Held;
    var s' := NextPoster(s, p);
    HeldStays(s, s');
    if s.posters[p].PPut? && s.posters[p].m.Plain? {
      assert Held(s', s.posters[p].m.id) by { LastIsHeld(s, s', s.posters[p].m); }
    }
  }

  lemma LastIsHeld(s: State, s': State, m: Msg)
    requires s'.queue == s.queue + [m] && m.Plain?
    ensures Held(s', m.id)
  {
    assert s'.queue[|s.queue|] == m;
  }

  lemma DistinctStays(posters: map<Caller, PosterPc>, p: Caller, pc: PosterPc)
    requires Distinct(posters) && p in posters
    requires pc.PIdle? || (!posters[p].PIdle? && pc.m == posters[p].m)
    ensures Distinct(posters[p := pc])
  {
    var posters' := posters[p := pc];
    forall q <- posters', r <- posters' | SameId(posters'[q], posters'[r]) ensures q == r {
      assert SameId(posters[q], posters[r]);
    }
  }

  lemma {:induction false} PosterKeepsFresh(s: State, p: Caller)
    requires Enabled(s, PosterStep(p)) && PostersFresh(s)
    ensures PostersFresh(NextPoster(s, p))
  {
    hide Distinct;
    var s' := NextPoster(s, p);
    DistinctStays(s.posters, p, s'.posters[p]);
    forall q <- s.posters | q != p && !s.posters[q].PIdle? ensures s.posters[q].m.id != s.posters[p].m.id {
      DistinctApart(s.posters, p, q);
    }
  }

  lemma DistinctApart(posters: map<Caller, PosterPc>, p: Caller, q: Caller)
    requires Distinct(posters) && p in posters && q in posters && p != q
    ensures !SameId(posters[p], posters[q])
  {
  }

  lemma {:induction false} PosterKeepsEarlyFirst(s: State, p: Caller)
    requires Enabled(s, PosterStep(p)) && ReturnedKept(s) && PostersFresh(s) && EarlyFirst(s)
    ensures EarlyFirst(NextPoster(s, p))
  {
    var s' := NextPoster(s, p);
    if s.posters[p].PPut? { EarlyFirstGrows(s, s', s.posters[p].m); }
  }

  /** Queueing a message that is not early keeps the early ones in front. */
  lemma {:induction false} EarlyFirstGrows(s: State, s': State, m: Msg)
    requires EarlyFirst(s) && s'.queue == s.queue + [m]
    requires m.Plain? ==> m.id !in s.h.early
    requires m.StopMessage? ==> s.stopping
    requires s'.h.early == s.h.early && s'.stopping == s.stopping && s'.loopDone == s.loopDone
    requires s'.worker == s.worker || (!s'.worker.Handling? && !s.worker.Handling?)
    requires Ending(s') ==> Ending(s)
    ensures EarlyFirst(s')
  {
    forall i, j | 0 <= i < j < |s'.queue| && s'.queue[i].StopMessage? && s'.queue[j].Plain?
      ensures s'.queue[j].id !in s'.h.early
    {
      if j < |s.queue| { assert s.queue[i] == s'.queue[i] && s.queue[j] == s'.queue[j]; }
    }
    forall id <- s.h.early | Held(s', id) ensures Held(s, id) {
      assert m != Plain(id);
      assert Plain(id) in s'.queue ==> Plain(id) in s.queue;
    }
    if StopMessage in s'.queue { assert StopMessage in s.queue || m == StopMessage; }
  }

  /** A step of a caller: another one may make its first load of empty(). */
  lemma CallerKeepsHeld(s: State, s': State)
    requires HeldOk(s) && s'.worker == s.worker && s'.loopDone == s.loopDone
    requires (s'.queue == s.queue && s'.h.count == s.h.count) || (|s'.queue| > 0 && s'.h.count == s.h.count + 1)
    requires forall c <- s'.stoppers :: s'.stoppers[c].TEmpty? ==>
      (c in s.stoppers && s'.stoppers[c] == s.stoppers[c]) || s'.stoppers[c] == TEmpty(|s.queue| > 0, s.h.count)
    ensures HeldOk(s')
  {
    if SomeHeld(s') && s'.h.count == s.h.count {
      var c :| c in s'.stoppers && HasHeld(s', s'.stoppers[c]);
      assert s'.stoppers[c].held || HasHeld(s, s.stoppers[c]);
      if c in s.stoppers && s'.stoppers[c] == s.stoppers[c] { assert HasHeld(s, s.stoppers[c]); }
    }
  }

  /** A step of the worker after which it is not on its way to sleep. */
  lemma BusyKeepsHeld(s: State, s': State)
    requires HeldOk(s) && s'.stoppers == s.stoppers && s'.h.count >= s.h.count
    requires !s'.worker.Asleep? && !s'.worker.Back? && s'.worker != Decide(false)
    ensures HeldOk(s')
  {
  }

  /** A step of the worker on its way to sleep. */
  lemma SleepyKeepsHeld(s: State, s': State)
    requires HeldOk(s) && s'.stoppers == s.stoppers && s'.h.count == s.h.count && s'.queue == s.queue
    requires SomeHeld(s) && (s'.worker.Asleep? || s'.worker.Back?) && !s'.loopDone ==> |s.queue| > 0
    requires s'.worker == Decide(false) ==> |s.queue| > 0
    ensures HeldOk(s')
  {
    if SomeHeld(s') {
      var c :| c in s'.stoppers && HasHeld(s', s'.stoppers[c]);
      assert HasHeld(s, s.stoppers[c]);
    }
  }

  lemma NobodyAsks(s: State)
    requires PhasesOk(s) && SomeHeld(s)
    ensures s.stopping
  {
  }

  lemma {:induction false} WindKeepsHeld(s: State, empty: bool, acquired: bool)
    requires Winding(s.worker) && Enabled(s, WorkerStep(empty, acquired)) && PhasesOk(s) && HeldOk(s)
    ensures HeldOk(Wind(s, empty))
  {
    hide LastUnreturned, HeldOk, SomeHeld, PhasesOk;
    HeldSays(s);
    if SomeHeld(s) { NobodyAsks(s); }
    SleepyKeepsHeld(s, Wind(s, empty));
  }

  lemma {:induction false} WorkerKeepsHeld(s: State, empty: bool, acquired: bool)
    requires Enabled(s, WorkerStep(empty, acquired)) && PhasesOk(s) && HeldOk(s)
    ensures HeldOk(NextWorker(s, empty, acquired))
  {
    hide EmptyAnswers, HeldOk, Turn, PhasesOk, Wind;
    if Winding(s.worker) { WindKeepsHeld(s, empty, acquired); } else { BusyKeepsHeld(s, Turn(s, acquired)); }
  }

  lemma HeldSays(s: State)
    requires HeldOk(s)
    ensures SomeHeld(s) && (s.worker.Asleep? || s.worker.Back?) && !s.loopDone ==> |s.queue| > 0
    ensures s.worker == Decide(false) ==> |s.queue| > 0
  {
  }

  lemma {:induction false} PosterKeepsInv(s: State, p: Caller)
    requires Inv(s) && Enabled(s, PosterStep(p))
    ensures Inv(NextPoster(s, p))
  {
    hide QueueAnnounced, StopAnnounced, HeldOk, ReturnedKept, SendingQueued, PostersFresh, EarlyFirst;
    PosterKeepsAnnounced(s, p);
    CallerKeepsHeld(s, NextPoster(s, p));
    PosterKeepsKept(s, p);
    PosterKeepsFresh(s, p);
    PosterKeepsEarlyFirst(s, p);
  }

  lemma {:induction false} CallStopKeepsInv(s: State, c: Caller, safe: bool)
    requires Inv(s) && Enabled(s, CallStop(c, safe))
    ensures Inv(Next(s, CallStop(c, safe)))
  {
    var s' := Next(s, CallStop(c, safe));
    assert !s'.stoppers[c].TIdle?;
    StoppersStay(s, s', c);
  }

  /** Stoppers other than c, and all posters, are where they were. */
  lemma StoppersStay(s: State, s': State, c: Caller)
    requires c in s.stoppers && c in s'.stoppers && s'.stoppers == s.stoppers[c := s'.stoppers[c]] &&
      s'.posters == s.posters
    requires s.stoppers[c].TSend? ==> s'.signal
    ensures PosterSending(s) ==> PosterSending(s')
    ensures StopperSending(s) ==> StopperSending(s') || s'.signal
    ensures StopUnderWay(s) ==> StopUnderWay(s') || s'.stoppers[c].TIdle?
  {
    if PosterSending(s) {
      var p :| p in s.posters && s.posters[p].PSend?;
      assert s'.posters[p].PSend?;
    }
    if StopperSending(s) {
      var d :| d in s.stoppers && s.stoppers[d].TSend?;
      if d != c { assert s'.stoppers[d].TSend?; }
    }
    if StopUnderWay(s) {
      assert c in s'.stoppers;
    }
  }

  lemma {:induction false} StopperKeepsAnnounced(s: State, c: Caller, empty: bool)
    requires Enabled(s, StopperStep(c, empty)) && PhasesOk(s) && QueueAnnounced(s) && StopAnnounced(s) && HeldOk(s)
    ensures var s' := NextStopper(s, c, empty); QueueAnnounced(s') && StopAnnounced(s')
  {
    var s' := NextStopper(s, c, empty);
    StoppersStay(s, s', c);
    if s.stoppers[c].TPut? { assert s'.stoppers[c].TSend?; }
    if !s'.stoppers[c].TIdle? { assert StopUnderWay(s'); }
    if s.stoppers[c].TEmpty? {
      if StopperSending(s') {
        var d :| d in s'.stoppers && s'.stoppers[d].TSend?;
        assert !s'.stoppers[d].TIdle?;
      }
      assert !empty ==> HasHeld(s, s.stoppers[c]);
    }
  }

  lemma {:induction false} StopperKeepsMessages(s: State, c: Caller, empty: bool)
    requires Enabled(s, StopperStep(c, empty)) && s.stopping
    requires ReturnedKept(s) && SendingQueued(s) && PostersFresh(s) && EarlyFirst(s)
    ensures var s' := NextStopper(s, c, empty);
      ReturnedKept(s') && SendingQueued(s') && PostersFresh(s') && EarlyFirst(s')
  {
    hide EarlyFirst, Held, Distinct, NextStopper;
    var s' := NextStopper(s, c, empty);
    HeldStays(s, s');
    if s.stoppers[c].TPut? { EarlyFirstGrows(s, s', StopMessage); } else { EarlyFirstSame(s, s'); }
  }

  lemma {:induction false} StopperKeepsInv(s: State, c: Caller, empty: bool)
    requires Inv(s) && Enabled(s, StopperStep(c, empty))
    ensures Inv(NextStopper(s, c, empty))
  {
    hide QueueAnnounced, StopAnnounced, HeldOk, ReturnedKept, SendingQueued, PostersFresh, EarlyFirst;
    StopperKeepsAnnounced(s, c, empty);
    CallerKeepsHeld(s, NextStopper(s, c, empty));
    StopperKeepsMessages(s, c, empty);
  }

  lemma EarlyFirstSame(s: State, s': State)
    requires EarlyFirst(s) && s'.queue == s.queue && s'.h.early == s.h.early && s'.stopping == s.stopping
    requires s'.loopDone == s.loopDone && s'.worker == s.worker
    ensures EarlyFirst(s')
  {
    assert forall id :: Held(s', id) == Held(s, id);
  }

  lemma SendersSame(s: State, s': State)
    requires s'.posters == s.posters && s'.stoppers == s.stoppers
    ensures PosterSending(s') == PosterSending(s) && StopperSending(s') == StopperSending(s)
    ensures StopUnderWay(s') == StopUnderWay(s)
    ensures StopperSending(s) ==> StopUnderWay(s)
  {
    if StopperSending(s) {
      var c :| c in s.stoppers && s.stoppers[c].TSend?;
      assert !s.stoppers[c].TIdle?;
    }
  }

  lemma QueueStaysAnnounced(s: State, s': State)
    requires QueueAnnounced(s) && s'.posters == s.posters && s'.stoppers == s.stoppers
    requires PastDrain(s'.worker) && |s'.queue| > 0 ==>
      PastDrain(s.worker) && |s.queue| > 0 && (s.signal ==> s'.signal)
    ensures QueueAnnounced(s')
  {
    hide PosterSending, StopperSending, StopUnderWay;
    SendersSame(s, s');
  }

  lemma {:induction false} WorkerKeepsQueueAnnounced(s: State, empty: bool, acquired: bool)
    requires Enabled(s, WorkerStep(empty, acquired)) && QueueAnnounced(s)
    ensures QueueAnnounced(NextWorker(s, empty, acquired))
  {
    hide QueueAnnounced, Handle, PutBack, EmptyAnswers;
    if Winding(s.worker) {
      QueueStaysAnnounced(s, Wind(s, empty));
    } else {
      hide Wind;
      QueueStaysAnnounced(s, Turn(s, acquired));
    }
  }

  lemma {:induction false} WorkerKeepsStopAnnounced(s: State, empty: bool, acquired: bool)
    requires Enabled(s, WorkerStep(empty, acquired)) && QueueAnnounced(s) && StopAnnounced(s) && HeldOk(s)
    ensures StopAnnounced(NextWorker(s, empty, acquired))
  {
    hide PosterSending, StopperSending, StopUnderWay, Handle, LastUnreturned;
    SendersSame(s, NextWorker(s, empty, acquired));
  }

  lemma {:induction false} DequeueKeepsEarly(s: State)
    requires s.worker.Dequeue? && |s.queue| > 0 && ReturnedKept(s) && SendingQueued(s) && EarlyFirst(s)
    ensures var s' := Turn(s, false); ReturnedKept(s') && SendingQueued(s') && EarlyFirst(s')
  {
    var s' := Turn(s, false);
    var m := s.queue[0];
    assert s.queue == [m] + s'.queue;
    assert forall x :: x in s.queue <==> x == m || x in s'.queue;
    assert forall id :: Held(s, id) <==> Held(s', id);
    forall i, j | 0 <= i < j < |s'.queue| && s'.queue[i].StopMessage? && s'.queue[j].Plain?
      ensures s'.queue[j].id !in s'.h.early
    {
      assert s.queue[i + 1] == s'.queue[i] && s.queue[j + 1] == s'.queue[j];
    }
    if m == StopMessage {
      forall j | 0 <= j < |s'.queue| && s'.queue[j].Plain? ensures s'.queue[j].id !in s.h.early {
        assert s.queue[0].StopMessage? && s.queue[j + 1] == s'.queue[j];
      }
    }
  }

  lemma {:induction false} HandleKeepsEarly(s: State, acquired: bool)
    requires s.worker.Handling? && ReturnedKept(s) && SendingQueued(s) && EarlyFirst(s)
    ensures var s' := Handle(s, s.worker.m, acquired); ReturnedKept(s') && SendingQueued(s') && EarlyFirst(s')
  {
    var s' := Handle(s, s.worker.m, acquired);
    HandledIsProcessed(s, acquired);
    hide Held;
  }

  lemma HandledIsProcessed(s: State, acquired: bool)
    requires s.worker.Handling?
    ensures var s' := Handle(s, s.worker.m, acquired);
      && (forall id :: id in s.h.done.processed ==> id in s'.h.done.processed)
      && (forall id :: Held(s, id) ==> Held(s', id) || id in s'.h.done.processed)
      && (forall id :: Held(s', id) ==> Held(s, id))
  {
    var s' := Handle(s, s.worker.m, acquired);
    assert s.h.done.processed <= s'.h.done.processed;
    if s.worker.m.Plain? { assert s'.h.done.processed[|s.h.done.processed|] == s.worker.m.id; }
  }

  lemma {:induction false} RequeueKeepsEarly(s: State)
    requires s.worker.RPut? && s.worker.m.Serial? && ReturnedKept(s) && SendingQueued(s) && EarlyFirst(s)
    ensures var s' := Turn(s, false); ReturnedKept(s') && SendingQueued(s') && EarlyFirst(s')
  {
    var s' := Turn(s, false);
    assert forall id :: Held(s, id) <==> Held(s', id);
    EarlyFirstGrows(s, s', s.worker.m);
  }

  /** When empty() answers yes no early message is queued. */
  lemma {:induction false} EmptyMeansNoEarly(s: State)
    requires EmptyAnswers(s, true) && PostersFresh(s) && ReturnedKept(s)
    ensures forall id <- s.h.early :: Plain(id) !in s.queue
  {
    if |s.queue| > 0 && s.queue[0].Plain? {
      var p :| p in s.posters && s.posters[p] == PSend(s.queue[0]);
      assert s.queue[0].id !in s.h.returned;
    }
  }

  /** A step that moves no message and sets loopDone only when it may. */
  lemma {:induction false} QuietWorkerStep(s: State, s': State)
    requires ReturnedKept(s) && SendingQueued(s) && EarlyFirst(s)
    requires s'.queue == s.queue && s'.h.done.processed == s.h.done.processed
    requires s'.h.early == s.h.early && s'.h.returned == s.h.returned
    requires s'.h.used == s.h.used && s'.posters == s.posters && s'.stopping == s.stopping
    requires !s.worker.Handling? && !s'.worker.Handling?
    requires Ending(s') ==> Ending(s) || (s.stopping && forall id <- s.h.early :: Plain(id) !in s.queue)
    ensures ReturnedKept(s') && SendingQueued(s') && EarlyFirst(s')
  {
    assert forall id :: Held(s', id) == Held(s, id);
  }

  lemma {:induction false} WindKeepsPhases(s: State, empty: bool)
    requires Winding(s.worker) && PhasesOk(s)
    ensures PhasesOk(Wind(s, empty))
  {
  }

  lemma {:induction false} TurnKeepsPhases(s: State, acquired: bool)
    requires !Winding(s.worker) && PhasesOk(s)
    ensures PhasesOk(Turn(s, acquired))
  {
    hide Handle, PutBack;
  }

  lemma {:induction false} WindKeepsMessages(s: State, empty: bool, acquired: bool)
    requires Winding(s.worker) && Enabled(s, WorkerStep(empty, acquired)) && PhasesOk(s)
    requires ReturnedKept(s) && SendingQueued(s) && PostersFresh(s) && EarlyFirst(s)
    ensures var s' := Wind(s, empty); ReturnedKept(s') && SendingQueued(s') && EarlyFirst(s')
  {
    hide EarlyFirst, ReturnedKept, SendingQueued, PostersFresh, EmptyAnswers;
    if s.worker.CheckEmpty? && empty { EmptyMeansNoEarly(s); }
    QuietWorkerStep(s, Wind(s, empty));
  }

  lemma {:induction false} TurnKeepsMessages(s: State, acquired: bool)
    requires !Winding(s.worker) && !s.worker.Finished? && PhasesOk(s)
    requires ReturnedKept(s) && SendingQueued(s) && PostersFresh(s) && EarlyFirst(s)
    ensures var s' := Turn(s, acquired); ReturnedKept(s') && SendingQueued(s') && EarlyFirst(s')
  {
    hide EarlyFirst, ReturnedKept, SendingQueued, PostersFresh;
    if s.worker.Handling? { HandleKeepsEarly(s, acquired); }
    else if s.worker.Dequeue? && |s.queue| > 0 { DequeueKeepsEarly(s); }
    else if s.worker.RPut? { RequeueKeepsEarly(s); }
    else { QuietWorkerStep(s, Turn(s, acquired)); }
  }

  lemma {:induction false} WorkerKeepsMessages(s: State, empty: bool, acquired: bool)
    requires Enabled(s, WorkerStep(empty, acquired)) && PhasesOk(s)
    requires ReturnedKept(s) && SendingQueued(s) && PostersFresh(s) && EarlyFirst(s)
    ensures var s' := NextWorker(s, empty, acquired);
      PhasesOk(s') && ReturnedKept(s') && SendingQueued(s') && EarlyFirst(s')
  {
    hide EarlyFirst, ReturnedKept, SendingQueued, PostersFresh, PhasesOk, EmptyAnswers, Wind, Turn;
    if Winding(s.worker) {
      WindKeepsPhases(s, empty);
      WindKeepsMessages(s, empty, acquired);
    } else {
      TurnKeepsPhases(s, acquired);
      TurnKeepsMessages(s, acquired);
    }
  }

  lemma {:induction false} WorkerKeepsInv(s: State, empty: bool, acquired: bool)
    requires Inv(s) && Enabled(s, WorkerStep(empty, acquired))
    ensures Inv(NextWorker(s, empty, acquired))
  {
    hide QueueAnnounced, StopAnnounced, HeldOk, EarlyFirst, ReturnedKept, SendingQueued, PostersFresh, PhasesOk,
      NextWorker;
    WorkerKeepsHeld(s, empty, acquired);
    WorkerKeepsQueueAnnounced(s, empty, acquired);
    WorkerKeepsStopAnnounced(s, empty, acquired);
    WorkerKeepsMessages(s, empty, acquired);
    FreshSame(s, NextWorker(s, empty, acquired));
  }

  lemma FreshSame(s: State, s': State)
    requires PostersFresh(s) && s'.posters == s.posters && s'.h.used == s.h.used && s'.h.returned == s.h.returned
    ensures PostersFresh(s')
  {
  }

  lemma {:induction false} StepKeepsInv(s: State, step: Step)
    requires Inv(s) && Enabled(s, step)
    ensures Inv(Next(s, step))
  {
    hide Inv;
    match step {
      case Post(p, m) => PostKeepsInv(s, p, m);
      case PosterStep(p) => PosterKeepsInv(s, p);
      case CallStop(c, safe) => CallStopKeepsInv(s, c, safe);
      case StopperStep(c, empty) => StopperKeepsInv(s, c, empty);
      case WorkerStep(empty, acquired) => WorkerKeepsInv(s, empty, acquired);
    }
  }

  // ---------------------------------------------------------------------
  // Runs
  // ---------------------------------------------------------------------

  ghost predicate IsRun(states: seq<State>, steps: seq<Step>) {
    && |states| == |steps| + 1
    && Init(states[0])
    && forall i | 0 <= i < |steps| :: Enabled(states[i], steps[i]) && Next(states[i], steps[i]) == states[i + 1]
  }

  lemma {:induction false} RunKeepsInv(states: seq<State>, steps: seq<Step>, k: nat)
    requires IsRun(states, steps) && k <= |steps|
    ensures Inv(states[k])
  {
    hide Inv, Enabled, Next, Init;
    if k == 0 {
      InitInv(states[0]);
    } else {
      RunKeepsInv(states, steps, k - 1);
      assert Enabled(states[k - 1], steps[k - 1]) && Next(states[k - 1], steps[k - 1]) == states[k];
      StepKeepsInv(states[k - 1], steps[k - 1]);
    }
  }

  /** Nothing is taken back: what returned stays returned, and once stop was
      called the early messages are fixed. */
  lemma StepKeepsHistory(s: State, step: Step)
    requires Enabled(s, step)
    ensures var s' := Next(s, step);
      s.h.returned <= s'.h.returned && (s.stopping ==> s'.stopping && s'.h.early == s.h.early)
  {
    hide NextPoster, NextStopper, NextWorker;
  }

  lemma {:induction false} RunKeepsHistory(states: seq<State>, steps: seq<Step>, i: nat, k: nat)
    requires IsRun(states, steps) && i <= k <= |steps|
    ensures states[i].h.returned <= states[k].h.returned
    ensures states[i].stopping ==> states[k].stopping && states[k].h.early == states[i].h.early
  {
    hide Enabled, Next, Init;
    if i < k {
      RunKeepsHistory(states, steps, i, k - 1);
      assert Enabled(states[k - 1], steps[k - 1]) && Next(states[k - 1], steps[k - 1]) == states[k];
      StepKeepsHistory(states[k - 1], steps[k - 1]);
    }
  }

  /** Safe stop: in every run, an untimed token-free message whose enqueue returned
      before stop was first called is processed before the worker finalizes. */
  lemma {:induction false} EarlyIsProcessed(states: seq<State>, steps: seq<Step>, j: nat, i: nat, k: nat,
                          p: Caller, id: Id, c: Caller, safe: bool)
    requires IsRun(states, steps) && j < i < k <= |steps|
    requires steps[j] == PosterStep(p) && p in states[j].posters && states[j].posters[p] == PSend(Plain(id))
    requires steps[i] == CallStop(c, safe) && !states[i].stopping
    requires states[k].worker.Finalizing? || states[k].worker.Finished?
    ensures id in states[k].h.done.processed
  {
    hide Init, NextWorker, NextStopper;
    assert Enabled(states[j], steps[j]) && Next(states[j], steps[j]) == states[j + 1];
    assert id in states[j + 1].h.returned;
    RunKeepsHistory(states, steps, j + 1, i);
    assert Enabled(states[i], steps[i]) && Next(states[i], steps[i]) == states[i + 1];
    RunKeepsHistory(states, steps, i + 1, k);
    assert id in states[k].h.early;
    EarlyAtEnd(states, steps, k, id);
  }

  lemma {:induction false} EarlyAtEnd(states: seq<State>, steps: seq<Step>, k: nat, id: Id)
    requires IsRun(states, steps) && k <= |steps|
    requires states[k].worker.Finalizing? || states[k].worker.Finished?
    ensures id in states[k].h.early ==> id in states[k].h.done.processed
  {
    hide Enabled, Next, Init;
    RunKeepsInv(states, steps, k);
  }

  /** After stop: in every run, once a call of stop has been made and none is under
      way, a sleeping worker has a wake-up pending or one about to be sent. */
  lemma {:induction false} NeverLeftAsleep(states: seq<State>, steps: seq<Step>, k: nat)
    requires IsRun(states, steps) && k <= |steps|
    requires states[k].stopping && states[k].worker.Asleep? && !StopUnderWay(states[k])
    ensures states[k].signal || PosterSending(states[k])
  {
    hide Enabled, Next, Init;
    RunKeepsInv(states, steps, k);
  }

  // ---------------------------------------------------------------------
  // A stopped worker ends
  // ---------------------------------------------------------------------

  predicate Quiescent(s: State) {
    (forall p <- s.posters :: s.posters[p].PIdle?) && (forall c <- s.stoppers :: s.stoppers[c].TIdle?)
  }

  function Rank(w: WorkerPc): nat {
    match w {
      case RPut(_) => 10
      case Handling(_) => 9
      case RCheck(_) => 8
      case RSend => 8
      case Dequeue => 7
      case CheckStop => 6
      case CheckEmpty => 5
      case Decide(_) => 4
      case Back => 3
      case Asleep => 2
      case Finalizing => 1
      case Finished => 0
    }
  }

  function Queued(s: State): nat {
    |s.queue| + if s.worker.RPut? then 2 else 0
  }

  function Signals(s: State): nat {
    (if s.signal then 1 else 0) + if s.worker.RSend? then 1 else 0
  }

  predicate Less(s': State, s: State) {
    || Queued(s') < Queued(s)
    || (Queued(s') == Queued(s) && Signals(s') < Signals(s))
    || (Queued(s') == Queued(s) && Signals(s') == Signals(s) && Rank(s'.worker) < Rank(s.worker))
  }

  lemma {:induction false} WindProgress(s: State, empty: bool, acquired: bool)
    requires PhasesOk(s) && s.stopping && Winding(s.worker) && Enabled(s, WorkerStep(empty, acquired))
    requires HeldOk(s) && StopAnnounced(s) && QueueAnnounced(s) && !PosterSending(s) && !StopUnderWay(s)
    ensures Less(Wind(s, empty), s)
  {
    hide EmptyAnswers, HeldOk, StopAnnounced, QueueAnnounced;
  }

  lemma {:induction false} TurnProgress(s: State, acquired: bool)
    requires PhasesOk(s) && s.stopping && !Winding(s.worker) && !s.worker.Finished? && (s.worker.Asleep? ==> s.signal)
    ensures Less(Turn(s, acquired), s)
  {
  }

  /** After stop, with no call under way, the worker can always go on, and every
      step it can take brings it nearer to its end. */
  lemma {:induction false} WorkerProgress(s: State, empty: bool, acquired: bool)
    requires Inv(s) && s.stopping && Quiescent(s) && !s.worker.Finished?
    ensures Enabled(s, WorkerStep(|s.queue| == 0, acquired))
    ensures Enabled(s, WorkerStep(empty, acquired)) ==> Less(NextWorker(s, empty, acquired), s)
  {
    hide ReturnedKept, SendingQueued, PostersFresh, EarlyFirst, LastUnreturned, Less, Wind, Turn, HeldOk;
    assert !PosterSending(s) && !StopUnderWay(s);
    if Enabled(s, WorkerStep(empty, acquired)) {
      if Winding(s.worker) { WindProgress(s, empty, acquired); } else { TurnProgress(s, acquired); }
    }
  }

  /** A path of the worker alone; answers[n] says whether its n-th step acquires. */
  ghost predicate WorkerPath(path: seq<State>, answers: nat -> bool, n: nat) {
    && |path| > 0
    && forall i | 0 <= i < |path| - 1 :: WorkerMove(path[i], answers(n + i), path[i + 1])
  }

  ghost predicate WorkerMove(s: State, acquired: bool, s': State) {
    exists empty :: Enabled(s, WorkerStep(empty, acquired)) && NextWorker(s, empty, acquired) == s'
  }

  /** Stopping terminates: from every reachable state after a stop with no call
      under way, the worker on its own comes to its end, whatever the serial
      tokens answer, and every early message has been processed by then. */
  lemma {:induction false} StopEnds(s: State, answers: nat -> bool, n: nat) returns (path: seq<State>)
    requires Inv(s) && s.stopping && Quiescent(s)
    ensures WorkerPath(path, answers, n) && path[0] == s && path[|path| - 1].worker.Finished?
    ensures forall id <- s.h.early :: id in path[|path| - 1].h.done.processed
    decreases Queued(s), Signals(s), Rank(s.worker)
  {
    hide NextWorker, PhasesOk, QueueAnnounced, StopAnnounced, SendingQueued, PostersFresh, Enabled;
    if s.worker.Finished? {
      path := [s];
      EndKeepsEarly(s);
    } else {
      var empty, acquired := |s.queue| == 0, answers(n);
      WorkerProgress(s, empty, acquired);
      WorkerKeepsInv(s, empty, acquired);
      var s' := NextWorker(s, empty, acquired);
      assert WorkerMove(s, acquired, s');
      var rest := StopEnds(s', answers, n + 1);
      path := [s] + rest;
      forall i | 0 <= i < |path| - 1 ensures WorkerMove(path[i], answers(n + i), path[i + 1]) {
        if i > 0 { assert WorkerMove(rest[i - 1], answers(n + 1 + (i - 1)), rest[i]); }
      }
    }
  }

  lemma EndKeepsEarly(s: State)
    requires Inv(s) && s.worker.Finished?
    ensures forall id <- s.h.early :: id in s.h.done.processed
  {
  }
}
