/** What becomes of every message posted with or without a serial token: it is always in
    exactly one place, runs exactly once on the worker it was posted to, and with no worker
    stopping there is always a way for all of them to run. */
module SerialTokenFound {
  import opened SerialToken

  // ---------------------------------------------------------------------
  // Every message is where its place says
  // ---------------------------------------------------------------------

  /** m is in the hands, or in the queue, that p names. */
  predicate Holding(s: State, m: Msg, p: Place) {
    match p
    case WithPoster(q) => q in s.posters && s.posters[q].Posting? && s.posters[q].m == m
    case InQueue(w) => w in s.queues && m in s.queues[w]
    case InHand(w) => w in s.workers && !s.workers[w].Polling? && s.workers[w].m == m
    case _ => false
  }

  /** m is on its way to the worker it was posted to, or there, or done, or dropped because
      that worker is stopping. */
  predicate FoundOk(s: State, m: Msg)
    requires m in s.place
  {
    && m in s.target
    && match s.place[m]
       case WithPoster(p) => Holding(s, m, s.place[m]) && s.posters[p].to == s.target[m]
       case InQueue(w) => Holding(s, m, s.place[m]) && w == s.target[m]
       case InHand(w) => Holding(s, m, s.place[m]) && w == s.target[m]
       case Done => true
       case Dropped => s.target[m] in s.stopping
  }

  ghost predicate AllFound(s: State) {
    forall m <- s.place :: FoundOk(s, m)
  }

  /** Every number that was handed out belongs to a message. */
  ghost predicate AllPosted(s: State) {
    forall t, n: nat | t in s.tokens && n < s.tokens[t].current :: Serial(t, n) in s.place
  }

  function Count(log: seq<Event>, e: Event): nat {
    if log == [] then 0 else Count(log[..|log| - 1], e) + if log[|log| - 1] == e then 1 else 0
  }

  lemma CountMore(log: seq<Event>, e: Event, f: Event)
    ensures Count(log + [e], f) == Count(log, f) + if e == f then 1 else 0
  {
    assert (log + [e])[..|log|] == log;
  }

  /** How often the callable of m has started, and how often it has finished. */
  function Begun(s: State, m: Msg): nat {
    if m !in s.place then 0 else
      match s.place[m]
      case Done => 1
      case InHand(w) => if w in s.workers && (s.workers[w].Running? || s.workers[w].Releasing?) then 1 else 0
      case _ => 0
  }

  function Ended(s: State, m: Msg): nat {
    if m !in s.place then 0 else
      match s.place[m]
      case Done => 1
      case InHand(w) => if w in s.workers && s.workers[w].Releasing? then 1 else 0
      case _ => 0
  }

  predicate RunOk(s: State, m: Msg) {
    Count(s.log, Started(m)) == Begun(s, m) && Count(s.log, Finished(m)) == Ended(s, m)
  }

  ghost predicate AllRun(s: State) {
    forall m: Msg :: RunOk(s, m)
  }

  ghost predicate Found(s: State) {
    AllFound(s) && AllPosted(s) && AllRun(s)
  }

  lemma InitFound(s: State)
    requires Init(s)
    ensures Found(s)
  {
  }

  lemma {:induction false} PostOnFound(s: State, p: Poster, to: Worker, m: Msg)
    requires p in s.posters && s.posters[p].Resting? && m !in s.place && AllFound(s) && AllRun(s)
    ensures AllFound(PostOn(s, p, to, m)) && AllRun(PostOn(s, p, to, m))
  {
    hide Count;
    var s' := PostOn(s, p, to, m);
    forall x <- s'.place ensures FoundOk(s', x) {
      if x != m { assert FoundOk(s, x); }
    }
    forall x: Msg ensures RunOk(s', x) { assert RunOk(s, x); }
  }

  lemma {:induction false} PostFound(s: State, p: Poster, to: Worker, token: Token)
    requires Inv(s) && Found(s) && Enabled(s, Post(p, to, token))
    ensures Found(Next(s, Post(p, to, token)))
  {
    hide PlacesOk, LogsOk, WellTyped, Count;
    var m, c := Serial(token, s.tokens[token].current), s.tokens[token];
    assert m !in s.place;
    var s1 := s.(tokens := s.tokens[token := c.(current := c.current + 1)]);
    forall x <- s1.place ensures FoundOk(s1, x) { assert FoundOk(s, x); }
    forall x: Msg ensures RunOk(s1, x) { assert RunOk(s, x); }
    PostOnFound(s1, p, to, m);
  }

  /** Enqueueing m, which was in the hands p and is there no longer. */
  lemma {:induction false} EnqueueFound(s: State, s1: State, w: Worker, m: Msg)
    requires AllFound(s) && AllRun(s) && m in s.place && m in s.target && w == s.target[m] && w in s.queues
    requires s1 == s.(posters := s1.posters, workers := s1.workers)
    requires forall x <- s.place | x != m :: FoundOk(s, x) ==> FoundOk(s1, x)
    requires forall x: Msg | x != m :: Begun(s1, x) == Begun(s, x) && Ended(s1, x) == Ended(s, x)
    requires Begun(s, m) == 0 && Ended(s, m) == 0
    ensures AllFound(EnqueueOn(s1, w, m)) && AllRun(EnqueueOn(s1, w, m))
  {
    hide Count;
    var s' := EnqueueOn(s1, w, m);
    if w !in s.stopping { assert s'.queues[w][|s.queues[w]|] == m; }
    forall x <- s'.place ensures FoundOk(s', x) {
      if x != m { assert FoundOk(s, x) && FoundOk(s1, x); }
    }
    forall x: Msg ensures RunOk(s', x) { assert RunOk(s, x); }
  }

  lemma {:induction false} PosterFound(s: State, p: Poster)
    requires Inv(s) && Found(s) && Enabled(s, Enqueue(p))
    ensures Found(Next(s, Enqueue(p)))
  {
    hide TicketsOk, LogsOk, QueuesAt, WorkersAt, Count;
    var m, w := s.posters[p].m, s.posters[p].to;
    var s1 := s.(posters := s.posters[p := Resting]);
    assert At(s.place, m, WithPoster(p)) && FoundOk(s, m);
    forall x <- s.place | x != m && FoundOk(s, x) ensures FoundOk(s1, x) { }
    EnqueueFound(s, s1, w, m);
  }

  lemma {:induction false} RequeueFound(s: State, w: Worker)
    requires Inv(s) && Found(s) && Enabled(s, Work(w)) && s.workers[w].Requeueing?
    ensures Found(WorkStep(s, w))
  {
    hide TicketsOk, LogsOk, QueuesAt, PostersAt, Count;
    var m := s.workers[w].m;
    var s1 := s.(workers := s.workers[w := Polling]);
    assert At(s.place, m, InHand(w)) && FoundOk(s, m);
    forall x <- s.place | x != m && FoundOk(s, x) ensures FoundOk(s1, x) { }
    forall x: Msg | x != m ensures Begun(s1, x) == Begun(s, x) && Ended(s1, x) == Ended(s, x) {
      assert x in s.place ==> FoundOk(s, x);
    }
    EnqueueFound(s, s1, w, m);
  }

  lemma {:induction false} PollFound(s: State, w: Worker)
    requires Inv(s) && Found(s) && Enabled(s, Work(w)) && s.workers[w].Polling?
    ensures Found(WorkStep(s, w))
  {
    hide TicketsOk, LogsOk, WorkersAt, PostersAt, Count;
    var s', m := WorkStep(s, w), s.queues[w][0];
    FirstIsAt(s, w);
    forall x <- s'.place ensures FoundOk(s', x) {
      assert FoundOk(s, x);
      if x != m && s.place[x] == InQueue(w) {
        assert s.queues[w] == [m] + s'.queues[w];
        assert x in s'.queues[w];
      }
    }
    forall x: Msg ensures RunOk(s', x) {
      assert RunOk(s, x) && (x in s.place ==> FoundOk(s, x));
    }
  }

  /** Worker w, who has m, goes on with it or is done with it. */
  lemma {:induction false} HandMoved(s: State, s': State, w: Worker, m: Msg)
    requires AllFound(s) && AllRun(s) && At(s.place, m, InHand(w)) && w in s.workers && w in s'.workers
    requires s'.posters == s.posters && s'.queues == s.queues && s'.stopping == s.stopping && s'.target == s.target
    requires s'.workers == s.workers[w := s'.workers[w]]
    requires s'.place == Put(s.place, m, Done) ||
      (s'.place == s.place && !s'.workers[w].Polling? && s'.workers[w].m == m)
    requires forall x: Msg | x != m ::
      && Count(s'.log, Started(x)) == Count(s.log, Started(x))
      && Count(s'.log, Finished(x)) == Count(s.log, Finished(x))
    requires RunOk(s', m)
    ensures AllFound(s') && AllRun(s')
  {
    hide Count;
    assert FoundOk(s, m);
    forall x <- s'.place ensures FoundOk(s', x) { assert FoundOk(s, x); }
    forall x: Msg ensures RunOk(s', x) {
      assert RunOk(s, x) && (x in s.place ==> FoundOk(s, x));
    }
  }

  lemma LoggedCounts(log: seq<Event>, e: Event)
    ensures forall x: Msg | x != e.m ::
      && Count(log + [e], Started(x)) == Count(log, Started(x))
      && Count(log + [e], Finished(x)) == Count(log, Finished(x))
    ensures Count(log + [e], Started(e.m)) == Count(log, Started(e.m)) + if e.Started? then 1 else 0
    ensures Count(log + [e], Finished(e.m)) == Count(log, Finished(e.m)) + if e.Finished? then 1 else 0
  {
    hide Count;
    CountMore(log, e, Started(e.m));
    CountMore(log, e, Finished(e.m));
    forall x: Msg | x != e.m
      ensures Count(log + [e], Started(x)) == Count(log, Started(x))
      ensures Count(log + [e], Finished(x)) == Count(log, Finished(x))
    {
      CountMore(log, e, Started(x));
      CountMore(log, e, Finished(x));
    }
  }

  lemma PostedStays(s: State, s': State)
    requires AllPosted(s) && s'.tokens.Keys == s.tokens.Keys && s.place.Keys <= s'.place.Keys
    requires forall t <- s.tokens :: s'.tokens[t].current == s.tokens[t].current
    ensures AllPosted(s')
  {
  }

  lemma {:induction false} ReleaseFound(s: State, w: Worker)
    requires Inv(s) && Found(s) && Enabled(s, Work(w)) && s.workers[w].Releasing?
    ensures Found(WorkStep(s, w))
  {
    hide TicketsOk, LogsOk, QueuesAt, PostersAt, Count, AllFound, AllRun, AllPosted, WellTyped;
    var s', m := WorkStep(s, w), s.workers[w].m;
    Typed(s, w);
    assert At(s.place, m, InHand(w));
    RunIs(s, m);
    HandMoved(s, s', w, m);
    PostedStays(s, s');
  }

  lemma {:induction false} HandFound(s: State, w: Worker)
    requires Inv(s) && Found(s) && Enabled(s, Work(w)) && (s.workers[w].Testing? || s.workers[w].Running?)
    ensures Found(WorkStep(s, w))
  {
    hide TicketsOk, LogsOk, QueuesAt, PostersAt, Count, TryAcquire, AllFound, AllRun, AllPosted, WellTyped;
    var s', m := WorkStep(s, w), s.workers[w].m;
    Typed(s, w);
    assert At(s.place, m, InHand(w));
    RunIs(s, m);
    LoggedCounts(s.log, if s.workers[w].Testing? then Started(m) else Finished(m));
    HandMoved(s, s', w, m);
    PostedStays(s, s');
  }

  lemma RunIs(s: State, m: Msg)
    requires AllRun(s)
    ensures RunOk(s, m)
  {
  }

  lemma {:induction false} StepKeepsFound(s: State, step: Step)
    requires Inv(s) && Found(s) && Enabled(s, step)
    ensures Found(Next(s, step))
  {
    hide Inv, Found, WorkStep, WellTyped;
    match step {
      case Post(p, to, token) => PostFound(s, p, to, token);
      case PostPlain(p, to, id) => PlainFound(s, p, to, id);
      case Enqueue(p) => PosterFound(s, p);
      case Stop(w) => StopFound(s, w);
      case Work(w) =>
        if s.workers[w].Polling? { PollFound(s, w); }
        else if s.workers[w].Requeueing? { RequeueFound(s, w); }
        else if s.workers[w].Releasing? { ReleaseFound(s, w); }
        else { HandFound(s, w); }
    }
  }

  lemma PlainFound(s: State, p: Poster, to: Worker, id: nat)
    requires Found(s) && Enabled(s, PostPlain(p, to, id))
    ensures Found(Next(s, PostPlain(p, to, id)))
  {
    hide Count, WellTyped;
    PostOnFound(s, p, to, Plain(id));
  }

  lemma StopFound(s: State, w: Worker)
    requires Found(s) && Enabled(s, Stop(w))
    ensures Found(Next(s, Stop(w)))
  {
    hide Count, WellTyped;
    var s' := Next(s, Stop(w));
    forall x <- s'.place ensures FoundOk(s', x) { assert FoundOk(s, x); }
    forall x: Msg ensures RunOk(s', x) { assert RunOk(s, x); }
  }

  // ---------------------------------------------------------------------
  // Runs
  // ---------------------------------------------------------------------

  lemma {:induction false} RunFound(states: seq<State>, steps: seq<Step>, k: nat)
    requires IsRun(states, steps) && k <= |steps|
    ensures Found(states[k])
  {
    hide Inv, Found, Enabled, Next, Init;
    if k == 0 {
      InitFound(states[0]);
    } else {
      RunFound(states, steps, k - 1);
      RunKeepsInv(states, steps, k - 1);
      assert Enabled(states[k - 1], steps[k - 1]) && Next(states[k - 1], steps[k - 1]) == states[k];
      StepKeepsFound(states[k - 1], steps[k - 1]);
    }
  }

  lemma HoldingIsAt(s: State, m: Msg, p: Place)
    requires Inv(s) && Holding(s, m, p)
    ensures At(s.place, m, p)
  {
    hide TicketsOk, LogsOk, WellTyped;
    if p.InQueue? {
      assert QueueAt(s.place, p.w, s.queues[p.w]);
      var i :| 0 <= i < |s.queues[p.w]| && s.queues[p.w][i] == m;
    }
  }

  /** How many of t's numbers the step hands out. */
  function Handed(step: Step, t: Token): nat {
    if step.Post? && step.token == t then 1 else 0
  }

  /** What a post step posts, if the step is one. */
  function PostedBy(s: State, step: Step): set<Msg>
    requires Enabled(s, step)
  {
    match step
    case Post(_, _, token) => {Serial(token, s.tokens[token].current)}
    case PostPlain(_, _, id) => {Plain(id)}
    case _ => {}
  }

  lemma {:induction false} StepPosts(s: State, step: Step)
    requires Inv(s) && Found(s) && Enabled(s, step)
    ensures Next(s, step).place.Keys == s.place.Keys + PostedBy(s, step)
    ensures forall m <- s.place :: m in s.target && m in Next(s, step).target && Next(s, step).target[m] == s.target[m]
    ensures forall m <- PostedBy(s, step) :: m in Next(s, step).target && Next(s, step).target[m] == step.to
    ensures forall t | t in s.tokens ::
      t in Next(s, step).tokens && Next(s, step).tokens[t].current == s.tokens[t].current + Handed(step, t)
  {
    hide TicketsOk, LogsOk, AllPosted, AllRun, TryAcquire, WorkStep;
    assert forall m <- s.place :: FoundOk(s, m);
    match step {
      case Work(w) => WorkPosts(s, w);
      case Enqueue(p) => assert At(s.place, s.posters[p].m, WithPoster(p));
      case Post(_, _, token) => NewTicket(s, token);
      case _ =>
    }
  }

  lemma NewTicket(s: State, t: Token)
    requires TicketsOk(s.tokens, s.place) && t in s.tokens
    ensures Serial(t, s.tokens[t].current) !in s.place
  {
  }

  lemma {:induction false} WorkPosts(s: State, w: Worker)
    requires Inv(s) && Enabled(s, Work(w))
    ensures WorkStep(s, w).place.Keys == s.place.Keys && WorkStep(s, w).target == s.target
    ensures forall t | t in s.tokens ::
      t in WorkStep(s, w).tokens && WorkStep(s, w).tokens[t].current == s.tokens[t].current
  {
    hide TicketsOk, LogsOk, PostersAt, TryAcquire;
    if s.workers[w].Polling? { FirstIsAt(s, w); } else { assert At(s.place, s.workers[w].m, InHand(w)); }
  }

  /** The numbers of a token are handed out one by one, in the order of its posts. */
  function PostsOf(steps: seq<Step>, t: Token): nat {
    if steps == [] then 0 else
      PostsOf(steps[..|steps| - 1], t) + Handed(steps[|steps| - 1], t)
  }

  lemma {:induction false} NumberedInOrder(states: seq<State>, steps: seq<Step>, k: nat, t: Token)
    requires IsRun(states, steps) && k <= |steps| && t in states[0].tokens
    ensures t in states[k].tokens && states[k].tokens[t].current == PostsOf(steps[..k], t)
  {
    hide Enabled, Next, Inv, Found;
    if k > 0 {
      NumberedInOrder(states, steps, k - 1, t);
      RunFound(states, steps, k - 1);
      RunKeepsInv(states, steps, k - 1);
      assert Enabled(states[k - 1], steps[k - 1]) && Next(states[k - 1], steps[k - 1]) == states[k];
      StepPosts(states[k - 1], steps[k - 1]);
      assert steps[..k][..k - 1] == steps[..k - 1];
    }
  }

  /** What is posted stays accounted for, and is for the worker it was posted to. */
  lemma {:induction false} PostIsKept(states: seq<State>, steps: seq<Step>, j: nat, k: nat, m: Msg)
    requires IsRun(states, steps) && j < k <= |steps| && Enabled(states[j], steps[j])
    requires m in PostedBy(states[j], steps[j])
    ensures m in states[k].place && m in states[k].target && states[k].target[m] == steps[j].to
  {
    hide Enabled, Next, Init, Inv, Found, PostedBy;
    RunFound(states, steps, k - 1);
    RunKeepsInv(states, steps, k - 1);
    assert Enabled(states[k - 1], steps[k - 1]) && Next(states[k - 1], steps[k - 1]) == states[k];
    StepPosts(states[k - 1], steps[k - 1]);
    if j < k - 1 { PostIsKept(states, steps, j, k - 1, m); }
  }

  /** Nothing is lost and nothing doubled: in every run a posted message is in one pair of
      hands or one queue, that of the worker it was posted to, or it is done, or that worker
      is stopping and dropped it. */
  lemma {:induction false} InOnePlace(states: seq<State>, steps: seq<Step>, k: nat, m: Msg)
    requires IsRun(states, steps) && k <= |steps| && m in states[k].place
    ensures FoundOk(states[k], m)
    ensures forall p: Place :: Holding(states[k], m, p) ==> p == states[k].place[m]
    ensures states[k].place[m].InQueue? ==>
      multiset(states[k].queues[states[k].target[m]])[m] == 1
  {
    hide Enabled, Next, Init, Inv, AllPosted, AllRun, Holding;
    RunFound(states, steps, k);
    RunKeepsInv(states, steps, k);
    forall p: Place | Holding(states[k], m, p) ensures p == states[k].place[m] { HoldingIsAt(states[k], m, p); }
    if states[k].place[m].InQueue? { QueuedOnce(states[k], m); }
  }

  lemma QueuedOnce(s: State, m: Msg)
    requires Inv(s) && m in s.place && FoundOk(s, m) && s.place[m].InQueue?
    ensures multiset(s.queues[s.target[m]])[m] == 1
  {
    hide TicketsOk, LogsOk, WellTyped;
    var q := s.queues[s.target[m]];
    assert QueueAt(s.place, s.target[m], q);
    var i :| 0 <= i < |q| && q[i] == m;
    assert q == q[..i] + [m] + q[i + 1..];
    assert m !in q[..i] && m !in q[i + 1..];
  }

  /** Each of a token's messages that is still to run is somewhere, when nothing stops. */
  lemma {:induction false} OutstandingIsSomewhere(states: seq<State>, steps: seq<Step>, k: nat, t: Token, n: nat)
    requires IsRun(states, steps) && k <= |steps| && t in states[k].tokens
    requires states[k].tokens[t].executing <= n < states[k].tokens[t].current && states[k].stopping == {}
    ensures Serial(t, n) in states[k].place && Holding(states[k], Serial(t, n), states[k].place[Serial(t, n)])
  {
    hide Enabled, Next, Init, AllRun, PlacesOk, LogsOk, WellTyped, Holding;
    RunFound(states, steps, k);
    RunKeepsInv(states, steps, k);
    assert FoundOk(states[k], Serial(t, n)) && TicketOk(states[k].tokens, states[k].place, Serial(t, n));
  }

  /** Exactly once: a message is done just when its callable has run to its end, and no
      callable starts, or ends, twice. */
  lemma {:induction false} RunsOnce(states: seq<State>, steps: seq<Step>, k: nat, m: Msg)
    requires IsRun(states, steps) && k <= |steps|
    ensures Count(states[k].log, Finished(m)) <= Count(states[k].log, Started(m)) <= 1
    ensures m in states[k].place && states[k].place[m] == Done ==> Count(states[k].log, Finished(m)) == 1
    ensures m !in states[k].place ==> Count(states[k].log, Started(m)) == 0
  {
    hide Enabled, Next, Init, AllFound, AllPosted, Count;
    RunFound(states, steps, k);
    assert RunOk(states[k], m);
  }

  /** A worker runs what it tests just when it has no token or its turn has come. */
  lemma {:induction false} TestIff(s: State, w: Worker)
    requires Inv(s) && Enabled(s, Work(w)) && s.workers[w].Testing?
    ensures s.workers[w].m.Serial? ==> s.workers[w].m.token in s.tokens
    ensures WorkStep(s, w).workers[w] ==
      if MayRun(s, s.workers[w].m) then Running(s.workers[w].m) else Requeueing(s.workers[w].m)
  {
    hide PlacesOk, TicketsOk, LogsOk;
    if s.workers[w].m.Serial? && TryAcquire(s, s.workers[w].m) { AcquireAlone(s, w); }
  }

  predicate MayRun(s: State, m: Msg) {
    m.Serial? ==> m.token in s.tokens && m.ticket == s.tokens[m.token].executing
  }

  // ---------------------------------------------------------------------
  // No deadlock
  // ---------------------------------------------------------------------

  /** A step of a poster that queues, or of a worker. */
  predicate Move(s: State, step: Step, s': State) {
    (step.Enqueue? || step.Work?) && Enabled(s, step) && Next(s, step) == s'
  }

  ghost predicate Path(states: seq<State>, steps: seq<Step>) {
    && |states| == |steps| + 1
    && forall i | 0 <= i < |steps| :: Move(states[i], steps[i], states[i + 1])
  }

  ghost predicate Leads(s: State, s': State) {
    exists states: seq<State>, steps: seq<Step> :: Path(states, steps) && states[0] == s && states[|steps|] == s'
  }

  lemma LeadsNowhere(s: State)
    ensures Leads(s, s)
  {
    assert Path([s], []);
  }

  lemma LeadsOn(s: State, step: Step, s1: State, s': State)
    requires Move(s, step, s1) && Leads(s1, s')
    ensures Leads(s, s')
  {
    hide Move;
    var states, steps :| Path(states, steps) && states[0] == s1 && states[|steps|] == s';
    var states', steps' := [s] + states, [step] + steps;
    forall i | 0 <= i < |steps'| ensures Move(states'[i], steps'[i], states'[i + 1]) {
      if i > 0 { assert Move(states[i - 1], steps[i - 1], states[i]); }
    }
    assert Path(states', steps');
  }

  lemma LeadsThrough(s: State, s1: State, s2: State)
    requires Leads(s, s1) && Leads(s1, s2)
    ensures Leads(s, s2)
  {
    hide Move;
    var a, cs :| Path(a, cs) && a[0] == s && a[|cs|] == s1;
    var b, ds :| Path(b, ds) && b[0] == s1 && b[|ds|] == s2;
    var states := a[..|cs|] + b;
    forall i | 0 <= i < |cs + ds| ensures Move(states[i], (cs + ds)[i], states[i + 1]) {
      if i < |cs| {
        assert Move(a[i], cs[i], a[i + 1]);
      } else {
        assert Move(b[i - |cs|], ds[i - |cs|], b[i - |cs| + 1]);
      }
    }
    assert Path(states, cs + ds);
  }

  /** Reachable, and nothing stops. */
  ghost predicate Going(s: State) {
    Inv(s) && Found(s) && s.stopping == {}
  }

  function Unfinished(s: State): set<Msg> {
    set m | m in s.place && s.place[m] != Done
  }

  function Posters(s: State): set<Poster> {
    set p | p in s.posters && s.posters[p].Posting?
  }

  function Busy(s: State): set<Worker> {
    set w | w in s.workers && !s.workers[w].Polling?
  }

  lemma {:induction false} WorkGoes(s: State, w: Worker)
    requires Going(s) && Enabled(s, Work(w))
    ensures Going(WorkStep(s, w)) && Move(s, Work(w), WorkStep(s, w))
    ensures WorkStep(s, w).place.Keys == s.place.Keys && WorkStep(s, w).posters == s.posters
  {
    hide Inv, Found;
    StepKeepsInv(s, Work(w));
    StepKeepsFound(s, Work(w));
    WorkKeys(s, w);
  }

  lemma WorkKeys(s: State, w: Worker)
    requires Inv(s) && Enabled(s, Work(w))
    ensures WorkStep(s, w).place.Keys == s.place.Keys && WorkStep(s, w).stopping == s.stopping
  {
    hide TicketsOk, LogsOk, PostersAt;
    if s.workers[w].Polling? { FirstIsAt(s, w); } else { assert At(s.place, s.workers[w].m, InHand(w)); }
  }

  /** What worker w, who has a message, brings about before it polls again. */
  ghost predicate Settled(s: State, t: State, w: Worker) {
    && w in s.workers && w in s.queues && !s.workers[w].Polling?
    && Going(t) && t.place.Keys == s.place.Keys && t.posters == s.posters
    && t.workers == s.workers[w := Polling]
    && Unfinished(t) <= Unfinished(s)
    && (|Unfinished(t)| == |Unfinished(s)| ==>
      && t.tokens == s.tokens && t.queues == s.queues[w := s.queues[w] + [s.workers[w].m]]
      && (s.workers[w].Testing? ==> !MayRun(s, s.workers[w].m)))
  }

  function Phase(pc: WorkerPc): nat {
    match pc
    case Testing(_) => 3
    case Running(_) => 2
    case Releasing(_) => 1
    case Requeueing(_) => 1
    case Polling => 0
  }

  lemma Fewer(a: set<Msg>, b: set<Msg>, m: Msg)
    requires m in b && a <= b - {m}
    ensures |a| < |b|
  {
    Smaller(a, b - {m});
    assert b == (b - {m}) + {m};
  }

  lemma {:induction false} Smaller<T>(a: set<T>, b: set<T>)
    requires a <= b
    ensures |a| <= |b|
  {
    if a != {} {
      var x :| x in a;
      Smaller(a - {x}, b - {x});
    }
  }

  lemma {:induction false} LastStep(s: State, w: Worker)
    requires Going(s) && Enabled(s, Work(w)) && (s.workers[w].Releasing? || s.workers[w].Requeueing?)
    ensures Settled(s, WorkStep(s, w), w)
  {
    hide Found, TicketsOk, LogsOk, PostersAt, QueuesAt;
    WorkGoes(s, w);
    var m, t := s.workers[w].m, WorkStep(s, w);
    assert At(s.place, m, InHand(w));
    if s.workers[w].Releasing? {
      assert Unfinished(t) == Unfinished(s) - {m};
      Fewer(Unfinished(t), Unfinished(s), m);
    }
  }

  lemma {:induction false} MiddleStep(s: State, w: Worker)
    requires Going(s) && Enabled(s, Work(w)) && (s.workers[w].Testing? || s.workers[w].Running?)
    ensures var s1 := WorkStep(s, w);
      && s1.workers.Keys == s.workers.Keys && s1.workers == s.workers[w := s1.workers[w]]
      && s1.place == s.place && s1.tokens == s.tokens && s1.queues == s.queues
      && !s1.workers[w].Polling? && s1.workers[w].m == s.workers[w].m
      && (s.workers[w].Running? ==> s1.workers[w].Releasing?)
      && (s.workers[w].Testing? ==>
        if MayRun(s, s.workers[w].m) then s1.workers[w].Running? else s1.workers[w].Requeueing?)
  {
    hide Found, TicketsOk, LogsOk, PlacesOk, TryAcquire;
    if s.workers[w].Testing? { TestIff(s, w); }
  }

  lemma BusyEnabled(s: State, w: Worker)
    requires Going(s) && w in s.workers && !s.workers[w].Polling?
    ensures Enabled(s, Work(w))
  {
  }

  lemma {:induction false} Settle(s: State, w: Worker) returns (t: State)
    requires Going(s) && w in s.workers && !s.workers[w].Polling?
    ensures Leads(s, t) && Settled(s, t, w)
    ensures s.workers[w].Running? || s.workers[w].Releasing? ==> |Unfinished(t)| < |Unfinished(s)|
    ensures s.workers[w].Testing? && MayRun(s, s.workers[w].m) ==> |Unfinished(t)| < |Unfinished(s)|
    decreases Phase(s.workers[w])
  {
    hide Leads, Going, Enabled, WorkStep, Found;
    BusyEnabled(s, w);
    WorkGoes(s, w);
    var s1 := WorkStep(s, w);
    if s.workers[w].Releasing? || s.workers[w].Requeueing? {
      LastStep(s, w);
      t := s1;
      LeadsNowhere(t);
      if s.workers[w].Releasing? { ReleasedFewer(s, w); }
    } else {
      MiddleStep(s, w);
      t := Settle(s1, w);
      assert Unfinished(s1) == Unfinished(s);
      assert s1.workers[w := Polling] == s.workers[w := Polling];
    }
    LeadsOn(s, Work(w), s1, t);
  }

  lemma ReleasedFewer(s: State, w: Worker)
    requires Going(s) && Enabled(s, Work(w)) && s.workers[w].Releasing?
    ensures |Unfinished(WorkStep(s, w))| < |Unfinished(s)|
  {
    hide Found, TicketsOk, LogsOk, PostersAt, QueuesAt;
    var m := s.workers[w].m;
    assert At(s.place, m, InHand(w));
    Fewer(Unfinished(WorkStep(s, w)), Unfinished(s), m);
  }

  ghost predicate AllDone(s: State) {
    && (forall m <- s.place :: s.place[m] == Done)
    && (forall w <- s.queues :: s.queues[w] == [])
    && (forall t <- s.tokens :: s.tokens[t].executing == s.tokens[t].current)
  }

  lemma NothingLeft(s: State)
    requires Going(s) && Unfinished(s) == {}
    ensures AllDone(s)
  {
    hide LogsOk, PostersAt, WorkersAt, AllRun, AllFound;
    forall m <- s.place ensures s.place[m] == Done { assert m in Unfinished(s) || s.place[m] == Done; }
    forall w <- s.queues ensures s.queues[w] == [] {
      if s.queues[w] != [] { FirstIsAt(s, w); }
    }
    forall t <- s.tokens ensures s.tokens[t].executing == s.tokens[t].current {
      var n := s.tokens[t].executing;
      assert n < s.tokens[t].current ==> TicketOk(s.tokens, s.place, Serial(t, n));
    }
  }

  /** Everything is queued. */
  predicate Calm(s: State) {
    Posters(s) == {} && Busy(s) == {}
  }

  /** With everything queued some message can run when its worker gets to it. */
  lemma {:induction false} SomeMayRun(s: State) returns (w: Worker, i: nat)
    requires Going(s) && Calm(s) && Unfinished(s) != {}
    ensures w in s.queues && i < |s.queues[w]| && MayRun(s, s.queues[w][i])
  {
    hide LogsOk, AllRun, PlacesOk;
    var m :| m in Unfinished(s);
    var g := if m.Serial? then Serial(m.token, s.tokens[m.token].executing) else m;
    if m.Serial? {
      assert TicketOk(s.tokens, s.place, m);
      assert TicketOk(s.tokens, s.place, g);
    }
    assert FoundOk(s, g);
    CalmHolds(s, g);
    w := s.target[g];
    i :| 0 <= i < |s.queues[w]| && s.queues[w][i] == g;
  }

  lemma CalmHolds(s: State, m: Msg)
    requires Calm(s) && m in s.place && FoundOk(s, m) && s.place[m] != Done && s.stopping == {}
    ensures s.place[m] == InQueue(s.target[m]) && s.target[m] in s.queues && m in s.queues[s.target[m]]
  {
    CalmMeans(s);
  }

  lemma CalmMeans(s: State)
    requires Calm(s)
    ensures forall p <- s.posters :: s.posters[p].Resting?
    ensures forall w <- s.workers :: s.workers[w].Polling?
  {
    forall p <- s.posters ensures s.posters[p].Resting? { assert p in Posters(s) || s.posters[p].Resting?; }
    forall w <- s.workers ensures s.workers[w].Polling? { assert w in Busy(s) || s.workers[w].Polling?; }
  }

  lemma {:induction false} PolledIs(s: State, w: Worker)
    requires Going(s) && Calm(s) && w in s.queues && s.queues[w] != []
    ensures Enabled(s, Work(w))
    ensures var s1, m := WorkStep(s, w), s.queues[w][0];
      && Going(s1) && Move(s, Work(w), s1) && s1.place.Keys == s.place.Keys && s1.posters == s.posters
      && s1.tokens == s.tokens && s1.queues == s.queues[w := s.queues[w][1..]]
      && s1.workers == s.workers[w := Testing(m)] && w in s.workers
      && Unfinished(s1) == Unfinished(s)
  {
    hide TicketsOk, LogsOk, PostersAt, WorkersAt, Found;
    CalmMeans(s);
    WorkGoes(s, w);
    FirstIsAt(s, w);
  }

  /** The i-th message of w's queue may run: until it does the worker puts those before it
      back. */
  lemma {:induction false} FinishFrom(s: State, w: Worker, i: nat) returns (t: State)
    requires Going(s) && Calm(s) && w in s.queues && i < |s.queues[w]| && MayRun(s, s.queues[w][i])
    ensures Leads(s, t) && AllDone(t) && t.place.Keys == s.place.Keys
    decreases |Unfinished(s)|, 0, 0, i
  {
    hide Leads, Going, Move, WorkStep, Enabled, AllDone;
    PolledIs(s, w);
    var s1, m := WorkStep(s, w), s.queues[w][0];
    var s2 := Settle(s1, w);
    StillCalm(s, s1, s2, w);
    if |Unfinished(s2)| < |Unfinished(s1)| {
      t := CanFinish(s2);
    } else {
      SameSize(Unfinished(s2), Unfinished(s1));
      assert !MayRun(s1, m) && MayRun(s, m) == MayRun(s1, m);
      assert i > 0 && s2.queues[w] == s.queues[w][1..] + [m];
      t := FinishFrom(s2, w, i - 1);
    }
    LeadsThrough(s1, s2, t);
    LeadsOn(s, Work(w), s1, t);
  }

  lemma SameSize(a: set<Msg>, b: set<Msg>)
    requires a <= b && |a| >= |b|
    ensures |a| == |b|
  {
    Smaller(a, b);
  }

  lemma StillCalm(s: State, s1: State, s2: State, w: Worker)
    requires Calm(s) && w in s.workers && w in s1.workers
    requires s1.workers == s.workers[w := s1.workers[w]] && s1.posters == s.posters
    requires s2.workers == s1.workers[w := Polling] && s2.posters == s1.posters
    ensures Calm(s2)
  {
    CalmMeans(s);
    assert Posters(s2) == Posters(s);
  }

  /** No deadlock: with no worker stopping, posters and workers can always bring it about that
      every message has run. */
  lemma {:induction false} CanFinish(s: State) returns (t: State)
    requires Going(s)
    ensures Leads(s, t) && AllDone(t) && t.place.Keys == s.place.Keys
    decreases |Unfinished(s)|, |Posters(s)| + |Busy(s)|, 1, 0
  {
    hide Leads, Going, Move, Enabled, Next, AllDone, Calm, FoundOk;
    if p :| p in Posters(s) {
      PosterGoes(s, p);
      var s1 := Next(s, Enqueue(p));
      t := CanFinish(s1);
      LeadsOn(s, Enqueue(p), s1, t);
    } else if w :| w in Busy(s) {
      var s1 := Settle(s, w);
      if |Unfinished(s1)| >= |Unfinished(s)| { SameSize(Unfinished(s1), Unfinished(s)); }
      LessBusy(s, s1, w);
      t := CanFinish(s1);
      LeadsThrough(s, s1, t);
    } else if Unfinished(s) == {} {
      t := s;
      LeadsNowhere(s);
      NothingLeft(s);
    } else {
      assert Calm(s) by { IsCalm(s); }
      var w, i := SomeMayRun(s);
      t := FinishFrom(s, w, i);
    }
  }

  lemma IsCalm(s: State)
    requires Posters(s) == {} && Busy(s) == {}
    ensures Calm(s)
  {
  }

  lemma LessBusy(s: State, t: State, w: Worker)
    requires w in Busy(s) && t.workers == s.workers[w := Polling] && t.posters == s.posters
    ensures |Posters(t)| + |Busy(t)| < |Posters(s)| + |Busy(s)|
  {
    assert Busy(t) == Busy(s) - {w};
    assert Posters(t) == Posters(s);
  }

  lemma {:induction false} PosterGoes(s: State, p: Poster)
    requires Going(s) && p in Posters(s)
    ensures Enabled(s, Enqueue(p))
    ensures var s1 := Next(s, Enqueue(p));
      && Going(s1) && Move(s, Enqueue(p), s1) && s1.place.Keys == s.place.Keys
      && Unfinished(s1) == Unfinished(s) && |Posters(s1)| + |Busy(s1)| < |Posters(s)| + |Busy(s)|
  {
    hide Found, TicketsOk, LogsOk, WorkersAt, QueuesAt;
    StepKeepsInv(s, Enqueue(p));
    StepKeepsFound(s, Enqueue(p));
    assert At(s.place, s.posters[p].m, WithPoster(p));
    var s1 := Next(s, Enqueue(p));
    assert Posters(s1) == Posters(s) - {p} && Busy(s1) == Busy(s);
  }

  /** In every run in which no worker has been stopped. */
  lemma {:induction false} RunCanFinish(states: seq<State>, steps: seq<Step>, k: nat) returns (t: State)
    requires IsRun(states, steps) && k <= |steps| && states[k].stopping == {}
    ensures Leads(states[k], t) && AllDone(t) && t.place.Keys == states[k].place.Keys
  {
    hide Leads, Inv, Found, Enabled, Next, Init, AllDone;
    RunFound(states, steps, k);
    RunKeepsInv(states, steps, k);
    t := CanFinish(states[k]);
  }
}
