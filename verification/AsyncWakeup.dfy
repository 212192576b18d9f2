/** The wake-up handshake between threads that send on an async watcher and the
    event loop that may be asleep in poll.

    Any number of sender threads and the loop share the flags of libev; every
    read or write of a shared flag, of the wake-up pipe and of the wrapper's
    counter is one step.  Memory is sequentially consistent. */
module AsyncWakeup {

  type Thread = nat
  type Watcher = nat  // index into asyncs

  /** Number of values of the wrapper's counter, std::uint32_t. */
  const COUNT_SPACE: nat := 0x1_0000_0000

  /** The shared memory.  `pipe` is the number of bytes (or the eventfd count)
      waiting to be read; a write to a full pipe is lost. */
  datatype Shared = Shared(
    sent: seq<bool>,
    count: seq<nat>,
    asyncPending: bool,
    skipped: bool,
    wanted: bool,
    pipe: nat,
    capacity: nat,
    eventfd: bool)

  /** A send(): the counter, the pending test, ev_async_send and evpipe_write. */
  datatype SenderPc =
    | SIdle
    | SCount(w: Watcher)
    | SCheck(w: Watcher)
    | SMark(w: Watcher)
    | STest
    | SFlag
    | SSkip
    | SWanted
    | SUnskip
    | SWrite

  /** Where the loop thread goes on after a send of its own. */
  datatype Back = ToEarly(readable: bool, custom: bool) | ToInvoke | ToCallback(w: Watcher) {
    function Pc(): LoopPc {
      match this
      case ToEarly(readable, custom) => LEarly(readable, custom)
      case ToInvoke => LInvoke
      case ToCallback(w) => LCallback(w)
    }
  }

  /** The part of ev_run from the wake-up request to the callbacks, with pipecb. */
  datatype LoopPc =
    | LWant
    | LTest
    | LPoll(block: bool)
    | LUnwant(readable: bool)
    | LCheckSkip(readable: bool)
    | LEarly(readable: bool, custom: bool)
    | LRead
    | LUnskip
    | LTestPending
    | LClearPending
    | LScan(i: nat)
    | LClearSent(i: nat)
    | LInvoke
    | LCallback(w: Watcher)
    | LDecrement(w: Watcher)
    | LSending(pc: SenderPc, after: Back)

  /** `fed` holds the watchers whose callbacks are pending. */
  datatype State = State(m: Shared, senders: map<Thread, SenderPc>, loop: LoopPc, fed: set<Watcher>)

  /** Choices the code leaves open: whether the loop has other reasons not to
      block, and what the callbacks run by the loop do. */
  datatype Choice = Nothing | MayBlock | Proceed | Send(w: Watcher) | RunCallback(w: Watcher) | Return

  predicate Mentions(m: Shared, pc: SenderPc) {
    (pc.SCount? || pc.SCheck? || pc.SMark?) ==> pc.w < |m.sent|
  }

  function SenderStep(m: Shared, pc: SenderPc): (r: (Shared, SenderPc))
    requires Mentions(m, pc) && |m.count| == |m.sent|
  {
    match pc {
      case SIdle => (m, SIdle)
      case SCount(w) => (m.(count := m.count[w := (m.count[w] + 1) % COUNT_SPACE]), SCheck(w))
      case SCheck(w) => (m, if m.sent[w] then SIdle else SMark(w))
      case SMark(w) => (m.(sent := m.sent[w := true]), STest)
      case STest => (m, if m.asyncPending then SIdle else SFlag)
      case SFlag => (m.(asyncPending := true), SSkip)
      case SSkip => (m.(skipped := true), SWanted)
      case SWanted => (m, if m.wanted then SUnskip else SIdle)
      case SUnskip => (m.(skipped := false), SWrite)
      case SWrite => (m.(pipe := if m.pipe < m.capacity then m.pipe + 1 else m.pipe), SIdle)
    }
  }

  /** read() takes the whole eventfd count, or up to four bytes of the pipe. */
  function ReadPipe(m: Shared): nat {
    if m.eventfd || m.pipe <= 4 then 0 else m.pipe - 4
  }

  predicate LoopMentions(m: Shared, l: LoopPc) {
    match l {
      case LScan(i) => i <= |m.sent|
      case LClearSent(i) => i < |m.sent|
      case LCallback(w) => w < |m.sent|
      case LDecrement(w) => w < |m.sent|
      case LSending(pc, after) => Mentions(m, pc) && (after.ToCallback? ==> after.w < |m.sent|)
      case _ => true
    }
  }

  predicate ChoiceOk(s: State, c: Choice) {
    && (c.Send? ==> c.w < |s.m.sent|)
    && (c.RunCallback? ==> c.w in s.fed)
    && (s.loop.LInvoke? && c.Return? ==> s.fed == {})
  }

  predicate WellTyped(s: State) {
    && |s.m.count| == |s.m.sent|
    && (forall t <- s.senders :: Mentions(s.m, s.senders[t]))
    && LoopMentions(s.m, s.loop)
    && (forall w <- s.fed :: w < |s.m.sent|)
  }

  /** One step of the loop thread. */
  function LoopStep(s: State, c: Choice): State
    requires WellTyped(s) && ChoiceOk(s, c)
  {
    match s.loop {
      case LWant => s.(m := s.m.(wanted := true), loop := LTest)
      case LTest => s.(loop := LPoll(c.MayBlock? && !s.m.skipped))
      case LPoll(_) => s.(loop := LUnwant(s.m.pipe > 0))
      case LUnwant(readable) => s.(m := s.m.(wanted := false), loop := LCheckSkip(readable))
      case LCheckSkip(readable) => s.(loop := LEarly(readable, s.m.skipped))
      case LEarly(readable, custom) =>
        if c.Send? then s.(loop := LSending(SCount(c.w), ToEarly(readable, custom)))
        else s.(loop := if readable then LRead else if custom then LUnskip else LInvoke)
      case LRead => s.(m := s.m.(pipe := ReadPipe(s.m)), loop := LUnskip)
      case LUnskip => s.(m := s.m.(skipped := false), loop := LTestPending)
      case LTestPending => s.(loop := if s.m.asyncPending then LClearPending else LInvoke)
      case LClearPending => s.(m := s.m.(asyncPending := false), loop := LScan(|s.m.sent|))
      case LScan(i) =>
        s.(loop := if i == 0 then LInvoke else if s.m.sent[i - 1] then LClearSent(i - 1) else LScan(i - 1))
      case LClearSent(i) => s.(m := s.m.(sent := s.m.sent[i := false]), fed := s.fed + {i}, loop := LScan(i))
      case LInvoke =>
        (match c
         case Send(w) => s.(loop := LSending(SCount(w), ToInvoke))
         case RunCallback(w) => s.(fed := s.fed - {w}, loop := LCallback(w))
         case Return => s.(loop := LWant)
         case _ => s)
      case LCallback(w) =>
        if c.Send? then s.(loop := LSending(SCount(c.w), ToCallback(w))) else s.(loop := LDecrement(w))
      case LDecrement(w) =>
        var old_ := s.m.count[w];
        s.(m := s.m.(count := s.m.count[w := (old_ + COUNT_SPACE - 1) % COUNT_SPACE]),
           loop := if old_ > 1 then LSending(SCount(w), ToInvoke) else LInvoke)
      case LSending(pc, after) =>
        if pc.SIdle? then s.(loop := after.Pc())
        else var (m, pc') := SenderStep(s.m, pc); s.(m := m, loop := LSending(pc', after))
    }
  }

  /** A sender thread starts a send, or takes one step of it. */
  function ThreadStep(s: State, t: Thread, w: Watcher): State
    requires WellTyped(s) && t in s.senders && w < |s.m.sent|
  {
    if s.senders[t].SIdle? then s.(senders := s.senders[t := SCount(w)])
    else var (m, pc) := SenderStep(s.m, s.senders[t]); s.(m := m, senders := s.senders[t := pc])
  }

  datatype Step = ByLoop(c: Choice) | ByThread(t: Thread, w: Watcher)

  predicate Enabled(s: State, step: Step) {
    && WellTyped(s)
    && match step
       case ByLoop(c) => ChoiceOk(s, c)
       case ByThread(t, w) => t in s.senders && w < |s.m.sent|
  }

  function Next(s: State, step: Step): State
    requires Enabled(s, step)
  {
    match step
    case ByLoop(c) => LoopStep(s, c)
    case ByThread(t, w) => ThreadStep(s, t, w)
  }

  /** A loop that has not polled yet, with nothing sent. */
  predicate Init(s: State) {
    && WellTyped(s)
    && (forall w | 0 <= w < |s.m.sent| :: !s.m.sent[w] && s.m.count[w] == 0)
    && !s.m.asyncPending && !s.m.skipped && !s.m.wanted && s.m.pipe == 0 && s.m.capacity > 0
    && (forall t <- s.senders :: s.senders[t] == SIdle)
    && s.loop == LWant && s.fed == {}
  }

  // ---------------------------------------------------------------------
  // Invariant
  // ---------------------------------------------------------------------

  function LoopSender(l: LoopPc): SenderPc {
    if l.LSending? then l.pc else SIdle
  }

  /** Some call has marked its watcher and has yet to raise the pending flag. */
  ghost predicate Raising(s: State) {
    || (exists t :: t in s.senders && (s.senders[t].STest? || s.senders[t].SFlag?))
    || LoopSender(s.loop).STest? || LoopSender(s.loop).SFlag?
  }

  /** Some call is bound to set `skipped` or to write to the pipe. */
  ghost predicate Waking(s: State) {
    || (exists t :: t in s.senders && (s.senders[t].SSkip? || s.senders[t].SUnskip? || s.senders[t].SWrite?))
    || LoopSender(s.loop).SSkip?
  }

  ghost predicate Unskipping(s: State) {
    exists t :: t in s.senders && (s.senders[t].SWanted? || s.senders[t].SUnskip?)
  }

  /** The loop has yet to look at the watcher in the scan it is doing. */
  predicate ToScan(l: LoopPc, w: Watcher) {
    (l.LScan? && w < l.i) || (l.LClearSent? && w <= l.i)
  }

  /** Inside pipecb, with the pending flag still to be read. */
  predicate ToTest(l: LoopPc) {
    l.LUnskip? || l.LTestPending? || l.LClearPending?
  }

  predicate Wanting(l: LoopPc) {
    l.LTest? || l.LPoll? || l.LUnwant?
  }

  ghost predicate BasicOk(s: State) {
    && WellTyped(s)
    && s.m.capacity > 0
    && (s.m.wanted <==> Wanting(s.loop))
    && !LoopSender(s.loop).SUnskip? && !LoopSender(s.loop).SWrite?
  }

  /** A marked watcher is announced by the pending flag, is about to be, or will
      still be looked at. */
  ghost predicate MarkedOk(s: State) {
    forall w | 0 <= w < |s.m.sent| :: s.m.sent[w] ==> s.m.asyncPending || Raising(s) || ToScan(s.loop, w)
  }

  /** The pending flag is announced by `skipped` or the pipe, is about to be, or
      will still be read. */
  ghost predicate PendingOk(s: State) {
    s.m.asyncPending ==> s.m.skipped || s.m.pipe > 0 || Waking(s) || ToTest(s.loop)
  }

  /** While the loop is blocked, whoever set `skipped` goes on to clear it and write. */
  ghost predicate BlockedOk(s: State) {
    s.loop == LPoll(true) && s.m.skipped ==> Unskipping(s)
  }

  ghost predicate Inv(s: State) {
    BasicOk(s) && MarkedOk(s) && PendingOk(s) && BlockedOk(s)
  }

  lemma InitInv(s: State)
    requires Init(s)
    ensures Inv(s)
  {
  }

  lemma {:induction false} LoopKeepsBasic(s: State, c: Choice)
    requires BasicOk(s) && ChoiceOk(s, c)
    ensures BasicOk(LoopStep(s, c))
  {
  }

  lemma {:induction false} LoopKeepsMarked(s: State, c: Choice)
    requires BasicOk(s) && ChoiceOk(s, c) && MarkedOk(s)
    ensures MarkedOk(LoopStep(s, c))
  {
    var s' := LoopStep(s, c);
    RaisingStays(s, s');
  }

  lemma RaisingStays(s: State, s': State)
    requires s'.senders == s.senders
    requires LoopSender(s.loop).STest? || LoopSender(s.loop).SFlag? ==>
      LoopSender(s'.loop).STest? || LoopSender(s'.loop).SFlag? || s'.m.asyncPending
    ensures Raising(s) ==> Raising(s') || s'.m.asyncPending
  {
    hide LoopSender;
    if t :| t in s.senders && (s.senders[t].STest? || s.senders[t].SFlag?) {
      assert s'.senders[t] == s.senders[t];
    }
  }

  lemma {:induction false} LoopKeepsPending(s: State, c: Choice)
    requires BasicOk(s) && ChoiceOk(s, c) && PendingOk(s)
    ensures PendingOk(LoopStep(s, c))
  {
    var s' := LoopStep(s, c);
    if t :| t in s.senders && (s.senders[t].SSkip? || s.senders[t].SUnskip? || s.senders[t].SWrite?) {
      assert s'.senders[t] == s.senders[t];
    }
  }

  lemma {:induction false} LoopKeepsBlocked(s: State, c: Choice)
    requires BasicOk(s) && ChoiceOk(s, c)
    ensures BlockedOk(LoopStep(s, c))
  {
  }

  lemma {:induction false} SenderKeeps(m: Shared, pc: SenderPc)
    requires Mentions(m, pc) && |m.count| == |m.sent|
    ensures var (m', pc') := SenderStep(m, pc);
      && |m'.sent| == |m'.count| == |m.sent| && Mentions(m', pc')
      && m'.capacity == m.capacity && m'.wanted == m.wanted
  {
  }

  lemma {:induction false} ThreadKeepsBasic(s: State, t: Thread, w: Watcher)
    requires BasicOk(s) && t in s.senders && w < |s.m.sent|
    ensures BasicOk(ThreadStep(s, t, w))
  {
    hide SenderStep;
    SenderKeeps(s.m, s.senders[t]);
  }

  lemma {:induction false} ThreadKeepsMarked(s: State, t: Thread, w: Watcher)
    requires BasicOk(s) && t in s.senders && w < |s.m.sent| && MarkedOk(s)
    ensures MarkedOk(ThreadStep(s, t, w))
  {
    var s' := ThreadStep(s, t, w);
    if s.senders[t].SMark? || s.senders[t].STest? {
      assert s'.senders[t].STest? || s'.senders[t].SFlag? || s'.m.asyncPending;
    }
    if u :| u in s.senders && u != t && (s.senders[u].STest? || s.senders[u].SFlag?) {
      assert s'.senders[u] == s.senders[u];
    }
  }

  lemma {:induction false} ThreadKeepsPending(s: State, t: Thread, w: Watcher)
    requires BasicOk(s) && t in s.senders && w < |s.m.sent| && PendingOk(s)
    ensures PendingOk(ThreadStep(s, t, w))
  {
    var s' := ThreadStep(s, t, w);
    assert s'.senders[t] == s'.senders[t];
    if u :| u in s.senders && u != t && (s.senders[u].SSkip? || s.senders[u].SUnskip? || s.senders[u].SWrite?) {
      assert s'.senders[u] == s.senders[u];
    }
  }

  lemma {:induction false} ThreadKeepsBlocked(s: State, t: Thread, w: Watcher)
    requires BasicOk(s) && t in s.senders && w < |s.m.sent| && BlockedOk(s)
    ensures BlockedOk(ThreadStep(s, t, w))
  {
    var s' := ThreadStep(s, t, w);
    if s'.loop == LPoll(true) && s'.m.skipped {
      if s.senders[t].SSkip? || s.senders[t].SWanted? {
        assert s'.senders[t].SWanted? || s'.senders[t].SUnskip?;
      } else {
        var u :| u in s.senders && (s.senders[u].SWanted? || s.senders[u].SUnskip?);
        assert s'.senders[u] == s.senders[u];
      }
    }
  }

  /** Every step of the loop and of every sender keeps the invariant. */
  lemma {:induction false} StepKeepsInv(s: State, step: Step)
    requires Inv(s) && Enabled(s, step)
    ensures Inv(Next(s, step))
  {
    hide BasicOk, MarkedOk, PendingOk, BlockedOk, WellTyped, LoopStep, ThreadStep;
    match step {
      case ByLoop(c) =>
        LoopKeepsBasic(s, c);
        LoopKeepsMarked(s, c);
        LoopKeepsPending(s, c);
        LoopKeepsBlocked(s, c);
      case ByThread(t, w) =>
        ThreadKeepsBasic(s, t, w);
        ThreadKeepsMarked(s, t, w);
        ThreadKeepsPending(s, t, w);
        ThreadKeepsBlocked(s, t, w);
    }
  }

  // ---------------------------------------------------------------------
  // Runs
  // ---------------------------------------------------------------------

  ghost predicate IsPath(states: seq<State>, steps: seq<Step>) {
    && |states| == |steps| + 1
    && forall i | 0 <= i < |steps| :: Enabled(states[i], steps[i]) && Next(states[i], steps[i]) == states[i + 1]
  }

  lemma {:induction false} PathKeepsInv(states: seq<State>, steps: seq<Step>, k: nat)
    requires IsPath(states, steps) && k <= |steps| && Inv(states[0])
    ensures Inv(states[k])
  {
    hide Inv, Enabled, Next;
    if k > 0 {
      PathKeepsInv(states, steps, k - 1);
      assert Enabled(states[k - 1], steps[k - 1]) && Next(states[k - 1], steps[k - 1]) == states[k];
      StepKeepsInv(states[k - 1], steps[k - 1]);
    }
  }

  ghost predicate NobodySending(s: State) {
    forall t <- s.senders :: s.senders[t] == SIdle
  }

  /** No lost wake-up: in every run, whenever the loop is blocked in poll and no
      call is under way, a marked watcher or a raised pending flag means that the
      pipe is readable, so poll returns. */
  lemma {:induction false} NoLostWakeup(states: seq<State>, steps: seq<Step>, k: nat)
    requires IsPath(states, steps) && k <= |steps| && Init(states[0])
    requires states[k].loop == LPoll(true) && NobodySending(states[k])
    ensures (exists w :: 0 <= w < |states[k].m.sent| && states[k].m.sent[w]) ==> states[k].m.asyncPending
    ensures states[k].m.asyncPending ==> states[k].m.pipe > 0
  {
    hide Enabled, Next;
    InitInv(states[0]);
    PathKeepsInv(states, steps, k);
  }

  // ---------------------------------------------------------------------
  // Delivery
  // ---------------------------------------------------------------------

  /** s' comes from s by steps of the loop alone. */
  ghost predicate LoopLeads(s: State, s': State) {
    exists states: seq<State>, cs: seq<Choice> :: LoopPath(states, cs) && states[0] == s && states[|cs|] == s'
  }

  ghost predicate LoopPath(states: seq<State>, cs: seq<Choice>) {
    && |states| == |cs| + 1
    && forall i | 0 <= i < |cs| :: LoopMove(states[i], cs[i], states[i + 1])
  }

  predicate LoopMove(s: State, c: Choice, s': State) {
    Enabled(s, ByLoop(c)) && LoopStep(s, c) == s'
  }

  lemma LeadsNowhere(s: State)
    ensures LoopLeads(s, s)
  {
    assert LoopPath([s], []);
  }

  lemma LeadsOn(s: State, c: Choice, s': State)
    requires Enabled(s, ByLoop(c)) && LoopLeads(LoopStep(s, c), s')
    ensures LoopLeads(s, s')
  {
    LeadsFrom(s, c, LoopStep(s, c), s');
  }

  lemma LeadsFrom(s: State, c: Choice, s1: State, s': State)
    requires LoopMove(s, c, s1) && LoopLeads(s1, s')
    ensures LoopLeads(s, s')
  {
    hide LoopMove;
    var states, cs :| LoopPath(states, cs) && states[0] == s1 && states[|cs|] == s';
    var states', cs' := [s] + states, [c] + cs;
    forall i | 0 <= i < |cs'| ensures LoopMove(states'[i], cs'[i], states'[i + 1]) {
      if i > 0 {
        assert LoopMove(states[i - 1], cs[i - 1], states[i]);
      }
    }
    assert LoopPath(states', cs');
  }

  /** The watchers below i that are marked, which a scan from i feeds. */
  function Marked(m: Shared, i: nat): set<Watcher>
    requires i <= |m.sent|
  {
    set w | 0 <= w < i && m.sent[w]
  }

  /** The scan clears every mark below i and feeds exactly those watchers. */
  lemma {:induction false} ScanFeeds(s: State, i: nat) returns (s': State)
    requires WellTyped(s) && s.loop == LScan(i)
    ensures LoopLeads(s, s') && s'.loop == LInvoke && s'.senders == s.senders
    ensures s'.fed == s.fed + Marked(s.m, i)
    ensures |s'.m.sent| == |s.m.sent| && s'.m.asyncPending == s.m.asyncPending
    ensures forall w | 0 <= w < |s.m.sent| :: s'.m.sent[w] == (s.m.sent[w] && w >= i)
    decreases i
  {
    hide LoopLeads;
    if i == 0 {
      s' := LoopStep(s, Nothing);
      LeadsNowhere(s');
      LeadsOn(s, Nothing, s');
    } else {
      var s1 := LoopStep(s, Nothing);
      if s.m.sent[i - 1] {
        var s2 := LoopStep(s1, Nothing);
        s' := ScanFeeds(s2, i - 1);
        assert Marked(s.m, i) == Marked(s2.m, i - 1) + {i - 1};
        LeadsOn(s1, Nothing, s');
      } else {
        s' := ScanFeeds(s1, i - 1);
        assert Marked(s.m, i) == Marked(s1.m, i - 1);
      }
      LeadsOn(s, Nothing, s');
    }
  }

  /** From pipecb with the pending flag up, the loop feeds every marked watcher. */
  lemma {:induction false} PipecbFeeds(s: State) returns (s': State)
    requires WellTyped(s) && s.loop == LUnskip && s.m.asyncPending
    ensures LoopLeads(s, s') && s'.loop == LInvoke && s'.senders == s.senders
    ensures s'.fed == s.fed + Marked(s.m, |s.m.sent|)
    ensures !s'.m.asyncPending && forall w | 0 <= w < |s'.m.sent| :: !s'.m.sent[w]
  {
    hide LoopLeads;
    var s1 := LoopStep(s, Nothing);
    var s2 := LoopStep(s1, Nothing);
    var s3 := LoopStep(s2, Nothing);
    s' := ScanFeeds(s3, |s.m.sent|);
    LeadsOn(s2, Nothing, s');
    LeadsOn(s1, Nothing, s');
    LeadsOn(s, Nothing, s');
  }

  lemma LeadsThrough(s: State, s1: State, s2: State)
    requires LoopLeads(s, s1) && LoopLeads(s1, s2)
    ensures LoopLeads(s, s2)
  {
    hide LoopMove;
    var a, cs :| LoopPath(a, cs) && a[0] == s && a[|cs|] == s1;
    var b, ds :| LoopPath(b, ds) && b[0] == s1 && b[|ds|] == s2;
    var states := a[..|cs|] + b;
    forall i | 0 <= i < |cs + ds| ensures LoopMove(states[i], (cs + ds)[i], states[i + 1]) {
      if i < |cs| {
        assert LoopMove(a[i], cs[i], a[i + 1]);
      } else {
        assert LoopMove(b[i - |cs|], ds[i - |cs|], b[i - |cs| + 1]);
      }
    }
    assert LoopPath(states, cs + ds);
  }

  /** Poll returns and pipecb is called when the pipe or the flag says so. */
  lemma {:induction false} PollWakes(s: State) returns (s': State)
    requires WellTyped(s) && s.loop.LPoll? && (s.m.skipped || s.m.pipe > 0)
    ensures LoopLeads(s, s') && WellTyped(s') && s'.loop == LUnskip && s'.fed == s.fed
    ensures s'.m.sent == s.m.sent && s'.m.asyncPending == s.m.asyncPending
  {
    hide LoopLeads;
    var s1 := LoopStep(s, Nothing);
    var s2 := LoopStep(s1, Nothing);
    var s3 := LoopStep(s2, Nothing);
    var s4 := LoopStep(s3, Proceed);
    s' := if s4.loop == LRead then LoopStep(s4, Nothing) else s4;
    LeadsNowhere(s');
    if s4.loop == LRead { LeadsOn(s4, Nothing, s'); }
    LeadsOn(s3, Proceed, s');
    LeadsOn(s2, Nothing, s');
    LeadsOn(s1, Nothing, s');
    LeadsOn(s, Nothing, s');
  }

  /** Delivery: whenever the loop is in poll with a watcher marked and no call is
      under way, the loop on its own gets to a state in which every marked
      watcher's callback is pending and nothing is left marked. */
  lemma {:induction false} MarkedIsDelivered(s: State, w: Watcher) returns (s': State)
    requires Inv(s) && s.loop.LPoll? && NobodySending(s) && w < |s.m.sent| && s.m.sent[w]
    ensures LoopLeads(s, s') && s'.loop == LInvoke
    ensures s'.fed == s.fed + Marked(s.m, |s.m.sent|) && w in s'.fed
    ensures !s'.m.asyncPending && forall v | 0 <= v < |s'.m.sent| :: !s'.m.sent[v]
  {
    hide LoopLeads, LoopStep;
    assert s.m.asyncPending && (s.m.skipped || s.m.pipe > 0);
    var s1 := PollWakes(s);
    s' := PipecbFeeds(s1);
    LeadsThrough(s, s1, s');
  }

  // ---------------------------------------------------------------------
  // Delivery cannot be avoided
  // ---------------------------------------------------------------------

  /** No sender thread is past the test of the pending flag. */
  ghost predicate Calm(s: State) {
    forall t <- s.senders :: Early(s.senders[t])
  }

  predicate Early(pc: SenderPc) {
    pc.SIdle? || pc.SCount? || pc.SCheck? || pc.SMark? || pc.STest?
  }

  /** From here the loop feeds w before it invokes callbacks. */
  ghost predicate OnWay(s: State, w: Watcher) {
    && w < |s.m.sent| && s.m.sent[w]
    && match s.loop
       case LPoll(_) => s.m.asyncPending && (s.m.skipped || s.m.pipe > 0) && Calm(s)
       case LUnwant(readable) => s.m.asyncPending && (s.m.skipped || readable) && Calm(s)
       case LCheckSkip(readable) => s.m.asyncPending && (s.m.skipped || readable) && Calm(s)
       case LEarly(readable, custom) => s.m.asyncPending && (custom || readable)
       case LSending(_, after) => s.m.asyncPending && after.ToEarly? && (after.custom || after.readable)
       case LScan(i) => w < i
       case LClearSent(i) => w <= i
       case _ => s.m.asyncPending && (s.loop.LRead? || ToTest(s.loop))
  }

  /** The step that clears w's mark and feeds it. */
  predicate Feeds(s: State, step: Step, w: Watcher) {
    s.loop == LClearSent(w) && step.ByLoop?
  }

  /** The steps a call still takes at most. */
  function CallSteps(pc: SenderPc): nat {
    match pc
    case SCount(_) => 9
    case SCheck(_) => 8
    case SMark(_) => 7
    case STest => 6
    case SFlag => 5
    case SSkip => 4
    case SWanted => 3
    case SUnskip => 2
    case SWrite => 1
    case SIdle => 0
  }

  /** What one more call by the loop thread adds: its steps, and beginning and ending it. */
  const CALL_COST: nat := 11

  /** The loop's steps until it has fed w, calls of its own left out. */
  function Distance(s: State, w: Watcher): int {
    var scan := 2 * (|s.m.sent| - w);
    match s.loop
    case LScan(i) => 2 * (i - w)
    case LClearSent(i) => 2 * (i - w) + 1
    case LClearPending => scan + 1
    case LTestPending => scan + 2
    case LUnskip => scan + 3
    case LRead => scan + 4
    case LEarly(_, _) => scan + 5
    case LSending(pc, _) => scan + 6 + CallSteps(pc)
    case LCheckSkip(_) => scan + 6
    case LUnwant(_) => scan + 7
    case _ => scan + 8
  }

  function LoopCost(step: Step): int {
    if step.ByLoop? then 1 else 0
  }

  function SendCost(step: Step): int {
    if step.ByLoop? && step.c.Send? then CALL_COST else 0
  }

  lemma {:induction false} PollOnWay(s: State, w: Watcher)
    requires Inv(s) && s.loop.LPoll? && w < |s.m.sent| && s.m.sent[w] && Calm(s) && s.m.asyncPending
    ensures OnWay(s, w)
  {
  }

  lemma {:induction false} LoopOnWay(s: State, c: Choice, w: Watcher)
    requires WellTyped(s) && ChoiceOk(s, c) && OnWay(s, w) && !s.loop.LSending?
    ensures var t := LoopStep(s, c);
      || Feeds(s, ByLoop(c), w)
      || (OnWay(t, w) && Distance(t, w) + 1 <= Distance(s, w) + SendCost(ByLoop(c)))
  {
  }

  lemma {:induction false} CallOnWay(s: State, c: Choice, w: Watcher)
    requires WellTyped(s) && ChoiceOk(s, c) && OnWay(s, w) && s.loop.LSending?
    ensures OnWay(LoopStep(s, c), w) && Distance(LoopStep(s, c), w) + 1 <= Distance(s, w)
  {
  }

  lemma {:induction false} ThreadOnWay(s: State, t: Thread, v: Watcher, w: Watcher)
    requires WellTyped(s) && t in s.senders && v < |s.m.sent| && OnWay(s, w)
    ensures OnWay(ThreadStep(s, t, v), w) && Distance(ThreadStep(s, t, v), w) == Distance(s, w)
  {
  }

  /** Whoever steps, w stays on its way and the loop's steps bring it nearer. */
  lemma {:induction false} StepOnWay(s: State, step: Step, w: Watcher)
    requires Enabled(s, step) && OnWay(s, w)
    ensures var t := Next(s, step);
      || Feeds(s, step, w)
      || (OnWay(t, w) && Distance(t, w) + LoopCost(step) <= Distance(s, w) + SendCost(step))
  {
    hide OnWay, Distance, WellTyped, LoopStep, ThreadStep, Feeds;
    match step {
      case ByLoop(c) =>
        if s.loop.LSending? { CallOnWay(s, c, w); } else { LoopOnWay(s, c, w); }
      case ByThread(t, v) => ThreadOnWay(s, t, v, w);
    }
  }

  /** The steps of the loop in a path, and what the calls it begins may add. */
  function LoopCosts(steps: seq<Step>): int {
    if steps == [] then 0 else LoopCosts(steps[..|steps| - 1]) + LoopCost(steps[|steps| - 1])
  }

  function SendCosts(steps: seq<Step>): int {
    if steps == [] then 0 else SendCosts(steps[..|steps| - 1]) + SendCost(steps[|steps| - 1])
  }

  lemma {:induction false} StillOnWay(states: seq<State>, steps: seq<Step>, w: Watcher)
    requires IsPath(states, steps) && OnWay(states[0], w)
    requires forall k | 0 <= k < |steps| :: !Feeds(states[k], steps[k], w)
    ensures OnWay(states[|steps|], w)
    ensures Distance(states[|steps|], w) + LoopCosts(steps) <= Distance(states[0], w) + SendCosts(steps)
    decreases |steps|
  {
    hide OnWay, Distance, Feeds, Enabled, Next;
    if steps != [] {
      var n := |steps| - 1;
      var states', steps' := states[..n + 1], steps[..n];
      forall i | 0 <= i < n
        ensures Enabled(states'[i], steps'[i]) && Next(states'[i], steps'[i]) == states'[i + 1]
        ensures !Feeds(states'[i], steps'[i], w)
      {
        assert Enabled(states[i], steps[i]) && Next(states[i], steps[i]) == states[i + 1];
        assert !Feeds(states[i], steps[i], w);
      }
      StillOnWay(states', steps', w);
      assert Enabled(states[n], steps[n]) && Next(states[n], steps[n]) == states[n + 1];
      StepOnWay(states[n], steps[n], w);
    }
  }

  lemma OnWayAhead(s: State, w: Watcher)
    requires OnWay(s, w)
    ensures Distance(s, w) > 0
  {
  }

  lemma FeedsIt(states: seq<State>, steps: seq<Step>, k: nat, w: Watcher)
    requires IsPath(states, steps) && k < |steps| && Feeds(states[k], steps[k], w)
    ensures w in states[k + 1].fed
  {
    hide WellTyped;
    assert Enabled(states[k], steps[k]) && Next(states[k], steps[k]) == states[k + 1];
  }

  /** Delivery is inevitable: whatever the sender threads do meanwhile and whatever the
      loop chooses, w is fed within Distance steps of the loop, not counting the calls the
      loop makes itself. */
  lemma DeliveryInevitable(states: seq<State>, steps: seq<Step>, w: Watcher)
    requires IsPath(states, steps) && Inv(states[0]) && states[0].loop.LPoll? && Calm(states[0])
    requires w < |states[0].m.sent| && states[0].m.sent[w] && states[0].m.asyncPending
    requires LoopCosts(steps) >= 2 * (|states[0].m.sent| - w) + 8 + SendCosts(steps)
    ensures exists k | 0 <= k < |steps| :: Feeds(states[k], steps[k], w) && w in states[k + 1].fed
  {
    hide OnWay, Inv, Feeds, Enabled, Next;
    PollOnWay(states[0], w);
    if k :| 0 <= k < |steps| && Feeds(states[k], steps[k], w) {
      FeedsIt(states, steps, k, w);
    } else {
      StillOnWay(states, steps, w);
      OnWayAhead(states[|steps|], w);
    }
  }

  // ---------------------------------------------------------------------
  // A send is delivered
  // ---------------------------------------------------------------------

  /** Who may be in a call of send. */
  datatype Caller = SenderThread(t: Thread) | LoopThread

  /** How far the caller's call is. */
  function CallOf(s: State, c: Caller): SenderPc {
    match c
    case SenderThread(t) => if t in s.senders then s.senders[t] else SIdle
    case LoopThread => LoopSender(s.loop)
  }

  predicate Moves(step: Step, c: Caller) {
    match c
    case SenderThread(t) => step.ByThread? && step.t == t
    case LoopThread => step.ByLoop?
  }

  /** A call is moved by its own caller alone, and returns within nine steps. */
  lemma {:induction false} CallMoves(s: State, step: Step, c: Caller)
    requires Enabled(s, step) && CallOf(s, c) != SIdle
    ensures var s' := Next(s, step);
      if Moves(step, c)
      then SenderStep(s.m, CallOf(s, c)) == (s'.m, CallOf(s', c)) && CallSteps(CallOf(s', c)) < CallSteps(CallOf(s, c))
      else CallOf(s', c) == CallOf(s, c)
  {
    hide SenderStep;
    FewerSteps(s.m, CallOf(s, c));
  }

  lemma FewerSteps(m: Shared, pc: SenderPc)
    requires Mentions(m, pc) && |m.count| == |m.sent| && pc != SIdle
    ensures CallSteps(SenderStep(m, pc).1) < CallSteps(pc)
  {
  }

  predicate RunsUserCode(l: LoopPc) {
    l.LEarly? || l.LInvoke? || l.LCallback?
  }

  /** A sender thread that has no call under way begins one, and so does the loop where the
      application runs in it. */
  lemma {:induction false} SendBegins(states: seq<State>, steps: seq<Step>, k: nat)
    requires IsPath(states, steps) && k < |steps|
    ensures steps[k].ByThread? && CallOf(states[k], SenderThread(steps[k].t)) == SIdle ==>
      CallOf(states[k + 1], SenderThread(steps[k].t)) == SCount(steps[k].w)
    ensures steps[k].ByLoop? && steps[k].c.Send? && RunsUserCode(states[k].loop) ==>
      CallOf(states[k + 1], LoopThread) == SCount(steps[k].c.w)
  {
    assert Enabled(states[k], steps[k]) && Next(states[k], steps[k]) == states[k + 1];
  }

  predicate MarkedIn(s: State, w: Watcher) {
    w < |s.m.sent| && s.m.sent[w]
  }

  /** A call on w that has yet to test or set the mark. */
  predicate Towards(pc: SenderPc, w: Watcher) {
    pc == SCount(w) || pc == SCheck(w) || pc == SMark(w)
  }

  lemma {:induction false} SendStep(s: State, step: Step, c: Caller, w: Watcher)
    requires Enabled(s, step) && Towards(CallOf(s, c), w)
    ensures Towards(CallOf(Next(s, step), c), w) || MarkedIn(Next(s, step), w)
  {
    hide Next, Enabled;
    CallMoves(s, step, c);
    CallMentions(s, step, c);
  }

  lemma CallMentions(s: State, step: Step, c: Caller)
    requires Enabled(s, step)
    ensures Mentions(s.m, CallOf(s, c)) && |s.m.count| == |s.m.sent|
  {
  }

  /** From state i to state k the caller is in one call of send on w, which has returned in
      state k. */
  ghost predicate Send(states: seq<State>, i: nat, k: nat, c: Caller, w: Watcher) {
    && i < k < |states|
    && CallOf(states[i], c) == SCount(w) && CallOf(states[k], c) == SIdle
    && forall n | i <= n < k :: CallOf(states[n], c) != SIdle
  }

  lemma {:induction false} MarksBy(states: seq<State>, steps: seq<Step>, i: nat, k: nat, c: Caller, w: Watcher, n: nat)
    requires IsPath(states, steps) && Send(states, i, k, c, w) && i <= n <= k
    ensures Towards(CallOf(states[n], c), w) || exists j | i < j <= n :: MarkedIn(states[j], w)
  {
    hide Enabled, Next, CallOf, MarkedIn;
    if i < n {
      MarksBy(states, steps, i, k, c, w, n - 1);
      if Towards(CallOf(states[n - 1], c), w) {
        assert Enabled(states[n - 1], steps[n - 1]) && Next(states[n - 1], steps[n - 1]) == states[n];
        SendStep(states[n - 1], steps[n - 1], c, w);
      }
    }
  }

  /** Every call of send, by whichever thread, is answered by a mark: its own, or one that it
      found. */
  lemma SendMarks(states: seq<State>, steps: seq<Step>, i: nat, k: nat, c: Caller, w: Watcher) returns (j: nat)
    requires IsPath(states, steps) && Send(states, i, k, c, w)
    ensures i < j <= k && MarkedIn(states[j], w)
  {
    hide Enabled, Next, CallOf, MarkedIn;
    MarksBy(states, steps, i, k, c, w, k);
    j :| i < j <= k && MarkedIn(states[j], w);
  }

  /** Only the scan, feeding w, clears its mark. */
  lemma {:induction false} MarkStep(s: State, step: Step, w: Watcher)
    requires Enabled(s, step) && MarkedIn(s, w)
    ensures MarkedIn(Next(s, step), w) || Feeds(s, step, w)
  {
  }

  ghost predicate FedBetween(states: seq<State>, steps: seq<Step>, j: nat, n: nat, w: Watcher)
    requires |states| == |steps| + 1 && n <= |steps|
  {
    exists f | j <= f < n :: Feeds(states[f], steps[f], w) && w in states[f + 1].fed
  }

  lemma {:induction false} MarkStays(states: seq<State>, steps: seq<Step>, j: nat, n: nat, w: Watcher)
    requires IsPath(states, steps) && j <= n <= |steps| && MarkedIn(states[j], w)
    ensures MarkedIn(states[n], w) || FedBetween(states, steps, j, n, w)
  {
    hide Enabled, Next, Feeds, MarkedIn;
    if j < n {
      MarkStays(states, steps, j, n - 1, w);
      if MarkedIn(states[n - 1], w) {
        assert Enabled(states[n - 1], steps[n - 1]) && Next(states[n - 1], steps[n - 1]) == states[n];
        MarkStep(states[n - 1], steps[n - 1], w);
        if Feeds(states[n - 1], steps[n - 1], w) { FeedsIt(states, steps, n - 1, w); }
      }
    }
  }

  /** When a send returns, w has been fed since it began, or is marked and announced. */
  lemma SendIsAnnounced(states: seq<State>, steps: seq<Step>, i: nat, k: nat, c: Caller, w: Watcher)
    requires IsPath(states, steps) && Init(states[0]) && Send(states, i, k, c, w)
    ensures FedBetween(states, steps, i, k, w) ||
      (MarkedIn(states[k], w) && (states[k].m.asyncPending || Raising(states[k]) || ToScan(states[k].loop, w)))
  {
    hide Enabled, Next, CallOf, Feeds, Raising, BasicOk, PendingOk, BlockedOk;
    var j := SendMarks(states, steps, i, k, c, w);
    MarkStays(states, steps, j, k, w);
    InitInv(states[0]);
    PathKeepsInv(states, steps, k);
  }

  /** Nobody has set a mark and not yet announced it. */
  ghost predicate Quiet(s: State) {
    forall t <- s.senders :: Early(s.senders[t]) && !s.senders[t].STest?
  }

  lemma AnnouncedInPoll(s: State, w: Watcher)
    requires Inv(s) && s.loop.LPoll? && Quiet(s) && MarkedIn(s, w)
    ensures Calm(s) && s.m.asyncPending
  {
  }

  lemma PathFrom(states: seq<State>, steps: seq<Step>, n: nat)
    requires IsPath(states, steps) && n <= |steps|
    ensures IsPath(states[n..], steps[n..])
  {
    hide Enabled, Next;
    var states', steps' := states[n..], steps[n..];
    forall i | 0 <= i < |steps'|
      ensures Enabled(states'[i], steps'[i]) && Next(states'[i], steps'[i]) == states'[i + 1]
    {
      assert Enabled(states[n + i], steps[n + i]) && Next(states[n + i], steps[n + i]) == states[n + i + 1];
    }
  }

  /** From send to feed: in every run, a watcher that anybody has sent on is fed after the
      send began and within the stated steps of the loop after it next polls with nobody in
      the middle of announcing, whatever all threads do then. */
  lemma SendIsDelivered(states: seq<State>, steps: seq<Step>, i: nat, k: nat, n: nat, c: Caller, w: Watcher)
    requires IsPath(states, steps) && Init(states[0]) && Send(states, i, k, c, w)
    requires k <= n <= |steps| && states[n].loop.LPoll? && Quiet(states[n])
    requires LoopCosts(steps[n..]) >= 2 * (|states[n].m.sent| - w) + 8 + SendCosts(steps[n..])
    ensures FedBetween(states, steps, i, |steps|, w)
  {
    hide Enabled, Next, Send, Feeds, Inv, Quiet, Calm, LoopCosts, SendCosts;
    var j := SendMarks(states, steps, i, k, c, w);
    MarkStays(states, steps, j, n, w);
    if !FedBetween(states, steps, j, n, w) {
      InitInv(states[0]);
      PathKeepsInv(states, steps, n);
      AnnouncedInPoll(states[n], w);
      PathFrom(states, steps, n);
      DeliveryInevitable(states[n..], steps[n..], w);
      var f :| 0 <= f < |steps[n..]| && Feeds(states[n..][f], steps[n..][f], w) && w in states[n..][f + 1].fed;
      assert Feeds(states[n + f], steps[n + f], w) && w in states[n + f + 1].fed;
    }
  }

  // ---------------------------------------------------------------------
  // A fed watcher's callback runs
  // ---------------------------------------------------------------------

  lemma {:induction false} FedStep(s: State, step: Step, w: Watcher)
    requires Enabled(s, step) && w in s.fed
    ensures w in Next(s, step).fed || Next(s, step).loop == LCallback(w)
    ensures Next(s, step).loop == LWant ==> s.loop == LWant
  {
  }

  /** The callback of a fed watcher runs before the loop goes round again. */
  lemma {:induction false} FedIsCalled(states: seq<State>, steps: seq<Step>, a: nat, b: nat, w: Watcher)
    requires IsPath(states, steps) && a < b <= |steps| && w in states[a].fed
    requires states[a].loop != LWant && states[b].loop == LWant
    ensures exists n | a < n < b :: states[n].loop == LCallback(w)
  {
    hide Enabled, Next;
    if forall n | a < n < b :: states[n].loop != LCallback(w) {
      StillFed(states, steps, a, b, w);
    }
  }

  lemma {:induction false} StillFed(states: seq<State>, steps: seq<Step>, a: nat, b: nat, w: Watcher)
    requires IsPath(states, steps) && a <= b <= |steps| && w in states[a].fed && states[a].loop != LWant
    requires forall n | a < n <= b :: states[n].loop != LCallback(w)
    ensures w in states[b].fed && states[b].loop != LWant
  {
    hide Enabled, Next;
    if a < b {
      StillFed(states, steps, a, b - 1, w);
      assert Enabled(states[b - 1], steps[b - 1]) && Next(states[b - 1], steps[b - 1]) == states[b];
      FedStep(states[b - 1], steps[b - 1], w);
    }
  }

  /** What a callback takes: itself, its end, and the send that may follow. */
  const CALLBACK_COST: nat := 13

  /** The loop's steps until it goes round again, calls that its callbacks make left out. */
  function Rest(s: State): int {
    var invoking := CALLBACK_COST * |s.fed| + 1;
    var scanned := (CALLBACK_COST + 2) * |s.m.sent| + invoking;
    match s.loop
    case LInvoke => invoking
    case LCallback(_) => invoking + 12
    case LDecrement(_) => invoking + 11
    case LSending(pc, after) =>
      CallSteps(pc) + 1 +
        (match after case ToEarly(_, _) => scanned + 6 case ToInvoke => invoking case ToCallback(_) => invoking + 12)
    case LScan(i) => (CALLBACK_COST + 2) * i + invoking + 1
    case LClearSent(i) => (CALLBACK_COST + 2) * i + invoking + CALLBACK_COST + 2
    case LClearPending => scanned + 2
    case LTestPending => scanned + 3
    case LUnskip => scanned + 4
    case LRead => scanned + 5
    case LEarly(_, _) => scanned + 6
    case LCheckSkip(_) => scanned + 7
    case LUnwant(_) => scanned + 8
    case LPoll(_) => scanned + 9
    case LTest => scanned + 10
    case LWant => scanned + 11
  }

  /** The invoking loop runs a callback while there is one. */
  predicate Idles(s: State, step: Step) {
    s.loop.LInvoke? && step.ByLoop? && !step.c.Send? && !step.c.RunCallback? && !step.c.Return?
  }

  predicate GoesRound(s: State, s': State) {
    s.loop != LWant && s'.loop == LWant
  }

  lemma FewerFed(fed: set<Watcher>, w: Watcher)
    ensures |fed + {w}| <= |fed| + 1
    ensures w in fed ==> |fed - {w}| == |fed| - 1
  {
  }

  lemma {:induction false} RoundCall(s: State, c: Choice)
    requires WellTyped(s) && ChoiceOk(s, c) && s.loop.LSending?
    ensures Rest(LoopStep(s, c)) + 1 <= Rest(s) && LoopStep(s, c).loop != LWant
  {
    hide SenderStep;
    CallMentions(s, ByLoop(c), LoopThread);
    if s.loop.pc != SIdle { FewerSteps(s.m, s.loop.pc); }
    SenderKeeps(s.m, s.loop.pc);
  }

  lemma {:induction false} RoundLoop(s: State, c: Choice)
    requires WellTyped(s) && ChoiceOk(s, c) && !s.loop.LSending? && !Idles(s, ByLoop(c))
    ensures GoesRound(s, LoopStep(s, c)) || Rest(LoopStep(s, c)) + 1 <= Rest(s) + SendCost(ByLoop(c))
  {
    if s.loop.LClearSent? { FewerFed(s.fed, s.loop.i); }
    if c.RunCallback? { FewerFed(s.fed, c.w); }
  }

  lemma {:induction false} RoundThread(s: State, t: Thread, w: Watcher)
    requires WellTyped(s) && t in s.senders && w < |s.m.sent|
    ensures Rest(ThreadStep(s, t, w)) == Rest(s)
  {
    hide SenderStep;
    SenderKeeps(s.m, s.senders[t]);
  }

  lemma {:induction false} RoundStep(s: State, step: Step)
    requires Enabled(s, step) && !Idles(s, step)
    ensures GoesRound(s, Next(s, step)) ||
      Rest(Next(s, step)) + LoopCost(step) <= Rest(s) + SendCost(step)
  {
    hide Rest, LoopStep, ThreadStep, Idles;
    match step {
      case ByLoop(c) => if s.loop.LSending? { RoundCall(s, c); } else { RoundLoop(s, c); }
      case ByThread(t, w) => RoundThread(s, t, w);
    }
  }

  lemma {:induction false} RoundLeft(states: seq<State>, steps: seq<Step>)
    requires IsPath(states, steps) && forall k | 0 <= k < |steps| :: !Idles(states[k], steps[k])
    requires forall k | 0 <= k < |steps| :: !GoesRound(states[k], states[k + 1])
    ensures Rest(states[|steps|]) + LoopCosts(steps) <= Rest(states[0]) + SendCosts(steps)
    decreases |steps|
  {
    hide Rest, Enabled, Next, Idles, GoesRound;
    if steps != [] {
      var n := |steps| - 1;
      PathTo(states, steps, n);
      forall k | 0 <= k < n
        ensures !Idles(states[..n + 1][k], steps[..n][k]) && !GoesRound(states[..n + 1][k], states[..n + 1][k + 1])
      {
        assert !Idles(states[k], steps[k]) && !GoesRound(states[k], states[k + 1]);
      }
      RoundLeft(states[..n + 1], steps[..n]);
      assert Enabled(states[n], steps[n]) && Next(states[n], steps[n]) == states[n + 1];
      RoundStep(states[n], steps[n]);
    }
  }

  lemma RestIsPositive(s: State)
    ensures Rest(s) > 0
  {
  }

  /** A round ends: a loop whose invoking loop does not idle goes round within Rest steps, the
      calls its callbacks make left out, whatever the sender threads do. */
  lemma RoundEnds(states: seq<State>, steps: seq<Step>)
    requires IsPath(states, steps) && forall k | 0 <= k < |steps| :: !Idles(states[k], steps[k])
    requires LoopCosts(steps) >= Rest(states[0]) + SendCosts(steps)
    ensures exists k | 0 <= k < |steps| :: GoesRound(states[k], states[k + 1])
  {
    hide Rest, Enabled, Next, Idles;
    if forall k | 0 <= k < |steps| :: !GoesRound(states[k], states[k + 1]) {
      RoundLeft(states, steps);
      RestIsPositive(states[|steps|]);
    }
  }

  // ---------------------------------------------------------------------
  // The wrapper's counter
  // ---------------------------------------------------------------------

  /** What the step adds to the number of calls on w less the callbacks of w that began. */
  function Balance(s: State, step: Step, w: Watcher): int {
    match step
    case ByThread(t, _) => if CallOf(s, SenderThread(t)) == SCount(w) then 1 else 0
    case ByLoop(c) =>
      if CallOf(s, LoopThread) == SCount(w) then 1 else if s.loop.LInvoke? && c == RunCallback(w) then -1 else 0
  }

  /** 1 while a callback of w is under way. */
  function InCallback(l: LoopPc, w: Watcher): int {
    if l == LCallback(w) || l == LDecrement(w) || (l.LSending? && l.after == ToCallback(w)) then 1 else 0
  }

  function Balances(states: seq<State>, steps: seq<Step>, w: Watcher): int
    requires |states| == |steps| + 1
  {
    if steps == [] then 0 else
      var n := |steps| - 1;
      Balances(states[..n + 1], steps[..n], w) + Balance(states[n], steps[n], w)
  }

  /** m' is m with b added to w's counter. */
  predicate Counted(m: Shared, m': Shared, w: Watcher, b: int)
    requires w < |m.sent| == |m.count|
  {
    && |m'.sent| == |m'.count| == |m.sent|
    && m'.count[w] ==
       if b == 0 then m.count[w]
       else if b == 1 then (m.count[w] + 1) % COUNT_SPACE
       else (m.count[w] + COUNT_SPACE - 1) % COUNT_SPACE
  }

  lemma {:induction false} SenderCounts(m: Shared, pc: SenderPc, w: Watcher)
    requires Mentions(m, pc) && w < |m.sent| == |m.count|
    ensures Counted(m, SenderStep(m, pc).0, w, if pc == SCount(w) then 1 else 0)
  {
  }

  lemma {:induction false} StepCounts(s: State, step: Step, w: Watcher)
    requires Enabled(s, step) && w < |s.m.sent|
    ensures |s.m.count| == |s.m.sent|
    ensures Counted(s.m, Next(s, step).m, w,
      Balance(s, step, w) + InCallback(Next(s, step).loop, w) - InCallback(s.loop, w))
  {
    hide SenderStep;
    match step {
      case ByThread(t, _) =>
        SenderCounts(s.m, s.senders[t], w);
      case ByLoop(_) =>
        CallMentions(s, step, LoopThread);
        SenderCounts(s.m, LoopSender(s.loop), w);
    }
  }

  lemma ModStep(a: int, b: int)
    ensures (a % COUNT_SPACE + 1) % COUNT_SPACE == (a + 1) % COUNT_SPACE
    ensures (a % COUNT_SPACE + COUNT_SPACE - 1) % COUNT_SPACE == (a - 1) % COUNT_SPACE
  {
  }

  /** The counter is the number of calls begun less the callbacks ended, modulo 2^32; every
      callback that begins ends by counting itself. */
  lemma {:induction false} CounterIs(states: seq<State>, steps: seq<Step>, w: Watcher)
    requires IsPath(states, steps) && Init(states[0]) && w < |states[0].m.sent|
    ensures w < |states[|steps|].m.count|
    ensures states[|steps|].m.count[w] ==
      (Balances(states, steps, w) + InCallback(states[|steps|].loop, w)) % COUNT_SPACE
    ensures |states[|steps|].m.sent| == |states[0].m.sent|
    decreases |steps|
  {
    hide Enabled, Next, Balance, InCallback;
    if steps != [] {
      var n := |steps| - 1;
      PathTo(states, steps, n);
      CounterIs(states[..n + 1], steps[..n], w);
      assert Enabled(states[n], steps[n]) && Next(states[n], steps[n]) == states[n + 1];
      StepCounts(states[n], steps[n], w);
      BalanceIs(states[n], steps[n], w);
      ModStep(Balances(states[..n + 1], steps[..n], w) + InCallback(states[n].loop, w), 0);
    } else {
      NoCallback(states[0], w);
    }
  }

  lemma BalanceIs(s: State, step: Step, w: Watcher)
    requires Enabled(s, step)
    ensures var b := Balance(s, step, w) + InCallback(Next(s, step).loop, w) - InCallback(s.loop, w);
      && -1 <= b <= 1
      && (b == -1 <==> step.ByLoop? && s.loop == LDecrement(w))
      && (step.ByLoop? && s.loop == LSending(SCount(w), ToInvoke) ==> b == 1)
  {
    hide SenderStep;
  }

  lemma NoCallback(s: State, w: Watcher)
    requires Init(s)
    ensures InCallback(s.loop, w) == 0
  {
  }

  lemma PathTo(states: seq<State>, steps: seq<Step>, n: nat)
    requires IsPath(states, steps) && n <= |steps|
    ensures IsPath(states[..n + 1], steps[..n])
  {
    hide Enabled, Next;
    var states', steps' := states[..n + 1], steps[..n];
    forall i | 0 <= i < n ensures Enabled(states'[i], steps'[i]) && Next(states'[i], steps'[i]) == states'[i + 1] {
      assert Enabled(states[i], steps[i]) && Next(states[i], steps[i]) == states[i + 1];
    }
  }

  /** The counter is above one, or will be when the send that the ended callback makes has
      counted itself. */
  predicate Coalesced(s: State, w: Watcher) {
    && w < |s.m.count|
    && (s.m.count[w] > 1 || (s.m.count[w] == 1 && s.loop == LSending(SCount(w), ToInvoke)))
  }

  lemma {:induction false} Resends(s: State, c: Choice, w: Watcher)
    requires WellTyped(s) && ChoiceOk(s, c) && s.loop == LDecrement(w)
    ensures LoopStep(s, c).loop == if s.m.count[w] > 1 then LSending(SCount(w), ToInvoke) else LInvoke
  {
  }

  lemma {:induction false} CoalescedStep(s: State, step: Step, w: Watcher)
    requires Enabled(s, step) && Coalesced(s, w) && s.m.count[w] < COUNT_SPACE - 1
    ensures Coalesced(Next(s, step), w)
    ensures s.loop == LDecrement(w) && step.ByLoop? ==> Next(s, step).loop == LSending(SCount(w), ToInvoke)
  {
    hide LoopStep, SenderStep;
    ModIs(s.m.count[w]);
    StepCounts(s, step, w);
    BalanceIs(s, step, w);
    if step.ByLoop? && s.loop == LDecrement(w) { Resends(s, step.c, w); }
  }

  lemma ModIs(n: nat)
    requires n < COUNT_SPACE - 1
    ensures (n + 1) % COUNT_SPACE == n + 1
    ensures n > 0 ==> (n + COUNT_SPACE - 1) % COUNT_SPACE == n - 1
  {
  }

  /** The callback's end sends on w again just when another call was counted since the one
      it answers; and that send counts itself, so that, the counter not wrapping round, two
      sends answered by one callback make every later callback of w send again. */
  lemma {:induction false} SendsAgain(states: seq<State>, steps: seq<Step>, a: nat, b: nat, w: Watcher)
    requires IsPath(states, steps) && a <= b < |steps| && Coalesced(states[a], w)
    requires forall n | a <= n <= b :: w < |states[n].m.count| && states[n].m.count[w] < COUNT_SPACE - 1
    ensures Coalesced(states[b], w) && Coalesced(states[b + 1], w)
    ensures states[b].loop == LDecrement(w) && steps[b].ByLoop? ==>
      states[b + 1].loop == LSending(SCount(w), ToInvoke)
  {
    hide Enabled, Next, Coalesced;
    assert Enabled(states[b], steps[b]) && Next(states[b], steps[b]) == states[b + 1];
    if a < b { SendsAgain(states, steps, a, b - 1, w); }
    CoalescedStep(states[b], steps[b], w);
  }

  /** When a callback ends, its wrapper sends again just when the counter was above one. */
  lemma {:induction false} ResendIff(states: seq<State>, steps: seq<Step>, k: nat, w: Watcher)
    requires IsPath(states, steps) && k < |steps| && states[k].loop == LDecrement(w) && steps[k].ByLoop?
    ensures w < |states[k].m.count|
    ensures CallOf(states[k + 1], LoopThread) == SCount(w) <==> states[k].m.count[w] > 1
    ensures states[k].m.count[w] <= 1 ==> states[k + 1].loop == LInvoke
  {
    assert Enabled(states[k], steps[k]) && Next(states[k], steps[k]) == states[k + 1];
  }

  /** One watcher and one sender; the loop has not polled. */
  function Unpolled(count: nat, sent: bool, pending: bool, skipped: bool, pc: SenderPc): State {
    State(Shared([sent], [count], pending, skipped, false, 0, 1, false), map[0 := pc], LWant, {})
  }

  predicate SenderGoes(s: State, s': State) {
    Enabled(s, ByThread(0, 0)) && ThreadStep(s, 0, 0) == s'
  }

  lemma FirstSend()
    ensures SenderGoes(Unpolled(0, false, false, false, SIdle), Unpolled(0, false, false, false, SCount(0)))
    ensures SenderGoes(Unpolled(0, false, false, false, SCount(0)), Unpolled(1, false, false, false, SCheck(0)))
    ensures SenderGoes(Unpolled(1, false, false, false, SCheck(0)), Unpolled(1, false, false, false, SMark(0)))
    ensures SenderGoes(Unpolled(1, false, false, false, SMark(0)), Unpolled(1, true, false, false, STest))
  {
  }

  lemma FirstAnnounced()
    ensures SenderGoes(Unpolled(1, true, false, false, STest), Unpolled(1, true, false, false, SFlag))
    ensures SenderGoes(Unpolled(1, true, false, false, SFlag), Unpolled(1, true, true, false, SSkip))
    ensures SenderGoes(Unpolled(1, true, true, false, SSkip), Unpolled(1, true, true, true, SWanted))
    ensures SenderGoes(Unpolled(1, true, true, true, SWanted), Unpolled(1, true, true, true, SIdle))
  {
  }

  lemma SecondSend()
    ensures SenderGoes(Unpolled(1, true, true, true, SIdle), Unpolled(1, true, true, true, SCount(0)))
    ensures SenderGoes(Unpolled(1, true, true, true, SCount(0)), Unpolled(2, true, true, true, SCheck(0)))
    ensures SenderGoes(Unpolled(2, true, true, true, SCheck(0)), Unpolled(2, true, true, true, SIdle))
  {
  }

  function TwoStates(): seq<State> {
    [Unpolled(0, false, false, false, SIdle), Unpolled(0, false, false, false, SCount(0)),
     Unpolled(1, false, false, false, SCheck(0)), Unpolled(1, false, false, false, SMark(0)),
     Unpolled(1, true, false, false, STest), Unpolled(1, true, false, false, SFlag),
     Unpolled(1, true, true, false, SSkip), Unpolled(1, true, true, true, SWanted),
     Unpolled(1, true, true, true, SIdle), Unpolled(1, true, true, true, SCount(0)),
     Unpolled(2, true, true, true, SCheck(0)), Unpolled(2, true, true, true, SIdle)]
  }

  lemma TwoGoes()
    ensures forall i | 0 <= i < 11 :: SenderGoes(TwoStates()[i], TwoStates()[i + 1])
  {
    hide SenderGoes, Unpolled;
    FirstSend();
    FirstAnnounced();
    SecondSend();
  }

  lemma TwoPath()
    ensures IsPath(TwoStates(), seq(11, _ => ByThread(0, 0)))
  {
    hide ThreadStep, Enabled, Unpolled;
    TwoGoes();
    var states, steps := TwoStates(), seq(11, _ => ByThread(0, 0));
    forall i | 0 <= i < 11 ensures Enabled(states[i], steps[i]) && Next(states[i], steps[i]) == states[i + 1] {
      assert SenderGoes(states[i], states[i + 1]) && steps[i] == ByThread(0, 0);
    }
  }

  /** Two sends before the loop polls are such a case. */
  lemma TwoSends() returns (states: seq<State>, steps: seq<Step>)
    ensures IsPath(states, steps) && Init(states[0]) && Coalesced(states[|steps|], 0)
    ensures |steps| == 11 && Send(states, 1, 8, SenderThread(0), 0) && Send(states, 9, 11, SenderThread(0), 0)
  {
    hide IsPath;
    states, steps := TwoStates(), seq(11, _ => ByThread(0, 0));
    TwoPath();
  }
}
