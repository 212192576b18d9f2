/** Serial tokens: messages of one token run one after the other, in the order of
    their sequence numbers, on whatever worker they were posted to.

    Any number of posters and workers; every load and fetch_add of a token's
    counters, every queue operation, and the start and end of a callable is one
    step.  The queue of a worker is an atomic FIFO. */
module SerialToken {

  type Token = nat
  type Worker = nat
  type Poster = nat

  /** Number of values of sequence_type, std::size_t. */
  const SEQ_SPACE: nat := 0x1_0000_0000_0000_0000

  /** A callable message.  `ticket` counts the posts with this token without
      wrapping round; the code stores only Seq(). */
  datatype Msg = Plain(id: nat) | Serial(token: Token, ticket: nat) {
    function Seq(): nat {
      if Serial? then ticket % SEQ_SPACE else 0
    }
  }

  /** A token: how many numbers were handed out and how many were released.  The
      two atomic counters hold these numbers modulo SEQ_SPACE. */
  datatype Counters = Counters(current: nat, executing: nat)

  datatype PosterPc = Resting | Posting(m: Msg, to: Worker)

  datatype WorkerPc = Polling | Testing(m: Msg) | Running(m: Msg) | Releasing(m: Msg) | Requeueing(m: Msg)

  datatype Event = Started(m: Msg) | Finished(m: Msg)

  /** Where a message is.  A history variable: no step reads it. */
  datatype Place = WithPoster(p: Poster) | InQueue(w: Worker) | InHand(w: Worker) | Done | Dropped

  /** `place`, `target` (the worker a message was posted to) and `log` (starts and
      finishes) are history; no step reads them. */
  datatype State = State(
    tokens: map<Token, Counters>,
    queues: map<Worker, seq<Msg>>,
    stopping: set<Worker>,
    posters: map<Poster, PosterPc>,
    workers: map<Worker, WorkerPc>,
    place: map<Msg, Place>,
    target: map<Msg, Worker>,
    log: seq<Event>)

  datatype Step =
    | Post(p: Poster, to: Worker, token: Token)
    | PostPlain(p: Poster, to: Worker, id: nat)
    | Enqueue(p: Poster)
    | Stop(w: Worker)
    | Work(w: Worker)

  predicate WellTyped(s: State) {
    && s.queues.Keys == s.workers.Keys
    && (forall p <- s.posters :: s.posters[p].Posting? ==>
      MsgOk(s.tokens.Keys, s.posters[p].m) && s.posters[p].to in s.queues)
    && (forall w <- s.workers :: !s.workers[w].Polling? ==> MsgOk(s.tokens.Keys, s.workers[w].m))
    && (forall w <- s.queues, m <- s.queues[w] :: MsgOk(s.tokens.Keys, m))
  }

  predicate MsgOk(tokens: set<Token>, m: Msg) {
    m.Serial? ==> m.token in tokens
  }

  /** A post takes memory, so fewer than SEQ_SPACE messages of a token are outstanding.
      Messages without a token are told apart by an id of their own. */
  predicate Enabled(s: State, step: Step) {
    && WellTyped(s)
    && match step {
         case Post(p, to, token) =>
           && p in s.posters && s.posters[p].Resting? && to in s.queues && token in s.tokens
           && s.tokens[token].current - s.tokens[token].executing < SEQ_SPACE
         case PostPlain(p, to, id) =>
           p in s.posters && s.posters[p].Resting? && to in s.queues && Plain(id) !in s.place
         case Enqueue(p) => p in s.posters && s.posters[p].Posting?
         case Stop(w) => w in s.workers
         case Work(w) => w in s.workers && (s.workers[w].Polling? ==> s.queues[w] != [])
       }
  }

  type Places = map<Msg, Place>

  function Put(place: Places, m: Msg, where_: Place): Places {
    place[m := where_]
  }

  function SetPlace(s: State, m: Msg, where_: Place): State {
    s.(place := Put(s.place, m, where_))
  }

  function Logged(s: State, e: Event): State {
    s.(log := s.log + [e])
  }

  /** handler_thread::enqueue: a worker that is stopping drops the message. */
  function EnqueueOn(s: State, w: Worker, m: Msg): State
    requires w in s.queues
  {
    if w in s.stopping then SetPlace(s, m, Dropped)
    else SetPlace(s.(queues := s.queues[w := s.queues[w] + [m]]), m, InQueue(w))
  }

  /** serial_token::try_acquire: an equality test on the stored numbers. */
  predicate TryAcquire(s: State, m: Msg)
    requires MsgOk(s.tokens.Keys, m)
  {
    m.Plain? || s.tokens[m.token].executing % SEQ_SPACE == m.Seq()
  }

  function WorkStep(s: State, w: Worker): State
    requires Enabled(s, Work(w))
  {
    match s.workers[w] {
      case Polling =>
        var m := s.queues[w][0];
        SetPlace(s.(queues := s.queues[w := s.queues[w][1..]], workers := s.workers[w := Testing(m)]), m, InHand(w))
      case Testing(m) =>
        if TryAcquire(s, m) then Logged(s.(workers := s.workers[w := Running(m)]), Started(m))
        else s.(workers := s.workers[w := Requeueing(m)])
      case Running(m) => Logged(s.(workers := s.workers[w := Releasing(m)]), Finished(m))
      case Releasing(m) =>
        var s1 := SetPlace(s.(workers := s.workers[w := Polling]), m, Done);
        if m.Serial?
        then s1.(tokens := s.tokens[m.token := s.tokens[m.token].(executing := s.tokens[m.token].executing + 1)])
        else s1
      case Requeueing(m) => EnqueueOn(s.(workers := s.workers[w := Polling]), w, m)
    }
  }

  function PostOn(s: State, p: Poster, to: Worker, m: Msg): State {
    SetPlace(s.(posters := s.posters[p := Posting(m, to)], target := s.target[m := to]), m, WithPoster(p))
  }

  function Next(s: State, step: Step): State
    requires Enabled(s, step)
  {
    match step {
      case Post(p, to, token) =>
        var c := s.tokens[token];
        PostOn(s.(tokens := s.tokens[token := c.(current := c.current + 1)]), p, to, Serial(token, c.current))
      case PostPlain(p, to, id) => PostOn(s, p, to, Plain(id))
      case Enqueue(p) => EnqueueOn(s.(posters := s.posters[p := Resting]), s.posters[p].to, s.posters[p].m)
      case Stop(w) => s.(stopping := s.stopping + {w})
      case Work(w) => WorkStep(s, w)
    }
  }

  predicate Init(s: State) {
    && WellTyped(s)
    && (forall t <- s.tokens :: s.tokens[t] == Counters(0, 0))
    && (forall w <- s.queues :: s.queues[w] == [])
    && (forall p <- s.posters :: s.posters[p].Resting?)
    && (forall w <- s.workers :: s.workers[w].Polling?)
    && s.place == map[] && s.target == map[] && s.log == []
  }

  // ---------------------------------------------------------------------
  // Invariant
  // ---------------------------------------------------------------------

  predicate At(place: Places, m: Msg, where_: Place) {
    m in place && place[m] == where_
  }

  /** Message m is nowhere yet, or where_. */
  predicate NowhereBut(place: Places, m: Msg, where_: Place) {
    m in place ==> place[m] == where_
  }

  ghost predicate PostersAt(place: Places, posters: map<Poster, PosterPc>) {
    forall p <- posters :: posters[p].Posting? ==> At(place, posters[p].m, WithPoster(p))
  }

  ghost predicate WorkersAt(place: Places, workers: map<Worker, WorkerPc>) {
    forall w <- workers :: !workers[w].Polling? ==> At(place, workers[w].m, InHand(w))
  }

  ghost predicate QueueAt(place: Places, w: Worker, q: seq<Msg>) {
    && (forall i | 0 <= i < |q| :: At(place, q[i], InQueue(w)))
    && (forall i, j | 0 <= i < j < |q| :: q[i] != q[j])
  }

  ghost predicate QueuesAt(place: Places, queues: map<Worker, seq<Msg>>) {
    forall w <- queues :: QueueAt(place, w, queues[w])
  }

  /** Every message is in one place only. */
  ghost predicate PlacesOk(s: State) {
    PostersAt(s.place, s.posters) && WorkersAt(s.place, s.workers) && QueuesAt(s.place, s.queues)
  }

  /** The completed messages of a token are those numbered below `executing`. */
  ghost predicate TicketsOk(tokens: map<Token, Counters>, place: Places) {
    && (forall t <- tokens :: tokens[t].executing <= tokens[t].current <= tokens[t].executing + SEQ_SPACE)
    && (forall m <- place :: TicketOk(tokens, place, m))
  }

  predicate TicketOk(tokens: map<Token, Counters>, place: Places, m: Msg)
    requires m in place
  {
    m.Serial? ==>
      && m.token in tokens && m.ticket < tokens[m.token].current
      && (place[m] == Done <==> m.ticket < tokens[m.token].executing)
  }

  predicate Holds(pc: WorkerPc, t: Token) {
    (pc.Running? || pc.Releasing?) && pc.m.Serial? && pc.m.token == t
  }

  /** The events of token t. */
  function Of(log: seq<Event>, t: Token): seq<Event> {
    if log == [] then []
    else Of(log[..|log| - 1], t) + if OfToken(log[|log| - 1].m, t) then [log[|log| - 1]] else []
  }

  predicate OfToken(m: Msg, t: Token) {
    m.Serial? && m.token == t
  }

  /** Start 0, finish 0, start 1, finish 1, and so on. */
  predicate Alternates(es: seq<Event>, t: Token) {
    forall i | 0 <= i < |es| :: es[i] == if i % 2 == 0 then Started(Serial(t, i / 2)) else Finished(Serial(t, i / 2))
  }

  /** The log of token t has an even number of events for every released number,
      and one or two more for the worker that holds the token. */
  ghost predicate HolderOk(workers: map<Worker, WorkerPc>, t: Token, executing: nat, n: nat) {
    && (n == 2 * executing || exists w :: w in workers && Holds(workers[w], t))
    && (forall w <- workers :: Holds(workers[w], t) ==>
          workers[w].m.ticket == executing && n == 2 * executing + if workers[w].Running? then 1 else 2)
  }

  ghost predicate LogsOk(tokens: map<Token, Counters>, workers: map<Worker, WorkerPc>, log: seq<Event>) {
    && (forall t <- tokens :: HolderOk(workers, t, tokens[t].executing, |Of(log, t)|))
    && (forall t <- tokens :: Alternates(Of(log, t), t))
  }

  ghost predicate Inv(s: State) {
    && WellTyped(s)
    && PlacesOk(s)
    && TicketsOk(s.tokens, s.place)
    && LogsOk(s.tokens, s.workers, s.log)
  }

  lemma InitInv(s: State)
    requires Init(s)
    ensures Inv(s)
  {
  }

  // ---------------------------------------------------------------------
  // Moving one message
  // ---------------------------------------------------------------------

  lemma PostersMoved(place: Places, posters: map<Poster, PosterPc>, m: Msg, from: Place, to: Place,
                     posters': map<Poster, PosterPc>)
    requires PostersAt(place, posters) && posters'.Keys == posters.Keys && NowhereBut(place, m, from)
    requires forall p <- posters ::
      (posters'[p] == posters[p] && from != WithPoster(p))
      || posters'[p].Resting? || (posters'[p].m == m && to == WithPoster(p))
    ensures PostersAt(Put(place, m, to), posters')
  {
  }

  lemma WorkersMoved(place: Places, workers: map<Worker, WorkerPc>, m: Msg, from: Place, to: Place,
                     workers': map<Worker, WorkerPc>)
    requires WorkersAt(place, workers) && workers'.Keys == workers.Keys && NowhereBut(place, m, from)
    requires forall w <- workers ::
      (workers'[w] == workers[w] && from != InHand(w))
      || workers'[w].Polling? || (workers'[w].m == m && to == InHand(w))
    ensures WorkersAt(Put(place, m, to), workers')
  {
  }

  lemma QueuesMoved(place: Places, queues: map<Worker, seq<Msg>>, m: Msg, from: Place, to: Place)
    requires QueuesAt(place, queues) && NowhereBut(place, m, from) && !from.InQueue?
    ensures QueuesAt(Put(place, m, to), queues)
  {
  }

  lemma QueueGrows(place: Places, queues: map<Worker, seq<Msg>>, m: Msg, from: Place, w: Worker)
    requires QueuesAt(place, queues) && NowhereBut(place, m, from) && !from.InQueue? && w in queues
    ensures QueuesAt(Put(place, m, InQueue(w)), queues[w := queues[w] + [m]])
  {
    var place', q' := Put(place, m, InQueue(w)), queues[w] + [m];
    forall v <- queues ensures QueueAt(place', v, queues[w := q'][v]) {
      assert QueueAt(place, v, queues[v]);
      if v == w {
        forall i | 0 <= i < |q'| ensures At(place', q'[i], InQueue(w)) {
          if i < |queues[w]| { assert At(place, queues[w][i], InQueue(w)); }
        }
      }
    }
  }

  lemma QueueShrinks(place: Places, queues: map<Worker, seq<Msg>>, w: Worker)
    requires QueuesAt(place, queues) && w in queues && queues[w] != []
    ensures QueuesAt(Put(place, queues[w][0], InHand(w)), queues[w := queues[w][1..]])
    ensures NowhereBut(place, queues[w][0], InQueue(w))
  {
    var m := queues[w][0];
    assert QueueAt(place, w, queues[w]);
    assert At(place, m, InQueue(w));
    var place', q' := Put(place, m, InHand(w)), queues[w][1..];
    var queues' := queues[w := q'];
    forall v <- queues ensures QueueAt(place', v, queues'[v]) {
      assert QueueAt(place, v, queues[v]);
      var q := queues'[v];
      forall i | 0 <= i < |q| ensures At(place', q[i], InQueue(v)) {
        if v == w {
          assert At(place, queues[w][i + 1], InQueue(w)) && queues[w][0] != queues[w][i + 1];
        } else {
          assert At(place, queues[v][i], InQueue(v));
        }
      }
    }
  }

  // ---------------------------------------------------------------------
  // Every step keeps the invariant
  // ---------------------------------------------------------------------

  lemma {:induction false} PostKeepsInv(s: State, p: Poster, to: Worker, token: Token)
    requires Inv(s) && Enabled(s, Post(p, to, token))
    ensures Inv(Next(s, Post(p, to, token)))
  {
    hide LogsOk, PostersAt, WorkersAt, QueuesAt;
    var s' := Next(s, Post(p, to, token));
    var m := Serial(token, s.tokens[token].current);
    assert m !in s.place;
    PostersMoved(s.place, s.posters, m, Done, WithPoster(p), s'.posters);
    WorkersMoved(s.place, s.workers, m, Done, WithPoster(p), s'.workers);
    QueuesMoved(s.place, s.queues, m, Done, WithPoster(p));
    LogsSame(s.tokens, s.workers, s.log, s'.tokens, s'.workers);
    assert s'.tokens.Keys == s.tokens.Keys;
    assert WellTyped(s');
    assert PlacesOk(s');
    assert TicketsOk(s'.tokens, s'.place);
  }

  lemma {:induction false} PostPlainKeepsInv(s: State, p: Poster, to: Worker, id: nat)
    requires Inv(s) && Enabled(s, PostPlain(p, to, id))
    ensures Inv(Next(s, PostPlain(p, to, id)))
  {
    hide LogsOk, PostersAt, WorkersAt, QueuesAt;
    var s' := Next(s, PostPlain(p, to, id));
    PostersMoved(s.place, s.posters, Plain(id), Done, WithPoster(p), s'.posters);
    WorkersMoved(s.place, s.workers, Plain(id), Done, WithPoster(p), s'.workers);
    QueuesMoved(s.place, s.queues, Plain(id), Done, WithPoster(p));
    assert TicketsOk(s'.tokens, s'.place);
  }

  lemma {:induction false} LogsSame(tokens: map<Token, Counters>, workers: map<Worker, WorkerPc>, log: seq<Event>,
                 tokens': map<Token, Counters>, workers': map<Worker, WorkerPc>)
    requires LogsOk(tokens, workers, log) && tokens'.Keys == tokens.Keys && workers'.Keys == workers.Keys
    requires forall t <- tokens :: tokens'[t].executing == tokens[t].executing
    requires forall w <- workers ::
      workers'[w] == workers[w] || forall t <- tokens :: !Holds(workers[w], t) && !Holds(workers'[w], t)
    ensures LogsOk(tokens', workers', log)
  {
    hide Of, Alternates;
    forall t <- tokens' ensures HolderOk(workers', t, tokens'[t].executing, |Of(log, t)|) {
      assert HolderOk(workers, t, tokens[t].executing, |Of(log, t)|);
      if w :| w in workers && Holds(workers[w], t) { assert Holds(workers'[w], t); }
    }
  }

  /** A serial message that is not done has a number still to be released. */
  lemma Outstanding(s: State, m: Msg, where_: Place)
    requires TicketsOk(s.tokens, s.place) && m.Serial? && At(s.place, m, where_) && where_ != Done
    ensures m.token in s.tokens && s.tokens[m.token].executing <= m.ticket < s.tokens[m.token].current
  {
    assert TicketOk(s.tokens, s.place, m);
  }

  lemma TicketsMoved(tokens: map<Token, Counters>, place: Places, m: Msg, from: Place, to: Place)
    requires TicketsOk(tokens, place) && At(place, m, from) && from != Done && (to != Done || m.Plain?)
    ensures TicketsOk(tokens, Put(place, m, to))
  {
    forall k <- Put(place, m, to) ensures TicketOk(tokens, Put(place, m, to), k) {
      assert k in place && TicketOk(tokens, place, k);
    }
  }

  lemma {:induction false} EnqueueKeepsInv(s: State, p: Poster)
    requires Inv(s) && Enabled(s, Enqueue(p))
    ensures Inv(Next(s, Enqueue(p)))
  {
    hide LogsOk, WorkersAt, QueuesAt, TicketsOk;
    var s' := Next(s, Enqueue(p));
    var m, w := s.posters[p].m, s.posters[p].to;
    var to := if w in s.stopping then Dropped else InQueue(w);
    PostersMoved(s.place, s.posters, m, WithPoster(p), to, s'.posters);
    WorkersMoved(s.place, s.workers, m, WithPoster(p), to, s.workers);
    if w in s.stopping { QueuesMoved(s.place, s.queues, m, WithPoster(p), Dropped); }
    else { QueueGrows(s.place, s.queues, m, WithPoster(p), w); }
    TicketsMoved(s.tokens, s.place, m, WithPoster(p), to);
  }

  lemma {:induction false} PollKeepsInv(s: State, w: Worker)
    requires Inv(s) && Enabled(s, Work(w)) && s.workers[w].Polling?
    ensures Inv(WorkStep(s, w))
  {
    hide LogsOk, PostersAt, WorkersAt, QueuesAt, TicketsOk, Holds;
    var s' := WorkStep(s, w);
    var m := s.queues[w][0];
    QueueShrinks(s.place, s.queues, w);
    PostersMoved(s.place, s.posters, m, InQueue(w), InHand(w), s.posters);
    WorkersMoved(s.place, s.workers, m, InQueue(w), InHand(w), s'.workers);
    assert At(s.place, m, InQueue(w)) by { FirstIsAt(s, w); }
    TicketsMoved(s.tokens, s.place, m, InQueue(w), InHand(w));
    HoldsNothing(s.workers[w], s'.workers[w]);
    LogsSame(s.tokens, s.workers, s.log, s'.tokens, s'.workers);
  }

  lemma HoldsNothing(pc: WorkerPc, pc': WorkerPc)
    requires !pc.Running? && !pc.Releasing? && !pc'.Running? && !pc'.Releasing?
    ensures forall t :: !Holds(pc, t) && !Holds(pc', t)
  {
  }

  lemma FirstIsAt(s: State, w: Worker)
    requires QueuesAt(s.place, s.queues) && w in s.queues && s.queues[w] != []
    ensures At(s.place, s.queues[w][0], InQueue(w))
  {
    assert QueueAt(s.place, w, s.queues[w]);
  }

  lemma {:induction false} EnqueueTyped(s: State, w: Worker, m: Msg)
    requires WellTyped(s) && w in s.queues && MsgOk(s.tokens.Keys, m)
    ensures WellTyped(EnqueueOn(s, w, m))
  {
  }

  lemma IdleTyped(s: State, w: Worker)
    requires WellTyped(s) && w in s.workers
    ensures WellTyped(s.(workers := s.workers[w := Polling]))
  {
  }

  lemma Typed(s: State, w: Worker)
    requires WellTyped(s) && w in s.workers
    ensures w in s.queues && (!s.workers[w].Polling? ==> MsgOk(s.tokens.Keys, s.workers[w].m))
  {
  }

  lemma {:induction false} RequeueKeepsInv(s: State, w: Worker)
    requires Inv(s) && Enabled(s, Work(w)) && s.workers[w].Requeueing?
    ensures Inv(WorkStep(s, w))
  {
    hide LogsOk, PostersAt, QueuesAt, TicketsOk, Holds, WellTyped;
    Typed(s, w);
    IdleTyped(s, w);
    EnqueueTyped(s.(workers := s.workers[w := Polling]), w, s.workers[w].m);
    var s' := WorkStep(s, w);
    var m := s.workers[w].m;
    var to := if w in s.stopping then Dropped else InQueue(w);
    PostersMoved(s.place, s.posters, m, InHand(w), to, s.posters);
    WorkersMoved(s.place, s.workers, m, InHand(w), to, s'.workers);
    if w in s.stopping { QueuesMoved(s.place, s.queues, m, InHand(w), Dropped); }
    else { QueueGrows(s.place, s.queues, m, InHand(w), w); }
    TicketsMoved(s.tokens, s.place, m, InHand(w), to);
    HoldsNothing(s.workers[w], s'.workers[w]);
    LogsSame(s.tokens, s.workers, s.log, s'.tokens, s'.workers);
  }

  /** Numbers that differ by less than SEQ_SPACE are equal when stored equal. */
  lemma SameNumber(a: nat, b: nat)
    requires a <= b < a + SEQ_SPACE && a % SEQ_SPACE == b % SEQ_SPACE
    ensures a == b
  {
    assert (b - a) % SEQ_SPACE == 0;
  }

  lemma OfSnoc(log: seq<Event>, e: Event, t: Token)
    ensures Of(log + [e], t) == Of(log, t) + if OfToken(e.m, t) then [e] else []
  {
    assert (log + [e])[..|log|] == log;
  }

  /** A worker that passes the test is the only one holding the token. */
  lemma {:induction false} AcquireAlone(s: State, w: Worker)
    requires Inv(s) && Enabled(s, Work(w)) && s.workers[w].Testing?
    requires s.workers[w].m.Serial? && TryAcquire(s, s.workers[w].m)
    ensures var m := s.workers[w].m;
      && m.ticket == s.tokens[m.token].executing
      && forall v <- s.workers :: !Holds(s.workers[v], m.token)
  {
    hide PostersAt, QueuesAt;
    var m := s.workers[w].m;
    assert At(s.place, m, InHand(w));
    Outstanding(s, m, InHand(w));
    SameNumber(s.tokens[m.token].executing, m.ticket);
    assert HolderOk(s.workers, m.token, s.tokens[m.token].executing, |Of(s.log, m.token)|);
    assert forall v <- s.workers :: Holds(s.workers[v], m.token) ==> At(s.place, s.workers[v].m, InHand(v));
  }

  lemma {:induction false} StartLogged(tokens: map<Token, Counters>, workers: map<Worker, WorkerPc>, log: seq<Event>,
                                       w: Worker, m: Msg)
    requires LogsOk(tokens, workers, log) && w in workers && workers[w] == Testing(m) && m.Serial? && m.token in tokens
    requires m.ticket == tokens[m.token].executing && forall v <- workers :: !Holds(workers[v], m.token)
    ensures LogsOk(tokens, workers[w := Running(m)], log + [Started(m)])
  {
    hide Of;
    var workers', log' := workers[w := Running(m)], log + [Started(m)];
    forall t <- tokens
      ensures HolderOk(workers', t, tokens[t].executing, |Of(log', t)|) && Alternates(Of(log', t), t)
    {
      OfSnoc(log, Started(m), t);
      assert HolderOk(workers, t, tokens[t].executing, |Of(log, t)|);
      if t == m.token { assert Holds(workers'[w], t); }
      else if v :| v in workers && Holds(workers[v], t) { assert Holds(workers'[v], t); }
    }
  }

  lemma {:induction false} FinishLogged(tokens: map<Token, Counters>, workers: map<Worker, WorkerPc>, log: seq<Event>,
                                        w: Worker, m: Msg)
    requires LogsOk(tokens, workers, log) && w in workers && workers[w] == Running(m) && m.Serial? && m.token in tokens
    requires forall v <- workers :: Holds(workers[v], m.token) ==> v == w
    ensures LogsOk(tokens, workers[w := Releasing(m)], log + [Finished(m)])
  {
    hide Of;
    var workers', log' := workers[w := Releasing(m)], log + [Finished(m)];
    forall t <- tokens
      ensures HolderOk(workers', t, tokens[t].executing, |Of(log', t)|) && Alternates(Of(log', t), t)
    {
      OfSnoc(log, Finished(m), t);
      assert HolderOk(workers, t, tokens[t].executing, |Of(log, t)|);
      if t == m.token { assert Holds(workers[w], t) && Holds(workers'[w], t); }
      else if v :| v in workers && Holds(workers[v], t) { assert Holds(workers'[v], t); }
    }
  }

  lemma {:induction false} ReleaseLogged(tokens: map<Token, Counters>, workers: map<Worker, WorkerPc>,
                                         log: seq<Event>, w: Worker, m: Msg)
    requires LogsOk(tokens, workers, log) && w in workers && workers[w] == Releasing(m) && m.Serial? &&
      m.token in tokens
    requires forall v <- workers :: Holds(workers[v], m.token) ==> v == w
    ensures var c := tokens[m.token];
      LogsOk(tokens[m.token := c.(executing := c.executing + 1)], workers[w := Polling], log)
  {
    hide Of, Alternates;
    var c := tokens[m.token];
    var tokens', workers' := tokens[m.token := c.(executing := c.executing + 1)], workers[w := Polling];
    forall t <- tokens' ensures HolderOk(workers', t, tokens'[t].executing, |Of(log, t)|) {
      assert HolderOk(workers, t, tokens[t].executing, |Of(log, t)|);
      if t == m.token { assert Holds(workers[w], t); }
      else if v :| v in workers && Holds(workers[v], t) { assert Holds(workers'[v], t); }
    }
  }

  /** Two workers that hold the same token are the same worker. */
  lemma {:induction false} HoldersAgree(s: State, t: Token, v: Worker, w: Worker)
    requires Inv(s) && t in s.tokens && v in s.workers && w in s.workers && Holds(s.workers[v], t) &&
      Holds(s.workers[w], t)
    ensures v == w && s.workers[w].m.ticket == s.tokens[t].executing
  {
    hide PostersAt, QueuesAt, Of;
    assert HolderOk(s.workers, t, s.tokens[t].executing, |Of(s.log, t)|);
    assert At(s.place, s.workers[v].m, InHand(v)) && At(s.place, s.workers[w].m, InHand(w));
  }

  lemma {:induction false} TestKeepsInv(s: State, w: Worker)
    requires Inv(s) && Enabled(s, Work(w)) && s.workers[w].Testing?
    ensures Inv(WorkStep(s, w))
  {
    hide LogsOk, PostersAt, QueuesAt, TicketsOk, Holds;
    var s' := WorkStep(s, w);
    var m := s.workers[w].m;
    if m.Serial? && TryAcquire(s, m) {
      AcquireAlone(s, w);
      StartLogged(s.tokens, s.workers, s.log, w, m);
    } else if m.Plain? {
      PlainHoldsNothing(s.workers[w], s'.workers[w]);
      LogsSame(s.tokens, s.workers, s.log, s'.tokens, s'.workers);
      PlainLogged(s'.tokens, s'.workers, s.log, Started(m));
    } else {
      HoldsNothing(s.workers[w], s'.workers[w]);
      LogsSame(s.tokens, s.workers, s.log, s'.tokens, s'.workers);
    }
  }

  lemma PlainLogged(tokens: map<Token, Counters>, workers: map<Worker, WorkerPc>, log: seq<Event>, e: Event)
    requires LogsOk(tokens, workers, log) && e.m.Plain?
    ensures LogsOk(tokens, workers, log + [e])
  {
    hide Of, HolderOk, Alternates;
    forall t <- tokens ensures Of(log + [e], t) == Of(log, t) { OfSnoc(log, e, t); }
  }

  lemma PlainHoldsNothing(pc: WorkerPc, pc': WorkerPc)
    requires pc.Polling? || pc.m.Plain?
    requires pc'.Polling? || pc'.m.Plain?
    ensures forall t :: !Holds(pc, t) && !Holds(pc', t)
  {
  }

  lemma {:induction false} CallableKeepsInv(s: State, w: Worker)
    requires Inv(s) && Enabled(s, Work(w)) && s.workers[w].Running?
    ensures Inv(WorkStep(s, w))
  {
    hide LogsOk, PostersAt, QueuesAt, TicketsOk;
    var s' := WorkStep(s, w);
    var m := s.workers[w].m;
    if m.Serial? {
      forall v <- s.workers | Holds(s.workers[v], m.token) ensures v == w { HoldersAgree(s, m.token, v, w); }
      FinishLogged(s.tokens, s.workers, s.log, w, m);
    } else {
      LogsSame(s.tokens, s.workers, s.log, s'.tokens, s'.workers);
      PlainLogged(s'.tokens, s'.workers, s.log, Finished(m));
    }
  }

  lemma {:induction false} TicketsReleased(s: State, m: Msg, w: Worker)
    requires TicketsOk(s.tokens, s.place) && m.Serial? && At(s.place, m, InHand(w)) && m.token in s.tokens
    requires m.ticket == s.tokens[m.token].executing
    ensures var c := s.tokens[m.token];
      TicketsOk(s.tokens[m.token := c.(executing := c.executing + 1)], Put(s.place, m, Done))
  {
    Outstanding(s, m, InHand(w));
    var c := s.tokens[m.token];
    var tokens', place' := s.tokens[m.token := c.(executing := c.executing + 1)], Put(s.place, m, Done);
    forall k <- place' ensures TicketOk(tokens', place', k) {
      assert TicketOk(s.tokens, s.place, k);
    }
  }

  lemma {:induction false} ReleaseKeepsInv(s: State, w: Worker)
    requires Inv(s) && Enabled(s, Work(w)) && s.workers[w].Releasing?
    ensures Inv(WorkStep(s, w))
  {
    hide LogsOk, PostersAt, QueuesAt, TicketsOk;
    var s' := WorkStep(s, w);
    var m := s.workers[w].m;
    PostersMoved(s.place, s.posters, m, InHand(w), Done, s.posters);
    WorkersMoved(s.place, s.workers, m, InHand(w), Done, s'.workers);
    QueuesMoved(s.place, s.queues, m, InHand(w), Done);
    assert s'.tokens.Keys == s.tokens.Keys;
    if m.Serial? {
      forall v <- s.workers | Holds(s.workers[v], m.token) ensures v == w { HoldersAgree(s, m.token, v, w); }
      HoldersAgree(s, m.token, w, w);
      ReleaseLogged(s.tokens, s.workers, s.log, w, m);
      TicketsReleased(s, m, w);
    } else {
      LogsSame(s.tokens, s.workers, s.log, s'.tokens, s'.workers);
      TicketsMoved(s.tokens, s.place, m, InHand(w), Done);
    }
  }

  lemma {:induction false} StepKeepsInv(s: State, step: Step)
    requires Inv(s) && Enabled(s, step)
    ensures Inv(Next(s, step))
  {
    match step {
      case Post(p, to, token) => PostKeepsInv(s, p, to, token);
      case PostPlain(p, to, id) => PostPlainKeepsInv(s, p, to, id);
      case Enqueue(p) => EnqueueKeepsInv(s, p);
      case Stop(w) =>
      case Work(w) =>
        var pc := s.workers[w];
        if pc.Polling? { PollKeepsInv(s, w); }
        else if pc.Testing? { TestKeepsInv(s, w); }
        else if pc.Running? { CallableKeepsInv(s, w); }
        else if pc.Releasing? { ReleaseKeepsInv(s, w); }
        else { RequeueKeepsInv(s, w); }
    }
  }

  // ---------------------------------------------------------------------
  // Runs
  // ---------------------------------------------------------------------

  ghost predicate IsRun(states: seq<State>, steps: seq<Step>) {
    && |states| == |steps| + 1
    && Init(states[0])
    && forall i | 0 <= i < |steps| :: Enabled(states[i], steps[i]) && Next(states[i], steps[i]) == states[i + 1]
  }

  lemma {:induction false} RunKeepsInv(states: seq<State>, steps: seq<Step>, k: nat)
    requires IsRun(states, steps) && k <= |steps|
    ensures Inv(states[k])
  {
    hide Inv, Enabled, Next, Init;
    if k == 0 {
      InitInv(states[0]);
    } else {
      RunKeepsInv(states, steps, k - 1);
      assert Enabled(states[k - 1], steps[k - 1]) && Next(states[k - 1], steps[k - 1]) == states[k];
      StepKeepsInv(states[k - 1], steps[k - 1]);
    }
  }

  /** Mutual exclusion: in every run at most one worker is between acquiring and
      releasing a token, and what it runs is the message numbered `executing`. */
  lemma {:induction false} OneAtATime(states: seq<State>, steps: seq<Step>, k: nat, t: Token, v: Worker, w: Worker)
    requires IsRun(states, steps) && k <= |steps| && t in states[k].tokens
    requires v in states[k].workers && w in states[k].workers
    requires Holds(states[k].workers[v], t) && Holds(states[k].workers[w], t)
    ensures v == w && states[k].workers[w].m.ticket == states[k].tokens[t].executing
  {
    hide Inv, Enabled, Next, Init;
    RunKeepsInv(states, steps, k);
    HoldersAgree(states[k], t, v, w);
  }

  /** Order: in every run the callables of a token start and finish strictly one
      after the other in the order of their numbers, from 0, without a gap. */
  lemma {:induction false} InTicketOrder(states: seq<State>, steps: seq<Step>, k: nat, t: Token)
    requires IsRun(states, steps) && k <= |steps| && t in states[k].tokens
    ensures Alternates(Of(states[k].log, t), t)
    ensures 2 * states[k].tokens[t].executing <= |Of(states[k].log, t)| <= 2 * states[k].tokens[t].executing + 2
  {
    hide Enabled, Next, Init, WellTyped, PlacesOk, TicketsOk, Of, Alternates;
    RunKeepsInv(states, steps, k);
    assert HolderOk(states[k].workers, t, states[k].tokens[t].executing, |Of(states[k].log, t)|);
  }

  /** The completed messages are always exactly those numbered below `executing`. */
  lemma {:induction false} CompletedIsPrefix(states: seq<State>, steps: seq<Step>, k: nat, m: Msg)
    requires IsRun(states, steps) && k <= |steps| && m in states[k].place && m.Serial?
    ensures m.token in states[k].tokens && m.ticket < states[k].tokens[m.token].current
    ensures states[k].place[m] == Done <==> m.ticket < states[k].tokens[m.token].executing
  {
    hide Enabled, Next, Init, WellTyped, PlacesOk, LogsOk;
    RunKeepsInv(states, steps, k);
    assert TicketOk(states[k].tokens, states[k].place, m);
  }

  /** Why a token may not have more than SEQ_SPACE messages outstanding: two
      messages of one token pass the same test exactly when their numbers differ
      by a multiple of SEQ_SPACE. */
  lemma {:induction false} SamePass(s: State, t: Token, a: nat, b: nat)
    requires t in s.tokens && a <= b
    ensures TryAcquire(s, Serial(t, a)) ==> (TryAcquire(s, Serial(t, b)) <==> (b - a) % SEQ_SPACE == 0)
  {
    ModDifference(a, b);
  }

  lemma ModDifference(a: nat, b: nat)
    requires a <= b
    ensures a % SEQ_SPACE == b % SEQ_SPACE <==> (b - a) % SEQ_SPACE == 0
  {
    var q, r := (b - a) / SEQ_SPACE, (b - a) % SEQ_SPACE;
    assert b - a == q * SEQ_SPACE + r;
    if r == 0 { assert b == a + q * SEQ_SPACE; }
  }
}
