/** One worker draining its queue while no other thread posts: process_queue with
    serial tokens that make it put messages back. */
module DrainQueue {

  import opened Basics

  /** Number of values of sequence_type, std::size_t. */
  const SEQ_SPACE: nat := 0x1_0000_0000_0000_0000

  /** serial_token's shared counters, as stored. */
  class SerialToken {
    var current: nat
    var executing: nat

    constructor ()
      ensures current == 0 && executing == 0
    {
      current, executing := 0, 0;
    }

    method GetNextSequence() returns (seq_: nat)
      requires current < SEQ_SPACE
      modifies this`current
      ensures seq_ == old(current) && current == (old(current) + 1) % SEQ_SPACE
    {
      seq_ := current;
      current := (current + 1) % SEQ_SPACE;
    }

    method TryAcquire(seq_: nat) returns (acquired: bool)
      ensures acquired <==> executing == seq_
    {
      acquired := executing == seq_;
    }

    method Release()
      modifies this`executing
      ensures executing == (old(executing) + 1) % SEQ_SPACE
    {
      executing := (executing + 1) % SEQ_SPACE;
    }
  }

  /** A message: its timeout in milliseconds, its token if any, and its number. */
  datatype Msg = Msg(id: nat, timeout: int, token: SerialToken?, sequence: nat)

  type Counts = map<SerialToken, nat>

  // ---------------------------------------------------------------------
  // Specification
  // ---------------------------------------------------------------------

  /** How many releases of its token a serial message still has to wait for. */
  function Offset(exec: Counts, m: Msg): nat
    requires m.token != null && m.token in exec
  {
    (m.sequence - exec[m.token]) % SEQ_SPACE
  }

  predicate Known(exec: Counts, q: seq<Msg>) {
    forall m <- q :: m.token != null ==> m.token in exec && m.sequence < SEQ_SPACE && exec[m.token] < SEQ_SPACE
  }

  predicate Runnable(exec: Counts, m: Msg) {
    m.token == null || (m.token in exec && exec[m.token] == m.sequence)
  }

  /** Message m of token t waits for k releases. */
  predicate Waits(exec: Counts, m: Msg, t: SerialToken, k: nat) {
    m.token == t && t in exec && Offset(exec, m) == k
  }

  ghost predicate HasWaiter(exec: Counts, q: seq<Msg>, t: SerialToken, k: nat) {
    exists j :: 0 <= j < |q| && Waits(exec, q[j], t, k)
  }

  /** Every message of the queue has a token and number of its own. */
  ghost predicate Apart(q: seq<Msg>) {
    forall i, j | 0 <= i < j < |q| && q[i].token != null :: q[i].token != q[j].token || q[i].sequence != q[j].sequence
  }

  /** No message of the queue waits for one that is not in the queue. */
  ghost predicate Closed(exec: Counts, q: seq<Msg>)
    requires Known(exec, q)
  {
    forall i, k: nat {:trigger HasWaiter(exec, q, q[i].token, k)} |
      0 <= i < |q| && q[i].token != null && k < Offset(exec, q[i]) :: HasWaiter(exec, q, q[i].token, k)
  }

  /** The queue holds, once each and in any order, messages of each token that
      follow on from the number its token is at. */
  ghost predicate Complete(exec: Counts, q: seq<Msg>) {
    Known(exec, q) && Apart(q) && Closed(exec, q)
  }

  /** The messages of token t, in order. */
  function OfToken(ms: seq<Msg>, t: SerialToken): seq<Msg> {
    if ms == [] then [] else (if ms[0].token == t then [ms[0]] else []) + OfToken(ms[1..], t)
  }

  predicate IsTimed(m: Msg) {
    m.timeout > 0
  }

  predicate IsPlain(m: Msg) {
    !IsTimed(m) && m.token == null
  }

  /** The untimed messages without a token, in order. */
  function PlainOnes(ms: seq<Msg>): seq<Msg> {
    if ms == [] then [] else (if IsPlain(ms[0]) then [ms[0]] else []) + PlainOnes(ms[1..])
  }

  /** The timed messages, in order. */
  function TimedOnes(ms: seq<Msg>): seq<Msg> {
    if ms == [] then [] else (if IsTimed(ms[0]) then [ms[0]] else []) + TimedOnes(ms[1..])
  }

  /** The number i posts after number `start`. */
  function Number(start: nat, i: nat): nat {
    (start + i) % SEQ_SPACE
  }

  /** The messages of t in `done` carry consecutive numbers from `start`. */
  predicate InSequence(done: seq<Msg>, t: SerialToken, start: nat) {
    var ms := OfToken(done, t);
    forall i | 0 <= i < |ms| :: ms[i].sequence == Number(start, i)
  }

  function FirstRunnable(exec: Counts, q: seq<Msg>): nat {
    if q == [] || Runnable(exec, q[0]) then 0 else 1 + FirstRunnable(exec, q[1..])
  }

  lemma {:induction false} OfTokenSnoc(ms: seq<Msg>, m: Msg, t: SerialToken)
    ensures OfToken(ms + [m], t) == OfToken(ms, t) + if m.token == t then [m] else []
  {
    if ms == [] {
      assert [] + [m] == [m];
    } else {
      assert (ms + [m])[1..] == ms[1..] + [m];
      OfTokenSnoc(ms[1..], m, t);
      Regroup(if ms[0].token == t then [ms[0]] else [], OfToken(ms[1..], t), if m.token == t then [m] else []);
    }
  }

  lemma {:induction false} PlainSnoc(ms: seq<Msg>, m: Msg)
    ensures PlainOnes(ms + [m]) == PlainOnes(ms) + if IsPlain(m) then [m] else []
  {
    if ms == [] {
      assert [] + [m] == [m];
    } else {
      assert (ms + [m])[1..] == ms[1..] + [m];
      PlainSnoc(ms[1..], m);
      Regroup(if IsPlain(ms[0]) then [ms[0]] else [], PlainOnes(ms[1..]), if IsPlain(m) then [m] else []);
    }
  }

  lemma {:induction false} TimedSnoc(ms: seq<Msg>, m: Msg)
    ensures TimedOnes(ms + [m]) == TimedOnes(ms) + if IsTimed(m) then [m] else []
  {
    if ms == [] {
      assert [] + [m] == [m];
    } else {
      assert (ms + [m])[1..] == ms[1..] + [m];
      TimedSnoc(ms[1..], m);
      Regroup(if IsTimed(ms[0]) then [ms[0]] else [], TimedOnes(ms[1..]), if IsTimed(m) then [m] else []);
    }
  }

  /** A complete queue that is not empty has a runnable message. */
  lemma {:induction false} SomeRunnable(exec: Counts, q: seq<Msg>) returns (i: nat)
    requires Complete(exec, q) && q != []
    ensures i < |q| && Runnable(exec, q[i])
  {
    if q[0].token == null || Offset(exec, q[0]) == 0 {
      i := 0;
    } else {
      assert HasWaiter(exec, q, q[0].token, 0);
      i :| 0 <= i < |q| && Waits(exec, q[i], q[0].token, 0);
    }
    if q[i].token != null { OffsetZero(exec, q[i]); }
  }

  lemma OffsetZero(exec: Counts, m: Msg)
    requires m.token != null && m.token in exec && m.sequence < SEQ_SPACE && exec[m.token] < SEQ_SPACE
    ensures Offset(exec, m) == 0 <==> exec[m.token] == m.sequence
  {
  }

  /** Putting a message that cannot run to the back brings the first runnable one forward. */
  lemma {:induction false} RotateFirst(exec: Counts, q: seq<Msg>, i: nat)
    requires i < |q| && Runnable(exec, q[i]) && !Runnable(exec, q[0])
    ensures FirstRunnable(exec, q[1..] + [q[0]]) + 1 == FirstRunnable(exec, q)
  {
    FirstInPrefix(exec, q[1..], [q[0]], i - 1);
  }

  lemma {:induction false} FirstInPrefix(exec: Counts, q: seq<Msg>, r: seq<Msg>, i: nat)
    requires i < |q| && Runnable(exec, q[i])
    ensures FirstRunnable(exec, q + r) == FirstRunnable(exec, q)
  {
    if !Runnable(exec, q[0]) {
      assert (q + r)[1..] == q[1..] + r;
      FirstInPrefix(exec, q[1..], r, i - 1);
    }
  }

  /** Rotation keeps a queue complete. */
  lemma {:induction false} RotateComplete(exec: Counts, q: seq<Msg>)
    requires Complete(exec, q) && q != []
    ensures Complete(exec, q[1..] + [q[0]])
  {
    var r := q[1..] + [q[0]];
    forall i, k: nat {:trigger HasWaiter(exec, r, r[i].token, k)}
      | 0 <= i < |r| && r[i].token != null && k < Offset(exec, r[i])
      ensures HasWaiter(exec, r, r[i].token, k)
    {
      var i' := if i == |q| - 1 then 0 else i + 1;
      assert r[i] == q[i'];
      assert HasWaiter(exec, q, q[i'].token, k);
      var j' :| 0 <= j' < |q| && Waits(exec, q[j'], q[i'].token, k);
      var j := if j' == 0 then |q| - 1 else j' - 1;
      assert r[j] == q[j'];
    }
  }

  /** A message without a token can be taken out. */
  lemma {:induction false} PlainComplete(exec: Counts, q: seq<Msg>)
    requires Complete(exec, q) && q != [] && q[0].token == null
    ensures Complete(exec, q[1..])
  {
    var r := q[1..];
    forall i, k: nat {:trigger HasWaiter(exec, r, r[i].token, k)}
      | 0 <= i < |r| && r[i].token != null && k < Offset(exec, r[i])
      ensures HasWaiter(exec, r, r[i].token, k)
    {
      assert r[i] == q[i + 1];
      assert HasWaiter(exec, q, q[i + 1].token, k);
      var j' :| 0 <= j' < |q| && Waits(exec, q[j'], q[i + 1].token, k);
      assert r[j' - 1] == q[j'];
    }
  }

  /** After the release of m's token the others of the token wait for one release less. */
  lemma {:induction false} ReleasedComplete(exec: Counts, q: seq<Msg>)
    requires Complete(exec, q) && q != [] && q[0].token != null && Runnable(exec, q[0])
    ensures Complete(exec[q[0].token := (exec[q[0].token] + 1) % SEQ_SPACE], q[1..])
  {
    var t, r := q[0].token, q[1..];
    OffsetZero(exec, q[0]);
    var exec' := exec[t := (exec[t] + 1) % SEQ_SPACE];
    forall i, k: nat {:trigger HasWaiter(exec', r, r[i].token, k)}
      | 0 <= i < |r| && r[i].token != null && k < Offset(exec', r[i])
      ensures HasWaiter(exec', r, r[i].token, k)
    {
      assert r[i] == q[i + 1];
      if r[i].token == t { OffsetDrops(exec, exec', r[i]); }
      var k' := if r[i].token == t then k + 1 else k;
      assert HasWaiter(exec, q, q[i + 1].token, k');
      var j' :| 0 <= j' < |q| && Waits(exec, q[j'], q[i + 1].token, k');
      assert j' != 0;
      if r[i].token == t { OffsetDrops(exec, exec', q[j']); }
      assert r[j' - 1] == q[j'];
    }
  }

  lemma OffsetDrops(exec: Counts, exec': Counts, m: Msg)
    requires m.token != null && m.token in exec && m.token in exec'
    requires m.sequence < SEQ_SPACE && exec[m.token] < SEQ_SPACE && m.sequence != exec[m.token]
    requires exec'[m.token] == (exec[m.token] + 1) % SEQ_SPACE
    ensures Offset(exec, m) > 0 && Offset(exec', m) == Offset(exec, m) - 1
  {
  }

  // ---------------------------------------------------------------------
  // One round of the loop, and when it never ends
  // ---------------------------------------------------------------------

  /** What one round does to the counters and to a queue that is not empty, when
      the worker is not stopping. */
  function Round(exec: Counts, q: seq<Msg>): (Counts, seq<Msg>)
    requires q != []
  {
    var m, rest := q[0], q[1..];
    if IsTimed(m) then (exec, rest)
    else if !Runnable(exec, m) then (exec, rest + [m])
    else if m.token == null then (exec, rest)
    else (exec[m.token := (exec[m.token] + 1) % SEQ_SPACE], rest)
  }

  ghost predicate Untimed(q: seq<Msg>) {
    forall m <- q :: m.token != null ==> !IsTimed(m)
  }

  /** The queue's message i waits for a number of its token that is not in the queue. */
  ghost predicate Stuck(exec: Counts, q: seq<Msg>, i: nat, k: nat) {
    && i < |q| && q[i].token != null && q[i].token in exec
    && k < Offset(exec, q[i]) && !HasWaiter(exec, q, q[i].token, k)
  }

  /** The number of the front message's token, after its release. */
  lemma {:induction false} WaiterBefore(exec: Counts, q: seq<Msg>, t: SerialToken, k: nat)
    requires Known(exec, q) && Untimed(q) && q != [] && t in exec && !HasWaiter(exec, q, t, k)
    requires Apart(q)
    requires Runnable(exec, q[0]) && q[0].token == t ==> k > 0
    ensures var (exec', q') := Round(exec, q);
      !HasWaiter(exec', q', t, if Runnable(exec, q[0]) && q[0].token == t then k - 1 else k)
  {
    var (exec', q') := Round(exec, q);
    var k' := if Runnable(exec, q[0]) && q[0].token == t then k - 1 else k;
    forall j | 0 <= j < |q'| ensures !Waits(exec', q'[j], t, k') {
      var i := if j == |q| - 1 then 0 else j + 1;
      assert q'[j] == q[i] && !Waits(exec, q[i], t, k);
      if Runnable(exec, q[0]) && q[0].token == t && q[i].token == t {
        assert q[0].sequence != q[i].sequence;
        OffsetDrops(exec, exec', q[i]);
      }
    }
  }

  /** A queue in which some message waits for a number that is not there stays such
      a queue. */
  lemma {:induction false} StuckStays(exec: Counts, q: seq<Msg>, i: nat, k: nat)
    returns (i': nat, k': nat)
    requires Known(exec, q) && Untimed(q) && Apart(q) && Stuck(exec, q, i, k)
    ensures var (exec', q') := Round(exec, q);
      Known(exec', q') && Untimed(q') && Apart(q') && Stuck(exec', q', i', k')
  {
    var (exec', q') := Round(exec, q);
    var t := q[i].token;
    var runs := Runnable(exec, q[0]) && q[0].token == t;
    if q[0].token == t { OffsetZero(exec, q[0]); }
    if runs {
      assert Waits(exec, q[0], t, 0) && HasWaiter(exec, q, t, 0);
    }
    assert k > 0 || !runs;
    WaiterBefore(exec, q, t, k);
    k' := if runs then k - 1 else k;
    i' := if i == 0 then |q| - 1 else i - 1;
    if runs { OffsetDrops(exec, exec', q[i]); }
    RoundKeepsApart(exec, q);
    assert q'[i'] == q[i];
  }

  lemma {:induction false} RoundKeepsApart(exec: Counts, q: seq<Msg>)
    requires Known(exec, q) && Apart(q) && q != [] && Untimed(q)
    ensures var (exec', q') := Round(exec, q); Apart(q') && Untimed(q') && Known(exec', q')
  {
    var (exec', q') := Round(exec, q);
    forall j | 0 <= j < |q'| ensures q'[j] in q {
      assert q'[j] == q[if j == |q| - 1 then 0 else j + 1];
    }
    forall i, j | 0 <= i < j < |q'| && q'[i].token != null
      ensures q'[i].token != q'[j].token || q'[i].sequence != q'[j].sequence
    {
      var i0, j0 := i + 1, if j == |q| - 1 then 0 else j + 1;
      assert q'[i] == q[i0] && q'[j] == q[j0];
    }
  }

  /** n rounds, or as many as it takes to empty the queue. */
  function Rounds(exec: Counts, q: seq<Msg>, n: nat): (Counts, seq<Msg>)
    decreases n
  {
    if n == 0 || q == [] then (exec, q) else
      var (exec', q') := Round(exec, q);
      Rounds(exec', q', n - 1)
  }

  lemma {:induction false} NeverDrained(exec: Counts, q: seq<Msg>, i: nat, k: nat, n: nat)
    requires Known(exec, q) && Untimed(q) && Apart(q) && Stuck(exec, q, i, k)
    ensures Rounds(exec, q, n).1 != []
    decreases n
  {
    hide Known, Untimed, Apart;
    if n > 0 {
      var i', k' := StuckStays(exec, q, i, k);
      NeverDrained(Round(exec, q).0, Round(exec, q).1, i', k', n - 1);
    }
  }

  lemma {:induction false} Drained(exec: Counts, q: seq<Msg>) returns (n: nat)
    requires Complete(exec, q) && Untimed(q)
    ensures Rounds(exec, q, n).1 == []
    decreases |q|, FirstRunnable(exec, q)
  {
    hide Complete, FirstRunnable, Runnable, Untimed;
    n := 0;
    if q != [] {
      FrontUntimed(q);
      var (exec', q') := Round(exec, q);
      if IsTimed(q[0]) || (Runnable(exec, q[0]) && q[0].token == null) {
        PlainComplete(exec, q);
      } else if Runnable(exec, q[0]) {
        ReleasedComplete(exec, q);
      } else {
        RotateComplete(exec, q);
        var i := SomeRunnable(exec, q);
        RotateFirst(exec, q, i);
      }
      var m := Drained(exec', q');
      n := m + 1;
    }
  }

  lemma FrontUntimed(q: seq<Msg>)
    requires q != [] && Untimed(q)
    ensures Untimed(q[1..]) && Untimed(q[1..] + [q[0]]) && (q[0].token != null ==> !IsTimed(q[0]))
  {
  }

  /** Exactly when the drain ends: when no message waits for one that is not in the
      queue. */
  lemma {:induction false} DrainsIff(exec: Counts, q: seq<Msg>)
    requires Known(exec, q) && Untimed(q) && Apart(q)
    ensures (exists n: nat :: Rounds(exec, q, n).1 == []) <==> Closed(exec, q)
  {
    hide Rounds, Untimed, Apart;
    if Closed(exec, q) {
      var n := Drained(exec, q);
    } else {
      var i, k: nat :|
        0 <= i < |q| && q[i].token != null && k < Offset(exec, q[i]) && !HasWaiter(exec, q, q[i].token, k);
      forall n: nat ensures Rounds(exec, q, n).1 != [] { NeverDrained(exec, q, i, k, n); }
    }
  }

  /** A queue that is never drained: one message, numbered 1, of a token that is at 0. */
  lemma {:induction false} LoneSuccessor(t: SerialToken, id: nat, n: nat)
    ensures Rounds(map[t := 0], [Msg(id, 0, t, 1)], n) == (map[t := 0], [Msg(id, 0, t, 1)])
    decreases n
  {
    var exec, q := map[t := 0], [Msg(id, 0, t, 1)];
    assert q[1..] + [q[0]] == q;
    if n > 0 { LoneSuccessor(t, id, n - 1); }
  }

  // ---------------------------------------------------------------------
  // The worker
  // ---------------------------------------------------------------------

  ghost function Tokens(q: seq<Msg>): set<SerialToken> {
    set m | m in q && m.token != null :: m.token
  }

  ghost function CountsOf(ts: set<SerialToken>): Counts
    reads ts
  {
    map t | t in ts :: t.executing
  }

  lemma FrontTokens(q: seq<Msg>)
    requires q != []
    ensures Tokens(q[1..]) <= Tokens(q) && Tokens(q[1..] + [q[0]]) == Tokens(q)
  {
    assert q == [q[0]] + q[1..];
  }

  /** The same messages, each as often. */
  ghost predicate SameMessages(a: seq<Msg>, b: seq<Msg>) {
    multiset(a) == multiset(b)
  }

  lemma RunFront(q0: seq<Msg>, q: seq<Msg>, ran: seq<Msg>, moved: seq<Msg>)
    requires q != [] && SameMessages(ran + moved + q, q0)
    ensures SameMessages((ran + [q[0]]) + moved + q[1..], q0)
  {
    assert q == [q[0]] + q[1..];
  }

  lemma MoveFront(q0: seq<Msg>, q: seq<Msg>, ran: seq<Msg>, moved: seq<Msg>)
    requires q != [] && SameMessages(ran + moved + q, q0)
    ensures SameMessages(ran + (moved + [q[0]]) + q[1..], q0)
  {
    assert q == [q[0]] + q[1..];
  }

  lemma RotateFront(q0: seq<Msg>, q: seq<Msg>, ran: seq<Msg>, moved: seq<Msg>)
    requires q != [] && SameMessages(ran + moved + q, q0)
    ensures SameMessages(ran + moved + (q[1..] + [q[0]]), q0)
  {
    assert q == [q[0]] + q[1..];
  }

  lemma {:induction false} PlainMove(q: seq<Msg>, ran: seq<Msg>)
    requires q != [] && !IsTimed(q[0])
    ensures PlainOnes(ran + [q[0]]) + PlainOnes(q[1..]) == PlainOnes(ran) + PlainOnes(q)
    ensures TimedOnes(q[1..]) == TimedOnes(q)
  {
    PlainSnoc(ran, q[0]);
    Regroup(PlainOnes(ran), if IsPlain(q[0]) then [q[0]] else [], PlainOnes(q[1..]));
    assert TimedOnes(q) == [] + TimedOnes(q[1..]);
  }

  lemma {:induction false} TimedMove(q: seq<Msg>, moved: seq<Msg>)
    requires q != [] && IsTimed(q[0])
    ensures (moved + [q[0]]) + TimedOnes(q[1..]) == moved + TimedOnes(q)
    ensures PlainOnes(q[1..]) == PlainOnes(q)
  {
    assert TimedOnes(q) == [q[0]] + TimedOnes(q[1..]);
    Regroup(moved, [q[0]], TimedOnes(q[1..]));
    assert PlainOnes(q) == [] + PlainOnes(q[1..]);
  }

  lemma SerialRotate(q: seq<Msg>)
    requires q != [] && q[0].token != null && !IsTimed(q[0])
    ensures PlainOnes(q[1..] + [q[0]]) == PlainOnes(q) && TimedOnes(q[1..] + [q[0]]) == TimedOnes(q)
  {
    PlainSnoc(q[1..], q[0]);
    TimedSnoc(q[1..], q[0]);
  }

  /** The messages of t that ran carry the numbers that its token has gone through. */
  ghost predicate TokenOk(exec0: Counts, exec: Counts, ran: seq<Msg>, t: SerialToken) {
    && t in exec0 && t in exec
    && InSequence(ran, t, exec0[t])
    && exec[t] == Number(exec0[t], |OfToken(ran, t)|)
  }

  /** `ran`, `moved` and `q` share out the messages of q0. */
  ghost predicate Progress(exec0: Counts, exec: Counts, q0: seq<Msg>, q: seq<Msg>, ran: seq<Msg>, moved: seq<Msg>) {
    && Complete(exec, q)
    && SameMessages(ran + moved + q, q0)
    && PlainOnes(ran) + PlainOnes(q) == PlainOnes(q0)
    && moved + TimedOnes(q) == TimedOnes(q0)
    && exec.Keys == exec0.Keys
    && forall t <- exec0 :: TokenOk(exec0, exec, ran, t)
  }

  lemma {:induction false} RanInOrder(exec0: Counts, exec: Counts, exec': Counts, ran: seq<Msg>, m: Msg, t: SerialToken)
    requires TokenOk(exec0, exec, ran, t) && Runnable(exec, m)
    requires exec' ==
      if m.token != null && m.token in exec then exec[m.token := (exec[m.token] + 1) % SEQ_SPACE] else exec
    ensures TokenOk(exec0, exec', ran + [m], t)
  {
    hide Number;
    OfTokenSnoc(ran, m, t);
    if m.token == t { NextNumber(exec0[t], |OfToken(ran, t)|); }
  }

  /** The front message runs and its token, if any, is released. */
  lemma {:induction false} ProgressRun(exec0: Counts, exec: Counts, exec': Counts, q0: seq<Msg>, q: seq<Msg>,
                                       ran: seq<Msg>, moved: seq<Msg>)
    requires Progress(exec0, exec, q0, q, ran, moved) && q != [] && Runnable(exec, q[0]) && !IsTimed(q[0])
    requires exec' == if q[0].token == null then exec else exec[q[0].token := (exec[q[0].token] + 1) % SEQ_SPACE]
    ensures Progress(exec0, exec', q0, q[1..], ran + [q[0]], moved)
  {
    hide Complete, TokenOk, PlainOnes, TimedOnes, SameMessages;
    var m := q[0];
    CountsSmall(exec, q);
    if m.token == null { PlainComplete(exec, q); } else { ReleasedComplete(exec, q); }
    PlainMove(q, ran);
    RunFront(q0, q, ran, moved);
    forall t <- exec0 ensures TokenOk(exec0, exec', ran + [m], t) {
      RanInOrder(exec0, exec, exec', ran, m, t);
    }
  }

  /** The front message goes to the back, and the first runnable one comes nearer. */
  lemma {:induction false} ProgressRotate(exec0: Counts, exec: Counts, q0: seq<Msg>, q: seq<Msg>, ran: seq<Msg>,
                                          moved: seq<Msg>)
    requires Progress(exec0, exec, q0, q, ran, moved) && q != [] && !Runnable(exec, q[0]) && !IsTimed(q[0])
    ensures Progress(exec0, exec, q0, q[1..] + [q[0]], ran, moved)
    ensures FirstRunnable(exec, q[1..] + [q[0]]) < FirstRunnable(exec, q)
  {
    hide Complete, TokenOk, PlainOnes, TimedOnes, SameMessages, FirstRunnable;
    RotateComplete(exec, q);
    RotateFront(q0, q, ran, moved);
    SerialRotate(q);
    var i := SomeRunnable(exec, q);
    RotateFirst(exec, q, i);
  }

  /** A timed message goes to the timer wheel. */
  lemma {:induction false} ProgressMove(exec0: Counts, exec: Counts, q0: seq<Msg>, q: seq<Msg>, ran: seq<Msg>,
                                        moved: seq<Msg>)
    requires Progress(exec0, exec, q0, q, ran, moved) && q != [] && IsTimed(q[0]) && q[0].token == null
    ensures Progress(exec0, exec, q0, q[1..], ran, moved + [q[0]])
  {
    hide Complete, TokenOk, PlainOnes, TimedOnes, SameMessages;
    PlainComplete(exec, q);
    MoveFront(q0, q, ran, moved);
    TimedMove(q, moved);
  }

  lemma ProgressStart(exec: Counts, q: seq<Msg>)
    requires Complete(exec, q) && exec.Keys == Tokens(q)
    ensures Progress(exec, exec, q, q, [], [])
  {
    hide Closed, Apart;
    assert [] + [] + q == q;
    forall t <- exec ensures TokenOk(exec, exec, [], t) {
      assert exec[t] < SEQ_SPACE;
      assert Number(exec[t], 0) == exec[t];
    }
  }

  lemma ProgressEnd(exec0: Counts, exec: Counts, q0: seq<Msg>, ran: seq<Msg>, moved: seq<Msg>)
    requires Progress(exec0, exec, q0, [], ran, moved)
    ensures multiset(ran) + multiset(moved) == multiset(q0)
    ensures PlainOnes(ran) == PlainOnes(q0) && moved == TimedOnes(q0)
    ensures exec.Keys == exec0.Keys && forall t <- exec0 :: TokenOk(exec0, exec, ran, t)
  {
    assert ran + moved + [] == ran + moved;
    assert PlainOnes(ran) + [] == PlainOnes(ran);
    assert moved + [] == moved;
  }

  lemma TokensEnd(exec0: Counts, exec: Counts, ran: seq<Msg>)
    requires exec.Keys == exec0.Keys && forall t <- exec0 :: TokenOk(exec0, exec, ran, t)
    ensures forall t <- exec0 :: InSequence(ran, t, exec0[t]) && exec[t] == Number(exec0[t], |OfToken(ran, t)|)
  {
    hide Number, InSequence, OfToken;
  }

  lemma ProgressComplete(exec0: Counts, exec: Counts, q0: seq<Msg>, q: seq<Msg>, ran: seq<Msg>, moved: seq<Msg>)
    requires Progress(exec0, exec, q0, q, ran, moved)
    ensures Complete(exec, q)
  {
  }

  lemma CountsSmall(exec: Counts, q: seq<Msg>)
    requires Complete(exec, q) && q != []
    ensures q[0].token != null ==> q[0].token in exec && exec[q[0].token] < SEQ_SPACE
  {
  }

  lemma NextNumber(start: nat, i: nat)
    ensures (Number(start, i) + 1) % SEQ_SPACE == Number(start, i + 1)
  {
  }

  class HandlerThread {
    var queue: seq<Msg>
    var wheel: seq<Msg>
    var done: seq<Msg>
    var stopping: bool
    var loopStopped: bool

    constructor ()
      ensures queue == [] && wheel == [] && done == [] && !stopping && !loopStopped
    {
      queue, wheel, done, stopping, loopStopped := [], [], [], false, false;
    }

    /** enqueue(): dropped once the worker is stopping. */
    method Enqueue(m: Msg)
      modifies this`queue
      ensures queue == if stopping then old(queue) else old(queue) + [m]
    {
      if stopping { return; }
      queue := queue + [m];
    }

    /** message::try_acquire(). */
    method TryAcquire(m: Msg) returns (acquired: bool)
      ensures acquired <==> m.token == null || m.token.executing == m.sequence
    {
      if m.token != null {
        acquired := m.token.TryAcquire(m.sequence);
      } else {
        acquired := true;
      }
    }

    /** callable_message::process(): runs the callable, then releases the token. */
    method Process(m: Msg)
      requires m.token != null ==> m.token.executing < SEQ_SPACE
      modifies this`done, if m.token != null then {m.token} else {}
      ensures done == old(done) + [m]
      ensures m.token != null ==> m.token.executing == (old(m.token.executing) + 1) % SEQ_SPACE
    {
      done := done + [m];
      if m.token != null { m.token.Release(); }
    }

    /** One round of process_queue's loop. */
    method ProcessOne(ghost ts: set<SerialToken>)
      requires queue != [] && (queue[0].token != null ==> queue[0].token in ts && queue[0].token.executing < SEQ_SPACE)
      requires queue[0].token != null ==> !IsTimed(queue[0]) && !stopping
      modifies this`queue, this`wheel, this`done, ts
      ensures (CountsOf(ts), queue) == Round(old(CountsOf(ts)), old(queue))
      ensures wheel == old(wheel) + if IsTimed(old(queue[0])) then [old(queue[0])] else []
      ensures done == old(done) +
        if !IsTimed(old(queue[0])) && Runnable(old(CountsOf(ts)), old(queue[0])) then [old(queue[0])] else []
    {
      ghost var exec := CountsOf(ts);
      var m := queue[0];
      queue := queue[1..];
      if m.timeout > 0 {
        wheel := wheel + [m];
      } else {
        var acquired := TryAcquire(m);
        if acquired {
          Process(m);
          assert m.token != null ==> CountsOf(ts) == exec[m.token := (exec[m.token] + 1) % SEQ_SPACE];
          assert m.token == null ==> CountsOf(ts) == exec;
        } else {
          Enqueue(m);
        }
      }
    }

    /** process_queue() on a worker whose queue holds, in any order, complete
        sequences of token messages: it ends, having run every untimed message
        exactly once, those of each token in the order of their numbers and the
        token-free ones in the order of the queue, and having handed the timed ones
        to the timer wheel.  A worker that is stopping with no token message left
        then stops its loop. */
    method ProcessQueue()
      requires Complete(CountsOf(Tokens(queue)), queue)
      requires forall m <- queue :: m.token != null ==> !IsTimed(m) && !stopping
      modifies this, Tokens(queue)
      ensures queue == [] && stopping == old(stopping)
      ensures loopStopped == (old(loopStopped) || stopping)
      ensures wheel == old(wheel) + TimedOnes(old(queue))
      ensures |done| >= |old(done)| && done[..|old(done)|] == old(done)
      ensures var ran := done[|old(done)|..];
        && multiset(ran) + multiset(TimedOnes(old(queue))) == multiset(old(queue))
        && PlainOnes(ran) == PlainOnes(old(queue))
        && forall t <- Tokens(old(queue)) ::
             && InSequence(ran, t, old(t.executing))
             && t.executing == Number(old(t.executing), |OfToken(ran, t)|)
    {
      hide Progress, FirstRunnable, Complete, PlainOnes, TimedOnes, OfToken, InSequence, TokenOk, Number;
      ghost var ts := Tokens(queue);
      ghost var exec0, q0 := CountsOf(ts), queue;
      ghost var ran: seq<Msg>, moved: seq<Msg> := [], [];
      ProgressStart(exec0, q0);
      while |queue| > 0
        invariant stopping == old(stopping) && loopStopped == old(loopStopped)
        invariant done == old(done) + ran && wheel == old(wheel) + moved
        invariant Tokens(queue) <= ts
        invariant forall m <- queue :: m.token != null ==> !IsTimed(m) && !stopping
        invariant Progress(exec0, CountsOf(ts), q0, queue, ran, moved)
        decreases |queue|, FirstRunnable(CountsOf(ts), queue)
      {
        ghost var q, exec := queue, CountsOf(ts);
        FrontTokens(q);
        ProgressComplete(exec0, exec, q0, q, ran, moved);
        CountsSmall(exec, q);
        ProcessOne(ts);
        if IsTimed(q[0]) {
          ProgressMove(exec0, exec, q0, q, ran, moved);
          moved := moved + [q[0]];
        } else if Runnable(exec, q[0]) {
          ProgressRun(exec0, exec, CountsOf(ts), q0, q, ran, moved);
          ran := ran + [q[0]];
        } else {
          ProgressRotate(exec0, exec, q0, q, ran, moved);
        }
      }
      assert queue == [];
      ProgressEnd(exec0, CountsOf(ts), q0, ran, moved);
      assert done[|old(done)|..] == ran;
      TokensEnd(exec0, CountsOf(ts), ran);
      if stopping && |queue| == 0 {
        loopStopped := true;
      }
    }
  }
}
