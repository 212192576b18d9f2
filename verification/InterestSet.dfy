/** What libev asks the kernel about: io watchers in lists by file descriptor, the list of
    changed descriptors, and the poll backend's dense array with its sparse index. */
module InterestSet {

  import Growth
  import PQ = PendingQueues
  import opened Watchers

  /** An event mask: EV_READ and EV_WRITE. */
  datatype Events = Events(read: bool, write: bool)

  const NONE := Events(false, false)

  /** struct pollfd: POLLIN and POLLOUT. */
  datatype PollFd = PollFd(fd: nat, pollin: bool, pollout: bool)

  /** The polled descriptors and for what. */
  function InterestOf(polls: seq<PollFd>, pollidxs: seq<int>): map<nat, Events>
    requires Inverse(polls, pollidxs)
  {
    map fd: nat | fd < |pollidxs| && pollidxs[fd] >= 0 ::
      Events(polls[pollidxs[fd]].pollin, polls[pollidxs[fd]].pollout)
  }

  /** polls and pollidxs are mutually inverse, and nothing is polled for no event. */
  predicate Inverse(polls: seq<PollFd>, pollidxs: seq<int>) {
    && (forall i | 0 <= i < |polls| :: polls[i].fd < |pollidxs| && pollidxs[polls[i].fd] == i)
    && (forall fd | 0 <= fd < |pollidxs| && pollidxs[fd] >= 0 ::
      pollidxs[fd] < |polls| && polls[pollidxs[fd]].fd == fd)
    && (forall i | 0 <= i < |polls| :: polls[i].pollin || polls[i].pollout)
  }

  function Get(interest: map<nat, Events>, fd: nat): Events {
    if fd in interest then interest[fd] else NONE
  }

  function Put(interest: map<nat, Events>, fd: nat, events: Events): map<nat, Events> {
    if events == NONE then interest - {fd} else interest[fd := events]
  }

  lemma {:induction false} PutGet(interest: map<nat, Events>, fd: nat, events: Events, other: nat)
    ensures Get(Put(interest, fd, events), other) == if other == fd then events else Get(interest, other)
  {
  }

  /** Filling up with -1 polls nothing more. */
  lemma Filled(polls: seq<PollFd>, pollidxs: seq<int>, n: nat)
    requires Inverse(polls, pollidxs)
    ensures Inverse(polls, pollidxs + seq(n, _ => -1))
    ensures InterestOf(polls, pollidxs + seq(n, _ => -1)) == InterestOf(polls, pollidxs)
  {
  }

  lemma Changed(polls: seq<PollFd>, pollidxs: seq<int>, fd: nat, nev: Events)
    requires fd < |pollidxs| && pollidxs[fd] >= 0 && nev != NONE && Inverse(polls, pollidxs)
    ensures var p := polls[pollidxs[fd] := PollFd(fd, nev.read, nev.write)];
      Inverse(p, pollidxs) && InterestOf(p, pollidxs) == Put(InterestOf(polls, pollidxs), fd, nev)
  {
  }

  lemma Added(polls: seq<PollFd>, pollidxs: seq<int>, fd: nat, nev: Events)
    requires fd < |pollidxs| && pollidxs[fd] < 0 && nev != NONE && Inverse(polls, pollidxs)
    ensures var p, q := polls + [PollFd(fd, nev.read, nev.write)], pollidxs[fd := |polls|];
      Inverse(p, q) && InterestOf(p, q) == Put(InterestOf(polls, pollidxs), fd, nev)
  {
  }

  /** The last poll structure takes the place of that of fd. */
  function SwapLast(polls: seq<PollFd>, idx: nat): seq<PollFd>
    requires idx < |polls|
  {
    polls[idx := polls[|polls| - 1]][..|polls| - 1]
  }

  function SwapIndex(polls: seq<PollFd>, pollidxs: seq<int>, fd: nat): seq<int>
    requires fd < |pollidxs| && 0 <= pollidxs[fd] && Inverse(polls, pollidxs)
  {
    var last := |polls| - 1;
    if pollidxs[fd] < last then pollidxs[fd := -1][polls[last].fd := pollidxs[fd]] else pollidxs[fd := -1]
  }

  lemma SwapIs(polls: seq<PollFd>, pollidxs: seq<int>, fd: nat)
    requires fd < |pollidxs| && 0 <= pollidxs[fd] && Inverse(polls, pollidxs)
    ensures pollidxs[fd] < |polls| && polls[|polls| - 1].fd < |pollidxs|
    ensures SwapLast(polls, pollidxs[fd]) ==
      (if pollidxs[fd] < |polls| - 1 then polls[pollidxs[fd] := polls[|polls| - 1]] else polls)[..|polls| - 1]
    ensures SwapIndex(polls, pollidxs, fd) ==
      if pollidxs[fd] < |polls| - 1 then pollidxs[fd := -1][polls[|polls| - 1].fd := pollidxs[fd]]
      else pollidxs[fd := -1]
  {
  }

  lemma Dropped(polls: seq<PollFd>, pollidxs: seq<int>, fd: nat)
    requires fd < |pollidxs| && 0 <= pollidxs[fd] && Inverse(polls, pollidxs)
    ensures var p, q := SwapLast(polls, pollidxs[fd]), SwapIndex(polls, pollidxs, fd);
      Inverse(p, q) && InterestOf(p, q) == InterestOf(polls, pollidxs) - {fd}
  {
    var p, q := SwapLast(polls, pollidxs[fd]), SwapIndex(polls, pollidxs, fd);
    forall i | 0 <= i < |p| ensures p[i].fd < |q| && q[p[i].fd] == i && (p[i].pollin || p[i].pollout) {
      assert i == pollidxs[fd] || p[i] == polls[i];
    }
  }

  lemma Bounds(polls: seq<PollFd>, pollidxs: seq<int>, fd: nat)
    requires fd < |pollidxs| && Inverse(polls, pollidxs)
    ensures pollidxs[fd] < |polls|
    ensures forall i | 0 <= i < |polls| :: polls[i].fd < |pollidxs|
    ensures pollidxs[fd] < 0 ==> Get(InterestOf(polls, pollidxs), fd) == NONE
  {
  }

  lemma PutSame(polls: seq<PollFd>, pollidxs: seq<int>, fd: nat)
    requires Inverse(polls, pollidxs)
    ensures var interest := InterestOf(polls, pollidxs); Put(interest, fd, Get(interest, fd)) == interest
  {
  }

  class PollBackend {
    var polls: seq<PollFd>
    var pollidxs: seq<int>

    ghost predicate Valid()
      reads this
    {
      Inverse(polls, pollidxs)
    }

    ghost function Interest(): map<nat, Events>
      requires Valid()
      reads this
    {
      InterestOf(polls, pollidxs)
    }

    constructor ()
      ensures Valid() && Interest() == map[]
    {
      polls, pollidxs := [], [];
    }

    /** poll_modify. */
    method Modify(fd: nat, oev: Events, nev: Events)
      requires Valid() && oev == Get(Interest(), fd)
      modifies this
      ensures Valid() && Interest() == Put(old(Interest()), fd, nev)
    {
      hide Inverse, InterestOf, SwapLast, SwapIndex;
      if oev == nev {
        PutSame(polls, pollidxs, fd);
        return;
      }
      if fd + 1 > |pollidxs| {
        var size := Growth.NextSize(4, |pollidxs|, fd + 1);
        Filled(polls, pollidxs, size - |pollidxs|);
        pollidxs := pollidxs + seq(size - |pollidxs|, _ => -1);
      }
      ghost var p, q := polls, pollidxs;
      Bounds(p, q, fd);
      var idx := pollidxs[fd];
      if idx < 0 {
        Added(p, q, fd, nev);
        idx := |polls|;
        pollidxs := pollidxs[fd := idx];
        polls := polls + [PollFd(fd, false, false)];
      }
      if nev != NONE {
        if q[fd] >= 0 { Changed(p, q, fd, nev); }
        polls := polls[idx := PollFd(fd, nev.read, nev.write)];
        assert q[fd] < 0 ==> polls == p + [PollFd(fd, nev.read, nev.write)];
      } else {
        Dropped(p, q, fd);
        pollidxs := pollidxs[fd := -1];
        var last := |polls| - 1;
        if idx < last {
          polls := polls[idx := polls[last]];
          pollidxs := pollidxs[polls[idx].fd := idx];
        }
        polls := polls[..last];
        SwapIs(p, q, fd);
      }
    }
  }

  /** An io watcher; base is what the pending queues know of it. Its event mask also has
      EV__IOFDSET, set when its descriptor is new. */
  class IoWatcher {
    const base: Watcher
    var fd: nat
    var events: Events
    var fdset: bool
    var active: int
    var next: IoWatcher?

    /** ev_io_set; the loop's contract is to stop the watcher first. */
    constructor (base: Watcher, fd: nat, events: Events)
      ensures this.base == base && this.fd == fd && this.events == events && fdset && active == 0
    {
      this.base, this.fd, this.events, fdset, active, next := base, fd, events, true, 0, null;
    }
  }

  /** What is known of a descriptor; its reify mask as two flags, EV_ANFD_REIFY and
      EV__IOFDSET. */
  datatype Anfd = Anfd(head: IoWatcher?, events: Events, reify: bool, fdset: bool)

  const UNUSED := Anfd(null, NONE, false, false)

  predicate Marked(a: Anfd) {
    a.reify || a.fdset
  }

  function First(list: seq<IoWatcher>): IoWatcher? {
    if list == [] then null else list[0]
  }

  function Succ(list: seq<IoWatcher>, i: int): IoWatcher? {
    if 0 <= i + 1 < |list| then list[i + 1] else null
  }

  /** The list that starts at head. */
  predicate Chain(head: IoWatcher?, list: seq<IoWatcher>, next: map<IoWatcher, IoWatcher?>) {
    && head == First(list)
    && (forall i {:trigger Succ(list, i)} | 0 <= i < |list| :: list[i] in next && next[list[i]] == Succ(list, i))
    && (forall i, j | 0 <= i < j < |list| :: list[i] != list[j])
  }

  function Without(list: seq<IoWatcher>, m: nat): seq<IoWatcher>
    requires m < |list|
  {
    list[..m] + list[m + 1..]
  }

  /** The values of the loop's fields: the watchers by descriptor, what is known of each
      descriptor, the changed ones, what is polled, and what the watchers want. */
  datatype View = View(
    lists: seq<seq<IoWatcher>>,
    anfds: seq<Anfd>,
    changes: seq<nat>,
    interest: map<nat, Events>,
    wants: map<IoWatcher, Events>)

  /** The or of the masks of the watchers of a list. */
  predicate WantRead(list: seq<IoWatcher>, wants: map<IoWatcher, Events>) {
    exists i :: 0 <= i < |list| && list[i] in wants && wants[list[i]].read
  }

  predicate WantWrite(list: seq<IoWatcher>, wants: map<IoWatcher, Events>) {
    exists i :: 0 <= i < |list| && list[i] in wants && wants[list[i]].write
  }

  function Wanted(list: seq<IoWatcher>, wants: map<IoWatcher, Events>): Events {
    Events(WantRead(list, wants), WantWrite(list, wants))
  }

  /** The changed descriptors are those that are marked, each once. */
  predicate Listed(changes: seq<nat>, anfds: seq<Anfd>) {
    && (forall i, j | 0 <= i < j < |changes| :: changes[i] != changes[j])
    && (forall fd <- changes :: fd < |anfds|)
    && (forall fd | 0 <= fd < |anfds| :: fd in changes <==> Marked(anfds[fd]))
  }

  /** A descriptor that is not marked has the events its watchers want. */
  predicate Told(v: View) {
    && |v.lists| == |v.anfds|
    && forall fd | 0 <= fd < |v.anfds| && !Marked(v.anfds[fd]) :: v.anfds[fd].events == Wanted(v.lists[fd], v.wants)
  }

  function EventsOf(anfds: seq<Anfd>, fd: nat): Events {
    if fd < |anfds| then anfds[fd].events else NONE
  }

  /** What is polled is what the descriptors' events say. */
  ghost predicate InStep(v: View) {
    forall fd: nat :: Get(v.interest, fd) == EventsOf(v.anfds, fd)
  }

  ghost predicate Sound(v: View) {
    Listed(v.changes, v.anfds) && Told(v) && InStep(v)
  }

  /** More descriptors that nothing is known of. */
  function Grown(v: View, n: nat): View {
    v.(anfds := v.anfds + seq(n, _ => UNUSED), lists := v.lists + seq(n, _ => []))
  }

  lemma GrownSound(v: View, n: nat)
    requires Sound(v)
    ensures Sound(Grown(v, n))
  {
    var t := Grown(v, n);
    forall fd | 0 <= fd < |t.anfds|
      ensures t.anfds[fd] == if fd < |v.anfds| then v.anfds[fd] else UNUSED
      ensures fd in t.changes <==> Marked(t.anfds[fd])
    {
    }
  }

  /** fd_change, after which the list of fd is list and starts at head. */
  function Touched(v: View, fd: nat, head: IoWatcher?, list: seq<IoWatcher>, fdset: bool): View
    requires fd < |v.anfds| && fd < |v.lists|
  {
    var a := v.anfds[fd];
    v.(lists := v.lists[fd := list],
       anfds := v.anfds[fd := Anfd(head, a.events, true, a.fdset || fdset)],
       changes := if Marked(a) then v.changes else v.changes + [fd])
  }

  lemma TouchedSound(v: View, fd: nat, head: IoWatcher?, list: seq<IoWatcher>, fdset: bool)
    requires fd < |v.anfds| && fd < |v.lists| && Sound(v)
    ensures Sound(Touched(v, fd, head, list, fdset))
  {
    var t := Touched(v, fd, head, list, fdset);
    hide Wanted;
    assert forall g | 0 <= g < |t.anfds| && g != fd :: t.anfds[g] == v.anfds[g] && t.lists[g] == v.lists[g];
    assert !Marked(v.anfds[fd]) ==> fd !in v.changes;
  }

  /** Midway in fd_reify: only the changes from i on are still marked. */
  ghost predicate Reifying(v: View, i: nat) {
    i <= |v.changes| && Listed(v.changes[i..], v.anfds) && Told(v) && InStep(v)
  }

  function Reified(v: View, fd: nat): View
    requires fd < |v.anfds| && fd < |v.lists|
  {
    var events := Wanted(v.lists[fd], v.wants);
    v.(anfds := v.anfds[fd := Anfd(v.anfds[fd].head, events, false, false)],
       interest := Put(v.interest, fd, events))
  }

  lemma ReifiedMore(v: View, i: nat)
    requires i < |v.changes| && Reifying(v, i)
    ensures v.changes[i] < |v.anfds| == |v.lists|
    ensures Reifying(Reified(v, v.changes[i]), i + 1)
  {
    hide Wanted;
    var fd := v.changes[i];
    var left := v.changes[i..];
    assert left[0] == fd && fd in left && left[1..] == v.changes[i + 1..];
    var t := Reified(v, fd);
    FirstUnmarked(left, v.anfds, t.anfds[fd]);
    forall g: nat ensures Get(t.interest, g) == EventsOf(t.anfds, g) {
      PutGet(v.interest, fd, t.anfds[fd].events, g);
    }
  }

  lemma FirstUnmarked(changes: seq<nat>, anfds: seq<Anfd>, a: Anfd)
    requires changes != [] && changes[0] < |anfds| && !Marked(a) && Listed(changes, anfds)
    ensures Listed(changes[1..], anfds[changes[0] := a])
  {
    var t, rest := anfds[changes[0] := a], changes[1..];
    assert changes == [changes[0]] + rest;
    forall i, j | 0 <= i < j < |rest| ensures rest[i] != rest[j] {
      assert rest[i] == changes[i + 1] && rest[j] == changes[j + 1];
    }
    assert changes[0] !in rest;
    forall fd: nat ensures fd in changes <==> fd == changes[0] || fd in rest {
      assert fd in [changes[0]] + rest <==> fd == changes[0] || fd in rest;
    }
    forall fd | 0 <= fd < |t| ensures fd in rest <==> Marked(t[fd]) {
      assert fd in changes <==> Marked(anfds[fd]);
    }
  }

  /** After reification each descriptor is polled for in (out) just when some watcher on
      its list wants to read (write). */
  lemma PolledIff(v: View, fd: nat)
    requires v.changes == [] && Sound(v)
    ensures Get(v.interest, fd) == if fd < |v.lists| then Wanted(v.lists[fd], v.wants) else NONE
  {
    assert Get(v.interest, fd) == EventsOf(v.anfds, fd);
  }

  /** The values of the list fields: which watchers each descriptor's list holds, and the
      watchers' own links, descriptors and whether they are active. */
  datatype Links = Links(
    lists: seq<seq<IoWatcher>>,
    anfds: seq<Anfd>,
    next: map<IoWatcher, IoWatcher?>,
    fds: map<IoWatcher, nat>,
    active: map<IoWatcher, bool>)

  predicate MemberOk(l: Links, fd: nat, w: IoWatcher) {
    w in l.next && w in l.fds && w in l.active && l.fds[w] == fd && l.active[w]
  }

  /** Every descriptor's list holds exactly its active watchers, linked from its head. */
  ghost predicate Linked(l: Links) {
    && |l.lists| == |l.anfds| && l.next.Keys == l.fds.Keys == l.active.Keys
    && (forall fd, i | 0 <= fd < |l.lists| && 0 <= i < |l.lists[fd]| :: MemberOk(l, fd, l.lists[fd][i]))
    && (forall fd | 0 <= fd < |l.lists| :: Chain(l.anfds[fd].head, l.lists[fd], l.next))
    && (forall w | w in l.active && l.active[w] :: l.fds[w] < |l.lists| && w in l.lists[l.fds[w]])
  }

  lemma ChainApart(head: IoWatcher?, list: seq<IoWatcher>, next: map<IoWatcher, IoWatcher?>, w: IoWatcher,
                   n: IoWatcher?)
    requires Chain(head, list, next) && w !in list
    ensures Chain(head, list, next[w := n])
  {
    forall i | 0 <= i < |list| ensures list[i] in next && next[w := n][list[i]] == Succ(list, i) {
      ChainAt(head, list, next, i);
    }
  }

  lemma ChainAt(head: IoWatcher?, list: seq<IoWatcher>, next: map<IoWatcher, IoWatcher?>, i: nat)
    requires i < |list| && Chain(head, list, next)
    ensures list[i] in next && next[list[i]] == Succ(list, i)
  {
    assert Succ(list, i) == if i + 1 < |list| then list[i + 1] else null;
  }

  lemma ChainAdd(head: IoWatcher?, list: seq<IoWatcher>, next: map<IoWatcher, IoWatcher?>, w: IoWatcher)
    requires Chain(head, list, next) && w !in list
    ensures Chain(w, [w] + list, next[w := head])
  {
    var longer := [w] + list;
    assert next[w := head][w] == Succ(longer, 0);
    forall i | 0 <= i < |longer| ensures longer[i] in next[w := head] && next[w := head][longer[i]] == Succ(longer, i) {
      assert i > 0 ==> Succ(longer, i) == Succ(list, i - 1);
    }
  }

  /** Taking out the member at m: its predecessor, or the head, gets its successor. */
  lemma ChainCut(head: IoWatcher?, list: seq<IoWatcher>, next: map<IoWatcher, IoWatcher?>, m: nat)
    requires m < |list| && Chain(head, list, next)
    ensures list[m] in next && next[list[m]] == Succ(list, m)
    ensures m == 0 ==> Chain(next[list[m]], Without(list, m), next)
    ensures m > 0 ==> Chain(head, Without(list, m), next[list[m - 1] := next[list[m]]])
  {
    var r := Without(list, m);
    CutAt(list, m);
    ChainAt(head, list, next, m);
    var next' := if m == 0 then next else next[list[m - 1] := next[list[m]]];
    forall i | 0 <= i < |r| ensures r[i] in next' && next'[r[i]] == Succ(r, i) {
      ChainAt(head, list, next, if i < m then i else i + 1);
    }
  }

  lemma CutAt(list: seq<IoWatcher>, m: nat)
    requires m < |list|
    ensures var r := Without(list, m);
      && |r| == |list| - 1
      && (forall i | 0 <= i < m :: r[i] == list[i])
      && (forall i | m <= i < |r| :: r[i] == list[i + 1])
  {
  }

  function Enlisted(l: Links, w: IoWatcher): Links
    requires w in l.fds && l.fds[w] < |l.lists| == |l.anfds|
  {
    var fd := l.fds[w];
    l.(lists := l.lists[fd := [w] + l.lists[fd]], anfds := l.anfds[fd := l.anfds[fd].(head := w)],
       next := l.next[w := l.anfds[fd].head], active := l.active[w := true])
  }

  lemma EnlistedOk(l: Links, w: IoWatcher)
    requires w in l.fds && l.fds[w] < |l.lists| && w in l.active && !l.active[w] && Linked(l)
    ensures Linked(Enlisted(l, w))
  {
    hide Chain;
    var t, f := Enlisted(l, w), l.fds[w];
    forall fd | 0 <= fd < |l.lists| ensures Chain(t.anfds[fd].head, t.lists[fd], t.next) {
      assert forall i | 0 <= i < |l.lists[fd]| :: MemberOk(l, fd, l.lists[fd][i]);
      assert w !in l.lists[fd];
      if fd == f {
        ChainAdd(l.anfds[f].head, l.lists[f], l.next, w);
      } else {
        ChainApart(l.anfds[fd].head, l.lists[fd], l.next, w, l.anfds[f].head);
      }
    }
    forall fd, i | 0 <= fd < |t.lists| && 0 <= i < |t.lists[fd]| ensures MemberOk(t, fd, t.lists[fd][i]) {
      if fd != f {
        assert MemberOk(l, fd, l.lists[fd][i]);
      } else if i > 0 {
        assert MemberOk(l, fd, l.lists[fd][i - 1]);
      }
    }
  }

  /** w, member m of its list, taken out of it and made inactive. */
  function Unlisted(l: Links, w: IoWatcher, m: nat): Links
    requires w in l.fds && l.fds[w] < |l.lists| == |l.anfds| && m < |l.lists[l.fds[w]]|
    requires w in l.next
  {
    var fd := l.fds[w];
    var list := l.lists[fd];
    var t := l.(lists := l.lists[fd := Without(list, m)], active := l.active[w := false]);
    if m == 0 then t.(anfds := l.anfds[fd := l.anfds[fd].(head := l.next[w])])
    else t.(next := l.next[list[m - 1] := l.next[w]])
  }

  lemma UnlistedChain(l: Links, w: IoWatcher, m: nat, fd: nat)
    requires w in l.fds && w in l.next && l.fds[w] < |l.lists| && fd < |l.lists|
    requires m < |l.lists[l.fds[w]]| && l.lists[l.fds[w]][m] == w && Linked(l)
    ensures var t := Unlisted(l, w, m); Chain(t.anfds[fd].head, t.lists[fd], t.next)
  {
    hide Chain, Without;
    var list := l.lists[l.fds[w]];
    if fd == l.fds[w] {
      ChainCut(l.anfds[fd].head, list, l.next, m);
    } else if m > 0 {
      assert MemberOk(l, l.fds[w], list[m - 1]);
      assert forall i | 0 <= i < |l.lists[fd]| :: MemberOk(l, fd, l.lists[fd][i]);
      ChainApart(l.anfds[fd].head, l.lists[fd], l.next, list[m - 1], l.next[w]);
    }
  }

  lemma UnlistedMembers(l: Links, w: IoWatcher, m: nat)
    requires w in l.fds && w in l.next && l.fds[w] < |l.lists|
    requires m < |l.lists[l.fds[w]]| && l.lists[l.fds[w]][m] == w && Linked(l)
    ensures var t := Unlisted(l, w, m);
      && t.next.Keys == l.next.Keys && t.active.Keys == l.active.Keys
      && (forall fd, i | 0 <= fd < |t.lists| && 0 <= i < |t.lists[fd]| :: MemberOk(t, fd, t.lists[fd][i]))
  {
    hide Chain, Without;
    var t, f := Unlisted(l, w, m), l.fds[w];
    var list := l.lists[f];
    CutAt(list, m);
    ChainOnce(l.anfds[f].head, list, l.next);
    assert MemberOk(l, f, list[m]) && (m > 0 ==> MemberOk(l, f, list[m - 1]));
    forall fd, i | 0 <= fd < |t.lists| && 0 <= i < |t.lists[fd]| ensures MemberOk(t, fd, t.lists[fd][i]) {
      assert MemberOk(l, fd, l.lists[fd][if fd == f && i >= m then i + 1 else i]);
    }
  }

  lemma UnlistedOk(l: Links, w: IoWatcher, m: nat)
    requires w in l.fds && w in l.next && l.fds[w] < |l.lists|
    requires m < |l.lists[l.fds[w]]| && l.lists[l.fds[w]][m] == w && Linked(l)
    ensures Linked(Unlisted(l, w, m))
  {
    hide Chain, Without, MemberOk;
    var t := Unlisted(l, w, m);
    forall fd | 0 <= fd < |t.lists| ensures Chain(t.anfds[fd].head, t.lists[fd], t.next) { UnlistedChain(l, w, m, fd); }
    UnlistedMembers(l, w, m);
    UnlistedActive(l, w, m);
  }

  lemma UnlistedActive(l: Links, w: IoWatcher, m: nat)
    requires w in l.fds && w in l.next && l.fds[w] < |l.lists|
    requires m < |l.lists[l.fds[w]]| && l.lists[l.fds[w]][m] == w && Linked(l)
    ensures var t := Unlisted(l, w, m);
      forall v | v in t.active && t.active[v] :: t.fds[v] < |t.lists| && v in t.lists[t.fds[v]]
  {
    hide Chain, Without, MemberOk;
    var t, f := Unlisted(l, w, m), l.fds[w];
    var list := l.lists[f];
    CutAt(list, m);
    forall v | v in t.active && t.active[v] ensures t.fds[v] < |t.lists| && v in t.lists[t.fds[v]] {
      if l.fds[v] == f {
        var i :| 0 <= i < |list| && list[i] == v;
        assert t.lists[f][if i < m then i else i - 1] == v;
      }
    }
  }

  lemma ChainOnce(head: IoWatcher?, list: seq<IoWatcher>, next: map<IoWatcher, IoWatcher?>)
    requires Chain(head, list, next)
    ensures forall i, j | 0 <= i < j < |list| :: list[i] != list[j]
    ensures head == First(list)
  {
  }

  class Loop {
    ghost const watchers: set<IoWatcher>
    const backend: PollBackend
    const queues: PQ.Queues
    var anfds: seq<Anfd>
    var fdchanges: seq<nat>
    ghost var lists: seq<seq<IoWatcher>>

    ghost function Nexts(): map<IoWatcher, IoWatcher?>
      reads watchers`next
    {
      map w | w in watchers :: w.next
    }

    ghost function Fds(): map<IoWatcher, nat>
      reads watchers`fd
    {
      map w | w in watchers :: w.fd
    }

    ghost function Actives(): map<IoWatcher, bool>
      reads watchers`active
    {
      map w | w in watchers :: w.active != 0
    }

    ghost function Wants(): map<IoWatcher, Events>
      reads watchers`events
    {
      map w | w in watchers :: w.events
    }

    ghost function Lists(): Links
      reads this`lists, this`anfds, watchers`next, watchers`fd, watchers`active
    {
      Links(lists, anfds, Nexts(), Fds(), Actives())
    }

    ghost function Now(): View
      requires backend.Valid()
      reads this`lists, this`anfds, this`fdchanges, backend, watchers`events
    {
      View(lists, anfds, fdchanges, backend.Interest(), Wants())
    }

    ghost predicate Valid()
      reads this`lists, this`anfds, this`fdchanges, backend, watchers`events
      reads watchers`next, watchers`fd, watchers`active
    {
      backend.Valid() && Linked(Lists()) && Sound(Now())
    }

    constructor (ghost ws: set<IoWatcher>, queues: PQ.Queues)
      requires forall w <- ws :: w.active == 0
      ensures Valid() && watchers == ws && anfds == [] && backend.Interest() == map[] && this.queues == queues
    {
      watchers, this.queues := ws, queues;
      backend := new PollBackend();
      anfds, fdchanges, lists := [], [], [];
    }

    method SetNext(w: IoWatcher, next: IoWatcher?)
      requires w in watchers
      modifies w`next
      ensures Nexts() == old(Nexts())[w := next] && w.next == next
    {
      w.next := next;
    }

    method SetActive(w: IoWatcher, active: int)
      requires w in watchers
      modifies w`active
      ensures Actives() == old(Actives())[w := active != 0] && w.active == active
    {
      w.active := active;
    }

    lemma FieldsOf(w: IoWatcher)
      requires w in watchers
      ensures w in Fds() && Fds()[w] == w.fd
      ensures w in Nexts() && Nexts()[w] == w.next
      ensures w in Actives() && Actives()[w] == (w.active != 0)
      ensures w in Wants() && Wants()[w] == w.events
    {
    }

    /** wlist_add, for a watcher that becomes active. */
    method Enlist(w: IoWatcher)
      requires w in watchers && w.active == 0 && w.fd < |anfds| && Linked(Lists())
      modifies w`active, w`next, this`anfds, this`lists
      ensures Linked(Lists()) && |old(lists)| == |old(anfds)| && Lists() == Enlisted(old(Lists()), w)
      ensures w.active == 1
    {
      hide Linked, Nexts, Fds, Actives;
      ghost var l := Lists();
      Sizes(l);
      FieldsOf(w);
      EnlistedOk(l, w);
      SetActive(w, 1);
      SetNext(w, anfds[w.fd].head);
      anfds := anfds[w.fd := anfds[w.fd].(head := w)];
      lists := lists[w.fd := [w] + lists[w.fd]];
      assert Lists() == Enlisted(l, w);
    }

    /** The walk of wlist_del: w is member m of its list, after prev. */
    method Find(w: IoWatcher) returns (prev: IoWatcher?, ghost m: nat)
      requires w in watchers && w.active != 0 && Linked(Lists())
      ensures w.fd < |lists| == |anfds| && m < |lists[w.fd]| && lists[w.fd][m] == w
      ensures prev == if m > 0 then lists[w.fd][m - 1] else null
      ensures m > 0 ==> lists[w.fd][m - 1] in watchers
      ensures if prev == null then anfds[w.fd].head == w else prev.next == w
    {
      hide Linked, Chain, Fds;
      ghost var l := Lists();
      OnList(l, w);
      FieldsOf(w);
      ghost var list := lists[w.fd];
      ChainOnce(anfds[w.fd].head, list, l.next);
      var cur := anfds[w.fd].head;
      prev, m := null, 0;
      ghost var j :| 0 <= j < |list| && list[j] == w;
      while cur != null && cur != w
        invariant m <= j && cur == list[m]
        invariant prev == if m > 0 then list[m - 1] else null
        decreases |list| - m
      {
        ChainAt(anfds[w.fd].head, list, l.next, m);
        prev, cur := cur, cur.next;
        m := m + 1;
      }
      assert m > 0 ==> list[m - 1] in list;
      if m > 0 { ChainAt(anfds[w.fd].head, list, l.next, m - 1); }
    }

    /** wlist_del, for a watcher that becomes inactive. */
    method Unlist(w: IoWatcher) returns (ghost m: nat)
      requires w in watchers && w.active != 0 && Linked(Lists())
      modifies w`active, watchers`next, this`anfds, this`lists
      ensures w.fd < |old(lists)| == |old(anfds)| && m < |old(lists)[w.fd]| && old(lists)[w.fd][m] == w
      ensures Linked(Lists()) && Lists() == Unlisted(old(Lists()), w, m) && w.active == 0
    {
      hide Linked, Chain, Without, Nexts, Fds, Actives;
      ghost var l := Lists();
      var prev;
      prev, m := Find(w);
      FieldsOf(w);
      UnlistedOk(l, w, m);
      if prev == null {
        anfds := anfds[w.fd := anfds[w.fd].(head := w.next)];
      } else {
        SetNext(prev, w.next);
      }
      SetActive(w, 0);
      lists := lists[w.fd := Without(lists[w.fd], m)];
      assert Lists() == Unlisted(l, w, m);
    }

    ghost function Active(): set<IoWatcher>
      reads watchers`active
    {
      set w | w in watchers && w.active != 0
    }

    /** fd_change. */
    method FdChange(fd: nat, reify: bool, fdset: bool)
      requires fd < |anfds|
      modifies this`anfds, this`fdchanges
      ensures anfds == old(anfds)[fd := old(anfds)[fd].(
        reify := old(anfds)[fd].reify || reify, fdset := old(anfds)[fd].fdset || fdset)]
      ensures fdchanges == if Marked(old(anfds)[fd]) then old(fdchanges) else old(fdchanges) + [fd]
    {
      var a := anfds[fd];
      anfds := anfds[fd := a.(reify := a.reify || reify, fdset := a.fdset || fdset)];
      if !(a.reify || a.fdset) {
        fdchanges := fdchanges + [fd];
      }
    }

    /** Room for descriptor fd. */
    method NeedFd(fd: nat)
      requires Valid()
      modifies this`anfds, this`lists
      ensures Valid() && fd < |anfds| && Actives() == old(Actives())
      ensures backend.Interest() == old(backend.Interest())
    {
      hide Linked, Sound, Nexts, Fds, Actives, Wants, Inverse, InterestOf;
      if fd + 1 > |anfds| {
        var size := Growth.NextSize(16, |anfds|, fd + 1);
        GrownLinked(Lists(), size - |anfds|);
        GrownSound(Now(), size - |anfds|);
        ghost var v := Grown(Now(), size - |anfds|);
        lists := lists + seq(size - |anfds|, _ => []);
        anfds := anfds + seq(size - |anfds|, _ => UNUSED);
        assert Now() == v;
      }
    }

    /** The rest of ev_io_start, when there is room for the descriptor. */
    method StartWithRoom(w: IoWatcher)
      requires w in watchers && w.active == 0 && w.fd < |anfds| == |lists|
      requires backend.Valid() && Linked(Lists())
      modifies this`anfds, this`fdchanges, this`lists, w`active, w`next, w`fdset
      ensures backend.Valid() && Linked(Lists()) && w.active == 1
      ensures Now() == Touched(old(Now()), w.fd, w, [w] + old(lists)[w.fd], old(w.fdset))
    {
      hide Linked, Nexts, Fds, Actives, Wants, Inverse, InterestOf;
      ghost var v := Now();
      FieldsOf(w);
      Enlist(w);
      ghost var l := Lists();
      FdChange(w.fd, true, w.fdset);
      SameHeads(l, anfds);
      w.fdset := false;
    }

    /** ev_io_start. */
    method Start(w: IoWatcher)
      requires w in watchers && Valid()
      modifies this`anfds, this`fdchanges, this`lists, w`active, w`next, w`fdset
      ensures Valid() && Active() == old(Active()) + {w}
      ensures old(w.active) == 0 ==> w.fd in fdchanges
      ensures backend.Interest() == old(backend.Interest())
    {
      hide Linked, Sound, Nexts, Fds, Actives, Wants, Inverse, InterestOf;
      if w.active != 0 { return; }
      NeedFd(w.fd);
      ghost var v := Now();
      Sizes(Lists());
      TouchedSound(v, w.fd, w, [w] + lists[w.fd], w.fdset);
      StartWithRoom(w);
      IsListed(Now(), w.fd);
    }

    /** Takes w off the lists when it is active. */
    method Deactivate(w: IoWatcher)
      requires w in watchers && Valid()
      modifies this`anfds, this`fdchanges, this`lists, w`active, watchers`next
      ensures Valid() && Active() == old(Active()) - {w}
      ensures old(w.active) != 0 ==> w.fd in fdchanges
      ensures backend.Interest() == old(backend.Interest())
    {
      hide Linked, Sound, Nexts, Fds, Actives, Wants, Inverse, InterestOf, Without;
      if w.active == 0 { return; }
      ghost var v := Now();
      FieldsOf(w);
      ghost var m := Unlist(w);
      ghost var l := Lists();
      TouchedSound(v, w.fd, anfds[w.fd].head, Without(v.lists[w.fd], m), false);
      FdChange(w.fd, true, false);
      SameHeads(l, anfds);
      assert Now() == Touched(v, w.fd, l.anfds[w.fd].head, Without(v.lists[w.fd], m), false);
      IsListed(Now(), w.fd);
    }

    /** ev_io_stop. */
    method Stop(w: IoWatcher)
      requires w in watchers && w.base in queues.watchers && queues.Valid() && Valid()
      modifies this`anfds, this`fdchanges, this`lists, w`active, watchers`next
      modifies queues`pendings, queues`trace, w.base`pending
      ensures Valid() && Active() == old(Active()) - {w}
      ensures old(w.active) != 0 ==> w.fd in fdchanges
      ensures backend.Interest() == old(backend.Interest())
      ensures queues.Now() == PQ.ClearedSnap(old(queues.Now()), queues.dummy, w.base)
      ensures queues.Valid() && w.base.pending == 0
    {
      hide Linked, Sound, Nexts, Fds, Actives, Wants, Inverse, InterestOf, PQ.Agree, PQ.Queues.Now, PQ.ClearedSnap;
      queues.NowPlaces(w.base);
      PQ.ClearedTwice(queues.Now(), queues.dummy, w.base);
      var dropped := queues.ClearPending(w.base);
      queues.NowPlaces(w.base);
      Deactivate(w);
    }

    /** The or of the masks of the watchers of fd's list. */
    method Collect(fd: nat) returns (events: Events)
      requires fd < |anfds| && Linked(Lists())
      ensures fd < |lists| && events == Wanted(lists[fd], Wants())
    {
      hide Linked, Chain, Nexts, Wants, Wanted;
      ghost var l, k := Lists(), 0;
      ListIs(l, fd);
      ghost var list := lists[fd];
      ChainOnce(anfds[fd].head, list, l.next);
      var w := anfds[fd].head;
      events := NONE;
      assert list[..0] == [];
      WantedNone(Wants());
      KeysOf();
      while w != null
        invariant k <= |list| && w == if k < |list| then list[k] else null
        invariant events == Wanted(list[..k], Wants())
        decreases |list| - k
      {
        assert list[k] in list;
        FieldsOf(w);
        WantedMore(list, k, Wants());
        ChainAt(anfds[fd].head, list, l.next, k);
        events := Events(events.read || w.events.read, events.write || w.events.write);
        w := w.next;
        k := k + 1;
      }
      assert list[..k] == list;
    }

    /** The backend is told when the descriptor is new or its events have changed. */
    method TellBackend(fd: nat, oEvents: Events, events: Events, oFdset: bool)
      requires backend.Valid() && oEvents == Get(backend.Interest(), fd)
      modifies backend
      ensures backend.Valid() && backend.Interest() == Put(old(backend.Interest()), fd, events)
    {
      hide Inverse, InterestOf;
      if oFdset || oEvents != events {
        backend.Modify(fd, oEvents, events);
      } else {
        PutSame(backend.polls, backend.pollidxs, fd);
      }
    }

    /** Reifies one changed descriptor. */
    method ReifyOne(fd: nat)
      requires fd < |anfds| && Linked(Lists()) && backend.Valid() && anfds[fd].events == Get(backend.Interest(), fd)
      modifies this`anfds, backend
      ensures |lists| == |old(anfds)| && Linked(Lists()) && backend.Valid()
      ensures Now() == Reified(old(Now()), fd)
    {
      hide Linked, Nexts, Fds, Actives, Wants, Wanted, Inverse, InterestOf;
      ghost var l := Lists();
      Sizes(l);
      var oEvents, oFdset := anfds[fd].events, anfds[fd].fdset;
      anfds := anfds[fd := anfds[fd].(reify := false, fdset := false)];
      SameHeads(l, anfds);
      var events := Collect(fd);
      anfds := anfds[fd := anfds[fd].(events := events)];
      SameHeads(l, anfds);
      TellBackend(fd, oEvents, events, oFdset);
      assert Now().anfds == Reified(old(Now()), fd).anfds;
    }

    /** fd_reify: afterwards every descriptor is polled for exactly what its active watchers
        want. */
    method FdReify()
      requires Valid()
      modifies this`anfds, this`fdchanges, backend
      ensures Valid() && fdchanges == [] && lists == old(lists)
      ensures Actives().Keys == Fds().Keys == Wants().Keys
      ensures forall fd: nat :: Get(backend.Interest(), fd) == WantedByActive(Lists(), Wants(), fd)
    {
      hide Linked, Nexts, Fds, Actives, Wants, Wanted, Inverse, InterestOf, Reifying, Sound, Reified, WantedByActive,
        Get;
      var changecnt := |fdchanges|;
      var i := 0;
      ReifyingNone(Now());
      while i < changecnt
        invariant 0 <= i <= changecnt == |fdchanges|
        invariant backend.Valid() && Linked(Lists()) && Reifying(Now(), i) && lists == old(lists)
      {
        ReifiedMore(Now(), i);
        NextStep(Now(), i);
        ReifyOne(fdchanges[i]);
        i := i + 1;
      }
      ReifyingAll(Now());
      fdchanges := fdchanges[changecnt..];
      KeysOf();
      AllPolled(Now(), Lists());
    }

    lemma KeysOf()
      ensures Actives().Keys == Fds().Keys == Wants().Keys == Nexts().Keys == watchers
    {
    }
  }

  lemma NextStep(v: View, i: nat)
    requires i < |v.changes| && Reifying(v, i)
    ensures v.changes[i] < |v.anfds| == |v.lists|
    ensures v.anfds[v.changes[i]].events == Get(v.interest, v.changes[i])
    ensures Reified(v, v.changes[i]).changes == v.changes && Reified(v, v.changes[i]).lists == v.lists
  {
    ReifiedMore(v, i);
  }

  lemma WantedNone(wants: map<IoWatcher, Events>)
    ensures Wanted([], wants) == NONE
  {
  }

  lemma ListIs(l: Links, fd: nat)
    requires fd < |l.anfds| && Linked(l)
    ensures |l.lists| == |l.anfds| && Chain(l.anfds[fd].head, l.lists[fd], l.next)
    ensures forall w <- l.lists[fd] :: w in l.next
  {
    forall w <- l.lists[fd] ensures w in l.next {
      var i :| 0 <= i < |l.lists[fd]| && l.lists[fd][i] == w;
      assert MemberOk(l, fd, l.lists[fd][i]);
    }
  }

  lemma IsListed(v: View, fd: nat)
    requires fd < |v.anfds| && Marked(v.anfds[fd]) && Sound(v)
    ensures fd in v.changes
  {
  }

  /** Linked looks at no more of what is known of a descriptor than where its list starts. */
  lemma SameHeads(l: Links, anfds: seq<Anfd>)
    requires |anfds| == |l.anfds| && (forall fd | 0 <= fd < |anfds| :: anfds[fd].head == l.anfds[fd].head)
    requires Linked(l)
    ensures Linked(l.(anfds := anfds))
  {
    hide Chain;
    var t := l.(anfds := anfds);
    forall fd, i | 0 <= fd < |t.lists| && 0 <= i < |t.lists[fd]| ensures MemberOk(t, fd, t.lists[fd][i]) {
      assert MemberOk(l, fd, l.lists[fd][i]);
    }
  }

  lemma GrownLinked(l: Links, n: nat)
    requires Linked(l)
    ensures Linked(l.(anfds := l.anfds + seq(n, _ => UNUSED), lists := l.lists + seq(n, _ => [])))
  {
    var t := l.(anfds := l.anfds + seq(n, _ => UNUSED), lists := l.lists + seq(n, _ => []));
    forall fd, i | 0 <= fd < |t.lists| && 0 <= i < |t.lists[fd]| ensures MemberOk(t, fd, t.lists[fd][i]) {
      assert MemberOk(l, fd, l.lists[fd][i]);
    }
  }

  /** What the active watchers of a descriptor want. */
  ghost function WantedByActive(l: Links, wants: map<IoWatcher, Events>, fd: nat): Events
    requires l.active.Keys == l.fds.Keys == wants.Keys
  {
    Events(exists w | w in l.active :: l.active[w] && l.fds[w] == fd && wants[w].read,
           exists w | w in l.active :: l.active[w] && l.fds[w] == fd && wants[w].write)
  }

  lemma ListIsActive(l: Links, wants: map<IoWatcher, Events>, fd: nat)
    requires l.active.Keys == l.fds.Keys == wants.Keys && Linked(l)
    ensures WantedByActive(l, wants, fd) == if fd < |l.lists| then Wanted(l.lists[fd], wants) else NONE
  {
    hide Chain;
    if fd < |l.lists| {
      var list := l.lists[fd];
      forall i | 0 <= i < |list| ensures list[i] in l.active && l.active[list[i]] && l.fds[list[i]] == fd {
        assert MemberOk(l, fd, l.lists[fd][i]);
      }
      forall w | w in l.active && l.active[w] && l.fds[w] == fd
        ensures exists i :: 0 <= i < |list| && list[i] == w
      {
        assert w in list;
      }
    }
  }

  lemma AllPolled(v: View, l: Links)
    requires l.active.Keys == l.fds.Keys == v.wants.Keys && v.lists == l.lists && v.changes == []
    requires Linked(l) && Sound(v)
    ensures forall fd: nat :: Get(v.interest, fd) == WantedByActive(l, v.wants, fd)
  {
    hide Linked, Sound, Get, Wanted, WantedByActive;
    forall fd: nat ensures Get(v.interest, fd) == WantedByActive(l, v.wants, fd) {
      PolledIff(v, fd);
      ListIsActive(l, v.wants, fd);
    }
  }

  lemma ReifyingAll(v: View)
    requires Reifying(v, |v.changes|)
    ensures Sound(v.(changes := []))
  {
    assert v.changes[|v.changes|..] == [];
  }

  lemma ReifyingNone(v: View)
    requires Sound(v)
    ensures Reifying(v, 0)
  {
    assert v.changes[0..] == v.changes;
  }

  lemma WantedMore(list: seq<IoWatcher>, k: nat, wants: map<IoWatcher, Events>)
    requires k < |list| && list[k] in wants
    ensures Wanted(list[..k + 1], wants) ==
      Events(Wanted(list[..k], wants).read || wants[list[k]].read,
        Wanted(list[..k], wants).write || wants[list[k]].write)
  {
    var a, b := list[..k], list[..k + 1];
    forall i | 0 <= i < k ensures a[i] == b[i] { }
    assert b[k] == list[k];
  }

  lemma Sizes(l: Links)
    requires Linked(l)
    ensures |l.lists| == |l.anfds|
  {
  }

  lemma OnList(l: Links, w: IoWatcher)
    requires w in l.active && l.active[w] && Linked(l)
    ensures w in l.next && w in l.fds && l.fds[w] < |l.lists| == |l.anfds| && w in l.lists[l.fds[w]]
    ensures Chain(l.anfds[l.fds[w]].head, l.lists[l.fds[w]], l.next)
    ensures forall v <- l.lists[l.fds[w]] :: v in l.next
  {
    forall v <- l.lists[l.fds[w]] ensures v in l.next {
      var i :| 0 <= i < |l.lists[l.fds[w]]| && l.lists[l.fds[w]][i] == v;
      assert MemberOk(l, l.fds[w], l.lists[l.fds[w]][i]);
    }
  }
}
