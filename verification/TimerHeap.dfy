/** libev's 4-ary timer heap: an array of (at, watcher) entries whose watchers know
    their own slot. */
module TimerHeap {

  import opened Watchers

  /** A heap entry; `at` caches the watcher's. */
  datatype Entry = Entry(at: real, w: Watcher)

  const DHEAP: nat := 4
  const HEAP0: nat := DHEAP - 1

  /** Integer division as in C, towards zero. */
  function CDiv(a: int, b: int): int
    requires b > 0
  {
    if a >= 0 then a / b else -(-a / b)
  }

  /** The parent slot; the root is its own parent because -1/4 is 0. */
  function HParent(k: int): int {
    CDiv(k - HEAP0 - 1, DHEAP) + HEAP0
  }

  function FirstChild(k: int): int {
    DHEAP * (k - HEAP0) + HEAP0 + 1
  }

  lemma ParentOfChild(k: int, i: int)
    requires HEAP0 <= k && HEAP0 < i
    ensures HParent(i) == k <==> FirstChild(k) <= i < FirstChild(k) + DHEAP
    ensures HEAP0 <= HParent(i) < i
    ensures HParent(HEAP0) == HEAP0
  {
  }

  predicate Slot(n: nat, i: int) {
    HEAP0 <= i < HEAP0 + n
  }

  /** Entry i is not before its parent. */
  predicate InOrder(s: seq<Entry>, i: int)
    requires HEAP0 < i < |s|
  {
    s[HParent(i)].at <= s[i].at
  }

  /** The heap condition on the first n slots. */
  predicate Heap(s: seq<Entry>, n: nat) {
    HEAP0 + n <= |s| && forall i | HEAP0 < i < HEAP0 + n :: InOrder(s, i)
  }

  /** The root of a heap is its earliest entry. */
  lemma {:induction false} RootIsEarliest(s: seq<Entry>, n: nat, i: int)
    requires Heap(s, n) && Slot(n, i)
    ensures s[HEAP0].at <= s[i].at
    decreases i
  {
    if i > HEAP0 {
      ParentOfChild(HEAP0, i);
      RootIsEarliest(s, n, HParent(i));
      assert InOrder(s, i);
    }
  }

  /** The heap condition except around slot k, whose children are not before its parent. */
  predicate HeapBut(s: seq<Entry>, n: nat, k: int) {
    && HEAP0 + n <= |s|
    && (forall i | HEAP0 < i < HEAP0 + n && i != k && HParent(i) != k :: InOrder(s, i))
    && (forall i | HEAP0 < i < HEAP0 + n && HParent(i) == k && HEAP0 < k :: s[HParent(k)].at <= s[i].at)
  }

  predicate Distinct(s: seq<Entry>, n: nat) {
    HEAP0 + n <= |s| && forall i, j | HEAP0 <= i < j < HEAP0 + n :: s[i].w != s[j].w
  }

  /** The entries of the first n slots. */
  function Live(s: seq<Entry>, n: nat): seq<Entry>
    requires HEAP0 + n <= |s|
  {
    s[HEAP0..HEAP0 + n]
  }

  function WatchersIn(s: seq<Entry>, n: nat): set<Watcher>
    requires HEAP0 + n <= |s|
  {
    set i | HEAP0 <= i < HEAP0 + n :: s[i].w
  }

  /** Every watcher but that of slot k knows its slot. */
  predicate KnowSlots(s: seq<Entry>, n: nat, k: int)
    requires HEAP0 + n <= |s|
    reads WatchersIn(s, n)`active
  {
    forall i | HEAP0 <= i < HEAP0 + n && i != k :: s[i].w.active == i
  }

  /** s' is s with its first n slots rearranged. */
  ghost predicate Rearranged(s: seq<Entry>, s': seq<Entry>, n: nat) {
    && |s'| == |s| && HEAP0 + n <= |s|
    && multiset(Live(s', n)) == multiset(Live(s, n))
    && (forall i | 0 <= i < |s| && !Slot(n, i) :: s'[i] == s[i])
  }

  function Swap(s: seq<Entry>, i: int, j: int): seq<Entry>
    requires 0 <= i < |s| && 0 <= j < |s|
  {
    s[i := s[j]][j := s[i]]
  }

  lemma SwapKeepsEntries(s: seq<Entry>, n: nat, i: int, j: int)
    requires HEAP0 + n <= |s| && Slot(n, i) && Slot(n, j)
    ensures Rearranged(s, Swap(s, i, j), n)
  {
    hide HParent;
    var a, b := Live(s, n), Live(Swap(s, i, j), n);
    assert b == a[i - HEAP0 := a[j - HEAP0]][j - HEAP0 := a[i - HEAP0]];
  }

  lemma SwapKeepsDistinct(s: seq<Entry>, n: nat, i: int, j: int)
    requires Slot(n, i) && Slot(n, j) && Distinct(s, n)
    ensures Distinct(Swap(s, i, j), n)
  {
  }

  /** Slot i of a swapped sequence, in the original. */
  function Origin(i: int, j: int, k: int): int {
    if k == i then j else if k == j then i else k
  }

  lemma SwapKeepsWatchers(s: seq<Entry>, n: nat, i: int, j: int)
    requires HEAP0 + n <= |s| && Slot(n, i) && Slot(n, j)
    ensures WatchersIn(Swap(s, i, j), n) == WatchersIn(s, n)
  {
    var s' := Swap(s, i, j);
    assert forall k | Slot(n, k) :: s'[k] == s[Origin(i, j, k)] && s[k] == s'[Origin(i, j, k)];
    forall w <- WatchersIn(s, n) ensures w in WatchersIn(s', n) {
      var k :| Slot(n, k) && s[k].w == w;
      assert s'[Origin(i, j, k)].w == w;
    }
    forall w <- WatchersIn(s', n) ensures w in WatchersIn(s, n) {
      var k :| Slot(n, k) && s'[k].w == w;
      assert s[Origin(i, j, k)].w == w;
    }
  }

  lemma RearrangedTrans(a: seq<Entry>, b: seq<Entry>, c: seq<Entry>, n: nat)
    requires Rearranged(a, b, n) && Rearranged(b, c, n)
    ensures Rearranged(a, c, n)
  {
  }

  /** The hole moves down to the smallest child c. */
  lemma {:induction false} SiftedDown(s: seq<Entry>, n: nat, k: int, c: int)
    requires HeapBut(s, n, k) && Slot(n, k) && Slot(n, c) && HEAP0 < c && HParent(c) == k
    requires forall i | HEAP0 < i < HEAP0 + n && HParent(i) == k :: s[c].at <= s[i].at
    requires s[c].at < s[k].at
    requires HEAP0 < k ==> s[HParent(k)].at <= s[k].at
    ensures HeapBut(Swap(s, k, c), n, c)
    ensures HEAP0 < c && Swap(s, k, c)[HParent(c)].at <= Swap(s, k, c)[c].at
  {
    var s' := Swap(s, k, c);
    ParentOfChild(k, c);
    forall i | HEAP0 < i < HEAP0 + n && i != c && HParent(i) != c ensures InOrder(s', i) {
      ParentOfChild(k, i);
      if i != k && HParent(i) != k { assert InOrder(s, i); }
    }
    forall i | HEAP0 < i < HEAP0 + n && HParent(i) == c ensures s'[HParent(c)].at <= s'[i].at {
      ParentOfChild(c, i);
      assert InOrder(s, i);
    }
  }

  /** The hole moves up to its parent p. */
  lemma {:induction false} SiftedUp(s: seq<Entry>, n: nat, k: int)
    requires HeapBut(s, n, k) && Slot(n, k) && HEAP0 < k
    requires s[k].at < s[HParent(k)].at
    ensures HeapBut(Swap(s, k, HParent(k)), n, HParent(k))
    ensures var p, s' := HParent(k), Swap(s, k, HParent(k));
      forall i | HEAP0 < i < HEAP0 + n && HParent(i) == p :: s'[p].at <= s'[i].at
  {
    var p := HParent(k);
    ParentOfChild(p, k);
    var s' := Swap(s, k, p);
    forall i | HEAP0 < i < HEAP0 + n && i != p && HParent(i) != p ensures InOrder(s', i) {
      ParentOfChild(p, i);
      ParentOfChild(k, i);
      if HParent(i) != k { assert InOrder(s, i); }
    }
    forall i | HEAP0 < i < HEAP0 + n && HParent(i) == p
      ensures s'[p].at <= s'[i].at && (HEAP0 < p ==> s'[HParent(p)].at <= s'[i].at)
    {
      ParentOfChild(p, i);
      if i != k { assert InOrder(s, i); }
      if HEAP0 < p { ParentOfChild(HParent(p), p); assert InOrder(s, p); }
    }
  }

  /** What a sift keeps: the array is a rearrangement of what it was, in heap order
      except around its hole. */
  ghost predicate Hole(s0: seq<Entry>, s: seq<Entry>, n: nat, k: int) {
    && Slot(n, k) && HEAP0 + n <= |s0| && HEAP0 + n <= |s|
    && HeapBut(s, n, k)
    && Rearranged(s0, s, n)
    && Distinct(s, n)
    && WatchersIn(s, n) == WatchersIn(s0, n)
  }

  /** No child of slot k is before it. */
  predicate AboveChildren(s: seq<Entry>, n: nat, k: int) {
    && Slot(n, k) && HEAP0 + n <= |s|
    && forall i | HEAP0 < i < HEAP0 + n && HParent(i) == k :: s[k].at <= s[i].at
  }

  predicate BelowParent(s: seq<Entry>, n: nat, k: int) {
    && Slot(n, k) && HEAP0 + n <= |s|
    && (HEAP0 < k ==> InOrder(s, k))
  }

  /** at is not after any of the four slots from pos on that are in use. */
  predicate NotAfterAny(s: seq<Entry>, n: nat, pos: int, at: real)
    requires 0 <= pos && HEAP0 + n <= |s|
  {
    forall i | pos <= i < pos + DHEAP && i < HEAP0 + n :: at <= s[i].at
  }

  lemma HoleDown(s0: seq<Entry>, s: seq<Entry>, n: nat, k: int, c: int)
    requires FirstChild(k) <= c < FirstChild(k) + DHEAP && Slot(n, k) && Slot(n, c)
    requires HEAP0 + n <= |s|
    requires NotAfterAny(s, n, FirstChild(k), s[c].at)
    requires s[c].at < s[k].at
    requires BelowParent(s, n, k) && Hole(s0, s, n, k)
    ensures Hole(s0, Swap(s, k, c), n, c) && BelowParent(Swap(s, k, c), n, c)
  {
    hide HParent, InOrder, HeapBut, Rearranged, Distinct, WatchersIn;
    ParentOfChild(k, c);
    forall i | HEAP0 < i < HEAP0 + n && HParent(i) == k ensures s[c].at <= s[i].at { ParentOfChild(k, i); }
    BelowIsOrder(s, n, k);
    SiftedDown(s, n, k, c);
    BelowIsOrder(Swap(s, k, c), n, c);
    SwapKeepsEntries(s, n, k, c);
    SwapKeepsDistinct(s, n, k, c);
    SwapKeepsWatchers(s, n, k, c);
    RearrangedTrans(s0, s, Swap(s, k, c), n);
  }

  lemma BelowIsOrder(s: seq<Entry>, n: nat, k: int)
    requires Slot(n, k) && HEAP0 + n <= |s|
    ensures HEAP0 <= HParent(k) <= k
    ensures BelowParent(s, n, k) <==> (HEAP0 < k ==> s[HParent(k)].at <= s[k].at)
  {
    if HEAP0 < k { ParentOfChild(k, k); }
  }

  lemma HoleUp(s0: seq<Entry>, s: seq<Entry>, n: nat, k: int)
    requires HEAP0 < k && Slot(n, k) && HEAP0 + n <= |s| && Slot(n, HParent(k))
    requires s[k].at < s[HParent(k)].at
    requires Hole(s0, s, n, k)
    ensures Hole(s0, Swap(s, k, HParent(k)), n, HParent(k))
    ensures AboveChildren(Swap(s, k, HParent(k)), n, HParent(k))
  {
    hide HParent, InOrder, HeapBut, Rearranged, Distinct, WatchersIn;
    var p := HParent(k);
    SiftedUp(s, n, k);
    SwapKeepsEntries(s, n, k, p);
    SwapKeepsDistinct(s, n, k, p);
    SwapKeepsWatchers(s, n, k, p);
    RearrangedTrans(s0, s, Swap(s, k, p), n);
  }

  /** A hole that is in order with its parent and its children is none. */
  lemma HoleFilled(s: seq<Entry>, n: nat, k: int)
    requires HeapBut(s, n, k) && AboveChildren(s, n, k) && BelowParent(s, n, k)
    ensures Heap(s, n)
  {
    forall i | HEAP0 < i < HEAP0 + n ensures InOrder(s, i) {
      ParentOfChild(k, i);
    }
  }

  lemma IsAboveChildren(s: seq<Entry>, n: nat, k: int, at: real)
    requires Slot(n, k) && HEAP0 + n <= |s|
    requires NotAfterAny(s, n, FirstChild(k), at)
    requires HEAP0 + n <= FirstChild(k) || s[k].at <= at
    ensures AboveChildren(s, n, k)
  {
    forall i | HEAP0 < i < HEAP0 + n && HParent(i) == k ensures s[k].at <= s[i].at { ParentOfChild(k, i); }
  }

  /** The smallest of the children that start at pos, if there are any. The source tests a
      fourth child on its slow path too, where there cannot be one. */
  method MinChild(heap: array<Entry>, n: nat, pos: nat) returns (found: bool, minpos: nat, minat: real)
    requires HEAP0 < pos && HEAP0 + n <= heap.Length
    ensures found <==> pos < HEAP0 + n
    ensures found ==> pos <= minpos < pos + DHEAP && minpos < HEAP0 + n && minat == heap[minpos].at
    ensures NotAfterAny(heap[..], n, pos, minat)
  {
    var e := n + HEAP0;
    found, minpos, minat := pos < e, pos, 0.0;
    if pos + DHEAP - 1 < e {
      minat := heap[pos].at;
      if minat > heap[pos + 1].at { minpos, minat := pos + 1, heap[pos + 1].at; }
      if minat > heap[pos + 2].at { minpos, minat := pos + 2, heap[pos + 2].at; }
      if minat > heap[pos + 3].at { minpos, minat := pos + 3, heap[pos + 3].at; }
    } else if pos < e {
      minat := heap[pos].at;
      if pos + 1 < e && minat > heap[pos + 1].at { minpos, minat := pos + 1, heap[pos + 1].at; }
      if pos + 2 < e && minat > heap[pos + 2].at { minpos, minat := pos + 2, heap[pos + 2].at; }
    }
  }

  /** Away from the root. */
  method Downheap(heap: array<Entry>, n: nat, k0: nat)
    requires Slot(n, k0) && HEAP0 + n <= heap.Length
    requires BelowParent(heap[..], n, k0) && Hole(heap[..], heap[..], n, k0)
    requires KnowSlots(heap[..], n, k0)
    modifies heap, WatchersIn(heap[..], n)`active
    ensures Heap(heap[..], n) && Rearranged(old(heap[..]), heap[..], n)
    ensures Distinct(heap[..], n) && KnowSlots(heap[..], n, 0)
    ensures WatchersIn(heap[..], n) == old(WatchersIn(heap[..], n))
  {
    hide BelowParent, HeapBut, Heap, HParent, Rearranged, WatchersIn, AboveChildren;
    var k := k0;
    var he := heap[k];
    ghost var s0, s := heap[..], heap[..];
    while true
      invariant Slot(n, k)
      invariant |s| == heap.Length && s == heap[..][k := he]
      invariant BelowParent(s, n, k) && Hole(s0, s, n, k) && KnowSlots(s, n, k)
      decreases HEAP0 + n - k
    {
      var pos := DHEAP * (k - HEAP0) + HEAP0 + 1;
      var found, minpos, minat := MinChild(heap, n, pos);
      assert NotAfterAny(s, n, pos, minat);
      if !found || he.at <= minat {
        IsAboveChildren(s, n, k, minat);
        break;
      }
      HoleDown(s0, s, n, k, minpos);
      InWatchers(s, n, minpos);
      heap[k] := heap[minpos];
      heap[minpos].w.active := k;
      s := Swap(s, k, minpos);
      k := minpos;
    }
    InWatchers(s, n, k);
    HoleFilled(s, n, k);
    heap[k] := he;
    he.w.active := k;
    assert heap[..] == s;
  }

  lemma InWatchers(s: seq<Entry>, n: nat, i: int)
    requires HEAP0 + n <= |s| && Slot(n, i)
    ensures s[i].w in WatchersIn(s, n)
  {
  }

  /** Towards the root. */
  method Upheap(heap: array<Entry>, ghost n: nat, k0: nat)
    requires Slot(n, k0) && HEAP0 + n <= heap.Length
    requires AboveChildren(heap[..], n, k0) && Hole(heap[..], heap[..], n, k0)
    requires KnowSlots(heap[..], n, k0)
    modifies heap, WatchersIn(heap[..], n)`active
    ensures Heap(heap[..], n) && Rearranged(old(heap[..]), heap[..], n)
    ensures Distinct(heap[..], n) && KnowSlots(heap[..], n, 0)
    ensures WatchersIn(heap[..], n) == old(WatchersIn(heap[..], n))
  {
    hide BelowParent, HeapBut, Heap, HParent, Rearranged, WatchersIn, AboveChildren;
    var k := k0;
    var he := heap[k];
    ghost var s0, s := heap[..], heap[..];
    while true
      invariant Slot(n, k)
      invariant |s| == heap.Length && s == heap[..][k := he]
      invariant AboveChildren(s, n, k) && Hole(s0, s, n, k) && KnowSlots(s, n, k)
      decreases k
    {
      BelowIsOrder(s, n, k);
      var p := HParent(k);
      ParentStep(k);
      if p == k || heap[p].at <= he.at { break; }
      HoleUp(s0, s, n, k);
      InWatchers(s, n, p);
      heap[k] := heap[p];
      heap[p].w.active := k;
      s := Swap(s, k, p);
      k := p;
    }
    InWatchers(s, n, k);
    HoleFilled(s, n, k);
    heap[k] := he;
    he.w.active := k;
    assert heap[..] == s;
  }

  lemma ParentStep(k: int)
    requires HEAP0 <= k
    ensures HParent(k) == k <==> k == HEAP0
  {
    if HEAP0 < k { ParentOfChild(k, k); }
  }

  /** Slot k holds an entry that may be out of place both ways; its parent is still not
      after its children. */
  method Adjustheap(heap: array<Entry>, n: nat, k: nat)
    requires Slot(n, k) && HEAP0 + n <= heap.Length
    requires Hole(heap[..], heap[..], n, k) && KnowSlots(heap[..], n, k)
    modifies heap, WatchersIn(heap[..], n)`active
    ensures Heap(heap[..], n) && Rearranged(old(heap[..]), heap[..], n)
    ensures Distinct(heap[..], n) && KnowSlots(heap[..], n, 0)
    ensures WatchersIn(heap[..], n) == old(WatchersIn(heap[..], n))
  {
    hide KnowSlots, Distinct, WatchersIn;
    BelowIsOrder(heap[..], n, k);
    if k > HEAP0 && heap[k].at <= heap[HParent(k)].at {
      ChildrenOfParent(heap[..], n, k);
      Upheap(heap, n, k);
    } else {
      Downheap(heap, n, k);
    }
  }

  lemma ChildrenOfParent(s: seq<Entry>, n: nat, k: int)
    requires HEAP0 < k && Slot(n, k) && HeapBut(s, n, k) && Slot(n, HParent(k))
    requires s[k].at <= s[HParent(k)].at
    ensures AboveChildren(s, n, k)
  {
  }

  /** Replacing one entry of a heap leaves a hole at most there. */
  lemma Replaced(s: seq<Entry>, n: nat, k: int, e: Entry)
    requires Slot(n, k) && Heap(s, n)
    ensures HeapBut(s[k := e], n, k)
  {
    var s' := s[k := e];
    forall i | HEAP0 < i < HEAP0 + n ensures i != k && HParent(i) != k ==> InOrder(s', i) {
      ParentOfChild(k, i);
      assert InOrder(s, i);
    }
    forall i | HEAP0 < i < HEAP0 + n && HParent(i) == k && HEAP0 < k ensures s'[HParent(k)].at <= s'[i].at {
      ParentOfChild(k, i);
      ParentOfChild(k, k);
      assert InOrder(s, i) && InOrder(s, k);
    }
  }

  /** A heap with one more slot has a hole at most there. */
  lemma Appended(s: seq<Entry>, n: nat)
    requires Heap(s, n) && HEAP0 + n < |s|
    ensures HeapBut(s, n + 1, HEAP0 + n) && AboveChildren(s, n + 1, HEAP0 + n)
  {
    forall i | HEAP0 < i < HEAP0 + n + 1
      ensures HParent(i) != HEAP0 + n && (i != HEAP0 + n ==> InOrder(s, i))
    {
      ParentOfChild(HEAP0, i);
    }
  }

  /** Rearranging the first m slots rearranges the first n. */
  lemma RearrangedMore(s: seq<Entry>, s': seq<Entry>, m: nat, n: nat)
    requires m <= n && HEAP0 + n <= |s| && Rearranged(s, s', m)
    requires WatchersIn(s', m) == WatchersIn(s, m) && Distinct(s', m) && Distinct(s, n)
    ensures forall i | HEAP0 + m <= i < HEAP0 + n :: s'[i] == s[i]
    ensures Rearranged(s, s', n) && WatchersIn(s', n) == WatchersIn(s, n) && Distinct(s', n)
  {
    var rest := s[HEAP0 + m..HEAP0 + n];
    assert Live(s, n) == Live(s, m) + rest;
    assert Live(s', n) == Live(s', m) + rest;
    DistinctMore(s, s', m, n);
    WatchersSplit(s, m, n);
    WatchersSplit(s', m, n);
    assert WatchersBetween(s, m, n) == WatchersBetween(s', m, n);
  }

  lemma DistinctMore(s: seq<Entry>, s': seq<Entry>, m: nat, n: nat)
    requires m <= n && HEAP0 + n <= |s| && |s'| == |s|
    requires forall i | HEAP0 + m <= i < HEAP0 + n :: s'[i] == s[i]
    requires WatchersIn(s', m) == WatchersIn(s, m) && Distinct(s', m) && Distinct(s, n)
    ensures Distinct(s', n)
  {
    forall i, j | HEAP0 <= i < j < HEAP0 + n ensures s'[i].w != s'[j].w {
      if i < HEAP0 + m <= j {
        assert s'[i].w in WatchersIn(s', m);
        var k :| HEAP0 <= k < HEAP0 + m && s[k].w == s'[i].w;
      }
    }
  }

  function WatchersBetween(s: seq<Entry>, m: nat, n: nat): set<Watcher>
    requires HEAP0 + n <= |s|
  {
    set i | HEAP0 + m <= i < HEAP0 + n :: s[i].w
  }

  lemma WatchersSplit(s: seq<Entry>, m: nat, n: nat)
    requires m <= n && HEAP0 + n <= |s|
    ensures WatchersIn(s, n) == WatchersIn(s, m) + WatchersBetween(s, m, n)
  {
  }

  /** Rebuilds the heap, entry by entry. */
  method Reheap(heap: array<Entry>, n: nat)
    requires HEAP0 + n <= heap.Length
    requires Distinct(heap[..], n) && KnowSlots(heap[..], n, 0)
    modifies heap, WatchersIn(heap[..], n)`active
    ensures Heap(heap[..], n) && Rearranged(old(heap[..]), heap[..], n)
    ensures Distinct(heap[..], n) && KnowSlots(heap[..], n, 0)
    ensures WatchersIn(heap[..], n) == old(WatchersIn(heap[..], n))
  {
    hide HParent, InOrder, Rearranged, WatchersIn, WatchersBetween;
    var i := 0;
    RearrangedNone(heap[..], n);
    while i < n
      invariant 0 <= i <= n
      invariant Heap(heap[..], i) && Rearranged(old(heap[..]), heap[..], n)
      invariant Distinct(heap[..], n) && KnowSlots(heap[..], n, 0)
      invariant WatchersIn(heap[..], n) == old(WatchersIn(heap[..], n))
    {
      Appended(heap[..], i);
      WatchersSplit(heap[..], i + 1, n);
      Prefix(heap[..], i + 1, n);
      RearrangedNone(heap[..], i + 1);
      label Up:
      Upheap(heap, i + 1, i + HEAP0);
      ghost var up, s := old@Up(heap[..]), heap[..];
      RearrangedMore(up, s, i + 1, n);
      assert forall j | HEAP0 + i + 1 <= j < HEAP0 + n :: s[j].w.active == j by {
        assert forall j | HEAP0 + i + 1 <= j < HEAP0 + n :: up[j].w.active == j;
      }
      RearrangedTrans(old(heap[..]), old@Up(heap[..]), heap[..], n);
      i := i + 1;
    }
  }

  lemma RearrangedNone(s: seq<Entry>, n: nat)
    requires HEAP0 + n <= |s|
    ensures Rearranged(s, s, n)
  {
  }

  lemma Prefix(s: seq<Entry>, m: nat, n: nat)
    requires 0 < m <= n && HEAP0 + n <= |s| && Distinct(s, n) && KnowSlots(s, n, 0)
    ensures Distinct(s, m) && KnowSlots(s, m, HEAP0 + m - 1)
    ensures forall j | HEAP0 + m <= j < HEAP0 + n :: s[j].w !in WatchersIn(s, m)
  {
  }
}
