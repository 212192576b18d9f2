/** How libev grows its arrays. */
module Growth {

  import opened Basics

  /** int. */
  newtype int32 = x: int | -0x8000_0000 <= x < 0x8000_0000

  const INT_MAX := 0x7fff_ffff
  const MALLOC_ROUND: nat := 4096
  const OVERHEAD: nat := 4 * 8

  function Max(a: int, b: int): int {
    if a < b then b else a
  }

  /** x with the low bits that MALLOC_ROUND - 1 has cleared. */
  function RoundDown(x: nat): (r: nat)
    ensures r % MALLOC_ROUND == 0 && r <= x < r + MALLOC_ROUND
  {
    x / MALLOC_ROUND * MALLOC_ROUND
  }

  lemma DivMore(n: nat, elem: nat, x: nat)
    requires elem > 0 && n * elem <= x
    ensures n <= x / elem && x / elem * elem <= x
  {
    MulCancel(n, x / elem + 1, elem);
  }

  lemma TwiceMore(elem: nat, a: nat, b: nat)
    requires a <= b
    ensures elem * a <= elem * b
  {
  }

  /** ncur doubled once, and then as often as it is less than cnt. */
  function Doubled(ncur: nat, cnt: int): (r: nat)
    requires ncur > 0
    ensures r >= cnt && r > ncur && r <= 2 * Max(ncur, cnt)
    decreases cnt - ncur
  {
    if cnt > ncur * 2 then Doubled(ncur * 2, cnt) else ncur * 2
  }

  /** Room for ncur elem-sized entries in whole chunks, less what malloc needs itself. */
  function Chunked(elem: nat, ncur: nat): (r: nat)
    requires elem > 0
    ensures r > ncur
  {
    var size := RoundDown(ncur * elem + elem + (MALLOC_ROUND - 1) + OVERHEAD) - OVERHEAD;
    DivMore(ncur + 1, elem, size);
    size / elem
  }

  /** The next capacity of an array of elem-sized entries that has cur and needs cnt: it has
      room for cnt and is more than before, through the rounding too. */
  function NextSize(elem: nat, cur: nat, cnt: int): (r: nat)
    requires elem > 0
    ensures r >= cnt && r > cur
  {
    var ncur := Doubled(cur + 1, cnt);
    if elem * ncur > MALLOC_ROUND - OVERHEAD then Chunked(elem, ncur) else ncur
  }

  function Pow2(j: nat): (r: nat)
    ensures r > 0
  {
    if j == 0 then 1 else 2 * Pow2(j - 1)
  }

  /** d is n doubled j times. */
  predicate DoubledTimes(d: nat, n: nat, j: nat) {
    d == n * Pow2(j)
  }

  /** d is n doubled at least once. */
  ghost predicate IsDoubling(d: nat, n: nat) {
    exists j: nat :: j >= 1 && DoubledTimes(d, n, j)
  }

  ghost predicate LeastDoubling(d: nat, n: nat, cnt: int) {
    && IsDoubling(d, n) && d >= cnt
    && forall e: nat | IsDoubling(e, n) && e >= cnt :: d <= e
  }

  lemma DoubledMore(d: nat, n: nat, j: nat)
    ensures DoubledTimes(d, n, j + 1) <==> DoubledTimes(d, n * 2, j)
  {
    assert n * (2 * Pow2(j)) == (n * 2) * Pow2(j);
  }

  lemma {:induction false} DoubledIsLeast(n: nat, cnt: int)
    requires n > 0
    ensures LeastDoubling(Doubled(n, cnt), n, cnt)
    decreases cnt - n
  {
    var d := Doubled(n, cnt);
    assert Pow2(1) == 2 * Pow2(0) && DoubledTimes(n * 2, n, 1);
    if cnt > n * 2 {
      DoubledIsLeast(n * 2, cnt);
      var j: nat :| j >= 1 && DoubledTimes(d, n * 2, j);
      DoubledMore(d, n, j);
    }
    forall e: nat | IsDoubling(e, n) && e >= cnt ensures d <= e {
      var j: nat :| j >= 1 && DoubledTimes(e, n, j);
      DoubledMore(e, n, j - 1);
      TwiceMore(n * 2, 1, Pow2(j - 1));
      if j >= 2 { assert IsDoubling(e, n * 2); }
    }
  }

  /** r entries fill k chunks, less what malloc needs: one more does not fit. */
  predicate Fills(r: nat, elem: nat, k: nat) {
    r * elem <= k * MALLOC_ROUND - OVERHEAD < (r + 1) * elem
  }

  /** k chunks have room for n entries and what malloc needs. */
  predicate Holds(k: nat, n: nat, elem: nat) {
    n * elem <= k * MALLOC_ROUND - OVERHEAD
  }

  ghost predicate FewestChunks(k: nat, n: nat, elem: nat) {
    Holds(k, n, elem) && forall i: nat | Holds(i, n, elem) :: k <= i
  }

  lemma ChunkedFills(elem: nat, ncur: nat) returns (k: nat)
    requires elem > 0
    ensures Fills(Chunked(elem, ncur), elem, k) && FewestChunks(k, ncur + 1, elem)
  {
    var x := ncur * elem + elem + (MALLOC_ROUND - 1) + OVERHEAD;
    k := x / MALLOC_ROUND;
    var size := k * MALLOC_ROUND - OVERHEAD;
    assert (ncur + 1) * elem == ncur * elem + elem;
    assert Chunked(elem, ncur) == size / elem;
    assert size == size / elem * elem + size % elem;
    assert (size / elem + 1) * elem == size / elem * elem + elem;
  }

  /** The capacity exactly: cur + 1 doubled at least once and until there is room for cnt;
      when that takes more than a chunk less what malloc needs, as many as fit in the fewest
      chunks that hold one more. */
  lemma NextSizeIs(elem: nat, cur: nat, cnt: int) returns (d: nat, k: nat)
    requires elem > 0
    ensures LeastDoubling(d, cur + 1, cnt)
    ensures elem * d <= MALLOC_ROUND - OVERHEAD ==> NextSize(elem, cur, cnt) == d
    ensures elem * d > MALLOC_ROUND - OVERHEAD ==>
      Fills(NextSize(elem, cur, cnt), elem, k) && FewestChunks(k, d + 1, elem)
  {
    hide Chunked, Doubled, LeastDoubling, Fills, FewestChunks;
    DoubledIsLeast(cur + 1, cnt);
    d := Doubled(cur + 1, cnt);
    k := ChunkedFills(elem, d);
  }

  /** No value of the computation is beyond this. */
  function Peak(elem: nat, cur: nat, cnt: int): nat {
    elem * (2 * Max(cur + 1, cnt)) + elem + MALLOC_ROUND - 1 + OVERHEAD
  }

  /** array_nextsize: as long as the stated bound holds, nothing overflows an int. */
  method ArrayNextsize(elem: int32, cur: int32, cnt: int32) returns (ncur: int32)
    requires elem > 0 && cur >= 0 && Peak(elem as int, cur as int, cnt as int) <= INT_MAX
    ensures ncur as int == NextSize(elem as int, cur as int, cnt as int)
  {
    ghost var most := 2 * Max(cur as int + 1, cnt as int);
    TwiceMore(most, 1, elem as int);
    ncur := cur + 1;
    var first := true;
    while first || cnt > ncur
      invariant cur < ncur && ncur as int <= most && (first ==> ncur == cur + 1)
      invariant Doubled(cur as int + 1, cnt as int) ==
        if first || cnt > ncur then Doubled(ncur as int, cnt as int) else ncur as int
      decreases first, cnt as int - ncur as int
    {
      first := false;
      ncur := ncur * 2;
    }
    TwiceMore(elem as int, ncur as int, most);
    if elem * ncur > (MALLOC_ROUND - OVERHEAD) as int32 {
      ncur := ncur * elem;
      ncur := RoundDown((ncur + elem + (MALLOC_ROUND as int32 - 1) + OVERHEAD as int32) as int) as int32;
      ncur := ncur - OVERHEAD as int32;
      ncur := ncur / elem;
    }
  }
}
