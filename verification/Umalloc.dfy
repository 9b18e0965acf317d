// The user-space allocator of OS-Lab-1/umalloc.c.

module Umalloc {
  import opened Options
  import opened FreeList

  const NALLOC: nat := 4096   // least number of units to ask sbrk for
  const TWO31: nat := 0x8000_0000
  const TWO32: nat := 0x1_0000_0000

  /** nunits, computed in 32-bit unsigned arithmetic. */
  function Units(nbytes: nat): nat {
    (nbytes + 7) % TWO32 / 8 + 1
  }

  /** The units hold a header and the bytes asked for, unless the sum wraps
      around; and sbrk's int argument is positive up to 2^31 - 16 bytes, and again beyond the wrap. */
  lemma {:induction false} UnitsSuffice(nbytes: nat)
    requires nbytes < TWO32
    ensures 8 * (Units(nbytes) - 1) >= nbytes <==> nbytes <= TWO32 - 8
    ensures nbytes <= TWO32 - 8 ==> 8 * (Units(nbytes) - 2) < nbytes
    ensures 8 * Units(nbytes) < TWO31 <==> nbytes <= TWO31 - 16 || nbytes > TWO32 - 8
  {
  }

  /** What the C int that sbrk is passed for n units is worth: bytes by which sbrk moves the end of memory. */
  function SbrkBytes(n: nat): (r: int)
    ensures 0 <= r + TWO31 < TWO32 && (r - 8 * n) % TWO32 == 0
  {
    var w := 8 * n % TWO32;
    if w < TWO31 then w else w - TWO32
  }

  /** The block has room, behind its header, for that many bytes. */
  predicate Holds(c: Chunk, nbytes: nat) {
    8 * (c.size - 1) >= nbytes
  }

  /** It has room for them, and with one unit less it would not. */
  predicate Snug(c: Chunk, nbytes: nat) {
    Holds(c, nbytes) && 0 < c.size && !Holds(c.(size := c.size - 1), nbytes)
  }

  /** Everything sbrk has granted is in one free or one live block. */
  ghost predicate Heap(m: Memory, base: nat, f: seq<Chunk>, live: seq<Chunk>, granted: nat, brk: nat) {
    && Sorted(base, f) && Linked(m, f) && Live(m, live)
    && (forall i :: 0 <= i < |live| ==> base < live[i].addr && Clear(f, live[i]))
    && Sum(f) + Sum(live) == granted
    && base < brk
    && (forall i :: 0 <= i < |f| ==> f[i].End() <= brk)
    && (forall i :: 0 <= i < |live| ==> live[i].End() <= brk)
  }

  /** How many list steps lead from position s to position t. */
  function Steps(s: nat, t: nat, n: nat): int {
    if s <= t then t - s else n - s + t
  }

  lemma {:induction false} PlaceFor(f: seq<Chunk>, base: nat, bp: nat) returns (t: nat)
    requires Sorted(base, f) && base < bp
    requires forall i :: 0 <= i < |f| ==> f[i].addr != bp
    ensures Before(f, t, bp)
  {
    t := 0;
    while t + 1 < |f| && f[t + 1].addr < bp
      invariant t < |f| && f[t].addr < bp
    {
      t := t + 1;
    }
  }

  lemma {:induction false} NotListed(base: nat, f: seq<Chunk>, c: Chunk)
    requires Sorted(base, f) && Clear(f, c) && base < c.addr && c.size >= 1
    ensures forall i :: 0 <= i < |f| ==> f[i].addr != c.addr
  {
    forall i | 0 <= i < |f| ensures f[i].addr != c.addr { ClearAddress(base, f, c, i); }
  }

  lemma {:induction false} FreedHead(f: seq<Chunk>, t: nat, c: Chunk)
    requires t < |f|
    ensures t < |Freed(f, t, c)| && Freed(f, t, c)[t].addr == f[t].addr
  {
    FreedAt(f, t, c, t);
  }

  lemma {:induction false} InsertableIntro(base: nat, f: seq<Chunk>, t: nat, c: Chunk)
    requires Sorted(base, f) && Before(f, t, c.addr) && c.size >= 1 && Clear(f, c)
    ensures Insertable(base, f, t, c) && t < |f|
  {
  }

  // ----- the heap after free

  /** The live blocks, and the room they leave for c. */
  ghost predicate LiveBeside(m: Memory, base: nat, f: seq<Chunk>, live: seq<Chunk>, c: Chunk, brk: nat) {
    && Live(m, live)
    && (forall i :: 0 <= i < |live| ==> base < live[i].addr && live[i].End() <= brk && Clear(f, live[i]) && Apart(c, live[i]))
    && (forall i :: 0 <= i < |f| ==> f[i].End() <= brk)
    && base < c.addr && c.End() <= brk
  }

  /** A block apart from c and from the free blocks is apart from them joined. */
  lemma {:induction false} FreedClear(base: nat, f: seq<Chunk>, t: nat, c: Chunk, x: Chunk)
    requires Insertable(base, f, t, c) && Clear(f, x) && Apart(c, x) && x.size >= 1 && base < x.addr
    ensures Clear(Freed(f, t, c), x)
  {
    var h := Freed(f, t, c);
    assert Apart(x, f[t]);
    assert t + 1 < |f| ==> Apart(x, f[t + 1]);
    if t > 0 { assert f[0].End() < f[t].addr; }
    hide Freed, Sorted;
    forall i | 0 <= i < |h| ensures Apart(x, h[i]) {
      FreedAt(f, t, c, i);
    }
  }

  lemma {:induction false} FreedBelow(f: seq<Chunk>, t: nat, c: Chunk, brk: nat)
    requires t < |f| && c.End() <= brk && forall i :: 0 <= i < |f| ==> f[i].End() <= brk
    ensures forall i :: 0 <= i < |Freed(f, t, c)| ==> Freed(f, t, c)[i].End() <= brk
  {
    var h := Freed(f, t, c);
    hide Freed;
    forall i | 0 <= i < |h| ensures h[i].End() <= brk {
      FreedAt(f, t, c, i);
    }
  }

  lemma {:induction false} FreedLive(m: Memory, base: nat, f: seq<Chunk>, t: nat, c: Chunk, live: seq<Chunk>, brk: nat)
    requires Insertable(base, f, t, c) && Linked(m, f) && c.addr in m && LiveBeside(m, base, f, live, c, brk)
    requires f[t].addr in m && m[f[t].addr].ptr in m
    ensures Live(FreeMem(m, f[t].addr, c.addr), live)
  {
    forall i | 0 <= i < |live| ensures live[i].addr != f[t].addr && live[i].addr != c.addr {
      ClearAddress(base, f, live[i], t);
      assert Apart(c, live[i]);
    }
    hide Insertable, Linked;
  }

  lemma {:induction false} FreedHeap(m: Memory, base: nat, f: seq<Chunk>, t: nat, c: Chunk, live: seq<Chunk>, granted: nat, brk: nat)
    requires Insertable(base, f, t, c) && Linked(m, f) && c.addr in m && m[c.addr].size == c.size
    requires LiveBeside(m, base, f, live, c, brk)
    requires Sum(f) + Sum(live) + c.size == granted
    ensures f[t].addr in m && m[f[t].addr].ptr in m
    ensures Heap(FreeMem(m, f[t].addr, c.addr), base, Freed(f, t, c), live, granted, brk)
  {
    FreedSorted(base, f, t, c);
    FreedLinked(m, base, f, t, c);
    FreedLive(m, base, f, t, c, live, brk);
    FreedSum(f, t, c);
    FreedBelow(f, t, c, brk);
    forall i | 0 <= i < |live| ensures Clear(Freed(f, t, c), live[i]) {
      FreedClear(base, f, t, c, live[i]);
    }
    hide Freed, FreeMem, Insertable, Linked, Sorted, Sum, Clear;
  }

  /** Taking one block off the live list leaves room for it. */
  lemma {:induction false} LiveWithout(m: Memory, base: nat, f: seq<Chunk>, live: seq<Chunk>, granted: nat, brk: nat, k: nat)
    requires Heap(m, base, f, live, granted, brk) && k < |live|
    ensures LiveBeside(m, base, f, Without(live, k), live[k], brk)
    ensures Sum(f) + Sum(Without(live, k)) + live[k].size == granted
    ensures live[k].addr in m && m[live[k].addr].size == live[k].size && live[k].size >= 1 && Clear(f, live[k])
  {
    WithoutSum(live, k);
    var rest := Without(live, k);
    hide Without, Sorted, Linked, Sum, Clear;
    forall i | 0 <= i < |rest| ensures Apart(live[k], rest[i]) {
      assert rest[i] == live[if i < k then i else i + 1];
    }
  }

  // ----- the heap after sbrk has granted c, and after a block has been taken

  predicate HasRoom(f: seq<Chunk>, n: nat) {
    exists i :: 0 <= i < |f| && f[i].size >= n
  }

  /** New space beyond the break is beside everything. */
  lemma {:induction false} GrantFits(m: Memory, base: nat, f: seq<Chunk>, live: seq<Chunk>, granted: nat, brk: nat, c: Chunk, h: Header)
    requires Heap(m, base, f, live, granted, brk) && brk <= c.addr && c.size >= 1 && h.size == c.size
    ensures var m1 := m[c.addr := h];
            && Sorted(base, f) && Linked(m1, f) && Clear(f, c) && base < c.addr
            && LiveBeside(m1, base, f, live, c, c.End())
            && Sum(f) + Sum(live) + c.size == granted + c.size
  {
    var m1 := m[c.addr := h];
    NotListed(base, f, c);
    hide Sorted, Sum, Linked, Clear;
    forall i: nat | i < |f| ensures LinkedAt(m1, f, i) {
      Links(m, f, i);
    }
    LinkedIntro(m1, f);
    assert forall i :: 0 <= i < |live| ==> live[i].addr != c.addr;
  }

  lemma {:induction false} FreedHasRoom(f: seq<Chunk>, t: nat, c: Chunk)
    requires t < |f|
    ensures HasRoom(Freed(f, t, c), c.size)
  {
    FreedAt(f, t, c, t);
    var k := if JoinsPrev(f, t, c) then t else t + 1;
    FreedAt(f, t, c, k);
    hide Freed;
    assert Freed(f, t, c)[k].size >= c.size;
  }

  /** g is what is left of f when block k, or its tail, is taken as c. */
  predicate Taken(f: seq<Chunk>, k: nat, g: seq<Chunk>, c: Chunk)
    requires k < |f|
  {
    if c.size < f[k].size then c == Tail(f, k, c.size) && g == f[k := Chunk(f[k].addr, f[k].size - c.size)]
    else c == f[k] && g == Without(f, k)
  }

  lemma {:induction false} EndOf(c: Chunk)
    ensures c.End() == c.addr + c.size
  {
  }

  lemma {:induction false} RoomForLess(f: seq<Chunk>, n: nat, k: nat)
    requires HasRoom(f, n) && k <= n
    ensures HasRoom(f, k)
  {
  }

  /** A block taken from the free list is beside the live blocks. */
  lemma {:induction false} TakenLive(m: Memory, m1: Memory, live: seq<Chunk>, c: Chunk)
    requires Live(m, live) && c.size >= 1 && c.addr in m1 && m1[c.addr].size == c.size
    requires forall i :: 0 <= i < |live| ==> Apart(c, live[i]) && live[i].addr in m1 && m1[live[i].addr] == m[live[i].addr]
    ensures Live(m1, live + [c])
  {
  }

  /** The list entry of a live block differs from every free one. */
  lemma {:induction false} LiveAddress(m: Memory, base: nat, f: seq<Chunk>, live: seq<Chunk>, granted: nat, brk: nat, k: nat)
    requires Heap(m, base, f, live, granted, brk) && k < |f|
    ensures forall i :: 0 <= i < |live| ==> live[i].addr != f[k].addr && Apart(f[k], live[i]) && live[i].addr in m
  {
    forall i | 0 <= i < |live| ensures live[i].addr != f[k].addr && Apart(f[k], live[i]) {
      ClearAddress(base, f, live[i], k);
      assert Apart(live[i], f[k]);
    }
  }

  lemma {:induction false} FreeApart(base: nat, f: seq<Chunk>, k: nat, g: seq<Chunk>, c: Chunk)
    requires Sorted(base, f) && 0 < k < |f|
    requires Taken(f, k, g, c)
    ensures Clear(g, c) && base < c.addr
  {
    assert f[0].End() < f[k].addr;
    forall i | 0 <= i < |g| ensures Apart(c, g[i]) {
      var j := if |g| < |f| && i >= k then i + 1 else i;
      if j < k { assert f[j].End() < f[k].addr; }
      if k < j { assert f[k].End() < f[j].addr; }
    }
  }

  /** The heap once c, part or all of free block k, is handed out. */
  lemma {:induction false} TakenHeap(m: Memory, m1: Memory, base: nat, f: seq<Chunk>, g: seq<Chunk>, live: seq<Chunk>,
                                     c: Chunk, k: nat, granted: nat, brk: nat)
    requires Heap(m, base, f, live, granted, brk) && 0 < k < |f| && c.size >= 1
    requires Taken(f, k, g, c)
    requires Sorted(base, g) && Linked(m1, g) && c.addr in m1 && m1[c.addr].size == c.size
    requires forall i :: 0 <= i < |live| ==> live[i].addr in m1 && m1[live[i].addr] == m[live[i].addr]
    ensures Heap(m1, base, g, live + [c], granted, brk)
  {
    hide Sorted, Linked, Live, Sum, Without, Clear, Taken, Tail, Apart;
    LiveAddress(m, base, f, live, granted, brk, k);
    TakenApart(f, k, g, c, live);
    TakenLive(m, m1, live, c);
    FreeApart(base, f, k, g, c);
    TakenSum(f, k, g, c);
    SumAppend(live, [c]);
    SumOne(c);
    forall i | 0 <= i < |live| ensures Clear(g, live[i]) {
      TakenClear(f, k, g, c, live[i]);
    }
    TakenBelow(f, k, g, c, brk);
    var l := live + [c];
    forall i | 0 <= i < |l| ensures base < l[i].addr && Clear(g, l[i]) && l[i].End() <= brk {
      if i < |live| { assert l[i] == live[i]; } else { assert l[i] == c; }
    }
  }

  lemma {:induction false} TakenApart(f: seq<Chunk>, k: nat, g: seq<Chunk>, c: Chunk, live: seq<Chunk>)
    requires k < |f| && Taken(f, k, g, c) && forall i :: 0 <= i < |live| ==> Apart(f[k], live[i])
    ensures forall i :: 0 <= i < |live| ==> Apart(c, live[i])
    ensures f[k].addr <= c.addr && c.End() == f[k].End()
  {
  }

  lemma {:induction false} TakenSum(f: seq<Chunk>, k: nat, g: seq<Chunk>, c: Chunk)
    requires k < |f|
    requires Taken(f, k, g, c)
    ensures Sum(g) + c.size == Sum(f)
  {
    WithoutSum(f, k);
    if c.size < f[k].size { ReplacedSum(f, k, Chunk(f[k].addr, f[k].size - c.size)); }
  }

  lemma {:induction false} TakenClear(f: seq<Chunk>, k: nat, g: seq<Chunk>, c: Chunk, x: Chunk)
    requires k < |f| && Clear(f, x)
    requires Taken(f, k, g, c)
    ensures Clear(g, x)
  {
    forall i | 0 <= i < |g| ensures Apart(x, g[i]) {
      assert Apart(x, f[if |g| < |f| && i >= k then i + 1 else i]);
    }
  }

  lemma {:induction false} TakenBelow(f: seq<Chunk>, k: nat, g: seq<Chunk>, c: Chunk, brk: nat)
    requires k < |f| && forall i :: 0 <= i < |f| ==> f[i].End() <= brk
    requires Taken(f, k, g, c)
    ensures forall i :: 0 <= i < |g| ==> g[i].End() <= brk
  {
    forall i | 0 <= i < |g| ensures g[i].End() <= brk {
      assert f[if |g| < |f| && i >= k then i + 1 else i].End() <= brk;
    }
  }

  lemma {:induction false} BaseIsEmpty(m: Memory, base: nat, f: seq<Chunk>, live: seq<Chunk>, granted: nat, brk: nat, k: nat)
    requires Heap(m, base, f, live, granted, brk) && k < |f| && f[k].size >= 1
    ensures k > 0 && f[k].addr in m && m[f[k].addr].size == f[k].size
  {
    Links(m, f, k);
  }

  lemma {:induction false} NextBack(j: nat, k: nat, n: nat)
    requires j < n && k == Next(j, n) && k > 0
    ensures j == k - 1
  {
  }

  /** Unlinking block k and handing it out. */
  lemma {:induction false} WholeTaken(m: Memory, base: nat, f: seq<Chunk>, live: seq<Chunk>, granted: nat, brk: nat, k: nat)
    requires Heap(m, base, f, live, granted, brk) && 0 < k < |f|
    ensures f[k - 1].addr in m && f[k].addr in m
    ensures Heap(m[f[k - 1].addr := m[f[k - 1].addr].(ptr := m[f[k].addr].ptr)], base, Without(f, k), live + [f[k]], granted, brk)
    ensures k - 1 < |Without(f, k)| && Without(f, k)[k - 1] == f[k - 1]
    ensures forall u: nat :: Covers(f, u) <==> Covers(Without(f, k), u) || f[k].addr <= u < f[k].addr + f[k].size
  {
    Links(m, f, k - 1);
    Links(m, f, k);
    Addresses(base, f, k - 1, k);
    WithoutSorted(base, f, k);
    UnlinkedLinks(m, base, f, k);
    LiveAddress(m, base, f, live, granted, brk, k - 1);
    assert f[k].size >= 1;
    forall u: nat ensures Covers(f, u) <==> Covers(Without(f, k), u) || f[k].addr <= u < f[k].End() {
      WithoutCovers(f, k, u);
    }
    hide Heap, Sorted, Linked, Live, Covers, Sum;
    TakenHeap(m, m[f[k - 1].addr := m[f[k - 1].addr].(ptr := m[f[k].addr].ptr)], base, f, Without(f, k), live, f[k], k, granted, brk);
  }

  /** Splitting block k and handing out its tail. */
  lemma {:induction false} TailTaken(m: Memory, base: nat, f: seq<Chunk>, live: seq<Chunk>, granted: nat, brk: nat, k: nat, n: nat)
    requires Heap(m, base, f, live, granted, brk) && k < |f| && 0 < n
    ensures f[k].addr in m
    ensures n < f[k].size ==>
              && Heap(m[f[k].addr := m[f[k].addr].(size := f[k].size - n)][f[k].addr + f[k].size - n := Header(0, n)],
                   base, f[k := Chunk(f[k].addr, f[k].size - n)], live + [Chunk(f[k].addr + f[k].size - n, n)], granted, brk)
              && forall u: nat :: Covers(f, u) <==>
                   Covers(f[k := Chunk(f[k].addr, f[k].size - n)], u) || f[k].addr + f[k].size - n <= u < f[k].addr + f[k].size
  {
    hide Heap, Sorted, Linked, Live, Covers, Sum, Apart;
    HeapHas(m, base, f, live, granted, brk, k);
    if n < f[k].size {
      var c, g := Tail(f, k, n), f[k := Chunk(f[k].addr, f[k].size - n)];
      BaseIsEmpty(m, base, f, live, granted, brk, k);
      TailSorted(base, f, k, n);
      TailLinks(m, base, f, k, n, Header(0, n));
      LiveAddress(m, base, f, live, granted, brk, k);
      LiveSizes(m, base, f, live, granted, brk);
      TailAddress(base, f, live, k, c);
      forall u: nat ensures Covers(f, u) <==> Covers(g, u) || c.addr <= u < c.End() {
        TailCovers(f, k, n, u);
      }
      TakenHeap(m, m[f[k].addr := m[f[k].addr].(size := f[k].size - n)][c.addr := Header(0, n)], base, f, g, live, c, k, granted, brk);
    }
  }

  lemma {:induction false} LiveSizes(m: Memory, base: nat, f: seq<Chunk>, live: seq<Chunk>, granted: nat, brk: nat)
    requires Heap(m, base, f, live, granted, brk)
    ensures forall i :: 0 <= i < |live| ==> live[i].size >= 1
  {
  }

  lemma {:induction false} TailAddress(base: nat, f: seq<Chunk>, live: seq<Chunk>, k: nat, c: Chunk)
    requires k < |f| && c.End() == f[k].End() && f[k].addr <= c.addr && c.size >= 1
    requires forall i :: 0 <= i < |live| ==> Apart(f[k], live[i]) && live[i].size >= 1
    ensures forall i :: 0 <= i < |live| ==> live[i].addr != c.addr
  {
  }

  /** What morecore asks of sbrk. */
  function Granted(nbytes: nat): nat {
    if Units(nbytes) < NALLOC then NALLOC else Units(nbytes)
  }

  /** sbrk moves the end by what malloc needs just if that fits an int. */
  lemma SbrkGrants(nbytes: nat)
    requires nbytes < TWO32
    ensures SbrkBytes(Granted(nbytes)) == 8 * Granted(nbytes) <==> 8 * Units(nbytes) < TWO31
  {
  }

  /** The free units of f and n more from hi are those of f0 and k more from lo. */
  ghost predicate Balanced(f0: seq<Chunk>, k: nat, lo: nat, f: seq<Chunk>, n: nat, hi: nat) {
    forall u: nat :: Covers(f, u) || hi <= u < hi + n <==> Covers(f0, u) || lo <= u < lo + k
  }

  lemma {:induction false} BalancedIntro(f0: seq<Chunk>, k: nat, lo: nat, f: seq<Chunk>, n: nat, hi: nat)
    requires forall u: nat :: Covers(f, u) || hi <= u < hi + n <==> Covers(f0, u) || lo <= u < lo + k
    ensures Balanced(f0, k, lo, f, n, hi)
  {
  }

  lemma BalancedMeans(f0: seq<Chunk>, lo: nat, f: seq<Chunk>)
    requires Balanced(f0, 0, lo, f, 0, 0)
    ensures forall u: nat :: Covers(f, u) <==> Covers(f0, u)
  {
  }

  /** A block of that many units holds the bytes unless the count has wrapped. */
  lemma BlockHolds(nbytes: nat)
    requires nbytes < TWO32
    ensures forall a: nat :: Holds(Chunk(a, Units(nbytes)), nbytes) <==> nbytes <= TWO32 - 8
    ensures forall a: nat :: Snug(Chunk(a, Units(nbytes)), nbytes) <==> nbytes <= TWO32 - 8
  {
    UnitsSuffice(nbytes);
  }

  lemma {:induction false} BalancedSame(f: seq<Chunk>, g: seq<Chunk>)
    requires forall u: nat :: Covers(f, u) <==> Covers(g, u)
    ensures forall lo :: Balanced(f, 0, lo, g, 0, 0)
  {
  }

  lemma {:induction false} BalancedTrans(f0: seq<Chunk>, k: nat, lo: nat, f: seq<Chunk>, g: seq<Chunk>, n: nat, hi: nat)
    requires Balanced(f0, k, lo, f, 0, 0) && Balanced(f, 0, 0, g, n, hi)
    ensures Balanced(f0, k, lo, g, n, hi)
  {
  }

  lemma {:induction false} BalancedThen(f0: seq<Chunk>, k: nat, lo: nat, any: nat, f: seq<Chunk>, g: seq<Chunk>)
    requires Balanced(f0, 0, any, f, 0, 0) && Balanced(f, k, lo, g, 0, 0)
    ensures Balanced(f0, k, lo, g, 0, 0)
  {
  }

  lemma {:induction false} GrantIs(grant: Option<nat>)
    ensures grant.Some? ==> grant.GetOr(0) == grant.value
  {
  }

  lemma {:induction false} UnitsAre(nbytes: nat)
    ensures Units(nbytes) >= 1
    ensures Granted(nbytes) == if Units(nbytes) < NALLOC then NALLOC else Units(nbytes)
  {
  }

  /** The list of the first call: base alone, which holds no units. */
  lemma {:induction false} EmptyHeap(m: Memory, base: nat, brk: nat, n: nat)
    requires 0 < base < brk && base in m && m[base] == Header(base, 0) && n >= 1
    ensures var f := [Chunk(base, 0)];
            && Heap(m, base, f, [], 0, brk) && ListedAt(f, base)
            && (forall u: nat :: Covers(f, u) <==> Covers([], u))
            && (HasRoom(f, n) <==> HasRoom([], n))
  {
    var f := [Chunk(base, 0)];
    SumOne(f[0]);
    assert f[0].addr == base;
  }

  lemma {:induction false} HeapHas(m: Memory, base: nat, f: seq<Chunk>, live: seq<Chunk>, granted: nat, brk: nat, k: nat)
    requires Heap(m, base, f, live, granted, brk) && k < |f|
    ensures Sorted(base, f) && Linked(m, f) && Next(k, |f|) < |f| && base < brk
    ensures f[k].addr in m && m[f[k].addr] == Header(f[Next(k, |f|)].addr, f[k].size)
  {
    Links(m, f, k);
  }

  lemma {:induction false} RoomAt(f: seq<Chunk>, k: nat, n: nat)
    requires k < |f| && f[k].size >= n
    ensures HasRoom(f, n)
  {
  }

  // ----- malloc's search

  /** The positions the search has passed on its way from the one after s to k. */
  predicate Passed(s: nat, k: nat, i: nat) {
    if s < k then s < i < k else i > s || i < k
  }

  predicate Unfit(f: seq<Chunk>, s: nat, k: nat, n: nat) {
    forall i :: 0 <= i < |f| && Passed(s, k, i) ==> f[i].size < n
  }

  /** Positions still ahead, the current one included. */
  function Ahead(s: nat, k: nat, n: nat): int {
    if s < k then n - k + s + 1 else s - k + 1
  }

  lemma {:induction false} SearchStarts(f: seq<Chunk>, s: nat, n: nat)
    requires s < |f|
    ensures Unfit(f, s, Next(s, |f|), n)
  {
  }

  lemma {:induction false} SearchMoves(f: seq<Chunk>, s: nat, k: nat, n: nat)
    requires s < |f| && k < |f| && Unfit(f, s, k, n) && f[k].size < n
    ensures k != s ==> Unfit(f, s, Next(k, |f|), n) && 0 <= Ahead(s, Next(k, |f|), |f|) < Ahead(s, k, |f|)
    ensures k == s ==> !HasRoom(f, n)
  {
  }

  /** The listed block at p is the one after which a block at bp belongs. */
  predicate PlaceFrom(f: seq<Chunk>, p: nat, bp: nat) {
    exists t: nat :: t < |f| && f[t].addr == p && Before(f, t, bp)
  }

  predicate ListedAt(f: seq<Chunk>, p: nat) {
    exists i :: 0 <= i < |f| && f[i].addr == p
  }

  lemma {:induction false} ListIndex(f: seq<Chunk>, p: nat) returns (i: nat)
    requires ListedAt(f, p)
    ensures i < |f| && f[i].addr == p
  {
    i :| 0 <= i < |f| && f[i].addr == p;
  }

  lemma {:induction false} Listed(f: seq<Chunk>, i: nat)
    requires i < |f|
    ensures ListedAt(f, f[i].addr)
  {
  }

  class Allocator {
    const base: nat            // address of the static block base
    var mem: Memory            // the headers in memory
    var freep: nat             // 0 before the first call
    ghost var f: seq<Chunk>    // the free list, base first
    ghost var live: seq<Chunk> // what malloc has handed out
    ghost var granted: nat     // units morecore takes sbrk to have granted
    ghost var given: int       // bytes by which sbrk moved the end of memory
    ghost var brk: nat         // end of the data segment

    constructor (b: nat)
      requires b > 0
      ensures Valid() && base == b && brk == b + 1 && live == [] && granted == 0 && given == 0 && freep == 0
    {
      base, mem, freep := b, map[], 0;
      f, live, granted, given, brk := [], [], 0, 0, b + 1;
    }

    ghost predicate Valid()
      reads this
    {
      && 0 < base < brk
      && (if freep == 0 then f == [] && live == [] && granted == 0
          else Heap(mem, base, f, live, granted, brk) && ListedAt(f, freep))
    }

    /** The scan of free: it ends at the one place where the block belongs. */
    method FindPlace(bp: nat) returns (p: nat, ghost t: nat)
      requires Sorted(base, f) && Linked(mem, f) && ListedAt(f, freep)
      requires base < bp && forall i :: 0 <= i < |f| ==> f[i].addr != bp
      ensures Before(f, t, bp) && p == f[t].addr
      ensures PlaceFrom(f, p, bp)
    {
      t := PlaceFor(f, base, bp);
      ghost var k :| 0 <= k < |f| && f[k].addr == freep;
      hide Sorted, Linked, Before;
      p := freep;
      Links(mem, f, k);
      while !(p < bp < mem[p].ptr)
        invariant 0 <= k < |f| && p == f[k].addr && p in mem && mem[p] == Header(f[Next(k, |f|)].addr, f[k].size)
        decreases Steps(k, t, |f|)
      {
        ScanStep(base, f, k, t, bp);
        if p >= mem[p].ptr && (bp > p || bp < mem[p].ptr) {
          break;
        }
        p := mem[p].ptr;
        k := Next(k, |f|);
        Links(mem, f, k);
      }
      ScanStep(base, f, k, t, bp);
    }

    /** The body of free. */
    method PutBack(bp: nat) returns (ghost t: nat)
      requires Sorted(base, f) && Linked(mem, f) && ListedAt(f, freep)
      requires base < bp && bp in mem && mem[bp].size >= 1 && Clear(f, Chunk(bp, mem[bp].size))
      modifies this`mem, this`freep, this`f
      ensures Before(old(f), t, bp) && old(f)[t].addr in old(mem) && old(mem)[old(f)[t].addr].ptr in old(mem)
      ensures f == Freed(old(f), t, Chunk(bp, old(mem)[bp].size))
      ensures mem == FreeMem(old(mem), old(f)[t].addr, bp)
      ensures Sorted(base, f) && Linked(mem, f)
      ensures t < |f| && f[t].addr == freep == old(f)[t].addr
    {
      hide *;
      ghost var c := Chunk(bp, mem[bp].size);
      NotListed(base, f, c);
      var p;
      p, t := FindPlace(bp);
      InsertableIntro(base, f, t, c);
      Links(mem, f, t);
      FreedSorted(base, f, t, c);
      FreedLinked(mem, base, f, t, c);
      FreedHead(f, t, c);
      Join(p, bp);
      freep := p;
      f := Freed(f, t, c);
    }

    /** free, of a block that malloc has handed out: its units become free, no
        others, and every other live block stays. */
    method Free(ap: nat, ghost k: nat)
      requires Valid() && k < |live| && ap == live[k].addr + 1
      modifies this
      ensures Valid() && freep != 0
      ensures live == Without(old(live), k) && granted == old(granted) && given == old(given)
      ensures forall u: nat :: Covers(f, u) <==> old(Covers(f, u)) || old(live)[k].addr <= u < old(live)[k].End()
    {
      hide *;
      HeapLists(k);
      ghost var c, rest, f0, m0 := live[k], Without(live, k), f, mem;
      LiveWithout(mem, base, f, live, granted, brk, k);
      ghost var t := PutBack(ap - 1);
      InsertableIntro(base, f0, t, c);
      FreedHeap(m0, base, f0, t, c, rest, granted, brk);
      forall u: nat ensures Covers(f, u) <==> Covers(f0, u) || c.addr <= u < c.End() {
        FreedCovers(base, f0, t, c, u);
      }
      live := rest;
      BecomesValid(t);
    }

    lemma {:induction false} HeapLists(k: nat)
      requires Valid() && k < |live|
      ensures freep != 0 && 0 < base && Heap(mem, base, f, live, granted, brk) && ListedAt(f, freep)
      ensures Sorted(base, f) && Linked(mem, f) && base < live[k].addr
    {
    }

    lemma {:induction false} BecomesValid(t: nat)
      requires Heap(mem, base, f, live, granted, brk) && 0 < base
      requires t < |f| && f[t].addr == freep
      ensures Valid() && freep != 0
    {
      Addresses(base, f, t, t);
    }

    /** The block at p, list position k, or its last n units, is handed out. */
    method Take(prevp: nat, p: nat, n: nat, ghost j: nat, ghost k: nat) returns (a: nat)
      requires 0 < base && Heap(mem, base, f, live, granted, brk)
      requires j < |f| && k < |f| && k == Next(j, |f|) && f[j].addr == prevp && f[k].addr == p
      requires n >= 1 && f[k].size >= n
      modifies this`mem, this`freep, this`f, this`live
      ensures Valid() && freep != 0 && live == old(live) + [Chunk(a, n)]
      ensures Balanced(old(f), 0, 0, f, n, a)
    {
      hide *;
      ghost var f0 := f;
      BaseIsEmpty(mem, base, f, live, granted, brk, k);
      assert j == k - 1 by { NextBack(j, k, |f|); }
      WholeTaken(mem, base, f, live, granted, brk, k);
      TailTaken(mem, base, f, live, granted, brk, k, n);
      a := p;
      if mem[p].size == n {
        mem := mem[prevp := mem[prevp].(ptr := mem[p].ptr)];
        f := Without(f, k);
      } else {
        mem := mem[p := mem[p].(size := mem[p].size - n)];
        a := p + mem[p].size;
        mem := mem[a := Header(0, n)];
        f := f[k := Chunk(p, f[k].size - n)];
      }
      live := live + [Chunk(a, n)];
      freep := prevp;
      BecomesValid(j);
      BalancedIntro(f0, 0, 0, f, n, a);
    }

    /** malloc, given what sbrk would grant if asked.  The block handed out comes
        out of free units; sbrk is asked at most once, and only if no free block
        is large enough.  The block is as large as asked for exactly when the
        unit count does not wrap, and space that sbrk added exactly when its argument
        does not overflow. */
    method Malloc(nbytes: nat, grant: Option<nat>) returns (r: nat, ghost asked: bool)
      requires Valid() && nbytes < TWO32
      requires grant.Some? ==> grant.value >= brk
      modifies this
      ensures Valid() && freep != 0
      ensures r == 0 ==> grant.None? && asked && !HasRoom(old(f), Units(nbytes)) && live == old(live) && granted == old(granted)
      ensures r == 0 ==> forall u: nat :: Covers(f, u) <==> old(Covers(f, u))
      ensures r != 0 ==> live == old(live) + [Chunk(r - 1, Units(nbytes))]
      ensures r != 0 ==> (Holds(live[|live| - 1], nbytes) <==> nbytes <= TWO32 - 8)
      ensures r != 0 ==> (Snug(live[|live| - 1], nbytes) <==> nbytes <= TWO32 - 8)
      ensures asked <==> !HasRoom(old(f), Units(nbytes))
      ensures r != 0 ==> granted == old(granted) + if asked then Granted(nbytes) else 0
      ensures asked && r != 0 ==> grant.Some?
      ensures given == old(given) + if asked && r != 0 then SbrkBytes(Granted(nbytes)) else 0
      ensures given - old(given) == 8 * (granted - old(granted)) <==> r == 0 || !asked || 8 * Units(nbytes) < TWO31
      ensures r != 0 ==> Balanced(old(f), if asked then Granted(nbytes) else 0, grant.GetOr(0), f, Units(nbytes), r - 1)
    {
      hide *;
      var nunits := Units(nbytes);
      UnitsAre(nbytes);
      BlockHolds(nbytes);
      SbrkGrants(nbytes);
      ghost var lo := grant.GetOr(0);
      GrantIs(grant);
      ghost var old0, live0, g0 := f, live, granted;
      Init(nunits);
      asked := false;
      ghost var s := SearchBegins(nunits);
      var prevp, p := freep, mem[freep].ptr;
      ghost var j := s;
      CountsSo(old0, live0, g0, nbytes, grant, lo, false);
      while true
        invariant Searching(s, j, prevp, p, nunits)
        invariant Counted(old0, live0, g0, nbytes, grant, lo, asked)
        invariant given == old(given) + if asked then SbrkBytes(Granted(nbytes)) else 0
        decreases if asked then 0 else 1, Ahead(s, Next(j, |f|), |f|)
      {
        CountsAre(old0, live0, g0, nbytes, grant, lo, asked);
        SearchStands(s, j, prevp, p, nunits);
        if mem[p].size >= nunits {
          ghost var f1 := f;
          var a := Take(prevp, p, nunits, j, Next(j, |f|));
          BalancedTrans(old0, if asked then Granted(nbytes) else 0, lo, f1, f, nunits, a);
          return a + 1, asked;
        }
        if p == freep {
          p, s := AskMore(old0, live0, g0, nbytes, grant, lo);
          asked := true;
          if p == 0 {
            BalancedMeans(old0, lo, f);
            return 0, asked;
          }
          j := s;
        } else {
          j := Next(j, |f|);
        }
        prevp, p := p, mem[p].ptr;
      }
    }

    /** malloc calls morecore and starts over from the new freep. */
    method AskMore(ghost old0: seq<Chunk>, ghost live0: seq<Chunk>, ghost g0: nat, nbytes: nat,
                   grant: Option<nat>, ghost lo: nat) returns (p: nat, ghost s: nat)
      requires 0 < base < brk && Heap(mem, base, f, live, granted, brk) && ListedAt(f, freep)
      requires Counted(old0, live0, g0, nbytes, grant, lo, false) && !HasRoom(f, Units(nbytes))
      requires grant.Some? ==> lo == grant.value
      modifies this
      ensures p == 0 <==> grant.None?
      ensures p == 0 ==> Valid() && freep != 0 && live == live0 && granted == g0 && Balanced(old0, 0, lo, f, 0, 0)
      ensures given == old(given) + if p == 0 then 0 else SbrkBytes(Granted(nbytes))
      ensures p != 0 ==> p == freep && p in mem && Searching(s, s, p, mem[p].ptr, Units(nbytes))
                         && Counted(old0, live0, g0, nbytes, grant, lo, true)
    {
      hide *;
      ghost var f1 := f;
      s := 0;
      UnitsAre(nbytes);
      NotNull();
      CountsAre(old0, live0, g0, nbytes, grant, lo, false);
      p := Morecore(Units(nbytes), grant);
      if grant.None? {
        StillValid();
      } else {
        BalancedThen(old0, Granted(nbytes), lo, lo, f1, f);
        CountsSo(old0, live0, g0, nbytes, grant, lo, true);
        s := SearchBegins(Units(nbytes));
      }
    }

    /** What has become of the heap since the call began. */
    ghost predicate Counted(old0: seq<Chunk>, live0: seq<Chunk>, g0: nat, nbytes: nat, grant: Option<nat>, lo: nat, asked: bool)
      reads this
    {
      var n, got := Units(nbytes), if asked then Granted(nbytes) else 0;
      && live == live0 && granted == g0 + got && Balanced(old0, got, lo, f, 0, 0)
      && (if asked then HasRoom(f, n) && !HasRoom(old0, n) && grant.Some?
          else (HasRoom(f, n) <==> HasRoom(old0, n)) && (grant.Some? ==> lo >= brk))
    }

    lemma {:induction false} CountsAre(old0: seq<Chunk>, live0: seq<Chunk>, g0: nat, nbytes: nat, grant: Option<nat>, lo: nat, asked: bool)
      requires Counted(old0, live0, g0, nbytes, grant, lo, asked)
      ensures live == live0 && granted == g0 + (if asked then Granted(nbytes) else 0)
      ensures Balanced(old0, if asked then Granted(nbytes) else 0, lo, f, 0, 0)
      ensures asked ==> HasRoom(f, Units(nbytes)) && !HasRoom(old0, Units(nbytes)) && grant.Some?
      ensures !asked ==> (HasRoom(f, Units(nbytes)) <==> HasRoom(old0, Units(nbytes))) && (grant.Some? ==> lo >= brk)
    {
    }

    lemma {:induction false} CountsSo(old0: seq<Chunk>, live0: seq<Chunk>, g0: nat, nbytes: nat, grant: Option<nat>, lo: nat, asked: bool)
      requires live == live0 && granted == g0 + (if asked then Granted(nbytes) else 0)
      requires Balanced(old0, if asked then Granted(nbytes) else 0, lo, f, 0, 0)
      requires asked ==> HasRoom(f, Units(nbytes)) && !HasRoom(old0, Units(nbytes)) && grant.Some?
      requires !asked ==> (HasRoom(f, Units(nbytes)) <==> HasRoom(old0, Units(nbytes))) && (grant.Some? ==> lo >= brk)
      ensures Counted(old0, live0, g0, nbytes, grant, lo, asked)
    {
    }

    /** The search stands after position j, prevp, having begun at s, freep; what
        it has passed is too small. */
    ghost predicate Searching(s: nat, j: nat, prevp: nat, p: nat, n: nat)
      reads this
    {
      && s < |f| && j < |f| && Next(j, |f|) < |f|
      && f[s].addr == freep && f[j].addr == prevp && f[Next(j, |f|)].addr == p
      && prevp in mem && mem[prevp].ptr == p
      && Heap(mem, base, f, live, granted, brk) && 0 < base < brk && freep != 0 && freep in mem
      && Unfit(f, s, Next(j, |f|), n)
    }

    lemma {:induction false} SearchBegins(n: nat) returns (s: nat)
      requires 0 < base && Heap(mem, base, f, live, granted, brk) && ListedAt(f, freep)
      ensures freep in mem && Searching(s, s, freep, mem[freep].ptr, n)
    {
      s := ListIndex(f, freep);
      HeapHas(mem, base, f, live, granted, brk, s);
      SearchStarts(f, s, n);
      NotNull();
    }

    /** What the search knows: whether block p fits, what comes next, and that
        back at freep nothing fits. */
    lemma {:induction false} SearchStands(s: nat, j: nat, prevp: nat, p: nat, n: nat)
      requires Searching(s, j, prevp, p, n)
      ensures var k := Next(j, |f|);
              && j < |f| && k < |f| && f[j].addr == prevp && f[k].addr == p && p in mem && f[k].size == mem[p].size
              && Heap(mem, base, f, live, granted, brk) && 0 < base < brk && ListedAt(f, freep) && freep != 0
              && (mem[p].size >= n ==> HasRoom(f, n))
              && (mem[p].size < n && p == freep ==> !HasRoom(f, n))
              && (mem[p].size < n && p != freep ==> Searching(s, k, p, mem[p].ptr, n))
              && (mem[p].size < n && p != freep ==> 0 <= Ahead(s, Next(k, |f|), |f|) < Ahead(s, k, |f|))
    {
      var k := Next(j, |f|);
      hide Heap, Sorted, Unfit, ListedAt;
      HeapHas(mem, base, f, live, granted, brk, k);
      HeapHas(mem, base, f, live, granted, brk, Next(k, |f|));
      Addresses(base, f, s, k);
      Listed(f, s);
      if mem[p].size >= n {
        RoomAt(f, k, n);
      } else {
        SearchMoves(f, s, k, n);
      }
    }

    /** The first call sets up base alone. */
    method Init(n: nat)
      requires Valid() && n >= 1
      modifies this`mem, this`freep, this`f
      ensures 0 < base < brk && freep != 0 && Heap(mem, base, f, live, granted, brk) && ListedAt(f, freep)
      ensures forall lo :: Balanced(old(f), 0, lo, f, 0, 0)
      ensures HasRoom(f, n) <==> HasRoom(old(f), n)
    {
      hide *;
      StartsWell(n);
      BalancedSame(f, f);
      if freep == 0 {
        mem := mem[base := Header(base, 0)];
        freep := base;
        f := [Chunk(base, 0)];
        EmptyHeap(mem, base, brk, n);
        BalancedSame(old(f), f);
      }
    }

    lemma {:induction false} StartsWell(n: nat)
      requires Valid()
      ensures 0 < base < brk
      ensures freep == 0 ==> f == [] && live == [] && granted == 0
      ensures freep != 0 ==> Heap(mem, base, f, live, granted, brk) && ListedAt(f, freep)
    {
    }

    lemma {:induction false} StillValid()
      requires 0 < base < brk && freep != 0 && Heap(mem, base, f, live, granted, brk)
      requires ListedAt(f, freep)
      ensures Valid()
    {
    }

    /** morecore: 0 when sbrk fails.  The grant, if any, is the address sbrk returns. */
    method Morecore(nu0: nat, grant: Option<nat>) returns (p: nat)
      requires 0 < base && Heap(mem, base, f, live, granted, brk) && ListedAt(f, freep) && nu0 >= 1
      requires grant.Some? ==> grant.value >= brk
      modifies this
      ensures live == old(live) && freep != 0
      ensures grant.None? ==> p == 0 && mem == old(mem) && f == old(f) && freep == old(freep) && granted == old(granted) && brk == old(brk)
      ensures grant.Some? ==>
                var nu := if nu0 < NALLOC then NALLOC else nu0;
                && p == freep && Heap(mem, base, f, live, granted, brk) && ListedAt(f, freep)
                && HasRoom(f, nu0) && granted == old(granted) + nu
                && Balanced(old(f), nu, grant.value, f, 0, 0)
                && given == old(given) + SbrkBytes(nu)
      ensures grant.None? ==> given == old(given)
    {
      hide *;
      NotNull();
      var nu := nu0;
      if nu < NALLOC {
        nu := NALLOC;
      }
      if grant.None? {
        return 0;
      }
      var hp := grant.value;
      ghost var c, f0, m0 := Chunk(hp, nu), f, mem;
      EndOf(c);
      GrantFits(mem, base, f, live, granted, brk, c, Header(0, nu));
      mem := mem[hp := Header(0, nu)];
      ghost var m1 := mem;
      brk, granted, given := hp + nu, granted + nu, given + SbrkBytes(nu);
      ghost var t := PutBack(hp);
      InsertableIntro(base, f0, t, c);
      FreedHeap(m1, base, f0, t, c, live, granted, brk);
      FreedHasRoom(f0, t, c);
      RoomForLess(f, nu, nu0);
      forall u: nat ensures Covers(f, u) || 0 <= u < 0 + 0 <==> Covers(f0, u) || hp <= u < hp + nu {
        FreedCovers(base, f0, t, c, u);
      }
      BalancedIntro(f0, nu, hp, f, 0, 0);
      BecomesValid(t);
      Listed(f, t);
      p := freep;
    }

    lemma {:induction false} NotNull()
      requires 0 < base && Heap(mem, base, f, live, granted, brk) && ListedAt(f, freep)
      ensures freep != 0
    {
      var i :| 0 <= i < |f| && f[i].addr == freep;
      Addresses(base, f, i, i);
    }

    /** The two joins of free. */
    method Join(p: nat, bp: nat)
      requires p in mem && bp in mem && mem[p].ptr in mem
      modifies this`mem
      ensures mem == FreeMem(old(mem), p, bp)
    {
      if bp + mem[bp].size == mem[p].ptr {
        mem := mem[bp := Header(mem[mem[p].ptr].ptr, mem[bp].size + mem[mem[p].ptr].size)];
      } else {
        mem := mem[bp := mem[bp].(ptr := mem[p].ptr)];
      }
      if p + mem[p].size == bp {
        mem := mem[p := Header(mem[bp].ptr, mem[p].size + mem[bp].size)];
      } else {
        mem := mem[p := mem[p].(ptr := bp)];
      }
    }
  }

  /** The scan of free stops at position k exactly when k is the block's place. */
  lemma {:induction false} ScanStep(base: nat, f: seq<Chunk>, k: nat, t: nat, bp: nat)
    requires Sorted(base, f) && Before(f, t, bp) && k < |f| && base < bp
    ensures var p, q := f[k].addr, f[Next(k, |f|)].addr;
            p < bp < q || (p >= q && (bp > p || bp < q)) <==> k == t
  {
    var n := Next(k, |f|);
    if k < n { assert f[k].End() < f[n].addr; }
    if n < k { assert f[n].End() < f[k].addr; }
    if k < t { assert f[n].addr <= f[t].addr by { if n < t { assert f[n].End() < f[t].addr; } } }
    if t < k { assert t + 1 == k || f[t + 1].End() < f[k].addr; }
  }

  /** A request for all but one of the 2^32 bytes is served with a header and nothing behind it. */
  method WrappedRequest(base: nat, grant: nat) returns (heap: Allocator, r: nat)
    requires base > 0 && grant > base
    ensures heap.Valid() && r != 0 && heap.live == [Chunk(r - 1, 1)]
    ensures !Holds(heap.live[0], TWO32 - 1)
  {
    heap := new Allocator(base);
    ghost var asked;
    r, asked := heap.Malloc(TWO32 - 1, Some(grant));
  }

  /** A request for 2^32 - 15 bytes asks sbrk for 2^32 of them, which is 0 as an int: the block handed out lies behind the
      end of memory, where sbrk has added nothing. */
  method UngrantedRequest(base: nat, end: nat) returns (heap: Allocator, r: nat)
    requires base > 0 && end > base
    ensures heap.Valid() && r != 0 && heap.live == [Chunk(r - 1, TWO32 / 8)]
    ensures heap.granted == TWO32 / 8 && heap.given == 0
  {
    heap := new Allocator(base);
    ghost var asked;
    r, asked := heap.Malloc(TWO32 - 15, Some(end));
  }
}
