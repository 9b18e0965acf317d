// The free list of the K&R allocator (The C Programming Language, 2nd ed.,
// section 8.7) as a sequence of blocks, and what free and malloc do to it.
// Addresses count units of one header (8 bytes).
module FreeList {
  datatype Header = Header(ptr: nat, size: nat)

  type Memory = map<nat, Header>

  /** A block: its header's address and its length in units, header included. */
  datatype Chunk = Chunk(addr: nat, size: nat)
  {
    function End(): nat {
      addr + size
    }
  }

  predicate Apart(a: Chunk, b: Chunk) {
    a.End() <= b.addr || b.End() <= a.addr
  }

  /** Unit u lies in a block of s. */
  predicate Covers(s: seq<Chunk>, u: nat) {
    exists i :: 0 <= i < |s| && s[i].addr <= u < s[i].End()
  }

  function Sum(s: seq<Chunk>): nat {
    if s == [] then 0 else Sum(s[..|s| - 1]) + s[|s| - 1].size
  }

  lemma {:induction false} SumAppend(s: seq<Chunk>, t: seq<Chunk>)
    ensures Sum(s + t) == Sum(s) + Sum(t)
  {
    if t == [] {
      assert s + t == s;
    } else {
      assert (s + t)[..|s + t| - 1] == s + t[..|t| - 1];
      SumAppend(s, t[..|t| - 1]);
    }
  }

  lemma {:induction false} SumOne(c: Chunk)
    ensures Sum([c]) == c.size
  {
    assert [c][..0] == [];
  }

  function Next(i: nat, n: nat): nat {
    if i + 1 == n then 0 else i + 1
  }

  /** A free list: base first, then blocks in address order, none of which
      touches the next; so neighbours are always joined. */
  predicate Sorted(base: nat, f: seq<Chunk>) {
    && |f| >= 1 && f[0] == Chunk(base, 0)
    && (forall i :: 0 < i < |f| ==> f[i].size >= 1)
    && (forall i, j :: 0 <= i < j < |f| ==> f[i].End() < f[j].addr)
  }

  predicate LinkedAt(m: Memory, f: seq<Chunk>, i: nat)
    requires i < |f|
  {
    f[i].addr in m && m[f[i].addr] == Header(f[Next(i, |f|)].addr, f[i].size)
  }

  /** The headers in memory link f into a circle. */
  predicate Linked(m: Memory, f: seq<Chunk>) {
    forall i: nat :: i < |f| ==> LinkedAt(m, f, i)
  }

  /** Blocks handed out: a header at least, disjoint from each other. */
  predicate Live(m: Memory, live: seq<Chunk>) {
    && (forall i :: 0 <= i < |live| ==> live[i].size >= 1 && live[i].addr in m && m[live[i].addr].size == live[i].size)
    && (forall i, j :: 0 <= i < j < |live| ==> Apart(live[i], live[j]))
  }

  predicate Clear(s: seq<Chunk>, c: Chunk) {
    forall i :: 0 <= i < |s| ==> Apart(c, s[i])
  }

  // ----- putting a block in

  /** Position t is where a block at bp belongs. */
  predicate Before(f: seq<Chunk>, t: nat, bp: nat) {
    t < |f| && f[t].addr < bp && (t + 1 < |f| ==> bp < f[t + 1].addr)
  }

  predicate JoinsNext(f: seq<Chunk>, t: nat, c: Chunk) {
    t + 1 < |f| && c.End() == f[t + 1].addr
  }

  predicate JoinsPrev(f: seq<Chunk>, t: nat, c: Chunk)
    requires t < |f|
  {
    f[t].End() == c.addr
  }

  /** c together with the block after it, if they touch. */
  function Joined(f: seq<Chunk>, t: nat, c: Chunk): Chunk {
    if JoinsNext(f, t, c) then Chunk(c.addr, c.size + f[t + 1].size) else c
  }

  function Without(f: seq<Chunk>, k: nat): (g: seq<Chunk>)
    requires k < |f|
    ensures |g| == |f| - 1 && forall i :: 0 <= i < |g| ==> g[i] == f[if i < k then i else i + 1]
  {
    f[..k] + f[k + 1..]
  }

  function With(f: seq<Chunk>, k: nat, c: Chunk): (g: seq<Chunk>)
    requires k <= |f|
    ensures |g| == |f| + 1
    ensures forall i :: 0 <= i < |g| ==> g[i] == if i < k then f[i] else if i == k then c else f[i - 1]
  {
    f[..k] + [c] + f[k..]
  }

  /** The list without the block that c swallows. */
  function Shrunk(f: seq<Chunk>, t: nat, c: Chunk): (g: seq<Chunk>)
    requires t < |f|
  {
    if JoinsNext(f, t, c) then Without(f, t + 1) else f
  }

  /** The free list with c put in after position t. */
  function Freed(f: seq<Chunk>, t: nat, c: Chunk): seq<Chunk>
    requires t < |f|
  {
    var g, d := Shrunk(f, t, c), Joined(f, t, c);
    if JoinsPrev(f, t, c) then g[t := Chunk(f[t].addr, f[t].size + d.size)] else With(g, t + 1, d)
  }

  predicate Insertable(base: nat, f: seq<Chunk>, t: nat, c: Chunk) {
    Sorted(base, f) && Before(f, t, c.addr) && c.size >= 1 && Clear(f, c)
  }

  lemma {:induction false} WithoutSorted(base: nat, f: seq<Chunk>, k: nat)
    requires Sorted(base, f) && 0 < k < |f|
    ensures Sorted(base, Without(f, k))
  {
  }

  lemma {:induction false} GrowSorted(base: nat, f: seq<Chunk>, t: nat, c: Chunk)
    requires Sorted(base, f) && 0 < t < |f| && c.addr == f[t].addr && c.size >= 1
    requires t + 1 < |f| ==> c.End() < f[t + 1].addr
    ensures Sorted(base, f[t := c])
  {
    var g := f[t := c];
    forall i, j | 0 <= i < j < |g| ensures g[i].End() < g[j].addr {
      if i == t { assert j == t + 1 || f[t + 1].End() < f[j].addr; }
    }
  }

  lemma {:induction false} WithSorted(base: nat, f: seq<Chunk>, t: nat, c: Chunk)
    requires Sorted(base, f) && t < |f| && c.size >= 1
    requires f[t].End() < c.addr && (t + 1 < |f| ==> c.End() < f[t + 1].addr)
    ensures Sorted(base, With(f, t + 1, c))
  {
    var g := With(f, t + 1, c);
    hide With;
    forall i, j | 0 <= i < j < |g| ensures g[i].End() < g[j].addr {
      if j == t + 1 { assert i == t || f[i].End() < f[t].addr; }
      if i == t + 1 { assert j == t + 2 || f[t + 1].End() < f[j - 1].addr; }
    }
  }

  lemma {:induction false} ShrunkSorted(base: nat, f: seq<Chunk>, t: nat, c: Chunk)
    requires Insertable(base, f, t, c)
    ensures var g, d := Shrunk(f, t, c), Joined(f, t, c);
            && Sorted(base, g) && t < |g| && g[t] == f[t] && d.addr == c.addr && d.size >= 1
            && f[t].End() <= d.addr && (t + 1 < |g| ==> d.End() < g[t + 1].addr)
            && (f[t].End() == d.addr ==> t > 0)
  {
    assert Apart(c, f[t]);
    if JoinsNext(f, t, c) {
      WithoutSorted(base, f, t + 1);
      assert t + 2 < |f| ==> f[t + 1].End() < f[t + 2].addr;
    } else {
      assert t + 1 < |f| ==> Apart(c, f[t + 1]);
    }
  }

  lemma {:induction false} FreedSorted(base: nat, f: seq<Chunk>, t: nat, c: Chunk)
    requires Insertable(base, f, t, c)
    ensures Sorted(base, Freed(f, t, c))
  {
    hide Sorted, Shrunk, With, Without, Clear, Before;
    InsertableAt(base, f, t, c);
    var g, d := Shrunk(f, t, c), Joined(f, t, c);
    ShrunkSorted(base, f, t, c);
    if JoinsPrev(f, t, c) {
      GrowSorted(base, g, t, Chunk(f[t].addr, f[t].size + d.size));
    } else {
      WithSorted(base, g, t, d);
    }
  }

  lemma {:induction false} WithSum(f: seq<Chunk>, k: nat, c: Chunk)
    requires k <= |f|
    ensures Sum(With(f, k, c)) == Sum(f) + c.size
  {
    SumAppend(f[..k] + [c], f[k..]);
    SumAppend(f[..k], [c]);
    SumAppend(f[..k], f[k..]);
    SumOne(c);
    assert f == f[..k] + f[k..];
  }

  lemma {:induction false} WithoutSum(f: seq<Chunk>, k: nat)
    requires k < |f|
    ensures Sum(Without(f, k)) == Sum(f) - f[k].size
  {
    WithSum(Without(f, k), k, f[k]);
    assert With(Without(f, k), k, f[k]) == f;
  }

  lemma {:induction false} ReplacedSum(f: seq<Chunk>, k: nat, c: Chunk)
    requires k < |f|
    ensures Sum(f[k := c]) == Sum(f) - f[k].size + c.size
  {
    WithoutSum(f, k);
    WithSum(Without(f, k), k, c);
    assert With(Without(f, k), k, c) == f[k := c];
  }

  lemma {:induction false} ShrunkSum(f: seq<Chunk>, t: nat, c: Chunk)
    requires t < |f|
    ensures Sum(Shrunk(f, t, c)) + Joined(f, t, c).size == Sum(f) + c.size
  {
    hide Sum, Without;
    if JoinsNext(f, t, c) { WithoutSum(f, t + 1); }
  }

  /** Blocks behind the one swallowed have moved up. */
  lemma {:induction false} ShrunkAt(f: seq<Chunk>, t: nat, c: Chunk)
    requires t < |f|
    ensures var g := Shrunk(f, t, c);
            && t < |g| == |f| - (if JoinsNext(f, t, c) then 1 else 0)
            && forall i :: 0 <= i < |g| ==> g[i] == f[if i <= t || !JoinsNext(f, t, c) then i else i + 1]
  {
    hide Without;
  }

  lemma {:induction false} FreedSum(f: seq<Chunk>, t: nat, c: Chunk)
    requires t < |f|
    ensures Sum(Freed(f, t, c)) == Sum(f) + c.size
  {
    hide Sum, Shrunk, With, Without;
    var g, d := Shrunk(f, t, c), Joined(f, t, c);
    ShrunkSum(f, t, c);
    ShrunkAt(f, t, c);
    if JoinsPrev(f, t, c) {
      ReplacedSum(g, t, Chunk(f[t].addr, f[t].size + d.size));
    } else {
      WithSum(g, t + 1, d);
    }
  }

  lemma {:induction false} InsertableAt(base: nat, f: seq<Chunk>, t: nat, c: Chunk)
    requires Insertable(base, f, t, c)
    ensures t < |f|
  {
  }

  lemma {:induction false} ShrunkCovers(f: seq<Chunk>, t: nat, c: Chunk, u: nat)
    requires t < |f|
    ensures var d := Joined(f, t, c);
            Covers(Shrunk(f, t, c), u) || d.addr <= u < d.End() <==> Covers(f, u) || c.addr <= u < c.End()
  {
    if JoinsNext(f, t, c) { WithoutCovers(f, t + 1, u); }
  }

  /** Freeing a block frees its units and no others. */
  lemma {:induction false} FreedCovers(base: nat, f: seq<Chunk>, t: nat, c: Chunk, u: nat)
    requires Insertable(base, f, t, c)
    ensures Covers(Freed(f, t, c), u) <==> Covers(f, u) || c.addr <= u < c.End()
  {
    hide Insertable, Sorted, Shrunk, With, Without, Covers;
    InsertableAt(base, f, t, c);
    var g, d := Shrunk(f, t, c), Joined(f, t, c);
    ShrunkAt(f, t, c);
    ShrunkCovers(f, t, c, u);
    if JoinsPrev(f, t, c) {
      ReplacedCovers(g, t, Chunk(f[t].addr, f[t].size + d.size), u);
      ReplacedCovers(g, t, f[t], u);
      assert g[t := f[t]] == g;
    } else {
      WithCovers(g, t + 1, d, u);
    }
  }

  lemma {:induction false} WithCovers(f: seq<Chunk>, k: nat, c: Chunk, u: nat)
    requires k <= |f|
    ensures Covers(With(f, k, c), u) <==> Covers(f, u) || c.addr <= u < c.End()
  {
    var g := With(f, k, c);
    hide With;
    if i :| 0 <= i < |f| && f[i].addr <= u < f[i].End() { assert g[if i < k then i else i + 1] == f[i]; }
    assert g[k] == c;
  }

  lemma {:induction false} WithoutCovers(f: seq<Chunk>, k: nat, u: nat)
    requires k < |f|
    ensures Covers(f, u) <==> Covers(Without(f, k), u) || f[k].addr <= u < f[k].End()
  {
    WithCovers(Without(f, k), k, f[k], u);
    assert With(Without(f, k), k, f[k]) == f;
  }

  lemma {:induction false} ReplacedCovers(f: seq<Chunk>, k: nat, c: Chunk, u: nat)
    requires k < |f|
    ensures Covers(f[k := c], u) <==> Covers(Without(f, k), u) || c.addr <= u < c.End()
  {
    WithCovers(Without(f, k), k, c, u);
    assert With(Without(f, k), k, c) == f[k := c];
  }

  // ----- the headers in memory

  /** What free writes, once it has found p. */
  function FreeMem(m: Memory, p: nat, bp: nat): Memory
    requires p in m && bp in m && m[p].ptr in m
  {
    var next := m[p].ptr;
    var m1 := if bp + m[bp].size == next
              then m[bp := Header(m[next].ptr, m[bp].size + m[next].size)]
              else m[bp := m[bp].(ptr := next)];
    if p + m1[p].size == bp
    then m1[p := Header(m1[bp].ptr, m1[p].size + m1[bp].size)]
    else m1[p := m1[p].(ptr := bp)]
  }

  lemma {:induction false} Links(m: Memory, f: seq<Chunk>, i: nat)
    requires Linked(m, f) && i < |f|
    ensures f[i].addr in m && m[f[i].addr] == Header(f[Next(i, |f|)].addr, f[i].size)
  {
    assert LinkedAt(m, f, i);
  }

  /** The addresses of a list are distinct, and differ from that of a clear block. */
  lemma {:induction false} Addresses(base: nat, f: seq<Chunk>, i: nat, j: nat)
    requires Sorted(base, f) && i < |f| && j < |f|
    ensures f[i].addr == f[j].addr <==> i == j
    ensures base <= f[i].addr
  {
    if i < j { assert f[i].End() < f[j].addr; }
    if j < i { assert f[j].End() < f[i].addr; }
    if 0 < i { assert f[0].End() < f[i].addr; }
  }

  lemma {:induction false} ClearAddress(base: nat, f: seq<Chunk>, c: Chunk, i: nat)
    requires Sorted(base, f) && Clear(f, c) && base < c.addr && c.size >= 1 && i < |f|
    ensures f[i].addr != c.addr
  {
    assert Apart(c, f[i]);
  }

  /** Outside of p and bp free changes no header. */
  lemma {:induction false} FreeMemOther(m: Memory, base: nat, f: seq<Chunk>, t: nat, c: Chunk, i: nat)
    requires Insertable(base, f, t, c) && Linked(m, f) && c.addr in m && base < c.addr && i < |f| && i != t
    ensures f[t].addr in m && m[f[t].addr].ptr in m
    ensures var m1 := FreeMem(m, f[t].addr, c.addr); f[i].addr in m1 && m1[f[i].addr] == m[f[i].addr]
  {
    Links(m, f, t);
    Links(m, f, i);
    Links(m, f, Next(t, |f|));
    Addresses(base, f, i, t);
    ClearAddress(base, f, c, i);
  }

  /** The two headers free writes. */
  lemma {:induction false} FreeMemHere(m: Memory, base: nat, f: seq<Chunk>, t: nat, c: Chunk)
    requires Insertable(base, f, t, c) && Linked(m, f) && c.addr in m && m[c.addr].size == c.size && base < c.addr
    ensures f[t].addr in m && m[f[t].addr].ptr in m
    ensures var m1, d, n := FreeMem(m, f[t].addr, c.addr), Joined(f, t, c), |f|;
            var after := f[if JoinsNext(f, t, c) then Next(t + 1, n) else Next(t, n)].addr;
            && c.addr in m1 && f[t].addr in m1
            && (if JoinsPrev(f, t, c) then m1[f[t].addr] == Header(after, f[t].size + d.size)
                else m1[c.addr] == Header(after, d.size) && m1[f[t].addr] == Header(c.addr, f[t].size))
  {
    Links(m, f, t);
    Links(m, f, Next(t, |f|));
    ClearAddress(base, f, c, t);
    Addresses(base, f, 0, t);
    assert f[0].addr == base;
  }

  /** How far the blocks behind t have moved up. */
  function Shift(f: seq<Chunk>, t: nat, c: Chunk): int
    requires t < |f|
  {
    (if JoinsNext(f, t, c) then 1 else 0) - (if JoinsPrev(f, t, c) then 0 else 1)
  }

  /** Position i of the list after free holds an old block. */
  predicate Kept(f: seq<Chunk>, t: nat, c: Chunk, i: nat)
    requires t < |f|
  {
    i < t || (if JoinsPrev(f, t, c) then t else t + 1) < i
  }

  lemma {:induction false} FreedAt(f: seq<Chunk>, t: nat, c: Chunk, i: nat)
    requires t < |f| && i < |Freed(f, t, c)|
    ensures var h, d := Freed(f, t, c), Joined(f, t, c);
            var j := if i < t then i else i + Shift(f, t, c);
            && |h| == |f| - Shift(f, t, c)
            && (Kept(f, t, c, i) ==> 0 <= j < |f| && j != t && h[i] == f[j])
            && (i == t ==> h[i] == if JoinsPrev(f, t, c) then Chunk(f[t].addr, f[t].size + d.size) else f[t])
            && (i == t + 1 && !JoinsPrev(f, t, c) ==> h[i] == d)
  {
    hide Shrunk, Without, With, Joined;
    var g, d := Shrunk(f, t, c), Joined(f, t, c);
    ShrunkAt(f, t, c);
    if JoinsPrev(f, t, c) {
      assert Freed(f, t, c) == g[t := Chunk(f[t].addr, f[t].size + d.size)];
    } else {
      assert Freed(f, t, c) == With(g, t + 1, d);
      WithAt(g, t + 1, d, i);
    }
  }

  lemma WithAt(f: seq<Chunk>, k: nat, c: Chunk, i: nat)
    requires k <= |f| && i < |With(f, k, c)|
    ensures |With(f, k, c)| == |f| + 1
    ensures With(f, k, c)[i] == if i < k then f[i] else if i == k then c else f[i - 1]
  {
  }

  /** A block that was there before, and the address after it. */
  lemma {:induction false} KeptAt(f: seq<Chunk>, t: nat, c: Chunk, i: nat) returns (j: nat)
    requires t < |f| && i < |Freed(f, t, c)| && Kept(f, t, c, i)
    ensures j < |f| && j != t && Freed(f, t, c)[i] == f[j]
    ensures Freed(f, t, c)[Next(i, |Freed(f, t, c)|)].addr == f[Next(j, |f|)].addr
  {
    hide Freed, Joined;
    FreedAt(f, t, c, i);
    FreedAt(f, t, c, Next(i, |Freed(f, t, c)|));
    j := if i < t then i else i + Shift(f, t, c);
  }

  lemma {:induction false} FreedLinkedElsewhere(m: Memory, base: nat, f: seq<Chunk>, t: nat, c: Chunk, i: nat)
    requires Insertable(base, f, t, c) && Linked(m, f) && c.addr in m && base < c.addr
    requires t < |f| && i < |Freed(f, t, c)| && Kept(f, t, c, i)
    ensures f[t].addr in m && m[f[t].addr].ptr in m
    ensures LinkedAt(FreeMem(m, f[t].addr, c.addr), Freed(f, t, c), i)
  {
    hide Insertable, Linked, Freed, FreeMem, Kept;
    var j := KeptAt(f, t, c, i);
    FreeMemOther(m, base, f, t, c, j);
    Links(m, f, j);
  }

  lemma {:induction false} FreedLinkedHere(m: Memory, base: nat, f: seq<Chunk>, t: nat, c: Chunk)
    requires Insertable(base, f, t, c) && Linked(m, f) && c.addr in m && m[c.addr].size == c.size && base < c.addr
    ensures f[t].addr in m && m[f[t].addr].ptr in m
    ensures t < |Freed(f, t, c)| && LinkedAt(FreeMem(m, f[t].addr, c.addr), Freed(f, t, c), t)
    ensures !JoinsPrev(f, t, c) ==>
              t + 1 < |Freed(f, t, c)| && LinkedAt(FreeMem(m, f[t].addr, c.addr), Freed(f, t, c), t + 1)
  {
    FreeMemHere(m, base, f, t, c);
    var h := Freed(f, t, c);
    FreedAt(f, t, c, t);
    FreedAt(f, t, c, Next(t, |h|));
    if !JoinsPrev(f, t, c) {
      FreedAt(f, t, c, t + 1);
      FreedAt(f, t, c, Next(t + 1, |h|));
    }
    Addresses(base, f, 0, t);
    hide FreeMem, Sorted, Linked, Freed, Clear, Insertable, Before;
  }

  lemma {:induction false} FreedLinked(m: Memory, base: nat, f: seq<Chunk>, t: nat, c: Chunk)
    requires Insertable(base, f, t, c) && Linked(m, f) && c.addr in m && m[c.addr].size == c.size && base < c.addr
    ensures f[t].addr in m && m[f[t].addr].ptr in m
    ensures Linked(FreeMem(m, f[t].addr, c.addr), Freed(f, t, c))
  {
    FreedLinkedHere(m, base, f, t, c);
    var m1, h := FreeMem(m, f[t].addr, c.addr), Freed(f, t, c);
    forall i: nat | i < |h| ensures LinkedAt(m1, h, i) {
      if Kept(f, t, c, i) { FreedLinkedElsewhere(m, base, f, t, c, i); }
    }
    hide FreeMem, Freed, Insertable;
    assert forall i :: 0 <= i < |h| ==> LinkedAt(m1, h, i);
  }

  // ----- taking a block out

  lemma {:induction false} UnlinkedLinks(m: Memory, base: nat, f: seq<Chunk>, k: nat)
    requires Sorted(base, f) && Linked(m, f) && 0 < k < |f|
    ensures f[k - 1].addr in m && f[k].addr in m
    ensures Linked(m[f[k - 1].addr := m[f[k - 1].addr].(ptr := m[f[k].addr].ptr)], Without(f, k))
  {
    hide Linked, Without, Sorted;
    Links(m, f, k - 1);
    Links(m, f, k);
    var m1, g := m[f[k - 1].addr := m[f[k - 1].addr].(ptr := m[f[k].addr].ptr)], Without(f, k);
    forall i: nat | i < |g| ensures LinkedAt(m1, g, i) {
      var j := if i < k then i else i + 1;
      Links(m, f, j);
      Addresses(base, f, j, k - 1);
      assert g[i] == f[j];
      assert i != k - 1 ==> g[Next(i, |g|)] == f[Next(j, |f|)];
    }
    assert forall i: nat :: i < |g| ==> LinkedAt(m1, g, i);
    LinkedIntro(m1, g);
  }

  lemma {:induction false} LinkedIntro(m: Memory, f: seq<Chunk>)
    requires forall i: nat :: i < |f| ==> LinkedAt(m, f, i)
    ensures Linked(m, f)
  {
  }

  /** The last n units of block k, header first. */
  function Tail(f: seq<Chunk>, k: nat, n: nat): Chunk
    requires k < |f| && n < f[k].size
  {
    Chunk(f[k].addr + f[k].size - n, n)
  }

  lemma {:induction false} TailLinks(m: Memory, base: nat, f: seq<Chunk>, k: nat, n: nat, h: Header)
    requires Sorted(base, f) && Linked(m, f) && k < |f| && n < f[k].size
    ensures f[k].addr in m
    ensures var p := f[k].addr;
            Linked(m[p := Header(m[p].ptr, f[k].size - n)][Tail(f, k, n).addr := h], f[k := Chunk(p, f[k].size - n)])
  {
    Links(m, f, k);
    var p, a := f[k].addr, Tail(f, k, n).addr;
    var m1, g := m[p := Header(m[p].ptr, f[k].size - n)][a := h], f[k := Chunk(p, f[k].size - n)];
    forall i: nat | i < |f| ensures f[i].addr != a {
      if i < k { assert f[i].End() < f[k].addr; }
      if i > k { assert f[k].End() < f[i].addr; }
    }
    hide Linked, Sorted;
    forall i: nat | i < |g| ensures LinkedAt(m1, g, i) {
      Links(m, f, i);
      Addresses(base, f, i, k);
    }
    LinkedIntro(m1, g);
  }

  lemma {:induction false} TailSorted(base: nat, f: seq<Chunk>, k: nat, n: nat)
    requires Sorted(base, f) && k < |f| && 0 < n < f[k].size
    ensures Sorted(base, f[k := Chunk(f[k].addr, f[k].size - n)])
  {
    assert k > 0;
    assert k + 1 < |f| ==> f[k].End() < f[k + 1].addr;
    GrowSorted(base, f, k, Chunk(f[k].addr, f[k].size - n));
  }

  lemma {:induction false} TailCovers(f: seq<Chunk>, k: nat, n: nat, u: nat)
    requires k < |f| && n < f[k].size
    ensures var c := Tail(f, k, n);
            Covers(f, u) <==> Covers(f[k := Chunk(f[k].addr, f[k].size - n)], u) || c.addr <= u < c.End()
  {
    ReplacedCovers(f, k, Chunk(f[k].addr, f[k].size - n), u);
    WithoutCovers(f, k, u);
  }
}
