// The frame allocator (OS-Lab-1/kalloc.c:60-95) and the page tables built
// from it (OS-Lab-1/vm.c:36-80, 222-298, 316-345, 366-386).

module Vm {
  import opened Options
  import opened Disk
  import opened Sets
  import opened Frames

  function NextOf(list: seq<nat>, k: nat): Option<nat> {
    if k + 1 < |list| then Some(list[k + 1]) else None
  }

  /** The free list threads through the frames on it. */
  ghost predicate FreeList(m: seq<Frame>, head: Option<nat>, list: seq<nat>) {
    && head == (if list == [] then None else Some(list[0]))
    && (forall k: nat :: k < |list| ==> list[k] < |m| && m[list[k]] == Free(NextOf(list, k)))
    && (forall j: nat, k: nat :: j < k < |list| ==> list[j] != list[k])
  }

  /** Each managed frame is free, in use by a directory, or in somebody's hands; never two of these. */
  ghost predicate Parts(lo: nat, hi: nat, list: seq<nat>, owner: Owner, held: set<nat>) {
    && (forall f: nat :: f in list || f in owner || f in held <==> lo <= f < hi)
    && (forall f: nat :: f in list ==> f !in owner && f !in held)
    && (forall f: nat :: f in owner ==> f !in held)
  }

  lemma FreeListPop(m: seq<Frame>, head: Option<nat>, list: seq<nat>)
    requires FreeList(m, head, list) && list != []
    ensures head == Some(list[0]) && list[0] < |m| && m[list[0]].Free? && FreeList(m, m[list[0]].next, list[1..])
    ensures list[0] !in list[1..]
  {
    assert m[list[0]] == Free(NextOf(list, 0));
    forall k: nat | k < |list[1..]| ensures list[1..][k] < |m| && m[list[1..][k]] == Free(NextOf(list[1..], k)) {
      assert m[list[k + 1]] == Free(NextOf(list, k + 1));
    }
  }

  lemma FreeListPush(m: seq<Frame>, head: Option<nat>, list: seq<nat>, f: nat)
    requires FreeList(m, head, list) && f < |m| && f !in list
    ensures FreeList(m[f := Free(head)], Some(f), [f] + list)
  {
    hide NextOf;
    var m' := m[f := Free(head)];
    var l := [f] + list;
    forall k: nat | k < |l| ensures l[k] < |m'| && m'[l[k]] == Free(NextOf(l, k)) {
      NextAfter(f, list, k);
      if k > 0 {
        assert l[k] == list[k - 1] && list[k - 1] != f && m[list[k - 1]] == Free(NextOf(list, k - 1));
      }
    }
    DistinctAfter(list, f);
  }

  lemma NextAfter(f: nat, list: seq<nat>, k: nat)
    ensures NextOf([f] + list, k) ==
      if k == 0 then (if list == [] then None else Some(list[0])) else NextOf(list, k - 1)
  {
  }

  lemma DistinctAfter(list: seq<nat>, f: nat)
    requires f !in list && forall j: nat, k: nat :: j < k < |list| ==> list[j] != list[k]
    ensures forall j: nat, k: nat :: j < k < |[f] + list| ==> ([f] + list)[j] != ([f] + list)[k]
  {
    var l := [f] + list;
    forall j: nat, k: nat | j < k < |l| ensures l[j] != l[k] {
      assert l[k] == list[k - 1];
      if j > 0 {
        assert l[j] == list[j - 1];
      }
    }
  }

  /** A frame that is not free can change. */
  lemma FreeListPut(m: seq<Frame>, head: Option<nat>, list: seq<nat>, f: nat, fr: Frame)
    requires FreeList(m, head, list) && f < |m| && f !in list
    ensures FreeList(m[f := fr], head, list)
  {
  }

  lemma PartsPop(lo: nat, hi: nat, list: seq<nat>, owner: Owner, held: set<nat>)
    requires Parts(lo, hi, list, owner, held) && list != [] && list[0] !in list[1..]
    ensures Parts(lo, hi, list[1..], owner, held + {list[0]})
    ensures list[0] !in owner && list[0] !in held && lo <= list[0] < hi
  {
    forall f: nat ensures f in list <==> f == list[0] || f in list[1..] {
      assert list == [list[0]] + list[1..];
    }
  }

  lemma PartsPush(lo: nat, hi: nat, list: seq<nat>, owner: Owner, held: set<nat>, f: nat)
    requires Parts(lo, hi, list, owner, held) && f in held
    ensures Parts(lo, hi, [f] + list, owner, held - {f}) && f !in list && f !in owner && lo <= f < hi
  {
  }

  lemma PartsGive(lo: nat, hi: nat, list: seq<nat>, owner: Owner, held: set<nat>, f: nat, s: Slot)
    requires Parts(lo, hi, list, owner, held) && f in held
    ensures Parts(lo, hi, list, owner[f := s], held - {f}) && f !in owner && f !in list
  {
  }

  lemma PartsTake(lo: nat, hi: nat, list: seq<nat>, owner: Owner, held: set<nat>, f: nat)
    requires Parts(lo, hi, list, owner, held) && f in owner
    ensures Parts(lo, hi, list, owner - {f}, held + {f}) && f !in held && f !in list
  {
  }

  /** b - 1 down to a. */
  function Down(a: nat, b: nat): seq<nat>
    requires a <= b
    decreases b
  {
    if a == b then [] else [b - 1] + Down(a, b - 1)
  }

  lemma DownNone(a: nat, list: seq<nat>, held: set<nat>)
    ensures Down(a, a) + list == list && held - Between(a, a) == held
  {
  }

  lemma DownNext(a: nat, p: nat, list: seq<nat>, held: set<nat>)
    requires a <= p
    ensures Down(a, p + 1) + list == [p] + (Down(a, p) + list)
    ensures held - Between(a, p + 1) == held - Between(a, p) - {p}
  {
  }

  class Machine {
    const frames: array<Frame>
    const lo: nat                // kalloc manages frames lo to hi - 1
    const hi: nat
    var head: Option<nat>
    ghost var list: seq<nat>
    ghost var owner: Owner
    ghost var held: set<nat>     // allocated and not part of any address space
    ghost var dirs: set<nat>

    ghost function X(): Mem
      reads this, frames
    {
      Mem(frames[..], dirs)
    }

    /** kmem.freelist, and the frames it does not hold. */
    ghost predicate Kmem()
      reads this, frames
    {
      0 < lo <= hi <= frames.Length && FreeList(frames[..], head, list) && Parts(lo, hi, list, owner, held)
    }

    ghost predicate Valid()
      reads this, frames
    {
      Kmem() && Own(X(), owner)
    }

    /** Before kinit: every managed frame is still to be freed. */
    constructor (nframes: nat, lo: nat, hi: nat)
      requires 0 < lo <= hi <= nframes
      ensures Valid() && fresh(frames) && list == [] && dirs == {} && owner == map[]
      ensures this.lo == lo && this.hi == hi && held == Between(lo, hi)
    {
      frames := new Frame[nframes](_ => Frame.Data([]));
      this.lo, this.hi, head := lo, hi, None;
      list, owner, dirs := [], map[], {};
      held := Between(lo, hi);
    }

    /** Frames a to b - 1, freed in order. */
    method Freerange(a: nat, b: nat)
      requires Valid() && a <= b && forall f: nat :: a <= f < b ==> f in held
      modifies frames, `head, `list, `held
      ensures Valid() && list == Down(a, b) + old(list)
      ensures held == old(held) - Between(a, b)
    {
      hide Kmem, Own, Down;
      DownNone(a, list, held);
      var p := a;
      while p < b
        invariant a <= p <= b && Valid() && list == Down(a, p) + old(list)
        invariant held == old(held) - Between(a, p)
      {
        ghost var x := X();
        ManagedFrames();
        Kfree(p);
        assert X() == Put(x, p, frames[p]);
        PutOwn(x, owner, p, frames[p]);
        DownNext(a, p, old(list), old(held));
        p := p + 1;
      }
    }

    lemma ManagedFrames()
      requires Kmem()
      ensures forall f: nat :: f in held ==> f !in owner && f < frames.Length
    {
    }

    method Kalloc() returns (r: Option<nat>)
      requires Kmem()
      modifies `head, `list, `held
      ensures Kmem()
      ensures if old(list) == [] then r == None && list == [] && held == old(held)
        else
          && r == Some(old(list)[0]) && list == old(list)[1..] && held == old(held) + {old(list)[0]}
          && r.value !in owner && r.value !in old(held) && lo <= r.value < hi
    {
      hide FreeList, Parts;
      r := head;
      FreeListHead(frames[..], head, list);
      if r.Some? {
        FreeListPop(frames[..], head, list);
        PartsPop(lo, hi, list, owner, held);
        head := frames[r.value].next;
        held := held + {r.value};
        list := list[1..];
      }
    }

    /** The panic "kfree" is the requires: a managed frame, and one that somebody holds. */
    method Kfree(f: nat)
      requires Kmem() && f in held
      modifies frames, `head, `list, `held
      ensures Kmem() && list == [f] + old(list) && held == old(held) - {f}
      ensures lo <= f < hi && f !in owner
      ensures frames[..] == old(frames[..])[f := Free(old(head))]
    {
      hide FreeList, Parts;
      PartsPush(lo, hi, list, owner, held, f);
      FreeListPush(frames[..], head, list, f);
      frames[f] := Free(head);
      head := Some(f);
      list := [f] + list;
      held := held - {f};
    }

    /** The table holding the entry for page v of directory d. */
    method Walkpgdir(d: nat, v: nat, alloc: bool) returns (t: Option<nat>)
      requires Valid() && d in dirs && v < PAGES
      modifies frames, `head, `list, `held, `owner
      ensures Valid() && held == old(held)
      ensures Touches(old(X()), X(), old(owner), owner, d, v, v) && Walk(X().m, d, v) == Walk(old(X()).m, d, v)
      ensures t.Some? ==> Pde(X().m, d, v / ENTRIES) == Entry(t.value, Flags(true, true))
      ensures t.None? ==> X() == old(X()) && owner == old(owner) && Pde(X().m, d, v / ENTRIES) == Absent
      ensures t.None? && alloc ==> old(list) == [] == list
      ensures t.None? <==> v / ENTRIES !in Tabled(old(X()).m, d) && (!alloc || old(list) == [])
      ensures t.Some? ==>
        && Tabled(X().m, d) == Tabled(old(X()).m, d) + {v / ENTRIES}
        && |old(list)| == |list| + Lacks(Tabled(old(X()).m, d), v / ENTRIES)
      ensures !alloc ==> X() == old(X()) && owner == old(owner) && list == old(list) && head == old(head)
      ensures KeepsBytes(old(X()).m, X().m, old(owner), held, owner)
    {
      hide FreeList, Parts, Own, Walk, Touches, KeepsBytes, Tabled;
      ghost var x, o := X(), owner;
      TouchesSelf(x, o, d, v, v);
      KeepsSelf(x.m, o, held);
      DirTable(x, o, d);
      TabledAt(x.m, d, v / ENTRIES);
      PdeOpen(x, o, d, v / ENTRIES);
      var pde := frames[d].e[v / ENTRIES];
      if pde.Entry? {
        return Some(pde.ppn);
      }
      if !alloc {
        return None;
      }
      t := Kalloc();
      if t.Some? {
        NewTableOwn(x, o, d, v / ENTRIES, t.value);
        NewTableTouches(x, o, d, v / ENTRIES, t.value, v);
        NewTableTabled(x, o, d, v / ENTRIES, t.value);
        PartsGive(lo, hi, list, o, held, t.value, Tab(d, v / ENTRIES));
        FreeListPut(frames[..], head, list, t.value, Table(NoEntries()));
        DirNotFree(lo, hi, list, o, held, d);
        KeepsTable(x, o, d, v / ENTRIES, t.value, held - {t.value});
        frames[t.value] := Table(NoEntries());
        FreeListPut(frames[..], head, list, d, Table(frames[d].e[v / ENTRIES := Entry(t.value, Flags(true, true))]));
        frames[d] := Table(frames[d].e[v / ENTRIES := Entry(t.value, Flags(true, true))]);
        held := held - {t.value};
        owner := owner[t.value := Tab(d, v / ENTRIES)];
        assert X() == NewTable(x, d, v / ENTRIES, t.value);
      }
    }

    /** One round of mappages' loop. */
    method MapPage(d: nat, v: nat, f: nat, fl: Flags) returns (ok: bool)
      requires Valid() && d in dirs && v < PAGES && Walk(X().m, d, v) == Absent
      requires v < KERNPAGE ==> f in held && DataAt(frames[..], f)
      modifies frames, `head, `list, `held, `owner
      ensures Valid()
      ensures Touches(old(X()), X(), old(owner), owner, d, v, v + 1)
      ensures Walk(X().m, d, v) == if ok then Entry(f, fl) else Absent
      ensures ok <==> Lacks(Tabled(old(X()).m, d), v / ENTRIES) <= |old(list)|
      ensures ok ==>
        && Tabled(X().m, d) == Tabled(old(X()).m, d) + {v / ENTRIES}
        && |old(list)| == |list| + Lacks(Tabled(old(X()).m, d), v / ENTRIES)
      ensures !ok ==> old(list) == [] == list && Tabled(X().m, d) == Tabled(old(X()).m, d)
      ensures held == if ok && v < KERNPAGE then old(held) - {f} else old(held)
      ensures ok && v < KERNPAGE ==> f in owner && owner[f] == User(d, v)
      ensures KeepsBytes(old(X()).m, X().m, old(owner), old(held), owner)
    {
      hide FreeList, Parts, Own, Walk, Touches, Pde, KeepsBytes, Tabled;
      ghost var x0, o0, h := X(), owner, held;
      if v < KERNPAGE {
        DataFacts(frames[..], f);
      }
      var t := Walkpgdir(d, v, true);
      TouchesMore(x0, X(), o0, owner, d, v, v, v, v + 1);
      if t.None? {
        return false;
      }
      // *pte & PTE_P would be panic("remap")
      ghost var x, o := X(), owner;
      if v < KERNPAGE {
        HeldFacts(lo, hi, list, owner, held, f);
        KeptFrame(x0.m, x.m, o0, h, o, f);
      }
      MapOwn(x, o, d, v, t.value, f, fl);
      OwnTab(x, o, d, v / ENTRIES);
      EntryTabled(x, o, d, v, t.value, Entry(f, fl));
      DirNotFree(lo, hi, list, o, held, t.value);
      KeepsEntry(x, o, h, t.value, v % ENTRIES, Entry(f, fl));
      FreeListPut(frames[..], head, list, t.value, Table(frames[t.value].e[v % ENTRIES := Entry(f, fl)]));
      frames[t.value] := Table(frames[t.value].e[v % ENTRIES := Entry(f, fl)]);
      assert X() == PutEntry(x, t.value, v % ENTRIES, Entry(f, fl));
      if v < KERNPAGE {
        PartsGive(lo, hi, list, o, held, f, User(d, v));
        owner := owner[f := User(d, v)];
        held := held - {f};
      }
      TouchesOn(x0, x, X(), o0, o, owner, d, v, v + 1);
      KeepsMore(x.m, X().m, o, h, o, owner);
      KeepsOn(x0.m, x.m, X().m, o0, h, o, owner);
      ok := true;
    }

    /** kfree(P2V(pa)); *pte = 0 */
    method UnmapPage(d: nat, v: nat, t: nat)
      requires Valid() && d in dirs && v < KERNPAGE
      requires Target(Pde(X().m, d, v / ENTRIES)) == Some(t) && Walk(X().m, d, v).Entry?
      modifies frames, `head, `list, `held, `owner
      ensures Valid() && held == old(held)
      ensures Touches(old(X()), X(), old(owner), owner, d, v, v + 1)
      ensures Walk(X().m, d, v) == Absent
    {
      hide FreeList, Parts, Own, Walk, Touches, Pde;
      ghost var x, o := X(), owner;
      ghost var f := Walk(x.m, d, v).ppn;
      UnmapOwn(x, o, d, v, t, f, Free(head));
      WalkIs(x.m, d, v, t);
      var pa := frames[t].e[v % ENTRIES].ppn;
      PartsTake(lo, hi, list, owner, held, f);
      owner := owner - {f};
      held := held + {f};
      Kfree(pa);
      OwnTab(x, o, d, v / ENTRIES);
      DirNotFree(lo, hi, list, owner, held, t);
      FreeListPut(frames[..], head, list, t, Table(frames[t].e[v % ENTRIES := Absent]));
      frames[t] := Table(frames[t].e[v % ENTRIES := Absent]);
      assert X() == PutEntry(Put(x, f, frames[f]), t, v % ENTRIES, Absent);
    }

    method Deallocuvm(d: nat, oldsz: nat, newsz: nat) returns (r: nat)
      requires Valid() && d in dirs && oldsz <= KERNPAGE * PGSIZE
      modifies frames, `head, `list, `held, `owner
      ensures Valid() && held == old(held)
      ensures r == if newsz >= oldsz then oldsz else newsz
      ensures Touches(old(X()), X(), old(owner), owner, d, Pages(newsz), Pages(oldsz))
      ensures Unmapped(X().m, d, Pages(newsz), Pages(oldsz))
    {
      hide Kmem, Own, Walk, Touches, Pde, Pages;
      ghost var x, o := X(), owner;
      ghost var lo', hi' := Pages(newsz), Pages(oldsz);
      TouchesSelf(x, o, d, lo', hi');
      PagesBelow(oldsz, newsz);
      PagesBelow(oldsz, oldsz);
      if newsz >= oldsz {
        return oldsz;
      }
      var a := (newsz + PGSIZE - 1) / PGSIZE;
      assert a == lo' by { PagesUp(newsz); }
      while a * PGSIZE < oldsz
        invariant lo' <= a && Valid() && held == old(held) && d in dirs
        invariant Touches(x, X(), o, owner, d, lo', hi')
        invariant Unmapped(X().m, d, lo', if a < hi' then a else hi')
        decreases oldsz - a * PGSIZE
      {
        PagesIs(oldsz, a);
        ghost var y, o1 := X(), owner;
        var t := Walkpgdir(d, a, false);
        if t.None? {
          Skips(y.m, d, lo', a, hi');
          a := (a / ENTRIES + 1) * ENTRIES - 1;
        } else {
          OwnTab(y, o1, d, a / ENTRIES);
          WalkIs(y.m, d, a, t.value);
          if frames[t.value].e[a % ENTRIES].Entry? {
            UnmapPage(d, a, t.value);
            TouchesMore(y, X(), o1, owner, d, a, a + 1, lo', hi');
            TouchesOn(x, y, X(), o, o1, owner, d, lo', hi');
            StillUnmapped(y, X(), o1, owner, d, a, lo');
          } else {
            OneMore(y.m, d, lo', a);
          }
        }
        a := a + 1;
      }
      PagesIs(oldsz, a);
      r := newsz;
    }

    /** The pages that size bytes from va lie in, mapped to consecutive frames from pa; 0, or -1 when out of memory,
        with done of them mapped.  It takes one frame for each table of the range that is missing, and fails just if
        there are fewer.  The panic "remap" is the requires. */
    method Mappages(d: nat, va: nat, size: nat, pa: nat, fl: Flags) returns (r: int, ghost done: nat)
      requires Valid() && d in dirs && 0 < size && va + size <= PAGES * PGSIZE
      requires Unmapped(X().m, d, First(va), End(va, size))
      requires va < KERNPAGE * PGSIZE ==>
        va + size <= KERNPAGE * PGSIZE && InHand(frames[..], held, pa, End(va, size) - First(va))
      modifies frames, `head, `list, `held, `owner
      ensures Valid()
      ensures if r == 0 then done == End(va, size) - First(va) else r == -1 && First(va) + done < End(va, size)
      ensures Touches(old(X()), X(), old(owner), owner, d, First(va), End(va, size))
      ensures MappedTo(X().m, d, First(va), First(va) + done, pa, fl)
      ensures Allows(X().m, d, First(va), First(va) + done, fl)
      ensures Unmapped(X().m, d, First(va) + done, End(va, size))
      ensures r == 0 <==> |Slots(First(va), End(va, size)) - Tabled(old(X()).m, d)| <= |old(list)|
      ensures r == 0 ==> |old(list)| == |list| + |Slots(First(va), End(va, size)) - Tabled(old(X()).m, d)|
      ensures Tabled(X().m, d) == Tabled(old(X()).m, d) + Slots(First(va), First(va) + done)
      ensures r == -1 ==> list == []
      ensures held == LeftInHand(old(held), First(va), pa, done)
      ensures KeepsBytes(old(X()).m, X().m, old(owner), old(held), owner)
    {
      hide Kmem, Own, Walk, Touches, Pde, DataAt, KeepsBytes, MappedSoFar, Tabled, Slots, Counted, Lacks, First, End,
        MappedTo, Unmapped, InHand, LeftInHand, Allows;
      ghost var x, o, h, lo', hi' := X(), owner, held, First(va), End(va, size);
      RangeFacts(va, size);
      MappedNone(x, o, h, d, lo', hi', pa, fl);
      ghost var t0 := Tabled(x.m, d);
      CountedNone(t0, lo', |list|);
      var a := va / PGSIZE;
      var last := (va + size - 1) / PGSIZE;
      var f := pa;
      while true
        invariant lo' <= a <= last && f == pa + (a - lo') && Valid()
        invariant MappedSoFar(x, X(), o, owner, h, held, d, lo', a, hi', pa, fl)
        invariant Counted(t0, Tabled(X().m, d), lo', a, |old(list)|, |list|)
        decreases last - a
      {
        ghost var y, o1, hb, l1 := X(), owner, held, |list|;
        MappedMeans(x, y, o, o1, h, hb, d, lo', a, hi', pa, fl);
        ghost var t1 := Tabled(y.m, d);
        CountedMeans(t0, t1, lo', a, hi', |old(list)|, l1);
        var ok := MapPage(d, a, f, fl);
        MappedThen(x, y, X(), o, o1, owner, h, hb, held, d, lo', a, hi', pa, fl, ok);
        if !ok {
          MappedEnds(x, X(), o, owner, h, held, d, lo', a, hi', pa, fl);
          MappedAllows(X(), owner, d, lo', a, pa, fl);
          return -1, a - lo';
        }
        CountedNext(t0, t1, Tabled(X().m, d), lo', a, |old(list)|, l1, |list|);
        if a == last {
          CountedMeans(t0, Tabled(X().m, d), lo', a + 1, hi', |old(list)|, |list|);
          MappedEnds(x, X(), o, owner, h, held, d, lo', a + 1, hi', pa, fl);
          MappedAllows(X(), owner, d, lo', a + 1, pa, fl);
          return 0, hi' - lo';
        }
        a := a + 1;
        f := f + 1;
      }
    }

    /** mappages for one user page, as allocuvm and copyuvm call it. */
    method MapNew(d: nat, v: nat, f: nat, fl: Flags) returns (r: int)
      requires Valid() && d in dirs && v < KERNPAGE && Walk(X().m, d, v) == Absent
      requires f in held && f < frames.Length && DataAt(frames[..], f)
      modifies frames, `head, `list, `held, `owner
      ensures Valid() && (r == 0 || r == -1)
      ensures Touches(old(X()), X(), old(owner), owner, d, v, v + 1)
      ensures Walk(X().m, d, v) == if r == 0 then Entry(f, fl) else Absent
      ensures r == 0 <==> Lacks(Tabled(old(X()).m, d), v / ENTRIES) <= |old(list)|
      ensures r == 0 ==>
        && Tabled(X().m, d) == Tabled(old(X()).m, d) + {v / ENTRIES}
        && |old(list)| == |list| + Lacks(Tabled(old(X()).m, d), v / ENTRIES)
      ensures r == -1 ==> list == []
      ensures held == if r == 0 then old(held) - {f} else old(held)
      ensures frames[f] == old(frames[f])
    {
      hide Kmem, Own, Walk, Touches, Pde, DataAt, KeepsBytes, Tabled, Slots, LeftInHand;
      ghost var done, h := 0, held;
      OneSlot(Tabled(X().m, d), v);
      OneInHand(frames[..], held, f);
      ghost var m, o := X().m, owner;
      OnePage(v, 1);
      r, done := Mappages(d, v * PGSIZE, PGSIZE, f, fl);
      KeptFrame(m, X().m, o, h, owner, f);
      LeftNext(h, v, f, 0);
    }

    /** ok tells success from running out of memory, which the result 0 does not when newsz is 0. */
    method Allocuvm(d: nat, oldsz: nat, newsz: nat) returns (r: nat, ghost ok: bool)
      requires Valid() && d in dirs
      requires newsz < KERNPAGE * PGSIZE ==> Unmapped(X().m, d, Pages(oldsz), Pages(newsz))
      modifies frames, `head, `list, `held, `owner
      ensures Valid() && held == old(held)
      ensures newsz >= KERNPAGE * PGSIZE ==> r == 0 && X() == old(X()) && owner == old(owner)
      ensures newsz < KERNPAGE * PGSIZE && newsz < oldsz ==> r == oldsz && X() == old(X()) && owner == old(owner)
      ensures oldsz <= newsz < KERNPAGE * PGSIZE ==>
        && Touches(old(X()), X(), old(owner), owner, d, Pages(oldsz), Pages(newsz))
        && (ok ==> r == newsz && Zeroed(X().m, d, Pages(oldsz), Pages(newsz)))
        && (ok ==> Allows(X().m, d, Pages(oldsz), Pages(newsz), Flags(true, true)))
        && (!ok ==> r == 0 && Unmapped(X().m, d, Pages(oldsz), Pages(newsz)))
        && (ok <==> Pages(newsz) - Pages(oldsz) + |Slots(Pages(oldsz), Pages(newsz)) - Tabled(old(X()).m, d)| <= |old(list)|)
        && (ok ==> |old(list)| == |list| + Pages(newsz) - Pages(oldsz)
                     + |Slots(Pages(oldsz), Pages(newsz)) - Tabled(old(X()).m, d)|)
    {
      hide FreeList, Parts, Own, Walk, Touches, Pde, Pages, Page, Tabled, Slots, Counted, Lacks;
      ok := false;
      if newsz >= KERNPAGE * PGSIZE {
        return 0, ok;
      }
      if newsz < oldsz {
        return oldsz, ok;
      }
      ghost var x, o := X(), owner;
      ghost var lo', hi' := Pages(oldsz), Pages(newsz);
      TouchesSelf(x, o, d, lo', hi');
      PagesBelow(oldsz, newsz);
      PagesBelow(newsz, newsz);
      ghost var t0, n0 := Tabled(x.m, d), |list|;
      CountedNone(t0, lo', n0);
      var a := (oldsz + PGSIZE - 1) / PGSIZE;
      assert a == lo' by { PagesUp(oldsz); }
      while a * PGSIZE < newsz
        invariant lo' <= a <= hi' && Valid() && held == old(held) && d in dirs
        invariant Touches(x, X(), o, owner, d, lo', hi')
        invariant Zeroed(X().m, d, lo', a) && Unmapped(X().m, d, a, hi')
        invariant Counted(t0, Tabled(X().m, d), lo', a, n0, |list| + (a - lo'))
        decreases newsz - a * PGSIZE
      {
        PagesIs(newsz, a);
        ghost var y, o1 := X(), owner;
        ghost var t1, l1 := Tabled(y.m, d), |list|;
        CountedMeans(t0, t1, lo', a, hi', n0, l1 + (a - lo'));
        var mem := NewPage(Frames.Zeros());
        if mem.None? {
          var back := Deallocuvm(d, newsz, oldsz);
          TouchesOn(x, y, X(), o, o1, owner, d, lo', hi');
          return 0, ok;
        }
        ghost var z := X();
        assert Unmapped(z.m, d, a, a + 1) && Unmapped(z.m, d, a, hi') && Zeroed(z.m, d, lo', a) by {
          SameUnmapped(y, z, owner, d, a, a + 1);
          SameUnmapped(y, z, owner, d, a, hi');
          SameZeroed(y, z, owner, d, lo', a);
        }
        SameTabled(y, o1, mem.value, Frame.Data(Frames.Zeros()), d);
        var e := MapNew(d, a, mem.value, Flags(true, true));
        TouchesMore(z, X(), o1, owner, d, a, a + 1, lo', hi');
        TouchesOn(y, z, X(), o1, o1, owner, d, lo', hi');
        TouchesOn(x, y, X(), o, o1, owner, d, lo', hi');
        ghost var w, o2 := X(), owner;
        if e < 0 {
          var back := Deallocuvm(d, newsz, oldsz);
          TouchesOn(x, w, X(), o, o2, owner, d, lo', hi');
          ghost var u := X();
          Kfree(mem.value);
          assert X() == Put(u, mem.value, frames[mem.value]);
          PutOwn(u, owner, mem.value, frames[mem.value]);
          PutTouches(u, owner, mem.value, frames[mem.value], d, lo', lo');
          TouchesMore(u, X(), owner, owner, d, lo', lo', lo', hi');
          TouchesOn(x, u, X(), o, owner, owner, d, lo', hi');
          SameUnmapped(u, X(), owner, d, lo', hi');
          return 0, ok;
        }
        GrowsZeroed(z, w, o1, o2, d, lo', a, hi', mem.value);
        CountedNext(t0, t1, Tabled(w.m, d), lo', a, n0, l1 + (a - lo'), |list| + 1 + (a - lo'));
        a := a + 1;
      }
      PagesIs(newsz, a);
      CountedMeans(t0, Tabled(X().m, d), lo', a, hi', n0, |list| + (a - lo'));
      ZeroedAllows(X(), owner, d, lo', a);
      ok := true;
      r := newsz;
    }

    /** kalloc, and the page filled. */
    method NewPage(bytes: seq<byte>) returns (r: Option<nat>)
      requires Valid() && |bytes| == PGSIZE
      modifies frames, `head, `list, `held
      ensures Valid() && owner == old(owner) && X().dirs == old(X().dirs)
      ensures r.None? <==> old(list) == []
      ensures r.None? ==> X() == old(X()) && held == old(held) && list == []
      ensures r.Some? ==> |old(list)| == |list| + 1
      ensures r.Some? ==>
        && r.value !in old(held) && held == old(held) + {r.value} && r.value !in owner
        && r.value < |old(X()).m| && X() == Put(old(X()), r.value, Frame.Data(bytes))
        && (forall d: nat, a: nat, b: nat :: Touches(old(X()), X(), owner, owner, d, a, b))
    {
      hide FreeList, Parts, Own, Walk, Touches;
      ghost var x := X();
      r := Kalloc();
      if r.Some? {
        HeldFacts(lo, hi, list, owner, held, r.value);
        PutOwn(x, owner, r.value, Frame.Data(bytes));
        FreeListPut(frames[..], head, list, r.value, Frame.Data(bytes));
        frames[r.value] := Frame.Data(bytes);
        assert X() == Put(x, r.value, Frame.Data(bytes));
        forall d: nat, a: nat, b: nat ensures Touches(x, X(), owner, owner, d, a, b) {
          PutTouches(x, owner, r.value, Frame.Data(bytes), d, a, b);
        }
      }
    }

    /** The directory, its tables and its user pages go back to the free list, each once. */
    method Freevm(d: nat)
      requires Valid() && d in dirs
      modifies frames, `head, `list, `held, `owner, `dirs
      ensures Valid() && held == old(held) && dirs == old(dirs) - {d}
      ensures owner == Without(old(owner), d)
      ensures Dropped(old(X()), X(), old(owner), d)
    {
      hide FreeList, Parts, Own, Walk, Touches, Pde, Without, Tables, Dropped;
      ghost var x, o, h := X(), owner, held;
      var r := Deallocuvm(d, KERNPAGE * PGSIZE, 0);
      ghost var y, o1 := X(), owner;
      AllPages();
      TablesAll(y, o1, d);
      TablesEnd(y, o1, d);
      TablesFewer(o1, d, ENTRIES);
      DirTable(y, o1, d);
      DropDir(y, o1, d);
      PartsDrop(lo, hi, list, o1, held, d);
      dirs := dirs - {d};
      owner := Without(o1, d);
      held := held + Tables(o1, d, 0);
      DroppedSelf(y, o1, d);
      var i := 0;
      while i < ENTRIES
        invariant i <= ENTRIES && Valid() && dirs == y.dirs - {d} && owner == Without(o1, d)
        invariant held == h + Tables(o1, d, i)
        invariant d < frames.Length && frames[d] == y.m[d]
        invariant Dropped(y, X(), o1, d)
      {
        TablesStep(y, o1, d, i);
        PdeIs(y.m, d, i);
        TablesFewer(o1, d, i);
        if frames[d].e[i].Entry? {
          FreeHeld(frames[d].e[i].ppn, y, o1, d);
        }
        i := i + 1;
      }
      FreeHeld(d, y, o1, d);
      DroppedOn(x, y, X(), o, o1, d);
    }

    /** kfree, inside freevm. */
    method FreeHeld(f: nat, ghost y: Mem, ghost o1: Owner, ghost d: nat)
      requires Valid() && f in held && owner == Without(o1, d) && Dropped(y, X(), o1, d)
      modifies frames, `head, `list, `held
      ensures Valid() && held == old(held) - {f} && Dropped(y, X(), o1, d)
      ensures forall g: nat :: g < frames.Length && g != f ==> frames[g] == old(frames[g])
    {
      hide FreeList, Parts, Own, Walk, Touches, Pde, Without, Dropped;
      ghost var x := X();
      Kfree(f);
      assert X() == Put(x, f, frames[f]);
      PutOwn(x, owner, f, frames[f]);
      DroppedPut(y, x, o1, d, f, frames[f], owner);
    }

    /** A directory with the kernel's mappings, or None when out of memory. */
    method Setupkvm(kmap: seq<Kmap>) returns (r: Option<nat>)
      requires Valid() && KmapOk(kmap)
      modifies frames, `head, `list, `held, `owner, `dirs
      ensures Valid() && held == old(held)
      ensures r.Some? ==>
        (&& Added(old(X()), X(), old(owner), owner, r.value) && Unmapped(X().m, r.value, 0, KERNPAGE)
         && KernelMapped(X().m, r.value, kmap, |kmap|))
      ensures r.Some? ==> forall k :: 0 <= k < |kmap| ==>
        Allows(X().m, r.value, kmap[k].virt, kmap[k].virt + kmap[k].pages, kmap[k].perm)
      ensures r.None? ==> Restored(old(X()), X(), old(owner), owner)
      ensures r.Some? <==> 1 + |KmapSlots(kmap, |kmap|)| <= |old(list)|
      ensures r.Some? ==> |old(list)| == |list| + 1 + |KmapSlots(kmap, |kmap|)|
      ensures r.Some? ==> Tabled(X().m, r.value) == KmapSlots(kmap, |kmap|) && KernelClosed(X().m, r.value)
    {
      hide Kmem, Own, Walk, Touches, Pde, Without, Dropped, Added, Restored, KmapOk, KernelClosed, Tabled, Slots, KmapSlots,
        KernelSoFar;
      ghost var x, o := X(), owner;
      r := NewDirectory();
      if r.None? {
        RestoredSelf(x, o);
        return;
      }
      var d := r.value;
      NoneMapped(X().m, d, kmap);
      var k := 0;
      while k < |kmap|
        invariant k <= |kmap| && Valid() && held == old(held) && d in dirs
        invariant Added(x, X(), o, owner, d) && KernelSoFar(X().m, d, kmap, k)
        invariant |old(list)| == |list| + 1 + |KmapSlots(kmap, k)|
      {
        ghost var y, o1 := X(), owner;
        KmapSlotsFewer(kmap, k + 1);
        var e := MapKernel(d, kmap, k);
        AddedOn(x, y, X(), o, o1, owner, d, kmap[k].virt, kmap[k].virt + kmap[k].pages);
        if e < 0 {
          ghost var z, o2 := X(), owner;
          Freevm(d);
          AddedBack(x, z, X(), o, o2, d);
          return None;
        }
        k := k + 1;
      }
      AllMapped(X().m, d, kmap);
      KernelAllows(X(), owner, d, kmap);
    }

    /** kalloc, and the frame an empty directory. */
    method NewDirectory() returns (r: Option<nat>)
      requires Valid()
      modifies frames, `head, `list, `held, `owner, `dirs
      ensures Valid() && held == old(held) && (r.None? <==> old(list) == [])
      ensures r.None? ==> X() == old(X()) && owner == old(owner)
      ensures r.Some? ==>
        && r.value in dirs && |old(list)| == |list| + 1 && Added(old(X()), X(), old(owner), owner, r.value)
        && Unmapped(X().m, r.value, 0, PAGES) && Tabled(X().m, r.value) == {}
    {
      hide FreeList, Parts, Own, Walk, Added, Tabled;
      ghost var x, o := X(), owner;
      r := Kalloc();
      if r.None? {
        return;
      }
      var d := r.value;
      NewDirAdded(x, o, d);
      NewDirTabled(x, d);
      PartsGive(lo, hi, list, o, held, d, Root(d));
      FreeListPut(frames[..], head, list, d, Table(NoEntries()));
      frames[d] := Table(NoEntries());
      dirs := dirs + {d};
      owner := owner[d := Root(d)];
      held := held - {d};
      assert X() == NewDir(x, d);
    }

    /** One round of setupkvm's loop. */
    method MapKernel(d: nat, kmap: seq<Kmap>, k: nat) returns (e: int)
      requires Valid() && d in dirs && KmapOk(kmap) && k < |kmap| && KernelSoFar(X().m, d, kmap, k)
      modifies frames, `head, `list, `held, `owner
      ensures Valid() && held == old(held) && (e == 0 || e == -1)
      ensures Touches(old(X()), X(), old(owner), owner, d, kmap[k].virt, kmap[k].virt + kmap[k].pages)
      ensures e == 0 <==> |KmapSlots(kmap, k + 1)| <= |old(list)| + |KmapSlots(kmap, k)|
      ensures e == 0 ==>
        && KernelSoFar(X().m, d, kmap, k + 1)
        && |old(list)| + |KmapSlots(kmap, k)| == |list| + |KmapSlots(kmap, k + 1)|
    {
      hide Kmem, Own, Walk, Touches, Pde, KmapOk, KernelClosed, Tabled, Slots, KmapSlots, KernelMapped, KernelRoom;
      ghost var y, o1 := X(), owner;
      KmapFacts(kmap, k);
      KernelRoomAt(y.m, d, kmap, k);
      KmapSlotsNext(kmap, k);
      ghost var done;
      OnePage(kmap[k].virt, kmap[k].pages);
      e, done := Mappages(d, kmap[k].virt * PGSIZE, kmap[k].pages * PGSIZE, kmap[k].phys, kmap[k].perm);
      if e == 0 {
        KernelOn(y, X(), o1, owner, d, kmap, k);
        ClosedOn(y, X(), o1, owner, d, kmap[k]);
      }
    }

    /** A copy of the pages below sz, or None and nothing changed.  The panics are the requires. */
    method Copyuvm(d: nat, sz: nat, kmap: seq<Kmap>) returns (r: Option<nat>)
      requires Valid() && d in dirs && KmapOk(kmap) && sz <= KERNPAGE * PGSIZE
      requires forall v: nat :: v < Pages(sz) ==> Walk(X().m, d, v).Entry?
      modifies frames, `head, `list, `held, `owner, `dirs
      ensures Valid() && held == old(held)
      ensures r.Some? ==>
        (&& Added(old(X()), X(), old(owner), owner, r.value)
         && Copied(old(X()).m, X().m, old(owner), d, r.value, Pages(sz))
         && (forall v: nat :: v < Pages(sz) ==> Access(X().m, r.value, v) == Access(old(X()).m, d, v))
         && Unmapped(X().m, r.value, Pages(sz), KERNPAGE) && KernelClosed(X().m, r.value))
      ensures r.None? ==> Restored(old(X()), X(), old(owner), owner)
      ensures r.Some? <==> 1 + |KmapSlots(kmap, |kmap|)| + Pages(sz) + |Slots(0, Pages(sz))| <= |old(list)|
      ensures r.Some? ==> |old(list)| == |list| + 1 + |KmapSlots(kmap, |kmap|)| + Pages(sz) + |Slots(0, Pages(sz))|
    {
      hide FreeList, Parts, Own, Walk, Touches, Pde, Without, Dropped, Added, Restored, KmapOk, Pages, Page, KernelClosed,
        Tabled, Slots, Counted, Lacks;
      ghost var x, o := X(), owner;
      r := Setupkvm(kmap);
      if r.None? {
        return;
      }
      var nd := r.value;
      AddedDir(x, X(), o, owner, nd);
      PagesBelow(sz, sz);
      ghost var t0, n0 := Tabled(X().m, nd), |list|;
      CountedNone(t0, 0, n0);
      KernelApart(kmap, Pages(sz));
      var i := 0;
      while i * PGSIZE < sz
        invariant i <= Pages(sz) <= KERNPAGE && Valid() && held == old(held) && nd in dirs
        invariant Added(x, X(), o, owner, nd)
        invariant Copied(x.m, X().m, o, d, nd, i) && Unmapped(X().m, nd, i, KERNPAGE)
        invariant Counted(t0, Tabled(X().m, nd), 0, i, n0, |list| + i)
        invariant KernelClosed(X().m, nd)
        decreases sz - i * PGSIZE
      {
        PagesIs(sz, i);
        ghost var y, o1 := X(), owner;
        ghost var t1, l1 := Tabled(y.m, nd), |list|;
        CountedMeans(t0, t1, 0, i, Pages(sz), n0, l1 + i);
        var ok := CopyPage(x, o, d, nd, i);
        if !ok {
          ghost var z, o2 := X(), owner;
          Freevm(nd);
          AddedBack(x, z, X(), o, o2, nd);
          return None;
        }
        CountedNext(t0, t1, Tabled(X().m, nd), 0, i, n0, l1 + i, |list| + 1 + i);
        i := i + 1;
      }
      PagesIs(sz, i);
      CountedMeans(t0, Tabled(X().m, nd), 0, i, Pages(sz), n0, |list| + i);
      CopiedAllows(x, X(), o, owner, d, nd, Pages(sz));
    }

    /** One round of copyuvm's loop. */
    method CopyPage(ghost x: Mem, ghost o: Owner, d: nat, nd: nat, v: nat) returns (ok: bool)
      requires Valid() && Own(x, o) && d in x.dirs && nd in dirs && v < KERNPAGE
      requires Added(x, X(), o, owner, nd) && Walk(x.m, d, v).Entry?
      requires Copied(x.m, X().m, o, d, nd, v) && Unmapped(X().m, nd, v, KERNPAGE)
      modifies frames, `head, `list, `held, `owner
      ensures Valid() && held == old(held) && nd in dirs
      ensures Added(x, X(), o, owner, nd)
      ensures ok ==> Copied(x.m, X().m, o, d, nd, v + 1) && Unmapped(X().m, nd, v + 1, KERNPAGE)
      ensures KernelClosed(old(X()).m, nd) ==> KernelClosed(X().m, nd)
      ensures ok <==> 1 + Lacks(Tabled(old(X()).m, nd), v / ENTRIES) <= |old(list)|
      ensures ok ==>
        && Tabled(X().m, nd) == Tabled(old(X()).m, nd) + {v / ENTRIES}
        && |old(list)| == |list| + 1 + Lacks(Tabled(old(X()).m, nd), v / ENTRIES)
    {
      hide FreeList, Parts, Own, Walk, Touches, Pde, Added, Page, KernelClosed, Tabled;
      ghost var y, o1 := X(), owner;
      SamePage(x, y, o, o1, nd, d, v);
      var t := Walkpgdir(d, v, false);
      HasTable(y, o1, d, v);
      WalkIs(y.m, d, v, t.value);
      var pte := frames[t.value].e[v % ENTRIES];
      ghost var bytes := frames[pte.ppn].bytes;
      var mem := NewPage(frames[pte.ppn].bytes);
      if mem.None? {
        return false;
      }
      ghost var z := X();
      SameUnmapped(y, z, o1, nd, v, KERNPAGE);
      SameTabled(y, o1, mem.value, Frame.Data(bytes), nd);
      var e := MapNew(nd, v, mem.value, pte.flags);
      ghost var w, o2 := X(), owner;
      TouchesMore(y, z, o1, o1, nd, v, v, v, v + 1);
      TouchesOn(y, z, w, o1, o1, o2, nd, v, v + 1);
      TouchesClosed(y, w, o1, o2, nd, v, v + 1, nd);
      AddedOn(x, y, w, o, o1, o2, nd, v, v + 1);
      if e < 0 {
        Kfree(mem.value);
        assert X() == Put(w, mem.value, frames[mem.value]);
        PutOwn(w, o2, mem.value, frames[mem.value]);
        PutTouches(w, o2, mem.value, frames[mem.value], nd, v, v);
        AddedOn(x, w, X(), o, o2, o2, nd, v, v);
        TouchesClosed(w, X(), o2, o2, nd, v, v, nd);
        return false;
      }
      NotIn(x, y, o, o1, nd, mem.value);
      CopiedOn(x, y, w, o, o1, o2, d, nd, v, mem.value);
      ok := true;
    }

    /** p written at user address va; done bytes before the first page the user may not access. */
    method Copyout(d: nat, va: nat, p: seq<byte>) returns (r: int, ghost done: nat)
      requires Valid() && d in dirs && va + |p| <= PAGES * PGSIZE && KernelClosed(X().m, d)
      requires forall v: nat :: p != [] && va / PGSIZE <= v && v * PGSIZE < va + |p| ==> Pde(X().m, d, v / ENTRIES).Entry?
      modifies frames
      ensures Valid()
      ensures r == 0 || r == -1
      ensures done <= |p| && Wrote(old(X()), X(), d, va, p[..done])
      ensures r == 0 ==> done == |p| && Accessible(old(X()).m, d, va, |p|)
      ensures r == -1 ==> done < |p| && !UserPage(old(X()).m, d, (va + done) / PGSIZE)
    {
      hide FreeList, Parts, Own, Walk, Pde, Wrote, UserPage;
      ghost var x := X();
      WroteNothing(x, d, va);
      done := 0;
      assert p[..done] == [];
      var a, i := va, 0;
      while i < |p|
        invariant i <= |p| && done == i && (i < |p| ==> a == va + i)
        invariant Valid() && d in dirs && KernelClosed(X().m, d) && Wrote(x, X(), d, va, p[..i])
        invariant Accessible(x.m, d, va, i)
      {
        assert a / PGSIZE * PGSIZE <= a < va + |p| && va / PGSIZE <= a / PGSIZE;
        ghost var y := X();
        SameAccess(x, y, d, va, p[..i], a / PGSIZE);
        SamePde(x, y, d, va, p[..i], a / PGSIZE);
        var f := Uva2ka(d, a / PGSIZE);
        if f.None? {
          return -1, done;
        }
        var n := PGSIZE - a % PGSIZE;
        if n > |p| - i {
          n := |p| - i;
        }
        WritePage(d, a / PGSIZE, f.value, a % PGSIZE, p[i..i + n]);
        assert a == a / PGSIZE * PGSIZE + a % PGSIZE;
        WroteOn(x, y, X(), d, va, p[..i], p[i..i + n]);
        assert p[..i] + p[i..i + n] == p[..i + n];
        ReachOn(x.m, d, va, i, n);
        i := i + n;
        done := i;
        a := a / PGSIZE * PGSIZE + PGSIZE;
      }
      assert p[..i] == p;
      r := 0;
    }

    /** The frame behind a page the user may access. */
    method Uva2ka(d: nat, v: nat) returns (f: Option<nat>)
      requires Valid() && d in dirs && v < PAGES && Pde(X().m, d, v / ENTRIES).Entry?
      ensures f.Some? <==> UserPage(X().m, d, v)
      ensures f.Some? ==> Walk(X().m, d, v).Entry? && f.value == Walk(X().m, d, v).ppn
    {
      hide FreeList, Parts, Own, Walk, Pde;
      DirTable(X(), owner, d);
      OwnTab(X(), owner, d, v / ENTRIES);
      PdeIs(frames[..], d, v / ENTRIES);
      var t := frames[d].e[v / ENTRIES].ppn;
      WalkIs(frames[..], d, v, t);
      var pte := frames[t].e[v % ENTRIES];
      if pte.Absent? || !pte.flags.u {
        return None;
      }
      return Some(pte.ppn);
    }

    /** memmove to a user page. */
    method WritePage(d: nat, v: nat, f: nat, o: nat, s: seq<byte>)
      requires Valid() && d in dirs && KernelClosed(X().m, d) && v < PAGES && UserPage(X().m, d, v)
      requires f == Walk(X().m, d, v).ppn && o + |s| <= PGSIZE
      modifies frames
      ensures Valid() && KernelClosed(X().m, d) && Wrote(old(X()), X(), d, v * PGSIZE + o, s)
    {
      hide FreeList, Parts, Own, Walk, Pde, Wrote;
      ghost var x := X();
      WriteFrame(x, owner, d, v, o, s);
      DirNotFree(lo, hi, list, owner, held, f);
      FreeListPut(frames[..], head, list, f, Frame.Data(Blit(frames[f].bytes, o, s)));
      frames[f] := Frame.Data(Blit(frames[f].bytes, o, s));
      assert X() == Put(x, f, frames[f]);
      StillClosed(x, X(), d, v * PGSIZE + o, s);
    }
  }

  /** A frame that no directory uses can change unseen. */
  lemma PutTouches(x: Mem, owner: Owner, f: nat, fr: Frame, d: nat, a: nat, b: nat)
    requires Own(x, owner) && f !in owner && f < |x.m|
    ensures Touches(x, Put(x, f, fr), owner, owner, d, a, b)
  {
    hide Walk, Own;
    forall e: nat, u: nat | e in x.dirs ensures Walk(Put(x, f, fr).m, e, u) == Walk(x.m, e, u) {
      PutWalk(x, owner, f, fr, e, u);
    }
  }

  lemma SameUnmapped(x: Mem, y: Mem, owner: Owner, d: nat, a: nat, b: nat)
    requires Touches(x, y, owner, owner, d, a, a) && d in x.dirs && Unmapped(x.m, d, a, b) && b <= PAGES
    ensures Unmapped(y.m, d, a, b)
  {
    hide Walk;
  }

  lemma SameZeroed(x: Mem, y: Mem, owner: Owner, d: nat, a: nat, b: nat)
    requires Own(x, owner) && Touches(x, y, owner, owner, d, a, a) && d in x.dirs && Zeroed(x.m, d, a, b) && b <= KERNPAGE
    ensures Zeroed(y.m, d, a, b)
  {
    hide Walk, Own, Touches, Page;
    forall v: nat | a <= v < b ensures Page(y.m, d, v) == Page(x.m, d, v) {
      TouchesPage(x, y, owner, owner, d, a, a, d, v);
    }
  }

  lemma GrowsZeroed(x: Mem, y: Mem, o: Owner, o': Owner, d: nat, lo: nat, a: nat, hi: nat, f: nat)
    requires Own(x, o) && Touches(x, y, o, o', d, a, a + 1) && d in x.dirs && lo <= a < hi <= KERNPAGE
    requires Zeroed(x.m, d, lo, a) && Unmapped(x.m, d, a, hi)
    requires Walk(y.m, d, a) == Entry(f, Flags(true, true)) && f < |y.m| && y.m[f] == Frame.Data(Frames.Zeros())
    ensures Zeroed(y.m, d, lo, a + 1) && Unmapped(y.m, d, a + 1, hi)
  {
    hide Own, Walk;
    forall v: nat | lo <= v < a ensures Page(y.m, d, v) == Page(x.m, d, v) {
      TouchesPage(x, y, o, o', d, a, a + 1, d, v);
    }
  }

  /** The pages that size bytes from va lie in: First(va) to End(va, size) - 1. */
  function First(va: nat): nat {
    va / PGSIZE
  }

  function End(va: nat, size: nat): nat
    requires 0 < size
  {
    (va + size - 1) / PGSIZE + 1
  }

  lemma RangeFacts(va: nat, size: nat)
    requires 0 < size
    ensures First(va) == va / PGSIZE && End(va, size) == (va + size - 1) / PGSIZE + 1
    ensures First(va) < End(va, size)
    ensures va + size <= PAGES * PGSIZE ==> End(va, size) <= PAGES
    ensures va < KERNPAGE * PGSIZE <==> First(va) < KERNPAGE
    ensures va + size <= KERNPAGE * PGSIZE ==> End(va, size) <= KERNPAGE
  {
  }

  /** Whole pages. */
  lemma OnePage(v: nat, n: nat)
    requires 0 < n
    ensures First(v * PGSIZE) == v && End(v * PGSIZE, n * PGSIZE) == v + n
  {
  }

  /** Pages va to end - 1 are mapped to consecutive frames from pa. */
  ghost predicate MappedTo(m: seq<Frame>, d: nat, va: nat, end: nat, pa: nat, fl: Flags) {
    forall v: nat :: va <= v < end ==> Walk(m, d, v) == Entry(pa + (v - va), fl)
  }

  /** Both levels of the tables together give these rights at pages a to b - 1. */
  ghost predicate Allows(m: seq<Frame>, d: nat, a: nat, b: nat, fl: Flags) {
    forall v: nat :: a <= v < b ==> Access(m, d, v) == Some(fl)
  }

  lemma PdeOpen(x: Mem, owner: Owner, d: nat, i: nat)
    requires Own(x, owner) && d in x.dirs
    ensures Pde(x.m, d, i).Entry? ==> Pde(x.m, d, i) == Entry(Pde(x.m, d, i).ppn, Flags(true, true))
  {
  }

  lemma MappedAllows(x: Mem, owner: Owner, d: nat, a: nat, b: nat, pa: nat, fl: Flags)
    requires Own(x, owner) && d in x.dirs && MappedTo(x.m, d, a, b, pa, fl)
    ensures Allows(x.m, d, a, b, fl)
  {
    hide Own, Walk, Access;
    forall v: nat | a <= v < b ensures Access(x.m, d, v) == Some(fl) {
      AccessIs(x, owner, d, v);
    }
  }

  lemma ZeroedAllows(x: Mem, owner: Owner, d: nat, a: nat, b: nat)
    requires Own(x, owner) && d in x.dirs && Zeroed(x.m, d, a, b)
    ensures Allows(x.m, d, a, b, Flags(true, true))
  {
    hide Own, Walk, Access;
    forall v: nat | a <= v < b ensures Access(x.m, d, v) == Some(Flags(true, true)) {
      AccessIs(x, owner, d, v);
      assert Page(x.m, d, v) == Some((Frames.Zeros(), Flags(true, true)));
    }
  }

  lemma KernelAllows(x: Mem, owner: Owner, d: nat, kmap: seq<Kmap>)
    requires Own(x, owner) && d in x.dirs && KernelMapped(x.m, d, kmap, |kmap|)
    ensures forall k :: 0 <= k < |kmap| ==>
      Allows(x.m, d, kmap[k].virt, kmap[k].virt + kmap[k].pages, kmap[k].perm)
  {
    hide Own, MappedTo, Allows;
    forall k | 0 <= k < |kmap| ensures Allows(x.m, d, kmap[k].virt, kmap[k].virt + kmap[k].pages, kmap[k].perm) {
      assert MappedTo(x.m, d, kmap[k].virt, kmap[k].virt + kmap[k].pages, kmap[k].phys, kmap[k].perm);
      MappedAllows(x, owner, d, kmap[k].virt, kmap[k].virt + kmap[k].pages, kmap[k].phys, kmap[k].perm);
    }
  }

  /** The child may do at each page what the parent may. */
  lemma CopiedAllows(x: Mem, y: Mem, o: Owner, o': Owner, d: nat, nd: nat, n: nat)
    requires Own(x, o) && Own(y, o') && d in x.dirs && nd in y.dirs && Copied(x.m, y.m, o, d, nd, n)
    ensures forall v: nat :: v < n ==> Access(y.m, nd, v) == Access(x.m, d, v)
  {
    hide Own, Walk, Access;
    forall v: nat | v < n ensures Access(y.m, nd, v) == Access(x.m, d, v) {
      AccessIs(x, o, d, v);
      AccessIs(y, o', nd, v);
      assert Page(y.m, nd, v) == Page(x.m, d, v) && Page(x.m, d, v).Some?;
    }
  }

  lemma KeepsEarlier(x: Mem, y: Mem, o: Owner, o': Owner, d: nat, va: nat, a: nat, end: nat, pa: nat, fl: Flags)
    requires Touches(x, y, o, o', d, a, a + 1) && d in x.dirs && va <= a < end <= PAGES
    requires MappedTo(x.m, d, va, a, pa, fl)
    requires Walk(y.m, d, a) == Entry(pa + (a - va), fl) && Unmapped(x.m, d, a, end)
    ensures MappedTo(y.m, d, va, a + 1, pa, fl) && Unmapped(y.m, d, a + 1, end)
  {
    hide Walk;
  }

  /** A refused page leaves the pages before it mapped and itself and those after it not. */
  lemma RefusedPage(x: Mem, y: Mem, o: Owner, o': Owner, d: nat, va: nat, a: nat, end: nat, pa: nat, fl: Flags)
    requires Touches(x, y, o, o', d, a, a + 1) && d in x.dirs && va <= a < end <= PAGES
    requires MappedTo(x.m, d, va, a, pa, fl) && Walk(y.m, d, a) == Absent && Unmapped(x.m, d, a, end)
    ensures MappedTo(y.m, d, va, a, pa, fl) && Unmapped(y.m, d, a, end)
  {
    hide Walk;
  }

  // ----- how many tables a range needs

  /** The directory entries that pages a to b - 1 fall under. */
  ghost function Slots(a: nat, b: nat): set<nat> {
    if a < b then Between(a / ENTRIES, (b - 1) / ENTRIES + 1) else {}
  }

  /** The directory entries that have a table. */
  ghost function Tabled(m: seq<Frame>, d: nat): set<nat> {
    set i: nat | i < ENTRIES && Pde(m, d, i).Entry?
  }

  function Lacks(t: set<nat>, i: nat): nat {
    if i in t then 0 else 1
  }

  lemma TabledAt(m: seq<Frame>, d: nat, i: nat)
    requires i < ENTRIES
    ensures i in Tabled(m, d) <==> Pde(m, d, i).Entry?
  {
  }

  lemma NewTableTabled(x: Mem, owner: Owner, d: nat, i: nat, t: nat)
    requires Own(x, owner) && d in x.dirs && i < ENTRIES && t !in owner && t < |x.m| && TableAt(x.m, d)
    ensures Tabled(NewTable(x, d, i, t).m, d) == Tabled(x.m, d) + {i}
  {
    DirTable(x, owner, d);
  }

  /** Writing an entry of a table changes no directory. */
  lemma EntryTabled(x: Mem, owner: Owner, d: nat, v: nat, t: nat, p: Pte)
    requires Own(x, owner) && d in x.dirs && v < PAGES && TableAt(x.m, t)
    requires Target(Pde(x.m, d, v / ENTRIES)) == Some(t)
    ensures Tabled(PutEntry(x, t, v % ENTRIES, p).m, d) == Tabled(x.m, d)
  {
    hide Pde, Own, TableAt, PutEntry;
    forall i: nat ensures Pde(PutEntry(x, t, v % ENTRIES, p).m, d, i) == Pde(x.m, d, i) {
      SetPtePde(x, owner, d, v, t, p, d, i);
    }
  }

  /** A frame that no directory uses is no directory. */
  lemma SameTabled(x: Mem, owner: Owner, f: nat, fr: Frame, d: nat)
    requires Own(x, owner) && f !in owner && f < |x.m| && d in x.dirs
    ensures Tabled(Put(x, f, fr).m, d) == Tabled(x.m, d)
  {
    DirTable(x, owner, d);
  }

  lemma NewDirTabled(x: Mem, d: nat)
    requires d < |x.m|
    ensures Tabled(NewDir(x, d).m, d) == {}
  {
  }

  /** From t0 to t the tables for pages va to a - 1 were added, and n0 frames became n. */
  ghost predicate Counted(t0: set<nat>, t: set<nat>, va: nat, a: nat, n0: nat, n: nat) {
    t == t0 + Slots(va, a) && n0 == n + |Slots(va, a) - t0|
  }

  lemma CountedNone(t0: set<nat>, va: nat, n: nat)
    ensures Counted(t0, t0, va, va, n, n)
  {
  }

  lemma SlotsNext(va: nat, a: nat)
    requires va <= a
    ensures Slots(va, a + 1) == Slots(va, a) + {a / ENTRIES}
  {
  }

  lemma OneSlot(t: set<nat>, v: nat)
    ensures Slots(v, v + 1) == {v / ENTRIES} && |Slots(v, v + 1) - t| == Lacks(t, v / ENTRIES)
  {
    SlotsNext(v, v);
    assert Slots(v, v + 1) == {v / ENTRIES};
    assert Slots(v, v + 1) - t == if v / ENTRIES in t then {} else {v / ENTRIES};
  }

  lemma LacksOn(s: set<nat>, t: set<nat>, i: nat)
    ensures |s + {i} - t| == |s - t| + Lacks(t + s, i)
  {
    if i in t + s {
      assert s + {i} - t == s - t;
    } else {
      assert s + {i} - t == (s - t) + {i};
    }
  }

  lemma CountedNext(t0: set<nat>, t: set<nat>, t': set<nat>, va: nat, a: nat, n0: nat, n: nat, n': nat)
    requires Counted(t0, t, va, a, n0, n) && va <= a
    requires t' == t + {a / ENTRIES} && n == n' + Lacks(t, a / ENTRIES)
    ensures Counted(t0, t', va, a + 1, n0, n')
  {
    hide Slots;
    SlotsNext(va, a);
    LacksOn(Slots(va, a), t0, a / ENTRIES);
  }

  /** Up to page end at least as many frames are taken, and one more if the next table is missing. */
  lemma CountedMeans(t0: set<nat>, t: set<nat>, va: nat, a: nat, end: nat, n0: nat, n: nat)
    requires Counted(t0, t, va, a, n0, n) && va <= a <= end
    ensures t == t0 + Slots(va, a) && n0 == n + |Slots(va, a) - t0|
    ensures |Slots(va, a) - t0| <= |Slots(va, end) - t0|
    ensures a < end ==> |Slots(va, a) - t0| + Lacks(t, a / ENTRIES) <= |Slots(va, end) - t0|
  {
    SlotsUpTo(va, a, end);
    SubsetSize(Slots(va, a) - t0, Slots(va, end) - t0);
    if a < end {
      SlotsNext(va, a);
      SlotsUpTo(va, a + 1, end);
      LacksOn(Slots(va, a), t0, a / ENTRIES);
      SubsetSize(Slots(va, a + 1) - t0, Slots(va, end) - t0);
    }
  }

  lemma SlotsUpTo(va: nat, a: nat, end: nat)
    requires a <= end
    ensures Slots(va, a) <= Slots(va, end)
  {
  }

  /** Frames pa to pa + n - 1 belong to the caller and hold bytes. */
  ghost predicate InHand(m: seq<Frame>, held: set<nat>, pa: nat, n: nat) {
    forall f: nat :: pa <= f < pa + n ==> f in held && DataAt(m, f)
  }

  /** Mappages' loop stands before page a: the pages before it are mapped, and nothing else has changed. */
  ghost predicate MappedSoFar(x: Mem, y: Mem, o: Owner, o': Owner, h: set<nat>, h': set<nat>, d: nat,
                              va: nat, a: nat, end: nat, pa: nat, fl: Flags)
  {
    && va <= a <= end <= PAGES && d in x.dirs
    && Touches(x, y, o, o', d, va, end)
    && MappedTo(y.m, d, va, a, pa, fl) && Unmapped(y.m, d, a, end)
    && h' == LeftInHand(h, va, pa, a - va)
    && KeepsBytes(x.m, y.m, o, h, o')
    && (va < KERNPAGE ==> end <= KERNPAGE && InHand(x.m, h, pa, end - va))
    && Handed(h, h', o')
  }

  /** What has left the caller's hands is a user's page. */
  ghost predicate Handed(h: set<nat>, h': set<nat>, o': Owner) {
    forall g: nat :: g in h ==> g in h' || (g in o' && o'[g].User?)
  }

  lemma HandedOn(h: set<nat>, h1: set<nat>, o1: Owner, f: nat, o2: Owner)
    requires Handed(h, h1, o1) && forall g: nat :: g in o1 && o1[g].User? ==> g in o2 && o2[g] == o1[g]
    ensures Handed(h, h1, o2) && (f in o2 && o2[f].User? ==> Handed(h, h1 - {f}, o2))
  {
  }

  lemma MappedNone(x: Mem, o: Owner, h: set<nat>, d: nat, va: nat, end: nat, pa: nat, fl: Flags)
    requires d in x.dirs && va <= end <= PAGES && Unmapped(x.m, d, va, end)
    requires va < KERNPAGE ==> end <= KERNPAGE && InHand(x.m, h, pa, end - va)
    ensures MappedSoFar(x, x, o, o, h, h, d, va, va, end, pa, fl)
  {
    hide Walk, DataAt;
    LeftNext(h, va, pa, 0);
  }

  lemma MappedMeans(x: Mem, y: Mem, o: Owner, o': Owner, h: set<nat>, h': set<nat>, d: nat,
                    va: nat, a: nat, end: nat, pa: nat, fl: Flags)
    requires MappedSoFar(x, y, o, o', h, h', d, va, a, end, pa, fl) && a < end
    ensures d in y.dirs && Walk(y.m, d, a) == Absent
    ensures a < KERNPAGE <==> va < KERNPAGE
    ensures va < KERNPAGE ==> pa + (a - va) in h' && DataAt(y.m, pa + (a - va))
  {
    hide Walk, DataAt, KeepsBytes, Touches, MappedTo, InHand, Handed;
    TouchesDirs(x, y, o, o', d, va, end);
    if va < KERNPAGE {
      StillInHand(x.m, y.m, o, o', h, pa, end - va, a - va);
    }
  }

  lemma MappedEnds(x: Mem, y: Mem, o: Owner, o': Owner, h: set<nat>, h': set<nat>, d: nat,
                   va: nat, a: nat, end: nat, pa: nat, fl: Flags)
    requires MappedSoFar(x, y, o, o', h, h', d, va, a, end, pa, fl)
    ensures Touches(x, y, o, o', d, va, end) && KeepsBytes(x.m, y.m, o, h, o')
    ensures MappedTo(y.m, d, va, a, pa, fl) && Unmapped(y.m, d, a, end)
    ensures h' == LeftInHand(h, va, pa, a - va)
  {
    hide Walk, DataAt, KeepsBytes, Touches;
  }

  /** One more round, which maps page a or is refused. */
  lemma MappedThen(x: Mem, y: Mem, z: Mem, o: Owner, o1: Owner, o2: Owner, h: set<nat>, h1: set<nat>, h2: set<nat>,
                   d: nat, va: nat, a: nat, end: nat, pa: nat, fl: Flags, ok: bool)
    requires MappedSoFar(x, y, o, o1, h, h1, d, va, a, end, pa, fl) && a < end
    requires Touches(y, z, o1, o2, d, a, a + 1) && KeepsBytes(y.m, z.m, o1, h1, o2)
    requires Walk(z.m, d, a) == if ok then Entry(pa + (a - va), fl) else Absent
    requires h2 == if ok && a < KERNPAGE then h1 - {pa + (a - va)} else h1
    requires ok && a < KERNPAGE ==> pa + (a - va) in o2 && o2[pa + (a - va)] == User(d, a)
    ensures MappedSoFar(x, z, o, o2, h, h2, d, va, if ok then a + 1 else a, end, pa, fl)
  {
    hide Walk, DataAt, KeepsBytes, Touches, MappedTo, Unmapped, InHand, Handed, LeftInHand;
    TouchesMore(y, z, o1, o2, d, a, a + 1, va, end);
    TouchesOn(x, y, z, o, o1, o2, d, va, end);
    KeepsThen(x.m, y.m, z.m, o, h, o1, h1, o2);
    TouchesDirs(x, y, o, o1, d, va, end);
    HandedOn(h, h1, o1, pa + (a - va), o2);
    if ok {
      KeepsEarlier(y, z, o1, o2, d, va, a, end, pa, fl);
      LeftNext(h, va, pa, a - va);
      assert a + 1 - va == a - va + 1;
    } else {
      RefusedPage(y, z, o1, o2, d, va, a, end, pa, fl);
    }
  }

  lemma TouchesDirs(x: Mem, y: Mem, o: Owner, o': Owner, d: nat, a: nat, b: nat)
    requires Touches(x, y, o, o', d, a, b)
    ensures y.dirs == x.dirs
  {
  }

  /** The held frames once n from pa have been mapped at va: user pages own theirs. */
  ghost function LeftInHand(h: set<nat>, va: nat, pa: nat, n: nat): set<nat> {
    if va < KERNPAGE then h - Between(pa, pa + n) else h
  }

  lemma LeftNext(h: set<nat>, va: nat, pa: nat, n: nat)
    ensures LeftInHand(h, va, pa, 0) == h
    ensures LeftInHand(h, va, pa, n + 1) == LeftInHand(h, va, pa, n) - if va < KERNPAGE then {pa + n} else {}
  {
    if va < KERNPAGE {
      assert h - Between(pa, pa) == h;
      BetweenOneMore(pa, n);
    }
  }

  lemma BetweenOneMore(pa: nat, n: nat)
    ensures Between(pa, pa + n + 1) == Between(pa, pa + n) + {pa + n}
  {
  }

  lemma OneInHand(m: seq<Frame>, held: set<nat>, f: nat)
    requires f in held && DataAt(m, f)
    ensures InHand(m, held, f, 1)
  {
  }

  /** Those not yet mapped still do. */
  lemma StillInHand(m: seq<Frame>, m': seq<Frame>, o: Owner, o': Owner, h: set<nat>, pa: nat, n: nat, done: nat)
    requires InHand(m, h, pa, n) && done < n && KeepsBytes(m, m', o, h, o')
    ensures pa + done in h - Between(pa, pa + done) && DataAt(m', pa + done)
    ensures forall va: nat :: pa + done in LeftInHand(h, va, pa, done)
  {
    assert pa + done in h;
  }

  /** Frames in somebody's hands, and users' pages, keep what they hold; users' pages keep their users. */
  ghost predicate KeepsBytes(m: seq<Frame>, m': seq<Frame>, o: Owner, held: set<nat>, o': Owner) {
    && |m'| == |m|
    && (forall g: nat :: g < |m| && (g in held || (g in o && o[g].User?)) ==> m'[g] == m[g])
    && (forall g: nat :: g in o && o[g].User? ==> g in o' && o'[g] == o[g])
  }

  lemma KeepsSelf(m: seq<Frame>, o: Owner, held: set<nat>)
    ensures KeepsBytes(m, m, o, held, o)
  {
  }

  lemma KeptFrame(m: seq<Frame>, m': seq<Frame>, o: Owner, held: set<nat>, o': Owner, f: nat)
    requires KeepsBytes(m, m', o, held, o') && f in held && f < |m|
    ensures f < |m'| && m'[f] == m[f]
  {
  }

  lemma KeepsTable(x: Mem, o: Owner, d: nat, i: nat, t: nat, held: set<nat>)
    requires Own(x, o) && d in x.dirs && i < ENTRIES && t < |x.m| && TableAt(x.m, d)
    requires t !in o && t !in held && d !in held
    ensures KeepsBytes(x.m, NewTable(x, d, i, t).m, o, held, o[t := Tab(d, i)])
  {
    DirTable(x, o, d);
  }

  lemma KeepsEntry(x: Mem, o: Owner, held: set<nat>, t: nat, j: nat, p: Pte)
    requires TableAt(x.m, t) && j < ENTRIES && t in o && !o[t].User? && t !in held
    ensures KeepsBytes(x.m, PutEntry(x, t, j, p).m, o, held, o)
  {
  }

  lemma KeepsMore(m: seq<Frame>, m': seq<Frame>, o: Owner, held: set<nat>, o1: Owner, o2: Owner)
    requires KeepsBytes(m, m', o, held, o1)
    requires forall g: nat :: g in o1 && o1[g].User? ==> g in o2 && o2[g] == o1[g]
    ensures KeepsBytes(m, m', o, held, o2)
  {
  }

  lemma KeepsOn(m: seq<Frame>, m1: seq<Frame>, m2: seq<Frame>, o: Owner, held: set<nat>, o1: Owner, o2: Owner)
    requires KeepsBytes(m, m1, o, held, o1) && KeepsBytes(m1, m2, o1, held, o2)
    ensures KeepsBytes(m, m2, o, held, o2)
  {
  }

  /** What left the caller's hands went to user pages, so that a second step keeps it too. */
  lemma KeepsThen(m: seq<Frame>, m1: seq<Frame>, m2: seq<Frame>, o: Owner, h: set<nat>, o1: Owner, h1: set<nat>, o2: Owner)
    requires KeepsBytes(m, m1, o, h, o1) && KeepsBytes(m1, m2, o1, h1, o2)
    requires Handed(h, h1, o1)
    ensures KeepsBytes(m, m2, o, h, o2)
    ensures forall g: nat :: g in o1 && o1[g].User? ==> g in o2 && o2[g] == o1[g]
  {
  }

  lemma PagesUp(sz: nat)
    ensures (sz + PGSIZE - 1) / PGSIZE == Pages(sz)
  {
  }

  lemma OneMore(m: seq<Frame>, d: nat, lo: nat, a: nat)
    requires Unmapped(m, d, lo, a) && Walk(m, d, a) == Absent
    ensures Unmapped(m, d, lo, a + 1)
  {
    hide Walk;
  }

  lemma StillUnmapped(x: Mem, y: Mem, o: Owner, o': Owner, d: nat, a: nat, lo: nat)
    requires Touches(x, y, o, o', d, a, a + 1) && d in x.dirs && a < PAGES
    requires Unmapped(x.m, d, lo, a) && Walk(y.m, d, a) == Absent
    ensures Unmapped(y.m, d, lo, a + 1)
  {
    hide Walk;
  }

  /** Where a table is missing, so are all the pages it would hold. */
  lemma Skips(m: seq<Frame>, d: nat, lo: nat, a: nat, hi: nat)
    requires Unmapped(m, d, lo, a) && Pde(m, d, a / ENTRIES) == Absent && lo <= a
    ensures var b := (a / ENTRIES + 1) * ENTRIES; a < b && Unmapped(m, d, lo, if b < hi then b else hi)
  {
    hide Walk, Pde;
    forall v: nat | a <= v < (a / ENTRIES + 1) * ENTRIES ensures Walk(m, d, v) == Absent {
      assert v / ENTRIES == a / ENTRIES;
      NoTable(m, d, a, v);
    }
  }

  lemma WalkIs(m: seq<Frame>, d: nat, v: nat, t: nat)
    requires Target(Pde(m, d, v / ENTRIES)) == Some(t) && TableAt(m, t)
    ensures Walk(m, d, v) == m[t].e[v % ENTRIES] && t < |m|
  {
  }

  lemma DataFacts(m: seq<Frame>, f: nat)
    requires DataAt(m, f)
    ensures f < |m| && !TableAt(m, f)
  {
  }

  lemma HeldFacts(lo: nat, hi: nat, list: seq<nat>, owner: Owner, held: set<nat>, f: nat)
    requires Parts(lo, hi, list, owner, held) && f in held
    ensures f !in owner && f !in list && lo <= f < hi
  {
  }

  lemma FreeListHead(m: seq<Frame>, head: Option<nat>, list: seq<nat>)
    requires FreeList(m, head, list)
    ensures head.None? <==> list == []
  {
  }

  lemma DirNotFree(lo: nat, hi: nat, list: seq<nat>, owner: Owner, held: set<nat>, d: nat)
    requires Parts(lo, hi, list, owner, held) && d in owner
    ensures d !in list && d !in held && lo <= d < hi
  {
  }

  lemma NewTableTouches(x: Mem, owner: Owner, d: nat, i: nat, t: nat, v: nat)
    requires Own(x, owner) && d in x.dirs && i < ENTRIES && t !in owner && t < |x.m| && Pde(x.m, d, i) == Absent
    ensures TableAt(x.m, d)
    ensures var y := NewTable(x, d, i, t);
      && Touches(x, y, owner, owner[t := Tab(d, i)], d, v, v) && y.dirs == x.dirs
      && (v < PAGES ==> Walk(y.m, d, v) == Walk(x.m, d, v))
  {
    hide Val, Walk, Pde;
    NewTableOwn(x, owner, d, i, t);
  }

  // ----- freevm

  /** Directory d has gone; the others and their pages are as they were. */
  ghost predicate Dropped(x: Mem, y: Mem, owner: Owner, d: nat) {
    && y.dirs == x.dirs - {d} && |y.m| == |x.m|
    && (forall e: nat, u: nat :: e in x.dirs && e != d && u < PAGES ==> Walk(y.m, e, u) == Walk(x.m, e, u))
    && (forall f: nat :: f in owner && owner[f].User? && owner[f].d != d && f < |x.m| ==> y.m[f] == x.m[f])
  }

  lemma DroppedSelf(x: Mem, owner: Owner, d: nat)
    ensures Dropped(x, Mem(x.m, x.dirs - {d}), owner, d)
  {
  }

  lemma DroppedPut(y: Mem, x: Mem, o1: Owner, d: nat, f: nat, fr: Frame, owner: Owner)
    requires Dropped(y, x, o1, d) && Own(x, owner) && f !in owner && f < |x.m| && owner == Without(o1, d)
    ensures Dropped(y, Put(x, f, fr), o1, d)
  {
    hide Walk, Own;
    forall e: nat, u: nat | e in x.dirs ensures Walk(Put(x, f, fr).m, e, u) == Walk(x.m, e, u) {
      PutWalk(x, owner, f, fr, e, u);
    }
  }

  lemma DroppedOn(x: Mem, y: Mem, z: Mem, o: Owner, o1: Owner, d: nat)
    requires Touches(x, y, o, o1, d, Pages(0), Pages(KERNPAGE * PGSIZE)) && Dropped(y, z, o1, d)
    ensures Dropped(x, z, o, d) && Without(o1, d) == Without(o, d)
  {
    hide Walk;
  }

  lemma AllPages()
    ensures Pages(0) == 0 && Pages(KERNPAGE * PGSIZE) == KERNPAGE
  {
  }

  lemma TablesFewer(owner: Owner, d: nat, i: nat)
    ensures Tables(owner, d, i) <= Tables(owner, d, 0)
  {
  }

  lemma PdeIs(m: seq<Frame>, d: nat, i: nat)
    requires TableAt(m, d) && i < ENTRIES
    ensures Pde(m, d, i) == m[d].e[i]
  {
  }

  lemma PartsDrop(lo: nat, hi: nat, list: seq<nat>, owner: Owner, held: set<nat>, d: nat)
    requires Parts(lo, hi, list, owner, held)
    requires Without(owner, d).Keys + Tables(owner, d, 0) == owner.Keys
    requires forall f: nat :: f in Tables(owner, d, 0) ==> f !in Without(owner, d)
    ensures Parts(lo, hi, list, Without(owner, d), held + Tables(owner, d, 0))
    ensures held !! Tables(owner, d, 0)
  {
    hide Without, Tables;
    assert forall f: nat :: f in owner <==> f in Without(owner, d) || f in Tables(owner, d, 0);
  }

  // ----- setupkvm

  datatype Kmap = Kmap(virt: nat, pages: nat, phys: nat, perm: Flags)

  /** The kernel's mappings lie above the user's, do not overlap, and are closed to the user. */
  ghost predicate KmapOk(kmap: seq<Kmap>) {
    && (forall k: nat :: k < |kmap| ==>
          KERNPAGE <= kmap[k].virt && 0 < kmap[k].pages && kmap[k].virt + kmap[k].pages <= PAGES && !kmap[k].perm.u)
    && (forall j: nat, k: nat :: j < k < |kmap| ==>
          kmap[j].virt + kmap[j].pages <= kmap[k].virt || kmap[k].virt + kmap[k].pages <= kmap[j].virt)
  }

  ghost predicate KernelMapped(m: seq<Frame>, d: nat, kmap: seq<Kmap>, n: nat) {
    forall k: nat :: k < n && k < |kmap| ==>
      MappedTo(m, d, kmap[k].virt, kmap[k].virt + kmap[k].pages, kmap[k].phys, kmap[k].perm)
  }

  /** The mappings still to be made meet nothing. */
  ghost predicate KernelRoom(m: seq<Frame>, d: nat, kmap: seq<Kmap>, n: nat) {
    forall k: nat :: n <= k < |kmap| ==> Unmapped(m, d, kmap[k].virt, kmap[k].virt + kmap[k].pages)
  }

  /** The directory entries that the first k mappings fall under. */
  ghost function KmapSlots(kmap: seq<Kmap>, k: nat): set<nat>
    requires k <= |kmap|
  {
    if k == 0 then {} else KmapSlots(kmap, k - 1) + Slots(kmap[k - 1].virt, kmap[k - 1].virt + kmap[k - 1].pages)
  }

  lemma KernelRoomAt(m: seq<Frame>, d: nat, kmap: seq<Kmap>, k: nat)
    requires KernelRoom(m, d, kmap, k) && k < |kmap|
    ensures Unmapped(m, d, kmap[k].virt, kmap[k].virt + kmap[k].pages)
  {
  }

  /** Directory d has the first k mappings, their tables, and nothing else. */
  ghost predicate KernelSoFar(m: seq<Frame>, d: nat, kmap: seq<Kmap>, k: nat) {
    && k <= |kmap| && Unmapped(m, d, 0, KERNPAGE) && KernelMapped(m, d, kmap, k) && KernelRoom(m, d, kmap, k)
    && Tabled(m, d) == KmapSlots(kmap, k) && KernelClosed(m, d)
  }

  lemma NoneMapped(m: seq<Frame>, d: nat, kmap: seq<Kmap>)
    requires Unmapped(m, d, 0, PAGES) && Tabled(m, d) == {} && KmapOk(kmap)
    ensures KernelSoFar(m, d, kmap, 0) && KmapSlots(kmap, 0) == {}
  {
    hide Walk, Tabled;
    StillRoom(m, d, kmap);
    NoneOpen(m, d);
  }

  lemma AllMapped(m: seq<Frame>, d: nat, kmap: seq<Kmap>)
    requires KernelSoFar(m, d, kmap, |kmap|)
    ensures Unmapped(m, d, 0, KERNPAGE) && KernelMapped(m, d, kmap, |kmap|)
    ensures Tabled(m, d) == KmapSlots(kmap, |kmap|) && KernelClosed(m, d)
  {
  }

  lemma {:induction false} KmapSlotsUpTo(kmap: seq<Kmap>, k: nat)
    requires k <= |kmap|
    ensures KmapSlots(kmap, k) <= KmapSlots(kmap, |kmap|)
    decreases |kmap| - k
  {
    hide Slots;
    if k < |kmap| {
      KmapSlotsUpTo(kmap, k + 1);
    }
  }

  lemma KmapSlotsFewer(kmap: seq<Kmap>, k: nat)
    requires k <= |kmap|
    ensures |KmapSlots(kmap, k)| <= |KmapSlots(kmap, |kmap|)|
  {
    hide KmapSlots;
    KmapSlotsUpTo(kmap, k);
    SubsetSize(KmapSlots(kmap, k), KmapSlots(kmap, |kmap|));
  }

  lemma KmapSlotsNext(kmap: seq<Kmap>, k: nat)
    requires k < |kmap|
    ensures var s := Slots(kmap[k].virt, kmap[k].virt + kmap[k].pages);
      && KmapSlots(kmap, k + 1) == KmapSlots(kmap, k) + s
      && |KmapSlots(kmap, k + 1)| == |KmapSlots(kmap, k)| + |s - KmapSlots(kmap, k)|
  {
    hide Slots;
    var s, t := Slots(kmap[k].virt, kmap[k].virt + kmap[k].pages), KmapSlots(kmap, k);
    assert t + s == t + (s - t);
  }

  /** The kernel's tables are not the user's. */
  lemma {:induction false} KernelSlots(kmap: seq<Kmap>, k: nat)
    requires KmapOk(kmap) && k <= |kmap|
    ensures forall i: nat :: i in KmapSlots(kmap, k) ==> KERNPAGE / ENTRIES <= i
  {
    if k > 0 {
      KernelSlots(kmap, k - 1);
      KmapFacts(kmap, k - 1);
    }
  }

  lemma KernelApart(kmap: seq<Kmap>, n: nat)
    requires KmapOk(kmap) && n <= KERNPAGE
    ensures |Slots(0, n) - KmapSlots(kmap, |kmap|)| == |Slots(0, n)|
  {
    KernelSlots(kmap, |kmap|);
    assert Slots(0, n) - KmapSlots(kmap, |kmap|) == Slots(0, n);
  }

  lemma KmapFacts(kmap: seq<Kmap>, k: nat)
    requires KmapOk(kmap) && k < |kmap|
    ensures KERNPAGE <= kmap[k].virt && 0 < kmap[k].pages && kmap[k].virt + kmap[k].pages <= PAGES && !kmap[k].perm.u
  {
  }

  lemma StillRoom(m: seq<Frame>, d: nat, kmap: seq<Kmap>)
    requires Unmapped(m, d, 0, PAGES) && KmapOk(kmap)
    ensures KernelRoom(m, d, kmap, 0) && Unmapped(m, d, 0, KERNPAGE)
  {
    hide Walk;
  }

  lemma KernelOn(x: Mem, y: Mem, o: Owner, o': Owner, d: nat, kmap: seq<Kmap>, k: nat)
    requires KmapOk(kmap) && k < |kmap| && d in x.dirs
    requires Touches(x, y, o, o', d, kmap[k].virt, kmap[k].virt + kmap[k].pages)
    requires MappedTo(y.m, d, kmap[k].virt, kmap[k].virt + kmap[k].pages, kmap[k].phys, kmap[k].perm)
    requires KernelMapped(x.m, d, kmap, k) && KernelRoom(x.m, d, kmap, k) && Unmapped(x.m, d, 0, KERNPAGE)
    ensures KernelMapped(y.m, d, kmap, k + 1) && KernelRoom(y.m, d, kmap, k + 1) && Unmapped(y.m, d, 0, KERNPAGE)
  {
    hide Walk;
    forall j: nat | j < k ensures
      MappedTo(y.m, d, kmap[j].virt, kmap[j].virt + kmap[j].pages, kmap[j].phys, kmap[j].perm)
    {
      assert MappedTo(x.m, d, kmap[j].virt, kmap[j].virt + kmap[j].pages, kmap[j].phys, kmap[j].perm);
    }
    forall j: nat | k < j < |kmap| ensures Unmapped(y.m, d, kmap[j].virt, kmap[j].virt + kmap[j].pages) {
      assert Unmapped(x.m, d, kmap[j].virt, kmap[j].virt + kmap[j].pages);
    }
  }

  /** As if nothing had been allocated. */
  ghost predicate Restored(x: Mem, y: Mem, o: Owner, o': Owner) {
    y.dirs == x.dirs && |y.m| == |x.m| && o' == o && SameWalk(x, y) && SameData(x, y, o)
  }

  lemma RestoredSelf(x: Mem, o: Owner)
    ensures Restored(x, x, o, o)
  {
  }

  lemma AddedDir(x: Mem, y: Mem, o: Owner, o1: Owner, d: nat)
    requires Added(x, y, o, o1, d)
    ensures d in y.dirs && d !in x.dirs && forall e: nat :: e in x.dirs ==> e in y.dirs
  {
  }

  lemma AddedBack(x: Mem, y: Mem, z: Mem, o: Owner, o1: Owner, d: nat)
    requires Own(x, o) && Added(x, y, o, o1, d) && Dropped(y, z, o1, d)
    ensures Restored(x, z, o, Without(o1, d))
  {
    hide Walk, Own;
    AddedDropped(x, y, o, o1, d);
    forall f: nat | f in o && o[f].User? && f < |x.m| ensures z.m[f] == x.m[f] {
      OwnerDir(x, o, f);
    }
  }

  // ----- copyuvm

  /** The first n pages of nd look like those of d, in frames that were not in use. */
  ghost predicate Copied(m: seq<Frame>, m': seq<Frame>, o: Owner, d: nat, nd: nat, n: nat) {
    forall v: nat :: v < n ==>
      Page(m', nd, v) == Page(m, d, v) && Page(m, d, v).Some? && Walk(m', nd, v).Entry? && Walk(m', nd, v).ppn !in o
  }

  lemma SamePage(x: Mem, y: Mem, o: Owner, o1: Owner, nd: nat, d: nat, v: nat)
    requires Own(x, o) && Added(x, y, o, o1, nd) && d in x.dirs && v < KERNPAGE && Walk(x.m, d, v).Entry?
    ensures Walk(y.m, d, v) == Walk(x.m, d, v) && d in y.dirs
    ensures var f := Walk(x.m, d, v).ppn;
      && f < |y.m| && DataAt(y.m, f) && y.m[f] == x.m[f]
      && Page(x.m, d, v) == Some((y.m[f].bytes, Walk(x.m, d, v).flags))
  {
    hide Walk;
    UserVal(x, d, v);
    OwnFacts(x, o, User(d, v));
  }

  lemma HasTable(x: Mem, owner: Owner, d: nat, v: nat)
    requires Own(x, owner) && d in x.dirs && Walk(x.m, d, v).Entry?
    ensures Pde(x.m, d, v / ENTRIES).Entry? && TableAt(x.m, Pde(x.m, d, v / ENTRIES).ppn)
  {
  }

  lemma NotIn(x: Mem, y: Mem, o: Owner, o1: Owner, nd: nat, f: nat)
    requires Added(x, y, o, o1, nd) && f !in o1
    ensures f !in o
  {
  }

  lemma CopiedOn(x: Mem, y: Mem, w: Mem, o: Owner, o1: Owner, o2: Owner, d: nat, nd: nat, v: nat, f: nat)
    requires Own(x, o) && Own(y, o1) && Added(x, y, o, o1, nd) && d in x.dirs && v < KERNPAGE
    requires Touches(y, w, o1, o2, nd, v, v + 1) && nd in y.dirs && f !in o
    requires Copied(x.m, y.m, o, d, nd, v) && Unmapped(y.m, nd, v, KERNPAGE) && Walk(x.m, d, v).Entry?
    requires Page(x.m, d, v).Some? && f < |w.m| && w.m[f] == Frame.Data(Page(x.m, d, v).value.0)
    requires Walk(w.m, nd, v) == Entry(f, Walk(x.m, d, v).flags)
    ensures Copied(x.m, w.m, o, d, nd, v + 1) && Unmapped(w.m, nd, v + 1, KERNPAGE)
  {
    hide Walk, Own, Added;
    forall u: nat | u < v ensures Page(w.m, nd, u) == Page(y.m, nd, u) && Walk(w.m, nd, u) == Walk(y.m, nd, u) {
      TouchesPage(y, w, o1, o2, nd, v, v + 1, nd, u);
    }
  }

  // ----- copyout

  predicate UserPage(m: seq<Frame>, d: nat, v: nat) {
    Walk(m, d, v).Entry? && Walk(m, d, v).flags.u
  }

  /** The user may not access the kernel's pages. */
  ghost predicate KernelClosed(m: seq<Frame>, d: nat) {
    forall v: nat :: KERNPAGE <= v < PAGES ==> !UserPage(m, d, v)
  }

  lemma NoneOpen(m: seq<Frame>, d: nat)
    requires Unmapped(m, d, 0, PAGES)
    ensures KernelClosed(m, d)
  {
    hide Walk;
  }

  lemma ClosedOn(x: Mem, y: Mem, o: Owner, o': Owner, d: nat, k: Kmap)
    requires Touches(x, y, o, o', d, k.virt, k.virt + k.pages) && d in x.dirs && !k.perm.u && KernelClosed(x.m, d)
    requires MappedTo(y.m, d, k.virt, k.virt + k.pages, k.phys, k.perm)
    ensures KernelClosed(y.m, d)
  {
    hide Walk, UserPage;
    forall v: nat | KERNPAGE <= v < PAGES ensures !UserPage(y.m, d, v) {
      ClosedPage(x, y, o, o', d, k, v);
    }
  }

  lemma ClosedPage(x: Mem, y: Mem, o: Owner, o': Owner, d: nat, k: Kmap, v: nat)
    requires Touches(x, y, o, o', d, k.virt, k.virt + k.pages) && d in x.dirs && !k.perm.u && KernelClosed(x.m, d)
    requires MappedTo(y.m, d, k.virt, k.virt + k.pages, k.phys, k.perm) && KERNPAGE <= v < PAGES
    ensures !UserPage(y.m, d, v)
  {
    hide Walk;
    assert !UserPage(x.m, d, v);
  }

  /** Operations on user pages keep the kernel's closed, in every directory. */
  lemma TouchesClosed(x: Mem, y: Mem, o: Owner, o': Owner, d: nat, a: nat, b: nat, e: nat)
    requires Touches(x, y, o, o', d, a, b) && b <= KERNPAGE && e in x.dirs
    ensures KernelClosed(x.m, e) ==> KernelClosed(y.m, e)
  {
    hide Walk;
    forall v: nat | KERNPAGE <= v < PAGES ensures UserPage(y.m, e, v) == UserPage(x.m, e, v) {
    }
  }

  lemma StillClosed(x: Mem, y: Mem, d: nat, va: nat, s: seq<byte>)
    requires Wrote(x, y, d, va, s) && d in x.dirs && KernelClosed(x.m, d)
    ensures KernelClosed(y.m, d)
  {
    hide Walk;
    forall v: nat | KERNPAGE <= v < PAGES ensures !UserPage(y.m, d, v) {
      SameAccess(x, y, d, va, s, v);
    }
  }

  lemma SameAccess(x: Mem, y: Mem, d: nat, va: nat, s: seq<byte>, v: nat)
    requires Wrote(x, y, d, va, s) && d in x.dirs && v < PAGES
    ensures UserPage(y.m, d, v) == UserPage(x.m, d, v)
  {
    hide Walk;
  }

  lemma SamePde(x: Mem, y: Mem, d: nat, va: nat, s: seq<byte>, v: nat)
    requires Wrote(x, y, d, va, s) && d in x.dirs
    ensures Pde(y.m, d, v / ENTRIES) == Pde(x.m, d, v / ENTRIES)
  {
    hide Walk, Pde;
  }

  /** The user may access every page that holds some of the n bytes at va. */
  ghost predicate Accessible(m: seq<Frame>, d: nat, va: nat, n: nat) {
    forall v: nat :: 0 < n && va / PGSIZE <= v && v * PGSIZE < va + n ==> UserPage(m, d, v)
  }

  lemma ReachOn(m: seq<Frame>, d: nat, va: nat, i: nat, n: nat)
    requires Accessible(m, d, va, i) && UserPage(m, d, (va + i) / PGSIZE) && n <= PGSIZE - (va + i) % PGSIZE
    ensures Accessible(m, d, va, i + n)
  {
    hide UserPage;
    var a := va + i;
    forall v: nat | va / PGSIZE <= v && v * PGSIZE < a + n ensures UserPage(m, d, v) {
      assert a == a / PGSIZE * PGSIZE + a % PGSIZE;
      assert v <= a / PGSIZE;
      assert v < a / PGSIZE ==> v * PGSIZE < a;
    }
  }
}
