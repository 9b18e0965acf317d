// Physical frames and what they are used for (OS-Lab-1/vm.c, OS-Lab-1/kalloc.c;
// two-level tables as in section 4.3, "32-bit paging", of the Intel SDM, volume 3A).

module Frames {
  import opened Options
  import opened Disk

  const PGSIZE: nat := 4096
  const ENTRIES: nat := 1024       // NPDENTRIES, NPTENTRIES
  const PAGES: nat := 0x10_0000    // pages of the address space
  const KERNPAGE: nat := 0x8_0000  // KERNBASE / PGSIZE

  datatype Flags = Flags(w: bool, u: bool)

  /** A page-directory or page-table entry; Absent when PTE_P is clear. */
  datatype Pte = Absent | Entry(ppn: nat, flags: Flags)

  /** A frame as it was last written: on the free list, bytes, or a table. */
  datatype Frame = Free(next: Option<nat>) | Data(bytes: seq<byte>) | Table(e: seq<Pte>)

  /** A place that can name a frame: a directory, a directory's table, a directory's user page. */
  datatype Slot = Root(d: nat) | Tab(d: nat, i: nat) | User(d: nat, v: nat)

  type Owner = map<nat, Slot>

  /** Memory, and the page directories in use. */
  datatype Mem = Mem(m: seq<Frame>, dirs: set<nat>)

  function NoEntries(): seq<Pte> {
    seq(ENTRIES, _ => Absent)
  }

  function Zeros(): seq<byte> {
    seq(PGSIZE, _ => 0)
  }

  predicate TableAt(m: seq<Frame>, f: nat) {
    f < |m| && m[f].Table? && |m[f].e| == ENTRIES
  }

  predicate DataAt(m: seq<Frame>, f: nat) {
    f < |m| && m[f].Data? && |m[f].bytes| == PGSIZE
  }

  function Pde(m: seq<Frame>, d: nat, i: nat): Pte {
    if TableAt(m, d) && i < ENTRIES then m[d].e[i] else Absent
  }

  /** The entry for page v in directory d, Absent if there is no table for it. */
  function Walk(m: seq<Frame>, d: nat, v: nat): Pte {
    var pde := Pde(m, d, v / ENTRIES);
    if pde.Entry? && TableAt(m, pde.ppn) then m[pde.ppn].e[v % ENTRIES] else Absent
  }

  function Target(p: Pte): Option<nat> {
    if p.Entry? then Some(p.ppn) else None
  }

  /** The frame a slot names.  Kernel pages name frames that they do not own. */
  function Val(x: Mem, s: Slot): Option<nat> {
    if s.d !in x.dirs then None
    else
      match s
      case Root(d) => Some(d)
      case Tab(d, i) => Target(Pde(x.m, d, i))
      case User(d, v) => if v < KERNPAGE then Target(Walk(x.m, d, v)) else None
  }

  predicate Kind(m: seq<Frame>, s: Slot, f: nat) {
    if s.User? then DataAt(m, f) else TableAt(m, f)
  }

  /** Every frame in use has one user, and every slot's frame is what the slot needs. */
  ghost predicate Own(x: Mem, owner: Owner) {
    && (forall s: Slot :: Val(x, s).Some? ==>
          Val(x, s).value in owner && owner[Val(x, s).value] == s && Kind(x.m, s, Val(x, s).value))
    && (forall f: nat :: f in owner ==> Val(x, owner[f]) == Some(f))
    && Opens(x)
  }

  const OPEN := Flags(true, true)

  /** Directory entries let everything through: the entries of the tables decide. */
  ghost predicate Opens(x: Mem) {
    forall d: nat, i: nat :: d in x.dirs && Pde(x.m, d, i).Entry? ==> Pde(x.m, d, i).flags == OPEN
  }

  /** What a program may do at a page: both levels must allow it (section 4.6, "access rights", of the Intel SDM, volume 3A). */
  function Access(m: seq<Frame>, d: nat, v: nat): Option<Flags> {
    var pde, pte := Pde(m, d, v / ENTRIES), Walk(m, d, v);
    if pde.Entry? && pte.Entry? then Some(Flags(pde.flags.w && pte.flags.w, pde.flags.u && pte.flags.u)) else None
  }

  /** A page is writable, and open to the user, just if its own entry says so. */
  lemma AccessIs(x: Mem, owner: Owner, d: nat, v: nat)
    requires Own(x, owner) && d in x.dirs
    ensures Access(x.m, d, v) == if Walk(x.m, d, v).Entry? then Some(Walk(x.m, d, v).flags) else None
  {
  }

  /** A user page as a program sees it. */
  function Page(m: seq<Frame>, d: nat, v: nat): Option<(seq<byte>, Flags)> {
    var p := Walk(m, d, v);
    if p.Entry? && p.ppn < |m| && m[p.ppn].Data? then Some((m[p.ppn].bytes, p.flags)) else None
  }

  // ----- single writes

  function Put(x: Mem, f: nat, fr: Frame): Mem
    requires f < |x.m|
  {
    x.(m := x.m[f := fr])
  }

  lemma OwnFacts(x: Mem, owner: Owner, s: Slot)
    requires Own(x, owner)
    ensures Val(x, s).Some? ==>
      Val(x, s).value in owner && owner[Val(x, s).value] == s && Kind(x.m, s, Val(x, s).value)
  {
  }

  lemma OwnerFacts(x: Mem, owner: Owner, f: nat)
    requires Own(x, owner) && f in owner
    ensures Val(x, owner[f]) == Some(f) && f < |x.m| && Kind(x.m, owner[f], f)
  {
    hide Kind;
    assert Val(x, owner[f]).Some?;
    assert Kind(x.m, owner[f], f);
    KindIn(x.m, owner[f], f);
  }

  lemma KindIn(m: seq<Frame>, s: Slot, f: nat)
    requires Kind(m, s, f)
    ensures f < |m|
  {
  }

  /** What a frame that is not a table holds does not matter to any slot. */
  lemma PutVal(x: Mem, owner: Owner, f: nat, fr: Frame, s: Slot)
    requires Own(x, owner) && f < |x.m| && (f in owner ==> owner[f].User?)
    ensures Val(Put(x, f, fr), s) == Val(x, s)
  {
    OwnFacts(x, owner, Root(s.d));
    if s.Tab? {
      OwnFacts(x, owner, s);
    }
    if s.User? {
      OwnFacts(x, owner, Tab(s.d, s.v / ENTRIES));
    }
  }

  lemma PutOwn(x: Mem, owner: Owner, f: nat, fr: Frame)
    requires Own(x, owner) && f < |x.m|
    requires f in owner ==> owner[f].User? && fr.Data? && |fr.bytes| == PGSIZE
    ensures Own(Put(x, f, fr), owner)
  {
    hide Val;
    var y := Put(x, f, fr);
    forall s: Slot ensures Val(y, s) == Val(x, s) {
      PutVal(x, owner, f, fr, s);
    }
    forall d: nat, i: nat | d in x.dirs ensures Pde(y.m, d, i) == Pde(x.m, d, i) {
      OwnFacts(x, owner, Root(d));
      RootVal(x, d);
    }
  }

  lemma RootVal(x: Mem, d: nat)
    requires d in x.dirs
    ensures Val(x, Root(d)) == Some(d)
  {
  }

  function PutEntry(x: Mem, t: nat, j: nat, p: Pte): Mem
    requires TableAt(x.m, t) && j < ENTRIES
  {
    Put(x, t, Table(x.m[t].e[j := p]))
  }

  /** Frames that are not tables are as they were. */
  ghost predicate SameData(x: Mem, y: Mem, owner: Owner) {
    && |y.m| == |x.m|
    && forall f: nat :: f in owner && owner[f].User? && f < |x.m| ==> y.m[f] == x.m[f]
  }

  ghost predicate SameWalk(x: Mem, y: Mem) {
    forall e: nat, u: nat :: e in x.dirs && u < PAGES ==> Walk(y.m, e, u) == Walk(x.m, e, u)
  }

  lemma SetPteWalk(x: Mem, owner: Owner, d: nat, v: nat, t: nat, p: Pte, e: nat, u: nat)
    requires Own(x, owner) && d in x.dirs && v < PAGES && e in x.dirs && u < PAGES
    requires Target(Pde(x.m, d, v / ENTRIES)) == Some(t)
    ensures TableAt(x.m, t) && TableAt(x.m, d)
    ensures Walk(PutEntry(x, t, v % ENTRIES, p).m, e, u) == if e == d && u == v then p else Walk(x.m, e, u)
    ensures Pde(PutEntry(x, t, v % ENTRIES, p).m, e, u / ENTRIES) == Pde(x.m, e, u / ENTRIES)
    ensures TableAt(PutEntry(x, t, v % ENTRIES, p).m, e)
  {
    OwnFacts(x, owner, Tab(d, v / ENTRIES));
    OwnFacts(x, owner, Root(d));
    OwnFacts(x, owner, Root(e));
    OwnFacts(x, owner, Tab(e, u / ENTRIES));
    assert v == v / ENTRIES * ENTRIES + v % ENTRIES && u == u / ENTRIES * ENTRIES + u % ENTRIES;
  }

  lemma SetPteVal(x: Mem, owner: Owner, d: nat, v: nat, t: nat, p: Pte, s: Slot)
    requires Own(x, owner) && d in x.dirs && v < PAGES && TableAt(x.m, t)
    requires Target(Pde(x.m, d, v / ENTRIES)) == Some(t)
    ensures Val(PutEntry(x, t, v % ENTRIES, p), s)
      == if s == User(d, v) && v < KERNPAGE then Target(p) else Val(x, s)
  {
    hide Walk, Pde, Own, TableAt, PutEntry;
    assert PutEntry(x, t, v % ENTRIES, p).dirs == x.dirs by { PutEntryDirs(x, t, v % ENTRIES, p); }
    if s.d in x.dirs {
      match s
      case Root(_) =>
      case Tab(e, i) => SetPtePde(x, owner, d, v, t, p, e, i);
      case User(e, u) => if u < KERNPAGE { SetPteWalk(x, owner, d, v, t, p, e, u); }
    }
  }

  lemma PutEntryDirs(x: Mem, t: nat, j: nat, p: Pte)
    requires TableAt(x.m, t) && j < ENTRIES
    ensures PutEntry(x, t, j, p).dirs == x.dirs
  {
  }

  lemma SetPtePde(x: Mem, owner: Owner, d: nat, v: nat, t: nat, p: Pte, e: nat, i: nat)
    requires Own(x, owner) && d in x.dirs && v < PAGES && e in x.dirs && TableAt(x.m, t)
    requires Target(Pde(x.m, d, v / ENTRIES)) == Some(t)
    ensures Pde(PutEntry(x, t, v % ENTRIES, p).m, e, i) == Pde(x.m, e, i)
  {
    OwnFacts(x, owner, Tab(d, v / ENTRIES));
    OwnFacts(x, owner, Root(e));
  }

  /** The frames in use stay of their kind when no table becomes anything else. */
  lemma SetPteKind(x: Mem, owner: Owner, t: nat, j: nat, p: Pte, f: nat)
    requires Own(x, owner) && TableAt(x.m, t) && j < ENTRIES && f in owner
    ensures Kind(PutEntry(x, t, j, p).m, owner[f], f)
  {
    OwnerFacts(x, owner, f);
  }

  /** A slot that was empty names a frame that had no user. */
  lemma AttachOwn(x: Mem, y: Mem, owner: Owner, s0: Slot, f: nat)
    requires Own(x, owner) && f !in owner && Val(x, s0) == None && Kind(y.m, s0, f)
    requires forall s: Slot :: Val(y, s) == if s == s0 then Some(f) else Val(x, s)
    requires forall g: nat :: g in owner ==> Kind(y.m, owner[g], g)
    requires Opens(y)
    ensures Own(y, owner[f := s0])
  {
    hide Val, Kind;
  }

  /** A slot no longer names its frame. */
  lemma DetachOwn(x: Mem, y: Mem, owner: Owner, s0: Slot, f: nat)
    requires Own(x, owner) && Val(x, s0) == Some(f)
    requires forall s: Slot :: Val(y, s) == if s == s0 then None else Val(x, s)
    requires forall g: nat :: g in owner && g != f ==> Kind(y.m, owner[g], g)
    requires Opens(y)
    ensures Own(y, owner - {f})
  {
    hide Val, Kind;
    assert owner[f] == s0;
  }

  /** A new table, empty, under directory d. */
  function NewTable(x: Mem, d: nat, i: nat, t: nat): Mem
    requires TableAt(x.m, d) && i < ENTRIES && t < |x.m|
  {
    Put(Put(x, t, Table(NoEntries())), d, Table(x.m[d].e[i := Entry(t, OPEN)]))
  }

  lemma NewTableOwn(x: Mem, owner: Owner, d: nat, i: nat, t: nat)
    requires Own(x, owner) && d in x.dirs && i < ENTRIES && t !in owner && t < |x.m| && Pde(x.m, d, i) == Absent
    ensures TableAt(x.m, d)
    ensures var y := NewTable(x, d, i, t);
      && Own(y, owner[t := Tab(d, i)]) && SameWalk(x, y) && SameData(x, y, owner) && y.dirs == x.dirs
      && Pde(y.m, d, i) == Entry(t, OPEN)
  {
    hide Val;
    OwnFacts(x, owner, Root(d));
    DirTable(x, owner, d);
    var y := NewTable(x, d, i, t);
    forall s: Slot ensures Val(y, s) == if s == Tab(d, i) then Some(t) else Val(x, s) {
      NewTableVal(x, owner, d, i, t, s);
    }
    assert Val(x, Tab(d, i)) == None by { NewTableVal(x, owner, d, i, t, Tab(d, i)); }
    forall g: nat | g in owner ensures Kind(y.m, owner[g], g) && (owner[g].User? ==> y.m[g] == x.m[g]) {
      OwnerFacts(x, owner, g);
    }
    forall e: nat, j: nat | e in x.dirs ensures Pde(y.m, e, j) == if e == d && j == i then Entry(t, OPEN) else Pde(x.m, e, j) {
      DirTable(x, owner, e);
    }
    AttachOwn(x, y, owner, Tab(d, i), t);
    forall e: nat, u: nat | e in x.dirs && u < PAGES ensures Walk(y.m, e, u) == Walk(x.m, e, u) {
      NewTableWalk(x, owner, d, i, t, e, u);
    }
  }

  lemma DirTable(x: Mem, owner: Owner, d: nat)
    requires Own(x, owner) && d in x.dirs
    ensures TableAt(x.m, d) && d in owner && owner[d] == Root(d) && d < |x.m|
  {
    OwnFacts(x, owner, Root(d));
  }

  lemma NewTableWalk(x: Mem, owner: Owner, d: nat, i: nat, t: nat, e: nat, u: nat)
    requires Own(x, owner) && d in x.dirs && i < ENTRIES && t !in owner && t < |x.m| && Pde(x.m, d, i) == Absent
    requires e in x.dirs && u < PAGES && TableAt(x.m, d)
    ensures Walk(NewTable(x, d, i, t).m, e, u) == Walk(x.m, e, u)
  {
    DirTable(x, owner, e);
    DirTable(x, owner, d);
    OwnFacts(x, owner, Tab(e, u / ENTRIES));
  }

  lemma NewTableVal(x: Mem, owner: Owner, d: nat, i: nat, t: nat, s: Slot)
    requires Own(x, owner) && d in x.dirs && i < ENTRIES && t !in owner && t < |x.m| && Pde(x.m, d, i) == Absent
    requires TableAt(x.m, d)
    ensures Val(NewTable(x, d, i, t), s) == if s == Tab(d, i) then Some(t) else Val(x, s)
    ensures Val(x, Tab(d, i)) == None
  {
    hide Walk;
    DirTable(x, owner, d);
    if s.d in x.dirs {
      DirTable(x, owner, s.d);
      if s.User? && s.v < KERNPAGE {
        NewTableWalk(x, owner, d, i, t, s.d, s.v);
      }
    }
  }

  /** A new directory, empty. */
  function NewDir(x: Mem, d: nat): Mem
    requires d < |x.m|
  {
    Mem(x.m[d := Table(NoEntries())], x.dirs + {d})
  }

  lemma NewDirOwn(x: Mem, owner: Owner, d: nat)
    requires Own(x, owner) && d !in owner && d < |x.m|
    ensures d !in x.dirs
    ensures var y := NewDir(x, d);
      && Own(y, owner[d := Root(d)]) && SameWalk(x, y) && SameData(x, y, owner)
      && (forall v: nat :: Walk(y.m, d, v) == Absent)
  {
    hide Val;
    if d in x.dirs {
      DirTable(x, owner, d);
    }
    var y := NewDir(x, d);
    forall s: Slot ensures Val(y, s) == if s == Root(d) then Some(d) else Val(x, s) {
      NewDirVal(x, owner, d, s);
    }
    NewDirVal(x, owner, d, Root(d));
    forall g: nat | g in owner ensures Kind(y.m, owner[g], g) && y.m[g] == x.m[g] {
      OwnerFacts(x, owner, g);
    }
    forall e: nat, j: nat | e in y.dirs ensures Pde(y.m, e, j) == if e == d then Absent else Pde(x.m, e, j) {
      if e != d { DirTable(x, owner, e); }
    }
    AttachOwn(x, y, owner, Root(d), d);
    forall e: nat, u: nat | e in x.dirs && u < PAGES ensures Walk(y.m, e, u) == Walk(x.m, e, u) {
      DirTable(x, owner, e);
      OwnTab(x, owner, e, u / ENTRIES);
    }
  }

  lemma OwnTab(x: Mem, owner: Owner, d: nat, i: nat)
    requires Own(x, owner) && d in x.dirs
    ensures Pde(x.m, d, i).Entry? ==>
      var t := Pde(x.m, d, i).ppn; t in owner && owner[t] == Tab(d, i) && TableAt(x.m, t)
  {
    OwnFacts(x, owner, Tab(d, i));
  }

  lemma NewDirVal(x: Mem, owner: Owner, d: nat, s: Slot)
    requires Own(x, owner) && d !in owner && d < |x.m| && d !in x.dirs
    ensures Val(NewDir(x, d), s) == if s == Root(d) then Some(d) else Val(x, s)
    ensures Val(x, Root(d)) == None
  {
    if s.d in x.dirs {
      DirTable(x, owner, s.d);
      if s.User? {
        OwnTab(x, owner, s.d, s.v / ENTRIES);
      }
    }
  }

  // ----- what an operation on one directory may touch

  predicate InRange(s: Slot, d: nat, a: nat, b: nat) {
    s.User? && s.d == d && a <= s.v < b
  }

  /** Nothing differs but pages a to b - 1 of directory d, and the tables d has. */
  ghost predicate Touches(x: Mem, y: Mem, owner: Owner, owner': Owner, d: nat, a: nat, b: nat) {
    && y.dirs == x.dirs && |y.m| == |x.m|
    && (forall e: nat, u: nat :: e in x.dirs && u < PAGES && !(e == d && a <= u < b) ==>
          Walk(y.m, e, u) == Walk(x.m, e, u))
    && (forall f: nat :: f in owner && !InRange(owner[f], d, a, b) ==> f in owner' && owner'[f] == owner[f])
    && (forall f: nat :: f in owner' && !(f in owner && owner'[f] == owner[f]) ==>
          InRange(owner'[f], d, a, b) || (owner'[f].Tab? && owner'[f].d == d))
    && (forall f: nat :: f in owner && owner[f].User? && !InRange(owner[f], d, a, b) && f < |x.m| ==>
          y.m[f] == x.m[f])
  }

  lemma TouchesSelf(x: Mem, owner: Owner, d: nat, a: nat, b: nat)
    ensures Touches(x, x, owner, owner, d, a, b)
  {
  }

  lemma TouchesOn(x: Mem, y: Mem, z: Mem, o: Owner, o1: Owner, o2: Owner, d: nat, a: nat, b: nat)
    requires Touches(x, y, o, o1, d, a, b) && Touches(y, z, o1, o2, d, a, b)
    ensures Touches(x, z, o, o2, d, a, b)
  {
    hide Walk;
  }

  lemma TouchesMore(x: Mem, y: Mem, o: Owner, o1: Owner, d: nat, a: nat, b: nat, a': nat, b': nat)
    requires Touches(x, y, o, o1, d, a, b) && a' <= a && b <= b'
    ensures Touches(x, y, o, o1, d, a', b')
  {
    hide Walk;
  }

  /** A page out of reach looks as it did. */
  lemma TouchesPage(x: Mem, y: Mem, o: Owner, o1: Owner, d: nat, a: nat, b: nat, e: nat, u: nat)
    requires Own(x, o) && Touches(x, y, o, o1, d, a, b)
    requires e in x.dirs && u < KERNPAGE && !(e == d && a <= u < b)
    ensures Page(y.m, e, u) == Page(x.m, e, u) && Walk(y.m, e, u) == Walk(x.m, e, u)
  {
    hide Walk, Pde;
    OwnFacts(x, o, User(e, u));
  }

  // ----- mapping and unmapping a page

  lemma EntryOpens(x: Mem, owner: Owner, d: nat, v: nat, t: nat, p: Pte)
    requires Own(x, owner) && d in x.dirs && v < PAGES && TableAt(x.m, t)
    requires Target(Pde(x.m, d, v / ENTRIES)) == Some(t)
    ensures Opens(PutEntry(x, t, v % ENTRIES, p))
  {
    hide Pde, TableAt, PutEntry, Val, Kind;
    PutEntryDirs(x, t, v % ENTRIES, p);
    forall e: nat, i: nat | e in x.dirs ensures Pde(PutEntry(x, t, v % ENTRIES, p).m, e, i) == Pde(x.m, e, i) {
      SetPtePde(x, owner, d, v, t, p, e, i);
    }
  }

  lemma MapOwn(x: Mem, owner: Owner, d: nat, v: nat, t: nat, f: nat, fl: Flags)
    requires Own(x, owner) && d in x.dirs && v < PAGES
    requires Target(Pde(x.m, d, v / ENTRIES)) == Some(t) && Walk(x.m, d, v) == Absent
    requires v < KERNPAGE ==> f !in owner && DataAt(x.m, f)
    ensures TableAt(x.m, t)
    ensures var y := PutEntry(x, t, v % ENTRIES, Entry(f, fl));
      var o' := if v < KERNPAGE then owner[f := User(d, v)] else owner;
      && Own(y, o') && Touches(x, y, owner, o', d, v, v + 1) && Walk(y.m, d, v) == Entry(f, fl)
      && (v < KERNPAGE ==> f < |x.m| && y.m[f] == x.m[f])
  {
    hide Val, Walk;
    OwnTab(x, owner, d, v / ENTRIES);
    var p := Entry(f, fl);
    var y := PutEntry(x, t, v % ENTRIES, p);
    forall s: Slot ensures Val(y, s) == if s == User(d, v) && v < KERNPAGE then Some(f) else Val(x, s) {
      SetPteVal(x, owner, d, v, t, p, s);
    }
    UserVal(x, d, v);
    forall g: nat | g in owner ensures Kind(y.m, owner[g], g) && (owner[g].User? ==> g < |x.m| && y.m[g] == x.m[g]) {
      SetPteKind(x, owner, t, v % ENTRIES, p, g);
      OwnerFacts(x, owner, g);
    }
    forall e: nat, u: nat | e in x.dirs && u < PAGES
      ensures Walk(y.m, e, u) == if e == d && u == v then p else Walk(x.m, e, u)
    {
      SetPteWalk(x, owner, d, v, t, p, e, u);
    }
    EntryOpens(x, owner, d, v, t, p);
    if v < KERNPAGE {
      assert f != t;
      AttachOwn(x, y, owner, User(d, v), f);
    } else {
      SameOwn(x, y, owner);
    }
  }

  lemma SameOwn(x: Mem, y: Mem, owner: Owner)
    requires Own(x, owner) && (forall s: Slot :: Val(y, s) == Val(x, s))
    requires forall g: nat :: g in owner ==> Kind(y.m, owner[g], g)
    requires Opens(y)
    ensures Own(y, owner)
  {
    hide Val, Kind;
  }

  lemma UserVal(x: Mem, d: nat, v: nat)
    requires d in x.dirs
    ensures v < KERNPAGE ==> Val(x, User(d, v)) == Target(Walk(x.m, d, v))
  {
  }

  /** kfree of the frame, then *pte = 0. */
  lemma UnmapOwn(x: Mem, owner: Owner, d: nat, v: nat, t: nat, f: nat, fr: Frame)
    requires Own(x, owner) && d in x.dirs && v < KERNPAGE
    requires Target(Pde(x.m, d, v / ENTRIES)) == Some(t) && Target(Walk(x.m, d, v)) == Some(f)
    ensures f in owner && owner[f] == User(d, v) && f < |x.m| && TableAt(x.m, t) && f != t
    ensures TableAt(Put(x, f, fr).m, t)
    ensures var y := PutEntry(Put(x, f, fr), t, v % ENTRIES, Absent);
      Own(y, owner - {f}) && Touches(x, y, owner, owner - {f}, d, v, v + 1) && Walk(y.m, d, v) == Absent
  {
    hide Val, Walk;
    OwnTab(x, owner, d, v / ENTRIES);
    UserVal(x, d, v);
    OwnFacts(x, owner, User(d, v));
    var z := PutEntry(x, t, v % ENTRIES, Absent);
    forall s: Slot ensures Val(z, s) == if s == User(d, v) then None else Val(x, s) {
      SetPteVal(x, owner, d, v, t, Absent, s);
    }
    forall g: nat | g in owner ensures Kind(z.m, owner[g], g) && (owner[g].User? ==> g < |x.m| && z.m[g] == x.m[g]) {
      SetPteKind(x, owner, t, v % ENTRIES, Absent, g);
      OwnerFacts(x, owner, g);
    }
    EntryOpens(x, owner, d, v, t, Absent);
    DetachOwn(x, z, owner, User(d, v), f);
    var y := PutEntry(Put(x, f, fr), t, v % ENTRIES, Absent);
    assert y == Put(z, f, fr);
    PutOwn(z, owner - {f}, f, fr);
    forall e: nat, u: nat | e in x.dirs && u < PAGES
      ensures Walk(y.m, e, u) == if e == d && u == v then Absent else Walk(x.m, e, u)
    {
      SetPteWalk(x, owner, d, v, t, Absent, e, u);
      PutWalk(z, owner - {f}, f, fr, e, u);
    }
  }

  lemma PutWalk(x: Mem, owner: Owner, f: nat, fr: Frame, e: nat, u: nat)
    requires Own(x, owner) && f !in owner && f < |x.m| && e in x.dirs
    ensures Walk(Put(x, f, fr).m, e, u) == Walk(x.m, e, u)
  {
    DirTable(x, owner, e);
    OwnTab(x, owner, e, u / ENTRIES);
  }

  // ----- sizes in bytes

  function Pages(sz: nat): nat {
    (sz + PGSIZE - 1) / PGSIZE
  }

  lemma PagesIs(sz: nat, a: nat)
    ensures a * PGSIZE < sz <==> a < Pages(sz)
  {
  }

  lemma PagesBelow(a: nat, b: nat)
    ensures a <= b ==> Pages(a) <= Pages(b)
    ensures a <= KERNPAGE * PGSIZE ==> Pages(a) <= KERNPAGE
  {
  }

  /** Pages a to b - 1 of directory d are not mapped. */
  ghost predicate Unmapped(m: seq<Frame>, d: nat, a: nat, b: nat) {
    forall v: nat :: a <= v < b ==> Walk(m, d, v) == Absent
  }

  /** Pages a to b - 1 of directory d are as allocuvm makes them. */
  ghost predicate Zeroed(m: seq<Frame>, d: nat, a: nat, b: nat) {
    forall v: nat :: a <= v < b ==> Page(m, d, v) == Some((Zeros(), Flags(true, true)))
  }

  /** No table, no page. */
  lemma NoTable(m: seq<Frame>, d: nat, v: nat, u: nat)
    requires Pde(m, d, v / ENTRIES) == Absent && u / ENTRIES == v / ENTRIES
    ensures Walk(m, d, u) == Absent
  {
  }

  // ----- whole address spaces

  ghost function Without(owner: Owner, d: nat): Owner {
    map f | f in owner && owner[f].d != d :: owner[f]
  }

  /** A directory d has been added, and nothing else differs. */
  ghost predicate Added(x: Mem, y: Mem, o: Owner, o': Owner, d: nat) {
    && d !in x.dirs && y.dirs == x.dirs + {d} && |y.m| == |x.m|
    && SameWalk(x, y) && SameData(x, y, o)
    && (forall f: nat :: f in o ==> f in o' && o'[f] == o[f])
    && (forall f: nat :: f in o' && f !in o ==> o'[f].d == d)
  }

  lemma NewDirAdded(x: Mem, owner: Owner, d: nat)
    requires Own(x, owner) && d !in owner && d < |x.m|
    ensures Added(x, NewDir(x, d), owner, owner[d := Root(d)], d) && Own(NewDir(x, d), owner[d := Root(d)])
    ensures Unmapped(NewDir(x, d).m, d, 0, PAGES)
  {
    hide Val, Walk;
    NewDirOwn(x, owner, d);
  }

  lemma AddedOn(x: Mem, y: Mem, z: Mem, o: Owner, o1: Owner, o2: Owner, d: nat, a: nat, b: nat)
    requires Own(x, o) && Added(x, y, o, o1, d) && Touches(y, z, o1, o2, d, a, b)
    ensures Added(x, z, o, o2, d)
  {
    hide Val, Walk, Kind, Own;
    forall f: nat | f in o ensures o[f].d in x.dirs && o[f].d != d && f < |x.m| {
      OwnerDir(x, o, f);
    }
  }

  lemma OwnerDir(x: Mem, owner: Owner, f: nat)
    requires Own(x, owner) && f in owner
    ensures owner[f].d in x.dirs && f < |x.m|
  {
    OwnerFacts(x, owner, f);
  }

  /** Forgetting a directory leaves the others as they are. */
  lemma DropDir(x: Mem, owner: Owner, d: nat)
    requires Own(x, owner)
    ensures Own(Mem(x.m, x.dirs - {d}), Without(owner, d))
  {
    hide Walk, Pde, Kind;
    var y := Mem(x.m, x.dirs - {d});
    forall s: Slot ensures Val(y, s) == if s.d == d then None else Val(x, s) {
    }
    DropOwn(x, y, owner, d);
  }

  lemma DropOwn(x: Mem, y: Mem, owner: Owner, d: nat)
    requires Own(x, owner) && y.m == x.m && y.dirs <= x.dirs
    requires forall s: Slot :: Val(y, s) == if s.d == d then None else Val(x, s)
    ensures Own(y, Without(owner, d))
  {
    hide Val, Kind;
  }

  /** Dropping what was added gives back what there was. */
  lemma AddedDropped(x: Mem, y: Mem, o: Owner, o1: Owner, d: nat)
    requires Own(x, o) && Added(x, y, o, o1, d)
    ensures Without(o1, d) == o && y.dirs - {d} == x.dirs
  {
    hide Walk, Own;
    forall f: nat | f in o ensures o[f].d != d {
      OwnerDir(x, o, f);
    }
  }

  /** The directory's own frame, and its tables from the i-th on. */
  ghost function Tables(owner: Owner, d: nat, i: nat): set<nat> {
    set f | f in owner && (owner[f] == Root(d) || (owner[f].Tab? && owner[f].d == d && owner[f].i >= i))
  }

  lemma TablesStep(x: Mem, owner: Owner, d: nat, i: nat)
    requires Own(x, owner) && d in x.dirs && i < ENTRIES
    ensures Pde(x.m, d, i).Entry? ==>
      var t := Pde(x.m, d, i).ppn;
      t in Tables(owner, d, i) && t != d && Tables(owner, d, i) - {t} == Tables(owner, d, i + 1)
    ensures Pde(x.m, d, i).Absent? ==> Tables(owner, d, i) == Tables(owner, d, i + 1)
    ensures d in Tables(owner, d, i)
  {
    DirTable(x, owner, d);
    OwnTab(x, owner, d, i);
    forall f: nat | f in owner && owner[f] == Tab(d, i) ensures Pde(x.m, d, i) != Absent && Pde(x.m, d, i).ppn == f {
      OwnerFacts(x, owner, f);
    }
  }

  lemma TablesEnd(x: Mem, owner: Owner, d: nat)
    requires Own(x, owner) && d in x.dirs
    ensures Tables(owner, d, ENTRIES) == {d}
  {
    DirTable(x, owner, d);
    forall f: nat | f in Tables(owner, d, ENTRIES) ensures f == d {
      OwnerFacts(x, owner, f);
    }
  }

  /** A directory without user pages owns its frame and its tables. */
  lemma TablesAll(x: Mem, owner: Owner, d: nat)
    requires Own(x, owner) && d in x.dirs && Unmapped(x.m, d, 0, KERNPAGE)
    ensures Without(owner, d).Keys + Tables(owner, d, 0) == owner.Keys
    ensures forall f: nat :: f in Tables(owner, d, 0) ==> f !in Without(owner, d)
  {
    hide Walk;
    forall f: nat | f in owner && owner[f].d == d ensures !owner[f].User? {
      OwnerFacts(x, owner, f);
    }
  }

  // ----- bytes

  /** The byte at a user address. */
  function ByteAt(m: seq<Frame>, d: nat, addr: nat): Option<byte> {
    var p := Page(m, d, addr / PGSIZE);
    if p.Some? && |p.value.0| == PGSIZE then Some(p.value.0[addr % PGSIZE]) else None
  }

  /** s was written at address va of directory d, and no other byte of any user page has changed. */
  ghost predicate Wrote(x: Mem, y: Mem, d: nat, va: nat, s: seq<byte>) {
    && y.dirs == x.dirs && SameWalk(x, y)
    && (forall e: nat, i: nat :: e in x.dirs ==> Pde(y.m, e, i) == Pde(x.m, e, i))
    && (forall e: nat, addr: nat :: e in x.dirs && addr < KERNPAGE * PGSIZE ==>
          ByteAt(y.m, e, addr) ==
            if e == d && va <= addr < va + |s| then Some(s[addr - va]) else ByteAt(x.m, e, addr))
  }

  lemma WroteNothing(x: Mem, d: nat, va: nat)
    ensures Wrote(x, x, d, va, [])
  {
  }

  lemma WroteOn(x: Mem, y: Mem, z: Mem, d: nat, va: nat, s: seq<byte>, t: seq<byte>)
    requires Wrote(x, y, d, va, s) && Wrote(y, z, d, va + |s|, t)
    ensures Wrote(x, z, d, va, s + t)
  {
    hide Walk, ByteAt, Pde;
  }

  function Blit(b: seq<byte>, o: nat, s: seq<byte>): (r: seq<byte>)
    requires |b| == PGSIZE && o + |s| <= PGSIZE
    ensures |r| == PGSIZE && forall k :: 0 <= k < PGSIZE ==> r[k] == if o <= k < o + |s| then s[k - o] else b[k]
  {
    b[..o] + s + b[o + |s|..]
  }

  /** A write to a user page's frame is seen at that page, and at no other. */
  lemma WriteFrame(x: Mem, owner: Owner, d: nat, v: nat, o: nat, s: seq<byte>)
    requires Own(x, owner) && d in x.dirs && v < KERNPAGE && Walk(x.m, d, v).Entry? && o + |s| <= PGSIZE
    ensures var f := Walk(x.m, d, v).ppn;
      && f < |x.m| && DataAt(x.m, f) && f in owner
      && var y := Put(x, f, Frame.Data(Blit(x.m[f].bytes, o, s)));
      Own(y, owner) && Wrote(x, y, d, v * PGSIZE + o, s)
  {
    hide Val, Walk, Blit, ByteAt, Pde;
    var f := Walk(x.m, d, v).ppn;
    UserVal(x, d, v);
    OwnFacts(x, owner, User(d, v));
    OwnerFacts(x, owner, f);
    var y := Put(x, f, Frame.Data(Blit(x.m[f].bytes, o, s)));
    PutOwn(x, owner, f, Frame.Data(Blit(x.m[f].bytes, o, s)));
    forall e: nat, u: nat | e in x.dirs && u < PAGES ensures Walk(y.m, e, u) == Walk(x.m, e, u) {
      PutUserWalk(x, owner, f, Frame.Data(Blit(x.m[f].bytes, o, s)), e, u);
    }
    forall e: nat, i: nat | e in x.dirs ensures Pde(y.m, e, i) == Pde(x.m, e, i) {
      PutUserWalk(x, owner, f, Frame.Data(Blit(x.m[f].bytes, o, s)), e, 0);
    }
    forall e: nat, addr: nat | e in x.dirs && addr < KERNPAGE * PGSIZE
      ensures ByteAt(y.m, e, addr) ==
        if e == d && v * PGSIZE + o <= addr < v * PGSIZE + o + |s| then Some(s[addr - (v * PGSIZE + o)])
        else ByteAt(x.m, e, addr)
    {
      WriteByte(x, y, owner, d, v, o, s, e, addr);
    }
  }

  lemma PutUserWalk(x: Mem, owner: Owner, f: nat, fr: Frame, e: nat, u: nat)
    requires Own(x, owner) && f in owner && owner[f].User? && f < |x.m| && e in x.dirs
    ensures Walk(Put(x, f, fr).m, e, u) == Walk(x.m, e, u)
    ensures forall i: nat :: Pde(Put(x, f, fr).m, e, i) == Pde(x.m, e, i)
  {
    DirTable(x, owner, e);
    OwnTab(x, owner, e, u / ENTRIES);
  }

  lemma WriteByte(x: Mem, y: Mem, owner: Owner, d: nat, v: nat, o: nat, s: seq<byte>, e: nat, addr: nat)
    requires Own(x, owner) && d in x.dirs && v < KERNPAGE && Walk(x.m, d, v).Entry? && o + |s| <= PGSIZE
    requires e in x.dirs && addr < KERNPAGE * PGSIZE
    requires Walk(x.m, d, v).ppn < |x.m| && DataAt(x.m, Walk(x.m, d, v).ppn)
    requires y == Put(x, Walk(x.m, d, v).ppn, Frame.Data(Blit(x.m[Walk(x.m, d, v).ppn].bytes, o, s)))
    requires Walk(y.m, e, addr / PGSIZE) == Walk(x.m, e, addr / PGSIZE)
    ensures ByteAt(y.m, e, addr) ==
      if e == d && v * PGSIZE + o <= addr < v * PGSIZE + o + |s| then Some(s[addr - (v * PGSIZE + o)])
      else ByteAt(x.m, e, addr)
  {
    hide Walk, Blit, Own;
    var u := addr / PGSIZE;
    assert addr == u * PGSIZE + addr % PGSIZE && u < KERNPAGE;
    OneFrame(x, owner, d, v, e, u);
  }

  /** Two user pages do not share a frame. */
  lemma OneFrame(x: Mem, owner: Owner, d: nat, v: nat, e: nat, u: nat)
    requires Own(x, owner) && d in x.dirs && e in x.dirs && v < KERNPAGE && u < KERNPAGE
    ensures Walk(x.m, d, v).Entry? && Walk(x.m, e, u).Entry? && Walk(x.m, d, v).ppn == Walk(x.m, e, u).ppn ==>
      d == e && v == u
  {
    hide Walk;
    UserVal(x, d, v);
    UserVal(x, e, u);
    OwnFacts(x, owner, User(d, v));
    OwnFacts(x, owner, User(e, u));
  }
}
