// The commit and recovery code of OS-Lab-1/log.c over the buffer cache.  The
// disk records its contents after every block write, so that "a crash at any
// point" is a statement about every recorded image.

module Log {
  import opened Params
  import opened Disk
  import opened Bio
  import opened Holding
  import opened LogImages

  class Log {
    const bc: Bcache
    const g: Layout
    var lh: seq<nat>          // lh.block[0..lh.n]
    var outstanding: int
    var committing: bool

    /** The global before initlog: everything zero, the layout from the superblock. */
    constructor (cache: Bcache, layout: Layout)
      ensures bc == cache && g == layout && lh == [] && outstanding == 0 && !committing
    {
      bc, g := cache, layout;
      lh, outstanding, committing := [], 0, false;
    }

    /** bread while no buffer is held. */
    method BreadFirst(x: nat) returns (p: nat)
      requires bc.Valid() && Quiet(bc.buf[..])
      requires x < bc.memdisk.Length && OneClean(bc.buf[..])
      modifies bc`trace, bc.buf, bc.memdisk
      ensures bc.Valid() && One(bc.buf[..], p)
      ensures bc.memdisk[..] == old(bc.memdisk[..]) && bc.trace == old(bc.trace)
      ensures InUse(bc.buf[p], x) && bc.buf[p].valid && bc.buf[p].data == old(bc.View()[x])
      ensures Settled(bc.buf[..], bc.memdisk[..], p)
      ensures bc.View() == old(bc.View())
      ensures Pinned(bc.buf[..]) == old(Pinned(bc.buf[..]))
      ensures CleanAlike(old(bc.buf[..]), bc.buf[..])
      ensures forall y :: RoomFor(old(bc.buf[..]), y) ==> Reachable(bc.buf[..], y)
    {
      hide Linked, Order, OnePerBlock;
      ghost var b0, d0 := bc.buf[..], bc.memdisk[..];
      assert bc.Available(x) by { SomeBuffer(b0, d0); }
      assert forall i :: 0 <= i < NBUF ==> Free(b0[i]);
      var r := bc.Bread(x);
      p := r.b;
      FirstRead(b0, d0, bc.buf[..], p, x);
      forall y | RoomFor(b0, y) ensures Reachable(bc.buf[..], y) {
        var k := BufferFor(b0, d0, bc.buf[..], p, x, y);
      }
    }

    lemma {:induction false} SomeBuffer(b: seq<Buf>, d: Image)
      requires b == bc.buf[..] && Quiet(b) && OneClean(b)
      ensures bc.SomeRecyclable()
    {
      var i :| 0 <= i < |b| - 1 && !b[i].dirty;
      assert Free(b[i]) && Recyclable(bc.buf[i]);
    }

    /** bread of another block while p is held. */
    method BreadSecond(ghost p: nat, y: nat) returns (q: nat)
      requires bc.Valid() && One(bc.buf[..], p) && Settled(bc.buf[..], bc.memdisk[..], p)
      requires !InUse(bc.buf[p], y) && y < bc.memdisk.Length && Reachable(bc.buf[..], y)
      modifies bc`trace, bc.buf, bc.memdisk
      ensures bc.Valid() && Pair(bc.buf[..], p, q)
      ensures bc.memdisk[..] == old(bc.memdisk[..]) && bc.trace == old(bc.trace)
      ensures bc.buf[p] == old(bc.buf[p])
      ensures InUse(bc.buf[q], y) && bc.buf[q].valid && bc.buf[q].data == old(bc.View()[y])
      ensures Settled(bc.buf[..], bc.memdisk[..], p) && Settled(bc.buf[..], bc.memdisk[..], q)
      ensures bc.View() == old(bc.View())
      ensures Pinned(bc.buf[..]) == old(Pinned(bc.buf[..]))
      ensures CleanAlike(old(bc.buf[..]), bc.buf[..])
    {
      hide Linked, Order, OnePerBlock;
      ghost var b0, d0 := bc.buf[..], bc.memdisk[..];
      assert bc.Available(y) by {
        var k :| 0 <= k < NBUF && (InUse(b0[k], y) || Recyclable(b0[k]));
        assert InUse(bc.buf[k], y) || Recyclable(bc.buf[k]);
      }
      assert forall i :: 0 <= i < NBUF && i != p ==> Free(b0[i]);
      var r := bc.Bread(y);
      q := r.b;
      SecondRead(b0, d0, bc.buf[..], p, q, y);
    }

    /** brelse while another buffer, q, stays held. */
    method BrelseFirst(p: nat, ghost q: nat)
      requires bc.Valid() && Pair(bc.buf[..], p, q)
      requires Settled(bc.buf[..], bc.memdisk[..], p) && Settled(bc.buf[..], bc.memdisk[..], q)
      modifies bc`order, bc.buf
      ensures bc.Valid() && One(bc.buf[..], q) && Settled(bc.buf[..], bc.memdisk[..], q)
      ensures bc.View() == old(bc.View())
      ensures Pinned(bc.buf[..]) == old(Pinned(bc.buf[..]))
      ensures CleanAlike(old(bc.buf[..]), bc.buf[..])
    {
      hide Linked, Order;
      ghost var b0 := bc.buf[..];
      bc.Brelse(p);
      AfterBrelse(b0, bc.buf[..], p);
    }

    /** brelse of the only buffer held. */
    method BrelseLast(q: nat)
      requires bc.Valid() && One(bc.buf[..], q) && Settled(bc.buf[..], bc.memdisk[..], q)
      modifies bc`order, bc.buf
      ensures bc.Valid() && Quiet(bc.buf[..])
      ensures bc.View() == old(bc.View())
      ensures Pinned(bc.buf[..]) == old(Pinned(bc.buf[..]))
      ensures CleanAlike(old(bc.buf[..]), bc.buf[..])
    {
      ghost var b0 := bc.buf[..];
      bc.Brelse(q);
      AfterBrelse(b0, bc.buf[..], q);
    }

    /** memmove from one held buffer to another, which holds block dst, and bwrite. */
    method CopyThrough(to: nat, from: nat, ghost dst: nat)
      requires bc.Valid() && Pair(bc.buf[..], to, from)
      requires bc.buf[to].valid && InUse(bc.buf[to], dst) && dst < bc.memdisk.Length
      requires Settled(bc.buf[..], bc.memdisk[..], from)
      modifies bc`trace, bc.buf, bc.memdisk
      ensures bc.Valid() && Pair(bc.buf[..], to, from)
      ensures Settled(bc.buf[..], bc.memdisk[..], to) && Settled(bc.buf[..], bc.memdisk[..], from)
      ensures bc.memdisk[..] == old(bc.memdisk[..])[dst := old(bc.buf[from].data)]
      ensures bc.trace == old(bc.trace) + [bc.memdisk[..]]
      ensures bc.View() == old(bc.View())[dst := old(bc.buf[from].data)]
      ensures Pinned(bc.buf[..]) == old(Pinned(bc.buf[..])) - {dst}
      ensures CleanAlike(old(bc.buf[..]), bc.buf[..])
    {
      ghost var b0, d0 := bc.buf[..], bc.memdisk[..];
      hide Linked, Order, Agrees;
      bc.SetData(to, bc.buf[from].data);
      ghost var b1 := bc.buf[..];
      AfterStore(b0, d0, b1, to);
      bc.Bwrite(to);
      AfterStore(b1, d0, bc.buf[..], to);
      assert bc.buf[from] == b0[from];
      HeldElsewhere(b0, to, from, dst);
    }

    lemma {:induction false} HeldElsewhere(b: seq<Buf>, to: nat, from: nat, dst: nat)
      requires OnePerBlock(b) && to != from && to < |b| && from < |b| && InUse(b[to], dst)
      ensures !InUse(b[from], dst)
    {
    }

    /** One turn of install_trans: the log slot goes to its home block. */
    method InstallBlock(slot: nat, home: nat)
      requires bc.Valid() && Quiet(bc.buf[..]) && slot != home
      requires slot < bc.memdisk.Length && home < bc.memdisk.Length
      requires RoomFor(bc.buf[..], home)
      modifies bc, bc.buf, bc.memdisk
      ensures bc.Valid() && Quiet(bc.buf[..])
      ensures bc.memdisk[..] == old(bc.memdisk[..])[home := old(bc.View()[slot])]
      ensures bc.trace == old(bc.trace) + [bc.memdisk[..]]
      ensures bc.View() == old(bc.View())[home := old(bc.View()[slot])]
      ensures Pinned(bc.buf[..]) == old(Pinned(bc.buf[..])) - {home}
      ensures CleanAlike(old(bc.buf[..]), bc.buf[..])
    {
      hide Coherent, Linked, Order, Pair, One, Quiet, Visible, Pinned, Settled;
      var l := BreadFirst(slot);
      var d := BreadSecond(l, home);
      PairSwaps(bc.buf[..], l, d);
      CopyThrough(d, l, home);
      PairSwaps(bc.buf[..], d, l);
      BrelseFirst(l, d);
      BrelseLast(d);
    }

    /** One turn of write_log: the cached home block goes to its log slot. */
    method LogBlock(slot: nat, home: nat)
      requires bc.Valid() && Quiet(bc.buf[..]) && slot != home
      requires slot < bc.memdisk.Length && home < bc.memdisk.Length
      requires RoomFor(bc.buf[..], home)
      modifies bc, bc.buf, bc.memdisk
      ensures bc.Valid() && Quiet(bc.buf[..])
      ensures bc.memdisk[..] == old(bc.memdisk[..])[slot := old(bc.View()[home])]
      ensures bc.trace == old(bc.trace) + [bc.memdisk[..]]
      ensures bc.View() == old(bc.View())[slot := old(bc.View()[home])]
      ensures Pinned(bc.buf[..]) == old(Pinned(bc.buf[..])) - {slot}
      ensures CleanAlike(old(bc.buf[..]), bc.buf[..])
    {
      hide Coherent, Linked, Order, Pair, One, Quiet, Visible, Pinned, Settled;
      var to := BreadFirst(slot);
      var from := BreadSecond(to, home);
      CopyThrough(to, from, slot);
      PairSwaps(bc.buf[..], to, from);
      BrelseFirst(from, to);
      BrelseLast(to);
    }

    /** Nothing is held, and the disk has a log header. */
    ghost predicate Idle()
      reads bc, bc.buf, bc.memdisk
    {
      bc.Valid() && Quiet(bc.buf[..]) && GoodImage(g, bc.memdisk[..])
    }

    /** lh names distinct home blocks that fit the log. */
    ghost predicate HeadOk()
      reads this`lh, bc.memdisk
    {
      |lh| <= LOGSIZE && |lh| < g.size && AllHome(g, bc.memdisk.Length, lh) && Distinct(lh)
    }

    /** install_trans copies every slot home, in order; the disk passes through
        every partial installation and no other state. */
    method InstallTrans()
      requires Idle() && HeadOk()
      requires TwoClean(bc.buf[..]) || (OneClean(bc.buf[..]) && forall i :: 0 <= i < |lh| ==> lh[i] in Pinned(bc.buf[..]))
      requires forall a :: a in Pinned(bc.buf[..]) ==> !g.InLog(a)
      modifies bc, bc.buf, bc.memdisk
      ensures bc.Valid() && Quiet(bc.buf[..])
      ensures bc.memdisk[..] == Install(g, old(bc.memdisk[..]), lh, |lh|)
      ensures bc.View() == Install(g, old(bc.View()), lh, |lh|)
      ensures bc.trace == old(bc.trace) + Installs(g, old(bc.memdisk[..]), lh, |lh|)
      ensures Pinned(bc.buf[..]) == Unpinned(old(Pinned(bc.buf[..])), lh, |lh|)
      ensures CleanAlike(old(bc.buf[..]), bc.buf[..])
    {
      hide *;
      ghost var b0, d0, v0, p0 := bc.buf[..], bc.memdisk[..], bc.View(), Pinned(bc.buf[..]);
      InstallingStarts();
      var tail := 0;
      while tail < |lh|
        invariant tail <= |lh|
        invariant Installing(b0, d0, v0, p0, tail)
        invariant bc.trace == old(bc.trace) + Installs(g, d0, lh, tail)
      {
        InstallTurn(b0, d0, v0, p0, tail);
        InstallsNext(g, d0, lh, tail);
        Snoc(old(bc.trace), Installs(g, d0, lh, tail), bc.memdisk[..]);
        tail := tail + 1;
      }
      InstallingMeans(b0, d0, v0, p0, tail);
    }

    lemma {:induction false} ValidMeans()
      requires bc.Valid()
      ensures Coherent(bc.buf[..], bc.memdisk[..])
    {
    }

    lemma {:induction false} IdleMeans()
      requires Idle()
      ensures bc.Valid() && Quiet(bc.buf[..]) && Coherent(bc.buf[..], bc.memdisk[..])
      ensures GoodImage(g, bc.memdisk[..]) && g.start < bc.memdisk.Length
    {
    }

    lemma {:induction false} BecomesIdle()
      requires bc.Valid() && Quiet(bc.buf[..]) && GoodImage(g, bc.memdisk[..])
      ensures Idle()
    {
    }

    lemma {:induction false} HeadReadOk(d0: Image)
      requires bc.Valid() && Quiet(bc.buf[..]) && bc.memdisk[..] == d0 && GoodImage(g, d0)
      requires g.start < bc.memdisk.Length && bc.memdisk[g.start].Header?
      requires bc.memdisk[g.start].n <= |bc.memdisk[g.start].block|
      requires lh == Logged(bc.memdisk[g.start])
      ensures Idle() && HeadOk() && lh == Logged(d0[g.start]) && |lh| == d0[g.start].n
      ensures Coherent(bc.buf[..], bc.memdisk[..])
    {
    }

    lemma {:induction false} InstallingStarts()
      requires Idle() && HeadOk()
      ensures var d0, v0 := bc.memdisk[..], bc.View();
              && |lh| < g.size && g.start + g.size <= |d0| == |v0| && AllHome(g, |d0|, lh) && Distinct(lh)
              && Installing(bc.buf[..], d0, v0, Pinned(bc.buf[..]), 0)
              && Installs(g, d0, lh, 0) == []
    {
      hide Coherent, Linked, Order, Quiet, Visible, Pinned, Distinct;
    }

    lemma {:induction false} InstallingMeans(b0: seq<Buf>, d0: Image, v0: Image, p0: set<nat>, k: nat)
      requires k <= |lh| && k < g.size && g.start + g.size <= |d0| == |v0| && AllHome(g, |d0|, lh)
      requires Installing(b0, d0, v0, p0, k)
      ensures bc.Valid() && Quiet(bc.buf[..])
      ensures bc.memdisk[..] == Install(g, d0, lh, k) && bc.View() == Install(g, v0, lh, k)
      ensures Pinned(bc.buf[..]) == Unpinned(p0, lh, k) && CleanAlike(b0, bc.buf[..])
    {
    }

    /** The first k home blocks have their slots' contents; everything else is as at first. */
    ghost predicate Installing(b0: seq<Buf>, d0: Image, v0: Image, p0: set<nat>, k: nat)
      reads this, bc, bc.buf, bc.memdisk
      requires k <= |lh| && k < g.size && g.start + g.size <= |d0| == |v0| && AllHome(g, |d0|, lh)
    {
      && bc.Valid() && Quiet(bc.buf[..])
      && bc.memdisk[..] == Install(g, d0, lh, k)
      && bc.View() == Install(g, v0, lh, k)
      && Pinned(bc.buf[..]) == Unpinned(p0, lh, k)
      && CleanAlike(b0, bc.buf[..])
    }

    method InstallTurn(ghost b0: seq<Buf>, ghost d0: Image, ghost v0: Image, ghost p0: set<nat>, tail: nat)
      requires tail < |lh| < g.size && g.start + g.size <= |d0| == |v0| && AllHome(g, |d0|, lh) && Distinct(lh)
      requires Installing(b0, d0, v0, p0, tail)
      requires TwoClean(b0) || (OneClean(b0) && Pinned(b0) == p0 && lh[tail] in p0)
      requires forall a :: a in p0 ==> !g.InLog(a)
      modifies bc, bc.buf, bc.memdisk
      ensures Installing(b0, d0, v0, p0, tail + 1)
      ensures bc.trace == old(bc.trace) + [bc.memdisk[..]]
      ensures bc.memdisk[..] == Install(g, d0, lh, tail + 1)
    {
      hide Coherent, Linked, Order, Quiet, Visible, Pinned, CleanAlike, OneClean, TwoClean, RoomFor;
      InstallTurnStep(g, d0, v0, p0, lh, tail);
      RoomToInstall(b0, bc.buf[..], p0, lh, tail);
      CleanIsOnDisk(bc.buf[..], bc.memdisk[..], g.start + tail + 1);
      ghost var b1 := bc.buf[..];
      InstallBlock(g.start + tail + 1, lh[tail]);
      CleanAlikeTrans(b0, b1, bc.buf[..]);
    }

    /** write_log copies every listed block as the cache has it. */
    method WriteLog()
      requires Idle() && HeadOk()
      requires OneClean(bc.buf[..]) && forall i :: 0 <= i < |lh| ==> lh[i] in Pinned(bc.buf[..])
      requires forall a :: a in Pinned(bc.buf[..]) ==> !g.InLog(a)
      modifies bc, bc.buf, bc.memdisk
      ensures bc.Valid() && Quiet(bc.buf[..])
      ensures bc.memdisk[..] == Copied(g, old(bc.memdisk[..]), old(bc.View()), lh, |lh|)
      ensures bc.View() == Copied(g, old(bc.View()), old(bc.View()), lh, |lh|)
      ensures bc.trace == old(bc.trace) + Copies(g, old(bc.memdisk[..]), old(bc.View()), lh, |lh|)
      ensures Pinned(bc.buf[..]) == old(Pinned(bc.buf[..]))
      ensures CleanAlike(old(bc.buf[..]), bc.buf[..])
    {
      hide *;
      ghost var b0, d0, v0, p0 := bc.buf[..], bc.memdisk[..], bc.View(), Pinned(bc.buf[..]);
      LoggingStarts();
      var tail := 0;
      while tail < |lh|
        invariant tail <= |lh|
        invariant Logging(b0, d0, v0, p0, tail)
        invariant bc.trace == old(bc.trace) + Copies(g, d0, v0, lh, tail)
      {
        LogTurn(b0, d0, v0, p0, tail);
        CopiesNext(g, d0, v0, lh, tail);
        Snoc(old(bc.trace), Copies(g, d0, v0, lh, tail), bc.memdisk[..]);
        tail := tail + 1;
      }
      LoggingMeans(b0, d0, v0, p0, tail);
    }

    lemma {:induction false} LoggingStarts()
      requires Idle() && HeadOk()
      ensures var d0, v0 := bc.memdisk[..], bc.View();
              && |lh| < g.size && g.start + g.size <= |d0| == |v0| && AllHome(g, |d0|, lh)
              && Logging(bc.buf[..], d0, v0, Pinned(bc.buf[..]), 0)
              && Copies(g, d0, v0, lh, 0) == []
    {
      hide Coherent, Linked, Order, Quiet, Visible, Pinned, Distinct;
    }

    lemma {:induction false} LoggingMeans(b0: seq<Buf>, d0: Image, v0: Image, p0: set<nat>, k: nat)
      requires k <= |lh| < g.size && g.start + g.size <= |d0| == |v0| && AllHome(g, |d0|, lh)
      requires Logging(b0, d0, v0, p0, k)
      ensures bc.Valid() && Quiet(bc.buf[..])
      ensures bc.memdisk[..] == Copied(g, d0, v0, lh, k)
      ensures bc.View() == Copied(g, v0, v0, lh, k)
      ensures Pinned(bc.buf[..]) == p0 && CleanAlike(b0, bc.buf[..])
    {
    }

    /** The log has taken the first k blocks; everything else is as at first. */
    ghost predicate Logging(b0: seq<Buf>, d0: Image, v0: Image, p0: set<nat>, k: nat)
      reads this, bc, bc.buf, bc.memdisk
      requires k <= |lh| < g.size && g.start + g.size <= |d0| == |v0| && AllHome(g, |d0|, lh)
    {
      && bc.Valid() && Quiet(bc.buf[..])
      && bc.memdisk[..] == Copied(g, d0, v0, lh, k)
      && bc.View() == Copied(g, v0, v0, lh, k)
      && Pinned(bc.buf[..]) == p0
      && CleanAlike(b0, bc.buf[..])
    }

    method LogTurn(ghost b0: seq<Buf>, ghost d0: Image, ghost v0: Image, ghost p0: set<nat>, tail: nat)
      requires tail < |lh| < g.size && g.start + g.size <= |d0| == |v0| && AllHome(g, |d0|, lh)
      requires Logging(b0, d0, v0, p0, tail)
      requires OneClean(b0) && Pinned(b0) == p0 && lh[tail] in p0
      requires forall a :: a in p0 ==> !g.InLog(a)
      modifies bc, bc.buf, bc.memdisk
      ensures Logging(b0, d0, v0, p0, tail + 1)
      ensures bc.trace == old(bc.trace) + [bc.memdisk[..]]
      ensures bc.memdisk[..] == Copied(g, d0, v0, lh, tail + 1)
    {
      hide Coherent, Linked, Order, Quiet, Visible, Pinned, CleanAlike, OneClean;
      LogTurnStep(g, d0, v0, p0, lh, tail);
      RoomKept(b0, bc.buf[..], lh[tail]);
      ghost var b1 := bc.buf[..];
      LogBlock(g.start + tail + 1, lh[tail]);
      CleanAlikeTrans(b0, b1, bc.buf[..]);
    }

    /** write_head: one block write puts n and the block numbers on disk. */
    method WriteHead()
      requires bc.Valid() && Quiet(bc.buf[..]) && OneClean(bc.buf[..])
      requires g.start < bc.memdisk.Length && g.start !in Pinned(bc.buf[..])
      requires bc.memdisk[g.start].Header? && |lh| <= |bc.memdisk[g.start].block|
      modifies bc, bc.buf, bc.memdisk
      ensures bc.Valid() && Quiet(bc.buf[..])
      ensures bc.memdisk[..] == old(bc.memdisk[..])[g.start := HeadFor(lh, old(bc.memdisk[g.start]))]
      ensures bc.View() == old(bc.View())[g.start := HeadFor(lh, old(bc.memdisk[g.start]))]
      ensures bc.trace == old(bc.trace) + [bc.memdisk[..]]
      ensures Pinned(bc.buf[..]) == old(Pinned(bc.buf[..]))
      ensures CleanAlike(old(bc.buf[..]), bc.buf[..])
    {
      hide Coherent, Linked, Order, Quiet, Visible, Pinned, CleanAlike, OneClean, Settled, One, RoomFor, Reachable;
      ValidMeans();
      CleanIsOnDisk(bc.buf[..], bc.memdisk[..], g.start);
      var b := BreadFirst(g.start);
      ghost var b1 := bc.buf[..];
      OneHeld(b1, b);
      var hb := bc.buf[b].data;
      ghost var was := hb;
      hb := hb.(n := |lh|);
      var i := 0;
      while i < |lh|
        invariant i <= |lh|
        invariant hb == Header(|lh|, lh[..i] + was.block[i..])
      {
        hb := hb.(block := hb.block[i := lh[i]]);
        i := i + 1;
      }
      assert lh[..|lh|] == lh;
      StoreThrough(b, g.start, hb);
      ghost var b2 := bc.buf[..];
      BrelseLast(b);
      CleanAlikeTrans(b1, b2, bc.buf[..]);
      CleanAlikeTrans(old(bc.buf[..]), b1, bc.buf[..]);
    }

    /** New data for the only buffer held, which holds block dst, and bwrite. */
    method StoreThrough(b: nat, ghost dst: nat, v: Block)
      requires bc.Valid() && One(bc.buf[..], b)
      requires bc.buf[b].valid && InUse(bc.buf[b], dst) && dst < bc.memdisk.Length
      modifies bc`trace, bc.buf, bc.memdisk
      ensures bc.Valid() && One(bc.buf[..], b) && Settled(bc.buf[..], bc.memdisk[..], b)
      ensures bc.memdisk[..] == old(bc.memdisk[..])[dst := v]
      ensures bc.trace == old(bc.trace) + [bc.memdisk[..]]
      ensures bc.View() == old(bc.View())[dst := v]
      ensures Pinned(bc.buf[..]) == old(Pinned(bc.buf[..])) - {dst}
      ensures CleanAlike(old(bc.buf[..]), bc.buf[..])
    {
      hide Linked, Order;
      ghost var b0, d0 := bc.buf[..], bc.memdisk[..];
      bc.SetData(b, v);
      ghost var b1 := bc.buf[..];
      AfterStore(b0, d0, b1, b);
      bc.Bwrite(b);
      AfterStore(b1, d0, bc.buf[..], b);
    }

    /** read_head. */
    method ReadHead()
      requires Idle() && OneClean(bc.buf[..]) && g.start !in Pinned(bc.buf[..])
      modifies this`lh, bc, bc.buf, bc.memdisk
      ensures bc.Valid() && Quiet(bc.buf[..])
      ensures bc.memdisk[..] == old(bc.memdisk[..]) && bc.trace == old(bc.trace)
      ensures lh == Logged(bc.memdisk[g.start])
      ensures bc.View() == old(bc.View())
      ensures Pinned(bc.buf[..]) == old(Pinned(bc.buf[..]))
      ensures CleanAlike(old(bc.buf[..]), bc.buf[..])
    {
      hide Coherent, Linked, Order, Quiet, Visible, Pinned;
      CleanIsOnDisk(bc.buf[..], bc.memdisk[..], g.start);
      var b := BreadFirst(g.start);
      var h := bc.buf[b].data;
      ghost var b1, d1 := bc.buf[..], bc.memdisk[..];
      lh := [];
      var i := 0;
      while i < h.n
        invariant i <= h.n && lh == h.block[..i]
        invariant bc.buf[..] == b1 && bc.memdisk[..] == d1
        modifies this`lh
      {
        lh := lh + [h.block[i]];
        i := i + 1;
      }
      BrelseLast(b);
    }

    /** recover_from_log, run at boot with nothing dirty in memory.  Whatever block
        write power fails after, recovering again leads to the same contents. */
    method RecoverFromLog()
      requires Idle() && Pinned(bc.buf[..]) == {}
      modifies this`lh, bc, bc.buf, bc.memdisk
      ensures Idle() && lh == [] && Pinned(bc.buf[..]) == {}
      ensures bc.memdisk[g.start].n == 0
      ensures SameHome(g, bc.memdisk[..], Recovered(g, old(bc.memdisk[..])))
      ensures old(bc.trace) <= bc.trace
      ensures AllRecoverTo(g, bc.trace[|old(bc.trace)|..], Recovered(g, old(bc.memdisk[..])))
    {
      hide *;
      ghost var d0, t0 := bc.memdisk[..], bc.trace;
      IdleMeans();
      NothingPinned(bc.buf[..], bc.memdisk[..], g);
      ReadHead();
      HeadReadOk(d0);
      NothingPinned(bc.buf[..], bc.memdisk[..], g);
      InstallTrans();
      ghost var n, d1 := |lh|, bc.memdisk[..];
      UnpinnedEmpty(lh, n);
      ValidMeans();
      NothingPinned(bc.buf[..], bc.memdisk[..], g);
      InstalledImage(g, d0, lh, n);
      lh := [];
      WriteHead();
      ClearedImage(g, d0, d1, bc.memdisk[..]);
      InstallsRecover(g, d0, n);
      TracesRecover(g, t0, Installs(g, d0, Logged(d0[g.start]), n), bc.memdisk[..], bc.trace, Recovered(g, d0));
      BecomesIdle();
    }

    /** The cache pins exactly the listed blocks. */
    ghost predicate PinsTheLog()
      reads this`lh, bc.buf
    {
      forall a :: a in Pinned(bc.buf[..]) <==> a in lh
    }

    /** commit.  The disk passes through write_log's images, which recover to the
        old contents, then the header write and what follows it, which recover
        to what the cache shows. */
    method Commit()
      requires Idle() && HeadOk() && PinsTheLog() && |lh| < NBUF
      requires bc.memdisk[g.start].n == 0
      modifies this`lh, bc, bc.buf, bc.memdisk
      ensures Idle() && lh == [] && Pinned(bc.buf[..]) == {}
      ensures bc.memdisk[g.start].n == 0
      ensures SameHome(g, bc.memdisk[..], old(bc.View()))
      ensures old(bc.trace) <= bc.trace
      ensures var more, n := bc.trace[|old(bc.trace)|..], |old(lh)|;
              && (n == 0 ==> more == [])
              && (n > 0 ==> |more| == 2 * n + 2)
              && (n > 0 ==> AllRecoverTo(g, more[..n], old(bc.memdisk[..])))
              && (n > 0 ==> AllRecoverTo(g, more[n..], old(bc.View())))
    {
      hide *;
      CommitStarts();
      ghost var d0, v0, t0, lh0, b0 := bc.memdisk[..], bc.View(), bc.trace, lh, bc.buf[..];
      ghost var p0 := Pinned(b0);
      if |lh| > 0 {
        WriteLog();
        ghost var d1 := bc.memdisk[..];
        LoggedImages(g, d0, v0, lh, |lh|);
        GoodHead(g, d1);
        RoomKept(b0, bc.buf[..], 0);
        ghost var b1 := bc.buf[..];
        WriteHead();
        ghost var d2 := bc.memdisk[..];
        CommittedImage(g, d0, v0, d1, d2, lh);
        GoodHead(g, d2);
        RoomKept(b1, bc.buf[..], 0);
        BecomesIdle();
        ListFits();
        InstallTrans();
        ghost var d3 := bc.memdisk[..];
        InstalledImage(g, d2, lh, |lh|);
        GoodHead(g, d3);
        AllUnpinned(p0, lh0);
        ValidMeans();
        NothingPinned(bc.buf[..], bc.memdisk[..], g);
        lh := [];
        WriteHead();
        ClearedImage(g, d2, d3, bc.memdisk[..]);
        InstallsRecover(g, d2, |lh0|);
        CommitTrace(g, t0, Copies(g, d0, v0, lh0, |lh0|), d2, Installs(g, d2, lh0, |lh0|), bc.memdisk[..], bc.trace, d0, v0);
        BecomesIdle();
      }
    }

    lemma {:induction false} CommitStarts()
      requires Idle() && HeadOk() && PinsTheLog() && |lh| < NBUF
      ensures bc.Valid() && Quiet(bc.buf[..]) && OneClean(bc.buf[..]) && GoodImage(g, bc.memdisk[..])
      ensures g.start < bc.memdisk.Length == |bc.View()| && |lh| <= LOGSIZE && |lh| < g.size
      ensures AllHome(g, bc.memdisk.Length, lh) && Distinct(lh)
      ensures forall i :: 0 <= i < |lh| ==> lh[i] in Pinned(bc.buf[..])
      ensures forall a :: a in Pinned(bc.buf[..]) ==> a in lh && !g.InLog(a)
      ensures g.start !in Pinned(bc.buf[..])
      ensures forall a :: 0 <= a < bc.memdisk.Length && !g.InLog(a) && a !in lh ==> bc.memdisk[..][a] == bc.View()[a]
      ensures lh == [] ==> Pinned(bc.buf[..]) == {} && SameHome(g, bc.memdisk[..], bc.View())
    {
      hide Linked, Order, OnePerBlock, Agrees, Quiet, OneClean;
      ListLeavesRoom(bc.buf[..], bc.memdisk[..], lh);
      forall a | 0 <= a < bc.memdisk.Length && a !in lh ensures bc.memdisk[..][a] == bc.View()[a] {
        CleanIsOnDisk(bc.buf[..], bc.memdisk[..], a);
      }
    }

    lemma {:induction false} ListFits()
      requires |lh| <= LOGSIZE && |lh| < g.size && AllHome(g, bc.memdisk.Length, lh) && Distinct(lh)
      ensures HeadOk()
    {
    }

    /** All that was pinned has been installed. */
    lemma {:induction false} AllUnpinned(p: set<nat>, lh0: seq<nat>)
      requires forall a :: a in p ==> a in lh0
      ensures Unpinned(p, lh0, |lh0|) == {}
    {
      UnpinnedAre(p, lh0, |lh0|);
      assert lh0[..|lh0|] == lh0;
    }

    /** log_write, on a held buffer with a home block.  False is one of its two
        panics; the tests come before the list is searched. */
    method LogWrite(b: nat) returns (ok: bool)
      requires bc.Valid() && b < NBUF && bc.buf[b].locked && bc.buf[b].valid && bc.buf[b].dev == 1
      requires bc.buf[b].blockno < bc.memdisk.Length && !g.InLog(bc.buf[b].blockno)
      requires HeadOk()
      modifies this`lh, bc.buf
      ensures ok <==> |old(lh)| < LOGSIZE && |old(lh)| < g.size - 1 && outstanding >= 1
      ensures !ok ==> lh == old(lh) && bc.buf[..] == old(bc.buf[..])
      ensures ok ==> lh == if old(bc.buf[b].blockno) in old(lh) then old(lh) else old(lh) + [old(bc.buf[b].blockno)]
      ensures ok ==> bc.Valid() && HeadOk() && bc.View() == old(bc.View())
      ensures ok ==> bc.buf[..] == old(bc.buf[..])[b := old(bc.buf[b]).(dirty := true)]
      ensures ok ==> Pinned(bc.buf[..]) == old(Pinned(bc.buf[..])) + {old(bc.buf[b].blockno)}
    {
      hide Linked, Order, Agrees;
      if |lh| >= LOGSIZE || |lh| >= g.size - 1 || outstanding < 1 {
        return false;
      }
      var a := bc.buf[b].blockno;
      ghost var b0, d0 := bc.buf[..], bc.memdisk[..];
      var i := 0;
      while i < |lh| && lh[i] != a
        invariant i <= |lh| && a !in lh[..i]
      {
        i := i + 1;
      }
      bc.MarkDirty(b);
      AfterStore(b0, d0, bc.buf[..], b);
      if i == |lh| {
        lh := lh + [a];
      } else {
        lh := lh[i := a];
      }
      return true;
    }

    /** One block of an operation: bread, log_write, brelse. */
    method LogBread(x: nat) returns (ok: bool)
      requires bc.Valid() && Quiet(bc.buf[..]) && HeadOk() && PinsTheLog() && |lh| < NBUF
      requires x < bc.memdisk.Length && !g.InLog(x)
      modifies this`lh, bc`trace, bc`order, bc.buf, bc.memdisk
      ensures ok <==> |old(lh)| < LOGSIZE && |old(lh)| < g.size - 1 && outstanding >= 1
      ensures ok ==> bc.Valid() && Quiet(bc.buf[..]) && HeadOk() && PinsTheLog() && bc.View() == old(bc.View())
      ensures ok ==> lh == if x in old(lh) then old(lh) else old(lh) + [x]
      ensures bc.memdisk[..] == old(bc.memdisk[..])
    {
      hide Coherent, Linked, Order, Quiet, Visible, Pinned, OneClean, Settled, One;
      ValidMeans();
      ListLeavesRoom(bc.buf[..], bc.memdisk[..], lh);
      var p := BreadFirst(x);
      ghost var b0 := bc.buf[..];
      OneHeld(b0, p);
      ok := LogWrite(p);
      if ok {
        OneDirty(b0, bc.memdisk[..], bc.buf[..], p);
        BrelseLast(p);
      }
    }

    lemma {:induction false} OneHeld(b: seq<Buf>, p: nat)
      requires One(b, p)
      ensures |b| == NBUF + 1 && p < NBUF && b[p].locked
    {
    }

    lemma {:induction false} OneDirty(b: seq<Buf>, d: Image, c: seq<Buf>, p: nat)
      requires One(b, p) && c == b[p := b[p].(dirty := true)]
      ensures One(c, p) && Settled(c, d, p)
    {
    }

    /** One pass of begin_op's loop: false means that the caller sleeps on the log. */
    method BeginOp() returns (admitted: bool)
      modifies this`outstanding
      ensures admitted <==> !committing && |lh| + (old(outstanding) + 1) * MAXOPBLOCKS <= LOGSIZE
      ensures outstanding == old(outstanding) + if admitted then 1 else 0
    {
      if committing {
        return false;
      } else if |lh| + (outstanding + 1) * MAXOPBLOCKS > LOGSIZE {
        return false;
      }
      outstanding := outstanding + 1;
      return true;
    }

    /** end_op: the last operation to end commits for all of them. */
    method EndOp()
      requires !committing && outstanding >= 1
      requires outstanding == 1 ==> Idle() && HeadOk() && PinsTheLog() && |lh| < NBUF && bc.memdisk[g.start].n == 0
      modifies this, bc, bc.buf, bc.memdisk
      ensures !committing && outstanding == old(outstanding) - 1
      ensures old(outstanding) > 1 ==>
                lh == old(lh) && bc.buf[..] == old(bc.buf[..]) && bc.memdisk[..] == old(bc.memdisk[..]) && bc.trace == old(bc.trace)
                && bc.order == old(bc.order)
      ensures old(outstanding) == 1 ==>
                Idle() && lh == [] && bc.memdisk[g.start].n == 0 && SameHome(g, bc.memdisk[..], old(bc.View()))
    {
      hide *;
      var doCommit := false;
      outstanding := outstanding - 1;
      if outstanding == 0 {
        doCommit := true;
        committing := true;
      }
      if doCommit {
        Commit();
        committing := false;
      }
    }
  }
}

/** The state in which commit finds no buffer.  It needs a log of more than LOGSIZE blocks. */
module FullLog {
  import opened Params
  import opened Disk
  import opened Bio
  import opened Holding
  import opened LogImages
  import Log

  /** With NBUF blocks pinned, bget of any other block panics. */
  lemma {:induction false} NoBufferLeft(bc: Bcache, a: nat)
    requires bc.Valid() && |Pinned(bc.buf[..])| >= NBUF && a !in Pinned(bc.buf[..])
    ensures !bc.Cached(1, a) && !bc.SomeRecyclable()
  {
    hide Linked, Order, OnePerBlock, Agrees, Pinned;
    AllPinned(bc.buf[..], bc.memdisk[..]);
    forall i | 0 <= i < NBUF ensures !bc.Holds(bc.buf[i], 1, a) && !Recyclable(bc.buf[i]) {
      assert bc.buf[..][i] == bc.buf[i];
    }
  }

  /** The first i blocks behind the log have been logged. */
  ghost predicate Filling(lg: Log.Log, image: Image, i: nat)
    reads lg, lg.bc, lg.bc.buf, lg.bc.memdisk
  {
    && lg.bc.Valid() && Quiet(lg.bc.buf[..]) && lg.bc.memdisk[..] == image
    && lg.HeadOk() && lg.PinsTheLog()
    && lg.lh == seq(i, j requires 0 <= j < i => lg.g.start + lg.g.size + j)
  }

  method FillOne(lg: Log.Log, ghost image: Image, i: nat)
    requires Filling(lg, image, i) && i < LOGSIZE < lg.g.size && lg.g.start + lg.g.size + LOGSIZE <= |image|
    requires lg.outstanding >= 1
    modifies lg`lh, lg.bc, lg.bc.buf, lg.bc.memdisk
    ensures Filling(lg, image, i + 1)
  {
    hide Coherent, Linked, Order, Pinned, Visible, Quiet;
    ghost var was := lg.lh;
    var ok := lg.LogBread(lg.g.start + lg.g.size + i);
    assert lg.lh == was + [lg.g.start + lg.g.size + i];
  }

  lemma {:induction false} Filled(lg: Log.Log, image: Image)
    requires Filling(lg, image, LOGSIZE) && GoodImage(lg.g, image) && LOGSIZE < lg.g.size
    ensures lg.Idle() && lg.HeadOk() && lg.PinsTheLog() && |lg.lh| == LOGSIZE
    ensures lg.bc.buf.Length == NBUF + 1 && !lg.bc.Cached(1, lg.g.start + 1) && !lg.bc.SomeRecyclable()
  {
    hide Linked, Order, OnePerBlock, Agrees, Pinned, Visible, Quiet;
    AllListed(lg);
    NoBufferLeft(lg.bc, lg.g.start + 1);
  }

  lemma {:induction false} AllListed(lg: Log.Log)
    requires lg.PinsTheLog() && lg.HeadOk()
    ensures |Pinned(lg.bc.buf[..])| == |lg.lh|
    ensures forall a :: a in Pinned(lg.bc.buf[..]) ==> !lg.g.InLog(a)
  {
    hide Pinned;
    ElemsSize(lg.lh);
    assert Pinned(lg.bc.buf[..]) == Elems(lg.lh);
  }

  /** Three operations of ten blocks each, within their budgets: when the last of them ends, the bread with which
      write_log starts panics. */
  method CommitFindsNoBuffer(image: Image, g: Layout) returns (bc: Bcache, lg: Log.Log, r: Got)
    requires GoodImage(g, image) && image[g.start].n == 0 && LOGSIZE < g.size && g.start + g.size + LOGSIZE <= |image|
    ensures lg.bc == bc && lg.g == g && !lg.committing && lg.outstanding == 1 && |lg.lh| == LOGSIZE
    ensures lg.PinsTheLog() && lg.HeadOk() && lg.Idle()
    ensures r.NoBuffers?
  {
    hide Filling, Linked, Order, Coherent, Pinned, Quiet, Visible, GoodImage;
    bc := new Bcache(image);
    lg := new Log.Log(bc, g);
    var ok1 := lg.BeginOp();
    var ok2 := lg.BeginOp();
    var ok3 := lg.BeginOp();
    NewCache(lg, image);
    var i := 0;
    while i < LOGSIZE
      invariant i <= LOGSIZE && lg.outstanding == 3 && !lg.committing && Filling(lg, image, i)
      modifies lg`lh, bc, bc.buf, bc.memdisk
    {
      FillOne(lg, image, i);
      i := i + 1;
    }
    EndTwo(lg, image);
    Filled(lg, image);
    r := bc.Bget(1, g.start + 1);
  }

  method EndTwo(lg: Log.Log, ghost image: Image)
    requires Filling(lg, image, LOGSIZE) && lg.outstanding == 3 && !lg.committing
    modifies lg, lg.bc, lg.bc.buf, lg.bc.memdisk
    ensures Filling(lg, image, LOGSIZE) && lg.outstanding == 1 && !lg.committing
  {
    hide Coherent, Linked, Order, Pinned, Quiet;
    lg.EndOp();
    lg.EndOp();
  }

  lemma {:induction false} NewCache(lg: Log.Log, image: Image)
    requires lg.bc.Valid() && forall i :: 0 <= i < NBUF ==> Recyclable(lg.bc.buf[i]) && lg.bc.buf[i].dev == 0
    requires lg.lh == [] && lg.bc.memdisk[..] == image && 1 <= lg.g.size
    ensures Filling(lg, image, 0)
  {
  }
}
