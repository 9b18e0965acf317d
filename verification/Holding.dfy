// Bookkeeping for code that holds one or two buffers of the cache at a time.

module Holding {
  import opened Params
  import opened Disk
  import opened Bio

  predicate Free(x: Buf) {
    !x.locked && x.refcnt == 0
  }

  predicate Busy(x: Buf) {
    x.locked && x.refcnt == 1
  }

  /** No buffer is held. */
  predicate Quiet(b: seq<Buf>) {
    |b| == NBUF + 1 && forall i :: 0 <= i < NBUF ==> Free(b[i])
  }

  /** Buffer p alone is held. */
  predicate One(b: seq<Buf>, p: nat) {
    |b| == NBUF + 1 && p < NBUF && Busy(b[p]) && forall i :: 0 <= i < NBUF && i != p ==> Free(b[i])
  }

  /** Buffers p and q alone are held. */
  predicate Pair(b: seq<Buf>, p: nat, q: nat) {
    && |b| == NBUF + 1 && p < NBUF && q < NBUF && p != q && Busy(b[p]) && Busy(b[q])
    && forall i :: 0 <= i < NBUF && i != p && i != q ==> Free(b[i])
  }

  predicate TwoClean(b: seq<Buf>) {
    exists i, j :: 0 <= i < j < |b| - 1 && !b[i].dirty && !b[j].dirty
  }

  predicate OneClean(b: seq<Buf>) {
    exists i :: 0 <= i < |b| - 1 && !b[i].dirty
  }

  /** Every buffer that was clean still is. */
  predicate CleanAlike(b: seq<Buf>, c: seq<Buf>) {
    |b| == |c| && forall i :: 0 <= i < |b| && !b[i].dirty ==> !c[i].dirty
  }

  /** There are buffers for two blocks, of which the second may be y. */
  predicate RoomFor(b: seq<Buf>, y: nat) {
    TwoClean(b) || (OneClean(b) && y in Pinned(b))
  }

  /** bread of block y finds a buffer. */
  predicate Reachable(b: seq<Buf>, y: nat) {
    |b| == NBUF + 1 && exists k :: 0 <= k < NBUF && (InUse(b[k], y) || Recyclable(b[k]))
  }

  /** Buffer r may be released. */
  predicate Settled(b: seq<Buf>, d: Image, r: nat) {
    r < |b| && (b[r].dirty || (b[r].blockno < |d| && b[r].data == d[b[r].blockno]))
  }

  // ----- one call at a time

  /** What bread of block a does to the buffers. */
  predicate ReadStep(b: seq<Buf>, c: seq<Buf>, r: nat, a: nat) {
    && r < NBUF && |b| == |c| == NBUF + 1 && c == b[r := c[r]]
    && InUse(c[r], a) && c[r].locked
    && (forall i :: 0 <= i < NBUF && InUse(b[i], a) ==> !b[i].locked)
    && (if InUse(b[r], a) then c[r].dirty == b[r].dirty && c[r].refcnt == b[r].refcnt + 1
        else Recyclable(b[r]) && !c[r].dirty && c[r].refcnt == 1)
  }

  lemma {:induction false} ReadPins(b: seq<Buf>, d: Image, c: seq<Buf>, r: nat, a: nat)
    requires Coherent(b, d) && ReadStep(b, c, r, a)
    ensures Pinned(c) == Pinned(b) && CleanAlike(b, c)
  {
    forall x | x in Pinned(b) ensures x in Pinned(c) {
      var i :| 0 <= i < |b| && b[i].dev == 1 && b[i].dirty && b[i].blockno == x;
      assert c[i].dev == 1 && c[i].dirty && c[i].blockno == x;
    }
  }

  lemma {:induction false} FirstRead(b: seq<Buf>, d: Image, c: seq<Buf>, p: nat, x: nat)
    requires Coherent(b, d) && Quiet(b) && ReadStep(b, c, p, x)
    ensures One(c, p) && Pinned(c) == Pinned(b) && CleanAlike(b, c)
  {
    ReadPins(b, d, c, p, x);
    assert Free(b[p]);
  }

  lemma {:induction false} SecondRead(b: seq<Buf>, d: Image, c: seq<Buf>, p: nat, q: nat, y: nat)
    requires Coherent(b, d) && One(b, p) && ReadStep(b, c, q, y)
    ensures Pair(c, p, q) && c[p] == b[p] && Pinned(c) == Pinned(b) && CleanAlike(b, c)
  {
    ReadPins(b, d, c, q, y);
    assert q != p ==> Free(b[q]);
  }

  /** After one read there still is a buffer for block y. */
  lemma {:induction false} BufferFor(b: seq<Buf>, d: Image, c: seq<Buf>, p: nat, x: nat, y: nat) returns (k: nat)
    requires Coherent(b, d) && Quiet(b) && ReadStep(b, c, p, x) && RoomFor(b, y)
    ensures k < NBUF && (InUse(c[k], y) || Recyclable(c[k]))
  {
    FirstRead(b, d, c, p, x);
    if TwoClean(b) {
      var i, j :| 0 <= i < j < |b| - 1 && !b[i].dirty && !b[j].dirty;
      k := if i == p then j else i;
      assert Free(c[k]);
    } else {
      assert y in Pinned(c);
      k :| 0 <= k < |c| && c[k].dev == 1 && c[k].dirty && c[k].blockno == y;
    }
  }

  /** New data in buffer r, written through or marked dirty. */
  lemma {:induction false} AfterStore(b: seq<Buf>, d: Image, c: seq<Buf>, r: nat)
    requires Coherent(b, d) && r < NBUF && b[r].dev == 1
    requires |c| == |b| && c == b[r := b[r].(data := c[r].data, dirty := c[r].dirty)]
    ensures Pinned(c) == if c[r].dirty then Pinned(b) + {b[r].blockno} else Pinned(b) - {b[r].blockno}
    ensures !c[r].dirty ==> CleanAlike(b, c)
    ensures forall p :: One(b, p) ==> One(c, p)
    ensures forall p, q :: Pair(b, p, q) ==> Pair(c, p, q)
  {
    forall x | x in Pinned(b) && x != b[r].blockno ensures x in Pinned(c) {
      var i :| 0 <= i < |b| && b[i].dev == 1 && b[i].dirty && b[i].blockno == x;
      assert c[i].dev == 1 && c[i].dirty && c[i].blockno == x;
    }
    assert forall i :: 0 <= i < |c| && i != r ==> c[i] == b[i];
  }

  lemma {:induction false} AfterBrelse(b: seq<Buf>, c: seq<Buf>, r: nat)
    requires r < NBUF && |b| == NBUF + 1 && Busy(b[r])
    requires SameBufs(c, b[r := b[r].(locked := false, refcnt := 0)])
    ensures Pinned(c) == Pinned(b) && CleanAlike(b, c)
    ensures One(b, r) ==> Quiet(c)
    ensures forall q :: Pair(b, r, q) ==> One(c, q)
    ensures forall q, d :: q != r && Settled(b, d, q) ==> Settled(c, d, q)
  {
    forall x | x in Pinned(b) ensures x in Pinned(c) {
      var i :| 0 <= i < |b| && b[i].dev == 1 && b[i].dirty && b[i].blockno == x;
      assert c[i].dev == 1 && c[i].dirty && c[i].blockno == x;
    }
  }

  /** An idle, clean block looks the way it is on disk. */
  lemma {:induction false} CleanIsOnDisk(b: seq<Buf>, d: Image, a: nat)
    requires Coherent(b, d) && Quiet(b) && a < |d| && a !in Pinned(b)
    ensures Visible(b, d)[a] == d[a]
  {
    if i: nat :| i < |b| && InUse(b[i], a) && b[i].valid {
      SeenCached(b, d, i);
      assert i != HEAD && Free(b[i]) && !b[i].dirty;
    } else {
      SeenMissing(b, d, a);
    }
  }

  lemma {:induction false} RoomKept(b: seq<Buf>, c: seq<Buf>, y: nat)
    requires CleanAlike(b, c) && OneClean(b)
    requires Pinned(b) == Pinned(c)
    ensures OneClean(c) && (y in Pinned(b) ==> RoomFor(c, y))
  {
    var i :| 0 <= i < |b| - 1 && !b[i].dirty;
    assert !c[i].dirty;
  }

  lemma {:induction false} CleanAlikeTrans(b: seq<Buf>, c: seq<Buf>, d: seq<Buf>)
    requires CleanAlike(b, c) && CleanAlike(c, d)
    ensures CleanAlike(b, d)
  {
  }

  /** With nothing pinned every buffer can be recycled. */
  lemma {:induction false} NothingPinned(b: seq<Buf>, d: Image, g: Layout)
    requires Coherent(b, d) && Pinned(b) == {}
    ensures TwoClean(b) && OneClean(b)
    ensures forall a :: a in Pinned(b) ==> !g.InLog(a)
    ensures g.start !in Pinned(b)
  {
    assert !b[0].dirty && !b[1].dirty;
  }

  /** The pins left when the first k blocks have been installed. */
  function Unpinned(p: set<nat>, lh: seq<nat>, k: nat): set<nat>
    requires k <= |lh|
  {
    if k == 0 then p else Unpinned(p, lh, k - 1) - {lh[k - 1]}
  }

  lemma {:induction false} UnpinnedAre(p: set<nat>, lh: seq<nat>, k: nat)
    requires k <= |lh|
    ensures forall a :: a in Unpinned(p, lh, k) <==> a in p && a !in lh[..k]
  {
    if k > 0 {
      UnpinnedAre(p, lh, k - 1);
      assert lh[..k] == lh[..k - 1] + [lh[k - 1]];
    }
  }

  lemma {:induction false} RoomToInstall(b: seq<Buf>, c: seq<Buf>, p: set<nat>, lh: seq<nat>, k: nat)
    requires k < |lh| && Distinct(lh) && CleanAlike(b, c)
    requires TwoClean(b) || (OneClean(b) && Pinned(b) == p && lh[k] in p)
    requires Pinned(c) == Unpinned(p, lh, k)
    ensures RoomFor(c, lh[k])
    ensures OneClean(c)
  {
    UnpinnedAre(p, lh, k);
    if TwoClean(b) {
      var i, j :| 0 <= i < j < |b| - 1 && !b[i].dirty && !b[j].dirty;
      assert !c[i].dirty && !c[j].dirty;
    } else {
      var i :| 0 <= i < |b| - 1 && !b[i].dirty;
      assert !c[i].dirty;
    }
  }

  lemma {:induction false} UnpinnedEmpty(lh: seq<nat>, k: nat)
    requires k <= |lh|
    ensures Unpinned({}, lh, k) == {}
  {
    UnpinnedAre({}, lh, k);
  }

  /** There is a buffer to recycle for the log blocks exactly when fewer than
      NBUF blocks are pinned. */
  lemma {:induction false} SpareBuffer(b: seq<Buf>, d: Image)
    requires Coherent(b, d)
    ensures OneClean(b) <==> |Pinned(b)| < NBUF
  {
    var n := |b| - 1;
    PinnedSize(b, d, n);
    PinnedAll(b, d);
    AllDirty(b, n);
    hide Coherent, Pinned, PinnedBelow, NumDirty;
    if i: nat :| i < n && !b[i].dirty {}
  }

  /** A list of fewer than NBUF blocks, all of those pinned, leaves a buffer to recycle. */
  lemma {:induction false} ListLeavesRoom(b: seq<Buf>, d: Image, lh: seq<nat>)
    requires Coherent(b, d) && |lh| < NBUF && forall a :: a in Pinned(b) <==> a in lh
    ensures OneClean(b)
  {
    hide Coherent, Pinned, OneClean;
    assert Pinned(b) == Elems(lh);
    ElemsSize(lh);
    SpareBuffer(b, d);
  }

  /** With NBUF blocks pinned every buffer holds one of them. */
  lemma {:induction false} AllPinned(b: seq<Buf>, d: Image)
    requires Coherent(b, d) && |Pinned(b)| >= NBUF
    ensures forall i :: 0 <= i < NBUF ==> !Recyclable(b[i]) && b[i].dev == 1 && b[i].blockno in Pinned(b)
  {
    SpareBuffer(b, d);
    hide OnePerBlock, Agrees;
    forall i | 0 <= i < NBUF ensures b[i].dirty {
    }
  }

  function NumDirty(b: seq<Buf>, k: nat): (r: nat)
    requires k <= |b|
    ensures r <= k
  {
    if k == 0 then 0 else NumDirty(b, k - 1) + if b[k - 1].dirty then 1 else 0
  }

  lemma {:induction false} AllDirty(b: seq<Buf>, k: nat)
    requires k <= |b|
    ensures NumDirty(b, k) == k <==> forall i :: 0 <= i < k ==> b[i].dirty
  {
    if k > 0 { AllDirty(b, k - 1); }
  }

  function PinnedBelow(b: seq<Buf>, k: nat): set<nat>
    requires k <= |b|
  {
    if k == 0 then {}
    else if b[k - 1].dirty then PinnedBelow(b, k - 1) + {b[k - 1].blockno}
    else PinnedBelow(b, k - 1)
  }

  lemma {:induction false} PinnedBy(b: seq<Buf>, k: nat, a: nat) returns (i: nat)
    requires k <= |b| && a in PinnedBelow(b, k)
    ensures i < k && b[i].dirty && b[i].blockno == a
  {
    i := k - 1;
    if !(b[i].dirty && b[i].blockno == a) { i := PinnedBy(b, k - 1, a); }
  }

  lemma {:induction false} Pins(b: seq<Buf>, k: nat, i: nat)
    requires i < k <= |b| && b[i].dirty
    ensures b[i].blockno in PinnedBelow(b, k)
  {
    if i < k - 1 { Pins(b, k - 1, i); }
  }

  lemma {:induction false} PinnedFresh(b: seq<Buf>, d: Image, k: nat)
    requires Coherent(b, d) && 0 < k <= |b| && b[k - 1].dirty
    ensures b[k - 1].blockno !in PinnedBelow(b, k - 1)
  {
    hide Agrees;
    if b[k - 1].blockno in PinnedBelow(b, k - 1) {
      var i := PinnedBy(b, k - 1, b[k - 1].blockno);
      assert false;
    }
  }

  lemma {:induction false} PinnedSize(b: seq<Buf>, d: Image, k: nat)
    requires Coherent(b, d) && k <= |b|
    ensures |PinnedBelow(b, k)| == NumDirty(b, k)
  {
    hide Coherent;
    if k > 0 {
      PinnedSize(b, d, k - 1);
      if b[k - 1].dirty { PinnedFresh(b, d, k); }
    }
  }

  lemma {:induction false} PinnedAll(b: seq<Buf>, d: Image)
    requires Coherent(b, d)
    ensures PinnedBelow(b, |b| - 1) == Pinned(b)
  {
    hide Agrees, OnePerBlock;
    var n := |b| - 1;
    forall a | a in Pinned(b) ensures a in PinnedBelow(b, n) {
      var i :| 0 <= i < |b| && b[i].dev == 1 && b[i].dirty && b[i].blockno == a;
      Pins(b, n, i);
    }
    forall a | a in PinnedBelow(b, n) ensures a in Pinned(b) {
      var i := PinnedBy(b, n, a);
    }
  }

  lemma {:induction false} PairSwaps(b: seq<Buf>, p: nat, q: nat)
    requires Pair(b, p, q)
    ensures Pair(b, q, p)
  {
  }
}
