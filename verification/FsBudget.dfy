// How many blocks one write transaction hands to the log, and the chunk size
// that keeps filewrite within its budget (OS-Lab-1/file.c:127-153).

module FsBudget {
  import opened Params
  import opened Disk
  import opened FsBlock
  import opened FsLayout
  import opened Sets
  import opened FsMap

  const FILEWRITE_MAX: nat := (MAXOPBLOCKS - 1 - 1 - 2) / 2 * BSIZE    // OS-Lab-1/file.c:133
  const LAB5_MAX: nat := (LOGSIZE - 1 - 1 - 2) / 2 * BSIZE             // OS-Lab-5/file.c:133

  /** The number of bitmap blocks. */
  function Bitmaps(sb: Super): nat
    requires sb.Valid()
  {
    (sb.size - 1) / BPB + 1
  }

  /** The used blocks become used' when n blocks are allocated. */
  ghost predicate Allocates(sb: Super, used: set<nat>, used': set<nat>, n: nat) {
    && LowestFirst(sb, used, used') && |used'| == |used| + n
    && (forall b: nat :: b in used' ==> sb.IsData(b))
  }

  /** The lowest blocks that were free are determined by their number. */
  lemma SameBlocks(sb: Super, u: set<nat>, u1: set<nat>, u2: set<nat>, n: nat)
    requires Allocates(sb, u, u1, n) && Allocates(sb, u, u2, n)
    ensures u1 == u2
  {
    if x :| x in u1 && x !in u2 {
      assert u2 <= u1;
      SubsetSize(u2 + {x}, u1);
    } else {
      SubsetSize(u1, u2);
      if y :| y in u2 && y !in u1 {
        SubsetSize(u1 + {y}, u2);
      }
    }
  }

  /** The file's number of blocks after a write. */
  function After(size: nat, off: nat, n: nat): nat {
    Max(BlocksFor(size), BlocksFor(off + n))
  }

  /** What a write of n bytes at off hands to an empty log: the blocks it spans, the bitmap blocks of those it
      allocates, the indirect block if it lists one of them, and the inode if the file grows. */
  ghost function Count(sb: Super, used: set<nat>, used': set<nat>, size: nat, off: nat, n: nat): nat {
    Spanned(off, n) + |Marks(sb, used' - used)|
      + (if BlocksFor(size) < After(size, off, n) && NDIRECT < After(size, off, n) then 1 else 0)
      + (if size < off + n then 1 else 0)
  }

  /** A write that starts with an empty log leaves exactly Count blocks in it. */
  lemma LoggedBlocks(sb: Super, v: Vol, v': Vol, k: Books, k': Books, i: nat, off: nat, s: seq<byte>, data: set<nat>)
    requires i < |k.nb| && i < |v.inodes| && k.nb[i] == BlocksFor(v.inodes[i].size)
    requires WriteDone(sb, v, v', k, k', i, off, s, data) && k.logged == {} && s != []
    requires Inv(sb, v, k.nb, k.owner) && Inv(sb, v', k'.nb, k'.owner)
    ensures |k'.logged| == Count(sb, k.owner.Keys, k'.owner.Keys, v.inodes[i].size, off, |s|)
    ensures Allocates(sb, k.owner.Keys, k'.owner.Keys,
                      NeedTo(BlocksFor(v.inodes[i].size), After(v.inodes[i].size, off, |s|)))
  {
    hide Inv, Spanned, BlocksFor, NeedTo, Max, LowestFirst, Marks, IndSet, IndPart, InodePart, Shape, DataOf, WriteDone,
      All;
    InvFacts(sb, v, k.nb, k.owner);
    InvFacts(sb, v', k'.nb, k'.owner);
    DoneBooks(sb, v, v', k, k', i, off, s, data);
    FourParts(sb, v', k'.nb, k'.owner, k'.owner.Keys - k.owner.Keys, data, k.nb[i], i, off, |s|, v.inodes[i].size);
    assert |k'.owner.Keys| == |k'.owner| && |k.owner.Keys| == |k.owner|;
  }

  lemma DoneBooks(sb: Super, v: Vol, v': Vol, k: Books, k': Books, i: nat, off: nat, s: seq<byte>, data: set<nat>)
    requires WriteDone(sb, v, v', k, k', i, off, s, data) && k.logged == {}
    requires k.nb[i] == BlocksFor(v.inodes[i].size)
    ensures i < |k.nb| == |v.inodes| == |v'.inodes| == |k'.nb| == sb.ninodes && |v'.inodes[i].addrs| == NDIRECT + 1
    ensures k.nb[i] <= k'.nb[i] == After(v.inodes[i].size, off, |s|)
    ensures |k'.owner| == |k.owner| + NeedTo(k.nb[i], k'.nb[i]) && LowestFirst(sb, k.owner.Keys, k'.owner.Keys)
    ensures k'.logged == All(Marks(sb, k'.owner.Keys - k.owner.Keys), data,
      IndPart(k.nb[i], k'.nb[i], IndSet(v'.inodes[i])), InodePart(sb, i, v.inodes[i].size, off, |s|))
    ensures |data| == Spanned(off, |s|) && DataOf(k'.owner, data, i, off / BSIZE, off + |s|)
  {
    hide Spanned, BlocksFor, NeedTo, Covers, OtherFiles, File, Splice, Fits, LowestFirst, Marks, IndSet, IndPart, InodePart,
      DataOf;
    var marks := Marks(sb, k'.owner.Keys - k.owner.Keys);
    assert k.logged + marks == marks;
  }

  /** Bitmap, data, indirect and inode blocks are different blocks. */
  lemma FourParts(sb: Super, v: Vol, nb: seq<nat>, owner: Owner, bs: set<nat>, data: set<nat>, n0: nat,
                  i: nat, off: nat, n: nat, size: nat)
    requires Inv(sb, v, nb, owner) && i < sb.ninodes && bs <= owner.Keys && 0 < n
    requires DataOf(owner, data, i, off / BSIZE, off + n)
    ensures i < |nb| == |v.inodes| && |v.inodes[i].addrs| == NDIRECT + 1
    ensures |All(Marks(sb, bs), data, IndPart(n0, nb[i], IndSet(v.inodes[i])), InodePart(sb, i, size, off, n))|
      == |Marks(sb, bs)| + |data| + (if n0 < nb[i] && NDIRECT < nb[i] then 1 else 0) + (if size < off + n then 1 else 0)
  {
    hide Inv, Marks, IndSet, IndPart, InodePart, DataOf, All;
    IndThere(sb, v, nb, owner, i);
    IndSize(n0, nb[i], v.inodes[i]);
    InodeSize(sb, i, size, off, n);
    MarksIn(sb, v, nb, owner, bs);
    DataIn(sb, v, nb, owner, data, i, off / BSIZE, off + n);
    FourApart(Marks(sb, bs), data, IndPart(n0, nb[i], IndSet(v.inodes[i])), InodePart(sb, i, size, off, n),
              sb, owner, i);
  }

  ghost function All(a: set<nat>, b: set<nat>, c: set<nat>, d: set<nat>): set<nat> {
    a + b + c + d
  }

  lemma MarksIn(sb: Super, v: Vol, nb: seq<nat>, owner: Owner, bs: set<nat>)
    requires Inv(sb, v, nb, owner) && bs <= owner.Keys
    ensures forall m: nat :: m in Marks(sb, bs) ==> sb.IsBitmap(m)
  {
    hide Inv, Marks;
    InvFacts(sb, v, nb, owner);
    MarksAt(sb, bs);
  }

  lemma DataIn(sb: Super, v: Vol, nb: seq<nat>, owner: Owner, data: set<nat>, i: nat, lo: nat, hi: nat)
    requires Inv(sb, v, nb, owner) && i < sb.ninodes && DataOf(owner, data, i, lo, hi)
    ensures forall b: nat :: b in data ==> b in owner && owner[b].Content? && sb.IsData(b)
    ensures sb.IBlock(i) < sb.bmapstart < sb.first
  {
    hide Inv;
    InvFacts(sb, v, nb, owner);
  }

  lemma InodeSize(sb: Super, i: nat, size: nat, off: nat, n: nat)
    requires 0 < n
    ensures |InodePart(sb, i, size, off, n)| == if size < off + n then 1 else 0
    ensures InodePart(sb, i, size, off, n) <= {sb.IBlock(i)}
  {
  }

  lemma IndSize(n: nat, n': nat, ip: Inode)
    requires |ip.addrs| == NDIRECT + 1 && (NDIRECT < n' <==> IndSet(ip) != {})
    ensures |IndPart(n, n', IndSet(ip))| == if n < n' && NDIRECT < n' then 1 else 0
    ensures IndPart(n, n', IndSet(ip)) <= IndSet(ip)
  {
  }

  lemma FourApart(a: set<nat>, b: set<nat>, c: set<nat>, d: set<nat>, sb: Super, owner: Owner, i: nat)
    requires forall x: nat :: x in a ==> sb.IsBitmap(x)
    requires forall x: nat :: x in b ==> x in owner && owner[x].Content? && sb.IsData(x)
    requires forall x :: x in c ==> x in owner && owner[x].Indirect? && sb.IsData(x)
    requires d <= {sb.IBlock(i)} && sb.IBlock(i) < sb.bmapstart < sb.first
    ensures |All(a, b, c, d)| == |a| + |b| + |c| + |d|
  {
    assert a !! b && (a + b) !! c && (a + b + c) !! d;
  }

  lemma MarksAt(sb: Super, bs: set<nat>)
    requires sb.Valid() && forall b: nat :: b in bs ==> sb.IsData(b)
    ensures forall m: nat :: m in Marks(sb, bs) ==> sb.IsBitmap(m)
    ensures |Marks(sb, bs)| <= Bitmaps(sb)
  {
    forall m: nat | m in Marks(sb, bs) ensures sb.IsBitmap(m) && m < sb.bmapstart + Bitmaps(sb) {
      var b :| b in bs && m == sb.BBlock(b);
      BitmapFits(sb, b);
    }
    assert Marks(sb, bs) <= Between(sb.bmapstart, sb.bmapstart + Bitmaps(sb));
    SubsetSize(Marks(sb, bs), Between(sb.bmapstart, sb.bmapstart + Bitmaps(sb)));
  }

  lemma {:induction false} MarksFew(sb: Super, bs: set<nat>)
    ensures |Marks(sb, bs)| <= |bs|
  {
    if b :| b in bs {
      MarksFew(sb, bs - {b});
      assert Marks(sb, bs) == Marks(sb, bs - {b}) + {sb.BBlock(b)};
    }
  }

  // ----- the order of one write's blocks

  /** The inode's block is none of the others. */
  lemma InodeApart(sb: Super, v: Vol, nb: seq<nat>, owner: Owner, bs: set<nat>, data: set<nat>, n0: nat,
                   i: nat, off: nat, n: nat)
    requires Inv(sb, v, nb, owner) && i < sb.ninodes && bs <= owner.Keys
    requires DataOf(owner, data, i, off / BSIZE, off + n)
    ensures i < |nb| == |v.inodes| && |v.inodes[i].addrs| == NDIRECT + 1
    ensures sb.IBlock(i) !in Marks(sb, bs) && sb.IBlock(i) !in data
    ensures sb.IBlock(i) !in IndPart(n0, nb[i], IndSet(v.inodes[i]))
  {
    hide Inv, Marks, IndSet, DataOf;
    IndThere(sb, v, nb, owner, i);
    MarksIn(sb, v, nb, owner, bs);
    DataIn(sb, v, nb, owner, data, i, off / BSIZE, off + n);
  }

  lemma CalmNothing()
    ensures Elems([]) == {} && Calm([])
  {
  }

  /** Fewer blocks than the budget, and then perhaps one that is none of them. */
  lemma CalmTail(u: seq<nat>, tail: seq<nat>)
    requires |Elems(u)| < MAXOPBLOCKS && |tail| <= 1 && (tail != [] ==> tail[0] !in Elems(u))
    ensures Calm(u + tail)
  {
    forall k | 0 <= k <= |u| ensures |Elems((u + tail)[..k])| < MAXOPBLOCKS {
      ElemsPrefix(u, tail, k);
    }
  }

  lemma ElemsPrefix(u: seq<nat>, tail: seq<nat>, k: nat)
    requires k <= |u|
    ensures |Elems((u + tail)[..k])| <= |Elems(u)|
  {
    assert (u + tail)[..k] == u[..k];
    SubsetSize(Elems(u[..k]), Elems(u));
  }

  /** A write that does not make the file longer allocates nothing. */
  lemma NotLonger(sb: Super, used: set<nat>, used': set<nat>, size: nat, off: nat, n: nat)
    requires off + n <= size && 0 < n <= FILEWRITE_MAX
    requires BlocksFor(size) <= After(size, off, n)
    requires Allocates(sb, used, used', NeedTo(BlocksFor(size), After(size, off, n)))
    ensures Count(sb, used, used', size, off, n) < MAXOPBLOCKS
  {
    NewOnes(sb, used, used');
    BlocksGrow(off + n, size);
    MarksFew(sb, used' - used);
  }

  /** One transaction of filewrite never logs a block again once its budget is used up. */
  lemma CalmWrite(sb: Super, v: Vol, v': Vol, k: Books, k': Books, i: nat, off: nat, s: seq<byte>, data: set<nat>,
                  u: seq<nat>, trace: seq<nat>)
    requires i < |k.nb| && i < |v.inodes| && k.nb[i] == BlocksFor(v.inodes[i].size) && InodesMatch(v', k.nb, i)
    requires WriteDone(sb, v, v', k, k', i, off, s, data) && k.logged == {} && 0 < |s| <= FILEWRITE_MAX
    requires Inv(sb, v, k.nb, k.owner) && Inv(sb, v', k'.nb, k'.owner) && i < |k'.nb|
    requires Elems(u) == LoopLog(sb, k, k', v', i, data) && trace == u + InodeTail(sb, i, v.inodes[i].size, off, |s|)
    requires |k'.logged| <= MAXOPBLOCKS
    ensures Calm(trace)
  {
    hide Inv, Spanned, BlocksFor, NeedTo, Max, LowestFirst, Marks, IndSet, IndPart, Shape, DataOf, WriteDone, Count,
      Allocates, Elems, Calm, FileSo;
    InvFacts(sb, v, k.nb, k.owner);
    InvFacts(sb, v', k'.nb, k'.owner);
    var ino := InodePart(sb, i, v.inodes[i].size, off, |s|);
    DoneParts(sb, v, v', k, k', i, off, s, data);
    InodeApart(sb, v', k'.nb, k'.owner, k'.owner.Keys - k.owner.Keys, data, k.nb[i], i, off, |s|);
    if ino == {} {
      LoggedBlocks(sb, v, v', k, k', i, off, s, data);
      NotLonger(sb, k.owner.Keys, k'.owner.Keys, v.inodes[i].size, off, |s|);
      assert k'.logged == Elems(u);
    } else {
      assert k'.logged == Elems(u) + {sb.IBlock(i)} && sb.IBlock(i) !in Elems(u);
    }
    CalmTail(u, InodeTail(sb, i, v.inodes[i].size, off, |s|));
  }

  /** What a chunk of filewrite logs, and in which order. */
  lemma ChunkLogged(sb: Super, v: Vol, v': Vol, k: Books, k': Books, i: nat, off: nat, s: seq<byte>, data: set<nat>,
                    u: seq<nat>, trace: seq<nat>)
    requires i < |k.nb| && i < |v.inodes| && k.nb[i] == BlocksFor(v.inodes[i].size) && InodesMatch(v', k.nb, i)
    requires WriteDone(sb, v, v', k, k', i, off, s, data) && k.logged == {} && 0 < |s| <= FILEWRITE_MAX
    requires Inv(sb, v, k.nb, k.owner) && Inv(sb, v', k'.nb, k'.owner) && i < |k'.nb| && off <= v.inodes[i].size
    requires Elems(u) == LoopLog(sb, k, k', v', i, data) && trace == u + InodeTail(sb, i, v.inodes[i].size, off, |s|)
    ensures |k'.logged| <= MAXOPBLOCKS && Calm(trace)
  {
    hide Inv, WriteDone, Count, Allocates, Elems, Calm, LoopLog, InodeTail, Largest, BlocksFor, NeedTo, Max;
    InvFacts(sb, v, k.nb, k.owner);
    LoggedBlocks(sb, v, v', k, k', i, off, s, data);
    LargestLeast(Bitmaps(sb));
    CostBound(Bitmaps(sb), v.inodes[i].size, off, |s|);
    CountBound(sb, k.owner.Keys, k'.owner.Keys, v.inodes[i].size, off, |s|);
    CalmWrite(sb, v, v', k, k', i, off, s, data, u, trace);
  }

  lemma LargestLeast(m: nat)
    ensures FILEWRITE_MAX <= Largest(m)
  {
  }

  lemma DoneParts(sb: Super, v: Vol, v': Vol, k: Books, k': Books, i: nat, off: nat, s: seq<byte>, data: set<nat>)
    requires WriteDone(sb, v, v', k, k', i, off, s, data)
    ensures i < sb.ninodes && i < |k.nb| && i < |k'.nb| && i < |v.inodes| && InodesMatch(v', k.nb, i)
    ensures k'.logged == LoopLog(sb, k, k', v', i, data) + InodePart(sb, i, v.inodes[i].size, off, |s|)
    ensures DataOf(k'.owner, data, i, off / BSIZE, off + |s|)
    ensures BlocksFor(v.inodes[i].size) == k.nb[i] ==> BlocksFor(v.inodes[i].size) <= After(v.inodes[i].size, off, |s|)
  {
    hide BlocksFor, NeedTo, Covers, OtherFiles, File, Splice, Fits, LowestFirst, LoopLog, InodePart, DataOf;
  }

  /** Every full chunk of the limit computed from LOGSIZE breaks the budget, whatever it writes and wherever. */
  lemma Lab5Breaks(sb: Super, v: Vol, v': Vol, k: Books, k': Books, i: nat, off: nat, s: seq<byte>, data: set<nat>)
    requires WriteDone(sb, v, v', k, k', i, off, s, data) && |s| == LAB5_MAX
    ensures MAXOPBLOCKS < 13 <= |k'.logged|
  {
    hide FileSo, Covers, LowestFirst, Marks, IndPart, InodePart, DataOf;
    assert Spanned(off, LAB5_MAX) >= 13;
    SubsetSize(data, k'.logged);
  }

  // ----- the largest chunk

  /** The state before a write of n bytes at off into file i, whose blocks are there to be had. */
  ghost predicate Before(sb: Super, v: Vol, nb: seq<nat>, owner: Owner, i: nat, off: nat, n: nat, used': set<nat>) {
    && sb.Valid() && Inv(sb, v, nb, owner) && Sized(sb, v, nb) && i < sb.ninodes && i < |v.inodes|
    && WriteOk(v.inodes[i].size, off, n)
    && BlocksFor(v.inodes[i].size) <= After(v.inodes[i].size, off, n)
    && Allocates(sb, owner.Keys, used', NeedTo(BlocksFor(v.inodes[i].size), After(v.inodes[i].size, off, n)))
  }

  /** On volumes of at most m bitmap blocks, every write of n bytes keeps to the budget of an operation. */
  ghost predicate SizeFitsBudget(m: nat, n: nat) {
    forall sb: Super, v: Vol, nb: seq<nat>, owner: Owner, i: nat, off: nat, used': set<nat> ::
      Before(sb, v, nb, owner, i, off, n, used') && Bitmaps(sb) <= m ==>
        Count(sb, owner.Keys, used', v.inodes[i].size, off, n) <= MAXOPBLOCKS
  }

  function Largest(m: nat): nat {
    if m < 5 then (7 - m) * BSIZE + 1 else FILEWRITE_MAX
  }

  lemma CountBound(sb: Super, used: set<nat>, used': set<nat>, size: nat, off: nat, n: nat)
    requires sb.Valid() && off <= size && 0 < n <= Largest(Bitmaps(sb))
    requires BlocksFor(size) <= After(size, off, n)
    requires Allocates(sb, used, used', NeedTo(BlocksFor(size), After(size, off, n)))
    ensures Count(sb, used, used', size, off, n) <= MAXOPBLOCKS
  {
    hide Marks, LowestFirst, NeedTo, BlocksFor, Spanned, Max, Largest;
    MarksAt(sb, used' - used);
    MarksFew(sb, used' - used);
    NewOnes(sb, used, used');
    CostBound(Bitmaps(sb), size, off, n);
  }

  lemma NewOnes(sb: Super, used: set<nat>, used': set<nat>)
    requires LowestFirst(sb, used, used')
    ensures |used' - used| == |used'| - |used|
  {
    assert used' == used + (used' - used);
  }

  /** Blocks spanned and bitmap blocks come to at most eight. */
  lemma CostBound(m: nat, size: nat, off: nat, n: nat)
    requires off <= size && 0 < n <= Largest(m) && 0 < m
    ensures BlocksFor(size) <= After(size, off, n)
    ensures Spanned(off, n) + Min(m, NeedTo(BlocksFor(size), After(size, off, n))) <= MAXOPBLOCKS - 2
  {
    var first := off / BSIZE;
    var o := off % BSIZE;
    assert off == first * BSIZE + o;
    assert BlocksFor(off + n) == (off + n - 1) / BSIZE + 1;
    assert BlocksFor(size) >= first + if o == 0 then 0 else 1;
    assert (off + n - 1) / BSIZE == first + (o + n - 1) / BSIZE;
  }

  // ----- the chunks of one filewrite

  /** Each operation logs at most MAXOPBLOCKS blocks, and none again once it has logged as many. */
  ghost predicate InBudget(ops: seq<seq<nat>>) {
    forall t :: t in ops ==> |Elems(t)| <= MAXOPBLOCKS && Calm(t)
  }

  lemma NoOps()
    ensures InBudget([])
  {
  }

  lemma BudgetOn(ops: seq<seq<nat>>, t: seq<nat>)
    requires InBudget(ops) && |Elems(t)| <= MAXOPBLOCKS && Calm(t)
    ensures InBudget(ops + [t])
  {
  }

  lemma FileSoNothing(sb: Super, v: Vol, k: Books, i: nat, off: nat)
    requires Shape(sb, v) && Fits(v) && |k.nb| == sb.ninodes && i < sb.ninodes && off <= v.inodes[i].size
    requires k.nb[i] == BlocksFor(v.inodes[i].size)
    ensures FileSo(sb, v, v, k, k, i, off, [])
  {
    assert Splice(File(sb, v, i), off, []) == File(sb, v, i);
    assert k.nb[i := k.nb[i]] == k.nb;
  }

  lemma FileSoOn(sb: Super, v: Vol, v1: Vol, v2: Vol, k: Books, k1: Books, k2: Books, i: nat, off: nat,
                 s: seq<byte>, t: seq<byte>, data: set<nat>)
    requires FileSo(sb, v, v1, k, k1, i, off, s)
    requires WriteDone(sb, v1, v2, k1, k2, i, off + |s|, t, data)
    ensures FileSo(sb, v, v2, k, k2.(logged := {}), i, off, s + t)
  {
    hide File, Splice, OtherFiles, NeedTo, Max, BlocksFor, LogSo;
    SpliceSplice(File(sb, v, i), off, s, t);
    OtherFilesOn(sb, v, v1, v2, i);
    assert |s + t| == |s| + |t|;
    NeedOn(k.nb[i], off + |s|, off + |s + t|);
  }

  lemma NeedOn(n: nat, a: nat, b: nat)
    requires a <= b
    ensures Max(Max(n, BlocksFor(a)), BlocksFor(b)) == Max(n, BlocksFor(b))
    ensures n <= Max(n, BlocksFor(a)) <= Max(n, BlocksFor(b))
    ensures NeedTo(n, Max(n, BlocksFor(a))) + NeedTo(Max(n, BlocksFor(a)), Max(n, BlocksFor(b)))
      == NeedTo(n, Max(n, BlocksFor(b)))
  {
  }

  lemma OtherFilesOn(sb: Super, v: Vol, v1: Vol, v2: Vol, i: nat)
    requires Shape(sb, v) && Shape(sb, v1) && Shape(sb, v2) && Fits(v) && Fits(v1)
    requires OtherFiles(sb, v, v1, i) && OtherFiles(sb, v1, v2, i)
    ensures OtherFiles(sb, v, v2, i)
  {
    hide File;
  }

  /** How many of n bytes filewrite gets written: all, or the chunks before the one that would pass MAXFILE. */
  ghost predicate Accepted(size: nat, off: nat, n: int, w: nat) {
    if n <= 0 || off > size then w == 0
    else if off + n <= MAXFILE * BSIZE then w == n
    else w < n && w % FILEWRITE_MAX == 0 && off + w <= MAXFILE * BSIZE < off + w + Min(n - w, FILEWRITE_MAX)
  }

  /** Where filewrite's loop stops: at the end, or at a refused chunk. */
  lemma AcceptedBy(size: nat, off: nat, n: int, i: nat)
    requires size <= MAXFILE * BSIZE
    requires i > 0 ==> i <= n && off <= size && off + i <= MAXFILE * BSIZE
    requires i == n || i % FILEWRITE_MAX == 0
    requires i < n ==> off > size || off + i + Min(n - i, FILEWRITE_MAX) > MAXFILE * BSIZE
    ensures Accepted(size, off, n, i)
  {
  }

  function Min(a: nat, b: nat): nat {
    if a < b then a else b
  }

  /** The number of bytes that Accepted allows. */
  function AcceptedBytes(size: nat, off: nat, n: int): nat {
    if n <= 0 || off > size then 0
    else if off + n <= MAXFILE * BSIZE then n
    else if off > MAXFILE * BSIZE then 0
    else (MAXFILE * BSIZE - off) / FILEWRITE_MAX * FILEWRITE_MAX
  }

  lemma AcceptedIs(size: nat, off: nat, n: int, w: nat)
    requires size <= MAXFILE * BSIZE && Accepted(size, off, n, w)
    ensures w == AcceptedBytes(size, off, n)
  {
  }

  /** There are free blocks for all the bytes that filewrite accepts. */
  predicate FileRoom(sb: Super, owner: Owner, n0: nat, size: nat, off: nat, n: int) {
    AcceptedBytes(size, off, n) == 0 || Room(sb, owner, n0, off + AcceptedBytes(size, off, n))
  }

  lemma ChunkRoom(sb: Super, k: Books, k1: Books, i: nat, size: nat, off: nat, done: nat, n: int, m: nat)
    requires i < |k.nb| && i < |k1.nb| && off <= size && done + m <= n && 0 < m && off + done + m <= MAXFILE * BSIZE
    requires done % FILEWRITE_MAX == 0 && (m == FILEWRITE_MAX || (m < FILEWRITE_MAX && done + m == n))
    requires k1.nb[i] == Max(k.nb[i], BlocksFor(off + done))
    requires k.nb[i] <= k1.nb[i] && |k1.owner| == |k.owner| + NeedTo(k.nb[i], k1.nb[i])
    requires FileRoom(sb, k.owner, k.nb[i], size, off, n)
    ensures Room(sb, k1.owner, k1.nb[i], off + done + m)
  {
    hide AcceptedBytes, BlocksFor;
    var w := AcceptedBytes(size, off, n);
    ChunkAccepted(size, off, done, n, m);
    BlocksGrow(off + done, off + done + m);
    BlocksGrow(off + done + m, off + w);
  }

  lemma ChunkAccepted(size: nat, off: nat, done: nat, n: int, m: nat)
    requires off <= size && done + m <= n && 0 < m && off + done + m <= MAXFILE * BSIZE
    requires done % FILEWRITE_MAX == 0 && (m == FILEWRITE_MAX || (m < FILEWRITE_MAX && done + m == n))
    ensures done + m <= AcceptedBytes(size, off, n)
  {
  }

  lemma BlocksGrow(a: nat, b: nat)
    requires a <= b
    ensures BlocksFor(a) <= BlocksFor(b)
  {
  }

  /** A filewrite that went through had the blocks. */
  lemma HadFileRoom(sb: Super, v: Vol, v': Vol, k: Books, k': Books, i: nat, off: nat, s: seq<byte>, n: int)
    requires FileSo(sb, v, v', k, k', i, off, s) && Inv(sb, v', k'.nb, k'.owner)
    requires |v.inodes| == sb.ninodes && |s| == AcceptedBytes(v.inodes[i].size, off, n)
    ensures FileRoom(sb, k.owner, k.nb[i], v.inodes[i].size, off, n)
  {
    hide Inv, Own, OtherFiles, File, Splice, AcceptedBytes;
    InvFacts(sb, v', k'.nb, k'.owner);
    OwnerFits(sb, v', k'.owner);
  }

  /** The next chunk is refused only beyond the end of the file or of MAXFILE, and has room if there is for the whole. */
  lemma NextFits(sb: Super, v: Vol, v1: Vol, k: Books, k1: Books, owner: Owner, i: nat, off: nat, s: seq<byte>,
                 m: nat, n: int)
    requires Inv(sb, v, k.nb, k.owner) && Sized(sb, v, k.nb) && i < sb.ninodes == |v.inodes| == |k.nb|
    requires Inv(sb, v1, k1.nb, k1.owner) && Sized(sb, v1, k1.nb)
    requires 0 < m <= FILEWRITE_MAX && |s| + m <= n
    requires |s| % FILEWRITE_MAX == 0 && (m == FILEWRITE_MAX || |s| + m == n)
    requires s == [] ==> v1 == v && k1.owner == k.owner && k1.nb == k.nb
    requires s != [] ==> off <= v.inodes[i].size && FileSo(sb, v, v1, k, k1, i, off, s)
    ensures i < |v1.inodes| && i < |k1.nb|
    ensures WriteOk(v1.inodes[i].size, off + |s|, m) <==>
      off <= v.inodes[i].size && off + |s| + m <= MAXFILE * BSIZE
    ensures WriteOk(v1.inodes[i].size, off + |s|, m) && FileRoom(sb, k.owner, k.nb[i], v.inodes[i].size, off, n) ==>
      Room(sb, k1.owner, k1.nb[i], off + |s| + m)
    ensures off <= v.inodes[i].size ==> FileSo(sb, v, v1, k, k1, i, off, s)
  {
    hide Inv, BlocksFor, NeedTo, Max, FileRoom, Room, OtherFiles;
    SizeFits(sb, v, k.nb, k.owner, i);
    SizeFits(sb, v1, k1.nb, k1.owner, i);
    AllFit(sb, v, k.nb, k.owner);
    if off <= v.inodes[i].size {
      if s == [] {
        FileSoNothing(sb, v, k, i, off);
      }
      SpliceLength(File(sb, v, i), off, s);
      MaxBoth(v.inodes[i].size, off + |s|);
      MaxBoth(k.nb[i], BlocksFor(off + |s|));
      if off + |s| + m <= MAXFILE * BSIZE && FileRoom(sb, k.owner, k.nb[i], v.inodes[i].size, off, n) {
        ChunkRoom(sb, k, k1, i, v.inodes[i].size, off, |s|, n, m);
      }
    }
  }
}
