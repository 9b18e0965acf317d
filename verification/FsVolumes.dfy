// Volumes that satisfy the invariants of the inode layer: an empty one, and one whose free
// blocks are scattered over its bitmap blocks (OS-Lab-1/mkfs.c, OS-Lab-1/fs.c:51-82).

module FsVolumes {
  import opened Params
  import opened Disk
  import opened FsBlock
  import opened FsLayout
  import opened Sets
  import opened FsMap
  import opened FsBudget

  // ----- building a bitmap

  predicate Marked(first: nat, used: set<nat>, b: nat) {
    b < first || b in used
  }

  /** The bitmap block for blocks base and up, of which the first n have been looked at. */
  function MarkUsed(first: nat, used: set<nat>, base: nat, n: nat): Bytes
    requires n <= BPB
  {
    if n == 0 then Zeros()
    else if Marked(first, used, base + n - 1) then SetBit(MarkUsed(first, used, base, n - 1), n - 1)
    else MarkUsed(first, used, base, n - 1)
  }

  lemma {:induction false} MarkUsedBit(first: nat, used: set<nat>, base: nat, n: nat, j: nat)
    requires n <= BPB && j < BPB
    ensures Bit(MarkUsed(first, used, base, n), j) <==> j < n && Marked(first, used, base + j)
  {
    hide Bit, SetBit;
    if n == 0 {
      ZeroBit(j);
    } else {
      MarkUsedBit(first, used, base, n - 1, j);
      SetBitBit(MarkUsed(first, used, base, n - 1), n - 1, j);
    }
  }

  lemma ZeroBit(j: nat)
    requires j < BPB
    ensures !Bit(Zeros(), j)
  {
    NoBit(j % 8);
  }

  lemma NoBit(k: nat)
    ensures !BitAt(0, k)
  {
  }

  /** A volume with these inodes, no indirect blocks, and these blocks in use. */
  function Build(sb: Super, inodes: seq<Inode>, used: set<nat>): Vol
    requires sb.Valid()
  {
    Vol(seq(sb.size, b requires 0 <= b < sb.size =>
          if sb.IsBitmap(b) then MarkUsed(sb.first, used, (b - sb.bmapstart) * BPB, BPB) else Zeros()), inodes)
  }

  ghost predicate Plain(inodes: seq<Inode>) {
    forall i :: 0 <= i < |inodes| ==> |inodes[i].addrs| == NDIRECT + 1 && inodes[i].addrs[NDIRECT] == 0
  }

  lemma BuildBits(sb: Super, inodes: seq<Inode>, used: set<nat>)
    requires sb.Valid() && |inodes| == sb.ninodes && Plain(inodes)
    ensures Shape(sb, Build(sb, inodes, used)) && Bits(sb, Build(sb, inodes, used), used)
  {
    hide Bit, MarkUsed;
    var v := Build(sb, inodes, used);
    forall b: nat | b < sb.size ensures BitOf(sb, v, b) <==> b < sb.first || b in used {
      BitmapFits(sb, b);
      assert (sb.BBlock(b) - sb.bmapstart) * BPB + b % BPB == b;
      MarkUsedBit(sb.first, used, (sb.BBlock(b) - sb.bmapstart) * BPB, BPB, b % BPB);
    }
  }

  /** Without indirect blocks a slot holds what the inode says. */
  lemma BuildVal(sb: Super, inodes: seq<Inode>, used: set<nat>, s: Slot)
    requires sb.Valid() && |inodes| == sb.ninodes && Plain(inodes) && SlotOk(sb, s)
    ensures Shape(sb, Build(sb, inodes, used))
    ensures Val(sb, Build(sb, inodes, used), s) ==
      if s.Content? && s.bn < NDIRECT then inodes[s.inum].addrs[s.bn] else 0
  {
  }

  // ----- an empty volume

  const EMPTY: Inode := Inode(0, seq(NDIRECT + 1, _ => 0))

  /** What a volume without files looks like. */
  function Formatted(sb: Super): Vol
    requires sb.Valid()
  {
    Build(sb, seq(sb.ninodes, _ => EMPTY), {})
  }

  lemma FormattedInv(sb: Super)
    requires sb.Valid()
    ensures Inv(sb, Formatted(sb), seq(sb.ninodes, _ => 0), map[])
    ensures Sized(sb, Formatted(sb), seq(sb.ninodes, _ => 0))
    ensures forall i :: 0 <= i < |Formatted(sb).inodes| ==> Formatted(sb).inodes[i].size == 0
  {
    hide Bits, Val, BitOf;
    var inodes := seq(sb.ninodes, _ => EMPTY);
    BuildBits(sb, inodes, {});
    var v, nb := Formatted(sb), seq(sb.ninodes, _ => 0);
    forall s: Slot | SlotOk(sb, s) ensures Val(sb, v, s) == 0 {
      BuildVal(sb, inodes, {}, s);
    }
    forall i: nat | i < sb.ninodes ensures Dense(sb, v, i, nb[i]) {
      assert SlotOk(sb, Indirect(i));
      forall k: nat | k < MAXFILE ensures Addr(sb, v, i, k) == 0 {
        assert SlotOk(sb, Content(i, k));
      }
    }
    var none: Owner := map[];
    assert none.Keys == {};
  }

  // ----- a volume whose free blocks are scattered

  const WRITER: nat := 2

  /** m bitmap blocks, and an inode for every block. */
  function Wide(m: nat): Super {
    Super(m * BPB, m * BPB, 2 + LOGSIZE, m * (BPB / IPB) + 3 + LOGSIZE, m * (BPB / IPB) + 3 + LOGSIZE + m)
  }

  /** The free blocks: the last one of each bitmap block, and the last 256. */
  predicate Spare(m: nat, b: nat) {
    b < m * BPB && (b % BPB == BPB - 1 || m * BPB - 256 <= b)
  }

  /** The writer's file has ten blocks; every other used block is a file of its own. */
  function SlotOf(m: nat, b: nat): Slot
    requires Wide(m).first <= b
  {
    if b < Wide(m).first + 10 then Content(WRITER, b - Wide(m).first) else Content(b, 0)
  }

  function Scattered(m: nat): Owner {
    map b: nat | Wide(m).first <= b < m * BPB && !Spare(m, b) :: SlotOf(m, b)
  }

  function WriterAddr(m: nat, k: nat): nat {
    if k < 10 then Wide(m).first + k else 0
  }

  function InodeAt(m: nat, size: nat, j: nat): Inode {
    if j == WRITER then Inode(size, seq(NDIRECT + 1, (k: nat) => WriterAddr(m, k)))
    else if Wide(m).first + 10 <= j && !Spare(m, j) then Inode(BSIZE, seq(NDIRECT + 1, k => if k == 0 then j else 0))
    else EMPTY
  }

  function Inodes(m: nat, size: nat): seq<Inode> {
    seq(m * BPB, j requires 0 <= j < m * BPB => InodeAt(m, size, j))
  }

  function Blocks(m: nat, size: nat): seq<nat> {
    seq(m * BPB, j requires 0 <= j < m * BPB => BlocksFor(InodeAt(m, size, j).size))
  }

  function ScatteredVol(m: nat, size: nat): Vol
    requires Wide(m).Valid()
  {
    Build(Wide(m), Inodes(m, size), Scattered(m).Keys)
  }

  lemma WideValid(m: nat)
    requires 0 < m <= 5
    ensures Wide(m).Valid() && Bitmaps(Wide(m)) == m && Wide(m).ninodes == Wide(m).size == m * BPB
    ensures 500 < Wide(m).first < 2600 && WRITER < Wide(m).first
    ensures forall b: nat :: Wide(m).first <= b < Wide(m).first + 10 ==> Wide(m).IsData(b) && !Spare(m, b)
  {
  }

  /** What each slot holds. */
  lemma SlotVal(m: nat, size: nat, s: Slot)
    requires 0 < m <= 5 && SlotOk(Wide(m), s)
    ensures Wide(m).Valid() && Shape(Wide(m), ScatteredVol(m, size))
    ensures Val(Wide(m), ScatteredVol(m, size), s) ==
      if s.Indirect? then 0
      else if s.inum == WRITER then if s.bn < 10 then Wide(m).first + s.bn else 0
      else if Wide(m).first + 10 <= s.inum && !Spare(m, s.inum) && s.bn == 0 then s.inum
      else 0
  {
    hide Val, Wide, Build, Spare;
    WideValid(m);
    PlainInodes(m, size);
    BuildVal(Wide(m), Inodes(m, size), Scattered(m).Keys, s);
    if s.Content? && s.bn < NDIRECT {
      assert Inodes(m, size)[s.inum] == InodeAt(m, size, s.inum);
    }
  }

  lemma PlainInodes(m: nat, size: nat)
    ensures Plain(Inodes(m, size)) && |Inodes(m, size)| == m * BPB
  {
    hide Wide, Spare;
  }

  lemma ScatteredOwn(m: nat, size: nat)
    requires 0 < m <= 5
    ensures Wide(m).Valid() && Own(Wide(m), ScatteredVol(m, size), Scattered(m))
  {
    hide Val, Wide, Build, Spare, ScatteredVol;
    WideValid(m);
    var sb, v, owner := Wide(m), ScatteredVol(m, size), Scattered(m);
    SlotVal(m, size, Indirect(WRITER));
    forall s: Slot | SlotOk(sb, s) && Val(sb, v, s) != 0 ensures Val(sb, v, s) in owner && owner[Val(sb, v, s)] == s {
      SlotVal(m, size, s);
    }
    forall b: nat | b in owner ensures sb.IsData(b) && SlotOk(sb, owner[b]) && Val(sb, v, owner[b]) == b {
      SlotVal(m, size, owner[b]);
    }
  }

  lemma ScatteredDense(m: nat, size: nat)
    requires 0 < m <= 5 && BlocksFor(size) == 10
    ensures Wide(m).Valid() && Shape(Wide(m), ScatteredVol(m, size))
    ensures AllDense(Wide(m), ScatteredVol(m, size), Blocks(m, size))
  {
    hide Val, Wide, Build, Spare, ScatteredVol, BlocksFor;
    WideValid(m);
    var sb, v, nb := Wide(m), ScatteredVol(m, size), Blocks(m, size);
    SlotVal(m, size, Indirect(WRITER));
    OneBlock();
    forall i: nat | i < sb.ninodes ensures Dense(sb, v, i, nb[i]) {
      SlotVal(m, size, Indirect(i));
      assert nb[i] == BlocksFor(InodeAt(m, size, i).size);
      forall k: nat | k < MAXFILE ensures Addr(sb, v, i, k) != 0 <==> k < nb[i] {
        SlotVal(m, size, Content(i, k));
        AddrVal(sb, v, i, k);
      }
    }
  }

  lemma OneBlock()
    ensures BlocksFor(BSIZE) == 1 && BlocksFor(0) == 0
  {
  }

  lemma ScatteredInv(m: nat, size: nat)
    requires 0 < m <= 5 && BlocksFor(size) == 10
    ensures Wide(m).Valid() && Inv(Wide(m), ScatteredVol(m, size), Blocks(m, size), Scattered(m))
    ensures Sized(Wide(m), ScatteredVol(m, size), Blocks(m, size))
    ensures WRITER < Wide(m).ninodes == |ScatteredVol(m, size).inodes|
    ensures ScatteredVol(m, size).inodes[WRITER].size == size
  {
    hide Own, Bits, AllDense, Spare, MarkUsed, BlocksFor, Shape;
    WideValid(m);
    PlainInodes(m, size);
    ScatteredOwn(m, size);
    ScatteredDense(m, size);
    BuildBits(Wide(m), Inodes(m, size), Scattered(m).Keys);
  }

  // ----- its lowest free blocks are marked in different bitmap blocks

  /** The lowest free block of each bitmap block. */
  function Low(m: nat, g: nat): nat
    requires 0 < m
  {
    if g + 1 < m then g * BPB + BPB - 1 else m * BPB - 256
  }

  ghost function Lows(m: nat, g: nat): (r: set<nat>)
    requires 0 < m
    ensures |r| <= g
    ensures forall h: nat :: h < g ==> Low(m, h) in r
  {
    if g == 0 then {} else Lows(m, g - 1) + {Low(m, g - 1)}
  }

  lemma LowSpare(m: nat, g: nat)
    requires 0 < m <= 5 && g < m
    ensures Wide(m).IsData(Low(m, g)) && Low(m, g) !in Scattered(m) && Wide(m).BBlock(Low(m, g)) == Wide(m).bmapstart + g
  {
  }

  lemma SpareBelow(m: nat, g: nat, c: nat)
    requires 0 < m <= 5 && g < m && Spare(m, c) && c < Low(m, g)
    ensures c in Lows(m, g)
  {
    var h := c / BPB;
    assert h < g && c == Low(m, h);
  }

  lemma SpareIs(m: nat, b: nat)
    requires Wide(m).IsData(b) && b !in Scattered(m)
    ensures Spare(m, b)
  {
  }

  lemma LowTaken(m: nat, used': set<nat>, need: nat, g: nat)
    requires 0 < m <= 5 && g < m <= need && Allocates(Wide(m), Scattered(m).Keys, used', need)
    ensures Low(m, g) in used'
  {
    hide Wide, Spare, Scattered, Low;
    LowSpare(m, g);
    var taken := used' - Scattered(m).Keys;
    NewOnes(Wide(m), Scattered(m).Keys, used');
    if Low(m, g) !in used' {
      forall c: nat | c in taken ensures c in Lows(m, g) {
        SpareIs(m, c);
        SpareBelow(m, g, c);
      }
      SubsetSize(taken, Lows(m, g));
      assert false;
    }
  }

  lemma LowMarked(m: nat, used': set<nat>, need: nat, g: nat)
    requires 0 < m <= 5 && g < m <= need && Allocates(Wide(m), Scattered(m).Keys, used', need)
    ensures Wide(m).bmapstart + g in Marks(Wide(m), used' - Scattered(m).Keys)
  {
    hide Wide, Scattered, Low, Allocates;
    LowTaken(m, used', need, g);
    LowSpare(m, g);
    assert Low(m, g) in used' - Scattered(m).Keys;
  }

  lemma AllMarks(m: nat, used': set<nat>, need: nat)
    requires 0 < m <= 5 && m <= need && Allocates(Wide(m), Scattered(m).Keys, used', need)
    ensures |Marks(Wide(m), used' - Scattered(m).Keys)| >= m
  {
    hide Wide, Scattered, Low, Allocates, Marks;
    var lo, marks := Wide(m).bmapstart, Marks(Wide(m), used' - Scattered(m).Keys);
    forall x: nat | lo <= x < lo + m ensures x in marks {
      LowMarked(m, used', need, x - lo);
    }
    SubsetSize(Between(lo, lo + m), marks);
  }

  // ----- allocation

  /** While blocks are free, the lowest of them can be had. */
  lemma {:induction false} CanAllocate(sb: Super, used: set<nat>, n: nat) returns (used': set<nat>)
    requires sb.Valid() && |used| + n <= sb.size - sb.first && forall b: nat :: b in used ==> sb.IsData(b)
    ensures Allocates(sb, used, used', n)
  {
    if n == 0 {
      used' := used;
    } else {
      var u := CanAllocate(sb, used, n - 1);
      var all := Between(sb.first, sb.size);
      if all <= u {
        SubsetSize(all, u);
        assert false;
      }
      var b :| b in all && b !in u;
      var r := Least(sb, u, b);
      used' := u + {r};
      LowestOne(sb, u, used', r);
      LowestOn(sb, used, u, used');
    }
  }

  lemma {:induction false} Least(sb: Super, u: set<nat>, b: nat) returns (r: nat)
    requires sb.IsData(b) && b !in u
    ensures sb.IsData(r) && r !in u && forall c: nat :: sb.IsData(c) && c < r ==> c in u
  {
    if c: nat :| sb.IsData(c) && c < b && c !in u {
      r := Least(sb, u, c);
    } else {
      r := b;
    }
  }

  /** The volume has room for any write. */
  lemma SpareRoom(m: nat)
    requires 0 < m <= 5
    ensures |Scattered(m)| + 256 <= Wide(m).size - Wide(m).first
    ensures forall b: nat :: b in Scattered(m).Keys ==> Wide(m).IsData(b)
  {
    var sb := Wide(m);
    var all, top := Between(sb.first, sb.size), Between(m * BPB - 256, m * BPB);
    assert Scattered(m).Keys !! top && Scattered(m).Keys + top <= all;
    SubsetSize(Scattered(m).Keys + top, all);
    assert |Scattered(m).Keys + top| == |Scattered(m).Keys| + |top|;
  }

  // ----- the largest chunk that always fits

  /** Where the writes that go over the budget start. */
  function Start(m: nat, n: nat): nat {
    if 10 * BSIZE + n > MAXFILE * BSIZE then 0 else if m < 5 then 10 * BSIZE - 1 else 10 * BSIZE
  }

  function StartSize(m: nat): nat {
    if m < 5 then 10 * BSIZE - 1 else 10 * BSIZE
  }

  lemma OverBudget(m: nat, n: nat, used': set<nat>)
    requires 0 < m <= 5 && Largest(m) < n <= MAXFILE * BSIZE
    requires BlocksFor(StartSize(m)) <= After(StartSize(m), Start(m, n), n)
    requires Allocates(Wide(m), Scattered(m).Keys, used', NeedTo(BlocksFor(StartSize(m)), After(StartSize(m), Start(m, n), n)))
    ensures Count(Wide(m), Scattered(m).Keys, used', StartSize(m), Start(m, n), n) > MAXOPBLOCKS
  {
    hide Wide, Scattered, Marks, Allocates;
    var need := NeedTo(BlocksFor(StartSize(m)), After(StartSize(m), Start(m, n), n));
    if Start(m, n) == 0 {
      assert Spanned(0, n) > 100;
    } else {
      StartCost(m, n);
      AllMarks(m, used', need);
    }
  }

  lemma StartCost(m: nat, n: nat)
    requires 0 < m <= 5 && Largest(m) < n <= MAXFILE * BSIZE - 10 * BSIZE
    ensures var a := After(StartSize(m), Start(m, n), n);
      && BlocksFor(StartSize(m)) == 10 && NDIRECT < a && StartSize(m) < Start(m, n) + n
      && m <= NeedTo(10, a) && Spanned(Start(m, n), n) + m + 2 > MAXOPBLOCKS
  {
  }

  /** A volume of at most m bitmap blocks, and a write of n bytes to it that goes over the budget. */
  lemma Overrun(m: nat, n: nat) returns (used': set<nat>)
    requires 0 < m <= 5 && Largest(m) < n <= MAXFILE * BSIZE
    ensures Wide(m).Valid() && Bitmaps(Wide(m)) == m
    ensures var v := ScatteredVol(m, StartSize(m));
      && Before(Wide(m), v, Blocks(m, StartSize(m)), Scattered(m), WRITER, Start(m, n), n, used')
      && v.inodes[WRITER].size == StartSize(m)
    ensures Count(Wide(m), Scattered(m).Keys, used', StartSize(m), Start(m, n), n) > MAXOPBLOCKS
  {
    hide Wide, Scattered, Allocates, Count, Inv, Sized, ScatteredVol, Blocks, Largest;
    WideValid(m);
    ScatteredInv(m, StartSize(m));
    SpareRoom(m);
    assert BlocksFor(StartSize(m)) <= After(StartSize(m), Start(m, n), n) <= MAXFILE;
    used' := CanAllocate(Wide(m), Scattered(m).Keys, NeedTo(BlocksFor(StartSize(m)), After(StartSize(m), Start(m, n), n)));
    OverBudget(m, n, used');
  }

  /** A write of n bytes keeps to the budget on every volume of at most m bitmap blocks just if n is at most Largest(m),
      or too long for any file. */
  lemma SizeFitsIff(m: nat, n: nat)
    requires 0 < m && 0 < n
    ensures SizeFitsBudget(m, n) <==> n <= Largest(m) || n > MAXFILE * BSIZE
  {
    hide Inv, Sized, Count, Allocates, Wide, Scattered, ScatteredVol, Blocks, BlocksFor, Max, After;
    if n <= Largest(m) || n > MAXFILE * BSIZE {
      forall sb: Super, v: Vol, nb: seq<nat>, owner: Owner, i: nat, off: nat, used': set<nat> |
        Before(sb, v, nb, owner, i, off, n, used') && Bitmaps(sb) <= m
        ensures Count(sb, owner.Keys, used', v.inodes[i].size, off, n) <= MAXOPBLOCKS
      {
        InvFacts(sb, v, nb, owner);
        LargestFalls(Bitmaps(sb), m);
        CountBound(sb, owner.Keys, used', v.inodes[i].size, off, n);
      }
    } else {
      var m' := Min(m, 5);
      LargestFalls(m', m);
      var used' := Overrun(m', n);
      assert Largest(m') == Largest(m);
    }
  }

  lemma LargestFalls(a: nat, b: nat)
    requires a <= b
    ensures Largest(b) <= Largest(a)
  {
  }

  /** Every chunk of at most limit bytes keeps to the budget, on every volume of at most m bitmap blocks. */
  ghost predicate ChunkFits(m: nat, limit: nat) {
    forall n: nat :: 0 < n <= limit ==> SizeFitsBudget(m, n)
  }

  lemma ChunkFitsIff(m: nat, limit: nat)
    requires 0 < m
    ensures ChunkFits(m, limit) <==> limit <= Largest(m)
  {
    hide SizeFitsBudget;
    forall n: nat | 0 < n <= limit ensures SizeFitsBudget(m, n) <==> n <= Largest(m) || n > MAXFILE * BSIZE {
      SizeFitsIff(m, n);
    }
    if limit > Largest(m) {
      assert !SizeFitsBudget(m, Largest(m) + 1);
    }
  }

  /** The chunk that OS-Lab-5's filewrite first takes of a request for n bytes always keeps to the budget just if n is at
      most Largest(m). */
  lemma Lab5FitsIff(m: nat, n: nat)
    requires 0 < m && 0 < n
    ensures SizeFitsBudget(m, Min(n, LAB5_MAX)) <==> n <= Largest(m)
  {
    hide SizeFitsBudget;
    SizeFitsIff(m, Min(n, LAB5_MAX));
  }
}

/** Volumes in use. */
module FsRuns {
  import opened Params
  import opened Disk
  import opened FsBlock
  import opened FsLayout
  import opened FsMap
  import opened FsBudget
  import opened FsVolumes
  import opened Sets
  import Fs

  /** A new volume. */
  method Format(sb: Super) returns (fs: Fs.Fs)
    requires sb.Valid()
    ensures fresh(fs) && fs.sb == sb && fs.Valid() && Sized(sb, fs.V(), fs.nb) && fs.owner == map[]
    ensures forall i :: 0 <= i < fs.inodes.Length ==> fs.inodes[i].size == 0
  {
    hide Inv, Sized, Build;
    FormattedInv(sb);
    fs := new Fs.Fs(sb, Formatted(sb), seq(sb.ninodes, _ => 0), map[]);
    assert forall i :: 0 <= i < fs.inodes.Length ==> fs.inodes[i] == fs.V().inodes[i];
  }

  /** A write of n bytes that logs more blocks than an operation may. */
  method Exceed(m: nat, n: nat) returns (fs: Fs.Fs)
    requires 0 < m <= 5 && Largest(m) < n <= MAXFILE * BSIZE
    ensures fresh(fs) && fs.sb.Valid() && Bitmaps(fs.sb) == m && fs.Valid()
    ensures |fs.Logged()| > MAXOPBLOCKS
  {
    hide Inv, Sized, Wide, ScatteredVol, Blocks, Scattered, Count, Allocates, WriteDone, Largest, Start, StartSize,
      BlocksFor, NeedTo, Max, Marks;
    ghost var used' := Overrun(m, n);
    var size, off := StartSize(m), Start(m, n);
    var sb, v := Wide(m), ScatteredVol(m, size);
    ghost var nb, owner := Blocks(m, size), Scattered(m);
    BeforeRoom(sb, v, nb, owner, WRITER, off, n, used');
    fs := new Fs.Fs(sb, v, nb, owner);
    ghost var k := fs.Now();
    var r, data, u := fs.Writei(WRITER, off, seq(n, _ => 0));
    LoggedBlocks(sb, v, fs.V(), k, fs.Now(), WRITER, off, seq(n, _ => 0), data);
    SameBlocks(sb, owner.Keys, used', fs.owner.Keys, NeedTo(BlocksFor(size), After(size, off, n)));
  }

  lemma BeforeRoom(sb: Super, v: Vol, nb: seq<nat>, owner: Owner, i: nat, off: nat, n: nat, used': set<nat>)
    requires Before(sb, v, nb, owner, i, off, n, used')
    ensures Inv(sb, v, nb, owner) && Sized(sb, v, nb) && i < sb.ninodes == |nb| == |v.inodes|
    ensures WriteOk(v.inodes[i].size, off, n) && nb[i] == BlocksFor(v.inodes[i].size) <= Max(nb[i], BlocksFor(off + n))
    ensures Room(sb, owner, nb[i], off + n)
  {
    hide Inv, Sized, BlocksFor, NeedTo, Max;
    SizeFits(sb, v, nb, owner, i);
    assert used' <= Between(sb.first, sb.size);
    SubsetSize(used', Between(sb.first, sb.size));
  }
}
