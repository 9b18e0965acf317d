// What bmap may do to the volume (OS-Lab-1/fs.c:373-400), and what a file
// holds across it and across a write to one of the file's blocks.

module FsMap {
  import opened Params
  import opened Disk
  import opened FsBlock
  import opened FsLayout
  import opened Sets

  /** Every block that differs was handed to the log. */
  ghost predicate Covers(v: Vol, v': Vol, logged: set<nat>) {
    && |v'.blocks| == |v.blocks|
    && forall b: nat :: b < |v.blocks| && v'.blocks[b] != v.blocks[b] ==> b in logged
  }

  lemma TakenCovers(sb: Super, v: Vol, b: nat, logged: set<nat>)
    requires Shape(sb, v) && sb.IsData(b) && {sb.BBlock(b), b} <= logged
    ensures Covers(v, Taken(sb, v, b), logged)
  {
    hide SetBit, Zeros;
    assert sb.BBlock(b) in {sb.BBlock(b), b} && b in {sb.BBlock(b), b};
  }

  lemma PutCovers(v0: Vol, v: Vol, b: nat, x: Bytes, logged: set<nat>)
    requires Covers(v0, v, logged) && b < |v.blocks|
    ensures Covers(v0, Put(v, b, x), logged + {b})
  {
  }

  /** v1 with its inodes replaced covers what v1 covers. */
  lemma InodesCovers(v0: Vol, v: Vol, inodes: seq<Inode>, logged: set<nat>)
    requires Covers(v0, v, logged)
    ensures Covers(v0, v.(inodes := inodes), logged)
  {
  }

  lemma OwnFacts(sb: Super, v: Vol, owner: Owner)
    requires Own(sb, v, owner)
    ensures Shape(sb, v) && sb.Valid() && |v.blocks| == sb.size && |v.inodes| == sb.ninodes
    ensures forall i :: 0 <= i < |v.inodes| ==> |v.inodes[i].addrs| == NDIRECT + 1
    ensures forall b: nat :: b in owner ==> sb.IsData(b)
  {
  }

  lemma AttachedFacts(sb: Super, v: Vol, v': Vol, owner: Owner, s0: Slot, b: nat)
    requires Attached(sb, v, v', owner, s0, b)
    ensures Own(sb, v', owner[b := s0]) && Bits(sb, v', owner[b := s0].Keys)
    ensures SlotOk(sb, s0) && b !in owner && sb.IsData(b) && SameBut(sb, v, v', s0) && Val(sb, v', s0) == b
  {
    hide Val, Own, Bits;
    assert owner[b := s0].Keys == owner.Keys + {b};
  }

  lemma InvFacts(sb: Super, v: Vol, nb: seq<nat>, owner: Owner)
    requires Inv(sb, v, nb, owner)
    ensures Own(sb, v, owner) && Bits(sb, v, owner.Keys) && Shape(sb, v) && sb.Valid()
    ensures |v.blocks| == sb.size && |v.inodes| == |nb| == sb.ninodes
    ensures forall i :: 0 <= i < |v.inodes| ==> |v.inodes[i].addrs| == NDIRECT + 1
    ensures forall b: nat :: b in owner ==> sb.IsData(b)
    ensures forall i :: 0 <= i < |nb| ==> nb[i] <= MAXFILE
  {
    hide Val, Bits;
    forall i: nat | i < sb.ninodes ensures nb[i] <= MAXFILE {
      assert Dense(sb, v, i, nb[i]);
    }
  }

  lemma OwnNames(sb: Super, v: Vol, owner: Owner, s: Slot)
    requires Own(sb, v, owner) && SlotOk(sb, s) && Val(sb, v, s) != 0
    ensures var b := Val(sb, v, s); b in owner && owner[b] == s && sb.IsData(b) && b < |v.blocks|
  {
  }

  lemma NothingCovers(v: Vol, logged: set<nat>)
    ensures Covers(v, v, logged)
  {
  }

  lemma CoversOn(v: Vol, v1: Vol, v2: Vol, l1: set<nat>, l2: set<nat>)
    requires Covers(v, v1, l1) && Covers(v1, v2, l2) && l1 <= l2
    ensures Covers(v, v2, l2)
  {
    forall b: nat | b < |v.blocks| && v2.blocks[b] != v.blocks[b] ensures b in l2 {
      assert v2.blocks[b] != v1.blocks[b] || v1.blocks[b] != v.blocks[b];
    }
  }

  // ----- balloc's scan

  ghost predicate AllSet(sb: Super, v: Vol, n: nat)
    requires Shape(sb, v)
  {
    forall c: nat :: c < n && c < sb.size ==> BitOf(sb, v, c)
  }

  lemma BitWord(sb: Super, v: Vol, b: nat, bi: nat)
    requires Shape(sb, v) && b % BPB == 0 && bi < BPB && b + bi < sb.size
    ensures sb.BBlock(b) < sb.size && BitOf(sb, v, b + bi) == Bit(v.blocks[sb.BBlock(b)], bi)
    ensures BitOf(sb, v, b + bi) && AllSet(sb, v, b + bi) ==> AllSet(sb, v, b + bi + 1)
  {
    hide Bit;
    BitmapFits(sb, b);
    assert (b + bi) / BPB == b / BPB && (b + bi) % BPB == bi;
  }

  lemma FirstFree(sb: Super, v: Vol, used: set<nat>, r: nat)
    requires Shape(sb, v) && Bits(sb, v, used) && r < sb.size && !BitOf(sb, v, r) && AllSet(sb, v, r)
    ensures sb.IsData(r) && r !in used
    ensures forall b: nat :: sb.IsData(b) && b < r ==> b in used
  {
    hide BitOf;
    forall b: nat | sb.IsData(b) && b < r ensures b in used {
      assert BitOf(sb, v, b);
    }
  }

  lemma NoneFree(sb: Super, v: Vol, used: set<nat>, n: nat)
    requires Shape(sb, v) && Bits(sb, v, used) && AllSet(sb, v, n) && sb.size <= n
    ensures forall b: nat :: sb.IsData(b) ==> b in used
  {
    hide BitOf;
    forall b: nat | sb.IsData(b) ensures b in used {
      assert BitOf(sb, v, b);
    }
  }

  lemma TakenIs(sb: Super, v: Vol, b: nat, bi: nat)
    requires Shape(sb, v) && b % BPB == 0 && bi < BPB && sb.IsData(b + bi)
    ensures sb.BBlock(b) == sb.BBlock(b + bi) < sb.size
    ensures Taken(sb, v, b + bi) ==
      v.(blocks := v.blocks[sb.BBlock(b) := SetBit(v.blocks[sb.BBlock(b)], bi)][b + bi := Zeros()])
  {
    hide SetBit, Zeros;
    BitmapFits(sb, b);
    assert (b + bi) / BPB == b / BPB && (b + bi) % BPB == bi;
  }

  /** Blocks that bmap must allocate for block bn of a file of n blocks. */
  function Need(n: nat, bn: nat): nat {
    if bn < n then 0 else if bn == NDIRECT then 2 else 1
  }

  /** No slot that named a block has changed, and no block has changed owner. */
  ghost predicate Extends(sb: Super, v: Vol, v': Vol, owner: Owner, owner': Owner) {
    && Shape(sb, v) && Shape(sb, v')
    && (forall s: Slot :: SlotOk(sb, s) && Val(sb, v, s) != 0 ==> Val(sb, v', s) == Val(sb, v, s))
    && (forall b: nat :: b in owner ==> b in owner' && owner'[b] == owner[b])
  }

  lemma AttachedExtends(sb: Super, v: Vol, v': Vol, owner: Owner, s0: Slot, b: nat)
    requires Attached(sb, v, v', owner, s0, b) && Own(sb, v, owner) && Val(sb, v, s0) == 0
    ensures Extends(sb, v, v', owner, owner[b := s0]) && |owner[b := s0]| == |owner| + 1
    ensures Kept(v, v', owner) && SameSizes(v, v', s0.inum) && b < |v'.blocks| && v'.blocks[b] == Zeros()
  {
    hide Val, Own, Kept, Bits, SameSizes, Zeros;
    assert owner[b := s0].Keys == owner.Keys + {b};
  }

  lemma ExtendsOn(sb: Super, v: Vol, v1: Vol, v2: Vol, o: Owner, o1: Owner, o2: Owner)
    requires Extends(sb, v, v1, o, o1) && Extends(sb, v1, v2, o1, o2)
    requires Kept(v, v1, o) && Kept(v1, v2, o1)
    ensures Extends(sb, v, v2, o, o2) && Kept(v, v2, o)
  {
    hide Val;
    forall s: Slot | SlotOk(sb, s) && Val(sb, v, s) != 0 ensures Val(sb, v2, s) == Val(sb, v, s) {
      assert Val(sb, v1, s) == Val(sb, v, s);
    }
  }

  function Max(a: nat, b: nat): nat {
    if a < b then b else a
  }

  function IndSet(ip: Inode): set<nat>
    requires |ip.addrs| == NDIRECT + 1
  {
    if ip.addrs[NDIRECT] == 0 then {} else {ip.addrs[NDIRECT]}
  }

  /** The bitmap blocks that blocks bs are marked in. */
  ghost function Marks(sb: Super, bs: set<nat>): set<nat> {
    set b | b in bs :: sb.BBlock(b)
  }

  /** used has grown to used' by the lowest blocks that were free. */
  ghost predicate LowestFirst(sb: Super, used: set<nat>, used': set<nat>) {
    && used <= used'
    && (forall b: nat, c: nat :: sb.IsData(b) && c in used' && c !in used && b < c ==> b in used')
  }

  lemma LowestOn(sb: Super, u: set<nat>, u1: set<nat>, u2: set<nat>)
    requires LowestFirst(sb, u, u1) && LowestFirst(sb, u1, u2)
    ensures LowestFirst(sb, u, u2)
    ensures Marks(sb, u1 - u) + Marks(sb, u2 - u1) == Marks(sb, u2 - u)
  {
    assert (u1 - u) + (u2 - u1) == u2 - u;
  }

  lemma LowestOne(sb: Super, u: set<nat>, u': set<nat>, r: nat)
    requires u' == u + {r} && r !in u && forall b: nat :: sb.IsData(b) && b < r ==> b in u
    ensures LowestFirst(sb, u, u') && Marks(sb, u' - u) == {sb.BBlock(r)}
  {
    assert u' - u == {r};
  }

  lemma LowestNone(sb: Super, u: set<nat>)
    ensures LowestFirst(sb, u, u) && Marks(sb, u - u) == {}
  {
  }

  /** The indirect block is logged when a block it lists is allocated. */
  function IndPart(n: nat, n': nat, ind: set<nat>): set<nat> {
    if n < n' && NDIRECT < n' then ind else {}
  }

  /** What bmap does to the volume: file i has block bn, at addr, and nothing else has changed. */
  ghost predicate Mapped(sb: Super, v: Vol, v': Vol, owner: Owner, owner': Owner, nb: seq<nat>, nb': seq<nat>,
                         i: nat, bn: nat, addr: nat)
    requires Inv(sb, v, nb, owner) && i < sb.ninodes && bn < MAXFILE
  {
    && Inv(sb, v', nb', owner') && nb' == nb[i := Max(nb[i], bn + 1)]
    && Extends(sb, v, v', owner, owner') && Kept(v, v', owner) && SameSizes(v, v', i)
    && |owner'| == |owner| + Need(nb[i], bn) && LowestFirst(sb, owner.Keys, owner'.Keys)
    && sb.IsData(addr) && addr in owner' && owner'[addr] == Content(i, bn) && Addr(sb, v', i, bn) == addr
    && (if bn < nb[i] then v' == v && owner' == owner else v'.blocks[addr] == Zeros())
  }

  /** The slots the code looks at first. */
  lemma SlotWords(sb: Super, v: Vol, nb: seq<nat>, owner: Owner, i: nat, bn: nat)
    requires Inv(sb, v, nb, owner) && i < sb.ninodes && bn < MAXFILE && bn <= nb[i]
    ensures Shape(sb, v)
    ensures bn < NDIRECT ==> (v.inodes[i].addrs[bn] == 0 <==> bn == nb[i])
    ensures bn < NDIRECT ==> v.inodes[i].addrs[bn] == Val(sb, v, Content(i, bn))
    ensures v.inodes[i].addrs[NDIRECT] == Val(sb, v, Indirect(i))
    ensures NDIRECT <= bn ==> (Val(sb, v, Indirect(i)) == 0 <==> bn == nb[i] == NDIRECT)
    ensures Val(sb, v, Content(i, bn)) == 0 <==> bn == nb[i]
  {
    hide Ptr, Own, Bits, Bit;
    assert Shape(sb, v) by { OwnFacts(sb, v, owner); }
    assert Dense(sb, v, i, nb[i]);
    assert Addr(sb, v, i, bn) != 0 <==> bn < nb[i];
  }

  lemma PtrIs(sb: Super, v: Vol, i: nat, bn: nat)
    requires Shape(sb, v) && i < sb.ninodes && NDIRECT <= bn < MAXFILE
    requires Val(sb, v, Indirect(i)) != 0 && Val(sb, v, Indirect(i)) < |v.blocks|
    ensures Ptr(v.blocks[Val(sb, v, Indirect(i))], bn - NDIRECT) == Addr(sb, v, i, bn) == Val(sb, v, Content(i, bn))
  {
  }

  lemma SameButAt(sb: Super, v: Vol, v': Vol, s0: Slot, s: Slot)
    requires SameBut(sb, v, v', s0) && SlotOk(sb, s) && s != s0
    ensures Val(sb, v', s) == Val(sb, v, s)
  {
  }

  lemma MappedOld(sb: Super, v: Vol, owner: Owner, nb: seq<nat>, i: nat, bn: nat)
    requires Inv(sb, v, nb, owner) && i < sb.ninodes && bn < nb[i] && bn < MAXFILE
    ensures Shape(sb, v) && Mapped(sb, v, v, owner, owner, nb, nb, i, bn, Addr(sb, v, i, bn))
  {
    hide Ptr, Bits, Val;
    SlotWords(sb, v, nb, owner, i, bn);
    OwnNames(sb, v, owner, Content(i, bn));
    LowestNone(sb, owner.Keys);
    assert nb[i := nb[i]] == nb;
  }

  lemma MappedOne(sb: Super, v: Vol, v': Vol, owner: Owner, nb: seq<nat>, i: nat, b: nat)
    requires Inv(sb, v, nb, owner) && i < sb.ninodes == |nb| && nb[i] < MAXFILE && nb[i] != NDIRECT
    requires Attached(sb, v, v', owner, Content(i, nb[i]), b)
    requires LowestFirst(sb, owner.Keys, owner[b := Content(i, nb[i])].Keys)
    ensures Mapped(sb, v, v', owner, owner[b := Content(i, nb[i])], nb, nb[i := nb[i] + 1], i, nb[i], b)
    ensures Inv(sb, v', nb[i := nb[i] + 1], owner[b := Content(i, nb[i])])
  {
    hide Val, Own, Bits, Kept, SameSizes, Extends, AllDense, SameBut;
    OwnFacts(sb, v, owner);
    SlotWords(sb, v, nb, owner, i, nb[i]);
    AttachedExtends(sb, v, v', owner, Content(i, nb[i]), b);
    AttachedFacts(sb, v, v', owner, Content(i, nb[i]), b);
    DenseGrows(sb, v, v', nb, i);
  }

  lemma MappedTwo(sb: Super, v: Vol, v1: Vol, v2: Vol, owner: Owner, o1: Owner, o2: Owner, nb: seq<nat>,
                  i: nat, ind: nat, b: nat)
    requires Inv(sb, v, nb, owner) && i < sb.ninodes == |nb| && nb[i] == NDIRECT
    requires Attached(sb, v, v1, owner, Indirect(i), ind) && o1 == owner[ind := Indirect(i)]
    requires Attached(sb, v1, v2, o1, Content(i, NDIRECT), b) && o2 == o1[b := Content(i, NDIRECT)]
    requires Shape(sb, v1) && Val(sb, v1, Content(i, NDIRECT)) == 0
    requires LowestFirst(sb, owner.Keys, o1.Keys) && LowestFirst(sb, o1.Keys, o2.Keys)
    ensures Mapped(sb, v, v2, owner, o2, nb, nb[i := NDIRECT + 1], i, NDIRECT, b)
    ensures Inv(sb, v2, nb[i := NDIRECT + 1], o2)
  {
    hide Val, Own, Bits, Kept, SameSizes, Extends, AllDense, SameBut, Attached;
    OwnFacts(sb, v, owner);
    SlotWords(sb, v, nb, owner, i, NDIRECT);
    AttachedExtends(sb, v, v1, owner, Indirect(i), ind);
    AttachedFacts(sb, v, v1, owner, Indirect(i), ind);
    AttachedExtends(sb, v1, v2, o1, Content(i, NDIRECT), b);
    AttachedFacts(sb, v1, v2, o1, Content(i, NDIRECT), b);
    ExtendsOn(sb, v, v1, v2, owner, o1, o2);
    SameSizesOn(v, v1, v2, i);
    LowestOn(sb, owner.Keys, o1.Keys, o2.Keys);
    DenseGrowsTwice(sb, v, v1, v2, nb, i);
  }

  lemma SameSizesOn(v: Vol, v1: Vol, v2: Vol, i: nat)
    requires SameSizes(v, v1, i) && SameSizes(v1, v2, i)
    ensures SameSizes(v, v2, i)
  {
  }

  // ----- bytes

  /** File i starts with c. */
  ghost predicate Holds(sb: Super, v: Vol, i: nat, c: seq<byte>)
    requires Shape(sb, v) && i < sb.ninodes
  {
    |c| <= MAXFILE * BSIZE && forall p :: 0 <= p < |c| ==> At(sb, v, i, p) == c[p]
  }

  function Blit(b: Bytes, o: nat, s: seq<byte>): (r: Bytes)
    requires o + |s| <= BSIZE
    ensures forall p :: 0 <= p < BSIZE ==> r[p] == if o <= p < o + |s| then s[p - o] else b[p]
  {
    b[..o] + s + b[o + |s|..]
  }

  lemma BlockKept(sb: Super, v: Vol, v': Vol, nb: seq<nat>, owner: Owner, owner': Owner, j: nat, k: nat)
    requires Inv(sb, v, nb, owner) && Extends(sb, v, v', owner, owner') && Kept(v, v', owner)
    requires j < sb.ninodes && k < MAXFILE && k < nb[j]
    ensures BlockOf(sb, v', j, k) == BlockOf(sb, v, j, k)
  {
    hide Val, Bits, Zeros, Own;
    InvFacts(sb, v, nb, owner);
    SlotWords(sb, v, nb, owner, j, k);
    OwnNames(sb, v, owner, Content(j, k));
  }

  lemma MappedHolds(sb: Super, v: Vol, v': Vol, owner: Owner, owner': Owner, nb: seq<nat>, nb': seq<nat>,
                    i: nat, bn: nat, addr: nat, j: nat, c: seq<byte>)
    requires Inv(sb, v, nb, owner) && Shape(sb, v) && i < sb.ninodes && bn < MAXFILE && j < sb.ninodes == |nb|
    requires Mapped(sb, v, v', owner, owner', nb, nb', i, bn, addr)
    requires Holds(sb, v, j, c) && BlocksFor(|c|) <= nb[j]
    ensures Shape(sb, v') && Holds(sb, v', j, c)
  {
    hide Val, Own, Bits, AllDense, BlockOf;
    InvFacts(sb, v', nb', owner');
    forall p | 0 <= p < |c| ensures At(sb, v', j, p) == c[p] {
      assert p / BSIZE < nb[j];
      BlockKept(sb, v, v', nb, owner, owner', j, p / BSIZE);
    }
  }

  /** A write to a block of file i keeps the block map. */
  lemma PutInv(sb: Super, v: Vol, nb: seq<nat>, owner: Owner, addr: nat, x: Bytes)
    requires Inv(sb, v, nb, owner) && addr in owner && owner[addr].Content?
    ensures addr < |v.blocks| && Inv(sb, Put(v, addr, x), nb, owner)
  {
    hide Val, Own, Bits;
    InvFacts(sb, v, nb, owner);
    PutOwn(sb, v, owner, addr, x);
    PutBits(sb, v, owner.Keys, addr, x);
    var v' := Put(v, addr, x);
    forall s: Slot | SlotOk(sb, s) ensures Val(sb, v', s) == Val(sb, v, s) {
      PutVal(sb, v, owner, addr, x, s);
    }
    forall j: nat | j < sb.ninodes ensures Dense(sb, v', j, nb[j]) {
      assert Dense(sb, v, j, nb[j]);
      assert Val(sb, v', Indirect(j)) == Val(sb, v, Indirect(j));
      forall k: nat | k < MAXFILE ensures Addr(sb, v', j, k) == Addr(sb, v, j, k) {
        assert SlotOk(sb, Content(j, k));
      }
    }
  }

  lemma PutBlock(sb: Super, v: Vol, nb: seq<nat>, owner: Owner, addr: nat, x: Bytes, j: nat, k: nat)
    requires Inv(sb, v, nb, owner) && addr in owner && owner[addr].Content?
    requires j < sb.ninodes == |nb| && k < MAXFILE && k < nb[j]
    ensures addr < |v.blocks| && Shape(sb, v) && Shape(sb, Put(v, addr, x))
    ensures BlockOf(sb, Put(v, addr, x), j, k) == if owner[addr] == Content(j, k) then x else BlockOf(sb, v, j, k)
  {
    hide Val, Bits, Zeros, AllDense;
    InvFacts(sb, v, nb, owner);
    SlotWords(sb, v, nb, owner, j, k);
    OwnNames(sb, v, owner, Content(j, k));
    PutVal(sb, v, owner, addr, x, Content(j, k));
  }

  /** Writing s at o in block bn of file i writes it at bn * BSIZE + o in the file. */
  lemma BlitHolds(sb: Super, v: Vol, nb: seq<nat>, owner: Owner, addr: nat, i: nat, bn: nat,
                  o: nat, s: seq<byte>, c: seq<byte>)
    requires Inv(sb, v, nb, owner) && addr in owner && owner[addr] == Content(i, bn)
    requires Shape(sb, v) && i < sb.ninodes == |nb| && bn < nb[i] && bn < MAXFILE && Addr(sb, v, i, bn) == addr
    requires Holds(sb, v, i, c) && BlocksFor(|c|) <= nb[i] && o + |s| <= BSIZE && bn * BSIZE + o <= |c|
    ensures addr < |v.blocks|
    ensures Shape(sb, Put(v, addr, Blit(v.blocks[addr], o, s)))
    ensures Holds(sb, Put(v, addr, Blit(v.blocks[addr], o, s)), i, Splice(c, bn * BSIZE + o, s))
  {
    hide Val, Own, Bits, AllDense, Inv, Addr, Blit, Splice;
    InvFacts(sb, v, nb, owner);
    var x := Blit(v.blocks[addr], o, s);
    var c' := Splice(c, bn * BSIZE + o, s);
    forall p | 0 <= p < |c'| ensures Shape(sb, Put(v, addr, x)) && At(sb, Put(v, addr, x), i, p) == c'[p] {
      assert p / BSIZE < nb[i] && p == p / BSIZE * BSIZE + p % BSIZE;
      PutBlock(sb, v, nb, owner, addr, x, i, p / BSIZE);
      assert p < |c| ==> At(sb, v, i, p) == c[p];
    }
  }

  /** Every file but i is as it was. */
  ghost predicate Others(sb: Super, v: Vol, v': Vol, nb: seq<nat>, i: nat) {
    && Shape(sb, v) && Shape(sb, v') && |nb| == sb.ninodes
    && (forall j :: 0 <= j < |v.inodes| && j != i ==> v'.inodes[j] == v.inodes[j])
    && forall j: nat, k: nat :: j < sb.ninodes && j != i && k < nb[j] && k < MAXFILE ==>
         BlockOf(sb, v', j, k) == BlockOf(sb, v, j, k)
  }

  lemma MappedOthers(sb: Super, v: Vol, v': Vol, owner: Owner, owner': Owner, nb: seq<nat>, nb': seq<nat>,
                     i: nat, bn: nat, addr: nat)
    requires Inv(sb, v, nb, owner) && i < sb.ninodes && bn < MAXFILE
    requires Mapped(sb, v, v', owner, owner', nb, nb', i, bn, addr)
    ensures Others(sb, v, v', nb, i)
  {
    hide Val, Own, Bits, AllDense, BlockOf, Inv;
    InvFacts(sb, v, nb, owner);
    InvFacts(sb, v', nb', owner');
    forall j: nat, k: nat | j < sb.ninodes && j != i && k < nb[j] && k < MAXFILE
      ensures BlockOf(sb, v', j, k) == BlockOf(sb, v, j, k)
    {
      BlockKept(sb, v, v', nb, owner, owner', j, k);
    }
  }

  lemma PutOthers(sb: Super, v: Vol, nb: seq<nat>, owner: Owner, addr: nat, x: Bytes, i: nat)
    requires Inv(sb, v, nb, owner) && addr in owner && owner[addr].Content? && owner[addr].inum == i
    ensures addr < |v.blocks| && Others(sb, v, Put(v, addr, x), nb, i)
  {
    hide Val, Own, Bits, AllDense, BlockOf, Inv;
    InvFacts(sb, v, nb, owner);
    PutInv(sb, v, nb, owner, addr, x);
    InvFacts(sb, Put(v, addr, x), nb, owner);
    forall j: nat, k: nat | j < sb.ninodes && j != i && k < nb[j] && k < MAXFILE
      ensures BlockOf(sb, Put(v, addr, x), j, k) == BlockOf(sb, v, j, k)
    {
      PutBlock(sb, v, nb, owner, addr, x, j, k);
    }
  }

  lemma OthersFacts(sb: Super, v: Vol, v': Vol, nb: seq<nat>, i: nat)
    requires Others(sb, v, v', nb, i) && i < sb.ninodes
    ensures Shape(sb, v) && Shape(sb, v') && |nb| == |v.inodes| == |v'.inodes| == sb.ninodes
    ensures |v.inodes[i].addrs| == |v'.inodes[i].addrs| == NDIRECT + 1
  {
  }

  lemma OthersOn(sb: Super, v: Vol, v1: Vol, v2: Vol, nb: seq<nat>, nb1: seq<nat>, i: nat)
    requires Others(sb, v, v1, nb, i) && Others(sb, v1, v2, nb1, i)
    requires forall j :: 0 <= j < |nb| && j != i ==> nb1[j] == nb[j]
    ensures Others(sb, v, v2, nb, i)
  {
    hide BlockOf;
    forall j: nat, k: nat | j < sb.ninodes && j != i && k < nb[j] && k < MAXFILE
      ensures BlockOf(sb, v2, j, k) == BlockOf(sb, v, j, k)
    {
      assert BlockOf(sb, v1, j, k) == BlockOf(sb, v, j, k);
    }
  }

  lemma OthersFile(sb: Super, v: Vol, v': Vol, nb: seq<nat>, i: nat, j: nat)
    requires Others(sb, v, v', nb, i) && j < sb.ninodes && j != i
    requires v.inodes[j].size <= MAXFILE * BSIZE && nb[j] == BlocksFor(v.inodes[j].size)
    ensures v'.inodes[j] == v.inodes[j] && File(sb, v', j) == File(sb, v, j)
  {
    hide BlockOf;
    forall p | 0 <= p < v.inodes[j].size ensures At(sb, v', j, p) == At(sb, v, j, p) {
      assert p / BSIZE < nb[j];
      assert BlockOf(sb, v', j, p / BSIZE) == BlockOf(sb, v, j, p / BSIZE);
    }
  }

  /** A file whose size is |c| and which starts with c is c. */
  lemma HoldsFile(sb: Super, v: Vol, i: nat, c: seq<byte>)
    requires Shape(sb, v) && i < sb.ninodes && v.inodes[i].size <= MAXFILE * BSIZE
    ensures v.inodes[i].size == |c| ==> (Holds(sb, v, i, c) <==> File(sb, v, i) == c)
    ensures Holds(sb, v, i, File(sb, v, i))
  {
    hide At;
    if v.inodes[i].size == |c| && Holds(sb, v, i, c) {
      assert File(sb, v, i) == c;
    }
  }

  // ----- counting blocks

  /** Blocks allocated when a file of n blocks becomes one of n' blocks. */
  function NeedTo(n: nat, n': nat): nat
    requires n <= n'
  {
    n' - n + if n <= NDIRECT < n' then 1 else 0
  }

  lemma NeedToOn(n: nat, bn: nat, n2: nat)
    requires bn <= n && bn < n2 && n <= n2
    ensures Need(n, bn) == NeedTo(n, Max(n, bn + 1)) && Max(n, bn + 1) <= n2
    ensures NeedTo(n, Max(n, bn + 1)) + NeedTo(Max(n, bn + 1), n2) == NeedTo(n, n2)
  {
  }

  /** Blocks that hold bytes off to off + n - 1. */
  function Spanned(off: nat, n: nat): nat {
    if n == 0 then 0 else (off + n - 1) / BSIZE - off / BSIZE + 1
  }

  lemma OwnerFits(sb: Super, v: Vol, owner: Owner)
    requires Own(sb, v, owner)
    ensures |owner| <= sb.size - sb.first
  {
    hide Val;
    assert owner.Keys <= Between(sb.first, sb.size);
    SubsetSize(owner.Keys, Between(sb.first, sb.size));
  }

  /** A stretch of one block is a stretch of the file. */
  lemma ReadChunk(sb: Super, v: Vol, i: nat, lo: nat, m: nat)
    requires Shape(sb, v) && i < sb.ninodes && v.inodes[i].size <= MAXFILE * BSIZE
    requires lo % BSIZE + m <= BSIZE && lo + m <= v.inodes[i].size && lo / BSIZE < MAXFILE
    requires Addr(sb, v, i, lo / BSIZE) < |v.blocks|
    ensures v.blocks[Addr(sb, v, i, lo / BSIZE)][lo % BSIZE..lo % BSIZE + m] == File(sb, v, i)[lo..lo + m]
  {
    hide Val, Addr;
    var f := File(sb, v, i);
    var c := v.blocks[Addr(sb, v, i, lo / BSIZE)][lo % BSIZE..lo % BSIZE + m];
    var d := f[lo..lo + m];
    forall k | 0 <= k < m ensures c[k] == d[k] {
      var p := lo + k;
      assert p / BSIZE == lo / BSIZE && p % BSIZE == lo % BSIZE + k;
      assert f[p] == At(sb, v, i, p);
    }
  }

  /** Mapping a block that is there changes nothing. */
  lemma MappedThere(sb: Super, v: Vol, v': Vol, owner: Owner, owner': Owner, nb: seq<nat>, nb': seq<nat>,
                    i: nat, bn: nat, addr: nat)
    requires Inv(sb, v, nb, owner) && i < sb.ninodes == |nb| && bn < MAXFILE && bn < nb[i]
    requires Mapped(sb, v, v', owner, owner', nb, nb', i, bn, addr)
    ensures v' == v && owner' == owner && nb' == nb
    ensures Shape(sb, v) && addr == Addr(sb, v, i, bn) < |v.blocks|
  {
    hide Own, Bits, AllDense, Val, Addr;
    InvFacts(sb, v, nb, owner);
  }

  lemma SizeFits(sb: Super, v: Vol, nb: seq<nat>, owner: Owner, i: nat)
    requires Inv(sb, v, nb, owner) && Sized(sb, v, nb) && i < sb.ninodes
    ensures Shape(sb, v) && |v.inodes| == |nb| == sb.ninodes
    ensures v.inodes[i].size <= MAXFILE * BSIZE && nb[i] == BlocksFor(v.inodes[i].size)
  {
    hide Own, Bits, AllDense, Val;
    InvFacts(sb, v, nb, owner);
  }

  lemma InodesHold(sb: Super, v: Vol, v': Vol, nb: seq<nat>, owner: Owner, i: nat, c: seq<byte>)
    requires Inv(sb, v, nb, owner) && v'.blocks == v.blocks && |v'.inodes| == |v.inodes|
    requires forall j :: 0 <= j < |v.inodes| ==> v'.inodes[j].addrs == v.inodes[j].addrs
    requires Shape(sb, v) && i < sb.ninodes && Holds(sb, v, i, c)
    ensures Inv(sb, v', nb, owner) && Shape(sb, v') && Holds(sb, v', i, c)
  {
    hide Ptr, Bit, Dense;
    assert Shape(sb, v');
    forall s: Slot | SlotOk(sb, s) ensures Val(sb, v', s) == Val(sb, v, s) {
    }
    SameBits(sb, v, v', owner.Keys);
    forall j: nat | j < sb.ninodes ensures Dense(sb, v', j, nb[j]) {
      SameDense(sb, v, v', j, nb[j]);
    }
    forall p | 0 <= p < |c| ensures At(sb, v', i, p) == At(sb, v, i, p) {
    }
  }

  lemma SameDense(sb: Super, v: Vol, v': Vol, j: nat, n: nat)
    requires Shape(sb, v) && Shape(sb, v') && j < sb.ninodes && Dense(sb, v, j, n)
    requires forall s: Slot :: SlotOk(sb, s) ==> Val(sb, v', s) == Val(sb, v, s)
    ensures Dense(sb, v', j, n)
  {
    hide Val;
    assert SlotOk(sb, Indirect(j));
    forall k: nat | k < MAXFILE ensures Addr(sb, v', j, k) == Addr(sb, v, j, k) {
      assert SlotOk(sb, Content(j, k));
    }
  }

  /** What writei needs of bmap. */
  lemma MappedWrites(sb: Super, v: Vol, v': Vol, owner: Owner, owner': Owner, nb: seq<nat>, nb': seq<nat>,
                     i: nat, bn: nat, addr: nat, c: seq<byte>)
    requires Inv(sb, v, nb, owner) && Shape(sb, v) && i < sb.ninodes == |nb| && bn < MAXFILE
    requires Mapped(sb, v, v', owner, owner', nb, nb', i, bn, addr)
    requires Holds(sb, v, i, c) && BlocksFor(|c|) <= nb[i]
    ensures Shape(sb, v') && Holds(sb, v', i, c) && Others(sb, v, v', nb, i)
    ensures nb' == nb[i := Max(nb[i], bn + 1)]
    ensures addr in owner' && owner'[addr] == Content(i, bn) && addr < |v'.blocks| && Addr(sb, v', i, bn) == addr
    ensures bn < nb[i] ==> v' == v
    ensures |v.inodes[i].addrs| == |v'.inodes[i].addrs| == NDIRECT + 1
    ensures IndSet(v.inodes[i]) <= IndSet(v'.inodes[i])
    ensures |v'.inodes| == |v.inodes| == sb.ninodes && v'.inodes[i].size == v.inodes[i].size
    ensures |owner'| == |owner| + Need(nb[i], bn) && LowestFirst(sb, owner.Keys, owner'.Keys)
    ensures forall b: nat :: b in owner ==> b in owner' && owner'[b] == owner[b]
    ensures NDIRECT < nb'[i] ==> IndSet(v'.inodes[i]) != {}
  {
    hide Own, Bits, AllDense, Val, Addr, Holds, Others, LowestFirst;
    InvFacts(sb, v', nb', owner');
    MappedHolds(sb, v, v', owner, owner', nb, nb', i, bn, addr, i, c);
    MappedOthers(sb, v, v', owner, owner', nb, nb', i, bn, addr);
    ExtendsInd(sb, v, v', owner, owner', i);
    IndThere(sb, v', nb', owner', i);
  }

  lemma IndThere(sb: Super, v: Vol, nb: seq<nat>, owner: Owner, i: nat)
    requires Inv(sb, v, nb, owner) && i < sb.ninodes
    ensures i < |nb| == |v.inodes| && |v.inodes[i].addrs| == NDIRECT + 1
    ensures NDIRECT < nb[i] <==> IndSet(v.inodes[i]) != {}
    ensures forall b :: b in IndSet(v.inodes[i]) ==> b in owner && owner[b] == Indirect(i) && sb.IsData(b)
  {
    hide Ptr, Own, Bits;
    InvFacts(sb, v, nb, owner);
    assert Dense(sb, v, i, nb[i]);
    if Val(sb, v, Indirect(i)) != 0 {
      OwnNames(sb, v, owner, Indirect(i));
    }
  }

  lemma ExtendsInd(sb: Super, v: Vol, v': Vol, owner: Owner, owner': Owner, i: nat)
    requires Extends(sb, v, v', owner, owner') && i < sb.ninodes
    ensures |v.inodes[i].addrs| == |v'.inodes[i].addrs| == NDIRECT + 1
    ensures IndSet(v.inodes[i]) <= IndSet(v'.inodes[i])
  {
    hide Ptr;
    assert SlotOk(sb, Indirect(i));
    assert Val(sb, v, Indirect(i)) == v.inodes[i].addrs[NDIRECT];
    assert Val(sb, v', Indirect(i)) == v'.inodes[i].addrs[NDIRECT];
  }

  /** writei accepts the request. */
  predicate WriteOk(size: nat, off: nat, n: nat) {
    off <= size && off + n < UINT && off + n <= MAXFILE * BSIZE
  }

  /** Only size i changes. */
  lemma OthersSize(sb: Super, v: Vol, v1: Vol, v2: Vol, nb: seq<nat>, i: nat, size: nat)
    requires Others(sb, v, v1, nb, i) && i < sb.ninodes == |v1.inodes|
    requires v2 == v1.(inodes := v1.inodes[i := v1.inodes[i].(size := size)])
    ensures Others(sb, v, v2, nb, i)
  {
    hide Ptr;
  }

  ghost predicate Fits(v: Vol) {
    forall j :: 0 <= j < |v.inodes| ==> v.inodes[j].size <= MAXFILE * BSIZE
  }

  lemma AllFit(sb: Super, v: Vol, nb: seq<nat>, owner: Owner)
    requires Inv(sb, v, nb, owner) && Sized(sb, v, nb)
    ensures Fits(v)
  {
    hide Inv, Sized;
    assert |v.inodes| == sb.ninodes by { InvFacts(sb, v, nb, owner); }
    forall j | 0 <= j < |v.inodes| ensures v.inodes[j].size <= MAXFILE * BSIZE {
      SizeFits(sb, v, nb, owner, j);
    }
  }

  /** No file but i differs. */
  ghost predicate OtherFiles(sb: Super, v: Vol, v': Vol, i: nat)
    requires Shape(sb, v) && Shape(sb, v') && Fits(v)
  {
    forall j: nat :: j < sb.ninodes && j != i ==>
      && j < |v.inodes| == |v'.inodes| && v'.inodes[j] == v.inodes[j]
      && File(sb, v', j) == File(sb, v, j)
  }

  lemma OthersFiles(sb: Super, v: Vol, v': Vol, nb: seq<nat>, i: nat)
    requires Others(sb, v, v', nb, i) && Fits(v) && Sized(sb, v, nb)
    ensures Shape(sb, v) && Shape(sb, v') && OtherFiles(sb, v, v', i)
  {
    hide File;
    forall j: nat | j < sb.ninodes && j != i ensures File(sb, v', j) == File(sb, v, j) && v'.inodes[j] == v.inodes[j] {
      OthersFile(sb, v, v', nb, i, j);
    }
  }

  /** What a log and an owner map look like at one moment. */
  datatype Books = Books(owner: Owner, nb: seq<nat>, logged: set<nat>)

  /** From v to v', s was written at off into file i, which held c; its size is still to be set. */
  ghost predicate Written(sb: Super, v: Vol, v': Vol, k: Books, k': Books, i: nat, c: seq<byte>, off: nat,
                          s: seq<byte>, data: set<nat>)
  {
    && off <= |c| && i < sb.ninodes
    && Others(sb, v, v', k.nb, i)
    && Holds(sb, v', i, Splice(c, off, s))
    && v'.inodes[i].size == v.inodes[i].size
    && (k'.nb == k.nb ==> v'.inodes == v.inodes)
    && Covers(v, v', k'.logged)
    && Booked(sb, k, k', i, |c|, off, |s|)
    && IndSet(v.inodes[i]) <= IndSet(v'.inodes[i])
    && Logged(sb, k, k', i, off, |s|, data, IndSet(v'.inodes[i]))
  }

  /** The blocks the file has gained: the lowest that were free. */
  ghost predicate Booked(sb: Super, k: Books, k': Books, i: nat, size: nat, off: nat, n: nat) {
    && i < |k.nb| && k.nb[i] == BlocksFor(size)
    && k'.nb == k.nb[i := BlocksFor(Max(size, off + n))]
    && k.nb[i] <= k'.nb[i] && |k'.owner| == |k.owner| + NeedTo(k.nb[i], k'.nb[i])
    && (forall b: nat :: b in k.owner ==> b in k'.owner && k'.owner[b] == k.owner[b])
    && LowestFirst(sb, k.owner.Keys, k'.owner.Keys)
  }

  /** The blocks handed to the log: bitmap blocks of the new blocks, data blocks and the indirect block. */
  ghost predicate Logged(sb: Super, k: Books, k': Books, i: nat, off: nat, n: nat, data: set<nat>, ind: set<nat>)
  {
    && i < |k.nb| && i < |k'.nb| && k.nb[i] <= k'.nb[i]
    && k'.logged == k.logged + Marks(sb, k'.owner.Keys - k.owner.Keys) + data + IndPart(k.nb[i], k'.nb[i], ind)
    && |data| == Spanned(off, n) && DataOf(k'.owner, data, i, off / BSIZE, off + n)
    && |ind| <= 1 && (NDIRECT < k'.nb[i] ==> ind != {})
  }

  /** These are blocks lo and up of file i, before position hi. */
  ghost predicate DataOf(owner: Owner, data: set<nat>, i: nat, lo: nat, hi: nat) {
    forall a: nat :: a in data ==>
      a in owner && owner[a].Content? && owner[a].inum == i && lo <= owner[a].bn && owner[a].bn * BSIZE < hi
  }

  lemma BookedOn(sb: Super, k: Books, k1: Books, k2: Books, i: nat, size: nat, off: nat, a: nat, b: nat)
    requires off <= size && (a == 0 || (off + a) % BSIZE == 0)
    requires Booked(sb, k, k1, i, size, off, a) && Booked(sb, k1, k2, i, Max(size, off + a), off + a, b)
    ensures Booked(sb, k, k2, i, size, off, a + b)
    ensures k2.nb == k.nb ==> k1.nb == k.nb
    ensures forall b: nat :: b in k1.owner ==> b in k2.owner && k2.owner[b] == k1.owner[b]
    ensures Marks(sb, k1.owner.Keys - k.owner.Keys) + Marks(sb, k2.owner.Keys - k1.owner.Keys)
      == Marks(sb, k2.owner.Keys - k.owner.Keys)
  {
    hide NeedTo, BlocksFor, Max, Spanned, LowestFirst, Marks;
    Grows(size, off, a, b);
    LowestOn(sb, k.owner.Keys, k1.owner.Keys, k2.owner.Keys);
  }

  lemma LoggedOn(sb: Super, k: Books, k1: Books, k2: Books, i: nat, off: nat, a: nat, b: nat, data: set<nat>,
                 data': set<nat>, ind: set<nat>, ind': set<nat>)
    requires a == 0 || (off + a) % BSIZE == 0
    requires Logged(sb, k, k1, i, off, a, data, ind) && Logged(sb, k1, k2, i, off + a, b, data', ind')
    requires ind <= ind'
    requires Marks(sb, k1.owner.Keys - k.owner.Keys) + Marks(sb, k2.owner.Keys - k1.owner.Keys)
      == Marks(sb, k2.owner.Keys - k.owner.Keys)
    requires forall b: nat :: b in k1.owner ==> b in k2.owner && k2.owner[b] == k1.owner[b]
    ensures Logged(sb, k, k2, i, off, a + b, data + data', ind')
  {
    hide Spanned, Marks, IndPart, DataOf;
    SpannedOn(off, a, b);
    DataApart(k1.owner, k2.owner, data, data', i, off, a, b);
    IndOn(k.nb[i], k1.nb[i], k2.nb[i], ind, ind');
    Union(k.logged, Marks(sb, k1.owner.Keys - k.owner.Keys), data, IndPart(k.nb[i], k1.nb[i], ind),
          Marks(sb, k2.owner.Keys - k1.owner.Keys), data', IndPart(k1.nb[i], k2.nb[i], ind'));
  }

  lemma Union(l: set<nat>, m: set<nat>, d: set<nat>, i: set<nat>, m': set<nat>, d': set<nat>, i': set<nat>)
    ensures l + m + d + i + m' + d' + i' == l + (m + m') + (d + d') + (i + i')
  {
  }

  lemma SameOne(a: set<nat>, b: set<nat>)
    requires a <= b && |b| <= 1 && a != {}
    ensures a == b
  {
    if y :| y in b && y !in a {
      var x :| x in a;
      SubsetSize({x, y}, b);
    }
  }

  lemma IndOn(n: nat, n1: nat, n2: nat, ind: set<nat>, ind': set<nat>)
    requires n <= n1 <= n2 && ind <= ind' && |ind'| <= 1 && (NDIRECT < n1 ==> ind != {})
    ensures IndPart(n, n1, ind) + IndPart(n1, n2, ind') == IndPart(n, n2, ind')
  {
    if NDIRECT < n1 {
      SameOne(ind, ind');
    }
    assert IndPart(n, n1, ind) <= ind <= ind';
    assert n < n1 && NDIRECT < n1 ==> IndPart(n, n1, ind) == ind;
  }

  lemma DataApart(o: Owner, o': Owner, data: set<nat>, data': set<nat>, i: nat, off: nat, a: nat, b: nat)
    requires a == 0 || (off + a) % BSIZE == 0
    requires a == 0 ==> data == {}
    requires forall b: nat :: b in o ==> b in o' && o'[b] == o[b]
    requires DataOf(o, data, i, off / BSIZE, off + a) && DataOf(o', data', i, (off + a) / BSIZE, off + a + b)
    ensures data !! data' && |data + data'| == |data| + |data'|
    ensures DataOf(o', data + data', i, off / BSIZE, off + (a + b))
  {
    forall x: nat | x in data ensures x !in data' {
      assert o'[x].bn * BSIZE < off + a;
    }
    assert off / BSIZE <= (off + a) / BSIZE;
  }

  lemma WrittenOn(sb: Super, v: Vol, v1: Vol, v2: Vol, k: Books, k1: Books, k2: Books, i: nat, c: seq<byte>,
                  off: nat, s: seq<byte>, t: seq<byte>, data: set<nat>, data': set<nat>)
    requires Written(sb, v, v1, k, k1, i, c, off, s, data)
    requires Written(sb, v1, v2, k1, k2, i, Splice(c, off, s), off + |s|, t, data')
    requires s == [] || (off + |s|) % BSIZE == 0
    ensures Written(sb, v, v2, k, k2, i, c, off, s + t, data + data')
  {
    hide Others, Holds, Shape, Splice, Covers, IndSet, NeedTo, BlocksFor, Max, Spanned, Booked, Logged;
    SpliceSplice(c, off, s, t);
    OthersFacts(sb, v, v1, k.nb, i);
    OthersFacts(sb, v1, v2, k1.nb, i);
    SameBooks(sb, k, k1, i, |c|, off, |s|);
    OthersOn(sb, v, v1, v2, k.nb, k1.nb, i);
    LogGrows(sb, k1, k2, i, off + |s|, |t|, data', IndSet(v2.inodes[i]));
    CoversOn(v, v1, v2, k1.logged, k2.logged);
    SpliceLength(c, off, s);
    assert |s + t| == |s| + |t|;
    BookedOn(sb, k, k1, k2, i, |c|, off, |s|, |t|);
    LoggedOn(sb, k, k1, k2, i, off, |s|, |t|, data, data', IndSet(v1.inodes[i]), IndSet(v2.inodes[i]));
  }

  lemma SameBooks(sb: Super, k: Books, k': Books, i: nat, size: nat, off: nat, n: nat)
    requires Booked(sb, k, k', i, size, off, n)
    ensures |k'.nb| == |k.nb| && forall j :: 0 <= j < |k.nb| && j != i ==> k'.nb[j] == k.nb[j]
  {
  }

  lemma LogGrows(sb: Super, k: Books, k': Books, i: nat, off: nat, n: nat, data: set<nat>, ind: set<nat>)
    requires Logged(sb, k, k', i, off, n, data, ind)
    ensures k.logged <= k'.logged
  {
    hide Marks;
  }

  lemma SpliceLength(c: seq<byte>, off: nat, s: seq<byte>)
    requires off <= |c|
    ensures |Splice(c, off, s)| == Max(|c|, off + |s|)
  {
  }

  lemma Grows(size: nat, off: nat, a: nat, b: nat)
    requires off <= size && (a == 0 || (off + a) % BSIZE == 0)
    ensures Max(Max(size, off + a), off + a + b) == Max(size, off + (a + b))
    ensures BlocksFor(size) <= BlocksFor(Max(size, off + a)) <= BlocksFor(Max(size, off + (a + b)))
    ensures NeedTo(BlocksFor(size), BlocksFor(Max(size, off + a)))
      + NeedTo(BlocksFor(Max(size, off + a)), BlocksFor(Max(size, off + (a + b))))
      == NeedTo(BlocksFor(size), BlocksFor(Max(size, off + (a + b))))
    ensures Spanned(off, a) + Spanned(off + a, b) == Spanned(off, a + b)
  {
    SpannedOn(off, a, b);
  }

  lemma SpannedOn(off: nat, a: nat, b: nat)
    requires a == 0 || (off + a) % BSIZE == 0
    ensures Spanned(off, a) + Spanned(off + a, b) == Spanned(off, a + b)
  {
  }

  lemma UnionOne(l: set<nat>, m: set<nat>, i: set<nat>, a: nat, there: bool)
    ensures l + m + (if there then {} else {a}) + i + {a} == l + m + {a} + i
  {
  }

  /** A round of writei's loop, from its parts. */
  lemma WrittenBlock(sb: Super, v: Vol, v': Vol, k: Books, k': Books, i: nat, c: seq<byte>, off: nat,
                     s: seq<byte>, addr: nat, bn: nat)
    requires bn == off / BSIZE
    requires Others(sb, v, v', k.nb, i) && i < sb.ninodes && off <= |c| && 0 < |s| && off % BSIZE + |s| <= BSIZE
    requires Shape(sb, v') && Holds(sb, v', i, Splice(c, off, s)) && v'.inodes[i].size == v.inodes[i].size
    requires i < |k.nb| && k.nb[i] == BlocksFor(|c|) && k'.nb == k.nb[i := Max(k.nb[i], bn + 1)]
    requires bn < k.nb[i] ==> v'.inodes == v.inodes
    requires |k'.owner| == |k.owner| + Need(k.nb[i], bn) && LowestFirst(sb, k.owner.Keys, k'.owner.Keys)
    requires forall b: nat :: b in k.owner ==> b in k'.owner && k'.owner[b] == k.owner[b]
    requires addr in k'.owner && k'.owner[addr] == Content(i, bn)
    requires Covers(v, v', k'.logged) && IndSet(v.inodes[i]) <= IndSet(v'.inodes[i])
    requires NDIRECT < k'.nb[i] ==> IndSet(v'.inodes[i]) != {}
    requires k'.logged == k.logged + Marks(sb, k'.owner.Keys - k.owner.Keys) + {addr}
      + IndPart(k.nb[i], k'.nb[i], IndSet(v'.inodes[i]))
    ensures Written(sb, v, v', k, k', i, c, off, s, {addr})
  {
    hide Others, Holds, Shape, Splice, Covers, IndSet, Booked, Logged, LowestFirst, Marks, IndPart;
    OthersFacts(sb, v, v', k.nb, i);
    BookedBlock(sb, k, k', i, |c|, off, |s|);
    IndOne(v'.inodes[i]);
    LoggedBlock(sb, k, k', i, off, |s|, addr, IndSet(v'.inodes[i]));
  }

  /** From v to v1 bmap found block bn of file i, which holds c, at a, and logged what it changed. */
  ghost predicate Ready(sb: Super, v: Vol, v1: Vol, k: Books, k1: Books, i: nat, bn: nat, a: nat, c: seq<byte>) {
    && i < sb.ninodes == |k.nb| == |k1.nb| == |v.inodes| == |v1.inodes| && bn < MAXFILE
    && Inv(sb, v, k.nb, k.owner) && Shape(sb, v) && Shape(sb, v1) && |v1.inodes[i].addrs| == NDIRECT + 1
    && Mapped(sb, v, v1, k.owner, k1.owner, k.nb, k1.nb, i, bn, a)
    && bn < k1.nb[i] && BlocksFor(|c|) <= k1.nb[i] && (forall j :: 0 <= j < |k.nb| && j != i ==> k1.nb[j] == k.nb[j])
    && a in k1.owner && k1.owner[a] == Content(i, bn) && a < |v1.blocks| && Addr(sb, v1, i, bn) == a
    && Holds(sb, v1, i, c) && Others(sb, v, v1, k.nb, i) && Covers(v, v1, k1.logged)
    && MapLogged(sb, v1, k, k1, i, bn, a)
  }

  /** bmap logged the bitmap blocks of the blocks it allocated, block a if that is one of them, and the indirect block if
      it lists it. */
  ghost predicate MapLogged(sb: Super, v1: Vol, k: Books, k1: Books, i: nat, bn: nat, a: nat) {
    && i < |k.nb| && i < |k1.nb| && i < |v1.inodes| && |v1.inodes[i].addrs| == NDIRECT + 1
    && k1.logged == k.logged + Marks(sb, k1.owner.Keys - k.owner.Keys) + (if bn < k.nb[i] then {} else {a})
         + IndPart(k.nb[i], k1.nb[i], IndSet(v1.inodes[i]))
  }

  lemma MappedReady(sb: Super, v: Vol, v1: Vol, k: Books, k1: Books, i: nat, bn: nat, a: nat, c: seq<byte>)
    requires Inv(sb, v, k.nb, k.owner) && Shape(sb, v) && i < sb.ninodes == |k.nb| && bn < MAXFILE
    requires Mapped(sb, v, v1, k.owner, k1.owner, k.nb, k1.nb, i, bn, a) && MapLogged(sb, v1, k, k1, i, bn, a)
    requires Holds(sb, v, i, c) && BlocksFor(|c|) <= k.nb[i] && Covers(v, v1, k1.logged)
    ensures Ready(sb, v, v1, k, k1, i, bn, a, c)
  {
    hide Mapped, Inv, Others, Holds, Shape, Covers, IndSet, LowestFirst, MapLogged, BlocksFor, Max, Need, Addr;
    InvFacts(sb, v, k.nb, k.owner);
    MappedWrites(sb, v, v1, k.owner, k1.owner, k.nb, k1.nb, i, bn, a, c);
    MaxBoth(k.nb[i], bn + 1);
  }

  /** bmap, then a copy into the block it found. */
  lemma RoundDone(sb: Super, v: Vol, v1: Vol, v2: Vol, k: Books, k1: Books, k2: Books, i: nat, c: seq<byte>, off: nat,
                  s: seq<byte>, a: nat, bn: nat)
    requires Ready(sb, v, v1, k, k1, i, bn, a, c) && bn == off / BSIZE && Holds(sb, v, i, c) && k.nb[i] == BlocksFor(|c|)
    requires k2 == k1.(logged := k1.logged + {a})
    requires Shape(sb, v2) && v2.inodes == v1.inodes && Others(sb, v, v2, k.nb, i) && Covers(v, v2, k2.logged)
    requires off <= |c| && 0 < |s| && off % BSIZE + |s| <= BSIZE && Holds(sb, v2, i, Splice(c, off, s))
    ensures Written(sb, v, v2, k, k2, i, c, off, s, {a})
  {
    hide Mapped, Inv, Others, Holds, Shape, Splice, Covers, IndSet, LowestFirst, Marks, IndPart, Written, BlocksFor, Max,
      Need, Addr;
    MappedWrites(sb, v, v1, k.owner, k1.owner, k.nb, k1.nb, i, bn, a, c);
    UnionOne(k.logged, Marks(sb, k1.owner.Keys - k.owner.Keys), IndPart(k.nb[i], k1.nb[i], IndSet(v1.inodes[i])), a,
             bn < k.nb[i]);
    MaxBoth(k.nb[i], bn + 1);
    WrittenBlock(sb, v, v2, k, k2, i, c, off, s, a, bn);
  }

  lemma IndOne(ip: Inode)
    requires |ip.addrs| == NDIRECT + 1
    ensures |IndSet(ip)| <= 1
  {
  }

  lemma BookedBlock(sb: Super, k: Books, k': Books, i: nat, size: nat, off: nat, n: nat)
    requires i < |k.nb| && off <= size && 0 < n && off % BSIZE + n <= BSIZE && k.nb[i] == BlocksFor(size)
    requires k'.nb == k.nb[i := Max(k.nb[i], off / BSIZE + 1)]
    requires |k'.owner| == |k.owner| + Need(k.nb[i], off / BSIZE) && LowestFirst(sb, k.owner.Keys, k'.owner.Keys)
    requires forall b: nat :: b in k.owner ==> b in k'.owner && k'.owner[b] == k.owner[b]
    ensures Booked(sb, k, k', i, size, off, n)
    ensures k.nb[i] <= k'.nb[i]
    ensures k'.nb == k.nb ==> off / BSIZE < k.nb[i]
  {
    hide LowestFirst;
    RoundUp(size, off, n);
    NeedToOn(k.nb[i], off / BSIZE, Max(k.nb[i], off / BSIZE + 1));
  }

  lemma LoggedBlock(sb: Super, k: Books, k': Books, i: nat, off: nat, n: nat, addr: nat, ind: set<nat>)
    requires 0 < n && off % BSIZE + n <= BSIZE && i < |k.nb| && i < |k'.nb| && k.nb[i] <= k'.nb[i]
    requires k'.logged == k.logged + Marks(sb, k'.owner.Keys - k.owner.Keys) + {addr} + IndPart(k.nb[i], k'.nb[i], ind)
    requires addr in k'.owner && k'.owner[addr] == Content(i, off / BSIZE)
    requires |ind| <= 1 && (NDIRECT < k'.nb[i] ==> ind != {})
    ensures Logged(sb, k, k', i, off, n, {addr}, ind)
  {
    hide Marks, IndPart;
    assert off / BSIZE * BSIZE < off + n;
    assert Spanned(off, n) == 1;
  }

  lemma MaxBoth(a: nat, b: nat)
    ensures a <= Max(a, b) && b <= Max(a, b)
  {
  }

  lemma RoundUp(size: nat, off: nat, n: nat)
    requires off <= size && 0 < n && off % BSIZE + n <= BSIZE
    ensures Max(BlocksFor(size), off / BSIZE + 1) == BlocksFor(Max(size, off + n))
    ensures off / BSIZE <= BlocksFor(size)
  {
  }

  lemma WrittenNothing(sb: Super, v: Vol, k: Books, i: nat, c: seq<byte>, off: nat, owner: Owner)
    requires Shape(sb, v) && |k.nb| == sb.ninodes && i < sb.ninodes && off <= |c| && Holds(sb, v, i, c)
    requires k.nb[i] == BlocksFor(|c|) && Inv(sb, v, k.nb, owner)
    ensures Written(sb, v, v, k, k, i, c, off, [], {})
  {
    hide Holds, Shape, Inv, IndSet;
    assert Splice(c, off, []) == c;
    assert k.nb[i := k.nb[i]] == k.nb;
    assert Others(sb, v, v, k.nb, i);
    LowestNone(sb, k.owner.Keys);
    IndThere(sb, v, k.nb, owner, i);
    IndOne(v.inodes[i]);
  }

  /** What Written says about the file's new number of blocks. */
  lemma WrittenFacts(sb: Super, v: Vol, v': Vol, k: Books, k': Books, i: nat, c: seq<byte>, off: nat,
                     s: seq<byte>, data: set<nat>)
    requires Written(sb, v, v', k, k', i, c, off, s, data)
    ensures Shape(sb, v') && |k.nb| == |k'.nb| == sb.ninodes && |v'.inodes| == |v.inodes| == sb.ninodes
    ensures Holds(sb, v', i, Splice(c, off, s)) && k'.nb[i] == BlocksFor(|Splice(c, off, s)|)
    ensures |Splice(c, off, s)| == Max(|c|, off + |s|)
    ensures k.nb[i] <= k'.nb[i] && |k'.owner| == |k.owner| + NeedTo(k.nb[i], k'.nb[i])
    ensures v'.inodes[i].size == v.inodes[i].size
  {
    hide Others, Holds, Shape, Splice, Covers, IndSet, Logged;
    OthersFacts(sb, v, v', k.nb, i);
    SpliceLength(c, off, s);
  }

  /** There are free blocks for a file of n blocks to grow up to position end. */
  predicate Room(sb: Super, owner: Owner, n: nat, end: nat) {
    |owner| + NeedTo(n, Max(n, BlocksFor(end))) <= sb.size - sb.first
  }

  /** A write that was done had the blocks it needed. */
  lemma HadRoom(sb: Super, v: Vol, v': Vol, k: Books, k': Books, i: nat, c: seq<byte>, off: nat, s: seq<byte>, data: set<nat>)
    requires Written(sb, v, v', k, k', i, c, off, s, data) && Own(sb, v', k'.owner)
    ensures i < |k.nb| && Room(sb, k.owner, k.nb[i], off + |s|)
  {
    hide Others, Holds, Shape, Splice, Covers, IndSet, Logged, Own;
    OwnerFits(sb, v', k'.owner);
    BlocksMax(|c|, off + |s|);
  }

  lemma BlocksMax(a: nat, b: nat)
    ensures BlocksFor(Max(a, b)) == Max(BlocksFor(a), BlocksFor(b))
  {
  }

  /** The blocks set aside for the whole write are enough for its next round. */
  lemma Enough(sb: Super, k: Books, k': Books, i: nat, size: nat, off: nat, tot: nat, n: nat)
    requires i < |k.nb| && i < |k'.nb| && off <= size && tot < n && k.nb[i] == BlocksFor(size)
    requires k'.nb[i] == BlocksFor(Max(size, off + tot)) && k.nb[i] <= k'.nb[i]
    requires |k'.owner| == |k.owner| + NeedTo(k.nb[i], k'.nb[i])
    requires Room(sb, k.owner, k.nb[i], off + n)
    ensures |k'.owner| + Need(k'.nb[i], (off + tot) / BSIZE) <= sb.size - sb.first
  {
    RoundUp(Max(size, off + tot), off + tot, 1);
    NeedToOn(k'.nb[i], (off + tot) / BSIZE, Max(k'.nb[i], BlocksFor(off + n)));
  }

  /** From v to v', s was written at off into file i. */
  ghost predicate FileSo(sb: Super, v: Vol, v': Vol, k: Books, k': Books, i: nat, off: nat, s: seq<byte>) {
    && Shape(sb, v) && Shape(sb, v') && Fits(v) && Fits(v') && |k.nb| == sb.ninodes && i < sb.ninodes
    && off <= v.inodes[i].size
    && File(sb, v', i) == Splice(File(sb, v, i), off, s) && OtherFiles(sb, v, v', i)
    && k'.nb == k.nb[i := Max(k.nb[i], BlocksFor(off + |s|))]
    && |k'.owner| == |k.owner| + NeedTo(k.nb[i], k'.nb[i])
  }

  predicate InodesMatch(v: Vol, nb: seq<nat>, i: nat) {
    i < |v.inodes| == |nb| && |v.inodes[i].addrs| == NDIRECT + 1
  }

  /** What writei's loop leaves in the log. */
  ghost function LoopLog(sb: Super, k: Books, k': Books, v': Vol, i: nat, data: set<nat>): set<nat>
    requires i < |k.nb| && i < |k'.nb| && i < |v'.inodes| && |v'.inodes[i].addrs| == NDIRECT + 1
  {
    k.logged + Marks(sb, k'.owner.Keys - k.owner.Keys) + data + IndPart(k.nb[i], k'.nb[i], IndSet(v'.inodes[i]))
  }

  /** The log holds every block that changed, and has gained exactly the data blocks, the bitmap blocks of the new
      blocks, the indirect block if it lists one of them, and the inode if the file grew. */
  ghost predicate LogSo(sb: Super, v: Vol, v': Vol, k: Books, k': Books, i: nat, off: nat, n: nat, data: set<nat>) {
    && i < |k.nb| && i < |k'.nb| && i < |v.inodes| && i < |v'.inodes| && |v'.inodes[i].addrs| == NDIRECT + 1
    && Covers(v, v', k'.logged) && LowestFirst(sb, k.owner.Keys, k'.owner.Keys)
    && k'.logged == LoopLog(sb, k, k', v', i, data) + InodePart(sb, i, v.inodes[i].size, off, n)
    && |data| == Spanned(off, n) && DataOf(k'.owner, data, i, off / BSIZE, off + n)
  }

  /** What a write of s at off into file i has done to the volume, the files, the allocator and the log. */
  ghost predicate WriteDone(sb: Super, v: Vol, v': Vol, k: Books, k': Books, i: nat, off: nat, s: seq<byte>,
                            data: set<nat>)
  {
    FileSo(sb, v, v', k, k', i, off, s) && LogSo(sb, v, v', k, k', i, off, |s|, data)
  }

  /** The inode is logged when the file grows. */
  function InodePart(sb: Super, i: nat, size: nat, off: nat, n: nat): set<nat> {
    if Grown(size, off, n) != size then {sb.IBlock(i)} else {}
  }

  function InodeTail(sb: Super, i: nat, size: nat, off: nat, n: nat): seq<nat> {
    if Grown(size, off, n) != size then [sb.IBlock(i)] else []
  }

  /** Once its size is set, the file is the old one with s written at off. */
  lemma WrittenEnds(sb: Super, v: Vol, v1: Vol, v2: Vol, k: Books, k1: Books, k2: Books, owner: Owner, i: nat,
                    c: seq<byte>, off: nat, s: seq<byte>, data: set<nat>)
    requires Written(sb, v, v1, k, k1, i, c, off, s, data) && Inv(sb, v1, k1.nb, owner)
    requires Shape(sb, v) && Sized(sb, v, k.nb) && Fits(v) && |v1.inodes| == sb.ninodes
    requires c == File(sb, v, i) && WriteOk(v.inodes[i].size, off, |s|)
    requires v2 == v1.(inodes := v1.inodes[i := v1.inodes[i].(size := Grown(v1.inodes[i].size, off, |s|))])
    requires k2 == k1.(logged := k1.logged + InodePart(sb, i, v1.inodes[i].size, off, |s|))
    ensures Inv(sb, v2, k2.nb, owner) && Sized(sb, v2, k2.nb)
    ensures WriteDone(sb, v, v2, k, k2, i, off, s, data)
    ensures |v2.inodes| == |v.inodes| == |k.nb| == |k2.nb| == sb.ninodes && |v2.inodes[i].addrs| == NDIRECT + 1
    ensures k1.logged == LoopLog(sb, k, k2, v2, i, data)
    ensures v2.inodes == v.inodes[i := v2.inodes[i]]
    ensures Grown(v1.inodes[i].size, off, |s|) == v1.inodes[i].size ==> v2.inodes == v.inodes
  {
    hide Others, Holds, Splice, File, Inv, OtherFiles, Covers, IndSet, LowestFirst, Marks, IndPart, InodePart, DataOf;
    OthersFacts(sb, v, v1, k.nb, i);
    SpliceLength(c, off, s);
    InodesHold(sb, v1, v2, k1.nb, owner, i, Splice(c, off, s));
    HoldsFile(sb, v2, i, Splice(c, off, s));
    OthersSize(sb, v, v1, v2, k.nb, i, v2.inodes[i].size);
    OthersFiles(sb, v, v2, k.nb, i);
    InodesCovers(v, v1, v2.inodes, k1.logged);
    CoversMore(v, v2, k1.logged, k2.logged);
    OthersSame(sb, v, v1, k.nb, i);
    SameInd(v1.inodes[i], v2.inodes[i]);
  }

  /** The size after n bytes were written at off. */
  function Grown(size: nat, off: nat, n: nat): nat {
    if n > 0 && off + n > size then off + n else size
  }

  /** The on-disk inodes d' differ only if their block is logged, and agree with memory if they did. */
  ghost predicate Synced(v: Vol, v': Vol, d: seq<Inode>, d': seq<Inode>, iblock: nat, logged: set<nat>) {
    && (d' != d ==> iblock in logged)
    && (d == v.inodes ==> d' == v'.inodes)
  }

  lemma SyncedBy(v: Vol, v': Vol, d: seq<Inode>, d': seq<Inode>, i: nat, iblock: nat, logged: set<nat>)
    requires i < |v.inodes| == |v'.inodes| == |d| && v'.inodes == v.inodes[i := v'.inodes[i]]
    requires (d' == d && v'.inodes == v.inodes) || (d' == d[i := v'.inodes[i]] && iblock in logged)
    ensures Synced(v, v', d, d', iblock, logged)
  {
  }

  lemma CoversMore(v: Vol, v': Vol, l: set<nat>, l': set<nat>)
    requires Covers(v, v', l) && l <= l'
    ensures Covers(v, v', l')
  {
  }

  lemma SameInd(ip: Inode, jp: Inode)
    requires |ip.addrs| == NDIRECT + 1 && jp.addrs == ip.addrs
    ensures IndSet(jp) == IndSet(ip)
  {
  }

  lemma OthersSame(sb: Super, v: Vol, v': Vol, nb: seq<nat>, i: nat)
    requires Others(sb, v, v', nb, i)
    ensures |v'.inodes| == |v.inodes| && forall j :: 0 <= j < |v.inodes| && j != i ==> v'.inodes[j] == v.inodes[j]
  {
  }
}
