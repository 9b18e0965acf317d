// Which block belongs to which file (OS-Lab-1/fs.c): direct and indirect block
// maps, the free bitmap, and the bytes a file holds.

module FsLayout {
  import opened Params
  import opened Disk
  import opened FsBlock
  import opened Sets

  const NDIRECT: nat := 12
  const MAXFILE: nat := 140     // NDIRECT + NINDIRECT
  const IPB: nat := 8           // BSIZE / sizeof(struct dinode)

  /** The superblock.  Data blocks start at first, which mkfs calls nmeta. */
  datatype Super = Super(size: nat, ninodes: nat, inodestart: nat, bmapstart: nat, first: nat)
  {
    predicate Valid() {
      && 0 < first <= size < 0x8000_0000
      && inodestart + ninodes / IPB < bmapstart
      && bmapstart + (size - 1) / BPB < first
    }

    predicate IsData(b: nat) {
      first <= b < size
    }

    predicate IsBitmap(b: nat) {
      bmapstart <= b < first
    }

    function BBlock(b: nat): nat {
      b / BPB + bmapstart
    }

    function IBlock(inum: nat): nat {
      inum / IPB + inodestart
    }
  }

  datatype Inode = Inode(size: nat, addrs: seq<nat>)

  datatype Vol = Vol(blocks: seq<Bytes>, inodes: seq<Inode>)

  /** A place that can name a data block. */
  datatype Slot = Content(inum: nat, bn: nat) | Indirect(inum: nat)

  type Owner = map<nat, Slot>

  predicate Shape(sb: Super, v: Vol) {
    && sb.Valid() && |v.blocks| == sb.size && |v.inodes| == sb.ninodes
    && forall i :: 0 <= i < |v.inodes| ==> |v.inodes[i].addrs| == NDIRECT + 1
  }

  predicate SlotOk(sb: Super, s: Slot) {
    s.inum < sb.ninodes && (s.Content? ==> s.bn < MAXFILE)
  }

  /** What the slot holds: 0, or the number of a block. */
  function Val(sb: Super, v: Vol, s: Slot): nat
    requires Shape(sb, v) && SlotOk(sb, s)
  {
    var addrs := v.inodes[s.inum].addrs;
    if s.Indirect? then addrs[NDIRECT]
    else if s.bn < NDIRECT then addrs[s.bn]
    else if addrs[NDIRECT] == 0 || addrs[NDIRECT] >= |v.blocks| then 0
    else Ptr(v.blocks[addrs[NDIRECT]], s.bn - NDIRECT)
  }

  function Addr(sb: Super, v: Vol, i: nat, bn: nat): nat
    requires Shape(sb, v) && i < sb.ninodes && bn < MAXFILE
  {
    Val(sb, v, Content(i, bn))
  }

  lemma AddrVal(sb: Super, v: Vol, i: nat, bn: nat)
    requires Shape(sb, v) && i < sb.ninodes && bn < MAXFILE
    ensures Addr(sb, v, i, bn) == Val(sb, v, Content(i, bn))
  {
  }

  /** Each block has one owner: the slot that names it. */
  ghost predicate Own(sb: Super, v: Vol, owner: Owner) {
    && Shape(sb, v)
    && (forall s: Slot :: SlotOk(sb, s) && Val(sb, v, s) != 0 ==> Val(sb, v, s) in owner && owner[Val(sb, v, s)] == s)
    && (forall b: nat :: b in owner ==> sb.IsData(b) && SlotOk(sb, owner[b]) && Val(sb, v, owner[b]) == b)
  }

  predicate BitOf(sb: Super, v: Vol, b: nat)
    requires Shape(sb, v) && b < sb.size
  {
    BitmapFits(sb, b);
    Bit(v.blocks[sb.BBlock(b)], b % BPB)
  }

  lemma BitmapFits(sb: Super, b: nat)
    requires sb.Valid() && b < sb.size
    ensures sb.IsBitmap(sb.BBlock(b))
  {
    assert b / BPB <= (sb.size - 1) / BPB;
  }

  /** The bitmap marks the metadata blocks and the used data blocks, and no others. */
  ghost predicate Bits(sb: Super, v: Vol, used: set<nat>)
    requires Shape(sb, v)
  {
    forall b: nat :: b < sb.size ==> (BitOf(sb, v, b) <==> b < sb.first || b in used)
  }

  /** File i has exactly its first n blocks. */
  ghost predicate Dense(sb: Super, v: Vol, i: nat, n: nat)
    requires Shape(sb, v) && i < sb.ninodes
  {
    && n <= MAXFILE
    && (forall k: nat :: k < MAXFILE ==> (Addr(sb, v, i, k) != 0 <==> k < n))
    && (Val(sb, v, Indirect(i)) != 0 <==> NDIRECT < n)
  }

  ghost predicate AllDense(sb: Super, v: Vol, nb: seq<nat>)
    requires Shape(sb, v)
  {
    |nb| == sb.ninodes && forall i: nat :: i < sb.ninodes ==> Dense(sb, v, i, nb[i])
  }

  ghost predicate Inv(sb: Super, v: Vol, nb: seq<nat>, owner: Owner) {
    Own(sb, v, owner) && Bits(sb, v, owner.Keys) && AllDense(sb, v, nb)
  }

  function BlocksFor(size: nat): nat {
    (size + BSIZE - 1) / BSIZE
  }

  /** Each file has the blocks its size calls for. */
  ghost predicate Sized(sb: Super, v: Vol, nb: seq<nat>) {
    |nb| == |v.inodes| && forall i :: 0 <= i < |nb| ==> nb[i] == BlocksFor(v.inodes[i].size)
  }

  // ----- file contents

  function BlockOf(sb: Super, v: Vol, i: nat, bn: nat): Bytes
    requires Shape(sb, v) && i < sb.ninodes && bn < MAXFILE
  {
    var a := Addr(sb, v, i, bn);
    if a < |v.blocks| then v.blocks[a] else Zeros()
  }

  function At(sb: Super, v: Vol, i: nat, p: nat): byte
    requires Shape(sb, v) && i < sb.ninodes && p < MAXFILE * BSIZE
  {
    BlockOf(sb, v, i, p / BSIZE)[p % BSIZE]
  }

  /** The bytes of file i. */
  function File(sb: Super, v: Vol, i: nat): (r: seq<byte>)
    requires Shape(sb, v) && i < sb.ninodes && v.inodes[i].size <= MAXFILE * BSIZE
    ensures |r| == v.inodes[i].size
    ensures forall p :: 0 <= p < |r| ==> r[p] == At(sb, v, i, p)
  {
    seq(v.inodes[i].size, p requires 0 <= p < v.inodes[i].size => At(sb, v, i, p))
  }

  /** c with src written at off. */
  function Splice(c: seq<byte>, off: nat, src: seq<byte>): (r: seq<byte>)
    requires off <= |c|
    ensures |r| == if off + |src| < |c| then |c| else off + |src|
    ensures forall p :: 0 <= p < |r| ==> r[p] == if off <= p < off + |src| then src[p - off] else c[p]
  {
    c[..off] + src + (if off + |src| < |c| then c[off + |src|..] else [])
  }

  lemma SpliceSplice(c: seq<byte>, off: nat, a: seq<byte>, b: seq<byte>)
    requires off <= |c|
    ensures Splice(Splice(c, off, a), off + |a|, b) == Splice(c, off, a + b)
  {
  }

  // ----- single writes

  function Put(v: Vol, b: nat, x: Bytes): Vol
    requires b < |v.blocks|
  {
    v.(blocks := v.blocks[b := x])
  }

  function PutAddr(v: Vol, i: nat, k: nat, b: nat): Vol
    requires i < |v.inodes| && k < |v.inodes[i].addrs|
  {
    v.(inodes := v.inodes[i := v.inodes[i].(addrs := v.inodes[i].addrs[k := b])])
  }

  /** A block that is nobody's indirect block can change without moving any block. */
  lemma PutVal(sb: Super, v: Vol, owner: Owner, b: nat, x: Bytes, s: Slot)
    requires Own(sb, v, owner) && b < sb.size && (b in owner ==> owner[b].Content?) && SlotOk(sb, s)
    ensures Shape(sb, Put(v, b, x)) && Val(sb, Put(v, b, x), s) == Val(sb, v, s)
  {
    hide Ptr;
    if s.Content? && NDIRECT <= s.bn {
      var ind := Val(sb, v, Indirect(s.inum));
    }
  }

  lemma PutOwn(sb: Super, v: Vol, owner: Owner, b: nat, x: Bytes)
    requires Own(sb, v, owner) && b < sb.size && (b in owner ==> owner[b].Content?)
    ensures Own(sb, Put(v, b, x), owner)
  {
    hide Val;
    var v' := Put(v, b, x);
    forall s: Slot | SlotOk(sb, s) ensures Shape(sb, v') && Val(sb, v', s) == Val(sb, v, s) {
      PutVal(sb, v, owner, b, x, s);
    }
  }

  /** A free block becomes the value of an empty slot. */
  lemma AttachOwn(sb: Super, v: Vol, v': Vol, owner: Owner, s0: Slot, b: nat)
    requires Own(sb, v, owner) && Shape(sb, v') && sb.IsData(b) && b !in owner && SlotOk(sb, s0)
    requires Val(sb, v, s0) == 0 && Val(sb, v', s0) == b
    requires forall s: Slot :: SlotOk(sb, s) && s != s0 ==> Val(sb, v', s) == Val(sb, v, s)
    ensures Own(sb, v', owner[b := s0])
  {
    hide Val;
  }

  lemma PutAddrVal(sb: Super, v: Vol, i: nat, k: nat, b: nat, s: Slot)
    requires Shape(sb, v) && i < sb.ninodes && k <= NDIRECT && v.inodes[i].addrs[k] == 0 && SlotOk(sb, s)
    requires 0 < b < sb.size && (k == NDIRECT ==> v.blocks[b] == Zeros())
    ensures Shape(sb, PutAddr(v, i, k, b))
    ensures var s0 := if k == NDIRECT then Indirect(i) else Content(i, k);
      Val(sb, PutAddr(v, i, k, b), s) == if s == s0 then b else Val(sb, v, s)
  {
    hide Ptr;
    if k == NDIRECT && s.Content? && NDIRECT <= s.bn {
      PtrZeros(s.bn - NDIRECT);
    }
  }

  lemma SetPtrVal(sb: Super, v: Vol, owner: Owner, i: nat, k: nat, b: nat, s: Slot)
    requires Own(sb, v, owner) && i < sb.ninodes && NDIRECT <= k < MAXFILE && b < sb.size && SlotOk(sb, s)
    requires Val(sb, v, Indirect(i)) != 0
    ensures var ind := Val(sb, v, Indirect(i));
      && ind < sb.size
      && var v' := Put(v, ind, SetPtr(v.blocks[ind], k - NDIRECT, b));
      Shape(sb, v') && Val(sb, v', s) == if s == Content(i, k) then b else Val(sb, v, s)
  {
    hide Ptr, SetPtr;
    var ind := Val(sb, v, Indirect(i));
    if s.Content? && NDIRECT <= s.bn {
      if s.inum == i {
        SetPtrPtr(v.blocks[ind], k - NDIRECT, b, s.bn - NDIRECT);
      } else {
        assert Val(sb, v, Indirect(s.inum)) != 0 ==> owner[Val(sb, v, Indirect(s.inum))] == Indirect(s.inum);
      }
    }
  }

  /** Only bitmap blocks hold the bitmap. */
  lemma PutBits(sb: Super, v: Vol, used: set<nat>, b: nat, x: Bytes)
    requires Shape(sb, v) && Bits(sb, v, used) && b < sb.size && !sb.IsBitmap(b)
    ensures Shape(sb, Put(v, b, x)) && Bits(sb, Put(v, b, x), used)
  {
    hide Bit;
    forall c: nat | c < sb.size ensures BitOf(sb, Put(v, b, x), c) == BitOf(sb, v, c) {
      BitmapFits(sb, c);
    }
  }

  lemma MarkBits(sb: Super, v: Vol, used: set<nat>, b: nat, on: bool)
    requires Shape(sb, v) && Bits(sb, v, used) && sb.IsData(b)
    ensures sb.IsBitmap(sb.BBlock(b))
    ensures var m := sb.BBlock(b);
      var v' := Put(v, m, if on then SetBit(v.blocks[m], b % BPB) else ClearBit(v.blocks[m], b % BPB));
      Shape(sb, v') && Bits(sb, v', if on then used + {b} else used - {b})
  {
    hide Bit, SetBit, ClearBit;
    var m := sb.BBlock(b);
    BitmapFits(sb, b);
    var v' := Put(v, m, if on then SetBit(v.blocks[m], b % BPB) else ClearBit(v.blocks[m], b % BPB));
    forall c: nat | c < sb.size ensures BitOf(sb, v', c) == if c == b then on else BitOf(sb, v, c) {
      BitmapFits(sb, c);
      if sb.BBlock(c) == m {
        SetBitBit(v.blocks[m], b % BPB, c % BPB);
        ClearBitBit(v.blocks[m], b % BPB, c % BPB);
        assert c % BPB == b % BPB ==> c == b;
      }
    }
  }

  // ----- one allocation

  /** v with block b marked and zeroed: what balloc does. */
  function Taken(sb: Super, v: Vol, b: nat): Vol
    requires Shape(sb, v) && sb.IsData(b)
  {
    BitmapFits(sb, b);
    var m := sb.BBlock(b);
    Put(Put(v, m, SetBit(v.blocks[m], b % BPB)), b, Zeros())
  }

  /** Slots keep what they held. */
  ghost predicate SameBut(sb: Super, v: Vol, v': Vol, s0: Slot) {
    && Shape(sb, v) && Shape(sb, v')
    && forall s: Slot :: SlotOk(sb, s) && s != s0 ==> Val(sb, v', s) == Val(sb, v, s)
  }

  /** Contents of file blocks are as they were. */
  ghost predicate Kept(v: Vol, v': Vol, owner: Owner) {
    && |v'.blocks| == |v.blocks|
    && (forall b: nat :: b in owner && owner[b].Content? && b < |v.blocks| ==> v'.blocks[b] == v.blocks[b])
  }

  ghost predicate SameSizes(v: Vol, v': Vol, i: nat) {
    && |v'.inodes| == |v.inodes|
    && (forall j :: 0 <= j < |v.inodes| ==> v'.inodes[j].size == v.inodes[j].size)
    && (forall j :: 0 <= j < |v.inodes| && j != i ==> v'.inodes[j] == v.inodes[j])
  }

  /** The free block b, zeroed, has become the value of the empty slot s0; nothing else has changed. */
  ghost predicate Attached(sb: Super, v: Vol, v': Vol, owner: Owner, s0: Slot, b: nat) {
    && SlotOk(sb, s0) && b !in owner && sb.IsData(b)
    && SameBut(sb, v, v', s0) && Val(sb, v', s0) == b
    && Own(sb, v', owner[b := s0]) && Bits(sb, v', owner.Keys + {b})
    && Kept(v, v', owner) && v'.blocks[b] == Zeros()
    && SameSizes(v, v', s0.inum)
  }

  lemma TakenKeeps(sb: Super, v: Vol, owner: Owner, b: nat)
    requires Own(sb, v, owner) && Bits(sb, v, owner.Keys) && sb.IsData(b) && b !in owner
    ensures var v1 := Taken(sb, v, b);
      && Own(sb, v1, owner) && Bits(sb, v1, owner.Keys + {b})
      && (forall s: Slot :: SlotOk(sb, s) ==> Val(sb, v1, s) == Val(sb, v, s))
      && (forall c: nat :: c in owner ==> v1.blocks[c] == v.blocks[c])
      && v1.blocks[b] == Zeros() && v1.inodes == v.inodes
  {
    hide Val, Bits, Bit, SetBit, Zeros;
    var m := sb.BBlock(b);
    BitmapFits(sb, b);
    var x := SetBit(v.blocks[m], b % BPB);
    MarkBits(sb, v, owner.Keys, b, true);
    PutOwn(sb, v, owner, m, x);
    var w := Put(v, m, x);
    PutOwn(sb, w, owner, b, Zeros());
    PutBits(sb, w, owner.Keys + {b}, b, Zeros());
    forall s: Slot | SlotOk(sb, s) ensures Val(sb, Taken(sb, v, b), s) == Val(sb, v, s) {
      PutVal(sb, v, owner, m, x, s);
      PutVal(sb, w, owner, b, Zeros(), s);
    }
  }

  lemma AttachAddr(sb: Super, v: Vol, owner: Owner, i: nat, k: nat, b: nat)
    requires Own(sb, v, owner) && Bits(sb, v, owner.Keys) && sb.IsData(b) && b !in owner
    requires i < sb.ninodes && k <= NDIRECT && v.inodes[i].addrs[k] == 0
    ensures Attached(sb, v, PutAddr(Taken(sb, v, b), i, k, b), owner,
                     if k == NDIRECT then Indirect(i) else Content(i, k), b)
  {
    hide Val, Bits, Bit, SetBit, Zeros, Taken;
    TakenKeeps(sb, v, owner, b);
    var v1 := Taken(sb, v, b);
    var v2 := PutAddr(v1, i, k, b);
    var s0 := if k == NDIRECT then Indirect(i) else Content(i, k);
    forall s: Slot | SlotOk(sb, s) ensures Shape(sb, v2) && Val(sb, v2, s) == if s == s0 then b else Val(sb, v1, s) {
      PutAddrVal(sb, v1, i, k, b, s);
    }
    EmptySlot(sb, v1, i, k);
    AttachOwn(sb, v1, v2, owner, s0, b);
    SameBits(sb, v1, v2, owner.Keys + {b});
  }

  lemma EmptySlot(sb: Super, v: Vol, i: nat, k: nat)
    requires Shape(sb, v) && i < sb.ninodes && k <= NDIRECT
    ensures Val(sb, v, if k == NDIRECT then Indirect(i) else Content(i, k)) == v.inodes[i].addrs[k]
  {
  }

  lemma SameBits(sb: Super, v: Vol, v': Vol, used: set<nat>)
    requires Shape(sb, v) && Shape(sb, v') && v'.blocks == v.blocks && Bits(sb, v, used)
    ensures Bits(sb, v', used)
  {
    hide Bit;
    forall b: nat | b < sb.size ensures BitOf(sb, v', b) == BitOf(sb, v, b) {
    }
  }

  lemma AttachPtr(sb: Super, v: Vol, owner: Owner, i: nat, k: nat, b: nat)
    requires Own(sb, v, owner) && Bits(sb, v, owner.Keys) && sb.IsData(b) && b !in owner
    requires i < sb.ninodes && NDIRECT <= k < MAXFILE && Val(sb, v, Indirect(i)) != 0 && Addr(sb, v, i, k) == 0
    ensures var ind := Val(sb, v, Indirect(i));
      && ind < sb.size
      && var v1 := Taken(sb, v, b);
      Attached(sb, v, Put(v1, ind, SetPtr(v1.blocks[ind], k - NDIRECT, b)), owner, Content(i, k), b)
  {
    hide Val, Bits, Bit, SetBit, SetPtr, Zeros, Taken;
    TakenKeeps(sb, v, owner, b);
    var v1 := Taken(sb, v, b);
    var ind := Val(sb, v, Indirect(i));
    assert Val(sb, v1, Indirect(i)) == ind && owner[ind] == Indirect(i);
    var v2 := Put(v1, ind, SetPtr(v1.blocks[ind], k - NDIRECT, b));
    forall s: Slot | SlotOk(sb, s)
      ensures Shape(sb, v2) && Val(sb, v2, s) == if s == Content(i, k) then b else Val(sb, v1, s)
    {
      SetPtrVal(sb, v1, owner, i, k, b, s);
    }
    AttachOwn(sb, v1, v2, owner, Content(i, k), b);
    PutBits(sb, v1, owner.Keys + {b}, ind, SetPtr(v1.blocks[ind], k - NDIRECT, b));
  }

  lemma SameAddr(sb: Super, v: Vol, v': Vol, s0: Slot, j: nat, k: nat)
    requires SameBut(sb, v, v', s0) && j < sb.ninodes && k < MAXFILE && s0 != Content(j, k)
    ensures Addr(sb, v', j, k) == Addr(sb, v, j, k)
  {
    hide Val;
  }

  /** A file grows by its next block. */
  lemma DenseGrows(sb: Super, v: Vol, v': Vol, nb: seq<nat>, i: nat)
    requires Shape(sb, v) && AllDense(sb, v, nb) && i < sb.ninodes && nb[i] < MAXFILE
    requires SameBut(sb, v, v', Content(i, nb[i])) && Addr(sb, v', i, nb[i]) != 0
    requires NDIRECT != nb[i]
    ensures AllDense(sb, v', nb[i := nb[i] + 1])
  {
    hide Addr, Val;
    var nb' := nb[i := nb[i] + 1];
    forall j: nat | j < sb.ninodes ensures Dense(sb, v', j, nb'[j]) {
      assert Dense(sb, v, j, nb[j]);
      assert Val(sb, v', Indirect(j)) == Val(sb, v, Indirect(j));
      forall k: nat | k < MAXFILE ensures Addr(sb, v', j, k) != 0 <==> k < nb'[j] {
        if !(j == i && k == nb[i]) {
          SameAddr(sb, v, v', Content(i, nb[i]), j, k);
        }
      }
    }
  }

  /** A file grows by its first indirect block, and so by the block that lists it. */
  lemma DenseGrowsTwice(sb: Super, v: Vol, v1: Vol, v2: Vol, nb: seq<nat>, i: nat)
    requires Shape(sb, v) && AllDense(sb, v, nb) && i < sb.ninodes && nb[i] == NDIRECT
    requires SameBut(sb, v, v1, Indirect(i)) && Val(sb, v1, Indirect(i)) != 0
    requires SameBut(sb, v1, v2, Content(i, NDIRECT)) && Addr(sb, v2, i, NDIRECT) != 0
    ensures AllDense(sb, v2, nb[i := NDIRECT + 1])
  {
    hide Addr, Val;
    var nb' := nb[i := NDIRECT + 1];
    forall j: nat | j < sb.ninodes ensures Dense(sb, v2, j, nb'[j]) {
      assert Dense(sb, v, j, nb[j]);
      assert Val(sb, v2, Indirect(j)) == Val(sb, v1, Indirect(j));
      assert j != i ==> Val(sb, v1, Indirect(j)) == Val(sb, v, Indirect(j));
      forall k: nat | k < MAXFILE ensures Addr(sb, v2, j, k) != 0 <==> k < nb'[j] {
        SameAddr(sb, v, v1, Indirect(i), j, k);
        if !(j == i && k == NDIRECT) {
          SameAddr(sb, v1, v2, Content(i, NDIRECT), j, k);
        }
      }
    }
  }

  /** A block is free just while fewer are owned than there are. */
  lemma SomeFree(sb: Super, owner: Owner)
    requires sb.Valid() && forall b: nat :: b in owner ==> sb.IsData(b)
    ensures (exists b: nat :: sb.IsData(b) && b !in owner) <==> |owner| < sb.size - sb.first
  {
    var all := Between(sb.first, sb.size);
    if all <= owner.Keys {
      SubsetSize(all, owner.Keys);
      assert forall b: nat :: sb.IsData(b) ==> b in all;
    } else {
      var b :| b in all && b !in owner.Keys;
      assert sb.IsData(b);
      assert owner.Keys <= all - {b};
      SubsetSize(owner.Keys, all - {b});
    }
  }
}
