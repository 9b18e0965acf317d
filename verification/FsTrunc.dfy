// Giving back the blocks of a file (OS-Lab-1/fs.c:408-435).

module FsTrunc {
  import opened Params
  import opened Disk
  import opened FsBlock
  import opened FsLayout
  import opened Sets
  import opened FsMap

  /** The blocks of file i that hold its blocks 0 to n - 1. */
  ghost function Gone(owner: Owner, i: nat, n: nat): set<nat> {
    set b | b in owner && owner[b].Content? && owner[b].inum == i && owner[b].bn < n
  }

  /** What is left when file i has nothing. */
  ghost function Without(owner: Owner, i: nat): Owner {
    map b | b in owner && owner[b].inum != i :: owner[b]
  }

  /** Only the bitmap and inode i differ, and the bitmap says used. */
  ghost predicate Truncating(sb: Super, v0: Vol, v: Vol, i: nat, used: set<nat>) {
    && Shape(sb, v0) && Shape(sb, v) && Bits(sb, v, used)
    && (forall b: nat :: sb.IsData(b) ==> v.blocks[b] == v0.blocks[b])
    && (forall j :: 0 <= j < sb.ninodes && j != i ==> v.inodes[j] == v0.inodes[j])
  }

  /** A block still to be freed is marked, so "freeing free block" is not reached. */
  lemma StillMarked(sb: Super, v0: Vol, nb: seq<nat>, owner: Owner, v: Vol, i: nat, n: nat)
    requires Inv(sb, v0, nb, owner) && i < sb.ninodes && n < MAXFILE
    requires Truncating(sb, v0, v, i, owner.Keys - Gone(owner, i, n))
    requires Addr(sb, v0, i, n) != 0
    ensures sb.IsData(Addr(sb, v0, i, n)) && BitOf(sb, v, Addr(sb, v0, i, n))
    ensures Gone(owner, i, n + 1) == Gone(owner, i, n) + {Addr(sb, v0, i, n)}
    ensures owner.Keys - Gone(owner, i, n) - {Addr(sb, v0, i, n)} == owner.Keys - Gone(owner, i, n + 1)
  {
    hide Val, BitOf;
    AddrVal(sb, v0, i, n);
    var b := Addr(sb, v0, i, n);
    OwnNames(sb, v0, owner, Content(i, n));
    forall c: nat | c in Gone(owner, i, n + 1) ensures c in Gone(owner, i, n) + {b} {
      OwnedAt(sb, v0, owner, c);
    }
  }

  lemma OwnedAt(sb: Super, v: Vol, owner: Owner, b: nat)
    requires Own(sb, v, owner) && b in owner
    ensures SlotOk(sb, owner[b]) && Val(sb, v, owner[b]) == b && sb.IsData(b)
  {
  }

  lemma NothingThere(sb: Super, v0: Vol, owner: Owner, i: nat, n: nat)
    requires Own(sb, v0, owner) && i < sb.ninodes && n < MAXFILE && Addr(sb, v0, i, n) == 0
    ensures Gone(owner, i, n + 1) == Gone(owner, i, n)
  {
    hide Val;
    AddrVal(sb, v0, i, n);
    forall c: nat | c in Gone(owner, i, n + 1) ensures c in Gone(owner, i, n) {
      OwnedAt(sb, v0, owner, c);
    }
  }

  lemma FreesOne(sb: Super, v0: Vol, v: Vol, i: nat, used: set<nat>, b: nat)
    requires Truncating(sb, v0, v, i, used) && sb.IsData(b)
    ensures sb.BBlock(b) < sb.size
    ensures Truncating(sb, v0, Put(v, sb.BBlock(b), ClearBit(v.blocks[sb.BBlock(b)], b % BPB)), i, used - {b})
    ensures Shape(sb, v) && Bits(sb, v, used)
  {
    hide Bits, ClearBit;
    MarkBits(sb, v, used, b, false);
  }

  lemma InodeFree(sb: Super, v0: Vol, v: Vol, i: nat, used: set<nat>, ip: Inode)
    requires Truncating(sb, v0, v, i, used) && i < sb.ninodes && |ip.addrs| == NDIRECT + 1
    ensures Truncating(sb, v0, v.(inodes := v.inodes[i := ip]), i, used)
  {
    hide Bits;
    SameBits(sb, v, v.(inodes := v.inodes[i := ip]), used);
  }

  /** After the last block has gone, the other files are untouched and the bitmap is theirs alone. */
  lemma Truncated(sb: Super, v0: Vol, v: Vol, nb: seq<nat>, owner: Owner, i: nat, used: set<nat>)
    requires Inv(sb, v0, nb, owner) && Sized(sb, v0, nb) && i < sb.ninodes
    requires Truncating(sb, v0, v, i, used)
    requires used == owner.Keys - Gone(owner, i, MAXFILE) - {Val(sb, v0, Indirect(i))}
    requires v.inodes[i].size == 0 && forall k :: 0 <= k <= NDIRECT ==> v.inodes[i].addrs[k] == 0
    ensures i < |nb| && Inv(sb, v, nb[i := 0], Without(owner, i)) && Sized(sb, v, nb[i := 0])
    ensures Fits(v0) && OtherFiles(sb, v0, v, i)
  {
    hide Inv, Own, Bits, AllDense, Sized, Val, File;
    InvFacts(sb, v0, nb, owner);
    TruncOwn(sb, v0, v, nb, owner, i, used);
    TruncKeys(sb, v0, owner, i);
    TruncDense(sb, v0, v, nb, owner, i, used);
    TruncFiles(sb, v0, v, nb, owner, i, used);
    assert Inv(sb, v, nb[i := 0], Without(owner, i)) by {
      InvFrom(sb, v, nb[i := 0], Without(owner, i));
    }
  }

  lemma InvFrom(sb: Super, v: Vol, nb: seq<nat>, owner: Owner)
    requires Own(sb, v, owner) && Shape(sb, v) && Bits(sb, v, owner.Keys) && AllDense(sb, v, nb)
    ensures Inv(sb, v, nb, owner)
  {
    hide Own, Bits, AllDense;
  }

  /** Slots of other files hold what they held; slots of file i hold nothing. */
  lemma TruncVal(sb: Super, v0: Vol, v: Vol, owner: Owner, i: nat, used: set<nat>, s: Slot)
    requires Own(sb, v0, owner) && i < sb.ninodes && SlotOk(sb, s) && Truncating(sb, v0, v, i, used)
    requires forall k :: 0 <= k <= NDIRECT ==> v.inodes[i].addrs[k] == 0
    ensures Val(sb, v, s) == if s.inum == i then 0 else Val(sb, v0, s)
  {
    hide Ptr, Bits;
    if s.inum != i && Val(sb, v0, Indirect(s.inum)) != 0 {
      OwnNames(sb, v0, owner, Indirect(s.inum));
    }
  }

  lemma TruncKeys(sb: Super, v0: Vol, owner: Owner, i: nat)
    requires Own(sb, v0, owner) && i < sb.ninodes
    ensures Without(owner, i).Keys == owner.Keys - Gone(owner, i, MAXFILE) - {Val(sb, v0, Indirect(i))}
  {
    hide Val;
    forall b: nat | b in owner
      ensures owner[b].inum == i <==> b in Gone(owner, i, MAXFILE) || b == Val(sb, v0, Indirect(i))
    {
      OwnedAt(sb, v0, owner, b);
      if b == Val(sb, v0, Indirect(i)) {
        OwnNames(sb, v0, owner, Indirect(i));
      }
    }
  }

  lemma TruncOwn(sb: Super, v0: Vol, v: Vol, nb: seq<nat>, owner: Owner, i: nat, used: set<nat>)
    requires Inv(sb, v0, nb, owner) && i < sb.ninodes && Truncating(sb, v0, v, i, used)
    requires forall k :: 0 <= k <= NDIRECT ==> v.inodes[i].addrs[k] == 0
    ensures Own(sb, v, Without(owner, i))
  {
    hide Val, Bits, AllDense;
    forall s: Slot | SlotOk(sb, s) ensures Val(sb, v, s) == if s.inum == i then 0 else Val(sb, v0, s) {
      TruncVal(sb, v0, v, owner, i, used, s);
    }
  }

  lemma TruncDense(sb: Super, v0: Vol, v: Vol, nb: seq<nat>, owner: Owner, i: nat, used: set<nat>)
    requires Inv(sb, v0, nb, owner) && i < sb.ninodes && Truncating(sb, v0, v, i, used)
    requires Sized(sb, v0, nb) && v.inodes[i].size == 0
    requires forall k :: 0 <= k <= NDIRECT ==> v.inodes[i].addrs[k] == 0
    ensures i < |nb| && AllDense(sb, v, nb[i := 0]) && Sized(sb, v, nb[i := 0])
  {
    hide Val, Bits, Own;
    InvFacts(sb, v0, nb, owner);
    var nb' := nb[i := 0];
    forall j: nat | j < sb.ninodes ensures Dense(sb, v, j, nb'[j]) {
      assert Dense(sb, v0, j, nb[j]);
      TruncVal(sb, v0, v, owner, i, used, Indirect(j));
      forall k: nat | k < MAXFILE ensures Addr(sb, v, j, k) != 0 <==> k < nb'[j] {
        TruncVal(sb, v0, v, owner, i, used, Content(j, k));
        assert Addr(sb, v0, j, k) != 0 <==> k < nb[j];
      }
    }
  }

  lemma TruncFiles(sb: Super, v0: Vol, v: Vol, nb: seq<nat>, owner: Owner, i: nat, used: set<nat>)
    requires Inv(sb, v0, nb, owner) && i < sb.ninodes && Truncating(sb, v0, v, i, used)
    requires Sized(sb, v0, nb)
    requires forall k :: 0 <= k <= NDIRECT ==> v.inodes[i].addrs[k] == 0
    ensures Fits(v0) && OtherFiles(sb, v0, v, i)
  {
    hide Val, Bits, Own, AllDense, File, BlockOf;
    InvFacts(sb, v0, nb, owner);
    AllFit(sb, v0, nb, owner);
    forall j: nat, k: nat | j < sb.ninodes && j != i && k < nb[j] && k < MAXFILE
      ensures BlockOf(sb, v, j, k) == BlockOf(sb, v0, j, k)
    {
      SlotWords(sb, v0, nb, owner, j, k);
      OwnNames(sb, v0, owner, Content(j, k));
      TruncVal(sb, v0, v, owner, i, used, Content(j, k));
      SameBlock(sb, v0, v, j, k);
    }
    OthersFiles(sb, v0, v, nb, i);
  }

  lemma SameBlock(sb: Super, v0: Vol, v: Vol, j: nat, k: nat)
    requires Shape(sb, v0) && Shape(sb, v) && j < sb.ninodes && k < MAXFILE
    requires Val(sb, v, Content(j, k)) == Val(sb, v0, Content(j, k)) && sb.IsData(Val(sb, v, Content(j, k)))
    requires v.blocks[Val(sb, v, Content(j, k))] == v0.blocks[Val(sb, v, Content(j, k))]
    ensures BlockOf(sb, v, j, k) == BlockOf(sb, v0, j, k)
  {
    hide Val;
  }

  lemma IndirectMarked(sb: Super, v0: Vol, owner: Owner, v: Vol, i: nat)
    requires Own(sb, v0, owner) && i < sb.ninodes && Val(sb, v0, Indirect(i)) != 0
    requires Truncating(sb, v0, v, i, owner.Keys - Gone(owner, i, MAXFILE))
    ensures sb.IsData(Val(sb, v0, Indirect(i))) && BitOf(sb, v, Val(sb, v0, Indirect(i)))
    ensures v.blocks[Val(sb, v0, Indirect(i))] == v0.blocks[Val(sb, v0, Indirect(i))]
  {
    hide Val, BitOf;
    OwnNames(sb, v0, owner, Indirect(i));
  }

  lemma TruncStart(sb: Super, v0: Vol, nb: seq<nat>, owner: Owner, i: nat)
    requires Inv(sb, v0, nb, owner) && i < sb.ninodes
    ensures Truncating(sb, v0, v0, i, owner.Keys - Gone(owner, i, 0))
  {
    hide Val, Bits, AllDense;
    assert owner.Keys - Gone(owner, i, 0) == owner.Keys;
  }

  lemma TruncFacts(sb: Super, v0: Vol, v: Vol, i: nat, used: set<nat>)
    requires Truncating(sb, v0, v, i, used) && i < sb.ninodes
    ensures Shape(sb, v0) && Shape(sb, v) && |v.blocks| == sb.size && |v.inodes| == sb.ninodes
    ensures forall j :: 0 <= j < |v.inodes| ==> |v.inodes[j].addrs| == NDIRECT + 1
    ensures forall j :: 0 <= j < sb.ninodes && j != i ==> v.inodes[j] == v0.inodes[j]
    ensures |v0.inodes| == sb.ninodes
  {
  }

  lemma NoIndirect(sb: Super, v0: Vol, owner: Owner, i: nat)
    requires Own(sb, v0, owner) && i < sb.ninodes && Val(sb, v0, Indirect(i)) == 0
    ensures owner.Keys - Gone(owner, i, MAXFILE) - {Val(sb, v0, Indirect(i))} == owner.Keys - Gone(owner, i, NDIRECT)
  {
    hide Ptr;
    forall b: nat | b in Gone(owner, i, MAXFILE) ensures b in Gone(owner, i, NDIRECT) {
      OwnedAt(sb, v0, owner, b);
      assert sb.IsData(b);
    }
    assert 0 !in owner;
  }

  lemma DirectAddr(sb: Super, v: Vol, i: nat, k: nat)
    requires Shape(sb, v) && i < sb.ninodes && k < NDIRECT
    ensures Addr(sb, v, i, k) == v.inodes[i].addrs[k]
  {
  }

  lemma IndirectWord(sb: Super, v: Vol, i: nat)
    requires Shape(sb, v) && i < sb.ninodes
    ensures Val(sb, v, Indirect(i)) == v.inodes[i].addrs[NDIRECT]
  {
  }

  lemma SameData(sb: Super, v0: Vol, v: Vol, i: nat, used: set<nat>, b: nat)
    requires Truncating(sb, v0, v, i, used) && sb.IsData(b)
    ensures b < |v.blocks| == |v0.blocks| && v.blocks[b] == v0.blocks[b]
  {
  }

  // ----- the bitmap and ownership agree

  /** Two places never name one block. */
  lemma NoSharing(sb: Super, v: Vol, nb: seq<nat>, owner: Owner, s: Slot, t: Slot)
    requires Inv(sb, v, nb, owner) && SlotOk(sb, s) && SlotOk(sb, t) && s != t
    ensures Shape(sb, v) && (Val(sb, v, s) == Val(sb, v, t) ==> Val(sb, v, s) == 0)
  {
    hide Val, Bits, AllDense;
  }

  /** The data blocks whose bit is clear. */
  ghost function Free(sb: Super, v: Vol): set<nat>
    requires Shape(sb, v)
  {
    set b | b in Between(sb.first, sb.size) && !BitOf(sb, v, b)
  }

  lemma Complement<T>(all: set<T>, some: set<T>)
    requires some <= all
    ensures |all - some| + |some| == |all|
  {
    assert all == (all - some) + some;
  }

  /** Free and owned blocks together are all the data blocks. */
  lemma FreePlusOwned(sb: Super, v: Vol, nb: seq<nat>, owner: Owner)
    requires Inv(sb, v, nb, owner)
    ensures Shape(sb, v) && |Free(sb, v)| + |owner| == sb.size - sb.first
    ensures forall b: nat :: b in owner <==> IsNamed(sb, v, b)
  {
    hide Val, BitOf, AllDense, IsNamed, Own;
    InvFacts(sb, v, nb, owner);
    var all := Between(sb.first, sb.size);
    assert owner.Keys <= all;
    assert Free(sb, v) == all - owner.Keys;
    Complement(all, owner.Keys);
    forall b: nat ensures b in owner <==> IsNamed(sb, v, b) {
      NamedIffOwned(sb, v, owner, b);
    }
  }

  /** Some inode or indirect block lists block b. */
  ghost predicate IsNamed(sb: Super, v: Vol, b: nat)
    requires Shape(sb, v)
  {
    b != 0 && exists s: Slot :: SlotOk(sb, s) && Val(sb, v, s) == b
  }

  lemma NamedIffOwned(sb: Super, v: Vol, owner: Owner, b: nat)
    requires Own(sb, v, owner)
    ensures b in owner <==> IsNamed(sb, v, b)
  {
    hide Val;
    if b in owner {
      OwnedAt(sb, v, owner, b);
    }
  }
}
