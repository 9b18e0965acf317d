// The inode content layer (OS-Lab-1/fs.c): allocation, block maps, reading,
// writing and truncation.  Blocks are read and written through the cache, so
// blocks[b] is what bread(b) returns; trace collects the blocks handed to log_write.

module Fs {
  import opened Options
  import opened Params
  import opened Disk
  import opened FsBlock
  import opened FsLayout
  import opened Sets
  import opened FsMap
  import opened FsBudget
  import opened FsTrunc

  /** An open inode (struct file, FD_INODE). */
  class OpenFile {
    const ip: nat
    const writable: bool
    var off: nat

    constructor (ip: nat, writable: bool)
      ensures this.ip == ip && this.writable == writable && off == 0
    {
      this.ip, this.writable, off := ip, writable, 0;
    }
  }

  class Fs {
    const sb: Super
    const blocks: array<Bytes>
    const inodes: array<Inode>     // in memory
    const dinodes: array<Inode>    // on disk
    ghost var owner: Owner
    ghost var nb: seq<nat>
    ghost var trace: seq<nat>      // the blocks handed to log_write, in order

    ghost function V(): Vol
      reads blocks, inodes
    {
      Vol(blocks[..], inodes[..])
    }

    ghost function Logged(): set<nat>
      reads `trace
    {
      Elems(trace)
    }

    ghost function Now(): Books
      reads this
    {
      Books(owner, nb, Logged())
    }

    /** Between transactions nothing is logged. */
    ghost function Rest(): Books
      reads this
    {
      Books(owner, nb, {})
    }

    ghost predicate Apart()
    {
      inodes != dinodes && dinodes.Length == inodes.Length
    }

    ghost predicate Valid()
      reads this, blocks, inodes
    {
      Apart() && Inv(sb, V(), nb, owner)
    }

    /** The volume v, with its inodes in memory and an empty log. */
    constructor (sb: Super, v: Vol, ghost nb: seq<nat>, ghost owner: Owner)
      requires Inv(sb, v, nb, owner)
      ensures Valid() && V() == v && this.sb == sb && this.nb == nb && this.owner == owner && Logged() == {}
      ensures dinodes[..] == inodes[..] && fresh(blocks) && fresh(inodes) && fresh(dinodes)
    {
      hide Inv;
      this.sb, this.nb, this.owner, trace := sb, nb, owner, [];
      blocks := new Bytes[|v.blocks|](k requires 0 <= k < |v.blocks| => v.blocks[k]);
      inodes := new Inode[|v.inodes|](k requires 0 <= k < |v.inodes| => v.inodes[k]);
      dinodes := new Inode[|v.inodes|](k requires 0 <= k < |v.inodes| => v.inodes[k]);
      new;
      assert V() == v;
    }

    method Bzero(b: nat)
      requires b < blocks.Length
      modifies blocks, `trace
      ensures blocks[..] == old(blocks[..])[b := Zeros()]
      ensures Logged() == old(Logged()) + {b}
    {
      blocks[b] := Zeros();
      ElemsSnoc(trace, b);
      trace := trace + [b];
    }

    /** The first free block, marked and zeroed; None is panic("balloc: out of blocks"). */
    method Balloc(ghost used: set<nat>) returns (r: Option<nat>)
      requires Shape(sb, V()) && Bits(sb, V(), used)
      modifies blocks, `trace
      ensures r.None? <==> forall b: nat :: sb.IsData(b) ==> b in used
      ensures r.None? ==> V() == old(V()) && Logged() == old(Logged())
      ensures r.Some? ==>
        && sb.IsData(r.value) && r.value !in used
        && (forall b: nat :: sb.IsData(b) && b < r.value ==> b in used)
        && Shape(sb, old(V())) && V() == Taken(sb, old(V()), r.value)
        && Logged() == old(Logged()) + {sb.BBlock(r.value), r.value}
    {
      hide Bit, SetBit, Zeros, Bits, BitOf, Taken;
      ghost var v := V();
      var b := 0;
      while b < sb.size
        invariant V() == v && Logged() == old(Logged())
        invariant b % BPB == 0
        invariant AllSet(sb, v, b)
        decreases sb.size - b
      {
        BitmapFits(sb, b);
        var m := sb.BBlock(b);
        var bi := 0;
        while bi < BPB && b + bi < sb.size
          invariant bi <= BPB
          invariant V() == v && Logged() == old(Logged())
          invariant AllSet(sb, v, b + bi)
        {
          BitWord(sb, v, b, bi);
          if !Bit(blocks[m], bi) {
            FirstFree(sb, v, used, b + bi);
            blocks[m] := SetBit(blocks[m], bi);
            ElemsSnoc(trace, m);
            trace := trace + [m];
            Bzero(b + bi);
            TakenIs(sb, v, b, bi);
            return Some(b + bi);
          }
          bi := bi + 1;
        }
        b := b + BPB;
      }
      NoneFree(sb, v, used, b);
      return None;
    }

    /** Block b is free again, and the bitmap says the same as before of every other block.  The panic "freeing free
        block" is the requires. */
    method Bfree(b: nat, ghost used: set<nat>)
      requires Shape(sb, V()) && sb.IsData(b) && BitOf(sb, V(), b) && Bits(sb, V(), used)
      modifies blocks, `trace
      ensures b in used && Shape(sb, V()) && Bits(sb, V(), used - {b}) && !BitOf(sb, V(), b)
      ensures forall c: nat :: c < sb.size && !sb.IsBitmap(c) ==> V().blocks[c] == old(V()).blocks[c]
      ensures Shape(sb, old(V()))
      ensures sb.BBlock(b) < sb.size
      ensures var m := sb.BBlock(b); V() == Put(old(V()), m, ClearBit(old(blocks[m]), b % BPB))
      ensures Logged() == old(Logged()) + {sb.BBlock(b)}
    {
      hide Bit, ClearBit;
      BitmapFits(sb, b);
      MarkBits(sb, V(), used, b, false);
      var m := sb.BBlock(b);
      blocks[m] := ClearBit(blocks[m], b % BPB);
      ElemsSnoc(trace, m);
      trace := trace + [m];
    }

    /** ip->addrs[k] = balloc(ip->dev) */
    method AllocAddr(i: nat, k: nat) returns (r: Option<nat>)
      requires Apart() && Own(sb, V(), owner) && Bits(sb, V(), owner.Keys)
      requires i < sb.ninodes && k <= NDIRECT && inodes[i].addrs[k] == 0
      modifies blocks, inodes, `owner, `trace
      ensures r.None? <==> |old(owner)| >= sb.size - sb.first
      ensures r.Some? ==>
        var b, s0 := r.value, if k == NDIRECT then Indirect(i) else Content(i, k);
        && Own(sb, V(), owner) && Bits(sb, V(), owner.Keys)
        && Attached(sb, old(V()), V(), old(owner), s0, b) && owner == old(owner)[b := s0]
        && Logged() == old(Logged()) + {sb.BBlock(b), b} && Covers(old(V()), V(), Logged())
        && LowestFirst(sb, old(owner).Keys, owner.Keys) && Marks(sb, owner.Keys - old(owner).Keys) == {sb.BBlock(b)}
        && inodes[i].addrs[k] == b
    {
      hide Bit, SetBit, Zeros, Val, Bits, Own, Shape, Taken, Covers, Attached, LowestFirst, Marks;
      ghost var v := V();
      OwnFacts(sb, v, owner);
      SomeFree(sb, owner);
      r := Balloc(owner.Keys);
      if r.None? { return; }
      var b := r.value;
      AttachAddr(sb, v, owner, i, k, b);
      TakenCovers(sb, v, b, Logged());
      ghost var v1 := V();
      inodes[i] := inodes[i].(addrs := inodes[i].addrs[k := b]);
      assert V() == PutAddr(v1, i, k, b);
      InodesCovers(v, v1, V().inodes, Logged());
      ghost var s0 := if k == NDIRECT then Indirect(i) else Content(i, k);
      AttachedFacts(sb, v, V(), owner, s0, b);
      LowestOne(sb, owner.Keys, owner[b := s0].Keys, b);
      owner := owner[b := s0];
    }

    /** a[bn] = balloc(ip->dev); log_write(bp) */
    method AllocPtr(i: nat, bn: nat, ind: nat) returns (r: Option<nat>)
      requires Apart() && Own(sb, V(), owner) && Bits(sb, V(), owner.Keys)
      requires i < sb.ninodes && NDIRECT <= bn < MAXFILE
      requires ind == Val(sb, V(), Indirect(i)) != 0 && Addr(sb, V(), i, bn) == 0
      modifies blocks, `owner, `trace
      ensures r.None? <==> |old(owner)| >= sb.size - sb.first
      ensures r.Some? ==>
        var b := r.value;
        && Own(sb, V(), owner) && Bits(sb, V(), owner.Keys)
        && Attached(sb, old(V()), V(), old(owner), Content(i, bn), b) && owner == old(owner)[b := Content(i, bn)]
        && Logged() == old(Logged()) + {sb.BBlock(b), b, ind} && Covers(old(V()), V(), Logged())
        && LowestFirst(sb, old(owner).Keys, owner.Keys) && Marks(sb, owner.Keys - old(owner).Keys) == {sb.BBlock(b)}
    {
      hide Bit, SetBit, Zeros, Val, Bits, SetPtr, Addr, Own, Shape, Taken, Covers, Attached, LowestFirst, Marks;
      ghost var v := V();
      OwnFacts(sb, v, owner);
      OwnNames(sb, v, owner, Indirect(i));
      SomeFree(sb, owner);
      r := Balloc(owner.Keys);
      if r.None? { return; }
      var b := r.value;
      AttachPtr(sb, v, owner, i, bn, b);
      TakenCovers(sb, v, b, Logged());
      ghost var v1 := V();
      PutCovers(v, v1, ind, SetPtr(blocks[ind], bn - NDIRECT, b), Logged());
      blocks[ind] := SetPtr(blocks[ind], bn - NDIRECT, b);
      ElemsSnoc(trace, ind);
      trace := trace + [ind];
      assert V() == Put(v1, ind, SetPtr(v1.blocks[ind], bn - NDIRECT, b));
      AttachedFacts(sb, v, V(), owner, Content(i, bn), b);
      LowestOne(sb, owner.Keys, owner[b := Content(i, bn)].Keys, b);
      owner := owner[b := Content(i, bn)];
    }

    /** Block bn of file i, allocated if it is the file's next block.  None is balloc's panic. */
    method Bmap(i: nat, bn: nat) returns (r: Option<nat>)
      requires Valid() && i < sb.ninodes && bn < MAXFILE && bn <= nb[i]
      modifies blocks, inodes, `owner, `nb, `trace
      ensures old(Valid())
      ensures r.None? <==> |old(owner)| + Need(old(nb)[i], bn) > sb.size - sb.first
      ensures r.Some? ==>
        && Valid() && Mapped(sb, old(V()), V(), old(owner), owner, old(nb), nb, i, bn, r.value)
        && Covers(old(V()), V(), Logged())
        && Logged() == old(Logged()) + Marks(sb, owner.Keys - old(owner).Keys)
             + (if bn < old(nb)[i] then {} else {r.value}) + IndPart(old(nb)[i], nb[i], IndSet(inodes[i]))
        && (bn < old(nb)[i] ==> trace == old(trace))
    {
      hide Ptr, Bit, Shape, Covers, Attached, Mapped, Inv, Own, Bits, AllDense, Val, Addr, LowestFirst, Marks;
      ghost var v, o, n := V(), owner, nb;
      InvFacts(sb, v, n, o);
      SlotWords(sb, v, n, o, i, bn);
      assert Covers(v, v, Logged()) by { NothingCovers(v, Logged()); }
      if bn < NDIRECT {
        var addr := inodes[i].addrs[bn];
        r := Some(addr);
        if addr == 0 {
          r := AllocAddr(i, bn);
          if r.None? { return; }
          MappedOne(sb, v, V(), o, n, i, r.value);
          nb := nb[i := bn + 1];
          OwnerFits(sb, V(), owner);
        } else {
          OwnerFits(sb, v, o);
          AddrVal(sb, v, i, bn);
          MappedOld(sb, v, o, n, i, bn);
          LowestNone(sb, o.Keys);
        }
      } else {
        r := BmapIndirect(i, bn);
      }
    }

    method BmapIndirect(i: nat, bn: nat) returns (r: Option<nat>)
      requires Valid() && i < sb.ninodes && NDIRECT <= bn < MAXFILE && bn <= nb[i]
      modifies blocks, inodes, `owner, `nb, `trace
      ensures old(Valid())
      ensures r.None? <==> |old(owner)| + Need(old(nb)[i], bn) > sb.size - sb.first
      ensures r.Some? ==>
        && Valid() && Mapped(sb, old(V()), V(), old(owner), owner, old(nb), nb, i, bn, r.value)
        && Covers(old(V()), V(), Logged())
        && Logged() == old(Logged()) + Marks(sb, owner.Keys - old(owner).Keys)
             + (if bn < old(nb)[i] then {} else {r.value}) + IndPart(old(nb)[i], nb[i], IndSet(inodes[i]))
        && (bn < old(nb)[i] ==> trace == old(trace))
    {
      hide Ptr, Bit, Shape, Covers, Attached, Mapped, Inv, Own, Bits, AllDense, Val, Addr, LowestFirst, Marks;
      ghost var v, o, n := V(), owner, nb;
      InvFacts(sb, v, n, o);
      SlotWords(sb, v, n, o, i, bn);
      NothingCovers(v, Logged());
      var ind := inodes[i].addrs[NDIRECT];
      if ind == 0 {
        r := AllocAddr(i, NDIRECT);
        if r.None? { return; }
        ind := r.value;
        AttachedFacts(sb, v, V(), o, Indirect(i), ind);
        SameButAt(sb, v, V(), Indirect(i), Content(i, bn));
      }
      ghost var v1, o1, l1 := V(), owner, Logged();
      OwnFacts(sb, v1, o1);
      OwnNames(sb, v1, o1, Indirect(i));
      PtrIs(sb, v1, i, bn);
      var addr := Ptr(blocks[ind], bn - NDIRECT);
      r := Some(addr);
      if addr == 0 {
        r := AllocPtr(i, bn, ind);
        if r.None? { return; }
        addr := r.value;
        OwnerFits(sb, V(), owner);
        OwnFacts(sb, V(), owner);
        CoversOn(v, v1, V(), l1, Logged());
        nb := nb[i := bn + 1];
        if bn == NDIRECT {
          LowestOn(sb, o.Keys, o1.Keys, owner.Keys);
          MappedTwo(sb, v, v1, V(), o, o1, owner, n, i, ind, addr);
        } else {
          MappedOne(sb, v, V(), o, n, i, addr);
        }
      } else {
        OwnerFits(sb, v, o);
        MappedOld(sb, v, o, n, i, bn);
        LowestNone(sb, o.Keys);
      }
    }

    /** Up to n bytes of file i from off.  The file is dense, so nothing is allocated. */
    method Readi(i: nat, off: nat, n: nat) returns (r: int, dst: seq<byte>)
      requires Valid() && Sized(sb, V(), nb) && i < sb.ninodes && off < UINT && n < UINT
      modifies blocks, inodes, `owner, `nb, `trace
      ensures V() == old(V()) && owner == old(owner) && nb == old(nb) && trace == old(trace) && Valid()
      ensures Shape(sb, V()) && inodes[i].size <= MAXFILE * BSIZE
      ensures if off > inodes[i].size || off + n >= UINT then r == -1 && dst == []
        else
          && r == (if off + n > inodes[i].size then inodes[i].size - off else n)
          && dst == File(sb, V(), i)[off..off + r]
    {
      hide Shape, Inv, Own, Bits, Addr, Mapped, File, Sized;
      ghost var v, o, bs, l := V(), owner, nb, trace;
      SizeFits(sb, v, bs, o, i);
      InvFacts(sb, v, bs, o);
      OwnerFits(sb, v, o);
      if off > inodes[i].size || (off + n) % UINT < off {
        return -1, [];
      }
      var k := if off + n > inodes[i].size then inodes[i].size - off else n;
      var tot := 0;
      dst := [];
      while tot < k
        invariant tot <= k
        invariant V() == v && owner == o && nb == bs && trace == l
        invariant dst == File(sb, v, i)[off..off + tot]
      {
        var chunk := ReadBlock(i, off + tot, k - tot);
        dst := dst + chunk;
        tot := tot + |chunk|;
      }
      r := k;
    }

    /** What one block holds of the k bytes at pos. */
    method ReadBlock(i: nat, pos: nat, k: nat) returns (chunk: seq<byte>)
      requires Valid() && Sized(sb, V(), nb) && i < sb.ninodes
      requires 0 < k && i < inodes.Length && pos + k <= inodes[i].size <= MAXFILE * BSIZE
      modifies blocks, inodes, `owner, `nb, `trace
      ensures V() == old(V()) && owner == old(owner) && nb == old(nb) && trace == old(trace)
      ensures Shape(sb, V()) && i < |V().inodes| && V().inodes[i].size <= MAXFILE * BSIZE
      ensures 0 < |chunk| <= k && pos + |chunk| <= V().inodes[i].size
      ensures chunk == File(sb, V(), i)[pos..pos + |chunk|]
    {
      hide Shape, Inv, Own, Bits, Addr, Mapped, File, Sized;
      ghost var v, o, bs := V(), owner, nb;
      SizeFits(sb, v, bs, o, i);
      InvFacts(sb, v, bs, o);
      OwnerFits(sb, v, o);
      var a := Bmap(i, pos / BSIZE);
      var addr := a.value;
      MappedThere(sb, v, V(), o, owner, bs, nb, i, pos / BSIZE, addr);
      var m := Min(k, BSIZE - pos % BSIZE);
      ReadChunk(sb, v, i, pos, m);
      chunk := blocks[addr][pos % BSIZE..pos % BSIZE + m];
    }

    /** One round of writei's loop: as much of src as the block at pos takes.  c is what the file held. */
    method WriteBlock(i: nat, pos: nat, src: seq<byte>, ghost c: seq<byte>)
        returns (r: Option<nat>, ghost addr: nat)
      requires Valid() && Shape(sb, V()) && i < sb.ninodes && |nb| == sb.ninodes
      requires 0 < |src| && pos <= |c| && pos + |src| <= MAXFILE * BSIZE
      requires Holds(sb, V(), i, c) && nb[i] == BlocksFor(|c|)
      modifies blocks, inodes, `owner, `nb, `trace
      ensures r.None? <==> |old(owner)| + Need(old(nb)[i], pos / BSIZE) > sb.size - sb.first
      ensures r.Some? ==>
        && Valid() && Shape(sb, V()) && r.value == Min(|src|, BSIZE - pos % BSIZE)
        && Written(sb, old(V()), V(), old(Now()), Now(), i, c, pos, src[..r.value], {addr})
    {
      hide Shape, Inv, Own, Bits, Addr, Mapped, Holds, Others, Covers, Splice, Blit, Written, IndSet, Need, Max, BlocksFor,
        LowestFirst, Marks, IndPart;
      ghost var v, k := V(), Now();
      addr := 0;
      var b := MapBlock(i, pos, c);
      if b.None? { return None, addr; }
      var a := b.value;
      addr := a;
      ghost var v1, k1 := V(), Now();
      var m := Min(|src|, BSIZE - pos % BSIZE);
      CopyIn(i, pos, a, src[..m], c, v, k.nb);
      RoundDone(sb, v, v1, V(), k, k1, Now(), i, c, pos, src[..m], a, pos / BSIZE);
      r := Some(m);
    }

    /** The block at pos, ready to be written to. */
    method MapBlock(i: nat, pos: nat, ghost c: seq<byte>) returns (r: Option<nat>)
      requires Valid() && Shape(sb, V()) && i < sb.ninodes && |nb| == sb.ninodes
      requires pos <= |c| && pos < MAXFILE * BSIZE && Holds(sb, V(), i, c) && nb[i] == BlocksFor(|c|)
      modifies blocks, inodes, `owner, `nb, `trace
      ensures r.None? <==> |old(owner)| + Need(old(nb)[i], pos / BSIZE) > sb.size - sb.first
      ensures r.Some? ==> Valid() && Ready(sb, old(V()), V(), old(Now()), Now(), i, pos / BSIZE, r.value, c)
    {
      hide Shape, Inv, Own, Bits, Addr, Mapped, Holds, Others, Covers, IndSet, Need, BlocksFor, LowestFirst, Marks, IndPart,
        Ready;
      ghost var v, o, n, k := V(), owner, nb, Now();
      InvFacts(sb, v, n, o);
      RoundUp(|c|, pos, 1);
      r := Bmap(i, pos / BSIZE);
      if r.None? { return; }
      InvFacts(sb, V(), nb, owner);
      MappedReady(sb, v, V(), k, Now(), i, pos / BSIZE, r.value, c);
    }

    /** memmove(bp->data + pos % BSIZE, s, |s|); log_write(bp) */
    method CopyIn(i: nat, pos: nat, a: nat, s: seq<byte>, ghost c: seq<byte>, ghost v: Vol, ghost n: seq<nat>)
      requires Valid() && Shape(sb, V()) && i < sb.ninodes == |nb| && pos / BSIZE < MAXFILE && pos / BSIZE < nb[i]
      requires a in owner && owner[a] == Content(i, pos / BSIZE) && Addr(sb, V(), i, pos / BSIZE) == a && a < blocks.Length
      requires Holds(sb, V(), i, c) && BlocksFor(|c|) <= nb[i] && pos % BSIZE + |s| <= BSIZE && pos <= |c|
      requires Others(sb, v, V(), n, i) && |n| == |nb| && (forall j :: 0 <= j < |n| && j != i ==> nb[j] == n[j])
      requires Covers(v, V(), Logged())
      modifies blocks, `trace
      ensures Valid() && Shape(sb, V()) && inodes[..] == old(inodes[..])
      ensures Holds(sb, V(), i, Splice(c, pos, s)) && Others(sb, v, V(), n, i)
      ensures Covers(v, V(), Logged()) && Logged() == old(Logged()) + {a}
    {
      hide Shape, Inv, Own, Bits, Addr, Holds, Others, Covers, Splice, Blit, BlocksFor;
      ghost var v1 := V();
      ghost var x := Blit(blocks[a], pos % BSIZE, s);
      assert pos == pos / BSIZE * BSIZE + pos % BSIZE;
      BlitHolds(sb, v1, nb, owner, a, i, pos / BSIZE, pos % BSIZE, s, c);
      PutInv(sb, v1, nb, owner, a, x);
      PutOthers(sb, v1, nb, owner, a, x, i);
      OthersOn(sb, v, v1, Put(v1, a, x), n, nb, i);
      PutCovers(v, v1, a, x, Logged());
      blocks[a] := Blit(blocks[a], pos % BSIZE, s);
      ElemsSnoc(trace, a);
      trace := trace + [a];
      assert V() == Put(v1, a, x);
    }

    /** The loop of writei.  c is what the file held. */
    method WriteLoop(i: nat, off: nat, src: seq<byte>, ghost c: seq<byte>)
        returns (ok: bool, ghost data: set<nat>)
      requires Valid() && Shape(sb, V()) && i < sb.ninodes && |nb| == sb.ninodes
      requires off <= |c| && off + |src| <= MAXFILE * BSIZE
      requires Holds(sb, V(), i, c) && nb[i] == BlocksFor(|c|)
      modifies blocks, inodes, `owner, `nb, `trace
      ensures ok <==> Room(sb, old(owner), old(nb)[i], off + |src|)
      ensures ok ==> Valid() && Written(sb, old(V()), V(), old(Now()), Now(), i, c, off, src, data)
    {
      hide Shape, Inv, Holds, Splice, Written, BlocksFor, Need, NeedTo, Max, Room;
      ghost var v, k := V(), Now();
      WrittenNothing(sb, v, k, i, c, off, owner);
      data := {};
      var tot := 0;
      assert src[..tot] == [];
      while tot < |src|
        invariant tot <= |src|
        invariant Valid()
        invariant Written(sb, v, V(), k, Now(), i, c, off, src[..tot], data)
        invariant tot == |src| || (off + tot) % BSIZE == 0 || tot == 0
      {
        ghost var v1, k1 := V(), Now();
        WrittenFacts(sb, v, v1, k, k1, i, c, off, src[..tot], data);
        if Room(sb, k.owner, k.nb[i], off + |src|) {
          Enough(sb, k, k1, i, |c|, off, tot, |src|);
        }
        var w, a := WriteBlock(i, off + tot, src[tot..], Splice(c, off, src[..tot]));
        if w.None? { return false, data; }
        var m := w.value;
        WrittenOn(sb, v, v1, V(), k, k1, Now(), i, c, off, src[..tot], src[tot..][..m], data, {a});
        assert src[..tot] + src[tot..][..m] == src[..tot + m];
        data := data + {a};
        tot := tot + m;
      }
      assert src[..tot] == src;
      InvFacts(sb, V(), nb, owner);
      HadRoom(sb, v, V(), k, Now(), i, c, off, src, data);
      ok := true;
    }

    method Iupdate(i: nat)
      requires Apart() && i < inodes.Length
      modifies dinodes, `trace
      ensures dinodes[..] == old(dinodes[..])[i := inodes[i]]
      ensures trace == old(trace) + [sb.IBlock(i)] && Logged() == old(Logged()) + {sb.IBlock(i)}
    {
      dinodes[i] := inodes[i];
      ElemsSnoc(trace, sb.IBlock(i));
      trace := trace + [sb.IBlock(i)];
    }

    /** src written at off, the file growing as needed; nothing happens if the request is refused.  None is balloc's
        panic, which comes just if the blocks run out.  u are the blocks logged before the inode, which comes last. */
    method Writei(i: nat, off: nat, src: seq<byte>) returns (r: Option<int>, ghost data: set<nat>, ghost u: seq<nat>)
      requires Valid() && Sized(sb, V(), nb) && i < sb.ninodes && off < UINT && |src| < UINT
      modifies blocks, inodes, dinodes, `owner, `nb, `trace
      ensures r.None? <==>
        WriteOk(old(inodes[i].size), off, |src|) && !Room(sb, old(owner), old(nb)[i], off + |src|)
      ensures r.Some? ==> Valid() && Sized(sb, V(), nb)
      ensures r.Some? ==>
        if !WriteOk(old(inodes[i].size), off, |src|) then
          && r.value == -1 && V() == old(V()) && dinodes[..] == old(dinodes[..])
          && owner == old(owner) && nb == old(nb) && trace == old(trace)
        else
          && r.value == |src| && WriteDone(sb, old(V()), V(), old(Now()), Now(), i, off, src, data)
          && trace == u + InodeTail(sb, i, old(inodes[i].size), off, |src|)
          && InodesMatch(V(), old(nb), i) && Elems(u) == LoopLog(sb, old(Now()), Now(), V(), i, data)
      ensures r.Some? ==> Synced(old(V()), V(), old(dinodes[..]), dinodes[..], sb.IBlock(i), Logged())
    {
      hide Shape, Inv, Sized, File, Holds, Written, BlocksFor, NeedTo, Max, WriteDone, Grown, Fits, Synced,
        InodePart, Room, Elems, LoopLog, InodeTail;
      ghost var d := dinodes[..];
      ghost var v, o, k := V(), owner, Now();
      SizeFits(sb, v, nb, o, i);
      AllFit(sb, v, nb, o);
      InvFacts(sb, v, nb, o);
      data, u := {}, [];
      if off > inodes[i].size || (off + |src|) % UINT < off || off + |src| > MAXFILE * BSIZE {
        SyncedBy(v, v, d, d, i, sb.IBlock(i), Logged());
        return Some(-1), data, u;
      }
      ghost var c := File(sb, v, i);
      HoldsFile(sb, v, i, c);
      var ok;
      ok, data := WriteLoop(i, off, src, c);
      if !ok { return None, data, u; }
      u := trace;
      ghost var v1, k1 := V(), Now();
      WrittenFacts(sb, v, v1, k, k1, i, c, off, src, data);
      GrowSize(i, off, |src|);
      WrittenEnds(sb, v, v1, V(), k, k1, Now(), owner, i, c, off, src, data);
      SyncedBy(v, V(), d, dinodes[..], i, sb.IBlock(i), Logged());
      r := Some(|src|);
    }

    /** The end of writei, once n bytes are written at off. */
    method GrowSize(i: nat, off: nat, n: nat)
      requires Apart() && i < inodes.Length
      modifies inodes, dinodes, `trace
      ensures V() == old(V()).(inodes := old(inodes[..])[i := old(inodes[i]).(size := Grown(old(inodes[i].size), off, n))])
      ensures trace == old(trace) + InodeTail(sb, i, old(inodes[i].size), off, n)
      ensures Logged() == old(Logged()) + InodePart(sb, i, old(inodes[i].size), off, n)
      ensures if Grown(old(inodes[i].size), off, n) != old(inodes[i].size) then
          dinodes[..] == old(dinodes[..])[i := inodes[i]] && sb.IBlock(i) in Logged()
        else dinodes[..] == old(dinodes[..])
    {
      if n > 0 && off + n > inodes[i].size {
        inodes[i] := inodes[i].(size := off + n);
        Iupdate(i);
      } else {
        assert trace + [] == trace;
      }
    }

    /** One transaction of filewrite, from begin_op to end_op. */
    method WriteChunk(f: OpenFile, src: seq<byte>) returns (r: Option<int>, ghost data: set<nat>)
      requires Valid() && Sized(sb, V(), nb) && f.ip < sb.ninodes && f.off < UINT
      requires 0 < |src| <= FILEWRITE_MAX
      modifies f, blocks, inodes, dinodes, `owner, `nb, `trace
      ensures r.None? <==>
        WriteOk(old(inodes[f.ip].size), old(f.off), |src|) && !Room(sb, old(owner), old(nb)[f.ip], old(f.off) + |src|)
      ensures r.Some? ==> Valid() && Sized(sb, V(), nb)
      ensures r.Some? ==>
        if !WriteOk(old(inodes[f.ip].size), old(f.off), |src|) then
          && r.value == -1 && V() == old(V()) && owner == old(owner) && nb == old(nb) && f.off == old(f.off)
          && Logged() == {}
        else
          && r.value == |src| && f.off == old(f.off) + |src|
          && WriteDone(sb, old(V()), V(), old(Rest()), Now(), f.ip, old(f.off), src, data)
      ensures r.None? ==> f.off == old(f.off)
      ensures r.Some? ==> |Logged()| <= MAXOPBLOCKS && Calm(trace)
      ensures r.Some? && old(dinodes[..] == inodes[..]) ==> dinodes[..] == inodes[..]
    {
      hide Inv, Sized, WriteDone, Shape, BlocksFor, NeedTo, Max, Room, Elems, Calm, LoopLog, InodeTail;
      ghost var v, n, o := V(), nb, owner;
      SizeFits(sb, v, n, o, f.ip);
      trace := [];
      CalmNothing();
      ghost var k := Now();
      ghost var u;
      assert v.inodes[f.ip] == inodes[f.ip];
      r, data, u := Writei(f.ip, f.off, src);
      if r.Some? && r.value > 0 {
        InvFacts(sb, V(), nb, owner);
        ChunkLogged(sb, v, V(), k, Now(), f.ip, f.off, src, data, u, trace);
        f.off := f.off + r.value;
      }
    }

    /** s has been written at off into file i, which was in v; nothing has happened if s is empty. */
    ghost predicate SoFar(v: Vol, k: Books, i: nat, off: nat, s: seq<byte>)
      reads this, blocks, inodes
    {
      && Valid() && Sized(sb, V(), nb)
      && (s == [] ==> V() == v && owner == k.owner && nb == k.nb)
      && (s != [] ==> i < |v.inodes| && off <= v.inodes[i].size && FileSo(sb, v, V(), k, Rest(), i, off, s))
      && (s != [] ==> off + |s| <= MAXFILE * BSIZE)
    }

    lemma SoFarMeans(v: Vol, k: Books, i: nat, off: nat, s: seq<byte>)
      requires i < |v.inodes|
      ensures Valid() && Sized(sb, V(), nb) && V() == v && owner == k.owner && nb == k.nb ==> SoFar(v, k, i, off, [])
      ensures SoFar(v, k, i, off, s) ==>
        && Valid() && Sized(sb, V(), nb)
        && (s == [] ==> V() == v)
        && (s != [] ==>
              off <= v.inodes[i].size && off + |s| <= MAXFILE * BSIZE && FileSo(sb, v, V(), k, Rest(), i, off, s))
    {
      hide Inv, Sized, FileSo;
    }

    /** ops are the blocks that each transaction handed to the log, in order.  None is balloc's panic. */
    method Filewrite(f: OpenFile, src: seq<byte>, n: int) returns (r: Option<int>, ghost ops: seq<seq<nat>>)
      requires Valid() && Sized(sb, V(), nb) && f.ip < sb.ninodes && f.off < UINT
      requires n <= |src| && n < 0x8000_0000
      modifies f, blocks, inodes, dinodes, `owner, `nb, `trace
      ensures r.None? <==>
        f.writable && !FileRoom(sb, old(owner), old(nb)[f.ip], old(inodes[f.ip].size), old(f.off), n)
      ensures r.Some? ==> Valid() && Sized(sb, V(), nb)
      ensures old(f.off) <= f.off
      ensures !f.writable ==> r == Some(-1) && f.off == old(f.off) && V() == old(V())
      ensures f.writable && r.Some? ==>
        var w := f.off - old(f.off);
        && Accepted(old(inodes[f.ip].size), old(f.off), n, w)
        && r.value == (if w == n then n else -1)
        && (if w == 0 then V() == old(V())
            else FileSo(sb, old(V()), V(), old(Rest()), Rest(), f.ip, old(f.off), src[..w]))
      ensures InBudget(ops)
      ensures r.Some? && old(dinodes[..] == inodes[..]) ==> dinodes[..] == inodes[..]
    {
      hide Inv, Sized, WriteDone, Shape, BlocksFor, NeedTo, Max, FileSo, FileRoom, Fits, Accepted, SoFar, AcceptedBytes,
        Elems, Calm, InBudget;
      ops := [];
      NoOps();
      if !f.writable {
        return Some(-1), ops;
      }
      ghost var v, k, o := V(), Rest(), f.off;
      SizeFits(sb, v, nb, owner, f.ip);
      AllFit(sb, v, nb, owner);
      ghost var size := v.inodes[f.ip].size;
      SoFarMeans(v, k, f.ip, o, []);
      var max := FILEWRITE_MAX;
      var i := 0;
      while i < n
        invariant 0 <= i && (i <= n || i == 0)
        invariant SoFar(v, k, f.ip, o, src[..i]) && f.off == o + i < UINT
        invariant i == n || i % FILEWRITE_MAX == 0
        invariant InBudget(ops)
        invariant old(dinodes[..] == inodes[..]) ==> dinodes[..] == inodes[..]
      {
        var n1 := n - i;
        if n1 > max {
          n1 := max;
        }
        r := WriteNext(f, src[i..i + n1], v, k, o, src[..i], n);
        if r.None? { return; }
        BudgetOn(ops, trace);
        ops := ops + [trace];
        if r.value < 0 {
          break;
        }
        assert r.value == n1;   // panic("short filewrite")
        assert src[..i] + src[i..i + n1] == src[..i + n1];
        i := i + r.value;
      }
      SoFarMeans(v, k, f.ip, o, src[..i]);
      AcceptedBy(size, o, n, i);
      SoFarRoom(v, k, f.ip, o, src[..i], n);
      r := if i == n then Some(n) else Some(-1);
    }

    lemma SoFarRoom(v: Vol, k: Books, i: nat, off: nat, s: seq<byte>, n: int)
      requires SoFar(v, k, i, off, s) && i < |v.inodes| == sb.ninodes && i < |k.nb| && v.inodes[i].size <= MAXFILE * BSIZE
      requires Accepted(v.inodes[i].size, off, n, |s|)
      ensures FileRoom(sb, k.owner, k.nb[i], v.inodes[i].size, off, n)
    {
      hide Inv, Sized, FileSo, Accepted, AcceptedBytes, Room;
      AcceptedIs(v.inodes[i].size, off, n, |s|);
      if s != [] {
        HadFileRoom(sb, v, V(), k, Rest(), i, off, s, n);
      }
    }

    /** One chunk of a longer write, of which s is done. */
    method WriteNext(f: OpenFile, src: seq<byte>, ghost v: Vol, ghost k: Books, ghost off: nat, ghost s: seq<byte>,
                     ghost n: int) returns (r: Option<int>)
      requires SoFar(v, k, f.ip, off, s) && f.ip < sb.ninodes && f.off == off + |s| < UINT
      requires 0 < |src| <= FILEWRITE_MAX && |s| + |src| <= n
      requires |s| % FILEWRITE_MAX == 0 && (|src| == FILEWRITE_MAX || |s| + |src| == n)
      requires Inv(sb, v, k.nb, k.owner) && Sized(sb, v, k.nb) && |v.inodes| == sb.ninodes == |k.nb|
      modifies f, blocks, inodes, dinodes, `owner, `nb, `trace
      ensures r.None? ==>
        !FileRoom(sb, k.owner, k.nb[f.ip], v.inodes[f.ip].size, off, n) && f.off == old(f.off)
      ensures r.Some? ==>
        if off <= v.inodes[f.ip].size && off + |s| + |src| <= MAXFILE * BSIZE then
          r.value == |src| && f.off == off + |s| + |src| && SoFar(v, k, f.ip, off, s + src)
        else
          r.value == -1 && f.off == off + |s| && SoFar(v, k, f.ip, off, s)
      ensures r.Some? ==> |Logged()| <= MAXOPBLOCKS && Calm(trace)
      ensures r.Some? && old(dinodes[..] == inodes[..]) ==> dinodes[..] == inodes[..]
    {
      hide Elems, Calm, Inv, WriteDone, Shape, BlocksFor, NeedTo, Max, FileSo, FileRoom, Room, Sized;
      ghost var v1, k1 := V(), Rest();
      NextFits(sb, v, v1, k, k1, owner, f.ip, off, s, |src|, n);
      ghost var data;
      r, data := WriteChunk(f, src);
      if r.Some? && r.value > 0 {
        FileSoOn(sb, v, v1, V(), k, k1, Now(), f.ip, off, s, src, data);
      }
    }

    /** File i gives back all of its blocks, and nothing else. */
    method Itrunc(i: nat)
      requires Valid() && Sized(sb, V(), nb) && i < sb.ninodes
      modifies blocks, inodes, dinodes, `owner, `nb, `trace
      ensures Valid() && Sized(sb, V(), nb)
      ensures Shape(sb, old(V())) && Shape(sb, V()) && Fits(old(V())) && |old(nb)| == sb.ninodes == |V().inodes|
      ensures V().inodes[i].size == 0 && nb == old(nb)[i := 0]
      ensures owner == Without(old(owner), i)
      ensures OtherFiles(sb, old(V()), V(), i)
      ensures Covers(old(V()), V(), Logged()) && old(Logged()) <= Logged() && sb.IBlock(i) in Logged()
      ensures old(dinodes[..] == inodes[..]) ==> dinodes[..] == inodes[..]
    {
      hide Inv, Sized, Shape, Truncating, OtherFiles, Covers, Val, Without, Gone, Fits;
      ghost var v0, n, o := V(), nb, owner;
      InvFacts(sb, v0, n, o);
      FreeDirect(i);
      FreeIndirect(i, v0);
      ghost var v1 := V();
      ghost var used := o.Keys - Gone(o, i, MAXFILE) - {Val(sb, v0, Indirect(i))};
      TruncFacts(sb, v0, v1, i, used);
      inodes[i] := inodes[i].(size := 0);
      assert V() == v1.(inodes := v1.inodes[i := inodes[i]]);
      InodeFree(sb, v0, v1, i, used, inodes[i]);
      InodesCovers(v0, v1, V().inodes, Logged());
      Truncated(sb, v0, V(), n, o, i, used);
      TruncFacts(sb, v0, V(), i, used);
      owner := Without(o, i);
      nb := nb[i := 0];
      ghost var l1 := Logged();
      Iupdate(i);
      CoversMore(v0, V(), l1, Logged());
    }

    method FreeDirect(i: nat)
      requires Valid() && i < sb.ninodes
      modifies blocks, inodes, `trace
      ensures Shape(sb, V())
      ensures Truncating(sb, old(V()), V(), i, owner.Keys - Gone(owner, i, NDIRECT))
      ensures inodes[i].addrs == seq(NDIRECT, _ => 0) + [old(inodes[i].addrs[NDIRECT])]
      ensures inodes[i].size == old(inodes[i].size)
      ensures Covers(old(V()), V(), Logged()) && old(Logged()) <= Logged()
    {
      hide Inv, Own, Bits, Shape, Truncating, Covers, Gone, Addr, BitOf, ClearBit;
      ghost var v0, n, o := V(), nb, owner;
      InvFacts(sb, v0, n, o);
      TruncStart(sb, v0, n, o, i);
      NothingCovers(v0, Logged());
      var k := 0;
      while k < NDIRECT
        invariant k <= NDIRECT && Shape(sb, V()) && i < inodes.Length && |inodes[i].addrs| == NDIRECT + 1
        invariant Truncating(sb, v0, V(), i, o.Keys - Gone(o, i, k))
        invariant forall j :: 0 <= j < k ==> inodes[i].addrs[j] == 0
        invariant forall j :: k <= j <= NDIRECT ==> inodes[i].addrs[j] == v0.inodes[i].addrs[j]
        invariant inodes[i].size == v0.inodes[i].size
        invariant Covers(v0, V(), Logged()) && old(Logged()) <= Logged()
      {
        var b := inodes[i].addrs[k];
        DirectAddr(sb, v0, i, k);
        if b != 0 {
          StillMarked(sb, v0, n, o, V(), i, k);
          FreesOne(sb, v0, V(), i, o.Keys - Gone(o, i, k), b);
          FreeBlock(b, v0, o.Keys - Gone(o, i, k));
          ghost var v1 := V();
          TruncFacts(sb, v0, v1, i, o.Keys - Gone(o, i, k + 1));
          inodes[i] := inodes[i].(addrs := inodes[i].addrs[k := 0]);
          assert V() == v1.(inodes := v1.inodes[i := inodes[i]]);
          InodeFree(sb, v0, v1, i, o.Keys - Gone(o, i, k + 1), inodes[i]);
          InodesCovers(v0, v1, V().inodes, Logged());
          TruncFacts(sb, v0, V(), i, o.Keys - Gone(o, i, k + 1));
        } else {
          NothingThere(sb, v0, o, i, k);
        }
        k := k + 1;
      }
    }

    method FreeIndirect(i: nat, ghost v0: Vol)
      requires Apart() && Inv(sb, v0, nb, owner) && i < sb.ninodes && Shape(sb, V()) && Shape(sb, v0)
      requires Truncating(sb, v0, V(), i, owner.Keys - Gone(owner, i, NDIRECT))
      requires inodes[i].addrs == seq(NDIRECT, _ => 0) + [v0.inodes[i].addrs[NDIRECT]]
      requires Covers(v0, V(), Logged())
      modifies blocks, inodes, `trace
      ensures Shape(sb, V())
      ensures Truncating(sb, v0, V(), i, owner.Keys - Gone(owner, i, MAXFILE) - {Val(sb, v0, Indirect(i))})
      ensures forall k :: 0 <= k <= NDIRECT ==> inodes[i].addrs[k] == 0
      ensures inodes[i].size == old(inodes[i].size)
      ensures Covers(v0, V(), Logged()) && old(Logged()) <= Logged()
    {
      hide Inv, Own, Bits, Shape, Truncating, Covers, Gone, Addr, BitOf, ClearBit, Val, Ptr;
      ghost var n, o := nb, owner;
      InvFacts(sb, v0, n, o);
      TruncFacts(sb, v0, V(), i, o.Keys - Gone(o, i, NDIRECT));
      IndirectWord(sb, v0, i);
      var ind := inodes[i].addrs[NDIRECT];
      if ind != 0 {
        OwnNames(sb, v0, o, Indirect(i));
        var k := 0;
        while k < NINDIRECT
          invariant k <= NINDIRECT && Shape(sb, V()) && inodes[..] == old(inodes[..])
          invariant Truncating(sb, v0, V(), i, o.Keys - Gone(o, i, NDIRECT + k))
          invariant Covers(v0, V(), Logged()) && old(Logged()) <= Logged()
        {
          SameData(sb, v0, V(), i, o.Keys - Gone(o, i, NDIRECT + k), ind);
          PtrIs(sb, v0, i, NDIRECT + k);
          var b := Ptr(blocks[ind], k);
          if b != 0 {
            StillMarked(sb, v0, n, o, V(), i, NDIRECT + k);
            FreesOne(sb, v0, V(), i, o.Keys - Gone(o, i, NDIRECT + k), b);
            FreeBlock(b, v0, o.Keys - Gone(o, i, NDIRECT + k));
            TruncFacts(sb, v0, V(), i, o.Keys - Gone(o, i, NDIRECT + k + 1));
          } else {
            NothingThere(sb, v0, o, i, NDIRECT + k);
          }
          k := k + 1;
        }
        IndirectMarked(sb, v0, o, V(), i);
        FreesOne(sb, v0, V(), i, o.Keys - Gone(o, i, MAXFILE), ind);
        FreeBlock(ind, v0, o.Keys - Gone(o, i, MAXFILE));
        ghost var v1 := V();
        ghost var used := o.Keys - Gone(o, i, MAXFILE) - {ind};
        TruncFacts(sb, v0, v1, i, used);
        inodes[i] := inodes[i].(addrs := inodes[i].addrs[NDIRECT := 0]);
        assert V() == v1.(inodes := v1.inodes[i := inodes[i]]);
        InodeFree(sb, v0, v1, i, used, inodes[i]);
        InodesCovers(v0, v1, V().inodes, Logged());
        TruncFacts(sb, v0, V(), i, used);
      } else {
        NoIndirect(sb, v0, o, i);
      }
    }

    method FreeBlock(b: nat, ghost v0: Vol, ghost used: set<nat>)
      requires Shape(sb, V()) && sb.IsData(b) && BitOf(sb, V(), b) && Covers(v0, V(), Logged()) && Bits(sb, V(), used)
      modifies blocks, `trace
      ensures Shape(sb, old(V())) && sb.BBlock(b) < sb.size == |old(V()).blocks|
      ensures V() == Put(old(V()), sb.BBlock(b), ClearBit(old(V()).blocks[sb.BBlock(b)], b % BPB))
      ensures Covers(v0, V(), Logged()) && Logged() == old(Logged()) + {sb.BBlock(b)}
    {
      hide ClearBit, Covers, BitOf, Bits;
      ghost var v := V();
      Bfree(b, used);
      PutCovers(v0, v, sb.BBlock(b), V().blocks[sb.BBlock(b)], old(Logged()));
    }
  }
}
