// The buffer cache of OS-Lab-1/bio.c over the memory disk of OS-Lab-1/memide.c:
// a fixed array of buffers on a doubly linked list, most recently used first.

module Bio {
  import opened Params
  import opened Disk

  const HEAD: nat := NBUF   // the list head sits behind the NBUF buffers

  datatype Buf = Buf(
    valid: bool, dirty: bool,
    dev: nat, blockno: nat,
    locked: bool,          // the buffer's sleep-lock
    refcnt: nat,
    prev: nat, next: nat,
    data: Block)

  /** What bget comes to: a locked buffer; a wait for the holder of the block's buffer, the reference being taken; or
      panic("bget: no buffers"). */
  datatype Got = Buffer(b: nat) | Wait(b: nat) | NoBuffers

  /** The buffers on ring follow each other through next and back through prev. */
  predicate Linked(b: seq<Buf>, ring: seq<nat>) {
    && (forall i :: 0 <= i < |ring| ==> ring[i] < |b|)
    && (forall i :: 0 <= i < |ring| - 1 ==> b[ring[i]].next == ring[i + 1])
    && (forall i :: 0 < i < |ring| ==> b[ring[i]].prev == ring[i - 1])
  }

  function Ring(order: seq<nat>): seq<nat> {
    [HEAD] + order + [HEAD]
  }

  predicate InUse(x: Buf, a: nat) {
    x.dev == 1 && x.blockno == a
  }

  predicate Recyclable(x: Buf) {
    x.refcnt == 0 && !x.dirty
  }

  /** At most one buffer holds a given block of a real device. */
  predicate OnePerBlock(b: seq<Buf>) {
    forall i, j :: 0 <= i < j < |b| && b[i].dev == b[j].dev && b[i].dev != 0 ==> b[i].blockno != b[j].blockno
  }

  /** A valid clean buffer that nobody is working on equals the disk. */
  predicate Agrees(b: seq<Buf>, d: Image) {
    forall i :: 0 <= i < |b| && b[i].dev == 1 && b[i].valid && !b[i].dirty && !b[i].locked ==>
      b[i].blockno < |d| && b[i].data == d[b[i].blockno]
  }

  /** Block a as bread would return it. */
  ghost function Seen(b: seq<Buf>, d: Image, a: nat): Block
    requires a < |d|
  {
    if exists i :: 0 <= i < |b| && InUse(b[i], a) && b[i].valid then
      (var i :| 0 <= i < |b| && InUse(b[i], a) && b[i].valid; b[i].data)
    else d[a]
  }

  /** The whole disk as bread shows it. */
  ghost function Visible(b: seq<Buf>, d: Image): (r: Image)
    ensures |r| == |d| && forall a :: 0 <= a < |d| ==> r[a] == Seen(b, d, a)
  {
    seq(|d|, a requires 0 <= a < |d| => Seen(b, d, a))
  }

  /** The blocks with a dirty buffer: they cannot be evicted. */
  function Pinned(b: seq<Buf>): (r: set<nat>)
    ensures forall i :: 0 <= i < |b| && b[i].dev == 1 && b[i].dirty ==> b[i].blockno in r
  {
    set i | 0 <= i < |b| && b[i].dev == 1 && b[i].dirty :: b[i].blockno
  }

  /** What the pieces of the cache keep true together, apart from the list. */
  ghost predicate Coherent(b: seq<Buf>, d: Image) {
    && |b| == NBUF + 1
    && b[HEAD].dev == 0
    && OnePerBlock(b)
    && Agrees(b, d)
    && (forall i :: 0 <= i < |b| && b[i].locked ==> b[i].refcnt > 0)
    && (forall i :: 0 <= i < |b| && b[i].dirty ==> b[i].valid && b[i].dev == 1)
  }

  /** The list holds every buffer once. */
  predicate Order(order: seq<nat>) {
    && |order| == NBUF
    && Members(order)
    && forall j :: 0 <= j < NBUF ==> j in order
  }

  /** Another reference to a buffer. */
  lemma {:induction false} TakenCoherent(b: seq<Buf>, d: Image, c: seq<Buf>, r: nat)
    requires Coherent(b, d) && r < NBUF && |c| == |b|
    requires c == b[r := b[r].(refcnt := b[r].refcnt + 1, locked := c[r].locked)] && (b[r].locked ==> c[r].locked)
    ensures Coherent(c, d)
  {
  }

  /** A free clean buffer given to a block that has none. */
  lemma {:induction false} RecycledCoherent(b: seq<Buf>, d: Image, c: seq<Buf>, r: nat)
    requires Coherent(b, d) && r < NBUF && |c| == |b| && c == b[r := c[r]]
    requires !c[r].valid && !c[r].dirty && c[r].locked && c[r].refcnt == 1
    requires forall i :: 0 <= i < NBUF ==> !(b[i].dev == c[r].dev && b[i].blockno == c[r].blockno)
    ensures Coherent(c, d)
  {
  }

  // ----- facts about the view

  lemma {:induction false} SeenCached(b: seq<Buf>, d: Image, i: nat)
    requires Coherent(b, d) && i < |b| && b[i].dev == 1 && b[i].valid && b[i].blockno < |d|
    ensures Seen(b, d, b[i].blockno) == b[i].data
  {
    assert InUse(b[i], b[i].blockno);
  }

  lemma {:induction false} SeenMissing(b: seq<Buf>, d: Image, a: nat)
    requires a < |d| && forall i :: 0 <= i < |b| && InUse(b[i], a) ==> !b[i].valid
    ensures Seen(b, d, a) == d[a]
  {
  }

  /** Buffer r changes but holds no other block than before: other blocks look the same. */
  lemma {:induction false} SeenElsewhere(b: seq<Buf>, d: Image, c: seq<Buf>, e: Image, r: nat, x: nat)
    requires Coherent(b, d) && Coherent(c, e) && r < |b| && c == b[r := c[r]]
    requires x < |d| && |e| == |d| && d[x] == e[x]
    requires !InUse(b[r], x) && !InUse(c[r], x)
    ensures Seen(b, d, x) == Seen(c, e, x)
  {
    if i: nat :| i < |b| && InUse(b[i], x) && b[i].valid {
      assert c[i] == b[i];
      SeenCached(b, d, i);
      SeenCached(c, e, i);
    } else {
      assert forall i :: 0 <= i < |c| && InUse(c[i], x) ==> c[i] == b[i];
    }
  }

  /** Recycling a clean idle buffer hides nothing. */
  lemma {:induction false} SeenRecycled(b: seq<Buf>, d: Image, c: seq<Buf>, r: nat, x: nat)
    requires Coherent(b, d) && Coherent(c, d) && r < |b| && c == b[r := c[r]]
    requires x < |d| && Recyclable(b[r]) && InUse(b[r], x) && !InUse(c[r], x)
    ensures Seen(b, d, x) == Seen(c, d, x) == d[x]
  {
    assert forall i :: 0 <= i < |c| ==> !InUse(c[i], x) by {
      assert forall i :: 0 <= i < |c| && i != r ==> c[i] == b[i];
    }
    SeenMissing(c, d, x);
    if b[r].valid {
      SeenCached(b, d, r);
    } else {
      assert forall i :: 0 <= i < |b| && InUse(b[i], x) ==> i == r;
      SeenMissing(b, d, x);
    }
  }

  // ----- the list

  /** Equal apart from the list pointers. */
  predicate SameBufs(b: seq<Buf>, c: seq<Buf>) {
    && |b| == |c|
    && forall i :: 0 <= i < |b| ==> b[i] == c[i].(prev := b[i].prev, next := b[i].next)
  }

  lemma {:induction false} LinkedSame(b: seq<Buf>, c: seq<Buf>, ring: seq<nat>)
    requires Linked(b, ring) && |c| == |b|
    requires forall i :: 0 <= i < |b| ==> c[i].next == b[i].next && c[i].prev == b[i].prev
    ensures Linked(c, ring)
  {
  }

  predicate Members(order: seq<nat>) {
    Distinct(order) && forall i :: 0 <= i < |order| ==> order[i] < NBUF
  }

  /** Four pointer writes put x behind the head. */
  function Pushed(b: seq<Buf>, x: nat): seq<Buf>
    requires |b| == NBUF + 1 && x < NBUF && b[HEAD].next <= NBUF
  {
    var first := b[HEAD].next;
    var b1 := b[x := b[x].(next := first, prev := HEAD)];
    var b2 := b1[first := b1[first].(prev := x)];
    b2[HEAD := b2[HEAD].(next := x)]
  }

  /** Two pointer writes take x out. */
  function Unlinked(b: seq<Buf>, x: nat): seq<Buf>
    requires x < |b| && b[x].next < |b| && b[x].prev < |b|
  {
    var b1 := b[b[x].next := b[b[x].next].(prev := b[x].prev)];
    b1[b1[x].prev := b1[b1[x].prev].(next := b1[x].next)]
  }

  lemma {:induction false} RingEnds(b: seq<Buf>, order: seq<nat>)
    requires |b| == NBUF + 1 && Linked(b, Ring(order))
    ensures b[HEAD].next == Ring(order)[1] && b[HEAD].prev == Ring(order)[|order|]
  {
    var ring := Ring(order);
    assert ring[0] == HEAD && ring[|order| + 1] == HEAD;
  }

  /** What the four writes leave at each position of the longer ring. */
  lemma {:induction false} PushedAt(b: seq<Buf>, order: seq<nat>, x: nat, i: nat)
    requires |b| == NBUF + 1 && Linked(b, Ring(order)) && Members(order)
    requires x < NBUF && x !in order && i <= |order| + 2
    ensures var ring := Ring([x] + order);
            && b[HEAD].next <= NBUF && |Pushed(b, x)| == |b| && ring[i] < |b|
            && (i <= |order| + 1 ==> Pushed(b, x)[ring[i]].next == ring[i + 1])
            && (i > 0 ==> Pushed(b, x)[ring[i]].prev == ring[i - 1])
  {
    RingEnds(b, order);
    var ring, ring1 := Ring(order), Ring([x] + order);
    assert forall i :: 1 <= i < |ring| - 1 ==> ring[i] == order[i - 1];
    assert forall i :: 2 <= i < |ring1| ==> ring1[i] == ring[i - 1];
    if i >= 2 {
      assert i <= |order| + 1 ==> b[ring[i - 1]].next == ring[i];
      assert i >= 3 ==> b[ring[i - 1]].prev == ring[i - 2];
    }
  }

  lemma {:induction false} PushedSame(b: seq<Buf>, x: nat)
    requires |b| == NBUF + 1 && x < NBUF && b[HEAD].next <= NBUF
    ensures SameBufs(Pushed(b, x), b)
  {
  }

  lemma {:induction false} PushedLinks(b: seq<Buf>, order: seq<nat>, x: nat)
    requires |b| == NBUF + 1 && Linked(b, Ring(order)) && Members(order)
    requires x < NBUF && x !in order
    ensures b[HEAD].next <= NBUF && Linked(Pushed(b, x), Ring([x] + order))
    ensures SameBufs(Pushed(b, x), b)
  {
    hide Linked, Members, Pushed, SameBufs;
    PushedAt(b, order, x, 0);
    PushedSame(b, x);
    var c, ring := Pushed(b, x), Ring([x] + order);
    forall i | 0 <= i < |ring|
      ensures ring[i] < |b|
      ensures i < |ring| - 1 ==> c[ring[i]].next == ring[i + 1]
      ensures i > 0 ==> c[ring[i]].prev == ring[i - 1]
    {
      PushedAt(b, order, x, i);
    }
    LinkedIntro(c, ring);
  }

  lemma {:induction false} RingPositions(order: seq<nat>)
    requires Members(order)
    ensures forall i, j :: 0 <= i < j <= |order| ==> Ring(order)[i] != Ring(order)[j]
    ensures forall i, j :: 0 < i < j <= |order| + 1 ==> Ring(order)[i] != Ring(order)[j]
  {
    assert forall i :: 1 <= i <= |order| ==> Ring(order)[i] == order[i - 1];
  }

  /** Taking out ring position k links its neighbours. */
  lemma {:induction false} UnlinkedAt(b: seq<Buf>, order: seq<nat>, k: nat, i: nat)
    requires |b| == NBUF + 1 && Linked(b, Ring(order)) && Members(order)
    requires 0 < k <= |order| && i <= |order| + 1 && i != k
    ensures var ring := Ring(order); var x := ring[k];
            && x < |b| && b[x].next < |b| && b[x].prev < |b| && ring[i] < |b|
            && (i <= |order| ==> Unlinked(b, x)[ring[i]].next == if i == k - 1 then ring[k + 1] else ring[i + 1])
            && (i > 0 ==> Unlinked(b, x)[ring[i]].prev == if i == k + 1 then ring[k - 1] else ring[i - 1])
  {
    var ring := Ring(order);
    var x := ring[k];
    RingPositions(order);
    assert b[x].next == ring[k + 1] && b[x].prev == ring[k - 1];
    assert i <= |order| ==> b[ring[i]].next == ring[i + 1];
    assert i > 0 ==> b[ring[i]].prev == ring[i - 1];
  }

  lemma {:induction false} PointersOnly(b: seq<Buf>, x: nat)
    requires x < |b| && b[x].next < |b| && b[x].prev < |b|
    ensures SameBufs(Unlinked(b, x), b)
  {
  }

  lemma {:induction false} RingWithout(order: seq<nat>, k: nat)
    requires k < |order|
    ensures |Ring(order[..k] + order[k + 1..])| + 1 == |Ring(order)| == |order| + 2 && Ring(order)[k + 1] == order[k]
  {
  }

  lemma {:induction false} RestAt(order: seq<nat>, k: nat, i: nat)
    requires k < |order| && i <= |order|
    ensures |Ring(order[..k] + order[k + 1..])| + 1 == |Ring(order)| == |order| + 2
    ensures Ring(order[..k] + order[k + 1..])[i] == Ring(order)[if i <= k then i else i + 1]
  {
  }

  lemma {:induction false} UnlinkedLinks(b: seq<Buf>, order: seq<nat>, k: nat)
    requires |b| == NBUF + 1 && Linked(b, Ring(order)) && Members(order)
    requires k < |order|
    ensures b[order[k]].next < |b| && b[order[k]].prev < |b|
    ensures Linked(Unlinked(b, order[k]), Ring(order[..k] + order[k + 1..]))
  {
    hide Linked, Members, Unlinked, Ring;
    var ring, rest := Ring(order), Ring(order[..k] + order[k + 1..]);
    RingWithout(order, k);
    UnlinkedAt(b, order, k + 1, 0);
    var c := Unlinked(b, order[k]);
    UnlinkedSize(b, order[k]);
    forall i | 0 <= i < |rest|
      ensures rest[i] < |b|
      ensures i < |rest| - 1 ==> c[rest[i]].next == rest[i + 1]
      ensures i > 0 ==> c[rest[i]].prev == rest[i - 1]
    {
      UnlinkedAt(b, order, k + 1, if i <= k then i else i + 1);
      RestAt(order, k, i);
      if i < |rest| - 1 { RestAt(order, k, i + 1); }
      if i > 0 { RestAt(order, k, i - 1); }
    }
    LinkedIntro(c, rest);
  }

  lemma UnlinkedSize(b: seq<Buf>, x: nat)
    requires x < |b| && b[x].next < |b| && b[x].prev < |b|
    ensures |Unlinked(b, x)| == |b|
  {
  }

  lemma LinkedIntro(c: seq<Buf>, ring: seq<nat>)
    requires forall i :: 0 <= i < |ring| ==> ring[i] < |c|
    requires forall i :: 0 <= i < |ring| - 1 ==> c[ring[i]].next == ring[i + 1]
    requires forall i :: 0 < i < |ring| ==> c[ring[i]].prev == ring[i - 1]
    ensures Linked(c, ring)
  {
  }

  class Bcache {
    const buf: array<Buf>
    const memdisk: array<Block>
    ghost var order: seq<nat>       // buffer indices, most recently used first
    ghost var trace: seq<Image>     // the disk after each block write

    ghost predicate Valid()
      reads this, buf, memdisk
    {
      && Coherent(buf[..], memdisk[..])
      && Order(order)
      && Linked(buf[..], Ring(order))
    }

    ghost function View(): Image
      reads buf, memdisk
    {
      Visible(buf[..], memdisk[..])
    }

    /** binit, on a disk with some contents. */
    constructor (image: Image)
      ensures Valid() && fresh(buf) && fresh(memdisk)
      ensures memdisk[..] == image && trace == []
      ensures forall i :: 0 <= i < NBUF ==> Recyclable(buf[i]) && buf[i].dev == 0
    {
      var zero := Buf(false, false, 0, 0, false, 0, 0, 0, Data([]));
      buf := new Buf[NBUF + 1](i => zero);
      memdisk := new Block[|image|](i requires 0 <= i < |image| => image[i]);
      order, trace := [], [];
      new;
      assert memdisk[..] == image;
      buf[HEAD] := buf[HEAD].(prev := HEAD, next := HEAD);
      var b := 0;
      while b < NBUF
        invariant b <= NBUF && |order| == b
        invariant memdisk[..] == image && trace == []
        invariant forall i :: 0 <= i <= NBUF ==> buf[i] == zero.(prev := buf[i].prev, next := buf[i].next)
        invariant Members(order) && forall j :: j in order <==> 0 <= j < b
        invariant Linked(buf[..], Ring(order))
      {
        hide Linked, Ring;
        PushedLinks(buf[..], order, b);
        ghost var after := Pushed(buf[..], b);
        buf[b] := buf[b].(next := buf[HEAD].next, prev := HEAD);
        buf[buf[HEAD].next] := buf[buf[HEAD].next].(prev := b);
        buf[HEAD] := buf[HEAD].(next := b);
        assert buf[..] == after;
        order := [b] + order;
        b := b + 1;
      }
      assert forall i :: 0 <= i <= NBUF ==> buf[..][i] == buf[i];
    }

    predicate Holds(x: Buf, dev: nat, blockno: nat) {
      x.dev == dev && x.blockno == blockno
    }

    ghost predicate Cached(dev: nat, blockno: nat)
      reads buf
      requires buf.Length == NBUF + 1
    {
      exists i :: 0 <= i < NBUF && Holds(buf[i], dev, blockno)
    }

    ghost predicate SomeRecyclable()
      reads buf
      requires buf.Length == NBUF + 1
    {
      exists i :: 0 <= i < NBUF && Recyclable(buf[i])
    }

    /** The first scan of bget. */
    method FindCached(dev: nat, blockno: nat) returns (b: nat)
      requires Valid() && dev != 0
      ensures b <= NBUF
      ensures b != HEAD ==> Holds(buf[b], dev, blockno)
      ensures b == HEAD ==> !Cached(dev, blockno)
    {
      ghost var ring, k := Ring(order), 1;
      RingEnds(buf[..], order);
      b := buf[HEAD].next;
      while b != HEAD
        invariant 1 <= k <= NBUF + 1 && b == ring[k]
        invariant forall i :: 1 <= i < k ==> !Holds(buf[ring[i]], dev, blockno)
        decreases NBUF + 1 - k
      {
        if buf[b].dev == dev && buf[b].blockno == blockno { return; }
        assert buf[..][ring[k]].next == ring[k + 1];
        b := buf[b].next;
        k := k + 1;
      }
      assert k == NBUF + 1 by { RingPositions(order); }
      forall j | 0 <= j < NBUF ensures !Holds(buf[j], dev, blockno) {
        assert j in order;
        var i :| 0 <= i < |order| && order[i] == j;
        assert ring[i + 1] == j;
      }
    }

    /** The second scan of bget, from the least recently used end. */
    method FindVictim() returns (b: nat)
      requires Valid()
      ensures b <= NBUF
      ensures b != HEAD ==> exists k :: 0 <= k < NBUF && order[k] == b && Recyclable(buf[b])
                              && forall i :: k < i < NBUF ==> !Recyclable(buf[order[i]])
      ensures b == HEAD ==> !SomeRecyclable()
    {
      ghost var ring, k := Ring(order), NBUF;
      RingEnds(buf[..], order);
      b := buf[HEAD].prev;
      while b != HEAD
        invariant 0 <= k <= NBUF && b == ring[k]
        invariant forall i :: k < i <= NBUF ==> !Recyclable(buf[ring[i]])
        decreases k
      {
        if buf[b].refcnt == 0 && !buf[b].dirty {
          RingPositions(order);
          assert order[k - 1] == b;
          assert forall i :: k - 1 < i < NBUF ==> ring[i + 1] == order[i];
          return;
        }
        RingPositions(order);
        assert buf[..][ring[k]].prev == ring[k - 1];
        b := buf[b].prev;
        k := k - 1;
      }
      assert k == 0 by { RingPositions(order); }
      forall j | 0 <= j < NBUF ensures !Recyclable(buf[j]) {
        assert j in order;
        var i :| 0 <= i < |order| && order[i] == j;
        assert ring[i + 1] == j;
      }
    }

    ghost predicate LockedFor(dev: nat, blockno: nat)
      reads buf
      requires buf.Length == NBUF + 1
    {
      exists i :: 0 <= i < NBUF && Holds(buf[i], dev, blockno) && buf[i].locked
    }

    method Bget(dev: nat, blockno: nat) returns (r: Got)
      requires Valid() && dev != 0
      modifies buf
      ensures Valid()
      ensures r.NoBuffers? <==> !old(Cached(dev, blockno)) && !old(SomeRecyclable())
      ensures r.Wait? <==> old(LockedFor(dev, blockno))
      ensures r.NoBuffers? ==> buf[..] == old(buf[..])
      ensures !r.NoBuffers? ==> r.b < NBUF && buf[..] == old(buf[..])[r.b := buf[r.b]]
      ensures r.Wait? ==>
                var b := old(buf[..])[r.b];
                Holds(b, dev, blockno) && b.locked && buf[r.b] == b.(refcnt := b.refcnt + 1)
      ensures r.Buffer? && old(Cached(dev, blockno)) ==>
                var b := old(buf[..])[r.b];
                Holds(b, dev, blockno) && !b.locked && buf[r.b] == b.(refcnt := b.refcnt + 1, locked := true)
      ensures r.Buffer? && !old(Cached(dev, blockno)) ==>
                var b := old(buf[..])[r.b];
                && Recyclable(b)
                && (exists k :: 0 <= k < NBUF && order[k] == r.b
                      && forall i :: k < i < NBUF ==> !Recyclable(old(buf[..])[order[i]]))
                && buf[r.b] == b.(dev := dev, blockno := blockno, valid := false, dirty := false,
                                  refcnt := 1, locked := true)
    {
      hide Linked, Ring, Agrees, OnePerBlock;
      ghost var b0, d := buf[..], memdisk[..];
      var b := FindCached(dev, blockno);
      if b != HEAD {
        OnlyOne(b0, b);
        if buf[b].locked {
          buf[b] := buf[b].(refcnt := buf[b].refcnt + 1);
          TakenCoherent(b0, d, buf[..], b);
          LinkedSame(b0, buf[..], Ring(order));
          return Wait(b);
        }
        buf[b] := buf[b].(refcnt := buf[b].refcnt + 1, locked := true);
        TakenCoherent(b0, d, buf[..], b);
        LinkedSame(b0, buf[..], Ring(order));
        return Buffer(b);
      }
      b := FindVictim();
      if b != HEAD {
        buf[b] := buf[b].(dev := dev, blockno := blockno, valid := false, dirty := false, refcnt := 1, locked := true);
        assert forall i :: 0 <= i < NBUF ==> b0[i] == old(buf[i]) && !Holds(b0[i], dev, blockno);
        RecycledCoherent(b0, d, buf[..], b);
        LinkedSame(b0, buf[..], Ring(order));
        return Buffer(b);
      }
      return NoBuffers;
    }

    lemma {:induction false} OnlyOne(b: seq<Buf>, k: nat)
      requires b == buf[..] && |b| == NBUF + 1 && OnePerBlock(b) && k < NBUF && b[k].dev != 0
      ensures forall i :: 0 <= i < NBUF && Holds(buf[i], b[k].dev, b[k].blockno) ==> i == k
    {
      assert forall i :: 0 <= i < NBUF ==> b[i] == buf[i];
    }

    /** The four panics of iderw are its preconditions. */
    method Iderw(b: nat)
      requires Valid() && b < NBUF && buf[b].locked
      requires buf[b].valid ==> buf[b].dirty
      requires buf[b].dev == 1 && buf[b].blockno < memdisk.Length
      modifies this`trace, buf, memdisk
      ensures Valid()
      ensures buf[..] == old(buf[..])[b := buf[b]]
      ensures var x := old(buf[..])[b];
              if x.dirty then
                && memdisk[..] == old(memdisk[..])[x.blockno := x.data]
                && buf[b] == x.(dirty := false)
                && trace == old(trace) + [memdisk[..]]
              else
                && memdisk[..] == old(memdisk[..])
                && buf[b] == x.(data := memdisk[x.blockno], valid := true)
                && trace == old(trace)
    {
      var p := buf[b].blockno;
      if buf[b].dirty {
        buf[b] := buf[b].(dirty := false);
        memdisk[p] := buf[b].data;
        trace := trace + [memdisk[..]];
      } else {
        buf[b] := buf[b].(data := memdisk[p]);
      }
      buf[b] := buf[b].(valid := true);
      LinkedSame(old(buf[..]), buf[..], Ring(order));
    }

    /** A buffer is at hand for block a: cached already, or one can be recycled. */
    ghost predicate Available(a: nat)
      reads buf
      requires buf.Length == NBUF + 1
    {
      Cached(1, a) || SomeRecyclable()
    }

    /** bread returns the block as everyone sees it, locked, and changes what no one sees. */
    method Bread(a: nat) returns (r: Got)
      requires Valid() && a < memdisk.Length
      modifies this`trace, buf, memdisk
      ensures Valid() && memdisk[..] == old(memdisk[..]) && trace == old(trace)
      ensures r.NoBuffers? <==> !old(Available(a))
      ensures r.Wait? <==> old(LockedFor(1, a))
      ensures r.NoBuffers? ==> buf[..] == old(buf[..])
      ensures !r.NoBuffers? ==> r.b < NBUF && InUse(buf[r.b], a) && buf[..] == old(buf[..])[r.b := buf[r.b]]
      ensures r.Wait? ==> buf[r.b] == old(buf[..])[r.b].(refcnt := buf[r.b].refcnt)
      ensures r.Buffer? ==>
                var b, x := buf[r.b], old(buf[..])[r.b];
                && b.valid && b.locked
                && b.data == old(View()[a]) && (!b.dirty ==> b.data == memdisk[a])
                && if InUse(x, a) then b.dirty == x.dirty && b.refcnt == x.refcnt + 1
                   else Recyclable(x) && !b.dirty && b.refcnt == 1
      ensures View() == old(View())
    {
      r := Bget(1, a);
      if r.Buffer? {
        if !buf[r.b].valid {
          Iderw(r.b);
        }
        BreadView(old(buf[..]), memdisk[..], buf[..], r.b, a);
      } else if r.Wait? {
        ReleaseView(old(buf[..]), memdisk[..], buf[..], r.b);
      }
    }

    /** bwrite: the disk takes the buffer's data at once. */
    method Bwrite(b: nat)
      requires Valid() && b < NBUF && buf[b].locked && buf[b].valid
      requires buf[b].dev == 1 && buf[b].blockno < memdisk.Length
      modifies this`trace, buf, memdisk
      ensures Valid()
      ensures buf[..] == old(buf[..])[b := old(buf[b]).(dirty := false)]
      ensures memdisk[..] == old(memdisk[..])[buf[b].blockno := buf[b].data]
      ensures trace == old(trace) + [memdisk[..]]
      ensures View() == old(View())
    {
      buf[b] := buf[b].(dirty := true);
      LinkedSame(old(buf[..]), buf[..], Ring(order));
      Iderw(b);
      BwriteView(old(buf[..]), old(memdisk[..]), buf[..], memdisk[..], b);
    }

    /** The holder of a buffer stores new data in it. */
    method SetData(b: nat, v: Block)
      requires Valid() && b < NBUF && buf[b].locked && buf[b].valid && buf[b].dev == 1
      modifies buf
      ensures Valid()
      ensures buf[..] == old(buf[..])[b := old(buf[b]).(data := v)]
      ensures View() == if buf[b].blockno < memdisk.Length then old(View())[buf[b].blockno := v] else old(View())
    {
      buf[b] := buf[b].(data := v);
      LinkedSame(old(buf[..]), buf[..], Ring(order));
      SetDataView(old(buf[..]), memdisk[..], buf[..], b);
    }

    /** b->flags |= B_DIRTY, as log_write does it. */
    method MarkDirty(b: nat)
      requires Valid() && b < NBUF && buf[b].locked && buf[b].valid && buf[b].dev == 1
      modifies buf
      ensures Valid()
      ensures buf[..] == old(buf[..])[b := old(buf[b]).(dirty := true)]
      ensures View() == old(View())
    {
      buf[b] := buf[b].(dirty := true);
      LinkedSame(old(buf[..]), buf[..], Ring(order));
      SetDataView(old(buf[..]), memdisk[..], buf[..], b);
    }

    /** brelse: the last holder moves the buffer to the front.  Whoever changed
        the data has written it or marked it dirty before. */
    method Brelse(b: nat)
      requires Valid() && b < NBUF && buf[b].locked
      requires buf[b].dev == 1 && buf[b].valid && !buf[b].dirty ==>
                 buf[b].blockno < memdisk.Length && buf[b].data == memdisk[buf[b].blockno]
      modifies this`order, buf
      ensures Valid()
      ensures if old(buf[b]).refcnt == 1 then MovedToFront(old(order), order, b) else order == old(order)
      ensures SameBufs(buf[..], old(buf[..])[b := old(buf[b]).(locked := false, refcnt := old(buf[b]).refcnt - 1)])
      ensures View() == old(View())
    {
      buf[b] := buf[b].(locked := false);
      buf[b] := buf[b].(refcnt := buf[b].refcnt - 1);
      ghost var before := buf[..];
      LinkedSame(old(buf[..]), before, Ring(order));
      assert Coherent(before, memdisk[..]);
      ReleaseView(old(buf[..]), memdisk[..], before, b);
      if buf[b].refcnt == 0 {
        MoveToFront(b);
        SameBufsView(before, buf[..], memdisk[..]);
      }
    }

    /** Six pointer writes: unlink b, then put it behind the head. */
    method MoveToFront(b: nat)
      requires buf.Length == NBUF + 1 && Order(order) && Linked(buf[..], Ring(order)) && b < NBUF
      modifies this`order, buf
      ensures Order(order) && Linked(buf[..], Ring(order))
      ensures MovedToFront(old(order), order, b)
      ensures SameBufs(buf[..], old(buf[..]))
    {
      hide Linked, Ring, Order, Members, SameBufs, MovedToFront;
      ghost var before := buf[..];
      ghost var k := Place(order, b);
      ghost var rest := order[..k] + order[k + 1..];
      UnlinkedLinks(before, order, k);
      PointersOnly(before, b);
      FrontOrder(order, k);
      PushedLinks(Unlinked(before, b), rest, b);
      buf[buf[b].next] := buf[buf[b].next].(prev := buf[b].prev);
      buf[buf[b].prev] := buf[buf[b].prev].(next := buf[b].next);
      assert buf[..] == Unlinked(before, b);
      buf[b] := buf[b].(next := buf[HEAD].next, prev := HEAD);
      buf[buf[HEAD].next] := buf[buf[HEAD].next].(prev := b);
      buf[HEAD] := buf[HEAD].(next := b);
      assert buf[..] == Pushed(Unlinked(before, b), b);
      SameBufsOn(before, Unlinked(before, b), buf[..]);
      MovedIntro(order, [b] + rest, k);
      order := [b] + rest;
    }

    lemma SameBufsOn(b: seq<Buf>, c: seq<Buf>, d: seq<Buf>)
      requires SameBufs(c, b) && SameBufs(d, c)
      ensures SameBufs(d, b)
    {
    }

    lemma MovedIntro(order: seq<nat>, next: seq<nat>, k: nat)
      requires k < |order| && next == [order[k]] + (order[..k] + order[k + 1..])
      ensures MovedToFront(order, next, order[k])
    {
    }
  }

  /** Same order except that b is now the most recently used. */
  ghost predicate MovedToFront(order: seq<nat>, next: seq<nat>, b: nat) {
    exists k :: 0 <= k < |order| && order[k] == b && next == [b] + (order[..k] + order[k + 1..])
  }

  // ----- what the methods leave visible

  lemma {:induction false} BreadView(b: seq<Buf>, d: Image, c: seq<Buf>, r: nat, a: nat)
    requires Coherent(b, d) && Coherent(c, d) && r < NBUF && c == b[r := c[r]] && a < |d|
    requires InUse(c[r], a) && c[r].valid
    requires if InUse(b[r], a)
             then c[r].data == (if b[r].valid then b[r].data else d[a])
             else Recyclable(b[r]) && c[r].data == d[a] && (forall i :: 0 <= i < NBUF ==> !InUse(b[i], a))
    ensures c[r].data == Seen(b, d, a)
    ensures Visible(b, d) == Visible(c, d)
  {
    SeenCached(c, d, r);
    if InUse(b[r], a) && b[r].valid {
      SeenCached(b, d, r);
    } else {
      assert forall i :: 0 <= i < |b| && InUse(b[i], a) ==> i == r;
      SeenMissing(b, d, a);
    }
    forall x | 0 <= x < |d| ensures Seen(b, d, x) == Seen(c, d, x) {
      if x != a {
        if InUse(b[r], x) { SeenRecycled(b, d, c, r, x); } else { SeenElsewhere(b, d, c, d, r, x); }
      }
    }
  }

  lemma {:induction false} BwriteView(b: seq<Buf>, d: Image, c: seq<Buf>, e: Image, r: nat)
    requires Coherent(b, d) && Coherent(c, e) && r < NBUF
    requires b[r].dev == 1 && b[r].blockno < |d| && b[r].valid
    requires c == b[r := b[r].(dirty := false)] && e == d[b[r].blockno := b[r].data]
    ensures Visible(b, d) == Visible(c, e)
  {
    SeenCached(b, d, r);
    SeenCached(c, e, r);
    forall x | 0 <= x < |d| && x != b[r].blockno ensures Seen(b, d, x) == Seen(c, e, x) {
      SeenElsewhere(b, d, c, e, r, x);
    }
  }

  lemma {:induction false} SetDataView(b: seq<Buf>, d: Image, c: seq<Buf>, r: nat)
    requires Coherent(b, d) && Coherent(c, d) && r < NBUF && b[r].dev == 1 && b[r].valid
    requires c == b[r := c[r]] && c[r].dev == 1 && c[r].valid && c[r].blockno == b[r].blockno
    ensures Visible(c, d) ==
            if b[r].blockno < |d| then Visible(b, d)[b[r].blockno := c[r].data] else Visible(b, d)
  {
    forall x | 0 <= x < |d|
      ensures Seen(c, d, x) == if x == b[r].blockno then c[r].data else Seen(b, d, x)
    {
      if x == b[r].blockno { SeenCached(c, d, r); } else { SeenElsewhere(b, d, c, d, r, x); }
    }
  }

  lemma {:induction false} ReleaseView(b: seq<Buf>, d: Image, c: seq<Buf>, r: nat)
    requires Coherent(b, d) && Coherent(c, d) && r < NBUF
    requires c == b[r := b[r].(locked := c[r].locked, refcnt := c[r].refcnt)]
    ensures Visible(b, d) == Visible(c, d)
  {
    if b[r].dev == 1 && b[r].valid {
      SetDataView(b, d, c, r);
      if b[r].blockno < |d| { SeenCached(b, d, r); }
    } else {
      forall x | 0 <= x < |d| ensures Seen(b, d, x) == Seen(c, d, x) {
        if i: nat :| i < |b| && InUse(b[i], x) && b[i].valid {
          SeenCached(b, d, i);
          SeenCached(c, d, i);
        } else {
          SeenMissing(c, d, x);
        }
      }
    }
  }

  lemma {:induction false} SameBufsView(b: seq<Buf>, c: seq<Buf>, d: Image)
    requires Coherent(b, d) && SameBufs(c, b)
    ensures Coherent(c, d)
    ensures Visible(b, d) == Visible(c, d)
  {
    forall x | 0 <= x < |d| ensures Seen(b, d, x) == Seen(c, d, x) {
      if i: nat :| i < |b| && InUse(b[i], x) && b[i].valid {
        SeenCached(b, d, i);
        SeenCached(c, d, i);
      } else {
        assert forall i :: 0 <= i < |c| && InUse(c[i], x) ==> InUse(b[i], x);
      }
    }
  }

  lemma {:induction false} Place(order: seq<nat>, b: nat) returns (k: nat)
    requires Order(order) && b < NBUF
    ensures k < NBUF == |order| && order[k] == b && Members(order)
  {
    assert b in order;
    k :| k < NBUF && order[k] == b;
  }

  lemma {:induction false} FrontOrder(order: seq<nat>, k: nat)
    requires Order(order) && k < NBUF
    ensures order[k] !in order[..k] + order[k + 1..]
    ensures Members(order[..k] + order[k + 1..])
    ensures Order([order[k]] + (order[..k] + order[k + 1..]))
  {
    var rest := order[..k] + order[k + 1..];
    var next := [order[k]] + rest;
    assert forall i :: 0 <= i < |rest| ==> rest[i] == order[if i < k then i else i + 1];
    forall j | 0 <= j < NBUF ensures j in next {
      assert j in order;
      var i :| 0 <= i < NBUF && order[i] == j;
      assert next[if i < k then i + 1 else if i == k then 0 else i] == j;
    }
  }
}
