// Pipes (OS-Lab-1/pipe.c): a ring buffer indexed by counters that wrap, and
// what its readers and writers see over whole runs.

module Pipe {
  import opened Options
  import opened Disk

  const PIPESIZE: nat := 512
  const WRAP: nat := 0x1_0000_0000   // the counters are 32-bit

  // ----- a pipe as its history

  /** Every byte written and every byte read, in the order of the lock. */
  datatype Queue = Queue(written: seq<byte>, taken: seq<byte>, readopen: bool, writeopen: bool)

  function Occupancy(q: Queue): int {
    |q.written| - |q.taken|
  }

  function Min(a: int, b: int): int {
    if a < b then a else b
  }

  /** First in, first out, and never more than a buffer apart. */
  predicate Fifo(q: Queue) {
    q.taken <= q.written && Occupancy(q) <= PIPESIZE
  }

  datatype WriteEnd = Wrote | WriteFailed | WriteSleeps(at: nat)
  datatype ReadEnd = Got(bytes: seq<byte>) | ReadFailed | ReadSleeps

  /** pipewrite from byte i, between two times that it holds the lock. */
  function WriteSection(q: Queue, buf: seq<byte>, i: nat, killed: bool): (Queue, WriteEnd)
    requires Fifo(q) && i <= |buf|
  {
    var k := Min(|buf| - i, PIPESIZE - Occupancy(q));
    var q' := q.(written := q.written + buf[i..i + k]);
    (q', if i + k == |buf| then Wrote else if !q.readopen || killed then WriteFailed else WriteSleeps(i + k))
  }

  /** piperead, between two times that it holds the lock. */
  function ReadSection(q: Queue, n: int, killed: bool): (Queue, ReadEnd)
    requires Fifo(q)
  {
    if Occupancy(q) == 0 && q.writeopen then (q, if killed then ReadFailed else ReadSleeps)
    else
      var k := Min(if n < 0 then 0 else n, Occupancy(q));
      var got := q.written[|q.taken|..|q.taken| + k];
      (q.(taken := q.taken + got), Got(got))
  }

  function Close(q: Queue, writable: bool): Queue {
    if writable then q.(writeopen := false) else q.(readopen := false)
  }

  /** A writer puts in the rest of its bytes in order, as many as there is room for.  It is done if that is all; else the
      pipe is full, and it gives up if nobody can read or it has been killed, and sleeps if not. */
  lemma WriteFifo(q: Queue, buf: seq<byte>, i: nat, killed: bool)
    requires Fifo(q) && i <= |buf|
    ensures var (q', e) := WriteSection(q, buf, i, killed);
      var at := i + |q'.written| - |q.written|;
      && Fifo(q') && |q.written| <= |q'.written| && at <= |buf|
      && q' == q.(written := q.written + buf[i..at])
      && (at < |buf| ==> Occupancy(q') == PIPESIZE)
      && (e == Wrote <==> at == |buf|)
      && (e == WriteFailed <==> at < |buf| && (!q.readopen || killed))
      && (e.WriteSleeps? <==> at < |buf| && q.readopen && !killed)
      && (e.WriteSleeps? ==> e.at == at)
  {
  }

  /** A read sleeps, or fails if the reader has been killed, just while the pipe is empty and somebody can write.  Else it
      returns the first bytes not yet read: as many as asked for, or all there are.  So a read of n > 0 bytes returns 0
      only at the end, with nothing left and no writer. */
  lemma ReadFifo(q: Queue, n: int, killed: bool)
    requires Fifo(q)
    ensures var (q', e) := ReadSection(q, n, killed);
      && Fifo(q')
      && (e.Got? <==> q.taken != q.written || !q.writeopen)
      && (e.ReadFailed? <==> q.taken == q.written && q.writeopen && killed)
      && q' == q.(taken := q.taken + (if e.Got? then e.bytes else []))
      && (e.Got? ==>
            && q.taken + e.bytes <= q.written && |e.bytes| <= (if n < 0 then 0 else n)
            && (|e.bytes| == n || n < 0 || q.taken + e.bytes == q.written))
      && (n > 0 ==> (e == Got([]) <==> q.taken == q.written && !q.writeopen))
  {
    var (q', e) := ReadSection(q, n, killed);
    assert q.written == q.taken + q.written[|q.taken|..];
  }

  // ----- the ring buffer

  class Ring {
    const data: array<byte>
    var nread: nat
    var nwrite: nat
    var readopen: bool
    var writeopen: bool
    ghost var written: seq<byte>
    ghost var taken: seq<byte>

    ghost function Model(): Queue
      reads this
    {
      Queue(written, taken, readopen, writeopen)
    }

    /** The counters are the lengths of the histories, wrapped, and the buffer holds what is between. */
    ghost predicate Valid()
      reads this, data
    {
      && data.Length == PIPESIZE && Fifo(Model())
      && nread == |taken| % WRAP && nwrite == |written| % WRAP
      && forall k :: |taken| <= k < |written| ==> data[k % PIPESIZE] == written[k]
    }

    /** pipealloc */
    constructor ()
      ensures Valid() && Model() == Queue([], [], true, true)
    {
      data := new byte[PIPESIZE];
      nread, nwrite := 0, 0;
      readopen, writeopen := true, true;
      written, taken := [], [];
    }

    method Put(b: byte)
      requires Valid() && Occupancy(Model()) < PIPESIZE
      modifies this`nwrite, this`written, data
      ensures Valid() && written == old(written) + [b]
    {
      Wrapped(|written|);
      Apart(|taken|, |written|);
      data[nwrite % PIPESIZE] := b;
      nwrite := (nwrite + 1) % WRAP;
      written := written + [b];
    }

    method Get() returns (b: byte)
      requires Valid() && Occupancy(Model()) > 0
      modifies this`nread, this`taken
      ensures Valid() && taken == old(taken) + [b]
    {
      Wrapped(|taken|);
      b := data[nread % PIPESIZE];
      nread := (nread + 1) % WRAP;
      assert written[|taken|] == b;
      taken := taken + [b];
    }

    /** p->nwrite == p->nread + PIPESIZE, in 32 bits */
    method Full() returns (r: bool)
      requires Valid()
      ensures r <==> Occupancy(Model()) == PIPESIZE
    {
      FullWraps(|taken|, |written|);
      r := nwrite == (nread + PIPESIZE) % WRAP;
    }

    method Empty() returns (r: bool)
      requires Valid()
      ensures r <==> Occupancy(Model()) == 0
    {
      EmptyWraps(|taken|, |written|);
      r := nread == nwrite;
    }

    /** pipewrite, up to its return or its sleep. */
    method Write(buf: seq<byte>, from: nat, killed: bool) returns (e: WriteEnd)
      requires Valid() && from <= |buf|
      modifies this`nwrite, this`written, data
      ensures Valid() && (Model(), e) == WriteSection(old(Model()), buf, from, killed)
    {
      ghost var w := written;
      var i := from;
      while i < |buf|
        invariant from <= i <= |buf| && Valid()
        invariant written == w + buf[from..i]
      {
        var full := Full();
        if full {
          if !readopen || killed {
            return WriteFailed;
          }
          return WriteSleeps(i);
        }
        Put(buf[i]);
        i := i + 1;
      }
      return Wrote;
    }

    /** piperead, up to its return or its sleep. */
    method Read(n: int, killed: bool) returns (e: ReadEnd)
      requires Valid()
      modifies this`nread, this`taken
      ensures Valid() && (Model(), e) == ReadSection(old(Model()), n, killed)
    {
      ghost var t := taken;
      var empty := Empty();
      if empty && writeopen {
        return if killed then ReadFailed else ReadSleeps;
      }
      var addr: seq<byte> := [];
      var i := 0;
      while i < n
        invariant 0 <= i && (i <= n || i == 0) && i == |addr| && Valid()
        invariant taken == t + addr
      {
        empty := Empty();
        if empty {
          break;
        }
        var b := Get();
        addr := addr + [b];
        i := i + 1;
      }
      assert addr == written[|t|..|t| + i];
      e := Got(addr);
    }

    /** One end closes; the pipe is freed when that leaves both closed. */
    method CloseEnd(writable: bool) returns (freed: bool)
      requires Valid()
      modifies this`readopen, this`writeopen
      ensures Valid() && Model() == Close(old(Model()), writable)
      ensures readopen == (old(readopen) && writable) && writeopen == (old(writeopen) && !writable)
      ensures written == old(written) && taken == old(taken)
      ensures freed <==> if writable then !old(readopen) else !old(writeopen)
    {
      if writable {
        writeopen := false;
      } else {
        readopen := false;
      }
      freed := !readopen && !writeopen;
    }
  }

  /** 512 divides 2^32, so a wrapped counter still finds its place in the buffer. */
  lemma Wrapped(k: nat)
    ensures k % WRAP % PIPESIZE == k % PIPESIZE
    ensures (k % WRAP + 1) % WRAP == (k + 1) % WRAP
  {
    assert k == k / WRAP * WRAP + k % WRAP;
    assert WRAP == 0x80_0000 * PIPESIZE;
  }

  /** Positions less than a buffer apart lie in different cells. */
  lemma Apart(lo: nat, hi: nat)
    requires lo <= hi < lo + PIPESIZE
    ensures forall k :: lo <= k < hi ==> k % PIPESIZE != hi % PIPESIZE
  {
  }

  lemma FullWraps(t: nat, w: nat)
    requires t <= w <= t + PIPESIZE
    ensures w % WRAP == (t % WRAP + PIPESIZE) % WRAP <==> w == t + PIPESIZE
  {
  }

  lemma EmptyWraps(t: nat, w: nat)
    requires t <= w <= t + PIPESIZE
    ensures t % WRAP == w % WRAP <==> w == t
  {
  }
}
