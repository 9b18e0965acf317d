// The block device and the on-disk log format (OS-Lab-1/fs.h, OS-Lab-1/log.c),
// and what running recovery on a given disk image yields.

module Params {
  const MAXOPBLOCKS: nat := 10
  const LOGSIZE: nat := 30   // MAXOPBLOCKS * 3
  const NBUF: nat := 30      // MAXOPBLOCKS * 3
  const BSIZE: nat := 512
}

module Options {
  datatype Option<+T> = None | Some(value: T)
  {
    function GetOr(default: T): T {
      if Some? then value else default
    }
  }
}

module Sets {
  ghost function Between(lo: nat, hi: nat): (r: set<nat>)
    requires lo <= hi
    ensures forall b: nat :: b in r <==> lo <= b < hi
    ensures |r| == hi - lo
    decreases hi
  {
    if lo == hi then {} else Between(lo, hi - 1) + {hi - 1}
  }

  lemma SubsetSize<T>(a: set<T>, b: set<T>)
    requires a <= b
    ensures |a| <= |b|
  {
    assert b == a + (b - a);
  }
}

module Disk {
  import opened Params

  type byte = x: int | 0 <= x < 256

  /** What one disk block holds.  A block read through a struct logheader
      pointer is a Header; every other block is Data. */
  datatype Block =
    | Data(bytes: seq<byte>)
    | Header(n: nat, block: seq<nat>)

  type Image = seq<Block>

  /** Where the log lives: the header block at start, then size-1 slots. */
  datatype Layout = Layout(start: nat, size: nat)
  {
    predicate InLog(a: nat) {
      start <= a < start + size
    }
  }

  predicate Distinct(s: seq<nat>) {
    forall i, j :: 0 <= i < j < |s| ==> s[i] != s[j]
  }

  ghost function Elems(s: seq<nat>): (r: set<nat>)
    ensures forall a: nat :: a in r <==> a in s
  {
    set a | a in s
  }

  lemma ElemsSnoc(s: seq<nat>, a: nat)
    ensures Elems([]) == {} && Elems(s + [a]) == Elems(s) + {a}
  {
  }

  lemma {:induction false} ElemsSize(s: seq<nat>)
    ensures |Elems(s)| <= |s| && (Distinct(s) ==> |Elems(s)| == |s|)
  {
    if s != [] {
      var u, a := s[..|s| - 1], s[|s| - 1];
      ElemsSize(u);
      assert s == u + [a];
      ElemsSnoc(u, a);
      if Distinct(s) {
        assert a !in u && Distinct(u);
      }
    }
  }

  /** An operation that logs these blocks in this order logs none of them again once it has used its whole budget. */
  ghost predicate Calm(t: seq<nat>) {
    forall k :: 0 <= k < |t| && t[k] in t[..k] ==> |Elems(t[..k])| < MAXOPBLOCKS
  }

  predicate AllHome(g: Layout, len: nat, s: seq<nat>) {
    forall i :: 0 <= i < |s| ==> s[i] < len && !g.InLog(s[i])
  }

  /** The image has a log header whose entries name distinct home blocks. */
  predicate GoodImage(g: Layout, d: Image) {
    && 1 <= g.size
    && g.start + g.size <= |d|
    && d[g.start].Header?
    && |d[g.start].block| == LOGSIZE
    && d[g.start].n <= LOGSIZE
    && d[g.start].n < g.size
    && AllHome(g, |d|, Logged(d[g.start]))
    && Distinct(Logged(d[g.start]))
  }

  function Logged(h: Block): seq<nat>
    requires h.Header? && h.n <= |h.block|
  {
    h.block[..h.n]
  }

  /** Equal at every block outside the log region. */
  predicate SameHome(g: Layout, d: Image, e: Image) {
    && |d| == |e|
    && forall a :: 0 <= a < |d| && !g.InLog(a) ==> d[a] == e[a]
  }

  /** Copy the first k log slots to the home blocks named in lh, in order. */
  function Install(g: Layout, d: Image, lh: seq<nat>, k: nat): (r: Image)
    requires k <= |lh| && k < g.size && g.start + g.size <= |d|
    requires AllHome(g, |d|, lh)
    ensures |r| == |d|
    ensures forall a :: g.start <= a < g.start + g.size ==> r[a] == d[a]
  {
    if k == 0 then d else Install(g, d, lh, k - 1)[lh[k - 1] := d[g.start + k]]
  }

  /** What recovery makes of an image: replay the header's entries, clear it. */
  function Recovered(g: Layout, d: Image): (r: Image)
    requires GoodImage(g, d)
    ensures |r| == |d|
  {
    var h := d[g.start];
    Install(g, d, Logged(h), h.n)[g.start := h.(n := 0)]
  }

  lemma {:induction false} InstallMiss(g: Layout, d: Image, lh: seq<nat>, k: nat, a: nat)
    requires k <= |lh| && k < g.size && g.start + g.size <= |d| && AllHome(g, |d|, lh)
    requires a < |d| && a !in lh[..k]
    ensures Install(g, d, lh, k)[a] == d[a]
  {
    if k > 0 {
      assert lh[k - 1] == lh[..k][k - 1];
      assert a !in lh[..k - 1] by { assert forall i :: 0 <= i < k - 1 ==> lh[..k - 1][i] == lh[..k][i]; }
      InstallMiss(g, d, lh, k - 1, a);
    }
  }

  lemma {:induction false} InstallHit(g: Layout, d: Image, lh: seq<nat>, k: nat, i: nat)
    requires k <= |lh| && k < g.size && g.start + g.size <= |d| && AllHome(g, |d|, lh)
    requires Distinct(lh) && i < k
    ensures Install(g, d, lh, k)[lh[i]] == d[g.start + i + 1]
  {
    if i < k - 1 {
      InstallHit(g, d, lh, k - 1, i);
    }
  }

  /** A home block that is about to be overwritten does not matter. */
  lemma {:induction false} InstallOverwrites(g: Layout, d: Image, e: Image, lh: seq<nat>, k: nat, a: nat)
    requires k <= |lh| && k < g.size && g.start + g.size <= |d| && AllHome(g, |d|, lh)
    requires |e| == |d|
    requires forall i :: g.start < i <= g.start + k ==> d[i] == e[i]
    requires a in lh[..k]
    ensures a < |d|
    ensures Install(g, d, lh, k)[a] == Install(g, e, lh, k)[a]
  {
    if a != lh[k - 1] {
      var i :| 0 <= i < k && lh[..k][i] == a;
      assert lh[..k - 1][i] == a;
      InstallOverwrites(g, d, e, lh, k - 1, a);
    }
  }

  /** Recovery sees only the header, the live slots, and the home blocks the
      header does not list: images that agree there recover alike. */
  lemma {:induction false} RecoveredDependsOn(g: Layout, d: Image, e: Image)
    requires GoodImage(g, d) && GoodImage(g, e) && |d| == |e|
    requires d[g.start] == e[g.start]
    requires forall i :: g.start < i <= g.start + d[g.start].n ==> d[i] == e[i]
    requires forall a :: 0 <= a < |d| && !g.InLog(a) && a !in Logged(d[g.start]) ==> d[a] == e[a]
    ensures SameHome(g, Recovered(g, d), Recovered(g, e))
  {
    var lh := Logged(d[g.start]);
    assert lh[..|lh|] == lh;
    forall a | 0 <= a < |d| && !g.InLog(a)
      ensures Recovered(g, d)[a] == Recovered(g, e)[a]
    {
      if a in lh {
        InstallOverwrites(g, d, e, lh, |lh|, a);
      } else {
        InstallMiss(g, d, lh, |lh|, a);
        InstallMiss(g, e, lh, |lh|, a);
      }
    }
  }

  /** When the slots hold v at the listed blocks and the other home blocks
      agree with v already, recovery yields v. */
  lemma {:induction false} RecoveredIs(g: Layout, d: Image, v: Image)
    requires GoodImage(g, d) && |v| == |d|
    requires forall i :: 0 <= i < d[g.start].n ==> d[g.start + i + 1] == v[d[g.start].block[i]]
    requires forall a :: 0 <= a < |d| && !g.InLog(a) && a !in Logged(d[g.start]) ==> d[a] == v[a]
    ensures SameHome(g, Recovered(g, d), v)
  {
    var lh := Logged(d[g.start]);
    assert lh[..|lh|] == lh;
    forall a | 0 <= a < |d| && !g.InLog(a)
      ensures Recovered(g, d)[a] == v[a]
    {
      if a in lh {
        var i :| 0 <= i < |lh| && lh[i] == a;
        InstallHit(g, d, lh, |lh|, i);
      } else {
        InstallMiss(g, d, lh, |lh|, a);
      }
    }
  }
}
