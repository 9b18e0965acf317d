// The disk images that commit and recovery pass through, and what recovery
// makes of each.

module LogImages {
  import opened Params
  import opened Disk
  import opened Holding

  /** The images the disk passes through while k slots are installed. */
  function Installs(g: Layout, d: Image, lh: seq<nat>, k: nat): (r: seq<Image>)
    requires k <= |lh| && k < g.size && g.start + g.size <= |d| && AllHome(g, |d|, lh)
    ensures |r| == k
    ensures forall i :: 0 <= i < k ==> r[i] == Install(g, d, lh, i + 1)
  {
    if k == 0 then [] else Installs(g, d, lh, k - 1) + [Install(g, d, lh, k)]
  }

  /** Image d with the first k slots holding what v has at the listed blocks. */
  function Copied(g: Layout, d: Image, v: Image, lh: seq<nat>, k: nat): (r: Image)
    requires k <= |lh| && k < g.size && g.start + g.size <= |d| == |v| && AllHome(g, |d|, lh)
    ensures |r| == |d|
  {
    if k == 0 then d else Copied(g, d, v, lh, k - 1)[g.start + k := v[lh[k - 1]]]
  }

  lemma {:induction false} CopiedAt(g: Layout, d: Image, v: Image, lh: seq<nat>, k: nat)
    requires k <= |lh| && k < g.size && g.start + g.size <= |d| == |v| && AllHome(g, |d|, lh)
    ensures var r := Copied(g, d, v, lh, k);
            && SameHome(g, r, d) && r[g.start] == d[g.start]
            && forall i :: 0 <= i < k ==> r[g.start + i + 1] == v[lh[i]]
  {
    if k > 0 { CopiedAt(g, d, v, lh, k - 1); }
  }

  /** The images the disk passes through while k blocks are logged. */
  function Copies(g: Layout, d: Image, v: Image, lh: seq<nat>, k: nat): (r: seq<Image>)
    requires k <= |lh| && k < g.size && g.start + g.size <= |d| == |v| && AllHome(g, |d|, lh)
    ensures |r| == k
    ensures forall i :: 0 <= i < k ==> r[i] == Copied(g, d, v, lh, i + 1)
  {
    if k == 0 then [] else Copies(g, d, v, lh, k - 1) + [Copied(g, d, v, lh, k)]
  }

  lemma {:induction false} InstallsNext(g: Layout, d: Image, lh: seq<nat>, k: nat)
    requires k < |lh| < g.size && g.start + g.size <= |d| && AllHome(g, |d|, lh)
    ensures Installs(g, d, lh, k + 1) == Installs(g, d, lh, k) + [Install(g, d, lh, k + 1)]
  {
  }

  lemma {:induction false} InstallTurnStep(g: Layout, d: Image, v: Image, p: set<nat>, lh: seq<nat>, k: nat)
    requires k < |lh| < g.size && g.start + g.size <= |d| == |v| && AllHome(g, |d|, lh)
    requires forall a :: a in p ==> !g.InLog(a)
    ensures lh[k] < |d| && lh[k] != g.start + k + 1 && g.start + k + 1 !in Unpinned(p, lh, k)
    ensures Install(g, d, lh, k)[g.start + k + 1] == d[g.start + k + 1]
    ensures Install(g, v, lh, k)[g.start + k + 1] == v[g.start + k + 1]
    ensures Install(g, d, lh, k + 1) == Install(g, d, lh, k)[lh[k] := d[g.start + k + 1]]
    ensures Install(g, v, lh, k + 1) == Install(g, v, lh, k)[lh[k] := v[g.start + k + 1]]
    ensures Unpinned(p, lh, k + 1) == Unpinned(p, lh, k) - {lh[k]}
  {
    UnpinnedAre(p, lh, k);
  }

  lemma {:induction false} CopiesNext(g: Layout, d: Image, v: Image, lh: seq<nat>, k: nat)
    requires k < |lh| < g.size && g.start + g.size <= |d| == |v| && AllHome(g, |d|, lh)
    ensures Copies(g, d, v, lh, k + 1) == Copies(g, d, v, lh, k) + [Copied(g, d, v, lh, k + 1)]
  {
  }

  lemma {:induction false} LogTurnStep(g: Layout, d: Image, v: Image, p: set<nat>, lh: seq<nat>, k: nat)
    requires k < |lh| < g.size && g.start + g.size <= |d| == |v| && AllHome(g, |d|, lh)
    requires forall a :: a in p ==> !g.InLog(a)
    ensures lh[k] < |d| && lh[k] != g.start + k + 1 && g.start + k + 1 !in p
    ensures Copied(g, v, v, lh, k)[lh[k]] == v[lh[k]]
    ensures Copied(g, d, v, lh, k + 1) == Copied(g, d, v, lh, k)[g.start + k + 1 := v[lh[k]]]
    ensures Copied(g, v, v, lh, k + 1) == Copied(g, v, v, lh, k)[g.start + k + 1 := v[lh[k]]]
    ensures p - {g.start + k + 1} == p
  {
    CopiedAt(g, v, v, lh, k);
  }

  lemma {:induction false} Snoc(s: seq<Image>, t: seq<Image>, d: Image)
    ensures s + t + [d] == s + (t + [d])
  {
  }

  /** The header block write_head stores: only the first n entries are overwritten. */
  function HeadFor(lh: seq<nat>, old_: Block): (r: Block)
    requires old_.Header? && |lh| <= |old_.block|
    ensures r.Header? && r.n == |lh| && |r.block| == |old_.block| && Logged(r) == lh
  {
    Header(|lh|, lh + old_.block[|lh|..])
  }

  // ----- what recovery makes of the images a commit passes through

  ghost predicate RecoversTo(g: Layout, d: Image, v: Image) {
    GoodImage(g, d) && SameHome(g, Recovered(g, d), v)
  }

  ghost predicate AllRecoverTo(g: Layout, t: seq<Image>, v: Image) {
    forall i :: 0 <= i < |t| ==> RecoversTo(g, t[i], v)
  }

  lemma {:induction false} EmptyLog(g: Layout, d: Image)
    requires GoodImage(g, d) && d[g.start].n == 0
    ensures RecoversTo(g, d, d)
  {
  }

  /** Installing some of the logged blocks keeps what recovery will yield. */
  lemma {:induction false} InstalledImage(g: Layout, d: Image, lh: seq<nat>, k: nat)
    requires GoodImage(g, d) && lh == Logged(d[g.start]) && k <= |lh|
    ensures |lh| < g.size && AllHome(g, |d|, lh)
    ensures var e := Install(g, d, lh, k);
            RecoversTo(g, e, Recovered(g, d)) && e[g.start] == d[g.start]
    ensures k == |lh| ==> SameHome(g, Install(g, d, lh, k), Recovered(g, d))
  {
    var e := Install(g, d, lh, k);
    forall a | 0 <= a < |d| && !g.InLog(a) && a !in lh ensures e[a] == d[a] {
      InstallMiss(g, d, lh, k, a);
    }
    RecoveredDependsOn(g, e, d);
  }

  lemma {:induction false} InstallsRecover(g: Layout, d: Image, k: nat)
    requires GoodImage(g, d) && k <= d[g.start].n
    ensures AllHome(g, |d|, Logged(d[g.start])) && k <= |Logged(d[g.start])|
    ensures AllRecoverTo(g, Installs(g, d, Logged(d[g.start]), k), Recovered(g, d))
  {
    var lh := Logged(d[g.start]);
    forall i | 0 <= i < k ensures RecoversTo(g, Installs(g, d, lh, k)[i], Recovered(g, d)) {
      InstalledImage(g, d, lh, i + 1);
    }
  }

  /** The image with the log cleared: recovery leaves it alone. */
  lemma {:induction false} ClearedImage(g: Layout, d: Image, e: Image, f: Image)
    requires GoodImage(g, d) && GoodImage(g, e) && SameHome(g, e, Recovered(g, d))
    requires f == e[g.start := HeadFor([], e[g.start])]
    ensures GoodImage(g, f) && f[g.start].n == 0 && SameHome(g, f, Recovered(g, d))
    ensures RecoversTo(g, f, Recovered(g, d))
  {
    assert Logged(f[g.start]) == [];
    EmptyLog(g, f);
  }

  lemma {:induction false} TracesRecover(g: Layout, t0: seq<Image>, more: seq<Image>, last: Image, t: seq<Image>, v: Image)
    requires t == t0 + more + [last] && AllRecoverTo(g, more, v) && RecoversTo(g, last, v)
    ensures t0 <= t && AllRecoverTo(g, t[|t0|..], v)
  {
    assert t[|t0|..] == more + [last];
  }

  /** While the log is being written, recovery yields the old contents. */
  lemma {:induction false} LoggedImages(g: Layout, d: Image, v: Image, lh: seq<nat>, k: nat)
    requires GoodImage(g, d) && d[g.start].n == 0
    requires k <= |lh| && k < g.size && |d| == |v| && AllHome(g, |d|, lh)
    ensures AllRecoverTo(g, Copies(g, d, v, lh, k), d)
    ensures GoodImage(g, Copied(g, d, v, lh, k)) && Copied(g, d, v, lh, k)[g.start] == d[g.start]
  {
    forall i | 0 <= i <= k ensures RecoversTo(g, Copied(g, d, v, lh, i), d) && Copied(g, d, v, lh, i)[g.start] == d[g.start] {
      CopiedAt(g, d, v, lh, i);
      EmptyLog(g, Copied(g, d, v, lh, i));
    }
  }

  /** Once the header is written, recovery yields what the cache showed. */
  lemma {:induction false} CommittedImage(g: Layout, d: Image, v: Image, e: Image, f: Image, lh: seq<nat>)
    requires GoodImage(g, d) && |d| == |v| && |lh| <= LOGSIZE && |lh| < g.size
    requires AllHome(g, |d|, lh) && Distinct(lh)
    requires e == Copied(g, d, v, lh, |lh|) && e[g.start] == d[g.start]
    requires f == e[g.start := HeadFor(lh, e[g.start])]
    requires forall a :: 0 <= a < |d| && !g.InLog(a) && a !in lh ==> d[a] == v[a]
    ensures RecoversTo(g, f, v) && Logged(f[g.start]) == lh
  {
    CopiedAt(g, d, v, lh, |lh|);
    assert forall i :: 0 <= i < |lh| ==> f[g.start].block[i] == lh[i];
    RecoveredIs(g, f, v);
  }

  lemma {:induction false} GoodHead(g: Layout, d: Image)
    requires GoodImage(g, d)
    ensures g.start < |d| && d[g.start].Header? && |d[g.start].block| == LOGSIZE
  {
  }

  /** The whole trace of a commit, before and after the header write. */
  lemma {:induction false} CommitTrace(g: Layout, t0: seq<Image>, copies: seq<Image>, head: Image, installs: seq<Image>,
                                       last: Image, t: seq<Image>, d: Image, v: Image)
    requires t == t0 + copies + [head] + installs + [last] && |installs| == |copies|
    requires AllRecoverTo(g, copies, d) && RecoversTo(g, head, v)
    requires AllRecoverTo(g, installs, Recovered(g, head)) && RecoversTo(g, last, Recovered(g, head))
    ensures t0 <= t && |t[|t0|..]| == 2 * |copies| + 2
    ensures AllRecoverTo(g, t[|t0|..][..|copies|], d) && AllRecoverTo(g, t[|t0|..][|copies|..], v)
    ensures SameHome(g, last, Recovered(g, head)) ==> SameHome(g, last, v)
  {
    var more := t[|t0|..];
    assert more == copies + [head] + installs + [last];
    assert more[..|copies|] == copies;
    assert more[|copies|..] == [head] + installs + [last];
  }
}
