// The invariant of the logging protocol.

module WalInvariant {
  import opened Params
  import opened Options
  import opened Disk
  import opened Wal

  // ----- counting over the processes

  /** How many operations are open. */
  function Active(pc: seq<Pc>): nat {
    if pc == [] then 0
    else Active(pc[..|pc| - 1]) + (if pc[|pc| - 1].InOp? then 1 else 0)
  }

  function Slack(x: Pc): int {
    if x.InOp? then MAXOPBLOCKS - |x.wrote| else 0
  }

  /** The log blocks the open operations may still append, all together. */
  function Unused(pc: seq<Pc>): int {
    if pc == [] then 0
    else Unused(pc[..|pc| - 1]) + Slack(pc[|pc| - 1])
  }

  lemma {:induction false} ActiveUpdate(pc: seq<Pc>, p: nat, x: Pc)
    requires p < |pc|
    ensures Active(pc[p := x]) == Active(pc) - (if pc[p].InOp? then 1 else 0) + (if x.InOp? then 1 else 0)
  {
    var n := |pc| - 1;
    if p == n {
      assert pc[p := x][..n] == pc[..n];
    } else {
      assert pc[p := x][..n] == pc[..n][p := x];
      ActiveUpdate(pc[..n], p, x);
    }
  }

  lemma {:induction false} UnusedUpdate(pc: seq<Pc>, p: nat, x: Pc)
    requires p < |pc|
    ensures Unused(pc[p := x]) == Unused(pc) - Slack(pc[p]) + Slack(x)
  {
    var n := |pc| - 1;
    if p == n {
      assert pc[p := x][..n] == pc[..n];
    } else {
      assert pc[p := x][..n] == pc[..n][p := x];
      UnusedUpdate(pc[..n], p, x);
    }
  }

  lemma {:induction false} NoneActive(pc: seq<Pc>)
    ensures Active(pc) == 0 <==> forall p :: 0 <= p < |pc| ==> !pc[p].InOp?
    ensures Active(pc) == 0 ==> Unused(pc) == 0
  {
    if pc != [] {
      var n := |pc| - 1;
      assert forall p :: 0 <= p < n ==> pc[..n][p] == pc[p];
      NoneActive(pc[..n]);
    }
  }

  lemma {:induction false} SlackLeft(pc: seq<Pc>, p: nat)
    requires p < |pc| && Budgets(pc)
    ensures 0 <= Slack(pc[p]) <= Unused(pc)
    ensures pc[p].InOp? ==> Active(pc) >= 1
  {
    var n := |pc| - 1;
    assert forall q :: 0 <= q < n ==> pc[..n][q] == pc[q];
    if p == n {
      if n > 0 { SlackLeft(pc[..n], n - 1); }
    } else {
      SlackLeft(pc[..n], p);
    }
  }

  predicate Budgets(pc: seq<Pc>) {
    forall p :: 0 <= p < |pc| && pc[p].InOp? ==> |pc[p].wrote| <= MAXOPBLOCKS
  }

  // ----- the parts of the invariant

  predicate Shape(c: Config, s: State) {
    && GoodImage(c.g, s.disk)
    && |s.disk| == |c.image|
    && |s.pc| == c.nproc
    && (forall a :: a in s.cache ==> a < |s.disk| && !c.g.InLog(a))
    && AllHome(c.g, |s.disk|, s.lh)
    && Distinct(s.lh)
    && |s.lh| <= LOGSIZE
    && |s.lh| < c.g.size
  }

  predicate Procs(s: State) {
    && Budgets(s.pc)
    && (s.mode.Running? ==> |s.lh| + Unused(s.pc) <= LOGSIZE)
    && s.outstanding == Active(s.pc)
    && (s.committing ==> s.outstanding == 0)
    && (s.committing <==> exists p :: 0 <= p < |s.pc| && s.pc[p].Committing?)
    && (forall p, q :: 0 <= p < |s.pc| && 0 <= q < |s.pc| && s.pc[p].Committing? && s.pc[q].Committing? ==> p == q)
    && (!s.mode.Running? ==> forall p :: 0 <= p < |s.pc| ==> s.pc[p].Outside?)
    && (forall p, a :: 0 <= p < |s.pc| && s.pc[p].InOp? && a in s.pc[p].unlogged ==> Owns(s, p, a))
    && (forall p, a :: 0 <= p < |s.pc| && s.pc[p].InOp? && a in s.pc[p].wrote ==> a in s.lh)
  }

  ghost predicate Hists(s: State) {
    && Bracketed(s.hist)
    && (forall p :: p in Open(s.hist) <==> IsInOp(s, p))
    && s.durable <= |s.hist|
    && WholeOps(s.hist[..s.durable])
    && (s.mode.Running? && !s.committing && s.outstanding == 0 ==> s.durable == |s.hist|)
  }

  ghost function Base(c: Config): (r: Image)
    requires GoodImage(c.g, c.image)
    ensures |r| == |c.image|
  {
    Recovered(c.g, c.image)
  }

  /** The home blocks after everything written so far. */
  ghost function Current(c: Config, s: State): (r: Image)
    requires GoodImage(c.g, c.image)
    ensures |r| == |c.image|
  {
    Replay(Base(c), s.hist)
  }

  /** The home blocks after everything the disk has taken. */
  ghost function Durable(c: Config, s: State): (r: Image)
    requires GoodImage(c.g, c.image) && s.durable <= |s.hist|
    ensures |r| == |c.image|
  {
    Replay(Base(c), s.hist[..s.durable])
  }

  predicate Unlogged(s: State, a: nat) {
    exists p :: 0 <= p < |s.pc| && s.pc[p].InOp? && a in s.pc[p].unlogged
  }

  predicate Pinned(s: State, a: nat) {
    a in s.cache && s.cache[a].dirty
  }

  /** A process that looks at a block through the cache sees the latest write;
      a buffer that is neither dirty nor being modified equals the disk. */
  ghost predicate CacheAgrees(c: Config, s: State)
    requires GoodImage(c.g, c.image) && Shape(c, s)
  {
    && (forall a :: 0 <= a < |s.disk| && !c.g.InLog(a) ==> Content(s, a) == Current(c, s)[a])
    && (forall a :: a in s.cache && !s.cache[a].dirty && !Unlogged(s, a) ==> s.cache[a].data == s.disk[a])
    && (forall a :: Pinned(s, a) ==> a in s.lh)
  }

  predicate AllPinned(s: State, from: nat) {
    forall j :: from <= j < |s.lh| ==> Pinned(s, s.lh[j])
  }

  ghost predicate SlotsHold(c: Config, s: State, k: nat)
    requires GoodImage(c.g, c.image) && Shape(c, s) && k <= |s.lh|
  {
    forall j :: 0 <= j < k ==> s.disk[c.g.start + j + 1] == Current(c, s)[s.lh[j]]
  }

  ghost predicate Uncommitted(c: Config, s: State)
    requires GoodImage(c.g, c.image) && Shape(c, s) && Hists(s)
  {
    && s.disk[c.g.start].n == 0
    && SameHome(c.g, s.disk, Durable(c, s))
    && AllPinned(s, 0)
  }

  ghost predicate StepOk(c: Config, s: State, step: CommitStep)
    requires GoodImage(c.g, c.image) && Shape(c, s) && Hists(s)
  {
    var h := s.disk[c.g.start];
    match step
    case WriteLog(t) => t < |s.lh| && Uncommitted(c, s) && SlotsHold(c, s, t)
    case WriteHead => 0 < |s.lh| && Uncommitted(c, s) && SlotsHold(c, s, |s.lh|)
    case InstallTrans(t) =>
      && t < |s.lh| && Logged(h) == s.lh
      && s.durable == |s.hist|
      && SlotsHold(c, s, |s.lh|)
      && AllPinned(s, t)
      && forall j :: 0 <= j < t ==> !Pinned(s, s.lh[j])
    case ClearHead =>
      && s.lh == []
      && s.durable == |s.hist|
      && forall j :: 0 <= j < h.n ==> s.disk[c.g.start + j + 1] == Current(c, s)[h.block[j]]
    case Wakeup =>
      && s.lh == []
      && s.durable == |s.hist|
      && h.n == 0
  }

  ghost predicate RunningOk(c: Config, s: State)
    requires GoodImage(c.g, c.image) && Shape(c, s) && Hists(s)
  {
    && CacheAgrees(c, s)
    && (!s.committing ==> Uncommitted(c, s))
    && (forall p :: 0 <= p < |s.pc| && s.pc[p].Committing? ==> StepOk(c, s, s.pc[p].step))
  }

  predicate CacheClean(s: State)
  {
    forall a :: a in s.cache ==>
      a < |s.disk| && s.cache[a] == Buf(s.disk[a], false, None)
  }

  ghost predicate RecoveringOk(c: Config, s: State)
    requires GoodImage(c.g, c.image) && Shape(c, s) && Hists(s)
  {
    && s.durable == |s.hist|
    && SameHome(c.g, Recovered(c.g, s.disk), Current(c, s))
    && CacheClean(s)
    && match s.mode
       case Running => true
       case ReadHead => s.lh == []
       case Reinstall(t) =>
         && t < |s.lh| && Logged(s.disk[c.g.start]) == s.lh
         && forall j :: 0 <= j < t ==> s.disk[s.lh[j]] == s.disk[c.g.start + j + 1]
       case ClearAfterInstall => SameHome(c.g, s.disk, Current(c, s))
  }

  ghost predicate Data(c: Config, s: State)
    requires GoodImage(c.g, c.image) && Shape(c, s) && Hists(s)
  {
    if s.mode.Running? then RunningOk(c, s) else RecoveringOk(c, s)
  }

  ghost predicate Inv(c: Config, s: State) {
    && GoodImage(c.g, c.image)
    && Shape(c, s) && Procs(s) && Hists(s)
    && Data(c, s)
  }

  /** With no operation open, a block that is not pinned is on disk already. */
  lemma {:induction false} Settled(c: Config, s: State, a: nat)
    requires Inv(c, s) && s.mode.Running? && s.outstanding == 0
    requires a < |s.disk| && !c.g.InLog(a) && !Pinned(s, a)
    ensures s.disk[a] == Current(c, s)[a]
  {
    NoneActive(s.pc);
    assert !Unlogged(s, a);
    assert Content(s, a) == Current(c, s)[a];
  }

  /** With a clear header, recovery yields the home blocks as they are. */
  lemma {:induction false} ClearRecovers(g: Layout, d: Image, e: Image)
    requires GoodImage(g, d) && d[g.start].n == 0 && SameHome(g, d, e)
    ensures SameHome(g, Recovered(g, d), e)
  {
  }

  predicate PastCommit(s: State, p: Pid) {
    p < |s.pc| && s.pc[p].Committing? && !s.pc[p].step.WriteLog? && !s.pc[p].step.WriteHead?
  }

  /** Once the header is written, blocks it does not list are on disk. */
  lemma {:induction false} UnlistedOnDisk(c: Config, s: State, p: Pid, a: nat)
    requires Inv(c, s) && s.mode.Running? && s.committing && PastCommit(s, p)
    requires a < |s.disk| && !c.g.InLog(a) && a !in Logged(s.disk[c.g.start])
    ensures s.disk[a] == Current(c, s)[a]
  {
    hide Replay, Open, Bracketed, Install, Recovered, Active, Unused, Distinct, Budgets, Hists;
    assert StepOk(c, s, s.pc[p].step);
    assert Pinned(s, a) ==> a in s.lh;
    Settled(c, s, a);
  }

  /** And blocks it lists are in their slots. */
  lemma {:induction false} ListedInSlots(c: Config, s: State, p: Pid)
    requires Inv(c, s) && s.mode.Running? && s.committing && PastCommit(s, p)
    ensures forall i :: 0 <= i < s.disk[c.g.start].n ==>
              s.disk[c.g.start + i + 1] == Current(c, s)[s.disk[c.g.start].block[i]]
    ensures Durable(c, s) == Current(c, s)
  {
    hide Replay, Open, Bracketed, Install, Recovered, Active, Unused, Distinct, Budgets, Procs, Hists, CacheAgrees;
    assert StepOk(c, s, s.pc[p].step);
    assert s.hist[..s.durable] == s.hist;
  }

  lemma {:induction false} StepGivesDurable(c: Config, s: State, p: Pid)
    requires Inv(c, s) && s.mode.Running? && s.committing
    requires p < |s.pc| && s.pc[p].Committing?
    ensures SameHome(c.g, Recovered(c.g, s.disk), Durable(c, s))
  {
    hide Replay, Open, Bracketed, Install, Recovered, Active, Unused, Distinct, Procs, Current, Durable, CacheAgrees;
    if PastCommit(s, p) {
      forall a | 0 <= a < |s.disk| && !c.g.InLog(a) && a !in Logged(s.disk[c.g.start])
        ensures s.disk[a] == Current(c, s)[a]
      {
        UnlistedOnDisk(c, s, p, a);
      }
      ListedInSlots(c, s, p);
      RecoveredIs(c.g, s.disk, Current(c, s));
    } else {
      assert StepOk(c, s, s.pc[p].step);
      ClearRecovers(c.g, s.disk, Durable(c, s));
    }
  }

  /** The heart of crash safety: at any moment, recovery would yield exactly the durable history. */
  lemma {:induction false} InvGivesDurable(c: Config, s: State)
    requires Inv(c, s)
    ensures SameHome(c.g, Recovered(c.g, s.disk), Durable(c, s))
  {
    hide Replay, Open, Bracketed, Install, Recovered, Active, Unused, Distinct, Budgets;
    if s.mode.Running? && s.committing {
      var p :| 0 <= p < |s.pc| && s.pc[p].Committing?;
      StepGivesDurable(c, s, p);
    } else if s.mode.Running? {
      ClearRecovers(c.g, s.disk, Durable(c, s));
    } else {
      assert s.hist[..s.durable] == s.hist;
    }
  }
}
