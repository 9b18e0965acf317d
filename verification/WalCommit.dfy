// The committer's block writes, a crash, and recovery keep the invariant.

module WalCommit {
  import opened Params
  import opened Options
  import opened Disk
  import opened Wal
  import opened WalInvariant

  /** t follows s by one action of the committer p. */
  predicate CommitterMoves(s: State, t: State, p: Pid) {
    && p < |s.pc| && s.pc[p].Committing?
    && |t.pc| == |s.pc|
    && t.pc == s.pc[p := t.pc[p]]
    && t.mode == s.mode
    && t.outstanding == s.outstanding
    && t.hist == s.hist
    && (t.durable == s.durable || t.durable == |s.hist|)
    && (t.lh == s.lh || t.lh == [])
    && (if t.pc[p].Committing? then t.committing == s.committing else t.pc[p].Outside? && !t.committing && t.durable == |s.hist|)
  }

  lemma {:induction false} CommitterProcs(s: State, t: State, p: Pid)
    requires Procs(s) && Hists(s) && p < |t.pc| && CommitterMoves(s, t, p)
    ensures s.mode.Running? && s.committing && s.outstanding == 0
    ensures forall q :: 0 <= q < |s.pc| ==> !s.pc[q].InOp? && (s.pc[q].Committing? ==> q == p)
    ensures Procs(t) && Hists(t)
  {
    ActiveUpdate(s.pc, p, t.pc[p]);
    UnusedUpdate(s.pc, p, t.pc[p]);
    NoneActive(s.pc);
    assert s.committing;
    assert forall q :: 0 <= q < |s.pc| && q != p ==> t.pc[q] == s.pc[q];
    assert s.hist[..|s.hist|] == s.hist;
    assert forall q: Pid :: !IsInOp(s, q) && !IsInOp(t, q);
    assert Open(s.hist) == {};
    if t.pc[p].Committing? {
      assert exists q :: 0 <= q < |t.pc| && t.pc[q].Committing?;
    }
  }

  /** What the committer may do to the disk and cache between two of its steps. */
  lemma {:induction false} CommitterView(c: Config, s: State, t: State, p: Pid)
    requires Inv(c, s) && p < |t.pc| && CommitterMoves(s, t, p) && Shape(c, t)
    requires t.cache == s.cache && SameHome(c.g, t.disk, s.disk)
    requires forall a :: Pinned(s, a) ==> a in t.lh
    ensures CacheAgrees(c, t)
  {
    CommitterProcs(s, t, p);
    assert forall a :: !Unlogged(s, a) && !Unlogged(t, a);
    forall a | 0 <= a < |t.disk| && !c.g.InLog(a)
      ensures Content(t, a) == Current(c, t)[a]
    {
      assert Content(s, a) == Current(c, s)[a];
    }
    assert forall a :: Pinned(t, a) ==> Pinned(s, a);
  }

  /** write_log copies the pinned buffer, so the slot gets the latest contents
      and never a stale copy from disk. */
  lemma {:induction false} WriteLogCopiesLatest(c: Config, s: State, p: Pid)
    requires Inv(c, s) && p < |s.pc| && s.pc[p].Committing? && s.pc[p].step.WriteLog?
    ensures var t := s.pc[p].step.tail;
            && t < |s.lh| && s.lh[t] in s.cache
            && Content(s, s.lh[t]) == s.cache[s.lh[t]].data == Current(c, s)[s.lh[t]]
  {
    NoneActive(s.pc);
    assert StepOk(c, s, s.pc[p].step);
    assert Pinned(s, s.lh[s.pc[p].step.tail]);
  }

  lemma {:induction false} KeepWriteLog(c: Config, s: State, p: Pid)
    requires Inv(c, s) && DoCommit(c, s, p).Next? && s.pc[p].step.WriteLog?
    ensures Inv(c, DoCommit(c, s, p).s)
  {
    hide Replay, Open, Bracketed, Install, Recovered, Active, Unused;
    var t := DoCommit(c, s, p).s;
    var k := s.pc[p].step.tail;
    WriteLogCopiesLatest(c, s, p);
    assert StepOk(c, s, s.pc[p].step);
    CommitterProcs(s, t, p);
    assert Shape(c, t);
    CommitterView(c, s, t, p);
    assert AllPinned(t, 0) by { assert forall j :: 0 <= j < |s.lh| ==> Pinned(s, s.lh[j]); }
    assert SlotsHold(c, t, k + 1);
    assert StepOk(c, t, t.pc[p].step);
  }

  lemma {:induction false} KeepWriteHead(c: Config, s: State, p: Pid)
    requires Inv(c, s) && DoCommit(c, s, p).Next? && s.pc[p].step.WriteHead?
    ensures Inv(c, DoCommit(c, s, p).s)
  {
    var t := DoCommit(c, s, p).s;
    assert StepOk(c, s, s.pc[p].step);
    CommitterProcs(s, t, p);
    assert Logged(t.disk[c.g.start]) == s.lh;
    assert Shape(c, t);
    CommitterView(c, s, t, p);
    assert AllPinned(t, 0) by { assert forall j :: 0 <= j < |s.lh| ==> Pinned(s, s.lh[j]); }
    assert StepOk(c, t, t.pc[p].step);
  }

  lemma NoneDistinct()
    ensures Distinct([])
  {
  }

  lemma {:induction false} InstallShape(c: Config, s: State, p: Pid)
    requires Inv(c, s) && DoCommit(c, s, p).Next? && s.pc[p].step.InstallTrans?
    ensures Shape(c, DoCommit(c, s, p).s)
  {
    hide Replay, Install, Recovered, Distinct, Hists, CacheAgrees, Uncommitted, RecoveringOk, SlotsHold, Procs;
    var t := DoCommit(c, s, p).s;
    assert t.disk[c.g.start] == s.disk[c.g.start];
    NoneDistinct();
  }

  lemma {:induction false} InstallView(c: Config, s: State, p: Pid)
    requires Inv(c, s) && DoCommit(c, s, p).Next? && s.pc[p].step.InstallTrans?
    ensures Shape(c, DoCommit(c, s, p).s) && CacheAgrees(c, DoCommit(c, s, p).s)
  {
    hide Replay, Open, Bracketed, Install, Recovered, Active, Unused, Uncommitted, RecoveringOk, Distinct;
    var t := DoCommit(c, s, p).s;
    var k := s.pc[p].step.tail;
    var a := s.lh[k];
    assert StepOk(c, s, s.pc[p].step);
    CommitterProcs(s, t, p);
    InstallShape(c, s, p);
    forall b | 0 <= b < |t.disk| && !c.g.InLog(b)
      ensures Content(t, b) == Current(c, t)[b]
    {
      assert Content(s, b) == Current(c, s)[b];
    }
    assert forall b :: !Unlogged(s, b) && !Unlogged(t, b);
    if t.lh == [] {
      assert forall j :: 0 <= j < |s.lh| && j != k ==> !Pinned(s, s.lh[j]);
    }
    assert forall b :: Pinned(t, b) ==> Pinned(s, b) && b != a;
  }

  lemma {:induction false} InstallPins(c: Config, s: State, p: Pid)
    requires Inv(c, s) && DoCommit(c, s, p).Next? && s.pc[p].step.InstallTrans?
    ensures var t := DoCommit(c, s, p).s; var k := s.pc[p].step.tail;
            && (forall j :: k < j < |s.lh| ==> Pinned(t, s.lh[j]))
            && (forall j :: 0 <= j <= k ==> !Pinned(t, s.lh[j]))
  {
    var t := DoCommit(c, s, p).s;
    var k := s.pc[p].step.tail;
    assert StepOk(c, s, s.pc[p].step);
    forall j | 0 <= j < |s.lh| && j != k ensures Pinned(t, s.lh[j]) <==> Pinned(s, s.lh[j]) {
      assert s.lh[j] != s.lh[k];
    }
  }

  lemma {:induction false} InstallStepOk(c: Config, s: State, p: Pid)
    requires Inv(c, s) && DoCommit(c, s, p).Next? && s.pc[p].step.InstallTrans?
    requires Shape(c, DoCommit(c, s, p).s) && Hists(DoCommit(c, s, p).s)
    ensures StepOk(c, DoCommit(c, s, p).s, DoCommit(c, s, p).s.pc[p].step)
  {
    hide Replay, Open, Bracketed, Install, Recovered, CacheAgrees, Uncommitted, RecoveringOk, Distinct;
    var t := DoCommit(c, s, p).s;
    InstallPins(c, s, p);
    assert StepOk(c, s, s.pc[p].step);
    forall j | 0 <= j < |s.lh|
      ensures t.disk[c.g.start + j + 1] == Current(c, t)[s.lh[j]]
    {
      assert s.disk[c.g.start + j + 1] == Current(c, s)[s.lh[j]];
    }
    assert Logged(t.disk[c.g.start]) == s.lh;
    if t.lh == [] {
      assert forall j :: 0 <= j < t.disk[c.g.start].n ==> t.disk[c.g.start].block[j] == s.lh[j];
    }
  }

  lemma {:induction false} KeepInstall(c: Config, s: State, p: Pid)
    requires Inv(c, s) && DoCommit(c, s, p).Next? && s.pc[p].step.InstallTrans?
    ensures Inv(c, DoCommit(c, s, p).s)
  {
    var t := DoCommit(c, s, p).s;
    InstallView(c, s, p);
    CommitterProcs(s, t, p);
    InstallStepOk(c, s, p);
  }

  lemma {:induction false} KeepClearHead(c: Config, s: State, p: Pid)
    requires Inv(c, s) && DoCommit(c, s, p).Next? && s.pc[p].step.ClearHead?
    ensures Inv(c, DoCommit(c, s, p).s)
  {
    var t := DoCommit(c, s, p).s;
    assert StepOk(c, s, s.pc[p].step);
    CommitterProcs(s, t, p);
    assert Shape(c, t);
    CommitterView(c, s, t, p);
    assert StepOk(c, t, t.pc[p].step);
  }

  lemma {:induction false} KeepWakeup(c: Config, s: State, p: Pid)
    requires Inv(c, s) && DoCommit(c, s, p).Next? && s.pc[p].step.Wakeup?
    ensures Inv(c, DoCommit(c, s, p).s)
  {
    var t := DoCommit(c, s, p).s;
    assert StepOk(c, s, s.pc[p].step);
    CommitterProcs(s, t, p);
    CommitterView(c, s, t, p);
    assert t.hist[..t.durable] == t.hist;
    forall a | 0 <= a < |t.disk| && !c.g.InLog(a)
      ensures t.disk[a] == Durable(c, t)[a]
    {
      Settled(c, s, a);
    }
  }

  lemma {:induction false} KeepCommit(c: Config, s: State, p: Pid)
    requires Inv(c, s) && DoCommit(c, s, p).Next?
    ensures Inv(c, DoCommit(c, s, p).s)
  {
    match s.pc[p].step
    case WriteLog(_) => KeepWriteLog(c, s, p);
    case WriteHead => KeepWriteHead(c, s, p);
    case InstallTrans(_) => KeepInstall(c, s, p);
    case ClearHead => KeepClearHead(c, s, p);
    case Wakeup => KeepWakeup(c, s, p);
  }

  // ----- crash and recovery

  lemma {:induction false} AllOutside(pc: seq<Pc>)
    requires forall p :: 0 <= p < |pc| ==> pc[p].Outside?
    ensures Active(pc) == 0 && Unused(pc) == 0
  {
    NoneActive(pc);
  }

  lemma {:induction false} KeepCrash(c: Config, s: State)
    requires Inv(c, s) && DoCrash(s).Next?
    ensures Inv(c, DoCrash(s).s)
  {
    var t := DoCrash(s).s;
    InvGivesDurable(c, s);
    AllOutside(t.pc);
    assert t.hist[..t.durable] == t.hist;
  }

  lemma {:induction false} RecoverShape(c: Config, s: State)
    requires Inv(c, s) && DoRecover(c, s).Next?
    ensures Shape(c, DoRecover(c, s).s) && Procs(DoRecover(c, s).s) && Hists(DoRecover(c, s).s)
  {
    hide Replay, Open, Bracketed, Install, Recovered, Active, Unused;
    AllOutside(s.pc);
    var t := DoRecover(c, s).s;
    assert Logged(s.disk[c.g.start]) == s.disk[c.g.start].block[..s.disk[c.g.start].n];
    assert t.disk[c.g.start].block == s.disk[c.g.start].block;
  }

  lemma {:induction false} KeepReadHead(c: Config, s: State)
    requires Inv(c, s) && DoRecover(c, s).Next? && s.mode.ReadHead?
    ensures Inv(c, DoRecover(c, s).s)
  {
    RecoverShape(c, s);
  }

  lemma {:induction false} ReinstallMatches(c: Config, s: State)
    requires Inv(c, s) && DoRecover(c, s).Next? && s.mode.Reinstall?
    ensures var d := DoRecover(c, s).s.disk;
            && |d| == |s.disk| && d[c.g.start] == s.disk[c.g.start]
            && forall j :: 0 <= j <= s.mode.tail ==> d[s.lh[j]] == d[c.g.start + j + 1]
  {
    var d := DoRecover(c, s).s.disk;
    var k := s.mode.tail;
    forall j | 0 <= j <= k
      ensures d[s.lh[j]] == d[c.g.start + j + 1]
    {
      assert d[c.g.start + j + 1] == s.disk[c.g.start + j + 1];
      if j < k {
        assert s.lh[j] != s.lh[k];
        assert s.disk[s.lh[j]] == s.disk[c.g.start + j + 1];
      }
    }
  }

  lemma {:induction false} KeepReinstall(c: Config, s: State)
    requires Inv(c, s) && DoRecover(c, s).Next? && s.mode.Reinstall?
    ensures Inv(c, DoRecover(c, s).s)
  {
    hide Replay, Open, Bracketed, Install, Recovered, Active, Unused;
    var t := DoRecover(c, s).s;
    RecoverShape(c, s);
    ReinstallMatches(c, s);
    RecoveredDependsOn(c.g, t.disk, s.disk);
    if t.mode.ClearAfterInstall? {
      AllInstalled(c, t.disk, s.lh);
    }
  }

  /** Once every home block equals its slot, recovery has nothing left to do. */
  lemma {:induction false} AllInstalled(c: Config, d: Image, lh: seq<nat>)
    requires GoodImage(c.g, d) && lh == Logged(d[c.g.start])
    requires forall j :: 0 <= j < |lh| ==> d[lh[j]] == d[c.g.start + j + 1]
    ensures SameHome(c.g, Recovered(c.g, d), d)
  {
    assert forall j :: 0 <= j < |lh| ==> lh[j] == d[c.g.start].block[j];
    RecoveredIs(c.g, d, d);
  }

  lemma {:induction false} KeepClearAfterInstall(c: Config, s: State)
    requires Inv(c, s) && DoRecover(c, s).Next? && s.mode.ClearAfterInstall?
    ensures Inv(c, DoRecover(c, s).s)
  {
    var t := DoRecover(c, s).s;
    RecoverShape(c, s);
    NoneActive(s.pc);
    assert t.hist[..t.durable] == t.hist;
    forall a | 0 <= a < |t.disk| && !c.g.InLog(a)
      ensures Content(t, a) == Current(c, t)[a]
    {
      assert t.disk[a] == s.disk[a];
    }
  }

  lemma {:induction false} KeepRecover(c: Config, s: State)
    requires Inv(c, s) && DoRecover(c, s).Next?
    ensures Inv(c, DoRecover(c, s).s)
  {
    match s.mode
    case Running =>
    case ReadHead => KeepReadHead(c, s);
    case Reinstall(_) => KeepReinstall(c, s);
    case ClearAfterInstall => KeepClearAfterInstall(c, s);
  }

  lemma {:induction false} BootOk(c: Config)
    requires GoodImage(c.g, c.image)
    ensures Inv(c, Boot(c))
  {
    AllOutside(Boot(c).pc);
  }
}
