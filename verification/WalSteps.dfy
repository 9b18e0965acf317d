// Every action of the logging protocol keeps the invariant.

module WalSteps {
  import opened Params
  import opened Options
  import opened Disk
  import opened Wal
  import opened WalInvariant

  lemma {:induction false} HistorySnoc(base: Image, h: seq<Event>, e: Event)
    ensures Replay(base, h + [e]) ==
            if e.Write? && e.a < |base| then Replay(base, h)[e.a := e.v] else Replay(base, h)
    ensures Open(h + [e]) ==
            if e.Begin? then Open(h) + {e.p} else if e.End? then Open(h) - {e.p} else Open(h)
    ensures Bracketed(h + [e]) <==> Bracketed(h) && (e.Begin? <==> e.p !in Open(h))
    ensures forall k :: 0 <= k <= |h| ==> (h + [e])[..k] == h[..k]
  {
    assert (h + [e])[..|h|] == h;
  }

  /** A step that only moves or drops clean buffers, or changes who holds them. */
  ghost predicate CacheOnly(c: Config, s: State, t: State)
    requires Shape(c, s)
  {
    && t == s.(cache := t.cache)
    && (forall a :: a in t.cache ==> a < |s.disk| && !c.g.InLog(a))
    && (forall a :: 0 <= a < |s.disk| ==> Content(t, a) == Content(s, a))
    && (forall a :: Pinned(t, a) <==> Pinned(s, a))
    && (forall p, a :: 0 <= p && Owns(s, p, a) && IsInOp(s, p) && a in s.pc[p].unlogged ==> Owns(t, p, a))
  }

  lemma {:induction false} KeepCacheOnly(c: Config, s: State, t: State)
    requires Inv(c, s) && CacheOnly(c, s, t)
    requires s.mode.Running?
    ensures Inv(c, t)
  {
    hide Replay, Open, Bracketed, Install, Recovered, Distinct, Active, Unused;
    assert forall p :: IsInOp(t, p) <==> IsInOp(s, p);
    assert forall b :: Unlogged(t, b) <==> Unlogged(s, b);
    forall a | a in t.cache && !t.cache[a].dirty && !Unlogged(t, a)
      ensures t.cache[a].data == t.disk[a]
    {
      assert Content(t, a) == Content(s, a);
      assert !Pinned(t, a) && !Pinned(s, a);
    }
    forall q | 0 <= q < |s.pc| && s.pc[q].Committing?
      ensures StepOk(c, t, t.pc[q].step)
    {
      assert StepOk(c, s, s.pc[q].step);
    }
  }

  lemma {:induction false} BreadCacheOnly(c: Config, s: State, p: Pid, a: nat)
    requires Shape(c, s) && DoBread(c, s, p, a).Next?
    requires forall q, b :: 0 <= q < |s.pc| && s.pc[q].InOp? && b in s.pc[q].unlogged ==> Owns(s, q, b)
    ensures s.mode.Running? && CacheOnly(c, s, DoBread(c, s, p, a).s)
  {
  }

  lemma {:induction false} KeepBread(c: Config, s: State, p: Pid, a: nat)
    requires Inv(c, s) && DoBread(c, s, p, a).Next?
    ensures Inv(c, DoBread(c, s, p, a).s)
  {
    hide Shape, Hists, WalInvariant.Data, DoBread, CacheOnly;
    BreadCacheOnly(c, s, p, a);
    KeepCacheOnly(c, s, DoBread(c, s, p, a).s);
  }

  lemma {:induction false} BrelseCacheOnly(c: Config, s: State, p: Pid, a: nat)
    requires Shape(c, s) && DoBrelse(c, s, p, a).Next?
    ensures CacheOnly(c, s, DoBrelse(c, s, p, a).s)
  {
  }

  lemma {:induction false} KeepBrelse(c: Config, s: State, p: Pid, a: nat)
    requires Inv(c, s) && s.mode.Running? && DoBrelse(c, s, p, a).Next?
    ensures Inv(c, DoBrelse(c, s, p, a).s)
  {
    hide Shape, Procs, Hists, WalInvariant.Data, DoBrelse, CacheOnly;
    BrelseCacheOnly(c, s, p, a);
    KeepCacheOnly(c, s, DoBrelse(c, s, p, a).s);
  }

  lemma {:induction false} KeepEvict(c: Config, s: State, a: nat)
    requires Inv(c, s) && s.mode.Running? && DoEvict(s, a).Next?
    ensures Inv(c, DoEvict(s, a).s)
  {
    hide Replay, Open, Bracketed, Install, Recovered, Distinct, Active, Unused;
    var t := DoEvict(s, a).s;
    assert !Unlogged(s, a) by {
      assert forall p: Pid :: IsInOp(s, p) && a in s.pc[p].unlogged ==> Owns(s, p, a);
    }
    assert Content(s, a) == s.disk[a];
    KeepCacheOnly(c, s, t);
  }

  lemma {:induction false} KeepEvictRecovering(c: Config, s: State, a: nat)
    requires Inv(c, s) && !s.mode.Running? && DoEvict(s, a).Next?
    ensures Inv(c, DoEvict(s, a).s)
  {
    NoneActive(s.pc);
  }

  // ----- actions of an open operation

  lemma {:induction false} StaysUnlogged(s: State, t: State, b: nat)
    requires |t.pc| == |s.pc|
    requires forall q :: 0 <= q < |s.pc| && s.pc[q].InOp? && b in s.pc[q].unlogged ==>
               t.pc[q].InOp? && b in t.pc[q].unlogged
    ensures Unlogged(s, b) ==> Unlogged(t, b)
  {
    if Unlogged(s, b) {
      var q :| 0 <= q < |s.pc| && s.pc[q].InOp? && b in s.pc[q].unlogged;
      assert t.pc[q].InOp? && b in t.pc[q].unlogged;
    }
  }

  lemma {:induction false} ModifyProcs(c: Config, s: State, p: Pid, a: nat, v: Block)
    requires Shape(c, s) && Procs(s) && DoModify(c, s, p, a, v).Next?
    ensures Shape(c, DoModify(c, s, p, a, v).s) && Procs(DoModify(c, s, p, a, v).s)
  {
    var t := DoModify(c, s, p, a, v).s;
    ActiveUpdate(s.pc, p, t.pc[p]);
    UnusedUpdate(s.pc, p, t.pc[p]);
    assert forall q :: 0 <= q < |s.pc| ==> (s.pc[q].Committing? <==> t.pc[q].Committing?);
  }

  lemma {:induction false} ModifyView(c: Config, s: State, p: Pid, a: nat, v: Block)
    requires Inv(c, s) && s.mode.Running? && DoModify(c, s, p, a, v).Next? && Shape(c, DoModify(c, s, p, a, v).s)
    ensures CacheAgrees(c, DoModify(c, s, p, a, v).s)
  {
    hide Replay, Open, Bracketed, Install, Recovered, Distinct, Active, Unused, Procs, Hists, Uncommitted, StepOk;
    var t := DoModify(c, s, p, a, v).s;
    HistorySnoc(Base(c), s.hist, Write(p, a, v));
    forall b | b in t.cache && !t.cache[b].dirty && !Unlogged(t, b)
      ensures t.cache[b].data == t.disk[b]
    {
      assert t.pc[p].InOp? && a in t.pc[p].unlogged;
      assert b != a;
      StaysUnlogged(s, t, b);
    }
    forall b | 0 <= b < |t.disk| && !c.g.InLog(b)
      ensures Content(t, b) == Current(c, t)[b]
    {
      assert Content(s, b) == Current(c, s)[b];
    }
    assert forall b :: Pinned(t, b) <==> Pinned(s, b);
  }

  lemma {:induction false} ModifyHists(c: Config, s: State, p: Pid, a: nat, v: Block)
    requires Procs(s) && Hists(s) && s.mode.Running? && DoModify(c, s, p, a, v).Next?
    ensures Hists(DoModify(c, s, p, a, v).s)
    ensures DoModify(c, s, p, a, v).s.hist[..s.durable] == s.hist[..s.durable]
  {
    hide Replay, Open, Bracketed, Active, Unused;
    NoneActive(s.pc);
    HistorySnoc([], s.hist, Write(p, a, v));
    assert IsInOp(s, p);
  }

  lemma {:induction false} KeepModify(c: Config, s: State, p: Pid, a: nat, v: Block)
    requires Inv(c, s) && DoModify(c, s, p, a, v).Next?
    ensures Inv(c, DoModify(c, s, p, a, v).s)
  {
    hide Replay, Open, Bracketed, Install, Recovered, Distinct, Active, Unused, CacheAgrees, WholeOps;
    NoneActive(s.pc);
    ModifyProcs(c, s, p, a, v);
    ModifyHists(c, s, p, a, v);
    ModifyView(c, s, p, a, v);
    assert forall b :: Pinned(DoModify(c, s, p, a, v).s, b) <==> Pinned(s, b);
  }

  lemma {:induction false} LogWriteShape(c: Config, s: State, p: Pid, a: nat)
    requires Shape(c, s) && DoLogWrite(c, s, p, a).Next?
    ensures Shape(c, DoLogWrite(c, s, p, a).s)
  {
    hide Install, Recovered;
  }

  /** The list grows only if the operation has logged one block more. */
  lemma {:induction false} LogWriteRoom(c: Config, s: State, p: Pid, a: nat)
    requires Procs(s) && DoLogWrite(c, s, p, a).Next?
    ensures var t := DoLogWrite(c, s, p, a).s;
            && |t.pc| == |s.pc| && Active(t.pc) == Active(s.pc)
            && |t.lh| + Unused(t.pc) <= |s.lh| + Unused(s.pc)
  {
    hide Active, Unused;
    var t := DoLogWrite(c, s, p, a).s;
    ActiveUpdate(s.pc, p, t.pc[p]);
    UnusedUpdate(s.pc, p, t.pc[p]);
    if a in s.pc[p].wrote {
      assert s.pc[p].wrote + {a} == s.pc[p].wrote;
    }
  }

  lemma {:induction false} LogWriteProcs(c: Config, s: State, p: Pid, a: nat)
    requires Shape(c, s) && Procs(s) && DoLogWrite(c, s, p, a).Next?
    ensures Shape(c, DoLogWrite(c, s, p, a).s) && Procs(DoLogWrite(c, s, p, a).s)
  {
    hide Shape, Active, Unused;
    LogWriteShape(c, s, p, a);
    LogWriteRoom(c, s, p, a);
    var t := DoLogWrite(c, s, p, a).s;
    assert forall q :: 0 <= q < |s.pc| ==> (s.pc[q].Committing? <==> t.pc[q].Committing?);
    forall q, b | 0 <= q < |t.pc| && t.pc[q].InOp? && b in t.pc[q].wrote ensures b in t.lh {
      assert q != p ==> t.pc[q] == s.pc[q];
      assert t.lh == s.lh || t.lh[|t.lh| - 1] == a;
    }
    forall q, b | 0 <= q < |t.pc| && t.pc[q].InOp? && b in t.pc[q].unlogged ensures Owns(t, q, b) {
      assert Owns(s, q, b);
    }
  }

  lemma {:induction false} LogWriteView(c: Config, s: State, p: Pid, a: nat)
    requires Inv(c, s) && s.mode.Running? && DoLogWrite(c, s, p, a).Next? && Shape(c, DoLogWrite(c, s, p, a).s)
    ensures CacheAgrees(c, DoLogWrite(c, s, p, a).s)
    ensures forall j :: 0 <= j < |s.lh| && Pinned(s, s.lh[j]) ==> Pinned(DoLogWrite(c, s, p, a).s, s.lh[j])
    ensures Pinned(DoLogWrite(c, s, p, a).s, a)
  {
    hide Replay, Open, Bracketed, Install, Recovered, Distinct, Active, Unused, Procs, Hists, Uncommitted, StepOk;
    var t := DoLogWrite(c, s, p, a).s;
    forall b | b in t.cache && !t.cache[b].dirty && !Unlogged(t, b)
      ensures t.cache[b].data == t.disk[b]
    {
      if b != a { StaysUnlogged(s, t, b); }
    }
    forall b | 0 <= b < |t.disk| && !c.g.InLog(b)
      ensures Content(t, b) == Current(c, t)[b]
    {
      assert Content(s, b) == Current(c, s)[b];
    }
    forall b | Pinned(t, b) ensures b in t.lh {
      assert b == a || Pinned(s, b);
      assert a in s.lh || t.lh[|t.lh| - 1] == a;
    }
  }

  lemma {:induction false} KeepLogWrite(c: Config, s: State, p: Pid, a: nat)
    requires Inv(c, s) && DoLogWrite(c, s, p, a).Next?
    ensures Inv(c, DoLogWrite(c, s, p, a).s)
  {
    hide Replay, Open, Bracketed, Install, Recovered, Distinct, Active, Unused, CacheAgrees, WholeOps;
    var t := DoLogWrite(c, s, p, a).s;
    NoneActive(s.pc);
    assert IsInOp(s, p);
    LogWriteProcs(c, s, p, a);
    LogWriteView(c, s, p, a);
    assert AllPinned(s, 0);
    forall j | 0 <= j < |t.lh| ensures Pinned(t, t.lh[j]) {
      assert j < |s.lh| ==> Pinned(s, s.lh[j]);
    }
  }

  /** A whole budget per open operation bounds what they may still append. */
  lemma {:induction false} BudgetSum(pc: seq<Pc>)
    ensures Unused(pc) <= Active(pc) * MAXOPBLOCKS
  {
    if pc != [] {
      BudgetSum(pc[..|pc| - 1]);
    }
  }

  lemma {:induction false} BeginOpProcs(c: Config, s: State, p: Pid)
    requires Shape(c, s) && Procs(s) && DoBeginOp(s, p).Next?
    ensures Shape(c, DoBeginOp(s, p).s) && Procs(DoBeginOp(s, p).s)
  {
    var t := DoBeginOp(s, p).s;
    ActiveUpdate(s.pc, p, t.pc[p]);
    UnusedUpdate(s.pc, p, t.pc[p]);
    BudgetSum(s.pc);
    assert forall q :: 0 <= q < |s.pc| ==> (s.pc[q].Committing? <==> t.pc[q].Committing?);
  }

  lemma {:induction false} KeepBeginOp(c: Config, s: State, p: Pid)
    requires Inv(c, s) && DoBeginOp(s, p).Next?
    ensures Inv(c, DoBeginOp(s, p).s)
  {
    var t := DoBeginOp(s, p).s;
    BeginOpProcs(c, s, p);
    HistorySnoc(Base(c), s.hist, Begin(p));
    assert !IsInOp(s, p);
    KeepUnloggedView(c, s, t);
  }

  /** Starting or ending an operation leaves what the cache shows alone. */
  lemma {:induction false} KeepUnloggedView(c: Config, s: State, t: State)
    requires Inv(c, s) && s.mode.Running? && Shape(c, t)
    requires t.disk == s.disk && t.cache == s.cache && t.lh == s.lh && |t.pc| == |s.pc|
    requires Current(c, t) == Current(c, s)
    requires forall p :: 0 <= p < |s.pc| ==>
               (if s.pc[p].InOp? then s.pc[p].unlogged else {}) == (if t.pc[p].InOp? then t.pc[p].unlogged else {})
    ensures CacheAgrees(c, t)
  {
    forall a | a in t.cache && !t.cache[a].dirty && !Unlogged(t, a)
      ensures t.cache[a].data == t.disk[a]
    {
      StaysUnlogged(s, t, a);
    }
    forall a | 0 <= a < |t.disk| && !c.g.InLog(a)
      ensures Content(t, a) == Current(c, t)[a]
    {
      assert Content(s, a) == Current(c, s)[a];
    }
    assert forall a :: Pinned(t, a) ==> Pinned(s, a);
  }

  lemma {:induction false} EndOpProcs(c: Config, s: State, p: Pid)
    requires Shape(c, s) && Procs(s) && DoEndOp(s, p).Next?
    ensures Shape(c, DoEndOp(s, p).s) && Procs(DoEndOp(s, p).s)
  {
    hide Replay, Open, Bracketed, Install, Recovered;
    var t := DoEndOp(s, p).s;
    ActiveUpdate(s.pc, p, t.pc[p]);
    UnusedUpdate(s.pc, p, t.pc[p]);
    SlackLeft(s.pc, p);
    assert forall q :: 0 <= q < |s.pc| && q != p ==> t.pc[q] == s.pc[q];
    assert s.pc[p].InOp?;
  }

  lemma {:induction false} EndOpHists(c: Config, s: State, p: Pid)
    requires Shape(c, s) && Procs(s) && Hists(s) && DoEndOp(s, p).Next?
    ensures Hists(DoEndOp(s, p).s)
  {
    var t := DoEndOp(s, p).s;
    EndOpProcs(c, s, p);
    NoneActive(t.pc);
    HistorySnoc([], s.hist, End(p));
    assert IsInOp(s, p);
    assert t.hist[..|t.hist|] == t.hist;
    assert forall q: Pid :: q in Open(t.hist) <==> IsInOp(t, q);
    if t.committing {
      assert forall q: Pid :: !IsInOp(t, q);
      assert Open(t.hist) == {};
    }
  }

  lemma {:induction false} KeepEndOp(c: Config, s: State, p: Pid)
    requires Inv(c, s) && DoEndOp(s, p).Next?
    ensures Inv(c, DoEndOp(s, p).s)
  {
    EndOpProcs(c, s, p);
    EndOpHists(c, s, p);
    EndOpView(c, s, p);
    EndOpData(c, s, p);
  }

  lemma {:induction false} EndOpView(c: Config, s: State, p: Pid)
    requires Inv(c, s) && DoEndOp(s, p).Next? && Shape(c, DoEndOp(s, p).s)
    ensures CacheAgrees(c, DoEndOp(s, p).s)
  {
    hide Replay, Open, Bracketed, Install, Recovered, Distinct, Active, Unused;
    HistorySnoc(Base(c), s.hist, End(p));
    KeepUnloggedView(c, s, DoEndOp(s, p).s);
  }

  lemma {:induction false} EndOpData(c: Config, s: State, p: Pid)
    requires Inv(c, s) && DoEndOp(s, p).Next?
    requires Shape(c, DoEndOp(s, p).s) && Procs(DoEndOp(s, p).s) && Hists(DoEndOp(s, p).s)
    requires CacheAgrees(c, DoEndOp(s, p).s)
    ensures RunningOk(c, DoEndOp(s, p).s)
  {
    hide Replay, Open, Bracketed, Install, Recovered, Distinct, Active, Unused;
    var t := DoEndOp(s, p).s;
    assert t.hist[..s.durable] == s.hist[..s.durable];
    assert Uncommitted(c, s);
    assert AllPinned(t, 0) by { assert forall j :: 0 <= j < |s.lh| ==> Pinned(s, s.lh[j]); }
  }
}
