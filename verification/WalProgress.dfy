// A commit ends (OS-Lab-1/log.c:145-202): each of its steps can be taken once
// nobody holds the block it needs, and there are only so many of them.

module WalProgress {
  import opened Params
  import opened Options
  import opened Disk
  import opened Wal
  import opened WalInvariant
  import opened WalSteps
  import opened WalCommit
  import opened WalTheorems

  /** The home block whose buffer the committer reads or writes next. */
  function Needs(s: State, p: Pid): Option<nat> {
    if p < |s.pc| && s.pc[p].Committing? then
      match s.pc[p].step
      case WriteLog(t) => if t < |s.lh| then Some(s.lh[t]) else None
      case InstallTrans(t) => if t < |s.lh| then Some(s.lh[t]) else None
      case _ => None
    else None
  }

  /** Steps that the committer has left, this one included. */
  function StepsLeft(s: State, p: Pid): nat {
    if p < |s.pc| && s.pc[p].Committing? then
      match s.pc[p].step
      case WriteLog(t) => |s.lh| + 3 + if t < |s.lh| then |s.lh| - t else 0
      case WriteHead => |s.lh| + 3
      case InstallTrans(t) => 2 + if t < |s.lh| then |s.lh| - t else 0
      case ClearHead => 2
      case Wakeup => 1
    else 0
  }

  /** The committer's step is taken if and only if nobody holds the buffer it needs; then one step less is left. */
  lemma {:induction false} CommitMoves(c: Config, s: State, p: Pid)
    requires Inv(c, s) && p < |s.pc| && s.pc[p].Committing?
    ensures Step(c, s, Commit(p)).Next? <==> Needs(s, p).None? || Unowned(s, Needs(s, p).value)
    ensures Step(c, s, Commit(p)).Next? ==>
              var t := Step(c, s, Commit(p)).s;
              && StepsLeft(t, p) + 1 == StepsLeft(s, p)
              && t.hist == s.hist && t.pc == s.pc[p := t.pc[p]] && (t.pc[p].Committing? || t.pc[p].Outside?)
              && (t.lh == s.lh || t.lh == []) && (t.pc[p].Outside? ==> t.lh == []) && t.mode.Running?
              && (forall a :: Unowned(s, a) ==> Unowned(t, a))
  {
    hide Hists, CacheAgrees, Uncommitted, SlotsHold, Install, Recovered;
    assert StepOk(c, s, s.pc[p].step);
  }

  /** n turns of the committer. */
  function CommitAlone(c: Config, s: State, p: Pid, n: nat): Outcome
    decreases n
  {
    if n == 0 then Next(s)
    else
      var r := Step(c, s, Commit(p));
      if r.Next? then CommitAlone(c, r.s, p, n - 1) else r
  }

  /** A committer whose blocks nobody holds is done after exactly StepsLeft turns. */
  lemma {:induction false} AloneEnds(c: Config, s: State, p: Pid) returns (t: State)
    requires Inv(c, s) && p < |s.pc| && s.pc[p].Committing? && forall a :: a in s.lh ==> Unowned(s, a)
    ensures CommitAlone(c, s, p, StepsLeft(s, p)) == Next(t) && Inv(c, t)
    ensures t.pc == s.pc[p := Outside] && t.hist == s.hist && t.lh == [] && t.mode.Running?
    decreases StepsLeft(s, p)
  {
    hide Inv, Step, Unowned;
    NeedsListed(s, p);
    CommitMoves(c, s, p);
    StepKeeps(c, s, Commit(p));
    var u := Step(c, s, Commit(p)).s;
    if u.pc[p].Committing? {
      t := AloneEnds(c, u, p);
    } else {
      t := u;
    }
  }

  lemma NeedsListed(s: State, p: Pid)
    ensures Needs(s, p).Some? ==> Needs(s, p).value in s.lh
    ensures StepsLeft(s, p) == 0 <==> !(p < |s.pc| && s.pc[p].Committing?)
  {
  }

  /** With nobody in an operation or committing, the log is empty and the disk has everything. */
  lemma {:induction false} AtRest(c: Config, s: State)
    requires Inv(c, s) && s.mode.Running? && forall q :: 0 <= q < |s.pc| ==> s.pc[q].Outside?
    ensures !s.committing && s.outstanding == 0 && s.durable == |s.hist|
    ensures c.g.start < |s.disk| && s.disk[c.g.start].Header? && s.disk[c.g.start].n == 0
    ensures SameHome(c.g, s.disk, Current(c, s))
  {
    hide CacheAgrees, StepOk, Replay, Install, Recovered;
    NoneActive(s.pc);
    assert s.hist[..s.durable] == s.hist;
  }

  /** In every state that a run reaches while p commits: if nobody holds a listed block, then after StepsLeft steps of p
      it is outside; the log is empty, its header clear, nobody commits, and the home blocks hold the whole
      history. */
  lemma {:induction false} CommitEnds(c: Config, acts: seq<Action>, p: Pid) returns (t: State)
    requires GoodImage(c.g, c.image) && Run(c, acts).Next?
    requires var s := Run(c, acts).s;
      p < |s.pc| && s.pc[p].Committing? && forall a :: a in s.lh ==> Unowned(s, a)
    ensures var s := Run(c, acts).s;
      && CommitAlone(c, s, p, StepsLeft(s, p)) == Next(t)
      && t.pc == s.pc[p := Outside] && t.hist == s.hist
      && !t.committing && t.lh == [] && t.outstanding == 0 && t.durable == |t.hist|
      && c.g.start < |t.disk| && t.disk[c.g.start].Header? && t.disk[c.g.start].n == 0
      && SameHome(c.g, t.disk, Replay(Recovered(c.g, c.image), s.hist))
  {
    hide Inv, Step, Unowned, CommitAlone, StepsLeft;
    RunKeeps(c, acts);
    OneCommitter(c, acts);
    var s := Run(c, acts).s;
    t := AloneEnds(c, s, p);
    AtRest(c, t);
  }

  /** Meanwhile nobody else changes what is left to do, except by a crash. */
  lemma {:induction false} OthersLeaveCommit(c: Config, acts: seq<Action>, act: Action, p: Pid)
    requires GoodImage(c.g, c.image) && Run(c, acts).Next? && Step(c, Run(c, acts).s, act).Next?
    requires p < |Run(c, acts).s.pc| && Run(c, acts).s.pc[p].Committing? && act != Commit(p) && !act.Crash?
    ensures var s, t := Run(c, acts).s, Step(c, Run(c, acts).s, act).s;
      t.pc == s.pc && t.lh == s.lh && t.disk == s.disk && t.hist == s.hist && StepsLeft(t, p) == StepsLeft(s, p)
  {
    hide Hists, WalInvariant.Data, Shape;
    RunKeeps(c, acts);
    OneCommitter(c, acts);
  }
}
