// Processes asleep in begin_op (OS-Lab-1/log.c:125-174): when they sleep, and who wakes them.

module WalSleep {
  import opened Params
  import opened Options
  import opened Disk
  import opened Wal
  import opened WalInvariant
  import opened WalTheorems

  /** asleep are the processes in sleep(&log, &log.lock). */
  datatype Sleepy = Sleepy(w: State, asleep: set<Pid>)

  datatype Turn =
    | Do(act: Action)
    | Sleep(p: Pid)      // begin_op finds no room, or a commit under way
    | Rouse(p: Pid)      // kill makes a sleeper runnable

  function Actor(act: Action): Option<Pid> {
    match act
    case Bread(p, _) => Some(p)
    case Modify(p, _, _) => Some(p)
    case LogWrite(p, _) => Some(p)
    case Brelse(p, _) => Some(p)
    case BeginOp(p) => Some(p)
    case EndOp(p) => Some(p)
    case Commit(p) => Some(p)
    case Evict(_) => None
    case Crash => None
    case Recover => None
  }

  /** begin_op would have to wait. */
  predicate MustWait(w: State) {
    w.committing || |w.lh| + (w.outstanding + 1) * MAXOPBLOCKS > LOGSIZE
  }

  /** The steps that call wakeup(&log): an end_op that does not commit, and the end of a commit. */
  predicate Wakes(w: State, act: Action, w': State) {
    match act
    case EndOp(_) => w'.outstanding != 0
    case Commit(p) => p < |w.pc| && w.pc[p] == Committing(CommitStep.Wakeup)
    case Crash => true
    case _ => false
  }

  function Take(c: Config, s: Sleepy, t: Turn): Option<Sleepy> {
    match t
    case Do(act) =>
      if Actor(act).Some? && Actor(act).value in s.asleep then None
      else
        var r := Step(c, s.w, act);
        if r.Next? then Some(Sleepy(r.s, if Wakes(s.w, act, r.s) then {} else s.asleep)) else None
    case Sleep(p) =>
      if s.w.mode.Running? && p < |s.w.pc| && s.w.pc[p].Outside? && p !in s.asleep && MustWait(s.w)
      then Some(s.(asleep := s.asleep + {p}))
      else None
    case Rouse(p) => if p in s.asleep then Some(s.(asleep := s.asleep - {p})) else None
  }

  function Turns(c: Config, ts: seq<Turn>): Option<Sleepy> {
    if ts == [] then Some(Sleepy(Boot(c), {}))
    else
      var r := Turns(c, ts[..|ts| - 1]);
      if r.Some? then Take(c, r.value, ts[|ts| - 1]) else None
  }

  ghost predicate Resting(c: Config, s: Sleepy) {
    && Inv(c, s.w)
    && (forall p :: p in s.asleep ==> s.w.mode.Running? && p < |s.w.pc| && s.w.pc[p].Outside? && MustWait(s.w))
    && (s.w.mode.Running? && !s.w.committing && s.w.outstanding == 0 ==> s.w.lh == [])
  }

  /** An action that does not wake the sleepers leaves them every reason to sleep. */
  lemma {:induction false} StillWaits(c: Config, w: State, act: Action)
    requires Inv(c, w) && w.mode.Running? && MustWait(w) && Step(c, w, act).Next?
    requires !Wakes(w, act, Step(c, w, act).s)
    ensures Step(c, w, act).s.mode.Running? && MustWait(Step(c, w, act).s)
  {
    hide Hists, WalInvariant.Data;
  }

  /** A process that does not act stays where it is. */
  lemma {:induction false} OthersStay(c: Config, w: State, act: Action, p: Pid)
    requires Step(c, w, act).Next? && p < |w.pc| && w.pc[p].Outside? && !act.Crash? && Actor(act) != Some(p)
    ensures p < |Step(c, w, act).s.pc| && Step(c, w, act).s.pc[p].Outside?
  {
  }

  /** The log is empty once nobody is in an operation and nobody commits. */
  lemma {:induction false} EmptyAtRest(c: Config, w: State, act: Action)
    requires Inv(c, w) && Step(c, w, act).Next?
    requires w.mode.Running? && !w.committing && w.outstanding == 0 ==> w.lh == []
    ensures var w' := Step(c, w, act).s; w'.mode.Running? && !w'.committing && w'.outstanding == 0 ==> w'.lh == []
  {
    hide Hists, Uncommitted, CacheAgrees, SlotsHold, RecoveringOk;
    if act.LogWrite? {
      NoneActive(w.pc);
    }
  }

  lemma {:induction false} TakeKeeps(c: Config, s: Sleepy, t: Turn)
    requires Resting(c, s) && Take(c, s, t).Some?
    ensures Resting(c, Take(c, s, t).value)
  {
    hide Inv, Step, Wakes, MustWait;
    if t.Do? {
      StepKeeps(c, s.w, t.act);
      EmptyAtRest(c, s.w, t.act);
      var s' := Take(c, s, t).value;
      forall p | p in s'.asleep
        ensures s'.w.mode.Running? && p < |s'.w.pc| && s'.w.pc[p].Outside? && MustWait(s'.w)
      {
        StillWaits(c, s.w, t.act);
        CrashWakes(s.w, t.act, s'.w);
        OthersStay(c, s.w, t.act, p);
      }
    }
  }

  lemma CrashWakes(w: State, act: Action, w': State)
    ensures act.Crash? ==> Wakes(w, act, w')
  {
  }

  lemma {:induction false} TurnsKeep(c: Config, ts: seq<Turn>)
    requires GoodImage(c.g, c.image) && Turns(c, ts).Some?
    ensures Resting(c, Turns(c, ts).value)
  {
    if ts == [] {
      RunKeeps(c, []);
    } else {
      TurnsKeep(c, ts[..|ts| - 1]);
      TakeKeeps(c, Turns(c, ts[..|ts| - 1]).value, ts[|ts| - 1]);
    }
  }

  /** Over every run: while a process sleeps in begin_op, its begin_op could not go through. */
  lemma {:induction false} SleepsOnlyWithoutRoom(c: Config, ts: seq<Turn>, p: Pid)
    requires GoodImage(c.g, c.image) && Turns(c, ts).Some? && p in Turns(c, ts).value.asleep
    ensures var w := Turns(c, ts).value.w;
      && p < |w.pc| && w.pc[p].Outside? && Step(c, w, BeginOp(p)).Disabled?
      && (w.committing || |w.lh| + (w.outstanding + 1) * MAXOPBLOCKS > LOGSIZE)
  {
    TurnsKeep(c, ts);
  }

  /** Over every run: while a process sleeps in begin_op there is another that is not asleep, and that is in an operation
      or commits; its end_op, or the end of its commit, is to come. */
  lemma {:induction false} SomeoneWillWake(c: Config, ts: seq<Turn>) returns (q: Pid)
    requires GoodImage(c.g, c.image) && Turns(c, ts).Some? && Turns(c, ts).value.asleep != {}
    ensures var s := Turns(c, ts).value;
      q < |s.w.pc| && q !in s.asleep && (s.w.pc[q].InOp? || s.w.pc[q].Committing?)
  {
    TurnsKeep(c, ts);
    var s := Turns(c, ts).value;
    var p :| p in s.asleep;
    NoneActive(s.w.pc);
    if s.w.committing {
      q :| q < |s.w.pc| && s.w.pc[q].Committing?;
    } else {
      q :| q < |s.w.pc| && s.w.pc[q].InOp?;
    }
  }

  lemma {:induction false} EndOpWakes(c: Config, s: Sleepy, q: Pid)
    requires Procs(s.w) && q < |s.w.pc| && q !in s.asleep && s.w.pc[q].InOp? && s.w.pc[q].unlogged == {}
    ensures var r := Take(c, s, Do(EndOp(q))); r.Some? && (r.value.asleep == {} || r.value.w.pc[q].Committing?)
  {
    NoneActive(s.w.pc);
  }

  lemma {:induction false} CommitWakes(c: Config, s: Sleepy, q: Pid)
    requires Inv(c, s.w) && q < |s.w.pc| && q !in s.asleep && s.w.pc[q] == Committing(CommitStep.Wakeup)
    ensures var r := Take(c, s, Do(Commit(q))); r.Some? && r.value.asleep == {} && !MustWait(r.value.w)
  {
    hide Hists, CacheAgrees, Uncommitted;
  }

  /** Such a process does wake everybody: ending its operation either wakes the sleepers or makes it the committer, and
      the committer's last step wakes them. */
  lemma {:induction false} EndsWake(c: Config, ts: seq<Turn>, q: Pid)
    requires GoodImage(c.g, c.image) && Turns(c, ts).Some? && q < |Turns(c, ts).value.w.pc|
    ensures var s := Turns(c, ts).value;
      && (s.w.pc[q].InOp? && s.w.pc[q].unlogged == {} ==>
            var r := Take(c, s, Do(EndOp(q)));
            r.Some? && (r.value.asleep == {} || r.value.w.pc[q].Committing?))
      && (s.w.pc[q] == Committing(CommitStep.Wakeup) ==>
            var r := Take(c, s, Do(Commit(q)));
            r.Some? && r.value.asleep == {} && !MustWait(r.value.w))
  {
    hide Take, Hists, Shape, WalInvariant.Data, MustWait;
    TurnsKeep(c, ts);
    var s := Turns(c, ts).value;
    if s.w.pc[q].InOp? && s.w.pc[q].unlogged == {} {
      EndOpWakes(c, s, q);
    } else if s.w.pc[q] == Committing(CommitStep.Wakeup) {
      CommitWakes(c, s, q);
    }
  }

  /** Over every run: sleepers wake when an operation ends without a commit, when a commit ends, and in a crash, all of them;
      one that is killed wakes alone; nothing else wakes anybody.  Whoever sleeps does nothing, and nobody else is held up. */
  lemma {:induction false} AsleepMoves(c: Config, ts: seq<Turn>, t: Turn)
    requires GoodImage(c.g, c.image) && Turns(c, ts).Some?
    ensures var s := Turns(c, ts).value; var r := Take(c, s, t);
      && (t.Do? ==> (r.Some? <==> Step(c, s.w, t.act).Next? && forall p :: p in s.asleep ==> Actor(t.act) != Some(p)))
      && (t.Rouse? ==> (r.Some? <==> t.p in s.asleep))
      && (r.Some? ==>
           && r.value.w == (if t.Do? then Step(c, s.w, t.act).s else s.w)
           && (t.Sleep? ==> r.value.asleep == s.asleep + {t.p})
           && (t.Rouse? ==> r.value.asleep == s.asleep - {t.p})
           && (t.Do? ==>
                r.value.asleep ==
                  if || (t.act.EndOp? && !EndsInCommit(r.value.w, t.act.p))
                     || (t.act.Commit? && EndsCommit(s.w, t.act.p))
                     || t.act.Crash?
                  then {} else s.asleep))
  {
    hide Hists, WalInvariant.Data, Step;
    TurnsKeep(c, ts);
    var s := Turns(c, ts).value;
    if t.Do? && t.act.EndOp? && Step(c, s.w, t.act).Next? {
      EndOpLeaves(c, s.w, t.act.p);
    }
  }

  predicate EndsInCommit(w': State, p: Pid) {
    p < |w'.pc| && w'.pc[p].Committing?
  }

  predicate EndsCommit(w: State, p: Pid) {
    p < |w.pc| && w.pc[p] == Committing(CommitStep.Wakeup)
  }

  lemma EndOpLeaves(c: Config, w: State, p: Pid)
    requires Step(c, w, EndOp(p)).Next?
    ensures var w' := Step(c, w, EndOp(p)).s; p < |w'.pc| && (w'.pc[p].Committing? <==> w'.outstanding == 0)
  {
  }
}
