// Sleep-locks (OS-Lab-1/sleeplock.c) over sleep, wakeup and kill
// (OS-Lab-1/proc.c), one machine step at a time, for any number of processes.

module Sleeplock {
  import opened Options

  type Pid = nat

  /** Where a process is.  The comment names the statement it is about to run. */
  datatype Pc =
    | Idle
    | AcqWant              // acquiresleep: acquire(&lk->lk)
    | AcqCheck             // while(lk->locked)
    | SleepPt              // sleep: acquire(&ptable.lock)
    | SleepRel             // release(lk)
    | SleepSet             // p->chan = chan; p->state = SLEEPING
    | SleepSched           // sched(): the scheduler lets go of ptable.lock
    | Asleep               // in the scheduler until RUNNABLE and picked
    | WokenRel             // p->chan = 0; release(&ptable.lock)
    | Reacq                // acquire(lk), then back to the test
    | AcqTake              // lk->locked = 1; lk->pid = ...
    | AcqRel               // release(&lk->lk)
    | Holding              // the caller's critical section
    | RelWant              // releasesleep: acquire(&lk->lk)
    | RelClear             // lk->locked = 0; lk->pid = 0
    | RelPt                // wakeup: acquire(&ptable.lock)
    | RelScan(next: nat)   // wakeup1: look at process next
    | RelPtRel             // release(&ptable.lock)
    | RelLkRel             // release(&lk->lk)

  datatype RunState = Awake | Sleeping | Runnable

  datatype State = State(
    lk: Option<Pid>,        // holder of lk->lk
    pt: Option<Pid>,        // holder of ptable.lock
    locked: bool,           // lk->locked
    owner: Option<Pid>,     // lk->pid, None for 0
    pc: seq<Pc>,
    run: seq<RunState>)

  datatype Action =
    | Go(p: Pid)            // p runs its next statement
    | Kill(p: Pid)          // another process kills p: a sleeper becomes RUNNABLE

  function At(s: State, p: Pid, pc: Pc): State
    requires p < |s.pc|
  {
    s.(pc := s.pc[p := pc])
  }

  /** Spin locks make a process wait: no step while the lock is taken. */
  function TakeLk(s: State, p: Pid, pc: Pc): Option<State>
    requires p < |s.pc|
  {
    if s.lk == None then Some(At(s, p, pc).(lk := Some(p))) else None
  }

  function TakePt(s: State, p: Pid, pc: Pc): Option<State>
    requires p < |s.pc|
  {
    if s.pt == None then Some(At(s, p, pc).(pt := Some(p))) else None
  }

  predicate InSleep(c: Pc) {
    c.SleepPt? || c.SleepRel? || c.SleepSet? || c.SleepSched? || c.Asleep? || c.WokenRel?
  }

  predicate InRelease(c: Pc) {
    c.RelWant? || c.RelClear? || c.RelPt? || c.RelScan? || c.RelPtRel? || c.RelLkRel?
  }

  function DoGo(s: State, p: Pid): Option<State>
    requires p < |s.pc| == |s.run|
  {
    if InSleep(s.pc[p]) then GoSleep(s, p)
    else if InRelease(s.pc[p]) then GoRelease(s, p)
    else GoAcquire(s, p)
  }

  /** acquiresleep, and the caller's own code. */
  function GoAcquire(s: State, p: Pid): Option<State>
    requires p < |s.pc| == |s.run|
  {
    match s.pc[p]
    case Idle => Some(At(s, p, AcqWant))
    case AcqWant => TakeLk(s, p, AcqCheck)
    case AcqCheck => Some(At(s, p, if s.locked then SleepPt else AcqTake))
    case Reacq => TakeLk(s, p, AcqCheck)
    case AcqTake => Some(At(s, p, AcqRel).(locked := true, owner := Some(p)))
    case AcqRel => Some(At(s, p, Holding).(lk := None))
    case Holding => Some(At(s, p, RelWant))
    case _ => None
  }

  /** sleep, and the scheduler on p's behalf. */
  function GoSleep(s: State, p: Pid): Option<State>
    requires p < |s.pc| == |s.run|
  {
    match s.pc[p]
    case SleepPt => TakePt(s, p, SleepRel)
    case SleepRel => Some(At(s, p, SleepSet).(lk := None))
    case SleepSet => Some(At(s, p, SleepSched).(run := s.run[p := Sleeping]))
    case SleepSched => Some(At(s, p, Asleep).(pt := None))
    case Asleep =>
      // the scheduler, holding ptable.lock, picks a RUNNABLE process
      if s.run[p] == Runnable && s.pt == None then
        Some(At(s, p, WokenRel).(pt := Some(p), run := s.run[p := Awake]))
      else None
    case WokenRel => Some(At(s, p, Reacq).(pt := None))
    case _ => None
  }

  /** releasesleep and wakeup. */
  function GoRelease(s: State, p: Pid): Option<State>
    requires p < |s.pc| == |s.run|
  {
    match s.pc[p]
    case RelWant => TakeLk(s, p, RelClear)
    case RelClear => Some(At(s, p, RelPt).(locked := false, owner := None))
    case RelPt => TakePt(s, p, RelScan(0))
    case RelScan(i) =>
      if i < |s.run| then
        Some(At(s, p, RelScan(i + 1)).(run := if s.run[i] == Sleeping then s.run[i := Runnable] else s.run))
      else Some(At(s, p, RelPtRel))
    case RelPtRel => Some(At(s, p, RelLkRel).(pt := None))
    case RelLkRel => Some(At(s, p, Idle).(lk := None))
    case _ => None
  }

  function Step(s: State, act: Action): Option<State>
    requires |s.pc| == |s.run|
  {
    match act
    case Go(p) => if p < |s.pc| then DoGo(s, p) else None
    case Kill(p) =>
      // kill holds ptable.lock from its scan to the change of state
      if p < |s.pc| && s.pt == None then
        Some(if s.run[p] == Sleeping then s.(run := s.run[p := Runnable]) else s)
      else None
  }

  function Init(n: nat): State {
    State(None, None, false, None, seq(n, _ => Idle), seq(n, _ => Awake))
  }

  /** The state after a run of n processes, if each of its actions could be taken. */
  function Run(n: nat, acts: seq<Action>): (r: Option<State>)
    ensures r.Some? ==> |r.value.pc| == |r.value.run| == n
  {
    if acts == [] then Some(Init(n))
    else
      var r := Run(n, acts[..|acts| - 1]);
      if r.Some? then Step(r.value, acts[|acts| - 1]) else None
  }

  // ----- the invariant

  predicate HoldsLk(c: Pc) {
    c.AcqCheck? || c.SleepPt? || c.SleepRel? || c.AcqTake? || c.AcqRel? ||
    c.RelClear? || c.RelPt? || c.RelScan? || c.RelPtRel? || c.RelLkRel?
  }

  predicate HoldsPt(c: Pc) {
    c.SleepRel? || c.SleepSet? || c.SleepSched? || c.WokenRel? || c.RelScan? || c.RelPtRel?
  }

  /** The process has set locked and not cleared it. */
  predicate Owns(c: Pc) {
    c.AcqRel? || c.Holding? || c.RelWant? || c.RelClear?
  }

  /** A releaser that has yet to wake process q. */
  predicate WillWake(c: Pc, q: Pid) {
    c.RelPt? || (c.RelScan? && c.next <= q)
  }

  /** A spin lock's holder is the one process whose code is inside it. */
  ghost predicate LkOk(s: State) {
    && (forall p: Pid :: p < |s.pc| ==> (HoldsLk(s.pc[p]) <==> s.lk == Some(p)))
    && (s.lk.Some? ==> s.lk.value < |s.pc|)
  }

  ghost predicate PtOk(s: State) {
    && (forall p: Pid :: p < |s.pc| ==> (HoldsPt(s.pc[p]) <==> s.pt == Some(p)))
    && (s.pt.Some? ==> s.pt.value < |s.pc|)
  }

  /** The sleep-lock belongs to the one process that has taken it. */
  ghost predicate OwnerOk(s: State) {
    && (forall p: Pid :: p < |s.pc| ==> (Owns(s.pc[p]) <==> s.owner == Some(p)))
    && (s.owner.Some? ==> s.owner.value < |s.pc|)
    && (s.locked <==> s.owner.Some?)
    && (forall p: Pid :: p < |s.pc| && s.pc[p].AcqTake? ==> !s.locked)
  }

  ghost predicate RunStates(s: State) {
    && |s.pc| == |s.run|
    && (forall p: Pid :: p < |s.pc| ==> (s.run[p] == Awake <==> !s.pc[p].SleepSched? && !s.pc[p].Asleep?))
    && (forall p: Pid :: p < |s.pc| && s.pc[p].SleepSched? ==> s.run[p] == Sleeping)
  }

  /** Someone who holds lk->lk is going to wake q. */
  predicate Waker(s: State, q: Pid) {
    s.lk.Some? && s.lk.value < |s.pc| && WillWake(s.pc[s.lk.value], q)
  }

  /** No wakeup is lost: whoever sleeps or is about to has the lock held against
      it, or someone is on the way to wake it. */
  ghost predicate NoneLost(s: State) {
    && |s.pc| == |s.run|
    && (forall p: Pid :: p < |s.pc| && (s.pc[p].SleepPt? || s.pc[p].SleepRel?) ==> s.locked)
    && (forall p: Pid :: p < |s.pc| && s.pc[p].SleepSet? ==> s.locked || Waker(s, p))
    && (forall p: Pid :: p < |s.pc| && s.run[p] == Sleeping ==> s.locked || Waker(s, p))
  }

  ghost predicate Inv(s: State) {
    |s.pc| == |s.run| && LkOk(s) && PtOk(s) && OwnerOk(s) && RunStates(s) && NoneLost(s)
  }

  /** One holder's view of a lock: p keeps what it had, takes the free lock, or lets go. */
  predicate LockMoves(was: Option<Pid>, now: Option<Pid>, p: Pid, inBefore: bool, inAfter: bool) {
    || (now == was && inAfter == inBefore)
    || (was == None && now == Some(p) && inAfter)
    || (inBefore && now == None && !inAfter)
  }

  /** What a step from s to t, of process p, does to the locks. */
  predicate Effect(s: State, t: State, p: Pid)
    requires p < |s.pc|
  {
    && |t.pc| == |s.pc|
    && LockMoves(s.lk, t.lk, p, HoldsLk(s.pc[p]), HoldsLk(t.pc[p]))
    && LockMoves(s.pt, t.pt, p, HoldsPt(s.pc[p]), HoldsPt(t.pc[p]))
    && (if s.pc[p].AcqTake? then t.owner == Some(p) && t.locked && t.pc[p].AcqRel?
        else if s.pc[p].RelClear? then t.owner == None && !t.locked && t.pc[p].RelPt?
        else t.owner == s.owner && t.locked == s.locked && (Owns(t.pc[p]) <==> Owns(s.pc[p])))
    && (t.pc[p].AcqTake? ==> !s.locked && s.pc[p].AcqCheck?)
  }

  lemma {:induction false} AcquireEffect(s: State, p: Pid)
    requires |s.pc| == |s.run| && p < |s.pc| && !InSleep(s.pc[p]) && !InRelease(s.pc[p]) && GoAcquire(s, p).Some?
    ensures Effect(s, GoAcquire(s, p).value, p)
  {
  }

  lemma {:induction false} SleepingEffect(s: State, p: Pid)
    requires |s.pc| == |s.run| && p < |s.pc| && InSleep(s.pc[p]) && GoSleep(s, p).Some?
    ensures Effect(s, GoSleep(s, p).value, p)
  {
  }

  lemma {:induction false} ReleaseEffect(s: State, p: Pid)
    requires |s.pc| == |s.run| && p < |s.pc| && InRelease(s.pc[p]) && GoRelease(s, p).Some?
    ensures Effect(s, GoRelease(s, p).value, p)
  {
  }

  lemma {:induction false} GoEffect(s: State, p: Pid)
    requires |s.pc| == |s.run| && p < |s.pc| && DoGo(s, p).Some?
    ensures Effect(s, DoGo(s, p).value, p)
  {
    hide InSleep, InRelease, Effect, GoAcquire, GoSleep, GoRelease;
    if InSleep(s.pc[p]) { SleepingEffect(s, p); }
    else if InRelease(s.pc[p]) { ReleaseEffect(s, p); }
    else { AcquireEffect(s, p); }
  }

  lemma {:induction false} PcEffect(s: State, p: Pid)
    requires |s.pc| == |s.run| && p < |s.pc| && DoGo(s, p).Some?
    ensures var t := DoGo(s, p).value;
            |t.pc| == |s.pc| && |t.run| == |s.run| && forall q: Pid :: q < |s.pc| && q != p ==> t.pc[q] == s.pc[q]
  {
  }

  lemma {:induction false} GoLk(s: State, p: Pid)
    requires |s.pc| == |s.run| && LkOk(s) && p < |s.pc| && DoGo(s, p).Some?
    ensures LkOk(DoGo(s, p).value)
  {
    hide DoGo, HoldsLk;
    PcEffect(s, p);
    GoEffect(s, p);
  }

  lemma {:induction false} GoPt(s: State, p: Pid)
    requires |s.pc| == |s.run| && PtOk(s) && p < |s.pc| && DoGo(s, p).Some?
    ensures PtOk(DoGo(s, p).value)
  {
    hide DoGo, HoldsPt;
    PcEffect(s, p);
    GoEffect(s, p);
  }

  lemma {:induction false} GoOwner(s: State, p: Pid)
    requires |s.pc| == |s.run| && LkOk(s) && OwnerOk(s) && p < |s.pc| && DoGo(s, p).Some?
    ensures OwnerOk(DoGo(s, p).value)
  {
    hide DoGo;
    PcEffect(s, p);
    GoEffect(s, p);
  }

  /** What a step of p does to the run state of q. */
  lemma {:induction false} RunEffect(s: State, p: Pid, q: Pid)
    requires |s.pc| == |s.run| && p < |s.pc| && q < |s.pc| && DoGo(s, p).Some?
    ensures var t := DoGo(s, p).value;
            && |t.run| == |s.run|
            && (if q == p && s.pc[p].SleepSet? then t.run[q] == Sleeping
                else if q == p && s.pc[p].Asleep? then s.run[q] == Runnable && t.run[q] == Awake
                else if s.pc[p] == RelScan(q) then t.run[q] == if s.run[q] == Sleeping then Runnable else s.run[q]
                else t.run[q] == s.run[q])
  {
  }

  lemma {:induction false} GoRunStates(s: State, p: Pid)
    requires PtOk(s) && RunStates(s) && p < |s.pc| && DoGo(s, p).Some?
    ensures RunStates(DoGo(s, p).value)
  {
    hide DoGo;
    var t := DoGo(s, p).value;
    PcEffect(s, p);
    forall q: Pid | q < |s.pc|
      ensures t.run[q] == Awake <==> !t.pc[q].SleepSched? && !t.pc[q].Asleep?
      ensures t.pc[q].SleepSched? ==> t.run[q] == Sleeping
    {
      RunEffect(s, p, q);
      SleepEffect(s, p);
    }
  }

  lemma {:induction false} SleepEffect(s: State, p: Pid)
    requires |s.pc| == |s.run| && p < |s.pc| && DoGo(s, p).Some?
    ensures var t := DoGo(s, p).value;
            && (t.pc[p].SleepSched? <==> s.pc[p].SleepSet?)
            && (t.pc[p].Asleep? <==> s.pc[p].SleepSched?)
            && (s.pc[p].RelScan? ==> HoldsPt(s.pc[p]))
  {
  }

  lemma {:induction false} GoNoneLost(s: State, p: Pid)
    requires Inv(s) && p < |s.pc| && DoGo(s, p).Some?
    ensures NoneLost(DoGo(s, p).value)
  {
    hide DoGo, HoldsLk, HoldsPt, Owns;
    var t := DoGo(s, p).value;
    PcEffect(s, p);
    GoEffect(s, p);
    forall q: Pid | q < |s.pc|
      ensures t.pc[q].SleepPt? || t.pc[q].SleepRel? ==> t.locked
      ensures t.pc[q].SleepSet? || t.run[q] == Sleeping ==> t.locked || Waker(t, q)
    {
      RunEffect(s, p, q);
      if q == p { GoNoneLostSelf(s, p); } else { GoNoneLostOther(s, p, q); }
    }
  }

  lemma {:induction false} GoNoneLostSelf(s: State, p: Pid)
    requires Inv(s) && p < |s.pc| && DoGo(s, p).Some?
    ensures var t := DoGo(s, p).value;
            && (t.pc[p].SleepPt? || t.pc[p].SleepRel? ==> t.locked)
            && (t.pc[p].SleepSet? || t.run[p] == Sleeping ==> t.locked || Waker(t, p))
  {
    hide Owns;
  }

  lemma {:induction false} GoNoneLostOther(s: State, p: Pid, q: Pid)
    requires Inv(s) && p < |s.pc| && DoGo(s, p).Some? && q < |s.pc| && q != p
    ensures var t := DoGo(s, p).value;
            && (s.pc[q].SleepPt? || s.pc[q].SleepRel? ==> t.locked)
            && (s.pc[q].SleepSet? || t.run[q] == Sleeping ==> t.locked || Waker(t, q))
  {
    hide Owns;
    RunEffect(s, p, q);
  }

  lemma {:induction false} GoKeeps(s: State, p: Pid)
    requires Inv(s) && p < |s.pc| && DoGo(s, p).Some?
    ensures |s.pc| == |s.run| && Inv(DoGo(s, p).value)
  {
    GoLk(s, p);
    GoPt(s, p);
    GoOwner(s, p);
    GoRunStates(s, p);
    GoNoneLost(s, p);
  }

  lemma {:induction false} KillKeeps(s: State, p: Pid)
    requires Inv(s) && Step(s, Kill(p)).Some?
    ensures Inv(Step(s, Kill(p)).value)
  {
  }

  lemma {:induction false} RunKeeps(n: nat, acts: seq<Action>)
    requires Run(n, acts).Some?
    ensures Inv(Run(n, acts).value)
  {
    if acts != [] {
      RunKeeps(n, acts[..|acts| - 1]);
      var s := Run(n, acts[..|acts| - 1]).value;
      match acts[|acts| - 1]
      case Go(p) => GoKeeps(s, p);
      case Kill(p) => KillKeeps(s, p);
    }
  }

  // ----- what holds over every run

  /** At most one process is in its critical section, and holdingsleep tells the
      truth: a process finds locked set with its own pid exactly from the moment
      it takes the lock to the moment it clears it. */
  lemma {:induction false} MutualExclusion(n: nat, acts: seq<Action>, p: Pid, q: Pid)
    requires Run(n, acts).Some? && p < n && q < n
    ensures var s := Run(n, acts).value;
            && (s.pc[p].Holding? && s.pc[q].Holding? ==> p == q)
            && (s.locked && s.owner == Some(p) <==> Owns(s.pc[p]))
  {
    RunKeeps(n, acts);
  }

  /** No lost wakeup: while a process is SLEEPING on the lock, the lock is taken,
      or a releaser holding lk->lk has yet to reach that process in its scan. */
  lemma {:induction false} NoLostWakeup(n: nat, acts: seq<Action>, p: Pid)
    requires Run(n, acts).Some? && p < n
    requires Run(n, acts).value.run[p] == Sleeping
    ensures var s := Run(n, acts).value;
            s.locked || exists r: Pid :: r < n && s.lk == Some(r) && WillWake(s.pc[r], p)
  {
    RunKeeps(n, acts);
    var s := Run(n, acts).value;
    if !s.locked {
      assert s.lk.value < n && WillWake(s.pc[s.lk.value], p);
    }
  }

  /** A process that is neither out of the lock's code nor in its critical section. */
  predicate Busy(c: Pc) {
    !c.Idle? && !c.Holding?
  }

  /** No deadlock: as long as some process is inside the code of the lock, one of
      them can take a step, or all those inside sleep and the lock's owner is in
      its critical section. */
  lemma {:induction false} NoDeadlock(n: nat, acts: seq<Action>, p: Pid)
    requires Run(n, acts).Some? && p < n && Busy(Run(n, acts).value.pc[p])
    ensures var s := Run(n, acts).value;
            || (exists q: Pid :: q < n && Busy(s.pc[q]) && DoGo(s, q).Some?)
            || (exists q: Pid :: q < n && s.pc[q].Holding? && s.owner == Some(q))
  {
    RunKeeps(n, acts);
    var s := Run(n, acts).value;
    if s.pt.Some? {
      assert HoldsPt(s.pc[s.pt.value]) && DoGo(s, s.pt.value).Some?;
    } else if s.lk.Some? {
      assert HoldsLk(s.pc[s.lk.value]) && DoGo(s, s.lk.value).Some?;
    } else if s.pc[p].Asleep? && s.run[p] == Sleeping {
      var r := s.owner.value;
      assert Owns(s.pc[r]) && !HoldsLk(s.pc[r]);
      assert s.pc[r].Holding? || DoGo(s, r).Some?;
    } else {
      assert DoGo(s, p).Some?;
    }
  }

  /** Once nobody is left in the lock's code, nobody sleeps and the lock is free. */
  lemma {:induction false} QuietMeansFree(n: nat, acts: seq<Action>)
    requires Run(n, acts).Some?
    requires forall p :: 0 <= p < n ==> Run(n, acts).value.pc[p].Idle?
    ensures var s := Run(n, acts).value;
            !s.locked && s.lk == None && s.pt == None && forall p :: 0 <= p < n ==> s.run[p] == Awake
  {
    RunKeeps(n, acts);
  }

  // ----- and that it gets on

  /** Steps that a process has before it at most, until it has the lock, has given it up, or is asleep. */
  function Left(c: Pc, n: nat): nat {
    match c
    case Idle => 0
    case Holding => 0
    case Asleep => 0
    case WokenRel => 7
    case AcqWant => 6
    case Reacq => 6
    case AcqCheck => 5
    case SleepPt => 4
    case SleepRel => 3
    case SleepSet => 2
    case SleepSched => 1
    case AcqTake => 2
    case AcqRel => 1
    case RelWant => n + 7
    case RelClear => n + 6
    case RelPt => n + 5
    case RelScan(i) => if i <= n then n - i + 3 else 3
    case RelPtRel => 2
    case RelLkRel => 1
  }

  /** What p's next step waits for: the spin lock that it takes, and a wakeup if it sleeps. */
  predicate Ready(s: State, p: Pid)
    requires p < |s.pc| == |s.run|
  {
    var c := s.pc[p];
    && (c.AcqWant? || c.Reacq? || c.RelWant? ==> s.lk == None)
    && (c.SleepPt? || c.RelPt? || c.Asleep? ==> s.pt == None)
    && (c.Asleep? ==> s.run[p] == Runnable)
  }

  predicate Nearer(s: State, p: Pid, t: State)
    requires p < |s.pc| == |s.run|
  {
    && |t.pc| == |t.run| == |s.pc|
    && (if s.pc[p].Asleep? then t.pc[p].WokenRel? else Left(t.pc[p], |s.pc|) < Left(s.pc[p], |s.pc|))
    && (t.pc[p].Asleep? || t.pc[p].Holding? || t.pc[p].Idle? <==> Left(t.pc[p], |s.pc|) == 0)
    && (t.pc[p].SleepPt? ==> s.locked && s.pc[p].AcqCheck?)
  }

  /** Over every run: a step waits for nothing but the spin lock that it takes and, asleep, for a wakeup; and a step that is
      taken brings its process nearer to having the lock, to having given it up, or to sleep. */
  lemma {:induction false} Moves(n: nat, acts: seq<Action>, p: Pid)
    requires Run(n, acts).Some? && p < n && Busy(Run(n, acts).value.pc[p])
    ensures var s := Run(n, acts).value; var c := s.pc[p];
      && Step(s, Go(p)) == DoGo(s, p)
      && (DoGo(s, p).Some? <==> Ready(s, p))
      && (DoGo(s, p).Some? ==> Nearer(s, p, DoGo(s, p).value))
  {
    hide Inv, Run, GoAcquire, GoSleep, GoRelease, Ready, Nearer;
    var s := Run(n, acts).value;
    if InSleep(s.pc[p]) { MovesSleep(s, p); }
    else if InRelease(s.pc[p]) { MovesRelease(s, p); }
    else { MovesAcquire(s, p); }
  }

  lemma {:induction false} MovesAcquire(s: State, p: Pid)
    requires p < |s.pc| == |s.run| && Busy(s.pc[p]) && !InSleep(s.pc[p]) && !InRelease(s.pc[p])
    ensures GoAcquire(s, p).Some? <==> Ready(s, p)
    ensures GoAcquire(s, p).Some? ==> Nearer(s, p, GoAcquire(s, p).value)
  {
  }

  lemma {:induction false} MovesSleep(s: State, p: Pid)
    requires p < |s.pc| == |s.run| && InSleep(s.pc[p])
    ensures GoSleep(s, p).Some? <==> Ready(s, p)
    ensures GoSleep(s, p).Some? ==> Nearer(s, p, GoSleep(s, p).value)
  {
  }

  lemma {:induction false} MovesRelease(s: State, p: Pid)
    requires p < |s.pc| == |s.run| && InRelease(s.pc[p])
    ensures GoRelease(s, p).Some? <==> Ready(s, p)
    ensures GoRelease(s, p).Some? ==> Nearer(s, p, GoRelease(s, p).value)
  {
  }

  /** n steps of p. */
  function Alone(s: State, p: Pid, k: nat): (r: Option<State>)
    requires p < |s.pc| == |s.run|
    decreases k
  {
    if k == 0 then Some(s)
    else
      var t := DoGo(s, p);
      if t.Some? && p < |t.value.pc| == |t.value.run| then Alone(t.value, p, k - 1) else None
  }

  lemma AloneThen(s: State, p: Pid, t: State, k: nat)
    requires p < |s.pc| == |s.run| && DoGo(s, p) == Some(t) && p < |t.pc| == |t.run|
    ensures Alone(s, p, k + 1) == Alone(t, p, k)
  {
  }

  lemma AloneNone(s: State, p: Pid)
    requires p < |s.pc| == |s.run|
    ensures Alone(s, p, 0) == Some(s)
  {
  }

  /** kill wakes a sleeper, whatever the state of the lock, and does nothing else. */
  lemma {:induction false} KillRouses(n: nat, acts: seq<Action>, p: Pid)
    requires Run(n, acts).Some? && p < n
    ensures var s := Run(n, acts).value;
      && (Step(s, Kill(p)).Some? <==> s.pt == None)
      && (s.pt == None ==>
           Step(s, Kill(p)).value == s.(run := s.run[p := if s.run[p] == Sleeping then Runnable else s.run[p]]))
  {
    var s := Run(n, acts).value;
    assert s.run[p := s.run[p]] == s.run;
  }

  /** A process that asks for the free lock, or wakes up to find it free, has it after at most seven steps of its own. */
  lemma {:induction false} AcquireEnds(n: nat, acts: seq<Action>, p: Pid) returns (t: State)
    requires Run(n, acts).Some? && p < n
    requires var s := Run(n, acts).value;
      && s.lk == None && s.pt == None && !s.locked
      && (s.pc[p].Idle? || (s.pc[p].Asleep? && s.run[p] == Runnable))
    ensures var s := Run(n, acts).value;
      && Alone(s, p, if s.pc[p].Idle? then 5 else 6) == Some(t)
      && t == s.(pc := s.pc[p := Holding], locked := true, owner := Some(p), run := s.run[p := Awake])
  {
    RunKeeps(n, acts);
    var s := Run(n, acts).value;
    hide Run, LkOk, PtOk, OwnerOk, NoneLost, Alone;
    if s.pc[p].Idle? {
      var u := At(s, p, AcqWant);
      t := TakesFree(u, p);
      AloneThen(s, p, u, 4);
      assert s.run[p := Awake] == s.run;
    } else {
      var u := At(s, p, WokenRel).(pt := Some(p), run := s.run[p := Awake]);
      var v := At(u, p, Reacq).(pt := None);
      t := TakesFree(v, p);
      AloneThen(u, p, v, 4);
      AloneThen(s, p, u, 5);
    }
    assert t.pc == s.pc[p := Holding];
  }

  lemma {:induction false} TakesFree(s: State, p: Pid) returns (t: State)
    requires p < |s.pc| == |s.run| && s.lk == None && !s.locked && (s.pc[p].AcqWant? || s.pc[p].Reacq?)
    ensures Alone(s, p, 4) == Some(t)
    ensures t == s.(pc := s.pc[p := Holding], locked := true, owner := Some(p))
  {
    var a := At(s, p, AcqCheck).(lk := Some(p));
    var b := At(a, p, AcqTake);
    var c := At(b, p, AcqRel).(locked := true, owner := Some(p));
    t := At(c, p, Holding).(lk := None);
    AloneThen(s, p, a, 3);
    AloneThen(a, p, b, 2);
    AloneThen(b, p, c, 1);
    AloneThen(c, p, t, 0);
    AloneNone(t, p);
    assert t.pc == s.pc[p := Holding];
  }

  /** Sleepers from i on made runnable. */
  ghost predicate Roused(s: seq<RunState>, t: seq<RunState>, i: nat) {
    |t| == |s| && forall q :: 0 <= q < |s| ==> t[q] == if i <= q && s[q] == Sleeping then Runnable else s[q]
  }

  lemma {:induction false} ScanEnds(s: State, p: Pid, i: nat) returns (t: State)
    requires p < |s.pc| == |s.run| && i <= |s.run| && s.pc[p] == RelScan(i)
    ensures Alone(s, p, |s.run| - i + 3) == Some(t)
    ensures Roused(s.run, t.run, i)
    ensures t == s.(pc := s.pc[p := Idle], lk := None, pt := None, run := t.run)
    decreases |s.run| - i
  {
    hide Alone, GoAcquire, GoSleep;
    var u := DoGo(s, p).value;
    if i < |s.run| {
      t := ScanEnds(u, p, i + 1);
    } else {
      var v := At(u, p, RelLkRel).(pt := None);
      t := At(v, p, Idle).(lk := None);
      AloneThen(v, p, t, 0);
      AloneThen(u, p, v, 1);
      AloneNone(t, p);
    }
    AloneThen(s, p, u, |s.run| - i + 2);
    assert t.pc == s.pc[p := Idle];
  }

  /** A holder that lets go is out of the lock's code after n + 7 steps of its own: the lock is free, and everybody who
      slept on it, and nobody else, is runnable. */
  lemma {:induction false} ReleaseEnds(n: nat, acts: seq<Action>, p: Pid) returns (t: State)
    requires Run(n, acts).Some? && p < n
    requires var s := Run(n, acts).value; s.lk == None && s.pt == None && s.pc[p].Holding?
    ensures var s := Run(n, acts).value;
      && Alone(s, p, n + 7) == Some(t)
      && t == s.(pc := s.pc[p := Idle], locked := false, owner := None, run := t.run)
      && |t.run| == n && forall q :: 0 <= q < n ==> t.run[q] == if s.run[q] == Sleeping then Runnable else s.run[q]
  {
    hide Run, Alone, GoAcquire, GoSleep;
    var s := Run(n, acts).value;
    var a := At(s, p, RelWant);
    var b := At(a, p, RelClear).(lk := Some(p));
    var c := At(b, p, RelPt).(locked := false, owner := None);
    var d := At(c, p, RelScan(0)).(pt := Some(p));
    HoldingGoes(s, p);
    assert DoGo(a, p) == Some(b) && DoGo(b, p) == Some(c) && DoGo(c, p) == Some(d);
    assert d.pc[p] == RelScan(0) && |d.pc| == |d.run| == n;
    t := ScanEnds(d, p, 0);
    AloneThen(c, p, d, n + 3);
    AloneThen(b, p, c, n + 4);
    AloneThen(a, p, b, n + 5);
    AloneThen(s, p, a, n + 6);
    assert t.pc == s.pc[p := Idle];
  }

  lemma HoldingGoes(s: State, p: Pid)
    requires p < |s.pc| == |s.run| && s.pc[p].Holding?
    ensures DoGo(s, p) == Some(At(s, p, RelWant))
  {
  }
}
