// The process tree over whole runs of fork, exit, wait and kill
// (OS-Lab-1/proc.c:181-312), each action one critical section of ptable.lock.

module ProcTree {
  import opened Options
  import opened Procs

  /** How far the process in a slot has come in fork. */
  datatype Doing = User | Allocated(child: nat) | Linked(child: nat)

  datatype State = State(
    t: seq<Proc>,
    doing: seq<Doing>,
    nextpid: int,
    exited: seq<int>,      // pids in the order in which exit was called
    reaped: seq<int>)      // pids in the order in which wait returned them

  const INIT: nat := 0

  datatype Action =
    | Alloc(p: nat)                // fork: allocproc
    | Abort(p: nat)                // fork: no kernel stack, or no memory to copy into
    | Link(p: nat)                 // fork: np->parent = curproc
    | Done(p: nat)                 // fork: np->state = RUNNABLE
    | Exit(p: nat)
    | Wait(p: nat)                 // wait, up to its return or its sleep
    | WaitAgain(p: nat)            // the scheduler picks a process woken inside wait
    | Sleep(p: nat, addr: nat)     // sleep on anything but a process
    | Wakeup(addr: nat)
    | Kill(pid: int)
    | Mark(p: nat)                 // trap: myproc()->killed = 1
    | Pick(p: nat)                 // the scheduler runs p
    | Yield(p: nat)

  predicate Shape(s: State) {
    INIT < |s.t| == |s.doing|
  }

  predicate Runs(s: State, p: nat)
    requires Shape(s)
  {
    p < |s.t| && s.t[p].state == RUNNING
  }

  predicate RunsUser(s: State, p: nat)
    requires Shape(s)
  {
    Runs(s, p) && s.doing[p] == User
  }

  function Resumed(p: Proc): Proc {
    p.(state := RUNNING, chan := Null)
  }

  function DoWait(s: State, p: nat): State
    requires Shape(s) && p < |s.t|
  {
    var (t, r) := WaitPass(s.t, p);
    s.(t := t, reaped := if r.Reaped? then s.reaped + [r.pid] else s.reaped)
  }

  function DoAlloc(s: State, p: nat): State
    requires Shape(s) && p < |s.t|
  {
    var c := FindUnused(s.t, 0);
    if c == |s.t| then s
    else s.(t := s.t[c := s.t[c].(state := EMBRYO, pid := s.nextpid)], nextpid := s.nextpid + 1,
            doing := s.doing[p := Allocated(c)])
  }

  function DoFork(s: State, act: Action): Option<State>
    requires Shape(s)
  {
    match act
    case Alloc(p) => if RunsUser(s, p) then Some(DoAlloc(s, p)) else None
    case Abort(p) =>
      if Runs(s, p) && s.doing[p].Allocated? && s.doing[p].child < |s.t| then
        var c := s.doing[p].child;
        Some(s.(t := s.t[c := s.t[c].(state := UNUSED)], doing := s.doing[p := User]))
      else None
    case Link(p) =>
      if Runs(s, p) && s.doing[p].Allocated? && s.doing[p].child < |s.t| then
        var c := s.doing[p].child;
        Some(s.(t := s.t[c := s.t[c].(parent := Some(p))], doing := s.doing[p := Linked(c)]))
      else None
    case Done(p) =>
      if Runs(s, p) && s.doing[p].Linked? && s.doing[p].child < |s.t| then
        var c := s.doing[p].child;
        Some(s.(t := s.t[c := s.t[c].(state := RUNNABLE)], doing := s.doing[p := User]))
      else None
    case _ => None
  }

  function DoSchedule(s: State, act: Action): Option<State>
    requires Shape(s)
  {
    match act
    case Sleep(p, a) =>
      if RunsUser(s, p) then Some(s.(t := s.t[p := s.t[p].(chan := Other(a), state := SLEEPING)])) else None
    case Wakeup(a) => Some(s.(t := Wake(s.t, Other(a))))
    case Kill(pid) => Some(s.(t := KillTable(s.t, pid)))
    case Mark(p) => if Runs(s, p) then Some(s.(t := s.t[p := s.t[p].(killed := true)])) else None
    case Pick(p) =>
      if p < |s.t| && s.t[p].state == RUNNABLE && !s.t[p].chan.Slot? then
        Some(s.(t := s.t[p := Resumed(s.t[p])]))
      else None
    case Yield(p) => if Runs(s, p) then Some(s.(t := s.t[p := s.t[p].(state := RUNNABLE)])) else None
    case _ => None
  }

  /** None when the action cannot be taken: exit by init panics, and so ends the run. */
  function Step(s: State, act: Action): Option<State>
    requires Shape(s)
  {
    match act
    case Exit(p) =>
      if RunsUser(s, p) && p != INIT then
        Some(s.(t := ExitTable(s.t, p, INIT), exited := s.exited + [s.t[p].pid]))
      else None
    case Wait(p) => if RunsUser(s, p) then Some(DoWait(s, p)) else None
    case WaitAgain(p) =>
      if p < |s.t| && s.t[p].state == RUNNABLE && s.t[p].chan == Slot(p) then
        Some(DoWait(s.(t := s.t[p := Resumed(s.t[p])]), p))
      else None
    case Alloc(_) => DoFork(s, act)
    case Abort(_) => DoFork(s, act)
    case Link(_) => DoFork(s, act)
    case Done(_) => DoFork(s, act)
    case _ => DoSchedule(s, act)
  }

  function Start(nproc: nat): State
    requires 0 < nproc
  {
    State(seq(nproc, i => if i == INIT then Proc(RUNNABLE, 1, None, Null, false) else FREED),
          seq(nproc, _ => User), 2, [], [])
  }

  /** The state after a run, if each of its actions could be taken. */
  function Run(nproc: nat, acts: seq<Action>): (r: Option<State>)
    requires 0 < nproc
    ensures r.Some? ==> Shape(r.value)
  {
    if acts == [] then Some(Start(nproc))
    else
      var r := Run(nproc, acts[..|acts| - 1]);
      if r.Some? then Step(r.value, acts[|acts| - 1]) else None
  }

  // ----- the invariant, slot by slot

  predicate Kin(p: Proc) {
    Live(p) || p.state == ZOMBIE
  }

  /** A process has a live parent, forked before it. */
  predicate HasParent(t: seq<Proc>, q: nat)
    requires q < |t|
  {
    t[q].parent.Some? && t[q].parent.value < |t| && Live(t[t[q].parent.value]) && t[t[q].parent.value].pid < t[q].pid
  }

  predicate ParentOk(s: State, q: nat)
    requires Shape(s) && q < |s.t|
  {
    && (Kin(s.t[q]) && q != INIT ==> HasParent(s.t, q))
    && (s.t[q].state == UNUSED ==> s.t[q].parent == None)
    && (s.t[q].state == EMBRYO ==>
          s.t[q].parent == None || (s.t[q].parent.value < |s.t| && s.doing[s.t[q].parent.value] == Linked(q)))
  }

  /** The slot a fork is filling. */
  predicate Fills(s: State, p: nat, c: nat)
    requires Shape(s) && p < |s.t|
  {
    s.doing[p] == Allocated(c) || s.doing[p] == Linked(c)
  }

  predicate ForkOk(s: State, p: nat)
    requires Shape(s) && p < |s.t|
  {
    s.doing[p] != User ==>
      var c := s.doing[p].child;
      && c < |s.t| && s.t[c].state == EMBRYO
      && s.t[c].parent == (if s.doing[p].Linked? then Some(p) else None)
      && s.t[p].pid < s.t[c].pid
      && (s.t[p].state == RUNNING || s.t[p].state == RUNNABLE) && s.t[p].chan == Null
  }

  ghost predicate Alone(s: State)
    requires Shape(s)
  {
    forall p: nat, p': nat, c: nat ::
      p < |s.t| && p' < |s.t| && Fills(s, p, c) && Fills(s, p', c) ==> p == p'
  }

  predicate HasChild(t: seq<Proc>, p: nat) {
    exists q: nat :: q < |t| && t[q].parent == Some(p) && Kin(t[q])
  }

  predicate InWait(p: Proc) {
    p.state == SLEEPING && p.chan.Slot?
  }

  predicate SleepOk(s: State, p: nat)
    requires Shape(s) && p < |s.t|
  {
    && (s.t[p].state == RUNNING ==> s.t[p].chan == Null)
    && (Live(s.t[p]) && s.t[p].chan.Slot? ==> s.t[p].chan == Slot(p))
    && (!Live(s.t[p]) ==> s.t[p].chan == Null)
    && (InWait(s.t[p]) ==> !s.t[p].killed && HasChild(s.t, p) && !ZombieBelow(s.t, p, |s.t|))
  }

  /** A slot in use has a pid of its own. */
  ghost predicate PidsOk(s: State) {
    && (forall q :: 0 <= q < |s.t| ==> 0 <= s.t[q].pid < s.nextpid && (s.t[q].state != UNUSED ==> 0 < s.t[q].pid))
    && (forall q, r :: 0 <= q < r < |s.t| && s.t[q].pid == s.t[r].pid ==> s.t[q].pid == 0)
  }

  ghost predicate NoDup(s: seq<int>) {
    forall i, j :: 0 <= i < j < |s| ==> s[i] != s[j]
  }

  ghost predicate IsZombie(t: seq<Proc>, pid: int) {
    exists q :: 0 <= q < |t| && t[q].state == ZOMBIE && t[q].pid == pid
  }

  /** Every pid that exited was reaped once, or is still a zombie. */
  ghost predicate LogsOk(s: State) {
    && NoDup(s.exited) && NoDup(s.reaped)
    && (forall pid :: pid in s.reaped ==> pid in s.exited)
    && (forall pid :: pid in s.exited ==> pid < s.nextpid)
    && (forall pid :: pid in s.exited && pid !in s.reaped <==> IsZombie(s.t, pid))
    && (forall q :: 0 <= q < |s.t| && (Live(s.t[q]) || s.t[q].state == EMBRYO) ==> s.t[q].pid !in s.exited)
  }

  ghost predicate Inv(s: State) {
    && Shape(s)
    && Live(s.t[INIT]) && s.t[INIT].parent == None && s.t[INIT].pid == 1
    && (forall q: nat :: q < |s.t| ==> ParentOk(s, q))
    && (forall q: nat :: q < |s.t| ==> ForkOk(s, q))
    && (forall q: nat :: q < |s.t| ==> SleepOk(s, q))
    && Alone(s)
    && PidsOk(s)
    && LogsOk(s)
  }

  // ----- actions that only move processes between SLEEPING, RUNNABLE and RUNNING

  /** Nothing changes in the slot but what the scheduler and kill change. */
  predicate Calm(p: Proc, p': Proc) {
    p'.pid == p.pid && p'.parent == p.parent && (p'.state == p.state || (Live(p) && Live(p')))
  }

  ghost predicate CalmStep(s: State, s': State) {
    && |s'.t| == |s.t| && s' == s.(t := s'.t)
    && (forall q :: 0 <= q < |s.t| ==> Calm(s.t[q], s'.t[q]))
  }

  lemma CalmKids(s: State, s': State, p: nat)
    requires CalmStep(s, s')
    ensures HasChild(s.t, p) ==> HasChild(s'.t, p)
    ensures ZombieBelow(s'.t, p, |s.t|) == ZombieBelow(s.t, p, |s.t|)
  {
    if q: nat :| q < |s.t| && s.t[q].parent == Some(p) && Kin(s.t[q]) {
      assert Calm(s.t[q], s'.t[q]);
      assert s'.t[q].parent == Some(p) && Kin(s'.t[q]);
    }
    forall q: nat | q < |s.t| ensures ZombieChild(s'.t, p, q) == ZombieChild(s.t, p, q) {
      assert Calm(s.t[q], s'.t[q]);
    }
  }

  lemma CalmLogs(s: State, s': State)
    requires LogsOk(s) && CalmStep(s, s')
    ensures LogsOk(s')
  {
    forall pid: int ensures IsZombie(s'.t, pid) <==> IsZombie(s.t, pid) {
      if q :| 0 <= q < |s.t| && s.t[q].state == ZOMBIE && s.t[q].pid == pid {
        assert Calm(s.t[q], s'.t[q]);
      }
      if q :| 0 <= q < |s.t| && s'.t[q].state == ZOMBIE && s'.t[q].pid == pid {
        assert Calm(s.t[q], s'.t[q]);
      }
    }
    forall q | 0 <= q < |s.t| && (Live(s'.t[q]) || s'.t[q].state == EMBRYO) ensures s'.t[q].pid !in s.exited {
      assert Calm(s.t[q], s'.t[q]);
    }
  }

  lemma CalmParents(s: State, s': State, q: nat)
    requires Shape(s) && CalmStep(s, s') && q < |s.t| && ParentOk(s, q)
    ensures ParentOk(s', q)
  {
    assert Calm(s.t[q], s'.t[q]);
    if s.t[q].parent.Some? && s.t[q].parent.value < |s.t| {
      assert Calm(s.t[s.t[q].parent.value], s'.t[s.t[q].parent.value]);
    }
  }

  lemma CalmForks(s: State, s': State, q: nat)
    requires Inv(s) && CalmStep(s, s') && q < |s.t|
    requires s.doing[q] != User ==> s'.t[q].chan == Null && s'.t[q].state != SLEEPING
    ensures ForkOk(s', q)
  {
    assert ForkOk(s, q);
    if s.doing[q] != User {
      assert Calm(s.t[q], s'.t[q]) && Calm(s.t[s.doing[q].child], s'.t[s.doing[q].child]);
    }
  }

  /** What the scheduler owes the slot's process. */
  predicate Rested(s: State, s': State, q: nat)
    requires Shape(s) && |s'.t| == |s.t| && q < |s.t|
  {
    && (s.doing[q] != User ==> s'.t[q].chan == Null && s'.t[q].state != SLEEPING)
    && (s'.t[q].state == RUNNING ==> s'.t[q].chan == Null)
    && (Live(s'.t[q]) && s'.t[q].chan.Slot? ==> s'.t[q].chan == Slot(q))
    && (!Live(s'.t[q]) ==> s'.t[q].chan == Null)
    && (InWait(s'.t[q]) ==> !s'.t[q].killed && HasChild(s.t, q) && !ZombieBelow(s.t, q, |s.t|))
  }

  lemma CalmKeeps(s: State, s': State)
    requires Inv(s) && CalmStep(s, s')
    requires forall q: nat :: q < |s.t| ==> Rested(s, s', q)
    ensures Inv(s')
  {
    hide LogsOk, ParentOk, ForkOk, HasChild, ZombieBelow;
    CalmLogs(s, s');
    forall q: nat | q < |s.t| ensures ParentOk(s', q) && ForkOk(s', q) && SleepOk(s', q) {
      assert Rested(s, s', q);
      CalmParents(s, s', q);
      CalmForks(s, s', q);
      CalmKids(s, s', q);
    }
    assert Calm(s.t[INIT], s'.t[INIT]);
    CalmRest(s, s');
  }

  lemma CalmRest(s: State, s': State)
    requires Inv(s) && CalmStep(s, s')
    ensures Alone(s') && PidsOk(s')
  {
    hide LogsOk, ParentOk, ForkOk, SleepOk;
    forall q | 0 <= q < |s.t| ensures s'.t[q].pid == s.t[q].pid && (s'.t[q].state != UNUSED ==> s.t[q].state != UNUSED) {
      assert Calm(s.t[q], s'.t[q]);
    }
    forall p: nat, p': nat, c: nat | p < |s.t| && p' < |s.t| && Fills(s', p, c) && Fills(s', p', c) ensures p == p' {
      assert Fills(s, p, c) && Fills(s, p', c);
    }
  }

  lemma Schedules(s: State, act: Action, s': State)
    requires Inv(s) && DoSchedule(s, act) == Some(s')
    ensures Inv(s')
  {
    hide LogsOk, ParentOk, ForkOk, HasChild, ZombieBelow, PidsOk, Alone;
    forall q: nat | q < |s.t| && s.doing[q] != User ensures s.t[q].chan == Null && s.t[q].state != SLEEPING {
      Forking(s, q);
    }
    forall q: nat | q < |s.t| ensures Calm(s.t[q], s'.t[q]) && Rested(s, s', q) {
      assert SleepOk(s, q);
    }
    CalmKeeps(s, s');
  }

  lemma Forking(s: State, q: nat)
    requires Inv(s) && q < |s.t| && s.doing[q] != User
    ensures s.t[q].chan == Null && s.t[q].state != SLEEPING
  {
    assert ForkOk(s, q);
  }

  // ----- fork

  /** One slot changes and stays free of zombies: what the other slots know of their children holds. */
  lemma SlotKids(t: seq<Proc>, c: nat, x: Proc, p: nat)
    requires c < |t| && x.state != ZOMBIE && (!Kin(t[c]) || t[c].parent != Some(p))
    ensures HasChild(t, p) ==> HasChild(t[c := x], p)
    ensures ZombieBelow(t[c := x], p, |t|) ==> ZombieBelow(t, p, |t|)
  {
    var u := t[c := x];
    if q: nat :| q < |t| && t[q].parent == Some(p) && Kin(t[q]) {
      assert u[q].parent == Some(p) && Kin(u[q]);
    }
    if q: nat :| q < |t| && ZombieChild(u, p, q) {
      assert ZombieChild(t, p, q);
    }
  }

  /** A slot that fork moves between UNUSED, EMBRYO and RUNNABLE. */
  ghost predicate ForkStep(s: State, p: nat, c: nat, x: Proc, d: Doing, s': State)
    requires Shape(s)
  {
    && p < |s.t| && c < |s.t| && p != c
    && Runs(s, p) && !Kin(s.t[c]) && x.state != ZOMBIE && x.chan == Null
    && s'.t == s.t[c := x] && s'.doing == s.doing[p := d]
    && s'.exited == s.exited && s'.reaped == s.reaped
  }

  lemma ForkSleeps(s: State, p: nat, c: nat, x: Proc, d: Doing, s': State, q: nat)
    requires Inv(s) && ForkStep(s, p, c, x, d, s') && q < |s.t|
    ensures SleepOk(s', q)
  {
    hide LogsOk, ParentOk, ForkOk, HasChild, ZombieBelow, PidsOk, Alone;
    assert SleepOk(s, q);
    SlotKids(s.t, c, x, q);
  }

  lemma ForkLogs(s: State, p: nat, c: nat, x: Proc, d: Doing, s': State)
    requires Inv(s) && ForkStep(s, p, c, x, d, s') && s.nextpid <= s'.nextpid
    requires x.state != UNUSED ==> x.pid !in s.exited
    ensures LogsOk(s')
  {
    hide ParentOk, ForkOk, SleepOk, PidsOk, Alone;
    forall pid: int ensures IsZombie(s'.t, pid) <==> IsZombie(s.t, pid) {
      if q :| 0 <= q < |s.t| && s.t[q].state == ZOMBIE && s.t[q].pid == pid {
        assert s'.t[q] == s.t[q];
      }
      if q :| 0 <= q < |s.t| && s'.t[q].state == ZOMBIE && s'.t[q].pid == pid {
        assert s'.t[q] == s.t[q];
      }
    }
  }

  lemma SlotFacts(s: State, q: nat)
    requires Inv(s) && q < |s.t|
    ensures s.t[q].state == RUNNING || !Live(s.t[q]) ==> s.t[q].chan == Null
    ensures Live(s.t[q]) || s.t[q].state == EMBRYO ==> s.t[q].pid !in s.exited
    ensures s.nextpid !in s.exited
  {
    assert SleepOk(s, q);
  }

  lemma AllocKeeps(s: State, p: nat)
    requires Inv(s) && RunsUser(s, p)
    ensures Inv(DoAlloc(s, p))
  {
    hide HasChild, ZombieBelow, SleepOk, LogsOk, PidsOk;
    var s' := DoAlloc(s, p);
    var c := FindUnused(s.t, 0);
    if c < |s.t| {
      var x := s'.t[c];
      NewPid(s);
      PidsGrow(s, c, x, s');
      assert ParentOk(s, c) && ForkOk(s, c);
      SlotFacts(s, c);
      SlotFacts(s, p);
      assert ForkStep(s, p, c, x, Allocated(c), s');
      ForkLogs(s, p, c, x, Allocated(c), s');
      forall q: nat | q < |s.t| ensures ParentOk(s', q) && ForkOk(s', q) && SleepOk(s', q) {
        assert ParentOk(s, q) && ForkOk(s, q);
        ForkSleeps(s, p, c, x, Allocated(c), s', q);
      }
      forall a: nat, b: nat, e: nat | a < |s.t| && b < |s.t| && Fills(s', a, e) && Fills(s', b, e) ensures a == b {
        assert ForkOk(s, a) && ForkOk(s, b);
        assert (Fills(s, a, e) && Fills(s, b, e)) || a == p || b == p;
      }
    }
  }

  lemma PidsGrow(s: State, c: nat, x: Proc, s': State)
    requires PidsOk(s) && c < |s.t| && x.pid == s.nextpid && 0 < s.nextpid
    requires s'.t == s.t[c := x] && s'.nextpid == s.nextpid + 1
    ensures PidsOk(s')
  {
  }

  lemma AbortKeeps(s: State, p: nat, s': State)
    requires Inv(s) && DoFork(s, Abort(p)) == Some(s')
    ensures Inv(s')
  {
    hide HasChild, ZombieBelow, SleepOk, LogsOk;
    var c := s.doing[p].child;
    assert ForkOk(s, p);
    ForkEnds(s, p, c, s'.t[c], User, s');
  }

  lemma LinkKeeps(s: State, p: nat, s': State)
    requires Inv(s) && DoFork(s, Link(p)) == Some(s')
    ensures Inv(s')
  {
    hide HasChild, ZombieBelow, SleepOk, LogsOk;
    var c := s.doing[p].child;
    assert ForkOk(s, p);
    ForkEnds(s, p, c, s'.t[c], Linked(c), s');
  }

  lemma DoneKeeps(s: State, p: nat, s': State)
    requires Inv(s) && DoFork(s, Done(p)) == Some(s')
    ensures Inv(s')
  {
    hide HasChild, ZombieBelow, SleepOk, LogsOk;
    var c := s.doing[p].child;
    assert ForkOk(s, p);
    ForkEnds(s, p, c, s'.t[c], User, s');
  }

  lemma PidsMove(s: State, c: nat, x: Proc)
    requires PidsOk(s) && c < |s.t| && s.t[c].state == EMBRYO && x.pid == s.t[c].pid
    ensures forall u: State :: u.t == s.t[c := x] && u.nextpid == s.nextpid ==> PidsOk(u)
  {
  }

  /** The later steps of a fork, all on the embryo it has allocated. */
  lemma ForkEnds(s: State, p: nat, c: nat, x: Proc, d: Doing, s': State)
    requires Inv(s) && Runs(s, p) && p < |s.t| && Fills(s, p, c) && c < |s.t|
    requires s'.t == s.t[c := x] && s' == s.(t := s'.t, doing := s.doing[p := d])
    requires x.pid == s.t[c].pid && x.chan == s.t[c].chan
    requires || (x.state == UNUSED && d == User && x.parent == None)
             || (x.state == EMBRYO && d == Linked(c) && x.parent == Some(p))
             || (x.state == RUNNABLE && d == User && x.parent == Some(p))
    ensures Inv(s')
  {
    hide HasChild, ZombieBelow, SleepOk, LogsOk, PidsOk;
    assert ForkOk(s, p) && ForkOk(s, c);
    SlotFacts(s, c);
    PidsMove(s, c, x);
    assert ForkStep(s, p, c, x, d, s');
    ForkLogs(s, p, c, x, d, s');
    forall q: nat | q < |s.t| ensures ParentOk(s', q) && ForkOk(s', q) && SleepOk(s', q) {
      assert ParentOk(s, q) && ForkOk(s, q);
      assert q != p && s.doing[q] != User ==> s.doing[q].child != c by {
        assert q != p && s.doing[q] != User ==> Fills(s, q, s.doing[q].child) && Fills(s, p, c);
      }
      ForkSleeps(s, p, c, x, d, s', q);
    }
    forall a: nat, b: nat, e: nat | a < |s.t| && b < |s.t| && Fills(s', a, e) && Fills(s', b, e) ensures a == b {
      assert Fills(s, a, e) && Fills(s, b, e);
    }
  }

  // ----- wait

  /** In a table where the invariant holds, any slot with a parent pointer to a process outside fork is its child. */
  lemma ChildIsKin(s: State, p: nat, q: nat)
    requires Inv(s) && p < |s.t| && q < |s.t| && s.doing[p] == User && s.t[q].parent == Some(p)
    ensures Kin(s.t[q])
  {
    assert ParentOk(s, q);
  }

  lemma ReapSleeps(s: State, p: nat, z: nat, x: Proc, s': State, q: nat)
    requires Inv(s) && RunsUser(s, p) && z < |s.t| && ZombieChild(s.t, p, z) && q < |s.t|
    requires x == FREED.(chan := s.t[z].chan) && s' == s.(t := s.t[z := x], reaped := s'.reaped)
    ensures SleepOk(s', q)
  {
    hide LogsOk, ParentOk, ForkOk, HasChild, ZombieBelow, PidsOk, Alone;
    assert SleepOk(s, q) && SleepOk(s, z);
    if q != p {
      SlotKids(s.t, z, x, q);
    }
  }

  lemma ReapLogs(s: State, z: nat, s': State)
    requires Inv(s) && z < |s.t| && s.t[z].state == ZOMBIE
    requires s' == s.(t := s.t[z := FREED.(chan := s.t[z].chan)], reaped := s.reaped + [s.t[z].pid])
    ensures LogsOk(s')
  {
    hide ParentOk, ForkOk, SleepOk, Alone;
    var pz := s.t[z].pid;
    assert IsZombie(s.t, pz);
    forall pid: int ensures IsZombie(s'.t, pid) <==> IsZombie(s.t, pid) && pid != pz {
      if q :| 0 <= q < |s.t| && s.t[q].state == ZOMBIE && s.t[q].pid == pid && pid != pz {
        assert s'.t[q] == s.t[q];
      }
      if q :| 0 <= q < |s.t| && s'.t[q].state == ZOMBIE && s'.t[q].pid == pid {
        assert s'.t[q] == s.t[q] && q != z;
      }
    }
  }

  lemma ReapKeeps(s: State, p: nat, z: nat, s': State)
    requires Inv(s) && RunsUser(s, p) && z < |s.t| && ZombieChild(s.t, p, z)
    requires s' == s.(t := s.t[z := FREED.(chan := s.t[z].chan)], reaped := s.reaped + [s.t[z].pid])
    ensures Inv(s')
  {
    hide HasChild, ZombieBelow, SleepOk, LogsOk;
    var x := s'.t[z];
    ReapLogs(s, z, s');
    forall q: nat | q < |s.t| ensures ParentOk(s', q) && ForkOk(s', q) && SleepOk(s', q) {
      assert ParentOk(s, q) && ForkOk(s, q);
      ReapSleeps(s, p, z, x, s', q);
    }
    forall a: nat, b: nat, e: nat | a < |s.t| && b < |s.t| && Fills(s', a, e) && Fills(s', b, e) ensures a == b {
      assert Fills(s, a, e) && Fills(s, b, e);
    }
  }

  lemma WaitKeeps(s: State, p: nat)
    requires Inv(s) && RunsUser(s, p)
    ensures Inv(DoWait(s, p))
  {
    hide LogsOk, ParentOk, ForkOk, SleepOk, PidsOk, Alone;
    var s' := DoWait(s, p);
    var z := FindZombie(s.t, p, 0);
    if z < |s.t| {
      ReapKeeps(s, p, z, s');
    } else if ChildBelow(s.t, p, |s.t|) && !s.t[p].killed {
      WaitSleeps(s, p, s');
    } else {
      assert s' == s;
    }
  }

  lemma WaitSleeps(s: State, p: nat, s': State)
    requires Inv(s) && RunsUser(s, p) && FindZombie(s.t, p, 0) == |s.t|
    requires ChildBelow(s.t, p, |s.t|) && !s.t[p].killed
    requires s' == s.(t := s.t[p := s.t[p].(chan := Slot(p), state := SLEEPING)])
    ensures Inv(s')
  {
    hide LogsOk, ParentOk, ForkOk, PidsOk, Alone, FindZombie;
    var q: nat :| q < |s.t| && s.t[q].parent == Some(p);
    ChildIsKin(s, p, q);
    forall q: nat | q < |s.t| && s.doing[q] != User ensures s.t[q].chan == Null && s.t[q].state != SLEEPING {
      Forking(s, q);
    }
    forall q: nat | q < |s.t| ensures Calm(s.t[q], s'.t[q]) && Rested(s, s', q) {
      assert SleepOk(s, q);
    }
    CalmKeeps(s, s');
  }

  lemma WaitAgainKeeps(s: State, p: nat, s': State)
    requires Inv(s) && Step(s, WaitAgain(p)) == Some(s')
    ensures Inv(s')
  {
    hide LogsOk, ParentOk, PidsOk, Alone, HasChild, ZombieBelow;
    var s1 := s.(t := s.t[p := Resumed(s.t[p])]);
    forall q: nat | q < |s.t| && s.doing[q] != User ensures s.t[q].chan == Null && s.t[q].state != SLEEPING {
      Forking(s, q);
    }
    forall q: nat | q < |s.t| ensures Calm(s.t[q], s1.t[q]) && Rested(s, s1, q) {
      assert SleepOk(s, q);
    }
    CalmKeeps(s, s1);
    WaitKeeps(s1, p);
  }

  // ----- exit

  /** One slot across exit. */
  lemma ExitSlot(t: seq<Proc>, me: nat, i: nat)
    requires me < |t| && i < |t|
    ensures var x := ExitTable(t, me, INIT)[i];
      && x.pid == t[i].pid && x.chan == t[i].chan && x.killed == t[i].killed
      && x.parent == (if t[i].parent == Some(me) then Some(INIT) else t[i].parent)
      && (if i == me then x.state == ZOMBIE
          else x.state == t[i].state || (t[i].state == SLEEPING && x.state == RUNNABLE))
      && (x.state == SLEEPING ==>
            t[i].chan != AsChan(t[me].parent) && (ZombieBelow(t, me, |t|) ==> t[i].chan != Slot(INIT)))
  {
  }

  lemma ExitParents(s: State, p: nat, s': State, q: nat)
    requires Inv(s) && RunsUser(s, p) && p != INIT && q < |s.t|
    requires s' == s.(t := ExitTable(s.t, p, INIT), exited := s'.exited)
    ensures ParentOk(s', q) && ForkOk(s', q) && s'.t[q].pid == s.t[q].pid
  {
    hide LogsOk, SleepOk, Alone, HasChild, ZombieBelow, Abandoned, ExitTable;
    assert ParentOk(s, q) && ForkOk(s, q) && ParentOk(s, p);
    ExitSlot(s.t, p, q);
    ExitSlot(s.t, p, INIT);
    if s.t[q].parent.Some? && s.t[q].parent.value < |s.t| {
      ExitSlot(s.t, p, s.t[q].parent.value);
    }
    if s.doing[q] != User {
      ExitSlot(s.t, p, s.doing[q].child);
    }
  }

  lemma NotOwnParent(s: State, p: nat)
    requires Inv(s) && p < |s.t| && Kin(s.t[p])
    ensures s.t[p].parent != Some(p)
  {
    assert ParentOk(s, p);
  }

  lemma ExitSleeps(s: State, p: nat, s': State, q: nat)
    requires Inv(s) && RunsUser(s, p) && p != INIT && q < |s.t|
    requires s' == s.(t := ExitTable(s.t, p, INIT), exited := s'.exited)
    ensures SleepOk(s', q)
  {
    hide LogsOk, ForkOk, PidsOk, Alone, ParentOk, Abandoned, ExitTable;
    assert SleepOk(s, q) && SleepOk(s, p);
    NotOwnParent(s, p);
    ExitSlot(s.t, p, q);
    if InWait(s'.t[q]) {
      var w: nat :| w < |s.t| && s.t[w].parent == Some(q) && Kin(s.t[w]);
      ExitSlot(s.t, p, w);
      assert s'.t[w].parent == Some(q) && Kin(s'.t[w]);
      forall w: nat | w < |s.t| ensures !ZombieChild(s'.t, q, w) {
        ExitSlot(s.t, p, w);
        assert !ZombieChild(s.t, q, w);
        assert ZombieChild(s.t, p, w) ==> ZombieBelow(s.t, p, |s.t|);
      }
    }
  }

  lemma ExitLogs(s: State, p: nat, s': State)
    requires Inv(s) && RunsUser(s, p)
    requires s' == s.(t := ExitTable(s.t, p, INIT), exited := s.exited + [s.t[p].pid])
    ensures LogsOk(s')
  {
    hide ParentOk, ForkOk, SleepOk, Alone, ZombieBelow, Abandoned, ExitTable;
    forall q: nat | q < |s.t|
      ensures s'.t[q].pid == s.t[q].pid && (s'.t[q].state == ZOMBIE <==> q == p || s.t[q].state == ZOMBIE)
      ensures Live(s'.t[q]) || s'.t[q].state == EMBRYO ==> q != p && (Live(s.t[q]) || s.t[q].state == EMBRYO)
    {
      ExitSlot(s.t, p, q);
    }
    assert s.t[p].pid !in s.exited;
    forall pid: int ensures IsZombie(s'.t, pid) <==> IsZombie(s.t, pid) || pid == s.t[p].pid {
      if pid == s.t[p].pid {
        assert s'.t[p].state == ZOMBIE && s'.t[p].pid == pid;
      }
      if q :| 0 <= q < |s.t| && s.t[q].state == ZOMBIE && s.t[q].pid == pid {
        assert s'.t[q].state == ZOMBIE && s'.t[q].pid == pid;
      }
      if q :| 0 <= q < |s.t| && s'.t[q].state == ZOMBIE && s'.t[q].pid == pid {
        assert q == p || s.t[q].state == ZOMBIE;
      }
    }
  }

  lemma ExitKeeps(s: State, p: nat, s': State)
    requires Inv(s) && Step(s, Exit(p)) == Some(s')
    ensures Inv(s')
  {
    hide HasChild, ZombieBelow, SleepOk, LogsOk, ParentOk, ForkOk;
    ExitLogs(s, p, s');
    forall q: nat | q < |s.t| ensures ParentOk(s', q) && ForkOk(s', q) && SleepOk(s', q) && s'.t[q].pid == s.t[q].pid {
      ExitParents(s, p, s', q);
      ExitSleeps(s, p, s', q);
    }
    forall a: nat, b: nat, e: nat | a < |s.t| && b < |s.t| && Fills(s', a, e) && Fills(s', b, e) ensures a == b {
      assert Fills(s, a, e) && Fills(s, b, e);
    }
  }

  // ----- runs

  lemma StartInv(nproc: nat)
    requires 0 < nproc
    ensures Inv(Start(nproc))
  {
  }

  lemma StepKeeps(s: State, act: Action, s': State)
    requires Inv(s) && Step(s, act) == Some(s')
    ensures Inv(s')
  {
    hide LogsOk, ParentOk, ForkOk, SleepOk, PidsOk, Alone;
    match act
    case Alloc(p) => AllocKeeps(s, p);
    case Abort(p) => AbortKeeps(s, p, s');
    case Link(p) => LinkKeeps(s, p, s');
    case Done(p) => DoneKeeps(s, p, s');
    case Exit(p) => ExitKeeps(s, p, s');
    case Wait(p) => WaitKeeps(s, p);
    case WaitAgain(p) => WaitAgainKeeps(s, p, s');
    case _ => Schedules(s, act, s');
  }

  lemma {:induction false} RunKeeps(nproc: nat, acts: seq<Action>)
    requires 0 < nproc && Run(nproc, acts).Some?
    ensures Inv(Run(nproc, acts).value) && |Run(nproc, acts).value.t| == nproc
  {
    hide Inv;
    if acts == [] {
      StartInv(nproc);
    } else {
      RunKeeps(nproc, acts[..|acts| - 1]);
      StepKeeps(Run(nproc, acts[..|acts| - 1]).value, acts[|acts| - 1], Run(nproc, acts).value);
    }
  }

  // ----- what every run guarantees

  /** The n-th parent of q. */
  function Ancestor(t: seq<Proc>, q: nat, n: nat): Option<nat>
    decreases n
  {
    if n == 0 then Some(q)
    else if q < |t| && t[q].parent.Some? then Ancestor(t, t[q].parent.value, n - 1)
    else None
  }

  /** Parents lead to init, in no more steps than the pid says. */
  lemma {:induction false} LineToInit(s: State, q: nat) returns (n: nat)
    requires Inv(s) && q < |s.t| && Kin(s.t[q])
    ensures Ancestor(s.t, q, n) == Some(INIT) && n < s.t[q].pid
    decreases s.t[q].pid
  {
    hide LogsOk, ForkOk, SleepOk, Alone;
    assert ParentOk(s, q);
    if q == INIT {
      n := 0;
    } else {
      n := LineToInit(s, s.t[q].parent.value);
      n := n + 1;
    }
  }

  lemma Tree(nproc: nat, acts: seq<Action>, q: nat)
    requires 0 < nproc && Run(nproc, acts).Some? && q < nproc
    ensures var t := Run(nproc, acts).value.t;
      && |t| == nproc
      && Live(t[INIT])
      && (Kin(t[q]) && q != INIT ==>
            t[q].parent.Some? && t[q].parent.value < nproc && Live(t[t[q].parent.value]))
      && (Kin(t[q]) ==> exists n: nat :: Ancestor(t, q, n) == Some(INIT))
  {
    hide LogsOk, ForkOk, SleepOk, Alone, Run, Step;
    RunKeeps(nproc, acts);
    var s := Run(nproc, acts).value;
    assert ParentOk(s, q);
    if Kin(s.t[q]) {
      var n := LineToInit(s, q);
    }
  }

  /** No exit is missed: who sleeps in wait has a child, none of them a zombie, and has not been killed. */
  lemma NoMissedExit(nproc: nat, acts: seq<Action>, p: nat)
    requires 0 < nproc && Run(nproc, acts).Some? && p < nproc
    ensures var t := Run(nproc, acts).value.t;
      && |t| == nproc
      && (InWait(t[p]) ==>
            && t[p].chan == Slot(p) && !t[p].killed
            && (exists q: nat :: q < nproc && t[q].parent == Some(p) && Live(t[q]))
            && (forall q: nat :: q < nproc && t[q].parent == Some(p) ==> t[q].state != ZOMBIE))
  {
    hide LogsOk, ForkOk, ParentOk, Alone, Run, Step;
    RunKeeps(nproc, acts);
    var s := Run(nproc, acts).value;
    assert SleepOk(s, p);
    if InWait(s.t[p]) {
      forall q: nat | q < nproc && s.t[q].parent == Some(p) ensures s.t[q].state != ZOMBIE {
        assert !ZombieChild(s.t, p, q);
      }
    }
  }

  /** Conservation: no pid exits twice or is reaped twice, and what exited is reaped or still a zombie. */
  lemma ReapedOnce(nproc: nat, acts: seq<Action>)
    requires 0 < nproc && Run(nproc, acts).Some?
    ensures var s := Run(nproc, acts).value;
      && NoDup(s.exited) && NoDup(s.reaped)
      && (forall pid :: pid in s.reaped ==> pid in s.exited)
      && (forall pid :: pid in s.exited && pid !in s.reaped <==> IsZombie(s.t, pid))
  {
    RunKeeps(nproc, acts);
  }

  /** wait with a zombie child returns the pid of one, never returned before. */
  lemma WaitReaps(nproc: nat, acts: seq<Action>, p: nat, z: nat)
    requires 0 < nproc && Run(nproc, acts).Some?
    requires RunsUser(Run(nproc, acts).value, p) && z < |Run(nproc, acts).value.t|
    requires ZombieChild(Run(nproc, acts).value.t, p, z)
    ensures var s := Run(nproc, acts).value;
      exists y: nat :: y < |s.t| && ZombieChild(s.t, p, y) && s.t[y].pid in s.exited && s.t[y].pid !in s.reaped
        && WaitPass(s.t, p).1 == Reaped(s.t[y].pid)
  {
    hide ForkOk, ParentOk, SleepOk, Alone, Run, Step;
    RunKeeps(nproc, acts);
    var s := Run(nproc, acts).value;
    var y := FindZombie(s.t, p, 0);
    assert y <= z;
    assert IsZombie(s.t, s.t[y].pid);
  }

  /** Over every run: wait returns -1 if and only if the caller has no living or zombie child, or has been killed and has
      no zombie child; it sleeps if and only if it has children, none of them a zombie, and has not been killed.  In those
      two cases nothing else changes.  The table is the one that the scan sees, after the scheduler has resumed p. */
  lemma WaitAnswers(nproc: nat, acts: seq<Action>, act: Action, p: nat)
    requires 0 < nproc && Run(nproc, acts + [act]).Some? && (act == Wait(p) || act == WaitAgain(p))
    ensures Run(nproc, acts).Some? && p < nproc == |Run(nproc, acts).value.t|
    ensures var s, s' := Run(nproc, acts).value, Run(nproc, acts + [act]).value;
      var t := s.t[p := Resumed(s.t[p])];
      var r := WaitPass(t, p).1;
      && Answers(t, p, s'.t, r)
      && (r.Nobody? <==> !HasChild(t, p) || (t[p].killed && !ZombieBelow(t, p, nproc)))
      && (r.Slept? <==> HasChild(t, p) && !t[p].killed && !ZombieBelow(t, p, nproc))
      && s' == s.(t := s'.t, reaped := if r.Reaped? then s.reaped + [r.pid] else s.reaped)
  {
    hide LogsOk, ParentOk, ForkOk, PidsOk, Alone, SleepOk, Answers, Run;
    assert (acts + [act])[..|acts|] == acts;
    RunSteps(nproc, acts, act);
    RunKeeps(nproc, acts);
    var s := Run(nproc, acts).value;
    var t := s.t[p := Resumed(s.t[p])];
    RunningIs(s, p);
    WaitMeans(t, p);
    WaitKin(s, act, p, t);
    AnswersByKin(t, p, WaitPass(t, p).0, WaitPass(t, p).1);
  }

  lemma RunSteps(nproc: nat, acts: seq<Action>, act: Action)
    requires 0 < nproc && Run(nproc, acts + [act]).Some?
    ensures Run(nproc, acts).Some? && Step(Run(nproc, acts).value, act) == Run(nproc, acts + [act])
  {
    assert (acts + [act])[..|acts|] == acts;
  }

  /** Resuming a process that runs changes nothing. */
  lemma RunningIs(s: State, p: nat)
    requires Inv(s) && p < |s.t|
    ensures s.t[p].state == RUNNING ==> s.t[p := Resumed(s.t[p])] == s.t
  {
    assert SleepOk(s, p);
  }

  /** The children that wait looks at are alive or zombies. */
  lemma WaitKin(s: State, act: Action, p: nat, t: seq<Proc>)
    requires Inv(s) && Step(s, act).Some? && (act == Wait(p) || act == WaitAgain(p))
    requires p < |s.t| && t == s.t[p := Resumed(s.t[p])]
    ensures forall q: nat :: q < |t| && t[q].parent == Some(p) ==> Kin(t[q])
  {
    hide LogsOk, ParentOk, PidsOk, Alone, SleepOk;
    assert ForkOk(s, p);
    forall q: nat | q < |t| && t[q].parent == Some(p) ensures Kin(t[q]) {
      ChildIsKin(s, p, q);
    }
  }

  lemma AnswersByKin(t: seq<Proc>, p: nat, t': seq<Proc>, r: WaitResult)
    requires Answers(t, p, t', r) && forall q: nat :: q < |t| && t[q].parent == Some(p) ==> Kin(t[q])
    ensures r.Nobody? <==> !HasChild(t, p) || (t[p].killed && !ZombieBelow(t, p, |t|))
    ensures r.Slept? <==> HasChild(t, p) && !t[p].killed && !ZombieBelow(t, p, |t|)
  {
    if q: nat :| q < |t| && t[q].parent == Some(p) && t[q].state == ZOMBIE {
      assert ZombieChild(t, p, q);
      assert Kin(t[q]);
    } else {
      assert forall q: nat :: q < |t| ==> !ZombieChild(t, p, q);
    }
  }

  /** A zombie leaves the table only through a wait of its parent, which returns its pid. */
  lemma OnlyParentReaps(nproc: nat, acts: seq<Action>, act: Action, z: nat)
    requires 0 < nproc && Run(nproc, acts + [act]).Some? && z < nproc
    ensures Run(nproc, acts).Some?
    ensures var s := Run(nproc, acts).value; var s' := Run(nproc, acts + [act]).value;
      && |s'.t| == |s.t| == nproc
      && (s.t[z].state == ZOMBIE ==>
            || (s'.t[z].state == ZOMBIE && s'.t[z].pid == s.t[z].pid)
            || (exists p: nat :: s.t[z].parent == Some(p) && (act == Wait(p) || act == WaitAgain(p))
                  && s'.reaped == s.reaped + [s.t[z].pid]))
  {
    assert (acts + [act])[..|acts|] == acts;
    RunKeeps(nproc, acts);
    ZombieStays(Run(nproc, acts).value, act, Run(nproc, acts + [act]).value, z);
  }

  lemma ZombieStays(s: State, act: Action, s': State, z: nat)
    requires Inv(s) && Step(s, act) == Some(s') && z < |s.t|
    ensures |s'.t| == |s.t|
    ensures s.t[z].state == ZOMBIE ==>
      || (s'.t[z].state == ZOMBIE && s'.t[z].pid == s.t[z].pid)
      || (exists p: nat :: s.t[z].parent == Some(p) && (act == Wait(p) || act == WaitAgain(p))
            && s'.reaped == s.reaped + [s.t[z].pid])
  {
    hide ParentOk, SleepOk, Alone, LogsOk, PidsOk, HasChild;
    match act
    case Abort(p) => assert ForkOk(s, p);
    case Link(p) => assert ForkOk(s, p);
    case Done(p) => assert ForkOk(s, p);
    case _ =>
  }

  /** kill reaches the process it names, even one asleep, and nobody else; with no such process it does nothing. */
  lemma KillHits(nproc: nat, acts: seq<Action>, pid: int)
    requires 0 < nproc && Run(nproc, acts).Some? && pid > 0
    ensures var s := Run(nproc, acts).value;
      && Step(s, Kill(pid)).Some? && Step(s, Kill(pid)).value == s.(t := KillTable(s.t, pid))
      && (forall q :: 0 <= q < |s.t| && s.t[q].pid == pid ==>
            KillTable(s.t, pid) ==
              s.t[q := s.t[q].(killed := true, state := if s.t[q].state == SLEEPING then RUNNABLE else s.t[q].state)])
      && ((forall q :: 0 <= q < |s.t| ==> s.t[q].pid != pid) ==> KillTable(s.t, pid) == s.t)
  {
    hide ForkOk, ParentOk, SleepOk, Alone, LogsOk, Run;
    RunKeeps(nproc, acts);
  }

  /** wakeup makes exactly the processes that sleep on the channel runnable. */
  lemma WakeupHits(nproc: nat, acts: seq<Action>, a: nat)
    requires 0 < nproc && Run(nproc, acts).Some?
    ensures var s := Run(nproc, acts).value;
      && Step(s, Wakeup(a)).Some? && var s' := Step(s, Wakeup(a)).value;
      && s' == s.(t := s'.t) && |s'.t| == |s.t|
      && forall q :: 0 <= q < |s.t| ==>
           s'.t[q] == if s.t[q].state == SLEEPING && s.t[q].chan == Other(a) then s.t[q].(state := RUNNABLE) else s.t[q]
  {
  }

  /** A process that goes to sleep stays asleep until its channel is woken; the scheduler can then resume it as it was. */
  lemma SleepWakePick(nproc: nat, acts: seq<Action>, p: nat, a: nat, b: nat)
    requires 0 < nproc && Run(nproc, acts).Some? && RunsUser(Run(nproc, acts).value, p) && a != b
    ensures var s := Run(nproc, acts).value;
      && Step(s, Sleep(p, a)).Some? && var s1 := Step(s, Sleep(p, a)).value;
      && Shape(s1) && Step(s1, Pick(p)) == None && Step(s1, Wait(p)) == None && Step(s1, Exit(p)) == None
      && Step(s1, Wakeup(b)).Some? && p < |Step(s1, Wakeup(b)).value.t|
      && Step(s1, Wakeup(b)).value.t[p].state == SLEEPING
      && Step(s1, Wakeup(a)).Some? && var s2 := Step(s1, Wakeup(a)).value;
      && Shape(s2) && Step(s2, Pick(p)).Some? && var s3 := Step(s2, Pick(p)).value;
      && |s3.t| == |s.t| && s3.t[p] == s.t[p]
  {
    hide Run, Inv;
    RunKeeps(nproc, acts);
    RunningIs(Run(nproc, acts).value, p);
    var s := Run(nproc, acts).value;
    assert s.t[p := Resumed(s.t[p])][p] == s.t[p];
  }

  /** The processes that may take each action: one that runs, is in fork, or waits to be picked. */
  predicate May(s: State, act: Action)
    requires Shape(s)
  {
    match act
    case Alloc(p) => RunsUser(s, p)
    case Abort(p) => Runs(s, p) && s.doing[p].Allocated?
    case Link(p) => Runs(s, p) && s.doing[p].Allocated?
    case Done(p) => Runs(s, p) && s.doing[p].Linked?
    case Exit(p) => RunsUser(s, p) && p != INIT
    case Wait(p) => RunsUser(s, p)
    case WaitAgain(p) => p < |s.t| && s.t[p].state == RUNNABLE && s.t[p].chan == Slot(p)
    case Sleep(p, _) => RunsUser(s, p)
    case Wakeup(_) => true
    case Kill(_) => true
    case Mark(p) => Runs(s, p)
    case Pick(p) => p < |s.t| && s.t[p].state == RUNNABLE && s.t[p].chan != Slot(p)
    case Yield(p) => Runs(s, p)
  }

  /** Over every run: an action is taken just when its process is where the action belongs.  The scheduler resumes any
      runnable process, inside wait or not; a trap marks the process that runs, and a yield makes it runnable. */
  lemma TakenIff(nproc: nat, acts: seq<Action>, act: Action, p: nat)
    requires 0 < nproc && Run(nproc, acts).Some?
    ensures var s := Run(nproc, acts).value;
      && (Step(s, act).Some? <==> May(s, act))
      && (p < nproc == |s.t| && s.t[p].state == RUNNABLE ==> May(s, Pick(p)) || May(s, WaitAgain(p)))
      && (Runs(s, p) ==>
            && Step(s, Mark(p)) == Some(s.(t := s.t[p := s.t[p].(killed := true)]))
            && Step(s, Yield(p)) == Some(s.(t := s.t[p := s.t[p].(state := RUNNABLE)])))
  {
    hide Run, LogsOk, PidsOk, ParentOk, Alone, HasChild, ZombieBelow;
    RunKeeps(nproc, acts);
    var s := Run(nproc, acts).value;
    forall q: nat | q < |s.t| ensures s.doing[q] != User ==> s.doing[q].child < |s.t| {
      assert ForkOk(s, q);
    }
    forall q: nat | q < |s.t| ensures Live(s.t[q]) && s.t[q].chan.Slot? ==> s.t[q].chan == Slot(q) {
      assert SleepOk(s, q);
    }
  }

  /** Over every run: exit leaves the table as Exits says, and logs the pid. */
  lemma ExitLeaves(nproc: nat, acts: seq<Action>, p: nat)
    requires 0 < nproc && Run(nproc, acts).Some? && RunsUser(Run(nproc, acts).value, p)
    ensures var s := Run(nproc, acts).value;
      && (Step(s, Exit(p)).Some? <==> p != INIT)
      && (p != INIT ==>
            var s' := Step(s, Exit(p)).value;
            && Exits(s.t, p, INIT, s'.t) && s' == s.(t := s'.t, exited := s.exited + [s.t[p].pid]))
  {
    hide Exits, Run, ExitTable;
    ExitMeans(Run(nproc, acts).value.t, p, INIT);
  }

  // ----- a fork from end to end

  /** Somebody is filling every slot that is neither free nor a process. */
  predicate Filled(s: State)
    requires Shape(s)
  {
    forall c: nat :: c < |s.t| && s.t[c].state == EMBRYO ==> exists p: nat :: p < |s.t| && Fills(s, p, c)
  }

  lemma FilledStep(s: State, act: Action, s': State)
    requires Inv(s) && Filled(s) && Step(s, act) == Some(s')
    ensures Shape(s') && Filled(s')
  {
    hide ParentOk, SleepOk, LogsOk, PidsOk, HasChild, ZombieBelow;
    forall c: nat | c < |s'.t| && s'.t[c].state == EMBRYO
      ensures exists p: nat :: p < |s'.t| && Fills(s', p, c)
    {
      if s.t[c].state == EMBRYO {
        var p: nat :| p < |s.t| && Fills(s, p, c);
        assert Fills(s', p, c);
      } else {
        assert Fills(s', act.p, c);
      }
    }
  }

  /** Over every run: no slot is lost; one that is neither free nor a process is being filled by a process in fork, which
      has a process's state. */
  lemma NoSlotLost(nproc: nat, acts: seq<Action>, c: nat)
    requires 0 < nproc && Run(nproc, acts).Some?
    requires c < |Run(nproc, acts).value.t| && Run(nproc, acts).value.t[c].state == EMBRYO
    ensures var s := Run(nproc, acts).value; exists p: nat :: p < |s.t| && Fills(s, p, c) && Live(s.t[p])
  {
    hide Run;
    RunKeeps(nproc, acts);
    RunFilled(nproc, acts);
    var s := Run(nproc, acts).value;
    var p: nat :| p < |s.t| && Fills(s, p, c);
    assert ForkOk(s, p);
  }

  lemma {:induction false} RunFilled(nproc: nat, acts: seq<Action>)
    requires 0 < nproc && Run(nproc, acts).Some?
    ensures Filled(Run(nproc, acts).value)
  {
    hide Step, Inv, Filled;
    if acts == [] {
      StartFilled(nproc);
    } else {
      RunFilled(nproc, acts[..|acts| - 1]);
      RunKeeps(nproc, acts[..|acts| - 1]);
      FilledStep(Run(nproc, acts[..|acts| - 1]).value, acts[|acts| - 1], Run(nproc, acts).value);
    }
  }

  lemma StartFilled(nproc: nat)
    requires 0 < nproc
    ensures Filled(Start(nproc))
  {
  }

  lemma RunThen(nproc: nat, acts: seq<Action>, act: Action)
    requires 0 < nproc && Run(nproc, acts).Some?
    ensures Run(nproc, acts + [act]) == Step(Run(nproc, acts).value, act)
  {
    hide Step;
    assert (acts + [act])[..|acts|] == acts;
  }

  lemma FreeSlot(s: State, c: nat)
    requires Inv(s) && c < |s.t| && s.t[c].state == UNUSED
    ensures s.t[c].parent == None && s.t[c].chan == Null
  {
    assert ParentOk(s, c) && SleepOk(s, c);
  }

  lemma Twice<T>(t: seq<T>, c: nat, x: T, y: T)
    requires c < |t|
    ensures t[c := x][c := y] == t[c := y]
  {
  }

  lemma ForkSteps(s: State, p: nat, c: nat)
    requires Shape(s) && RunsUser(s, p) && c < |s.t| && c != p && FindUnused(s.t, 0) == c
    ensures var x, n := s.t[c].(pid := s.nextpid), s.nextpid + 1;
      var s1 := s.(t := s.t[c := x.(state := EMBRYO)], nextpid := n, doing := s.doing[p := Allocated(c)]);
      var s2 := s.(t := s.t[c := x.(state := EMBRYO, parent := Some(p))], nextpid := n, doing := s.doing[p := Linked(c)]);
      && Step(s, Alloc(p)) == Some(s1)
      && Step(s1, Abort(p)) == Some(s.(t := s.t[c := x.(state := UNUSED)], nextpid := n))
      && Step(s1, Link(p)) == Some(s2)
      && Step(s2, Done(p)) == Some(s.(t := s.t[c := x.(state := RUNNABLE, parent := Some(p))], nextpid := n))
  {
    var x := s.t[c].(pid := s.nextpid);
    var y := x.(state := EMBRYO, parent := Some(p));
    Twice(s.t, c, x.(state := EMBRYO), x.(state := UNUSED));
    Twice(s.t, c, x.(state := EMBRYO), y);
    Twice(s.t, c, y, y.(state := RUNNABLE));
    Twice(s.doing, p, Allocated(c), User);
    Twice(s.doing, p, Linked(c), User);
    Twice(s.doing, p, Allocated(c), Linked(c));
    assert s.doing[p := User] == s.doing;
  }

  /** The state after fork: the first free slot c has a process with a pid that was never used, and p for its parent; and
      after a fork that fails for want of memory it is free again.  With no free slot fork does nothing. */
  lemma ForkMakes(nproc: nat, acts: seq<Action>, p: nat, c: nat)
    requires 0 < nproc && Run(nproc, acts).Some? && RunsUser(Run(nproc, acts).value, p)
    requires c <= nproc && forall i: nat :: i < c && i < |Run(nproc, acts).value.t| ==> Run(nproc, acts).value.t[i].state != UNUSED
    ensures var s := Run(nproc, acts).value;
      && |s.t| == nproc && (forall q :: 0 <= q < |s.t| ==> s.t[q].pid < s.nextpid) && s.nextpid !in s.exited
      && (c == nproc ==> Step(s, Alloc(p)) == Some(s))
      && (c < nproc && s.t[c].state == UNUSED ==>
           && Run(nproc, acts + [Alloc(p), Link(p), Done(p)]) ==
                Some(s.(t := s.t[c := Proc(RUNNABLE, s.nextpid, Some(p), Null, s.t[c].killed)], nextpid := s.nextpid + 1))
           && Run(nproc, acts + [Alloc(p), Abort(p)]) ==
                Some(s.(t := s.t[c := Proc(UNUSED, s.nextpid, None, Null, s.t[c].killed)], nextpid := s.nextpid + 1)))
  {
    hide Run, Step, Inv, FindUnused;
    RunKeeps(nproc, acts);
    var s := Run(nproc, acts).value;
    NewPid(s);
    if c == nproc {
      FullTable(s, p);
    } else if s.t[c].state == UNUSED {
      FreeSlot(s, c);
      FirstUnused(s.t, c);
      ForkTo(nproc, acts, p, c);
    }
  }

  lemma NewPid(s: State)
    requires Inv(s)
    ensures s.nextpid !in s.exited && 0 < s.nextpid && forall q :: 0 <= q < |s.t| ==> s.t[q].pid < s.nextpid
  {
  }

  lemma ForkTo(nproc: nat, acts: seq<Action>, p: nat, c: nat)
    requires 0 < nproc && Run(nproc, acts).Some? && RunsUser(Run(nproc, acts).value, p)
    requires var s := Run(nproc, acts).value;
      c < |s.t| && c != p && FindUnused(s.t, 0) == c && s.t[c].parent == None && s.t[c].chan == Null
    ensures var s := Run(nproc, acts).value;
      && Run(nproc, acts + [Alloc(p), Link(p), Done(p)]) ==
           Some(s.(t := s.t[c := Proc(RUNNABLE, s.nextpid, Some(p), Null, s.t[c].killed)], nextpid := s.nextpid + 1))
      && Run(nproc, acts + [Alloc(p), Abort(p)]) ==
           Some(s.(t := s.t[c := Proc(UNUSED, s.nextpid, None, Null, s.t[c].killed)], nextpid := s.nextpid + 1))
  {
    hide Run, Step, FindUnused;
    var s := Run(nproc, acts).value;
    ForkSteps(s, p, c);
    RunThen(nproc, acts, Alloc(p));
    RunThen(nproc, acts + [Alloc(p)], Abort(p));
    RunThen(nproc, acts + [Alloc(p)], Link(p));
    RunThen(nproc, acts + [Alloc(p)] + [Link(p)], Done(p));
    assert acts + [Alloc(p)] + [Link(p)] + [Done(p)] == acts + [Alloc(p), Link(p), Done(p)];
    assert acts + [Alloc(p)] + [Abort(p)] == acts + [Alloc(p), Abort(p)];
  }

  lemma FirstUnused(t: seq<Proc>, c: nat)
    requires c < |t| && t[c].state == UNUSED && forall i :: 0 <= i < c ==> t[i].state != UNUSED
    ensures FindUnused(t, 0) == c
  {
  }

  lemma FullTable(s: State, p: nat)
    requires Shape(s) && RunsUser(s, p)
    ensures (forall c :: 0 <= c < |s.t| ==> s.t[c].state != UNUSED) ==> Step(s, Alloc(p)) == Some(s)
  {
  }

  /** kill(0) finds a free slot, and the process that fork puts there is killed from the start. */
  lemma BornKilled() returns (acts: seq<Action>)
    ensures acts == [Pick(0), Kill(0), Alloc(0), Link(0), Done(0)]
    ensures Run(2, acts).Some? && |Run(2, acts).value.t| == 2
    ensures Run(2, acts).value.t[1] == Proc(RUNNABLE, 2, Some(0), Null, true)
  {
    hide Inv, FindUnused, Run, Step, Start;
    acts := [Pick(0), Kill(0)] + [Alloc(0), Link(0), Done(0)];
    var before := [Pick(0), Kill(0)];
    KilledSlot();
    RunBegins(2);
    RunThen(2, [], Pick(0));
    assert [] + [Pick(0)] == [Pick(0)];
    RunThen(2, [Pick(0)], Kill(0));
    assert [Pick(0)] + [Kill(0)] == before;
    ForkMakes(2, before, 0, 1);
  }

  lemma RunBegins(nproc: nat)
    requires 0 < nproc
    ensures Run(nproc, []) == Some(Start(nproc)) && Shape(Start(nproc))
  {
  }

  lemma KilledSlot()
    ensures var s1 := Step(Start(2), Pick(0)); s1.Some? && Shape(s1.value) && var s2 := Step(s1.value, Kill(0));
      s2.Some? && s2.value.nextpid == 2 &&
      s2.value.doing == [User, User] &&
      s2.value.t == [Proc(RUNNING, 1, None, Null, false), FREED.(killed := true)]
  {
    var s := Start(2);
    assert s.t == [Proc(RUNNABLE, 1, None, Null, false), FREED] && s.doing == [User, User];
    var s1 := Step(s, Pick(0)).value;
    assert s1.t == [Proc(RUNNING, 1, None, Null, false), FREED];
    assert FindPid(s1.t, 0, 0) == 1;
  }
}
