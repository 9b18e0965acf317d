// The process table (OS-Lab-1/proc.c): slots changed in place by scanning
// loops that run while ptable.lock is held.

module Procs {
  import opened Options

  datatype ProcState = UNUSED | EMBRYO | SLEEPING | RUNNABLE | RUNNING | ZOMBIE

  /** A wait channel: an address that nobody reads through.  wait() uses the sleeper's own slot. */
  datatype Chan = Null | Slot(proc: nat) | Other(addr: nat)

  datatype Proc = Proc(state: ProcState, pid: int, parent: Option<nat>, chan: Chan, killed: bool)

  datatype WaitResult = Reaped(pid: int) | Nobody | Slept

  predicate Live(p: Proc) {
    p.state == SLEEPING || p.state == RUNNABLE || p.state == RUNNING
  }

  /** A parent pointer used as a channel. */
  function AsChan(parent: Option<nat>): Chan {
    if parent.Some? then Slot(parent.value) else Null
  }

  // ----- what each scan does to the table

  function Woken(p: Proc, c: Chan): Proc {
    if p.state == SLEEPING && p.chan == c then p.(state := RUNNABLE) else p
  }

  function Wake(t: seq<Proc>, c: Chan): (r: seq<Proc>)
    ensures |r| == |t| && forall i :: 0 <= i < |t| ==> r[i] == Woken(t[i], c)
  {
    seq(|t|, i requires 0 <= i < |t| => Woken(t[i], c))
  }

  predicate ZombieChild(t: seq<Proc>, me: nat, q: nat)
    requires q < |t|
  {
    t[q].parent == Some(me) && t[q].state == ZOMBIE
  }

  predicate ZombieBelow(t: seq<Proc>, me: nat, k: nat)
    requires k <= |t|
  {
    exists q: nat :: q < k && ZombieChild(t, me, q)
  }

  predicate ChildBelow(t: seq<Proc>, me: nat, k: nat)
    requires k <= |t|
  {
    exists q: nat :: q < k && t[q].parent == Some(me)
  }

  /** Slot i once exit has woken the parent and handed the children among the first k slots to init. */
  function Abandoned(t: seq<Proc>, me: nat, init: nat, k: nat, i: nat): Proc
    requires me < |t| && k <= |t| && i < |t|
  {
    var a := Woken(t[i], AsChan(t[me].parent));
    var b := if ZombieBelow(t, me, k) then Woken(a, Slot(init)) else a;
    if i < k && t[i].parent == Some(me) then b.(parent := Some(init)) else b
  }

  function ExitTable(t: seq<Proc>, me: nat, init: nat): (r: seq<Proc>)
    requires me < |t|
    ensures |r| == |t|
    ensures forall i :: 0 <= i < |t| ==>
      r[i] == if i == me then Abandoned(t, me, init, |t|, i).(state := ZOMBIE) else Abandoned(t, me, init, |t|, i)
  {
    seq(|t|, i requires 0 <= i < |t| =>
      if i == me then Abandoned(t, me, init, |t|, i).(state := ZOMBIE) else Abandoned(t, me, init, |t|, i))
  }

  /** What exit leaves: the caller a zombie, its children init's, its parent awake, and init awake if it got a zombie.
      No other process wakes, and nothing else changes in any slot. */
  ghost predicate Exits(t: seq<Proc>, me: nat, init: nat, t': seq<Proc>) {
    && me < |t| == |t'|
    && t'[me].state == ZOMBIE
    && forall i: nat :: i < |t| ==>
         && t'[i].pid == t[i].pid && t'[i].chan == t[i].chan && t'[i].killed == t[i].killed
         && t'[i].parent == (if t[i].parent == Some(me) then Some(init) else t[i].parent)
         && (i != me ==>
              if t[i].state == SLEEPING &&
                   (t[i].chan == AsChan(t[me].parent) ||
                     (t[i].chan == Slot(init) &&
                       exists z: nat :: z < |t| && t[z].parent == Some(me) && t[z].state == ZOMBIE))
              then t'[i].state == RUNNABLE
              else t'[i].state == t[i].state)
  }

  lemma ExitMeans(t: seq<Proc>, me: nat, init: nat)
    requires me < |t|
    ensures Exits(t, me, init, ExitTable(t, me, init))
  {
    assert ZombieBelow(t, me, |t|) <==> exists z: nat :: z < |t| && t[z].parent == Some(me) && t[z].state == ZOMBIE by {
      if z: nat :| z < |t| && t[z].parent == Some(me) && t[z].state == ZOMBIE {
        assert ZombieChild(t, me, z);
      }
    }
  }

  const FREED := Proc(UNUSED, 0, None, Null, false)

  /** The first zombie child, |t| if there is none. */
  function FindZombie(t: seq<Proc>, me: nat, k: nat): (r: nat)
    requires k <= |t|
    ensures k <= r <= |t|
    ensures r < |t| ==> ZombieChild(t, me, r)
    ensures forall i: nat :: k <= i < r ==> !ZombieChild(t, me, i)
    decreases |t| - k
  {
    if k == |t| || ZombieChild(t, me, k) then k else FindZombie(t, me, k + 1)
  }

  /** One pass of wait's loop, up to its return or its sleep. */
  function WaitPass(t: seq<Proc>, me: nat): (r: (seq<Proc>, WaitResult))
    requires me < |t|
    ensures |r.0| == |t|
  {
    var q := FindZombie(t, me, 0);
    if q < |t| then (t[q := FREED.(chan := t[q].chan)], Reaped(t[q].pid))
    else if !ChildBelow(t, me, |t|) || t[me].killed then (t, Nobody)
    else (t[me := t[me].(chan := Slot(me), state := SLEEPING)], Slept)
  }

  /** What wait's answers mean, by the caller's children: it returns the pid of a zombie child and frees that slot if there
      is one; it returns -1 if there is none and there are no children at all, or the caller has been killed; else it sleeps
      on itself.  Nothing else in the table changes. */
  ghost predicate Answers(t: seq<Proc>, me: nat, t': seq<Proc>, r: WaitResult) {
    && me < |t| == |t'|
    && (r.Reaped? <==> exists q: nat :: q < |t| && t[q].parent == Some(me) && t[q].state == ZOMBIE)
    && (r.Nobody? <==>
          && (forall q: nat :: q < |t| && t[q].parent == Some(me) ==> t[q].state != ZOMBIE)
          && (t[me].killed || forall q: nat :: q < |t| ==> t[q].parent != Some(me)))
    && (r.Reaped? ==> exists z: nat :: z < |t| && t[z].parent == Some(me) && t[z].state == ZOMBIE
                        && r.pid == t[z].pid && t' == t[z := Proc(UNUSED, 0, None, t[z].chan, false)])
    && (r.Nobody? ==> t' == t)
    && (r.Slept? ==> t' == t[me := t[me].(state := SLEEPING, chan := Slot(me))])
  }

  lemma WaitMeans(t: seq<Proc>, me: nat)
    requires me < |t|
    ensures var (t', r) := WaitPass(t, me); Answers(t, me, t', r)
  {
    var q := FindZombie(t, me, 0);
    if q < |t| {
      assert t[q].parent == Some(me) && t[q].state == ZOMBIE;
    } else {
      forall i: nat | i < |t| && t[i].parent == Some(me) ensures t[i].state != ZOMBIE {
        assert !ZombieChild(t, me, i);
      }
      if i: nat :| i < |t| && t[i].parent == Some(me) {
        assert ChildBelow(t, me, |t|);
      }
    }
  }

  /** The first slot with the wanted pid, |t| if there is none. */
  function FindPid(t: seq<Proc>, pid: int, k: nat): (r: nat)
    requires k <= |t|
    ensures k <= r <= |t|
    ensures r < |t| ==> t[r].pid == pid
    ensures forall i :: k <= i < r ==> t[i].pid != pid
    decreases |t| - k
  {
    if k == |t| || t[k].pid == pid then k else FindPid(t, pid, k + 1)
  }

  function Killed(p: Proc): Proc {
    p.(killed := true, state := if p.state == SLEEPING then RUNNABLE else p.state)
  }

  function KillTable(t: seq<Proc>, pid: int): (r: seq<Proc>)
    ensures |r| == |t|
  {
    var q := FindPid(t, pid, 0);
    if q < |t| then t[q := Killed(t[q])] else t
  }

  function FindUnused(t: seq<Proc>, k: nat): (r: nat)
    requires k <= |t|
    ensures k <= r <= |t|
    ensures r < |t| ==> t[r].state == UNUSED
    ensures forall i :: k <= i < r ==> t[i].state != UNUSED
    decreases |t| - k
  {
    if k == |t| || t[k].state == UNUSED then k else FindUnused(t, k + 1)
  }

  class Ptable {
    const proc: array<Proc>
    const init: nat
    var nextpid: int

    ghost predicate Valid()
      reads this
    {
      init < proc.Length
    }

    /** pinit and userinit: an empty table but for init. */
    constructor (nproc: nat)
      requires 0 < nproc
      ensures Valid() && fresh(proc) && proc.Length == nproc && init == 0 && nextpid == 2
      ensures proc[..] == [Proc(RUNNABLE, 1, None, Null, false)] + seq(nproc - 1, _ => FREED)
    {
      proc := new Proc[nproc](i => if i == 0 then Proc(RUNNABLE, 1, None, Null, false) else FREED);
      init := 0;
      nextpid := 2;
    }

    method Wakeup1(c: Chan)
      modifies proc
      ensures proc[..] == Wake(old(proc[..]), c)
      ensures forall i :: 0 <= i < proc.Length ==>
        proc[i] == if old(proc[i]).state == SLEEPING && old(proc[i]).chan == c
                   then old(proc[i]).(state := RUNNABLE) else old(proc[i])
    {
      var i := 0;
      while i < proc.Length
        invariant 0 <= i <= proc.Length
        invariant forall j :: 0 <= j < proc.Length ==>
          proc[j] == if j < i then Woken(old(proc[j]), c) else old(proc[j])
      {
        if proc[i].state == SLEEPING && proc[i].chan == c {
          proc[i] := proc[i].(state := RUNNABLE);
        }
        i := i + 1;
      }
    }

    /** allocproc, up to the release of ptable.lock. */
    method AllocProc() returns (r: Option<nat>)
      modifies this`nextpid, proc
      ensures var q := FindUnused(old(proc[..]), 0);
        if q < proc.Length then
          && r == Some(q) && nextpid == old(nextpid) + 1
          && proc[..] == old(proc[..])[q := old(proc[q]).(state := EMBRYO, pid := old(nextpid))]
        else r == None && nextpid == old(nextpid) && proc[..] == old(proc[..])
    {
      var i := 0;
      while i < proc.Length && proc[i].state != UNUSED
        invariant 0 <= i <= proc.Length
        invariant FindUnused(proc[..], 0) == FindUnused(proc[..], i)
      {
        i := i + 1;
      }
      if i == proc.Length {
        return None;
      }
      proc[i] := proc[i].(state := EMBRYO, pid := nextpid);
      nextpid := nextpid + 1;
      return Some(i);
    }

    /** fork: whether kalloc and copyuvm find memory is the caller's choice. */
    method Fork(me: nat, haveStack: bool, haveCopy: bool) returns (pid: int)
      requires me < proc.Length
      modifies this`nextpid, proc
      ensures var c := FindUnused(old(proc[..]), 0);
        if c == proc.Length then
          pid == -1 && nextpid == old(nextpid) && proc[..] == old(proc[..])
        else if !haveStack || !haveCopy then
          && pid == -1 && nextpid == old(nextpid) + 1
          && proc[..] == old(proc[..])[c := old(proc[c]).(pid := old(nextpid))]
        else
          && pid == old(nextpid) && nextpid == old(nextpid) + 1
          && proc[..] == old(proc[..])[c := old(proc[c]).(state := RUNNABLE, pid := pid, parent := Some(me))]
    {
      var np := AllocProc();
      if np == None {
        return -1;
      }
      var c := np.value;
      if !haveStack || !haveCopy {
        proc[c] := proc[c].(state := UNUSED);
        return -1;
      }
      proc[c] := proc[c].(parent := Some(me));
      pid := proc[c].pid;
      proc[c] := proc[c].(state := RUNNABLE);
    }

    /** exit, from acquire(&ptable.lock) to sched(). */
    method Exit(me: nat)
      requires Valid() && me < proc.Length && me != init
      modifies proc
      ensures proc[..] == ExitTable(old(proc[..]), me, init)
      ensures Exits(old(proc[..]), me, init, proc[..])
    {
      ExitMeans(proc[..], me, init);
      ghost var t := proc[..];
      Wakeup1(AsChan(proc[me].parent));
      var i := 0;
      while i < proc.Length
        invariant 0 <= i <= proc.Length == |t|
        invariant forall j :: 0 <= j < |t| ==> proc[j] == Abandoned(t, me, init, i, j)
      {
        if proc[i].parent == Some(me) {
          proc[i] := proc[i].(parent := Some(init));
          if proc[i].state == ZOMBIE {
            assert ZombieChild(t, me, i);
            Wakeup1(Slot(init));
          }
        }
        i := i + 1;
      }
      proc[me] := proc[me].(state := ZOMBIE);
    }

    /** wait's scan and what follows it; Slept means that the caller must scan again when it next runs. */
    method Wait(me: nat) returns (r: WaitResult)
      requires me < proc.Length
      modifies proc
      ensures (proc[..], r) == WaitPass(old(proc[..]), me)
      ensures Answers(old(proc[..]), me, proc[..], r)
    {
      WaitMeans(proc[..], me);
      ghost var t := proc[..];
      var havekids := false;
      var i := 0;
      while i < proc.Length
        invariant 0 <= i <= proc.Length == |t|
        invariant proc[..] == t
        invariant FindZombie(t, me, 0) == FindZombie(t, me, i)
        invariant havekids == ChildBelow(t, me, i)
      {
        if proc[i].parent == Some(me) {
          havekids := true;
          assert t[i].parent == Some(me);
          if proc[i].state == ZOMBIE {
            var pid := proc[i].pid;
            assert ZombieChild(t, me, i);
            proc[i] := proc[i].(pid := 0, parent := None, killed := false, state := UNUSED);
            return Reaped(pid);
          }
        }
        i := i + 1;
      }
      if !havekids || proc[me].killed {
        return Nobody;
      }
      proc[me] := proc[me].(chan := Slot(me), state := SLEEPING);
      return Slept;
    }

    method Kill(pid: int) returns (found: bool)
      modifies proc
      ensures proc[..] == KillTable(old(proc[..]), pid)
      ensures found ==> exists q: nat ::
        && q < proc.Length && old(proc[q]).pid == pid && (forall i :: 0 <= i < q ==> old(proc[i]).pid != pid)
        && proc[..] == old(proc[..])[q := old(proc[q]).(killed := true,
             state := if old(proc[q]).state == SLEEPING then RUNNABLE else old(proc[q]).state)]
      ensures !found ==> proc[..] == old(proc[..])
      ensures found <==> exists i :: 0 <= i < proc.Length && old(proc[i]).pid == pid
    {
      var i := 0;
      while i < proc.Length
        invariant 0 <= i <= proc.Length
        invariant proc[..] == old(proc[..])
        invariant FindPid(proc[..], pid, 0) == FindPid(proc[..], pid, i)
        invariant forall j :: 0 <= j < i ==> proc[j].pid != pid
      {
        if proc[i].pid == pid {
          proc[i] := proc[i].(killed := true);
          if proc[i].state == SLEEPING {
            proc[i] := proc[i].(state := RUNNABLE);
          }
          return true;
        }
        i := i + 1;
      }
      return false;
    }
  }
}
