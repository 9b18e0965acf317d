// What holds over every run of the logging protocol.

module WalTheorems {
  import opened Params
  import opened Options
  import opened Disk
  import opened Wal
  import opened WalInvariant
  import opened WalSteps
  import opened WalCommit
  import Sets

  /** Nobody holds a buffer during recovery. */
  lemma {:induction false} BrelseRuns(c: Config, s: State, p: Pid, a: nat)
    requires Inv(c, s) && DoBrelse(c, s, p, a).Next?
    ensures s.mode.Running?
  {
    hide Hists, RunningOk;
  }

  lemma {:induction false} StepKeeps(c: Config, s: State, act: Action)
    requires Inv(c, s) && Step(c, s, act).Next?
    ensures Inv(c, Step(c, s, act).s)
  {
    hide Inv, DoBread, DoModify, DoLogWrite, DoBrelse, DoEvict, DoBeginOp, DoEndOp, DoCommit, DoCrash, DoRecover;
    match act
    case Bread(p, a) => KeepBread(c, s, p, a);
    case Modify(p, a, v) => KeepModify(c, s, p, a, v);
    case LogWrite(p, a) => KeepLogWrite(c, s, p, a);
    case Brelse(p, a) => BrelseRuns(c, s, p, a); KeepBrelse(c, s, p, a);
    case Evict(a) => if s.mode.Running? { KeepEvict(c, s, a); } else { KeepEvictRecovering(c, s, a); }
    case BeginOp(p) => KeepBeginOp(c, s, p);
    case EndOp(p) => KeepEndOp(c, s, p);
    case Commit(p) => KeepCommit(c, s, p);
    case Crash => KeepCrash(c, s);
    case Recover => KeepRecover(c, s);
  }

  lemma {:induction false} RunKeeps(c: Config, acts: seq<Action>)
    requires GoodImage(c.g, c.image) && Run(c, acts).Next?
    ensures Inv(c, Run(c, acts).s)
  {
    if acts == [] {
      BootOk(c);
    } else {
      RunKeeps(c, acts[..|acts| - 1]);
      StepKeeps(c, Run(c, acts[..|acts| - 1]).s, acts[|acts| - 1]);
    }
  }

  // ----- crash safety

  /** Recovery from this disk yields the first image plus the writes of h, in order. */
  ghost predicate RecoversTo(c: Config, d: Image, h: seq<Event>)
    requires GoodImage(c.g, c.image)
  {
    GoodImage(c.g, d) && SameHome(c.g, Recovered(c.g, d), Replay(Recovered(c.g, c.image), h))
  }

  /** After any run, with crashes anywhere, recovery from the disk as it stands
      yields the writes of the first s.durable events, and those events are
      whole operations only. */
  lemma {:induction false} CrashSafety(c: Config, acts: seq<Action>)
    requires GoodImage(c.g, c.image) && Run(c, acts).Next?
    ensures var s := Run(c, acts).s;
            && s.durable <= |s.hist|
            && WholeOps(s.hist[..s.durable])
            && RecoversTo(c, s.disk, s.hist[..s.durable])
  {
    RunKeeps(c, acts);
    InvGivesDurable(c, Run(c, acts).s);
  }

  /** No step, not even a crash, takes back an event that was durable; and an
      operation is durable as soon as nothing is open or committing. */
  lemma {:induction false} DurableNeverShrinks(c: Config, acts: seq<Action>, act: Action)
    requires GoodImage(c.g, c.image) && Run(c, acts + [act]).Next?
    ensures Run(c, acts).Next?
    ensures var s, t := Run(c, acts).s, Run(c, acts + [act]).s;
            && s.durable <= |s.hist| && s.durable <= t.durable <= |t.hist|
            && t.hist[..s.durable] == s.hist[..s.durable]
            && (t.mode.Running? && !t.committing && t.outstanding == 0 ==> t.durable == |t.hist|)
  {
    assert (acts + [act])[..|acts|] == acts;
    RunKeeps(c, acts);
    RunKeeps(c, acts + [act]);
    StepKeepsDurable(c, Run(c, acts).s, act);
  }

  lemma {:induction false} StepKeepsDurable(c: Config, s: State, act: Action)
    requires s.durable <= |s.hist| && Step(c, s, act).Next?
    ensures var t := Step(c, s, act).s;
            && s.durable <= t.durable <= |t.hist|
            && t.hist[..s.durable] == s.hist[..s.durable]
  {
  }

  /** Writing a header with n > 0 is the commit point: recovery yields the old
      contents up to that block write, and everything from then on. */
  lemma {:induction false} HeaderCommits(c: Config, acts: seq<Action>, p: Pid)
    requires GoodImage(c.g, c.image) && Run(c, acts).Next?
    requires p < |Run(c, acts).s.pc| && Run(c, acts).s.pc[p] == Committing(WriteHead)
    ensures var s, r := Run(c, acts).s, DoCommit(c, Run(c, acts).s, p);
            && |s.lh| > 0 && s.durable <= |s.hist| && r.Next?
            && r.s.disk == s.disk[c.g.start := r.s.disk[c.g.start]]
            && RecoversTo(c, s.disk, s.hist[..s.durable])
            && RecoversTo(c, r.s.disk, s.hist)
  {
    hide Replay, Open, Bracketed, Install, Recovered, Active, Unused;
    var s := Run(c, acts).s;
    RunKeeps(c, acts);
    InvGivesDurable(c, s);
    NoneActive(s.pc);
    assert StepOk(c, s, s.pc[p].step);
    KeepCommit(c, s, p);
    var t := DoCommit(c, s, p).s;
    InvGivesDurable(c, t);
    assert t.hist[..t.durable] == s.hist;
  }

  /** How much recovery is left to do. */
  function Work(s: State): nat {
    match s.mode
    case Running => 0
    case ReadHead => LOGSIZE + 3
    case Reinstall(t) => if t <= |s.lh| then |s.lh| - t + 2 else 2
    case ClearAfterInstall => 1
  }

  /** n turns of recovery. */
  function Recovering(c: Config, s: State, n: nat): Outcome
    decreases n
  {
    if n == 0 then Next(s)
    else
      var r := Step(c, s, Recover);
      if r.Next? then Recovering(c, r.s, n - 1) else r
  }

  lemma {:induction false} RecoverMoves(c: Config, s: State)
    requires Inv(c, s) && !s.mode.Running?
    ensures DoRecover(c, s).Next?
    ensures var t := DoRecover(c, s).s;
            && Work(t) < Work(s) && t.durable == s.durable && t.hist == s.hist
            && (t.mode.Running? ==> SameHome(c.g, t.disk, s.disk) && SameHome(c.g, s.disk, Durable(c, s)) && t.disk[c.g.start].n == 0)
  {
    assert s.hist[..s.durable] == s.hist;
    assert |Logged(s.disk[c.g.start])| == s.disk[c.g.start].n;
  }

  lemma {:induction false} RecoverStep(c: Config, s: State, n: nat)
    requires DoRecover(c, s).Next?
    ensures Recovering(c, s, n + 1) == Recovering(c, DoRecover(c, s).s, n)
  {
  }

  /** Recovery left alone is never stuck, ends, and leaves the home blocks with
      exactly the durable writes and the log empty. */
  lemma {:induction false} RecoveryEnds(c: Config, s: State) returns (n: nat, t: State)
    requires Inv(c, s) && !s.mode.Running?
    ensures t.mode.Running? && Recovering(c, s, n) == Next(t)
    ensures SameHome(c.g, t.disk, Durable(c, s))
    ensures c.g.start < |t.disk| && t.disk[c.g.start].Header? && t.disk[c.g.start].n == 0
    decreases Work(s)
  {
    RecoverMoves(c, s);
    var u := DoRecover(c, s).s;
    KeepRecover(c, s);
    if u.mode.Running? {
      n, t := 1, u;
      RecoverStep(c, s, 0);
    } else {
      assert Durable(c, u) == Durable(c, s);
      n, t := RecoveryEnds(c, u);
      RecoverStep(c, s, n);
      n := n + 1;
    }
  }

  /** Crash at any moment of any run, then let recovery finish: the home blocks
      hold the writes of whole operations, all that were durable at the crash. */
  lemma {:induction false} CrashThenRecover(c: Config, acts: seq<Action>) returns (n: nat, t: State)
    requires GoodImage(c.g, c.image) && Run(c, acts).Next?
    ensures Run(c, acts + [Crash]).Next?
    ensures Recovering(c, Run(c, acts + [Crash]).s, n) == Next(t) && t.mode.Running?
    ensures var s := Run(c, acts).s;
            && s.durable <= |s.hist| && WholeOps(s.hist[..s.durable])
            && SameHome(c.g, t.disk, Replay(Recovered(c.g, c.image), s.hist[..s.durable]))
  {
    var s := Run(c, acts).s;
    assert (acts + [Crash])[..|acts|] == acts;
    RunKeeps(c, acts);
    RunKeeps(c, acts + [Crash]);
    var u := Run(c, acts + [Crash]).s;
    n, t := RecoveryEnds(c, u);
    assert u.hist[..u.durable] == s.hist[..s.durable];
  }

  // ----- mutual exclusion, and what a process sees

  /** Committing implies that no operation is open, and there is one committer. */
  lemma {:induction false} OneCommitter(c: Config, acts: seq<Action>)
    requires GoodImage(c.g, c.image) && Run(c, acts).Next?
    ensures var s := Run(c, acts).s;
            && (forall p, q :: 0 <= p < |s.pc| && 0 <= q < |s.pc| && s.pc[p].Committing? && s.pc[q].Committing? ==> p == q)
            && (forall p, q :: 0 <= p < |s.pc| && 0 <= q < |s.pc| && s.pc[p].Committing? ==> !s.pc[q].InOp?)
            && (s.committing <==> exists p :: 0 <= p < |s.pc| && s.pc[p].Committing?)
  {
    RunKeeps(c, acts);
    NoneActive(Run(c, acts).s.pc);
  }

  /** Reading a home block through the cache shows the latest write to it, while
      the disk may lag; a logged block stays dirty, so it cannot be evicted. */
  lemma {:induction false} ReadsSeeWrites(c: Config, acts: seq<Action>, a: nat)
    requires GoodImage(c.g, c.image) && Run(c, acts).Next?
    requires Run(c, acts).s.mode.Running? && a < |c.image| && !c.g.InLog(a)
    ensures var s := Run(c, acts).s;
            && |s.disk| == |c.image|
            && Content(s, a) == Replay(Recovered(c.g, c.image), s.hist)[a]
            && (!s.committing && a in s.lh ==> a in s.cache && s.cache[a].dirty && DoEvict(s, a).Disabled?)
  {
    RunKeeps(c, acts);
    var s := Run(c, acts).s;
    assert Content(s, a) == Current(c, s)[a];
    assert !s.committing && a in s.lh ==> Pinned(s, a);
  }

  // ----- log space

  /** What is logged and what the open operations may still log fits together. */
  lemma {:induction false} SpaceReserved(c: Config, acts: seq<Action>)
    requires GoodImage(c.g, c.image) && Run(c, acts).Next? && Run(c, acts).s.mode.Running?
    ensures var s := Run(c, acts).s; |s.lh| + Unused(s.pc) <= LOGSIZE && Distinct(s.lh)
  {
    RunKeeps(c, acts);
  }

  lemma {:induction false} LogWritePanics(c: Config, s: State, p: Pid, a: nat)
    requires Shape(c, s) && Procs(s) && s.mode.Running?
    requires c.g.size > LOGSIZE
    ensures DoLogWrite(c, s, p, a).Panics? <==>
              IsInOp(s, p) && Owns(s, p, a) && a in s.pc[p].wrote && |s.lh| == LOGSIZE
  {
    if IsInOp(s, p) && Owns(s, p, a) {
      SlackLeft(s.pc, p);
      if a in s.pc[p].wrote {
        assert s.pc[p].wrote + {a} == s.pc[p].wrote;
      } else {
        assert WithinBudget(s, p, a) ==> Slack(s.pc[p]) >= 1;
      }
    }
  }

  /** The blocks that process p has passed to log_write in its current operation, in order. */
  function Logs(acts: seq<Action>, p: Pid): seq<nat> {
    if acts == [] then []
    else
      var r := Logs(acts[..|acts| - 1], p);
      match acts[|acts| - 1]
      case BeginOp(q) => if q == p then [] else r
      case LogWrite(q, a) => if q == p then r + [a] else r
      case _ => r
  }

  lemma {:induction false} WroteAre(c: Config, acts: seq<Action>, p: Pid)
    requires Run(c, acts).Next? && IsInOp(Run(c, acts).s, p)
    ensures Run(c, acts).s.pc[p].wrote == Elems(Logs(acts, p))
  {
    hide Elems;
    if acts != [] {
      var before, act := acts[..|acts| - 1], acts[|acts| - 1];
      var s := Run(c, before).s;
      ElemsSnoc([], 0);
      if act != BeginOp(p) {
        StaysInOp(c, s, act, p);
        WroteAre(c, before, p);
        if act.LogWrite? && act.p == p {
          ElemsSnoc(Logs(before, p), act.a);
        }
      }
    }
  }

  /** A process in an operation after a step was in it before, unless the step began it. */
  lemma {:induction false} StaysInOp(c: Config, s: State, act: Action, p: Pid)
    requires Step(c, s, act).Next? && IsInOp(Step(c, s, act).s, p) && act != BeginOp(p)
    ensures IsInOp(s, p)
    ensures Step(c, s, act).s.pc[p].wrote == s.pc[p].wrote + if act.LogWrite? && act.p == p then {act.a} else {}
  {
    hide Owns, Unowned, Content, WithinBudget, Logged;
    match act
    case Commit(q) => CommitStays(c, s, q);
    case EndOp(q) => EndOpStays(s, q);
    case _ =>
  }

  lemma {:induction false} CommitStays(c: Config, s: State, q: Pid)
    requires DoCommit(c, s, q).Next?
    ensures var t := DoCommit(c, s, q).s; q < |s.pc| && t.pc == s.pc[q := t.pc[q]] && !t.pc[q].InOp?
  {
    hide Unowned, Content;
  }

  lemma {:induction false} EndOpStays(s: State, q: Pid)
    requires DoEndOp(s, q).Next?
    ensures var t := DoEndOp(s, q).s; q < |s.pc| && t.pc == s.pc[q := t.pc[q]] && !t.pc[q].InOp?
  {
  }

  /** In any interleaving: a process whose operation logs a calm list of at most MAXOPBLOCKS blocks, as every transaction
      of filewrite does, has each of its log_writes taken. */
  lemma {:induction false} CalmNeverPanics(c: Config, acts: seq<Action>, p: Pid, t: seq<nat>, a: nat)
    requires GoodImage(c.g, c.image) && Run(c, acts).Next? && c.g.size > LOGSIZE
    requires IsInOp(Run(c, acts).s, p) && Owns(Run(c, acts).s, p, a)
    requires Calm(t) && |Elems(t)| <= MAXOPBLOCKS && Logs(acts, p) + [a] <= t
    ensures Step(c, Run(c, acts).s, LogWrite(p, a)).Next?
  {
    RunKeeps(c, acts);
    WroteAre(c, acts, p);
    var s, n := Run(c, acts).s, |Logs(acts, p)|;
    hide Run, Hists, WalInvariant.Data, Elems;
    assert t[..n] == Logs(acts, p) && t[n] == a;
    Within(t, n);
    SlackLeft(s.pc, p);
    LogWritePanics(c, s, p, a);
  }

  lemma Within(t: seq<nat>, n: nat)
    requires n < |t|
    ensures Elems(t[..n]) + {t[n]} <= Elems(t) && |Elems(t[..n]) + {t[n]}| <= |Elems(t)|
    ensures t[n] in Elems(t[..n]) <==> t[n] in t[..n]
  {
    Sets.SubsetSize(Elems(t[..n]) + {t[n]}, Elems(t));
  }

  /** An operation that logs blocks of a set of at most MAXOPBLOCKS, in any order, has each log_write taken but that of a
      block it has logged before, on a full log. */
  lemma {:induction false} TransactionFits(c: Config, acts: seq<Action>, p: Pid, t: set<nat>, a: nat)
    requires GoodImage(c.g, c.image) && Run(c, acts).Next? && Run(c, acts).s.mode.Running? && c.g.size > LOGSIZE
    requires var s := Run(c, acts).s;
      IsInOp(s, p) && Owns(s, p, a) && s.pc[p].wrote <= t && a in t && |t| <= MAXOPBLOCKS
    ensures var s := Run(c, acts).s;
      Step(c, s, LogWrite(p, a)).Next? <==> !(a in s.pc[p].wrote && |s.lh| == LOGSIZE)
  {
    hide Run, Hists, WalInvariant.Data;
    RunKeeps(c, acts);
    var s := Run(c, acts).s;
    Sets.SubsetSize(s.pc[p].wrote + {a}, t);
    LogWritePanics(c, s, p, a);
  }

  /** With room for LOGSIZE slots, one thing only can panic: log_write on a full
      log, by a caller that logs again a block it has logged before.  The test
      for room comes before the search for the block. */
  lemma {:induction false} PanicsOnlyWhenFull(c: Config, acts: seq<Action>, act: Action)
    requires GoodImage(c.g, c.image) && Run(c, acts).Next? && Run(c, acts).s.mode.Running?
    requires c.g.size > LOGSIZE
    ensures var s := Run(c, acts).s;
            Step(c, s, act).Panics? <==>
              && act.LogWrite? && IsInOp(s, act.p) && Owns(s, act.p, act.a)
              && act.a in s.pc[act.p].wrote
              && |s.lh| == LOGSIZE
  {
    var s := Run(c, acts).s;
    RunKeeps(c, acts);
    if act.EndOp? && IsInOp(s, act.p) {
      SlackLeft(s.pc, act.p);
    } else if act.LogWrite? {
      LogWritePanics(c, s, act.p, act.a);
    }
  }

  // ----- how the log fills up

  /** The i-th home block after the log region. */
  function After(c: Config, i: nat): nat {
    c.g.start + c.g.size + i
  }

  /** Three operations are open; the first k blocks have been logged, MAXOPBLOCKS per operation. */
  ghost predicate Filled(c: Config, s: State, k: nat) {
    && s.mode.Running? && !s.committing && s.outstanding == 3
    && |s.lh| == k
    && |s.pc| >= 3
    && (forall i :: 0 <= i < k ==> s.lh[i] == After(c, i))
    && (forall a :: a in s.cache ==> a in s.lh && s.cache[a].owner == None)
    && (forall p :: 0 <= p < 3 ==> s.pc[p].InOp? && |s.pc[p].wrote| == Share(k, p))
    && (forall i :: 0 <= i < k && i < MAXOPBLOCKS ==> After(c, i) in s.pc[0].wrote)
  }

  /** How many of the first k blocks fall to operation p. */
  function Share(k: nat, p: nat): nat {
    if k <= p * MAXOPBLOCKS then 0
    else if k >= (p + 1) * MAXOPBLOCKS then MAXOPBLOCKS
    else k - p * MAXOPBLOCKS
  }

  lemma {:induction false} RunSnoc(c: Config, acts: seq<Action>, act: Action)
    requires Run(c, acts).Next?
    ensures Run(c, acts + [act]) == Step(c, Run(c, acts).s, act)
  {
    assert (acts + [act])[..|acts|] == acts;
  }

  /** A file system whose log is empty, with enough processes and blocks. */
  predicate Roomy(c: Config) {
    && GoodImage(c.g, c.image) && c.image[c.g.start].n == 0
    && c.nproc >= 3
    && |c.image| >= c.g.start + c.g.size + LOGSIZE
  }

  /** The first p processes have begun an operation, and nothing else has happened. */
  predicate Begun(c: Config, s: State, p: nat) {
    && s.mode.Running? && !s.committing && s.lh == [] && s.cache == map[]
    && s.outstanding == p && |s.pc| == c.nproc && c.nproc >= 3
    && forall q :: 0 <= q < |s.pc| ==> s.pc[q] == if q < p then InOp({}, {}) else Outside
  }

  lemma {:induction false} BeginNext(c: Config, s: State, p: nat)
    requires Begun(c, s, p) && p < 3
    ensures DoBeginOp(s, p).Next? && Begun(c, DoBeginOp(s, p).s, p + 1)
  {
  }

  lemma {:induction false} RecoverEmpty(c: Config)
    requires Roomy(c)
    ensures Recovering(c, Boot(c), 2).Next? && Begun(c, Recovering(c, Boot(c), 2).s, 0)
    ensures Run(c, [Recover, Recover]) == Recovering(c, Boot(c), 2)
  {
    var s := DoRecover(c, Boot(c)).s;
    RecoverStep(c, Boot(c), 1);
    RecoverStep(c, s, 0);
    RunSnoc(c, [], Recover);
    assert [] + [Recover] == [Recover];
    RunSnoc(c, [Recover], Recover);
    assert [Recover] + [Recover] == [Recover, Recover];
  }

  lemma {:induction false} OpenThree(c: Config) returns (acts: seq<Action>)
    requires Roomy(c)
    ensures Run(c, acts).Next? && Begun(c, Run(c, acts).s, 3)
  {
    RecoverEmpty(c);
    acts := [Recover, Recover];
    var p := 0;
    while p < 3
      invariant p <= 3 && Run(c, acts).Next? && Begun(c, Run(c, acts).s, p)
    {
      BeginNext(c, Run(c, acts).s, p);
      RunSnoc(c, acts, BeginOp(p));
      acts := acts + [BeginOp(p)];
      p := p + 1;
    }
  }

  /** From a state with k blocks logged, p reads and locks the next one. */
  lemma {:induction false} ReadNext(c: Config, s: State, k: nat, p: Pid)
    requires Roomy(c) && Shape(c, s) && Procs(s) && Filled(c, s, k)
    requires k < LOGSIZE && p < 3
    ensures DoBread(c, s, p, After(c, k)).Next?
    ensures var t := DoBread(c, s, p, After(c, k)).s;
            && t == s.(cache := t.cache)
            && t.cache.Keys == s.cache.Keys + {After(c, k)}
            && Owns(t, p, After(c, k))
            && (forall a :: a in s.cache ==> a != After(c, k) && t.cache[a] == s.cache[a])
            && After(c, k) !in s.pc[p].wrote
  {
    assert After(c, k) !in s.lh by { assert forall i :: 0 <= i < k ==> s.lh[i] != After(c, k); }
  }

  /** The state FillOne ends in. */
  function LoggedOne(c: Config, s: State, a: nat, p: Pid): State
    requires p < |s.pc| && s.pc[p].InOp? && a < |s.disk|
  {
    s.(cache := s.cache[a := Buf(Content(s, a), true, None)],
       lh := s.lh + [a],
       pc := s.pc[p := InOp(s.pc[p].wrote + {a}, s.pc[p].unlogged - {a})])
  }

  lemma {:induction false} LogNext(c: Config, s: State, a: nat, p: Pid)
    requires s.mode.Running? && p < |s.pc| && s.pc[p].InOp? && a < |s.disk| && !c.g.InLog(a)
    requires a !in s.cache && a !in s.lh && |s.pc[p].wrote| < MAXOPBLOCKS
    requires |s.lh| < LOGSIZE && |s.lh| < c.g.size - 1 && s.outstanding >= 1
    ensures DoBread(c, s, p, a).Next?
    ensures DoLogWrite(c, DoBread(c, s, p, a).s, p, a).Next?
    ensures DoBrelse(c, DoLogWrite(c, DoBread(c, s, p, a).s, p, a).s, p, a) == Next(LoggedOne(c, s, a, p))
  {
    var t := DoLogWrite(c, DoBread(c, s, p, a).s, p, a).s;
    assert t.cache[a := t.cache[a].(owner := None)] == s.cache[a := Buf(Content(s, a), true, None)];
  }

  lemma {:induction false} FilledNext(c: Config, s: State, k: nat, p: Pid)
    requires Filled(c, s, k) && k < LOGSIZE && p == k / MAXOPBLOCKS
    requires After(c, k) < |s.disk| && After(c, k) !in s.pc[p].wrote
    ensures Filled(c, LoggedOne(c, s, After(c, k), p), k + 1)
  {
    var t := LoggedOne(c, s, After(c, k), p);
    assert t.lh[k] == After(c, k);
    assert forall q :: 0 <= q < 3 ==> Share(k + 1, q) == Share(k, q) + if q == p then 1 else 0;
    assert forall q :: 0 <= q < 3 && q != p ==> t.pc[q] == s.pc[q];
  }

  lemma {:induction false} RunShape(c: Config, acts: seq<Action>)
    requires GoodImage(c.g, c.image) && Run(c, acts).Next?
    ensures Shape(c, Run(c, acts).s) && Procs(Run(c, acts).s)
  {
    RunKeeps(c, acts);
  }

  /** The next block to log is a home block that is neither logged nor cached. */
  lemma {:induction false} NextIsNew(c: Config, s: State, k: nat)
    requires Roomy(c) && Shape(c, s) && Filled(c, s, k) && k < LOGSIZE
    ensures var a := After(c, k); a < |s.disk| && !c.g.InLog(a) && a !in s.cache && a !in s.lh
  {
    assert forall i :: 0 <= i < k ==> s.lh[i] != After(c, k);
  }

  /** What the next block's log_write needs. */
  lemma {:induction false} FilledMeans(c: Config, s: State, k: nat)
    requires Filled(c, s, k) && Shape(c, s) && Roomy(c) && k < LOGSIZE && k < c.g.size - 1
    ensures var p := k / MAXOPBLOCKS;
            && s.mode.Running? && p < 3 && p < |s.pc| && s.pc[p].InOp? && |s.pc[p].wrote| < MAXOPBLOCKS
            && After(c, k) < |s.disk| && !c.g.InLog(After(c, k))
            && After(c, k) !in s.cache && After(c, k) !in s.lh
            && |s.lh| < LOGSIZE && |s.lh| < c.g.size - 1 && s.outstanding >= 1
  {
    hide GoodImage, Distinct;
    assert forall i :: 0 <= i < k ==> s.lh[i] != After(c, k);
  }

  lemma {:induction false} FillOne(c: Config, acts: seq<Action>, k: nat) returns (more: seq<Action>)
    requires Roomy(c) && Run(c, acts).Next? && Filled(c, Run(c, acts).s, k)
    requires k < LOGSIZE && k < c.g.size - 1
    ensures Run(c, more).Next? && Filled(c, Run(c, more).s, k + 1)
  {
    var p, a := k / MAXOPBLOCKS, After(c, k);
    hide Run, Procs, Shape, GoodImage, Filled;
    var s := Run(c, acts).s;
    RunShape(c, acts);
    NextIsNew(c, s, k);
    ReadNext(c, s, k, p);
    FilledMeans(c, s, k);
    LogNext(c, s, a, p);
    FilledNext(c, s, k, p);
    RunSnoc(c, acts, Bread(p, a));
    more := acts + [Bread(p, a)];
    RunSnoc(c, more, LogWrite(p, a));
    more := more + [LogWrite(p, a)];
    RunSnoc(c, more, Brelse(p, a));
    more := more + [Brelse(p, a)];
  }

  lemma {:induction false} Fill(c: Config, k: nat) returns (acts: seq<Action>)
    requires Roomy(c) && k <= LOGSIZE && k < c.g.size
    ensures Run(c, acts).Next? && Filled(c, Run(c, acts).s, k)
  {
    if k == 0 {
      acts := OpenThree(c);
    } else {
      acts := Fill(c, k - 1);
      acts := FillOne(c, acts, k - 1);
    }
  }

  /** An operation that has used less than its budget logs one more block, and the log has no room. */
  ghost predicate BudgetBroken(c: Config, acts: seq<Action>) {
    && Run(c, acts).Next?
    && exists p: Pid, a: nat :: IsInOp(Run(c, acts).s, p) && |Run(c, acts).s.pc[p].wrote| < MAXOPBLOCKS
         && Step(c, Run(c, acts).s, LogWrite(p, a)).Panics?
  }

  /** The reservation made by begin_op can be relied on exactly when the log has
      LOGSIZE slots besides the header.  With the nlog = LOGSIZE that mkfs
      writes, it cannot. */
  lemma {:induction false} BudgetHoldsIffRoom(c: Config)
    requires Roomy(c)
    ensures (forall acts :: !BudgetBroken(c, acts)) <==> c.g.size > LOGSIZE
  {
    if c.g.size > LOGSIZE {
      forall acts ensures !BudgetBroken(c, acts) { BudgetKept(c, acts); }
    } else {
      var acts := BreakBudget(c);
    }
  }

  lemma {:induction false} BreakBudget(c: Config) returns (more: seq<Action>)
    requires Roomy(c) && c.g.size <= LOGSIZE
    ensures BudgetBroken(c, more)
  {
    var k := c.g.size - 1;
    var acts := Fill(c, k);
    var p, a, s := k / MAXOPBLOCKS, After(c, k), Run(c, acts).s;
    RunShape(c, acts);
    ReadNext(c, s, k, p);
    RunSnoc(c, acts, Bread(p, a));
    more := acts + [Bread(p, a)];
    var t := Run(c, more).s;
    hide Run, Procs, Shape, GoodImage;
    assert IsInOp(t, p) && |t.pc[p].wrote| < MAXOPBLOCKS;
    assert WithinBudget(t, p, a);
    assert Step(c, t, LogWrite(p, a)).Panics?;
  }

  lemma {:induction false} BudgetKept(c: Config, acts: seq<Action>)
    requires GoodImage(c.g, c.image) && c.g.size > LOGSIZE
    ensures !BudgetBroken(c, acts)
  {
    if Run(c, acts).Next? {
      var s := Run(c, acts).s;
      RunKeeps(c, acts);
      forall p: Pid, a: nat | IsInOp(s, p) && |s.pc[p].wrote| < MAXOPBLOCKS
        ensures !Step(c, s, LogWrite(p, a)).Panics?
      {
        LogWritePanics(c, s, p, a);
        SlackLeft(s.pc, p);
      }
    }
  }

  /** Even with room, the in-budget operation that logs one of its own blocks
      again may panic: such a state is reached. */
  lemma {:induction false} RelogMayPanic(c: Config) returns (acts: seq<Action>)
    requires Roomy(c) && c.g.size > LOGSIZE
    ensures Run(c, acts).Next? && IsInOp(Run(c, acts).s, 0)
    ensures After(c, 0) in Run(c, acts).s.pc[0].wrote
    ensures |Run(c, acts).s.pc[0].wrote| == MAXOPBLOCKS
    ensures Step(c, Run(c, acts).s, LogWrite(0, After(c, 0))).Panics?
  {
    acts := Fill(c, LOGSIZE);
    RunKeeps(c, acts);
    RunSnoc(c, acts, Bread(0, After(c, 0)));
    var s := Run(c, acts).s;
    acts := acts + [Bread(0, After(c, 0))];
    assert s.pc[0].wrote + {After(c, 0)} == s.pc[0].wrote;
  }
}
