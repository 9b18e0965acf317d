// What the actions of the logging protocol do for those who run them, and that
// an operation left alone gets through (OS-Lab-1/log.c:124-230, OS-Lab-1/bio.c:97-140).

module WalOps {
  import opened Params
  import opened Options
  import opened Disk
  import opened Wal
  import opened WalInvariant
  import opened WalSteps
  import opened WalCommit
  import opened WalTheorems
  import opened WalSleep
  import opened WalProgress

  /** What an action adds to the history. */
  function Note(act: Action): seq<Event> {
    match act
    case Modify(p, a, v) => [Write(p, a, v)]
    case BeginOp(p) => [Begin(p)]
    case EndOp(p) => [End(p)]
    case _ => []
  }

  predicate Holds(act: Action, was: bool, q: Pid, b: nat) {
    match act
    case Bread(p, a) => was || (q == p && b == a)
    case Brelse(p, a) => was && !(q == p && b == a)
    case _ => was
  }

  predicate Home(c: Config, a: nat) {
    a < |c.image| && !c.g.InLog(a)
  }

  /** A running action is noted, moves its actor only, passes buffers on by bread and brelse only, and changes what a
      read shows by a store only. */
  ghost predicate Shows(c: Config, s: State, act: Action, t: State) {
    && t.mode.Running? && t.hist == s.hist + Note(act)
    && |s.disk| == |c.image| && |t.disk| == |c.image| && |t.pc| == |s.pc|
    && (forall b :: 0 <= b < |c.image| && !c.g.InLog(b) ==>
          Content(t, b) == if act.Modify? && act.a == b then act.v else Content(s, b))
    && (forall q, b :: Owns(t, q, b) <==> Holds(act, Owns(s, q, b), q, b))
    && (forall q :: 0 <= q < |s.pc| && Actor(act) != Some(q) ==> t.pc[q] == s.pc[q])
  }

  lemma {:induction false} HoldersMove(c: Config, s: State, act: Action)
    requires Inv(c, s) && s.mode.Running? && Step(c, s, act).Next? && !act.Crash?
    ensures var t := Step(c, s, act).s;
      && t.mode.Running? && t.hist == s.hist + Note(act) && |t.pc| == |s.pc|
      && (forall q, b :: Owns(t, q, b) <==> Holds(act, Owns(s, q, b), q, b))
      && (forall q :: 0 <= q < |s.pc| && Actor(act) != Some(q) ==> t.pc[q] == s.pc[q])
  {
    hide Hists, WalInvariant.Data, DoCommit, Content;
    if act.Commit? {
      CommitHolders(c, s, act.p);
    }
  }

  lemma {:induction false} CommitHolders(c: Config, s: State, p: Pid)
    requires Inv(c, s) && s.mode.Running? && DoCommit(c, s, p).Next?
    ensures var t := DoCommit(c, s, p).s;
      && p < |s.pc| && t.mode.Running? && t.hist == s.hist && t.pc == s.pc[p := t.pc[p]]
      && (forall q, b :: Owns(t, q, b) <==> Owns(s, q, b))
  {
    hide Hists, WalInvariant.Data, Content;
  }

  lemma {:induction false} ShowsCurrent(c: Config, s: State, b: nat)
    requires Inv(c, s) && s.mode.Running? && Home(c, b)
    ensures |s.disk| == |c.image| && Content(s, b) == Replay(Base(c), s.hist)[b]
  {
    hide Replay, Hists;
    assert Content(s, b) == Current(c, s)[b];
  }

  lemma ReplayOne(base: Image, h: seq<Event>, e: Event)
    ensures Replay(base, h + [e]) == var r := Replay(base, h); if e.Write? && e.a < |base| then r[e.a := e.v] else r
  {
    assert (h + [e])[..|h|] == h;
  }

  lemma {:induction false} StepShows(c: Config, s: State, act: Action)
    requires Inv(c, s) && s.mode.Running? && Step(c, s, act).Next? && !act.Crash?
    ensures Shows(c, s, act, Step(c, s, act).s) && Inv(c, Step(c, s, act).s)
  {
    hide Step, Inv, Owns, Content, Replay;
    var t := Step(c, s, act).s;
    HoldersMove(c, s, act);
    StepKeeps(c, s, act);
    InvSizes(c, s);
    InvSizes(c, t);
    forall b | 0 <= b < |c.image| && !c.g.InLog(b)
      ensures Content(t, b) == if act.Modify? && act.a == b then act.v else Content(s, b)
    {
      ShowsCurrent(c, s, b);
      ShowsCurrent(c, t, b);
      if Note(act) == [] {
        assert s.hist + Note(act) == s.hist;
      } else {
        ReplayOne(Base(c), s.hist, Note(act)[0]);
      }
    }
  }

  lemma InvSizes(c: Config, s: State)
    requires Inv(c, s)
    ensures |s.disk| == |c.image| && |s.pc| == c.nproc && GoodImage(c.g, c.image)
  {
  }

  /** Over every run: what an action does, as seen by all processes. */
  lemma {:induction false} Effects(c: Config, acts: seq<Action>, act: Action)
    requires GoodImage(c.g, c.image) && Run(c, acts).Next? && Run(c, acts).s.mode.Running? && !act.Crash?
    requires Step(c, Run(c, acts).s, act).Next?
    ensures Shows(c, Run(c, acts).s, act, Step(c, Run(c, acts).s, act).s)
  {
    RunKeeps(c, acts);
    StepShows(c, Run(c, acts).s, act);
  }

  /** Nobody holds the buffer. */
  ghost predicate Free(s: State, a: nat) {
    forall q :: !Owns(s, q, a)
  }

  /** When the caller may go on at once. */
  ghost predicate Ready(c: Config, s: State, act: Action) {
    match act
    case Bread(p, a) => p < |s.pc| && !s.pc[p].Committing? && Home(c, a) && Free(s, a)
    case Modify(p, a, _) => IsInOp(s, p) && Owns(s, p, a)
    case LogWrite(p, a) => IsInOp(s, p) && Owns(s, p, a) && |s.pc[p].wrote + {a}| <= MAXOPBLOCKS && |s.lh| < LOGSIZE
    case Brelse(p, a) => p < |s.pc| && Owns(s, p, a) && !(IsInOp(s, p) && a in s.pc[p].unlogged)
    case Evict(a) => a in s.cache && Free(s, a) && !s.cache[a].dirty
    case BeginOp(p) => p < |s.pc| && s.pc[p].Outside? && !MustWait(s)
    case EndOp(p) => IsInOp(s, p) && s.pc[p].unlogged == {}
    case Commit(p) => p < |s.pc| && s.pc[p].Committing? && (Needs(s, p).Some? ==> Free(s, Needs(s, p).value))
    case Crash => true
    case Recover => false
  }

  lemma FreeIsUnowned(s: State, a: nat)
    ensures Free(s, a) <==> Unowned(s, a)
  {
    if a in s.cache && s.cache[a].owner.Some? {
      assert Owns(s, s.cache[a].owner.value, a);
    }
  }

  lemma {:induction false} StepReady(c: Config, s: State, act: Action)
    requires Inv(c, s) && s.mode.Running? && c.g.size > LOGSIZE
    ensures Step(c, s, act).Next? <==> Ready(c, s, act)
  {
    hide Hists, WalInvariant.Data, DoCommit, Free, Needs;
    match act
    case Bread(_, a) => FreeIsUnowned(s, a);
    case Evict(a) => FreeIsUnowned(s, a);
    case Commit(p) => CommitReady(c, s, p);
    case LogWrite(p, a) => if IsInOp(s, p) { SlackLeft(s.pc, p); }
    case EndOp(p) => if IsInOp(s, p) { SlackLeft(s.pc, p); }
    case Crash => CrashReady(c, s);
    case _ =>
  }

  lemma CrashReady(c: Config, s: State)
    requires Inv(c, s)
    ensures s.durable <= |s.hist|
  {
  }

  lemma {:induction false} CommitReady(c: Config, s: State, p: Pid)
    requires Inv(c, s) && s.mode.Running?
    ensures Step(c, s, Commit(p)).Next? <==> Ready(c, s, Commit(p))
  {
    hide Inv, Needs, Unowned, Free, StepsLeft;
    if p < |s.pc| && s.pc[p].Committing? {
      CommitMoves(c, s, p);
      if Needs(s, p).Some? { FreeIsUnowned(s, Needs(s, p).value); }
    }
  }

  /** Over every run: a process gets what it asks for just when these conditions hold. */
  lemma {:induction false} TakenIff(c: Config, acts: seq<Action>, act: Action)
    requires GoodImage(c.g, c.image) && Run(c, acts).Next? && Run(c, acts).s.mode.Running? && c.g.size > LOGSIZE
    ensures Step(c, Run(c, acts).s, act).Next? <==> Ready(c, Run(c, acts).s, act)
  {
    RunKeeps(c, acts);
    StepReady(c, Run(c, acts).s, act);
  }

  /** Over every run: a process at begin_op either begins or goes to sleep, and it sleeps just when it must wait. */
  lemma {:induction false} BeginsOrSleeps(c: Config, ts: seq<Turn>, p: Pid)
    requires GoodImage(c.g, c.image) && Turns(c, ts).Some? && c.g.size > LOGSIZE
    requires var s := Turns(c, ts).value; s.w.mode.Running? && p < |s.w.pc| && s.w.pc[p].Outside? && p !in s.asleep
    ensures var s := Turns(c, ts).value;
      && (Take(c, s, Do(BeginOp(p))).Some? <==> !MustWait(s.w))
      && (Take(c, s, Sleep(p)).Some? <==> MustWait(s.w))
      && (MustWait(s.w) ==> Take(c, s, Sleep(p)) == Some(Sleepy(s.w, s.asleep + {p})))
      && (!MustWait(s.w) ==> Take(c, s, Do(BeginOp(p))).value.asleep == s.asleep)
  {
    hide Inv;
    TurnsKeep(c, ts);
    StepReady(c, Turns(c, ts).value.w, BeginOp(p));
  }

  // ----- one operation, from begin to the disk

  /** A store of a whole block. */
  datatype Store = Store(a: nat, v: Block)

  function Stores(p: Pid, w: Store): seq<Action> {
    [Bread(p, w.a), Modify(p, w.a, w.v), LogWrite(p, w.a), Brelse(p, w.a)]
  }

  /** bread, store, log_write and brelse, for every store in turn. */
  function Body(p: Pid, ws: seq<Store>): seq<Action> {
    if ws == [] then [] else Body(p, ws[..|ws| - 1]) + Stores(p, ws[|ws| - 1])
  }

  ghost function Blocks(ws: seq<Store>): (r: set<nat>)
    ensures forall a :: a in r <==> exists i :: 0 <= i < |ws| && ws[i].a == a
  {
    set i | 0 <= i < |ws| :: ws[i].a
  }

  /** What block a holds after the stores, v being what it held before. */
  function Last(ws: seq<Store>, a: nat, v: Block): Block {
    if ws == [] then v
    else if ws[|ws| - 1].a == a then ws[|ws| - 1].v
    else Last(ws[..|ws| - 1], a, v)
  }

  /** The actions in turn, from a given state. */
  function Does(c: Config, s: State, acts: seq<Action>): Outcome {
    if acts == [] then Next(s)
    else
      var r := Does(c, s, acts[..|acts| - 1]);
      if r.Next? then Step(c, r.s, acts[|acts| - 1]) else r
  }

  lemma DoesSnoc(c: Config, s: State, acts: seq<Action>, act: Action)
    ensures Does(c, s, acts + [act]) == var r := Does(c, s, acts); if r.Next? then Step(c, r.s, act) else r
  {
    hide Step;
    assert (acts + [act])[..|acts|] == acts;
  }

  lemma RunUnfolds(c: Config, acts: seq<Action>, act: Action)
    ensures Run(c, acts + [act]) == var r := Run(c, acts); if r.Next? then Step(c, r.s, act) else r
  {
    hide Step;
    assert (acts + [act])[..|acts|] == acts;
  }

  lemma {:induction false} DoesOn(c: Config, s: State, xs: seq<Action>, ys: seq<Action>)
    requires Does(c, s, xs).Next?
    ensures Does(c, s, xs + ys) == Does(c, Does(c, s, xs).s, ys)
  {
    hide Step, Does;
    if ys == [] {
      assert xs + ys == xs;
      DoesNone(c, Does(c, s, xs).s);
    } else {
      var n := |ys| - 1;
      assert xs + ys == xs + ys[..n] + [ys[n]] && ys[..n] + [ys[n]] == ys;
      DoesOn(c, s, xs, ys[..n]);
      DoesSnoc(c, s, xs + ys[..n], ys[n]);
      DoesSnoc(c, Does(c, s, xs).s, ys[..n], ys[n]);
    }
  }

  lemma {:induction false} RunDoes(c: Config, xs: seq<Action>, ys: seq<Action>)
    requires Run(c, xs).Next?
    ensures Run(c, xs + ys) == Does(c, Run(c, xs).s, ys)
  {
    hide Step, Does, Run;
    if ys == [] {
      assert xs + ys == xs;
      DoesNone(c, Run(c, xs).s);
    } else {
      var n := |ys| - 1;
      assert xs + ys == xs + ys[..n] + [ys[n]] && ys[..n] + [ys[n]] == ys;
      RunDoes(c, xs, ys[..n]);
      RunUnfolds(c, xs + ys[..n], ys[n]);
      DoesSnoc(c, Run(c, xs).s, ys[..n], ys[n]);
    }
  }

  lemma DoesOne(c: Config, s: State, act: Action)
    ensures Does(c, s, [act]) == Step(c, s, act)
  {
    assert [act][..0] == [];
    assert Does(c, s, []) == Next(s);
  }

  lemma {:induction false} FourSteps(c: Config, s: State, x: Action, y: Action, z: Action, w: Action)
    requires Step(c, s, x).Next? && Step(c, Step(c, s, x).s, y).Next?
    requires Step(c, Step(c, Step(c, s, x).s, y).s, z).Next?
    ensures Does(c, s, [x, y, z, w]) == Step(c, Step(c, Step(c, Step(c, s, x).s, y).s, z).s, w)
  {
    hide Step;
    assert [x] + [y] == [x, y] && [x, y] + [z] == [x, y, z] && [x, y, z] + [w] == [x, y, z, w];
    DoesOne(c, s, x);
    var s1 := Step(c, s, x).s;
    DoesOne(c, s1, y);
    DoesOn(c, s, [x], [y]);
    var s2 := Step(c, s1, y).s;
    DoesOne(c, s2, z);
    DoesOn(c, s, [x, y], [z]);
    DoesOne(c, Step(c, s2, z).s, w);
    DoesOn(c, s, [x, y, z], [w]);
  }

  /** What the four actions leave behind for their process. */
  lemma PcMoves(c: Config, s: State, act: Action)
    requires Step(c, s, act).Next?
    ensures var t := Step(c, s, act).s;
      && (act.Bread? || act.Modify? || act.Brelse? ==> t.lh == s.lh)
      && (act.Bread? || act.Brelse? ==> t.pc == s.pc)
      && (act.Modify? ==> IsInOp(s, act.p) && t.pc == s.pc[act.p := InOp(s.pc[act.p].wrote, s.pc[act.p].unlogged + {act.a})])
      && (act.LogWrite? ==>
            IsInOp(s, act.p) && t.lh == (if act.a in s.lh then s.lh else s.lh + [act.a]) &&
            t.pc == s.pc[act.p := InOp(s.pc[act.p].wrote + {act.a}, s.pc[act.p].unlogged - {act.a})])
  {
    hide Content, Owns, WithinBudget, Unowned;
  }

  /** One store of an operation goes through when nobody holds its block. */
  lemma {:induction false} OneStore(c: Config, s: State, p: Pid, w: Store) returns (t: State)
    requires Inv(c, s) && s.mode.Running? && c.g.size > LOGSIZE
    requires IsInOp(s, p) && s.pc[p].unlogged == {} && Home(c, w.a) && Free(s, w.a)
    requires |s.pc[p].wrote + {w.a}| <= MAXOPBLOCKS && |s.lh| < LOGSIZE
    ensures Does(c, s, Stores(p, w)) == Next(t) && Inv(c, t) && t.mode.Running?
    ensures |s.disk| == |c.image| == |t.disk|
    ensures t.pc == s.pc[p := InOp(s.pc[p].wrote + {w.a}, {})]
    ensures t.lh == if w.a in s.lh then s.lh else s.lh + [w.a]
    ensures forall q, b :: Owns(t, q, b) <==> Owns(s, q, b)
    ensures forall b :: 0 <= b < |c.image| && !c.g.InLog(b) ==> Content(t, b) == if w.a == b then w.v else Content(s, b)
  {
    hide Inv, Step, Owns, Content, Does;
    var x, y, z, r := Bread(p, w.a), Modify(p, w.a, w.v), LogWrite(p, w.a), Brelse(p, w.a);
    StepReady(c, s, x);
    var s1 := Step(c, s, x).s;
    StepShows(c, s, x);
    PcMoves(c, s, x);
    StepReady(c, s1, y);
    var s2 := Step(c, s1, y).s;
    StepShows(c, s1, y);
    PcMoves(c, s1, y);
    StepReady(c, s2, z);
    var s3 := Step(c, s2, z).s;
    StepShows(c, s2, z);
    PcMoves(c, s2, z);
    StepReady(c, s3, r);
    t := Step(c, s3, r).s;
    StepShows(c, s3, r);
    PcMoves(c, s3, r);
    FourSteps(c, s, x, y, z, r);
  }

  /** Nobody is in an operation or committing, and nobody holds one of these blocks. */
  ghost predicate Idle(c: Config, s: State, ws: seq<Store>) {
    && s.mode.Running? && (forall q :: 0 <= q < |s.pc| ==> s.pc[q].Outside?)
    && forall i :: 0 <= i < |ws| ==> Home(c, ws[i].a) && Free(s, ws[i].a)
  }

  lemma {:induction false} StoresGo(c: Config, s: State, p: Pid, ws: seq<Store>) returns (t: State)
    requires Inv(c, s) && s.mode.Running? && c.g.size > LOGSIZE && |s.disk| == |c.image|
    requires IsInOp(s, p) && s.pc[p] == InOp({}, {}) && s.lh == []
    requires forall i :: 0 <= i < |ws| ==> Home(c, ws[i].a) && Free(s, ws[i].a)
    requires |Blocks(ws)| <= MAXOPBLOCKS
    ensures Does(c, s, Body(p, ws)) == Next(t) && Inv(c, t) && t.mode.Running? && |t.disk| == |c.image|
    ensures t.pc == s.pc[p := InOp(Blocks(ws), {})] && Elems(t.lh) == Blocks(ws) && Distinct(t.lh)
    ensures forall q, b :: Owns(t, q, b) <==> Owns(s, q, b)
    ensures forall b :: 0 <= b < |c.image| && !c.g.InLog(b) ==> Content(t, b) == Last(ws, b, Content(s, b))
  {
    hide Inv, Step, Owns, Content, Does, Blocks, Distinct, Elems, Last, Body;
    BodyEnds(p, ws);
    DoesNone(c, s);
    if ws == [] {
      t := s;
      BlocksSnoc([], Store(0, Data([])));
    } else {
      var us, w := ws[..|ws| - 1], ws[|ws| - 1];
      BlocksSnoc(us, w);
      assert ws == us + [w];
      Sets.SubsetSize(Blocks(us), Blocks(ws));
      var u := StoresGo(c, s, p, us);
      ElemsSize(u.lh);
      t := OneStore(c, u, p, w);
      ElemsSnoc(u.lh, w.a);
      if w.a !in u.lh { DistinctSnoc(u.lh, w.a); }
      assert w.a in u.lh ==> Elems(u.lh) + {w.a} == Elems(u.lh);
      DoesOn(c, s, Body(p, us), Stores(p, w));
      forall b, v ensures Last(ws, b, v) == if w.a == b then w.v else Last(us, b, v) { LastEnds(ws, b, v); }
    }
  }

  lemma BodyEnds(p: Pid, ws: seq<Store>)
    ensures ws == [] ==> Body(p, ws) == []
    ensures ws != [] ==> Body(p, ws) == Body(p, ws[..|ws| - 1]) + Stores(p, ws[|ws| - 1])
    ensures ws == [] ==> forall b, v :: Last(ws, b, v) == v
  {
  }

  lemma LastEnds(ws: seq<Store>, b: nat, v: Block)
    requires ws != []
    ensures Last(ws, b, v) == if ws[|ws| - 1].a == b then ws[|ws| - 1].v else Last(ws[..|ws| - 1], b, v)
  {
  }

  lemma DoesNone(c: Config, s: State)
    ensures Does(c, s, []) == Next(s) && Elems([]) == {} && Distinct([])
  {
  }

  lemma DistinctSnoc(s: seq<nat>, a: nat)
    requires Distinct(s) && a !in s
    ensures Distinct(s + [a])
  {
  }

  lemma BlocksSnoc(us: seq<Store>, w: Store)
    ensures Blocks([]) == {} && Blocks(us + [w]) == Blocks(us) + {w.a}
  {
    var ws := us + [w];
    assert forall i :: 0 <= i < |us| ==> ws[i] == us[i];
    assert ws[|us|] == w;
    forall a ensures a in Blocks(ws) <==> a in Blocks(us) + {w.a} {
      if a in Blocks(us) {
        var i :| 0 <= i < |us| && us[i].a == a;
        assert ws[i].a == a;
      }
    }
  }

  /** The log is empty while nobody is in an operation or commits. */
  lemma {:induction false} EmptyWhenIdle(c: Config, acts: seq<Action>)
    requires GoodImage(c.g, c.image) && Run(c, acts).Next?
    ensures var s := Run(c, acts).s; s.mode.Running? && !s.committing && s.outstanding == 0 ==> s.lh == []
  {
    hide Inv, Step;
    if acts != [] {
      EmptyWhenIdle(c, acts[..|acts| - 1]);
      RunKeeps(c, acts[..|acts| - 1]);
      EmptyAtRest(c, Run(c, acts[..|acts| - 1]).s, acts[|acts| - 1]);
    }
  }

  lemma BeginIdle(c: Config, s: State, p: Pid) returns (t: State)
    requires Inv(c, s) && s.mode.Running? && s.lh == [] && p < |s.pc| && forall q :: 0 <= q < |s.pc| ==> s.pc[q].Outside?
    ensures Step(c, s, BeginOp(p)) == Next(t) && t.lh == [] && t.pc == s.pc[p := InOp({}, {})]
  {
    NoneActive(s.pc);
    t := DoBeginOp(s, p).s;
  }

  lemma EndCommits(c: Config, s: State, p: Pid) returns (t: State)
    requires Inv(c, s) && s.mode.Running? && IsInOp(s, p) && s.pc[p].unlogged == {}
    requires forall q :: 0 <= q < |s.pc| && q != p ==> s.pc[q].Outside?
    ensures Step(c, s, EndOp(p)) == Next(t) && t.lh == s.lh && t.pc == s.pc[p := t.pc[p]] && t.pc[p].Committing?
  {
    hide Hists, WalInvariant.Data, Shape;
    SlackLeft(s.pc, p);
    ActiveUpdate(s.pc, p, Outside);
    NoneActive(s.pc[p := Outside]);
    t := DoEndOp(s, p).s;
  }

  lemma SameHolders(s: State, t: State, a: nat)
    requires forall q, b :: Owns(t, q, b) <==> Owns(s, q, b)
    ensures Free(t, a) <==> Free(s, a)
  {
  }

  lemma IdleMeans(c: Config, s: State, ws: seq<Store>)
    requires Inv(c, s) && Idle(c, s, ws)
    ensures !s.committing && s.outstanding == 0
  {
    NoneActive(s.pc);
  }

  /** An operation that stores to at most MAXOPBLOCKS blocks, which nobody else holds, goes through from begin_op to the
      end of its commit; after that the disk itself holds its stores, and everything else as it was read before. */
  lemma {:induction false} OperationEnds(c: Config, acts: seq<Action>, p: Pid, ws: seq<Store>) returns (u: State, t: State)
    requires GoodImage(c.g, c.image) && Run(c, acts).Next? && c.g.size > LOGSIZE
    requires p < |Run(c, acts).s.pc| && Idle(c, Run(c, acts).s, ws) && |Blocks(ws)| <= MAXOPBLOCKS
    ensures var s := Run(c, acts).s;
      && Run(c, acts + ([BeginOp(p)] + Body(p, ws) + [EndOp(p)])) == Next(u)
      && CommitAlone(c, u, p, StepsLeft(u, p)) == Next(t)
      && t.pc == s.pc && t.mode.Running? && t.lh == [] && t.durable == |t.hist|
      && |t.disk| == |s.disk| == |c.image|
      && forall b :: 0 <= b < |c.image| && !c.g.InLog(b) ==>
           t.disk[b] == Content(t, b) == Last(ws, b, Content(s, b))
  {
    hide Run, Inv, Step, Does, Content, Owns, Elems, Distinct, CommitAlone, StepsLeft, Last, Free;
    RunKeeps(c, acts);
    EmptyWhenIdle(c, acts);
    var s := Run(c, acts).s;
    InvSizes(c, s);
    IdleMeans(c, s, ws);
    var s1 := BeginIdle(c, s, p);
    StepShows(c, s, BeginOp(p));
    forall i | 0 <= i < |ws| ensures Free(s1, ws[i].a) { SameHolders(s, s1, ws[i].a); }
    var s2 := StoresGo(c, s1, p, ws);
    u := EndCommits(c, s2, p);
    StepShows(c, s2, EndOp(p));
    DoesOne(c, s, BeginOp(p));
    DoesOn(c, s, [BeginOp(p)], Body(p, ws));
    DoesOne(c, s2, EndOp(p));
    DoesOn(c, s, [BeginOp(p)] + Body(p, ws), [EndOp(p)]);
    RunDoes(c, acts, [BeginOp(p)] + Body(p, ws) + [EndOp(p)]);
    forall a | a in u.lh ensures Unowned(u, a) {
      assert a in Blocks(ws);
      var i :| 0 <= i < |ws| && ws[i].a == a;
      SameHolders(s, u, a);
      FreeIsUnowned(u, a);
    }
    t := AloneEnds(c, u, p);
    AtRest(c, t);
    forall b | 0 <= b < |c.image| && !c.g.InLog(b)
      ensures t.disk[b] == Content(t, b) == Last(ws, b, Content(s, b))
    {
      ShowsCurrent(c, u, b);
      ShowsCurrent(c, t, b);
    }
  }
}
