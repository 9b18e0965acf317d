// The logging protocol of OS-Lab-1/log.c as a transition system: any number of
// processes run file-system operations concurrently, and power may fail
// between any two block writes, including those of recovery itself.

module Wal {
  import opened Params
  import opened Options
  import opened Disk

  type Pid = nat

  /** What happened, in the order it happened. */
  datatype Event =
    | Begin(p: Pid)                       // begin_op returned
    | Write(p: Pid, a: nat, v: Block)     // p stored v into its locked buffer for a
    | End(p: Pid)                         // end_op gave the operation up

  /** A cached buffer; owner is the holder of its sleep-lock. */
  datatype Buf = Buf(data: Block, dirty: bool, owner: Option<Pid>)

  datatype CommitStep =
    | WriteLog(tail: nat)
    | WriteHead
    | InstallTrans(tail: nat)
    | ClearHead
    | Wakeup

  datatype Pc =
    | Outside
    | InOp(wrote: set<nat>, unlogged: set<nat>)   // blocks passed to log_write; blocks modified since
    | Committing(step: CommitStep)

  datatype Mode =
    | Running
    | ReadHead
    | Reinstall(tail: nat)
    | ClearAfterInstall

  datatype Config = Config(g: Layout, image: Image, nproc: nat)

  datatype State = State(
    disk: Image,
    cache: map<nat, Buf>,
    lh: seq<nat>,            // log.lh.block[0..log.lh.n]
    outstanding: int,
    committing: bool,
    pc: seq<Pc>,
    mode: Mode,
    hist: seq<Event>,        // history of everything not yet lost
    durable: nat)            // how much of hist the disk has taken

  datatype Action =
    | Bread(p: Pid, a: nat)
    | Modify(p: Pid, a: nat, v: Block)
    | LogWrite(p: Pid, a: nat)
    | Brelse(p: Pid, a: nat)
    | Evict(a: nat)
    | BeginOp(p: Pid)
    | EndOp(p: Pid)
    | Commit(p: Pid)
    | Crash
    | Recover

  datatype Panic = TooBigTransaction | OutsideOfTrans | LogCommitting

  datatype Outcome =
    | Next(s: State)
    | Disabled
    | Panics(why: Panic)

  function SetPc(s: State, p: Pid, pc: Pc): (r: State)
    requires p < |s.pc|
    ensures |r.pc| == |s.pc|
  {
    s.(pc := s.pc[p := pc])
  }

  predicate IsInOp(s: State, p: Pid) {
    p < |s.pc| && s.pc[p].InOp?
  }

  predicate Owns(s: State, p: Pid, a: nat) {
    a in s.cache && s.cache[a].owner == Some(p)
  }

  predicate Unowned(s: State, a: nat) {
    a in s.cache ==> s.cache[a].owner == None
  }

  /** The copy of block a that bread returns. */
  function Content(s: State, a: nat): Block
    requires a < |s.disk|
  {
    if a in s.cache then s.cache[a].data else s.disk[a]
  }

  function DoBread(c: Config, s: State, p: Pid, a: nat): Outcome {
    if s.mode.Running? && p < |s.pc| && !s.pc[p].Committing?
       && a < |s.disk| && !c.g.InLog(a) && Unowned(s, a)
    then
      var dirty := a in s.cache && s.cache[a].dirty;
      Next(s.(cache := s.cache[a := Buf(Content(s, a), dirty, Some(p))]))
    else Disabled
  }

  /** Callers change b->data only inside an operation and only while they hold the buffer. */
  function DoModify(c: Config, s: State, p: Pid, a: nat, v: Block): Outcome {
    if IsInOp(s, p) && Owns(s, p, a) then
      var s1 := s.(cache := s.cache[a := s.cache[a].(data := v)],
                   hist := s.hist + [Write(p, a, v)]);
      Next(SetPc(s1, p, s.pc[p].(unlogged := s.pc[p].unlogged + {a})))
    else Disabled
  }

  /** An operation may log at most MAXOPBLOCKS distinct blocks. */
  predicate WithinBudget(s: State, p: Pid, a: nat)
    requires IsInOp(s, p)
  {
    |s.pc[p].wrote + {a}| <= MAXOPBLOCKS
  }

  function DoLogWrite(c: Config, s: State, p: Pid, a: nat): Outcome {
    if !(IsInOp(s, p) && Owns(s, p, a) && WithinBudget(s, p, a)) then Disabled
    else if |s.lh| >= LOGSIZE || |s.lh| >= c.g.size - 1 then Panics(TooBigTransaction)
    else if s.outstanding < 1 then Panics(OutsideOfTrans)
    else
      var s1 := s.(lh := if a in s.lh then s.lh else s.lh + [a],
                   cache := s.cache[a := s.cache[a].(dirty := true)]);
      Next(SetPc(s1, p, InOp(s.pc[p].wrote + {a}, s.pc[p].unlogged - {a})))
  }

  function DoBrelse(c: Config, s: State, p: Pid, a: nat): Outcome {
    if p < |s.pc| && Owns(s, p, a) && (s.pc[p].InOp? ==> a !in s.pc[p].unlogged) then
      Next(s.(cache := s.cache[a := s.cache[a].(owner := None)]))
    else Disabled
  }

  /** bget recycles a buffer that nobody holds and that is not B_DIRTY. */
  function DoEvict(s: State, a: nat): Outcome {
    if a in s.cache && Unowned(s, a) && !s.cache[a].dirty then
      Next(s.(cache := s.cache - {a}))
    else Disabled
  }

  function DoBeginOp(s: State, p: Pid): Outcome {
    if s.mode.Running? && p < |s.pc| && s.pc[p].Outside?
       && !s.committing && |s.lh| + (s.outstanding + 1) * MAXOPBLOCKS <= LOGSIZE
    then
      Next(SetPc(s.(outstanding := s.outstanding + 1, hist := s.hist + [Begin(p)]),
                 p, InOp({}, {})))
    else Disabled   // sleeps on &log
  }

  function DoEndOp(s: State, p: Pid): Outcome {
    if !(IsInOp(s, p) && s.pc[p].unlogged == {}) then Disabled
    else if s.committing then Panics(LogCommitting)
    else
      var s1 := s.(outstanding := s.outstanding - 1, hist := s.hist + [End(p)]);
      if s1.outstanding != 0 then Next(SetPc(s1, p, Outside))
      else if |s.lh| > 0 then
        Next(SetPc(s1.(committing := true), p, Committing(WriteLog(0))))
      else
        Next(SetPc(s1.(committing := true, durable := |s1.hist|), p, Committing(Wakeup)))
  }

  function DoCommit(c: Config, s: State, p: Pid): Outcome {
    if !(p < |s.pc| && s.pc[p].Committing? && c.g.start < |s.disk| && s.disk[c.g.start].Header?) then Disabled
    else match s.pc[p].step
      case WriteLog(t) => CommitWriteLog(c, s, p, t)
      case WriteHead =>
        var h := s.disk[c.g.start];
        if |s.lh| > |h.block| then Disabled
        else
          Next(SetPc(s.(disk := s.disk[c.g.start := Header(|s.lh|, s.lh + h.block[|s.lh|..])],
                        durable := |s.hist|),
                     p, Committing(InstallTrans(0))))
      case InstallTrans(t) => CommitInstall(c, s, p, t)
      case ClearHead =>
        Next(SetPc(s.(disk := s.disk[c.g.start := s.disk[c.g.start].(n := 0)]),
                   p, Committing(Wakeup)))
      case Wakeup =>
        Next(SetPc(s.(committing := false), p, Outside))
  }

  /** One turn of write_log's loop: the block as the cache has it goes to slot t. */
  function CommitWriteLog(c: Config, s: State, p: Pid, t: nat): Outcome
    requires p < |s.pc|
  {
    if t < |s.lh| && s.lh[t] < |s.disk| && c.g.start + t + 1 < |s.disk| && Unowned(s, s.lh[t]) then
      var a := s.lh[t];
      var cache1 := if a in s.cache then s.cache else s.cache[a := Buf(s.disk[a], false, None)];
      Next(SetPc(s.(disk := s.disk[c.g.start + t + 1 := Content(s, a)], cache := cache1),
                 p, Committing(if t + 1 < |s.lh| then WriteLog(t + 1) else WriteHead)))
    else Disabled
  }

  /** One turn of install_trans's loop. */
  function CommitInstall(c: Config, s: State, p: Pid, t: nat): Outcome
    requires p < |s.pc|
  {
    if t < |s.lh| && s.lh[t] < |s.disk| && c.g.start + t + 1 < |s.disk| && Unowned(s, s.lh[t]) then
      var a := s.lh[t];
      var v := s.disk[c.g.start + t + 1];
      var s1 := s.(disk := s.disk[a := v], cache := s.cache[a := Buf(v, false, None)]);
      if t + 1 < |s.lh| then Next(SetPc(s1, p, Committing(InstallTrans(t + 1))))
      else Next(SetPc(s1.(lh := []), p, Committing(ClearHead)))
    else Disabled
  }

  /** Power fails: memory is gone, and with it whatever the disk had not taken. */
  function DoCrash(s: State): Outcome {
    if s.durable <= |s.hist| then
      Next(State(s.disk, map[], [], 0, false, seq(|s.pc|, _ => Outside), ReadHead,
                 s.hist[..s.durable], s.durable))
    else Disabled
  }

  function DoRecover(c: Config, s: State): Outcome {
    if !(c.g.start < |s.disk| && s.disk[c.g.start].Header?) then Disabled
    else match s.mode
      case Running => Disabled
      case ReadHead =>
        var h := s.disk[c.g.start];
        if h.n > |h.block| then Disabled
        else Next(s.(lh := Logged(h), mode := if h.n > 0 then Reinstall(0) else ClearAfterInstall))
      case Reinstall(t) =>
        if t < |s.lh| && s.lh[t] < |s.disk| && c.g.start + t + 1 < |s.disk| then
          var a := s.lh[t];
          var v := s.disk[c.g.start + t + 1];
          Next(s.(disk := s.disk[a := v], cache := s.cache[a := Buf(v, false, None)],
                  mode := if t + 1 < |s.lh| then Reinstall(t + 1) else ClearAfterInstall))
        else Disabled
      case ClearAfterInstall =>
        Next(s.(disk := s.disk[c.g.start := s.disk[c.g.start].(n := 0)], lh := [], mode := Running))
  }

  function Step(c: Config, s: State, act: Action): Outcome {
    match act
    case Bread(p, a) => DoBread(c, s, p, a)
    case Modify(p, a, v) => DoModify(c, s, p, a, v)
    case LogWrite(p, a) => DoLogWrite(c, s, p, a)
    case Brelse(p, a) => DoBrelse(c, s, p, a)
    case Evict(a) => DoEvict(s, a)
    case BeginOp(p) => DoBeginOp(s, p)
    case EndOp(p) => DoEndOp(s, p)
    case Commit(p) => DoCommit(c, s, p)
    case Crash => DoCrash(s)
    case Recover => DoRecover(c, s)
  }

  /** Power on with an arbitrary image that has a log header. */
  function Boot(c: Config): State {
    State(c.image, map[], [], 0, false, seq(c.nproc, _ => Outside), ReadHead, [], 0)
  }

  /** The state after a run, if every action of the run could be taken. */
  function Run(c: Config, acts: seq<Action>): Outcome {
    if acts == [] then Next(Boot(c))
    else
      var r := Run(c, acts[..|acts| - 1]);
      if r.Next? then Step(c, r.s, acts[|acts| - 1]) else r
  }

  // ----- what a history means

  /** The home blocks after the writes of a history, in order. */
  function Replay(base: Image, h: seq<Event>): (r: Image)
    ensures |r| == |base|
  {
    if h == [] then base
    else
      var r := Replay(base, h[..|h| - 1]);
      var e := h[|h| - 1];
      if e.Write? && e.a < |base| then r[e.a := e.v] else r
  }

  /** The operations begun and not ended in a history. */
  function Open(h: seq<Event>): set<Pid> {
    if h == [] then {}
    else
      var r := Open(h[..|h| - 1]);
      match h[|h| - 1]
      case Begin(p) => r + {p}
      case End(p) => r - {p}
      case Write(_, _, _) => r
  }

  /** No operation is begun twice, and every write and end belongs to an open one. */
  predicate Bracketed(h: seq<Event>) {
    h == [] ||
    (Bracketed(h[..|h| - 1]) &&
     (var open := Open(h[..|h| - 1]);
      match h[|h| - 1]
      case Begin(p) => p !in open
      case End(p) => p in open
      case Write(p, _, _) => p in open))
  }

  /** A history made of whole operations only. */
  predicate WholeOps(h: seq<Event>) {
    Bracketed(h) && Open(h) == {}
  }
}
