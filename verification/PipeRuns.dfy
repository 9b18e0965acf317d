// Pipes over whole runs: any number of readers and writers, each step what one
// of them does between two times that it holds the pipe's lock (OS-Lab-1/pipe.c:60-121).

module PipeRuns {
  import opened Options
  import opened Disk
  import opened Pipe

  datatype Who =
    | Idle
    | Writing(buf: seq<byte>, at: nat, asleep: bool, id: nat)   // asleep on &p->nwrite
    | Reading(n: int, asleep: bool)                             // asleep on &p->nread

  /** A call of pipewrite: its bytes, how many of them it has put in, and what it has returned: n or -1. */
  datatype Call = Call(buf: seq<byte>, put: nat, ended: Option<bool>)

  datatype State = State(
    q: Queue,
    procs: seq<Who>,
    killed: seq<bool>,
    got: seq<seq<byte>>,     // what each read returned, in order
    calls: seq<Call>,        // the writes, in the order in which they began
    source: seq<nat>)        // the write that each byte came from

  datatype Action =
    | StartWrite(p: nat, buf: seq<byte>)
    | StartRead(p: nat, n: int)
    | Go(p: nat)             // p takes the lock and runs until it returns or sleeps
    | Kill(p: nat)
    | CloseEnd(writable: bool)

  function Awake(w: Who): Who {
    match w
    case Idle => Idle
    case Writing(_, _, _, _) => w.(asleep := false)
    case Reading(n, _) => Reading(n, false)
  }

  function WakeReaders(procs: seq<Who>): (r: seq<Who>)
    ensures |r| == |procs|
    ensures forall i :: 0 <= i < |procs| ==>
      r[i] == if procs[i].Reading? then Awake(procs[i]) else procs[i]
  {
    seq(|procs|, i requires 0 <= i < |procs| => if procs[i].Reading? then Awake(procs[i]) else procs[i])
  }

  function WakeWriters(procs: seq<Who>): (r: seq<Who>)
    ensures |r| == |procs|
    ensures forall i :: 0 <= i < |procs| ==>
      r[i] == if procs[i].Writing? then Awake(procs[i]) else procs[i]
  {
    seq(|procs|, i requires 0 <= i < |procs| => if procs[i].Writing? then Awake(procs[i]) else procs[i])
  }

  predicate Shape(s: State) {
    && |s.procs| == |s.killed| && Fifo(s.q)
    && forall p :: 0 <= p < |s.procs| && s.procs[p].Writing? ==>
         s.procs[p].at <= |s.procs[p].buf| && s.procs[p].id < |s.calls|
  }

  predicate Ready(s: State, p: nat) {
    p < |s.procs| && !s.procs[p].Idle? && !s.procs[p].asleep
  }

  function GoWrite(s: State, p: nat): State
    requires Shape(s) && Ready(s, p) && s.procs[p].Writing?
  {
    var w := s.procs[p];
    var (q, e) := WriteSection(s.q, w.buf, w.at, s.killed[p]);
    match e
    case Wrote => Puts(s, w, q, Some(true)).(procs := WakeReaders(s.procs)[p := Idle])
    case WriteSleeps(at) => Puts(s, w, q, None).(procs := WakeReaders(s.procs)[p := w.(at := at, asleep := true)])
    case WriteFailed => Puts(s, w, q, Some(false)).(procs := s.procs[p := Idle])   // no wakeup
  }

  /** The write of w has put in what q has more than s. */
  function Puts(s: State, w: Who, q: Queue, ended: Option<bool>): State
    requires w.Writing? && w.id < |s.calls| && |s.q.written| <= |q.written|
  {
    var k := |q.written| - |s.q.written|;
    s.(q := q, calls := s.calls[w.id := Call(w.buf, w.at + k, ended)], source := s.source + seq(k, _ => w.id))
  }

  function GoRead(s: State, p: nat): State
    requires Shape(s) && Ready(s, p) && s.procs[p].Reading?
  {
    var (q, e) := ReadSection(s.q, s.procs[p].n, s.killed[p]);
    match e
    case Got(bytes) => s.(q := q, procs := WakeWriters(s.procs)[p := Idle], got := s.got + [bytes])
    case ReadSleeps => s.(procs := s.procs[p := Reading(s.procs[p].n, true)])
    case ReadFailed => s.(procs := s.procs[p := Idle])
  }

  /** None when the action cannot be taken. */
  function Step(s: State, act: Action): Option<State>
    requires Shape(s)
  {
    match act
    case StartWrite(p, buf) =>
      if p < |s.procs| && s.procs[p].Idle? then
        Some(s.(procs := s.procs[p := Writing(buf, 0, false, |s.calls|)], calls := s.calls + [Call(buf, 0, None)]))
      else None
    case StartRead(p, n) =>
      if p < |s.procs| && s.procs[p].Idle? then Some(s.(procs := s.procs[p := Reading(n, false)])) else None
    case Go(p) =>
      if !Ready(s, p) then None else Some(if s.procs[p].Writing? then GoWrite(s, p) else GoRead(s, p))
    case Kill(p) =>
      if p >= |s.procs| then None
      else
        Some(s.(killed := s.killed[p := true], procs := s.procs[p := Awake(s.procs[p])]))
    case CloseEnd(writable) =>
      Some(s.(q := Close(s.q, writable), procs := if writable then WakeReaders(s.procs) else WakeWriters(s.procs)))
  }

  function Start(n: nat): State {
    State(Queue([], [], true, true), seq(n, _ => Idle), seq(n, _ => false), [], [], [])
  }

  function Flat(ss: seq<seq<byte>>): seq<byte> {
    if ss == [] then [] else Flat(ss[..|ss| - 1]) + ss[|ss| - 1]
  }

  predicate SleepingReader(s: State, p: nat) {
    p < |s.procs| && s.procs[p].Reading? && s.procs[p].asleep
  }

  predicate SleepingWriter(s: State, p: nat) {
    p < |s.procs| && s.procs[p].Writing? && s.procs[p].asleep
  }

  /** A wakeup was lost: a reader sleeps though there are bytes for it, or nobody left to write any. */
  ghost predicate Neglected(s: State) {
    (exists p: nat :: SleepingReader(s, p)) && !(Occupancy(s.q) == 0 && s.q.writeopen)
  }

  /** A writer that will give up is about to run, with more than a buffer's worth to go, while a reader sleeps. */
  ghost predicate Strands(s: State, act: Action) {
    && act.Go? && Ready(s, act.p) && s.procs[act.p].Writing? && act.p < |s.killed|
    && (s.killed[act.p] || !s.q.readopen)
    && |s.procs[act.p].buf| - s.procs[act.p].at > PIPESIZE
    && (exists r: nat :: SleepingReader(s, r))
  }

  /** The bytes of w that came from c. */
  function Part(w: seq<byte>, source: seq<nat>, c: nat): seq<byte>
    requires |source| == |w|
  {
    if w == [] then []
    else
      var n := |w| - 1;
      Part(w[..n], source[..n], c) + if source[n] == c then [w[n]] else []
  }

  lemma {:induction false} PartOn(w: seq<byte>, source: seq<nat>, b: seq<byte>, id: nat, c: nat)
    requires |source| == |w|
    ensures Part(w + b, source + seq(|b|, _ => id), c) == Part(w, source, c) + if c == id then b else []
  {
    if b == [] {
      assert w + b == w && source + seq(|b|, _ => id) == source;
    } else {
      var n := |b| - 1;
      var w', source' := w + b, source + seq(|b|, _ => id);
      assert w'[..|w'| - 1] == w + b[..n] && source'[..|w'| - 1] == source + seq(n, _ => id);
      PartOn(w, source, b[..n], id, c);
      assert b[..n] + [b[n]] == b;
    }
  }

  /** Each write has put in its first bytes, in order; all of them once it has returned n. */
  ghost predicate CallOk(s: State, c: nat)
    requires |s.source| == |s.q.written| && c < |s.calls|
  {
    && s.calls[c].put <= |s.calls[c].buf|
    && Part(s.q.written, s.source, c) == s.calls[c].buf[..s.calls[c].put]
    && (s.calls[c].ended == Some(true) ==> s.calls[c].put == |s.calls[c].buf|)
  }

  /** The writes, and the writers at work on them. */
  ghost predicate CallsOk(s: State) {
    && |s.source| == |s.q.written|
    && (forall k :: 0 <= k < |s.source| ==> s.source[k] < |s.calls|)
    && (forall c: nat :: c < |s.calls| ==> CallOk(s, c))
    && (forall p :: 0 <= p < |s.procs| && s.procs[p].Writing? ==>
          s.procs[p].id < |s.calls| && s.calls[s.procs[p].id] == Call(s.procs[p].buf, s.procs[p].at, None))
    && (forall p, r :: 0 <= p < r < |s.procs| && s.procs[p].Writing? && s.procs[r].Writing? ==>
          s.procs[p].id != s.procs[r].id)
    && (forall c: nat :: c < |s.calls| && s.calls[c].ended.None? ==>
          exists p :: 0 <= p < |s.procs| && s.procs[p].Writing? && s.procs[p].id == c)
  }

  ghost predicate Inv(s: State) {
    && Shape(s) && CallsOk(s) && s.q.taken == Flat(s.got)
    && (forall p: nat :: SleepingWriter(s, p) ==> Occupancy(s.q) == PIPESIZE && s.q.readopen)
    && (forall p: nat, r: nat :: SleepingWriter(s, p) ==> !SleepingReader(s, r))
    && (forall p: nat :: p < |s.procs| && !s.procs[p].Idle? && s.procs[p].asleep ==> !s.killed[p])
  }

  /** The same writers are at the same place in the same writes. */
  predicate SameWriters(a: seq<Who>, b: seq<Who>) {
    |a| == |b| && forall p :: 0 <= p < |a| ==>
      a[p].Writing? == b[p].Writing? && (a[p].Writing? ==> a[p].buf == b[p].buf && a[p].at == b[p].at && a[p].id == b[p].id)
  }

  lemma SameCalls(s: State, s': State)
    requires CallsOk(s) && SameWriters(s.procs, s'.procs)
    requires s'.q.written == s.q.written && s'.source == s.source && s'.calls == s.calls
    ensures CallsOk(s')
  {
    hide Part;
    forall c: nat | c < |s.calls| ensures CallOk(s', c) {
      assert CallOk(s, c);
    }
    forall c: nat | c < |s'.calls| && s'.calls[c].ended.None?
      ensures exists p :: 0 <= p < |s'.procs| && s'.procs[p].Writing? && s'.procs[p].id == c
    {
      var p :| 0 <= p < |s.procs| && s.procs[p].Writing? && s.procs[p].id == c;
      assert s'.procs[p].Writing? && s'.procs[p].id == c;
    }
  }

  lemma NewCall(s: State, p: nat, buf: seq<byte>)
    requires CallsOk(s) && Shape(s) && p < |s.procs| && s.procs[p].Idle?
    ensures CallsOk(Step(s, StartWrite(p, buf)).value)
  {
    hide Part;
    var s' := Step(s, StartWrite(p, buf)).value;
    NoPart(s.q.written, s.source, |s.calls|);
    forall c: nat | c < |s'.calls| ensures CallOk(s', c) {
      assert c < |s.calls| ==> CallOk(s, c);
    }
    forall c: nat | c < |s'.calls| && s'.calls[c].ended.None?
      ensures exists r :: 0 <= r < |s'.procs| && s'.procs[r].Writing? && s'.procs[r].id == c
    {
      if c < |s.calls| {
        var r :| 0 <= r < |s.procs| && s.procs[r].Writing? && s.procs[r].id == c;
        assert s'.procs[r].Writing? && s'.procs[r].id == c;
      } else {
        assert s'.procs[p].Writing? && s'.procs[p].id == c;
      }
    }
  }

  /** Nothing came from a write that has not begun. */
  lemma {:induction false} NoPart(w: seq<byte>, source: seq<nat>, c: nat)
    requires |source| == |w| && forall k :: 0 <= k < |source| ==> source[k] < c
    ensures Part(w, source, c) == []
  {
    if w != [] {
      NoPart(w[..|w| - 1], source[..|w| - 1], c);
    }
  }

  /** The bytes put in are the next ones of their write. */
  lemma PutCalls(s: State, p: nat, q: Queue, ended: Option<bool>, c: nat)
    requires CallsOk(s) && p < |s.procs| && s.procs[p].Writing? && c < |s.calls|
    requires var w := s.procs[p];
      var at := w.at + |q.written| - |s.q.written|;
      && |s.q.written| <= |q.written| && w.at <= at <= |w.buf| && q.written == s.q.written + w.buf[w.at..at]
      && (ended == Some(true) ==> at == |w.buf|)
    ensures s.procs[p].id < |s.calls|
    ensures |Puts(s, s.procs[p], q, ended).source| == |q.written| && CallOk(Puts(s, s.procs[p], q, ended), c)
  {
    hide Part;
    var w := s.procs[p];
    var at := w.at + |q.written| - |s.q.written|;
    PartOn(s.q.written, s.source, w.buf[w.at..at], w.id, c);
    assert CallOk(s, c);
    assert w.buf[..w.at] + w.buf[w.at..at] == w.buf[..at];
  }

  lemma GoWriteCalls(s: State, p: nat)
    requires Inv(s) && Ready(s, p) && s.procs[p].Writing?
    ensures CallsOk(GoWrite(s, p))
  {
    hide Part, CallOk, Flat, WriteSection, Fifo;
    var w, s' := s.procs[p], GoWrite(s, p);
    var (q, e) := WriteSection(s.q, w.buf, w.at, s.killed[p]);
    WriteFifo(s.q, w.buf, w.at, s.killed[p]);
    var ended := s'.calls[w.id].ended;
    var t := Puts(s, w, q, ended);
    assert s' == t.(procs := s'.procs);
    forall c: nat | c < |s.calls| ensures CallOk(s', c) {
      PutCalls(s, p, q, ended, c);
      CallAlike(t, s', c);
    }
    forall c: nat | c < |s'.calls| && s'.calls[c].ended.None?
      ensures exists r :: 0 <= r < |s'.procs| && s'.procs[r].Writing? && s'.procs[r].id == c
    {
      StillWriting(s, p, c);
    }
  }

  lemma StillWriting(s: State, p: nat, c: nat)
    requires Inv(s) && Ready(s, p) && s.procs[p].Writing? && c < |GoWrite(s, p).calls|
    requires GoWrite(s, p).calls[c].ended.None?
    ensures var s' := GoWrite(s, p); exists r :: 0 <= r < |s'.procs| && s'.procs[r].Writing? && s'.procs[r].id == c
  {
    hide Part, CallOk, Flat, WriteSection, Fifo;
    var w, s' := s.procs[p], GoWrite(s, p);
    if c == w.id {
      assert s'.procs[p].Writing? && s'.procs[p].id == c;
    } else {
      var r :| 0 <= r < |s.procs| && s.procs[r].Writing? && s.procs[r].id == c;
      assert s'.procs[r].Writing? && s'.procs[r].id == c;
    }
  }

  lemma CallAlike(s: State, s': State, c: nat)
    requires |s.source| == |s.q.written| && c < |s.calls| && CallOk(s, c)
    requires s'.q.written == s.q.written && s'.source == s.source && s'.calls == s.calls
    ensures CallOk(s', c)
  {
  }

  lemma GoWriteKeeps(s: State, p: nat)
    requires Inv(s) && Ready(s, p) && s.procs[p].Writing?
    ensures Inv(GoWrite(s, p))
  {
    hide Flat, CallsOk;
    var s' := GoWrite(s, p);
    GoWriteCalls(s, p);
    WriteFifo(s.q, s.procs[p].buf, s.procs[p].at, s.killed[p]);
    forall x: nat | SleepingWriter(s', x) && x != p ensures SleepingWriter(s, x) {
    }
    forall x: nat | SleepingReader(s', x) ensures SleepingReader(s, x) {
    }
  }

  lemma GoReadKeeps(s: State, p: nat)
    requires Inv(s) && Ready(s, p) && s.procs[p].Reading?
    ensures Inv(GoRead(s, p))
  {
    hide CallsOk, Flat;
    var s' := GoRead(s, p);
    ReadFifo(s.q, s.procs[p].n, s.killed[p]);
    SameCalls(s, s');
    var e := ReadSection(s.q, s.procs[p].n, s.killed[p]).1;
    if e.Got? {
      FlatOn(s.got, e.bytes);
    }
    forall x: nat | SleepingWriter(s', x) ensures SleepingWriter(s, x) && !e.Got? {
    }
    forall x: nat | SleepingReader(s', x) && x != p ensures SleepingReader(s, x) {
    }
  }

  lemma FlatOn(ss: seq<seq<byte>>, b: seq<byte>)
    ensures Flat(ss + [b]) == Flat(ss) + b
  {
    assert (ss + [b])[..|ss|] == ss;
  }

  lemma StepKeeps(s: State, act: Action, s': State)
    requires Inv(s) && Step(s, act) == Some(s')
    ensures Inv(s')
  {
    hide Flat, GoRead, GoWrite, CallsOk;
    if act.Go? {
      if s.procs[act.p].Writing? {
        GoWriteKeeps(s, act.p);
      } else {
        GoReadKeeps(s, act.p);
      }
    } else {
      if act.StartWrite? {
        NewCall(s, act.p, act.buf);
      } else {
        SameCalls(s, s');
      }
      forall x: nat | SleepingWriter(s', x) ensures SleepingWriter(s, x) && !(act.CloseEnd? && !act.writable) {
      }
      forall x: nat | SleepingReader(s', x) ensures SleepingReader(s, x) {
      }
    }
  }

  /** The one way to lose a wakeup: from a state in which none is lost, a step loses one
      if and only if it is a writer that gives up after filling the pipe beside a sleeping reader. */
  lemma NeglectsIffStrands(s: State, act: Action, s': State)
    requires Inv(s) && !Neglected(s) && Step(s, act) == Some(s')
    ensures Neglected(s') <==> Strands(s, act)
  {
    hide Flat, GoRead, GoWrite;
    if act.Go? {
      if s.procs[act.p].Writing? {
        WriterNeglects(s, act.p);
      } else {
        ReaderNeglectsNone(s, act.p);
      }
    } else {
      forall x: nat | SleepingReader(s', x) ensures SleepingReader(s, x) && !(act.CloseEnd? && act.writable) {
      }
    }
  }

  lemma WriterNeglects(s: State, p: nat)
    requires Inv(s) && !Neglected(s) && Ready(s, p) && s.procs[p].Writing?
    ensures Neglected(GoWrite(s, p)) <==> Strands(s, Go(p))
  {
    hide Flat;
    var s' := GoWrite(s, p);
    var w := s.procs[p];
    WriteFifo(s.q, w.buf, w.at, s.killed[p]);
    var e := WriteSection(s.q, w.buf, w.at, s.killed[p]).1;
    forall x: nat ensures SleepingReader(s', x) <==> SleepingReader(s, x) && e == WriteFailed {
    }
    if r: nat :| SleepingReader(s, r) {
      assert Occupancy(s.q) == 0;
      assert SleepingReader(s', r) <==> e == WriteFailed;
    }
  }

  lemma ReaderNeglectsNone(s: State, p: nat)
    requires Inv(s) && !Neglected(s) && Ready(s, p) && s.procs[p].Reading?
    ensures !Neglected(GoRead(s, p))
  {
    hide Flat;
    var s' := GoRead(s, p);
    ReadFifo(s.q, s.procs[p].n, s.killed[p]);
    if x: nat :| SleepingReader(s', x) {
      if x != p {
        assert SleepingReader(s, x);
      }
    }
  }

  /** The state after a run of n processes, if each of its actions could be taken. */
  function Run(n: nat, acts: seq<Action>): (r: Option<State>)
    ensures r.Some? ==> Inv(r.value) && |r.value.procs| == n
  {
    if acts == [] then
      Some(Start(n))
    else
      var r := Run(n, acts[..|acts| - 1]);
      if r.None? then None
      else
        var s' := Step(r.value, acts[|acts| - 1]);
        if s'.Some? then (StepKeeps(r.value, acts[|acts| - 1], s'.value); s') else None
  }

  /** What the reads returned, in the order of the lock, is a prefix of what was written. */
  lemma FirstInFirstOut(n: nat, acts: seq<Action>)
    requires Run(n, acts).Some?
    ensures var s := Run(n, acts).value;
      Flat(s.got) <= s.q.written && |s.q.written| - |Flat(s.got)| <= PIPESIZE
  {
  }

  /** Over every run: each write has put its first bytes into the pipe, in order, whatever other writers put between them;
      all of them if it has returned n; and every byte in the pipe came from some write. */
  lemma WritesWhole(n: nat, acts: seq<Action>, c: nat)
    requires Run(n, acts).Some? && c < |Run(n, acts).value.calls|
    ensures var s := Run(n, acts).value;
      && |s.source| == |s.q.written| && s.calls[c].put <= |s.calls[c].buf|
      && Part(s.q.written, s.source, c) == s.calls[c].buf[..s.calls[c].put]
      && (s.calls[c].ended == Some(true) ==> s.calls[c].put == |s.calls[c].buf|)
      && (forall k :: 0 <= k < |s.source| ==> s.source[k] < |s.calls|)
  {
    assert CallOk(Run(n, acts).value, c);
  }

  /** Over every run: a read of m bytes that takes its turn sleeps, or fails if the reader has been killed, just while the
      pipe is empty and open for writing; else it returns the next m bytes, or all there are. */
  lemma ReadReturns(n: nat, acts: seq<Action>, p: nat)
    requires Run(n, acts).Some? && Ready(Run(n, acts).value, p) && Run(n, acts).value.procs[p].Reading?
    ensures var s := Run(n, acts).value; var s' := GoRead(s, p);
      var m := if s.procs[p].n < 0 then 0 else s.procs[p].n;
      && Run(n, acts + [Go(p)]) == Some(s')
      && (if s.q.taken == s.q.written && s.q.writeopen then
            s'.got == s.got && s'.procs == s.procs[p := if s.killed[p] then Idle else Reading(s.procs[p].n, true)]
          else
            && |s'.got| == |s.got| + 1 && s'.got[..|s.got|] == s.got && s'.procs[p].Idle?
            && |s'.got[|s.got|]| == Min(m, Occupancy(s.q)) && Flat(s'.got) <= s.q.written)
      && s'.q == s.q.(taken := Flat(s'.got))
  {
    hide CallsOk, Flat;
    assert (acts + [Go(p)])[..|acts|] == acts;
    var s := Run(n, acts).value;
    ReadFifo(s.q, s.procs[p].n, s.killed[p]);
    GoReadKeeps(s, p);
  }

  lemma RunMeans(n: nat, acts: seq<Action>)
    requires Run(n, acts).Some?
    ensures Inv(Run(n, acts).value) && |Run(n, acts).value.procs| == n
  {
  }

  lemma RunGoes(n: nat, acts: seq<Action>, p: nat)
    requires Run(n, acts).Some? && Shape(Run(n, acts).value)
    ensures Run(n, acts + [Go(p)]) == Step(Run(n, acts).value, Go(p))
  {
    hide Step;
    assert (acts + [Go(p)])[..|acts|] == acts;
  }

  /** Over every run: a writer that takes its turn puts in the next bytes of its write, as many as there is room for.  Then it
      has returned n if these were the last; else the pipe is full, and it has returned -1 if nobody can read or it has been
      killed, and sleeps if not.  Readers wake unless it gave up. */
  lemma WriteReturns(n: nat, acts: seq<Action>, p: nat)
    requires Run(n, acts).Some? && Ready(Run(n, acts).value, p) && Run(n, acts).value.procs[p].Writing?
    ensures var s := Run(n, acts).value; var s' := GoWrite(s, p); var w := s.procs[p];
      var at := w.at + Min(|w.buf| - w.at, PIPESIZE - Occupancy(s.q));
      && Run(n, acts + [Go(p)]) == Some(s')
      && w.at <= at <= |w.buf| && s'.q == s.q.(written := s.q.written + w.buf[w.at..at])
      && w.id < |s'.calls| && s'.calls[w.id].put == at && s'.got == s.got
      && (s'.calls[w.id].ended == if at == |w.buf| then Some(true)
                                  else if !s.q.readopen || s.killed[p] then Some(false) else None)
      && (s'.calls[w.id].ended.None? ==> SleepingWriter(s', p)) && (s'.calls[w.id].ended.Some? ==> s'.procs[p].Idle?)
      && (s'.calls[w.id].ended != Some(false) ==> forall r: nat :: !SleepingReader(s', r))
  {
    hide CallsOk, Flat, Run, Part;
    var s := Run(n, acts).value;
    RunMeans(n, acts);
    RunGoes(n, acts, p);
    WriteFifo(s.q, s.procs[p].buf, s.procs[p].at, s.killed[p]);
    GoWriteKeeps(s, p);
  }

  /** Over every run: when an end is closed, nobody sleeps on what the other end might still have done; the bytes stay. */
  lemma CloseWakes(n: nat, acts: seq<Action>, writable: bool)
    requires Run(n, acts).Some?
    ensures var s := Run(n, acts).value; Step(s, CloseEnd(writable)).Some? && var s' := Step(s, CloseEnd(writable)).value;
      && s'.q == s.q.(readopen := s.q.readopen && writable, writeopen := s.q.writeopen && !writable)
      && (writable ==> forall r: nat :: !SleepingReader(s', r))
      && (!writable ==> forall w: nat :: !SleepingWriter(s', w))
      && (forall p: nat :: p < n && (if writable then s.procs[p].Writing? else s.procs[p].Reading?) ==> s'.procs[p] == s.procs[p])
  {
  }

  /** Over every run: what it takes to start a call, and what is then to be done; and that kill wakes whoever it hits. */
  lemma CallsStart(n: nat, acts: seq<Action>, p: nat, buf: seq<byte>, k: int)
    requires Run(n, acts).Some? && p < n
    ensures var s := Run(n, acts).value;
      && (Step(s, StartWrite(p, buf)).Some? <==> s.procs[p].Idle?) && (Step(s, StartRead(p, k)).Some? <==> s.procs[p].Idle?)
      && (s.procs[p].Idle? ==>
            && var t := Step(s, StartWrite(p, buf)).value;
            && t == s.(procs := s.procs[p := t.procs[p]], calls := s.calls + [Call(buf, 0, None)])
            && t.procs[p] == Writing(buf, 0, false, |s.calls|)
            && Step(s, StartRead(p, k)).value == s.(procs := s.procs[p := Reading(k, false)]))
      && Step(s, Kill(p)).Some? && var u := Step(s, Kill(p)).value;
      && u == s.(killed := s.killed[p := true], procs := u.procs) && |u.procs| == n
      && (forall q: nat :: q < n && q != p ==> u.procs[q] == s.procs[q])
      && SameWriters(s.procs, u.procs) && (s.procs[p].Reading? ==> u.procs[p] == Reading(s.procs[p].n, false))
      && !SleepingReader(u, p) && !SleepingWriter(u, p)
  {
    hide CallsOk, Flat;
  }

  /** No step of the run is a writer giving up beside a sleeping reader. */
  ghost predicate Strandless(n: nat, acts: seq<Action>) {
    forall k: nat :: k < |acts| && Run(n, acts[..k]).Some? ==> !Strands(Run(n, acts[..k]).value, acts[k])
  }

  /** No state along the run has lost a wakeup. */
  ghost predicate Attentive(n: nat, acts: seq<Action>) {
    forall k: nat :: k <= |acts| && Run(n, acts[..k]).Some? ==> !Neglected(Run(n, acts[..k]).value)
  }

  lemma {:induction false} RunPrefix(n: nat, acts: seq<Action>, k: nat)
    requires Run(n, acts).Some? && k <= |acts|
    ensures Run(n, acts[..k]).Some?
    decreases |acts| - k
  {
    if k == |acts| {
      assert acts[..k] == acts;
    } else {
      RunPrefix(n, acts, k + 1);
      assert acts[..k + 1][..k] == acts[..k];
    }
  }

  lemma RunNext(n: nat, acts: seq<Action>, k: nat)
    requires Run(n, acts).Some? && k < |acts|
    ensures Run(n, acts[..k]).Some? && Run(n, acts[..k + 1]).Some?
    ensures Step(Run(n, acts[..k]).value, acts[k]) == Run(n, acts[..k + 1])
  {
    RunPrefix(n, acts, k + 1);
    assert acts[..k + 1][..k] == acts[..k];
  }

  /** A run is free of lost wakeups throughout if and only if no step of it strands a reader. */
  lemma NoLostWakeup(n: nat, acts: seq<Action>)
    requires Run(n, acts).Some?
    ensures Attentive(n, acts) <==> Strandless(n, acts)
  {
    hide Run, Strands, Neglected, Inv;
    if Strandless(n, acts) {
      forall k: nat | k <= |acts| && Run(n, acts[..k]).Some? ensures !Neglected(Run(n, acts[..k]).value) {
        StrandlessKeeps(n, acts, k);
      }
    }
    if Attentive(n, acts) {
      forall k: nat | k < |acts| && Run(n, acts[..k]).Some? ensures !Strands(Run(n, acts[..k]).value, acts[k]) {
        RunNext(n, acts, k);
        NeglectsIffStrands(Run(n, acts[..k]).value, acts[k], Run(n, acts[..k + 1]).value);
      }
    }
  }

  lemma {:induction false} StrandlessKeeps(n: nat, acts: seq<Action>, k: nat)
    requires Run(n, acts).Some? && Strandless(n, acts) && k <= |acts|
    ensures Run(n, acts[..k]).Some? && !Neglected(Run(n, acts[..k]).value)
    decreases k
  {
    RunPrefix(n, acts, k);
    if k == 0 {
      assert acts[..0] == [];
      assert forall p: nat :: !SleepingReader(Start(n), p);
    } else {
      StrandlessKeeps(n, acts, k - 1);
      RunNext(n, acts, k - 1);
      NeglectsIffStrands(Run(n, acts[..k - 1]).value, acts[k - 1], Run(n, acts[..k]).value);
    }
  }

  /** A writer sleeps only on a full pipe that somebody may read, killed writers or not. */
  lemma WritersSleepOnFull(n: nat, acts: seq<Action>, p: nat)
    requires Run(n, acts).Some? && SleepingWriter(Run(n, acts).value, p)
    ensures Occupancy(Run(n, acts).value.q) == PIPESIZE && Run(n, acts).value.q.readopen
  {
  }

  /** A reader and a writer are never both asleep, killed writers or not. */
  lemma NoDeadlock(n: nat, acts: seq<Action>, p: nat, r: nat)
    requires Run(n, acts).Some?
    ensures !(SleepingWriter(Run(n, acts).value, p) && SleepingReader(Run(n, acts).value, r))
  {
  }

  /** Bytes a killed writer leaves behind: after these five actions the reader sleeps on beside a full pipe. */
  lemma KilledWriterStrands(buf: seq<byte>) returns (acts: seq<Action>)
    requires |buf| == PIPESIZE + 1
    ensures |acts| == 5
    ensures var r := Run(2, acts);
      && r.Some? && r.value.procs[0] == Reading(1, true) && Occupancy(r.value.q) == PIPESIZE && Neglected(r.value)
  {
    hide Run, Inv, WriteSection, Flat;
    acts := [];
    RunNothing(2);
    var s1 := RunOn(2, acts, StartRead(0, 1), Start(2));
    acts := acts + [StartRead(0, 1)];
    var s2 := RunOn(2, acts, Go(0), s1);
    acts := acts + [Go(0)];
    var s3 := RunOn(2, acts, StartWrite(1, buf), s2);
    acts := acts + [StartWrite(1, buf)];
    var s4 := RunOn(2, acts, Kill(1), s3);
    acts := acts + [Kill(1)];
    FillsUp(buf);
    var s5 := RunOn(2, acts, Go(1), s4);
    assert SleepingReader(s5, 0);
    acts := acts + [Go(1)];
  }

  lemma FillsUp(buf: seq<byte>)
    requires |buf| == PIPESIZE + 1
    ensures var q := Queue([], [], true, true);
      WriteSection(q, buf, 0, true) == (q.(written := buf[..PIPESIZE]), WriteFailed)
  {
    assert [] + buf[0..PIPESIZE] == buf[..PIPESIZE];
  }

  lemma RunNothing(n: nat)
    ensures Run(n, []) == Some(Start(n)) && Shape(Start(n))
  {
  }

  lemma RunOn(n: nat, acts: seq<Action>, act: Action, s: State) returns (s': State)
    requires Run(n, acts) == Some(s) && Shape(s) && Step(s, act).Some?
    ensures Some(s') == Step(s, act) == Run(n, acts + [act])
  {
    assert (acts + [act])[..|acts|] == acts;
    s' := Step(s, act).value;
  }
}
