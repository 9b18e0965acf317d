// The shell's language (OS-Lab-1/sh.c:262-446) on tokens: what the parser
// makes of a token list, and how a command tree is written down.

module Grammar {
  import opened Options

  const MAXARGS: nat := 10

  datatype Tok = Sym(c: char) | Append | Word(w: string)

  /** '>' and '>>' open the file with the same flags, so a tree does not tell them apart. */
  datatype Redirection = Redirection(file: string, out: bool)

  datatype Cmd =
    | Exec(argv: seq<string>)
    | Redir(cmd: Cmd, r: Redirection)
    | Pipe(left: Cmd, right: Cmd)
    | List(left: Cmd, right: Cmd)
    | Back(cmd: Cmd)

  /** The parser's panics. */
  datatype Error = MissingFile | MissingParen | Syntax | TooManyArgs | Leftovers

  datatype Result<+T> = Ok(value: T, rest: seq<Tok>) | Err(error: Error)

  // ----- the parser on tokens

  predicate Starts(ts: seq<Tok>, cs: string) {
    ts != [] && ts[0].Sym? && ts[0].c in cs
  }

  predicate StartsRedir(ts: seq<Tok>) {
    Starts(ts, "<>") || (ts != [] && ts[0].Append?)
  }

  function Wrap(c: Cmd, rs: seq<Redirection>): Cmd
    decreases |rs|
  {
    if rs == [] then c else Wrap(Redir(c, rs[0]), rs[1..])
  }

  function ParseRedirs(ts: seq<Tok>): (r: Result<seq<Redirection>>)
    ensures r.Ok? ==> |r.rest| <= |ts| && !StartsRedir(r.rest)
    ensures r.Ok? && StartsRedir(ts) ==> |r.rest| < |ts|
    decreases |ts|
  {
    if !StartsRedir(ts) then Ok([], ts)
    else if |ts| < 2 || !ts[1].Word? then Err(MissingFile)
    else
      var r := ParseRedirs(ts[2..]);
      if r.Err? then r
      else Ok([Redirection(ts[1].w, ts[0] != Sym('<'))] + r.value, r.rest)
  }

  function ParseArgs(argv: seq<string>, rs: seq<Redirection>, ts: seq<Tok>): (r: Result<Cmd>)
    ensures r.Ok? ==> |r.rest| <= |ts|
    decreases |ts|
  {
    if ts == [] || Starts(ts, "|)&;") then Ok(Wrap(Exec(argv), rs), ts)
    else if !ts[0].Word? then Err(Syntax)
    else if |argv| + 1 >= MAXARGS then Err(TooManyArgs)
    else
      var r := ParseRedirs(ts[1..]);
      if r.Err? then Err(r.error) else ParseArgs(argv + [ts[0].w], rs + r.value, r.rest)
  }

  function ParseBlock(ts: seq<Tok>): (r: Result<Cmd>)
    requires Starts(ts, "(")
    ensures r.Ok? ==> |r.rest| < |ts|
    decreases |ts|, 0
  {
    var c := ParseLine(ts[1..]);
    if c.Err? then c
    else if !Starts(c.rest, ")") then Err(MissingParen)
    else
      var r := ParseRedirs(c.rest[1..]);
      if r.Err? then Err(r.error) else Ok(Wrap(c.value, r.value), r.rest)
  }

  function ParseExec(ts: seq<Tok>): (r: Result<Cmd>)
    ensures r.Ok? ==> |r.rest| <= |ts|
    decreases |ts|, 1
  {
    if Starts(ts, "(") then ParseBlock(ts)
    else
      var r := ParseRedirs(ts);
      if r.Err? then Err(r.error) else ParseArgs([], r.value, r.rest)
  }

  function ParsePipe(ts: seq<Tok>): (r: Result<Cmd>)
    ensures r.Ok? ==> |r.rest| <= |ts|
    decreases |ts|, 2
  {
    var c := ParseExec(ts);
    if c.Err? || !Starts(c.rest, "|") then c
    else
      var d := ParsePipe(c.rest[1..]);
      if d.Err? then d else Ok(Pipe(c.value, d.value), d.rest)
  }

  /** while(peek(ps, es, "&")) */
  function ParseAmps(c: Cmd, ts: seq<Tok>): (r: Result<Cmd>)
    ensures r.Ok? && |r.rest| <= |ts|
    decreases |ts|
  {
    if Starts(ts, "&") then ParseAmps(Back(c), ts[1..]) else Ok(c, ts)
  }

  function ParseBack(ts: seq<Tok>): (r: Result<Cmd>)
    ensures r.Ok? ==> |r.rest| <= |ts|
    decreases |ts|, 3
  {
    var b := ParsePipe(ts);
    if b.Err? then b else ParseAmps(b.value, b.rest)
  }

  function ParseLine(ts: seq<Tok>): (r: Result<Cmd>)
    ensures r.Ok? ==> |r.rest| <= |ts|
    decreases |ts|, 4
  {
    var c := ParseBack(ts);
    if c.Err? || !Starts(c.rest, ";") then c
    else
      var d := ParseLine(c.rest[1..]);
      if d.Err? then d else Ok(List(c.value, d.value), d.rest)
  }

  function ParseAll(ts: seq<Tok>): Result<Cmd> {
    var c := ParseLine(ts);
    if c.Ok? && c.rest != [] then Err(Leftovers) else c
  }

  // ----- writing a tree down, in parentheses where its place in the grammar calls for them

  function Size(c: Cmd): nat {
    match c
    case Exec(_) => 1
    case Redir(d, _) => 1 + Size(d)
    case Pipe(l, r) => 1 + Size(l) + Size(r)
    case List(l, r) => 1 + Size(l) + Size(r)
    case Back(d) => 1 + Size(d)
  }

  function Base(c: Cmd): (r: Cmd)
    ensures !r.Redir? && Size(r) <= Size(c) && (c.Redir? ==> Size(r) < Size(c)) && (!c.Redir? ==> r == c)
  {
    if c.Redir? then Base(c.cmd) else c
  }

  function Redirs(c: Cmd): seq<Redirection> {
    if c.Redir? then Redirs(c.cmd) + [c.r] else []
  }

  datatype Level = LineLevel | BackLevel | PipeLevel | ExecLevel

  /** Order in which the levels unfold for one tree: the level its constructor belongs to comes last. */
  function Rank(c: Cmd, l: Level): nat {
    match c
    case List(_, _) => (match l case BackLevel => 3 case PipeLevel => 2 case ExecLevel => 1 case LineLevel => 0)
    case Back(_) => (match l case PipeLevel => 3 case ExecLevel => 2 case LineLevel => 1 case BackLevel => 0)
    case Pipe(_, _) => (match l case ExecLevel => 3 case LineLevel => 2 case BackLevel => 1 case PipeLevel => 0)
    case _ => (match l case LineLevel => 3 case BackLevel => 2 case PipeLevel => 1 case ExecLevel => 0)
  }

  function WordToks(ws: seq<string>): seq<Tok> {
    if ws == [] then [] else [Word(ws[0])] + WordToks(ws[1..])
  }

  function RedirToks(rs: seq<Redirection>): seq<Tok> {
    if rs == [] then [] else [Sym(if rs[0].out then '>' else '<'), Word(rs[0].file)] + RedirToks(rs[1..])
  }

  function Print(c: Cmd, l: Level): seq<Tok>
    decreases Size(c), Rank(c, l)
  {
    match l
    case LineLevel =>
      if c.List? then Print(c.left, BackLevel) + [Sym(';')] + Print(c.right, LineLevel) else Print(c, BackLevel)
    case BackLevel => if c.Back? then Print(c.cmd, BackLevel) + [Sym('&')] else Print(c, PipeLevel)
    case PipeLevel =>
      if c.Pipe? then Print(c.left, ExecLevel) + [Sym('|')] + Print(c.right, PipeLevel) else Print(c, ExecLevel)
    case ExecLevel =>
      if Base(c).Exec? then WordToks(Base(c).argv) + RedirToks(Redirs(c))
      else [Sym('(')] + Print(Base(c), LineLevel) + [Sym(')')] + RedirToks(Redirs(c))
  }

  /** No command has more than nine arguments. */
  predicate Fits(c: Cmd) {
    match c
    case Exec(argv) => |argv| < MAXARGS
    case Redir(d, _) => Fits(d)
    case Pipe(l, r) => Fits(l) && Fits(r)
    case List(l, r) => Fits(l) && Fits(r)
    case Back(d) => Fits(d)
  }

  // ----- parsing inverts printing

  /** A token list that ends what the level can take. */
  predicate Ends(ts: seq<Tok>, l: Level) {
    ts == [] || Starts(ts, match l case LineLevel => ")" case BackLevel => ")&;" case PipeLevel => ")&;" case ExecLevel => "|)&;")
  }

  lemma {:induction false} WrapBase(c: Cmd, rs: seq<Redirection>)
    ensures Wrap(Base(c), Redirs(c) + rs) == Wrap(c, rs)
  {
    if c.Redir? {
      assert Redirs(c) + rs == Redirs(c.cmd) + ([c.r] + rs);
      WrapBase(c.cmd, [c.r] + rs);
      assert ([c.r] + rs)[1..] == rs;
    } else {
      assert Redirs(c) + rs == rs;
    }
  }

  lemma RedirStep(r: Redirection, ts: seq<Tok>)
    requires ParseRedirs(ts).Ok?
    ensures ParseRedirs([Sym(if r.out then '>' else '<'), Word(r.file)] + ts)
      == Ok([r] + ParseRedirs(ts).value, ParseRedirs(ts).rest)
  {
    var us := [Sym(if r.out then '>' else '<'), Word(r.file)] + ts;
    assert us[2..] == ts;
  }

  lemma {:induction false} RedirsBack(rs: seq<Redirection>, rest: seq<Tok>)
    requires !StartsRedir(rest)
    ensures ParseRedirs(RedirToks(rs) + rest) == Ok(rs, rest)
    decreases |rs|
  {
    hide ParseRedirs;
    if rs == [] {
      assert RedirToks(rs) + rest == rest;
      NoRedirs(rest);
    } else {
      var tail := RedirToks(rs[1..]) + rest;
      RedirsBack(rs[1..], rest);
      RedirStep(rs[0], tail);
      assert RedirToks(rs) + rest == [Sym(if rs[0].out then '>' else '<'), Word(rs[0].file)] + tail;
      assert [rs[0]] + rs[1..] == rs;
    }
  }

  /** One argument, and no redirection after it. */
  lemma ArgStep(argv: seq<string>, rs: seq<Redirection>, w: string, ts: seq<Tok>)
    requires |argv| + 1 < MAXARGS && ParseRedirs(ts).Ok?
    ensures ParseArgs(argv, rs, [Word(w)] + ts)
      == ParseArgs(argv + [w], rs + ParseRedirs(ts).value, ParseRedirs(ts).rest)
  {
    assert ([Word(w)] + ts)[1..] == ts;
  }

  lemma WordsFirst(args: seq<string>, ts: seq<Tok>)
    requires args != []
    ensures WordToks(args) + ts == [Word(args[0])] + (WordToks(args[1..]) + ts)
  {
  }

  lemma {:induction false} ArgsBack(argv: seq<string>, args: seq<string>, rs: seq<Redirection>, rest: seq<Tok>)
    requires args != [] && |argv| + |args| < MAXARGS && Ends(rest, ExecLevel)
    ensures ParseArgs(argv, [], WordToks(args) + (RedirToks(rs) + rest)) == Ok(Wrap(Exec(argv + args), rs), rest)
    decreases |args|
  {
    hide ParseArgs, ParseRedirs, RedirToks, Wrap;
    var none: seq<Redirection> := [];
    var tail := RedirToks(rs) + rest;
    WordsFirst(args, tail);
    assert argv + [args[0]] + args[1..] == argv + args;
    if |args| == 1 {
      assert WordToks(args[1..]) + tail == tail;
      RedirsBack(rs, rest);
      ArgStep(argv, none, args[0], tail);
      assert none + rs == rs && argv + [args[0]] == argv + args;
      ArgsEnd(argv + args, rs, rest);
    } else {
      var next := WordToks(args[1..]) + tail;
      WordsFirst(args[1..], tail);
      NoRedirs(next);
      ArgStep(argv, none, args[0], next);
      assert none + none == none;
      ArgsBack(argv + [args[0]], args[1..], rs, rest);
    }
  }

  lemma ArgsEnd(argv: seq<string>, rs: seq<Redirection>, rest: seq<Tok>)
    requires Ends(rest, ExecLevel)
    ensures ParseArgs(argv, rs, rest) == Ok(Wrap(Exec(argv), rs), rest)
  {
  }

  lemma NoRedirs(ts: seq<Tok>)
    requires !StartsRedir(ts)
    ensures ParseRedirs(ts) == Ok([], ts)
  {
  }

  lemma ExecBack(c: Cmd, rest: seq<Tok>)
    requires Base(c).Exec? && Fits(Base(c)) && Ends(rest, ExecLevel)
    ensures ParseExec(Print(c, ExecLevel) + rest) == Ok(c, rest)
  {
    hide ParseArgs, ParseRedirs, RedirToks, Wrap, ParseBlock;
    var args, rs := Base(c).argv, Redirs(c);
    var none: seq<Redirection> := [];
    WrapBase(c, none);
    assert rs + none == rs && Wrap(c, none) == c by { WrapNone(c); }
    var ts := WordToks(args) + (RedirToks(rs) + rest);
    assert Print(c, ExecLevel) + rest == ts;
    if args == [] {
      assert ts == RedirToks(rs) + rest;
      NotBlock(rs, rest);
      RedirsBack(rs, rest);
      ArgsEnd(args, rs, rest);
    } else {
      WordsFirst(args, RedirToks(rs) + rest);
      NoRedirs(ts);
      ArgsBack([], args, rs, rest);
      assert [] + args == args;
    }
  }

  lemma NotBlock(rs: seq<Redirection>, rest: seq<Tok>)
    requires Ends(rest, ExecLevel)
    ensures !Starts(RedirToks(rs) + rest, "(")
  {
  }

  lemma WrapNone(c: Cmd)
    ensures Wrap(c, []) == c
  {
  }

  lemma {:induction false} PrintLine(c: Cmd, rest: seq<Tok>)
    requires Fits(c) && Ends(rest, LineLevel)
    ensures ParseLine(Print(c, LineLevel) + rest) == Ok(c, rest)
    decreases Size(c), Rank(c, LineLevel)
  {
    if c.List? {
      var tail := [Sym(';')] + (Print(c.right, LineLevel) + rest);
      PrintAmps(c.left, tail);
      PrintLine(c.right, rest);
      assert Print(c, LineLevel) + rest == Print(c.left, BackLevel) + tail;
      assert tail[1..] == Print(c.right, LineLevel) + rest;
    } else {
      PrintAmps(c, rest);
    }
  }

  lemma {:induction false} PrintAmps(c: Cmd, rest: seq<Tok>)
    requires Fits(c) && Ends(rest, BackLevel)
    ensures ParseBack(Print(c, BackLevel) + rest) == ParseAmps(c, rest)
    decreases Size(c), Rank(c, BackLevel)
  {
    if c.Back? {
      var tail := [Sym('&')] + rest;
      PrintAmps(c.cmd, tail);
      assert Print(c, BackLevel) + rest == Print(c.cmd, BackLevel) + tail;
      assert tail[1..] == rest;
    } else {
      PrintPipe(c, rest);
    }
  }

  lemma {:induction false} PrintPipe(c: Cmd, rest: seq<Tok>)
    requires Fits(c) && Ends(rest, PipeLevel)
    ensures ParsePipe(Print(c, PipeLevel) + rest) == Ok(c, rest)
    decreases Size(c), Rank(c, PipeLevel)
  {
    hide ParseExec, ParsePipe;
    if c.Pipe? {
      var more := Print(c.right, PipeLevel) + rest;
      var tail := [Sym('|')] + more;
      PrintExec(c.left, tail);
      PrintPipe(c.right, rest);
      assert Print(c, PipeLevel) + rest == Print(c.left, ExecLevel) + tail;
      PipeOn(Print(c.left, ExecLevel) + tail, c.left, more);
    } else {
      PrintExec(c, rest);
      PipeEnds(Print(c, ExecLevel) + rest, c, rest);
    }
  }

  lemma PipeOn(ts: seq<Tok>, l: Cmd, more: seq<Tok>)
    requires ParseExec(ts) == Ok(l, [Sym('|')] + more) && ParsePipe(more).Ok?
    ensures ParsePipe(ts) == Ok(Pipe(l, ParsePipe(more).value), ParsePipe(more).rest)
  {
    hide ParseExec;
    assert ([Sym('|')] + more)[1..] == more;
  }

  lemma PipeEnds(ts: seq<Tok>, c: Cmd, rest: seq<Tok>)
    requires ParseExec(ts) == Ok(c, rest) && Ends(rest, PipeLevel)
    ensures ParsePipe(ts) == Ok(c, rest)
  {
    hide ParseExec;
  }

  lemma {:induction false} PrintExec(c: Cmd, rest: seq<Tok>)
    requires Fits(c) && Ends(rest, ExecLevel)
    ensures ParseExec(Print(c, ExecLevel) + rest) == Ok(c, rest)
    decreases Size(c), Rank(c, ExecLevel)
  {
    BaseFits(c);
    if Base(c).Exec? {
      ExecBack(c, rest);
    } else {
      var end := [Sym(')')] + (RedirToks(Redirs(c)) + rest);
      PrintLine(Base(c), end);
      BlockBack(c, rest);
    }
  }

  /** A parenthesised line and the redirections after it. */
  lemma BlockBack(c: Cmd, rest: seq<Tok>)
    requires !Base(c).Exec? && Ends(rest, ExecLevel)
    requires var end := [Sym(')')] + (RedirToks(Redirs(c)) + rest);
      ParseLine(Print(Base(c), LineLevel) + end) == Ok(Base(c), end)
    ensures ParseExec(Print(c, ExecLevel) + rest) == Ok(c, rest)
  {
    hide ParseArgs, ParseRedirs, RedirToks, Wrap, ParseLine, Redirs, Base;
    var rs := Redirs(c);
    var none: seq<Redirection> := [];
    var end := [Sym(')')] + (RedirToks(rs) + rest);
    var line := Print(Base(c), LineLevel);
    RedirsBack(rs, rest);
    var ts := [Sym('(')] + (line + end);
    assert Print(c, ExecLevel) + rest == ts by {
      BlockToks(c);
    }
    assert ts[1..] == line + end;
    assert end[1..] == RedirToks(rs) + rest;
    WrapBase(c, none);
    assert rs + none == rs;
    WrapNone(c);
  }

  lemma BlockToks(c: Cmd)
    requires !Base(c).Exec?
    ensures Print(c, ExecLevel) == [Sym('(')] + Print(Base(c), LineLevel) + [Sym(')')] + RedirToks(Redirs(c))
  {
  }

  lemma {:induction false} BaseFits(c: Cmd)
    requires Fits(c)
    ensures Fits(Base(c))
  {
    if c.Redir? {
      BaseFits(c.cmd);
    }
  }

  /** Parsing inverts printing. */
  lemma ParsePrint(c: Cmd)
    requires Fits(c)
    ensures ParseAll(Print(c, LineLevel)) == Ok(c, [])
  {
    PrintLine(c, []);
    assert Print(c, LineLevel) + [] == Print(c, LineLevel);
  }

  // ----- what parsing accepts

  lemma {:induction false} WrapFits(c: Cmd, rs: seq<Redirection>)
    requires Fits(c)
    ensures Fits(Wrap(c, rs))
    decreases |rs|
  {
    if rs != [] {
      WrapFits(Redir(c, rs[0]), rs[1..]);
    }
  }

  lemma {:induction false} ArgsFit(argv: seq<string>, rs: seq<Redirection>, ts: seq<Tok>)
    requires |argv| < MAXARGS
    ensures ParseArgs(argv, rs, ts).Ok? ==> Fits(ParseArgs(argv, rs, ts).value)
    decreases |ts|
  {
    if ts == [] || Starts(ts, "|)&;") {
      WrapFits(Exec(argv), rs);
    } else if ts[0].Word? && |argv| + 1 < MAXARGS {
      var r := ParseRedirs(ts[1..]);
      if r.Ok? {
        ArgsFit(argv + [ts[0].w], rs + r.value, r.rest);
      }
    }
  }

  lemma {:induction false} AmpsFit(c: Cmd, ts: seq<Tok>)
    requires Fits(c)
    ensures Fits(ParseAmps(c, ts).value)
    decreases |ts|
  {
    if Starts(ts, "&") {
      AmpsFit(Back(c), ts[1..]);
    }
  }

  lemma {:induction false} ExecFits(ts: seq<Tok>)
    ensures ParseExec(ts).Ok? ==> Fits(ParseExec(ts).value)
    decreases |ts|, 0
  {
    if Starts(ts, "(") {
      LineFits(ts[1..]);
      var c := ParseLine(ts[1..]);
      if c.Ok? && Starts(c.rest, ")") && ParseRedirs(c.rest[1..]).Ok? {
        WrapFits(c.value, ParseRedirs(c.rest[1..]).value);
      }
    } else if ParseRedirs(ts).Ok? {
      ArgsFit([], ParseRedirs(ts).value, ParseRedirs(ts).rest);
    }
  }

  lemma {:induction false} PipeFits(ts: seq<Tok>)
    ensures ParsePipe(ts).Ok? ==> Fits(ParsePipe(ts).value)
    decreases |ts|, 1
  {
    ExecFits(ts);
    var c := ParseExec(ts);
    if c.Ok? && Starts(c.rest, "|") {
      PipeFits(c.rest[1..]);
    }
  }

  /** No parsed command has more than nine arguments. */
  lemma {:induction false} LineFits(ts: seq<Tok>)
    ensures ParseLine(ts).Ok? ==> Fits(ParseLine(ts).value)
    decreases |ts|, 2
  {
    PipeFits(ts);
    var b := ParsePipe(ts);
    if b.Ok? {
      AmpsFit(b.value, b.rest);
      var c := ParseAmps(b.value, b.rest);
      if Starts(c.rest, ";") {
        LineFits(c.rest[1..]);
      }
    }
  }

  /** Whatever parses, parses the same once printed. */
  lemma PrintParsed(ts: seq<Tok>)
    requires ParseAll(ts).Ok?
    ensures ParseAll(Print(ParseAll(ts).value, LineLevel)) == ParseAll(ts)
  {
    LineFits(ts);
    ParsePrint(ParseAll(ts).value);
  }
}
