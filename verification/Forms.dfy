// Every way to write a command tree for the shell (OS-Lab-1/sh.c:322-446): what
// the parser accepts, what it makes of it, and what each panic says of the line.

module Forms {
  import opened Options
  import opened Grammar

  // ----- the concrete syntax

  /** A word, or a redirection; an output may be spelled '>' or '>>'. */
  datatype Item = Arg(w: string) | To(r: Redirection, twice: bool)

  /** A line as it is written, with its redirections anywhere among the words and as many parentheses as one likes. */
  datatype Form =
    | Simple(items: seq<Item>)
    | Parens(line: Form, items: seq<Item>)
    | Piped(left: Form, right: Form)
    | Amp(form: Form)
    | Then(left: Form, right: Form)

  function Words(items: seq<Item>): seq<string> {
    if items == [] then []
    else (if items[0].Arg? then [items[0].w] else []) + Words(items[1..])
  }

  function ItemTok(x: Item): seq<Tok> {
    match x
    case Arg(w) => [Word(w)]
    case To(r, twice) => [Arrow(r, twice), Word(r.file)]
  }

  function Reds(items: seq<Item>): seq<Redirection> {
    if items == [] then []
    else (if items[0].To? then [items[0].r] else []) + Reds(items[1..])
  }

  predicate NoWords(items: seq<Item>) {
    forall i :: 0 <= i < |items| ==> items[i].To?
  }

  function Arrow(r: Redirection, twice: bool): Tok {
    if !r.out then Sym('<') else if twice then Append else Sym('>')
  }

  function ItemToks(items: seq<Item>): seq<Tok> {
    if items == [] then [] else ItemTok(items[0]) + ItemToks(items[1..])
  }

  function Toks(f: Form): seq<Tok> {
    match f
    case Simple(items) => ItemToks(items)
    case Parens(line, items) => [Sym('(')] + Toks(line) + [Sym(')')] + ItemToks(items)
    case Piped(l, r) => Toks(l) + [Sym('|')] + Toks(r)
    case Amp(g) => Toks(g) + [Sym('&')]
    case Then(l, r) => Toks(l) + [Sym(';')] + Toks(r)
  }

  /** The tree that the line stands for: redirections wrap their command, the first one innermost. */
  function Tree(f: Form): Cmd {
    match f
    case Simple(items) => Wrap(Exec(Words(items)), Reds(items))
    case Parens(line, items) => Wrap(Tree(line), Reds(items))
    case Piped(l, r) => Pipe(Tree(l), Tree(r))
    case Amp(g) => Back(Tree(g))
    case Then(l, r) => List(Tree(l), Tree(r))
  }

  /** f may stand at this level of the grammar. */
  predicate At(f: Form, l: Level) {
    match f
    case Simple(items) => |Words(items)| < MAXARGS
    case Parens(line, items) => NoWords(items) && At(line, LineLevel)
    case Piped(a, b) => !l.ExecLevel? && At(a, ExecLevel) && At(b, PipeLevel)
    case Amp(g) => (l.LineLevel? || l.BackLevel?) && At(g, BackLevel)
    case Then(a, b) => l.LineLevel? && At(a, BackLevel) && At(b, LineLevel)
  }

  /** The token list is a way to write the tree. */
  ghost predicate Writes(ts: seq<Tok>, c: Cmd) {
    exists f :: At(f, LineLevel) && Toks(f) == ts && Tree(f) == c
  }

  lemma Regroup<T>(a: seq<T>, b: seq<T>, c: seq<T>)
    ensures a + b + c == a + (b + c)
  {
  }

  // ----- whatever is written so, parses

  lemma RedirFirst(r: Redirection, twice: bool, ts: seq<Tok>)
    ensures StartsRedir([Arrow(r, twice), Word(r.file)] + ts)
    ensures ParseRedirs(ts).Ok? ==>
      ParseRedirs([Arrow(r, twice), Word(r.file)] + ts) == Ok([r] + ParseRedirs(ts).value, ParseRedirs(ts).rest)
  {
    var us := [Arrow(r, twice), Word(r.file)] + ts;
    assert us[2..] == ts;
  }

  /** The redirections that the items begin with, and the items behind them. */
  function Lead(items: seq<Item>): (k: nat)
    ensures k <= |items| && NoWords(items[..k]) && (k < |items| ==> items[k].Arg?)
  {
    if items == [] || items[0].Arg? then 0 else 1 + Lead(items[1..])
  }

  lemma {:induction false} LeadParses(items: seq<Item>, rest: seq<Tok>)
    requires !StartsRedir(rest)
    ensures var k := Lead(items);
      ParseRedirs(ItemToks(items) + rest) == Ok(Reds(items[..k]), ItemToks(items[k..]) + rest)
    decreases |items|
  {
    hide ParseRedirs, ItemToks, Reds, Words, Arrow;
    var k := Lead(items);
    NoItems();
    if items == [] {
      assert ItemToks(items) + rest == rest && items[..k] == [] && items[k..] == items;
      NoRedirs(rest);
    } else {
      ItemsFirst(items);
      Regroup(ItemTok(items[0]), ItemToks(items[1..]), rest);
      if items[0].Arg? {
        assert items[..k] == [] && items[k..] == items;
        NoRedirs(ItemToks(items) + rest);
      } else {
        LeadParses(items[1..], rest);
        RedirFirst(items[0].r, items[0].twice, ItemToks(items[1..]) + rest);
        ItemsFirst(items[..k]);
        assert items[..k][1..] == items[1..][..k - 1] && items[k..] == items[1..][k - 1..] && items[..k][0] == items[0];
      }
    }
  }

  lemma {:induction false} ItemsOn(a: seq<Item>, b: seq<Item>)
    ensures Words(a + b) == Words(a) + Words(b) && Reds(a + b) == Reds(a) + Reds(b)
    ensures ItemToks(a + b) == ItemToks(a) + ItemToks(b)
    decreases |a|
  {
    hide Words, Reds, ItemToks, ItemTok;
    NoItems();
    if a == [] {
      assert a + b == b;
    } else {
      ItemsOn(a[1..], b);
      ItemsFirst(a);
      ItemsFirst(a + b);
      assert (a + b)[1..] == a[1..] + b && (a + b)[0] == a[0];
    }
  }

  lemma ItemsFirst(items: seq<Item>)
    requires items != []
    ensures Words(items) == (if items[0].Arg? then [items[0].w] else []) + Words(items[1..])
    ensures Reds(items) == (if items[0].To? then [items[0].r] else []) + Reds(items[1..])
    ensures ItemToks(items) == ItemTok(items[0]) + ItemToks(items[1..])
  {
  }

  lemma {:induction false} NoneArgs(items: seq<Item>)
    requires NoWords(items)
    ensures Words(items) == []
  {
    if items != [] {
      NoneArgs(items[1..]);
    }
  }

  lemma ItemsSplit(items: seq<Item>, k: nat)
    requires k <= |items|
    ensures Words(items[..k]) + Words(items[k..]) == Words(items) && Reds(items[..k]) + Reds(items[k..]) == Reds(items)
    ensures NoWords(items[..k]) ==> Words(items[..k]) == []
  {
    hide Words, Reds, ItemToks;
    assert items == items[..k] + items[k..];
    ItemsOn(items[..k], items[k..]);
    if NoWords(items[..k]) {
      NoneArgs(items[..k]);
    }
  }

  /** Words with redirections anywhere behind them. */
  lemma {:induction false} ArgsParse(argv: seq<string>, rs: seq<Redirection>, items: seq<Item>, rest: seq<Tok>)
    requires Ends(rest, ExecLevel) && |argv| + |Words(items)| < MAXARGS && Lead(items) == 0
    ensures ParseArgs(argv, rs, ItemToks(items) + rest) == Ok(Wrap(Exec(argv + Words(items)), rs + Reds(items)), rest)
    decreases |items|
  {
    hide ParseArgs, ParseRedirs, Wrap, Words, Reds, ItemToks;
    if items == [] {
      NoItems();
      assert ItemToks(items) + rest == rest && argv + [] == argv && rs + [] == rs;
      ArgsEnd(argv, rs, rest);
    } else {
      var w, more := items[0].w, items[1..];
      var k := Lead(more);
      FirstArg(items);
      assert ItemToks(items) + rest == [Word(w)] + (ItemToks(more) + rest);
      LeadParses(more, rest);
      ItemsSplit(more, k);
      ArgStep(argv, rs, w, ItemToks(more) + rest);
      LeadNone(more, k);
      ArgsParse(argv + [w], rs + Reds(more[..k]), more[k..], rest);
      assert argv + [w] + Words(more[k..]) == argv + Words(items);
      assert rs + Reds(more[..k]) + Reds(more[k..]) == rs + Reds(items);
    }
  }

  lemma NoItems()
    ensures Words([]) == [] && Reds([]) == [] && ItemToks([]) == []
  {
  }

  lemma FirstArg(items: seq<Item>)
    requires items != [] && items[0].Arg?
    ensures Words(items) == [items[0].w] + Words(items[1..]) && Reds(items) == Reds(items[1..])
    ensures ItemToks(items) == [Word(items[0].w)] + ItemToks(items[1..])
  {
  }

  lemma LeadNone(items: seq<Item>, k: nat)
    requires k == Lead(items)
    ensures Lead(items[k..]) == 0
  {
  }

  lemma {:induction false} AllLead(items: seq<Item>)
    requires NoWords(items)
    ensures Lead(items) == |items|
  {
    if items != [] {
      AllLead(items[1..]);
    }
  }

  lemma SimpleParses(items: seq<Item>, rest: seq<Tok>)
    requires |Words(items)| < MAXARGS && Ends(rest, ExecLevel)
    ensures ParseExec(ItemToks(items) + rest) == Ok(Tree(Simple(items)), rest)
  {
    hide ParseArgs, ParseRedirs, Wrap, ParseBlock;
    var k := Lead(items);
    NotParen(items, rest);
    LeadParses(items, rest);
    ItemsSplit(items, k);
    LeadNone(items, k);
    ArgsParse([], Reds(items[..k]), items[k..], rest);
    assert [] + Words(items[k..]) == Words(items);
  }

  lemma NotParen(items: seq<Item>, rest: seq<Tok>)
    requires Ends(rest, ExecLevel)
    ensures !Starts(ItemToks(items) + rest, "(")
  {
  }

  lemma ParensParse(line: Form, items: seq<Item>, rest: seq<Tok>)
    requires NoWords(items) && Ends(rest, ExecLevel)
    requires var end := [Sym(')')] + (ItemToks(items) + rest); ParseLine(Toks(line) + end) == Ok(Tree(line), end)
    ensures ParseExec(Toks(Parens(line, items)) + rest) == Ok(Tree(Parens(line, items)), rest)
  {
    hide ParseArgs, ParseRedirs, Wrap, ParseLine, Tree, Toks, ItemToks, Reds, NoWords;
    var end := [Sym(')')] + (ItemToks(items) + rest);
    var ts := [Sym('(')] + (Toks(line) + end);
    ParensToks(line, items, rest);
    NoItems();
    assert ts[1..] == Toks(line) + end && end[1..] == ItemToks(items) + rest;
    LeadParses(items, rest);
    AllLead(items);
    assert items[..|items|] == items && items[|items|..] == [];
    assert ItemToks([]) + rest == rest;
    ParensTree(line, items);
  }

  lemma ParensToks(line: Form, items: seq<Item>, rest: seq<Tok>)
    ensures Toks(Parens(line, items)) + rest == [Sym('(')] + (Toks(line) + ([Sym(')')] + (ItemToks(items) + rest)))
  {
  }

  lemma ParensTree(line: Form, items: seq<Item>)
    ensures Tree(Parens(line, items)) == Wrap(Tree(line), Reds(items))
  {
  }

  lemma {:induction false} ExecParses(f: Form, rest: seq<Tok>)
    requires At(f, ExecLevel) && Ends(rest, ExecLevel)
    ensures ParseExec(Toks(f) + rest) == Ok(Tree(f), rest)
    decreases f, 0
  {
    hide ParseExec, ParseLine;
    match f
    case Simple(items) => SimpleParses(items, rest);
    case Parens(line, items) =>
      LineParses(line, [Sym(')')] + (ItemToks(items) + rest));
      ParensParse(line, items, rest);
    case _ =>
  }

  lemma {:induction false} PipeParses(f: Form, rest: seq<Tok>)
    requires At(f, PipeLevel) && Ends(rest, PipeLevel)
    ensures ParsePipe(Toks(f) + rest) == Ok(Tree(f), rest)
    decreases f, 1
  {
    hide ParseExec, ParsePipe, ItemToks, Words, Reds, Wrap;
    if f.Piped? {
      var more := Toks(f.right) + rest;
      var tail := [Sym('|')] + more;
      ExecParses(f.left, tail);
      PipeParses(f.right, rest);
      assert Toks(f) + rest == Toks(f.left) + tail;
      PipeOn(Toks(f.left) + tail, Tree(f.left), more);
    } else {
      ExecParses(f, rest);
      PipeEnds(Toks(f) + rest, Tree(f), rest);
    }
  }

  lemma {:induction false} AmpsParse(f: Form, rest: seq<Tok>)
    requires At(f, BackLevel) && Ends(rest, BackLevel)
    ensures ParseBack(Toks(f) + rest) == ParseAmps(Tree(f), rest)
    decreases f, 2
  {
    hide ParsePipe;
    if f.Amp? {
      var tail := [Sym('&')] + rest;
      AmpsParse(f.form, tail);
      assert Toks(f) + rest == Toks(f.form) + tail && tail[1..] == rest;
    } else {
      PipeParses(f, rest);
    }
  }

  lemma {:induction false} LineParses(f: Form, rest: seq<Tok>)
    requires At(f, LineLevel) && Ends(rest, LineLevel)
    ensures ParseLine(Toks(f) + rest) == Ok(Tree(f), rest)
    decreases f, 3
  {
    hide ParseLine, ParseBack, ItemToks, Words, Reds, Wrap;
    if f.Then? {
      var more := Toks(f.right) + rest;
      var tail := [Sym(';')] + more;
      AmpsParse(f.left, tail);
      LineParses(f.right, rest);
      assert Toks(f) + rest == Toks(f.left) + tail;
      LineOn(Toks(f.left) + tail, Tree(f.left), more);
    } else {
      AmpsParse(f, rest);
      LineStops(Toks(f) + rest, Tree(f), rest);
    }
  }

  lemma LineOn(ts: seq<Tok>, l: Cmd, more: seq<Tok>)
    requires ParseBack(ts) == ParseAmps(l, [Sym(';')] + more) && ParseLine(more).Ok?
    ensures ParseLine(ts) == Ok(List(l, ParseLine(more).value), ParseLine(more).rest)
  {
    hide ParseBack;
    assert ([Sym(';')] + more)[1..] == more;
  }

  lemma LineStops(ts: seq<Tok>, c: Cmd, rest: seq<Tok>)
    requires ParseBack(ts) == ParseAmps(c, rest) && Ends(rest, LineLevel)
    ensures ParseLine(ts) == Ok(c, rest)
  {
    hide ParseBack;
  }

  // ----- whatever parses, is written so

  lemma {:induction false} RedirsForm(ts: seq<Tok>) returns (items: seq<Item>)
    requires ParseRedirs(ts).Ok?
    ensures NoWords(items) && Reds(items) == ParseRedirs(ts).value && ItemToks(items) + ParseRedirs(ts).rest == ts
    decreases |ts|
  {
    hide ParseRedirs, ItemToks, Reds, Words, Arrow, NoWords;
    NoItems();
    if StartsRedir(ts) {
      var x := RedirForm(ts);
      var more := RedirsForm(ts[2..]);
      items := [x] + more;
      assert items[1..] == more;
      ItemsFirst(items);
      OneMoreTo(x, more);
      Regroup(ItemTok(x), ItemToks(more), ParseRedirs(ts).rest);
      assert ts == ts[..2] + ts[2..];
    } else {
      items := [];
      NoRedirs(ts);
      assert NoWords(items) by { NoneTo(); }
      assert ItemToks(items) + ts == ts;
    }
  }

  lemma NoneTo()
    ensures NoWords([])
  {
  }

  lemma OneMoreTo(x: Item, items: seq<Item>)
    requires x.To? && NoWords(items)
    ensures NoWords([x] + items)
  {
  }

  /** The redirection at the front. */
  lemma RedirForm(ts: seq<Tok>) returns (x: Item)
    requires StartsRedir(ts) && ParseRedirs(ts).Ok?
    ensures x.To? && |ts| >= 2 && ItemTok(x) == ts[..2] && ParseRedirs(ts[2..]).Ok?
    ensures ParseRedirs(ts) == Ok([x.r] + ParseRedirs(ts[2..]).value, ParseRedirs(ts[2..]).rest)
  {
    x := To(Redirection(ts[1].w, ts[0] != Sym('<')), ts[0].Append?);
  }

  lemma {:induction false} ArgsForm(argv: seq<string>, rs: seq<Redirection>, ts: seq<Tok>) returns (items: seq<Item>)
    requires ParseArgs(argv, rs, ts).Ok? && |argv| < MAXARGS
    ensures |argv| + |Words(items)| < MAXARGS && ItemToks(items) + ParseArgs(argv, rs, ts).rest == ts
    ensures ParseArgs(argv, rs, ts).value == Wrap(Exec(argv + Words(items)), rs + Reds(items))
    decreases |ts|
  {
    hide ParseRedirs, ParseArgs, Wrap, Words, Reds, ItemToks, NoWords;
    NoItems();
    if ts == [] || Starts(ts, "|)&;") {
      items := [];
      ArgsEnd(argv, rs, ts);
      assert argv + [] == argv && rs + [] == rs && ItemToks([]) + ts == ts;
    } else {
      ArgsGoOn(argv, rs, ts);
      var r := ParseRedirs(ts[1..]);
      var lead := RedirsForm(ts[1..]);
      var more := ArgsForm(argv + [ts[0].w], rs + r.value, r.rest);
      items := [Arg(ts[0].w)] + (lead + more);
      ItemsOn(lead, more);
      NoneArgs(lead);
      ItemsFirst(items);
      assert items[1..] == lead + more;
      assert [] + Words(more) == Words(more) && [] + (Reds(lead) + Reds(more)) == Reds(lead) + Reds(more);
      Regroup(argv, [ts[0].w], Words(more));
      Regroup(rs, Reds(lead), Reds(more));
      var rest := ParseArgs(argv, rs, ts).rest;
      Regroup([ts[0]], ItemToks(lead) + ItemToks(more), rest);
      Regroup(ItemToks(lead), ItemToks(more), rest);
    }
  }

  /** A word, and what follows it. */
  lemma ArgsGoOn(argv: seq<string>, rs: seq<Redirection>, ts: seq<Tok>)
    requires ParseArgs(argv, rs, ts).Ok? && ts != [] && !Starts(ts, "|)&;")
    ensures ts[0].Word? && |argv| + 1 < MAXARGS && ts == [ts[0]] + ts[1..]
    ensures var r := ParseRedirs(ts[1..]);
      r.Ok? && ParseArgs(argv, rs, ts) == ParseArgs(argv + [ts[0].w], rs + r.value, r.rest)
  {
    hide ParseRedirs;
  }

  lemma {:induction false} ExecForm(ts: seq<Tok>) returns (f: Form)
    requires ParseExec(ts).Ok?
    ensures At(f, ExecLevel) && Toks(f) + ParseExec(ts).rest == ts && Tree(f) == ParseExec(ts).value
    decreases |ts|, 0
  {
    hide ParseRedirs, ParseArgs, ParseLine, Words, Reds, ItemToks, Wrap;
    if Starts(ts, "(") {
      var line := LineForm(ts[1..]);
      var c := ParseLine(ts[1..]);
      var items := RedirsForm(c.rest[1..]);
      f := Parens(line, items);
      assert ts == [Sym('(')] + (Toks(line) + ([Sym(')')] + (ItemToks(items) + ParseExec(ts).rest)));
    } else {
      var r := ParseRedirs(ts);
      var lead := RedirsForm(ts);
      var more := ArgsForm([], r.value, r.rest);
      f := Simple(lead + more);
      ItemsOn(lead, more);
      NoneArgs(lead);
      assert [] + Words(more) == Words(more);
      assert ItemToks(lead + more) + ParseExec(ts).rest == ItemToks(lead) + r.rest;
    }
  }

  lemma {:induction false} PipeForm(ts: seq<Tok>) returns (f: Form)
    requires ParsePipe(ts).Ok?
    ensures At(f, PipeLevel) && Toks(f) + ParsePipe(ts).rest == ts && Tree(f) == ParsePipe(ts).value
    decreases |ts|, 1
  {
    hide ParseExec, Words, ItemToks, Toks, At, Tree;
    var c := ParseExec(ts);
    f := ExecForm(ts);
    AtMore(f);
    if Starts(c.rest, "|") {
      var g := PipeForm(c.rest[1..]);
      assert c.rest == [Sym('|')] + c.rest[1..];
      Joins(f, '|', g, ParsePipe(ts).rest);
      f := Piped(f, g);
    }
  }

  lemma Joins(f: Form, c: char, g: Form, rest: seq<Tok>)
    ensures Toks(Piped(f, g)) == Toks(f) + [Sym('|')] + Toks(g) && Tree(Piped(f, g)) == Pipe(Tree(f), Tree(g))
    ensures Toks(Then(f, g)) == Toks(f) + [Sym(';')] + Toks(g) && Tree(Then(f, g)) == List(Tree(f), Tree(g))
    ensures At(f, ExecLevel) && At(g, PipeLevel) ==> At(Piped(f, g), PipeLevel)
    ensures At(f, BackLevel) && At(g, LineLevel) ==> At(Then(f, g), LineLevel)
    ensures Toks(f) + [Sym(c)] + Toks(g) + rest == Toks(f) + ([Sym(c)] + (Toks(g) + rest))
  {
    Four(Toks(f), [Sym(c)], Toks(g), rest);
  }

  lemma Four<T>(a: seq<T>, b: seq<T>, c: seq<T>, d: seq<T>)
    ensures a + b + c + d == a + (b + (c + d))
  {
  }

  /** What may stand at one level may stand at those above it. */
  lemma AtMore(f: Form)
    ensures At(f, ExecLevel) ==> At(f, PipeLevel)
    ensures At(f, PipeLevel) ==> At(f, BackLevel)
    ensures At(f, BackLevel) ==> At(f, LineLevel)
  {
  }

  lemma {:induction false} AmpsForm(f: Form, ts: seq<Tok>) returns (g: Form)
    requires At(f, BackLevel)
    ensures At(g, BackLevel) && Toks(g) + ParseAmps(Tree(f), ts).rest == Toks(f) + ts && Tree(g) == ParseAmps(Tree(f), ts).value
    decreases |ts|
  {
    hide Words, ItemToks, Reds;
    if Starts(ts, "&") {
      g := AmpsForm(Amp(f), ts[1..]);
      assert Toks(Amp(f)) + ts[1..] == Toks(f) + ts;
    } else {
      g := f;
    }
  }

  lemma {:induction false} LineForm(ts: seq<Tok>) returns (f: Form)
    requires ParseLine(ts).Ok?
    ensures At(f, LineLevel) && Toks(f) + ParseLine(ts).rest == ts && Tree(f) == ParseLine(ts).value
    decreases |ts|, 2
  {
    hide ParsePipe, ParseAmps, Words, ItemToks, Reds, Toks, At, Tree;
    var b := ParsePipe(ts);
    f := PipeForm(ts);
    AtMore(f);
    f := AmpsForm(f, b.rest);
    AtMore(f);
    var c := ParseAmps(b.value, b.rest);
    if Starts(c.rest, ";") {
      var g := LineForm(c.rest[1..]);
      assert c.rest == [Sym(';')] + c.rest[1..];
      Joins(f, ';', g, ParseLine(ts).rest);
      f := Then(f, g);
    }
  }

  /** The parser accepts exactly what is a way to write some tree, and makes that tree of it: so no line is a way to write
      two trees. */
  lemma ParsesIff(ts: seq<Tok>, c: Cmd)
    ensures ParseAll(ts) == Ok(c, []) <==> Writes(ts, c)
    ensures ParseAll(ts).Err? <==> forall d :: !Writes(ts, d)
  {
    hide ParseLine, At, Toks, Tree;
    if ParseAll(ts).Ok? {
      var f := LineForm(ts);
      assert Toks(f) + [] == Toks(f);
      assert Writes(ts, ParseAll(ts).value);
    }
    forall d | Writes(ts, d) ensures ParseAll(ts) == Ok(d, []) {
      var f :| At(f, LineLevel) && Toks(f) == ts && Tree(f) == d;
      LineParses(f, []);
      assert Toks(f) + [] == Toks(f);
    }
  }

  // ----- the panics

  predicate IsRedir(t: Tok) {
    t == Sym('<') || t == Sym('>') || t == Append
  }

  /** A token that no command can go on with. */
  predicate Misfit(t: Tok) {
    !t.Word? && !IsRedir(t) && !Starts([t], "|)&;")
  }

  predicate NoFileAt(ts: seq<Tok>, i: nat) {
    i < |ts| && IsRedir(ts[i]) && (i + 1 == |ts| || !ts[i + 1].Word?)
  }

  predicate MisfitAt(ts: seq<Tok>, i: nat) {
    i < |ts| && Misfit(ts[i]) && (ts[i] == Sym('(') ==> 0 < i && ts[i - 1].Word?)
  }

  /** What is wrong with a line that ends in this panic: a redirection without a file name; a token that no command can go
      on with, for '(' one behind a word; ten words in one command; parentheses around a line that another token than ')'
      follows; a line that another token follows. */
  ghost predicate Why(ts: seq<Tok>, e: Error) {
    match e
    case MissingFile => exists i: nat :: NoFileAt(ts, i)
    case Syntax => exists i: nat :: MisfitAt(ts, i)
    case TooManyArgs =>
      exists u: seq<Tok>, items, v: seq<Tok> :: ts == u + ItemToks(items) + v && |Words(items)| == MAXARGS
    case MissingParen =>
      exists u: seq<Tok>, f, v: seq<Tok> :: At(f, LineLevel) && ts == u + [Sym('(')] + Toks(f) + v && !Starts(v, ")")
    case Leftovers => exists f, v: seq<Tok> :: At(f, LineLevel) && ts == Toks(f) + v && v != []
  }

  lemma NoFileOn(u: seq<Tok>, ts: seq<Tok>, i: nat)
    requires NoFileAt(ts, i)
    ensures NoFileAt(u + ts, |u| + i)
  {
  }

  lemma MisfitOn(u: seq<Tok>, ts: seq<Tok>, i: nat)
    requires MisfitAt(ts, i)
    ensures MisfitAt(u + ts, |u| + i)
  {
  }

  lemma WhyOn(u: seq<Tok>, ts: seq<Tok>, e: Error)
    requires Why(ts, e) && e != Leftovers
    ensures Why(u + ts, e)
  {
    hide At, Toks, ItemToks, Words, NoFileAt, MisfitAt;
    match e
    case MissingFile =>
      var i: nat :| NoFileAt(ts, i);
      NoFileOn(u, ts, i);
    case Syntax =>
      var i: nat :| MisfitAt(ts, i);
      MisfitOn(u, ts, i);
    case TooManyArgs =>
      var w: seq<Tok>, items, v: seq<Tok> :| ts == w + ItemToks(items) + v && |Words(items)| == MAXARGS;
      assert u + ts == u + w + ItemToks(items) + v;
    case MissingParen =>
      var w: seq<Tok>, f, v: seq<Tok> :| At(f, LineLevel) && ts == w + [Sym('(')] + Toks(f) + v && !Starts(v, ")");
      assert u + ts == u + w + [Sym('(')] + Toks(f) + v;
    case _ =>
  }

  lemma {:induction false} RedirsWhy(ts: seq<Tok>)
    requires ParseRedirs(ts).Err?
    ensures ParseRedirs(ts).error == MissingFile && Why(ts, MissingFile)
    decreases |ts|
  {
    if |ts| >= 2 && ts[1].Word? {
      RedirsWhy(ts[2..]);
      WhyOn(ts[..2], ts[2..], MissingFile);
      assert ts == ts[..2] + ts[2..];
    } else {
      assert NoFileAt(ts, 0);
    }
  }

  /** The items are what the command has so far, the token before ts the last of theirs. */
  lemma {:induction false} ArgsWhy(items: seq<Item>, argv: seq<string>, rs: seq<Redirection>, ts: seq<Tok>)
    requires ParseArgs(argv, rs, ts).Err? && |argv| == |Words(items)| < MAXARGS && !StartsRedir(ts)
    requires items == [] ==> !Starts(ts, "(")
    ensures ParseArgs(argv, rs, ts).error != Leftovers && Why(ItemToks(items) + ts, ParseArgs(argv, rs, ts).error)
    decreases |ts|
  {
    hide ParseRedirs, Words, Reds, ItemToks, Why;
    var all := ItemToks(items) + ts;
    if !ts[0].Word? {
      LastWord(items);
      assert all[|ItemToks(items)|] == ts[0];
      MisfitWhy(all, |ItemToks(items)|);
    } else {
      var more := items + [Arg(ts[0].w)];
      ItemsOn(items, [Arg(ts[0].w)]);
      OneItem(Arg(ts[0].w));
      assert all == ItemToks(more) + ts[1..];
      if |argv| + 1 >= MAXARGS {
        TooManyWhy(more, ts[1..]);
      } else {
        var r := ParseRedirs(ts[1..]);
        if r.Err? {
          RedirsWhy(ts[1..]);
          WhyOn(ItemToks(more), ts[1..], MissingFile);
        } else {
          var lead := RedirsForm(ts[1..]);
          ItemsOn(more, lead);
          NoneArgs(lead);
          ArgsWhy(more + lead, argv + [ts[0].w], rs + r.value, r.rest);
          assert all == ItemToks(more + lead) + r.rest;
        }
      }
    }
  }

  lemma OneItem(x: Item)
    ensures Words([x]) == (if x.Arg? then [x.w] else []) && ItemToks([x]) == ItemTok(x)
  {
  }

  lemma {:induction false} LastWord(items: seq<Item>)
    ensures items != [] ==> ItemToks(items) != [] && ItemToks(items)[|ItemToks(items)| - 1].Word?
  {
    if items != [] {
      LastWord(items[1..]);
    }
  }

  lemma MisfitWhy(ts: seq<Tok>, i: nat)
    requires MisfitAt(ts, i)
    ensures Why(ts, Syntax)
  {
  }

  lemma TooManyWhy(items: seq<Item>, v: seq<Tok>)
    requires |Words(items)| == MAXARGS
    ensures Why(ItemToks(items) + v, TooManyArgs)
  {
    var none: seq<Tok> := [];
    assert ItemToks(items) + v == none + ItemToks(items) + v;
  }

  lemma ParenWhy(f: Form, v: seq<Tok>)
    requires At(f, LineLevel) && !Starts(v, ")")
    ensures Why([Sym('(')] + (Toks(f) + v), MissingParen)
  {
    hide At, Toks;
    var none: seq<Tok> := [];
    Regroup([Sym('(')], Toks(f), v);
    assert none + [Sym('(')] == [Sym('(')];
    assert [Sym('(')] + (Toks(f) + v) == none + [Sym('(')] + Toks(f) + v;
  }

  lemma {:induction false} ExecWhy(ts: seq<Tok>)
    requires ParseExec(ts).Err?
    ensures ParseExec(ts).error != Leftovers && Why(ts, ParseExec(ts).error)
    decreases |ts|, 0
  {
    hide ParseRedirs, ParseArgs, ParseLine, Words, Reds, ItemToks, Wrap, Why, At, Toks;
    if Starts(ts, "(") {
      var c := ParseLine(ts[1..]);
      assert ts == [Sym('(')] + ts[1..];
      if c.Err? {
        LineWhy(ts[1..]);
        WhyOn([Sym('(')], ts[1..], c.error);
      } else {
        var f := LineForm(ts[1..]);
        if !Starts(c.rest, ")") {
          ParenWhy(f, c.rest);
        } else {
          RedirsWhy(c.rest[1..]);
          var u := [Sym('(')] + Toks(f) + [Sym(')')];
          WhyOn(u, c.rest[1..], MissingFile);
          assert ts == u + c.rest[1..];
        }
      }
    } else {
      var r := ParseRedirs(ts);
      if r.Err? {
        RedirsWhy(ts);
      } else {
        var lead := RedirsForm(ts);
        NoneArgs(lead);
        NoItems();
        assert lead == [] ==> r.rest == ts;
        ArgsWhy(lead, [], r.value, r.rest);
      }
    }
  }

  lemma {:induction false} PipeWhy(ts: seq<Tok>)
    requires ParsePipe(ts).Err?
    ensures ParsePipe(ts).error != Leftovers && Why(ts, ParsePipe(ts).error)
    decreases |ts|, 1
  {
    hide ParseExec, Why, Toks, At, Tree;
    var c := ParseExec(ts);
    if c.Err? {
      ExecWhy(ts);
    } else {
      var f := ExecForm(ts);
      PipeWhy(c.rest[1..]);
      var u := Toks(f) + [Sym('|')];
      WhyOn(u, c.rest[1..], ParsePipe(ts).error);
      assert ts == u + c.rest[1..];
    }
  }

  lemma {:induction false} LineWhy(ts: seq<Tok>)
    requires ParseLine(ts).Err?
    ensures ParseLine(ts).error != Leftovers && Why(ts, ParseLine(ts).error)
    decreases |ts|, 2
  {
    hide ParsePipe, ParseAmps, Why, Toks, At, Tree;
    var b := ParsePipe(ts);
    if b.Err? {
      PipeWhy(ts);
    } else {
      var f := PipeForm(ts);
      var c := ParseAmps(b.value, b.rest);
      var g := BackForm(ts);
      LineWhy(c.rest[1..]);
      var u := Toks(g) + [Sym(';')];
      WhyOn(u, c.rest[1..], ParseLine(ts).error);
      assert ts == u + c.rest[1..];
    }
  }

  lemma BackForm(ts: seq<Tok>) returns (g: Form)
    requires ParsePipe(ts).Ok?
    ensures At(g, BackLevel) && Toks(g) + ParseAmps(ParsePipe(ts).value, ParsePipe(ts).rest).rest == ts
  {
    hide ParsePipe, ParseAmps, Words, ItemToks, Reds;
    var f := PipeForm(ts);
    AtMore(f);
    g := AmpsForm(f, ParsePipe(ts).rest);
  }

  /** Each panic says truly what is wrong with the line. */
  lemma PanicWhy(ts: seq<Tok>)
    requires ParseAll(ts).Err?
    ensures Why(ts, ParseAll(ts).error)
  {
    hide ParseLine, At, Toks, Tree;
    if ParseLine(ts).Err? {
      LineWhy(ts);
    } else {
      var f := LineForm(ts);
    }
  }
}
