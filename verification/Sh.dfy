// The shell's parser (OS-Lab-1/sh.c:262-446): a cursor moved along the line by
// gettoken and peek, and the recursive descent that calls them.

module Lexer {
  import opened Grammar

  predicate IsSpace(c: char) {
    c in " \t\r\n\U{0B}"
  }

  predicate IsSymbol(c: char) {
    c in "<|>&;()"
  }

  predicate InWord(c: char) {
    !IsSpace(c) && !IsSymbol(c)
  }

  function WordLen(s: string): (n: nat)
    ensures n <= |s|
    ensures forall i :: 0 <= i < n ==> InWord(s[i])
    ensures n < |s| ==> !InWord(s[n])
    ensures s != [] && InWord(s[0]) ==> 0 < n
  {
    if s == [] || !InWord(s[0]) then 0 else 1 + WordLen(s[1..])
  }

  /** The tokens of a string. */
  function Lex(s: string): seq<Tok>
    decreases |s|
  {
    if s == [] then []
    else if IsSpace(s[0]) then Lex(s[1..])
    else if s[0] == '>' && |s| > 1 && s[1] == '>' then [Append] + Lex(s[2..])
    else if IsSymbol(s[0]) then [Sym(s[0])] + Lex(s[1..])
    else [Word(s[..WordLen(s)])] + Lex(s[WordLen(s)..])
  }

  /** The first character of a token. */
  function First(t: Tok): char {
    match t
    case Sym(c) => c
    case Append => '>'
    case Word(w) => if w == [] then '\0' else w[0]
  }

  predicate Good(t: Tok) {
    match t
    case Sym(c) => IsSymbol(c)
    case Append => true
    case Word(w) => w != [] && forall i :: 0 <= i < |w| ==> InWord(w[i])
  }

  function Spell(t: Tok): string {
    match t
    case Sym(c) => [c]
    case Append => ">>"
    case Word(w) => w
  }

  /** Tokens written with a space after each. */
  function Render(ts: seq<Tok>): string {
    if ts == [] then [] else Spell(ts[0]) + " " + Render(ts[1..])
  }

  lemma {:induction false} WordLenOf(w: string, s: string)
    requires Good(Word(w)) && (s == [] || !InWord(s[0]))
    ensures WordLen(w + s) == |w|
    decreases |w|
  {
    assert (w + s)[1..] == w[1..] + s;
    if |w| > 1 {
      WordLenOf(w[1..], s);
    } else {
      assert w[1..] + s == s;
    }
  }

  lemma LexSpace(s: string)
    ensures Lex(" " + s) == Lex(s)
  {
    assert (" " + s)[1..] == s;
  }

  lemma LexSym(c: char, s: string)
    requires IsSymbol(c) && !(c == '>' && s != [] && s[0] == '>')
    ensures Lex([c] + s) == [Sym(c)] + Lex(s)
  {
    assert ([c] + s)[1..] == s;
  }

  lemma LexAppend(s: string)
    ensures Lex(">>" + s) == [Append] + Lex(s)
  {
    assert (">>" + s)[2..] == s;
  }

  lemma LexWord(w: string, s: string)
    requires Good(Word(w)) && (s == [] || !InWord(s[0]))
    ensures Lex(w + s) == [Word(w)] + Lex(s)
  {
    hide WordLen, IsSymbol, IsSpace;
    WordLenOf(w, s);
    assert (w + s)[0] == w[0] && InWord(w[0]);
    assert (w + s)[..|w|] == w && (w + s)[|w|..] == s;
    assert w[0] != '>' by { NotAngle(w[0]); }
  }

  lemma NotAngle(c: char)
    requires InWord(c)
    ensures c != '>'
  {
  }

  predicate Separates(c: char) {
    c == ' ' || c == '\t' || c == '\r' || c == '\n' || c == 11 as char
  }

  predicate StandsAlone(c: char) {
    c == '<' || c == '|' || c == '>' || c == '&' || c == ';' || c == '(' || c == ')'
  }

  /** The five blanks separate, the seven operators stand alone, and any string without them is one word. */
  lemma {:induction false} CharClasses(c: char, w: string)
    ensures Lex([c]) == if Separates(c) then [] else if StandsAlone(c) then [Sym(c)] else [Word([c])]
    ensures Lex(w) == [Word(w)] <== w != [] && forall i :: 0 <= i < |w| ==> !Separates(w[i]) && !StandsAlone(w[i])
  {
    ClassesAre();
    assert [c][1..] == [];
    if InWord(c) {
      WordAlone([c]);
    }
    if w != [] && forall i :: 0 <= i < |w| ==> !Separates(w[i]) && !StandsAlone(w[i]) {
      WordAlone(w);
    }
  }

  lemma ClassesAre()
    ensures forall c :: (IsSpace(c) <==> Separates(c)) && (IsSymbol(c) <==> StandsAlone(c))
  {
  }

  lemma WordAlone(w: string)
    requires Good(Word(w))
    ensures Lex(w) == [Word(w)]
  {
    hide IsSpace, IsSymbol;
    LexWord(w, []);
    assert w + [] == w && Lex([]) == [];
  }

  lemma LexSpell(t: Tok, s: string)
    requires Good(t)
    ensures Lex(Spell(t) + " " + s) == [t] + Lex(s)
  {
    hide Lex, WordLen;
    LexSpace(s);
    assert Spell(t) + " " + s == Spell(t) + (" " + s);
    match t
    case Sym(c) => LexSym(c, " " + s);
    case Append => LexAppend(" " + s);
    case Word(w) => LexWord(w, " " + s);
  }

  lemma {:induction false} LexRender(ts: seq<Tok>)
    requires forall i :: 0 <= i < |ts| ==> Good(ts[i])
    ensures Lex(Render(ts)) == ts
    decreases |ts|
  {
    hide Lex, Good, Spell;
    if ts == [] {
      LexNothing();
    } else {
      LexSpell(ts[0], Render(ts[1..]));
      LexRender(ts[1..]);
    }
  }

  lemma {:induction false} LexGood(s: string)
    ensures forall i :: 0 <= i < |Lex(s)| ==> Good(Lex(s)[i])
    decreases |s|
  {
    if s != [] {
      if IsSpace(s[0]) {
        LexGood(s[1..]);
      } else if s[0] == '>' && |s| > 1 && s[1] == '>' {
        LexGood(s[2..]);
      } else if IsSymbol(s[0]) {
        LexGood(s[1..]);
      } else {
        LexGood(s[WordLen(s)..]);
      }
    }
  }

  // ----- any spacing

  predicate Blank(s: string) {
    forall i :: 0 <= i < |s| ==> IsSpace(s[i])
  }

  /** Written without a space between them, t and u would be read differently. */
  predicate Touching(t: Tok, u: Tok) {
    (t.Word? && u.Word?) || (t == Sym('>') && First(u) == '>')
  }

  /** Runs of spaces for before, between and after the tokens; a run may be empty where the tokens allow it. */
  predicate Gaps(ts: seq<Tok>, gaps: seq<string>) {
    && |gaps| == |ts| + 1
    && (forall i :: 0 <= i < |gaps| ==> Blank(gaps[i]))
    && (forall i :: 0 <= i < |ts| - 1 && Touching(ts[i], ts[i + 1]) ==> gaps[i + 1] != [])
  }

  function Spaced(ts: seq<Tok>, gaps: seq<string>): string
    requires |gaps| == |ts| + 1
  {
    gaps[0] + if ts == [] then [] else Spell(ts[0]) + Spaced(ts[1..], gaps[1..])
  }

  lemma {:induction false} LexBlank(g: string, s: string)
    requires Blank(g)
    ensures Lex(g + s) == Lex(s)
    decreases |g|
  {
    if g == [] {
      assert g + s == s;
    } else {
      assert (g + s)[1..] == g[1..] + s;
      LexBlank(g[1..], s);
    }
  }

  /** t is read off the front of what follows it, if they do not run together. */
  lemma LexNext(t: Tok, s: string)
    requires Good(t) && (s != [] ==> (t.Word? ==> !InWord(s[0])) && (t == Sym('>') ==> s[0] != '>'))
    ensures Lex(Spell(t) + s) == [t] + Lex(s)
  {
    hide Lex, WordLen;
    match t
    case Sym(c) => LexSym(c, s);
    case Append => LexAppend(s);
    case Word(w) => LexWord(w, s);
  }

  /** How a spaced line starts. */
  lemma SpacedStart(ts: seq<Tok>, gaps: seq<string>)
    requires |gaps| == |ts| + 1 && Blank(gaps[0]) && (ts != [] ==> Good(ts[0])) && Spaced(ts, gaps) != []
    ensures if gaps[0] != [] then IsSpace(Spaced(ts, gaps)[0])
            else ts != [] && Spaced(ts, gaps)[0] == First(ts[0])
  {
  }

  lemma SymbolNotWord(t: Tok)
    requires Good(t) && !t.Word?
    ensures !InWord(First(t))
  {
  }

  /** Every spacing of good tokens is read back as those tokens. */
  lemma {:induction false} LexSpaced(ts: seq<Tok>, gaps: seq<string>)
    requires Gaps(ts, gaps) && forall i :: 0 <= i < |ts| ==> Good(ts[i])
    ensures Lex(Spaced(ts, gaps)) == ts
    decreases |ts|
  {
    hide Lex, Good, First, InWord, IsSymbol;
    if ts == [] {
      LexBlank(gaps[0], []);
      assert gaps[0] + [] == gaps[0];
      LexNothing();
    } else {
      var rest := Spaced(ts[1..], gaps[1..]);
      LexSpaced(ts[1..], gaps[1..]);
      LexBlank(gaps[0], Spell(ts[0]) + rest);
      if rest != [] {
        SpacedStart(ts[1..], gaps[1..]);
        SpaceIsNoSymbol(rest[0]);
        if |ts| > 1 && !ts[1].Word? { SymbolNotWord(ts[1]); }
      }
      LexNext(ts[0], rest);
    }
  }

  lemma LexNothing()
    ensures Lex([]) == []
  {
  }

  lemma SpaceIsNoSymbol(c: char)
    ensures IsSpace(c) ==> !InWord(c) && c != '>'
  {
  }

  /** The token at the front of a line, and what ends it. */
  lemma FrontToken(s: string) returns (t: Tok, rest: string)
    requires s != [] && !IsSpace(s[0])
    ensures s == Spell(t) + rest && |rest| < |s| && Lex(s) == [t] + Lex(rest)
    ensures rest != [] ==> (t.Word? ==> !InWord(rest[0])) && (t == Sym('>') ==> rest[0] != '>')
  {
    t := Lex(s)[0];
    rest := s[|Spell(t)|..];
  }

  lemma FrontGap(ts: seq<Tok>, gaps: seq<string>, c: char) returns (g: seq<string>)
    requires Gaps(ts, gaps) && IsSpace(c)
    ensures Gaps(ts, g) && Spaced(ts, g) == [c] + Spaced(ts, gaps)
  {
    g := [[c] + gaps[0]] + gaps[1..];
    assert g[1..] == gaps[1..];
  }

  lemma FrontTokenGap(ts: seq<Tok>, gaps: seq<string>, t: Tok)
    requires Gaps(ts, gaps) && (ts != [] && Touching(t, ts[0]) ==> gaps[0] != [])
    ensures Gaps([t] + ts, [[]] + gaps) && Spaced([t] + ts, [[]] + gaps) == Spell(t) + Spaced(ts, gaps)
  {
    hide Touching;
    assert ([[]] + gaps)[1..] == gaps && ([t] + ts)[1..] == ts;
  }

  /** Every line is a spacing of its tokens. */
  lemma {:induction false} LexReads(s: string) returns (gaps: seq<string>)
    ensures Gaps(Lex(s), gaps) && Spaced(Lex(s), gaps) == s
    decreases |s|
  {
    hide Lex, Good, First, InWord, IsSymbol, IsSpace, Gaps, Spaced;
    if s == [] {
      gaps := NothingRead();
    } else if IsSpace(s[0]) {
      gaps := LexReads(s[1..]);
      assert s == [s[0]] + s[1..];
      LexBlank([s[0]], s[1..]);
      gaps := FrontGap(Lex(s), gaps, s[0]);
    } else {
      var t, rest := FrontToken(s);
      gaps := LexReads(rest);
      LexGood(rest);
      NoTouch(t, rest, gaps);
      FrontTokenGap(Lex(rest), gaps, t);
      gaps := [[]] + gaps;
    }
  }

  lemma NothingRead() returns (gaps: seq<string>)
    ensures Gaps(Lex([]), gaps) && Spaced(Lex([]), gaps) == []
  {
    gaps := [[]];
  }

  lemma NoTouch(t: Tok, rest: string, gaps: seq<string>)
    requires Gaps(Lex(rest), gaps) && Spaced(Lex(rest), gaps) == rest && forall i :: 0 <= i < |Lex(rest)| ==> Good(Lex(rest)[i])
    requires rest != [] ==> (t.Word? ==> !InWord(rest[0])) && (t == Sym('>') ==> rest[0] != '>')
    ensures Lex(rest) != [] && Touching(t, Lex(rest)[0]) ==> gaps[0] != []
  {
    hide Lex, InWord;
    if Lex(rest) != [] && gaps[0] == [] {
      SpellFirst(Lex(rest)[0]);
      assert rest[0] == First(Lex(rest)[0]);
    }
  }

  lemma SpellFirst(t: Tok)
    requires Good(t)
    ensures Spell(t) != [] && Spell(t)[0] == First(t) && (t.Word? ==> InWord(First(t)))
  {
  }
}

module Sh {
  import opened Options
  import opened Grammar
  import opened Lexer
  import opened Forms

  datatype Parsed<+T> = Done(value: T) | Panic(error: Error)

  class Parser {
    const line: string     // up to its NUL: es is |line|
    var s: nat             // *ps

    constructor (line: string)
      ensures this.line == line && s == 0
    {
      this.line := line;
      s := 0;
    }

    ghost predicate Valid()
      reads this
    {
      s <= |line|
    }

    /** The tokens still to be read. */
    ghost function Rest(): seq<Tok>
      reads this
      requires Valid()
    {
      Lex(line[s..])
    }

    method SkipSpace()
      requires Valid()
      modifies this
      ensures Valid() && old(s) <= s && Rest() == old(Rest())
      ensures s < |line| ==> !IsSpace(line[s])
    {
      while s < |line| && IsSpace(line[s])
        invariant Valid() && old(s) <= s && Rest() == old(Rest())
        decreases |line| - s
      {
        assert line[s..][1..] == line[s + 1..];
        s := s + 1;
      }
    }

    /** The next token, None at the end of the line. */
    method GetToken() returns (t: Option<Tok>)
      requires Valid()
      modifies this
      ensures Valid() && old(s) <= s
      ensures if old(Rest()) == [] then t == None && Rest() == []
        else t == Some(old(Rest())[0]) && Rest() == old(Rest())[1..] && old(s) < s
    {
      hide Lex, WordLen;
      SkipSpace();
      if s == |line| {
        assert line[s..] == [];
        LexEmpty();
        return None;
      }
      ghost var u := line[s..];
      var c := line[s];
      LexGood(u);
      if c == '>' {
        s := s + 1;
        if s < |line| && line[s] == '>' {
          t := Some(Append);
          s := s + 1;
          assert u == ">>" + line[s..];
          LexAppend(line[s..]);
        } else {
          t := Some(Sym('>'));
          assert u == [c] + line[s..];
          LexSym(c, line[s..]);
        }
      } else if IsSymbol(c) {
        t := Some(Sym(c));
        s := s + 1;
        assert u == [c] + line[s..];
        LexSym(c, line[s..]);
      } else {
        var w := GetWord();
        t := Some(Word(w));
        assert u == w + line[s..];
        LexWord(w, line[s..]);
      }
      SkipSpace();
    }

    /** The default case of gettoken. */
    method GetWord() returns (w: string)
      requires Valid() && s < |line| && InWord(line[s])
      modifies this
      ensures Valid() && old(s) < s && w == line[old(s)..s] && Good(Word(w))
      ensures s < |line| ==> !InWord(line[s])
    {
      var q := s;
      while s < |line| && InWord(line[s])
        invariant q <= s <= |line|
        invariant s == q ==> s < |line| && InWord(line[s])
        invariant forall i :: q <= i < s ==> InWord(line[i])
        decreases |line| - s
      {
        s := s + 1;
      }
      w := line[q..s];
    }

    /** Whether the next character that is not a space is one of toks. */
    method Peek(toks: string) returns (r: bool)
      requires Valid() && (toks == "<>" || Plain(toks))
      modifies this
      ensures Valid() && old(s) <= s && Rest() == old(Rest())
      ensures r <==> if toks == "<>" then StartsRedir(Rest()) else Starts(Rest(), toks)
      ensures Rest() == [] ==> s == |line|
    {
      SkipSpace();
      r := s < |line| && line[s] in toks;
      LexGood(line[s..]);
      if s < |line| {
        FirstIs(line[s..]);
        PeekIs(Rest(), toks);
      } else {
        assert line[s..] == [];
      }
    }

    /** A method's outcome is the grammar's, and so is where it leaves the cursor. */
    ghost predicate Matches<T>(r: Parsed<T>, g: Result<T>)
      reads this
      requires Valid()
    {
      match g
      case Ok(c, rest) => r == Done(c) && Rest() == rest
      case Err(e) => r == Panic(e)
    }

    /** The redirections that wrap the command, innermost first. */
    method ParseRedirs() returns (r: Parsed<seq<Redirection>>)
      requires Valid()
      modifies this
      ensures Valid() && old(s) <= s && Matches(r, Grammar.ParseRedirs(old(Rest())))
    {
      hide Lex;
      ghost var ts := Rest();
      var rs: seq<Redirection> := [];
      NothingFirst(Grammar.ParseRedirs(ts));
      var more := Peek("<>");
      while more
        invariant Valid() && old(s) <= s
        invariant more <==> StartsRedir(Rest())
        invariant Grammar.ParseRedirs(ts) == Prepend(rs, Grammar.ParseRedirs(Rest()))
        decreases |line| - s
      {
        ghost var before := Rest();
        var tok := GetToken();
        var file := GetToken();
        if !file.Some? || !file.value.Word? {
          assert Grammar.ParseRedirs(before) == Err(MissingFile);
          return Panic(MissingFile);
        }
        assert before[1..][1..] == before[2..];
        Prepended(rs, Redirection(file.value.w, tok != Some(Sym('<'))), Grammar.ParseRedirs(before[2..]));
        rs := rs + [Redirection(file.value.w, tok != Some(Sym('<')))];
        more := Peek("<>");
      }
      NoRedirs(Rest());
      assert rs + [] == rs;
      r := Done(rs);
    }

    /** An exec command's words and redirections.  The source appends words to a node that the
        redirections already wrap; here the tree is built once the words are known. */
    method ParseExec() returns (r: Parsed<Cmd>)
      requires Valid()
      modifies this
      ensures Valid() && old(s) <= s && Matches(r, Grammar.ParseExec(old(Rest())))
      decreases |line| - s, 1
    {
      hide Lex;
      var block := Peek("(");
      if block {
        r := ParseBlock();
        return;
      }
      ghost var ts := Rest();
      var argv: seq<string> := [];
      var rs := [];
      var got := ParseRedirs();
      if got.Panic? {
        return Panic(got.error);
      }
      rs := got.value;
      var stop := Peek("|)&;");
      while !stop
        invariant Valid() && old(s) <= s
        invariant stop <==> Starts(Rest(), "|)&;")
        invariant Grammar.ParseExec(ts) == ParseArgs(argv, rs, Rest())
        invariant |argv| < MAXARGS
        decreases |line| - s, !stop
      {
        var tok := GetToken();
        if tok.None? {
          break;
        }
        if !tok.value.Word? {
          return Panic(Syntax);
        }
        argv := argv + [tok.value.w];
        if |argv| >= MAXARGS {
          return Panic(TooManyArgs);
        }
        got := ParseRedirs();
        if got.Panic? {
          return Panic(got.error);
        }
        rs := rs + got.value;
        stop := Peek("|)&;");
      }
      r := Done(Wrap(Exec(argv), rs));
    }

    method ParseBlock() returns (r: Parsed<Cmd>)
      requires Valid() && Starts(Rest(), "(")
      modifies this
      ensures Valid() && old(s) <= s && Matches(r, Grammar.ParseBlock(old(Rest())))
      decreases |line| - s, 0
    {
      hide Lex;
      var open := Peek("(");
      var tok := GetToken();
      var c := ParseLine();
      if c.Panic? {
        return c;
      }
      var close := Peek(")");
      if !close {
        return Panic(MissingParen);
      }
      tok := GetToken();
      var rs := ParseRedirs();
      if rs.Panic? {
        return Panic(rs.error);
      }
      r := Done(Wrap(c.value, rs.value));
    }

    method ParsePipe() returns (r: Parsed<Cmd>)
      requires Valid()
      modifies this
      ensures Valid() && old(s) <= s && Matches(r, Grammar.ParsePipe(old(Rest())))
      decreases |line| - s, 2
    {
      hide Lex;
      r := ParseExec();
      if r.Panic? {
        return;
      }
      var more := Peek("|");
      if more {
        var tok := GetToken();
        var d := ParsePipe();
        if d.Panic? {
          return d;
        }
        r := Done(Pipe(r.value, d.value));
      }
    }

    method ParseLine() returns (r: Parsed<Cmd>)
      requires Valid()
      modifies this
      ensures Valid() && old(s) <= s && Matches(r, Grammar.ParseLine(old(Rest())))
      decreases |line| - s, 3
    {
      hide Lex;
      ghost var ts := Rest();
      r := ParsePipe();
      if r.Panic? {
        return;
      }
      var c := r.value;
      var more := Peek("&");
      while more
        invariant Valid() && old(s) <= s
        invariant more <==> Starts(Rest(), "&")
        invariant Grammar.ParseBack(ts) == ParseAmps(c, Rest())
        decreases |line| - s
      {
        var tok := GetToken();
        c := Back(c);
        more := Peek("&");
      }
      r := Done(c);
      var list := Peek(";");
      if list {
        var tok := GetToken();
        var d := ParseLine();
        if d.Panic? {
          return d;
        }
        r := Done(List(c, d.value));
      }
    }
  }

  function Prepend(rs: seq<Redirection>, r: Result<seq<Redirection>>): Result<seq<Redirection>> {
    if r.Err? then r else Ok(rs + r.value, r.rest)
  }

  lemma Prepended(rs: seq<Redirection>, x: Redirection, r: Result<seq<Redirection>>)
    ensures Prepend(rs, if r.Err? then r else Ok([x] + r.value, r.rest)) == Prepend(rs + [x], r)
  {
    if r.Ok? {
      assert rs + ([x] + r.value) == rs + [x] + r.value;
    }
  }

  lemma NothingFirst(r: Result<seq<Redirection>>)
    ensures Prepend([], r) == r
  {
    if r.Ok? {
      assert [] + r.value == r.value;
    }
  }

  /** parsecmd: the tree of the whole line, or the panic that ended the parse. */
  method ParseCmd(line: string) returns (r: Parsed<Cmd>)
    ensures match ParseAll(Lex(line)) case Ok(c, _) => r == Done(c) case Err(e) => r == Panic(e)
  {
    hide Lex;
    var p := new Parser(line);
    assert line[0..] == line;
    assert p.Rest() == Lex(line);
    r := p.ParseLine();
    if r.Panic? {
      return;
    }
    var none := p.Peek("");
    if p.s != |line| {
      return Panic(Leftovers);
    }
    assert line[p.s..] == [];
    LexEmpty();
  }

  /** Symbols each of which is a token. */
  predicate Plain(toks: string) {
    forall i :: 0 <= i < |toks| ==> IsSymbol(toks[i]) && toks[i] != '>'
  }

  lemma PeekIs(ts: seq<Tok>, toks: string)
    requires ts != [] && Good(ts[0]) && (toks == "<>" || Plain(toks))
    ensures First(ts[0]) in toks <==> if toks == "<>" then StartsRedir(ts) else Starts(ts, toks)
  {
    if ts[0].Word? {
      assert InWord(ts[0].w[0]);
    }
  }

  lemma LexEmpty()
    ensures Lex("") == []
  {
  }

  lemma FirstIs(u: string)
    requires u != [] && !IsSpace(u[0])
    ensures Lex(u) != [] && First(Lex(u)[0]) == u[0]
  {
  }

  // ----- the whole shell line

  predicate GoodRedirs(rs: seq<Redirection>) {
    forall i :: 0 <= i < |rs| ==> Good(Word(rs[i].file))
  }

  /** Words without spaces or symbols, and at most nine to a command. */
  predicate Printable(c: Cmd) {
    match c
    case Exec(argv) => |argv| < MAXARGS && forall i :: 0 <= i < |argv| ==> Good(Word(argv[i]))
    case Redir(d, r) => Printable(d) && Good(Word(r.file))
    case Pipe(l, r) => Printable(l) && Printable(r)
    case List(l, r) => Printable(l) && Printable(r)
    case Back(d) => Printable(d)
  }

  predicate AllGood(ts: seq<Tok>) {
    forall i :: 0 <= i < |ts| ==> Good(ts[i])
  }

  lemma {:induction false} WordsGood(ws: seq<string>)
    requires forall i :: 0 <= i < |ws| ==> Good(Word(ws[i]))
    ensures AllGood(WordToks(ws))
    decreases |ws|
  {
    if ws != [] {
      WordsGood(ws[1..]);
    }
  }

  lemma {:induction false} RedirsGood(rs: seq<Redirection>)
    requires GoodRedirs(rs)
    ensures AllGood(RedirToks(rs))
    decreases |rs|
  {
    if rs != [] {
      RedirsGood(rs[1..]);
    }
  }

  lemma {:induction false} BasePrintable(c: Cmd)
    requires Printable(c)
    ensures Printable(Base(c)) && GoodRedirs(Redirs(c)) && Fits(c)
    decreases c
  {
    match c
    case Exec(_) =>
    case Redir(d, _) => BasePrintable(d);
    case Pipe(l, r) => { BasePrintable(l); BasePrintable(r); }
    case List(l, r) => { BasePrintable(l); BasePrintable(r); }
    case Back(d) => BasePrintable(d);
  }

  lemma {:induction false} PrintGood(c: Cmd, l: Level)
    requires Printable(c)
    ensures AllGood(Print(c, l))
    decreases Size(c), Rank(c, l)
  {
    hide Good;
    BasePrintable(c);
    SymsGood();
    match l
    case LineLevel =>
      if c.List? { PrintGood(c.left, BackLevel); PrintGood(c.right, LineLevel); } else { PrintGood(c, BackLevel); }
    case BackLevel => if c.Back? { PrintGood(c.cmd, BackLevel); } else { PrintGood(c, PipeLevel); }
    case PipeLevel =>
      if c.Pipe? { PrintGood(c.left, ExecLevel); PrintGood(c.right, PipeLevel); } else { PrintGood(c, ExecLevel); }
    case ExecLevel =>
      RedirsGood(Redirs(c));
      if Base(c).Exec? { WordsGood(Base(c).argv); } else { PrintGood(Base(c), LineLevel); }
  }

  lemma SymsGood()
    ensures Good(Sym(';')) && Good(Sym('&')) && Good(Sym('|')) && Good(Sym('(')) && Good(Sym(')'))
  {
  }

  /** Writing a tree down and parsing the line gives the tree back, with no leftovers. */
  lemma RoundTrip(c: Cmd)
    requires Printable(c)
    ensures ParseAll(Lex(Render(Print(c, LineLevel)))) == Ok(c, [])
  {
    BasePrintable(c);
    PrintGood(c, LineLevel);
    LexRender(Print(c, LineLevel));
    ParsePrint(c);
  }

  /** Spaces do not matter: however the words and symbols of a printable tree are spaced, the line parses to the tree. */
  lemma AnySpacing(c: Cmd, gaps: seq<string>)
    requires Printable(c) && Gaps(Print(c, LineLevel), gaps)
    ensures ParseAll(Lex(Spaced(Print(c, LineLevel), gaps))) == Ok(c, [])
  {
    BasePrintable(c);
    PrintGood(c, LineLevel);
    LexSpaced(Print(c, LineLevel), gaps);
    ParsePrint(c);
  }

  /** Every way to write a tree as a string: redirections anywhere among the words, '>' or '>>', redundant parentheses, any
      spaces. */
  lemma AnyForm(f: Form, gaps: seq<string>)
    requires At(f, LineLevel) && AllGood(Toks(f)) && Gaps(Toks(f), gaps)
    ensures ParseAll(Lex(Spaced(Toks(f), gaps))) == Ok(Tree(f), [])
  {
    hide At, Toks, Tree, Gaps, Spaced, Lex;
    LexSpaced(Toks(f), gaps);
    assert Writes(Toks(f), Tree(f));
    ParsesIff(Toks(f), Tree(f));
  }

  /** And there are no others: a line that parses is written so. */
  lemma LineReads(line: string) returns (f: Form, gaps: seq<string>)
    requires ParseAll(Lex(line)).Ok?
    ensures At(f, LineLevel) && Gaps(Toks(f), gaps) && Spaced(Toks(f), gaps) == line
    ensures ParseAll(Lex(line)) == Ok(Tree(f), [])
  {
    hide At, Toks, Tree, Gaps, Spaced, Lex, ParseLine;
    gaps := LexReads(line);
    f := LineForm(Lex(line));
    assert Toks(f) + [] == Toks(f);
  }
}
