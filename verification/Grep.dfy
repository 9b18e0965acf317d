// The regular-expression matcher of grep (OS-Lab-1/grep.c:66-106) against the
// language its patterns denote.  Strings are C strings: their NUL is their end.

module Grep {

  // ----- the language of a pattern

  /** c, or any character if c is '.'; once, or any number of times. */
  datatype Item = One(c: char) | Many(c: char)

  /** A pattern without its '^': the items, and whether a final '$' ties it to the end. */
  datatype Pattern = Pattern(items: seq<Item>, toEnd: bool)

  function Read(re: string): Pattern
    decreases |re|
  {
    if re == "" then Pattern([], false)
    else if |re| > 1 && re[1] == '*' then
      var p := Read(re[2..]);
      p.(items := [Many(re[0])] + p.items)
    else if re == "$" then Pattern([], true)
    else
      var p := Read(re[1..]);
      p.(items := [One(re[0])] + p.items)
  }

  predicate Fits(c: char, x: char) {
    c == '.' || c == x
  }

  ghost predicate Run(c: char, w: string, k: nat) {
    k <= |w| && forall i :: 0 <= i < k ==> Fits(c, w[i])
  }

  /** The string w is in the language of the items: their languages, concatenated. */
  ghost predicate Denotes(items: seq<Item>, w: string)
    decreases |items|
  {
    if items == [] then w == ""
    else
      match items[0]
      case One(c) => w != "" && Fits(c, w[0]) && Denotes(items[1..], w[1..])
      case Many(c) => exists k: nat :: Run(c, w, k) && Denotes(items[1..], w[k..])
  }

  /** The pattern takes the first n characters of the text. */
  ghost predicate Takes(p: Pattern, text: string, n: nat) {
    n <= |text| && Denotes(p.items, text[..n]) && (p.toEnd ==> n == |text|)
  }

  ghost predicate Here(re: string, text: string) {
    exists n: nat :: Takes(Read(re), text, n)
  }

  /** Some substring of the text is in the language; with '^', one that starts the text. */
  ghost predicate Somewhere(re: string, text: string) {
    if re != "" && re[0] == '^' then Here(re[1..], text)
    else exists i: nat :: i <= |text| && Here(re, text[i..])
  }

  /** w is a word of a followed by a word of b, k characters long. */
  ghost predicate SplitAt(a: seq<Item>, b: seq<Item>, w: string, k: nat) {
    k <= |w| && Denotes(a, w[..k]) && Denotes(b, w[k..])
  }

  lemma ManyIntro(items: seq<Item>, w: string, m: nat)
    requires items != [] && items[0].Many? && Run(items[0].c, w, m) && Denotes(items[1..], w[m..])
    ensures Denotes(items, w)
  {
  }

  lemma ManyElim(items: seq<Item>, w: string) returns (m: nat)
    requires items != [] && items[0].Many? && Denotes(items, w)
    ensures Run(items[0].c, w, m) && Denotes(items[1..], w[m..])
  {
    m :| Run(items[0].c, w, m) && Denotes(items[1..], w[m..]);
  }

  /** The language of a sequence of items is the concatenation of the languages of its two halves. */
  lemma Concatenation(a: seq<Item>, b: seq<Item>, w: string)
    ensures Denotes(a + b, w) <==> exists k: nat :: SplitAt(a, b, w, k)
  {
    if Denotes(a + b, w) {
      var k := Cut(a, b, w);
    }
    if k: nat :| SplitAt(a, b, w, k) {
      Join(a, b, w, k);
    }
  }

  lemma {:induction false} Cut(a: seq<Item>, b: seq<Item>, w: string) returns (k: nat)
    requires Denotes(a + b, w)
    ensures SplitAt(a, b, w, k)
    decreases |a|
  {
    if a == [] {
      k := 0;
      assert a + b == b && w[..0] == "" && w[0..] == w;
      return;
    }
    assert (a + b)[1..] == a[1..] + b;
    if a[0].One? {
      k := Cut(a[1..], b, w[1..]);
      assert w[..k + 1][1..] == w[1..][..k] && w[k + 1..] == w[1..][k..];
      k := k + 1;
    } else {
      var m := ManyElim(a + b, w);
      k := Cut(a[1..], b, w[m..]);
      assert w[..m + k][m..] == w[m..][..k] && w[m..][k..] == w[m + k..];
      assert Run(a[0].c, w[..m + k], m);
      ManyIntro(a, w[..m + k], m);
      k := m + k;
    }
  }

  lemma {:induction false} Join(a: seq<Item>, b: seq<Item>, w: string, k: nat)
    requires SplitAt(a, b, w, k)
    ensures Denotes(a + b, w)
    decreases |a|
  {
    if a == [] {
      assert a + b == b && w[k..] == w;
      return;
    }
    assert (a + b)[1..] == a[1..] + b;
    if a[0].One? {
      assert w[..k][1..] == w[1..][..k - 1] && w[k..] == w[1..][k - 1..];
      Join(a[1..], b, w[1..], k - 1);
    } else {
      var m := ManyElim(a, w[..k]);
      assert w[..k][m..] == w[m..][..k - m] && w[m..][k - m..] == w[k..];
      Join(a[1..], b, w[m..], k - m);
      assert Run(a[0].c, w, m);
      ManyIntro(a + b, w, m);
    }
  }

  // ----- what each branch of the matcher relies on

  lemma EmptyTakes(text: string)
    ensures Here("", text)
  {
    assert text[..0] == "";
    assert Takes(Read(""), text, 0);
  }

  lemma DollarTakes(text: string)
    ensures Here("$", text) <==> text == ""
  {
    if text == "" {
      assert text[..0] == "";
      assert Takes(Read("$"), text, 0);
    }
    if n: nat :| Takes(Read("$"), text, n) {
      assert |text[..n]| == n;
    }
  }

  lemma OneTakes(re: string, text: string)
    requires re != "" && re != "$" && !(|re| > 1 && re[1] == '*')
    ensures Here(re, text) <==> text != "" && Fits(re[0], text[0]) && Here(re[1..], text[1..])
  {
    var p, q := Read(re), Read(re[1..]);
    assert p.items[1..] == q.items;
    if n: nat :| Takes(p, text, n) {
      assert n > 0 && text[..n][1..] == text[1..][..n - 1];
      assert Takes(q, text[1..], n - 1);
    }
    if text != "" && Fits(re[0], text[0]) {
      if n: nat :| Takes(q, text[1..], n) {
        assert text[..n + 1][1..] == text[1..][..n];
        assert Takes(p, text, n + 1);
      }
    }
  }

  lemma ManyRead(re: string)
    requires |re| > 1 && re[1] == '*'
    ensures Read(re).items != [] && Read(re).items[0] == Many(re[0]) && Read(re).items[1..] == Read(re[2..]).items
    ensures Read(re).toEnd == Read(re[2..]).toEnd
  {
  }

  /** A match of c* and what follows starts with a run of c. */
  lemma ManySplits(re: string, text: string, n: nat) returns (k: nat)
    requires |re| > 1 && re[1] == '*' && Takes(Read(re), text, n)
    ensures k <= n && Run(re[0], text, k) && Takes(Read(re[2..]), text[k..], n - k)
  {
    hide Denotes, Read;
    ManyRead(re);
    var w := text[..n];
    k := ManyElim(Read(re).items, w);
    assert w[k..] == text[k..][..n - k];
  }

  lemma ManyJoins(re: string, text: string, k: nat, n: nat)
    requires |re| > 1 && re[1] == '*' && Run(re[0], text, k) && Takes(Read(re[2..]), text[k..], n)
    ensures Takes(Read(re), text, k + n)
  {
    hide Denotes, Read;
    ManyRead(re);
    var w := text[..k + n];
    assert w[k..] == text[k..][..n];
    ManyIntro(Read(re).items, w, k);
  }

  /** c* takes some characters that fit, and leaves the rest to what follows. */
  lemma ManyTakes(re: string, text: string)
    requires |re| > 1 && re[1] == '*'
    ensures Here(re, text) <==> exists k: nat :: Run(re[0], text, k) && Here(re[2..], text[k..])
  {
    hide Takes, Read, Denotes;
    if n: nat :| Takes(Read(re), text, n) {
      var k := ManySplits(re, text, n);
      assert Here(re[2..], text[k..]);
    }
    if k: nat :| Run(re[0], text, k) && Here(re[2..], text[k..]) {
      var n: nat :| Takes(Read(re[2..]), text[k..], n);
      ManyJoins(re, text, k, n);
    }
  }

  // ----- the matcher

  method Match(re: string, text: string) returns (r: bool)
    ensures r <==> Somewhere(re, text)
  {
    hide Here;
    if re != "" && re[0] == '^' {
      r := MatchHere(re[1..], text);
      return;
    }
    var i := 0;
    while true
      invariant i <= |text|
      invariant forall j: nat :: j < i ==> !Here(re, text[j..])
      decreases |text| - i
    {
      var here := MatchHere(re, text[i..]);
      if here {
        return true;
      }
      if i == |text| {
        return false;
      }
      i := i + 1;
    }
  }

  method MatchHere(re: string, text: string) returns (r: bool)
    ensures r <==> Here(re, text)
    decreases |re|, 0
  {
    hide Here;
    if re == "" {
      EmptyTakes(text);
      return true;
    }
    if |re| > 1 && re[1] == '*' {
      r := MatchStar(re[0], re[2..], text);
      ManyTakes(re, text);
      return;
    }
    if re[0] == '$' && |re| == 1 {
      assert re == "$";
      DollarTakes(text);
      return text == "";
    }
    OneTakes(re, text);
    if text != "" && (re[0] == '.' || re[0] == text[0]) {
      r := MatchHere(re[1..], text[1..]);
      return;
    }
    return false;
  }

  method MatchStar(c: char, re: string, text: string) returns (r: bool)
    ensures r <==> exists k: nat :: Run(c, text, k) && Here(re, text[k..])
    decreases |re|, 1
  {
    hide Here;
    var k := 0;
    while true
      invariant Run(c, text, k)
      invariant forall j: nat :: j < k ==> !Here(re, text[j..])
      decreases |text| - k
    {
      var here := MatchHere(re, text[k..]);
      if here {
        return true;
      }
      if !(k < |text| && (text[k] == c || c == '.')) {
        return false;
      }
      k := k + 1;
    }
  }
}
