/** Finding JSON-looking blocks in free text: the language of the regular expression, the
    same language said with nesting depth, and the left-to-right scan for it. */
module BraceScan {
  import opened Protocol

  // ---- The regular expression ----

  datatype Re = LBrace | RBrace | Text | Cat(first: Re, second: Re) | Star(body: Re)

  /** Text stands for the character class of everything but the two braces. */
  ghost predicate Matches(r: Re, s: string)
    decreases |s|, r
  {
    match r
    case LBrace => s == "{"
    case RBrace => s == "}"
    case Text => |s| == 1 && s[0] != '{' && s[0] != '}'
    case Cat(a, b) => exists k :: 0 <= k <= |s| && Matches(a, s[..k]) && Matches(b, s[k..])
    case Star(a) => s == "" || exists k :: 0 < k <= |s| && Matches(a, s[..k]) && Matches(r, s[k..])
  }

  const TEXTS := Star(Text)
  const INNER := Cat(LBrace, Cat(TEXTS, Cat(RBrace, TEXTS)))
  const REST := Cat(TEXTS, Cat(Star(INNER), RBrace))

  /** An opening brace, text, any number of flat inner blocks each followed by text, and a
      closing brace. */
  const PATTERN := Cat(LBrace, REST)

  // ---- The same language by depth ----

  function Delta(c: char): int {
    if c == '{' then 1 else if c == '}' then -1 else 0
  }

  /** Opening minus closing braces in s. */
  function Depth(s: string): int {
    if s == "" then 0 else Depth(s[..|s| - 1]) + Delta(s[|s| - 1])
  }

  /** A brace-balanced block of nesting depth at most two. */
  ghost predicate Block(s: string) {
    && |s| >= 2
    && Depth(s) == 0
    && forall n :: 0 < n < |s| ==> 1 <= Depth(s[..n]) <= 2
  }

  /** Reading s from depth d stays at depth one or two until it reaches zero with the last
      character. */
  predicate Closes(s: string, d: int) {
    && s != ""
    && if s[0] == '{' then d == 1 && Closes(s[1..], 2)
       else if s[0] == '}' then (if d == 1 then |s| == 1 else Closes(s[1..], 1))
       else Closes(s[1..], d)
  }

  lemma {:induction false} DepthOfCons(s: string)
    requires s != ""
    ensures Depth(s) == Delta(s[0]) + Depth(s[1..])
  {
    if |s| > 1 {
      DepthOfCons(s[..|s| - 1]);
      assert s[1..][..|s| - 2] == s[..|s| - 1][1..];
    }
  }

  /** Depth one or two before the end and zero at the end. */
  ghost predicate Balances(s: string, d: int) {
    && s != ""
    && d + Depth(s) == 0
    && forall n :: 0 <= n < |s| ==> 1 <= d + Depth(s[..n]) <= 2
  }

  lemma BalancesCons(s: string, d: int)
    requires |s| > 1 && 1 <= d <= 2
    ensures Balances(s, d) <==> Balances(s[1..], d + Delta(s[0]))
  {
    DepthOfCons(s);
    forall n | 0 < n < |s| ensures Depth(s[..n]) == Delta(s[0]) + Depth(s[1..][..n - 1]) {
      DepthOfCons(s[..n]);
      assert s[..n][1..] == s[1..][..n - 1];
    }
    var e := d + Delta(s[0]);
    if Balances(s, d) {
      forall n | 0 <= n < |s| - 1 ensures 1 <= e + Depth(s[1..][..n]) <= 2 {
        assert 1 <= d + Depth(s[..n + 1]) <= 2;
      }
    }
    if Balances(s[1..], e) {
      forall n | 0 <= n < |s| ensures 1 <= d + Depth(s[..n]) <= 2 {
        if n > 0 { assert 1 <= e + Depth(s[1..][..n - 1]) <= 2; }
      }
    }
  }

  lemma {:induction false} ClosesIsBalances(s: string, d: int)
    requires 1 <= d <= 2
    ensures Closes(s, d) <==> Balances(s, d)
  {
    if |s| == 1 {
      assert s[..0] == "" && Depth(s) == Delta(s[0]);
    } else if |s| > 1 {
      BalancesCons(s, d);
      var e := d + Delta(s[0]);
      if 1 <= e <= 2 {
        ClosesIsBalances(s[1..], e);
      } else {
        assert s[1..][..0] == "";
        assert !Balances(s[1..], e);
      }
    }
  }

  lemma BlockIsCloses(s: string)
    ensures Block(s) <==> s != "" && s[0] == '{' && Closes(s[1..], 1)
  {
    if s != "" {
      assert s[..1] == [s[0]] && Depth(s[..1]) == Delta(s[0]);
    }
    if |s| >= 2 {
      ClosesIsBalances(s[1..], 1);
      DepthOfCons(s);
      forall n | 0 < n < |s| ensures Depth(s[..n]) == Delta(s[0]) + Depth(s[1..][..n - 1]) {
        DepthOfCons(s[..n]);
        assert s[..n][1..] == s[1..][..n - 1];
      }
      if Block(s) {
        assert 1 <= Depth(s[..1]);
        forall n | 0 <= n < |s| - 1 ensures 1 <= 1 + Depth(s[1..][..n]) <= 2 {
          assert 1 <= Depth(s[..n + 1]) <= 2;
        }
        assert Balances(s[1..], 1);
      }
      if s[0] == '{' && Balances(s[1..], 1) {
        forall n | 0 < n < |s| ensures 1 <= Depth(s[..n]) <= 2 {
          assert 1 <= 1 + Depth(s[1..][..n - 1]) <= 2;
        }
        assert Block(s);
      }
    }
  }

  // ---- The two languages are one ----

  lemma MatchCat(a: Re, b: Re, s: string, t: string)
    requires Matches(a, s) && Matches(b, t)
    ensures Matches(Cat(a, b), s + t)
  {
    assert (s + t)[..|s|] == s && (s + t)[|s|..] == t;
  }

  lemma MatchStar(a: Re, s: string, t: string)
    requires s != "" && Matches(a, s) && Matches(Star(a), t)
    ensures Matches(Star(a), s + t)
  {
    assert (s + t)[..|s|] == s && (s + t)[|s|..] == t;
  }

  lemma SplitPoint(a: Re, b: Re, s: string) returns (k: nat)
    requires Matches(Cat(a, b), s)
    ensures k <= |s| && Matches(a, s[..k]) && Matches(b, s[k..])
  {
    var i :| 0 <= i <= |s| && Matches(a, s[..i]) && Matches(b, s[i..]);
    k := i;
  }

  lemma SplitCat(a: Re, b: Re, s: string) returns (x: string, y: string)
    requires Matches(Cat(a, b), s)
    ensures s == x + y && Matches(a, x) && Matches(b, y)
  {
    var k := SplitPoint(a, b, s);
    x, y := s[..k], s[k..];
    assert s == s[..k] + s[k..];
  }

  lemma SplitThree(a: Re, b: Re, c: Re, s: string) returns (x: string, y: string, z: string)
    requires Matches(Cat(a, Cat(b, c)), s)
    ensures s == x + (y + z) && Matches(a, x) && Matches(b, y) && Matches(c, z)
  {
    var rest;
    x, rest := SplitCat(a, Cat(b, c), s);
    y, z := SplitCat(b, c, rest);
  }

  lemma SplitFour(a: Re, b: Re, c: Re, d: Re, s: string) returns (x: string, y: string, z: string, w: string)
    requires Matches(Cat(a, Cat(b, Cat(c, d))), s)
    ensures s == x + (y + (z + w)) && Matches(a, x) && Matches(b, y) && Matches(c, z) && Matches(d, w)
  {
    var rest;
    x, rest := SplitCat(a, Cat(b, Cat(c, d)), s);
    y, z, w := SplitThree(b, c, d, rest);
  }

  lemma JoinThree(a: Re, b: Re, c: Re, x: string, y: string, z: string)
    requires Matches(a, x) && Matches(b, y) && Matches(c, z)
    ensures Matches(Cat(a, Cat(b, c)), x + (y + z))
  {
    MatchCat(b, c, y, z);
    MatchCat(a, Cat(b, c), x, y + z);
  }

  /** Text in front changes nothing. */
  lemma {:induction false} SkipTexts(t: string, u: string, d: int)
    requires Matches(TEXTS, t)
    ensures Closes(t + u, d) <==> Closes(u, d)
    decreases |t|
  {
    if t == "" {
      assert t + u == u;
    } else {
      var k :| 0 < k <= |t| && Matches(Text, t[..k]) && Matches(TEXTS, t[k..]);
      assert k == 1 && t[..1][0] == t[0];
      SkipTexts(t[1..], u, d);
      assert (t + u)[1..] == t[1..] + u;
    }
  }

  /** An inner block is a pair of braces around text, followed by text. */
  lemma InnerShape(x: string) returns (t: string, w: string)
    requires Matches(INNER, x)
    ensures Matches(TEXTS, t) && Matches(TEXTS, w) && x == "{" + (t + ("}" + w))
  {
    var p, q;
    p, t, q, w := SplitFour(LBrace, TEXTS, RBrace, TEXTS, x);
  }

  lemma SkipPair(t: string, v: string)
    requires Matches(TEXTS, t) && v != ""
    ensures Closes("{" + (t + ("}" + v)), 1) <==> Closes(v, 1)
  {
    var y, z := "{" + (t + ("}" + v)), "}" + v;
    assert y[0] == '{' && y[1..] == t + z;
    SkipTexts(t, z, 2);
    assert z[0] == '}' && z[1..] == v;
  }

  lemma SkipInner(x: string, u: string)
    requires Matches(INNER, x) && u != ""
    ensures Closes(x + u, 1) <==> Closes(u, 1)
  {
    var t, w := InnerShape(x);
    SkipPair(t, w + u);
    assert x + u == "{" + (t + ("}" + (w + u)));
    SkipTexts(w, u, 1);
  }

  lemma {:induction false} SkipInners(x: string, u: string)
    requires Matches(Star(INNER), x) && u != ""
    ensures Closes(x + u, 1) <==> Closes(u, 1)
    decreases |x|
  {
    if x == "" {
      assert x + u == u;
    } else {
      var k :| 0 < k <= |x| && Matches(INNER, x[..k]) && Matches(Star(INNER), x[k..]);
      assert x + u == x[..k] + (x[k..] + u);
      SkipInner(x[..k], x[k..] + u);
      SkipInners(x[k..], u);
    }
  }

  lemma MatchedCloses(s: string)
    requires Matches(REST, s)
    ensures Closes(s, 1)
  {
    var t, x, z := SplitThree(TEXTS, Star(INNER), RBrace, s);
    SkipTexts(t, x + z, 1);
    SkipInners(x, z);
    assert Closes("}", 1);
  }

  /** Reading on from depth two: text, a closing brace, and the rest from depth one. */
  lemma {:induction false} SplitAtClose(s: string) returns (k: nat)
    requires Closes(s, 2)
    ensures k < |s| && Matches(TEXTS, s[..k]) && s[k] == '}' && Closes(s[k + 1..], 1)
  {
    if s[0] == '}' {
      k := 0;
    } else {
      var i := SplitAtClose(s[1..]);
      k := i + 1;
      assert s[..k] == s[..1] + s[1..][..i];
      assert s[1..][i + 1..] == s[k + 1..];
      MatchStar(Text, s[..1], s[1..][..i]);
    }
  }

  lemma MatchInner(t: string, w: string)
    requires Matches(TEXTS, t) && Matches(TEXTS, w)
    ensures Matches(INNER, "{" + (t + ("}" + w)))
  {
    JoinThree(TEXTS, RBrace, TEXTS, t, "}", w);
    MatchCat(LBrace, Cat(TEXTS, Cat(RBrace, TEXTS)), "{", t + ("}" + w));
  }

  lemma RestOfClosing()
    ensures Matches(REST, "}")
  {
    JoinThree(TEXTS, Star(INNER), RBrace, "", "", "}");
    assert "" + ("" + "}") == "}";
  }

  /** Text may be put in front of a match. */
  lemma PrependText(c: string, s: string)
    requires Matches(Text, c) && Matches(REST, s)
    ensures Matches(REST, c + s)
  {
    var t, x, z := SplitThree(TEXTS, Star(INNER), RBrace, s);
    MatchStar(Text, c, t);
    JoinThree(TEXTS, Star(INNER), RBrace, c + t, x, z);
    assert c + s == (c + t) + (x + z);
  }

  /** A pair of braces around text may be put in front of a match. */
  lemma PrependPair(t: string, s: string)
    requires Matches(TEXTS, t) && Matches(REST, s)
    ensures Matches(REST, "{" + (t + ("}" + s)))
  {
    var w, x, z := SplitThree(TEXTS, Star(INNER), RBrace, s);
    var block := "{" + (t + ("}" + w));
    MatchInner(t, w);
    MatchStar(INNER, block, x);
    JoinThree(TEXTS, Star(INNER), RBrace, "", block + x, z);
    Regroup(t, w, x, z);
  }

  lemma Regroup(t: string, w: string, x: string, z: string)
    ensures "" + ((("{" + (t + ("}" + w))) + x) + z) == "{" + (t + ("}" + (w + (x + z))))
  {
  }

  lemma {:induction false} ClosesMatched(s: string)
    requires Closes(s, 1)
    ensures Matches(REST, s)
    decreases |s|
  {
    if s[0] == '}' {
      RestOfClosing();
      assert s == "}";
    } else if s[0] == '{' {
      var k := SplitAtClose(s[1..]);
      var t, u := s[1..][..k], s[1..][k + 1..];
      ClosesMatched(u);
      PrependPair(t, u);
      assert s == "{" + (t + ("}" + u));
    } else {
      ClosesMatched(s[1..]);
      PrependText(s[..1], s[1..]);
      assert s == s[..1] + s[1..];
    }
  }

  /** The regular expression matches exactly the brace-balanced blocks of depth at most two. */
  lemma PatternMatchesBlocks(s: string)
    ensures Matches(PATTERN, s) <==> Block(s)
  {
    BlockIsCloses(s);
    if Matches(PATTERN, s) {
      var x, y := SplitCat(LBrace, REST, s);
      MatchedCloses(y);
      assert s[0] == '{' && s[1..] == y;
    }
    if Block(s) {
      ClosesMatched(s[1..]);
      MatchCat(LBrace, REST, "{", s[1..]);
      assert s == "{" + s[1..];
    }
  }

  /** From a given position at most one block starts, so greediness and backtracking have
      nothing to choose between. */
  lemma BlockEndIsUnique(s: string, i: nat, j: nat, k: nat)
    requires i <= j <= k <= |s| && Block(s[i..j]) && Block(s[i..k])
    ensures j == k
  {
    assert s[i..k][..j - i] == s[i..j];
  }

  // ---- The scan ----

  /** Some block starts at position i. */
  ghost predicate StartsBlock(s: string, i: nat) {
    exists j :: i <= j <= |s| && Block(s[i..j])
  }

  /** spans lists the blocks between positions pos and upTo: each is a block, they are
      disjoint and in order, and no block starts there outside them. */
  ghost predicate IsScan(s: string, pos: nat, upTo: nat, spans: seq<(nat, nat)>)
    decreases spans
  {
    if spans == [] then pos <= upTo && forall i: nat :: pos <= i < upTo ==> !StartsBlock(s, i)
    else
      var (a, b) := spans[0];
      && pos <= a < b <= |s|
      && Block(s[a..b])
      && (forall i: nat :: pos <= i < a ==> !StartsBlock(s, i))
      && IsScan(s, b, upTo, spans[1..])
  }

  /** There is only one such list. */
  lemma {:induction false} ScanIsUnique(s: string, pos: nat, p: seq<(nat, nat)>, q: seq<(nat, nat)>)
    requires IsScan(s, pos, |s|, p) && IsScan(s, pos, |s|, q)
    ensures p == q
    decreases p
  {
    if p != [] && q != [] {
      var (a, b) := p[0];
      var (c, d) := q[0];
      assert StartsBlock(s, a) && StartsBlock(s, c);
      if b <= d { BlockEndIsUnique(s, a, b, d); } else { BlockEndIsUnique(s, a, d, b); }
      ScanIsUnique(s, b, p[1..], q[1..]);
      assert p == [p[0]] + p[1..] && q == [q[0]] + q[1..];
    } else if p != [] {
      assert StartsBlock(s, p[0].0);
    } else if q != [] {
      assert StartsBlock(s, q[0].0);
    }
  }

  // ---- The code ----

  /** The end of the block that starts at position i, if there is one. */
  method MatchAt(s: string, i: nat) returns (end: Option<nat>)
    requires i < |s|
    ensures end.None? <==> !StartsBlock(s, i)
    ensures end.Some? ==> i < end.value <= |s| && Block(s[i..end.value]) && Matches(PATTERN, s[i..end.value])
  {
    if s[i] != '{' {
      NoBlockWithoutBrace(s, i);
      return None;
    }
    var depth, j := 1, i + 1;
    OneBrace(s, i);
    while j < |s|
      invariant i < j <= |s|
      invariant depth == Depth(s[i..j])
      invariant Within(s, i, j)
    {
      DepthOfSnoc(s, i, j);
      depth := depth + Delta(s[j]);
      j := j + 1;
      if depth == 0 {
        BlockByEnds(s, i, j);
        PatternMatchesBlocks(s[i..j]);
        return Some(j);
      }
      if depth == 3 {
        TooDeep(s, i, j);
        return None;
      }
    }
    NeverClosed(s, i);
    end := None;
  }

  /** From position i the depth is one or two up to position j. */
  ghost predicate Within(s: string, i: nat, j: nat)
    requires j <= |s|
  {
    forall n :: i < n <= j ==> 1 <= Depth(s[i..n]) <= 2
  }

  lemma OneBrace(s: string, i: nat)
    requires i < |s| && s[i] == '{'
    ensures Depth(s[i..i + 1]) == 1 && Within(s, i, i + 1)
  {
    assert s[i..i + 1] == "{" && s[i..i + 1][..0] == "";
  }

  /** A block, by the depths at the positions inside it. */
  lemma BlockByEnds(s: string, i: nat, j: nat)
    requires i < j <= |s|
    ensures Block(s[i..j]) <==> j - i >= 2 && Depth(s[i..j]) == 0 && Within(s, i, j - 1)
  {
    forall n | i < n < j ensures s[i..j][..n - i] == s[i..n] {
    }
    if Block(s[i..j]) {
      forall n | i < n <= j - 1 ensures 1 <= Depth(s[i..n]) <= 2 {
        assert s[i..j][..n - i] == s[i..n];
      }
    }
    if Within(s, i, j - 1) {
      forall m | 0 < m < j - i ensures 1 <= Depth(s[i..j][..m]) <= 2 {
        assert s[i..j][..m] == s[i..i + m];
      }
    }
  }

  lemma NoBlockWithoutBrace(s: string, i: nat)
    requires i < |s| && s[i] != '{'
    ensures !StartsBlock(s, i)
  {
    forall j | i <= j <= |s| ensures !Block(s[i..j]) {
      BlockIsCloses(s[i..j]);
    }
  }

  lemma DepthOfSnoc(s: string, i: nat, j: nat)
    requires i <= j < |s|
    ensures Depth(s[i..j + 1]) == Depth(s[i..j]) + Delta(s[j])
  {
    assert s[i..j + 1][..j - i] == s[i..j];
  }

  /** A third level cannot be part of a block. */
  lemma TooDeep(s: string, i: nat, j: nat)
    requires i < j <= |s| && Depth(s[i..j]) == 3 && Within(s, i, j - 1)
    ensures !StartsBlock(s, i)
  {
    forall k | i <= k <= |s| ensures !Block(s[i..k]) {
      if i < k { BlockByEnds(s, i, k); }
    }
  }

  /** A block that is still open at the end of the text is none. */
  lemma NeverClosed(s: string, i: nat)
    requires i < |s| && Within(s, i, |s|)
    ensures !StartsBlock(s, i)
  {
    forall k | i <= k <= |s| ensures !Block(s[i..k]) {
      if i < k { BlockByEnds(s, i, k); }
    }
  }

  /** The scan of a prefix followed by the scan of the remainder. */
  lemma {:induction false} ScanExtends(s: string, pos: nat, spans: seq<(nat, nat)>, from: nat, to: nat,
                                           more: seq<(nat, nat)>)
    requires IsScan(s, pos, from, spans) && from <= to
    requires forall i: nat :: from <= i < to ==> !StartsBlock(s, i)
    requires |more| <= 1 && (more != [] ==> more[0].0 == to && to < more[0].1 <= |s| && Block(s[to..more[0].1]))
    ensures IsScan(s, pos, if more == [] then to else more[0].1, spans + more)
    decreases spans
  {
    if spans == [] {
      assert spans + more == more;
    } else {
      ScanExtends(s, spans[0].1, spans[1..], from, to, more);
      assert (spans + more)[1..] == spans[1..] + more;
    }
  }

  /** The global match: all blocks, leftmost first, none overlapping. */
  method FindBlocks(s: string) returns (spans: seq<(nat, nat)>)
    ensures IsScan(s, 0, |s|, spans)
  {
    spans := [];
    var pos := 0;
    while pos < |s|
      invariant pos <= |s|
      invariant IsScan(s, 0, pos, spans)
    {
      var end := MatchAt(s, pos);
      if end.Some? {
        ScanExtends(s, 0, spans, pos, pos, [(pos, end.value)]);
        spans := spans + [(pos, end.value)];
        pos := end.value;
      } else {
        ScanExtends(s, 0, spans, pos, pos + 1, []);
        assert spans + [] == spans;
        pos := pos + 1;
      }
    }
  }

  /** The text of a span. */
  ghost function Cut(s: string, span: (nat, nat)): string {
    if span.0 <= span.1 <= |s| then s[span.0..span.1] else ""
  }

  ghost predicate Rising(f: seq<nat>, n: nat) {
    && (forall x :: 0 <= x < |f| ==> f[x] < n)
    && (forall x, y :: 0 <= x < y < |f| ==> f[x] < f[y])
  }

  /** values are the parsed spans, in order: value x comes from span f[x], and no span that
      parses is left out. */
  ghost predicate Picks<J>(s: string, parse: string -> Option<J>, spans: seq<(nat, nat)>, values: seq<J>, f: seq<nat>) {
    && |f| == |values| && Rising(f, |spans|)
    && (forall x :: 0 <= x < |f| ==> parse(Cut(s, spans[f[x]])) == Some(values[x]))
    && (forall k: nat :: k < |spans| && parse(Cut(s, spans[k])).Some? ==> k in f)
  }

  /** Two rising lists with the same members are the same. */
  lemma {:induction false} RisingIsUnique(f: seq<nat>, g: seq<nat>, n: nat)
    requires Rising(f, n) && Rising(g, n) && forall k: nat :: k in f <==> k in g
    ensures f == g
    decreases |f|
  {
    if f == [] {
      NobodyIn(g);
    } else {
      assert f[|f| - 1] in g;
      var a, b := f[|f| - 1], g[|g| - 1];
      assert b in f;
      assert a == b;
      var f', g' := f[..|f| - 1], g[..|g| - 1];
      forall k: nat ensures k in f' <==> k in g' {
        FrontMember(f, n, k);
        FrontMember(g, n, k);
      }
      RisingIsUnique(f', g', n);
      assert f == f' + [a] && g == g' + [b];
    }
  }

  lemma NobodyIn(g: seq<nat>)
    ensures (forall k: nat :: k !in g) ==> g == []
  {
    if g != [] { assert g[0] in g; }
  }

  lemma FrontMember(f: seq<nat>, n: nat, k: nat)
    requires Rising(f, n) && f != []
    ensures k in f[..|f| - 1] <==> k in f && k != f[|f| - 1]
  {
    if k in f && k != f[|f| - 1] {
      var x :| 0 <= x < |f| && f[x] == k;
      assert f[..|f| - 1][x] == k;
    }
  }

  /** A text has only one list of extracted values. */
  lemma PicksAreUnique<J>(s: string, parse: string -> Option<J>, spans: seq<(nat, nat)>,
                          v: seq<J>, f: seq<nat>, w: seq<J>, g: seq<nat>)
    requires Picks(s, parse, spans, v, f) && Picks(s, parse, spans, w, g)
    ensures v == w && f == g
  {
    RisingIsUnique(f, g, |spans|);
    forall x | 0 <= x < |v| ensures v[x] == w[x] {
      assert parse(Cut(s, spans[f[x]])) == Some(v[x]);
      assert parse(Cut(s, spans[g[x]])) == Some(w[x]);
    }
  }

  /** One more span: its value is appended if it parses. */
  lemma PicksOneMore<J>(s: string, parse: string -> Option<J>, spans: seq<(nat, nat)>, k: nat,
                        values: seq<J>, f: seq<nat>) returns (g: seq<nat>)
    requires k < |spans| && Picks(s, parse, spans[..k], values, f)
    ensures var p := parse(Cut(s, spans[k]));
            Picks(s, parse, spans[..k + 1], if p.Some? then values + [p.value] else values, g)
  {
    var p := parse(Cut(s, spans[k]));
    g := if p.Some? then f + [k] else f;
    var more, values' := spans[..k + 1], if p.Some? then values + [p.value] else values;
    forall x | 0 <= x < |g| ensures parse(Cut(s, more[g[x]])) == Some(values'[x]) {
      if x < |f| { assert more[f[x]] == spans[..k][f[x]]; }
    }
    forall m: nat | m < |more| && parse(Cut(s, more[m])).Some? ensures m in g {
      if m < k {
        assert more[m] == spans[..k][m];
        assert m in f;
      } else {
        assert m == k && g[|f|] == k;
      }
    }
  }

  lemma {:induction false} SpansAreInside(s: string, pos: nat, spans: seq<(nat, nat)>)
    requires IsScan(s, pos, |s|, spans)
    ensures forall k :: 0 <= k < |spans| ==> spans[k].0 <= spans[k].1 <= |s|
    decreases spans
  {
    if spans != [] {
      SpansAreInside(s, spans[0].1, spans[1..]);
      forall k | 0 <= k < |spans| ensures spans[k].0 <= spans[k].1 <= |s| {
        if k > 0 { assert spans[k] == spans[1..][k - 1]; }
      }
    }
  }

  /** Extract every block that parses; blocks that do not are skipped. */
  method ExtractJson<J>(input: string, parse: string -> Option<J>) returns (extracted: seq<J>, count: nat)
    ensures forall spans: seq<(nat, nat)> :: IsScan(input, 0, |input|, spans) ==>
              exists f: seq<nat> :: Picks(input, parse, spans, extracted, f)
    ensures count == |extracted|
  {
    var matches := FindBlocks(input);
    SpansAreInside(input, 0, matches);
    extracted := [];
    ghost var f: seq<nat> := [];
    var k := 0;
    while k < |matches|
      invariant 0 <= k <= |matches|
      invariant Picks(input, parse, matches[..k], extracted, f)
    {
      f := PicksOneMore(input, parse, matches, k, extracted, f);
      var parsed := parse(input[matches[k].0..matches[k].1]);
      if parsed.Some? {
        extracted := extracted + [parsed.value];
      }
      k := k + 1;
    }
    assert matches[..k] == matches;
    count := |extracted|;
    forall spans | IsScan(input, 0, |input|, spans) ensures spans == matches {
      ScanIsUnique(input, 0, spans, matches);
    }
  }
}
