/**
 * The syntax of fnmatch patterns read backwards: every pattern without an unclosed bracket can be
 * written, and what is written is read as that pattern.
 */
module FnmatchSyntax {
  import opened Fnmatch

  /** Quoted characters are anything but the end of a string. */
  predicate Writable(rs: seq<Range>) {
    forall i :: 0 <= i < |rs| ==> rs[i].lo != 0 && rs[i].hi != 0
  }

  predicate CanWrite(t: Pattern) {
    match t
    case End => true
    case Then(a, rest) =>
      CanWrite(rest) &&
      match a case Literal(c) => c != 0 case Class(_, rs) => Writable(rs) case Never => false case _ => true
  }

  function Char(c: int): seq<int> {
    [BACKSLASH, c]
  }

  function RangeText(r: Range): seq<int> {
    Char(r.lo) + [MINUS] + Char(r.hi)
  }

  function RangesText(rs: seq<Range>): seq<int> {
    if rs == [] then [] else RangeText(rs[0]) + RangesText(rs[1..])
  }

  /** mark is ! or ^. */
  function AtomText(a: Atom, mark: int): seq<int> {
    match a
    case Literal(c) => Char(c)
    case Any => [QUERY]
    case Star => [STAR]
    case Class(negate, rs) => [OPEN] + (if negate then [mark] else []) + RangesText(rs) + [CLOSE]
    case Never => [OPEN]
  }

  function Text(t: Pattern, mark: int): seq<int> {
    match t case End => [] case Then(a, rest) => AtomText(a, mark) + Text(rest, mark)
  }

  lemma {:induction false} RangesTextString(rs: seq<Range>)
    requires Writable(rs)
    ensures CString(RangesText(rs))
    decreases |rs|
  {
    if rs != [] {
      RangesTextString(rs[1..]);
    }
  }

  lemma {:induction false} TextString(t: Pattern, mark: int)
    requires CanWrite(t) && mark != 0
    ensures CString(Text(t, mark))
    decreases t
  {
    if t.Then? {
      TextString(t.rest, mark);
      if t.atom.Class? {
        RangesTextString(t.atom.ranges);
      }
    }
  }

  /** One range at the front of a text is read as that range. */
  lemma OneRange(p: seq<int>, i: nat, r: Range, f: Flags)
    requires CString(p) && !f.noescape && i + 5 <= |p| && p[i..i + 5] == RangeText(r)
    ensures Ranges(p, i, f) == Joined(r, Ranges(p, i + 5, f))
  {
    assert p[i] == p[i..i + 5][0] && p[i + 1] == p[i..i + 5][1] && p[i + 2] == p[i..i + 5][2];
    assert p[i + 3] == p[i..i + 5][3] && p[i + 4] == p[i..i + 5][4];
  }

  lemma {:induction false} RangesRead(pre: seq<int>, rs: seq<Range>, post: seq<int>, f: Flags)
    requires Writable(rs) && !f.noescape && CString(pre + RangesText(rs) + [CLOSE] + post)
    ensures Ranges(pre + RangesText(rs) + [CLOSE] + post, |pre|, f) == Closed(rs, |pre| + |RangesText(rs)| + 1)
    decreases |rs|
  {
    var p := pre + RangesText(rs) + [CLOSE] + post;
    if rs == [] {
      assert p[|pre|] == CLOSE;
    } else {
      var q := pre + RangeText(rs[0]);
      assert p == q + RangesText(rs[1..]) + [CLOSE] + post;
      assert p[|pre|..|pre| + 5] == RangeText(rs[0]);
      OneRange(p, |pre|, rs[0], f);
      RangesRead(q, rs[1..], post, f);
      assert rs == [rs[0]] + rs[1..];
    }
  }

  lemma BracketParses(p: seq<int>, i: nat, negate: bool, b: Bracket, f: Flags)
    requires CString(p) && i < |p| && p[i] == OPEN && Negated(p, i + 1) == negate && b.Closed?
    requires i + 2 <= |p| && Ranges(p, if negate then i + 2 else i + 1, f) == b
    ensures b.next <= |p| && Parse(p, i, f) == Then(Class(negate, b.ranges), Parse(p, b.next, f))
  {
  }

  /** After the bracket opens come the mark, the ranges and the end. */
  lemma AfterOpening(pre: seq<int>, negate: bool, rs: seq<Range>, post: seq<int>, mark: int) returns (q: seq<int>)
    requires mark == BANG || mark == CARET
    ensures q == pre + [OPEN] + if negate then [mark] else []
    ensures var p := pre + AtomText(Class(negate, rs), mark) + post;
            && p == q + RangesText(rs) + [CLOSE] + post
            && p[|pre|] == OPEN && |pre| + 2 <= |p| && Negated(p, |pre| + 1) == negate
  {
    q := pre + [OPEN] + if negate then [mark] else [];
    var p := pre + AtomText(Class(negate, rs), mark) + post;
    assert p == q + RangesText(rs) + [CLOSE] + post;
    if negate {
      assert p[|pre| + 1] == mark;
    } else if rs == [] {
      assert p[|pre| + 1] == CLOSE;
    } else {
      assert p[|pre| + 1] == RangesText(rs)[0] == BACKSLASH;
    }
  }

  lemma ClassRead(pre: seq<int>, negate: bool, rs: seq<Range>, post: seq<int>, mark: int, f: Flags)
    requires Writable(rs) && !f.noescape && (mark == BANG || mark == CARET)
    requires CString(pre + AtomText(Class(negate, rs), mark) + post)
    ensures var p, n := pre + AtomText(Class(negate, rs), mark) + post, |pre + AtomText(Class(negate, rs), mark)|;
            Parse(p, |pre|, f) == Then(Class(negate, rs), Parse(p, n, f))
  {
    var p := pre + AtomText(Class(negate, rs), mark) + post;
    var q := AfterOpening(pre, negate, rs, post, mark);
    RangesRead(q, rs, post, f);
    BracketParses(p, |pre|, negate, Closed(rs, |q| + |RangesText(rs)| + 1), f);
  }

  lemma AtomRead(pre: seq<int>, a: Atom, post: seq<int>, mark: int, f: Flags)
    requires CanWrite(Then(a, End)) && !f.noescape && (mark == BANG || mark == CARET)
    requires CString(pre + AtomText(a, mark) + post)
    ensures var p, n := pre + AtomText(a, mark) + post, |pre + AtomText(a, mark)|;
            Parse(p, |pre|, f) == Then(a, Parse(p, n, f))
  {
    var p := pre + AtomText(a, mark) + post;
    match a
    case Literal(c) => assert p[|pre|] == BACKSLASH && p[|pre| + 1] == c;
    case Any => assert p[|pre|] == QUERY;
    case Star => assert p[|pre|] == STAR;
    case Class(negate, rs) => ClassRead(pre, negate, rs, post, mark, f);
  }

  lemma Regrouped(a: seq<int>, b: seq<int>, c: seq<int>)
    ensures a + (b + c) == a + b + c
  {
  }

  lemma {:induction false} TextRead(pre: seq<int>, t: Pattern, mark: int, f: Flags)
    requires CanWrite(t) && !f.noescape && (mark == BANG || mark == CARET) && CString(pre + Text(t, mark))
    ensures Parse(pre + Text(t, mark), |pre|, f) == t
    decreases t
  {
    if t.Then? {
      Regrouped(pre, AtomText(t.atom, mark), Text(t.rest, mark));
      AtomRead(pre, t.atom, Text(t.rest, mark), mark, f);
      TextRead(pre + AtomText(t.atom, mark), t.rest, mark, f);
    }
  }

  /** What is written for a pattern, with either mark of negation, is read as the pattern. */
  lemma RoundTrip(t: Pattern, mark: int, f: Flags)
    requires CanWrite(t) && !f.noescape && (mark == BANG || mark == CARET)
    ensures CString(Text(t, mark)) && Parse(Text(t, mark), 0, f) == t
  {
    TextString(t, mark);
    assert [] + Text(t, mark) == Text(t, mark);
    TextRead([], t, mark, f);
  }

  predicate Plain(s: seq<int>) {
    forall i :: 0 <= i < |s| ==> s[i] != QUERY && s[i] != STAR && s[i] != OPEN
  }

  lemma {:induction false} PlainRead(s: seq<int>, k: nat, pathname: bool)
    requires CString(s) && Plain(s) && k <= |s|
    ensures Parse(s, k, Flags(true, pathname)) == Literals(s, k)
    decreases |s| - k
  {
    if k < |s| {
      PlainRead(s, k + 1, pathname);
    }
  }

  /** With FNM_NOESCAPE a text without special characters, backslashes among them or not, matches itself and nothing else. */
  lemma PlainMatchesItself(s: seq<int>, u: seq<int>, pathname: bool)
    requires CString(s) && Plain(s)
    ensures Matches(Parse(s, 0, Flags(true, pathname)), u, 0, pathname) <==> u == s
  {
    PlainRead(s, 0, pathname);
    LiteralsMatch(s, 0, u, 0, pathname);
    assert s[0..] == s && u[0..] == u;
  }
}
