/**
 * fnmatch of lib/roken/fnmatch.c, without FNM_PERIOD, against the language of a pattern.
 * A C string is a sequence of characters other than 0, followed by the 0 that At yields.
 */
module Fnmatch {
  const SLASH := '/' as int
  const STAR := '*' as int
  const QUERY := '?' as int
  const OPEN := '[' as int
  const CLOSE := ']' as int
  const BACKSLASH := '\\' as int
  const MINUS := '-' as int
  const BANG := '!' as int
  const CARET := '^' as int

  datatype Flags = Flags(noescape: bool, pathname: bool)

  datatype Range = Range(lo: int, hi: int)

  /** Never is what an unclosed bracket stands for. */
  datatype Atom = Literal(c: int) | Any | Star | Class(negate: bool, ranges: seq<Range>) | Never

  datatype Pattern = End | Then(atom: Atom, rest: Pattern)

  predicate CString(s: seq<int>) {
    forall i :: 0 <= i < |s| ==> s[i] != 0
  }

  function At(s: seq<int>, i: nat): int
    requires i <= |s|
  {
    if i < |s| then s[i] else 0
  }

  // ----------------------------------------------------------- the language

  predicate Within(c: int, ranges: seq<Range>) {
    exists k :: 0 <= k < |ranges| && ranges[k].lo <= c <= ranges[k].hi
  }

  predicate NoSlash(s: seq<int>, i: nat, j: nat)
    requires j <= |s|
  {
    forall k :: i <= k < j ==> s[k] != SLASH
  }

  /** The text from i to j is something a star may stand for. */
  predicate Spans(s: seq<int>, i: nat, j: int, pathname: bool) {
    i <= j <= |s| && (pathname ==> NoSlash(s, i, j))
  }

  /** What one character may be for an atom other than a star. */
  predicate Fits(a: Atom, c: int, pathname: bool) {
    match a
    case Literal(x) => c == x
    case Any => !(c == SLASH && pathname)
    case Class(negate, ranges) => !(c == SLASH && pathname) && Within(c, ranges) != negate
    case Star => false
    case Never => false
  }

  /** s from i on is in the language: a star stands for any text, without a slash under FNM_PATHNAME. */
  ghost predicate Matches(t: Pattern, s: seq<int>, i: nat, pathname: bool)
    requires i <= |s|
    decreases t
  {
    match t
    case End => i == |s|
    case Then(a, rest) =>
      if a == Star then
        exists j :: Spans(s, i, j, pathname) && Matches(rest, s, j, pathname)
      else i < |s| && Fits(a, s[i], pathname) && Matches(rest, s, i + 1, pathname)
  }

  // ------------------------------------------------- the syntax of a pattern

  datatype Bracket = Unclosed | Closed(ranges: seq<Range>, next: nat)

  /** A character of a bracket, which a backslash may quote, and where the next begins. */
  function Quoted(p: seq<int>, i: nat, f: Flags): (r: (int, nat))
    requires i < |p| && CString(p)
    ensures r.0 != 0 ==> i < r.1 <= |p|
  {
    if p[i] == BACKSLASH && !f.noescape then (At(p, i + 1), i + 2) else (p[i], i + 1)
  }

  predicate Dash(p: seq<int>, j: nat)
    requires j <= |p|
  {
    j + 1 < |p| && p[j] == MINUS && p[j + 1] != CLOSE
  }

  function Ranges(p: seq<int>, i: nat, f: Flags): (b: Bracket)
    requires i <= |p| && CString(p)
    ensures b.Closed? ==> i < b.next <= |p|
    decreases |p| - i
  {
    if i == |p| then Unclosed
    else if p[i] == CLOSE then Closed([], i + 1)
    else
      var (c, j) := Quoted(p, i, f);
      if c == 0 then Unclosed
      else if Dash(p, j) then
        var (c2, k) := Quoted(p, j + 1, f);
        if c2 == 0 then Unclosed else Joined(Range(c, c2), Ranges(p, k, f))
      else Joined(Range(c, c), Ranges(p, j, f))
  }

  function Joined(r: Range, b: Bracket): Bracket {
    if b.Unclosed? then b else b.(ranges := [r] + b.ranges)
  }

  predicate Negated(p: seq<int>, i: nat)
    requires i <= |p|
  {
    At(p, i) == BANG || At(p, i) == CARET
  }

  function Parse(p: seq<int>, i: nat, f: Flags): Pattern
    requires i <= |p| && CString(p)
    decreases |p| - i
  {
    if i == |p| then End
    else if p[i] == QUERY then Then(Any, Parse(p, i + 1, f))
    else if p[i] == STAR then Then(Star, Parse(p, i + 1, f))
    else if p[i] == OPEN then
      var negate := Negated(p, i + 1);
      var b := Ranges(p, if negate then i + 2 else i + 1, f);
      if b.Unclosed? then Then(Never, End) else Then(Class(negate, b.ranges), Parse(p, b.next, f))
    else if p[i] == BACKSLASH && !f.noescape && i + 1 < |p| then Then(Literal(p[i + 1]), Parse(p, i + 2, f))
    else Then(Literal(p[i]), Parse(p, i + 1, f))
  }

  // ---------------------------------------------------------------- rangematch

  lemma WithinJoined(c: int, r: Range, rs: seq<Range>)
    ensures Within(c, [r] + rs) <==> r.lo <= c <= r.hi || Within(c, rs)
  {
    var all := [r] + rs;
    if Within(c, rs) {
      var k :| 0 <= k < |rs| && rs[k].lo <= c <= rs[k].hi;
      assert all[k + 1] == rs[k];
    }
    assert all[0] == r;
    if Within(c, all) && !(r.lo <= c <= r.hi) {
      var k :| 0 <= k < |all| && all[k].lo <= c <= all[k].hi;
      assert rs[k - 1] == all[k];
    }
  }

  /** What is left of the bracket at i, with what was seen before, decides as the whole from start. */
  ghost predicate Remains(p: seq<int>, start: nat, i: nat, f: Flags, test: int, ok: bool)
    requires CString(p) && start <= |p| && i <= |p|
  {
    var whole, left := Ranges(p, start, f), Ranges(p, i, f);
    && (whole.Closed? <==> left.Closed?)
    && (whole.Closed? ==> whole.next == left.next && (Within(test, whole.ranges) <==> ok || Within(test, left.ranges)))
  }

  /** The index after the bracket when the character is allowed by it, otherwise -1, the null pointer. */
  method RangeMatch(p: seq<int>, at: nat, test: int, f: Flags) returns (r: int)
    requires CString(p) && at <= |p|
    ensures var start := if Negated(p, at) then at + 1 else at;
            var b := Ranges(p, start, f);
            r == if b.Closed? && Within(test, b.ranges) != Negated(p, at) then b.next else -1
  {
    var negate := At(p, at) == BANG || At(p, at) == CARET;
    var start := if negate then at + 1 else at;
    var i, ok := start, false;
    while At(p, i) != CLOSE
      invariant start <= i <= |p| && Remains(p, start, i, f, test, ok)
      decreases |p| - i
    {
      if i == |p| { return -1; }
      var (c, j) := Quoted(p, i, f);
      if c == 0 { return -1; }
      if Dash(p, j) {
        var (c2, k) := Quoted(p, j + 1, f);
        if c2 == 0 { return -1; }
        if Ranges(p, k, f).Closed? { WithinJoined(test, Range(c, c2), Ranges(p, k, f).ranges); }
        ok, i := ok || c <= test <= c2, k;
      } else {
        if Ranges(p, j, f).Closed? { WithinJoined(test, Range(c, c), Ranges(p, j, f).ranges); }
        ok, i := ok || c == test, j;
      }
    }
    r := if ok == negate then -1 else i + 1;
  }

  // ------------------------------------------------------------------- stars

  /** Two stars are one. */
  lemma StarStar(rest: Pattern, s: seq<int>, i: nat, pathname: bool)
    requires i <= |s|
    ensures Matches(Then(Star, Then(Star, rest)), s, i, pathname) <==> Matches(Then(Star, rest), s, i, pathname)
  {
    if Matches(Then(Star, rest), s, i, pathname) {
      assert Spans(s, i, i, pathname);
    }
    if Matches(Then(Star, Then(Star, rest)), s, i, pathname) {
      var j :| Spans(s, i, j, pathname) && Matches(Then(Star, rest), s, j, pathname);
      var k :| Spans(s, j, k, pathname) && Matches(rest, s, k, pathname);
      assert Spans(s, i, k, pathname);
    }
  }

  /** A star at the end. */
  lemma StarEnd(s: seq<int>, i: nat, pathname: bool)
    requires i <= |s|
    ensures Matches(Then(Star, End), s, i, pathname) <==> !pathname || NoSlash(s, i, |s|)
  {
    if !pathname || NoSlash(s, i, |s|) {
      assert Spans(s, i, |s|, pathname) && Matches(End, s, |s|, pathname);
    }
  }

  /** A star before a slash leads to the next slash, at k, or nowhere. */
  lemma StarSlash(rest: Pattern, s: seq<int>, i: nat, k: nat)
    requires i <= k <= |s| && NoSlash(s, i, k) && (k < |s| ==> s[k] == SLASH)
    ensures var t := Then(Literal(SLASH), rest);
            Matches(Then(Star, t), s, i, true) <==> k < |s| && Matches(t, s, k, true)
  {
    var t := Then(Literal(SLASH), rest);
    if Matches(Then(Star, t), s, i, true) {
      var j :| Spans(s, i, j, true) && Matches(t, s, j, true);
      assert s[j] == SLASH;
      assert j == k;
    }
    assert Spans(s, i, k, true);
  }

  lemma Split(t: Pattern, s: seq<int>, i: nat, pathname: bool) returns (j: nat)
    requires i <= |s| && Matches(Then(Star, t), s, i, pathname)
    ensures Spans(s, i, j, pathname) && Matches(t, s, j, pathname)
  {
    j :| Spans(s, i, j, pathname) && Matches(t, s, j, pathname);
  }

  /** Trying the rest at one place more. */
  lemma StarHere(t: Pattern, s: seq<int>, i: nat, pathname: bool)
    requires i <= |s|
    ensures Matches(Then(Star, t), s, i, pathname) <==>
              || Matches(t, s, i, pathname)
              || (i < |s| && !(s[i] == SLASH && pathname) && Matches(Then(Star, t), s, i + 1, pathname))
  {
    if Matches(t, s, i, pathname) {
      assert Spans(s, i, i, pathname);
    }
    if Matches(Then(Star, t), s, i, pathname) {
      var j :| Spans(s, i, j, pathname) && Matches(t, s, j, pathname);
      assert i < j ==> Spans(s, i + 1, j, pathname);
    }
    if i < |s| && !(s[i] == SLASH && pathname) && Matches(Then(Star, t), s, i + 1, pathname) {
      var j := Split(t, s, i + 1, pathname);
      assert Spans(s, i, j, pathname);
    }
  }

  // ----------------------------------------------------------------- fnmatch

  /** strchr for a slash: its index, or the length when there is none. */
  method FindSlash(s: seq<int>, i: nat) returns (k: nat)
    requires i <= |s|
    ensures i <= k <= |s| && NoSlash(s, i, k) && (k < |s| ==> s[k] == SLASH)
  {
    k := i;
    while k < |s| && s[k] != SLASH
      invariant i <= k <= |s| && NoSlash(s, i, k)
    {
      k := k + 1;
    }
  }

  method SkipStars(p: seq<int>, i: nat, f: Flags, ghost s: seq<int>, ghost n: nat) returns (j: nat)
    requires CString(p) && i <= |p| && n <= |s|
    ensures i <= j <= |p| && At(p, j) != STAR
    ensures Matches(Then(Star, Parse(p, j, f)), s, n, f.pathname) <==> Matches(Then(Star, Parse(p, i, f)), s, n, f.pathname)
  {
    j := i;
    while At(p, j) == STAR
      invariant i <= j <= |p|
      invariant Matches(Then(Star, Parse(p, j, f)), s, n, f.pathname) <==> Matches(Then(Star, Parse(p, i, f)), s, n, f.pathname)
      decreases |p| - j
    {
      StarStar(Parse(p, j + 1, f), s, n, f.pathname);
      j := j + 1;
    }
  }

  /** The loop of the general case: the rest of the pattern, not a star, tried at each place. */
  method TryRest(p: seq<int>, i: nat, s: seq<int>, n: nat, f: Flags) returns (b: bool)
    requires CString(p) && i < |p| && p[i] != STAR && CString(s) && n <= |s|
    ensures b <==> Matches(Then(Star, Parse(p, i, f)), s, n, f.pathname)
    decreases |p| - i, 1
  {
    ghost var t := Parse(p, i, f);
    var m := n;
    while m < |s|
      invariant n <= m <= |s|
      invariant Matches(Then(Star, t), s, m, f.pathname) <==> Matches(Then(Star, t), s, n, f.pathname)
    {
      StarHere(t, s, m, f.pathname);
      b := Match(p, i, s, m, f);
      if b { return; }
      if s[m] == SLASH && f.pathname { return; }
      m := m + 1;
    }
    StarHere(t, s, m, f.pathname);
    assert t.Then? && t.atom != Star;
    b := false;
  }

  /** fnmatch from index i of the pattern and n of the string; true is the result 0. */
  method Match(p: seq<int>, i: nat, s: seq<int>, n: nat, f: Flags) returns (b: bool)
    requires CString(p) && i <= |p| && CString(s) && n <= |s|
    ensures b <==> Matches(Parse(p, i, f), s, n, f.pathname)
    decreases |p| - i, 0
  {
    var pi, si := i, n;
    while pi < |p|
      invariant i <= pi <= |p| && n <= si <= |s|
      invariant Matches(Parse(p, pi, f), s, si, f.pathname) <==> Matches(Parse(p, i, f), s, n, f.pathname)
      decreases |p| - pi
    {
      var c := p[pi];
      if c == QUERY {
        if si == |s| || (s[si] == SLASH && f.pathname) { return false; }
        pi, si := pi + 1, si + 1;
      } else if c == STAR {
        var pj := SkipStars(p, pi + 1, f, s, si);
        if pj == |p| {
          StarEnd(s, si, f.pathname);
          if f.pathname {
            var k := FindSlash(s, si);
            return k == |s|;
          } else {
            return true;
          }
        } else if p[pj] == SLASH && f.pathname {
          var k := FindSlash(s, si);
          StarSlash(Parse(p, pj + 1, f), s, si, k);
          if k == |s| { return false; }
          pi, si := pj, k;
        } else {
          b := TryRest(p, pj, s, si, f);
          return;
        }
      } else if c == OPEN {
        if si == |s| || (s[si] == SLASH && f.pathname) { return false; }
        var next := RangeMatch(p, pi + 1, s[si], f);
        if next == -1 { return false; }
        pi, si := next, si + 1;
      } else {
        var q := pi + 1;
        if c == BACKSLASH && !f.noescape && pi + 1 < |p| {
          c, q := p[pi + 1], pi + 2;
        }
        if c != At(s, si) { return false; }
        pi, si := q, si + 1;
      }
    }
    b := si == |s|;
  }

  // ---------------------------------------------------------- quoted patterns

  /** Every character behind a backslash. */
  function Quote(s: seq<int>): seq<int> {
    seq(2 * |s|, i requires 0 <= i < 2 * |s| => if i % 2 == 0 then BACKSLASH else s[i / 2])
  }

  function Literals(s: seq<int>, k: nat): Pattern
    requires k <= |s|
    decreases |s| - k
  {
    if k == |s| then End else Then(Literal(s[k]), Literals(s, k + 1))
  }

  lemma {:induction false} QuoteParses(s: seq<int>, k: nat, pathname: bool)
    requires CString(s) && k <= |s|
    ensures CString(Quote(s)) && Parse(Quote(s), 2 * k, Flags(false, pathname)) == Literals(s, k)
    decreases |s| - k
  {
    if k < |s| {
      QuoteParses(s, k + 1, pathname);
      assert Quote(s)[2 * k] == BACKSLASH && Quote(s)[2 * k + 1] == s[k];
    }
  }

  lemma {:induction false} LiteralsMatch(s: seq<int>, k: nat, u: seq<int>, n: nat, pathname: bool)
    requires k <= |s| && n <= |u|
    ensures Matches(Literals(s, k), u, n, pathname) <==> s[k..] == u[n..]
    decreases |s| - k
  {
    if k < |s| && n < |u| {
      LiteralsMatch(s, k + 1, u, n + 1, pathname);
      assert s[k..] == [s[k]] + s[k + 1..] && u[n..] == [u[n]] + u[n + 1..];
    }
  }

  /** A quoted text matches itself and nothing else, whatever it is made of. */
  lemma QuotedMatchesItself(s: seq<int>, u: seq<int>, pathname: bool)
    requires CString(s)
    ensures CString(Quote(s)) && (Matches(Parse(Quote(s), 0, Flags(false, pathname)), u, 0, pathname) <==> u == s)
  {
    QuoteParses(s, 0, pathname);
    LiteralsMatch(s, 0, u, 0, pathname);
    assert s[0..] == s && u[0..] == u;
  }
}
