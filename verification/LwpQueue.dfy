/**
 * The circular doubly linked process queues of lwp/plwp.c, as heap structures that refine
 * sequences: lwpinsert, lwpremove and lwpmove.
 */
module LwpQueue {
  import opened Rings

  /** A process control block, as far as the queues are concerned: its links and its index. */
  type Process = Node<nat>

  class Queue {
    var head: Node?<nat>
    var count: nat
    ghost var elts: seq<Process>

    ghost predicate Valid()
      reads this, elts
    {
      && count == |elts|
      && Distinct(elts)
      && Linked(elts)
      && head == if elts == [] then null else elts[0]
    }

    constructor ()
      ensures Valid() && elts == []
    {
      head, count, elts := null, 0, [];
    }

    /** lwpinsert into a queue that is not empty, but for the count. */
    method LinkIn(p: Process)
      requires Valid() && p !in elts && head != null
      modifies p, elts
      ensures Linked(elts + [p])
    {
      assert elts[0].prev == elts[|elts| - 1];
      p.prev := head.prev;
      head.prev.next := p;
      head.prev := p;
      p.next := head;
      JoinedLinked(elts, |elts| - 1, p);
      assert Spliced(elts, |elts|, p) == elts + [p];
    }

    /** lwpinsert: at the tail, which is before the head. */
    method Insert(p: Process)
      requires Valid() && p !in elts
      modifies this, p, elts
      ensures Valid() && elts == old(elts) + [p]
    {
      if head == null {
        head := p;
        p.next, p.prev := p, p;
      } else {
        LinkIn(p);
      }
      elts := elts + [p];
      count := count + 1;
    }

    /** The pointers of the neighbours in lwpremove. */
    method Unlink(p: Process, ghost k: nat)
      requires Valid() && k < |elts| && elts[k] == p && 1 < count
      modifies elts
      ensures Linked(Dropped(elts, k)) && p.next == elts[After(k, |elts|)]
    {
      ghost var a, b := After(k, |elts|), Before(k, |elts|);
      assert p.next == elts[a] && p.prev == elts[b];
      p.next.prev := p.prev;
      p.prev.next := p.next;
      SkipsLinked(elts, k);
    }

    /** The end of lwpremove. */
    method Forget(p: Process)
      requires p !in elts
      modifies p
      ensures p.next == null && p.prev == null && unchanged(elts)
    {
      p.next, p.prev := null, null;
    }

    /** lwpremove. */
    method Remove(p: Process, ghost k: nat)
      requires Valid() && k < |elts| && elts[k] == p
      modifies this, elts
      ensures Valid() && elts == Dropped(old(elts), k)
      ensures p.next == null && p.prev == null
    {
      DroppedDistinct(elts, k);
      if count == 1 {
        head := null;
      } else {
        Unlink(p, k);
      }
      if head == p { head := p.next; }
      count := count - 1;
      elts := Dropped(elts, k);
      Forget(p);
    }
  }

  /** lwpmove between two queues that share no process. */
  method Move(p: Process, from: Queue, to: Queue, ghost k: nat)
    requires from != to && from.Valid() && to.Valid() && Apart(from.elts, to.elts)
    requires k < |from.elts| && from.elts[k] == p
    modifies from, to, from.elts, to.elts
    ensures from.Valid() && to.Valid()
    ensures from.elts == Dropped(old(from.elts), k) && to.elts == old(to.elts) + [p]
  {
    DroppedDistinct(from.elts, k);
    from.Remove(p, k);
    to.Insert(p);
  }

  // -------------------------------------------- the walk over the blocked queue

  /** The queues are well formed and share neither headers nor processes. */
  ghost predicate Queues(from: Queue, to: seq<Queue>)
    reads *
  {
    && from.Valid()
    && (forall j :: 0 <= j < |to| ==> to[j].Valid() && to[j] != from && Apart(from.elts, to[j].elts))
    && forall i, j :: 0 <= i < j < |to| ==> to[i] != to[j] && Apart(to[i].elts, to[j].elts)
  }

  lemma ApartMove(f: seq<Process>, k: nat, g: seq<Process>, h: seq<Process>)
    requires k < |f| && Apart(f, h) && (Apart(g, h) || Apart(h, g))
    ensures Apart(Dropped(f, k), h) && Apart(g + [f[k]], h) && Apart(h, g + [f[k]])
  {
  }

  lemma ApartDrop(f: seq<Process>, k: nat, g: seq<Process>)
    requires k < |f| && Distinct(f) && Apart(f, g)
    ensures Apart(Dropped(f, k), g + [f[k]])
  {
  }

  method MoveOne(p: Process, from: Queue, to: seq<Queue>, m: nat, ghost k: nat)
    requires Queues(from, to) && m < |to| && k < |from.elts| && from.elts[k] == p
    modifies from, to[m], from.elts, to[m].elts
    ensures Queues(from, to)
    ensures from.elts == Dropped(old(from.elts), k) && to[m].elts == old(to[m].elts) + [p]
    ensures forall j :: 0 <= j < |to| && j != m ==> to[j].elts == old(to[j].elts)
  {
    assert from.Valid() && to[m].Valid() && Apart(from.elts, to[m].elts);
    ghost var f, g := from.elts, to[m].elts;
    Move(p, from, to[m], k);
    assert forall j :: 0 <= j < |to| && j != m ==> to[j].Valid() && to[j].elts == old(to[j].elts);
    forall j | 0 <= j < |to| && j != m
      ensures Apart(from.elts, to[j].elts) && Apart(to[m].elts, to[j].elts) && Apart(to[j].elts, to[m].elts)
    {
      ApartMove(f, k, g, to[j].elts);
    }
    ApartDrop(f, k, g);
  }

  /** The processes that stay, and those that go to queue j, in their order. */
  function Stay(s: seq<Process>, moves: map<Process, nat>): seq<Process> {
    if s == [] then []
    else Stay(s[..|s| - 1], moves) + if s[|s| - 1] in moves then [] else [s[|s| - 1]]
  }

  function Go(s: seq<Process>, moves: map<Process, nat>, j: nat): seq<Process> {
    if s == [] then []
    else
      Go(s[..|s| - 1], moves, j)
      + if s[|s| - 1] in moves && moves[s[|s| - 1]] == j then [s[|s| - 1]] else []
  }

  lemma WalkStep(s: seq<Process>, i: nat, moves: map<Process, nat>)
    requires i < |s|
    ensures s[..i + 1][..i] == s[..i] && s[..i + 1][i] == s[i]
    ensures var q := Stay(s[..i], moves) + s[i..];
            && q[|Stay(s[..i], moves)|] == s[i]
            && (s[i] in moves ==> Dropped(q, |Stay(s[..i], moves)|) == Stay(s[..i + 1], moves) + s[i + 1..])
            && (s[i] !in moves ==> q == Stay(s[..i + 1], moves) + s[i + 1..])
            && (i + 1 < |s| ==> q[After(|Stay(s[..i], moves)|, |q|)] == s[i + 1])
  {
    assert s[..i + 1][..i] == s[..i];
    assert s[i..] == [s[i]] + s[i + 1..];
  }

  /** After i turns over the processes s, the other queues having begun as olds. */
  ghost predicate Walked(from: Queue, to: seq<Queue>, moves: map<Process, nat>, s: seq<Process>, i: nat, olds: seq<seq<Process>>)
    reads *
  {
    && Queues(from, to) && i <= |s| && |olds| == |to|
    && from.elts == Stay(s[..i], moves) + s[i..]
    && forall j :: 0 <= j < |to| ==> to[j].elts == olds[j] + Go(s[..i], moves, j)
  }

  ghost predicate Within(from: Queue, to: seq<Queue>, all: set<Process>)
    reads *
  {
    (forall p :: p in from.elts ==> p in all) && forall j, p :: 0 <= j < |to| && p in to[j].elts ==> p in all
  }

  method TurnMove(p: Process, from: Queue, to: seq<Queue>, moves: map<Process, nat>, ghost all: set<Process>, ghost k: nat)
    requires Queues(from, to) && Within(from, to, all) && p in moves && moves[p] < |to|
    requires k < |from.elts| && from.elts[k] == p
    modifies from, to, all
    ensures Queues(from, to) && Within(from, to, all)
    ensures from.elts == Dropped(old(from.elts), k)
    ensures forall j :: 0 <= j < |to| ==> to[j].elts == old(to[j].elts) + if j == moves[p] then [p] else []
  {
    var m := moves[p];
    assert forall x :: x in from.elts ==> x in all;
    assert forall x :: x in to[m].elts ==> x in all;
    MoveOne(p, from, to, m, k);
    assert forall x :: x in from.elts ==> x in old(from.elts);
    assert forall x :: x in to[m].elts ==> x in old(to[m].elts) || x == p;
    assert p in all;
  }

  lemma NextInLine(from: Queue, s: seq<Process>, i: nat, moves: map<Process, nat>)
    requires i < |s| && from.Valid() && from.elts == Stay(s[..i], moves) + s[i..]
    ensures i + 1 < |s| ==> s[i].next == s[i + 1]
  {
    WalkStep(s, i, moves);
    var k := |Stay(s[..i], moves)|;
    assert from.elts[k] == s[i];
    assert from.elts[k].next == from.elts[After(k, |from.elts|)];
  }

  lemma GoStep(s: seq<Process>, i: nat, moves: map<Process, nat>, j: nat)
    requires i < |s|
    ensures Go(s[..i + 1], moves, j) == Go(s[..i], moves, j) + if s[i] in moves && moves[s[i]] == j then [s[i]] else []
  {
    assert s[..i + 1][..i] == s[..i];
  }

  method Turn(p: Process, from: Queue, to: seq<Queue>, moves: map<Process, nat>,
              ghost s: seq<Process>, ghost i: nat, ghost olds: seq<seq<Process>>, ghost all: set<Process>)
    returns (next: Node?<nat>)
    requires Walked(from, to, moves, s, i, olds) && i < |s| && p == s[i]
    requires Within(from, to, all) && forall q :: q in moves ==> moves[q] < |to|
    modifies from, to, all
    ensures Walked(from, to, moves, s, i + 1, olds) && Within(from, to, all)
    ensures i + 1 < |s| ==> next == s[i + 1]
  {
    NextInLine(from, s, i, moves);
    WalkStep(s, i, moves);
    next := p.next;
    if p in moves {
      TurnMove(p, from, to, moves, all, |Stay(s[..i], moves)|);
    }
    forall j | 0 <= j < |to| ensures to[j].elts == olds[j] + Go(s[..i + 1], moves, j) {
      GoStep(s, i, moves, j);
    }
  }

  lemma WalkBegins(from: Queue, to: seq<Queue>, moves: map<Process, nat>, olds: seq<seq<Process>>)
    requires Queues(from, to) && |olds| == |to| && forall j :: 0 <= j < |to| ==> to[j].elts == olds[j]
    ensures Walked(from, to, moves, from.elts, 0, olds)
  {
    assert from.elts[..0] == [] && from.elts[0..] == from.elts;
  }

  lemma WalkEnds(from: Queue, to: seq<Queue>, moves: map<Process, nat>, s: seq<Process>, olds: seq<seq<Process>>)
    requires Walked(from, to, moves, s, |s|, olds)
    ensures Queues(from, to) && from.elts == Stay(s, moves)
    ensures forall j :: 0 <= j < |to| ==> to[j].elts == olds[j] + Go(s, moves, j)
  {
    assert s[..|s|] == s && s[|s|..] == [];
  }

  /** The turns of the loop. */
  method WalkAll(first: Node?<nat>, count: nat, from: Queue, to: seq<Queue>, moves: map<Process, nat>,
                 ghost s: seq<Process>, ghost olds: seq<seq<Process>>, ghost all: set<Process>)
    requires Walked(from, to, moves, s, 0, olds) && Within(from, to, all) && forall p :: p in moves ==> moves[p] < |to|
    requires count == |s| && (0 < count ==> first == s[0])
    modifies from, to, all
    ensures Walked(from, to, moves, s, |s|, olds)
  {
    var turns, temp := count, first;
    ghost var i := 0;
    while 0 < turns
      invariant i + turns == |s|
      invariant Walked(from, to, moves, s, i, olds) && Within(from, to, all)
      invariant 0 < turns ==> temp == s[i]
    {
      temp := Turn(temp, from, to, moves, s, i, olds, all);
      turns, i := turns - 1, i + 1;
    }
  }

  /**
   * for_all_elts in Internal_Signal: the successor is read before the body moves the current
   * process to another queue, and the number of turns is the count at the start.
   */
  method Walk(from: Queue, to: seq<Queue>, moves: map<Process, nat>, ghost all: set<Process>)
    requires Queues(from, to) && Within(from, to, all) && forall p :: p in moves ==> moves[p] < |to|
    modifies from, to, all
    ensures Queues(from, to)
    ensures from.elts == Stay(old(from.elts), moves)
    ensures forall j :: 0 <= j < |to| ==> to[j].elts == old(to[j].elts) + Go(old(from.elts), moves, j)
  {
    ghost var s, olds := from.elts, seq(|to|, j requires 0 <= j < |to| reads to => to[j].elts);
    WalkBegins(from, to, moves, olds);
    WalkAll(from.head, from.count, from, to, moves, s, olds, all);
    WalkEnds(from, to, moves, s, olds);
  }
}
