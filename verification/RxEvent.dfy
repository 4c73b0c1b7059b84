/**
 * The timed events of rx/rx_event.c over whole runs: events are posted, cancelled and fired
 * in any order, handlers doing so too, while the clock moves on.  Times are microseconds.
 * An event's number counts posts; it exists only to tell the events of a run apart.
 */
module RxEvent {
  datatype Event = Event(id: nat, time: int)

  /** A firing, with the clock and the number of posts before it. */
  datatype Firing = Firing(event: Event, at: int, posts: nat)

  datatype State = State(queue: seq<Event>, now: int, posts: nat, fired: seq<Firing>, cancelled: seq<Event>)

  /** Where the backward scan of rxevent_Post puts a new event. */
  function Place(times: seq<int>, when: int): (k: nat)
    ensures k <= |times|
    ensures 0 < k ==> times[k - 1] <= when
    ensures forall i :: k <= i < |times| ==> when < times[i]
  {
    if times == [] then 0
    else if times[|times| - 1] <= when then |times|
    else Place(times[..|times| - 1], when)
  }

  function Times(q: seq<Event>): (ts: seq<int>)
    ensures |ts| == |q| && forall i :: 0 <= i < |q| ==> ts[i] == q[i].time
  {
    seq(|q|, i requires 0 <= i < |q| => q[i].time)
  }

  function Insert(q: seq<Event>, k: nat, e: Event): (r: seq<Event>)
    requires k <= |q|
    ensures |r| == |q| + 1 && r[k] == e
    ensures forall i :: 0 <= i < k ==> r[i] == q[i]
    ensures forall i :: k < i < |r| ==> r[i] == q[i - 1]
    ensures multiset(r) == multiset(q) + multiset{e}
  {
    assert q == q[..k] + q[k..];
    q[..k] + [e] + q[k..]
  }

  function Post(s: State, when: int): State {
    var k := Place(Times(s.queue), when);
    s.(queue := Insert(s.queue, k, Event(s.posts, when)), posts := s.posts + 1)
  }

  function Cancel(s: State, k: nat): State
    requires k < |s.queue|
  {
    s.(queue := s.queue[..k] + s.queue[k + 1..], cancelled := s.cancelled + [s.queue[k]])
  }

  predicate Due(s: State) {
    s.queue != [] && s.queue[0].time <= s.now
  }

  /** One turn of the loop in rxevent_RaiseEvents. */
  function Fire(s: State): State
    requires Due(s)
  {
    s.(queue := s.queue[1..], fired := s.fired + [Firing(s.queue[0], s.now, s.posts)])
  }

  // -------------------------------------------------------------------- runs

  datatype Label = DoPost(when: int) | DoCancel(k: nat) | DoFire | DoTick(now: int)

  predicate Enabled(s: State, l: Label) {
    match l
    case DoPost(_) => true
    case DoCancel(k) => k < |s.queue|
    case DoFire => Due(s)
    case DoTick(now) => s.now < now
  }

  function Step(s: State, l: Label): State
    requires Enabled(s, l)
  {
    match l
    case DoPost(when) => Post(s, when)
    case DoCancel(k) => Cancel(s, k)
    case DoFire => Fire(s)
    case DoTick(now) => s.(now := now)
  }

  const START := State([], 0, 0, [], [])

  predicate Run(s: State, ls: seq<Label>, t: State)
    decreases |ls|
  {
    if ls == [] then s == t else Enabled(s, ls[0]) && Run(Step(s, ls[0]), ls[1..], t)
  }

  // -------------------------------------------------------------- invariant

  /** By time, and among equal times by order of posting. */
  predicate Sooner(a: Event, b: Event) {
    a.time < b.time || (a.time == b.time && a.id < b.id)
  }

  predicate Sorted(q: seq<Event>) {
    forall i, j :: 0 <= i < j < |q| ==> Sooner(q[i], q[j])
  }

  predicate Known(q: seq<Event>, posts: nat) {
    forall i :: 0 <= i < |q| ==> q[i].id < posts
  }

  /** What fired was due, was posted before, and was sooner than all that stood posted then. */
  predicate Orderly(fired: seq<Firing>) {
    && (forall i :: 0 <= i < |fired| ==> fired[i].event.time <= fired[i].at && fired[i].event.id < fired[i].posts)
    && forall i, j :: 0 <= i < j < |fired| && fired[j].event.id < fired[i].posts ==> Sooner(fired[i].event, fired[j].event)
  }

  predicate Later(fired: seq<Firing>, q: seq<Event>) {
    forall i, j :: 0 <= i < |fired| && 0 <= j < |q| && q[j].id < fired[i].posts ==> Sooner(fired[i].event, q[j])
  }

  predicate Past(fired: seq<Firing>, posts: nat, now: int) {
    forall i :: 0 <= i < |fired| ==> fired[i].posts <= posts && fired[i].at <= now
  }

  predicate Inv(s: State) {
    Sorted(s.queue) && Known(s.queue, s.posts) && Orderly(s.fired) && Later(s.fired, s.queue) && Past(s.fired, s.posts, s.now)
  }

  lemma PlaceSplits(q: seq<Event>, when: int)
    requires Sorted(q)
    ensures var k := Place(Times(q), when);
            && (forall i :: 0 <= i < k ==> q[i].time <= when)
            && forall i :: k <= i < |q| ==> when < q[i].time
  {
    var k := Place(Times(q), when);
    if 0 < k {
      assert Times(q)[k - 1] == q[k - 1].time;
      assert forall i :: 0 <= i < k - 1 ==> Sooner(q[i], q[k - 1]);
    }
    forall i | k <= i < |q| ensures when < q[i].time {
      assert Times(q)[i] == q[i].time;
    }
  }

  lemma PostSorted(q: seq<Event>, e: Event, k: nat)
    requires Sorted(q) && Known(q, e.id) && k <= |q|
    requires forall i :: 0 <= i < k ==> q[i].time <= e.time
    requires forall i :: k <= i < |q| ==> e.time < q[i].time
    ensures Sorted(Insert(q, k, e)) && Known(Insert(q, k, e), e.id + 1)
  {
    var r := Insert(q, k, e);
    forall i, j | 0 <= i < j < |r| ensures Sooner(r[i], r[j]) {
      if i != k && j != k {
        assert Sooner(q[if i < k then i else i - 1], q[if j < k then j else j - 1]);
      }
    }
  }

  lemma PostLater(fired: seq<Firing>, q: seq<Event>, posts: nat, when: int, k: nat)
    requires Later(fired, q) && k <= |q| && forall i :: 0 <= i < |fired| ==> fired[i].posts <= posts
    ensures Later(fired, Insert(q, k, Event(posts, when)))
  {
    var r := Insert(q, k, Event(posts, when));
    forall i, j | 0 <= i < |fired| && 0 <= j < |r| && r[j].id < fired[i].posts ensures Sooner(fired[i].event, r[j]) {
      assert j != k;
      assert r[j] == q[if j < k then j else j - 1];
    }
  }

  lemma PostInv(s: State, when: int)
    requires Inv(s)
    ensures Inv(Post(s, when))
  {
    PlaceSplits(s.queue, when);
    PostSorted(s.queue, Event(s.posts, when), Place(Times(s.queue), when));
    PostLater(s.fired, s.queue, s.posts, when, Place(Times(s.queue), when));
  }

  lemma CancelInv(s: State, k: nat)
    requires Inv(s) && k < |s.queue|
    ensures Inv(Cancel(s, k))
  {
    var q := s.queue[..k] + s.queue[k + 1..];
    assert forall i :: 0 <= i < |q| ==> q[i] == s.queue[if i < k then i else i + 1];
  }

  lemma FireInv(s: State)
    requires Inv(s) && Due(s)
    ensures Inv(Fire(s))
  {
    var q, f := s.queue[1..], s.fired + [Firing(s.queue[0], s.now, s.posts)];
    assert forall i :: 0 <= i < |q| ==> q[i] == s.queue[i + 1];
    assert Orderly(f);
    assert Later(f, q);
  }

  lemma {:induction false} RunInv(s: State, ls: seq<Label>, t: State)
    requires Inv(s) && Run(s, ls, t)
    ensures Inv(t)
    decreases |ls|
  {
    if ls != [] {
      match ls[0] {
        case DoPost(when) => PostInv(s, when);
        case DoCancel(k) => CancelInv(s, k);
        case DoFire => FireInv(s);
        case DoTick(now) =>
      }
      RunInv(Step(s, ls[0]), ls[1..], t);
    }
  }

  /**
   * In every run, no event fires early, and of two events both posted when the first of them
   * fires, the one with the earlier time fires first, or the one posted first if the times agree.
   */
  lemma FiredInOrder(ls: seq<Label>, t: State)
    requires Run(START, ls, t)
    ensures Orderly(t.fired)
  {
    RunInv(START, ls, t);
  }

  // ---------------------------------------------------------- nothing is lost

  function Events(fired: seq<Firing>): seq<Event> {
    seq(|fired|, i requires 0 <= i < |fired| => fired[i].event)
  }

  /** All events of the run so far. */
  function All(s: State): multiset<Event> {
    multiset(s.queue) + multiset(s.cancelled) + multiset(Events(s.fired))
  }

  /** Each number posted so far is that of exactly one event, pending, cancelled or fired. */
  ghost predicate OncePosted(s: State) {
    && (forall e :: e in All(s) ==> e.id < s.posts && All(s)[e] == 1)
    && (forall e, f :: e in All(s) && f in All(s) && e.id == f.id ==> e == f)
    && |All(s)| == s.posts
  }

  lemma StepAll(s: State, l: Label)
    requires Enabled(s, l)
    ensures All(Step(s, l)) == All(s) + if l.DoPost? then multiset{Event(s.posts, l.when)} else multiset{}
  {
    match l
    case DoPost(when) =>
    case DoCancel(k) =>
      assert s.queue == s.queue[..k] + [s.queue[k]] + s.queue[k + 1..];
    case DoFire =>
      assert s.queue == [s.queue[0]] + s.queue[1..];
      assert Events(Fire(s).fired) == Events(s.fired) + [s.queue[0]];
    case DoTick(_) =>
  }

  lemma {:induction false} RunOnce(s: State, ls: seq<Label>, t: State)
    requires OncePosted(s) && Run(s, ls, t)
    ensures OncePosted(t)
    decreases |ls|
  {
    if ls != [] {
      StepAll(s, ls[0]);
      RunOnce(Step(s, ls[0]), ls[1..], t);
    }
  }

  /** In every run each posted event is pending, cancelled or fired: one of these, and once. */
  lemma EventsConserved(ls: seq<Label>, t: State)
    requires Run(START, ls, t)
    ensures OncePosted(t)
  {
    RunOnce(START, ls, t);
  }

  /** In every run the loop that raises events stops if and only if no pending event is due. */
  lemma RaisesAllDue(ls: seq<Label>, t: State)
    requires Run(START, ls, t)
    ensures Enabled(t, DoFire) <==> exists i :: 0 <= i < |t.queue| && t.queue[i].time <= t.now
  {
    RunInv(START, ls, t);
    if i :| 0 <= i < |t.queue| && t.queue[i].time <= t.now {
      assert i == 0 || Sooner(t.queue[0], t.queue[i]);
    }
  }

  /** A step moves one event and no other, to the cancelled by its cancelling and to the fired by its firing; StepAll has the rest. */
  lemma OneMoves(s: State, l: Label)
    requires Enabled(s, l)
    ensures var t := Step(s, l);
            && t.cancelled == s.cancelled + (if l.DoCancel? then [s.queue[l.k]] else [])
            && Events(t.fired) == Events(s.fired) + (if l.DoFire? then [s.queue[0]] else [])
            && t.posts == s.posts + (if l.DoPost? then 1 else 0)
            && t.now == if l.DoTick? then l.now else s.now
  {
    if l.DoFire? {
      assert Events(Fire(s).fired) == Events(s.fired) + [s.queue[0]];
    }
  }
}
