/**
 * Who owns a pending event.  A call keeps pointers to its resend, keep-alive and delayed-ack
 * events and a connection one to its challenge event; rxevent_Cancel on such a pointer is
 * only right while the record is on the event queue, because a cancelled or fired record goes
 * to the free list and is used again.  None is the outcome of cancelling any other record.
 */
module RxEventHandles {
  import opened RxBase

  /** The pointer fields, by the call or connection they are in. */
  datatype Slot = Resend(call: nat) | KeepAlive(call: nat) | DelayedAck(call: nat) | Challenge(conn: nat)

  datatype Record = Free | Pending(owner: Slot) | Firing

  /** handles lacks a slot whose pointer is null; calls maps a call in use to its connection. */
  datatype State = State(records: seq<Record>, handles: map<Slot, nat>, calls: map<nat, nat>, conns: set<nat>)

  // ------------------------------------------------------------- operations

  /** rxevent_Cancel. */
  function Cancel(s: State, slot: Slot): Option<State> {
    if slot !in s.handles then Some(s)
    else
      var r := s.handles[slot];
      if r < |s.records| && s.records[r].Pending?
      then Some(s.(records := s.records[r := Free], handles := s.handles - {slot}))
      else None
  }

  /** A record from the free list, or a new one; which is the list's affair. */
  function Pick(s: State, r: nat): nat {
    if r < |s.records| && s.records[r] == Free then r else |s.records|
  }

  /** The pointer takes the result of rxevent_Post, whatever it was before. */
  function Post(s: State, slot: Slot, r: nat): State {
    var k := Pick(s, r);
    s.(records := if k == |s.records| then s.records + [Pending(slot)] else s.records[k := Pending(slot)],
       handles := s.handles[slot := k])
  }

  /** rxevent_Cancel followed by rxevent_Post. */
  function Repost(s: State, slot: Slot, r: nat): Option<State> {
    match Cancel(s, slot) case None => None case Some(t) => Some(Post(t, slot, r))
  }

  /** rxi_ResetCall: the transmit queue's resend event, the keep-alive and the delayed ack. */
  function Reset(s: State, c: nat): Option<State> {
    match Cancel(s, Resend(c))
    case None => None
    case Some(t) =>
      match Cancel(t, KeepAlive(c))
      case None => None
      case Some(u) => Cancel(u, DelayedAck(c))
  }

  function FreeCall(s: State, c: nat): Option<State> {
    match Reset(s, c) case None => None case Some(t) => Some(t.(calls := t.calls - {c}))
  }

  /** The end of rxi_Start: what was sent takes the delayed ack away, and a resend event is left or renewed. */
  function Start(s: State, c: nat, sends: bool, sooner: bool, needed: bool, r: nat): Option<State> {
    match (if sends then Cancel(s, DelayedAck(c)) else Some(s))
    case None => None
    case Some(t) =>
      if Resend(c) in t.handles && sooner then Some(t)
      else
        match Cancel(t, Resend(c))
        case None => None
        case Some(u) => Some(if needed then Post(u, Resend(c), r) else u)
  }

  function ScheduleKeepAlive(s: State, c: nat, r: nat): State {
    if KeepAlive(c) in s.handles then s else Post(s, KeepAlive(c), r)
  }

  /** The connection's calls are put in error one by one. */
  function ResetAll(s: State, cs: seq<nat>): Option<State>
    decreases |cs|
  {
    if cs == [] then Some(s)
    else match Reset(s, cs[0]) case None => None case Some(t) => ResetAll(t, cs[1..])
  }

  // --------------------------------------------------------------- handlers

  /** What rxi_CheckCall comes to; a call past its hard timeout that is not active is left as it is. */
  datatype Health = Well | InError | Gone | Overdue

  /** What an event handler finds and does, as far as it matters to the events. */
  datatype Course = Course(busy: bool, sends: bool, sooner: bool, needed: bool, health: Health, r: nat)

  /** rxi_ChallengeEvent, by event or directly: the pointer is dropped, and set again while a challenge is needed. */
  function Challenged(s: State, n: nat, k: Course): Option<State> {
    var t := s.(handles := s.handles - {Challenge(n)});
    if k.needed then Repost(t, Challenge(n), k.r) else Some(t)
  }

  function Handler(s: State, r: nat, slot: Slot, k: Course): Option<State> {
    match slot
    case Resend(c) =>
      var t := if slot in s.handles && s.handles[slot] == r then s.(handles := s.handles - {slot}) else s;
      if k.busy then Start(t, c, k.sends, k.sooner, k.needed, k.r) else Some(t)
    case DelayedAck(c) =>
      Cancel(s.(handles := s.handles - {slot}), DelayedAck(c))
    case KeepAlive(c) =>
      var t := s.(handles := s.handles - {slot});
      (match k.health
       case InError => Reset(t, c)
       case Gone => FreeCall(t, c)
       case Overdue => Some(t)
       case Well =>
         match (if k.sends then Cancel(t, DelayedAck(c)) else Some(t))
         case None => None
         case Some(u) => Some(ScheduleKeepAlive(u, c, k.r)))
    case Challenge(n) => Challenged(s, n, k)
  }

  /** A turn of rxevent_RaiseEvents: the record is free again only after its handler. */
  function Fire(s: State, r: nat, k: Course): Option<State>
    requires r < |s.records| && s.records[r].Pending?
  {
    match Handler(s.(records := s.records[r := Firing]), r, s.records[r].owner, k)
    case None => None
    case Some(t) => Some(if r < |t.records| then t.(records := t.records[r := Free]) else t)
  }

  // -------------------------------------------------------------------- runs

  datatype Label =
    | DoFire(event: nat, course: Course)
    | DoStart(c: nat, course: Course)
    | DoSend(c: nat)
    | DoDelayAck(c: nat, r: nat)
    | DoClearTransmitQueue(c: nat)
    | DoKeepAliveOn(c: nat, r: nat)
    | DoReset(c: nat)
    | DoFreeCall(c: nat)
    | DoNewCall(c: nat, conn: nat)
    | DoChallengeOn(conn: nat, course: Course)
    | DoChallengeAgain(conn: nat, r: nat)
    | DoConnectionError(conn: nat, cs: seq<nat>)
    | DoNewConnection(conn: nat)
    | DoDestroyConnection(conn: nat)

  predicate Enabled(s: State, l: Label) {
    match l
    case DoFire(r, _) => r < |s.records| && s.records[r].Pending?
    case DoStart(c, _) => c in s.calls
    case DoSend(c) => c in s.calls
    case DoDelayAck(c, _) => c in s.calls
    case DoClearTransmitQueue(c) => c in s.calls
    case DoKeepAliveOn(c, _) => c in s.calls
    case DoReset(c) => c in s.calls
    case DoFreeCall(c) => c in s.calls
    case DoNewCall(c, n) => c !in s.calls && n in s.conns
    case DoChallengeOn(n, _) => n in s.conns
    case DoChallengeAgain(n, _) => n in s.conns
    case DoConnectionError(n, cs) => n in s.conns && forall i :: 0 <= i < |cs| ==> cs[i] in s.calls && s.calls[cs[i]] == n
    case DoNewConnection(n) => n !in s.conns
    case DoDestroyConnection(n) => n in s.conns && forall c :: c in s.calls ==> s.calls[c] != n
  }

  function Step(s: State, l: Label): Option<State>
    requires Enabled(s, l)
  {
    match l
    case DoFire(r, k) => Fire(s, r, k)
    case DoStart(c, k) => if k.busy then Start(s, c, k.sends, k.sooner, k.needed, k.r) else Some(s)
    case DoSend(c) => Cancel(s, DelayedAck(c))
    case DoDelayAck(c, r) => Repost(s, DelayedAck(c), r)
    case DoClearTransmitQueue(c) => Cancel(s, Resend(c))
    case DoKeepAliveOn(c, r) => Some(ScheduleKeepAlive(s, c, r))
    case DoReset(c) => Reset(s, c)
    case DoFreeCall(c) => FreeCall(s, c)
    case DoNewCall(c, n) => Some(s.(calls := s.calls[c := n]))
    case DoChallengeOn(n, k) => if Challenge(n) in s.handles then Some(s) else Challenged(s, n, k)
    case DoChallengeAgain(n, r) => Repost(s, Challenge(n), r)
    case DoConnectionError(n, cs) =>
      (match Cancel(s, Challenge(n)) case None => None case Some(t) => ResetAll(t, cs))
    case DoNewConnection(n) => Some(s.(conns := s.conns + {n}))
    case DoDestroyConnection(n) =>
      (match Cancel(s, Challenge(n)) case None => None case Some(t) => Some(t.(conns := t.conns - {n})))
  }

  predicate Run(s: State, ls: seq<Label>, t: State)
    decreases |ls|
  {
    if ls == [] then s == t
    else Enabled(s, ls[0]) && Step(s, ls[0]).Some? && Run(Step(s, ls[0]).value, ls[1..], t)
  }

  const START := State([], map[], map[], {})

  // -------------------------------------------------------------- invariant

  predicate Alive(slot: Slot, calls: map<nat, nat>, conns: set<nat>) {
    if slot.Challenge? then slot.conn in conns else slot.call in calls
  }

  /** Every pointer that is not null names a pending event of its own, and of something alive. */
  ghost predicate HandlesOk(s: State) {
    forall slot :: slot in s.handles ==>
      && s.handles[slot] < |s.records| && s.records[s.handles[slot]] == Pending(slot)
      && Alive(slot, s.calls, s.conns)
  }

  /** Every pending event is named by the pointer it belongs to. */
  ghost predicate RecordsOk(s: State) {
    forall r :: 0 <= r < |s.records| && s.records[r].Pending? ==>
      s.records[r].owner in s.handles && s.handles[s.records[r].owner] == r
  }

  ghost predicate ConnsOk(s: State) {
    forall c :: c in s.calls ==> s.calls[c] in s.conns
  }

  ghost predicate Inv(s: State) {
    HandlesOk(s) && RecordsOk(s) && ConnsOk(s)
  }

  /** A step inside an operation: the invariant, the same calls and connections, and what fires stays out of reach. */
  ghost predicate Keeps(s: State, t: State) {
    && Inv(t) && t.calls == s.calls && t.conns == s.conns
    && |s.records| <= |t.records|
    && forall r :: 0 <= r < |s.records| && s.records[r].Firing? ==> t.records[r].Firing?
  }

  lemma CancelKeeps(s: State, slot: Slot)
    requires Inv(s)
    ensures Cancel(s, slot).Some? && Keeps(s, Cancel(s, slot).value)
    ensures Cancel(s, slot).value.handles == s.handles - {slot}
  {
  }

  lemma PostKeeps(s: State, slot: Slot, r: nat)
    requires Inv(s) && slot !in s.handles && Alive(slot, s.calls, s.conns)
    ensures Keeps(s, Post(s, slot, r))
  {
  }

  lemma RepostKeeps(s: State, slot: Slot, r: nat)
    requires Inv(s) && Alive(slot, s.calls, s.conns)
    ensures Repost(s, slot, r).Some? && Keeps(s, Repost(s, slot, r).value)
  {
    CancelKeeps(s, slot);
    PostKeeps(Cancel(s, slot).value, slot, r);
  }

  lemma ResetKeeps(s: State, c: nat)
    requires Inv(s)
    ensures Reset(s, c).Some? && Keeps(s, Reset(s, c).value)
    ensures Reset(s, c).value.handles == s.handles - {Resend(c), KeepAlive(c), DelayedAck(c)}
  {
    CancelKeeps(s, Resend(c));
    var t := Cancel(s, Resend(c)).value;
    CancelKeeps(t, KeepAlive(c));
    CancelKeeps(Cancel(t, KeepAlive(c)).value, DelayedAck(c));
  }

  lemma StartKeeps(s: State, c: nat, sends: bool, sooner: bool, needed: bool, r: nat)
    requires Inv(s) && c in s.calls
    ensures Start(s, c, sends, sooner, needed, r).Some? && Keeps(s, Start(s, c, sends, sooner, needed, r).value)
  {
    CancelKeeps(s, DelayedAck(c));
    var t := if sends then Cancel(s, DelayedAck(c)).value else s;
    if !(Resend(c) in t.handles && sooner) {
      CancelKeeps(t, Resend(c));
      if needed {
        PostKeeps(Cancel(t, Resend(c)).value, Resend(c), r);
      }
    }
  }

  lemma {:induction false} ResetAllKeeps(s: State, cs: seq<nat>)
    requires Inv(s)
    ensures ResetAll(s, cs).Some? && Keeps(s, ResetAll(s, cs).value)
    decreases |cs|
  {
    if cs != [] {
      ResetKeeps(s, cs[0]);
      ResetAllKeeps(Reset(s, cs[0]).value, cs[1..]);
    }
  }

  lemma FreeCallInv(s: State, c: nat)
    requires Inv(s)
    ensures FreeCall(s, c).Some? && Inv(FreeCall(s, c).value)
    ensures |s.records| <= |FreeCall(s, c).value.records|
    ensures forall r :: 0 <= r < |s.records| && s.records[r].Firing? ==> FreeCall(s, c).value.records[r].Firing?
  {
    ResetKeeps(s, c);
    DropCall(Reset(s, c).value, c);
  }

  lemma DropCall(t: State, c: nat)
    requires Inv(t) && Resend(c) !in t.handles && KeepAlive(c) !in t.handles && DelayedAck(c) !in t.handles
    ensures Inv(t.(calls := t.calls - {c}))
  {
  }

  /** A handler runs with its own record out of the queue and its pointer still set. */
  ghost predicate Entered(s: State, r: nat, slot: Slot) {
    && r < |s.records| && s.records[r] == Firing && Alive(slot, s.calls, s.conns)
    && slot in s.handles && s.handles[slot] == r
    && Inv(s.(handles := s.handles - {slot}))
  }

  lemma HandlerInv(s: State, r: nat, slot: Slot, k: Course)
    requires Entered(s, r, slot)
    ensures Handler(s, r, slot, k).Some? && Inv(Handler(s, r, slot, k).value)
    ensures r < |Handler(s, r, slot, k).value.records| && Handler(s, r, slot, k).value.records[r].Firing?
  {
    var t := s.(handles := s.handles - {slot});
    match slot
    case Resend(c) =>
      if k.busy { StartKeeps(t, c, k.sends, k.sooner, k.needed, k.r); }
    case DelayedAck(c) => CancelKeeps(t, slot);
    case KeepAlive(c) =>
      if k.health == InError {
        ResetKeeps(t, c);
      } else if k.health == Gone {
        FreeCallInv(t, c);
      } else if k.health == Well {
        CancelKeeps(t, DelayedAck(c));
        var u := if k.sends then Cancel(t, DelayedAck(c)).value else t;
        if KeepAlive(c) !in u.handles { PostKeeps(u, KeepAlive(c), k.r); }
      }
    case Challenge(n) =>
      if k.needed { RepostKeeps(t, slot, k.r); }
  }

  lemma FireInv(s: State, r: nat, k: Course)
    requires Inv(s) && r < |s.records| && s.records[r].Pending?
    ensures Fire(s, r, k).Some? && Inv(Fire(s, r, k).value)
  {
    HandlerInv(s.(records := s.records[r := Firing]), r, s.records[r].owner, k);
  }

  lemma StepInv(s: State, l: Label)
    requires Inv(s) && Enabled(s, l)
    ensures Step(s, l).Some? && Inv(Step(s, l).value)
  {
    match l
    case DoFire(r, k) => FireInv(s, r, k);
    case DoStart(c, k) => StartKeeps(s, c, k.sends, k.sooner, k.needed, k.r);
    case DoSend(c) => CancelKeeps(s, DelayedAck(c));
    case DoDelayAck(c, r) => RepostKeeps(s, DelayedAck(c), r);
    case DoClearTransmitQueue(c) => CancelKeeps(s, Resend(c));
    case DoKeepAliveOn(c, r) => if KeepAlive(c) !in s.handles { PostKeeps(s, KeepAlive(c), r); }
    case DoReset(c) => ResetKeeps(s, c);
    case DoFreeCall(c) => FreeCallInv(s, c);
    case DoNewCall(c, n) =>
    case DoChallengeOn(n, k) =>
      if Challenge(n) !in s.handles {
        assert s.handles - {Challenge(n)} == s.handles;
        if k.needed { RepostKeeps(s, Challenge(n), k.r); }
      }
    case DoChallengeAgain(n, r) => RepostKeeps(s, Challenge(n), r);
    case DoConnectionError(n, cs) =>
      CancelKeeps(s, Challenge(n));
      ResetAllKeeps(Cancel(s, Challenge(n)).value, cs);
    case DoNewConnection(n) =>
    case DoDestroyConnection(n) => CancelKeeps(s, Challenge(n));
  }

  lemma {:induction false} RunInv(s: State, ls: seq<Label>, t: State)
    requires Inv(s) && Run(s, ls, t)
    ensures Inv(t)
    decreases |ls|
  {
    if ls != [] {
      StepInv(s, ls[0]);
      RunInv(Step(s, ls[0]).value, ls[1..], t);
    }
  }

  // ---------------------------------------------------------------- theorems

  /** In every run, every rxevent_Cancel hits an event that is on the queue at that moment. */
  lemma CancelsHitPending(ls: seq<Label>, s: State, l: Label)
    requires Run(START, ls, s) && Enabled(s, l)
    ensures Step(s, l).Some?
  {
    RunInv(START, ls, s);
    StepInv(s, l);
  }

  /** In every run, each pending event is named by exactly one pointer. */
  lemma OneOwner(ls: seq<Label>, s: State, r: nat)
    requires Run(START, ls, s) && r < |s.records| && s.records[r].Pending?
    ensures forall slot :: slot in s.handles && s.handles[slot] == r <==> slot == s.records[r].owner
  {
    RunInv(START, ls, s);
  }

  /** In every run, no pending event names a call on the free list or a connection that is gone. */
  lemma FreedHasNoEvent(ls: seq<Label>, s: State, r: nat)
    requires Run(START, ls, s) && r < |s.records| && s.records[r].Pending?
    ensures var o := s.records[r].owner;
            if o.Challenge? then o.conn in s.conns else o.call in s.calls && s.calls[o.call] in s.conns
  {
    RunInv(START, ls, s);
  }
}
