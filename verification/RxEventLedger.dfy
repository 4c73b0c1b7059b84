/**
 * Which events are pending: what each operation of rx/rx.c owes to the pointer fields, told field by
 * field, and that in every run the event queue holds exactly what is owed.
 */
module RxEventLedger {
  import opened RxBase
  import opened RxEventHandles

  /** The pointer whose event a step fires. */
  function FiredBy(s: State, l: Label): Option<Slot> {
    if l.DoFire? && l.event < |s.records| && s.records[l.event].Pending? then Some(s.records[l.event].owner) else None
  }

  /** The call is reset: by itself, with its connection, or by its own keep-alive. */
  predicate Resets(l: Label, fired: Option<Slot>, c: nat) {
    || l == DoReset(c) || l == DoFreeCall(c)
    || (l.DoConnectionError? && c in l.cs)
    || (fired == Some(KeepAlive(c)) && l.DoFire? && (l.course.health == InError || l.course.health == Gone))
  }

  /** What rxi_Start comes to for a call: a start of its own or the one of its resend event. */
  predicate Starts(l: Label, fired: Option<Slot>, c: nat) {
    (l.DoStart? && l.c == c && l.course.busy) || (l.DoFire? && fired == Some(Resend(c)) && l.course.busy)
  }

  /** A packet or acknowledgement goes out for the call. */
  predicate SendsFor(l: Label, fired: Option<Slot>, c: nat) {
    || l == DoSend(c)
    || (Starts(l, fired, c) && l.course.sends)
    || (l.DoFire? && fired == Some(KeepAlive(c)) && l.course.health == Well && l.course.sends)
  }

  /** Whether the pointer is set after a step, when it was set or not before. */
  predicate Owed(slot: Slot, l: Label, fired: Option<Slot>, was: bool) {
    match slot
    case Resend(c) =>
      if Resets(l, fired, c) || l == DoClearTransmitQueue(c) then false
      else if Starts(l, fired, c) then l.course.needed || (was && l.course.sooner && l.DoStart?)
      else was && fired != Some(slot)
    case KeepAlive(c) =>
      if Resets(l, fired, c) then false
      else if l.DoKeepAliveOn? && l.c == c then true
      else if l.DoFire? && fired == Some(slot) then l.course.health == Well
      else was
    case DelayedAck(c) =>
      if Resets(l, fired, c) || SendsFor(l, fired, c) then false
      else if l.DoDelayAck? && l.c == c then true
      else was && fired != Some(slot)
    case Challenge(n) =>
      if (l.DoConnectionError? && l.conn == n) || l == DoDestroyConnection(n) then false
      else if l.DoChallengeAgain? && l.conn == n then true
      else if l.DoFire? && fired == Some(slot) then l.course.needed
      else was || (l.DoChallengeOn? && l.conn == n && l.course.needed)
  }

  /** The calls in use after a step. */
  function CallsAfter(calls: map<nat, nat>, l: Label, fired: Option<Slot>): map<nat, nat> {
    if l.DoNewCall? then calls[l.c := l.conn]
    else if l.DoFreeCall? then calls - {l.c}
    else if l.DoFire? && l.course.health == Gone && fired.Some? && fired.value.KeepAlive? then calls - {fired.value.call}
    else calls
  }

  function ConnsAfter(conns: set<nat>, l: Label): set<nat> {
    if l.DoNewConnection? then conns + {l.conn} else if l.DoDestroyConnection? then conns - {l.conn} else conns
  }

  lemma StartOwes(s: State, c: nat, k: Course, slot: Slot)
    requires Inv(s) && c in s.calls
    ensures var t := Start(s, c, k.sends, k.sooner, k.needed, k.r);
            && t.Some? && t.value.calls == s.calls && t.value.conns == s.conns
            && (slot in t.value.handles <==>
                  if slot == Resend(c) then k.needed || (slot in s.handles && k.sooner)
                  else slot in s.handles && !(slot == DelayedAck(c) && k.sends))
  {
    StartKeeps(s, c, k.sends, k.sooner, k.needed, k.r);
    CancelKeeps(s, DelayedAck(c));
    var t := if k.sends then Cancel(s, DelayedAck(c)).value else s;
    CancelKeeps(t, Resend(c));
  }

  lemma {:induction false} ResetAllOwes(s: State, cs: seq<nat>, slot: Slot)
    requires Inv(s)
    ensures ResetAll(s, cs).Some?
    ensures slot in ResetAll(s, cs).value.handles <==> slot in s.handles && (slot.Challenge? || slot.call !in cs)
    decreases |cs|
  {
    if cs != [] {
      ResetKeeps(s, cs[0]);
      ResetAllOwes(Reset(s, cs[0]).value, cs[1..], slot);
    }
  }

  lemma ResendFires(s: State, r: nat, c: nat, k: Course, slot: Slot)
    requires Entered(s, r, Resend(c))
    ensures var t := Handler(s, r, Resend(c), k);
            && t.Some? && t.value.calls == CallsAfter(s.calls, DoFire(r, k), Some(Resend(c))) && t.value.conns == s.conns
            && (slot in t.value.handles <==> Owed(slot, DoFire(r, k), Some(Resend(c)), slot in s.handles))
  {
    var t := s.(handles := s.handles - {Resend(c)});
    if k.busy {
      StartOwes(t, c, k, slot);
    }
  }

  lemma DelayedAckFires(s: State, r: nat, c: nat, k: Course, slot: Slot)
    requires Entered(s, r, DelayedAck(c))
    ensures var t := Handler(s, r, DelayedAck(c), k);
            && t.Some? && t.value.calls == CallsAfter(s.calls, DoFire(r, k), Some(DelayedAck(c))) && t.value.conns == s.conns
            && (slot in t.value.handles <==> Owed(slot, DoFire(r, k), Some(DelayedAck(c)), slot in s.handles))
  {
    CancelKeeps(s.(handles := s.handles - {DelayedAck(c)}), DelayedAck(c));
  }

  lemma KeepAliveFires(s: State, r: nat, c: nat, k: Course, slot: Slot)
    requires Entered(s, r, KeepAlive(c))
    ensures var t := Handler(s, r, KeepAlive(c), k);
            && t.Some? && t.value.calls == CallsAfter(s.calls, DoFire(r, k), Some(KeepAlive(c))) && t.value.conns == s.conns
            && (slot in t.value.handles <==> Owed(slot, DoFire(r, k), Some(KeepAlive(c)), slot in s.handles))
  {
    var t := s.(handles := s.handles - {KeepAlive(c)});
    match k.health
    case Well => CancelKeeps(t, DelayedAck(c));
    case InError => ResetKeeps(t, c);
    case Gone => ResetKeeps(t, c);
    case Overdue =>
  }

  lemma ChallengeFires(s: State, r: nat, n: nat, k: Course, slot: Slot)
    requires Entered(s, r, Challenge(n))
    ensures var t := Handler(s, r, Challenge(n), k);
            && t.Some? && t.value.calls == CallsAfter(s.calls, DoFire(r, k), Some(Challenge(n))) && t.value.conns == s.conns
            && (slot in t.value.handles <==> Owed(slot, DoFire(r, k), Some(Challenge(n)), slot in s.handles))
  {
    CancelKeeps(s.(handles := s.handles - {Challenge(n)}), Challenge(n));
  }

  lemma FireOwes(s: State, r: nat, k: Course, slot: Slot)
    requires Inv(s) && r < |s.records| && s.records[r].Pending?
    ensures Fire(s, r, k).Some? && Fire(s, r, k).value.calls == CallsAfter(s.calls, DoFire(r, k), Some(s.records[r].owner))
    ensures Fire(s, r, k).value.conns == s.conns
    ensures slot in Fire(s, r, k).value.handles <==> Owed(slot, DoFire(r, k), Some(s.records[r].owner), slot in s.handles)
  {
    var t, owner := s.(records := s.records[r := Firing]), s.records[r].owner;
    EntersHandler(s, r);
    match owner
    case Resend(c) => ResendFires(t, r, c, k, slot);
    case DelayedAck(c) => DelayedAckFires(t, r, c, k, slot);
    case KeepAlive(c) => KeepAliveFires(t, r, c, k, slot);
    case Challenge(n) => ChallengeFires(t, r, n, k, slot);
  }

  lemma EntersHandler(s: State, r: nat)
    requires Inv(s) && r < |s.records| && s.records[r].Pending?
    ensures Entered(s.(records := s.records[r := Firing]), r, s.records[r].owner)
  {
  }

  lemma SendOwes(s: State, c: nat, slot: Slot)
    requires Inv(s) && Enabled(s, DoSend(c))
    ensures var t := Step(s, DoSend(c));
            && t.Some? && t.value.calls == CallsAfter(s.calls, DoSend(c), None)
            && t.value.conns == ConnsAfter(s.conns, DoSend(c))
            && (slot in t.value.handles <==> Owed(slot, DoSend(c), None, slot in s.handles))
  {
    CancelKeeps(s, DelayedAck(c));
  }

  lemma DelayAckOwes(s: State, c: nat, r: nat, slot: Slot)
    requires Inv(s) && Enabled(s, DoDelayAck(c, r))
    ensures var t := Step(s, DoDelayAck(c, r));
            && t.Some? && t.value.calls == CallsAfter(s.calls, DoDelayAck(c, r), None)
            && t.value.conns == ConnsAfter(s.conns, DoDelayAck(c, r))
            && (slot in t.value.handles <==> Owed(slot, DoDelayAck(c, r), None, slot in s.handles))
  {
    CancelKeeps(s, DelayedAck(c));
  }

  lemma ClearOwes(s: State, c: nat, slot: Slot)
    requires Inv(s) && Enabled(s, DoClearTransmitQueue(c))
    ensures var t := Step(s, DoClearTransmitQueue(c));
            && t.Some? && t.value.calls == CallsAfter(s.calls, DoClearTransmitQueue(c), None)
            && t.value.conns == ConnsAfter(s.conns, DoClearTransmitQueue(c))
            && (slot in t.value.handles <==> Owed(slot, DoClearTransmitQueue(c), None, slot in s.handles))
  {
    CancelKeeps(s, Resend(c));
  }

  lemma KeepAliveOwes(s: State, c: nat, r: nat, slot: Slot)
    requires Inv(s) && Enabled(s, DoKeepAliveOn(c, r))
    ensures var t := Step(s, DoKeepAliveOn(c, r));
            && t.Some? && t.value.calls == CallsAfter(s.calls, DoKeepAliveOn(c, r), None)
            && t.value.conns == ConnsAfter(s.conns, DoKeepAliveOn(c, r))
            && (slot in t.value.handles <==> Owed(slot, DoKeepAliveOn(c, r), None, slot in s.handles))
  {
  }

  lemma ResetOwes(s: State, c: nat, slot: Slot)
    requires Inv(s) && Enabled(s, DoReset(c))
    ensures var t := Step(s, DoReset(c));
            && t.Some? && t.value.calls == CallsAfter(s.calls, DoReset(c), None)
            && t.value.conns == ConnsAfter(s.conns, DoReset(c))
            && (slot in t.value.handles <==> Owed(slot, DoReset(c), None, slot in s.handles))
  {
    ResetKeeps(s, c);
  }

  lemma FreeOwes(s: State, c: nat, slot: Slot)
    requires Inv(s) && Enabled(s, DoFreeCall(c))
    ensures var t := Step(s, DoFreeCall(c));
            && t.Some? && t.value.calls == CallsAfter(s.calls, DoFreeCall(c), None)
            && t.value.conns == ConnsAfter(s.conns, DoFreeCall(c))
            && (slot in t.value.handles <==> Owed(slot, DoFreeCall(c), None, slot in s.handles))
  {
    ResetKeeps(s, c);
  }

  lemma ErrorOwes(s: State, n: nat, cs: seq<nat>, slot: Slot)
    requires Inv(s) && Enabled(s, DoConnectionError(n, cs))
    ensures var t := Step(s, DoConnectionError(n, cs));
            && t.Some? && t.value.calls == CallsAfter(s.calls, DoConnectionError(n, cs), None)
            && t.value.conns == ConnsAfter(s.conns, DoConnectionError(n, cs))
            && (slot in t.value.handles <==> Owed(slot, DoConnectionError(n, cs), None, slot in s.handles))
  {
    CancelKeeps(s, Challenge(n));
    ResetAllKeeps(Cancel(s, Challenge(n)).value, cs);
    ResetAllOwes(Cancel(s, Challenge(n)).value, cs, slot);
  }

  lemma ChallengeOwes(s: State, n: nat, k: Course, slot: Slot)
    requires Inv(s) && Enabled(s, DoChallengeOn(n, k))
    ensures var t := Step(s, DoChallengeOn(n, k));
            && t.Some? && t.value.calls == CallsAfter(s.calls, DoChallengeOn(n, k), None)
            && t.value.conns == ConnsAfter(s.conns, DoChallengeOn(n, k))
            && (slot in t.value.handles <==> Owed(slot, DoChallengeOn(n, k), None, slot in s.handles))
  {
    assert Challenge(n) !in s.handles ==> s.handles - {Challenge(n)} == s.handles;
  }

  lemma ChallengeAgainOwes(s: State, n: nat, r: nat, slot: Slot)
    requires Inv(s) && Enabled(s, DoChallengeAgain(n, r))
    ensures var t := Step(s, DoChallengeAgain(n, r));
            && t.Some? && t.value.calls == CallsAfter(s.calls, DoChallengeAgain(n, r), None)
            && t.value.conns == ConnsAfter(s.conns, DoChallengeAgain(n, r))
            && (slot in t.value.handles <==> Owed(slot, DoChallengeAgain(n, r), None, slot in s.handles))
  {
    CancelKeeps(s, Challenge(n));
  }

  lemma DestroyOwes(s: State, n: nat, slot: Slot)
    requires Inv(s) && Enabled(s, DoDestroyConnection(n))
    ensures var t := Step(s, DoDestroyConnection(n));
            && t.Some? && t.value.calls == CallsAfter(s.calls, DoDestroyConnection(n), None)
            && t.value.conns == ConnsAfter(s.conns, DoDestroyConnection(n))
            && (slot in t.value.handles <==> Owed(slot, DoDestroyConnection(n), None, slot in s.handles))
  {
    CancelKeeps(s, Challenge(n));
  }

  /** Each step leaves exactly the pointers set that it owes, and the calls in use. */
  lemma StepOwes(s: State, l: Label, slot: Slot)
    requires Inv(s) && Enabled(s, l)
    ensures Step(s, l).Some? && (slot in Step(s, l).value.handles <==> Owed(slot, l, FiredBy(s, l), slot in s.handles))
    ensures Step(s, l).value.calls == CallsAfter(s.calls, l, FiredBy(s, l)) && Step(s, l).value.conns == ConnsAfter(s.conns, l)
  {
    match l
    case DoFire(r, k) => FireOwes(s, r, k, slot);
    case DoStart(c, k) => StartOwes(s, c, k, slot);
    case DoSend(c) => SendOwes(s, c, slot);
    case DoDelayAck(c, r) => DelayAckOwes(s, c, r, slot);
    case DoClearTransmitQueue(c) => ClearOwes(s, c, slot);
    case DoKeepAliveOn(c, r) => KeepAliveOwes(s, c, r, slot);
    case DoReset(c) => ResetOwes(s, c, slot);
    case DoFreeCall(c) => FreeOwes(s, c, slot);
    case DoNewCall(c, n) =>
    case DoChallengeOn(n, k) => ChallengeOwes(s, n, k, slot);
    case DoChallengeAgain(n, r) => ChallengeAgainOwes(s, n, r, slot);
    case DoConnectionError(n, cs) => ErrorOwes(s, n, cs, slot);
    case DoNewConnection(n) =>
    case DoDestroyConnection(n) => DestroyOwes(s, n, slot);
  }

  /** What is owed to a pointer at the end of a run. */
  predicate OwedAfter(slot: Slot, s: State, ls: seq<Label>, was: bool)
    decreases |ls|
  {
    if ls == [] || !Enabled(s, ls[0]) || Step(s, ls[0]).None? then was
    else OwedAfter(slot, Step(s, ls[0]).value, ls[1..], Owed(slot, ls[0], FiredBy(s, ls[0]), was))
  }

  lemma {:induction false} RunOwes(s: State, ls: seq<Label>, t: State, slot: Slot)
    requires Inv(s) && Run(s, ls, t)
    ensures slot in t.handles <==> OwedAfter(slot, s, ls, slot in s.handles)
    decreases |ls|
  {
    if ls != [] {
      StepInv(s, ls[0]);
      StepOwes(s, ls[0], slot);
      RunOwes(Step(s, ls[0]).value, ls[1..], t, slot);
    }
  }

  /** In every run an event is pending for a pointer if and only if the steps of the run owe it one. */
  lemma PendingExactly(ls: seq<Label>, t: State, slot: Slot)
    requires Run(START, ls, t)
    ensures OwedAfter(slot, START, ls, false) <==> exists r :: 0 <= r < |t.records| && t.records[r] == Pending(slot)
  {
    RunInv(START, ls, t);
    RunOwes(START, ls, t, slot);
    if slot in t.handles {
      assert t.records[t.handles[slot]] == Pending(slot);
    }
  }

  // ------------------------------------------------------- no resend is forgotten

  /** Nothing in the run is about the call's resend event. */
  predicate LeavesResend(s: State, ls: seq<Label>, c: nat)
    decreases |ls|
  {
    ls == [] || !Enabled(s, ls[0]) || Step(s, ls[0]).None? ||
    (&& !Resets(ls[0], FiredBy(s, ls[0]), c) && ls[0] != DoClearTransmitQueue(c)
     && !Starts(ls[0], FiredBy(s, ls[0]), c) && FiredBy(s, ls[0]) != Some(Resend(c))
     && LeavesResend(Step(s, ls[0]).value, ls[1..], c))
  }

  lemma {:induction false} ResendStays(s: State, ls: seq<Label>, t: State, c: nat)
    requires Inv(s) && Run(s, ls, t) && LeavesResend(s, ls, c) && Resend(c) in s.handles
    ensures Resend(c) in t.handles
    decreases |ls|
  {
    if ls != [] {
      StepInv(s, ls[0]);
      StepOwes(s, ls[0], Resend(c));
      ResendStays(Step(s, ls[0]).value, ls[1..], t, c);
    }
  }

  /**
   * In every run, once rxi_Start has left packets that may have to be sent again, the resend event is
   * pending until it fires, the transmit queue is cleared, the call is reset or rxi_Start runs again.
   */
  lemma ResendNotForgotten(before: seq<Label>, s: State, c: nat, k: Course, ls: seq<Label>, t: State)
    requires Run(START, before, s) && c in s.calls && k.busy && k.needed
    requires Step(s, DoStart(c, k)).Some? && Run(Step(s, DoStart(c, k)).value, ls, t)
    requires LeavesResend(Step(s, DoStart(c, k)).value, ls, c)
    ensures exists r :: 0 <= r < |t.records| && t.records[r] == Pending(Resend(c))
  {
    RunInv(START, before, s);
    StepInv(s, DoStart(c, k));
    StepOwes(s, DoStart(c, k), Resend(c));
    var u := Step(s, DoStart(c, k)).value;
    RunInv(u, ls, t);
    ResendStays(u, ls, t, c);
    assert t.records[t.handles[Resend(c)]] == Pending(Resend(c));
  }

  // ---------------------------------------------------------------- records

  /** A post takes the record that is offered if it is free or just made so, or else a new one. */
  predicate Anew(s: State, t: State, slot: Slot, r: nat, freed: set<Slot>) {
    && slot in t.handles
    && t.handles[slot] ==
       if r < |s.records| && (s.records[r] == Free || (s.records[r].Pending? && s.records[r].owner in freed)) then r
       else |s.records|
  }

  lemma RepostedAnew(s: State, slot: Slot, r: nat)
    requires Inv(s)
    ensures Repost(s, slot, r).Some? && Anew(s, Repost(s, slot, r).value, slot, r, {slot})
  {
    CancelKeeps(s, slot);
  }

  /** A delayed acknowledgement that is set again is posted anew. */
  lemma DelayAckAnew(s: State, c: nat, r: nat)
    requires Inv(s) && Enabled(s, DoDelayAck(c, r))
    ensures var t := Step(s, DoDelayAck(c, r)); t.Some? && Anew(s, t.value, DelayedAck(c), r, {DelayedAck(c)})
  {
    RepostedAnew(s, DelayedAck(c), r);
  }

  /** So is a challenge. */
  lemma ChallengeAnew(s: State, n: nat, r: nat)
    requires Inv(s) && Enabled(s, DoChallengeAgain(n, r))
    ensures var t := Step(s, DoChallengeAgain(n, r)); t.Some? && Anew(s, t.value, Challenge(n), r, {Challenge(n)})
  {
    RepostedAnew(s, Challenge(n), r);
  }

  /** And so is a resend that is needed and was not there, or not soon enough. */
  lemma StartAnew(s: State, c: nat, k: Course)
    requires Inv(s) && c in s.calls && k.needed && !(Resend(c) in s.handles && k.sooner)
    ensures var t := Start(s, c, k.sends, k.sooner, k.needed, k.r);
            t.Some? && Anew(s, t.value, Resend(c), k.r, {Resend(c)} + if k.sends then {DelayedAck(c)} else {})
  {
    CancelKeeps(s, DelayedAck(c));
    var t := if k.sends then Cancel(s, DelayedAck(c)).value else s;
    CancelKeeps(t, Resend(c));
    Frees(s, DelayedAck(c));
    Frees(t, Resend(c));
  }

  lemma Frees(s: State, slot: Slot)
    requires Inv(s)
    ensures Cancel(s, slot).Some? && |Cancel(s, slot).value.records| == |s.records|
    ensures forall r :: 0 <= r < |s.records| ==>
              Cancel(s, slot).value.records[r] == if s.records[r] == Pending(slot) then Free else s.records[r]
  {
  }

  /** No record is in the hands of a handler but those that were. */
  predicate NoneTaken(s: State, t: Option<State>) {
    t.Some? ==> forall r :: 0 <= r < |t.value.records| && t.value.records[r].Firing? ==>
      r < |s.records| && s.records[r].Firing?
  }

  lemma ResetTakesNone(s: State, c: nat)
    ensures NoneTaken(s, Reset(s, c)) && NoneTaken(s, FreeCall(s, c))
  {
  }

  lemma StartTakesNone(s: State, c: nat, k: Course)
    ensures NoneTaken(s, Start(s, c, k.sends, k.sooner, k.needed, k.r))
  {
  }

  lemma {:induction false} ResetAllTakesNone(s: State, cs: seq<nat>)
    ensures NoneTaken(s, ResetAll(s, cs))
    decreases |cs|
  {
    if cs != [] && Reset(s, cs[0]).Some? {
      ResetTakesNone(s, cs[0]);
      ResetAllTakesNone(Reset(s, cs[0]).value, cs[1..]);
    }
  }

  lemma KeepAliveTakesNone(s: State, r: nat, c: nat, k: Course)
    ensures NoneTaken(s, Handler(s, r, KeepAlive(c), k))
  {
    ResetTakesNone(s.(handles := s.handles - {KeepAlive(c)}), c);
  }

  lemma ChallengeTakesNone(s: State, n: nat, k: Course)
    ensures NoneTaken(s, Challenged(s, n, k))
  {
  }

  lemma HandlerTakesNone(s: State, r: nat, owner: Slot, k: Course)
    ensures NoneTaken(s, Handler(s, r, owner, k))
  {
    match owner
    case Resend(c) => StartTakesNone(s.(handles := s.handles - {owner}), c, k); StartTakesNone(s, c, k);
    case DelayedAck(c) =>
    case KeepAlive(c) => KeepAliveTakesNone(s, r, c, k);
    case Challenge(n) => ChallengeTakesNone(s, n, k);
  }

  lemma StepTakesNone(s: State, l: Label)
    requires Enabled(s, l) && !l.DoFire?
    ensures NoneTaken(s, Step(s, l))
  {
    match l
    case DoStart(c, k) => StartTakesNone(s, c, k);
    case DoReset(c) => ResetTakesNone(s, c);
    case DoFreeCall(c) => ResetTakesNone(s, c);
    case DoConnectionError(n, cs) =>
      if Cancel(s, Challenge(n)).Some? { ResetAllTakesNone(Cancel(s, Challenge(n)).value, cs); }
    case _ =>
  }

  lemma FireGivesBack(s: State, r: nat, k: Course)
    requires Inv(s) && r < |s.records| && s.records[r].Pending? && NoneFiring(s)
    ensures Fire(s, r, k).Some? && NoneFiring(Fire(s, r, k).value)
  {
    EntersHandler(s, r);
    HandlerInv(s.(records := s.records[r := Firing]), r, s.records[r].owner, k);
    HandlerTakesNone(s.(records := s.records[r := Firing]), r, s.records[r].owner, k);
  }

  predicate NoneFiring(s: State) {
    forall r :: 0 <= r < |s.records| ==> !s.records[r].Firing?
  }

  lemma {:induction false} RunGivesBack(s: State, ls: seq<Label>, t: State)
    requires Inv(s) && Run(s, ls, t) && NoneFiring(s)
    ensures NoneFiring(t)
    decreases |ls|
  {
    if ls != [] {
      StepInv(s, ls[0]);
      if ls[0].DoFire? {
        FireGivesBack(s, ls[0].event, ls[0].course);
      } else {
        StepTakesNone(s, ls[0]);
      }
      RunGivesBack(Step(s, ls[0]).value, ls[1..], t);
    }
  }

  /** In every run each record is free or pending between the steps: the handler's record goes back. */
  lemma NoRecordLost(ls: seq<Label>, t: State)
    requires Run(START, ls, t)
    ensures forall r :: 0 <= r < |t.records| ==> t.records[r].Free? || t.records[r].Pending?
  {
    RunGivesBack(START, ls, t);
  }
}
