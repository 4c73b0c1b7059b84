/**
 * Who gets the lock: when an obtain is granted at once, when a retry is, and whom a release wakes,
 * told of the threads alone, in every state of every run of at most 256 threads.
 */
module LwpPreference {
  import opened LwpLock

  predicate ReaderSleeps(ts: seq<Thread>) {
    Asleep(Read) in ts
  }

  predicate ExclusiveSleeps(ts: seq<Thread>) {
    Asleep(Write) in ts || Asleep(Shared) in ts || Asleep(Boosted) in ts
  }

  predicate ExclusiveHeld(ts: seq<Thread>) {
    HoldsWrite in ts || HoldsShared in ts || Asleep(Boosted) in ts || Woken(Boosted) in ts
  }

  /** When a thread that asks may have the lock; a newcomer yields to sleepers as well, but for a writer. */
  predicate MayEnter(ts: seq<Thread>, how: How, newcomer: bool) {
    match how
    case Read => HoldsWrite !in ts && (newcomer ==> !ReaderSleeps(ts) && !ExclusiveSleeps(ts))
    case Write => !ExclusiveHeld(ts) && HoldsRead !in ts
    case Shared => !ExclusiveHeld(ts) && (newcomer ==> !ReaderSleeps(ts) && !ExclusiveSleeps(ts))
    case Boosted => HoldsRead !in ts
  }

  /** All threads but t are as they were, except that the sleepers of a kind are woken. */
  predicate WakesOnly(ts: seq<Thread>, us: seq<Thread>, t: nat, readers: bool, exclusives: bool) {
    && |us| == |ts|
    && forall i :: 0 <= i < |ts| && i != t ==>
         us[i] == if ts[i].Asleep? && (if ts[i].how == Read then readers else exclusives) then Woken(ts[i].how) else ts[i]
  }

  lemma Present(ts: seq<Thread>, x: Thread)
    ensures x in ts <==> 0 < multiset(ts)[x]
  {
    assert x in ts <==> x in multiset(ts);
  }

  /** The bits and counts of a lock tell what the threads are. */
  lemma LockTells(s: State)
    requires Inv(s)
    ensures s.lock.waitR <==> ReaderSleeps(s.threads)
    ensures s.lock.waitW || s.lock.waitS <==> ExclusiveSleeps(s.threads)
    ensures s.lock.excl == WriteLocked <==> HoldsWrite in s.threads
    ensures s.lock.excl == Unlocked <==> !ExclusiveHeld(s.threads)
    ensures s.lock.readers == Low(multiset(s.threads)[HoldsRead])
  {
    Present(s.threads, Asleep(Read));
    Present(s.threads, Asleep(Write));
    Present(s.threads, Asleep(Shared));
    Present(s.threads, Asleep(Boosted));
    Present(s.threads, Woken(Boosted));
    Present(s.threads, HoldsWrite);
    Present(s.threads, HoldsShared);
  }

  lemma {:induction false} SignalledAt(ts: seq<Thread>, readers: bool, i: nat)
    requires i < |ts|
    ensures Signalled(ts, readers)[i] ==
            if ts[i].Asleep? && (ts[i].how == Read) == readers then Woken(ts[i].how) else ts[i]
    decreases |ts|
  {
    if i < |ts| - 1 {
      SignalledAt(ts[..|ts| - 1], readers, i);
    }
  }

  lemma SignalledOnly(ts: seq<Thread>, t: nat, x: Thread, readers: bool)
    requires t < |ts| && !x.Asleep?
    ensures WakesOnly(ts, Signalled(ts[t := x], readers), t, readers, !readers)
    ensures Signalled(ts[t := x], readers)[t] == x
  {
    var us := ts[t := x];
    forall i | 0 <= i < |us|
      ensures Signalled(us, readers)[i] ==
              if us[i].Asleep? && (us[i].how == Read) == readers then Woken(us[i].how) else us[i]
    {
      SignalledAt(us, readers, i);
    }
  }

  lemma InvOf(n: nat, ls: seq<Label>, s: State)
    requires n <= 256 && Run(Init(n), ls, s)
    ensures Inv(s)
  {
    AllFree(n);
    RunInv(Init(n), ls, s);
  }

  /** In every run an obtain is granted at once if and only if the others allow it; if not, the thread sleeps. */
  lemma ObtainedExactly(n: nat, ls: seq<Label>, s: State, t: nat, how: How)
    requires n <= 256 && Run(Init(n), ls, s) && Enabled(s, DoObtain(t, how))
    ensures var u := Step(s, DoObtain(t, how));
            u.threads == s.threads[t := if MayEnter(s.threads, how, true) then Holding(how) else Asleep(how)]
  {
    InvOf(n, ls, s);
    LockTells(s);
    AtMost256Readers(s, t);
    Present(s.threads, HoldsRead);
  }

  /** In every run a woken thread gets the lock if and only if the holders allow it; if not, it sleeps again. */
  lemma RetriedExactly(n: nat, ls: seq<Label>, s: State, t: nat)
    requires n <= 256 && Run(Init(n), ls, s) && Enabled(s, DoRetry(t))
    ensures var u, how := Step(s, DoRetry(t)), s.threads[t].how;
            u.threads == s.threads[t := if MayEnter(s.threads, how, false) then Holding(how) else Asleep(how)]
  {
    InvOf(n, ls, s);
    LockTells(s);
    AtMost256Readers(s, t);
    Present(s.threads, HoldsRead);
  }

  /**
   * In every run a write or shared lock that is given up, or a write lock that becomes shared, wakes
   * all sleeping readers and no one else if there are any, and otherwise all other sleepers.
   */
  lemma ExclusivePrefersReaders(n: nat, ls: seq<Label>, s: State, l: Label)
    requires n <= 256 && Run(Init(n), ls, s) && Enabled(s, l)
    requires l.DoUnboost? || (l.DoRelease? && s.threads[l.t] != HoldsRead)
    ensures var u := Step(s, l);
            && WakesOnly(s.threads, u.threads, l.t, ReaderSleeps(s.threads), !ReaderSleeps(s.threads))
            && u.threads[l.t] == if l.DoUnboost? then HoldsShared else Free
  {
    InvOf(n, ls, s);
    LockTells(s);
    var x := if l.DoUnboost? then HoldsShared else Free;
    SignalledOnly(s.threads, l.t, x, true);
    SignalledOnly(s.threads, l.t, x, false);
    NobodyAsleep(s.threads);
  }

  lemma NobodyAsleep(ts: seq<Thread>)
    ensures !ReaderSleeps(ts) && !ExclusiveSleeps(ts) ==> forall i :: 0 <= i < |ts| ==> !ts[i].Asleep?
    ensures !ReaderSleeps(ts) ==> forall i :: 0 <= i < |ts| ==> ts[i] != Asleep(Read)
  {
    forall i | 0 <= i < |ts| && ts[i].Asleep?
      ensures ReaderSleeps(ts) || ExclusiveSleeps(ts)
    {
      assert ts[i] == Asleep(ts[i].how) && ts[i] in ts;
      match ts[i].how case Read => case Write => case Shared => case Boosted =>
    }
  }

  /**
   * In every run the last reader to leave wakes all sleepers that want the lock for themselves and no
   * reader if there are any, and otherwise the readers; a reader that leaves others behind wakes nobody.
   */
  lemma ReadersPreferExclusive(n: nat, ls: seq<Label>, s: State, t: nat)
    requires n <= 256 && Run(Init(n), ls, s) && Enabled(s, DoRelease(t)) && s.threads[t] == HoldsRead
    ensures var u, last := Step(s, DoRelease(t)), HoldsRead !in s.threads[t := Free];
            && WakesOnly(s.threads, u.threads, t, last && !ExclusiveSleeps(s.threads), last && ExclusiveSleeps(s.threads))
            && u.threads[t] == Free
  {
    InvOf(n, ls, s);
    LockTells(s);
    Replaced(s.threads, t, Free);
    Present(s.threads[t := Free], HoldsRead);
    SignalledOnly(s.threads, t, Free, true);
    SignalledOnly(s.threads, t, Free, false);
    NobodyAsleep(s.threads);
    TwoKinds(s.threads, HoldsRead, Free);
  }
}
