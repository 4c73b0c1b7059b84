/**
 * The lock operations of lwp/lock.c and the Real macros of lwp/lock.h as they change a lock
 * in place.  Lock_Obtain is cut at its sleep: Obtain runs up to the first LWP_WaitProcess
 * and Resume from there to the next one or to the end.
 */
module LwpLockOps {
  import opened LwpLock

  class LockOps {
    var waitR: bool
    var waitW: bool
    var waitS: bool
    var excl: Excl
    var readers: nat
    var numWaiting: nat
    const threads: array<Thread>

    ghost function View(): State
      reads this, threads
    {
      State(Lock(waitR, waitW, waitS, excl, readers, numWaiting), threads[..])
    }

    constructor (n: nat)
      ensures View() == Init(n) && fresh(threads)
    {
      waitR, waitW, waitS := false, false, false;
      excl, readers, numWaiting := Unlocked, 0, 0;
      var ts := new Thread[n](_ => Free);
      threads := ts;
    }

    /** Before the first test: the macro's own condition. */
    method WillBlock(how: How) returns (b: bool)
      ensures b == BlocksAtOnce(View().lock, how)
    {
      match how
      case Read => b := excl == WriteLocked || waitR || waitW || waitS;
      case Write => b := excl != Unlocked || readers != 0;
      case Shared => b := excl != Unlocked || waitR || waitW || waitS;
      case Boosted => b := readers != 0;
    }

    method Take(t: nat, how: How)
      requires t < threads.Length
      modifies this, threads
      ensures View() == State(Taken(old(View().lock), how), old(threads[..])[t := Holding(how)])
    {
      match how {
        case Read => readers := if readers == 255 then 0 else readers + 1;
        case Write => excl := WriteLocked;
        case Shared => excl := SharedLocked;
        case Boosted => excl := WriteLocked;
      }
      threads[t] := Holding(how);
    }

    method WaitProcess(t: nat, how: How)
      requires t < threads.Length
      modifies this, threads
      ensures View() == State(Marked(old(View().lock), how), old(threads[..])[t := Asleep(how)])
    {
      match how {
        case Read => waitR := true;
        case Write => waitW := true;
        case Shared => waitS := true;
        case Boosted => waitW := true;
      }
      threads[t] := Asleep(how);
    }

    method ObtainLock(t: nat, how: How)
      requires t < threads.Length && threads[t] == Before(how)
      modifies this, threads
      ensures View() == Step(old(View()), DoObtain(t, how))
      ensures old(Inv(View())) ==> Inv(View())
    {
      if Inv(View()) { StepInv(View(), DoObtain(t, how)); }
      var b := WillBlock(how);
      if b {
        numWaiting := if numWaiting == 255 then 0 else numWaiting + 1;
        WaitProcess(t, how);
      } else {
        Take(t, how);
      }
    }

    method Resume(t: nat)
      requires t < threads.Length && threads[t].Woken?
      modifies this, threads
      ensures View() == Step(old(View()), DoRetry(t))
      ensures old(Inv(View())) ==> Inv(View())
    {
      if Inv(View()) { StepInv(View(), DoRetry(t)); }
      var how := threads[t].how;
      var again := match how
        case Read => excl == WriteLocked
        case Write => excl != Unlocked || readers != 0
        case Shared => excl != Unlocked
        case Boosted => readers != 0;
      if again {
        WaitProcess(t, how);
      } else {
        numWaiting := if numWaiting == 0 then 255 else numWaiting - 1;
        Take(t, how);
      }
    }

    /** LWP_NoYieldSignal over the sleepers on one of the two addresses. */
    method Signal(onReaders: bool)
      modifies threads
      ensures threads[..] == Signalled(old(threads[..]), onReaders)
    {
      var i := 0;
      while i < threads.Length
        invariant i <= threads.Length
        invariant threads[..i] == Signalled(old(threads[..])[..i], onReaders)
        invariant forall j :: i <= j < threads.Length ==> threads[j] == old(threads[j])
      {
        ghost var was := old(threads[..]);
        if threads[i].Asleep? && (threads[i].how.Read? == onReaders) {
          threads[i] := Woken(threads[i].how);
        }
        assert was[..i + 1][..i] == was[..i];
        i := i + 1;
      }
      assert threads[..i] == threads[..] && old(threads[..])[..i] == old(threads[..]);
    }

    method LockReleaseR()
      modifies this, threads
      ensures View() == ReleaseR(old(View()))
    {
      if waitR {
        waitR := false;
        Signal(true);
      } else {
        waitW, waitS := false, false;
        Signal(false);
      }
    }

    method LockReleaseW()
      modifies this, threads
      ensures View() == ReleaseW(old(View()))
    {
      if waitW || waitS {
        waitW, waitS := false, false;
        Signal(false);
      } else {
        waitR := false;
        Signal(true);
      }
    }

    method ReleaseReadLock(t: nat)
      requires t < threads.Length && threads[t] == HoldsRead
      modifies this, threads
      ensures View() == Step(old(View()), DoRelease(t))
      ensures old(Inv(View())) ==> Inv(View())
    {
      if Inv(View()) { StepInv(View(), DoRelease(t)); }
      threads[t] := Free;
      readers := if readers == 0 then 255 else readers - 1;
      if readers == 0 && (waitR || waitW || waitS) {
        LockReleaseW();
      }
    }

    /** RealReleaseWriteLock and RealReleaseSharedLock: either clears what a writer or sharer set. */
    method ReleaseExclusiveLock(t: nat)
      requires t < threads.Length && (threads[t] == HoldsWrite || threads[t] == HoldsShared)
      modifies this, threads
      ensures View() == Step(old(View()), DoRelease(t))
      ensures old(Inv(View())) ==> Inv(View())
    {
      if Inv(View()) { StepInv(View(), DoRelease(t)); }
      threads[t] := Free;
      excl := Unlocked;
      if waitR || waitW || waitS {
        LockReleaseR();
      }
    }

    method UnboostSharedLock(t: nat)
      requires t < threads.Length && threads[t] == HoldsWrite
      modifies this, threads
      ensures View() == Step(old(View()), DoUnboost(t))
      ensures old(Inv(View())) ==> Inv(View())
    {
      if Inv(View()) { StepInv(View(), DoUnboost(t)); }
      threads[t] := HoldsShared;
      excl := SharedLocked;
      if waitR || waitW || waitS {
        LockReleaseR();
      }
    }
  }
}
