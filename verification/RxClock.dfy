/**
 * The clock of rx/rx_clock.c and the clock values of rx/rx_clock.h: seconds and
 * microseconds, and a reading that must never run backwards whatever the operating
 * system's time does.
 */
module RxClock {
  const MILLION := 1000000

  datatype Clock = Clock(sec: int, usec: int) {
    predicate Normal() {
      0 <= usec < MILLION
    }

    function Micros(): int {
      sec * MILLION + usec
    }

    predicate Lt(c: Clock) {
      sec < c.sec || (sec == c.sec && usec < c.usec)
    }

    predicate Le(c: Clock) {
      sec < c.sec || (sec == c.sec && usec <= c.usec)
    }
  }

  /** The comparison macros compare times. */
  lemma Ordered(a: Clock, b: Clock)
    requires a.Normal() && b.Normal()
    ensures a.Lt(b) <==> a.Micros() < b.Micros()
    ensures a.Le(b) <==> a.Micros() <= b.Micros()
    ensures a == b <==> a.Micros() == b.Micros()
  {
  }

  method Add(a: Clock, b: Clock) returns (c: Clock)
    requires a.Normal() && b.Normal()
    ensures c.Normal() && c.Micros() == a.Micros() + b.Micros()
  {
    c := a.(usec := a.usec + b.usec);
    if c.usec >= MILLION {
      c := Clock(c.sec + 1, c.usec - MILLION);
    }
    c := c.(sec := c.sec + b.sec);
  }

  method AddMsec(a: Clock, ms: nat) returns (c: Clock)
    requires a.Normal()
    ensures c.Normal() && c.Micros() == a.Micros() + ms * 1000
  {
    c := a.(usec := a.usec + ms * 1000);
    while c.usec >= MILLION
      invariant 0 <= c.usec && c.Micros() == a.Micros() + ms * 1000
      decreases c.usec
    {
      c := Clock(c.sec + 1, c.usec - MILLION);
    }
  }

  method Sub(a: Clock, b: Clock) returns (c: Clock)
    requires a.Normal() && b.Normal()
    ensures c.Normal() && c.Micros() == a.Micros() - b.Micros()
  {
    c := a.(usec := a.usec - b.usec);
    if c.usec < 0 {
      c := Clock(c.sec - 1, c.usec + MILLION);
    }
    c := c.(sec := c.sec - b.sec);
  }

  /** What one update makes of the reading tv, in microseconds: the new time and offset. */
  function Advance(now: int, tdiff: int, tv: int): (r: (int, int))
    ensures now < r.0
  {
    if tv - tdiff <= now then (now + 1, tv - now) else (tv - tdiff, tdiff)
  }

  class ClockState {
    var now: Clock
    var tdiff: Clock
    var haveCurrentTime: bool
    var nUpdates: nat

    ghost predicate Valid()
      reads this
    {
      now.Normal() && tdiff.Normal() && 0 <= now.Micros()
    }

    constructor Init(tv: Clock)
      requires tv.Normal()
      ensures Valid() && now.Micros() == 0 && tdiff == tv && nUpdates == 0
    {
      now, tdiff := Clock(0, 0), tv;
      haveCurrentTime, nUpdates := true, 0;
    }

    method UpdateTime(tv: Clock)
      requires Valid() && tv.Normal()
      modifies this
      ensures Valid() && haveCurrentTime && nUpdates == old(nUpdates) + 1
      ensures (now.Micros(), tdiff.Micros()) == Advance(old(now.Micros()), old(tdiff.Micros()), tv.Micros())
      ensures old(now).Lt(now)
    {
      var t := Sub(tv, tdiff);
      Ordered(t, now);
      if t.Le(now) {
        tdiff := Sub(tv, now);
        t := Sub(tv, tdiff);
        t := t.(usec := t.usec + 1);
        if t.usec >= MILLION {
          t := Clock(t.sec + 1, 0);
        }
      }
      Ordered(now, t);
      now := t;
      haveCurrentTime, nUpdates := true, nUpdates + 1;
    }

    /** clock_GetTime: reads the system's time only when clock_NewTime has been called. */
    method GetTime(tv: Clock) returns (c: Clock)
      requires Valid() && tv.Normal()
      modifies this
      ensures Valid() && c == now && haveCurrentTime
      ensures old(haveCurrentTime) ==> now == old(now) && tdiff == old(tdiff)
      ensures !old(haveCurrentTime) ==> old(now).Lt(now)
    {
      if !haveCurrentTime {
        UpdateTime(tv);
      }
      c := now;
    }
  }

  /** The times shown for a sequence of system readings. */
  function Times(now: int, tdiff: int, tvs: seq<int>): (ts: seq<int>)
    ensures |ts| == |tvs|
    decreases |tvs|
  {
    if tvs == [] then []
    else
      var (n, d) := Advance(now, tdiff, tvs[0]);
      [n] + Times(n, d, tvs[1..])
  }

  lemma {:induction false} TimesAfter(now: int, tdiff: int, tvs: seq<int>, i: nat)
    requires i < |tvs|
    ensures now < Times(now, tdiff, tvs)[i]
    decreases |tvs|
  {
    if i != 0 {
      var (n, d) := Advance(now, tdiff, tvs[0]);
      TimesAfter(n, d, tvs[1..], i - 1);
    }
  }

  /** Whatever the system's readings do, the clock strictly increases. */
  lemma {:induction false} StrictlyIncreasing(now: int, tdiff: int, tvs: seq<int>, i: nat, j: nat)
    requires i < j < |tvs|
    ensures Times(now, tdiff, tvs)[i] < Times(now, tdiff, tvs)[j]
    decreases |tvs|
  {
    var (n, d) := Advance(now, tdiff, tvs[0]);
    if i == 0 {
      TimesAfter(n, d, tvs[1..], j - 1);
    } else {
      StrictlyIncreasing(n, d, tvs[1..], i - 1, j - 1);
    }
  }

  /** From an unadjusted reading on, readings that strictly increase are shown with their true differences. */
  lemma {:induction false} KeepsPace(now: int, tdiff: int, tvs: seq<int>, i: nat)
    requires i < |tvs| && now < tvs[0] - tdiff
    requires forall k :: 0 < k < |tvs| ==> tvs[k - 1] < tvs[k]
    ensures Times(now, tdiff, tvs)[i] == tvs[i] - tdiff
    decreases |tvs|
  {
    if i != 0 {
      KeepsPace(tvs[0] - tdiff, tdiff, tvs[1..], i - 1);
    }
  }
}
