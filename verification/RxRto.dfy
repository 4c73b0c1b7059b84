/**
 * The retransmission timeout of a peer: round trip samples are smoothed as in section 2 of
 * RFC 6298, and a dubious timeout doubles the deviation.  Times are microseconds except the
 * clock values.
 */
module RxRto {
  import opened RxBase
  import opened RxClock

  /** More than 110 seconds is taken for a clock that was set ahead. */
  const LIMIT := 111 * MILLION

  const WORD := 0x1_0000_0000

  datatype Rtt = Rtt(srtt: nat, mdev: nat)

  function Distance(a: nat, b: nat): nat {
    if a <= b then b - a else a - b
  }

  /** A first sample stands for itself; a later one moves the estimate by an eighth, the deviation by a quarter. */
  function Smoothed(p: Rtt, rtt: nat): Rtt {
    if p.srtt == 0 then Rtt(rtt, Max(rtt / 2, 1000))
    else Rtt((p.srtt * 7 + rtt) / 8, (p.mdev * 3 + Distance(rtt, p.srtt)) / 4)
  }

  function Doubled(p: Rtt): Rtt {
    if p.mdev >= p.srtt then p else p.(mdev := Min(2 * p.mdev, p.srtt))
  }

  function Timeout(p: Rtt): nat {
    p.srtt + 4 * p.mdev + 100000
  }

  // ----------------------------------------------------------------- in place

  /** The estimator's fields of a peer, and the greatest round trip of the statistics. */
  class Peer {
    var srtt: nat
    var mdev: nat
    var timeout: Clock
    var maxRtt: Clock

    ghost function View(): Rtt
      reads this
    {
      Rtt(srtt, mdev)
    }

    ghost predicate Valid()
      reads this
    {
      Bounded(View()) && maxRtt.Normal() && 0 <= maxRtt.sec <= 110
    }

    method UpdateTimeout()
      requires Bounded(View())
      modifies `timeout
      ensures timeout.Normal() && timeout.Micros() == Timeout(View())
    {
      var t := srtt + 4 * mdev;
      t := t + 100 * 1000;
      if t < 1000 {
        t := 1000;
      }
      assert t < WORD;
      timeout := Clock(t / MILLION, t % MILLION);
    }

    method DubiousTimeout()
      requires Valid()
      modifies this
      ensures Valid() && View() == Doubled(old(View())) && maxRtt == old(maxRtt)
      ensures old(mdev < srtt) ==> timeout.Normal() && timeout.Micros() == Timeout(View())
    {
      if mdev >= srtt { return; }
      mdev := mdev * 2;
      if mdev > srtt {
        mdev := srtt;
      }
      UpdateTimeout();
    }

    /** rxi_ComputeRoundTripTime for a packet sent at one clock time and acknowledged at another. */
    method ComputeRoundTripTime(now: Clock, sent: Clock) returns (taken: bool)
      requires Valid() && now.Normal() && sent.Normal()
      modifies this
      ensures Valid()
      ensures var rtt := now.Micros() - sent.Micros();
              && taken == (0 <= rtt && (rtt < LIMIT || rtt <= old(maxRtt.Micros())))
              && (taken ==> rtt < LIMIT && View() == Smoothed(old(View()), rtt) &&
                            timeout.Normal() && timeout.Micros() == Timeout(View()))
              && (!taken ==> View() == old(View()) && timeout == old(timeout))
    {
      Ordered(now, sent);
      if now.Lt(sent) { return false; }
      var r := Sub(now, sent);
      Ordered(maxRtt, r);
      if maxRtt.Lt(r) {
        if r.sec > 110 { return false; }
        maxRtt := r;
      }
      taken := true;
      var rtt := r.usec + r.sec * MILLION;
      SmoothedBounded(View(), rtt);
      if srtt != 0 {
        assert srtt * 7 + rtt < WORD && mdev * 3 + Distance(rtt, srtt) < WORD;
        var error := if rtt >= srtt then rtt - srtt else srtt - rtt;
        srtt := (srtt * 7 + rtt) / 8;
        mdev := (mdev * 3 + error) / 4;
      } else {
        srtt := rtt;
        mdev := srtt / 2;
        if mdev < 1000 {
          mdev := 1000;
        }
      }
      UpdateTimeout();
    }
  }

  // ------------------------------------------------------------------- bounds

  predicate Bounded(p: Rtt) {
    p.srtt < LIMIT && p.mdev < LIMIT
  }

  lemma SmoothedBounded(p: Rtt, rtt: nat)
    requires Bounded(p) && rtt < LIMIT
    ensures Bounded(Smoothed(p, rtt))
  {
  }

  /** A sample that was accepted, or a dubious timeout. */
  datatype Label = Sample(rtt: nat) | Dubious

  function After(p: Rtt, ls: seq<Label>): Rtt
    decreases |ls|
  {
    if ls == [] then p
    else After(if ls[0].Sample? then Smoothed(p, ls[0].rtt) else Doubled(p), ls[1..])
  }

  /** After any samples and dubious timeouts the timeout lies between 100 ms and 555.1 s. */
  lemma {:induction false} TimeoutBounded(p: Rtt, ls: seq<Label>)
    requires Bounded(p) && forall i :: 0 <= i < |ls| && ls[i].Sample? ==> ls[i].rtt < LIMIT
    ensures Bounded(After(p, ls)) && 100000 <= Timeout(After(p, ls)) < 555100000
    decreases |ls|
  {
    if ls != [] {
      TimeoutBounded(if ls[0].Sample? then Smoothed(p, ls[0].rtt) else Doubled(p), ls[1..]);
    }
  }

  // ---------------------------------------------------------------- smoothing

  /** The estimate moves towards the sample, never past it. */
  lemma TowardsSample(p: Rtt, rtt: nat)
    requires 0 < p.srtt
    ensures Min(p.srtt, rtt) <= Smoothed(p, rtt).srtt <= Max(p.srtt, rtt)
    ensures Min(p.mdev, Distance(rtt, p.srtt)) <= Smoothed(p, rtt).mdev <= Max(p.mdev, Distance(rtt, p.srtt))
  {
  }

  /** It rests exactly while the sample is at most seven microseconds above it. */
  lemma RestsExactly(p: Rtt, rtt: nat)
    requires 0 < p.srtt
    ensures Smoothed(p, rtt).srtt == p.srtt <==> p.srtt <= rtt <= p.srtt + 7
  {
  }

  /** The deviation rests exactly while the error is at most three microseconds above it. */
  lemma DeviationRestsExactly(p: Rtt, rtt: nat)
    requires 0 < p.srtt
    ensures Smoothed(p, rtt).mdev == p.mdev <==> p.mdev <= Distance(rtt, p.srtt) <= p.mdev + 3
  {
  }

  /** The first sample makes the timeout three round trips and a tenth of a second, or a little more for a short one. */
  lemma FirstTimeout(mdev: nat, rtt: nat)
    ensures Smoothed(Rtt(0, mdev), rtt).srtt == rtt
    ensures Timeout(Smoothed(Rtt(0, mdev), rtt)) == if rtt < 2000 then rtt + 104000 else 3 * rtt - 2 * (rtt % 2) + 100000
  {
  }

  function Repeated(p: Rtt, rtt: nat, n: nat): Rtt
    decreases n
  {
    if n == 0 then p else Repeated(Smoothed(p, rtt), rtt, n - 1)
  }

  /** The same round trip again and again brings the estimate to within eight microseconds of it. */
  lemma {:induction false} Converges(p: Rtt, rtt: nat) returns (n: nat)
    requires 0 < p.srtt && 0 < rtt
    ensures forall m :: n <= m ==> Repeated(p, rtt, m).srtt <= rtt <= Repeated(p, rtt, m).srtt + 7
    decreases Distance(p.srtt, rtt)
  {
    RestsExactly(p, rtt);
    TowardsSample(p, rtt);
    if p.srtt <= rtt <= p.srtt + 7 {
      n := 0;
      forall m | n <= m ensures Repeated(p, rtt, m).srtt <= rtt <= Repeated(p, rtt, m).srtt + 7 {
        Stays(p, rtt, m);
      }
    } else {
      n := Converges(Smoothed(p, rtt), rtt);
      n := n + 1;
      forall m | n <= m ensures Repeated(p, rtt, m).srtt <= rtt <= Repeated(p, rtt, m).srtt + 7 {
        assert Repeated(p, rtt, m) == Repeated(Smoothed(p, rtt), rtt, m - 1);
      }
    }
  }

  lemma {:induction false} Stays(p: Rtt, rtt: nat, m: nat)
    requires 0 < p.srtt <= rtt <= p.srtt + 7
    ensures Repeated(p, rtt, m).srtt == p.srtt
    decreases m
  {
    if m != 0 {
      Stays(Smoothed(p, rtt), rtt, m - 1);
    }
  }

  /** A dubious timeout never shortens the timeout, and keeps it within five round trips beside the margin. */
  lemma DoubledTimeout(p: Rtt)
    ensures Timeout(p) <= Timeout(Doubled(p))
    ensures p.mdev <= p.srtt ==> Timeout(Doubled(p)) <= 5 * p.srtt + 100000
    ensures Doubled(p) == p <==> p.mdev == 0 || p.srtt <= p.mdev
  {
  }

  /** By four times what the deviation gains, which is its own size or what the round trip leaves. */
  lemma DoubledGain(p: Rtt)
    requires p.mdev < p.srtt
    ensures Timeout(Doubled(p)) == Timeout(p) + 4 * Min(p.mdev, p.srtt - p.mdev)
  {
  }

  // ----------------------------------------------------------- it settles

  lemma {:induction false} RepeatedTwice(p: Rtt, rtt: nat, a: nat, b: nat)
    ensures Repeated(p, rtt, a + b) == Repeated(Repeated(p, rtt, a), rtt, b)
    decreases a
  {
    if a != 0 {
      RepeatedTwice(Smoothed(p, rtt), rtt, a - 1, b);
    }
  }

  /** The estimate and the deviation are at rest under this sample. */
  predicate Settled(p: Rtt, rtt: nat) {
    p.srtt <= rtt <= p.srtt + 7 && p.mdev <= rtt - p.srtt <= p.mdev + 3
  }

  lemma {:induction false} StaysSettled(p: Rtt, rtt: nat, m: nat)
    requires 0 < p.srtt && Settled(p, rtt)
    ensures Repeated(p, rtt, m) == p
    decreases m
  {
    if m != 0 {
      RestsExactly(p, rtt);
      DeviationRestsExactly(p, rtt);
      StaysSettled(Smoothed(p, rtt), rtt, m - 1);
    }
  }

  lemma {:induction false} DeviationSettles(p: Rtt, rtt: nat) returns (n: nat)
    requires 0 < p.srtt <= rtt <= p.srtt + 7
    ensures Repeated(p, rtt, n).srtt == p.srtt && Settled(Repeated(p, rtt, n), rtt)
    decreases Distance(p.mdev, rtt - p.srtt)
  {
    n := 0;
    if !Settled(p, rtt) {
      RestsExactly(p, rtt);
      DeviationRestsExactly(p, rtt);
      TowardsSample(p, rtt);
      n := DeviationSettles(Smoothed(p, rtt), rtt);
      n := n + 1;
    }
  }

  /** The same round trip again and again brings the timeout to within 21 microseconds of it and a tenth of a second, for good. */
  lemma TimeoutSettles(p: Rtt, rtt: nat) returns (n: nat)
    requires 0 < p.srtt && 0 < rtt
    ensures forall m :: n <= m ==> rtt + 100000 - 3 <= Timeout(Repeated(p, rtt, m)) <= rtt + 100000 + 21
  {
    var a := Converges(p, rtt);
    var q := Repeated(p, rtt, a);
    RepeatedPositive(p, rtt, a);
    var b := DeviationSettles(q, rtt);
    n := a + b;
    forall m | n <= m
      ensures rtt + 100000 - 3 <= Timeout(Repeated(p, rtt, m)) <= rtt + 100000 + 21
    {
      RepeatedTwice(p, rtt, a, b);
      RepeatedTwice(p, rtt, n, m - n);
      StaysSettled(Repeated(q, rtt, b), rtt, m - n);
    }
  }

  lemma {:induction false} RepeatedPositive(p: Rtt, rtt: nat, m: nat)
    requires 0 < p.srtt && 0 < rtt
    ensures 0 < Repeated(p, rtt, m).srtt
    decreases m
  {
    if m != 0 {
      TowardsSample(p, rtt);
      RepeatedPositive(Smoothed(p, rtt), rtt, m - 1);
    }
  }
}
