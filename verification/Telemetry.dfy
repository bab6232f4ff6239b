/** What the control loops read off the transport: windowed loss, the loss regime, and the watchdog
    that closes a stalled connection. Rates are exact reals. */
module Telemetry {
  import opened Base
  import opened Link

  function Clamped(x: real): real { if x < 0.0 then 0.0 else if x > 1.0 then 1.0 else x }

  // ---------------------------------------------------------------- windowed loss

  datatype Counters = Counters(sent: nat, lost: nat)

  function RateBetween(p: Counters, c: Counters): real {
    if Monus(c.sent, p.sent) == 0 then 0.0
    else Clamped(Monus(c.lost, p.lost) as real / Monus(c.sent, p.sent) as real)
  }

  class LossTracker {
    var prev: Option<Counters>

    constructor ()
      ensures prev == None
    {
      prev := None;
    }

    method WindowLoss(now: Counters) returns (rate: Option<real>)
      modifies this
      ensures prev == Some(now)
      ensures rate == if old(prev).None? then None else Some(RateBetween(old(prev).value, now))
    {
      match prev {
        case None => rate := None;
        case Some(p) =>
          var sent, lost := Monus(now.sent, p.sent), Monus(now.lost, p.lost);
          rate := Some(if sent == 0 then 0.0 else Clamped(lost as real / sent as real));
      }
      prev := Some(now);
    }
  }

  /** The rate of an interval is a fraction of the packets sent in it, and that fraction of them is what was
      lost, or all of them if more was; an interval without new packets has a rate of zero. */
  lemma RateIs(p: Counters, c: Counters)
    ensures var r, sent, lost := RateBetween(p, c), Monus(c.sent, p.sent), Monus(c.lost, p.lost);
      0.0 <= r <= 1.0 && (if sent == 0 then r == 0.0 else r * sent as real == Min(lost, sent) as real)
  {
    var sent, lost := Monus(c.sent, p.sent), Monus(c.lost, p.lost);
    if 0 < sent && lost <= sent {
      RateTimesSent(lost, sent);
    } else if 0 < sent {
      AtLeastOne(lost as real, sent as real);
    }
  }

  lemma AtLeastOne(a: real, b: real)
    requires a >= b > 0.0
    ensures a / b >= 1.0
  {
    var q := a / b;
    assert q * b == a;
    assert (q - 1.0) * b >= 0.0;
  }

  /** Each interval's rate by the packets it sent. */
  function LossByRates(first: Counters, rest: seq<Counters>): real
    decreases |rest|
  {
    if rest == [] then 0.0
    else
      RateBetween(first, rest[0]) * Monus(rest[0].sent, first.sent) as real + LossByRates(rest[0], rest[1..])
  }

  /** The counters only grow, and no interval loses more packets than it sent. */
  ghost predicate Counting(first: Counters, rest: seq<Counters>)
    decreases |rest|
  {
    rest != [] ==>
      && first.sent <= rest[0].sent && first.lost <= rest[0].lost
      && rest[0].lost - first.lost <= rest[0].sent - first.sent
      && Counting(rest[0], rest[1..])
  }

  /** The windowed rates lose nothing and count nothing twice: weighed by what was sent, they add up to
      the packets lost between the first sample and the last. */
  lemma {:induction false} RatesConserveLoss(first: Counters, rest: seq<Counters>)
    requires Counting(first, rest)
    ensures LossByRates(first, rest) == ((if rest == [] then first else rest[|rest| - 1]).lost - first.lost) as real
    decreases |rest|
  {
    hide RateBetween;
    if rest != [] {
      RatesConserveLoss(rest[0], rest[1..]);
      RateIs(first, rest[0]);
    }
  }

  lemma RateTimesSent(lost: nat, sent: nat)
    requires 0 < sent && lost <= sent
    ensures Clamped(lost as real / sent as real) * sent as real == lost as real
  {
    var q := lost as real / sent as real;
    assert q * sent as real == lost as real;
    assert 0.0 <= q <= 1.0;
  }

  // ---------------------------------------------------------------- loss regime

  datatype Classifier = Classifier(prevCwnd: Option<nat>, smoothedLoss: real)

  datatype Sample = Sample(cwnd: nat, loss: real)

  function Smoothed(c: Classifier, loss: real): real { c.smoothedLoss * 0.7 + Clamped(loss) * 0.3 }

  function Verdict(prev: Option<nat>, cwnd: nat, smoothed: real): LossRegime {
    if prev.Some? && cwnd < prev.value - prev.value / 8 then Congestion
    else if prev.Some? && smoothed > 0.10 && cwnd <= prev.value then Congestion
    else if smoothed < 0.005 then Quiescent
    else Random
  }

  class RegimeClassifier {
    var prevCwnd: Option<nat>
    var smoothedLoss: real

    function Value(): Classifier
      reads this
    {
      Classifier(prevCwnd, smoothedLoss)
    }

    constructor ()
      ensures Value() == Classifier(None, 0.0)
    {
      prevCwnd, smoothedLoss := None, 0.0;
    }

    method Classify(cwnd: nat, loss: real) returns (regime: LossRegime)
      modifies this
      ensures Value() == After(old(Value()), [Sample(cwnd, loss)])
      ensures [regime] == Regimes(old(Value()), [Sample(cwnd, loss)])
    {
      smoothedLoss := smoothedLoss * 0.7 + Clamped(loss) * 0.3;
      match prevCwnd {
        case Some(prev) =>
          if cwnd < prev - prev / 8 {
            regime := Congestion;
          } else if smoothedLoss > 0.10 && cwnd <= prev {
            regime := Congestion;
          } else if smoothedLoss < 0.005 {
            regime := Quiescent;
          } else {
            regime := Random;
          }
        case None =>
          regime := if smoothedLoss < 0.005 then Quiescent else Random;
      }
      prevCwnd := Some(cwnd);
    }
  }

  /** The classifier's state after a run of samples. */
  function After(c: Classifier, samples: seq<Sample>): Classifier
    decreases |samples|
  {
    if samples == [] then c
    else After(Classifier(Some(samples[0].cwnd), Smoothed(c, samples[0].loss)), samples[1..])
  }

  /** The verdict on each sample of a run. */
  function Regimes(c: Classifier, samples: seq<Sample>): (r: seq<LossRegime>)
    ensures |r| == |samples|
    decreases |samples|
  {
    if samples == [] then []
    else
      var s := Smoothed(c, samples[0].loss);
      [Verdict(c.prevCwnd, samples[0].cwnd, s)]
        + Regimes(Classifier(Some(samples[0].cwnd), s), samples[1..])
  }

  /** The window never grows over the run, nor over what was last seen. */
  ghost predicate NeverGrows(prev: Option<nat>, samples: seq<Sample>)
    decreases |samples|
  {
    samples != [] ==>
      (prev.Some? ==> samples[0].cwnd <= prev.value) && NeverGrows(Some(samples[0].cwnd), samples[1..])
  }

  /** What is left of a distance after `k` samples smoothed at 0.7. */
  function Residue(start: real, k: nat): real {
    if k == 0 then start else 0.7 * Residue(start, k - 1)
  }

  lemma {:induction false} ResidueShrinks(start: real, j: nat, k: nat)
    requires start >= 0.0 && j <= k
    ensures 0.0 <= Residue(start, k) <= Residue(start, j)
    decreases k
  {
    if j < k {
      ResidueShrinks(start, j, k - 1);
    } else if k > 0 {
      ResidueShrinks(start, k - 1, k - 1);
    }
  }

  predicate Within(r: real, x: real, start: real) { r * (7.0 + 3.0 * x) <= 7.0 * start }

  /** 0.7^k is at most 7 / (7 + 3k). */
  lemma {:induction false} ResidueBound(start: real, k: nat)
    requires start >= 0.0
    ensures Within(Residue(start, k), k as real, start)
  {
    if k == 0 {
      assert Within(start, 0.0, start);
    } else {
      hide Within;
      ResidueBound(start, k - 1);
      ResidueShrinks(start, 0, k - 1);
      BoundStep(Residue(start, k - 1), (k - 1) as real, start);
    }
  }

  lemma BoundStep(r: real, x: real, start: real)
    requires r >= 0.0 && x >= 0.0 && Within(r, x, start)
    ensures Within(0.7 * r, x + 1.0, start)
  {
    var y := r * x;
    assert y >= 0.0;
    assert r * (7.0 + 3.0 * x) == 7.0 * r + 3.0 * y;
    assert 0.7 * r * (7.0 + 3.0 * (x + 1.0)) == 7.0 * r + 2.1 * y;
  }

  /** Enough samples for loss `margin` above ten percent to show through the smoothing. */
  predicate Enough(margin: real, k: nat) { Residue(0.10 + margin, k) < margin }

  /** The margin times the number of samples need only pass 7/30. */
  predicate Shows(margin: real, samples: real) { 30.0 * (margin * samples) > 7.0 }

  lemma EnoughWhen(margin: real, k: nat)
    requires margin > 0.0 && Shows(margin, k as real)
    ensures Enough(margin, k)
  {
    hide Residue; hide Within; hide Shows;
    ResidueBound(0.10 + margin, k);
    if Residue(0.10 + margin, k) >= margin {
      ResidueTooWide(Residue(0.10 + margin, k), margin, k as real);
    }
  }

  lemma ResidueTooWide(r: real, margin: real, x: real)
    requires r >= margin > 0.0 && x >= 0.0 && Within(r, x, 0.10 + margin)
    ensures !Shows(margin, x)
  {
    Wider(r, margin, x);
  }

  lemma Wider(r: real, margin: real, x: real)
    requires r >= margin && x >= 0.0
    ensures r * (7.0 + 3.0 * x) >= 7.0 * margin + 3.0 * (margin * x)
  {
    var n := 7.0 + 3.0 * x;
    assert r * n >= margin * n;
  }

  /** Loss that stays above ten percent by any margin, on a window that does not grow, is called
      congestion by every sample from a bounded one on, whatever the classifier saw before. */
  lemma {:induction false} SustainedLoss(c: Classifier, samples: seq<Sample>, margin: real, k: nat)
    requires margin > 0.0 && NeverGrows(c.prevCwnd, samples)
    requires forall s :: s in samples ==> Clamped(s.loss) >= 0.10 + margin
    requires 0.10 + margin - c.smoothedLoss <= Residue(0.10 + margin, k)
    ensures forall i :: 0 <= i < |samples| && (i > 0 || c.prevCwnd.Some?) && Enough(margin, k + i + 1) ==>
      Regimes(c, samples)[i] == Congestion
    decreases |samples|
  {
    if samples != [] {
      var s := Smoothed(c, samples[0].loss);
      var c' := Classifier(Some(samples[0].cwnd), s);
      assert 0.10 + margin - s <= Residue(0.10 + margin, k + 1);
      hide Residue;
      SustainedLoss(c', samples[1..], margin, k + 1);
      forall i | 0 <= i < |samples| && (i > 0 || c.prevCwnd.Some?) && Enough(margin, k + i + 1)
        ensures Regimes(c, samples)[i] == Congestion
      {
        if i > 0 {
          assert Regimes(c, samples)[i] == Regimes(c', samples[1..])[i - 1];
          assert k + i + 1 == (k + 1) + (i - 1) + 1;
        }
      }
    }
  }

  /** From any history, with an explicit number of samples. */
  lemma SustainedLossIsCongestion(c: Classifier, samples: seq<Sample>, margin: real, i: nat)
    requires c.smoothedLoss >= 0.0 && margin > 0.0 && NeverGrows(c.prevCwnd, samples)
    requires forall s :: s in samples ==> Clamped(s.loss) >= 0.10 + margin
    requires 0 < i < |samples| && Shows(margin, (i + 1) as real)
    ensures Regimes(c, samples)[i] == Congestion
  {
    hide Shows;
    EnoughWhen(margin, i + 1);
    assert Residue(0.10 + margin, 0) == 0.10 + margin;
    hide Residue; hide Enough; hide Clamped; hide NeverGrows;
    SustainedLoss(c, samples, margin, 0);
    assert 0 + i + 1 == i + 1;
  }

  /** Once the loss is gone the regime is quiescent from the fifteenth sample on at the latest, unless
      the window is cut by more than an eighth at that very sample. */
  lemma RecoveryIsQuiescent(c: Classifier, samples: seq<Sample>, i: nat)
    requires c.smoothedLoss <= 1.0 && forall s :: s in samples ==> s.loss <= 0.0
    requires 14 <= i < |samples|
    ensures var prev := samples[i - 1].cwnd;
      Regimes(c, samples)[i] == if samples[i].cwnd < prev - prev / 8 then Congestion else Quiescent
  {
    Faded(i + 1);
    Recovering(c, samples, 0, i);
  }

  lemma Faded(k: nat)
    requires k >= 15
    ensures Residue(1.0, k) < 0.005
  {
    assert Residue(1.0, 5) == 0.16807;
    FiveMore(1.0, 5);
    FiveMore(1.0, 10);
    assert Residue(1.0, 15) < 0.005;
    ResidueShrinks(1.0, 15, k);
  }

  lemma FiveMore(start: real, k: nat)
    ensures Residue(start, k + 5) == 0.16807 * Residue(start, k)
  {
    assert Residue(start, k + 2) == 0.49 * Residue(start, k);
    assert Residue(start, k + 4) == 0.49 * Residue(start, k + 2);
  }

  lemma {:induction false} Recovering(c: Classifier, samples: seq<Sample>, k: nat, i: nat)
    requires (forall s :: s in samples ==> s.loss <= 0.0) && c.smoothedLoss <= Residue(1.0, k)
    requires i < |samples| && Residue(1.0, k + i + 1) < 0.005
    ensures var prev := if i == 0 then c.prevCwnd else Some(samples[i - 1].cwnd);
      Regimes(c, samples)[i] ==
        if prev.Some? && samples[i].cwnd < prev.value - prev.value / 8 then Congestion else Quiescent
    decreases i
  {
    var s := Smoothed(c, samples[0].loss);
    var c' := Classifier(Some(samples[0].cwnd), s);
    assert s <= Residue(1.0, k + 1);
    if i > 0 {
      hide Residue;
      assert k + i + 1 == (k + 1) + (i - 1) + 1;
      Recovering(c', samples[1..], k + 1, i - 1);
      assert Regimes(c, samples)[i] == Regimes(c', samples[1..])[i - 1];
    }
  }

  /** The verdict on any sample of any run, from the smoothed loss and the window before it: congestion if the
      window was cut by more than an eighth, or if more than a tenth is lost and it has not grown; otherwise
      quiescent below half a percent, and random from there on. Before a first window nothing is congestion. */
  lemma {:induction false} VerdictIs(c: Classifier, samples: seq<Sample>, i: nat)
    requires i < |samples|
    ensures var v, s, w := Regimes(c, samples)[i], After(c, samples[..i + 1]).smoothedLoss, samples[i].cwnd;
      var prev := if i == 0 then c.prevCwnd else Some(samples[i - 1].cwnd);
      var congested := prev.Some? && (w < prev.value - prev.value / 8 || (10.0 * s > 1.0 && w <= prev.value));
      && (v == Congestion <==> congested)
      && (v == Quiescent <==> !congested && 200.0 * s < 1.0)
      && (v == Random <==> !congested && 200.0 * s >= 1.0)
    decreases i
  {
    var first := Classifier(Some(samples[0].cwnd), Smoothed(c, samples[0].loss));
    assert samples[..i + 1][1..] == samples[1..][..i];
    if i > 0 {
      hide Smoothed; hide Verdict;
      VerdictIs(first, samples[1..], i - 1);
    } else {
      assert After(first, []) == first;
    }
  }

  /** Under a steady loss the smoothed loss closes three tenths of its distance with every sample. */
  lemma {:induction false} SmoothingIs(c: Classifier, samples: seq<Sample>, loss: real)
    requires forall s :: s in samples ==> Clamped(s.loss) == loss
    ensures After(c, samples).smoothedLoss - loss == Residue(c.smoothedLoss - loss, |samples|)
    decreases |samples|
  {
    if samples != [] {
      var first := Classifier(Some(samples[0].cwnd), Smoothed(c, samples[0].loss));
      SmoothingIs(first, samples[1..], loss);
      assert first.smoothedLoss - loss == 0.7 * (c.smoothedLoss - loss);
      ResidueFirst(c.smoothedLoss - loss, |samples| - 1);
    }
  }

  lemma {:induction false} ResidueFirst(start: real, k: nat)
    ensures Residue(0.7 * start, k) == Residue(start, k + 1)
  {
    if k > 0 {
      ResidueFirst(start, k - 1);
    }
  }

  lemma {:induction false} ResidueScales(start: real, k: nat)
    requires -1.0 <= start <= 1.0
    ensures -Residue(1.0, k) <= Residue(start, k) <= Residue(1.0, k)
  {
    if k > 0 {
      ResidueScales(start, k - 1);
    }
  }

  /** Steady loss between half a percent and ten, by any margin, is called random from an explicit sample on,
      whatever was seen before; so is heavier loss while the window grows. Only a cut of the window by more
      than an eighth says otherwise. */
  lemma SteadyLossIsRandom(c: Classifier, samples: seq<Sample>, loss: real, margin: real, i: nat)
    requires 0.0 <= c.smoothedLoss <= 1.0 && forall s :: s in samples ==> Clamped(s.loss) == loss
    requires 0 < i < |samples| && margin > 0.0 && margin * (10.0 + 3.0 * i as real) >= 7.0
    requires loss >= 0.005 + margin && (loss <= 0.10 - margin || samples[i].cwnd > samples[i - 1].cwnd)
    requires samples[i].cwnd >= samples[i - 1].cwnd - samples[i - 1].cwnd / 8
    ensures Regimes(c, samples)[i] == Random
  {
    hide Regimes; hide After; hide Residue; hide Within; hide Clamped;
    SmoothedNear(c, samples[..i + 1], loss);
    ResidueBound(1.0, i + 1);
    MarginCovers(Residue(1.0, i + 1), margin, i as real);
    VerdictIs(c, samples, i);
  }

  lemma SmoothedNear(c: Classifier, samples: seq<Sample>, loss: real)
    requires 0.0 <= c.smoothedLoss <= 1.0 && samples != [] && forall s :: s in samples ==> Clamped(s.loss) == loss
    ensures loss - Residue(1.0, |samples|) <= After(c, samples).smoothedLoss <= loss + Residue(1.0, |samples|)
  {
    hide Residue; hide After;
    assert samples[0] in samples && 0.0 <= loss <= 1.0;
    SmoothingIs(c, samples, loss);
    ResidueScales(c.smoothedLoss - loss, |samples|);
  }

  lemma MarginCovers(r: real, margin: real, i: real)
    requires i >= 0.0 && Within(r, i + 1.0, 1.0) && margin * (10.0 + 3.0 * i) >= 7.0
    ensures r <= margin
  {
    var n := 10.0 + 3.0 * i;
    assert r * n <= 7.0;
    assert (r - margin) * n <= 0.0;
  }

  // ---------------------------------------------------------------- stall watchdog

  class StallWatchdog {
    const lossThreshold: real
    const ticksToTrip: nat
    var streak: nat
    var fired: bool

    constructor (lossThreshold: real, ticksToTrip: nat)
      ensures this.lossThreshold == lossThreshold && this.ticksToTrip == ticksToTrip
      ensures streak == 0 && !fired && Watching([])
    {
      this.lossThreshold, this.ticksToTrip, streak, fired := lossThreshold, ticksToTrip, 0, false;
    }

    /** The watchdog's fields after seeing exactly `history`. */
    ghost predicate Watching(history: seq<Option<real>>)
      reads this
    {
      && (fired <==> HasStalled(history, lossThreshold, ticksToTrip))
      && (ticksToTrip > 0 && !fired ==> streak == BadTail(Measured(history), lossThreshold) < ticksToTrip)
    }

    /** Fires exactly at the first sample by which the last `ticksToTrip` measurements are all bad. */
    method Observe(loss: Option<real>, ghost history: seq<Option<real>>) returns (trip: bool)
      requires Watching(history)
      modifies this
      ensures Watching(history + [loss])
      ensures trip <==> Trips(history + [loss], |history|, lossThreshold, ticksToTrip)
    {
      hide HasStalled; hide Stalled;
      StalledBefore(history, loss, lossThreshold, ticksToTrip);
      TailSnoc(history, loss, lossThreshold, ticksToTrip);
      if ticksToTrip == 0 || fired {
        return false;
      }
      if loss.None? {
        return false;
      }
      trip := false;
      if loss.value > lossThreshold {
        streak := streak + 1;
        if streak >= ticksToTrip {
          fired := true;
          trip := true;
        }
      } else {
        streak := 0;
      }
    }
  }

  /** The samples that carry a measurement, in order. */
  function Measured(samples: seq<Option<real>>): seq<real> {
    if samples == [] then []
    else
      var last := samples[|samples| - 1];
      Measured(samples[..|samples| - 1]) + if last.Some? then [last.value] else []
  }

  /** How many measurements at the end are bad. */
  function BadTail(m: seq<real>, threshold: real): (n: nat)
    ensures n <= |m|
  {
    if m == [] || m[|m| - 1] <= threshold then 0 else BadTail(m[..|m| - 1], threshold) + 1
  }

  /** At least `n` measurements, and the last `n` of them all above the threshold. */
  ghost predicate Stalled(samples: seq<Option<real>>, threshold: real, n: nat) {
    n > 0 && var m := Measured(samples);
      |m| >= n && forall i :: |m| - n <= i < |m| ==> m[i] > threshold
  }

  /** Sample `i` is the first by which the connection has stalled. */
  ghost predicate Trips(samples: seq<Option<real>>, i: nat, threshold: real, n: nat) {
    && i < |samples| && Stalled(samples[..i + 1], threshold, n)
    && forall j :: 0 <= j <= i ==> !Stalled(samples[..j], threshold, n)
  }

  lemma MeasuredSnoc(samples: seq<Option<real>>, x: Option<real>)
    ensures Measured(samples + [x]) == Measured(samples) + if x.Some? then [x.value] else []
  {
    assert (samples + [x])[..|samples|] == samples;
  }

  lemma {:induction false} BadTailWhen(m: seq<real>, threshold: real, n: nat)
    ensures BadTail(m, threshold) >= n <==> |m| >= n && forall i :: |m| - n <= i < |m| ==> m[i] > threshold
    decreases n
  {
    if n > 0 && m != [] {
      var init := m[..|m| - 1];
      BadTailWhen(init, threshold, n - 1);
      forall i | 0 <= i < |init|
        ensures m[i] == init[i]
      {}
      assert m[|m| - 1] > threshold && |init| >= n - 1 && (forall i :: |init| - (n - 1) <= i < |init| ==> init[i] > threshold)
        ==> forall i :: |m| - n <= i < |m| ==> m[i] > threshold;
    }
  }

  /** What one more sample does to the streak of bad measurements and to being stalled. */
  lemma TailSnoc(history: seq<Option<real>>, x: Option<real>, threshold: real, n: nat)
    ensures var tail, tail' := BadTail(Measured(history), threshold), BadTail(Measured(history + [x]), threshold);
      && tail' == (if x.None? then tail else if x.value > threshold then tail + 1 else 0)
      && (Stalled(history + [x], threshold, n) <==> n > 0 && tail' >= n)
      && (Stalled(history, threshold, n) <==> n > 0 && tail >= n)
  {
    MeasuredSnoc(history, x);
    BadTailWhen(Measured(history), threshold, n);
    BadTailWhen(Measured(history + [x]), threshold, n);
    if x.None? {
      assert Measured(history + [x]) == Measured(history);
    } else {
      assert (Measured(history) + [x.value])[..|Measured(history)|] == Measured(history);
    }
  }

  ghost predicate HasStalled(samples: seq<Option<real>>, threshold: real, n: nat) {
    exists j :: 0 <= j <= |samples| && Stalled(samples[..j], threshold, n)
  }

  lemma StalledBefore(history: seq<Option<real>>, x: Option<real>, threshold: real, n: nat)
    ensures var h := history + [x];
      && (HasStalled(h, threshold, n) <==> HasStalled(history, threshold, n) || Stalled(h, threshold, n))
      && (Trips(h, |history|, threshold, n) <==> !HasStalled(history, threshold, n) && Stalled(h, threshold, n))
      && (HasStalled(history, threshold, n) || Stalled(history, threshold, n) ==> n > 0 && HasStalled(history, threshold, n))
  {
    hide Stalled;
    var h := history + [x];
    assert h[..|h|] == h && history[..|history|] == history;
    forall j | 0 <= j <= |history|
      ensures h[..j] == history[..j]
    {}
    if n == 0 {
      forall t: seq<Option<real>>
        ensures !Stalled(t, threshold, 0)
      {
        NeverAtZero(t, threshold);
      }
    }
  }

  lemma NeverAtZero(samples: seq<Option<real>>, threshold: real)
    ensures !Stalled(samples, threshold, 0)
  {}

  /** Over any run: it fires at most once, somewhere exactly when some prefix has stalled, never when
      `n` is zero, and always on a bad measurement. */
  lemma TripsExactlyOnce(samples: seq<Option<real>>, threshold: real, n: nat)
    ensures (exists i: nat :: Trips(samples, i, threshold, n)) <==> HasStalled(samples, threshold, n)
    ensures forall i: nat, j: nat :: Trips(samples, i, threshold, n) && Trips(samples, j, threshold, n) ==> i == j
    ensures n == 0 ==> !HasStalled(samples, threshold, n)
    ensures forall i: nat :: Trips(samples, i, threshold, n) ==> samples[i].Some? && samples[i].value > threshold
  {
    if j :| 0 <= j <= |samples| && Stalled(samples[..j], threshold, n) {
      FirstStall(samples, j, threshold, n);
    }
    forall i: nat | Trips(samples, i, threshold, n)
      ensures samples[i].Some? && samples[i].value > threshold
    {
      assert samples[..i + 1] == samples[..i] + [samples[i]];
      TailSnoc(samples[..i], samples[i], threshold, n);
      assert !Stalled(samples[..i], threshold, n);
    }
    forall i: nat, j: nat | Trips(samples, i, threshold, n) && Trips(samples, j, threshold, n)
      ensures i == j
    {
      NotLater(samples, i, j, threshold, n);
      NotLater(samples, j, i, threshold, n);
    }
  }

  lemma NotLater(samples: seq<Option<real>>, i: nat, j: nat, threshold: real, n: nat)
    requires Trips(samples, i, threshold, n) && Trips(samples, j, threshold, n)
    ensures i >= j
  {}

  lemma {:induction false} FirstStall(samples: seq<Option<real>>, j: nat, threshold: real, n: nat)
    requires j <= |samples| && Stalled(samples[..j], threshold, n)
    ensures exists i: nat :: Trips(samples, i, threshold, n)
    decreases j
  {
    if h :| 0 <= h < j && Stalled(samples[..h], threshold, n) {
      FirstStall(samples, h, threshold, n);
    } else {
      assert j > 0 by { assert samples[..0] == []; }
      assert Trips(samples, j - 1, threshold, n);
    }
  }
}
