/** The adaptive repair ratio, in parts per million. Fractions are exact reals; the only rounding is
    the truncation to whole parts per million the code makes itself. */
module Strategy {
  import opened Base
  import opened Link

  const PPM: nat := 1_000_000
  const PPM_MAX: nat := 4_000_000

  /** `RepairRatio::from_fraction`, on a value already multiplied by a million. */
  function Truncated(ppm: real): (r: nat)
    ensures r <= PPM_MAX
  {
    if ppm < 0.0 then 0 else if ppm > PPM_MAX as real then PPM_MAX else ppm.Floor
  }

  function Clamp(x: nat, lo: nat, hi: nat): nat
    requires lo <= hi
  {
    if x < lo then lo else if x > hi then hi else x
  }

  datatype Config = Config(min: nat, max: nat, safetyMargin: real, gain: real)

  /** Ratios are made by `from_fraction`, and clamping panics unless the bounds are in order. */
  ghost predicate Sane(c: Config) { c.min <= c.max <= PPM_MAX }

  function Provisioned(c: Config, loss: real): real { loss * c.safetyMargin * PPM as real }

  function Target(c: Config, regime: LossRegime, loss: real): nat
    requires c.min <= c.max
  {
    match regime
    case Random => Clamp(Truncated(Provisioned(c, loss)), c.min, c.max)
    case Congestion => c.min
    case Quiescent => c.min
  }

  function Stepped(current: nat, target: nat, gain: real): real {
    current as real + (target as real - current as real) * gain
  }

  function Step(c: Config, current: nat, target: nat): nat
    requires c.min <= c.max
  {
    Clamp(Truncated(Stepped(current, target, c.gain)), c.min, c.max)
  }

  function Abs(a: nat, b: nat): nat { if a <= b then b - a else a - b }

  /** The ratio after a list of telemetry snapshots. */
  function Driven(c: Config, x: nat, inputs: seq<(LossRegime, real)>): nat
    requires c.min <= c.max
    decreases |inputs|
  {
    if inputs == [] then x
    else Driven(c, Step(c, x, Target(c, inputs[0].0, inputs[0].1)), inputs[1..])
  }

  class FecStrategy {
    const config: Config
    var current: nat

    ghost predicate Valid()
      reads this
    {
      Sane(config) && config.min <= current <= config.max
    }

    constructor (config: Config, initial: nat)
      requires Sane(config)
      ensures Valid() && this.config == config && current == Clamp(initial, config.min, config.max)
    {
      this.config := config;
      current := Clamp(initial, config.min, config.max);
    }

    /** `true` when the ratio moved by more than one percentage point, and only then is it announced. */
    method Update(regime: LossRegime, loss: real) returns (changed: bool)
      requires Valid()
      modifies this
      ensures Valid() && current == Driven(config, old(current), [(regime, loss)])
      ensures changed <==> Abs(old(current), current) > 10_000
    {
      hide Truncated; hide Stepped; hide Provisioned;
      var target: nat;
      match regime {
        case Random => target := Truncated(Provisioned(config, loss));
        case Congestion => target := config.min;
        case Quiescent => target := config.min;
      }
      target := Clamp(target, config.min, config.max);
      var stepped := Stepped(current, target, config.gain);
      var next := Clamp(Truncated(stepped), config.min, config.max);
      var moved := if next >= current then next - current else current - next;
      changed := moved > 10_000;
      current := next;
    }
  }

  // ---------------------------------------------------------------- one step

  /** The part of the gap a step closes. */
  function Share(gap: nat, gain: real): real { gap as real * gain }

  function Ceiling(r: real): int { -((-r).Floor) }

  lemma ShareBounds(gap: nat, gain: real)
    requires 0.0 < gain <= 1.0
    ensures 0.0 <= Share(gap, gain) <= gap as real && (gap > 0 ==> Share(gap, gain) > 0.0)
  {}

  lemma ShareMonotone(a: nat, b: nat, gain: real)
    requires a <= b && 0.0 < gain
    ensures Share(a, gain) <= Share(b, gain)
  {}

  lemma SteppedIs(x: nat, t: nat, gain: real)
    ensures x <= t ==> Stepped(x, t, gain) == x as real + Share(t - x, gain)
    ensures x >= t ==> Stepped(x, t, gain) == x as real - Share(x - t, gain)
  {
    if x <= t {
      assert t as real - x as real == (t - x) as real;
    } else {
      assert t as real - x as real == -((x - t) as real);
      assert (-((x - t) as real)) * gain == -((x - t) as real * gain);
    }
  }

  lemma InBounds(c: Config, v: real)
    requires Sane(c) && c.min as real <= v <= c.max as real
    ensures Clamp(Truncated(v), c.min, c.max) == v.Floor
  {}

  /** A step closes the gain's share of the gap, in whole parts: rounded down on the way up and rounded
      up on the way down. */
  lemma StepSize(c: Config, x: nat, t: nat)
    requires Sane(c) && 0.0 < c.gain <= 1.0
    requires c.min <= x <= c.max && c.min <= t <= c.max
    ensures x <= t ==> Step(c, x, t) == x + Share(t - x, c.gain).Floor
    ensures x >= t ==> Step(c, x, t) == x - Ceiling(Share(x - t, c.gain))
  {
    hide Stepped; hide Share;
    SteppedIs(x, t, c.gain);
    ShareBounds(Abs(x, t), c.gain);
    InBounds(c, Stepped(x, t, c.gain));
  }

  /** What one step does, with a gain that is a fraction: it stays between where it was and the target;
      downwards it always moves; upwards it stands still exactly when the share of the gap it would
      close is less than one part per million. */
  lemma StepToward(c: Config, x: nat, t: nat)
    requires Sane(c) && 0.0 < c.gain <= 1.0
    requires c.min <= x <= c.max && c.min <= t <= c.max
    ensures var y := Step(c, x, t);
      && (x <= t ==> x <= y <= t && (y == x <==> Share(t - x, c.gain) < 1.0))
      && (x >= t ==> t <= y <= x && (y == x <==> x == t))
  {
    StepSize(c, x, t);
    hide Step; hide Share;
    ShareBounds(Abs(x, t), c.gain);
  }

  // ---------------------------------------------------------------- whole runs

  /** `n` updates that all aim at the same target. */
  function Run(c: Config, x: nat, t: nat, n: nat): nat
    requires c.min <= c.max
    decreases n
  {
    if n == 0 then x else Run(c, Step(c, x, t), t, n - 1)
  }

  /** Where a run toward a fixed target ends: on it when it starts above, and else within one part per
      million over the gain below it. */
  ghost predicate Settled(c: Config, x: nat, t: nat) {
    x == t || (x < t && Share(t - x, c.gain) < 1.0)
  }

  /** The controller converges: it never overshoots the target or leaves the configured bounds, and
      after at most as many updates as it is parts away it has settled, for good. A congested link
      therefore brings it to `min` exactly; a lossy one need not reach its target. */
  lemma {:induction false} Converges(c: Config, x: nat, t: nat, n: nat)
    requires Sane(c) && 0.0 < c.gain <= 1.0
    requires c.min <= x <= c.max && c.min <= t <= c.max
    ensures var y := Run(c, x, t, n);
      && c.min <= y <= c.max
      && (x <= t ==> x <= y <= t) && (x >= t ==> t <= y <= x)
      && (n >= Abs(x, t) ==> Settled(c, y, t) && Step(c, y, t) == y)
      && (n >= Abs(x, t) && t <= x ==> y == t)
    decreases n
  {
    StepToward(c, x, t);
    var y := Step(c, x, t);
    hide Step; hide Share;
    if n > 0 {
      Converges(c, y, t, n - 1);
      if y == x && n >= Abs(x, t) {
        StaysPut(c, x, t, n);
      }
    }
  }

  lemma {:induction false} StaysPut(c: Config, x: nat, t: nat, n: nat)
    requires c.min <= c.max && Step(c, x, t) == x
    ensures Run(c, x, t, n) == x
  {
    if n > 0 {
      StaysPut(c, x, t, n - 1);
    }
  }

  /** Whatever the telemetry says, and whatever the gain, the ratio never leaves its bounds. */
  lemma {:induction false} AlwaysBounded(c: Config, x: nat, inputs: seq<(LossRegime, real)>)
    requires Sane(c) && c.min <= x <= c.max
    ensures c.min <= Driven(c, x, inputs) <= c.max
    decreases |inputs|
  {
    if inputs != [] {
      AlwaysBounded(c, Step(c, x, Target(c, inputs[0].0, inputs[0].1)), inputs[1..]);
    }
  }

  /** Only random loss raises the ratio: a run of snapshots without any never rises, congestion least of all,
      and is on the floor after as many updates as it started parts above it. */
  lemma {:induction false} NeverRisesWithoutLoss(c: Config, x: nat, inputs: seq<(LossRegime, real)>)
    requires Sane(c) && 0.0 < c.gain <= 1.0 && c.min <= x <= c.max
    requires forall i :: 0 <= i < |inputs| ==> inputs[i].0 != Random
    ensures var y := Driven(c, x, inputs);
      c.min <= y <= x && (y == x > c.min ==> inputs == []) && (|inputs| >= x - c.min ==> y == c.min)
    decreases |inputs|
  {
    if inputs != [] {
      StepToward(c, x, c.min);
      hide Step;
      NeverRisesWithoutLoss(c, Step(c, x, c.min), inputs[1..]);
    }
  }

  /** Loss times the safety margin, in whole parts per million and within the bounds. */
  function Wanted(c: Config, loss: real): nat {
    var v := loss * c.safetyMargin * 1_000_000.0;
    if v <= c.min as real then c.min else if v >= c.max as real then c.max else v.Floor
  }

  /** Under random loss one update goes from the old ratio toward what the loss wants, by the gain's share of
      the gap: up by the whole parts of it, and so at all only from one part on, down by those and one more
      for a remainder. It never passes what is wanted. */
  lemma RandomStep(c: Config, x: nat, loss: real)
    requires Sane(c) && 0.0 < c.gain <= 1.0 && c.min <= x <= c.max
    ensures var y, t := Driven(c, x, [(Random, loss)]), Wanted(c, loss);
      && (x <= t ==> x <= y <= t && y == x + ((t - x) as real * c.gain).Floor)
      && (x >= t ==> t <= y <= x && x - y == -(-((x - t) as real * c.gain)).Floor)
  {
    hide *;
    WantedInBounds(c, loss);
    DrivenOne(c, x, Random, loss);
    StepToward(c, x, Wanted(c, loss));
    ShareStep(c, x, Wanted(c, loss));
  }

  /** The step in the terms of its statement. */
  lemma ShareStep(c: Config, x: nat, t: nat)
    requires Sane(c) && 0.0 < c.gain <= 1.0 && c.min <= x <= c.max && c.min <= t <= c.max
    ensures x <= t ==> Step(c, x, t) == x + ((t - x) as real * c.gain).Floor
    ensures x >= t ==> x - Step(c, x, t) == -(-((x - t) as real * c.gain)).Floor
  {
    StepSize(c, x, t);
    hide Step;
  }

  lemma WantedInBounds(c: Config, loss: real)
    requires Sane(c)
    ensures c.min <= Wanted(c, loss) <= c.max && Target(c, Random, loss) == Wanted(c, loss)
  {}

  lemma DrivenOne(c: Config, x: nat, regime: LossRegime, loss: real)
    requires c.min <= c.max
    ensures Driven(c, x, [(regime, loss)]) == Step(c, x, Target(c, regime, loss))
  {
    hide Step; hide Target;
    assert [(regime, loss)][1..] == [];
  }

  /** Any other regime goes toward the floor by the gain's share of the gap, rounded up. */
  lemma QuietStep(c: Config, x: nat, regime: LossRegime, loss: real)
    requires Sane(c) && 0.0 < c.gain <= 1.0 && c.min <= x <= c.max && regime != Random
    ensures x - Driven(c, x, [(regime, loss)]) == -(-((x - c.min) as real * c.gain)).Floor
  {
    DrivenOne(c, x, regime, loss);
    ShareStep(c, x, c.min);
    hide Step; hide Driven;
  }

  // ---------------------------------------------------------------- announcements

  ghost predicate Announced(c: Config, x: nat, t: nat)
    requires c.min <= c.max
  {
    Abs(x, Step(c, x, t)) > 10_000
  }

  /** Tunnels only learn of a ratio that is announced, and steps toward a fixed target never grow. So a
      controller whose first step is too small to announce never announces again: the tunnels keep the
      old ratio while the controller walks all the way to its target. */
  lemma {:induction false} SilentForever(c: Config, x: nat, t: nat, n: nat)
    requires Sane(c) && 0.0 < c.gain <= 1.0
    requires c.min <= x <= c.max && c.min <= t <= c.max
    requires !Announced(c, x, t)
    ensures !Announced(c, Run(c, x, t, n), t)
    decreases n
  {
    if n > 0 {
      hide Step; hide Share;
      StepToward(c, x, t);
      var y := Step(c, x, t);
      StepSize(c, x, t);
      StepSize(c, y, t);
      ShareMonotone(Abs(y, t), Abs(x, t), c.gain);
      ShareBounds(Abs(y, t), c.gain);
      SilentForever(c, y, t, n - 1);
    }
  }

  lemma QuarterStep(gap: nat)
    ensures Ceiling(Share(gap, 0.25)) > 10_000 <==> gap > 40_000
    ensures gap > 40_000 ==> gap - Ceiling(Share(gap, 0.25)) >= 30_000
  {}

  /** One congested step at the default gain of a quarter: it is announced exactly from more than four
      points above the floor, and then does not land below three. */
  lemma CongestedStep(c: Config, x: nat)
    requires Sane(c) && c.gain == 0.25 && c.min <= x <= c.max
    ensures Announced(c, x, c.min) <==> x > c.min + 40_000
    ensures Announced(c, x, c.min) ==> Step(c, x, c.min) >= c.min + 30_000
  {
    StepSize(c, x, c.min);
    hide Step; hide Share;
    QuarterStep(x - c.min);
    ShareBounds(x - c.min, c.gain);
  }

  /** With the default gain a link that turns congested leaves the announced ratio where it is, forever,
      if and only if that is at most four points above the floor; the controller itself reaches the
      floor all the same. */
  lemma {:induction false} StaleUnderCongestion(c: Config, x: nat)
    requires Sane(c) && c.gain == 0.25 && c.min <= x <= c.max
    ensures (forall n: nat :: !Announced(c, Run(c, x, c.min, n), c.min)) <==> x <= c.min + 40_000
    ensures forall n: nat :: n >= x - c.min ==> Run(c, x, c.min, n) == c.min
  {
    CongestedStep(c, x);
    hide Announced;
    assert Run(c, x, c.min, 0) == x;
    forall n: nat
      ensures n >= x - c.min ==> Run(c, x, c.min, n) == c.min
      ensures x <= c.min + 40_000 ==> !Announced(c, Run(c, x, c.min, n), c.min)
    {
      Converges(c, x, c.min, n);
      if x <= c.min + 40_000 {
        SilentForever(c, x, c.min, n);
      }
    }
  }

  /** From any higher start there is a last announcement, the `m`th step, and it leaves the tunnels
      between three and four points above the floor for good. */
  lemma {:induction false} LastAnnouncement(c: Config, x: nat) returns (m: nat)
    requires Sane(c) && c.gain == 0.25 && c.min + 40_000 < x <= c.max
    ensures m > 0 && Announced(c, Run(c, x, c.min, m - 1), c.min)
    ensures c.min + 30_000 <= Run(c, x, c.min, m) <= c.min + 40_000
    ensures forall n: nat :: !Announced(c, Run(c, Run(c, x, c.min, m), c.min, n), c.min)
    decreases x
  {
    CongestedStep(c, x);
    StepToward(c, x, c.min);
    var y := Step(c, x, c.min);
    hide Step; hide Announced;
    if y <= c.min + 40_000 {
      m := 1;
      StaleUnderCongestion(c, y);
      assert Run(c, x, c.min, 0) == x && Run(c, x, c.min, 1) == Run(c, y, c.min, 0) == y;
    } else {
      var k := LastAnnouncement(c, y);
      m := k + 1;
      assert Run(c, x, c.min, k + 1) == Run(c, y, c.min, k);
      assert Run(c, x, c.min, k) == Run(c, y, c.min, k - 1);
    }
  }

  // ---------------------------------------------------------------- from ratio to symbols

  /** The strategy's own count, before the conversion to 32 bits. */
  function RepairCount(ratio: nat, k: nat): nat {
    if ratio == 0 then 0 else Max(k * ratio / PPM, 1) % 0x1_0000_0000
  }

  /** The count the tunnels use, from parts per thousand. */
  function LiveRepairCount(k: nat, thousandths: nat): nat {
    if thousandths == 0 then 0 else Max(k * thousandths / 1000, 1) % 0x1_0000_0000
  }

  /** The tunnels' count is the greatest number of symbols within the ratio, but for one at the least: none
      exactly if the ratio is zero. */
  lemma CountIsGreatest(k: nat, thousandths: nat)
    requires k * thousandths < 1000 * 0x1_0000_0000
    ensures var n := LiveRepairCount(k, thousandths);
      && (n == 0 <==> thousandths == 0)
      && (thousandths > 0 ==> (n + 1) * 1000 > k * thousandths && (n * 1000 <= k * thousandths || n == 1))
  {
    Whole(k * thousandths);
  }

  lemma Whole(p: nat)
    ensures p / 1000 * 1000 <= p < (p / 1000 + 1) * 1000
  {}

  function Thousandths(ratio: nat): nat { Min(ratio / 1000, 0xFFFF) }

  /** In exact arithmetic the two counts agree on every ratio the handshake can carry, and the handshake's
      parts per thousand survive the trip through parts per million. Binary rounding can lose a part per
      million of that trip, and with it the agreement: at 1025 thousandths and 40 symbols, say. */
  lemma CountsAgree(k: nat, thousandths: nat)
    requires thousandths <= 4000
    ensures Truncated(thousandths as real / 1000.0 * PPM as real) == thousandths * 1000
    ensures RepairCount(thousandths * 1000, k) == LiveRepairCount(k, thousandths)
    ensures Thousandths(thousandths * 1000) == thousandths
  {
    var p := k * thousandths;
    assert k * (thousandths * 1000) == p * 1000;
    ScaledQuotient(p);
  }

  lemma ScaledQuotient(p: nat)
    ensures p * 1000 / PPM == p / 1000
  {}
}
