/** The bounds on the send window's overshoot are met: for every ceiling and every number of tunnels
    there is an interleaving that reaches them. */
module WindowTightness {
  import opened Base
  import opened SendWindows
  import opened WindowInterleaving

  /** Some run ends in `w`; a gated one never takes a tunnel past its share. */
  ghost predicate Reaches(w: World, ceiling: nat, gated: bool) {
    exists states, acts ::
      Run(states, acts, ceiling) && states[|acts|] == w && (gated ==> NoBreak(states, acts, ceiling))
  }

  lemma ReachesStart(ceiling: nat, gated: bool)
    ensures Reaches(Start(), ceiling, gated)
  {
    hide StepAt; hide Breaks;
    var states, acts: seq<Act> := [Start()], [];
    assert Run(states, acts, ceiling) && NoBreak(states, acts, ceiling) && states[|acts|] == Start();
  }

  lemma Extend(w: World, a: Act, ceiling: nat, gated: bool)
    requires Reaches(w, ceiling, gated) && Enabled(w, a, ceiling) && (gated ==> !Breaks(w, a, ceiling))
    ensures Reaches(Next(w, a, ceiling), ceiling, gated)
  {
    hide Next; hide Enabled; hide Breaks;
    var states, acts :| Run(states, acts, ceiling) && states[|acts|] == w && (gated ==> NoBreak(states, acts, ceiling));
    var states', acts' := states + [Next(w, a, ceiling)], acts + [a];
    forall i: nat | i < |acts'|
      ensures StepAt(states', acts', ceiling, i)
    {
      if i < |acts| {
        assert StepAt(states, acts, ceiling, i);
      }
    }
    if gated {
      forall i: nat | i < |acts'|
        ensures !Breaks(states'[i], acts'[i], ceiling)
      {
        if i < |acts| {
          assert !Breaks(states[i], acts[i], ceiling);
        }
      }
    }
    assert Run(states', acts', ceiling) && states'[|acts'|] == Next(w, a, ceiling);
  }

  lemma ReachedInv(w: World, ceiling: nat, gated: bool)
    requires Reaches(w, ceiling, gated)
    ensures Inv(w, ceiling)
  {
    hide Inv; hide StepAt; hide NoBreak;
    var states, acts :| Run(states, acts, ceiling) && states[|acts|] == w && (gated ==> NoBreak(states, acts, ceiling));
    RunKeeps(states, acts, ceiling, |acts|);
  }

  // ---------------------------------------------------------------- the steps of one tunnel

  lemma OneGate(w: World, t: nat, ceiling: nat, gated: bool)
    requires Reaches(w, ceiling, gated) && t in w.slots && w.slots[t].pc.Idle? && w.inFlight < ceiling
    requires gated ==> w.slots[t].count < FairShareOf(ceiling, w.active)
    ensures Reaches(Put(w, t, w.slots[t].(pc := Passed)), ceiling, gated)
  {
    hide Reaches; hide FairShareOf;
    var first := if gated then ClearGate(t) else SkipGate(t);
    Extend(w, first, ceiling, gated);
    var w1 := Next(w, first, ceiling);
    Extend(w1, PassCwnd(t), ceiling, gated);
    assert Next(w1, PassCwnd(t), ceiling) == Put(w, t, w.slots[t].(pc := Passed));
  }

  lemma OneAdd(w: World, t: nat, ceiling: nat, gated: bool)
    requires Reaches(w, ceiling, gated) && t in w.slots && w.slots[t].pc.Passed?
    ensures Reaches(Put(w.(inFlight := w.inFlight + 1), t, Slot(w.slots[t].count + 1, Idle)), ceiling, gated)
  {
    hide Reaches; hide FairShareOf;
    Extend(w, AddAggregate(t), ceiling, gated);
    var w1 := Next(w, AddAggregate(t), ceiling);
    Extend(w1, AddSlot(t), ceiling, gated);
    assert Next(w1, AddSlot(t), ceiling) == Put(w.(inFlight := w.inFlight + 1), t, Slot(w.slots[t].count + 1, Idle));
  }

  // ---------------------------------------------------------------- all tunnels at rest

  /** `n` tunnels, none in the middle of anything. */
  ghost predicate AtRest(w: World, n: nat) {
    && (forall t: nat :: t in w.slots <==> t < n) && w.active == n
    && forall t :: t in w.slots ==> w.slots[t].pc.Idle?
  }

  lemma Joined(ceiling: nat, n: nat, gated: bool) returns (w: World)
    ensures Reaches(w, ceiling, gated) && AtRest(w, n) && w.inFlight == 0
    ensures forall t :: t in w.slots ==> w.slots[t].count == 0
  {
    hide Reaches; hide FairShareOf;
    if n == 0 {
      ReachesStart(ceiling, gated);
      w := Start();
    } else {
      var w0 := Joined(ceiling, n - 1, gated);
      Extend(w0, Register(n - 1), ceiling, gated);
      var w1 := Next(w0, Register(n - 1), ceiling);
      Extend(w1, Construct(n - 1), ceiling, gated);
      w := Next(w1, Construct(n - 1), ceiling);
    }
  }

  lemma {:induction false} SumAtLeast(m: map<nat, nat>, floor: nat)
    requires forall k :: k in m ==> m[k] >= floor
    ensures Sum(m) >= |m.Keys| * floor
    decreases |m|
  {
    if k :| k in m {
      var rest := m - {k};
      assert rest.Keys == m.Keys - {k};
      SumSplit(m, k);
      SumAtLeast(rest, floor);
      MulStep(|rest.Keys|, floor);
    } else {
      assert m == map[];
    }
  }

  /** While fewer than `n * floor` blocks are out, some tunnel at rest holds less than `floor`. */
  lemma SomeoneBelow(w: World, n: nat, ceiling: nat, floor: nat) returns (t: nat)
    requires Inv(w, ceiling) && AtRest(w, n) && w.inFlight < n * floor
    ensures t in w.slots && w.slots[t].count < floor
  {
    hide Sum; hide ExcessBy;
    var m := HeldBy(w.slots);
    assert m.Keys == w.slots.Keys;
    if forall x :: x in m ==> m[x] >= floor {
      SumAtLeast(m, floor);
      assert false;
    }
    t :| t in m && m[t] < floor;
  }

  /** Any number of blocks below the ceiling can be out with everyone at rest, and fresh sends can do it
      with everyone still below its share. */
  lemma {:induction false} Filled(ceiling: nat, n: nat, total: nat, gated: bool) returns (w: World)
    requires n > 0 && total < ceiling && (gated ==> total <= n * (FairShareOf(ceiling, n) - 1))
    ensures Reaches(w, ceiling, gated) && AtRest(w, n) && w.inFlight == total
    ensures gated ==> forall t :: t in w.slots ==> w.slots[t].count < FairShareOf(ceiling, n)
    decreases total
  {
    var share := FairShareOf(ceiling, n);
    hide FairShareOf; hide Reaches;
    if total == 0 {
      w := Joined(ceiling, n, gated);
    } else {
      var w0 := Filled(ceiling, n, total - 1, gated);
      var t := 0;
      if gated {
        ReachedInv(w0, ceiling, gated);
        t := SomeoneBelow(w0, n, ceiling, share - 1);
      }
      OneGate(w0, t, ceiling, gated);
      var w1 := Put(w0, t, w0.slots[t].(pc := Passed));
      OneAdd(w1, t, ceiling, gated);
      w := Put(w1.(inFlight := w1.inFlight + 1), t, Slot(w1.slots[t].count + 1, Idle));
    }
  }

  // ---------------------------------------------------------------- everyone at once

  /** From rest, with the tunnels below `p` past the gate. */
  function PassedUpTo(w: World, p: nat): World {
    w.(slots := map t | t in w.slots :: if t < p then w.slots[t].(pc := Passed) else w.slots[t])
  }

  /** From there, with the tunnels below `p` done sending. */
  function AddedUpTo(w: World, p: nat): World {
    w.(inFlight := w.inFlight + p,
       slots := map t | t in w.slots :: if t < p then Slot(w.slots[t].count + 1, Idle) else w.slots[t].(pc := Passed))
  }

  lemma {:induction false} AllPass(w: World, n: nat, p: nat, ceiling: nat, gated: bool)
    requires Reaches(w, ceiling, gated) && AtRest(w, n) && p <= n && w.inFlight < ceiling
    requires gated ==> forall t :: t in w.slots ==> w.slots[t].count < FairShareOf(ceiling, n)
    ensures Reaches(PassedUpTo(w, p), ceiling, gated)
  {
    hide Reaches; hide FairShareOf;
    if p == 0 {
      assert PassedUpTo(w, 0) == w;
    } else {
      AllPass(w, n, p - 1, ceiling, gated);
      var w0 := PassedUpTo(w, p - 1);
      OneGate(w0, p - 1, ceiling, gated);
      assert Put(w0, p - 1, w0.slots[p - 1].(pc := Passed)) == PassedUpTo(w, p);
    }
  }

  lemma {:induction false} AllAdd(w: World, n: nat, p: nat, ceiling: nat, gated: bool)
    requires Reaches(PassedUpTo(w, n), ceiling, gated) && AtRest(w, n) && p <= n
    ensures Reaches(AddedUpTo(w, p), ceiling, gated)
  {
    hide Reaches;
    if p == 0 {
      assert AddedUpTo(w, 0) == PassedUpTo(w, n);
    } else {
      AllAdd(w, n, p - 1, ceiling, gated);
      var w0 := AddedUpTo(w, p - 1);
      OneAdd(w0, p - 1, ceiling, gated);
      assert Put(w0.(inFlight := w0.inFlight + 1), p - 1, Slot(w0.slots[p - 1].count + 1, Idle)) == AddedUpTo(w, p);
    }
  }

  lemma AllAtOnce(w: World, n: nat, ceiling: nat, gated: bool)
    requires Reaches(w, ceiling, gated) && AtRest(w, n) && w.inFlight < ceiling
    requires gated ==> forall t :: t in w.slots ==> w.slots[t].count < FairShareOf(ceiling, n)
    ensures Reaches(AddedUpTo(w, n), ceiling, gated)
    ensures AtRest(AddedUpTo(w, n), n) && AddedUpTo(w, n).inFlight == w.inFlight + n
  {
    hide Reaches; hide FairShareOf;
    AllPass(w, n, n, ceiling, gated);
    AllAdd(w, n, n, ceiling, gated);
  }

  // ---------------------------------------------------------------- theorems

  /** How far sends within the shares can go: for every ceiling and every `n`, some run puts out the
      smaller of what the shares together allow and of one block short of the ceiling with one more for
      each tunnel. */
  lemma FreshMaximum(ceiling: nat, n: nat) returns (states: seq<World>, acts: seq<Act>)
    requires ceiling > 0 && n > 0
    ensures Run(states, acts, ceiling) && NoBreak(states, acts, ceiling)
    ensures var w := states[|acts|];
      w.active == n && w.inFlight == Min(ceiling - 1 + n, n * FairShareOf(ceiling, n))
  {
    var share := FairShareOf(ceiling, n);
    var total := Min(ceiling - 1, n * (share - 1));
    assert n * share == n * (share - 1) + n;
    hide FairShareOf; hide StepAt; hide Breaks;
    var w := Filled(ceiling, n, total, true);
    AllAtOnce(w, n, ceiling, true);
    var w' := AddedUpTo(w, n);
    states, acts :| Run(states, acts, ceiling) && states[|acts|] == w' && (true ==> NoBreak(states, acts, ceiling));
  }

  /** ... and no such run puts out more. */
  lemma FreshAtMost(states: seq<World>, acts: seq<Act>, ceiling: nat, i: nat)
    requires Run(states, acts, ceiling) && NoBreak(states, acts, ceiling) && i <= |acts| && ceiling > 0
    ensures states[i].inFlight <= Min(ceiling - 1 + states[i].active, states[i].active * FairShareOf(ceiling, states[i].active))
  {
    hide StepAt; hide Breaks; hide FairShareOf;
    OvershootBounded(states, acts, ceiling, i);
    CeilingKept(states, acts, ceiling, i);
  }

  /** The general bound is met for every ceiling and number of tunnels; for a lone tunnel it is the ceiling
      itself, which `SlotBelowCeiling` lets no slot pass. */
  lemma OvershootTight(ceiling: nat, n: nat) returns (states: seq<World>, acts: seq<Act>)
    requires ceiling > 0 && n > 0
    ensures Run(states, acts, ceiling)
    ensures states[|acts|].active == n && states[|acts|].inFlight == ceiling - 1 + n
  {
    hide StepAt; hide Breaks; hide FairShareOf;
    var w := Filled(ceiling, n, ceiling - 1, false);
    AllAtOnce(w, n, ceiling, false);
    var w' := AddedUpTo(w, n);
    states, acts :| Run(states, acts, ceiling) && states[|acts|] == w' && (false ==> NoBreak(states, acts, ceiling));
  }
}
