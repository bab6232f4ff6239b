/** The repair budget under concurrency. `try_reserve` is three kinds of atomic step, a load of the
    ceiling, a load of the count, and a compare-and-swap that may fail for no reason; the steps of all
    tasks, releases, dropped managers and ceiling updates interleave freely. */
module BudgetInterleaving {
  import opened Base
  import opened Budget

  /** A block of a tunnel; a tunnel's managers are driven by its one downstream task. */
  datatype Owner = Owner(task: nat, block: nat)

  /** What a reservation is for: a block's manager, which returns it, or a proactive spurt, which does not. */
  datatype Purpose = ForBlock(owner: Owner) | ForSpurt

  /** Where a task is in `try_reserve`: outside, having loaded the ceiling, about to swap, or back with
      its answer. */
  datatype Pc =
    | Idle
    | GotCeiling(n: nat, why: Purpose, ceiling: nat)
    | Trying(n: nat, why: Purpose, ceiling: nat, current: nat)
    | Answered(n: nat, ok: bool)

  datatype World = World(inFlight: nat, ceiling: nat, peak: nat, tasks: map<nat, Pc>,
                         held: map<Owner, nat>, stranded: nat, reserved: nat, released: nat)

  datatype Act =
    | Begin(task: nat, n: nat, why: Purpose)
    | LoadCount(task: nat)
    | Swap(task: nat, spurious: bool)
    | ReleaseBlock(owner: Owner)
    | DropManager(owner: Owner)
    | Refresh(newCeiling: nat)

  function Start(): World { World(0, 0, 0, map[], map[], 0, 0, 0) }

  function At(w: World, task: nat): Pc { if task in w.tasks then w.tasks[task] else Idle }

  predicate Outside(p: Pc) { p.Idle? || p.Answered? }

  ghost predicate Enabled(w: World, a: Act) {
    match a
    case Begin(t, n, why) =>
      Outside(At(w, t)) && (why.ForBlock? ==> n > 0 && why.owner.task == t && why.owner !in w.held)
    case LoadCount(t) => At(w, t).GotCeiling?
    case Swap(t, _) => At(w, t).Trying?
    case ReleaseBlock(o) => o in w.held && Outside(At(w, o.task))
    case DropManager(o) => o in w.held && Outside(At(w, o.task))
    case Refresh(_) => true
  }

  function Granted(w: World, n: nat, why: Purpose): World {
    var w1 := w.(inFlight := w.inFlight + n, reserved := w.reserved + n);
    match why
    case ForBlock(o) => w1.(held := w.held[o := n])
    case ForSpurt => w1.(stranded := w.stranded + n)
  }

  function Put(w: World, task: nat, p: Pc): World { w.(tasks := w.tasks[task := p]) }

  ghost function Next(w: World, a: Act): World
    requires Enabled(w, a)
  {
    match a
    case Begin(t, n, why) => Put(w, t, GotCeiling(n, why, w.ceiling))
    case LoadCount(t) =>
      var p := At(w, t);
      Put(w, t, Trying(p.n, p.why, p.ceiling, w.inFlight))
    case Swap(t, spurious) =>
      var p := At(w, t);
      if p.current + p.n > p.ceiling then Put(w, t, Answered(p.n, false))
      else if w.inFlight == p.current && !spurious then Granted(Put(w, t, Answered(p.n, true)), p.n, p.why)
      else Put(w, t, p.(current := w.inFlight))
    case ReleaseBlock(o) =>
      w.(inFlight := Ledger(w.inFlight, w.ceiling).Release(w.held[o]).inFlight,
         released := w.released + w.held[o], held := w.held - {o})
    case DropManager(o) => w.(stranded := w.stranded + w.held[o], held := w.held - {o})
    case Refresh(c) => w.(ceiling := c, peak := Max(w.peak, c))
  }

  ghost predicate StepAt(states: seq<World>, acts: seq<Act>, i: nat)
    requires |states| == |acts| + 1 && i < |acts|
  {
    Enabled(states[i], acts[i]) && states[i + 1] == Next(states[i], acts[i])
  }

  /** Every interleaving of any number of tasks, from an empty budget. */
  ghost predicate Run(states: seq<World>, acts: seq<Act>) {
    && |states| == |acts| + 1 && states[0] == Start()
    && forall i: nat :: i < |acts| ==> StepAt(states, acts, i)
  }

  // ---------------------------------------------------------------- the ledger

  /** A task in the middle of reserving works with a ceiling that was once real, and for a block that
      holds nothing yet. */
  ghost predicate TaskOk(w: World, task: nat) {
    var p := At(w, task);
    Outside(p) || (p.ceiling <= w.peak && (p.why.ForBlock? ==> p.why.owner.task == task && p.why.owner !in w.held))
  }

  ghost predicate Inv(w: World) {
    && w.inFlight == Sum(w.held) + w.stranded
    && w.inFlight + w.released == w.reserved
    && w.inFlight <= w.peak && w.ceiling <= w.peak
    && (forall t :: TaskOk(w, t))
  }

  lemma SwapKeeps(w: World, a: Act)
    requires Inv(w) && Enabled(w, a) && a.Swap?
    ensures Inv(Next(w, a))
  {
    var w' := Next(w, a);
    var p := At(w, a.task);
    assert TaskOk(w, a.task);
    if p.why.ForBlock? {
      SumUpdate(w.held, p.why.owner, p.n);
    }
    hide Sum;
    forall t ensures TaskOk(w', t) {
      assert TaskOk(w, t);
    }
  }

  lemma NextKeeps(w: World, a: Act)
    requires Inv(w) && Enabled(w, a)
    ensures Inv(Next(w, a))
  {
    if a.Swap? {
      SwapKeeps(w, a);
    } else {
      var w' := Next(w, a);
      if a.ReleaseBlock? || a.DropManager? {
        SumUpdate(w.held, a.owner, 0);
        SumMember(w.held, a.owner);
      }
      hide Sum;
      forall t ensures TaskOk(w', t) {
        assert TaskOk(w, t);
      }
    }
  }

  lemma {:induction false} RunKeeps(states: seq<World>, acts: seq<Act>, n: nat)
    requires Run(states, acts) && n <= |acts|
    ensures Inv(states[n])
  {
    if n > 0 {
      hide Next; hide Inv; hide Enabled;
      RunKeeps(states, acts, n - 1);
      assert StepAt(states, acts, n - 1);
      NextKeeps(states[n - 1], acts[n - 1]);
    }
  }

  /** Over every interleaving: the count is what was reserved less what was released, and is exactly
      what the managers hold plus what was stranded; it never exceeds the largest ceiling ever set;
      and a manager's release takes back no more than is counted, so the unsigned subtraction never
      wraps. */
  lemma LedgerBalances(states: seq<World>, acts: seq<Act>, i: nat)
    requires Run(states, acts) && i <= |acts|
    ensures var w := states[i];
      && w.inFlight + w.released == w.reserved
      && w.inFlight == Sum(w.held) + w.stranded
      && w.inFlight <= w.peak
    ensures i < |acts| && acts[i].ReleaseBlock? ==>
      acts[i].owner in states[i].held && states[i + 1].inFlight == states[i].inFlight - states[i].held[acts[i].owner]
  {
    RunKeeps(states, acts, i);
    if i < |acts| && acts[i].ReleaseBlock? {
      assert StepAt(states, acts, i);
      SumMember(states[i].held, acts[i].owner);
    }
  }

  /** Exactly which steps take the count above the ceiling in force: a ceiling set below it, and a swap
      that succeeds against a ceiling that has shrunk since it was loaded. */
  lemma OverCeilingExactlyWhen(w: World, a: Act)
    requires Inv(w) && Enabled(w, a) && w.inFlight <= w.ceiling
    ensures Next(w, a).inFlight > Next(w, a).ceiling <==>
      || (a.Refresh? && a.newCeiling < w.inFlight)
      || (a.Swap? && !a.spurious && At(w, a.task).current == w.inFlight
          && w.inFlight + At(w, a.task).n <= At(w, a.task).ceiling && w.inFlight + At(w, a.task).n > w.ceiling)
  {
    if a.ReleaseBlock? { SumMember(w.held, a.owner); }
  }

  /** Both kinds happen, for any reservation of `n` and any ceiling below it: the ceiling shrinks after the
      reservation, or between its load and its swap. */
  lemma OverCeilingReached(n: nat, ceiling: nat) returns (before: seq<World>, after: seq<World>)
    requires ceiling < n
    ensures var reserve := [Refresh(n), Begin(0, n, ForSpurt), LoadCount(0)];
      && Run(before, reserve + [Refresh(ceiling), Swap(0, false)]) && Run(after, reserve + [Swap(0, false), Refresh(ceiling)])
    ensures before[4].inFlight == 0 && before[5].inFlight == n > before[5].ceiling == ceiling
    ensures after[4].inFlight == n <= after[4].ceiling && after[5].inFlight == n > after[5].ceiling == ceiling
  {
    var reserve := [Refresh(n), Begin(0, n, ForSpurt), LoadCount(0)];
    var s1 := Next(Start(), reserve[0]);
    var s2 := Next(s1, reserve[1]);
    var s3 := Next(s2, reserve[2]);
    assert At(s3, 0) == Trying(n, ForSpurt, n, 0);
    var b4 := Next(s3, Refresh(ceiling));
    var a4 := Next(s3, Swap(0, false));
    before := [Start(), s1, s2, s3, b4, Next(b4, Swap(0, false))];
    after := [Start(), s1, s2, s3, a4, Next(a4, Refresh(ceiling))];
  }

  // ---------------------------------------------------------------- linearizability

  /** Task `t` entered `try_reserve(n)` with step `i` and has been inside it ever since, up to state `j`. */
  ghost predicate CallSince(states: seq<World>, acts: seq<Act>, t: nat, n: nat, i: nat, j: nat)
    requires |states| == |acts| + 1 && i < j <= |acts|
  {
    acts[i].Begin? && acts[i].task == t && acts[i].n == n
    && forall k: nat :: i < k < j ==> Inside(states[k], t)
  }

  predicate Inside(w: World, t: nat) { !Outside(At(w, t)) }

  /** What the sequential operation would answer at that moment, against that ceiling. */
  predicate WouldFit(w: World, ceiling: nat, n: nat) { Ledger(w.inFlight, ceiling).Fits(n) }

  /** A task inside a call works with the ceiling of the step that began it, and the count it tries
      with was the shared one at some later moment of the call. */
  lemma {:induction false} CallHistory(states: seq<World>, acts: seq<Act>, t: nat, j: nat) returns (i: nat, m: nat)
    requires Run(states, acts) && j <= |acts| && Inside(states[j], t)
    ensures var p := At(states[j], t);
      && i < j && CallSince(states, acts, t, p.n, i, j) && p.ceiling == states[i].ceiling
      && (p.Trying? ==> i < m < j && p.current == states[m].inFlight)
  {
    assert j > 0;
    assert StepAt(states, acts, j - 1);
    var w, a := states[j - 1], acts[j - 1];
    if Inside(w, t) {
      i, m := CallHistory(states, acts, t, j - 1);
      if At(states[j], t) != At(w, t) {
        m := j - 1;
      }
    } else {
      assert a.Begin? && a.task == t;
      i, m := j - 1, 0;
    }
  }

  /** Every answer is one the sequential operation gives. Whatever ran in between, a finished
      `try_reserve` has a moment inside its own interval at which the operation, run alone against the
      ceiling the task loaded, gives that answer. A granted call takes effect at that moment, which is
      its last step, by exactly the amount asked for; a refused one changes nothing that is shared. */
  lemma EveryAnswerLinearizes(states: seq<World>, acts: seq<Act>, t: nat, j: nat) returns (i: nat, m: nat)
    requires Run(states, acts) && j < |acts| && acts[j].Swap? && acts[j].task == t && At(states[j + 1], t).Answered?
    ensures var p := At(states[j + 1], t);
      && i < m <= j && CallSince(states, acts, t, p.n, i, j + 1)
      && (p.ok <==> WouldFit(states[m], states[i].ceiling, p.n))
      && (p.ok ==> m == j && states[j + 1].inFlight == states[j].inFlight + p.n)
      && (!p.ok ==> states[j + 1] == states[j].(tasks := states[j + 1].tasks))
  {
    assert StepAt(states, acts, j);
    i, m := CallHistory(states, acts, t, j);
    if At(states[j + 1], t).ok {
      m := j;
    }
  }

  /** Run without interference, the three steps are the sequential `TryReserve`. */
  lemma UninterruptedIsSequential(w: World, t: nat, n: nat, why: Purpose)
    requires Enabled(w, Begin(t, n, why))
    ensures var w1 := Next(w, Begin(t, n, why));
      var w2 := Next(w1, LoadCount(t));
      var w3 := Next(w2, Swap(t, false));
      var b := Ledger(w.inFlight, w.ceiling);
      At(w3, t) == Answered(n, b.Fits(n)) && Ledger(w3.inFlight, w3.ceiling) == if b.Fits(n) then b.Reserve(n) else b
  {}
}
