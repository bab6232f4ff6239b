/** The send window under concurrency. One upstream task drives each slot. Before a send it passes the
    gate: `has_room` while its credits are fresh, then `has_cwnd_room`. Only after that second test has
    failed may it go on without passing it, and then it has first settled a late credit or abandoned its
    count. A send is two atomic adds, a settle is a compare-and-swap loop on the slot and then one on the
    aggregate, an abandon swaps the slot to zero first, and a drop gives back what it reads before it
    leaves the count of tunnels. The steps of all tasks interleave freely, and a weak compare-and-swap may
    fail for no reason. */
module WindowInterleaving {
  import opened Base
  import opened SendWindows

  /** What a task goes on to once its slot and the aggregate are settled: wait, send, or leave. */
  datatype After = Rest | Pass | Close

  /** Where a slot's task is. `Cleared` has passed `has_room`, `Ungated` has given up waiting for it
      because its credits are stale, `Full` has then failed `has_cwnd_room` and yields before it tries
      again, and `Passed` is about to send. */
  datatype Pc =
    | Registering
    | Idle
    | Cleared
    | Ungated
    | Full(cleared: bool)
    | Passed
    | Sending
    | Settling(n: nat, seen: nat, after: After)
    | Owing(amount: nat, after: After)
    | Freeing(amount: nat, after: After, seen: nat)
    | Leaving

  datatype Slot = Slot(count: nat, pc: Pc)

  datatype World = World(inFlight: nat, active: nat, slots: map<nat, Slot>)

  /** `StallSettle` takes a late credit while the window is full, `StallAbandon` gives the slot's count
      up; a send follows either without another test. A credit is cumulative and sent only when it has
      grown, so what it newly covers is never nothing. */
  datatype Act =
    | Register(t: nat)
    | Construct(t: nat)
    | ClearGate(t: nat)
    | SkipGate(t: nat)
    | PassCwnd(t: nat)
    | FailCwnd(t: nat)
    | StallSettle(t: nat, n: nat)
    | StallAbandon(t: nat)
    | AddAggregate(t: nat)
    | AddSlot(t: nat)
    | BeginSettle(t: nat, n: nat)
    | SwapSlot(t: nat, spurious: bool)
    | BeginDrop(t: nat)
    | LoadAggregate(t: nat)
    | SwapAggregate(t: nat, spurious: bool)
    | Leave(t: nat)

  function Start(): World { World(0, 0, map[]) }

  predicate AtCwndTest(pc: Pc) { pc.Cleared? || pc.Ungated? || pc.Full? }

  /** Past `has_room`, and not yet sent. */
  predicate IsFresh(pc: Pc) { pc.Cleared? || (pc.Full? && pc.cleared) }

  ghost predicate Enabled(w: World, a: Act, ceiling: nat) {
    if a.Register? then a.t !in w.slots
    else
      a.t in w.slots &&
      var s := w.slots[a.t];
      match a
      case Construct(_) => s.pc.Registering?
      case ClearGate(_) => s.pc.Idle? && RoomFor(w.inFlight, ceiling, s.count, w.active)
      case SkipGate(_) => s.pc.Idle?
      case PassCwnd(_) => AtCwndTest(s.pc) && CwndRoomFor(w.inFlight, ceiling)
      case FailCwnd(_) => AtCwndTest(s.pc) && !CwndRoomFor(w.inFlight, ceiling)
      case StallSettle(_, n) => s.pc.Full? && n > 0
      case StallAbandon(_) => s.pc.Full?
      case AddAggregate(_) => s.pc.Passed?
      case AddSlot(_) => s.pc.Sending?
      case BeginSettle(_, n) => s.pc.Idle? && n > 0
      case SwapSlot(_, _) => s.pc.Settling?
      case BeginDrop(_) => s.pc.Idle? || s.pc.Full?
      case LoadAggregate(_) => s.pc.Owing?
      case SwapAggregate(_, _) => s.pc.Freeing?
      case Leave(_) => s.pc.Leaving?
  }

  function Resume(after: After): Pc {
    match after
    case Rest => Idle
    case Pass => Passed
    case Close => Leaving
  }

  /** What a task does once it knows how much it owes the aggregate: nothing, if that is zero. */
  function Owe(amount: nat, after: After): Pc { if amount > 0 then Owing(amount, after) else Resume(after) }

  function Put(w: World, t: nat, s: Slot): World { w.(slots := w.slots[t := s]) }

  ghost function Next(w: World, a: Act, ceiling: nat): World
    requires Enabled(w, a, ceiling)
  {
    var t := a.t;
    match a
    case Register(_) => Put(w.(active := w.active + 1), t, Slot(0, Registering))
    case Construct(_) => Put(w, t, Slot(0, Idle))
    case ClearGate(_) => Put(w, t, w.slots[t].(pc := Cleared))
    case SkipGate(_) => Put(w, t, w.slots[t].(pc := Ungated))
    case PassCwnd(_) => Put(w, t, w.slots[t].(pc := Passed))
    case FailCwnd(_) => Put(w, t, w.slots[t].(pc := Full(IsFresh(w.slots[t].pc))))
    case StallSettle(_, n) => Put(w, t, w.slots[t].(pc := Settling(n, w.slots[t].count, Pass)))
    case StallAbandon(_) => Put(w, t, Slot(0, Owe(w.slots[t].count, Pass)))
    case AddAggregate(_) => Put(w.(inFlight := w.inFlight + 1), t, w.slots[t].(pc := Sending))
    case AddSlot(_) => Put(w, t, Slot(w.slots[t].count + 1, Idle))
    case BeginSettle(_, n) => Put(w, t, w.slots[t].(pc := Settling(n, w.slots[t].count, Rest)))
    case SwapSlot(_, spurious) =>
      var s := w.slots[t];
      var removed := Min(s.pc.seen, s.pc.n);
      if s.count == s.pc.seen && !spurious then Put(w, t, Slot(s.pc.seen - removed, Owe(removed, s.pc.after)))
      else Put(w, t, s.(pc := Settling(s.pc.n, s.count, s.pc.after)))
    case BeginDrop(_) => Put(w, t, w.slots[t].(pc := Owe(w.slots[t].count, Close)))
    case LoadAggregate(_) =>
      var s := w.slots[t];
      Put(w, t, s.(pc := Freeing(s.pc.amount, s.pc.after, w.inFlight)))
    case SwapAggregate(_, spurious) =>
      var s := w.slots[t];
      if w.inFlight == s.pc.seen && !spurious
      then Put(w.(inFlight := Monus(w.inFlight, s.pc.amount)), t, s.(pc := Resume(s.pc.after)))
      else Put(w, t, s.(pc := s.pc.(seen := w.inFlight)))
    case Leave(_) => w.(active := Monus(w.active, 1), slots := w.slots - {t})
  }

  ghost predicate StepAt(states: seq<World>, acts: seq<Act>, ceiling: nat, i: nat)
    requires |states| == |acts| + 1 && i < |acts|
  {
    Enabled(states[i], acts[i], ceiling) && states[i + 1] == Next(states[i], acts[i], ceiling)
  }

  /** Every interleaving of any number of tunnels under a fixed ceiling, from an empty window. */
  ghost predicate Run(states: seq<World>, acts: seq<Act>, ceiling: nat) {
    && |states| == |acts| + 1 && states[0] == Start()
    && forall i: nat :: i < |acts| ==> StepAt(states, acts, ceiling, i)
  }

  // ---------------------------------------------------------------- conservation

  /** What a slot accounts for in the aggregate: the blocks it counts, unless it is being dropped and
      has already read them, plus its half-finished update. */
  function Held(s: Slot): nat {
    match s.pc
    case Sending => s.count + 1
    case Owing(m, after) => (if after.Close? then 0 else s.count) + m
    case Freeing(m, after, _) => (if after.Close? then 0 else s.count) + m
    case Leaving => 0
    case _ => s.count
  }

  /** What a slot holds beyond one block, where the block a task is about to send is that one. */
  function Excess(s: Slot): nat { if s.pc.Passed? then Held(s) else Monus(Held(s), 1) }

  function HeldBy(slots: map<nat, Slot>): map<nat, nat> { map t | t in slots :: Held(slots[t]) }

  function ExcessBy(slots: map<nat, Slot>): map<nat, nat> { map t | t in slots :: Excess(slots[t]) }

  function Counts(slots: map<nat, Slot>): map<nat, nat> { map t | t in slots :: slots[t].count }

  /** Only a slot's own task changes its counter, so what a settle loaded is still there. */
  ghost predicate SlotOk(s: Slot) {
    && (s.pc.Settling? ==> s.pc.n > 0 && s.pc.seen == s.count && !s.pc.after.Close?)
    && (s.pc.Registering? ==> s.count == 0)
    && (s.pc.Owing? ==> s.pc.amount > 0)
    && (s.pc.Freeing? ==> s.pc.amount > 0)
  }

  ghost predicate SlotsOk(slots: map<nat, Slot>) { forall t :: t in slots ==> SlotOk(slots[t]) }

  ghost predicate Inv(w: World, ceiling: nat) {
    && SlotsOk(w.slots)
    && w.inFlight == Sum(HeldBy(w.slots))
    && w.active == |w.slots.Keys|
    && Sum(ExcessBy(w.slots)) <= Monus(ceiling, 1)
  }

  lemma PutSums(slots: map<nat, Slot>, t: nat, s: Slot)
    ensures Sum(HeldBy(slots[t := s])) + (if t in slots then Held(slots[t]) else 0) == Sum(HeldBy(slots)) + Held(s)
    ensures Sum(ExcessBy(slots[t := s])) + (if t in slots then Excess(slots[t]) else 0) == Sum(ExcessBy(slots)) + Excess(s)
  {
    hide Sum; hide Held; hide Excess;
    SumUpdate(HeldBy(slots), t, Held(s));
    SumUpdate(ExcessBy(slots), t, Excess(s));
    assert HeldBy(slots[t := s]) == HeldBy(slots)[t := Held(s)];
    assert ExcessBy(slots[t := s]) == ExcessBy(slots)[t := Excess(s)];
  }

  lemma DropSums(slots: map<nat, Slot>, t: nat)
    requires t in slots && slots[t].pc.Leaving?
    ensures Sum(HeldBy(slots - {t})) == Sum(HeldBy(slots))
    ensures Sum(ExcessBy(slots - {t})) == Sum(ExcessBy(slots))
  {
    hide Sum;
    SumUpdate(HeldBy(slots), t, 0);
    SumUpdate(ExcessBy(slots), t, 0);
    assert HeldBy(slots - {t}) == HeldBy(slots) - {t};
    assert ExcessBy(slots - {t}) == ExcessBy(slots) - {t};
  }

  /** What one slot holds is in the aggregate, so giving it back never saturates. */
  lemma HeldIsCounted(w: World, ceiling: nat, t: nat)
    requires Inv(w, ceiling) && t in w.slots
    ensures Held(w.slots[t]) <= w.inFlight
  {
    SumMember(HeldBy(w.slots), t);
  }

  /** The excess is at most what is held, and what is held at most the excess with one more a tunnel. */
  lemma HeldAndExcess(slots: map<nat, Slot>)
    ensures Sum(ExcessBy(slots)) <= Sum(HeldBy(slots)) <= Sum(ExcessBy(slots)) + |slots.Keys|
  {
    hide Sum; hide Held;
    assert HeldBy(slots).Keys == slots.Keys == ExcessBy(slots).Keys;
    SumsCompare(ExcessBy(slots), HeldBy(slots), 0);
    SumsCompare(HeldBy(slots), ExcessBy(slots), 1);
  }

  function HeldAt(w: World, t: nat): nat { if t in w.slots then Held(w.slots[t]) else 0 }

  function ExcessAt(w: World, t: nat): nat { if t in w.slots then Excess(w.slots[t]) else 0 }

  /** Each step but the last of a drop changes one slot, and moves the aggregate with it. Only passing
      the test of the aggregate can add to a slot's excess: a send forced past it has first given a block
      back, or has none. */
  lemma StepMoves(w: World, a: Act, ceiling: nat)
    requires Enabled(w, a, ceiling) && !a.Leave?
    requires a.t in w.slots ==> SlotOk(w.slots[a.t]) && Held(w.slots[a.t]) <= w.inFlight
    ensures var w' := Next(w, a, ceiling);
      && a.t in w'.slots && w'.slots == w.slots[a.t := w'.slots[a.t]] && SlotOk(w'.slots[a.t])
      && w'.inFlight + HeldAt(w, a.t) == w.inFlight + HeldAt(w', a.t)
      && (a.PassCwnd? || ExcessAt(w', a.t) <= ExcessAt(w, a.t))
  {
    hide FairShareOf;
  }

  lemma StepSlots(w: World, a: Act, ceiling: nat)
    requires Enabled(w, a, ceiling) && !a.Leave?
    ensures var w' := Next(w, a, ceiling);
      a.t in w'.slots && w'.slots == w.slots[a.t := w'.slots[a.t]]
      && w'.active == if a.Register? then w.active + 1 else w.active
  {
    hide Owe; hide FairShareOf; hide Resume; hide RoomFor; hide IsFresh;
  }

  lemma StepCounts(w: World, a: Act, ceiling: nat)
    requires Enabled(w, a, ceiling) && w.active == |w.slots.Keys|
    ensures var w' := Next(w, a, ceiling); w'.active == |w'.slots.Keys|
  {
    hide Owe; hide FairShareOf; hide Resume;
    var w' := Next(w, a, ceiling);
    if a.Leave? {
      assert w'.slots.Keys == w.slots.Keys - {a.t};
    } else {
      StepSlots(w, a, ceiling);
      assert a.Register? <==> a.t !in w.slots;
      hide Next;
      assert w'.slots.Keys == w.slots.Keys + {a.t};
    }
  }

  lemma PassStays(w: World, a: Act, ceiling: nat)
    requires Enabled(w, a, ceiling) && a.PassCwnd?
    ensures Next(w, a, ceiling).inFlight == w.inFlight < ceiling
  {}

  lemma NextKeeps(w: World, a: Act, ceiling: nat)
    requires Inv(w, ceiling) && Enabled(w, a, ceiling)
    ensures Inv(Next(w, a, ceiling), ceiling)
  {
    hide Sum; hide HeldBy; hide ExcessBy; hide Held; hide Excess; hide FairShareOf;
    var t, w' := a.t, Next(w, a, ceiling);
    StepCounts(w, a, ceiling);
    if a.Leave? {
      DropSums(w.slots, t);
    } else {
      if t in w.slots {
        HeldIsCounted(w, ceiling, t);
      }
      StepMoves(w, a, ceiling);
      hide Next;
      PutSums(w.slots, t, w'.slots[t]);
      if a.PassCwnd? {
        PassStays(w, a, ceiling);
        HeldAndExcess(w'.slots);
      }
    }
  }

  lemma StartHolds(ceiling: nat)
    ensures Inv(Start(), ceiling)
  {
    assert HeldBy(map[]) == map[] && ExcessBy(map[]) == map[];
  }

  lemma {:induction false} RunKeeps(states: seq<World>, acts: seq<Act>, ceiling: nat, n: nat)
    requires Run(states, acts, ceiling) && n <= |acts|
    ensures Inv(states[n], ceiling)
  {
    hide Next; hide Inv; hide Enabled;
    if n == 0 {
      StartHolds(ceiling);
    } else {
      RunKeeps(states, acts, ceiling, n - 1);
      assert StepAt(states, acts, ceiling, n - 1);
      NextKeeps(states[n - 1], acts[n - 1], ceiling);
    }
  }

  // ---------------------------------------------------------------- what the counters say

  /** Over every interleaving the aggregate is the live slots' blocks plus the half-finished updates,
      and the tunnel count is the number of slots not yet gone. */
  lemma WindowBalances(states: seq<World>, acts: seq<Act>, ceiling: nat, i: nat)
    requires Run(states, acts, ceiling) && i <= |acts|
    ensures var w := states[i];
      && w.inFlight == Sum(HeldBy(w.slots))
      && w.active == |w.slots.Keys|
      && ((forall t :: t in w.slots ==> w.slots[t].pc.Idle?) ==> w.inFlight == Sum(Counts(w.slots)))
      && (w.slots == map[] ==> w.inFlight == 0 && w.active == 0)
  {
    RunKeeps(states, acts, ceiling, i);
    hide Run; hide Sum;
    var w := states[i];
    if forall t :: t in w.slots ==> w.slots[t].pc.Idle? {
      assert HeldBy(w.slots) == Counts(w.slots);
    }
    if w.slots == map[] {
      assert HeldBy(w.slots) == map[];
      SumOfNone();
    }
  }

  lemma SumOfNone()
    ensures Sum<nat>(map[]) == 0
  {}

  /** Neither unsigned subtraction ever meets a smaller number: a release takes exactly what its task
      owes from the aggregate, and a leaving tunnel is still counted. */
  lemma NothingSaturates(states: seq<World>, acts: seq<Act>, ceiling: nat, i: nat)
    requires Run(states, acts, ceiling) && i < |acts|
    ensures var w, w', a := states[i], states[i + 1], acts[i];
      && (a.SwapAggregate? ==> a.t in w.slots && w.slots[a.t].pc.Freeing?)
      && (a.SwapAggregate? && !a.spurious && w.slots[a.t].pc.seen == w.inFlight ==>
            w'.inFlight == w.inFlight - w.slots[a.t].pc.amount)
      && (a.Leave? ==> w'.active == w.active - 1)
  {
    assert StepAt(states, acts, ceiling, i);
    RunKeeps(states, acts, ceiling, i);
    hide Sum; hide HeldBy; hide ExcessBy; hide FairShareOf; hide Run;
    if acts[i].SwapAggregate? {
      HeldIsCounted(states[i], ceiling, acts[i].t);
    }
    if acts[i].Leave? {
      assert acts[i].t in states[i].slots.Keys;
    }
  }

  /** A settle never gives back what its tunnel does not hold: the swap that ends its first loop takes
      the smaller of the credit and the slot's count, and carries exactly that much to the aggregate. */
  lemma SettleTakesWhatIsHeld(states: seq<World>, acts: seq<Act>, ceiling: nat, i: nat)
    requires Run(states, acts, ceiling) && i < |acts| && acts[i].SwapSlot? && !acts[i].spurious
    ensures var t := acts[i].t;
      && t in states[i].slots && t in states[i + 1].slots && states[i].slots[t].pc.Settling?
      && var s, s' := states[i].slots[t], states[i + 1].slots[t];
         s'.count == Monus(s.count, s.pc.n) && s'.pc == Owe(s.count - s'.count, s.pc.after)
  {
    assert StepAt(states, acts, ceiling, i);
    RunKeeps(states, acts, ceiling, i);
    hide Sum; hide HeldBy; hide ExcessBy; hide FairShareOf; hide Run;
    assert SlotOk(states[i].slots[acts[i].t]);
  }

  /** No step of one tunnel's task changes what any other tunnel holds, and the aggregate less its own
      part stays what it was: a bulk tunnel's credits free nobody else's blocks. */
  lemma OthersUntouched(states: seq<World>, acts: seq<Act>, ceiling: nat, i: nat)
    requires Run(states, acts, ceiling) && i < |acts|
    ensures var w, w', t := states[i], states[i + 1], acts[i].t;
      w'.slots - {t} == w.slots - {t} && w'.inFlight - HeldAt(w', t) == w.inFlight - HeldAt(w, t)
  {
    assert StepAt(states, acts, ceiling, i);
    RunKeeps(states, acts, ceiling, i);
    hide Sum; hide HeldBy; hide ExcessBy; hide FairShareOf; hide Run;
    var w, a := states[i], acts[i];
    if a.t in w.slots {
      HeldIsCounted(w, ceiling, a.t);
    }
    if !a.Leave? {
      StepMoves(w, a, ceiling);
    }
  }

  /** Without interference, settling is the sequential `Settle`: the slot loses what it can and the
      aggregate exactly that. */
  lemma UninterruptedIsSequential(w: World, t: nat, n: nat, ceiling: nat) returns (states: seq<World>, acts: seq<Act>)
    requires Enabled(w, BeginSettle(t, n), ceiling)
    ensures |states| == |acts| + 1 && states[0] == w && forall i: nat :: i < |acts| ==> StepAt(states, acts, ceiling, i)
    ensures acts <= [BeginSettle(t, n), SwapSlot(t, false), LoadAggregate(t), SwapAggregate(t, false)]
    ensures states[|acts|] == Settled(w, t, n)
  {
    var w1 := Next(w, BeginSettle(t, n), ceiling);
    var w2 := Next(w1, SwapSlot(t, false), ceiling);
    if w.slots[t].count == 0 {
      assert w2.slots == w.slots == Settled(w, t, n).slots;
      states, acts := [w, w1, w2], [BeginSettle(t, n), SwapSlot(t, false)];
    } else {
      var w3 := Next(w2, LoadAggregate(t), ceiling);
      var w4 := Next(w3, SwapAggregate(t, false), ceiling);
      assert w4.slots == Settled(w, t, n).slots;
      states := [w, w1, w2, w3, w4];
      acts := [BeginSettle(t, n), SwapSlot(t, false), LoadAggregate(t), SwapAggregate(t, false)];
    }
  }

  function Settled(w: World, t: nat, n: nat): World
    requires t in w.slots
  {
    Put(w.(inFlight := Monus(w.inFlight, Min(w.slots[t].count, n))), t, Slot(Monus(w.slots[t].count, n), Idle))
  }

  // ---------------------------------------------------------------- when the shares are kept

  /** What a slot holds, with the block its task is already cleared to send. */
  function Load(s: Slot): nat { Held(s) + if IsFresh(s.pc) || s.pc.Passed? then 1 else 0 }

  ghost predicate WithinShare(w: World, ceiling: nat) {
    forall t :: t in w.slots ==> Load(w.slots[t]) <= FairShareOf(ceiling, w.active)
  }

  /** The two things that can take a tunnel past its share: another joins while someone is above the
      share that leaves, or a tunnel already at its share sends on stale credits. */
  ghost predicate Breaks(w: World, a: Act, ceiling: nat) {
    || (a.Register? && exists t :: t in w.slots && Load(w.slots[t]) > FairShareOf(ceiling, w.active + 1))
    || (a.PassCwnd? && a.t in w.slots && !IsFresh(w.slots[a.t].pc) && w.slots[a.t].count >= FairShareOf(ceiling, w.active))
  }

  lemma OneSlotShare(w: World, a: Act, ceiling: nat)
    requires Inv(w, ceiling) && Enabled(w, a, ceiling) && WithinShare(w, ceiling) && !a.Register? && !a.Leave?
    ensures Load(Next(w, a, ceiling).slots[a.t]) <= FairShareOf(ceiling, w.active) <==> !Breaks(w, a, ceiling)
  {
    assert FairShareOf(ceiling, w.active) >= 1;
    hide FairShareOf; hide Sum; hide HeldBy; hide ExcessBy;
    assert SlotOk(w.slots[a.t]);
  }

  /** While every tunnel is within its share, a step keeps it so exactly when it is neither of the two:
      a send forced through a full window never takes a tunnel past its share. */
  lemma ShareKeptExactlyWhen(w: World, a: Act, ceiling: nat)
    requires Inv(w, ceiling) && Enabled(w, a, ceiling) && WithinShare(w, ceiling)
    ensures WithinShare(Next(w, a, ceiling), ceiling) <==> !Breaks(w, a, ceiling)
  {
    var w', t := Next(w, a, ceiling), a.t;
    if a.Leave? {
      assert t in w.slots.Keys && w'.slots.Keys == w.slots.Keys - {t};
      if w.active > 1 {
        ShareWidens(ceiling, w.active);
      }
    } else if a.Register? {
      hide FairShareOf; hide Inv;
      assert w'.active == w.active + 1 && forall x :: x in w.slots ==> x != t && w'.slots[x] == w.slots[x];
      assert Load(w'.slots[t]) == 0;
      if x :| x in w.slots && Load(w.slots[x]) > FairShareOf(ceiling, w.active + 1) {
        assert x in w'.slots && w'.slots[x] == w.slots[x];
      }
    } else {
      OneSlotShare(w, a, ceiling);
      StepSlots(w, a, ceiling);
      hide FairShareOf; hide Next; hide Load; hide Inv; hide Breaks;
    }
  }

  /** Tunnels within their share hold what their shares allow, and a tunnel below its share always
      has room while two blocks each fit. */
  lemma WithinShareBounds(w: World, ceiling: nat)
    requires Inv(w, ceiling) && WithinShare(w, ceiling)
    ensures w.inFlight <= w.active * FairShareOf(ceiling, w.active) <= Max(ceiling, MIN_TUNNEL_SHARE_BLOCKS * w.active)
    ensures forall t :: t in w.slots && w.slots[t].pc.Idle? && MIN_TUNNEL_SHARE_BLOCKS * w.active <= ceiling ==>
      (RoomFor(w.inFlight, ceiling, w.slots[t].count, w.active) <==> w.slots[t].count < FairShareOf(ceiling, w.active))
  {
    hide FairShareOf; hide Sum; hide ExcessBy;
    var m, share := HeldBy(w.slots), FairShareOf(ceiling, w.active);
    assert m.Keys == w.slots.Keys;
    assert forall t :: t in m ==> m[t] <= Load(w.slots[t]);
    SumBound(m, share);
    if w.active > 0 {
      ShareTimesTunnels(ceiling, w.active);
    }
    forall t | t in w.slots && w.slots[t].pc.Idle? && MIN_TUNNEL_SHARE_BLOCKS * w.active <= ceiling
      ensures RoomFor(w.inFlight, ceiling, w.slots[t].count, w.active) <==> w.slots[t].count < share
    {
      ShareSuffices(m, ceiling, t);
    }
  }

  ghost predicate NoBreak(states: seq<World>, acts: seq<Act>, ceiling: nat) {
    |states| == |acts| + 1 && forall i: nat :: i < |acts| ==> !Breaks(states[i], acts[i], ceiling)
  }

  lemma {:induction false} SharesHold(states: seq<World>, acts: seq<Act>, ceiling: nat, i: nat)
    requires Run(states, acts, ceiling) && NoBreak(states, acts, ceiling) && i <= |acts|
    ensures WithinShare(states[i], ceiling)
  {
    if i > 0 {
      hide Next; hide Inv; hide Enabled; hide Breaks; hide WithinShare;
      SharesHold(states, acts, ceiling, i - 1);
      RunKeeps(states, acts, ceiling, i - 1);
      assert StepAt(states, acts, ceiling, i - 1);
      ShareKeptExactlyWhen(states[i - 1], acts[i - 1], ceiling);
    }
  }

  /** The ceiling is kept, over every interleaving in which nobody joins onto a fuller window than the
      new share allows and no tunnel at its share sends on stale credits: the aggregate stays within the
      shares, so within the ceiling whenever that gives every tunnel two blocks, and then a tunnel may
      send exactly while it is below its share. Late credits and abandons may force any number of sends. */
  lemma CeilingKept(states: seq<World>, acts: seq<Act>, ceiling: nat, i: nat)
    requires Run(states, acts, ceiling) && NoBreak(states, acts, ceiling) && i <= |acts|
    ensures var w := states[i];
      && w.inFlight <= w.active * FairShareOf(ceiling, w.active) <= Max(ceiling, MIN_TUNNEL_SHARE_BLOCKS * w.active)
      && (MIN_TUNNEL_SHARE_BLOCKS * w.active <= ceiling ==>
           w.inFlight <= ceiling
           && forall t :: t in w.slots && w.slots[t].pc.Idle? ==>
                (RoomFor(w.inFlight, ceiling, w.slots[t].count, w.active) <==> w.slots[t].count < FairShareOf(ceiling, w.active)))
  {
    SharesHold(states, acts, ceiling, i);
    RunKeeps(states, acts, ceiling, i);
    hide Run; hide Inv; hide NoBreak; hide WithinShare; hide RoomFor; hide FairShareOf;
    WithinShareBounds(states[i], ceiling);
  }

  /** In any case, over every interleaving at all, the aggregate passes the ceiling by less than the number
      of tunnels there are, however many sends were forced and however many tunnels came and went. */
  lemma OvershootBounded(states: seq<World>, acts: seq<Act>, ceiling: nat, i: nat)
    requires Run(states, acts, ceiling) && i <= |acts|
    ensures states[i].inFlight <= Monus(ceiling, 1) + states[i].active
  {
    RunKeeps(states, acts, ceiling, i);
    HeldAndExcess(states[i].slots);
  }

  /** ... and no tunnel alone passes it: what a slot holds, with the block its task is about to send, is
      never more than the ceiling. So every send finds its slot below the ceiling, fresh, stale or forced. */
  lemma SlotBelowCeiling(states: seq<World>, acts: seq<Act>, ceiling: nat, i: nat)
    requires Run(states, acts, ceiling) && i <= |acts|
    ensures forall t :: t in states[i].slots ==>
      Held(states[i].slots[t]) + (if states[i].slots[t].pc.Passed? then 1 else 0) <= Max(ceiling, 1)
    ensures i < |acts| && acts[i].AddSlot? && ceiling > 0 ==>
      acts[i].t in states[i].slots && states[i].slots[acts[i].t].count < ceiling
  {
    RunKeeps(states, acts, ceiling, i);
    var slots := states[i].slots;
    forall t | t in slots
      ensures Held(slots[t]) + (if slots[t].pc.Passed? then 1 else 0) <= Max(ceiling, 1)
    {
      SumMember(ExcessBy(slots), t);
    }
    if i < |acts| {
      assert StepAt(states, acts, ceiling, i);
    }
  }
}
