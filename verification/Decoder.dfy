/** The per-block fallback state machine: accumulate symbols, tell loss from reordering, and
    arbitrate between a NACK and the reliable retransmit. */
module Decoder {
  import opened Base
  import opened Codec
  import opened Link
  import opened Budget
  import opened Geometry

  /** 500 ms, the floor of the hard deadline. */
  const HARD_DEADLINE_FLOOR: nat := 500_000_000

  datatype Action = Idle | SendNack(have: nat, need: nat) | RequestReliableRetransmit | Deliver(data: bytes)

  datatype State = Filling | Stalled(since: nat) | NackSent(requested: nat, at: nat) | Done | Degraded

  datatype TickCtx = TickCtx(now: nat, link: LinkState, laterBlocksProgressing: bool)

  /** A block manager's fields. `fed` stands for the accumulated state of its RaptorQ decoder. */
  datatype Mgr = Mgr(k: nat, blockLen: nat, fed: seq<Symbol>, received: nat, reserved: nat,
                     firstSymbolAt: Option<nat>, state: State)
  {
    predicate IsTerminal() { state.Done? || state.Degraded? }

    predicate Short() { received < k }
  }

  function NewMgr(k: nat, symbolSize: nat): Mgr {
    Mgr(k, BlockLen(symbolSize, k), [], 0, 0, None, Filling)
  }

  datatype Step = Step(mgr: Mgr, budget: Ledger, action: Action)

  /** The decoder's answer after one more symbol: the source block, unpadded. */
  function AddSymbol(q: RaptorQ, blockLen: nat, fed: seq<Symbol>): Option<bytes> {
    match q.decode(blockLen, fed)
    case None => None
    case Some(padded) => UnpadBlock(padded)
  }

  function Released(m: Mgr, b: Ledger): (Mgr, Ledger) {
    if m.reserved > 0 then (m.(reserved := 0), b.Release(m.reserved)) else (m, b)
  }

  function SymbolStep(q: RaptorQ, m: Mgr, b: Ledger, now: nat, s: Symbol): Step {
    if m.IsTerminal() then Step(m, b, Idle)
    else
      var first := if m.firstSymbolAt.None? then Some(now) else m.firstSymbolAt;
      var m1 := m.(firstSymbolAt := first, received := m.received + 1, fed := m.fed + [s]);
      match AddSymbol(q, m1.blockLen, m1.fed)
      case Some(data) =>
        var (m2, b2) := Released(m1, b);
        Step(m2.(state := Done), b2, Deliver(data))
      case None =>
        if m1.state.NackSent? then
          var (m2, b2) := Released(m1, b);
          Step(m2.(state := Filling), b2, Idle)
        else Step(m1, b, Idle)
  }

  function HardDeadline(link: LinkState): nat {
    Max(link.StallGrace() * 8, HARD_DEADLINE_FLOOR)
  }

  /** The three-way test, with its hard-deadline escape. */
  predicate DeclaresStall(m: Mgr, c: TickCtx) {
    && m.firstSymbolAt.Some?
    && m.Short()
    && var elapsed := Monus(c.now, m.firstSymbolAt.value);
       elapsed > HardDeadline(c.link) || (c.laterBlocksProgressing && elapsed > c.link.StallGrace())
  }

  predicate NackTimedOut(m: Mgr, c: TickCtx) {
    m.state.NackSent? && Monus(c.now, m.state.at) > c.link.smoothedRtt && m.Short()
  }

  function StalledStep(m: Mgr, b: Ledger, c: TickCtx): Step {
    if c.link.IsCongested() then Step(m.(state := Degraded), b, RequestReliableRetransmit)
    else
      var need := Monus(m.k, m.received);
      if need == 0 then Step(m.(state := Filling), b, Idle)
      else if b.Fits(need) then
        Step(m.(reserved := need, state := NackSent(need, c.now)), b.Reserve(need), SendNack(m.received, need))
      else Step(m.(state := Degraded), b, RequestReliableRetransmit)
  }

  function TickStep(m: Mgr, b: Ledger, c: TickCtx): Step {
    match m.state
    case Filling =>
      if DeclaresStall(m, c) then StalledStep(m.(state := Stalled(c.now)), b, c) else Step(m, b, Idle)
    case Stalled(_) => StalledStep(m, b, c)
    case NackSent(_, at) =>
      if NackTimedOut(m, c) then
        var (m1, b1) := Released(m, b);
        StalledStep(m1.(state := Stalled(at)), b1, c)
      else Step(m, b, Idle)
    case Done => Step(m, b, Idle)
    case Degraded => Step(m, b, Idle)
  }

  // ---------------------------------------------------------------- the class

  class BlockManager {
    const q: RaptorQ
    const k: nat
    const blockLen: nat
    var fed: seq<Symbol>
    var received: nat
    var reserved: nat
    var firstSymbolAt: Option<nat>
    var state: State

    ghost function View(): Mgr
      reads this
    {
      Mgr(k, blockLen, fed, received, reserved, firstSymbolAt, state)
    }

    constructor (q: RaptorQ, k: nat, symbolSize: nat)
      ensures View() == NewMgr(k, symbolSize) && this.q == q
    {
      this.q, this.k, this.blockLen := q, k, BlockLen(symbolSize, k);
      fed, received, reserved, firstSymbolAt, state := [], 0, 0, None, Filling;
    }

    method OnSymbol(now: nat, s: Symbol, budget: RepairBudget) returns (action: Action)
      modifies this, budget`inFlight
      ensures Step(View(), budget.View(), action) == SymbolStep(q, old(View()), old(budget.View()), now, s)
    {
      if state.Done? || state.Degraded? {
        return Idle;
      }
      if firstSymbolAt.None? {
        firstSymbolAt := Some(now);
      }
      received := received + 1;
      fed := fed + [s];
      var decoded := AddSymbol(q, blockLen, fed);
      if decoded.Some? {
        ReleaseReservation(budget);
        state := Done;
        return Deliver(decoded.value);
      }
      if state.NackSent? {
        ReleaseReservation(budget);
        state := Filling;
      }
      action := Idle;
    }

    method ReleaseReservation(budget: RepairBudget)
      modifies this`reserved, budget`inFlight
      ensures (View(), budget.View()) == Released(old(View()), old(budget.View()))
    {
      if reserved > 0 {
        budget.Release(reserved);
        reserved := 0;
      }
    }

    method Tick(c: TickCtx, budget: RepairBudget) returns (action: Action)
      modifies this, budget`inFlight
      ensures Step(View(), budget.View(), action) == TickStep(old(View()), old(budget.View()), c)
    {
      match state
      case Filling => action := TickFilling(c, budget);
      case Stalled(_) => action := TickStalled(c, budget);
      case NackSent(_, at) => action := TickNackSent(c, budget, at);
      case Done => action := Idle;
      case Degraded => action := Idle;
    }

    method TickFilling(c: TickCtx, budget: RepairBudget) returns (action: Action)
      requires state.Filling?
      modifies this, budget`inFlight
      ensures Step(View(), budget.View(), action) == TickStep(old(View()), old(budget.View()), c)
    {
      if firstSymbolAt.None? {
        return Idle;
      }
      var elapsed := Monus(c.now, firstSymbolAt.value);
      var grace := c.link.StallGrace();
      var genuinelyBehind := c.laterBlocksProgressing;
      var pastGrace := elapsed > grace;
      var stillShort := received < k;
      var pastHardDeadline := elapsed > Max(grace * 8, HARD_DEADLINE_FLOOR);
      if stillShort && (pastHardDeadline || (genuinelyBehind && pastGrace)) {
        state := Stalled(c.now);
        action := TickStalled(c, budget);
      } else {
        action := Idle;
      }
    }

    method TickStalled(c: TickCtx, budget: RepairBudget) returns (action: Action)
      modifies this`reserved, this`state, budget`inFlight
      ensures Step(View(), budget.View(), action) == StalledStep(old(View()), old(budget.View()), c)
    {
      if c.link.IsCongested() {
        state := Degraded;
        return RequestReliableRetransmit;
      }
      var need := Monus(k, received);
      if need == 0 {
        state := Filling;
        return Idle;
      }
      var ok := budget.TryReserve(need);
      if ok {
        reserved, state := need, NackSent(need, c.now);
        action := SendNack(received, need);
      } else {
        state := Degraded;
        action := RequestReliableRetransmit;
      }
    }

    method TickNackSent(c: TickCtx, budget: RepairBudget, sentAt: nat) returns (action: Action)
      requires state.NackSent? && state.at == sentAt
      modifies this, budget`inFlight
      ensures Step(View(), budget.View(), action) == TickStep(old(View()), old(budget.View()), c)
    {
      var waited := Monus(c.now, sentAt);
      if waited > c.link.smoothedRtt && received < k {
        ReleaseReservation(budget);
        state := Stalled(sentAt);
        action := TickStalled(c, budget);
      } else {
        action := Idle;
      }
    }
  }

  // ---------------------------------------------------------------- the invariant between calls

  ghost predicate MgrInv(m: Mgr) {
    && !m.state.Stalled?
    && m.received == |m.fed|
    && (m.state.NackSent? <==> m.reserved > 0)
    && (m.state.NackSent? ==> m.reserved == m.state.requested == m.k - m.received)
    && (m.received > 0 && m.state.Filling? ==> m.firstSymbolAt.Some?)
  }

  /** A reservation is part of what the budget counts. */
  ghost predicate Backed(m: Mgr, b: Ledger) { m.reserved <= b.inFlight }

  /** One call's effect on manager and budget together: what the manager holds and what the budget
      counts move by the same amount, the rest of the budget is untouched, terminal states hold
      nothing and never change, and symbols are only ever gained. */
  ghost predicate Keeps(m: Mgr, b: Ledger, s: Step) {
    && MgrInv(s.mgr) && Backed(s.mgr, s.budget)
    && s.budget.inFlight - s.mgr.reserved == b.inFlight - m.reserved
    && s.budget.ceiling == b.ceiling
    && s.budget.inFlight <= Max(b.inFlight, b.ceiling)
    && (s.mgr.IsTerminal() ==> s.mgr.reserved == 0)
    && (m.IsTerminal() ==> s == Step(m, b, Idle))
    && m.received <= s.mgr.received && s.mgr.k == m.k && s.mgr.blockLen == m.blockLen
  }

  lemma SymbolStepKeeps(q: RaptorQ, m: Mgr, b: Ledger, now: nat, sym: Symbol)
    requires MgrInv(m) && Backed(m, b)
    ensures var s := SymbolStep(q, m, b, now, sym);
      && Keeps(m, b, s)
      && s.mgr.reserved == 0
      && (s.action.Deliver? <==> !m.IsTerminal() && s.mgr.state.Done?)
  {}

  lemma TickStepKeeps(m: Mgr, b: Ledger, c: TickCtx)
    requires MgrInv(m) && Backed(m, b)
    ensures var s := TickStep(m, b, c);
      && Keeps(m, b, s)
      && (s.action.RequestReliableRetransmit? <==> !m.state.Degraded? && s.mgr.state.Degraded?)
      && (s.action.SendNack? ==>
            s.mgr.state == NackSent(s.action.need, c.now) && s.action.need == s.mgr.reserved > 0
            && s.action.have + s.action.need == m.k && s.action.have == m.received && !c.link.IsCongested())
  {}

  /** What a symbol does, whole: a block done or given up ignores it. Otherwise it is counted and fed, starts
      the clock if it is the first, and ends the wait for repair; if the decoder then answers with a block
      that holds a payload, the payload is delivered. */
  lemma SymbolDoes(q: RaptorQ, m: Mgr, b: Ledger, now: nat, sym: Symbol)
    requires MgrInv(m) && Backed(m, b)
    ensures var st, fed := SymbolStep(q, m, b, now, sym), m.fed + [sym];
      if m.state.Done? || m.state.Degraded? then st == Step(m, b, Idle)
      else
        var answer := q.decode(m.blockLen, fed);
        var payload := if answer.Some? then UnpadBlock(answer.value) else None;
        st == Step(Mgr(m.k, m.blockLen, fed, m.received + 1, 0,
                       if m.firstSymbolAt.Some? then m.firstSymbolAt else Some(now), if payload.Some? then Done else Filling),
                   Ledger(b.inFlight - m.reserved, b.ceiling),
                   if payload.Some? then Deliver(payload.value) else Idle)
  {}

  /** When a tick acts on a block, with every time written out. Filling: a symbol has come, some are still
      missing, and since the first one either eight times the round trip with four deviations and half a
      second have passed, or one such grace and a later block has moved on. Waiting for repair: a round
      trip has passed since the NACK and some are still missing. */
  predicate IsDue(m: Mgr, laterSeen: bool, link: LinkState, now: nat) {
    m.received < m.k && match m.state
      case Filling =>
        m.firstSymbolAt.Some?
        && var grace := link.smoothedRtt + 4 * link.rttVar;
           (now > m.firstSymbolAt.value + 8 * grace && now > m.firstSymbolAt.value + 500_000_000)
           || (laterSeen && now > m.firstSymbolAt.value + grace)
      case NackSent(_, at) => now > at + link.smoothedRtt
      case _ => false
  }

  /** The link is congested, or what is missing does not fit beside what the other blocks hold. */
  predicate Refuses(m: Mgr, b: Ledger, link: LinkState) {
    link.regime == Congestion || b.inFlight - m.reserved + (m.k - m.received) > b.ceiling
  }

  /** What a tick does, whole: nothing unless the block is due; then it gives the block up if it must, and
      otherwise asks for exactly the missing symbols, reserves them, and waits anew. */
  lemma TickDoes(m: Mgr, b: Ledger, c: TickCtx)
    requires MgrInv(m) && Backed(m, b)
    ensures TickStep(m, b, c) != Step(m, b, Idle) <==> IsDue(m, c.laterBlocksProgressing, c.link, c.now)
    ensures IsDue(m, c.laterBlocksProgressing, c.link, c.now) ==>
      var need, free := m.k - m.received, b.inFlight - m.reserved;
      TickStep(m, b, c) ==
        if Refuses(m, b, c.link)
        then Step(m.(state := Degraded, reserved := 0), b.(inFlight := free), RequestReliableRetransmit)
        else Step(m.(state := NackSent(need, c.now), reserved := need), b.(inFlight := free + need), SendNack(m.received, need))
  {}

  /** Exactly when a tick gives a block up. */
  lemma GivesUpExactlyWhen(m: Mgr, b: Ledger, c: TickCtx)
    requires MgrInv(m) && Backed(m, b)
    ensures TickStep(m, b, c).action.RequestReliableRetransmit? <==>
      IsDue(m, c.laterBlocksProgressing, c.link, c.now) && Refuses(m, b, c.link)
  {
    TickDoes(m, b, c);
    hide TickStep; hide IsDue;
  }

  /** Arrivals are counted, not distinct symbols. Once K arrivals have failed to decode, no tick
      will ever act on the block again: it is neither NACKed nor given up, whatever the link, the
      budget or the time. */
  lemma OvercountedNeverStalls(m: Mgr, b: Ledger, c: TickCtx)
    requires MgrInv(m) && m.received >= m.k
    ensures TickStep(m, b, c) == Step(m, b, Idle)
  {}

  // ---------------------------------------------------------------- whole runs

  /** Between a block's events other blocks and the controller may move the budget anywhere, as long
      as this block's own reservation stays counted. */
  datatype Event =
    | SymbolArrives(now: nat, symbol: Symbol, budget: Ledger)
    | Ticks(ctx: TickCtx, budget: Ledger)

  function Apply(q: RaptorQ, m: Mgr, e: Event): Step {
    match e
    case SymbolArrives(now, s, b) => SymbolStep(q, m, b, now, s)
    case Ticks(c, b) => TickStep(m, b, c)
  }

  lemma ApplyKeeps(q: RaptorQ, m: Mgr, e: Event)
    requires MgrInv(m) && Backed(m, e.budget)
    ensures Keeps(m, e.budget, Apply(q, m, e))
    ensures Apply(q, m, e).mgr.received <= m.received + 1
    ensures var s := Apply(q, m, e); s.action.Deliver? || s.action.RequestReliableRetransmit? ==> s.mgr.IsTerminal()
  {
    match e
    case SymbolArrives(now, s, b) => SymbolStepKeeps(q, m, b, now, s);
    case Ticks(c, b) => TickStepKeeps(m, b, c);
  }

  lemma TerminalIdle(q: RaptorQ, m: Mgr, e: Event)
    requires m.IsTerminal()
    ensures Apply(q, m, e) == Step(m, e.budget, Idle)
  {}

  /** Only a tick NACKs, and it starts the wait anew; a tick on a waiting block either leaves it
      waiting at least as late, or gives it up, and NACKs again only past the round trip. */
  lemma ApplyNacks(q: RaptorQ, m: Mgr, e: Event)
    requires MgrInv(m) && Backed(m, e.budget)
    ensures var s := Apply(q, m, e);
      s.action.SendNack? ==>
        && e.Ticks? && s.mgr.state == NackSent(s.action.need, e.ctx.now)
        && s.action.have == m.received && s.action.have + s.action.need == m.k
        && (m.state.NackSent? ==> e.ctx.now > m.state.at + e.ctx.link.smoothedRtt)
    ensures var s := Apply(q, m, e);
      e.Ticks? && m.state.NackSent? ==>
        s.mgr.state.Degraded? || (s.mgr.state.NackSent? && s.mgr.state.at >= m.state.at)
    ensures m.state.Degraded? ==> Apply(q, m, e) == Step(m, e.budget, Idle)
  {}

  /** The manager after the first `n` events of a block that starts fresh. */
  function After(q: RaptorQ, k: nat, symbolSize: nat, events: seq<Event>, n: nat): Mgr
    requires n <= |events|
  {
    if n == 0 then NewMgr(k, symbolSize)
    else Apply(q, After(q, k, symbolSize, events, n - 1), events[n - 1]).mgr
  }

  function ActionAt(q: RaptorQ, k: nat, symbolSize: nat, events: seq<Event>, i: nat): Action
    requires i < |events|
  {
    Apply(q, After(q, k, symbolSize, events, i), events[i]).action
  }

  /** The environment never takes away what the block holds. */
  ghost predicate Fair(q: RaptorQ, k: nat, symbolSize: nat, events: seq<Event>) {
    forall i :: 0 <= i < |events| ==> FairAt(q, k, symbolSize, events, i)
  }

  ghost predicate FairAt(q: RaptorQ, k: nat, symbolSize: nat, events: seq<Event>, i: nat)
    requires i < |events|
  {
    Backed(After(q, k, symbolSize, events, i), events[i].budget)
  }

  lemma {:induction false} RunInvariant(q: RaptorQ, k: nat, symbolSize: nat, events: seq<Event>, n: nat)
    requires n <= |events| && Fair(q, k, symbolSize, events)
    ensures var m := After(q, k, symbolSize, events, n);
      MgrInv(m) && m.k == k && m.received <= n && (m.IsTerminal() ==> m.reserved == 0)
  {
    hide SymbolStep; hide TickStep; hide Apply;
    if n > 0 {
      RunInvariant(q, k, symbolSize, events, n - 1);
      assert FairAt(q, k, symbolSize, events, n - 1);
      ApplyKeeps(q, After(q, k, symbolSize, events, n - 1), events[n - 1]);
    }
  }

  lemma {:induction false} ReceivedGrows(q: RaptorQ, k: nat, symbolSize: nat, events: seq<Event>, i: nat, j: nat)
    requires i <= j <= |events| && Fair(q, k, symbolSize, events)
    ensures After(q, k, symbolSize, events, i).received <= After(q, k, symbolSize, events, j).received
    ensures After(q, k, symbolSize, events, i).IsTerminal() ==>
      After(q, k, symbolSize, events, j) == After(q, k, symbolSize, events, i)
    decreases j - i
  {
    hide SymbolStep; hide TickStep; hide Apply;
    if i < j {
      ReceivedGrows(q, k, symbolSize, events, i, j - 1);
      RunInvariant(q, k, symbolSize, events, j - 1);
      assert FairAt(q, k, symbolSize, events, j - 1);
      ApplyKeeps(q, After(q, k, symbolSize, events, j - 1), events[j - 1]);
    }
  }

  /** When the first symbol among the first `n` events came. */
  function FirstArrival(events: seq<Event>, n: nat): Option<nat>
    requires n <= |events|
  {
    if n == 0 then None
    else
      var before := FirstArrival(events, n - 1);
      if before.None? && events[n - 1].SymbolArrives? then Some(events[n - 1].now) else before
  }

  /** The patience of the stall test is counted from the block's first symbol, over any run: no later
      symbol, tick or NACK moves it. */
  lemma {:induction false} ClockStartsOnce(q: RaptorQ, k: nat, symbolSize: nat, events: seq<Event>, n: nat)
    requires n <= |events| && Fair(q, k, symbolSize, events)
    ensures var m := After(q, k, symbolSize, events, n);
      m.firstSymbolAt == FirstArrival(events, n) && (m.state.Filling? || m.firstSymbolAt.Some?)
  {
    hide SymbolStep; hide TickStep; hide Apply; hide MgrInv; hide Backed;
    if n > 0 {
      ClockStartsOnce(q, k, symbolSize, events, n - 1);
      RunInvariant(q, k, symbolSize, events, n - 1);
      assert FairAt(q, k, symbolSize, events, n - 1);
      ClockStep(q, After(q, k, symbolSize, events, n - 1), events[n - 1]);
    }
  }

  lemma ClockStep(q: RaptorQ, m: Mgr, e: Event)
    requires MgrInv(m) && Backed(m, e.budget) && (m.state.Filling? || m.firstSymbolAt.Some?)
    ensures var m' := Apply(q, m, e).mgr;
      && m'.firstSymbolAt == (if m.firstSymbolAt.None? && e.SymbolArrives? then Some(e.now) else m.firstSymbolAt)
      && (m'.state.Filling? || m'.firstSymbolAt.Some?)
  {}

  predicate SilentBetween(events: seq<Event>, i: nat, j: nat)
    requires i < j < |events|
  {
    forall n :: i < n < j ==> events[n].Ticks?
  }

  /** While no symbol arrives after a NACK, the manager either still waits on a NACK at least as
      recent, or has given the block up. */
  lemma {:induction false} NackClock(q: RaptorQ, k: nat, symbolSize: nat, events: seq<Event>, i: nat, j: nat)
    requires i < j < |events| && Fair(q, k, symbolSize, events) && SilentBetween(events, i, j)
    requires ActionAt(q, k, symbolSize, events, i).SendNack?
    ensures events[i].Ticks?
    ensures var m := After(q, k, symbolSize, events, j);
      m.state.Degraded? || (m.state.NackSent? && m.state.at >= events[i].ctx.now)
    decreases j - i
  {
    hide SymbolStep; hide TickStep; hide Apply;
    RunInvariant(q, k, symbolSize, events, j - 1);
    assert FairAt(q, k, symbolSize, events, j - 1);
    ApplyNacks(q, After(q, k, symbolSize, events, j - 1), events[j - 1]);
    if i + 1 < j {
      assert SilentBetween(events, i, j - 1);
      NackClock(q, k, symbolSize, events, i, j - 1);
    }
  }

  /** Over any run of a block: of two NACKs, the later asks for no more than the earlier and reports
      no less; and unless a symbol arrived in between, they are more than a round trip apart. */
  lemma NacksAreSpaced(q: RaptorQ, k: nat, symbolSize: nat, events: seq<Event>, i: nat, j: nat)
    requires i < j < |events| && Fair(q, k, symbolSize, events)
    requires ActionAt(q, k, symbolSize, events, i).SendNack? && ActionAt(q, k, symbolSize, events, j).SendNack?
    ensures events[i].Ticks? && events[j].Ticks?
    ensures var a, a' := ActionAt(q, k, symbolSize, events, i), ActionAt(q, k, symbolSize, events, j);
      a'.need <= a.need && a.have <= a'.have && a.have + a.need == k && a'.have + a'.need == k
    ensures SilentBetween(events, i, j) ==>
      events[j].ctx.now > events[i].ctx.now + events[j].ctx.link.smoothedRtt
  {
    RunInvariant(q, k, symbolSize, events, i);
    RunInvariant(q, k, symbolSize, events, j);
    hide SymbolStep; hide TickStep; hide Apply;
    ReceivedGrows(q, k, symbolSize, events, i, j);
    assert FairAt(q, k, symbolSize, events, i) && FairAt(q, k, symbolSize, events, j);
    ApplyNacks(q, After(q, k, symbolSize, events, i), events[i]);
    ApplyNacks(q, After(q, k, symbolSize, events, j), events[j]);
    if SilentBetween(events, i, j) {
      NackClock(q, k, symbolSize, events, i, j);
    }
  }

  /** A block is given up at most once in its life, and nothing follows. */
  lemma GivenUpOnce(q: RaptorQ, k: nat, symbolSize: nat, events: seq<Event>, i: nat, j: nat)
    requires i < j < |events| && Fair(q, k, symbolSize, events)
    requires ActionAt(q, k, symbolSize, events, i).RequestReliableRetransmit?
          || ActionAt(q, k, symbolSize, events, i).Deliver?
    ensures ActionAt(q, k, symbolSize, events, j) == Idle
  {
    hide SymbolStep; hide TickStep; hide Apply;
    RunInvariant(q, k, symbolSize, events, i);
    assert FairAt(q, k, symbolSize, events, i);
    ApplyKeeps(q, After(q, k, symbolSize, events, i), events[i]);
    assert After(q, k, symbolSize, events, i + 1).IsTerminal();
    ReceivedGrows(q, k, symbolSize, events, i + 1, j);
    TerminalIdle(q, After(q, k, symbolSize, events, j), events[j]);
  }

  /** The symbols of `list` arrive in order. */
  function ArrivalsOf(list: seq<Symbol>, now: nat, b: Ledger): (events: seq<Event>)
    ensures |events| == |list| && forall i :: 0 <= i < |list| ==> events[i] == SymbolArrives(now, list[i], b)
  {
    seq(|list|, (i: nat) requires i < |list| => SymbolArrives(now, list[i], b))
  }

  lemma {:induction false} FewIndices(fed: seq<Symbol>)
    ensures |Indices(fed)| <= |fed|
  {
    if fed == [] {
      assert Indices(fed) == {};
    } else {
      var rest, last := fed[..|fed| - 1], fed[|fed| - 1];
      FewIndices(rest);
      assert fed == rest + [last];
      assert Indices(fed) <= Indices(rest) + {last.esi};
      SubsetSize(Indices(fed), Indices(rest) + {last.esi});
    }
  }

  /** Up to K symbols, a decoder that needs more declines, and the manager goes on filling. */
  lemma {:induction false} ListDeclines(q: RaptorQ, symbolSize: nat, k: nat, block: bytes, list: seq<Symbol>, n: nat,
                                        now: nat, b: Ledger)
    requires NeedsExtra(q, symbolSize, 1) && |block| == BlockLen(symbolSize, k) && Genuine(q, block, list) && n <= |list| <= k
    ensures var m := After(q, k, symbolSize, ArrivalsOf(list, now, b), n);
      m.state.Filling? && m.received == n && m.k == k && m.blockLen == BlockLen(symbolSize, k) && m.fed == list[..n] && MgrInv(m)
  {
    if n > 0 {
      ListDeclines(q, symbolSize, k, block, list, n - 1, now, b);
      var fed := list[..n];
      assert fed == list[..n - 1] + [list[n - 1]];
      assert Genuine(q, block, fed);
      FewIndices(fed);
      assert q.decode(symbolSize * k, fed) == None;
    }
  }

  /** ... and every geometry and every block leads there, with a sound codec that needs one symbol more than
      K: its K source symbols, or any K distinct ones, arrive, and the block is silent for good, though any
      further symbol would complete it. */
  lemma OvercountedReachable(q: RaptorQ, symbolSize: nat, k: nat, block: bytes, list: seq<Symbol>, now: nat, b: Ledger)
    requires Sound(q) && NeedsExtra(q, symbolSize, 1) && |block| == BlockLen(symbolSize, k) && Genuine(q, block, list)
    requires |list| == |Indices(list)| == k
    ensures var m := After(q, k, symbolSize, ArrivalsOf(list, now, b), k);
      && m.state.Filling? && m.received >= m.k && m.fed == list
      && (forall b', c :: TickStep(m, b', c) == Step(m, b', Idle))
      && (forall s: Symbol :: s.data == q.encode(block, s.esi) && s.esi !in Indices(list)
            ==> q.decode(m.blockLen, m.fed + [s]) == Some(block))
  {
    ListDeclines(q, symbolSize, k, block, list, k, now, b);
    hide TickStep;
    var m := After(q, k, symbolSize, ArrivalsOf(list, now, b), k);
    assert list[..k] == list;
    forall b', c
      ensures TickStep(m, b', c) == Step(m, b', Idle)
    {
      OvercountedNeverStalls(m, b', c);
    }
    forall s: Symbol | s.data == q.encode(block, s.esi) && s.esi !in Indices(list)
      ensures q.decode(m.blockLen, m.fed + [s]) == Some(block)
    {
      OneMoreIndex(list, s);
      assert Genuine(q, block, list + [s]);
      assert q.decode(symbolSize * k, list + [s]).Some?;
    }
  }

  lemma OneMoreIndex(fed: seq<Symbol>, s: Symbol)
    requires s.esi !in Indices(fed)
    ensures |Indices(fed + [s])| == |Indices(fed)| + 1
  {
    var all := fed + [s];
    assert all[|fed|] == s;
    forall e | e in Indices(fed)
      ensures e in Indices(all)
    {
      var i :| 0 <= i < |fed| && fed[i].esi == e;
      assert all[i].esi == e;
    }
    assert Indices(all) == Indices(fed) + {s.esi};
  }

  /** The fountain property turned into delivery: if the symbols of a padded payload that have
      reached a block, with the one arriving now, have K distinct indices, this arrival delivers that
      payload, in whatever order and with whatever repeats they came. */
  lemma EnoughSymbolsDeliver(q: RaptorQ, symbolSize: nat, payload: bytes, m: Mgr, b: Ledger, now: nat, s: Symbol)
    requires Sound(q) && Fountain(q, symbolSize)
    requires MgrInv(m) && !m.IsTerminal() && m.blockLen == BlockLen(symbolSize, m.k)
    requires |payload| + LEN_PREFIX <= m.blockLen && |payload| < Words(4)
    requires Genuine(q, PadBlock(payload, m.blockLen), m.fed + [s])
    requires |Indices(m.fed + [s])| >= m.k
    ensures SymbolStep(q, m, b, now, s).action == Deliver(payload)
  {
    var block := PadBlock(payload, m.blockLen);
    assert q.decode(|block|, m.fed + [s]) == Some(block);
    PadUnpad(payload, m.blockLen);
  }
}
