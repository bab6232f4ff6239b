/** Symbols that arrive after their block was completed but before it was delivered. The receiver
    turns away only blocks below the delivery floor, so such a symbol is given a fresh manager. What
    follows from that, and exactly when it happens. */
module LateSymbols {
  import opened Base
  import opened Geometry
  import opened Codec
  import opened Link
  import opened Budget
  import opened Signals
  import opened Decoder
  import opened Sender
  import opened SenderHistory
  import opened Receiver
  import opened ReceiverSafety
  import opened TickSafety
  import opened Tunnel
  import opened TunnelRuns
  import opened Progress
  import opened Convergence

  /** Managers are about blocks that are neither delivered nor completed. */
  ghost predicate Clean(r: Recv) {
    forall b :: b in r.managers ==> !IsComplete(r, b)
  }

  /** Flushing after one more block is ready cannot reach a block that still has a manager. */
  lemma {:induction false} FlushKeepsClean(r: Recv)
    requires Clean(r)
    ensures Clean(Flush(r).recv)
    decreases |r.ready|
  {
    if r.nextDeliver in r.ready {
      FlushKeepsClean(r.(ready := r.ready - {r.nextDeliver}, nextDeliver := r.nextDeliver + 1));
    }
  }

  /** In terms of the step itself: a symbol leaves managers and completed blocks apart unless its block
      was waiting in `ready` and does not decode again on the spot. */
  lemma CleanAfterStep(q: RaptorQ, r: Recv, b: Ledger, block: nat, actualK: nat, s: Symbol, now: nat)
    requires Clean(r) && Settled(r) && block >= r.nextDeliver
    ensures Clean(RecvSymbol(q, r, b, block, actualK, s, now).recv) <==>
      block !in r.ready || SymbolStep(q, ManagerFor(r, block, actualK), b, now, s).action.Deliver?
  {
    var r1 := r.(highestSeen := Max(r.highestSeen, block));
    assert ManagerFor(r1, block, actualK) == ManagerFor(r, block, actualK);
    hide SymbolStep; hide ManagerFor;
    var step := SymbolStep(q, ManagerFor(r, block, actualK), b, now, s);
    var r2 := Routed(r1, block, step);
    if step.action.Deliver? {
      assert Clean(r2);
      FlushKeepsClean(r2);
    } else {
      FlushNothing(r2);
      assert block in r2.managers;
      assert block in r.ready ==> IsComplete(r2, block);
      assert block !in r.ready ==> forall x :: x in r2.managers ==> x in r.managers || x == block;
    }
  }

  /** A decoder that has been fed nothing answers a genuine symbol exactly when one is enough. */
  lemma FirstSymbolDelivers(q: RaptorQ, symbolSize: nat, k: nat, payload: bytes, b: Ledger, s: Symbol, now: nat)
    requires Sound(q) && Fountain(q, symbolSize) && Strict(q, symbolSize)
    requires GoodGeometry(symbolSize, k) && PayloadOk(symbolSize, k, payload)
    requires s.data == q.encode(EncoderFor(symbolSize, k, payload).block, s.esi)
    ensures var need := EncoderFor(symbolSize, k, payload).k;
      SymbolStep(q, NewMgr(need, symbolSize), b, now, s).action.Deliver? <==> need == 1
  {
    EncoderFits(symbolSize, k, payload);
    var e := EncoderFor(symbolSize, k, payload);
    var m := NewMgr(e.k, symbolSize);
    assert [] + [s] == [s];
    IndicesGrow([], s);
    assert Indices([]) == {};
    assert |Indices([s])| == 1;
    assert Genuine(q, e.block, [s]);
    assert q.decode(symbolSize * e.k, [s]).Some? <==> 1 >= e.k;
    assert q.decode(|e.block|, [s]) in {None, Some(e.block)};
    hide EncoderFor; hide UnpadBlock;
  }

  /** Exactly when a late symbol does no harm, in terms a caller can test before the call: its block is
      not waiting in `ready`, or is a block of a single symbol. The guard that would make it so always is
      the one `on_symbol` lacks. */
  lemma CleanExactlyWhen(q: RaptorQ, produced: seq<bytes>, r: Recv, b: Ledger, block: nat, s: Symbol, now: nat)
    requires Sound(q) && Fountain(q, r.symbolSize) && Strict(q, r.symbolSize)
    requires GoodGeometry(r.symbolSize, r.k) && RecvOk(q, produced, r) && Clean(r) && r.nextDeliver <= block < |produced|
    requires PayloadOk(r.symbolSize, r.k, produced[block])
    requires s.data == q.encode(EncoderFor(r.symbolSize, r.k, produced[block]).block, s.esi)
    ensures var actualK := EncoderFor(r.symbolSize, r.k, produced[block]).k % 0x1_0000;
      Clean(RecvSymbol(q, r, b, block, actualK, s, now).recv) <==> block !in r.ready || ClampK(actualK, r.k) == 1
  {
    var actualK := EncoderFor(r.symbolSize, r.k, produced[block]).k % 0x1_0000;
    CleanAfterStep(q, r, b, block, actualK, s, now);
    EncoderFits(r.symbolSize, r.k, produced[block]);
    hide RecvOk; hide Sound; hide Fountain; hide Strict; hide EncoderFor; hide SymbolStep; hide RecvSymbol; hide GoodGeometry;
    if block in r.ready {
      assert IsComplete(r, block) && block !in r.managers;
      FirstSymbolDelivers(q, r.symbolSize, r.k, produced[block], b, s, now);
    }
  }

  /** Reliable completions and ticks keep them apart in any case. */
  lemma ReliableKeepsClean(r: Recv, block: nat, data: bytes)
    requires Clean(r)
    ensures Clean(RecvReliable(r, block, data).recv)
  {
    if block >= r.nextDeliver {
      assert Clean(Completed(r, block, data));
      FlushKeepsClean(Completed(r, block, data));
    }
  }

  /** A manager whose block has been delivered. */
  predicate Zombie(r: Recv, b: nat) { b in r.managers && b < r.nextDeliver }

  /** A call with a symbol or a copy neither removes such a manager nor feeds it. */
  lemma ZombieUnfed(q: RaptorQ, r: Recv, b: Ledger, x: nat, block: nat, actualK: nat, s: Symbol, now: nat, data: bytes)
    requires Zombie(r, x)
    ensures Zombie(RecvSymbol(q, r, b, block, actualK, s, now).recv, x)
    ensures Zombie(RecvReliable(r, block, data).recv, x)
    ensures RecvSymbol(q, r, b, block, actualK, s, now).recv.managers[x] == r.managers[x]
    ensures RecvReliable(r, block, data).recv.managers[x] == r.managers[x]
  {
    hide SymbolStep; hide ManagerFor;
    if block >= r.nextDeliver {
      var r1 := r.(highestSeen := Max(r.highestSeen, block));
      var step := SymbolStep(q, ManagerFor(r1, block, actualK), b, now, s);
      FlushKeeps(Routed(r1, block, step));
      FlushKeeps(Completed(r, block, data));
    }
  }

  /** No step of the tunnel removes such a manager or gives it a symbol. */
  lemma ZombieStays(q: RaptorQ, s: Sys, a: Act, x: nat)
    requires Runnable(s) && Enabled(s, a) && Zombie(s.recv, x)
    ensures Zombie(Next(q, s, a).recv, x) && SameGathering(s.recv.managers[x], Next(q, s, a).recv.managers[x])
    ensures !a.ControlTick? ==> Next(q, s, a).recv.managers[x] == s.recv.managers[x]
  {
    hide Perform; hide TopUpPass; hide RecvSymbol; hide RecvReliable; hide RecvTick;
    match a
    case Arrive(i, now) =>
      var d := s.h.log[i];
      ZombieUnfed(q, s.recv, s.budget, x, d.block, d.k % 0x1_0000, Symbol(d.esi % ESI_LIMIT, d.data), now, []);
    case ToReceiver(sig) =>
      if sig.ReliableData? { ZombieUnfed(q, s.recv, s.budget, x, sig.block, 0, Symbol(0, []), 0, sig.data); }
    case ControlTick(order, link, now) =>
      TickGathers(s.recv, s.budget, order, link, now, x);
      TickKeepsDelivery(s.recv, s.budget, order, link, now);
    case _ =>
  }

  /** Over every run it stays for the life of the tunnel, with the symbols it had. */
  lemma {:induction false} ZombieForever(q: RaptorQ, states: seq<Sys>, acts: seq<Act>, i: nat, j: nat, x: nat)
    requires Run(q, states, acts) && i <= j <= |acts| && Zombie(states[i].recv, x)
    ensures Zombie(states[j].recv, x) && SameGathering(states[i].recv.managers[x], states[j].recv.managers[x])
    decreases j - i
  {
    if i < j {
      hide Next; hide Runnable; hide Enabled;
      ZombieForever(q, states, acts, i, j - 1, x);
      assert StepAt(q, states, acts, j - 1);
      ZombieStays(q, states[j - 1], acts[j - 1], x);
    }
  }

  // ---------------------------------------------------------------- what it costs

  /** A manager that waits on a NACK waits on, re-NACKs, or gives up; nothing else ends its wait but a
      symbol of its own. */
  predicate HoldsOrGivesUp(m: Mgr) {
    m.state.Degraded? || (m.state.NackSent? && m.received < m.k && m.reserved == m.k - m.received)
  }

  lemma StepHolds(m: Mgr, b: Ledger, c: TickCtx)
    requires MgrInv(m) && Backed(m, b) && HoldsOrGivesUp(m)
    ensures HoldsOrGivesUp(TickStep(m, b, c).mgr)
  {}

  lemma {:induction false} PassHolds(q: RaptorQ, produced: seq<bytes>, r: Recv, b: Ledger, order: seq<nat>,
                                     link: LinkState, now: nat, x: nat)
    requires RecvOk(q, produced, r) && Held(r) <= b.inFlight && x in r.managers && HoldsOrGivesUp(r.managers[x])
    ensures var m := TickAll(r, b, order, link, now).recv.managers; x in m && HoldsOrGivesUp(m[x])
  {
    hide Held; hide MgrOf; hide TickStep; hide AskOk; hide AskedOnce; hide Requests; hide HoldsOrGivesUp;
    if order != [] {
      var rest, y := order[..|order| - 1], order[|order| - 1];
      PassHolds(q, produced, r, b, rest, link, now, x);
      AllKeeps(q, produced, r, b, rest, link, now);
      var t := TickAll(r, b, rest, link, now);
      PassReady(q, produced, r, b, t, x);
      hide TickSoFar; hide ManagersOk; hide RecvOk; hide MgrInv; hide Backed;
      StepHolds(t.recv.managers[x], t.budget, TickCtx(now, link, r.highestSeen > x));
    }
  }

  lemma TickHolds(q: RaptorQ, s: Sys, order: seq<nat>, link: LinkState, now: nat, x: nat)
    requires Inv(q, s) && x in s.recv.managers && HoldsOrGivesUp(s.recv.managers[x])
    ensures var m := TickSys(s, order, link, now).recv.managers; x in m && HoldsOrGivesUp(m[x])
  {
    hide HistInv; hide Truthful; hide Sensible; hide RetiredComplete; hide GoodGeometry; hide AcksOk; hide Concat; hide Held;
    hide RecvOk; hide HoldsOrGivesUp; hide Upper; hide TickAll; hide LostScan;
    PassHolds(q, s.h.produced, s.recv, s.budget, order, link, now, x);
    var t := TickAll(s.recv, s.budget, order, link, now);
    ScanKeepsDelivery(t, t.recv.nextDeliver, Upper(t.recv));
  }

  /** The harm over whole runs: a manager of a delivered block that has NACKed keeps its `k - received`
      symbols of the shared budget reserved until it gives up, for no block that anyone waits for; no
      symbol, copy or acknowledgement ends that. */
  lemma {:induction false} ZombieHoldsBudget(q: RaptorQ, symbolSize: nat, k: nat, states: seq<Sys>, acts: seq<Act>,
                                             i: nat, j: nat, x: nat)
    requires Sound(q) && GoodGeometry(symbolSize, k) && TunnelRun(q, symbolSize, k, states, acts)
    requires IndicesFit(states[|acts|].h.log) && i <= j <= |acts|
    requires Zombie(states[i].recv, x) && states[i].recv.managers[x].state.NackSent?
    ensures Zombie(states[j].recv, x)
    ensures var m := states[j].recv.managers[x];
      m.received == states[i].recv.managers[x].received < m.k
      && (!m.state.Degraded? ==> m.state.NackSent? && m.reserved == m.k - m.received && m.reserved <= states[j].budget.inFlight)
    decreases j - i
  {
    hide Inv; hide Sound; hide IndicesFit; hide GoodGeometry; hide StepAt;
    ZombieForever(q, states, acts, i, j, x);
    ZombieHolds(q, symbolSize, k, states, acts, i, j, x);
    TunnelInv(q, symbolSize, k, states, acts, i);
    TunnelInv(q, symbolSize, k, states, acts, j);
    NackedIsShort(q, states[i], x);
    HeldInBudget(q, states[j], x);
  }

  lemma NackedIsShort(q: RaptorQ, s: Sys, x: nat)
    requires Inv(q, s) && x in s.recv.managers && s.recv.managers[x].state.NackSent?
    ensures HoldsOrGivesUp(s.recv.managers[x])
  {
    hide HistInv; hide Truthful; hide Sensible; hide RetiredComplete; hide AcksOk; hide Concat; hide EncoderFor; hide Genuine;
  }

  lemma HeldInBudget(q: RaptorQ, s: Sys, x: nat)
    requires Inv(q, s) && x in s.recv.managers
    ensures s.recv.managers[x].reserved <= s.budget.inFlight
  {
    hide HistInv; hide Truthful; hide Sensible; hide RetiredComplete; hide ReceiverSide; hide Held;
    HeldPart(s.recv, x);
  }

  lemma {:induction false} ZombieHolds(q: RaptorQ, symbolSize: nat, k: nat, states: seq<Sys>, acts: seq<Act>,
                                       i: nat, j: nat, x: nat)
    requires Sound(q) && GoodGeometry(symbolSize, k) && TunnelRun(q, symbolSize, k, states, acts)
    requires IndicesFit(states[|acts|].h.log) && i <= j <= |acts|
    requires Zombie(states[i].recv, x) && states[i].recv.managers[x].state.NackSent?
    ensures Zombie(states[j].recv, x) && HoldsOrGivesUp(states[j].recv.managers[x])
    decreases j - i
  {
    hide Inv; hide Sound; hide IndicesFit; hide GoodGeometry; hide HoldsOrGivesUp; hide Next; hide Enabled; hide Runnable;
    if i == j {
      TunnelInv(q, symbolSize, k, states, acts, i);
      NackedIsShort(q, states[i], x);
    } else {
      ZombieHolds(q, symbolSize, k, states, acts, i, j - 1, x);
      TunnelInv(q, symbolSize, k, states, acts, j - 1);
      assert StepAt(q, states, acts, j - 1);
      hide StepAt;
      ZombieHoldsOn(q, states[j - 1], acts[j - 1], x);
    }
  }

  lemma ZombieHoldsOn(q: RaptorQ, s: Sys, a: Act, x: nat)
    requires Inv(q, s) && Runnable(s) && Enabled(s, a) && Zombie(s.recv, x) && HoldsOrGivesUp(s.recv.managers[x])
    ensures Zombie(Next(q, s, a).recv, x) && HoldsOrGivesUp(Next(q, s, a).recv.managers[x])
  {
    hide *;
    ZombieStays(q, s, a, x);
    ZombieIs(s.recv, x);
    ZombieIs(Next(q, s, a).recv, x);
    if a.ControlTick? {
      NextTick(q, s, a.order, a.link, a.now);
      TickHolds(q, s, a.order, a.link, a.now, x);
    }
  }

  lemma ZombieIs(r: Recv, x: nat)
    ensures Zombie(r, x) ==> x in r.managers
  {}

  lemma NextTick(q: RaptorQ, s: Sys, order: seq<nat>, link: LinkState, now: nat)
    requires Runnable(s) && Enabled(s, ControlTick(order, link, now))
    ensures Next(q, s, ControlTick(order, link, now)) == TickSys(s, order, link, now)
  {
    hide TickSys;
  }

  /** And at each tick past its wait: while the link is uncongested and the missing symbols fit, it asks
      for repair of a delivered block again and reserves it; otherwise it asks for a reliable copy of one,
      unless it has done so before. */
  lemma ZombieAsks(t: Ticked, x: nat, highest: nat, link: LinkState, now: nat)
    requires Zombie(t.recv, x) && MgrInv(t.recv.managers[x]) && Backed(t.recv.managers[x], t.budget)
    requires CanGiveUp(t.recv.managers[x]) && Late(t.recv.managers[x], link, now)
    ensures var m, t' := t.recv.managers[x], TickOne(t, x, highest, link, now);
      if !link.IsCongested() && t.budget.inFlight - m.reserved + (m.k - m.received) <= t.budget.ceiling
      then t'.signals == t.signals + [Nack(x, m.received, m.k - m.received)]
           && t'.recv.managers[x].reserved == m.k - m.received
      else GivenUp(t'.recv, x) && t'.signals == t.signals + if x in t.recv.requested then [] else [ReliableRequest(x)]
  {}

  /** How one comes about: block `n + 1` was decoded while `n` is missing, a further symbol of it
      arrives that does not decode alone, and then `n` is completed. The zombie is left `Filling` with
      one arrival, ready to stall and ask for a block that was delivered. */
  lemma ZombieArises(q: RaptorQ, r: Recv, b: Ledger, actualK: nat, s: Symbol, now: nat, data: bytes)
    requires Settled(r) && r.nextDeliver + 1 in r.ready && r.nextDeliver + 1 !in r.managers
    requires q.decode(BlockLen(r.symbolSize, ClampK(actualK, r.k)), [s]) == None
    ensures var n, r1 := r.nextDeliver, RecvSymbol(q, r, b, r.nextDeliver + 1, actualK, s, now).recv;
      var r2 := RecvReliable(r1, n, data).recv;
      var m := NewMgr(ClampK(actualK, r.k), r.symbolSize).(fed := [s], received := 1, firstSymbolAt := Some(now));
      Zombie(r2, n + 1) && r2.managers == (r.managers - {n})[n + 1 := m]
  {
    var n := r.nextDeliver;
    var r0 := r.(highestSeen := Max(r.highestSeen, n + 1));
    var m := ManagerFor(r0, n + 1, actualK);
    assert [] + [s] == [s];
    var step := SymbolStep(q, m, b, now, s);
    assert !step.action.Deliver? && step.mgr == m.(fed := [s], received := 1, firstSymbolAt := Some(now));
    FlushNothing(Routed(r0, n + 1, step));
    hide SymbolStep; hide ManagerFor;
    var r1 := RecvSymbol(q, r, b, n + 1, actualK, s, now).recv;
    assert r1 == Routed(r0, n + 1, step);
    var c := Completed(r1, n, data);
    assert c.managers == (r.managers - {n})[n + 1 := step.mgr];
    var c1 := c.(ready := c.ready - {n}, nextDeliver := n + 1);
    var c2 := c1.(ready := c1.ready - {n + 1}, nextDeliver := n + 2);
    FlushKeeps(c2);
    assert Flush(c).recv == Flush(c1).recv == Flush(c2).recv;
  }

  // ---------------------------------------------------------------- retrying a dropped request

  /** Unmarking a block is meant to make a later tick ask again. On a late tick of a link that refuses
      repair it does so exactly when the block has no manager or one that has not yet given up: a
      block whose manager already degraded is never asked for again. */
  lemma UnmarkRetriesExactlyWhen(q: RaptorQ, produced: seq<bytes>, r: Recv, b: Ledger, order: seq<nat>,
                                 link: LinkState, now: nat, x: nat)
    requires RecvOk(q, produced, r) && Held(r) <= b.inFlight && Upper(r) <= |produced|
    requires Enumerates(order, r.managers) && AllLate(r, link, now) && RepairRefused(link, b)
    requires r.nextDeliver <= x < Upper(r) && x !in r.ready
    ensures var u := r.(requested := r.requested - {x});
      x in RecvTick(u, b, order, link, now).recv.requested <==> x !in r.managers || CanGiveUp(r.managers[x])
  {
    hide Late; hide CanGiveUp; hide MgrOf; hide RecvTick; hide RepairRefused;
    var u := r.(requested := r.requested - {x});
    ManagersSame(q, produced, r, u);
    HeldSame(r, u);
    assert Upper(u) == Upper(r);
    hide Held; hide Upper; hide ManagersOk;
    LateTickCoversAllButStuck(q, produced, u, b, order, link, now, x);
  }
}
