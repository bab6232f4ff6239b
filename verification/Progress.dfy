/** Progress over whole runs, whatever else happens in between: reliable copies complete the blocks they
    carry, and enough distinct symbols complete theirs. */
module Progress {
  import opened Base
  import opened Geometry
  import opened Codec
  import opened Link
  import opened Budget
  import opened Decoder
  import opened Sender
  import opened SenderHistory
  import opened Receiver
  import opened ReceiverSafety
  import opened Tunnel
  import opened TunnelSafety
  import opened TunnelRuns

  // ---------------------------------------------------------------- completion is for good

  lemma SymbolCompletes(q: RaptorQ, r: Recv, b: Ledger, block: nat, actualK: nat, s: Symbol, now: nat)
    ensures var r' := RecvSymbol(q, r, b, block, actualK, s, now).recv;
      var r1 := r.(highestSeen := Max(r.highestSeen, block));
      forall x :: (IsComplete(r', x) <==>
        IsComplete(r, x) || (x == block && SymbolStep(q, ManagerFor(r1, block, actualK), b, now, s).action.Deliver?))
  {
    hide SymbolStep; hide ManagerFor; hide Flush;
    var r1 := r.(highestSeen := Max(r.highestSeen, block));
    FlushKeeps(Routed(r1, block, SymbolStep(q, ManagerFor(r1, block, actualK), b, now, s)));
  }

  lemma ReliableCompletes(r: Recv, block: nat, data: bytes)
    ensures forall x :: (IsComplete(RecvReliable(r, block, data).recv, x) <==> IsComplete(r, x) || x == block)
  {
    hide Flush;
    FlushKeeps(Completed(r, block, data));
  }

  /** The step that hands the receiver a reliable copy of a block. */
  predicate CopyArrives(a: Act, x: nat) { a.ToReceiver? && a.signal.ReliableData? && a.signal.block == x }

  lemma CompleteStays(q: RaptorQ, s: Sys, a: Act, x: nat)
    requires Runnable(s) && Enabled(s, a) && (IsComplete(s.recv, x) || CopyArrives(a, x))
    ensures IsComplete(Next(q, s, a).recv, x)
  {
    hide Perform; hide TopUpPass; hide RecvSymbol; hide RecvReliable; hide RecvTick;
    match a
    case Arrive(i, now) =>
      var d := s.h.log[i];
      SymbolCompletes(q, s.recv, s.budget, d.block, d.k % 0x1_0000, Symbol(d.esi % ESI_LIMIT, d.data), now);
    case ToReceiver(sig) => if sig.ReliableData? { ReliableCompletes(s.recv, sig.block, sig.data); }
    case ControlTick(order, link, now) => TickKeepsDelivery(s.recv, s.budget, order, link, now);
    case _ =>
  }

  /** A block complete at some point of a run, or whose copy arrives later, is complete at the end. */
  lemma {:induction false} CompleteAlong(q: RaptorQ, states: seq<Sys>, acts: seq<Act>, i: nat, j: nat, x: nat)
    requires Run(q, states, acts) && i <= j <= |acts|
    requires IsComplete(states[i].recv, x) || (i < j && CopyArrives(acts[i], x))
    ensures IsComplete(states[j].recv, x)
    decreases j - i
  {
    if i < j {
      assert StepAt(q, states, acts, i);
      CompleteStays(q, states[i], acts[i], x);
      hide Next; hide IsComplete; hide Runnable; hide Enabled; hide CopyArrives;
      CompleteAlong(q, states, acts, i + 1, j, x);
    }
  }

  // ---------------------------------------------------------------- reliable copies

  /** Each block below `n` is complete at state `i`, or its copy arrives at some later step. */
  ghost predicate CopiesArrive(states: seq<Sys>, acts: seq<Act>, i: nat, n: nat)
    requires |states| == |acts| + 1 && i <= |acts|
  {
    forall x: nat :: x < n ==> IsComplete(states[i].recv, x) || exists p: nat :: i <= p < |acts| && CopyArrives(acts[p], x)
  }

  lemma AllComplete(q: RaptorQ, states: seq<Sys>, acts: seq<Act>, i: nat, n: nat)
    requires Run(q, states, acts) && i <= |acts| && CopiesArrive(states, acts, i, n)
    ensures forall x: nat :: x < n ==> IsComplete(states[|acts|].recv, x)
  {
    hide StepAt; hide IsComplete; hide CopyArrives;
    forall x: nat | x < n
      ensures IsComplete(states[|acts|].recv, x)
    {
      if IsComplete(states[i].recv, x) {
        CompleteAlong(q, states, acts, i, |acts|, x);
      } else {
        var p: nat :| i <= p < |acts| && CopyArrives(acts[p], x);
        CompleteAlong(q, states, acts, p, |acts|, x);
      }
    }
  }

  /** The blocks below `n`, and perhaps more, have been handed over: in order, each once, unaltered. */
  ghost predicate HandedOver(s: Sys, n: nat) {
    n <= s.recv.nextDeliver <= |s.h.produced| && s.output == Concat(s.h.produced[..s.recv.nextDeliver])
  }

  /** A settled receiver that has every block below `n` has delivered them. */
  lemma FloorReaches(q: RaptorQ, s: Sys, n: nat)
    requires Inv(q, s) && forall x: nat :: x < n ==> IsComplete(s.recv, x)
    ensures HandedOver(s, n)
  {
    hide HistInv; hide Truthful; hide Sensible; hide RetiredComplete; hide AcksOk; hide Concat; hide ManagersOk; hide GoodGeometry;
    assert s.recv.nextDeliver < n ==> IsComplete(s.recv, s.recv.nextDeliver);
  }

  /** From any state that satisfies the invariant, along any run with any other steps in between and the
      copies in any order: once every block below `n` is complete or its copy has arrived, all of them
      have been handed over. */
  lemma CopiesDeliverFrom(q: RaptorQ, states: seq<Sys>, acts: seq<Act>, n: nat)
    requires Sound(q) && Run(q, states, acts) && Inv(q, states[0]) && IndicesFit(states[|acts|].h.log)
    requires CopiesArrive(states, acts, 0, n)
    ensures Inv(q, states[|acts|])
    ensures HandedOver(states[|acts|], n)
  {
    hide Inv; hide Sound; hide IndicesFit; hide StepAt; hide CopiesArrive; hide IsComplete;
    RunInv(q, states, acts, |acts|);
    AllComplete(q, states, acts, 0, n);
    FloorReaches(q, states[|acts|], n);
  }

  /** The same from any point of any run of a tunnel. */
  lemma CopiesDeliver(q: RaptorQ, symbolSize: nat, k: nat, states: seq<Sys>, acts: seq<Act>, i: nat, n: nat)
    requires Sound(q) && GoodGeometry(symbolSize, k) && TunnelRun(q, symbolSize, k, states, acts)
    requires IndicesFit(states[|acts|].h.log) && i <= |acts| && CopiesArrive(states, acts, i, n)
    ensures HandedOver(states[|acts|], n)
  {
    hide Inv; hide Sound; hide IndicesFit; hide StepAt; hide CopiesArrive; hide IsComplete; hide GoodGeometry;
    TunnelInv(q, symbolSize, k, states, acts, |acts|);
    AllComplete(q, states, acts, i, n);
    FloorReaches(q, states[|acts|], n);
  }

  lemma SignalsOnlyGrow(q: RaptorQ, s: Sys, a: Act)
    requires Runnable(s) && Enabled(s, a)
    ensures s.toSend <= Next(q, s, a).toSend && s.toRecv <= Next(q, s, a).toRecv
  {
    hide Perform; hide TopUpPass; hide RecvSymbol; hide RecvReliable; hide RecvTick;
  }

  /** What was sent can still arrive at any later point. */
  lemma {:induction false} StillUnderWay(q: RaptorQ, states: seq<Sys>, acts: seq<Act>, i: nat, j: nat)
    requires Run(q, states, acts) && i <= j <= |acts|
    ensures states[i].toSend <= states[j].toSend && states[i].toRecv <= states[j].toRecv
    decreases j - i
  {
    if i < j {
      assert StepAt(q, states, acts, i);
      SignalsOnlyGrow(q, states[i], acts[i]);
      hide Next; hide Runnable; hide Enabled;
      StillUnderWay(q, states, acts, i + 1, j);
    }
  }

  // ---------------------------------------------------------------- enough symbols

  /** The distinct indices of block `x` that have arrived in the first `n` steps. */
  function Arrived(states: seq<Sys>, acts: seq<Act>, x: nat, n: nat): set<nat>
    requires |states| == |acts| + 1 && n <= |acts|
  {
    if n == 0 then {}
    else
      var s, a := states[n - 1], acts[n - 1];
      Arrived(states, acts, x, n - 1)
        + if a.Arrive? && a.i < |s.h.log| && s.h.log[a.i].block == x then {s.h.log[a.i].esi} else {}
  }

  predicate GivenUp(r: Recv, x: nat) { x in r.managers && r.managers[x].state.Degraded? }

  /** The indices the receiver holds for block `x`. */
  function Gathered(r: Recv, x: nat): set<nat> { if x in r.managers then Indices(r.managers[x].fed) else {} }

  /** Unless the block is complete or given up, everything that has arrived of it has been gathered, and
      it is not enough. */
  ghost predicate Gathering(s: Sys, x: nat, seen: set<nat>, need: nat) {
    || IsComplete(s.recv, x) || GivenUp(s.recv, x)
    || (seen <= Gathered(s.recv, x) && |Gathered(s.recv, x)| < need
        && (x in s.recv.managers ==> !s.recv.managers[x].state.Done?))
  }

  /** A manager's K. */
  function NeededOf(symbolSize: nat, k: nat, payload: bytes): nat
    requires symbolSize > 0
  {
    EncoderFor(symbolSize, k, payload).k
  }

  lemma IndicesGrow(fed: seq<Symbol>, s: Symbol)
    ensures Indices(fed + [s]) == Indices(fed) + {s.esi}
  {
    var all := fed + [s];
    forall e | e in Indices(fed) + {s.esi}
      ensures e in Indices(all)
    {
      if e == s.esi {
        assert all[|fed|].esi == e;
      } else {
        var i :| 0 <= i < |fed| && fed[i].esi == e;
        assert all[i].esi == e;
      }
    }
  }

  /** A manager that is still at it either delivers or keeps the symbol and is still short of K. */
  lemma OneMore(q: RaptorQ, symbolSize: nat, payload: bytes, m: Mgr, b: Ledger, now: nat, s: Symbol)
    requires Sound(q) && Fountain(q, symbolSize) && !m.IsTerminal() && m.blockLen == BlockLen(symbolSize, m.k)
    requires |payload| + LEN_PREFIX <= m.blockLen && |payload| < Words(4)
    requires MgrInv(m) && Genuine(q, PadBlock(payload, m.blockLen), m.fed + [s])
    ensures var st := SymbolStep(q, m, b, now, s);
      st.action.Deliver? || (st.mgr.fed == m.fed + [s] && !st.mgr.IsTerminal() && |Indices(m.fed + [s])| < m.k)
  {
    if |Indices(m.fed + [s])| >= m.k {
      EnoughSymbolsDeliver(q, symbolSize, payload, m, b, now, s);
    }
  }

  lemma OneMoreOf(q: RaptorQ, symbolSize: nat, k: nat, payload: bytes, m: Mgr, b: Ledger, now: nat, s: Symbol)
    requires Sound(q) && Fountain(q, symbolSize) && GoodGeometry(symbolSize, k) && PayloadOk(symbolSize, k, payload)
    requires MgrOf(q, symbolSize, k, payload, m) && !m.IsTerminal()
    requires s.data == q.encode(EncoderFor(symbolSize, k, payload).block, s.esi)
    ensures var st := SymbolStep(q, m, b, now, s);
      st.action.Deliver?
      || (st.mgr.fed == m.fed + [s] && !st.mgr.IsTerminal() && |Indices(m.fed + [s])| < NeededOf(symbolSize, k, payload))
  {
    GeometryFitsU32(symbolSize, k);
    EncoderFits(symbolSize, k, payload);
    ActualKLeast(|payload|, symbolSize, k);
    var e := EncoderFor(symbolSize, k, payload);
    assert e.block == PadBlock(payload, m.blockLen) && m.blockLen == BlockLen(symbolSize, m.k);
    assert Genuine(q, e.block, m.fed + [s]);
    hide SymbolStep; hide ActualK; hide BlockLen;
    OneMore(q, symbolSize, payload, m, b, now, s);
  }

  /** What the receiver makes of a symbol that does not complete its block. */
  lemma KeptByManager(q: RaptorQ, r: Recv, b: Ledger, x: nat, actualK: nat, s: Symbol, now: nat)
    requires x >= r.nextDeliver && x !in r.ready
    ensures var r' := RecvSymbol(q, r, b, x, actualK, s, now).recv;
      var st := SymbolStep(q, ManagerFor(r, x, actualK), b, now, s);
      if st.action.Deliver? then IsComplete(r', x) else x in r'.managers && r'.managers[x] == st.mgr
  {
    var r1 := r.(highestSeen := Max(r.highestSeen, x));
    assert ManagerFor(r1, x, actualK) == ManagerFor(r, x, actualK);
    SymbolCompletes(q, r, b, x, actualK, s, now);
    hide SymbolStep; hide ManagerFor; hide Flush;
    FlushKeeps(Routed(r1, x, SymbolStep(q, ManagerFor(r, x, actualK), b, now, s)));
  }

  /** One more symbol of the block itself. */
  lemma OwnSymbolGathers(q: RaptorQ, produced: seq<bytes>, r: Recv, b: Ledger, x: nat, s: Symbol, now: nat, seen: set<nat>)
    requires Sound(q) && Fountain(q, r.symbolSize) && GoodGeometry(r.symbolSize, r.k) && ManagersOk(q, produced, r)
    requires x < |produced| && PayloadOk(r.symbolSize, r.k, produced[x]) && !IsComplete(r, x) && !GivenUp(r, x)
    requires s.data == q.encode(EncoderFor(r.symbolSize, r.k, produced[x]).block, s.esi)
    requires seen <= Gathered(r, x) && (x in r.managers ==> !r.managers[x].state.Done?)
    ensures var need := NeededOf(r.symbolSize, r.k, produced[x]);
      var r' := RecvSymbol(q, r, b, x, need % 0x1_0000, s, now).recv;
      || IsComplete(r', x)
      || (x in r'.managers && !r'.managers[x].state.Done? && seen + {s.esi} <= Gathered(r', x) && |Gathered(r', x)| < need)
  {
    var p := produced[x];
    var need := NeededOf(r.symbolSize, r.k, p);
    var m := ManagerFor(r, x, need % 0x1_0000);
    NewMgrOf(q, r.symbolSize, r.k, p);
    assert MgrOf(q, r.symbolSize, r.k, p, m) && !m.IsTerminal() && Gathered(r, x) == Indices(m.fed);
    hide SymbolStep; hide ManagerFor; hide EncoderFor; hide MgrOf; hide ManagersOk; hide RecvSymbol; hide GoodGeometry;
    hide PayloadOk; hide NeededOf;
    OneMoreOf(q, r.symbolSize, r.k, p, m, b, now, s);
    KeptByManager(q, r, b, x, need % 0x1_0000, s, now);
    IndicesGrow(m.fed, s);
    hide Indices;
  }

  /** A symbol or a copy of another block leaves the block's manager alone. */
  lemma OtherSymbolLeaves(q: RaptorQ, r: Recv, b: Ledger, y: nat, actualK: nat, s: Symbol, now: nat, x: nat)
    requires x != y
    ensures var m := RecvSymbol(q, r, b, y, actualK, s, now).recv.managers;
      (x in m <==> x in r.managers) && (x in m ==> m[x] == r.managers[x])
  {
    hide SymbolStep; hide ManagerFor; hide Flush;
    var r1 := r.(highestSeen := Max(r.highestSeen, y));
    FlushKeeps(Routed(r1, y, SymbolStep(q, ManagerFor(r1, y, actualK), b, now, s)));
  }

  lemma OtherCopyLeaves(r: Recv, y: nat, data: bytes, x: nat)
    requires x != y
    ensures var m := RecvReliable(r, y, data).recv.managers;
      (x in m <==> x in r.managers) && (x in m ==> m[x] == r.managers[x])
  {
    hide Flush;
    FlushKeeps(Completed(r, y, data));
  }

  /** What a tick cannot change about a manager. */
  predicate SameGathering(m: Mgr, m': Mgr) {
    && m'.fed == m.fed && m'.k == m.k && m'.received == m.received
    && (m.state.Degraded? ==> m' == m) && (m'.state.Done? <==> m.state.Done?)
  }

  lemma TickStepGathers(m: Mgr, b: Ledger, c: TickCtx)
    ensures SameGathering(m, TickStep(m, b, c).mgr)
  {}

  lemma {:induction false} PassGathers(r: Recv, b: Ledger, order: seq<nat>, link: LinkState, now: nat, x: nat)
    ensures var m := TickAll(r, b, order, link, now).recv.managers;
      (x in m <==> x in r.managers) && (x in m ==> SameGathering(r.managers[x], m[x]))
  {
    if order != [] {
      PassGathers(r, b, order[..|order| - 1], link, now, x);
      var t := TickAll(r, b, order[..|order| - 1], link, now);
      if x in t.recv.managers {
        TickStepGathers(t.recv.managers[x], t.budget, TickCtx(now, link, r.highestSeen > x));
      }
      hide TickStep;
    }
  }

  lemma TickGathers(r: Recv, b: Ledger, order: seq<nat>, link: LinkState, now: nat, x: nat)
    ensures var m := RecvTick(r, b, order, link, now).recv.managers;
      (x in m <==> x in r.managers) && (x in m ==> SameGathering(r.managers[x], m[x]))
  {
    var t := TickAll(r, b, order, link, now);
    PassGathers(r, b, order, link, now, x);
    ScanKeepsDelivery(t, t.recv.nextDeliver, Upper(t.recv));
    hide TickAll; hide LostScan; hide SameGathering; hide Upper;
  }

  /** A manager that has given up ignores its symbols. */
  lemma GivenUpIgnores(q: RaptorQ, r: Recv, b: Ledger, x: nat, actualK: nat, s: Symbol, now: nat)
    requires GivenUp(r, x) && !IsComplete(r, x)
    ensures GivenUp(RecvSymbol(q, r, b, x, actualK, s, now).recv, x)
  {
    hide Flush;
    var r1 := r.(highestSeen := Max(r.highestSeen, x));
    FlushKeeps(Routed(r1, x, SymbolStep(q, ManagerFor(r1, x, actualK), b, now, s)));
  }

  function Brought(s: Sys, a: Act, x: nat): set<nat> {
    if a.Arrive? && a.i < |s.h.log| && s.h.log[a.i].block == x then {s.h.log[a.i].esi} else {}
  }

  /** What an arriving datagram is to its receiver. */
  lemma WireFacts(q: RaptorQ, s: Sys, i: nat)
    requires Inv(q, s) && i < |s.h.log| && IndicesFit(s.h.log)
    ensures var d, r := s.h.log[i], s.recv;
      && GoodGeometry(r.symbolSize, r.k) && ManagersOk(q, s.h.produced, r)
      && d.block < |s.h.produced| && PayloadOk(r.symbolSize, r.k, s.h.produced[d.block])
      && d.k == NeededOf(r.symbolSize, r.k, s.h.produced[d.block]) && d.esi % ESI_LIMIT == d.esi
      && d.data == q.encode(EncoderFor(r.symbolSize, r.k, s.h.produced[d.block]).block, d.esi)
  {
    hide HistInv; hide Truthful; hide Sensible; hide RetiredComplete; hide AcksOk; hide Concat; hide EncoderFor; hide IndicesFit;
    hide PayloadOk; hide Held; hide MgrOf;
    WireSymbol(q, s, i);
  }

  lemma ArriveGathers(q: RaptorQ, s: Sys, i: nat, now: nat, x: nat, seen: set<nat>, need: nat)
    requires Sound(q) && Fountain(q, s.recv.symbolSize) && Inv(q, s) && i < |s.h.log| && IndicesFit(s.h.log)
    requires s.recv.symbolSize > 0 && (x < |s.h.produced| ==> need == NeededOf(s.recv.symbolSize, s.recv.k, s.h.produced[x]))
    requires Gathering(s, x, seen, need) && !IsComplete(s.recv, x)
    ensures Gathering(ArriveStep(q, s, s.h.log[i], now), x, seen + Brought(s, Arrive(i, now), x), need)
  {
    WireFacts(q, s, i);
    hide Inv; hide EncoderFor; hide RecvSymbol; hide Fountain; hide Sound; hide PayloadOk; hide Indices; hide IndicesFit;
    hide GoodGeometry; hide ManagersOk; hide NeededOf;
    var d, s' := s.h.log[i], ArriveStep(q, s, s.h.log[i], now);
    var sym := Symbol(d.esi % ESI_LIMIT, d.data);
    if d.block != x {
      OtherSymbolLeaves(q, s.recv, s.budget, d.block, d.k % 0x1_0000, sym, now, x);
      hide Gathering; hide IsComplete;
      SameManagerGathers(s, s', x, seen, need);
    } else if GivenUp(s.recv, x) {
      GivenUpIgnores(q, s.recv, s.budget, x, d.k % 0x1_0000, sym, now);
      hide Gathered; hide IsComplete;
    } else {
      OwnSymbolGathers(q, s.h.produced, s.recv, s.budget, x, sym, now, seen);
      hide Gathered; hide IsComplete; hide GivenUp;
    }
  }

  lemma SameManagerGathers(s: Sys, s': Sys, x: nat, seen: set<nat>, need: nat)
    requires Gathering(s, x, seen, need) && !IsComplete(s.recv, x)
    requires x in s'.recv.managers <==> x in s.recv.managers
    requires x in s.recv.managers ==> SameGathering(s.recv.managers[x], s'.recv.managers[x])
    ensures Gathering(s', x, seen + {}, need)
  {
    hide Indices;
    assert seen + {} == seen;
  }

  /** Steps other than the block's own symbols and copies leave its manager gathering. */
  lemma OtherStepsLeave(q: RaptorQ, s: Sys, a: Act, x: nat)
    requires Runnable(s) && Enabled(s, a) && !a.Arrive? && !CopyArrives(a, x)
    ensures var m := Next(q, s, a).recv.managers;
      (x in m <==> x in s.recv.managers) && (x in m ==> SameGathering(s.recv.managers[x], m[x]))
  {
    hide Perform; hide TopUpPass; hide RecvSymbol; hide RecvReliable; hide RecvTick;
    match a
    case ToReceiver(sig) => if sig.ReliableData? { OtherCopyLeaves(s.recv, sig.block, sig.data, x); }
    case ControlTick(order, link, now) => TickGathers(s.recv, s.budget, order, link, now, x);
    case _ =>
  }

  lemma GatheringStays(q: RaptorQ, s: Sys, a: Act, x: nat, seen: set<nat>, need: nat)
    requires Sound(q) && Fountain(q, s.recv.symbolSize) && Inv(q, s) && Runnable(s) && Enabled(s, a) && IndicesFit(s.h.log)
    requires s.recv.symbolSize > 0 && (x < |s.h.produced| ==> need == NeededOf(s.recv.symbolSize, s.recv.k, s.h.produced[x]))
    requires Gathering(s, x, seen, need)
    ensures Gathering(Next(q, s, a), x, seen + Brought(s, a, x), need)
  {
    if IsComplete(s.recv, x) || CopyArrives(a, x) {
      CompleteStays(q, s, a, x);
    } else if a.Arrive? {
      hide Inv; hide Gathering; hide ArriveStep; hide Brought; hide Sound; hide Fountain; hide IndicesFit; hide NeededOf;
      ArriveGathers(q, s, a.i, a.now, x, seen, need);
    } else {
      OtherStepsLeave(q, s, a, x);
      hide Inv; hide Gathering; hide Next; hide SameGathering; hide Sound; hide Fountain; hide IndicesFit;
      SameManagerGathers(s, Next(q, s, a), x, seen, need);
    }
  }

  lemma {:induction false} ProducedOnlyGrows(q: RaptorQ, states: seq<Sys>, acts: seq<Act>, i: nat, j: nat)
    requires Run(q, states, acts) && i <= j <= |acts|
    ensures states[i].h.produced <= states[j].h.produced
    decreases j - i
  {
    if i < j {
      assert StepAt(q, states, acts, i);
      LogOnlyGrows(q, states[i], acts[i]);
      hide Next; hide Runnable; hide Enabled;
      ProducedOnlyGrows(q, states, acts, i + 1, j);
    }
  }

  lemma {:induction false} GatheringAlong(q: RaptorQ, symbolSize: nat, k: nat, states: seq<Sys>, acts: seq<Act>,
                                          n: nat, x: nat, payload: bytes)
    requires Sound(q) && Fountain(q, symbolSize) && GoodGeometry(symbolSize, k) && TunnelRun(q, symbolSize, k, states, acts)
    requires IndicesFit(states[|acts|].h.log) && n <= |acts|
    requires forall i: nat :: i <= n && x < |states[i].h.produced| ==> states[i].h.produced[x] == payload
    ensures Gathering(states[n], x, Arrived(states, acts, x, n), NeededOf(symbolSize, k, payload))
  {
    hide Sound; hide Fountain; hide IndicesFit; hide Inv; hide Next; hide Enabled; hide Runnable; hide NeededOf;
    NeedsOne(symbolSize, k, payload);
    if n > 0 {
      GatheringAlong(q, symbolSize, k, states, acts, n - 1, x, payload);
      TunnelInv(q, symbolSize, k, states, acts, n - 1);
      GeometryAlong(q, states, acts, n - 1);
      FitAt(q, states, acts, n - 1);
      assert StepAt(q, states, acts, n - 1);
      SameEnds(q, states[n - 1]);
      hide Gathering; hide GoodGeometry;
      GatheringStays(q, states[n - 1], acts[n - 1], x, Arrived(states, acts, x, n - 1), NeededOf(symbolSize, k, payload));
    }
  }

  lemma SameEnds(q: RaptorQ, s: Sys)
    requires Inv(q, s)
    ensures s.recv.symbolSize == s.h.snd.symbolSize && s.recv.k == s.h.snd.k
  {
    hide HistInv; hide ReceiverSide; hide Truthful; hide Sensible; hide RetiredComplete;
  }

  lemma NeedsOne(symbolSize: nat, k: nat, payload: bytes)
    requires symbolSize > 0
    ensures NeededOf(symbolSize, k, payload) >= 1
  {}

  /** The fountain promise over whole runs: once K distinct symbols of a block have arrived, in any order,
      with any repeats, and with anything else in between, the block is complete, unless its manager has
      already given it up. */
  lemma EnoughArrivalsComplete(q: RaptorQ, symbolSize: nat, k: nat, states: seq<Sys>, acts: seq<Act>, n: nat, x: nat)
    requires Sound(q) && Fountain(q, symbolSize) && GoodGeometry(symbolSize, k) && TunnelRun(q, symbolSize, k, states, acts)
    requires IndicesFit(states[|acts|].h.log) && n <= |acts| && x < |states[n].h.produced|
    requires |Arrived(states, acts, x, n)| >= NeededOf(symbolSize, k, states[n].h.produced[x])
    ensures IsComplete(states[n].recv, x) || GivenUp(states[n].recv, x)
  {
    hide Sound; hide Fountain; hide IndicesFit; hide NeededOf; hide StepAt;
    var payload := states[n].h.produced[x];
    forall i: nat | i <= n && x < |states[i].h.produced|
      ensures states[i].h.produced[x] == payload
    {
      ProducedOnlyGrows(q, states, acts, i, n);
    }
    GatheringAlong(q, symbolSize, k, states, acts, n, x, payload);
    hide IsComplete; hide GivenUp; hide Arrived; hide Indices;
    if !IsComplete(states[n].recv, x) && !GivenUp(states[n].recv, x) {
      SubsetSize(Arrived(states, acts, x, n), Gathered(states[n].recv, x));
    }
  }
}
