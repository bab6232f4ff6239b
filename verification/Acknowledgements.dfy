/** Acknowledgements: exactly when a call queues one, which is more often than once a block, and what the
    sender's exit test, which counts them, can therefore say. */
module Acknowledgements {
  import opened Base
  import opened Geometry
  import opened Codec
  import opened Link
  import opened Budget
  import opened Signals
  import opened Decoder
  import opened Sender
  import opened SenderHistory
  import opened Receiver
  import opened ReceiverSafety
  import opened Tunnel
  import opened TunnelRuns
  import opened Progress
  import opened Convergence

  /** Exactly when a reliable copy makes a complete block be acknowledged again: while it waits in
      `ready`. It then is, whatever the copy, the codec or K. */
  lemma CopyAcksAgainWhen(r: Recv, block: nat, data: bytes)
    requires IsComplete(r, block)
    ensures RecvReliable(r, block, data).recv.pendingAcks == r.pendingAcks + if block >= r.nextDeliver then [block] else []
  {
    hide Flush;
    FlushKeeps(Completed(r, block, data));
  }

  /** Exactly when a symbol makes its block be acknowledged, for the first time or again: the block is
      not delivered, and its manager, new or left over, decodes it. */
  lemma SymbolAcksWhen(q: RaptorQ, r: Recv, b: Ledger, block: nat, actualK: nat, s: Symbol, now: nat)
    ensures var m := ManagerFor(r, block, actualK);
      RecvSymbol(q, r, b, block, actualK, s, now).recv.pendingAcks
      == r.pendingAcks
        + if block >= r.nextDeliver && !m.IsTerminal() && AddSymbol(q, m.blockLen, m.fed + [s]).Some? then [block] else []
  {
    var r1 := r.(highestSeen := Max(r.highestSeen, block));
    var m := ManagerFor(r, block, actualK);
    assert ManagerFor(r1, block, actualK) == m;
    var step := SymbolStep(q, m, b, now, s);
    assert step.action.Deliver? <==> !m.IsTerminal() && AddSymbol(q, m.blockLen, m.fed + [s]).Some?;
    hide SymbolStep; hide ManagerFor; hide Flush; hide AddSymbol;
    FlushKeeps(Routed(r1, block, step));
  }

  /** For a genuine symbol of a block of `need` symbols that is, as long as the block is not delivered and
      its manager has not given up, the arrival of the `need`th distinct one since the manager was made.
      A block already complete gets a new manager, so that many more symbols acknowledge it again. */
  lemma GenuineAcksWhen(q: RaptorQ, produced: seq<bytes>, r: Recv, b: Ledger, block: nat, s: Symbol, now: nat)
    requires Sound(q) && Fountain(q, r.symbolSize) && Strict(q, r.symbolSize)
    requires GoodGeometry(r.symbolSize, r.k) && ManagersOk(q, produced, r) && r.nextDeliver <= block < |produced|
    requires PayloadOk(r.symbolSize, r.k, produced[block])
    requires s.data == q.encode(EncoderFor(r.symbolSize, r.k, produced[block]).block, s.esi)
    requires block in r.managers ==> !r.managers[block].state.Done?
    ensures var need := NeededOf(r.symbolSize, r.k, produced[block]);
      RecvSymbol(q, r, b, block, need % 0x1_0000, s, now).recv.pendingAcks
      == r.pendingAcks + if !GivenUp(r, block) && |Gathered(r, block) + {s.esi}| >= need then [block] else []
  {
    var p := produced[block];
    var need := NeededOf(r.symbolSize, r.k, p);
    var m := ManagerFor(r, block, need % 0x1_0000);
    NewMgrOf(q, r.symbolSize, r.k, p);
    assert MgrOf(q, r.symbolSize, r.k, p, m) && Gathered(r, block) == Indices(m.fed);
    assert m.IsTerminal() <==> GivenUp(r, block);
    SymbolAcksWhen(q, r, b, block, need % 0x1_0000, s, now);
    IndicesGrow(m.fed, s);
    hide ManagersOk; hide ManagerFor; hide RecvSymbol; hide Indices;
    DecodesExactlyWhen(q, r.symbolSize, r.k, p, m, s);
  }

  lemma DecodesExactlyWhen(q: RaptorQ, symbolSize: nat, k: nat, payload: bytes, m: Mgr, s: Symbol)
    requires Sound(q) && Fountain(q, symbolSize) && Strict(q, symbolSize)
    requires GoodGeometry(symbolSize, k) && PayloadOk(symbolSize, k, payload) && MgrOf(q, symbolSize, k, payload, m)
    requires s.data == q.encode(EncoderFor(symbolSize, k, payload).block, s.esi)
    ensures AddSymbol(q, m.blockLen, m.fed + [s]).Some? <==> |Indices(m.fed + [s])| >= NeededOf(symbolSize, k, payload)
  {
    EncoderFits(symbolSize, k, payload);
    var e := EncoderFor(symbolSize, k, payload);
    hide EncoderFor; hide UnpadBlock; hide Indices;
    assert Genuine(q, e.block, m.fed + [s]);
    assert q.decode(symbolSize * e.k, m.fed + [s]).Some? <==> |Indices(m.fed + [s])| >= e.k;
    assert q.decode(|e.block|, m.fed + [s]) in {None, Some(e.block)};
  }

  /** The distinct blocks of a list. */
  function Ids(list: seq<nat>): set<nat> { set b | b in list }

  lemma IdsSnoc(list: seq<nat>, last: nat)
    ensures Ids(list + [last]) == Ids(list) + {last}
  {
    assert forall b :: b in list + [last] <==> b in list || b == last;
  }

  /** Counting distinct ids below `n` tells whether all of them are there. */
  lemma CountTells(n: nat, list: seq<nat>)
    requires forall b :: b in list ==> b < n
    ensures |Ids(list)| <= n
    ensures |Ids(list)| == n <==> forall b: nat :: b < n ==> b in list
  {
    var ids, all := Ids(list), Range(0, n);
    RangeSize(0, n);
    assert ids <= all;
    SubsetSize(ids, all);
    assert all == ids + (all - ids) && |all| == |ids| + |all - ids|;
    if |ids| == n {
      assert all - ids == {};
      forall b: nat | b < n ensures b in list { assert b in all; }
    }
    if forall b: nat :: b < n ==> b in list {
      assert all <= ids;
    }
  }

  lemma {:induction false} DistinctSize(list: seq<nat>)
    requires Distinct(list)
    ensures |Ids(list)| == |list|
  {
    if list != [] {
      var rest, last := list[..|list| - 1], list[|list| - 1];
      DistinctSize(rest);
      assert list == rest + [last] && last !in rest;
      IdsSnoc(rest, last);
    }
  }

  // ---------------------------------------------------------------- the exit test over a run

  /** The acknowledgements the sender has been given, in order. */
  function GivenAcks(acts: seq<Act>): seq<nat> {
    if acts == [] then []
    else
      var rest, last := GivenAcks(acts[..|acts| - 1]), acts[|acts| - 1];
      if last.ToSender? && last.signal.BlockAck? then rest + [last.signal.block] else rest
  }

  lemma SpurtAcks(q: RaptorQ, s: Snd, b: Ledger, order: seq<nat>, now: nat, rtt: nat, link: LinkState)
    ensures var t := TopUpPass(s, b, order, now, rtt, link); Serve(q, t.snd, t.out).0.acked == s.acked
  {
    PassAcks(s, b, order, now, rtt);
    var t := TopUpPass(s, b, order, now, rtt, link);
    ServeAcks(q, t.snd, t.out);
  }

  lemma {:induction false} PassAcks(s: Snd, b: Ledger, order: seq<nat>, now: nat, rtt: nat)
    ensures TopUpAll(s, b, order, now, rtt).snd.acked == s.acked
  {
    if order != [] {
      PassAcks(s, b, order[..|order| - 1], now, rtt);
    }
  }

  lemma {:induction false} ServeAcks(q: RaptorQ, s: Snd, asks: seq<(nat, nat)>)
    ensures Serve(q, s, asks).0.acked == s.acked
  {
    if asks != [] {
      ServeAcks(q, s, asks[..|asks| - 1]);
    }
  }

  lemma AckStep(q: RaptorQ, s: Sys, a: Act)
    requires Runnable(s) && Enabled(s, a)
    ensures Next(q, s, a).h.snd.acked == s.h.snd.acked + if a.ToSender? && a.signal.BlockAck? then 1 else 0
    ensures s.toSend <= Next(q, s, a).toSend
  {
    hide TopUpPass; hide Serve; hide RecvSymbol; hide RecvReliable; hide RecvTick; hide BlockLen; hide RetainBlocks;
    match a
    case ProactiveTick(order, now, rtt, link) => SpurtAcks(q, s.h.snd, s.budget, order, now, rtt, link);
    case _ =>
  }

  /** The counter is the number of acknowledgements given, repeats included, and each of those was sent. */
  lemma {:induction false} AckedAlong(q: RaptorQ, symbolSize: nat, k: nat, states: seq<Sys>, acts: seq<Act>, n: nat)
    requires TunnelRun(q, symbolSize, k, states, acts) && n <= |acts|
    ensures states[n].h.snd.acked == |GivenAcks(acts[..n])|
    ensures forall b :: b in GivenAcks(acts[..n]) ==> BlockAck(b) in states[n].toSend
  {
    if n > 0 {
      hide Next; hide Runnable; hide Enabled;
      AckedAlong(q, symbolSize, k, states, acts, n - 1);
      assert StepAt(q, states, acts, n - 1);
      AckStep(q, states[n - 1], acts[n - 1]);
      assert acts[..n] == acts[..n - 1] + [acts[n - 1]];
    }
  }

  lemma RetiredStep(q: RaptorQ, s: Sys, a: Act)
    requires Runnable(s) && Enabled(s, a)
    requires a.ToSender? && a.signal.BlockAck? ==> a.signal.block < s.h.snd.nextBlock
    ensures Next(q, s, a).h.retired == s.h.retired + if a.ToSender? && a.signal.BlockAck? then {a.signal.block} else {}
  {
    hide TopUpPass; hide Serve; hide RecvSymbol; hide RecvReliable; hide RecvTick; hide BlockLen; hide RetainBlocks;
  }

  /** What the sender has let go of on acknowledgement are the distinct blocks among them. */
  lemma {:induction false} RetiredAlong(q: RaptorQ, symbolSize: nat, k: nat, states: seq<Sys>, acts: seq<Act>, n: nat)
    requires Sound(q) && GoodGeometry(symbolSize, k) && TunnelRun(q, symbolSize, k, states, acts)
    requires n <= |acts| && IndicesFit(states[|acts|].h.log)
    ensures states[n].h.retired == Ids(GivenAcks(acts[..n]))
  {
    if n > 0 {
      hide Next; hide Runnable; hide Sound; hide IndicesFit; hide GoodGeometry; hide IsComplete; hide Init;
      RetiredAlong(q, symbolSize, k, states, acts, n - 1);
      assert StepAt(q, states, acts, n - 1);
      FitAt(q, states, acts, n - 1);
      Prefix(q, symbolSize, k, states, acts, n - 1);
      var a := acts[n - 1];
      if a.ToSender? && a.signal.BlockAck? {
        AsksNameProducedBlocks(q, symbolSize, k, states[n - 1], a.signal);
        IdsSnoc(GivenAcks(acts[..n - 1]), a.signal.block);
      }
      RetiredStep(q, states[n - 1], a);
      assert acts[..n] == acts[..n - 1] + [a];
    }
  }

  /** Over every run: what the exit test compares with the number of blocks is the number of acknowledgements
      given, repeats included. It passes with some block unacknowledged if and only if they reach the total
      while the distinct ones do not; and if none was given twice, it passes if and only if every block has
      been acknowledged, and then every block is complete at the receiver. */
  lemma ExitTest(q: RaptorQ, symbolSize: nat, k: nat, states: seq<Sys>, acts: seq<Act>, n: nat)
    requires Sound(q) && GoodGeometry(symbolSize, k) && TunnelRun(q, symbolSize, k, states, acts)
    requires n <= |acts| && IndicesFit(states[n].h.log)
    ensures var snd, acks := states[n].h.snd, GivenAcks(acts[..n]);
      && (snd.acked >= snd.nextBlock && !(forall x: nat :: x < snd.nextBlock ==> x in acks) <==> |Ids(acks)| < snd.nextBlock <= |acks|)
      && (Distinct(acks) ==> (snd.acked >= snd.nextBlock <==> forall x: nat :: x < snd.nextBlock ==> x in acks))
      && (Distinct(acks) && snd.acked >= snd.nextBlock ==> forall x: nat :: x < snd.nextBlock ==> IsComplete(states[n].recv, x))
  {
    hide Sound; hide StepAt; hide IndicesFit; hide GoodGeometry; hide IsComplete; hide Init;
    var acks := GivenAcks(acts[..n]);
    AckedAlong(q, symbolSize, k, states, acts, n);
    Prefix(q, symbolSize, k, states, acts, n);
    hide Run; hide Distinct;
    forall b | b in acks
      ensures b < states[n].h.snd.nextBlock && IsComplete(states[n].recv, b)
    {
      AsksNameProducedBlocks(q, symbolSize, k, states[n], BlockAck(b));
    }
    hide GivenAcks; hide Ids;
    CountTells(states[n].h.snd.nextBlock, acks);
    if Distinct(acks) {
      DistinctSize(acks);
    }
  }

  /** Every point of a run is reachable. */
  lemma Prefix(q: RaptorQ, symbolSize: nat, k: nat, states: seq<Sys>, acts: seq<Act>, n: nat)
    requires TunnelRun(q, symbolSize, k, states, acts) && n <= |acts|
    ensures Reachable(q, symbolSize, k, states[n])
  {
    hide Next; hide Runnable; hide Enabled;
    var states', acts' := states[..n + 1], acts[..n];
    forall i: nat | i < |acts'|
      ensures StepAt(q, states', acts', i)
    {
      assert StepAt(q, states, acts, i);
    }
    assert TunnelRun(q, symbolSize, k, states', acts');
  }

  // ---------------------------------------------------------------- both acknowledgements, by real calls

  /** Symbols of one block fed to a receiver one after another. */
  function Fed(q: RaptorQ, r: Recv, b: Ledger, block: nat, actualK: nat, list: seq<Symbol>, now: nat): SymbolResult {
    if list == [] then SymbolResult(r, b, [])
    else
      var f := Fed(q, r, b, block, actualK, list[..|list| - 1], now);
      var x := RecvSymbol(q, f.recv, f.budget, block, actualK, list[|list| - 1], now);
      SymbolResult(x.recv, x.budget, f.out + x.out)
  }

  ghost predicate DistinctGenuine(q: RaptorQ, symbolSize: nat, k: nat, payload: bytes, list: seq<Symbol>)
    requires symbolSize > 0
  {
    && (forall i :: 0 <= i < |list| ==> list[i].data == q.encode(EncoderFor(symbolSize, k, payload).block, list[i].esi))
    && (forall i, j :: 0 <= i < j < |list| ==> list[i].esi != list[j].esi)
  }

  lemma {:induction false} DistinctIndices(list: seq<Symbol>)
    requires forall i, j :: 0 <= i < j < |list| ==> list[i].esi != list[j].esi
    ensures |Indices(list)| == |list|
  {
    if list == [] {
      assert Indices(list) == {};
    } else {
      var rest, last := list[..|list| - 1], list[|list| - 1];
      DistinctIndices(rest);
      assert list == rest + [last];
      IndicesGrow(rest, last);
    }
  }

  /** Block 0 is missing, block 1 may be complete already, no acknowledgement is queued, and the manager of
      block 1, if there is one, has gathered `list`. */
  ghost predicate StillFeeding(q: RaptorQ, produced: seq<bytes>, r: Recv, b: Ledger, list: seq<Symbol>) {
    && RecvOk(q, produced, r) && Held(r) <= b.inFlight
    && r.nextDeliver == 0 && r.ready.Keys <= {1} && r.managers.Keys <= {1} && r.pendingAcks == []
    && Gathered(r, 1) == Indices(list) && !GivenUp(r, 1) && (1 in r.managers ==> !r.managers[1].state.Done?)
  }

  /** Block 1 is complete, has no manager, and has just been acknowledged. */
  ghost predicate JustComplete(q: RaptorQ, produced: seq<bytes>, r: Recv, b: Ledger) {
    && RecvOk(q, produced, r) && Held(r) <= b.inFlight
    && r.nextDeliver == 0 && r.ready.Keys == {1} && r.managers == map[] && r.pendingAcks == [1]
  }

  lemma FeedOne(q: RaptorQ, produced: seq<bytes>, r: Recv, b: Ledger, list: seq<Symbol>, s: Symbol, now: nat)
    requires Sound(q) && Fountain(q, r.symbolSize) && Strict(q, r.symbolSize) && GoodGeometry(r.symbolSize, r.k)
    requires |produced| > 1 && PayloadOk(r.symbolSize, r.k, produced[1]) && StillFeeding(q, produced, r, b, list)
    requires DistinctGenuine(q, r.symbolSize, r.k, produced[1], list + [s])
    requires |list| < NeededOf(r.symbolSize, r.k, produced[1])
    ensures var need := NeededOf(r.symbolSize, r.k, produced[1]);
      var x := RecvSymbol(q, r, b, 1, need % 0x1_0000, s, now);
      && x.recv.symbolSize == r.symbolSize && x.recv.k == r.k
      && if |list| + 1 < need then StillFeeding(q, produced, x.recv, x.budget, list + [s])
         else JustComplete(q, produced, x.recv, x.budget)
  {
    assert r.symbolSize > 0;
    hide EncoderFor; hide RecvOk; hide Held; hide Indices; hide NeededOf; hide DistinctGenuine; hide Sound; hide AddSymbol;
    hide Fountain; hide Strict; hide GoodGeometry; hide RecvSymbol; hide ManagerFor; hide PayloadOk; hide Gathered;
    var need := NeededOf(r.symbolSize, r.k, produced[1]);
    var m := ManagerFor(r, 1, need % 0x1_0000);
    FeedDecides(q, produced, r, b, list, s);
    FeedKeeps(q, produced, r, b, list, s, now);
    assert Indices(m.fed) == Indices(list);
    FeedShape(q, r, b, need % 0x1_0000, s, now);
    var x := RecvSymbol(q, r, b, 1, need % 0x1_0000, s, now);
    hide StillFeeding;
    if |list| + 1 < need {
      StillFed(q, produced, x.recv, x.budget, list, m.fed, s);
    }
  }

  lemma StillFed(q: RaptorQ, produced: seq<bytes>, r: Recv, b: Ledger, list: seq<Symbol>, fed: seq<Symbol>, s: Symbol)
    requires RecvOk(q, produced, r) && Held(r) <= b.inFlight
    requires r.nextDeliver == 0 && r.ready.Keys <= {1} && r.managers.Keys == {1} && r.pendingAcks == []
    requires 1 in r.managers && r.managers[1].fed == fed + [s] && !r.managers[1].IsTerminal()
    requires Indices(fed) == Indices(list)
    ensures StillFeeding(q, produced, r, b, list + [s])
  {
    hide RecvOk; hide Held; hide Indices;
    IndicesGrow(list, s);
    IndicesGrow(fed, s);
  }

  lemma FeedDecides(q: RaptorQ, produced: seq<bytes>, r: Recv, b: Ledger, list: seq<Symbol>, s: Symbol)
    requires Sound(q) && Fountain(q, r.symbolSize) && Strict(q, r.symbolSize) && GoodGeometry(r.symbolSize, r.k)
    requires |produced| > 1 && PayloadOk(r.symbolSize, r.k, produced[1]) && StillFeeding(q, produced, r, b, list)
    requires DistinctGenuine(q, r.symbolSize, r.k, produced[1], list + [s])
    ensures var need := NeededOf(r.symbolSize, r.k, produced[1]);
      var m := ManagerFor(r, 1, need % 0x1_0000);
      && !m.IsTerminal() && Gathered(r, 1) == Indices(m.fed)
      && (AddSymbol(q, m.blockLen, m.fed + [s]).Some? <==> |list| + 1 >= need)
  {
    var p := produced[1];
    var need := NeededOf(r.symbolSize, r.k, p);
    var m := ManagerFor(r, 1, need % 0x1_0000);
    assert (list + [s])[|list|] == s;
    NewMgrOf(q, r.symbolSize, r.k, p);
    hide Held;
    assert MgrOf(q, r.symbolSize, r.k, p, m) && !m.IsTerminal() && Gathered(r, 1) == Indices(m.fed);
    hide StillFeeding; hide MgrOf; hide ManagerFor; hide EncoderFor;
    IndicesGrow(list, s);
    IndicesGrow(m.fed, s);
    DistinctIndices(list + [s]);
    hide Indices;
    DecodesExactlyWhen(q, r.symbolSize, r.k, p, m, s);
  }

  lemma FeedKeeps(q: RaptorQ, produced: seq<bytes>, r: Recv, b: Ledger, list: seq<Symbol>, s: Symbol, now: nat)
    requires Sound(q) && GoodGeometry(r.symbolSize, r.k)
    requires |produced| > 1 && PayloadOk(r.symbolSize, r.k, produced[1]) && StillFeeding(q, produced, r, b, list)
    requires DistinctGenuine(q, r.symbolSize, r.k, produced[1], list + [s])
    ensures var x := RecvSymbol(q, r, b, 1, NeededOf(r.symbolSize, r.k, produced[1]) % 0x1_0000, s, now);
      RecvOk(q, produced, x.recv) && Held(x.recv) <= x.budget.inFlight
  {
    assert (list + [s])[|list|] == s;
    hide RecvOk; hide Held; hide EncoderFor; hide Sound; hide GoodGeometry; hide RecvSymbol;
    SymbolSafe(q, produced, r, b, 1, s, now, r.ready.Keys);
  }

  /** The call itself, while block 0 is missing. */
  lemma FeedShape(q: RaptorQ, r: Recv, b: Ledger, actualK: nat, s: Symbol, now: nat)
    requires r.nextDeliver == 0 && r.ready.Keys <= {1} && r.managers.Keys <= {1}
    ensures var m := ManagerFor(r, 1, actualK);
      var r', d := RecvSymbol(q, r, b, 1, actualK, s, now).recv, AddSymbol(q, m.blockLen, m.fed + [s]);
      && r'.nextDeliver == 0 && r'.symbolSize == r.symbolSize && r'.k == r.k
      && (!m.IsTerminal() && d.Some? ==>
           r'.ready.Keys == {1} && r'.managers == map[] && r'.pendingAcks == r.pendingAcks + [1])
      && (!m.IsTerminal() && d.None? ==>
           r'.ready == r.ready && r'.pendingAcks == r.pendingAcks && r'.managers.Keys == {1}
           && r'.managers[1].fed == m.fed + [s] && !r'.managers[1].IsTerminal())
  {
    var r1 := r.(highestSeen := Max(r.highestSeen, 1));
    assert ManagerFor(r1, 1, actualK) == ManagerFor(r, 1, actualK);
    assert r.managers - {1} == map[];
  }

  lemma {:induction false} FeedAll(q: RaptorQ, produced: seq<bytes>, r: Recv, b: Ledger, list: seq<Symbol>, now: nat)
    requires Sound(q) && Fountain(q, r.symbolSize) && Strict(q, r.symbolSize) && GoodGeometry(r.symbolSize, r.k)
    requires |produced| > 1 && PayloadOk(r.symbolSize, r.k, produced[1]) && StillFeeding(q, produced, r, b, [])
    requires DistinctGenuine(q, r.symbolSize, r.k, produced[1], list)
    requires |list| <= NeededOf(r.symbolSize, r.k, produced[1])
    ensures var need := NeededOf(r.symbolSize, r.k, produced[1]);
      var x := Fed(q, r, b, 1, need % 0x1_0000, list, now);
      && x.recv.symbolSize == r.symbolSize && x.recv.k == r.k
      && if |list| < need then StillFeeding(q, produced, x.recv, x.budget, list)
         else JustComplete(q, produced, x.recv, x.budget)
  {
    NeedsOne(r.symbolSize, r.k, produced[1]);
    hide StillFeeding; hide Sound; hide Fountain; hide Strict; hide GoodGeometry; hide PayloadOk; hide RecvSymbol;
    hide NeededOf; hide EncoderFor;
    if list != [] {
      var rest, last := list[..|list| - 1], list[|list| - 1];
      assert list == rest + [last];
      FeedAll(q, produced, r, b, rest, now);
      hide DistinctGenuine;
      var need := NeededOf(r.symbolSize, r.k, produced[1]);
      var f := Fed(q, r, b, 1, need % 0x1_0000, rest, now);
      FeedOne(q, produced, f.recv, f.budget, rest, last, now);
    }
  }

  lemma FreshFeeding(q: RaptorQ, produced: seq<bytes>, r: Recv, b: Ledger)
    requires r.managers == map[] && r.ready == map[] && r.nextDeliver == 0 && r.highestSeen == 0 && r.pendingAcks == []
    requires r.symbolSize > 0
    ensures StillFeeding(q, produced, r, b, [])
  {
    assert Indices([]) == {};
    assert Reserved(r) == map[];
  }

  /** The acknowledgement is drained, and the block is fed again. */
  lemma FeedingAgain(q: RaptorQ, produced: seq<bytes>, r: Recv, b: Ledger)
    requires JustComplete(q, produced, r, b)
    ensures StillFeeding(q, produced, r.(pendingAcks := []), b, [])
  {
    assert Indices([]) == {};
    hide MgrOf; hide Held;
    HeldSame(r, r.(pendingAcks := []));
  }

  lemma Halves(q: RaptorQ, symbolSize: nat, k: nat, payload: bytes, list: seq<Symbol>, n: nat)
    requires symbolSize > 0 && DistinctGenuine(q, symbolSize, k, payload, list) && n <= |list|
    ensures DistinctGenuine(q, symbolSize, k, payload, list[..n]) && DistinctGenuine(q, symbolSize, k, payload, list[n..])
  {
    hide EncoderFor;
  }

  /** The calls the program makes, the drain of the queue included, for every geometry and every payload:
      block 0 is lost, and of block 1 twice its K distinct symbols arrive, source and repair. The first K
      complete it and it is acknowledged; the next K are given a fresh manager, and it is acknowledged
      again. Block 0 is still missing. */
  lemma AckedTwice(q: RaptorQ, symbolSize: nat, k: nat, produced: seq<bytes>, list: seq<Symbol>, b: Ledger, now: nat)
      returns (once: SymbolResult, twice: SymbolResult)
    requires Sound(q) && Fountain(q, symbolSize) && Strict(q, symbolSize) && GoodGeometry(symbolSize, k)
    requires |produced| > 1 && PayloadOk(symbolSize, k, produced[1])
    requires DistinctGenuine(q, symbolSize, k, produced[1], list) && |list| == 2 * NeededOf(symbolSize, k, produced[1])
    ensures var need := NeededOf(symbolSize, k, produced[1]);
      && once == Fed(q, NewRecv(symbolSize, k), b, 1, need % 0x1_0000, list[..need], now)
      && twice == Fed(q, once.recv.(pendingAcks := []), once.budget, 1, need % 0x1_0000, list[need..], now)
    ensures once.recv.pendingAcks == [1] && twice.recv.pendingAcks == [1] && !IsComplete(twice.recv, 0)
  {
    var need, r := NeededOf(symbolSize, k, produced[1]), NewRecv(symbolSize, k);
    NeedsOne(symbolSize, k, produced[1]);
    FreshFeeding(q, produced, r, b);
    hide StillFeeding; hide Sound; hide Fountain; hide Strict; hide NeededOf; hide DistinctGenuine; hide PayloadOk; hide Fed;
    Halves(q, symbolSize, k, produced[1], list, need);
    FeedAll(q, produced, r, b, list[..need], now);
    once := Fed(q, r, b, 1, need % 0x1_0000, list[..need], now);
    var drained := once.recv.(pendingAcks := []);
    FeedingAgain(q, produced, once.recv, once.budget);
    FeedAll(q, produced, drained, once.budget, list[need..], now);
    twice := Fed(q, drained, once.budget, 1, need % 0x1_0000, list[need..], now);
    hide RecvOk; hide Held;
  }
}
