/** What the receiver's calls keep, measured against the payloads the sender produced. */
module ReceiverSafety {
  import opened Base
  import opened Geometry
  import opened Codec
  import opened Budget
  import opened Decoder
  import opened Sender
  import opened Receiver

  /** The block's bytes have reached the receiver in full. */
  predicate IsComplete(r: Recv, b: nat) { b < r.nextDeliver || b in r.ready }

  // ---------------------------------------------------------------- in-order delivery

  /** Everything waiting is the payload of its block, and nothing that could go out is waiting. */
  ghost predicate ReadyOk(produced: seq<bytes>, r: Recv) {
    && r.nextDeliver <= |produced|
    && (forall b :: b in r.ready ==> r.nextDeliver <= b < |produced| && r.ready[b] == produced[b])
  }

  ghost predicate Settled(r: Recv) { r.nextDeliver !in r.ready }

  /** `Flush` completes nothing, un-completes nothing, and only moves blocks below a rising floor. */
  lemma {:induction false} FlushKeeps(r: Recv)
    ensures var r' := Flush(r).recv;
      && r' == r.(ready := r'.ready, nextDeliver := r'.nextDeliver) && r'.nextDeliver >= r.nextDeliver
      && (forall b :: IsComplete(r', b) <==> IsComplete(r, b))
    decreases |r.ready|
  {
    if r.nextDeliver in r.ready {
      FlushKeeps(r.(ready := r.ready - {r.nextDeliver}, nextDeliver := r.nextDeliver + 1));
    }
  }

  /** What is true of the payloads stays so, and the floor stops at the first block that is missing. */
  lemma {:induction false} FlushShape(produced: seq<bytes>, r: Recv)
    requires ReadyOk(produced, r)
    ensures var d := Flush(r);
      && ReadyOk(produced, d.recv) && Settled(d.recv)
      && d.recv == r.(ready := d.recv.ready, nextDeliver := d.recv.nextDeliver)
      && r.nextDeliver <= d.recv.nextDeliver
      && (forall b :: IsComplete(d.recv, b) <==> IsComplete(r, b))
    decreases |r.ready|
  {
    if r.nextDeliver in r.ready {
      var n := r.nextDeliver;
      FlushShape(produced, r.(ready := r.ready - {n}, nextDeliver := n + 1));
    }
  }

  /** ... and hands over exactly the payloads between the old floor and the new. */
  lemma {:induction false} FlushDelivers(produced: seq<bytes>, r: Recv)
    requires ReadyOk(produced, r)
    ensures var d := Flush(r);
      r.nextDeliver <= d.recv.nextDeliver <= |produced|
      && Concat(produced[..r.nextDeliver]) + d.out == Concat(produced[..d.recv.nextDeliver])
    decreases |r.ready|
  {
    hide Concat;
    if r.nextDeliver in r.ready {
      var n := r.nextDeliver;
      var r1 := r.(ready := r.ready - {n}, nextDeliver := n + 1);
      FlushDelivers(produced, r1);
      var d1 := Flush(r1);
      assert Flush(r) == Delivery(d1.recv, produced[n] + d1.out);
      hide Flush;
      ConcatSnoc(produced[..n], produced[n]);
      assert produced[..n] + [produced[n]] == produced[..n + 1];
      assert (Concat(produced[..n]) + produced[n]) + d1.out == Concat(produced[..n]) + (produced[n] + d1.out);
    }
  }

  // ---------------------------------------------------------------- managers

  /** A manager of block `b` has been fed symbols of that block only, and sized for it. */
  ghost predicate MgrOf(q: RaptorQ, symbolSize: nat, maxK: nat, payload: bytes, m: Mgr)
    requires symbolSize > 0
  {
    var e := EncoderFor(symbolSize, maxK, payload);
    MgrInv(m) && m.k == e.k && m.blockLen == |e.block| && Genuine(q, e.block, m.fed)
  }

  ghost predicate ManagersOk(q: RaptorQ, produced: seq<bytes>, r: Recv) {
    && r.symbolSize > 0
    && forall b :: b in r.managers ==>
         b < |produced| && MgrOf(q, r.symbolSize, r.k, produced[b], r.managers[b]) && r.managers[b].received > 0
  }

  function Reserved(r: Recv): map<nat, nat> { map b | b in r.managers :: r.managers[b].reserved }

  /** What the live managers hold together. */
  ghost function Held(r: Recv): nat { Sum(Reserved(r)) }

  /** Payloads come from chunks of at most a block, so their blocks unpad to them. */
  ghost predicate PayloadOk(symbolSize: nat, k: nat, payload: bytes) {
    0 < |payload| && |payload| + LEN_PREFIX <= BlockLen(symbolSize, k)
  }

  /** A block's encoder is one the receiver's clamp leaves alone, and its block unpads to the payload. */
  lemma EncoderFits(symbolSize: nat, k: nat, payload: bytes)
    requires GoodGeometry(symbolSize, k) && PayloadOk(symbolSize, k, payload)
    ensures var e := EncoderFor(symbolSize, k, payload);
      && 1 <= e.k <= k && ClampK(e.k % 0x1_0000, k) == e.k
      && |e.block| == BlockLen(symbolSize, e.k)
      && UnpadBlock(e.block) == Some(payload)
  {
    GeometryFitsU32(symbolSize, k);
    WordSizes();
    ActualKLeast(|payload|, symbolSize, k);
    PadUnpad(payload, BlockLen(symbolSize, ActualK(|payload|, symbolSize, k)));
  }

  /** A genuine symbol fed to a block's manager keeps it that block's, and can deliver nothing but
      the block's payload. */
  lemma SymbolToMgr(q: RaptorQ, symbolSize: nat, k: nat, payload: bytes, m: Mgr, b: Ledger, now: nat, s: Symbol)
    requires Sound(q) && GoodGeometry(symbolSize, k) && PayloadOk(symbolSize, k, payload)
    requires MgrOf(q, symbolSize, k, payload, m) && Backed(m, b)
    requires s.data == q.encode(EncoderFor(symbolSize, k, payload).block, s.esi)
    ensures var st := SymbolStep(q, m, b, now, s);
      && MgrOf(q, symbolSize, k, payload, st.mgr) && Keeps(m, b, st) && st.mgr.reserved == 0
      && (m.received > 0 || !m.IsTerminal() ==> st.mgr.received > 0)
      && (st.action.Deliver? ==> st.action.data == payload)
  {
    EncoderFits(symbolSize, k, payload);
    SymbolStepKeeps(q, m, b, now, s);
    var e := EncoderFor(symbolSize, k, payload);
    hide EncoderFor; hide BlockLen; hide UnpadBlock;
    assert Genuine(q, e.block, m.fed + [s]);
    assert q.decode(|e.block|, m.fed + [s]) in {None, Some(e.block)};
    Feeds(q, m, b, now, s);
  }

  /** A step feeds the decoder the symbol, or leaves it alone, and delivers only what it answers. */
  lemma Feeds(q: RaptorQ, m: Mgr, b: Ledger, now: nat, s: Symbol)
    ensures var st := SymbolStep(q, m, b, now, s);
      && (st.mgr.fed == m.fed || st.mgr.fed == m.fed + [s]) && st.mgr.k == m.k && st.mgr.blockLen == m.blockLen
      && (if m.IsTerminal() then st.mgr == m else st.mgr.received == m.received + 1)
      && (st.action.Deliver? ==>
            q.decode(m.blockLen, m.fed + [s]).Some?
            && UnpadBlock(q.decode(m.blockLen, m.fed + [s]).value) == Some(st.action.data))
  {}

  lemma NewMgrOf(q: RaptorQ, symbolSize: nat, k: nat, payload: bytes)
    requires GoodGeometry(symbolSize, k) && PayloadOk(symbolSize, k, payload)
    ensures MgrOf(q, symbolSize, k, payload, NewMgr(ClampK(EncoderFor(symbolSize, k, payload).k % 0x1_0000, k), symbolSize))
  {
    EncoderFits(symbolSize, k, payload);
  }

  // ---------------------------------------------------------------- acknowledgements

  /** Only completed blocks are queued for acknowledgement, and each completed block has been
      queued or has already been acknowledged (`acked`). */
  ghost predicate AcksOk(r: Recv, acked: set<nat>) {
    && (forall b :: b in r.pendingAcks || b in acked ==> IsComplete(r, b))
    && (forall b :: IsComplete(r, b) ==> b in r.pendingAcks || b in acked)
  }

  // ---------------------------------------------------------------- the three calls

  /** Completing a block and flushing: one lemma for the decoded and the reliable path. */
  lemma CompleteAndFlush(produced: seq<bytes>, r: Recv, r1: Recv, block: nat, acked: set<nat>)
    requires ReadyOk(produced, r) && AcksOk(r, acked)
    requires r.nextDeliver <= block < |produced|
    requires r1.nextDeliver == r.nextDeliver && r1.ready == r.ready[block := produced[block]]
    requires r1.pendingAcks == r.pendingAcks + [block]
    ensures var d := Flush(r1);
      && ReadyOk(produced, d.recv) && Settled(d.recv) && AcksOk(d.recv, acked)
      && d.recv == r1.(ready := d.recv.ready, nextDeliver := d.recv.nextDeliver)
      && r.nextDeliver <= d.recv.nextDeliver
      && Concat(produced[..r.nextDeliver]) + d.out == Concat(produced[..d.recv.nextDeliver])
      && IsComplete(d.recv, block) && (forall b :: IsComplete(r, b) ==> IsComplete(d.recv, b))
  {
    FlushShape(produced, r1);
    FlushDelivers(produced, r1);
    hide Flush; hide Concat;
    assert forall b :: IsComplete(r1, b) <==> IsComplete(r, b) || b == block;
    assert forall b :: b in r1.pendingAcks <==> b in r.pendingAcks || b == block;
  }

  /** A settled receiver has nothing to flush. */
  lemma FlushNothing(r: Recv)
    requires Settled(r)
    ensures Flush(r) == Delivery(r, [])
  {}

  ghost predicate RecvOk(q: RaptorQ, produced: seq<bytes>, r: Recv) {
    && ReadyOk(produced, r) && Settled(r) && ManagersOk(q, produced, r)
    && (r.highestSeen == 0 || r.highestSeen < |produced|)
  }

  /** What any receiver call does towards the outside. */
  ghost predicate Progress(produced: seq<bytes>, r: Recv, r': Recv, out: bytes) {
    && r.nextDeliver <= r'.nextDeliver <= |produced|
    && Concat(produced[..r.nextDeliver]) + out == Concat(produced[..r'.nextDeliver])
    && (forall b :: IsComplete(r, b) ==> IsComplete(r', b))
    && r'.symbolSize == r.symbolSize && r'.k == r.k && r'.total == r.total && r'.highWater == r.highWater
  }

  lemma ReservedReplace(r: Recv, block: nat, m: Mgr)
    ensures var r' := r.(managers := r.managers[block := m]);
      Held(r') + (if block in r.managers then r.managers[block].reserved else 0) == Held(r) + m.reserved
    ensures var r' := r.(managers := r.managers - {block});
      Held(r') + (if block in r.managers then r.managers[block].reserved else 0) == Held(r)
  {
    SumUpdate(Reserved(r), block, m.reserved);
    assert Reserved(r.(managers := r.managers[block := m])) == Reserved(r)[block := m.reserved];
    assert Reserved(r.(managers := r.managers - {block})) == Reserved(r) - {block};
  }

  lemma HeldPart(r: Recv, block: nat)
    requires block in r.managers
    ensures r.managers[block].reserved <= Held(r)
  {
    SumMember(Reserved(r), block);
  }

  /** Only the managers matter to what is held. */
  lemma HeldSame(r: Recv, r': Recv)
    requires r.managers == r'.managers
    ensures Held(r) == Held(r')
  {
    assert Reserved(r) == Reserved(r');
  }

  lemma ManagersStep(q: RaptorQ, produced: seq<bytes>, r: Recv, block: nat, m: Mgr)
    requires ManagersOk(q, produced, r) && block < |produced| && MgrOf(q, r.symbolSize, r.k, produced[block], m)
    requires m.received > 0
    ensures ManagersOk(q, produced, r.(managers := r.managers[block := m]))
    ensures ManagersOk(q, produced, r.(managers := r.managers - {block}))
  {
    hide MgrOf;
  }

  lemma ManagersSame(q: RaptorQ, produced: seq<bytes>, r: Recv, r': Recv)
    requires ManagersOk(q, produced, r)
    requires r'.managers == r.managers && r'.symbolSize == r.symbolSize && r'.k == r.k
    ensures ManagersOk(q, produced, r')
  {
    hide MgrOf;
  }

  /** A symbol of a produced block arrives, straight, repeated, reordered or late. */
  lemma SymbolSafe(q: RaptorQ, produced: seq<bytes>, r: Recv, b: Ledger, block: nat, s: Symbol, now: nat, acked: set<nat>)
    requires Sound(q) && GoodGeometry(r.symbolSize, r.k) && RecvOk(q, produced, r) && AcksOk(r, acked)
    requires block < |produced| && PayloadOk(r.symbolSize, r.k, produced[block])
    requires s.data == q.encode(EncoderFor(r.symbolSize, r.k, produced[block]).block, s.esi)
    requires Held(r) <= b.inFlight
    ensures var actualK := EncoderFor(r.symbolSize, r.k, produced[block]).k % 0x1_0000;
      var x := RecvSymbol(q, r, b, block, actualK, s, now);
      && RecvOk(q, produced, x.recv) && AcksOk(x.recv, acked) && Progress(produced, r, x.recv, x.out)
      && x.recv.requested == r.requested
      && x.budget.inFlight - Held(x.recv) == b.inFlight - Held(r) && x.budget.inFlight >= Held(x.recv)
      && x.budget.ceiling == b.ceiling && x.budget.inFlight <= Max(b.inFlight, b.ceiling)
  {
    var p := produced[block];
    var actualK := EncoderFor(r.symbolSize, r.k, p).k % 0x1_0000;
    if block < r.nextDeliver {
      assert produced[..r.nextDeliver] == produced[..r.nextDeliver];
    } else {
      var r1 := r.(highestSeen := Max(r.highestSeen, block));
      var m := ManagerFor(r1, block, actualK);
      NewMgrOf(q, r.symbolSize, r.k, p);
      if block in r.managers { HeldPart(r, block); }
      assert MgrOf(q, r.symbolSize, r.k, p, m);
      SymbolToMgr(q, r.symbolSize, r.k, p, m, b, now, s);
      var st := SymbolStep(q, m, b, now, s);
      assert RecvSymbol(q, r, b, block, actualK, s, now)
          == SymbolResult(Flush(Routed(r1, block, st)).recv, st.budget, Flush(Routed(r1, block, st)).out);
      RoutedSafe(q, produced, r, r1, block, m, st, acked);
      RoutedHeld(r, r1, block, m, st);
    }
  }

  lemma RoutedSafe(q: RaptorQ, produced: seq<bytes>, r: Recv, r1: Recv, block: nat, m: Mgr, st: Step, acked: set<nat>)
    requires RecvOk(q, produced, r) && AcksOk(r, acked) && r.nextDeliver <= block < |produced|
    requires r1 == r.(highestSeen := Max(r.highestSeen, block))
    requires MgrOf(q, r.symbolSize, r.k, produced[block], st.mgr) && st.mgr.received > 0
    requires st.action.Deliver? ==> st.action.data == produced[block]
    ensures var d := Flush(Routed(r1, block, st));
      && RecvOk(q, produced, d.recv) && AcksOk(d.recv, acked) && Progress(produced, r, d.recv, d.out)
      && d.recv.requested == r.requested && d.recv.managers == Routed(r1, block, st).managers
  {
    hide MgrOf; hide Flush; hide Concat; hide IsComplete;
    var r2 := Routed(r1, block, st);
    ManagersSame(q, produced, r, r1);
    ManagersStep(q, produced, r1, block, st.mgr);
    if st.action.Deliver? {
      CompleteAndFlush(produced, r, r2, block, acked);
      ManagersSame(q, produced, r1.(managers := r1.managers - {block}), Flush(r2).recv);
    } else {
      FlushNothing(r2);
      SameCompletion(r, r2, acked);
      assert Concat(produced[..r.nextDeliver]) + [] == Concat(produced[..r.nextDeliver]);
    }
  }

  lemma SameCompletion(r: Recv, r': Recv, acked: set<nat>)
    requires r'.ready == r.ready && r'.nextDeliver == r.nextDeliver && r'.pendingAcks == r.pendingAcks
    ensures forall b :: IsComplete(r, b) <==> IsComplete(r', b)
    ensures AcksOk(r, acked) <==> AcksOk(r', acked)
  {}

  lemma RoutedHeld(r: Recv, r1: Recv, block: nat, m: Mgr, st: Step)
    requires r1 == r.(highestSeen := Max(r.highestSeen, block)) && st.mgr.reserved == 0
    requires m.reserved == (if block in r.managers then r.managers[block].reserved else 0)
    ensures Held(Flush(Routed(r1, block, st)).recv) + m.reserved == Held(r)
  {
    ReservedReplace(r1, block, st.mgr);
    HeldSame(r, r1);
    var r2 := Routed(r1, block, st);
    FlushKeeps(r2);
    HeldSame(r2, Flush(r2).recv);
    HeldSame(r2, if st.action.Deliver? then r1.(managers := r1.managers - {block}) else r1.(managers := r1.managers[block := st.mgr]));
  }

  /** A reliable copy of a produced block arrives. Whatever the block's manager held is dropped with
      it and never returned. */
  lemma ReliableSafe(q: RaptorQ, produced: seq<bytes>, r: Recv, block: nat, acked: set<nat>)
    requires RecvOk(q, produced, r) && AcksOk(r, acked) && block < |produced|
    ensures var d := RecvReliable(r, block, produced[block]);
      && RecvOk(q, produced, d.recv) && AcksOk(d.recv, acked) && Progress(produced, r, d.recv, d.out)
      && IsComplete(d.recv, block)
      && d.recv.requested <= r.requested
      && Held(d.recv) + DroppedBy(r, block) == Held(r)
  {
    if block < r.nextDeliver {
      assert Concat(produced[..r.nextDeliver]) + [] == Concat(produced[..r.nextDeliver]);
    } else {
      hide MgrOf; hide Concat;
      var r1 := Completed(r, block, produced[block]);
      CompleteAndFlush(produced, r, r1, block, acked);
      var d := Flush(r1);
      hide Flush;
      RemoveManager(q, produced, r, block);
      ManagersSame(q, produced, r.(managers := r.managers - {block}), d.recv);
      ReservedReplace(r, block, NewMgr(0, 0));
      HeldSame(d.recv, r.(managers := r.managers - {block}));
    }
  }

  lemma RemoveManager(q: RaptorQ, produced: seq<bytes>, r: Recv, block: nat)
    requires ManagersOk(q, produced, r)
    ensures ManagersOk(q, produced, r.(managers := r.managers - {block}))
  {
    hide MgrOf;
  }

  /** The reservation that disappears with a manager when its block is completed reliably. */
  function DroppedBy(r: Recv, block: nat): nat {
    if block >= r.nextDeliver && block in r.managers then r.managers[block].reserved else 0
  }
}
