/** Every step of a tunnel keeps its invariant, and what that means over whole runs. */
module TunnelSafety {
  import opened Base
  import opened Geometry
  import opened Codec
  import opened Link
  import opened Budget
  import opened Signals
  import opened Sender
  import opened SenderHistory
  import opened Receiver
  import opened ReceiverSafety
  import opened TickSafety
  import opened Tunnel

  lemma InitHolds(q: RaptorQ, symbolSize: nat, k: nat)
    requires GoodGeometry(symbolSize, k)
    ensures Inv(q, Init(symbolSize, k))
  {
    FreshHolds(q, symbolSize, k);
    var s := Init(symbolSize, k);
    assert Reserved(s.recv) == map[];
    hide HistInv;
  }

  lemma RunnableOf(s: Sys)
    requires SameGeometryBothEnds(s)
    ensures Runnable(s)
  {}

  // ---------------------------------------------------------------- growth

  lemma TruthfulGrows(produced: seq<bytes>, p: bytes, toRecv: set<Signal>)
    requires Truthful(produced, false, toRecv)
    ensures Truthful(produced + [p], false, toRecv)
  {}

  lemma SensibleGrows(produced: seq<bytes>, p: bytes, floor: nat, toSend: set<Signal>)
    requires Sensible(produced, floor, toSend)
    ensures Sensible(produced + [p], floor, toSend)
  {}

  lemma SensibleRaised(produced: seq<bytes>, floor: nat, floor': nat, toSend: set<Signal>)
    requires Sensible(produced, floor, toSend) && floor <= floor'
    ensures Sensible(produced, floor', toSend)
  {}

  lemma RecvOkGrows(q: RaptorQ, produced: seq<bytes>, p: bytes, r: Recv)
    requires RecvOk(q, produced, r)
    ensures RecvOk(q, produced + [p], r)
    ensures Concat(produced[..r.nextDeliver]) == Concat((produced + [p])[..r.nextDeliver])
  {
    hide MgrOf; hide Concat;
    assert (produced + [p])[..r.nextDeliver] == produced[..r.nextDeliver];
  }

  /** More acknowledgements of completed blocks, or other signals, leave the books right. */
  lemma AckedSame(toSend: set<Signal>, more: set<Signal>)
    requires forall s :: s in more ==> !s.BlockAck?
    ensures Acked(toSend + more) == Acked(toSend)
  {}

  lemma RetiredStay(retired: set<nat>, r: Recv, r': Recv)
    requires RetiredComplete(retired, r) && forall b :: IsComplete(r, b) ==> IsComplete(r', b)
    ensures RetiredComplete(retired, r')
  {
    hide IsComplete;
  }

  lemma FlowRaised(sent: nat, floor: nat, floor': nat, slot: nat, credited: nat, abandoned: nat)
    requires FlowOk(sent, floor, slot, credited, abandoned) && floor <= floor' <= sent
    ensures FlowOk(sent, floor', slot, credited, abandoned)
  {}

  // ---------------------------------------------------------------- sender steps

  lemma SendKeeps(q: RaptorQ, s: Sys, p: bytes, repair: nat, now: nat)
    requires Inv(q, s) && Enabled(s, Send(p, repair, now))
    ensures Runnable(s) && Inv(q, Next(q, s, Send(p, repair, now)))
  {
    hide HistInv; hide RecvOk; hide Truthful; hide Sensible; hide RetiredComplete; hide Concat; hide AcksOk;
    RunnableOf(s);
    PerformKeeps(q, s.h, Encode(p, repair, now));
    TruthfulGrows(s.h.produced, p, s.toRecv);
    SensibleGrows(s.h.produced, p, s.recv.nextDeliver, s.toSend);
    RecvOkGrows(q, s.h.produced, p, s.recv);
    FloorWithin(q, s.h.produced, s.recv);
    SendFacts(q, s.h, p, repair, now);
  }

  lemma FloorWithin(q: RaptorQ, produced: seq<bytes>, r: Recv)
    requires RecvOk(q, produced, r)
    ensures r.nextDeliver <= |produced|
  {}

  lemma SendFacts(q: RaptorQ, h: Hist, p: bytes, repair: nat, now: nat)
    requires h.snd.symbolSize > 0 && BlockLen(h.snd.symbolSize, h.snd.k) >= LEN_PREFIX
    ensures var h' := Perform(q, h, Encode(p, repair, now)); h'.produced == h.produced + [p] && h'.retired == h.retired
  {}

  /** NACK answers and spurts put symbols on the wire and nothing more. */
  lemma RepairFacts(q: RaptorQ, h: Hist, op: Op)
    requires h.snd.symbolSize > 0 && BlockLen(h.snd.symbolSize, h.snd.k) >= LEN_PREFIX && (op.AnswerNack? || op.Spurt?)
    ensures var h' := Perform(q, h, op); h'.produced == h.produced && h'.retired == h.retired
  {}

  lemma SenderOnly(q: RaptorQ, s: Sys, h': Hist)
    requires Inv(q, s) && HistInv(q, h') && h'.produced == s.h.produced && RetiredComplete(h'.retired, s.recv)
    requires h'.snd.symbolSize == s.h.snd.symbolSize && h'.snd.k == s.h.snd.k
    ensures Inv(q, s.(h := h'))
  {
    hide HistInv; hide ReceiverSide; hide Truthful; hide Sensible; hide RetiredComplete; hide GoodGeometry;
  }

  lemma NackKeeps(q: RaptorQ, s: Sys, block: nat, need: nat)
    requires Inv(q, s)
    ensures Runnable(s) && Inv(q, s.(h := Perform(q, s.h, AnswerNack(block, need))))
  {
    RunnableOf(s);
    hide ReceiverSide; hide Truthful; hide Sensible; hide RetiredComplete; hide HistInv;
    PerformKeeps(q, s.h, AnswerNack(block, need));
    RepairFacts(q, s.h, AnswerNack(block, need));
    SenderOnly(q, s, Perform(q, s.h, AnswerNack(block, need)));
  }

  lemma AckedBlockComplete(q: RaptorQ, s: Sys, block: nat)
    requires ReceiverSide(q, s.h.produced, s.recv, s.toSend, s.output) && BlockAck(block) in s.toSend
    ensures IsComplete(s.recv, block)
  {
    assert BlockAck(block).block in Acked(s.toSend);
  }

  lemma AckKeepsTunnel(q: RaptorQ, s: Sys, block: nat)
    requires Inv(q, s) && BlockAck(block) in s.toSend
    ensures Runnable(s) && Inv(q, s.(h := Perform(q, s.h, OnAck(block))))
  {
    RunnableOf(s);
    AckedBlockComplete(q, s, block);
    hide ReceiverSide; hide Truthful; hide Sensible; hide HistInv; hide IsComplete; hide BlockLen;
    PerformKeeps(q, s.h, OnAck(block));
    SenderOnly(q, s, Perform(q, s.h, OnAck(block)));
  }

  lemma SpurtKeepsTunnel(q: RaptorQ, s: Sys, order: seq<nat>, now: nat, rtt: nat, link: LinkState)
    requires Inv(q, s)
    ensures Runnable(s) && Inv(q, SpurtSys(q, s, order, now, rtt, link))
  {
    RunnableOf(s);
    hide ReceiverSide; hide Truthful; hide Sensible; hide RetiredComplete; hide HistInv;
    var op := Spurt(order, now, rtt, s.budget, link);
    PerformKeeps(q, s.h, op);
    RepairFacts(q, s.h, op);
    SenderOnly(q, s, Perform(q, s.h, op));
    if link.regime == Random {
      TopUpEffect(s.h.snd, s.budget, order, now, rtt);
    }
  }

  /** A request for a block still retained is answered with the block that was produced. */
  lemma AnswerKeeps(q: RaptorQ, s: Sys, block: nat)
    requires Inv(q, s) && block in s.h.snd.payloads
    ensures Inv(q, s.(toRecv := s.toRecv + {ReliableData(block, s.h.snd.payloads[block])}))
  {
    hide ReceiverSide; hide Sensible; hide RetiredComplete; hide HistInv; hide GoodGeometry;
    RetainedIsProduced(q, s.h, block);
    var sig := ReliableData(block, s.h.snd.payloads[block]);
    TruthfulAdds(s.h.produced, s.eof, s.toRecv, sig);
    hide Truthful;
    SignalsOnly(q, s, s.toRecv + {sig}, s.eof);
  }

  lemma TruthfulAdds(produced: seq<bytes>, eof: bool, toRecv: set<Signal>, sig: Signal)
    requires Truthful(produced, eof, toRecv) && IsTrue(produced, eof, sig)
    ensures Truthful(produced, eof, toRecv + {sig})
  {}

  lemma RetainedIsProduced(q: RaptorQ, h: Hist, block: nat)
    requires HistInv(q, h) && block in h.snd.payloads
    ensures block < |h.produced| && h.snd.payloads[block] == h.produced[block]
  {
    hide Retention; hide Sent; hide EncoderFor;
  }

  // ---------------------------------------------------------------- receiver steps

  /** A receiver call that delivers bytes: what remains to check when it has been shown safe. */
  lemma Delivered(q: RaptorQ, s: Sys, r': Recv, out: bytes, b': Ledger, stranded': nat)
    requires Inv(q, s)
    requires RecvOk(q, s.h.produced, r') && AcksOk(r', Acked(s.toSend)) && Progress(s.h.produced, s.recv, r', out)
    requires r'.requested <= s.recv.requested
    requires LedgerOk(b', Held(r'), stranded', s.others, s.peak)
    ensures Inv(q, s.(recv := r', budget := b', output := s.output + out, stranded := stranded'))
  {
    hide HistInv; hide RecvOk; hide Truthful; hide AcksOk; hide Concat; hide GoodGeometry; hide IsComplete; hide Held;
    SensibleRaised(s.h.produced, s.recv.nextDeliver, r'.nextDeliver, s.toSend);
    hide Sensible;
    RetiredStay(s.h.retired, s.recv, r');
    hide RetiredComplete;
    FlowRaised(|s.h.produced|, s.recv.nextDeliver, r'.nextDeliver, s.slot, s.credited, s.abandoned);
  }

  /** What a datagram on the wire is, once its header has been read back. */
  lemma WireSymbol(q: RaptorQ, s: Sys, i: nat)
    requires Inv(q, s) && i < |s.h.log| && IndicesFit(s.h.log)
    ensures var d := s.h.log[i];
      && d.block < |s.h.produced| && PayloadOk(s.recv.symbolSize, s.recv.k, s.h.produced[d.block])
      && d.k == EncoderFor(s.recv.symbolSize, s.recv.k, s.h.produced[d.block]).k
      && d.esi % ESI_LIMIT == d.esi
      && d.data == q.encode(EncoderFor(s.recv.symbolSize, s.recv.k, s.h.produced[d.block]).block, d.esi)
  {
    hide ReceiverSide; hide Truthful; hide Sensible; hide RetiredComplete; hide EncoderFor; hide Retention;
    hide NeverTwice; hide ExactIndices; hide BlockLen;
    var d := s.h.log[i];
    assert d in s.h.log;
    assert AllGenuine(q, s.h.snd.symbolSize, s.h.snd.k, s.h.produced, s.h.log);
    assert IsSymbolOf(q, s.h.snd.symbolSize, s.h.snd.k, s.h.produced[d.block], d);
    assert s.h.produced[d.block] in s.h.produced;
  }

  lemma ArriveKeeps(q: RaptorQ, s: Sys, i: nat, now: nat)
    requires Sound(q) && Inv(q, s) && i < |s.h.log| && IndicesFit(s.h.log)
    ensures Inv(q, ArriveStep(q, s, s.h.log[i], now))
  {
    hide HistInv; hide Truthful; hide Sensible; hide RetiredComplete; hide EncoderFor; hide RecvSymbol; hide RecvOk;
    hide AcksOk; hide Progress; hide Held; hide Concat; hide GoodGeometry; hide PayloadOk; hide Sound; hide IndicesFit;
    WireSymbol(q, s, i);
    var d, r := s.h.log[i], s.recv;
    var sym := Symbol(d.esi % ESI_LIMIT, d.data);
    SymbolSafe(q, s.h.produced, r, s.budget, d.block, sym, now, Acked(s.toSend));
    var x := RecvSymbol(q, r, s.budget, d.block, d.k % 0x1_0000, sym, now);
    Delivered(q, s, x.recv, x.out, x.budget, s.stranded);
  }

  lemma CopyIsTrue(produced: seq<bytes>, eof: bool, toRecv: set<Signal>, block: nat, data: bytes)
    requires Truthful(produced, eof, toRecv) && ReliableData(block, data) in toRecv
    ensures block < |produced| && data == produced[block]
  {
    assert IsTrue(produced, eof, ReliableData(block, data));
  }

  lemma ReliableKeeps(q: RaptorQ, s: Sys, block: nat, data: bytes)
    requires Inv(q, s) && ReliableData(block, data) in s.toRecv
    ensures Inv(q, ReceiverGets(s, ReliableData(block, data)))
  {
    hide HistInv; hide Sensible; hide RetiredComplete; hide RecvReliable; hide RecvOk; hide Truthful;
    CopyIsTrue(s.h.produced, s.eof, s.toRecv, block, data);
    hide AcksOk; hide Progress; hide Held; hide Concat; hide GoodGeometry; hide DroppedBy; hide IsComplete;
    ReliableSafe(q, s.h.produced, s.recv, block, Acked(s.toSend));
    var d := RecvReliable(s.recv, block, data);
    Delivered(q, s, d.recv, d.out, s.budget, s.stranded + DroppedBy(s.recv, block));
  }

  /** Fields of the receiver that delivery does not depend on. */
  lemma RecvFieldKeeps(q: RaptorQ, s: Sys, r': Recv)
    requires Inv(q, s)
    requires r' == s.recv.(total := r'.total, highWater := r'.highWater, requested := r'.requested)
    requires BoundsOk(s.h.produced, s.eof, r'.highWater, r'.total) && r'.requested <= s.recv.requested
    ensures Inv(q, s.(recv := r'))
  {
    hide HistInv; hide Truthful; hide Sensible; hide GoodGeometry; hide Concat;
    ManagersSame(q, s.h.produced, s.recv, r');
    hide ManagersOk;
    HeldSame(s.recv, r');
    hide Held;
    SameCompletion(s.recv, r', Acked(s.toSend));
    RetiredStay(s.h.retired, s.recv, r');
    hide RetiredComplete; hide AcksOk;
  }

  lemma TickKeepsTunnel(q: RaptorQ, s: Sys, order: seq<nat>, link: LinkState, now: nat)
    requires Inv(q, s) && Enumerates(order, s.recv.managers)
    ensures Inv(q, TickSys(s, order, link, now))
  {
    hide HistInv; hide Truthful; hide GoodGeometry; hide Concat; hide Held; hide RecvTick; hide MgrOf;
    UpperTrue(q, s.h.produced, s.recv);
    hide Upper;
    TickSafe(q, s.h.produced, s.recv, s.budget, order, link, now);
    var t := RecvTick(s.recv, s.budget, order, link, now);
    SameCompletion(s.recv, t.recv, Acked(s.toSend));
    RetiredStay(s.h.retired, s.recv, t.recv);
    hide RetiredComplete; hide ManagersOk; hide IsComplete; hide AskedOnce;
    assert forall x :: x in Elements(t.signals) ==> AskOk(s.h.produced, x);
    AckedSame(s.toSend, Elements(t.signals));
    assert forall b :: b in Requests(t.signals) ==> ReliableRequest(b) in Elements(t.signals);
  }

  lemma AcksSent(q: RaptorQ, s: Sys)
    requires Inv(q, s)
    ensures Inv(q, s.(toSend := s.toSend + Acks(s.recv.pendingAcks), recv := s.recv.(pendingAcks := [])))
  {
    hide HistInv; hide Truthful; hide GoodGeometry; hide Concat;
    var r' := s.recv.(pendingAcks := []);
    var toSend' := s.toSend + Acks(s.recv.pendingAcks);
    ManagersSame(q, s.h.produced, s.recv, r');
    hide ManagersOk;
    HeldSame(s.recv, r');
    hide Held;
    AckedGrows(s.toSend, s.recv.pendingAcks);
    assert forall b :: IsComplete(r', b) <==> IsComplete(s.recv, b);
    hide IsComplete; hide Acked;
  }

  lemma AckedGrows(toSend: set<Signal>, blocks: seq<nat>)
    ensures forall b :: b in Acked(toSend + Acks(blocks)) <==> b in Acked(toSend) || b in blocks
  {
    forall b | b in Acked(toSend) || b in blocks ensures b in Acked(toSend + Acks(blocks)) {
      assert BlockAck(b) in toSend + Acks(blocks);
    }
  }

  lemma SignalsOnly(q: RaptorQ, s: Sys, toRecv': set<Signal>, eof': bool)
    requires Inv(q, s) && Truthful(s.h.produced, eof', toRecv') && (s.eof ==> eof')
    ensures Inv(q, s.(toRecv := toRecv', eof := eof'))
  {
    hide HistInv; hide ReceiverSide; hide Sensible; hide GoodGeometry; hide RetiredComplete; hide Truthful;
  }

  lemma CreditSent(q: RaptorQ, s: Sys)
    requires Inv(q, s)
    ensures Inv(q, s.(toSend := s.toSend + {Credit(s.recv.nextDeliver)}))
  {
    hide HistInv; hide GoodGeometry; hide RetiredComplete; hide Truthful; hide RecvOk; hide Concat;
    AckedSame(s.toSend, {Credit(s.recv.nextDeliver)});
  }

  lemma AccountsKeep(q: RaptorQ, s: Sys, s': Sys)
    requires Inv(q, s)
    requires s' == s.(slot := s'.slot, credited := s'.credited, abandoned := s'.abandoned,
                      budget := s'.budget, others := s'.others, peak := s'.peak)
    requires LedgerOk(s'.budget, Held(s.recv), s.stranded, s'.others, s'.peak)
    requires FlowOk(|s.h.produced|, s.recv.nextDeliver, s'.slot, s'.credited, s'.abandoned)
    ensures Inv(q, s')
  {
    hide HistInv; hide GoodGeometry; hide RetiredComplete; hide Truthful; hide ReceiverSide; hide Sensible; hide Held;
  }

  // ---------------------------------------------------------------- one step

  lemma NextKeeps(q: RaptorQ, s: Sys, a: Act)
    requires Sound(q) && Inv(q, s) && Enabled(s, a) && IndicesFit(s.h.log)
    ensures Runnable(s) && Inv(q, Next(q, s, a))
  {
    hide Sound; hide IndicesFit; hide HistInv; hide ReceiverSide; hide Truthful; hide Sensible; hide GoodGeometry;
    RunnableOf(s);
    match a
    case Send(p, repair, now) => SendKeeps(q, s, p, repair, now);
    case AnnounceHighWater => AnnounceKeeps(q, s);
    case Eof => AnnounceKeeps(q, s);
    case Arrive(i, now) => ArriveKeeps(q, s, i, now);
    case ToReceiver(sig) => ReceiverGetsKeeps(q, s, sig);
    case ToSender(sig) => SenderGetsKeeps(q, s, sig);
    case Unmark(b) => RecvFieldKeeps(q, s, s.recv.(requested := s.recv.requested - {b}));
    case ControlTick(order, link, now) => TickKeepsTunnel(q, s, order, link, now);
    case SendAcks => AcksSent(q, s);
    case SendCredit => CreditSent(q, s);
    case ProactiveTick(order, now, rtt, link) => SpurtKeepsTunnel(q, s, order, now, rtt, link);
    case _ => AccountsKeep(q, s, Next(q, s, a));
  }

  lemma AnnounceKeeps(q: RaptorQ, s: Sys)
    requires Inv(q, s)
    ensures Inv(q, s.(toRecv := s.toRecv + {HighWater(s.h.snd.nextBlock)}))
    ensures Inv(q, s.(eof := true, toRecv := s.toRecv + {BlockCount(s.h.snd.nextBlock)}))
  {
    hide Contents; hide Sent; hide ReceiverSide; hide Sensible; hide GoodGeometry; hide Holds;
    assert |s.h.produced| == s.h.snd.nextBlock;
    SignalsOnly(q, s, s.toRecv + {HighWater(s.h.snd.nextBlock)}, s.eof);
    SignalsOnly(q, s, s.toRecv + {BlockCount(s.h.snd.nextBlock)}, true);
  }

  lemma ReceiverGetsKeeps(q: RaptorQ, s: Sys, sig: Signal)
    requires Inv(q, s) && sig in s.toRecv
    ensures Inv(q, ReceiverGets(s, sig))
  {
    match sig
    case BlockCount(n) => RecvFieldKeeps(q, s, s.recv.(total := Some(n)));
    case HighWater(n) => RecvFieldKeeps(q, s, s.recv.(highWater := Max(s.recv.highWater, n)));
    case ReliableData(b, data) => ReliableKeeps(q, s, b, data);
    case _ =>
  }

  lemma SenderGetsKeeps(q: RaptorQ, s: Sys, sig: Signal)
    requires Inv(q, s) && sig in s.toSend
    ensures Runnable(s) && Inv(q, SenderGets(q, s, sig))
  {
    RunnableOf(s);
    match sig
    case Nack(b, _, need) => NackKeeps(q, s, b, need);
    case ReliableRequest(b) => if b in s.h.snd.payloads { AnswerKeeps(q, s, b); }
    case Credit(d) => AccountsKeep(q, s, Settle(s, d));
    case BlockAck(b) => AckKeepsTunnel(q, s, b);
    case _ =>
  }
}
