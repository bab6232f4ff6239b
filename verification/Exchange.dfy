/** How the two ends of a tunnel move each other: what the receiver's tick, credits and acknowledgements do at
    the sender, and what the sender's answers and announcements do at the receiver. */
module Exchange {
  import opened Base
  import opened Geometry
  import opened Codec
  import opened Link
  import opened Budget
  import opened Signals
  import opened Decoder
  import opened Sender
  import opened SenderHistory
  import opened Receiver
  import opened ReceiverSafety
  import opened Service
  import opened Tunnel
  import opened TunnelRuns

  // ---------------------------------------------------------------- repair

  /** A NACK that reaches the sender of a retained block puts exactly the symbols asked for on the wire: the
      next ones of that block, each of which may arrive from then on. */
  lemma NackReachesWire(q: RaptorQ, s: Sys, b: nat, have: nat, need: nat)
    requires Inv(q, s) && Nack(b, have, need) in s.toSend && b in s.h.snd.encoders
    ensures Runnable(s) && Enabled(s, ToSender(Nack(b, have, need)))
    ensures var s', from := Next(q, s, ToSender(Nack(b, have, need))), |Esis(s.h.log, b)|;
      && s' == s.(h := s'.h) && s.h.log <= s'.h.log && |s'.h.log| == |s.h.log| + need
      && forall i: nat, now :: |s.h.log| <= i < |s.h.log| + need ==>
           Enabled(s', Arrive(i, now)) && s'.h.log[i].block == b && s'.h.log[i].esi == from + (i - |s.h.log|)
  {
    hide Inv; hide HistInv; hide BlockLen; hide Esis; hide Perform;
    HistOf(q, s);
    NackAnswered(q, s.h, b, need);
  }

  lemma HistOf(q: RaptorQ, s: Sys)
    requires Inv(q, s)
    ensures HistInv(q, s.h) && s.h.snd.symbolSize > 0 && BlockLen(s.h.snd.symbolSize, s.h.snd.k) >= LEN_PREFIX
  {
    hide ReceiverSide; hide Truthful; hide Sensible; hide RetiredComplete; hide HistInv;
    GeometryOk(q, s.h);
  }

  /** From `s` to `s'` the wire has gained, and the budget lost, what the asks want. */
  ghost predicate SpurtSent(q: RaptorQ, s: Sys, s': Sys, asks: seq<(nat, nat)>) {
    && Service.Minted(q, s.h, s'.h, asks) && s'.h.produced == s.h.produced
    && s'.budget == s.budget.(inFlight := s.budget.inFlight + Asked(asks)) && s'.stranded == s.stranded + Asked(asks)
  }

  /** A proactive pass puts on the wire, and reserves in the budget, exactly what it asks for. */
  lemma SpurtReachesWire(q: RaptorQ, s: Sys, order: seq<nat>, now: nat, rtt: nat, link: LinkState)
    requires Runnable(s) && HistInv(q, s.h)
    ensures SpurtSent(q, s, Next(q, s, ProactiveTick(order, now, rtt, link)),
                      TopUpPass(s.h.snd, s.budget, order, now, rtt, link).out)
  {
    hide Inv; hide Next; hide Perform; hide TopUpPass; hide Runnable; hide HistInv; hide BlockLen; hide Service.Minted; hide Asked;
    GeometryOk(q, s.h);
    SpurtAnswered(q, s.h, Spurt(order, now, rtt, s.budget, link));
    SpurtNext(q, s, order, now, rtt, link);
    SpurtBudget(s.h.snd, s.budget, order, now, rtt, link);
  }

  lemma SpurtNext(q: RaptorQ, s: Sys, order: seq<nat>, now: nat, rtt: nat, link: LinkState)
    requires Runnable(s) && s.h.snd.symbolSize > 0 && BlockLen(s.h.snd.symbolSize, s.h.snd.k) >= LEN_PREFIX
    ensures Enabled(s, ProactiveTick(order, now, rtt, link))
    ensures var s', t := Next(q, s, ProactiveTick(order, now, rtt, link)), TopUpPass(s.h.snd, s.budget, order, now, rtt, link);
      s'.h == Perform(q, s.h, Spurt(order, now, rtt, s.budget, link)) && s'.h.produced == s.h.produced
      && s'.budget == t.budget && s'.stranded == s.stranded + Asked(t.out)
  {
    hide TopUpPass; hide Serve; hide Asked; hide BlockLen;
  }

  lemma SpurtBudget(s: Snd, b: Ledger, order: seq<nat>, now: nat, rtt: nat, link: LinkState)
    ensures var t := TopUpPass(s, b, order, now, rtt, link); t.budget == b.(inFlight := b.inFlight + Asked(t.out))
  {
    TopUpEffect(s, b, order, now, rtt);
  }

  /** Every signal of a tick is on its way to the sender, and the tick is the receiver's. */
  lemma TickReachesSender(q: RaptorQ, s: Sys, order: seq<nat>, link: LinkState, now: nat)
    requires Runnable(s) && Enabled(s, ControlTick(order, link, now))
    ensures var s', t := Next(q, s, ControlTick(order, link, now)), RecvTick(s.recv, s.budget, order, link, now);
      s'.recv == t.recv && s'.budget == t.budget
      && (forall sig :: sig in s'.toSend <==> sig in s.toSend || sig in t.signals)
      && (forall sig :: sig in t.signals ==> Enabled(s', ToSender(sig)))
  {
    hide RecvTick;
  }

  // ---------------------------------------------------------------- credits

  /** The greatest credit the sender has been given. */
  function BestCredit(acts: seq<Act>): nat {
    if acts == [] then 0
    else
      var best, last := BestCredit(acts[..|acts| - 1]), acts[|acts| - 1];
      if last.ToSender? && last.signal.Credit? then Max(best, last.signal.delivered) else best
  }

  lemma CreditStep(q: RaptorQ, s: Sys, a: Act)
    requires Runnable(s) && Enabled(s, a)
    ensures Next(q, s, a).credited == if a.ToSender? && a.signal.Credit? then Max(s.credited, a.signal.delivered) else s.credited
  {
    hide Perform; hide TopUpPass; hide RecvSymbol; hide RecvReliable; hide RecvTick;
  }

  /** Over every run the sender has credited exactly the greatest credit it was given, whatever the order and
      however often each came; so until something is abandoned its slot counts exactly the blocks beyond it. */
  lemma {:induction false} CreditsAlong(q: RaptorQ, symbolSize: nat, k: nat, states: seq<Sys>, acts: seq<Act>, n: nat)
    requires TunnelRun(q, symbolSize, k, states, acts) && n <= |acts|
    ensures states[n].credited == BestCredit(acts[..n])
  {
    if n > 0 {
      hide Next; hide Runnable; hide Enabled;
      CreditsAlong(q, symbolSize, k, states, acts, n - 1);
      assert StepAt(q, states, acts, n - 1);
      CreditStep(q, states[n - 1], acts[n - 1]);
      assert acts[..n] == acts[..n - 1] + [acts[n - 1]];
    }
  }

  /** The credit a receiver sends is what it has delivered, and once given it leaves the slot with exactly the
      undelivered blocks, unless some had been abandoned. */
  lemma CreditRoundTrip(q: RaptorQ, s: Sys)
    requires Runnable(s) && FlowOk(|s.h.produced|, s.recv.nextDeliver, s.slot, s.credited, s.abandoned)
    ensures Runnable(Next(q, s, SendCredit)) && Enabled(Next(q, s, SendCredit), ToSender(Credit(s.recv.nextDeliver)))
    ensures var s' := Next(q, Next(q, s, SendCredit), ToSender(Credit(s.recv.nextDeliver)));
      s'.credited == s.recv.nextDeliver && (s.abandoned == 0 ==> s'.slot == |s.h.produced| - s.recv.nextDeliver)
      && s'.slot <= |s.h.produced| - s.recv.nextDeliver
  {
    hide Next; hide Enabled; hide Runnable;
    CreditSteps(q, s);
  }

  lemma CreditSteps(q: RaptorQ, s: Sys)
    requires Runnable(s)
    ensures Enabled(s, SendCredit) && Runnable(Next(q, s, SendCredit))
    ensures var s1, a := Next(q, s, SendCredit), ToSender(Credit(s.recv.nextDeliver));
      Enabled(s1, a) && Next(q, s1, a).credited == Max(s.credited, s.recv.nextDeliver)
      && Next(q, s1, a).slot == Monus(s.slot, Monus(s.recv.nextDeliver, s.credited))
  {
    hide BlockLen; hide Perform; hide TopUpPass; hide RecvTick; hide RecvSymbol; hide RecvReliable; hide Runnable;
    SameRunnableHere(s, Next(q, s, SendCredit));
    assert Credit(s.recv.nextDeliver) in Next(q, s, SendCredit).toSend;
  }

  lemma SameRunnableHere(s: Sys, s': Sys)
    requires s'.h == s.h && Runnable(s)
    ensures Runnable(s')
  {}

  // ---------------------------------------------------------------- the end of the stream

  lemma EofStep(q: RaptorQ, s: Sys, a: Act)
    requires Runnable(s) && Enabled(s, a)
    requires s.eof ==> BlockCount(s.h.snd.nextBlock) in s.toRecv
    ensures var s' := Next(q, s, a); s'.eof ==> BlockCount(s'.h.snd.nextBlock) in s'.toRecv
    ensures Next(q, s, a).eof <==> s.eof || a.Eof?
  {
    hide RecvSymbol; hide RecvReliable; hide RecvTick; hide BlockLen; hide Evict; hide EncoderFor;
    match a
    case ProactiveTick(order, now, rtt, link) =>
      var t := TopUpPass(s.h.snd, s.budget, order, now, rtt, link);
      SpurtOnlyCounts(s.h.snd, s.budget, order, now, rtt, link);
      hide TopUpPass;
      ServeGeometry(q, t.snd, t.out);
    case _ =>
  }

  /** Once the sender has reached the end of its data, the announcement of the exact number of blocks is on its
      way, for good. */
  lemma {:induction false} EofAnnounced(q: RaptorQ, symbolSize: nat, k: nat, states: seq<Sys>, acts: seq<Act>, n: nat)
    requires TunnelRun(q, symbolSize, k, states, acts) && n <= |acts|
    ensures states[n].eof ==> BlockCount(states[n].h.snd.nextBlock) in states[n].toRecv
    ensures states[n].eof <==> exists i: nat :: i < n && acts[i].Eof?
  {
    if n > 0 {
      hide Next; hide Runnable; hide Enabled;
      EofAnnounced(q, symbolSize, k, states, acts, n - 1);
      assert StepAt(q, states, acts, n - 1);
      EofStep(q, states[n - 1], acts[n - 1]);
      assert states[n].eof <==> states[n - 1].eof || acts[n - 1].Eof?;
    }
  }

  predicate Counted(a: Act) { a.ToReceiver? && a.signal.BlockCount? }

  lemma TotalStep(q: RaptorQ, s: Sys, a: Act)
    requires Runnable(s) && Enabled(s, a)
    ensures s.recv.total.Some? || Counted(a) <==> Next(q, s, a).recv.total.Some?
  {
    hide Perform; hide TopUpPass; hide SymbolStep; hide ManagerFor; hide Flush; hide TickAll; hide LostScan;
    match a
    case Arrive(i, now) =>
      var d, r := s.h.log[i], s.recv;
      var r1 := r.(highestSeen := Max(r.highestSeen, d.block));
      FlushKeeps(Routed(r1, d.block, SymbolStep(q, ManagerFor(r1, d.block, d.k % 0x1_0000), s.budget, now, Symbol(d.esi % ESI_LIMIT, d.data))));
    case ToReceiver(sig) => if sig.ReliableData? { FlushKeeps(Completed(s.recv, sig.block, sig.data)); }
    case ControlTick(order, link, now) => TickKeepsDelivery(s.recv, s.budget, order, link, now);
    case _ =>
  }

  lemma {:induction false} TotalAlong(q: RaptorQ, symbolSize: nat, k: nat, states: seq<Sys>, acts: seq<Act>, n: nat)
    requires TunnelRun(q, symbolSize, k, states, acts) && n <= |acts|
    ensures states[n].recv.total.Some? <==> exists i: nat :: i < n && Counted(acts[i])
  {
    if n > 0 {
      hide Next; hide Runnable; hide Enabled; hide Counted;
      TotalAlong(q, symbolSize, k, states, acts, n - 1);
      assert StepAt(q, states, acts, n - 1);
      TotalStep(q, states[n - 1], acts[n - 1]);
    }
  }

  /** The exit test is reached: it holds exactly when the announcement has arrived and every block of the
      stream has been delivered, so from any point of a run at which the count has arrived and all blocks are
      complete. */
  lemma ExitExactlyWhen(q: RaptorQ, symbolSize: nat, k: nat, states: seq<Sys>, acts: seq<Act>, n: nat)
    requires Sound(q) && GoodGeometry(symbolSize, k) && TunnelRun(q, symbolSize, k, states, acts)
    requires n <= |acts| && IndicesFit(states[|acts|].h.log)
    ensures var r, produced := states[n].recv, states[n].h.produced;
      r.total.Some? && r.nextDeliver >= r.total.value
      <==> (exists i: nat :: i < n && Counted(acts[i])) && forall x: nat :: x < |produced| ==> IsComplete(r, x)
  {
    TotalAlong(q, symbolSize, k, states, acts, n);
    TunnelInv(q, symbolSize, k, states, acts, n);
    hide TunnelRun; hide Sound; hide IndicesFit; hide Counted; hide GoodGeometry;
    ExitAt(q, states[n]);
  }

  lemma ExitAt(q: RaptorQ, s: Sys)
    requires Inv(q, s)
    ensures s.recv.total.Some? ==> s.recv.total.value == |s.h.produced|
    ensures s.recv.nextDeliver >= |s.h.produced| <==> forall x: nat :: x < |s.h.produced| ==> IsComplete(s.recv, x)
  {
    hide HistInv; hide Truthful; hide Sensible; hide RetiredComplete; hide AcksOk; hide Concat; hide ManagersOk;
    if forall x: nat :: x < |s.h.produced| ==> IsComplete(s.recv, x) {
      assert s.recv.nextDeliver < |s.h.produced| ==> IsComplete(s.recv, s.recv.nextDeliver);
    }
  }

  // ---------------------------------------------------------------- the highest block seen

  /** The block of the datagram a step brings, if it brings one that is not delivered yet. */
  function NewsOf(s: Sys, a: Act): Option<nat> {
    if a.Arrive? && a.i < |s.h.log| && s.h.log[a.i].block >= s.recv.nextDeliver then Some(s.h.log[a.i].block) else None
  }

  lemma SeenStep(q: RaptorQ, s: Sys, a: Act)
    requires Runnable(s) && Enabled(s, a)
    ensures Next(q, s, a).recv.highestSeen
      == if NewsOf(s, a).Some? then Max(s.recv.highestSeen, NewsOf(s, a).value) else s.recv.highestSeen
  {
    hide Perform; hide TopUpPass; hide SymbolStep; hide ManagerFor; hide Flush; hide TickAll; hide LostScan;
    match a
    case Arrive(i, now) =>
      var d, r := s.h.log[i], s.recv;
      var r1 := r.(highestSeen := Max(r.highestSeen, d.block));
      FlushKeeps(Routed(r1, d.block, SymbolStep(q, ManagerFor(r1, d.block, d.k % 0x1_0000), s.budget, now, Symbol(d.esi % ESI_LIMIT, d.data))));
    case ToReceiver(sig) => if sig.ReliableData? { FlushKeeps(Completed(s.recv, sig.block, sig.data)); }
    case ControlTick(order, link, now) => TickKeepsDelivery(s.recv, s.budget, order, link, now);
    case _ =>
  }

  ghost predicate NewsAt(states: seq<Sys>, acts: seq<Act>, i: nat, x: nat)
    requires |states| == |acts| + 1 && i < |acts|
  {
    NewsOf(states[i], acts[i]) == Some(x)
  }

  /** Over every run the highest block seen, by which a tick tells loss from reordering, is the greatest block
      of which a symbol came before the block was delivered, or 0 if there was none. */
  lemma {:induction false} SeenAlong(q: RaptorQ, symbolSize: nat, k: nat, states: seq<Sys>, acts: seq<Act>, n: nat)
    requires TunnelRun(q, symbolSize, k, states, acts) && n <= |acts|
    ensures var top := states[n].recv.highestSeen;
      && (forall i: nat, x: nat :: i < n && NewsAt(states, acts, i, x) ==> x <= top)
      && (top == 0 || exists i: nat :: i < n && NewsAt(states, acts, i, top))
  {
    if n > 0 {
      hide Next; hide Runnable; hide Enabled; hide NewsOf;
      SeenAlong(q, symbolSize, k, states, acts, n - 1);
      assert StepAt(q, states, acts, n - 1);
      SeenStep(q, states[n - 1], acts[n - 1]);
      var top := states[n].recv.highestSeen;
      if top != states[n - 1].recv.highestSeen {
        assert NewsAt(states, acts, n - 1, top);
      }
    }
  }
}
