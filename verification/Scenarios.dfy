/** Runs of a tunnel from its start, step by step, that reach what the other modules prove about: the
    exit test passed with a block missing, a manager of a delivered block that has asked for repair, and a
    block that no tick will ever ask for. No step of them repeats or reorders a signal, and no datagram
    arrives twice. */
module Scenarios {
  import opened Base
  import opened Geometry
  import opened Codec
  import opened Link
  import opened Budget
  import opened Signals
  import opened Decoder
  import opened Sender
  import opened SenderHistory
  import opened Receiver
  import opened ReceiverSafety
  import opened Tunnel
  import opened TunnelSafety
  import opened TunnelRuns
  import opened Progress
  import opened Convergence
  import opened LateSymbols
  import opened Acknowledgements

  /** Symbols `from .. from + n` of a block. */
  function Minted(q: RaptorQ, e: Encoder, from: nat, n: nat): (list: seq<Symbol>)
    ensures |list| == n && forall i :: 0 <= i < n ==> list[i] == Symbol(from + i, q.encode(e.block, from + i))
  {
    seq(n, (i: nat) => Symbol(from + i, q.encode(e.block, from + i)))
  }

  /** Datagrams `i .. i + n` of the log arrive in order. */
  function Arrivals(i: nat, n: nat, now: nat): seq<Act> {
    seq(n, (j: nat) => Arrive(i + j, now))
  }

  /** From `base` on the log holds `n` symbols of a block, starting with index `from`. */
  ghost predicate LogHolds(q: RaptorQ, log: seq<Dgram>, base: nat, block: nat, e: Encoder, from: nat, n: nat) {
    base + n <= |log| && from + n <= ESI_LIMIT && log[base..base + n] == Symbols(q, e, block, from, n)
  }

  lemma LogPart(q: RaptorQ, log: seq<Dgram>, base: nat, block: nat, e: Encoder, from: nat, n: nat, i: nat, m: nat)
    requires LogHolds(q, log, base, block, e, from, n) && i + m <= n
    ensures LogHolds(q, log, base + i, block, e, from + i, m)
    ensures forall j {:trigger log[j]} :: base <= j < base + n ==>
      log[j] == Dgram(block, e.k, from + j - base, q.encode(e.block, from + j - base))
  {
    var all := Symbols(q, e, block, from, n);
    forall j | base <= j < base + n
      ensures log[j] == Dgram(block, e.k, from + j - base, q.encode(e.block, from + j - base))
    {
      assert log[j] == log[base..base + n][j - base] == all[j - base];
    }
    assert log[base + i..base + i + m] == Symbols(q, e, block, from + i, m);
  }

  lemma OneArrival(q: RaptorQ, s: Sys, i: nat, now: nat) returns (s': Sys)
    requires Runnable(s) && i < |s.h.log| && s.h.log[i].esi < ESI_LIMIT
    ensures var d := s.h.log[i];
      var x := RecvSymbol(q, s.recv, s.budget, d.block, d.k % 0x1_0000, Symbol(d.esi, d.data), now);
      s' == s.(recv := x.recv, budget := x.budget, output := s.output + x.out)
    ensures Leads(q, s, [Arrive(i, now)], s')
  {
    hide RecvSymbol; hide BlockLen; hide Perform; hide TopUpPass; hide Leads;
    s' := Next(q, s, Arrive(i, now));
    LeadsOne(q, s, Arrive(i, now));
  }

  /** Their arrival feeds them to the receiver one after another, and changes nothing else. */
  lemma {:induction false} ArrivalsFeed(q: RaptorQ, s: Sys, base: nat, block: nat, e: Encoder, from: nat, n: nat, now: nat)
      returns (s': Sys)
    requires Runnable(s) && LogHolds(q, s.h.log, base, block, e, from, n)
    ensures var x := Fed(q, s.recv, s.budget, block, e.k % 0x1_0000, Minted(q, e, from, n), now);
      s' == s.(recv := x.recv, budget := x.budget, output := s.output + x.out)
    ensures Leads(q, s, Arrivals(base, n, now), s')
  {
    hide *;
    if n == 0 {
      s' := s;
      NoArrivals(q, s, base, block, e, from, now);
    } else {
      LogPart(q, s.h.log, base, block, e, from, n, 0, n - 1);
      LogInside(q, s.h.log, base, block, e, from, n);
      var s1 := ArrivalsFeed(q, s, base, block, e, from, n - 1, now);
      FedSnoc(q, s.recv, s.budget, block, e.k % 0x1_0000, Minted(q, e, from, n - 1), Symbol(from + n - 1, q.encode(e.block, from + n - 1)), now);
      OneMoreEach(q, e, base, from, n, now);
      SameRunnable(s, s1);
      s' := OneArrival(q, s1, base + n - 1, now);
      LeadsOn(q, s, Arrivals(base, n - 1, now), s1, [Arrive(base + n - 1, now)], s');
      var f := Fed(q, s.recv, s.budget, block, e.k % 0x1_0000, Minted(q, e, from, n - 1), now);
      var x := Fed(q, s.recv, s.budget, block, e.k % 0x1_0000, Minted(q, e, from, n), now);
      assert s'.output == s.output + x.out;
    }
  }

  lemma NoArrivals(q: RaptorQ, s: Sys, base: nat, block: nat, e: Encoder, from: nat, now: nat)
    ensures Fed(q, s.recv, s.budget, block, e.k % 0x1_0000, Minted(q, e, from, 0), now) == SymbolResult(s.recv, s.budget, [])
    ensures Leads(q, s, Arrivals(base, 0, now), s) && s.output + [] == s.output
  {
    hide Leads; hide RecvSymbol;
    LeadsNowhere(q, s);
    assert Arrivals(base, 0, now) == [];
  }

  lemma OneMoreEach(q: RaptorQ, e: Encoder, base: nat, from: nat, n: nat, now: nat)
    requires n > 0
    ensures Minted(q, e, from, n) == Minted(q, e, from, n - 1) + [Symbol(from + n - 1, q.encode(e.block, from + n - 1))]
    ensures Arrivals(base, n, now) == Arrivals(base, n - 1, now) + [Arrive(base + n - 1, now)]
  {}

  lemma SameRunnable(s: Sys, s': Sys)
    requires s'.h == s.h && Runnable(s)
    ensures Runnable(s')
  {}

  lemma LogInside(q: RaptorQ, log: seq<Dgram>, base: nat, block: nat, e: Encoder, from: nat, n: nat)
    requires LogHolds(q, log, base, block, e, from, n) && n > 0
    ensures base + n <= |log| && from + n <= ESI_LIMIT
  {}

  lemma FedSnoc(q: RaptorQ, r: Recv, b: Ledger, block: nat, actualK: nat, list: seq<Symbol>, s: Symbol, now: nat)
    ensures var f := Fed(q, r, b, block, actualK, list, now);
      var x := RecvSymbol(q, f.recv, f.budget, block, actualK, s, now);
      Fed(q, r, b, block, actualK, list + [s], now) == SymbolResult(x.recv, x.budget, f.out + x.out)
  {
    assert (list + [s])[..|list|] == list;
    hide RecvSymbol;
  }

  lemma LeadsInv(q: RaptorQ, s: Sys, acts: seq<Act>, s': Sys)
    requires Sound(q) && Inv(q, s) && Leads(q, s, acts, s') && IndicesFit(s'.h.log)
    ensures Inv(q, s')
  {
    hide Inv; hide Sound; hide StepAt; hide IndicesFit;
    var states :| Run(q, states, acts) && states[0] == s && states[|acts|] == s';
    RunInv(q, states, acts, |acts|);
  }

  lemma Positive(symbolSize: nat, k: nat)
    requires GoodGeometry(symbolSize, k)
    ensures symbolSize > 0 && k > 0
  {}

  // ---------------------------------------------------------------- sending

  /** One block is sent by a tunnel that has been told nothing. */
  lemma SendOne(q: RaptorQ, s: Sys, p: bytes, repair: nat, now: nat) returns (s': Sys)
    requires Sound(q) && Inv(q, s) && !s.eof && PayloadOk(s.h.snd.symbolSize, s.h.snd.k, p) && IndicesFit(s.h.log)
    requires repair <= U16_MAX
    ensures Leads(q, s, [Send(p, repair, now)], s') && Inv(q, s') && IndicesFit(s'.h.log)
    ensures s' == s.(h := s'.h, slot := s'.slot) && s'.h.produced == s.h.produced + [p]
    ensures s'.h.snd.symbolSize == s.h.snd.symbolSize > 0 && s'.h.snd.k == s.h.snd.k && s'.h.snd.acked == s.h.snd.acked
    ensures var e := EncoderFor(s.h.snd.symbolSize, s.h.snd.k, p);
      s'.h.log == s.h.log + Symbols(q, e, |s.h.produced|, 0, e.k + repair) && 1 <= e.k <= U16_MAX
  {
    hide Inv; hide Sound; hide Perform; hide PayloadOk; hide EncoderFor; hide IndicesFit; hide Leads; hide BlockLen; hide Evict;
    hide Symbols; hide RetainBlocks;
    var a := Send(p, repair, now);
    InvGeometry(q, s);
    ProducedCount(q, s);
    EncoderFits(s.h.snd.symbolSize, s.h.snd.k, p);
    NextKeeps(q, s, a);
    s' := Next(q, s, a);
    LeadsOne(q, s, a);
    EncodePerformed(q, s.h, p, repair, now);
    EvictAcked(Inserted(s.h.snd, p, repair, now));
    MoreFit(q, s.h.log, EncoderFor(s.h.snd.symbolSize, s.h.snd.k, p), |s.h.produced|, repair);
  }

  lemma InvGeometry(q: RaptorQ, s: Sys)
    requires Inv(q, s)
    ensures s.h.snd.symbolSize > 0 && s.h.snd.k <= U16_MAX && GoodGeometry(s.h.snd.symbolSize, s.h.snd.k)
    ensures Runnable(s) && BlockLen(s.h.snd.symbolSize, s.h.snd.k) >= LEN_PREFIX
  {
    hide HistInv; hide ReceiverSide; hide Truthful; hide Sensible; hide RetiredComplete; hide BlockLen;
  }

  lemma EvictAcked(t: Snd)
    requires BlockLen(t.symbolSize, t.k) >= LEN_PREFIX
    ensures Evict(t).acked == t.acked && Evict(t).symbolSize == t.symbolSize && Evict(t).k == t.k
  {
    hide RetainBlocks; hide BlockLen; hide Range;
  }

  lemma MoreFit(q: RaptorQ, log: seq<Dgram>, e: Encoder, block: nat, repair: nat)
    requires IndicesFit(log) && e.k <= U16_MAX && repair <= U16_MAX
    ensures IndicesFit(log + Symbols(q, e, block, 0, e.k + repair))
  {}

  /** Two blocks are out: the first, of `e0`, without repair, the second, of `e1`, with `extra` symbols of it. */
  ghost predicate TwoOut(q: RaptorQ, symbolSize: nat, k: nat, s: Sys, p0: bytes, p1: bytes, e0: Encoder, e1: Encoder, extra: nat) {
    && s == Init(symbolSize, k).(h := s.h, slot := s.slot) && s.h.produced == [p0, p1]
    && s.h.snd.symbolSize == symbolSize > 0 && s.h.snd.k == k && s.h.snd.acked == 0 && Runnable(s)
    && (RetainBlocks(symbolSize, k) >= 2 ==> 0 in s.h.snd.payloads && s.h.snd.payloads[0] == p0)
    && IndicesFit(s.h.log) && LogHolds(q, s.h.log, e0.k, 1, e1, 0, e1.k + extra)
  }

  lemma SendTwo(q: RaptorQ, symbolSize: nat, k: nat, p0: bytes, p1: bytes, extra: nat, now: nat) returns (s: Sys)
    requires Sound(q) && GoodGeometry(symbolSize, k) && PayloadOk(symbolSize, k, p0) && PayloadOk(symbolSize, k, p1)
    requires extra <= U16_MAX
    ensures Leads(q, Init(symbolSize, k), [Send(p0, 0, now), Send(p1, extra, now)], s)
    ensures TwoOut(q, symbolSize, k, s, p0, p1, EncoderFor(symbolSize, k, p0), EncoderFor(symbolSize, k, p1), extra)
  {
    hide Inv; hide Sound; hide PayloadOk; hide EncoderFor; hide Leads; hide BlockLen; hide RetainBlocks;
    InitHolds(q, symbolSize, k);
    var s0 := Init(symbolSize, k);
    assert IndicesFit(s0.h.log);
    hide IndicesFit;
    var s1 := SendOne(q, s0, p0, 0, now);
    s := SendOne(q, s1, p1, extra, now);
    LeadsOn(q, s0, [Send(p0, 0, now)], s1, [Send(p1, extra, now)], s);
    assert [Send(p0, 0, now)] + [Send(p1, extra, now)] == [Send(p0, 0, now), Send(p1, extra, now)];
    RetainedWhen(q, s, 0);
  }

  // ---------------------------------------------------------------- the exit test passes too early

  /** Queued acknowledgements of block 1 are sent and given to the sender. */
  lemma AckRound(q: RaptorQ, s: Sys) returns (s': Sys)
    requires Runnable(s) && s.recv.pendingAcks == [1]
    ensures Leads(q, s, [SendAcks, ToSender(BlockAck(1))], s')
    ensures s' == s.(recv := s.recv.(pendingAcks := []), h := s'.h, toSend := s'.toSend) && Runnable(s')
    ensures s'.h.snd == Retire(s.h.snd, 1) && s'.h.produced == s.h.produced && s'.h.log == s.h.log
  {
    hide Leads; hide BlockLen;
    var s1 := Next(q, s, SendAcks);
    assert 1 in s.recv.pendingAcks && BlockAck(1) in s1.toSend;
    s' := Next(q, s1, ToSender(BlockAck(1)));
    TwoSteps(q, s, SendAcks, ToSender(BlockAck(1)), s');
  }

  /** Block 0 is lost; of block 1, sent with as much repair as it has symbols, all arrive. The first K
      complete it and the next K complete it again, and each time its acknowledgement is sent and given to
      the sender, which has then reached the end of its data. */
  function EarlyExit(p0: bytes, p1: bytes, k0: nat, k1: nat, now: nat): seq<Act> {
    ([Send(p0, 0, now), Send(p1, k1, now)] + (Arrivals(k0, k1, now) + [SendAcks, ToSender(BlockAck(1))]))
    + ((Arrivals(k0 + k1, k1, now) + [SendAcks, ToSender(BlockAck(1))]) + [Eof])
  }

  /** One round: K symbols of block 1 arrive and it is acknowledged. */
  lemma Round(q: RaptorQ, s: Sys, symbolSize: nat, k: nat, p1: bytes, e: Encoder, base: nat, from: nat, now: nat) returns (s': Sys)
    requires Sound(q) && Fountain(q, symbolSize) && Strict(q, symbolSize) && GoodGeometry(symbolSize, k)
    requires PayloadOk(symbolSize, k, p1) && e == EncoderFor(symbolSize, k, p1)
    requires FeedingOne(q, s, symbolSize, k, p1) && LogHolds(q, s.h.log, base, 1, e, from, e.k)
    ensures Leads(q, s, Arrivals(base, e.k, now) + [SendAcks, ToSender(BlockAck(1))], s')
    ensures s'.h.snd == Retire(s.h.snd, 1) && s'.h.produced == s.h.produced && s'.h.log == s.h.log
    ensures FeedingOne(q, s', symbolSize, k, p1)
  {
    hide StillFeeding; hide Sound; hide Fountain; hide Strict; hide PayloadOk; hide Leads; hide LogHolds;
    hide EncoderFor; hide Fed; hide RecvOk; hide Held; hide BlockLen; hide Retire;
    assert e.k == NeededOf(symbolSize, k, p1);
    hide NeededOf; hide GoodGeometry;
    var list := Minted(q, e, from, e.k);
    MintedDistinct(q, symbolSize, k, p1, from, e.k);
    FeedAll(q, s.h.produced, s.recv, s.budget, list, now);
    var s1 := ArrivalsFeed(q, s, base, 1, e, from, e.k, now);
    FeedingAgain(q, s.h.produced, s1.recv, s1.budget);
    s' := AckRound(q, s1);
    LeadsOn(q, s, Arrivals(base, e.k, now), s1, [SendAcks, ToSender(BlockAck(1))], s');
  }

  /** The receiver may be fed block 1, from its first symbol or again. */
  ghost predicate FeedingOne(q: RaptorQ, s: Sys, symbolSize: nat, k: nat, p1: bytes) {
    && Runnable(s) && |s.h.produced| > 1 && s.h.produced[1] == p1 && s.recv.symbolSize == symbolSize && s.recv.k == k
    && StillFeeding(q, s.h.produced, s.recv, s.budget, [])
  }

  lemma MintedDistinct(q: RaptorQ, symbolSize: nat, k: nat, payload: bytes, from: nat, n: nat)
    requires symbolSize > 0
    ensures DistinctGenuine(q, symbolSize, k, payload, Minted(q, EncoderFor(symbolSize, k, payload), from, n))
  {
    hide EncoderFor;
  }

  lemma ReadyForRounds(q: RaptorQ, symbolSize: nat, k: nat, s: Sys, p0: bytes, p1: bytes, e0: Encoder, e1: Encoder)
    requires k > 0 && TwoOut(q, symbolSize, k, s, p0, p1, e0, e1, e1.k)
    ensures FeedingOne(q, s, symbolSize, k, p1)
    ensures LogHolds(q, s.h.log, e0.k, 1, e1, 0, e1.k) && LogHolds(q, s.h.log, e0.k + e1.k, 1, e1, e1.k, e1.k)
  {
    hide StillFeeding; hide LogHolds; hide BlockLen; hide IndicesFit; hide RetainBlocks;
    FreshFeeding(q, s.h.produced, s.recv, s.budget);
    LogPart(q, s.h.log, e0.k, 1, e1, 0, e1.k + e1.k, 0, e1.k);
    LogPart(q, s.h.log, e0.k, 1, e1, 0, e1.k + e1.k, e1.k, e1.k);
  }

  /** Both rounds, from the two sends on. */
  lemma TwoRounds(q: RaptorQ, symbolSize: nat, k: nat, s: Sys, p0: bytes, p1: bytes, e0: Encoder, e1: Encoder, now: nat)
      returns (s3: Sys, s4: Sys)
    requires Sound(q) && Fountain(q, symbolSize) && Strict(q, symbolSize) && GoodGeometry(symbolSize, k)
    requires PayloadOk(symbolSize, k, p1) && e1 == EncoderFor(symbolSize, k, p1)
    requires TwoOut(q, symbolSize, k, s, p0, p1, e0, e1, e1.k)
    ensures Leads(q, s, Arrivals(e0.k, e1.k, now) + [SendAcks, ToSender(BlockAck(1))], s3)
    ensures Leads(q, s3, Arrivals(e0.k + e1.k, e1.k, now) + [SendAcks, ToSender(BlockAck(1))], s4)
    ensures s4.h.snd == Retire(Retire(s.h.snd, 1), 1) && s4.h.log == s.h.log && s4.h.produced == s.h.produced
    ensures FeedingOne(q, s4, symbolSize, k, p1)
  {
    hide *;
    Positive(symbolSize, k);
    ReadyForRounds(q, symbolSize, k, s, p0, p1, e0, e1);
    s3 := Round(q, s, symbolSize, k, p1, e1, e0.k, 0, now);
    s4 := Round(q, s3, symbolSize, k, p1, e1, e0.k + e1.k, e1.k, now);
  }

  lemma JoinRounds(q: RaptorQ, s: Sys, p0: bytes, p1: bytes, k0: nat, k1: nat, now: nat, s2: Sys, s3: Sys, s4: Sys, s5: Sys)
    requires Leads(q, s, [Send(p0, 0, now), Send(p1, k1, now)], s2)
    requires Leads(q, s2, Arrivals(k0, k1, now) + [SendAcks, ToSender(BlockAck(1))], s3)
    requires Leads(q, s3, Arrivals(k0 + k1, k1, now) + [SendAcks, ToSender(BlockAck(1))], s4) && Leads(q, s4, [Eof], s5)
    ensures Leads(q, s, EarlyExit(p0, p1, k0, k1, now), s5)
  {
    hide Leads; hide Arrivals;
    var send, round := [Send(p0, 0, now), Send(p1, k1, now)], [SendAcks, ToSender(BlockAck(1))];
    LeadsOn(q, s, send, s2, Arrivals(k0, k1, now) + round, s3);
    LeadsOn(q, s3, Arrivals(k0 + k1, k1, now) + round, s4, [Eof], s5);
    LeadsOn(q, s, send + (Arrivals(k0, k1, now) + round), s3, (Arrivals(k0 + k1, k1, now) + round) + [Eof], s5);
  }

  /** So for every geometry and every two payloads there is a run of the tunnel in which the sender's exit
      test holds at the end of its data while block 0 has never arrived; it was given two acknowledgements,
      both of block 1, and still holds block 0 wherever its retention window reaches back two blocks. */
  lemma ExitTooEarlyHappens(q: RaptorQ, symbolSize: nat, k: nat, p0: bytes, p1: bytes, now: nat) returns (s: Sys)
    requires Sound(q) && Fountain(q, symbolSize) && Strict(q, symbolSize) && GoodGeometry(symbolSize, k)
    requires PayloadOk(symbolSize, k, p0) && PayloadOk(symbolSize, k, p1)
    ensures Leads(q, Init(symbolSize, k), EarlyExit(p0, p1, NeededOf(symbolSize, k, p0), NeededOf(symbolSize, k, p1), now), s)
    ensures s.eof && s.h.snd.acked >= s.h.snd.nextBlock == 2 && !IsComplete(s.recv, 0)
    ensures 0 in s.h.snd.payloads <==> RetainBlocks(symbolSize, k) >= 2
  {
    hide *;
    Positive(symbolSize, k);
    var e0, e1 := EncoderFor(symbolSize, k, p0), EncoderFor(symbolSize, k, p1);
    NeededIs(symbolSize, k, p0);
    NeededIs(symbolSize, k, p1);
    InitHolds(q, symbolSize, k);
    var s2 := SendTwo(q, symbolSize, k, p0, p1, e1.k, now);
    var s3, s4 := TwoRounds(q, symbolSize, k, s2, p0, p1, e0, e1, now);
    AfterRounds(q, symbolSize, k, s2, p0, p1, e0, e1, s4);
    s := Finish(q, s4);
    JoinRounds(q, Init(symbolSize, k), p0, p1, e0.k, e1.k, now, s2, s3, s4, s);
    LeadsInv(q, Init(symbolSize, k), EarlyExit(p0, p1, e0.k, e1.k, now), s);
    ProducedCount(q, s);
    RetainedWhen(q, s, 0);
  }

  lemma NeededIs(symbolSize: nat, k: nat, payload: bytes)
    requires GoodGeometry(symbolSize, k) && PayloadOk(symbolSize, k, payload)
    ensures NeededOf(symbolSize, k, payload) == EncoderFor(symbolSize, k, payload).k <= U16_MAX
  {
    EncoderFits(symbolSize, k, payload);
  }

  lemma AfterRounds(q: RaptorQ, symbolSize: nat, k: nat, s: Sys, p0: bytes, p1: bytes, e0: Encoder, e1: Encoder, s': Sys)
    requires TwoOut(q, symbolSize, k, s, p0, p1, e0, e1, e1.k) && FeedingOne(q, s', symbolSize, k, p1)
    requires s'.h.snd == Retire(Retire(s.h.snd, 1), 1) && s'.h.log == s.h.log && s'.h.produced == s.h.produced
    ensures IndicesFit(s'.h.log) && s'.h.snd.acked == 2 == |s'.h.produced| && Runnable(s') && !IsComplete(s'.recv, 0)
    ensures s'.h.snd.symbolSize == symbolSize && s'.h.snd.k == k
  {
    hide LogHolds; hide IndicesFit; hide RecvOk; hide Held; hide BlockLen; hide RetainBlocks;
  }

  lemma Finish(q: RaptorQ, s: Sys) returns (s': Sys)
    requires Runnable(s)
    ensures Leads(q, s, [Eof], s') && s'.eof && s'.h == s.h && s'.recv == s.recv
  {
    hide Leads;
    s' := Next(q, s, Eof);
    LeadsOne(q, s, Eof);
  }

  // ---------------------------------------------------------------- a delivered block asks for repair

  predicate NothingReserved(r: Recv) { forall b :: b in r.managers ==> r.managers[b].reserved == 0 }

  /** A symbol of block 1 moves nothing else. */
  lemma OneFedRest(q: RaptorQ, r: Recv, b: Ledger, actualK: nat, s: Symbol, now: nat)
    requires NothingReserved(r)
    ensures var x := RecvSymbol(q, r, b, 1, actualK, s, now);
      && NothingReserved(x.recv) && x.budget == b && x.recv.nextDeliver >= r.nextDeliver
      && x.recv.requested == r.requested && x.recv.total == r.total && x.recv.highWater == r.highWater
      && x.recv.highestSeen >= r.highestSeen && (r.nextDeliver <= 1 ==> x.recv.highestSeen >= 1)
  {
    if 1 >= r.nextDeliver {
      var r1 := r.(highestSeen := Max(r.highestSeen, 1));
      var step := SymbolStep(q, ManagerFor(r1, 1, actualK), b, now, s);
      assert step.mgr.reserved == 0 && step.budget == b;
      hide SymbolStep; hide ManagerFor; hide Flush;
      FlushKeeps(Routed(r1, 1, step));
    }
  }

  lemma {:induction false} FedRest(q: RaptorQ, r: Recv, b: Ledger, actualK: nat, list: seq<Symbol>, now: nat)
    requires NothingReserved(r)
    ensures var x := Fed(q, r, b, 1, actualK, list, now);
      && NothingReserved(x.recv) && x.budget == b && x.recv.nextDeliver >= r.nextDeliver
      && x.recv.requested == r.requested && x.recv.total == r.total && x.recv.highWater == r.highWater
      && (list != [] && x.recv.nextDeliver <= 1 ==> x.recv.highestSeen >= 1)
  {
    hide RecvSymbol; hide NothingReserved;
    if list != [] {
      var rest, last := list[..|list| - 1], list[|list| - 1];
      FedRest(q, r, b, actualK, rest, now);
      var f := Fed(q, r, b, 1, actualK, rest, now);
      OneFedRest(q, f.recv, f.budget, actualK, last, now);
    }
  }

  /** Block 1 is complete and block 0 has not been heard of. */
  ghost predicate OneDecoded(q: RaptorQ, symbolSize: nat, k: nat, s: Sys, p0: bytes, p1: bytes, e0: Encoder, e1: Encoder) {
    && TwoOut(q, symbolSize, k, s.(recv := NewRecv(symbolSize, k), output := []), p0, p1, e0, e1, 1)
    && 0 in s.h.snd.payloads && s.h.snd.payloads[0] == p0
    && s.recv.symbolSize == symbolSize && s.recv.k == k && s.recv.nextDeliver == 0
    && s.recv.ready.Keys == {1} && s.recv.managers == map[] && s.recv.requested == {} && Upper(s.recv) == 2
  }

  lemma DecodeOne(q: RaptorQ, symbolSize: nat, k: nat, s: Sys, p0: bytes, p1: bytes, e0: Encoder, e1: Encoder, now: nat)
      returns (s': Sys)
    requires Sound(q) && Fountain(q, symbolSize) && Strict(q, symbolSize) && GoodGeometry(symbolSize, k)
    requires PayloadOk(symbolSize, k, p1) && e1 == EncoderFor(symbolSize, k, p1) && e1.k >= 1
    requires TwoOut(q, symbolSize, k, s, p0, p1, e0, e1, 1) && RetainBlocks(symbolSize, k) >= 2
    ensures Leads(q, s, Arrivals(e0.k, e1.k, now), s') && OneDecoded(q, symbolSize, k, s', p0, p1, e0, e1)
  {
    hide *;
    Positive(symbolSize, k);
    TwoOutFeeds(q, symbolSize, k, s, p0, p1, e0, e1, 1);
    NeededIs(symbolSize, k, p1);
    MintedDistinct(q, symbolSize, k, p1, 0, e1.k);
    var list := Minted(q, e1, 0, e1.k);
    assert list != [];
    FeedAll(q, s.h.produced, s.recv, s.budget, list, now);
    FedRest(q, s.recv, s.budget, e1.k % 0x1_0000, list, now);
    s' := ArrivalsFeed(q, s, e0.k, 1, e1, 0, e1.k, now);
    DecodedShape(q, symbolSize, k, s, p0, p1, e0, e1, s');
  }

  lemma TwoOutFeeds(q: RaptorQ, symbolSize: nat, k: nat, s: Sys, p0: bytes, p1: bytes, e0: Encoder, e1: Encoder, extra: nat)
    requires k > 0 && TwoOut(q, symbolSize, k, s, p0, p1, e0, e1, extra)
    ensures Runnable(s) && s.h.produced == [p0, p1] && s.recv.symbolSize == symbolSize && s.recv.k == k
    ensures StillFeeding(q, s.h.produced, s.recv, s.budget, []) && NothingReserved(s.recv)
    ensures LogHolds(q, s.h.log, e0.k, 1, e1, 0, e1.k)
    ensures s.recv.requested == {} && s.recv.total == None && s.recv.highWater == 0
    ensures extra > 0 ==>
      e0.k + e1.k < |s.h.log| && e1.k < ESI_LIMIT
      && s.h.log[e0.k + e1.k] == Dgram(1, e1.k, e1.k, q.encode(e1.block, e1.k))
  {
    hide StillFeeding; hide LogHolds; hide BlockLen; hide IndicesFit; hide RetainBlocks;
    FreshFeeding(q, s.h.produced, s.recv, s.budget);
    LogPart(q, s.h.log, e0.k, 1, e1, 0, e1.k + extra, 0, e1.k);
    if extra > 0 {
      LogInside(q, s.h.log, e0.k, 1, e1, 0, e1.k + extra);
    }
  }

  lemma DecodedShape(q: RaptorQ, symbolSize: nat, k: nat, s: Sys, p0: bytes, p1: bytes, e0: Encoder, e1: Encoder, s': Sys)
    requires GoodGeometry(symbolSize, k) && RetainBlocks(symbolSize, k) >= 2
    requires TwoOut(q, symbolSize, k, s, p0, p1, e0, e1, 1) && s' == s.(recv := s'.recv, output := s'.output)
    requires JustComplete(q, s.h.produced, s'.recv, s'.budget) && s'.recv.symbolSize == symbolSize && s'.recv.k == k
    requires s'.recv.requested == {} && s'.recv.total == None && s'.recv.highWater == 0
    requires s'.recv.nextDeliver <= 1 ==> s'.recv.highestSeen >= 1
    ensures OneDecoded(q, symbolSize, k, s', p0, p1, e0, e1)
  {
    hide LogHolds; hide BlockLen; hide IndicesFit; hide RetainBlocks; hide Held; hide MgrOf;
    assert s'.(recv := NewRecv(symbolSize, k), output := []) == s;
  }

  lemma AskedForFirst(r: Recv, b: Ledger, link: LinkState, now: nat)
    requires r.managers == map[] && r.ready.Keys == {1} && r.requested == {} && r.nextDeliver == 0 && Upper(r) == 2
    ensures RecvTick(r, b, [], link, now) == Ticked(r.(requested := {0}), b, [ReliableRequest(0)])
  {
    var t := TickAll(r, b, [], link, now);
    assert 1 in r.ready && 0 !in r.ready.Keys;
    assert LostScan(t, 0, 0) == t;
    assert LostScan(t, 0, 1) == Ask(t, 0);
  }

  /** The tick asks for block 0, and its copy is on the way. */
  lemma AskFirst(q: RaptorQ, symbolSize: nat, k: nat, s: Sys, p0: bytes, p1: bytes, e0: Encoder, e1: Encoder,
                 link: LinkState, now: nat) returns (s': Sys)
    requires OneDecoded(q, symbolSize, k, s, p0, p1, e0, e1) && Runnable(s)
    ensures Leads(q, s, [ControlTick([], link, now), ToSender(ReliableRequest(0))], s')
    ensures s' == s.(recv := s.recv.(requested := {0}), toSend := {ReliableRequest(0)}, toRecv := {ReliableData(0, p0)})
  {
    hide Leads; hide IndicesFit; hide LogHolds; hide BlockLen; hide RetainBlocks; hide RecvTick; hide Upper; hide Perform; hide TopUpPass;
    AskedForFirst(s.recv, s.budget, link, now);
    var a, b := ControlTick([], link, now), ToSender(ReliableRequest(0));
    var s1 := Next(q, s, a);
    assert s1 == s.(recv := s.recv.(requested := {0}), toSend := {ReliableRequest(0)});
    s' := Next(q, s1, b);
    TwoSteps(q, s, a, b, s');
  }

  /** A symbol of block 1 and then the copy of block 0 arrive. */
  lemma LateSymbol(q: RaptorQ, s: Sys, p0: bytes, i: nat, now: nat) returns (s': Sys)
    requires Runnable(s) && i < |s.h.log| && s.h.log[i].block == 1 && s.h.log[i].esi < ESI_LIMIT
    requires ReliableData(0, p0) in s.toRecv && s.recv.nextDeliver == 0 && s.recv.ready.Keys == {1} && s.recv.managers == map[]
    requires var d := s.h.log[i];
      q.decode(BlockLen(s.recv.symbolSize, ClampK(d.k % 0x1_0000, s.recv.k)), [Symbol(d.esi, d.data)]) == None
    ensures Leads(q, s, [Arrive(i, now), ToReceiver(ReliableData(0, p0))], s')
    ensures s' == s.(recv := s'.recv, budget := s'.budget, output := s'.output) && Zombie(s'.recv, 1)
    ensures var d := s.h.log[i];
      s'.recv.managers == map[1 := OnceFed(ClampK(d.k % 0x1_0000, s.recv.k), s.recv.symbolSize, Symbol(d.esi, d.data), now)]
    ensures s'.budget == s.budget
  {
    hide Leads; hide RecvSymbol; hide RecvReliable; hide BlockLen; hide ClampK; hide Perform; hide TopUpPass;
    var d, sym := s.h.log[i], Symbol(s.h.log[i].esi, s.h.log[i].data);
    assert 1 in s.recv.ready.Keys && 0 !in s.recv.ready.Keys;
    ZombieArises(q, s.recv, s.budget, d.k % 0x1_0000, sym, now, p0);
    OneFedRest(q, s.recv, s.budget, d.k % 0x1_0000, sym, now);
    assert (s.recv.managers - {0}) == map[];
    var s1 := OneArrival(q, s, i, now);
    CopyDropsNothing(q, s.recv, s.budget, d.k % 0x1_0000, sym, now);
    var a := ToReceiver(ReliableData(0, p0));
    s' := Next(q, s1, a);
    LeadsOne(q, s1, a);
    LeadsOn(q, s, [Arrive(i, now)], s1, [a], s');
    assert [Arrive(i, now)] + [a] == [Arrive(i, now), a];
  }

  lemma CopyDropsNothing(q: RaptorQ, r: Recv, b: Ledger, actualK: nat, s: Symbol, now: nat)
    requires r.managers == map[]
    ensures DroppedBy(RecvSymbol(q, r, b, 1, actualK, s, now).recv, 0) == 0
  {
    OneFedRest(q, r, b, actualK, s, now);
    hide RecvSymbol;
  }

  /** A manager that has been fed one symbol. */
  function OnceFed(k: nat, symbolSize: nat, s: Symbol, now: nat): Mgr {
    NewMgr(k, symbolSize).(fed := [s], received := 1, firstSymbolAt := Some(now))
  }

  /** Long after, on a link with room for repair, the manager of the delivered block asks. */
  lemma ZombieNacks(q: RaptorQ, s: Sys, n: nat, size: nat, sym: Symbol, from: nat, ceiling: nat, link: LinkState, now: nat)
      returns (s': Sys)
    requires Runnable(s) && Zombie(s.recv, 1) && s.recv.managers == map[1 := OnceFed(n, size, sym, from)] && s.budget.inFlight == 0
    requires 1 < n <= ceiling && !link.IsCongested() && now > from + HardDeadline(link)
    ensures Leads(q, s, [RefreshCeiling(ceiling), ControlTick([1], link, now)], s')
    ensures Zombie(s'.recv, 1) && s'.recv.managers[1].state == NackSent(n - 1, now) && s'.recv.managers[1].reserved == n - 1
    ensures s'.budget == Ledger(n - 1, ceiling) && Nack(1, 1, n - 1) in s'.toSend && s'.h == s.h
  {
    hide Leads; hide RecvSymbol; hide RecvReliable; hide BlockLen; hide Perform; hide TopUpPass; hide RecvTick; hide HardDeadline;
    hide OnceFed;
    var a, c := RefreshCeiling(ceiling), ControlTick([1], link, now);
    var s1 := Next(q, s, a);
    assert 1 in s.recv.managers;
    s' := Next(q, s1, c);
    ZombieTick(s1.recv, s1.budget, n, size, sym, from, link, now);
    var t := RecvTick(s1.recv, s1.budget, [1], link, now);
    assert Nack(1, 1, n - 1) in t.signals;
    TwoSteps(q, s, a, c, s');
  }

  lemma ZombieTick(r: Recv, b: Ledger, n: nat, size: nat, sym: Symbol, from: nat, link: LinkState, now: nat)
    requires Zombie(r, 1) && r.managers == map[1 := OnceFed(n, size, sym, from)] && b.inFlight == 0
    requires 1 < n <= b.ceiling && !link.IsCongested() && now > from + HardDeadline(link)
    ensures var t := RecvTick(r, b, [1], link, now);
      && Zombie(t.recv, 1) && t.recv.managers[1].state == NackSent(n - 1, now) && t.recv.managers[1].reserved == n - 1
      && t.budget == Ledger(n - 1, b.ceiling) && Nack(1, 1, n - 1) in t.signals
  {
    var m := OnceFed(n, size, sym, from);
    var m' := m.(state := NackSent(n - 1, now), reserved := n - 1);
    var c := TickCtx(now, link, r.highestSeen > 1);
    assert TickStep(m, b, c) == Step(m', Ledger(n - 1, b.ceiling), SendNack(1, n - 1));
    hide TickStep;
    var t0 := TickAll(r, b, [], link, now);
    var t := TickOne(t0, 1, r.highestSeen, link, now);
    assert [1][..0] == [];
    assert TickAll(r, b, [1], link, now) == t;
    assert t.recv.managers == map[1 := m'] && t.signals == [Nack(1, 1, n - 1)];
    ScanKeepsDelivery(t, t.recv.nextDeliver, Upper(t.recv));
    ScanOnlyAdds(t, t.recv.nextDeliver, Upper(t.recv));
    hide TickAll; hide LostScan; hide Upper;
    var t' := LostScan(t, t.recv.nextDeliver, Upper(t.recv));
    assert t'.signals[0] == Nack(1, 1, n - 1);
  }

  lemma {:induction false} ScanOnlyAdds(t: Ticked, lo: nat, hi: nat)
    ensures t.signals <= LostScan(t, lo, hi).signals && LostScan(t, lo, hi).budget == t.budget
    decreases hi
  {
    if lo < hi {
      ScanOnlyAdds(t, lo, hi - 1);
    }
  }

  /** The symbols of block 0 are lost and those of block 1 decode it; a tick asks for block 0, and before its
      copy arrives so does the one repair symbol of block 1; then block 1 is delivered behind block 0. The
      next tick is a late one. The acknowledgement of block 1, which changes nothing here, is still on its way. */
  function ZombieRun(p0: bytes, p1: bytes, k0: nat, k1: nat, link: LinkState, ceiling: nat, now: nat, later: nat): seq<Act> {
    (([Send(p0, 0, now), Send(p1, 1, now)] + Arrivals(k0, k1, now))
     + [ControlTick([], link, now), ToSender(ReliableRequest(0))])
    + ([Arrive(k0 + k1, now), ToReceiver(ReliableData(0, p0))] + [RefreshCeiling(ceiling), ControlTick([1], link, later)])
  }

  lemma JoinZombie(q: RaptorQ, s: Sys, p0: bytes, p1: bytes, k0: nat, k1: nat, link: LinkState, ceiling: nat, now: nat,
                   later: nat, s2: Sys, s3: Sys, s5: Sys, s7: Sys, s9: Sys)
    requires Leads(q, s, [Send(p0, 0, now), Send(p1, 1, now)], s2) && Leads(q, s2, Arrivals(k0, k1, now), s3)
    requires Leads(q, s3, [ControlTick([], link, now), ToSender(ReliableRequest(0))], s5)
    requires Leads(q, s5, [Arrive(k0 + k1, now), ToReceiver(ReliableData(0, p0))], s7)
    requires Leads(q, s7, [RefreshCeiling(ceiling), ControlTick([1], link, later)], s9)
    ensures Leads(q, s, ZombieRun(p0, p1, k0, k1, link, ceiling, now, later), s9)
  {
    hide Leads; hide Arrivals;
    var send, ask := [Send(p0, 0, now), Send(p1, 1, now)], [ControlTick([], link, now), ToSender(ReliableRequest(0))];
    var copy, nack := [Arrive(k0 + k1, now), ToReceiver(ReliableData(0, p0))], [RefreshCeiling(ceiling), ControlTick([1], link, later)];
    LeadsOn(q, s, send, s2, Arrivals(k0, k1, now), s3);
    LeadsOn(q, s, send + Arrivals(k0, k1, now), s3, ask, s5);
    LeadsOn(q, s5, copy, s7, nack, s9);
    LeadsOn(q, s, (send + Arrivals(k0, k1, now)) + ask, s5, copy + nack, s9);
  }

  /** For every geometry that retains two blocks and every block 1 of two symbols or more, that run leads to
      a manager of a delivered block with a NACK out. All the repair in flight on the connection is reserved
      for it. */
  lemma ZombieNackHappens(q: RaptorQ, symbolSize: nat, k: nat, p0: bytes, p1: bytes, link: LinkState, ceiling: nat,
                          now: nat, later: nat) returns (s: Sys)
    requires Sound(q) && Fountain(q, symbolSize) && Strict(q, symbolSize) && GoodGeometry(symbolSize, k)
    requires PayloadOk(symbolSize, k, p0) && PayloadOk(symbolSize, k, p1) && RetainBlocks(symbolSize, k) >= 2
    requires 2 <= NeededOf(symbolSize, k, p1) <= ceiling && !link.IsCongested() && later > now + HardDeadline(link)
    ensures var k0, k1 := NeededOf(symbolSize, k, p0), NeededOf(symbolSize, k, p1);
      && Leads(q, Init(symbolSize, k), ZombieRun(p0, p1, k0, k1, link, ceiling, now, later), s)
      && Zombie(s.recv, 1) && s.recv.managers[1].state == NackSent(k1 - 1, later)
      && s.recv.managers[1].reserved == s.budget.inFlight == k1 - 1 && Nack(1, 1, k1 - 1) in s.toSend
  {
    hide *;
    Positive(symbolSize, k);
    var e0, e1 := EncoderFor(symbolSize, k, p0), EncoderFor(symbolSize, k, p1);
    NeededIs(symbolSize, k, p0);
    NeededIs(symbolSize, k, p1);
    var s2 := SendTwo(q, symbolSize, k, p0, p1, 1, now);
    TwoOutFeeds(q, symbolSize, k, s2, p0, p1, e0, e1, 1);
    var s3 := DecodeOne(q, symbolSize, k, s2, p0, p1, e0, e1, now);
    DecodedFacts(q, symbolSize, k, s3, p0, p1, e0, e1);
    var s5 := AskFirst(q, symbolSize, k, s3, p0, p1, e0, e1, link, now);
    SameRunnable(s3, s5);
    OneSymbolDeclines(q, symbolSize, k, p1, e1.k);
    var s7 := LateSymbol(q, s5, p0, e0.k + e1.k, now);
    SameRunnable(s5, s7);
    s := ZombieNacks(q, s7, e1.k, symbolSize, Symbol(e1.k, q.encode(e1.block, e1.k)), now, ceiling, link, later);
    JoinZombie(q, Init(symbolSize, k), p0, p1, e0.k, e1.k, link, ceiling, now, later, s2, s3, s5, s7, s);
  }

  lemma DecodedFacts(q: RaptorQ, symbolSize: nat, k: nat, s: Sys, p0: bytes, p1: bytes, e0: Encoder, e1: Encoder)
    requires k > 0 && OneDecoded(q, symbolSize, k, s, p0, p1, e0, e1)
    ensures Runnable(s) && s.recv.symbolSize == symbolSize && s.recv.k == k && s.recv.nextDeliver == 0 && s.budget == Ledger(0, 0)
    ensures s.recv.ready.Keys == {1} && s.recv.managers == map[]
    ensures e0.k + e1.k < |s.h.log| && e1.k < ESI_LIMIT
    ensures s.h.log[e0.k + e1.k] == Dgram(1, e1.k, e1.k, q.encode(e1.block, e1.k))
  {
    hide StillFeeding; hide LogHolds; hide BlockLen; hide IndicesFit; hide Upper; hide RetainBlocks;
    var s0 := s.(recv := NewRecv(symbolSize, k), output := []);
    TwoOutFeeds(q, symbolSize, k, s0, p0, p1, e0, e1, 1);
    assert s0.h == s.h && s0.budget == s.budget;
  }

  /** One symbol of a block that needs more is declined. */
  lemma OneSymbolDeclines(q: RaptorQ, symbolSize: nat, k: nat, payload: bytes, esi: nat)
    requires Strict(q, symbolSize) && GoodGeometry(symbolSize, k) && PayloadOk(symbolSize, k, payload)
    requires NeededOf(symbolSize, k, payload) >= 2
    ensures var e := EncoderFor(symbolSize, k, payload);
      ClampK(e.k % 0x1_0000, k) == e.k && q.decode(BlockLen(symbolSize, e.k), [Symbol(esi, q.encode(e.block, esi))]) == None
  {
    EncoderFits(symbolSize, k, payload);
    var e := EncoderFor(symbolSize, k, payload);
    hide EncoderFor; hide UnpadBlock; hide ClampK;
    var fed := [Symbol(esi, q.encode(e.block, esi))];
    IndicesGrow([], fed[0]);
    assert [] + fed == fed && Indices([]) == {};
    assert |Indices(fed)| == 1 && Genuine(q, e.block, fed);
    assert q.decode(symbolSize * e.k, fed) == None;
  }

  // ---------------------------------------------------------------- a block no tick will ask for

  /** The receiver after `n` symbols of block 0, all declined. */
  function Declined(symbolSize: nat, k: nat, need: nat, fed: seq<Symbol>, now: nat): Recv {
    var r := NewRecv(symbolSize, k);
    if fed == [] then r
    else r.(managers := map[0 := NewMgr(need, symbolSize).(fed := fed, received := |fed|, firstSymbolAt := Some(now))])
  }

  lemma OneDeclined(q: RaptorQ, symbolSize: nat, k: nat, need: nat, fed: seq<Symbol>, s: Symbol, b: Ledger, actualK: nat, now: nat)
    requires ClampK(actualK, k) == need && k > 0 && q.decode(BlockLen(symbolSize, need), fed + [s]) == None
    ensures RecvSymbol(q, Declined(symbolSize, k, need, fed, now), b, 0, actualK, s, now)
      == SymbolResult(Declined(symbolSize, k, need, fed + [s], now), b, [])
  {
    hide BlockLen; hide ClampK;
    var r := Declined(symbolSize, k, need, fed, now);
    assert r.(highestSeen := Max(r.highestSeen, 0)) == r;
    var step := SymbolStep(q, ManagerFor(r, 0, actualK), b, now, s);
    assert !step.action.Deliver? && step.mgr == Declined(symbolSize, k, need, fed + [s], now).managers[0];
  }

  lemma {:induction false} AllDeclined(q: RaptorQ, symbolSize: nat, k: nat, e: Encoder, n: nat, b: Ledger, now: nat)
    requires NeedsExtra(q, symbolSize, 1) && |e.block| == BlockLen(symbolSize, e.k) && ClampK(e.k % 0x1_0000, k) == e.k
    requires k > 0 && n <= e.k
    ensures Fed(q, NewRecv(symbolSize, k), b, 0, e.k % 0x1_0000, Minted(q, e, 0, n), now)
      == SymbolResult(Declined(symbolSize, k, e.k, Minted(q, e, 0, n), now), b, [])
  {
    hide RecvSymbol; hide ClampK;
    if n > 0 {
      AllDeclined(q, symbolSize, k, e, n - 1, b, now);
      var rest, s := Minted(q, e, 0, n - 1), Symbol(n - 1, q.encode(e.block, n - 1));
      OneMoreEach(q, e, 0, 0, n, now);
      assert Genuine(q, e.block, rest + [s]);
      FewIndices(rest + [s]);
      assert q.decode(symbolSize * e.k, rest + [s]) == None;
      hide NeedsExtra; hide Declined;
      FedSnoc(q, NewRecv(symbolSize, k), b, 0, e.k % 0x1_0000, rest, s, now);
      OneDeclined(q, symbolSize, k, e.k, rest, s, b, e.k % 0x1_0000, now);
    }
  }

  /** A block is sent without repair and all of it arrives. */
  function StrandedRun(p: bytes, need: nat, now: nat): seq<Act> { [Send(p, 0, now)] + Arrivals(0, need, now) }

  /** For every geometry and every payload, with a sound codec that needs one symbol more than K, that run
      leaves the block stranded: everything sent has arrived, and from here on it is neither completed nor
      asked for until a further symbol of it happens to be sent and arrives (`Convergence.StrandedForever`). */
  lemma StrandedHappens(q: RaptorQ, symbolSize: nat, k: nat, p: bytes, now: nat) returns (s: Sys)
    requires Sound(q) && NeedsExtra(q, symbolSize, 1) && GoodGeometry(symbolSize, k) && PayloadOk(symbolSize, k, p)
    ensures Leads(q, Init(symbolSize, k), StrandedRun(p, NeededOf(symbolSize, k, p), now), s)
    ensures s.h.produced == [p] && |s.h.log| == NeededOf(symbolSize, k, p) && Stranded(s, 0)
  {
    hide *;
    Positive(symbolSize, k);
    InitHolds(q, symbolSize, k);
    InitPlain(symbolSize, k);
    NeededIs(symbolSize, k, p);
    var s0, e := Init(symbolSize, k), EncoderFor(symbolSize, k, p);
    EncoderFits(symbolSize, k, p);
    var s1 := SendOne(q, s0, p, 0, now);
    InvGeometry(q, s1);
    WholeLog(q, s1.h.log, e);
    s := ArrivalsFeed(q, s1, 0, 0, e, 0, e.k, now);
    AllDeclined(q, symbolSize, k, e, e.k, s1.budget, now);
    LeadsOn(q, s0, [Send(p, 0, now)], s1, Arrivals(0, e.k, now), s);
    IsStrandedRun(p, e.k, now);
    DeclinedIsStuck(symbolSize, k, e.k, Minted(q, e, 0, e.k), now, s);
  }

  lemma InitPlain(symbolSize: nat, k: nat)
    requires k > 0
    ensures var s := Init(symbolSize, k);
      && s.recv == NewRecv(symbolSize, k) && s.h.produced == [] && s.h.log == [] && !s.eof && IndicesFit(s.h.log)
      && s.h.snd.symbolSize == symbolSize && s.h.snd.k == k && s.toRecv == {} && s.toSend == {}
  {}

  lemma IsStrandedRun(p: bytes, need: nat, now: nat)
    ensures StrandedRun(p, need, now) == [Send(p, 0, now)] + Arrivals(0, need, now)
  {}

  lemma WholeLog(q: RaptorQ, log: seq<Dgram>, e: Encoder)
    requires log == [] + Symbols(q, e, 0, 0, e.k + 0) && e.k <= U16_MAX
    ensures LogHolds(q, log, 0, 0, e, 0, e.k) && |log| == e.k
  {}

  lemma DeclinedIsStuck(symbolSize: nat, k: nat, need: nat, fed: seq<Symbol>, now: nat, s: Sys)
    requires |fed| == need > 0 && s.recv == Declined(symbolSize, k, need, fed, now) && s.toRecv == {} && s.toSend == {}
    ensures Stranded(s, 0)
  {}
}
