/** Whole runs of a sender: what is retained, what has been put on the wire, and that no symbol is
    ever sent twice. */
module SenderHistory {
  import opened Base
  import opened Geometry
  import opened Codec
  import opened Link
  import opened Budget
  import opened Sender

  /** A sender with its past: every payload it produced, the blocks it was told to retire after
      producing them, and every symbol it put on the wire. */
  datatype Hist = Hist(snd: Snd, produced: seq<bytes>, retired: set<nat>, log: seq<Dgram>)

  datatype Op =
    | Encode(payload: bytes, repair: nat, now: nat)
    | AnswerNack(block: nat, extra: nat)
    | OnAck(block: nat)
    | Spurt(order: seq<nat>, now: nat, rtt: nat, budget: Ledger, link: LinkState)

  function Fresh(symbolSize: nat, k: nat): Hist { Hist(NewSnd(symbolSize, k), [], {}, []) }

  /** Mint the repair a proactive pass asked for. */
  function Serve(q: RaptorQ, s: Snd, asks: seq<(nat, nat)>): (Snd, seq<Dgram>) {
    if asks == [] then (s, [])
    else
      var (s1, sent) := Serve(q, s, asks[..|asks| - 1]);
      var (s2, more) := MoreRepair(q, s1, asks[|asks| - 1].0, asks[|asks| - 1].1);
      (s2, sent + more)
  }

  function Perform(q: RaptorQ, h: Hist, op: Op): Hist
    requires h.snd.symbolSize > 0 && BlockLen(h.snd.symbolSize, h.snd.k) >= LEN_PREFIX
  {
    match op
    case Encode(p, repair, now) =>
      var (s, out) := EncodeOne(q, h.snd, p, repair, now);
      Hist(s, h.produced + [p], h.retired, h.log + out)
    case AnswerNack(b, extra) =>
      var (s, out) := MoreRepair(q, h.snd, b, extra);
      h.(snd := s, log := h.log + out)
    case OnAck(b) =>
      h.(snd := Retire(h.snd, b), retired := if b < h.snd.nextBlock then h.retired + {b} else h.retired)
    case Spurt(order, now, rtt, budget, link) =>
      var t := TopUpPass(h.snd, budget, order, now, rtt, link);
      var (s, out) := Serve(q, t.snd, t.out);
      h.(snd := s, log := h.log + out)
  }

  /** The upstream loop hands over nonempty chunks of at most one block's capacity. */
  ghost predicate Admissible(h: Hist, op: Op) {
    op.Encode? ==> 0 < |op.payload| && |op.payload| + LEN_PREFIX <= BlockLen(h.snd.symbolSize, h.snd.k)
  }

  // ---------------------------------------------------------------- what is retained

  function WindowStart(s: Snd): nat
    requires BlockLen(s.symbolSize, s.k) >= LEN_PREFIX
  {
    Monus(s.nextBlock, RetainBlocks(s.symbolSize, s.k))
  }

  /** The six maps agree, and what they hold is exactly the produced, un-retired part of the window. */
  ghost predicate Retention(h: Hist) {
    var s := h.snd;
    && GoodGeometry(s.symbolSize, s.k)
    && |h.produced| == s.nextBlock
    && h.retired <= Range(0, s.nextBlock)
    && s.oldestRetained == WindowStart(s)
    && Holds(s, Range(s.oldestRetained, s.nextBlock) - h.retired)
  }

  /** The five per-block maps are about exactly the `live` blocks, and spurts are counted for no others. */
  ghost predicate Holds(s: Snd, live: set<nat>) {
    && s.payloads.Keys == live && s.encoders.Keys == live && s.repairSent.Keys == live
    && s.blockK.Keys == live && s.sentAt.Keys == live
    && s.proactive.Keys <= live
    && (forall b :: b in s.proactive ==> s.proactive[b] <= PROACTIVE_TOPUP_CAP)
  }

  /** ... and it is the payload that was produced, with the encoder built from it. */
  ghost predicate Contents(h: Hist) {
    var s := h.snd;
    && s.symbolSize > 0
    && (forall p :: p in h.produced ==> 0 < |p| && |p| + LEN_PREFIX <= BlockLen(s.symbolSize, s.k))
    && (forall b :: b in s.payloads ==> b < |h.produced| && s.payloads[b] == h.produced[b])
    && (forall b :: b in s.encoders ==> b < |h.produced| && s.encoders[b] == EncoderFor(s.symbolSize, s.k, h.produced[b]))
    && (forall b :: b in s.blockK && b in s.encoders ==> s.blockK[b] == s.encoders[b].k)
  }

  // ---------------------------------------------------------------- what has been sent

  function Esis(log: seq<Dgram>, block: nat): set<nat> {
    set i | 0 <= i < |log| && log[i].block == block :: log[i].esi
  }

  ghost predicate NeverTwice(log: seq<Dgram>) {
    forall i, j :: 0 <= i < j < |log| ==> log[i].block != log[j].block || log[i].esi != log[j].esi
  }

  /** Every symbol sent is a genuine symbol of a produced block, none is sent twice, and a retained
      block has sent exactly the indices below its K plus its repair count. */
  ghost predicate Sent(q: RaptorQ, h: Hist) {
    && h.snd.symbolSize > 0
    && NeverTwice(h.log)
    && AllGenuine(q, h.snd.symbolSize, h.snd.k, h.produced, h.log)
    && ExactIndices(h.snd.encoders, h.snd.repairSent, h.log)
  }

  ghost predicate AllGenuine(q: RaptorQ, symbolSize: nat, k: nat, produced: seq<bytes>, log: seq<Dgram>)
    requires symbolSize > 0
  {
    forall d :: d in log ==> d.block < |produced| && IsSymbolOf(q, symbolSize, k, produced[d.block], d)
  }

  ghost predicate ExactIndices(encoders: map<nat, Encoder>, repairSent: map<nat, nat>, log: seq<Dgram>) {
    forall b :: b in encoders ==> b in repairSent && Esis(log, b) == Range(0, encoders[b].k + repairSent[b])
  }

  ghost predicate IsSymbolOf(q: RaptorQ, symbolSize: nat, k: nat, payload: bytes, d: Dgram)
    requires symbolSize > 0
  {
    var e := EncoderFor(symbolSize, k, payload);
    d.k == e.k && d.data == q.encode(e.block, d.esi)
  }

  ghost predicate HistInv(q: RaptorQ, h: Hist) { Retention(h) && Contents(h) && Sent(q, h) }

  // ---------------------------------------------------------------- every step keeps it

  lemma FreshHolds(q: RaptorQ, symbolSize: nat, k: nat)
    requires GoodGeometry(symbolSize, k)
    ensures HistInv(q, Fresh(symbolSize, k))
  {}

  lemma EsisAppend(log: seq<Dgram>, q: RaptorQ, e: Encoder, block: nat, from: nat, count: nat, b: nat)
    ensures Esis(log + Symbols(q, e, block, from, count), b)
      == Esis(log, b) + (if b == block then Range(from, from + count) else {})
  {
    var out := Symbols(q, e, block, from, count);
    var all := log + out;
    forall x | x in Esis(log, b) ensures x in Esis(all, b) {
      var i :| 0 <= i < |log| && log[i].block == b && log[i].esi == x;
      assert all[i] == log[i];
    }
    if b == block {
      forall x | from <= x < from + count ensures x in Esis(all, b) {
        assert all[|log| + x - from] == out[x - from];
      }
    }
  }

  /** Appending a run of indices the block has not used repeats nothing. */
  lemma NeverTwiceAppend(log: seq<Dgram>, q: RaptorQ, e: Encoder, block: nat, from: nat, count: nat)
    requires NeverTwice(log)
    requires forall x :: x in Esis(log, block) ==> x < from
    ensures NeverTwice(log + Symbols(q, e, block, from, count))
  {
    var out := Symbols(q, e, block, from, count);
    var all := log + out;
    forall i, j | 0 <= i < j < |all| ensures all[i].block != all[j].block || all[i].esi != all[j].esi {
      if i < |log| <= j && log[i].block == block {
        assert log[i].esi in Esis(log, block);
      }
    }
  }

  lemma DropHolds(s: Snd, live: set<nat>, ids: set<nat>)
    requires Holds(s, live)
    ensures Holds(DropIds(s, ids), live - ids)
  {}

  lemma InsertHolds(s: Snd, live: set<nat>, p: bytes, repair: nat, now: nat)
    requires s.symbolSize > 0 && Holds(s, live)
    ensures Holds(Inserted(s, p, repair, now), live + {s.nextBlock})
  {}

  /** The window slides: the new block enters it and whatever it left behind is gone. */
  lemma WindowSlides(oldest: nat, next: nat, retain: nat, retired: set<nat>)
    requires retain >= 1 && oldest == Monus(next, retain) && retired <= Range(0, next)
    ensures var start := Monus(next + 1, retain);
      (Range(oldest, next) - retired + {next}) - Range(oldest, start) == Range(start, next + 1) - retired
  {}

  /** Eviction in one piece, whether or not the frontier has passed the window. */
  lemma EvictShape(t: Snd)
    requires BlockLen(t.symbolSize, t.k) >= LEN_PREFIX && t.oldestRetained <= WindowStart(t)
    ensures Evict(t) == DropIds(t, Range(t.oldestRetained, WindowStart(t))).(oldestRetained := WindowStart(t))
  {
    hide BlockLen; hide RetainBlocks; hide Range; hide DropIds;
    if t.nextBlock <= RetainBlocks(t.symbolSize, t.k) {
      assert Range(t.oldestRetained, WindowStart(t)) == {};
      DropNone(t);
    }
  }

  lemma EncodeKeepsRetention(h: Hist, p: bytes, repair: nat, now: nat)
    requires Retention(h)
    ensures var s := Evict(Inserted(h.snd, p, repair, now));
      Retention(Hist(s, h.produced + [p], h.retired, h.log))
  {
    hide BlockLen; hide RetainBlocks; hide Range; hide EncoderFor; hide Holds;
    var s, t := h.snd, Inserted(h.snd, p, repair, now);
    assert t.symbolSize == s.symbolSize && t.k == s.k && t.nextBlock == s.nextBlock + 1 && t.oldestRetained == s.oldestRetained;
    var live, start := Range(s.oldestRetained, s.nextBlock) - h.retired, WindowStart(t);
    InsertHolds(s, live, p, repair, now);
    hide Inserted;
    EvictShape(t);
    var gone := DropIds(t, Range(s.oldestRetained, start));
    assert gone.symbolSize == t.symbolSize && gone.k == t.k && gone.nextBlock == t.nextBlock;
    DropHolds(t, live + {s.nextBlock}, Range(s.oldestRetained, start));
    hide DropIds; hide Evict;
    WindowSlides(s.oldestRetained, s.nextBlock, RetainBlocks(s.symbolSize, s.k), h.retired);
    HoldsRegardless(gone, Range(start, t.nextBlock) - h.retired, start);
    RetiredStillProduced(h.retired, s.nextBlock);
  }

  lemma RetiredStillProduced(retired: set<nat>, n: nat)
    requires retired <= Range(0, n)
    ensures retired <= Range(0, n + 1)
  {}

  lemma HoldsRegardless(s: Snd, live: set<nat>, oldest: nat)
    requires Holds(s, live)
    ensures Holds(s.(oldestRetained := oldest), live)
  {}

  lemma EncodeKeepsContents(h: Hist, p: bytes, repair: nat, now: nat)
    requires Retention(h) && Contents(h) && 0 < |p| && |p| + LEN_PREFIX <= BlockLen(h.snd.symbolSize, h.snd.k)
    ensures var s := Evict(Inserted(h.snd, p, repair, now));
      Contents(Hist(s, h.produced + [p], h.retired, h.log))
  {
    hide BlockLen; hide ActualK; hide PadBlock; hide RetainBlocks; hide Words; hide Range; hide EncoderFor;
  }

  /** A run of fresh indices of one block keeps everything the log promises. */
  lemma LogGrows(q: RaptorQ, symbolSize: nat, k: nat, produced: seq<bytes>, log: seq<Dgram>,
                 encoders: map<nat, Encoder>, repairSent: map<nat, nat>, block: nat, from: nat, count: nat)
    requires symbolSize > 0 && NeverTwice(log) && AllGenuine(q, symbolSize, k, produced, log)
    requires ExactIndices(encoders - {block}, repairSent, log)
    requires block < |produced| && Esis(log, block) == Range(0, from)
    requires block in encoders && encoders[block] == EncoderFor(symbolSize, k, produced[block])
    requires block in repairSent && encoders[block].k + repairSent[block] == from + count
    ensures var log' := log + Symbols(q, encoders[block], block, from, count);
      NeverTwice(log') && AllGenuine(q, symbolSize, k, produced, log') && ExactIndices(encoders, repairSent, log')
  {
    hide EncoderFor; hide Range; hide Esis; hide NeverTwice;
    var e := encoders[block];
    NeverTwiceAppend(log, q, e, block, from, count);
    forall b | b in encoders
      ensures b in repairSent && Esis(log + Symbols(q, e, block, from, count), b) == Range(0, encoders[b].k + repairSent[b])
    {
      EsisAppend(log, q, e, block, from, count, b);
      if b == block {
        assert Range(0, from) + Range(from, from + count) == Range(0, from + count);
      } else {
        assert b in encoders - {block};
      }
    }
  }

  lemma MoreProduced(q: RaptorQ, symbolSize: nat, k: nat, produced: seq<bytes>, p: bytes, log: seq<Dgram>)
    requires symbolSize > 0 && AllGenuine(q, symbolSize, k, produced, log)
    ensures AllGenuine(q, symbolSize, k, produced + [p], log)
    ensures Esis(log, |produced|) == {}
  {
    hide EncoderFor; hide IsSymbolOf;
  }

  lemma EncodeKeepsSent(q: RaptorQ, h: Hist, p: bytes, repair: nat, now: nat)
    requires HistInv(q, h)
    ensures var s := Evict(Inserted(h.snd, p, repair, now));
      var e := EncoderFor(h.snd.symbolSize, h.snd.k, p);
      Sent(q, Hist(s, h.produced + [p], h.retired, h.log + Symbols(q, e, h.snd.nextBlock, 0, e.k + repair)))
  {
    hide BlockLen; hide ActualK; hide PadBlock; hide RetainBlocks; hide Words; hide Range; hide EncoderFor;
    hide Esis; hide NeverTwice; hide AllGenuine;
    var s, t, n := h.snd, Inserted(h.snd, p, repair, now), h.snd.nextBlock;
    MoreProduced(q, s.symbolSize, s.k, h.produced, p, h.log);
    assert ExactIndices(t.encoders - {n}, t.repairSent, h.log);
    LogGrows(q, s.symbolSize, s.k, h.produced + [p], h.log, t.encoders, t.repairSent, n, 0, t.encoders[n].k + repair);
  }

  lemma RepairKeepsSent(q: RaptorQ, h: Hist, block: nat, extra: nat)
    requires Contents(h) && Sent(q, h) && block in h.snd.encoders && block in h.snd.repairSent
    ensures var e, already := h.snd.encoders[block], h.snd.repairSent[block];
      Sent(q, Hist(h.snd.(repairSent := h.snd.repairSent[block := already + extra]), h.produced, h.retired,
                   h.log + Symbols(q, e, block, e.k + already, extra)))
  {
    hide BlockLen; hide Range; hide EncoderFor; hide Esis; hide NeverTwice; hide AllGenuine;
    var s := h.snd;
    var e, counts := s.encoders[block], s.repairSent[block := s.repairSent[block] + extra];
    assert ExactIndices(s.encoders - {block}, counts, h.log);
    LogGrows(q, s.symbolSize, s.k, h.produced, h.log, s.encoders, counts, block, e.k + s.repairSent[block], extra);
  }

  lemma RepairKeepsLive(q: RaptorQ, h: Hist, block: nat, extra: nat)
    requires HistInv(q, h) && block in h.snd.encoders && block in h.snd.repairSent
    ensures var (s, out) := MoreRepair(q, h.snd, block, extra);
      HistInv(q, h.(snd := s, log := h.log + out))
  {
    hide Retention; hide Contents; hide Sent; hide Symbols;
    var already := h.snd.repairSent[block];
    RecountKeeps(h, block, already + extra);
    RepairKeepsSent(q, h, block, extra);
    var s := h.snd.(repairSent := h.snd.repairSent[block := already + extra]);
    OtherLog(h.(snd := s), h.log + Symbols(q, h.snd.encoders[block], block, h.snd.encoders[block].k + already, extra));
  }

  lemma RecountKeeps(h: Hist, block: nat, count: nat)
    requires Retention(h) && Contents(h) && block in h.snd.repairSent
    ensures var h' := h.(snd := h.snd.(repairSent := h.snd.repairSent[block := count]));
      Retention(h') && Contents(h')
  {
    hide BlockLen; hide RetainBlocks; hide Range; hide EncoderFor;
    assert h.snd.repairSent[block := count].Keys == h.snd.repairSent.Keys;
  }

  lemma RepairKeeps(q: RaptorQ, h: Hist, block: nat, extra: nat)
    requires HistInv(q, h)
    ensures var (s, out) := MoreRepair(q, h.snd, block, extra);
      HistInv(q, h.(snd := s, log := h.log + out))
  {
    if block in h.snd.encoders {
      assert block in h.snd.repairSent by { hide RetainBlocks; hide BlockLen; hide Contents; hide Sent; }
      RepairKeepsLive(q, h, block, extra);
    } else {
      assert h.log + [] == h.log;
    }
  }

  lemma {:induction false} ServeKeeps(q: RaptorQ, h: Hist, asks: seq<(nat, nat)>)
    requires HistInv(q, h)
    ensures var (s, out) := Serve(q, h.snd, asks); HistInv(q, h.(snd := s, log := h.log + out))
  {
    hide BlockLen; hide ActualK; hide PadBlock; hide RetainBlocks; hide Words; hide Range; hide EncoderFor;
    hide Retention; hide Contents; hide Sent;
    if asks == [] {
      assert h.log + [] == h.log;
    } else {
      ServeKeeps(q, h, asks[..|asks| - 1]);
      var (s1, sent) := Serve(q, h.snd, asks[..|asks| - 1]);
      var (block, extra) := asks[|asks| - 1];
      RepairKeeps(q, h.(snd := s1, log := h.log + sent), block, extra);
      var (s2, more) := MoreRepair(q, s1, block, extra);
      assert (h.log + sent) + more == h.log + (sent + more);
    }
  }

  /** A proactive pass only counts its spurts, at most three a block, and reserves exactly what it
      asks for. */
  lemma {:induction false} TopUpEffect(s: Snd, b: Ledger, order: seq<nat>, now: nat, rtt: nat)
    ensures var t := TopUpAll(s, b, order, now, rtt);
      && t.snd == s.(proactive := t.snd.proactive)
      && t.snd.proactive.Keys <= s.proactive.Keys + (s.sentAt.Keys * s.encoders.Keys)
      && ((forall x :: x in s.proactive ==> s.proactive[x] <= PROACTIVE_TOPUP_CAP) ==>
           (forall x :: x in t.snd.proactive ==> t.snd.proactive[x] <= PROACTIVE_TOPUP_CAP))
      && t.budget == b.(inFlight := b.inFlight + Asked(t.out))
      && t.budget.inFlight <= Max(b.inFlight, b.ceiling)
  {
    if order != [] {
      TopUpEffect(s, b, order[..|order| - 1], now, rtt);
      var t := TopUpAll(s, b, order[..|order| - 1], now, rtt);
      var t' := TopUpOne(t, order[|order| - 1], now, rtt);
      if t'.out != t.out {
        assert t'.out[..|t.out|] == t.out;
      }
    }
  }

  function Asked(asks: seq<(nat, nat)>): nat {
    if asks == [] then 0 else Asked(asks[..|asks| - 1]) + asks[|asks| - 1].1
  }

  lemma CountsOnly(q: RaptorQ, h: Hist, counts: map<nat, nat>)
    requires HistInv(q, h)
    requires counts.Keys <= h.snd.payloads.Keys && forall b :: b in counts ==> counts[b] <= PROACTIVE_TOPUP_CAP
    ensures HistInv(q, h.(snd := h.snd.(proactive := counts)))
  {
    hide BlockLen; hide ActualK; hide PadBlock; hide RetainBlocks; hide Words; hide Range; hide EncoderFor;
    hide Esis; hide NeverTwice; hide AllGenuine; hide ExactIndices;
  }

  lemma SpurtKeeps(q: RaptorQ, h: Hist, op: Op)
    requires HistInv(q, h) && op.Spurt?
    ensures var t := TopUpPass(h.snd, op.budget, op.order, op.now, op.rtt, op.link);
      var (s, out) := Serve(q, t.snd, t.out);
      HistInv(q, h.(snd := s, log := h.log + out))
  {
    var t := TopUpPass(h.snd, op.budget, op.order, op.now, op.rtt, op.link);
    if op.link.regime == Random {
      TopUpEffect(h.snd, op.budget, op.order, op.now, op.rtt);
    }
    CountsOnly(q, h, t.snd.proactive);
    hide Retention; hide Contents; hide Sent;
    assert t.snd == h.snd.(proactive := t.snd.proactive);
    ServeKeeps(q, h.(snd := t.snd), t.out);
  }

  lemma AckKeepsRetention(h: Hist, block: nat)
    requires Retention(h)
    ensures Retention(h.(snd := Retire(h.snd, block),
                         retired := if block < h.snd.nextBlock then h.retired + {block} else h.retired))
  {
    hide BlockLen; hide ActualK; hide PadBlock; hide RetainBlocks; hide Words; hide Range; hide EncoderFor;
    var live := Range(h.snd.oldestRetained, h.snd.nextBlock) - h.retired;
    DropHolds(h.snd, live, {block});
    assert live - {block} == Range(h.snd.oldestRetained, h.snd.nextBlock)
      - (if block < h.snd.nextBlock then h.retired + {block} else h.retired);
  }

  lemma AckKeepsContents(h: Hist, block: nat)
    requires Contents(h)
    ensures Contents(h.(snd := Retire(h.snd, block)))
  {
    hide BlockLen; hide ActualK; hide PadBlock; hide EncoderFor;
  }

  lemma AckKeepsSent(q: RaptorQ, h: Hist, block: nat)
    requires Sent(q, h)
    ensures Sent(q, h.(snd := Retire(h.snd, block)))
  {
    hide BlockLen; hide EncoderFor; hide Esis; hide NeverTwice; hide AllGenuine; hide Range;
  }

  lemma AckKeeps(q: RaptorQ, h: Hist, block: nat)
    requires HistInv(q, h)
    ensures HistInv(q, h.(snd := Retire(h.snd, block),
                          retired := if block < h.snd.nextBlock then h.retired + {block} else h.retired))
  {
    var h1 := h.(snd := Retire(h.snd, block));
    AckKeepsRetention(h, block);
    AckKeepsContents(h, block);
    AckKeepsSent(q, h, block);
    hide Retention; hide Retire;
    SamePast(q, h1, if block < h.snd.nextBlock then h.retired + {block} else h.retired);
  }

  lemma SamePast(q: RaptorQ, h: Hist, retired: set<nat>)
    requires Contents(h) && Sent(q, h)
    ensures Contents(h.(retired := retired)) && Sent(q, h.(retired := retired))
  {
    hide BlockLen; hide EncoderFor; hide Esis; hide NeverTwice; hide AllGenuine; hide ExactIndices;
  }

  lemma EncodePerformed(q: RaptorQ, h: Hist, p: bytes, repair: nat, now: nat)
    requires h.snd.symbolSize > 0 && BlockLen(h.snd.symbolSize, h.snd.k) >= LEN_PREFIX
    ensures var e, t := EncoderFor(h.snd.symbolSize, h.snd.k, p), Inserted(h.snd, p, repair, now);
      Perform(q, h, Encode(p, repair, now))
      == Hist(Evict(t), h.produced + [p], h.retired, h.log + Symbols(q, e, h.snd.nextBlock, 0, e.k + repair))
  {
    hide BlockLen; hide Evict; hide EncoderFor; hide Inserted;
  }

  lemma EncodeKeeps(q: RaptorQ, h: Hist, p: bytes, repair: nat, now: nat)
    requires h.snd.symbolSize > 0 && BlockLen(h.snd.symbolSize, h.snd.k) >= LEN_PREFIX
    requires HistInv(q, h) && 0 < |p| && |p| + LEN_PREFIX <= BlockLen(h.snd.symbolSize, h.snd.k)
    ensures HistInv(q, Perform(q, h, Encode(p, repair, now)))
  {
    hide Retention; hide Contents; hide Sent; hide BlockLen; hide Perform; hide Evict; hide EncoderFor;
    EncodeKeepsRetention(h, p, repair, now);
    EncodeKeepsContents(h, p, repair, now);
    EncodeKeepsSent(q, h, p, repair, now);
    EncodePerformed(q, h, p, repair, now);
    var t := Inserted(h.snd, p, repair, now);
    var e := EncoderFor(h.snd.symbolSize, h.snd.k, p);
    OtherLog(Hist(Evict(t), h.produced + [p], h.retired, h.log), h.log + Symbols(q, e, h.snd.nextBlock, 0, e.k + repair));
  }

  lemma OtherLog(h: Hist, log: seq<Dgram>)
    requires Retention(h) && Contents(h)
    ensures Retention(h.(log := log)) && Contents(h.(log := log))
  {
    hide BlockLen; hide RetainBlocks; hide Range; hide EncoderFor; hide Holds;
  }

  lemma GeometryOk(q: RaptorQ, h: Hist)
    requires HistInv(q, h)
    ensures h.snd.symbolSize > 0 && BlockLen(h.snd.symbolSize, h.snd.k) >= LEN_PREFIX
  {
    hide BlockLen; hide Contents; hide Sent; hide Holds;
  }

  lemma PerformKeeps(q: RaptorQ, h: Hist, op: Op)
    requires HistInv(q, h) && Admissible(h, op)
    ensures HistInv(q, Perform(q, h, op))
    ensures Perform(q, h, op).snd.symbolSize == h.snd.symbolSize && Perform(q, h, op).snd.k == h.snd.k
  {
    hide HistInv; hide BlockLen;
    GeometryOk(q, h);
    SameGeometry(q, h, op);
    hide MoreRepair; hide Retire; hide TopUpPass; hide Serve; hide EncodeOne;
    match op
    case Encode(p, repair, now) => EncodeKeeps(q, h, p, repair, now);
    case AnswerNack(b, extra) => RepairKeeps(q, h, b, extra);
    case OnAck(b) => AckKeeps(q, h, b);
    case Spurt(_, _, _, _, _) => SpurtKeeps(q, h, op);
  }

  lemma {:induction false} SameGeometry(q: RaptorQ, h: Hist, op: Op)
    requires h.snd.symbolSize > 0 && BlockLen(h.snd.symbolSize, h.snd.k) >= LEN_PREFIX
    ensures Perform(q, h, op).snd.symbolSize == h.snd.symbolSize && Perform(q, h, op).snd.k == h.snd.k
  {
    hide BlockLen; hide RetainBlocks; hide EncoderFor;
    if op.Spurt? {
      TopUpEffect(h.snd, op.budget, op.order, op.now, op.rtt);
      var t := TopUpPass(h.snd, op.budget, op.order, op.now, op.rtt, op.link);
      ServeGeometry(q, t.snd, t.out);
    }
  }

  lemma {:induction false} ServeGeometry(q: RaptorQ, s: Snd, asks: seq<(nat, nat)>)
    ensures Serve(q, s, asks).0 == s.(repairSent := Serve(q, s, asks).0.repairSent)
  {
    if asks != [] {
      ServeGeometry(q, s, asks[..|asks| - 1]);
    }
  }

  // ---------------------------------------------------------------- whole runs

  ghost predicate IsRun(q: RaptorQ, symbolSize: nat, k: nat, states: seq<Hist>, ops: seq<Op>) {
    && |states| == |ops| + 1
    && states[0] == Fresh(symbolSize, k)
    && forall i :: 0 <= i < |ops| ==>
         && states[i].snd.symbolSize > 0 && BlockLen(states[i].snd.symbolSize, states[i].snd.k) >= LEN_PREFIX
         && Admissible(states[i], ops[i]) && states[i + 1] == Perform(q, states[i], ops[i])
  }

  lemma {:induction false} RunHolds(q: RaptorQ, symbolSize: nat, k: nat, states: seq<Hist>, ops: seq<Op>, n: nat)
    requires GoodGeometry(symbolSize, k) && IsRun(q, symbolSize, k, states, ops) && n <= |ops|
    ensures HistInv(q, states[n]) && states[n].snd.symbolSize == symbolSize && states[n].snd.k == k
  {
    hide BlockLen; hide ActualK; hide PadBlock; hide RetainBlocks; hide Words; hide Range; hide EncoderFor;
    if n > 0 {
      RunHolds(q, symbolSize, k, states, ops, n - 1);
      PerformKeeps(q, states[n - 1], ops[n - 1]);
    } else {
      FreshHolds(q, symbolSize, k);
    }
  }

  /** After any run the retained payload ids are exactly the produced ids of the last
      `RetainBlocks` that have not been retired since, each with the bytes produced under that id. */
  lemma ExactRetention(q: RaptorQ, symbolSize: nat, k: nat, states: seq<Hist>, ops: seq<Op>, n: nat, b: nat)
    requires GoodGeometry(symbolSize, k) && IsRun(q, symbolSize, k, states, ops) && n <= |ops|
    ensures var h := states[n];
      && (b in h.snd.payloads <==>
            b < |h.produced| && b !in h.retired && b + RetainBlocks(symbolSize, k) >= |h.produced|)
      && (b in h.snd.payloads ==> h.snd.payloads[b] == h.produced[b])
      && (b in h.snd.payloads <==> b in h.snd.encoders)
  {
    hide BlockLen; hide ActualK; hide PadBlock; hide RetainBlocks; hide Words; hide Range; hide EncoderFor;
    RunHolds(q, symbolSize, k, states, ops, n);
  }

  /** Over a whole run no (block, symbol) pair goes on the wire twice, and the indices a retained
      block has used are exactly those below its K plus its repair count. */
  lemma SymbolFreshness(q: RaptorQ, symbolSize: nat, k: nat, states: seq<Hist>, ops: seq<Op>, n: nat)
    requires GoodGeometry(symbolSize, k) && IsRun(q, symbolSize, k, states, ops) && n <= |ops|
    ensures var h := states[n];
      && NeverTwice(h.log)
      && forall b :: b in h.snd.encoders ==>
           b in h.snd.repairSent && Esis(h.log, b) == Range(0, h.snd.encoders[b].k + h.snd.repairSent[b])
  {
    hide BlockLen; hide ActualK; hide PadBlock; hide RetainBlocks; hide Words; hide Range; hide EncoderFor;
    RunHolds(q, symbolSize, k, states, ops, n);
  }

  // ---------------------------------------------------------------- memory

  function Lengths(m: map<nat, bytes>): map<nat, nat> { map b | b in m :: |m[b]| }

  lemma BytesInWindow(h: Hist)
    requires Retention(h) && Contents(h)
    ensures Sum(Lengths(h.snd.payloads)) <= Max(SENDER_RETAIN_BYTES / 2, MaxPayload(h.snd.symbolSize, h.snd.k))
  {
    var s := h.snd;
    var cap, retain := MaxPayload(s.symbolSize, s.k), RetainBlocks(s.symbolSize, s.k);
    var m := Lengths(s.payloads);
    assert m.Keys == s.payloads.Keys;
    SumBound(m, cap);
    RangeSize(s.oldestRetained, s.nextBlock);
    SubsetSize(m.Keys, Range(s.oldestRetained, s.nextBlock));
    WindowBytes(|m.Keys|, retain, cap);
  }

  /** At every point of every run the retained payload bytes are at most half the retention budget, or
      one block where that is more. */
  lemma RetainedBytesBounded(q: RaptorQ, symbolSize: nat, k: nat, states: seq<Hist>, ops: seq<Op>, n: nat)
    requires GoodGeometry(symbolSize, k) && IsRun(q, symbolSize, k, states, ops) && n <= |ops|
    ensures Sum(Lengths(states[n].snd.payloads)) <= Max(SENDER_RETAIN_BYTES / 2, MaxPayload(symbolSize, k))
  {
    RunHolds(q, symbolSize, k, states, ops, n);
    hide Retention; hide Contents; hide Sent; hide Lengths; hide Sum;
    BytesInWindow(states[n]);
  }

  lemma WindowBytes(n: nat, retain: nat, cap: nat)
    requires cap >= 1 && retain == RetainFor(cap) && n <= retain
    ensures n * cap <= Max(SENDER_RETAIN_BYTES / 2, cap)
  {
    var quotient := Quotient(SENDER_RETAIN_BYTES, 2 * cap);
    QuotientBelow(SENDER_RETAIN_BYTES, 2 * cap);
    if quotient <= 1 {
      MulMono(cap, n, 1);
    } else {
      assert quotient * (2 * cap) == 2 * (quotient * cap);
      MulMono(cap, n, quotient);
    }
  }
}
