/** What the sender does for its retained blocks: how many blocks it retains, what it records of each, what a
    NACK or a spurt puts on the wire, and which blocks a spurt serves. */
module Service {
  import opened Base
  import opened Geometry
  import opened Codec
  import opened Link
  import opened Budget
  import opened Sender
  import opened SenderHistory

  // ---------------------------------------------------------------- how many blocks are retained

  /** The window is the greatest that fits: so many blocks, counted as two copies of a full payload each, stay
      within 32 MiB, unless it is the one block always kept, and one block more would not. */
  lemma RetainsGreatest(symbolSize: nat, k: nat)
    requires BlockLen(symbolSize, k) >= 5
    ensures var r, p := RetainBlocks(symbolSize, k), symbolSize * k - 4;
      && r >= 1 && (r + 1) * (2 * p) > 33_554_432 && (r * (2 * p) <= 33_554_432 || r == 1)
  {
    RetainFits(symbolSize * k - 4);
  }

  lemma RetainFits(p: nat)
    requires p >= 1
    ensures var r := RetainFor(p);
      (r + 1) * (2 * p) > 33_554_432 && (r * (2 * p) <= 33_554_432 || r == 1)
  {
    var d := 2 * p;
    var n := Quotient(SENDER_RETAIN_BYTES, d);
    QuotientBelow(SENDER_RETAIN_BYTES, d);
    assert 33_554_432 == n * d + 33_554_432 % d;
    MulStep(n, d);
    MulStep(1, d);
    assert RetainFor(p) == Max(n, 1);
  }

  // ---------------------------------------------------------------- answering a NACK

  /** What all asks of a list want for one block. */
  function AskedFor(asks: seq<(nat, nat)>, x: nat): nat {
    if asks == [] then 0
    else
      var rest, last := asks[..|asks| - 1], asks[|asks| - 1];
      AskedFor(rest, x) + if last.0 == x then last.1 else 0
  }

  /** From `h` to `h'` the wire has gained, for each block, the indices that follow those it has used, as
      many as asked, and nothing else. */
  ghost predicate Minted(q: RaptorQ, h: Hist, h': Hist, asks: seq<(nat, nat)>) {
    && h.log <= h'.log && |h'.log| == |h.log| + Asked(asks)
    && h'.snd.encoders == h.snd.encoders
    && forall x :: Esis(h'.log, x) == Esis(h.log, x) + Range(Used(h.log, x), Used(h.log, x) + AskedFor(asks, x))
  }

  /** How many indices of a block have been used. */
  function Used(log: seq<Dgram>, x: nat): nat { |Esis(log, x)| }

  lemma UsedIs(log: seq<Dgram>, x: nat, n: nat)
    requires Esis(log, x) == Range(0, n)
    ensures Used(log, x) == n
  {
    RangeSize(0, n);
  }

  /** The answer to a NACK for a retained block is exactly as many symbols as asked, of that block, with the
      indices that follow those it has used, in order; for a block let go of there is none. */
  lemma NackAnswered(q: RaptorQ, h: Hist, b: nat, n: nat)
    requires HistInv(q, h) && h.snd.symbolSize > 0 && BlockLen(h.snd.symbolSize, h.snd.k) >= LEN_PREFIX
    ensures var h', from := Perform(q, h, AnswerNack(b, n)), |Esis(h.log, b)|;
      if b in h.snd.encoders then
        && h.log <= h'.log && |h'.log| == |h.log| + n
        && (forall i :: |h.log| <= i < |h'.log| ==> h'.log[i].block == b && h'.log[i].esi == from + (i - |h.log|))
        && Esis(h'.log, b) == Esis(h.log, b) + Range(from, from + n)
        && (forall x :: x != b ==> Esis(h'.log, x) == Esis(h.log, x))
        && h'.snd.encoders == h.snd.encoders
      else h' == h
  {
    hide HistInv; hide BlockLen; hide Esis; hide Range; hide Symbols;
    NackPerformed(q, h, b, n);
    if b in h.snd.encoders {
      var e, from := h.snd.encoders[b], |Esis(h.log, b)|;
      hide Perform;
      forall x
        ensures Esis(h.log + Symbols(q, e, b, from, n), x) == Esis(h.log, x) + if x == b then Range(from, from + n) else {}
      {
        EsisAppend(h.log, q, e, b, from, n, x);
      }
    }
  }

  lemma NackPerformed(q: RaptorQ, h: Hist, b: nat, n: nat)
    requires HistInv(q, h) && h.snd.symbolSize > 0 && BlockLen(h.snd.symbolSize, h.snd.k) >= LEN_PREFIX
    ensures var h' := Perform(q, h, AnswerNack(b, n));
      && h'.snd.encoders == h.snd.encoders
      && (b in h.snd.encoders ==> h'.log == h.log + Symbols(q, h.snd.encoders[b], b, |Esis(h.log, b)|, n))
      && (b !in h.snd.encoders ==> h' == h)
  {
    hide HistInv; hide Esis; hide Symbols; hide BlockLen;
    UsedSoFar(q, h, b);
    if b !in h.snd.encoders {
      assert h.log + [] == h.log;
    }
  }

  lemma UsedSoFar(q: RaptorQ, h: Hist, b: nat)
    requires HistInv(q, h)
    ensures b in h.snd.encoders ==>
      b in h.snd.repairSent && |Esis(h.log, b)| == h.snd.encoders[b].k + h.snd.repairSent[b]
      && Esis(h.log, b) == Range(0, h.snd.encoders[b].k + h.snd.repairSent[b])
  {
    hide Contents; hide Retention; hide AllGenuine; hide NeverTwice; hide Esis; hide EncoderFor; hide Range;
    if b in h.snd.encoders {
      UsedIs(h.log, b, h.snd.encoders[b].k + h.snd.repairSent[b]);
    }
  }

  lemma OneMinted(q: RaptorQ, h: Hist, h1: Hist, asks: seq<(nat, nat)>, b: nat, n: nat)
    requires HistInv(q, h) && HistInv(q, h1) && Minted(q, h, h1, asks) && b in h1.snd.encoders
    requires h1.snd.symbolSize > 0 && BlockLen(h1.snd.symbolSize, h1.snd.k) >= LEN_PREFIX
    ensures Minted(q, h, Perform(q, h1, AnswerNack(b, n)), asks + [(b, n)])
  {
    hide HistInv; hide BlockLen; hide Esis; hide Perform; hide Range; hide Asked; hide AskedFor;
    var all, h2 := asks + [(b, n)], Perform(q, h1, AnswerNack(b, n));
    NackAnswered(q, h1, b, n);
    UsedGrows(q, h, h1, asks, b);
    RangesJoin(Used(h.log, b), AskedFor(asks, b), n);
    AskedSnoc(asks, b, n);
    forall x
      ensures Esis(h2.log, x) == Esis(h.log, x) + Range(Used(h.log, x), Used(h.log, x) + AskedFor(all, x))
    {
      if x != b {
        assert Esis(h2.log, x) == Esis(h1.log, x) && AskedFor(all, x) == AskedFor(asks, x);
      }
    }
  }

  lemma AskedSnoc(asks: seq<(nat, nat)>, b: nat, n: nat)
    ensures Asked(asks + [(b, n)]) == Asked(asks) + n
    ensures AskedFor(asks + [(b, n)], b) == AskedFor(asks, b) + n
    ensures forall x :: x != b ==> AskedFor(asks + [(b, n)], x) == AskedFor(asks, x)
  {
    assert (asks + [(b, n)])[..|asks|] == asks;
  }

  lemma UsedGrows(q: RaptorQ, h: Hist, h1: Hist, asks: seq<(nat, nat)>, x: nat)
    requires HistInv(q, h) && Minted(q, h, h1, asks) && x in h.snd.encoders
    ensures |Esis(h1.log, x)| == Used(h.log, x) + AskedFor(asks, x)
  {
    hide HistInv; hide Esis; hide Range; hide AskedFor; hide Asked;
    UsedSoFar(q, h, x);
    var n := |Esis(h.log, x)|;
    RangesJoin(0, n, AskedFor(asks, x));
    UsedIs(h1.log, x, n + AskedFor(asks, x));
  }

  lemma RangesJoin(from: nat, a: nat, b: nat)
    ensures Range(from, from + a) + Range(from + a, from + a + b) == Range(from, from + a + b)
  {}

  /** Serving a list of asks for retained blocks. */
  lemma {:induction false} ServedAll(q: RaptorQ, h: Hist, asks: seq<(nat, nat)>)
    requires HistInv(q, h) && forall i :: 0 <= i < |asks| ==> asks[i].0 in h.snd.encoders
    ensures var (s, out) := Serve(q, h.snd, asks); Minted(q, h, h.(snd := s, log := h.log + out), asks)
  {
    hide HistInv; hide BlockLen; hide Esis; hide MoreRepair;
    if asks == [] {
      assert h.log + [] == h.log;
      forall x ensures Esis(h.log, x) == Esis(h.log, x) + Range(Used(h.log, x), Used(h.log, x)) {}
    } else {
      var rest, last := asks[..|asks| - 1], asks[|asks| - 1];
      ServedAll(q, h, rest);
      ServeKeeps(q, h, rest);
      var (s1, sent) := Serve(q, h.snd, rest);
      var h1 := h.(snd := s1, log := h.log + sent);
      GeometryOk(q, h1);
      OneMinted(q, h, h1, rest, last.0, last.1);
      assert rest + [last] == asks;
      var (s2, more) := MoreRepair(q, s1, last.0, last.1);
      assert (h.log + sent) + more == h.log + (sent + more);
    }
  }

  // ---------------------------------------------------------------- which blocks a spurt serves

  function Count(m: map<nat, nat>, x: nat): nat { if x in m then m[x] else 0 }

  /** A quarter of the block's symbols, and at least one. */
  function Quarter(k: nat): nat { if k < 8 then 1 else k / 4 }

  /** The block is retained, older than a round trip, has had fewer than three spurts, and a quarter of its
      symbols fits the budget beside what has been asked before it. */
  predicate Serves(s: Snd, b: Ledger, askedBefore: nat, now: nat, rtt: nat, x: nat) {
    && x in s.encoders && x in s.sentAt && now > s.sentAt[x] + rtt && Count(s.proactive, x) < 3
    && b.inFlight + askedBefore + Quarter(s.encoders[x].k) <= b.ceiling
  }

  lemma OtherSpurt(t: TopUps, y: nat, now: nat, rtt: nat, x: nat)
    requires x != y
    ensures var t' := TopUpOne(t, y, now, rtt);
      AskedFor(t'.out, x) == AskedFor(t.out, x) && Count(t'.snd.proactive, x) == Count(t.snd.proactive, x)
  {
    hide AskedFor;
    var t' := TopUpOne(t, y, now, rtt);
    if t'.out != t.out {
      AskedSnoc(t.out, y, t'.out[|t.out|].1);
    }
  }

  lemma {:induction false} OtherSpurts(s: Snd, b: Ledger, order: seq<nat>, now: nat, rtt: nat, i: nat, j: nat, x: nat)
    requires i <= j <= |order| && x !in order[i..j]
    ensures var t, t' := TopUpAll(s, b, order[..i], now, rtt), TopUpAll(s, b, order[..j], now, rtt);
      AskedFor(t'.out, x) == AskedFor(t.out, x) && Count(t'.snd.proactive, x) == Count(t.snd.proactive, x)
    decreases j - i
  {
    hide TopUpOne; hide AskedFor; hide Count;
    if i < j {
      assert order[i..j][..j - i - 1] == order[i..j - 1] && order[i..j][j - i - 1] == order[j - 1];
      OtherSpurts(s, b, order, now, rtt, i, j - 1, x);
      assert order[..j][..j - 1] == order[..j - 1] && order[..j][j - 1] == order[j - 1];
      OtherSpurt(TopUpAll(s, b, order[..j - 1], now, rtt), order[j - 1], now, rtt, x);
    }
  }

  /** A block's turn, with the budget and the counts as the blocks before it left them. */
  lemma OwnSpurt(s: Snd, b: Ledger, t: TopUps, now: nat, rtt: nat, x: nat)
    requires t.snd == s.(proactive := t.snd.proactive) && t.budget == b.(inFlight := b.inFlight + Asked(t.out))
    requires Count(t.snd.proactive, x) == Count(s.proactive, x) && AskedFor(t.out, x) == 0
    requires x in s.encoders ==> x in s.blockK && s.blockK[x] == s.encoders[x].k
    ensures var t', served := TopUpOne(t, x, now, rtt), Serves(s, b, Asked(t.out), now, rtt, x);
      && AskedFor(t'.out, x) == (if served then Quarter(s.encoders[x].k) else 0)
      && Count(t'.snd.proactive, x) == Count(s.proactive, x) + if served then 1 else 0
  {
    hide AskedFor; hide Asked;
    var t' := TopUpOne(t, x, now, rtt);
    if t'.out != t.out {
      AskedSnoc(t.out, x, t'.out[|t.out|].1);
    }
  }

  /** Exactly which blocks a pass serves and with how much, in whatever order they come up: under random loss
      each block that may be served at its turn gets a quarter of its symbols and is counted once more, and
      any other nothing; under any other regime nothing is asked at all. */
  lemma SpurtJudged(q: RaptorQ, h: Hist, b: Ledger, order: seq<nat>, now: nat, rtt: nat, link: LinkState, i: nat)
    requires HistInv(q, h) && i < |order| && forall m, n :: 0 <= m < n < |order| ==> order[m] != order[n]
    ensures var t, x := TopUpPass(h.snd, b, order, now, rtt, link), order[i];
      var served := link.regime == Random
        && Serves(h.snd, b, Asked(TopUpPass(h.snd, b, order[..i], now, rtt, link).out), now, rtt, x);
      && AskedFor(t.out, x) == (if served then Quarter(h.snd.encoders[x].k) else 0)
      && Count(t.snd.proactive, x) == Count(h.snd.proactive, x) + if served then 1 else 0
    ensures link.regime != Random ==> TopUpPass(h.snd, b, order, now, rtt, link) == TopUps(h.snd, b, [])
  {
    hide TopUpAll; hide AskedFor; hide Count; hide Serves; hide Asked; hide Quarter; hide HistInv;
    SpurtTurn(q, h, b, order, now, rtt, i);
    FirstSpurt(h.snd, b, now, rtt, order[i]);
  }

  lemma SpurtTurn(q: RaptorQ, h: Hist, b: Ledger, order: seq<nat>, now: nat, rtt: nat, i: nat)
    requires HistInv(q, h) && i < |order| && forall m, n :: 0 <= m < n < |order| ==> order[m] != order[n]
    ensures var t, x := TopUpAll(h.snd, b, order, now, rtt), order[i];
      var served := Serves(h.snd, b, Asked(TopUpAll(h.snd, b, order[..i], now, rtt).out), now, rtt, x);
      && AskedFor(t.out, x) == (if served then Quarter(h.snd.encoders[x].k) else 0)
      && Count(t.snd.proactive, x) == Count(h.snd.proactive, x) + if served then 1 else 0
  {
    hide TopUpOne; hide AskedFor; hide Count; hide Serves; hide Asked; hide Quarter; hide HistInv;
    var x, n, s := order[i], |order|, h.snd;
    OnlyOnce(order, i);
    FirstSpurt(s, b, now, rtt, x);
    OtherSpurts(s, b, order, now, rtt, 0, i, x);
    TopUpEffect(s, b, order[..i], now, rtt);
    KnowsK(q, h, x);
    OwnSpurt(s, b, TopUpAll(s, b, order[..i], now, rtt), now, rtt, x);
    OtherSpurts(s, b, order, now, rtt, i + 1, n, x);
  }

  /** The block at `i` comes up neither before nor after its turn. */
  lemma OnlyOnce(order: seq<nat>, i: nat)
    requires i < |order| && forall m, n :: 0 <= m < n < |order| ==> order[m] != order[n]
    ensures order[i] !in order[0..i] && order[i] !in order[i + 1..|order|]
    ensures order[..0] == [] && order[..|order|] == order && order[..i + 1][..i] == order[..i] && order[..i + 1][i] == order[i]
  {}

  lemma FirstSpurt(s: Snd, b: Ledger, now: nat, rtt: nat, x: nat)
    ensures TopUpAll(s, b, [], now, rtt) == TopUps(s, b, []) && AskedFor([], x) == 0
  {}

  lemma KnowsK(q: RaptorQ, h: Hist, x: nat)
    requires HistInv(q, h)
    ensures x in h.snd.encoders ==> x in h.snd.blockK && h.snd.blockK[x] == h.snd.encoders[x].k
  {
    hide Sent; hide BlockLen; hide EncoderFor; hide RetainBlocks; hide Range;
  }

  lemma {:induction false} AsksRetained(s: Snd, b: Ledger, order: seq<nat>, now: nat, rtt: nat)
    ensures var t := TopUpAll(s, b, order, now, rtt);
      t.snd.encoders == s.encoders && forall i :: 0 <= i < |t.out| ==> t.out[i].0 in s.encoders
  {
    if order != [] {
      AsksRetained(s, b, order[..|order| - 1], now, rtt);
    }
  }

  /** ... and all of that, and nothing else, goes on the wire. */
  lemma SpurtAnswered(q: RaptorQ, h: Hist, op: Op)
    requires HistInv(q, h) && op.Spurt? && h.snd.symbolSize > 0 && BlockLen(h.snd.symbolSize, h.snd.k) >= LEN_PREFIX
    ensures var asks := TopUpPass(h.snd, op.budget, op.order, op.now, op.rtt, op.link).out;
      Minted(q, h, Perform(q, h, op), asks)
  {
    hide *;
    var t := TopUpPass(h.snd, op.budget, op.order, op.now, op.rtt, op.link);
    SpurtStart(q, h, op);
    ServedAll(q, h.(snd := t.snd), t.out);
    SpurtPerformed(q, h, op);
    SameWire(q, h, t.snd, Perform(q, h, op), t.out);
  }

  lemma SpurtPerformed(q: RaptorQ, h: Hist, op: Op)
    requires op.Spurt? && h.snd.symbolSize > 0 && BlockLen(h.snd.symbolSize, h.snd.k) >= LEN_PREFIX
    ensures var t := TopUpPass(h.snd, op.budget, op.order, op.now, op.rtt, op.link);
      var (s, out) := Serve(q, t.snd, t.out);
      Perform(q, h, op) == h.(snd := t.snd).(snd := s, log := h.log + out)
  {
    hide TopUpPass; hide Serve; hide BlockLen;
  }

  lemma SameWire(q: RaptorQ, h: Hist, s: Snd, h': Hist, asks: seq<(nat, nat)>)
    requires s.encoders == h.snd.encoders && Minted(q, h.(snd := s), h', asks)
    ensures Minted(q, h, h', asks)
  {
    hide Esis; hide Range; hide Asked; hide AskedFor; hide Used;
  }

  lemma SpurtStart(q: RaptorQ, h: Hist, op: Op)
    requires HistInv(q, h) && op.Spurt?
    ensures var t := TopUpPass(h.snd, op.budget, op.order, op.now, op.rtt, op.link);
      HistInv(q, h.(snd := t.snd)) && t.snd.encoders == h.snd.encoders && forall i :: 0 <= i < |t.out| ==> t.out[i].0 in h.snd.encoders
  {
    var t := TopUpPass(h.snd, op.budget, op.order, op.now, op.rtt, op.link);
    if op.link.regime == Random {
      AsksRetained(h.snd, op.budget, op.order, op.now, op.rtt);
      TopUpEffect(h.snd, op.budget, op.order, op.now, op.rtt);
    }
    CountsOnly(q, h, t.snd.proactive);
    hide HistInv;
    assert t.snd == h.snd.(proactive := t.snd.proactive);
  }

  // ---------------------------------------------------------------- what is recorded of a block

  /** All that is kept of one retained block. */
  datatype Entry = Entry(payload: bytes, encoder: Encoder, k: nat, repair: nat, sentAt: nat, spurts: nat)

  predicate Retains(s: Snd, x: nat) {
    x in s.payloads && x in s.encoders && x in s.blockK && x in s.repairSent && x in s.sentAt
  }

  predicate Forgotten(s: Snd, x: nat) {
    x !in s.payloads && x !in s.encoders && x !in s.blockK && x !in s.repairSent && x !in s.sentAt && x !in s.proactive
  }

  function EntryOf(s: Snd, x: nat): Entry
    requires Retains(s, x)
  {
    Entry(s.payloads[x], s.encoders[x], s.blockK[x], s.repairSent[x], s.sentAt[x], Count(s.proactive, x))
  }

  lemma AllOrNothing(q: RaptorQ, h: Hist, x: nat)
    requires HistInv(q, h)
    ensures Retains(h.snd, x) || Forgotten(h.snd, x)
    ensures x >= |h.produced| ==> Forgotten(h.snd, x)
  {
    hide Contents; hide Sent; hide BlockLen; hide RetainBlocks;
  }

  /** A new block is recorded under the next id with the payload, the repair sent along and the time; whatever
      else is still retained is recorded as before. */
  lemma EncodeRecords(q: RaptorQ, h: Hist, p: bytes, repair: nat, now: nat, x: nat)
    requires HistInv(q, h) && h.snd.symbolSize > 0 && BlockLen(h.snd.symbolSize, h.snd.k) >= LEN_PREFIX
    ensures var s, e := Perform(q, h, Encode(p, repair, now)).snd, EncoderFor(h.snd.symbolSize, h.snd.k, p);
      if x == |h.produced| then Retains(s, x) && EntryOf(s, x) == Entry(p, e, e.k, repair, now, 0)
      else Retains(s, x) ==> Retains(h.snd, x) && EntryOf(s, x) == EntryOf(h.snd, x)
  {
    hide HistInv; hide BlockLen; hide RetainBlocks; hide EncoderFor; hide Perform; hide Evict; hide Inserted; hide EntryOf; hide Retains;
    EncodePerformed(q, h, p, repair, now);
    AllOrNothing(q, h, |h.produced|);
    StartsAt(q, h);
    var t := Inserted(h.snd, p, repair, now);
    InsertRecords(h.snd, p, repair, now, x);
    EvictRecords(t, x);
  }

  lemma InsertRecords(s: Snd, p: bytes, repair: nat, now: nat, x: nat)
    requires s.symbolSize > 0
    ensures var t, e := Inserted(s, p, repair, now), EncoderFor(s.symbolSize, s.k, p);
      && t.symbolSize == s.symbolSize && t.k == s.k && t.nextBlock == s.nextBlock + 1
      && (if x == s.nextBlock then Retains(t, x) && (Forgotten(s, x) ==> EntryOf(t, x) == Entry(p, e, e.k, repair, now, 0))
          else Retains(t, x) <==> Retains(s, x))
      && (x != s.nextBlock && Retains(s, x) ==> EntryOf(t, x) == EntryOf(s, x))
  {
    hide EncoderFor;
  }

  lemma EvictRecords(t: Snd, x: nat)
    requires BlockLen(t.symbolSize, t.k) >= LEN_PREFIX
    ensures Retains(Evict(t), x) ==> Retains(t, x) && EntryOf(Evict(t), x) == EntryOf(t, x)
    ensures x + 1 == t.nextBlock && Retains(t, x) ==> Retains(Evict(t), x)
  {
    hide BlockLen; hide RetainBlocks;
  }

  lemma StartsAt(q: RaptorQ, h: Hist)
    requires HistInv(q, h)
    ensures |h.produced| == h.snd.nextBlock
  {
    hide Contents; hide Sent; hide BlockLen; hide RetainBlocks; hide Holds;
  }

  /** The record of block `x` after an operation that neither makes nor erases it. */
  function Recorded(s: Snd, op: Op, x: nat): Entry
    requires Retains(s, x)
  {
    var e := EntryOf(s, x);
    match op
    case AnswerNack(b, n) => if b == x then e.(repair := e.repair + n) else e
    case Spurt(order, now, rtt, b, link) =>
      var t := TopUpPass(s, b, order, now, rtt, link);
      e.(repair := e.repair + AskedFor(t.out, x), spurts := Count(t.snd.proactive, x))
    case _ => e
  }

  /** No other operation touches the record of a block, but that an acknowledgement of it erases it, a NACK
      for it adds to its repair, and a spurt adds to its repair and its count what it was served. */
  lemma RecordChanges(q: RaptorQ, h: Hist, op: Op, x: nat)
    requires HistInv(q, h) && !op.Encode? && h.snd.symbolSize > 0 && BlockLen(h.snd.symbolSize, h.snd.k) >= LEN_PREFIX
    requires Retains(h.snd, x)
    ensures var s := Perform(q, h, op).snd;
      if op == OnAck(x) then Forgotten(s, x) else Retains(s, x) && EntryOf(s, x) == Recorded(h.snd, op, x)
  {
    hide HistInv; hide BlockLen; hide AskedFor;
    if op.Spurt? {
      var t := TopUpPass(h.snd, op.budget, op.order, op.now, op.rtt, op.link);
      SpurtOnlyCounts(h.snd, op.budget, op.order, op.now, op.rtt, op.link);
      hide TopUpPass;
      ServeRecords(q, t.snd, t.out, x);
    }
  }

  lemma SpurtOnlyCounts(s: Snd, b: Ledger, order: seq<nat>, now: nat, rtt: nat, link: LinkState)
    ensures var t := TopUpPass(s, b, order, now, rtt, link); t.snd == s.(proactive := t.snd.proactive)
  {
    TopUpEffect(s, b, order, now, rtt);
  }

  lemma {:induction false} ServeRecords(q: RaptorQ, s: Snd, asks: seq<(nat, nat)>, x: nat)
    requires Retains(s, x)
    ensures var s' := Serve(q, s, asks).0;
      Retains(s', x) && EntryOf(s', x) == EntryOf(s, x).(repair := s.repairSent[x] + AskedFor(asks, x))
  {
    if asks != [] {
      ServeRecords(q, s, asks[..|asks| - 1], x);
    }
  }
}
