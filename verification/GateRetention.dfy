/** The upstream gate and the sender's retention window together. What the gate lets through keeps every
    missing block retained, so every reliable request can be served, until the gate has abandoned its
    count often enough; exactly how often is proved. */
module GateRetention {
  import opened Base
  import opened Geometry
  import opened Codec
  import opened Link
  import opened Budget
  import opened Signals
  import opened Sender
  import opened SenderHistory
  import opened Receiver
  import opened ReceiverSafety
  import opened Tunnel
  import opened TunnelRuns
  import opened Convergence
  import opened LostRequests
  import opened SendWindows

  /** Up to step `n` every send finds its slot below `window`. The gate sees to that, with its ceiling
      for `window`, whether it passed its tests or was forced (`WindowInterleaving.SlotBelowCeiling`). */
  ghost predicate SendsBelow(states: seq<Sys>, acts: seq<Act>, window: nat, n: nat)
    requires |states| == |acts| + 1 && n <= |acts|
  {
    forall i: nat :: i < n && acts[i].Send? ==> states[i].slot < window
  }

  /** How often the gate has abandoned its count. */
  function Abandons(acts: seq<Act>): nat {
    if acts == [] then 0 else Abandons(acts[..|acts| - 1]) + if acts[|acts| - 1].Abandon? then 1 else 0
  }

  lemma AbandonsMore(acts: seq<Act>, a: Act)
    ensures Abandons(acts + [a]) == Abandons(acts) + if a.Abandon? then 1 else 0
  {
    assert (acts + [a])[..|acts|] == acts;
  }

  lemma SlotStep(q: RaptorQ, s: Sys, a: Act, window: nat)
    requires Runnable(s) && Enabled(s, a) && s.slot <= window && (a.Send? ==> s.slot < window)
    ensures var s' := Next(q, s, a);
      s'.slot <= window && s'.abandoned <= s.abandoned + if a.Abandon? then window else 0
  {
    hide Perform; hide TopUpPass; hide RecvSymbol; hide RecvReliable; hide RecvTick;
  }

  lemma {:induction false} SlotWithin(q: RaptorQ, symbolSize: nat, k: nat, states: seq<Sys>, acts: seq<Act>, window: nat, n: nat)
    requires TunnelRun(q, symbolSize, k, states, acts) && n <= |acts| && SendsBelow(states, acts, window, n)
    ensures states[n].slot <= window && states[n].abandoned <= Abandons(acts[..n]) * window
  {
    if n > 0 {
      hide Next; hide Runnable; hide Enabled;
      SlotWithin(q, symbolSize, k, states, acts, window, n - 1);
      assert StepAt(q, states, acts, n - 1);
      SlotStep(q, states[n - 1], acts[n - 1], window);
      assert acts[..n] == acts[..n - 1] + [acts[n - 1]];
      AbandonsMore(acts[..n - 1], acts[n - 1]);
      MulStep(Abandons(acts[..n - 1]), window);
    }
  }

  /** A block the receiver lacks is no further behind than one window and one more for each abandon. So
      while those fit the retention window, the sender holds every such block. */
  lemma GateKeepsRetained(q: RaptorQ, symbolSize: nat, k: nat, states: seq<Sys>, acts: seq<Act>, window: nat, n: nat, x: nat)
    requires Sound(q) && GoodGeometry(symbolSize, k) && TunnelRun(q, symbolSize, k, states, acts)
    requires IndicesFit(states[|acts|].h.log) && n <= |acts| && SendsBelow(states, acts, window, n)
    requires x < |states[n].h.produced| && !IsComplete(states[n].recv, x)
    ensures |states[n].h.produced| <= x + (Abandons(acts[..n]) + 1) * window
    ensures (Abandons(acts[..n]) + 1) * window <= RetainBlocks(symbolSize, k) ==>
      x in states[n].h.snd.payloads && states[n].h.snd.payloads[x] == states[n].h.produced[x]
  {
    hide Inv; hide Sound; hide StepAt; hide IndicesFit; hide RetainBlocks; hide Abandons;
    SlotWithin(q, symbolSize, k, states, acts, window, n);
    TunnelInv(q, symbolSize, k, states, acts, n);
    GeometryAlong(q, states, acts, n);
    RetainedWhen(q, states[n], x);
    SentIsClose(q, states[n], x);
    MulStep(Abandons(acts[..n]), window);
  }

  lemma SentIsClose(q: RaptorQ, s: Sys, x: nat)
    requires Inv(q, s) && !IsComplete(s.recv, x)
    ensures |s.h.produced| <= x + s.slot + s.abandoned
  {
    hide HistInv; hide ReceiverSide; hide Truthful; hide Sensible; hide RetiredComplete; hide LedgerOk;
  }

  /** Every geometry a session can negotiate retains what the gate lets out over two abandons and more. */
  lemma NegotiatedWindowFits(requested: FecParams, serverSymbolSize: nat, maxPpm: nat, cap: nat)
    ensures var p := ClampFec(requested, serverSymbolSize, maxPpm);
      var sym, k := ClampSymbolToDatagramCap(p.symbolSize, cap), ResolveK(p);
      BlockLen(sym, k) >= 5 ==> GoodGeometry(sym, k) && RetainBlocks(sym, k) >= 59 >= 3 * WINDOW_FLOOR_BLOCKS
  {
    NegotiatedBounds(requested, serverSymbolSize, maxPpm, cap);
    var p := ClampFec(requested, serverSymbolSize, maxPpm);
    var sym, k := ClampSymbolToDatagramCap(p.symbolSize, cap), ResolveK(p);
    hide ClampFec; hide ClampSymbolToDatagramCap; hide ResolveK; hide BlockLen;
    if BlockLen(sym, k) >= 5 {
      RetainsAtLeast(MaxPayload(sym, k));
    }
  }

  lemma RetainsAtLeast(payload: nat)
    requires 1 <= payload <= 281_084
    ensures RetainFor(payload) >= 59
  {
    var d := 2 * payload;
    assert 59 * d <= SENDER_RETAIN_BYTES;
    QuotientBounds(SENDER_RETAIN_BYTES, d, 59);
  }

  /** So recovery needs nothing of the sender: from any point of a run whose abandons fit the retention
      window, and in which no missing block is stuck, the announcement, one late tick and the answers in
      any order are possible and hand over the whole stream. */
  lemma GatedRecovery(q: RaptorQ, symbolSize: nat, k: nat, states: seq<Sys>, acts: seq<Act>, window: nat,
                      order: seq<nat>, link: LinkState, now: nat, list: seq<nat>) returns (s': Sys)
    requires Sound(q) && GoodGeometry(symbolSize, k) && TunnelRun(q, symbolSize, k, states, acts)
    requires IndicesFit(states[|acts|].h.log) && SendsBelow(states, acts, window, |acts|)
    requires (Abandons(acts) + 1) * window <= RetainBlocks(symbolSize, k)
    requires Enumerates(order, states[|acts|].recv.managers) && AllLate(states[|acts|].recv, link, now)
    requires RepairRefused(link, states[|acts|].budget)
    requires forall x: nat :: x < |states[|acts|].h.produced| && !IsComplete(states[|acts|].recv, x) ==> !Stuck(states[|acts|].recv, x)
    requires forall x: nat :: x in list <==> x < |states[|acts|].h.produced| && !IsComplete(states[|acts|].recv, x)
    ensures var s := states[|acts|];
      && Leads(q, s, ToldAndTicked(|s.h.produced|, order, link, now) + Answers(s.h.produced, list), s')
      && s'.h == s.h && s'.recv.nextDeliver == |s.h.produced| && s'.output == Concat(s.h.produced)
  {
    hide Sound; hide StepAt; hide IndicesFit; hide RetainBlocks; hide IsComplete; hide Stuck; hide AllLate;
    hide RepairRefused; hide Enumerates; hide Leads; hide SendsBelow; hide Abandons;
    var s := states[|acts|];
    assert acts[..|acts|] == acts;
    forall x: nat | x < |s.h.produced| && !IsComplete(s.recv, x)
      ensures x + RetainBlocks(symbolSize, k) >= |s.h.produced|
    {
      GateKeepsRetained(q, symbolSize, k, states, acts, window, |acts|, x);
    }
    assert Reachable(q, symbolSize, k, s);
    s' := ReliableRecovery(q, symbolSize, k, s, order, link, now, list);
  }

  /** A request that cannot be served takes abandons: at least as many as whole windows fit the retention
      window. */
  lemma UnanswerableNeedsAbandons(q: RaptorQ, symbolSize: nat, k: nat, states: seq<Sys>, acts: seq<Act>, n: nat, x: nat)
    requires Sound(q) && GoodGeometry(symbolSize, k) && TunnelRun(q, symbolSize, k, states, acts)
    requires IndicesFit(states[|acts|].h.log) && n <= |acts| && SendsBelow(states, acts, WINDOW_FLOOR_BLOCKS, n)
    requires Unanswerable(states[n], x)
    ensures Abandons(acts[..n]) >= RetainBlocks(symbolSize, k) / WINDOW_FLOOR_BLOCKS
  {
    hide Inv; hide Sound; hide StepAt; hide IndicesFit; hide RetainBlocks; hide SendsBelow; hide Abandons;
    TunnelInv(q, symbolSize, k, states, acts, n);
    ProducedCount(q, states[n]);
    GateKeepsRetained(q, symbolSize, k, states, acts, WINDOW_FLOOR_BLOCKS, n, x);
  }

  // ---------------------------------------------------------------- and that many are enough

  lemma OneStepMore(q: RaptorQ, symbolSize: nat, k: nat, states: seq<Sys>, acts: seq<Act>, a: Act)
    requires TunnelRun(q, symbolSize, k, states, acts) && Runnable(states[|acts|]) && Enabled(states[|acts|], a)
    ensures TunnelRun(q, symbolSize, k, states + [Next(q, states[|acts|], a)], acts + [a])
  {
    hide Next; hide Runnable; hide Enabled; hide Init;
    var states', acts' := states + [Next(q, states[|acts|], a)], acts + [a];
    forall i: nat | i < |acts'|
      ensures StepAt(q, states', acts', i)
    {
      if i < |acts| {
        assert StepAt(q, states, acts, i);
      }
    }
  }

  lemma BelowMore(states: seq<Sys>, acts: seq<Act>, s: Sys, a: Act, window: nat)
    requires |states| == |acts| + 1 && SendsBelow(states, acts, window, |acts|)
    requires a.Send? ==> states[|acts|].slot < window
    ensures SendsBelow(states + [s], acts + [a], window, |acts| + 1)
  {}

  /** A sender that has produced `m` blocks, retired none, and kept its indices within the header. */
  ghost predicate SentHist(q: RaptorQ, symbolSize: nat, k: nat, h: Hist, m: nat) {
    && h.snd.symbolSize == symbolSize && h.snd.k == k && HistInv(q, h) && IndicesFit(h.log)
    && h.snd.nextBlock == m && h.retired == {}
  }

  /** `m` blocks of one byte have been sent and lost, the last `slot` of them still counted. */
  ghost predicate SentAndLost(q: RaptorQ, symbolSize: nat, k: nat, s: Sys, m: nat, slot: nat) {
    SentHist(q, symbolSize, k, s.h, m) && s.slot == slot && !s.eof && s.recv == NewRecv(symbolSize, k) && s.toRecv == {}
  }

  lemma OneByteFits(symbolSize: nat, k: nat)
    requires GoodGeometry(symbolSize, k)
    ensures PayloadOk(symbolSize, k, [0]) && EncoderFor(symbolSize, k, [0]).k <= U16_MAX
  {
    EncoderFits(symbolSize, k, [0]);
  }

  lemma SendHist(q: RaptorQ, symbolSize: nat, k: nat, h: Hist, m: nat)
    requires GoodGeometry(symbolSize, k) && SentHist(q, symbolSize, k, h, m)
    ensures h.snd.symbolSize > 0 && BlockLen(h.snd.symbolSize, h.snd.k) >= LEN_PREFIX
    ensures SentHist(q, symbolSize, k, Perform(q, h, Encode([0], 0, 0)), m + 1)
  {
    OneByteFits(symbolSize, k);
    hide HistInv; hide EncoderFor; hide Evict; hide BlockLen; hide IndicesFit;
    GeometryOk(q, h);
    PerformKeeps(q, h, Encode([0], 0, 0));
    EncodePerformed(q, h, [0], 0, 0);
    EvictCounts(Inserted(h.snd, [0], 0, 0));
    FitsAppended(h.log, q, EncoderFor(symbolSize, k, [0]), m);
    hide Perform; hide Symbols;
  }

  lemma SendIsLost(q: RaptorQ, symbolSize: nat, k: nat, s: Sys, m: nat, slot: nat)
    requires GoodGeometry(symbolSize, k) && SentAndLost(q, symbolSize, k, s, m, slot)
    ensures Runnable(s) && Enabled(s, Send([0], 0, 0))
    ensures SentAndLost(q, symbolSize, k, Next(q, s, Send([0], 0, 0)), m + 1, slot + 1)
  {
    hide HistInv; hide Perform; hide EncoderFor; hide IndicesFit; hide BlockLen; hide SentHist; hide GoodGeometry;
    hide PayloadOk;
    OneByteFits(symbolSize, k);
    SendHist(q, symbolSize, k, s.h, m);
    SentGeometry(q, symbolSize, k, s.h, m);
    SentGeometry(q, symbolSize, k, Perform(q, s.h, Encode([0], 0, 0)), m + 1);
  }

  lemma SentGeometry(q: RaptorQ, symbolSize: nat, k: nat, h: Hist, m: nat)
    requires SentHist(q, symbolSize, k, h, m) && GoodGeometry(symbolSize, k)
    ensures h.snd.symbolSize == symbolSize > 0 && h.snd.k == k && BlockLen(symbolSize, k) >= LEN_PREFIX
  {
    hide HistInv;
  }

  /** A slot that alone fills the window may be abandoned. */
  lemma FullIsAbandoned(q: RaptorQ, symbolSize: nat, k: nat, s: Sys, m: nat)
    requires GoodGeometry(symbolSize, k) && SentAndLost(q, symbolSize, k, s, m, WINDOW_FLOOR_BLOCKS)
    ensures Runnable(s) && Enabled(s, Abandon(0))
    ensures SentAndLost(q, symbolSize, k, Next(q, s, Abandon(0)), m, 0)
  {
    SentGeometry(q, symbolSize, k, s.h, m);
    hide SentHist; hide BlockLen; hide GoodGeometry; hide Perform;
  }

  lemma EvictCounts(t: Snd)
    requires BlockLen(t.symbolSize, t.k) >= LEN_PREFIX
    ensures Evict(t).nextBlock == t.nextBlock
  {
    hide RetainBlocks; hide BlockLen; hide Range;
  }

  lemma FitsAppended(log: seq<Dgram>, q: RaptorQ, e: Encoder, block: nat)
    requires IndicesFit(log) && e.k <= U16_MAX
    ensures IndicesFit(log + Symbols(q, e, block, 0, e.k))
  {}

  /** Sixteen sends fill the window, a stall abandons them, and so on, until `m` blocks are sent. */
  lemma {:induction false} SendsLost(q: RaptorQ, symbolSize: nat, k: nat, m: nat)
      returns (states: seq<Sys>, acts: seq<Act>, slot: nat)
    requires GoodGeometry(symbolSize, k)
    ensures TunnelRun(q, symbolSize, k, states, acts) && SendsBelow(states, acts, WINDOW_FLOOR_BLOCKS, |acts|)
    ensures SentAndLost(q, symbolSize, k, states[|acts|], m, slot)
    ensures m == Abandons(acts) * WINDOW_FLOOR_BLOCKS + slot && slot <= WINDOW_FLOOR_BLOCKS && (m > 0 ==> slot > 0)
    decreases m
  {
    if m == 0 {
      states, acts, slot := [Init(symbolSize, k)], [], 0;
      FreshHolds(q, symbolSize, k);
      hide HistInv;
    } else {
      states, acts, slot := SendsLost(q, symbolSize, k, m - 1);
      hide Next; hide Enabled; hide Init; hide StepAt; hide Runnable;
      if slot == WINDOW_FLOOR_BLOCKS {
        states, acts := ThenAbandon(q, symbolSize, k, states, acts, m - 1);
        slot := 0;
      }
      states, acts := ThenSend(q, symbolSize, k, states, acts, m - 1, slot);
      slot := slot + 1;
    }
  }

  lemma ThenSend(q: RaptorQ, symbolSize: nat, k: nat, states: seq<Sys>, acts: seq<Act>, m: nat, slot: nat)
      returns (states': seq<Sys>, acts': seq<Act>)
    requires GoodGeometry(symbolSize, k) && TunnelRun(q, symbolSize, k, states, acts) && slot < WINDOW_FLOOR_BLOCKS
    requires SendsBelow(states, acts, WINDOW_FLOOR_BLOCKS, |acts|) && SentAndLost(q, symbolSize, k, states[|acts|], m, slot)
    ensures TunnelRun(q, symbolSize, k, states', acts') && SendsBelow(states', acts', WINDOW_FLOOR_BLOCKS, |acts'|)
    ensures SentAndLost(q, symbolSize, k, states'[|acts'|], m + 1, slot + 1) && Abandons(acts') == Abandons(acts)
  {
    hide Next; hide Enabled; hide Init; hide StepAt; hide Runnable; hide SentHist; hide SendsBelow; hide Abandons;
    var s, a := states[|acts|], Send([0], 0, 0);
    SendIsLost(q, symbolSize, k, s, m, slot);
    var s' := Next(q, s, a);
    OneStepMore(q, symbolSize, k, states, acts, a);
    BelowMore(states, acts, s', a, WINDOW_FLOOR_BLOCKS);
    AbandonsMore(acts, a);
    states', acts' := states + [s'], acts + [a];
  }

  lemma ThenAbandon(q: RaptorQ, symbolSize: nat, k: nat, states: seq<Sys>, acts: seq<Act>, m: nat)
      returns (states': seq<Sys>, acts': seq<Act>)
    requires GoodGeometry(symbolSize, k) && TunnelRun(q, symbolSize, k, states, acts)
    requires SendsBelow(states, acts, WINDOW_FLOOR_BLOCKS, |acts|)
    requires SentAndLost(q, symbolSize, k, states[|acts|], m, WINDOW_FLOOR_BLOCKS)
    ensures TunnelRun(q, symbolSize, k, states', acts') && SendsBelow(states', acts', WINDOW_FLOOR_BLOCKS, |acts'|)
    ensures SentAndLost(q, symbolSize, k, states'[|acts'|], m, 0) && Abandons(acts') == Abandons(acts) + 1
  {
    hide Next; hide Enabled; hide Init; hide StepAt; hide Runnable; hide SentHist; hide SendsBelow; hide Abandons;
    var s, a := states[|acts|], Abandon(0);
    FullIsAbandoned(q, symbolSize, k, s, m);
    var s' := Next(q, s, a);
    OneStepMore(q, symbolSize, k, states, acts, a);
    BelowMore(states, acts, s', a, WINDOW_FLOOR_BLOCKS);
    AbandonsMore(acts, a);
    states', acts' := states + [s'], acts + [a];
  }

  lemma {:induction false} ScanAsks(t: Ticked, hi: nat, x: nat)
    requires t.recv.managers == map[] && t.recv.ready == map[] && x < hi
    ensures x in LostScan(t, 0, hi).recv.requested && LostScan(t, 0, hi).recv == t.recv.(requested := LostScan(t, 0, hi).recv.requested)
    decreases hi
  {
    ScanKeepsDelivery(t, 0, hi - 1);
    if x < hi - 1 {
      ScanAsks(t, hi - 1, x);
    }
  }

  lemma TickAsks(r: Recv, b: Ledger, link: LinkState, x: nat)
    requires r.managers == map[] && r.ready == map[] && r.nextDeliver == 0 && r.highestSeen == 0 && r.total == None
    requires x < r.highWater
    ensures var t := RecvTick(r, b, [], link, 0).recv; x in t.requested && t == r.(requested := t.requested)
  {
    var t := TickAll(r, b, [], link, 0);
    assert Upper(r) == r.highWater;
    ScanAsks(t, r.highWater, x);
  }

  lemma OldestGone(q: RaptorQ, symbolSize: nat, k: nat, s: Sys, m: nat, slot: nat)
    requires GoodGeometry(symbolSize, k) && SentAndLost(q, symbolSize, k, s, m, slot) && m > RetainBlocks(symbolSize, k)
    ensures 0 !in s.h.snd.payloads && Runnable(s)
  {
    GeometryOk(q, s.h);
    hide Contents; hide Sent; hide RetainBlocks; hide BlockLen; hide IndicesFit;
  }

  /** From the sends to the tick that asks for them. */
  lemma AskedAfterLoss(q: RaptorQ, symbolSize: nat, k: nat, s: Sys, m: nat, slot: nat, link: LinkState) returns (s1: Sys, s2: Sys, s3: Sys)
    requires SentAndLost(q, symbolSize, k, s, m, slot) && Runnable(s) && m > 0 && 0 !in s.h.snd.payloads
    ensures Enabled(s, AnnounceHighWater) && s1 == Next(q, s, AnnounceHighWater) && Runnable(s1)
    ensures Enabled(s1, ToReceiver(HighWater(m))) && s2 == Next(q, s1, ToReceiver(HighWater(m))) && Runnable(s2)
    ensures Enabled(s2, ControlTick([], link, 0)) && s3 == Next(q, s2, ControlTick([], link, 0))
    ensures IndicesFit(s3.h.log) && Unanswerable(s3, 0)
  {
    hide Perform; hide RecvTick; hide RecvSymbol; hide RecvReliable; hide BlockLen; hide HistInv; hide IndicesFit;
    s1 := s.(toRecv := {HighWater(m)});
    s2 := s1.(recv := s1.recv.(highWater := m));
    TickAsks(s2.recv, s2.budget, link, 0);
    s3 := TickSys(s2, [], link, 0);
  }

  /** For every geometry: one block more than the sender retains, in rounds of sixteen sends that fill the
      window and one abandon, all of them lost; the announced high water makes a tick ask for all, and the
      first request can no longer be served. No run does it with fewer abandons. */
  lemma UnanswerableArises(q: RaptorQ, symbolSize: nat, k: nat) returns (states: seq<Sys>, acts: seq<Act>)
    requires GoodGeometry(symbolSize, k)
    ensures TunnelRun(q, symbolSize, k, states, acts) && SendsBelow(states, acts, WINDOW_FLOOR_BLOCKS, |acts|)
    ensures IndicesFit(states[|acts|].h.log) && Unanswerable(states[|acts|], 0)
    ensures Abandons(acts) == RetainBlocks(symbolSize, k) / WINDOW_FLOOR_BLOCKS
  {
    var m, slot := RetainBlocks(symbolSize, k) + 1, 0;
    states, acts, slot := SendsLost(q, symbolSize, k, m);
    var s := states[|acts|];
    OldestGone(q, symbolSize, k, s, m, slot);
    var link := LinkState(0, 0, 0, Quiescent);
    hide StepAt; hide RetainBlocks; hide SentAndLost; hide IndicesFit; hide Runnable; hide Unanswerable;
    hide Init; hide Abandons; hide SendsBelow;
    var s1, s2, s3 := AskedAfterLoss(q, symbolSize, k, s, m, slot, link);
    hide Next; hide Enabled; hide TunnelRun;
    states, acts := StepQuietly(q, symbolSize, k, states, acts, AnnounceHighWater);
    states, acts := StepQuietly(q, symbolSize, k, states, acts, ToReceiver(HighWater(m)));
    states, acts := StepQuietly(q, symbolSize, k, states, acts, ControlTick([], link, 0));
  }

  lemma StepQuietly(q: RaptorQ, symbolSize: nat, k: nat, states: seq<Sys>, acts: seq<Act>, a: Act)
      returns (states': seq<Sys>, acts': seq<Act>)
    requires TunnelRun(q, symbolSize, k, states, acts) && Runnable(states[|acts|]) && Enabled(states[|acts|], a)
    requires SendsBelow(states, acts, WINDOW_FLOOR_BLOCKS, |acts|) && !a.Send? && !a.Abandon?
    ensures TunnelRun(q, symbolSize, k, states', acts') && SendsBelow(states', acts', WINDOW_FLOOR_BLOCKS, |acts'|)
    ensures states'[|acts'|] == Next(q, states[|acts|], a) && Abandons(acts') == Abandons(acts)
  {
    hide Next; hide Enabled; hide Init; hide StepAt; hide Runnable; hide SendsBelow; hide Abandons;
    var s' := Next(q, states[|acts|], a);
    OneStepMore(q, symbolSize, k, states, acts, a);
    BelowMore(states, acts, s', a, WINDOW_FLOOR_BLOCKS);
    AbandonsMore(acts, a);
    states', acts' := states + [s'], acts + [a];
  }
}
