/** The sending half of a tunnel: blocks are numbered, encoded and retained for repair, and let go
    when they are acknowledged or fall out of the retention window. */
module Sender {
  import opened Base
  import opened Geometry
  import opened Codec
  import opened Link
  import opened Budget

  const SENDER_RETAIN_BYTES: nat := 32 * 1024 * 1024
  const PROACTIVE_TOPUP_CAP: nat := 3

  /** A datagram before its header is serialised. */
  datatype Dgram = Dgram(block: nat, k: nat, esi: nat, data: bytes)

  datatype Encoder = Encoder(block: bytes, k: nat)

  datatype Snd = Snd(symbolSize: nat, k: nat, nextBlock: nat,
                     repairSent: map<nat, nat>, blockK: map<nat, nat>, encoders: map<nat, Encoder>,
                     payloads: map<nat, bytes>, oldestRetained: nat, sentAt: map<nat, nat>,
                     proactive: map<nat, nat>, acked: nat)

  /** A geometry both header fields can carry and one block can hold data in. */
  ghost predicate GoodGeometry(symbolSize: nat, k: nat) {
    1 <= symbolSize <= U16_MAX && 1 <= k <= U16_MAX && BlockLen(symbolSize, k) >= 5
  }

  lemma GeometryFitsU32(symbolSize: nat, k: nat)
    requires symbolSize <= U16_MAX && k <= U16_MAX
    ensures BlockLen(symbolSize, k) < Words(4)
  {
    MulMono(symbolSize, k, U16_MAX);
    WordSizes();
  }

  function NewSnd(symbolSize: nat, k: nat): Snd {
    Snd(symbolSize, Max(k, 1), 0, map[], map[], map[], map[], 0, map[], map[], 0)
  }

  function RetainBlocks(symbolSize: nat, k: nat): (r: nat)
    requires BlockLen(symbolSize, k) >= LEN_PREFIX
    ensures r >= 1
  {
    RetainFor(MaxPayload(symbolSize, k))
  }

  /** Blocks of this payload size the byte budget retains, each counted as two copies; at least one. */
  function RetainFor(blockPayload: nat): (r: nat)
    ensures r >= 1
  {
    Max(Quotient(SENDER_RETAIN_BYTES, 2 * Max(blockPayload, 1)), 1)
  }

  function Quotient(n: nat, d: nat): nat
    requires d > 0
  {
    n / d
  }

  lemma QuotientBelow(n: nat, d: nat)
    requires d > 0
    ensures Quotient(n, d) * d <= n
  {
    assert n == n / d * d + n % d;
  }

  /** Symbols `from .. from + count` of a block. */
  function Symbols(q: RaptorQ, e: Encoder, block: nat, from: nat, count: nat): (r: seq<Dgram>)
    ensures |r| == count
    ensures forall i :: 0 <= i < count ==> r[i] == Dgram(block, e.k, from + i, q.encode(e.block, from + i))
  {
    seq(count, (i: nat) => Dgram(block, e.k, from + i, q.encode(e.block, from + i)))
  }

  function DropIds(s: Snd, ids: set<nat>): Snd {
    s.(repairSent := s.repairSent - ids, blockK := s.blockK - ids, encoders := s.encoders - ids,
       payloads := s.payloads - ids, sentAt := s.sentAt - ids, proactive := s.proactive - ids)
  }

  /** The ids `lo .. hi`. */
  function Range(lo: nat, hi: nat): (r: set<nat>)
    ensures forall i :: i in r <==> lo <= i < hi
    decreases hi
  {
    if lo >= hi then {} else Range(lo, hi - 1) + {hi - 1}
  }

  lemma {:induction false} RangeSize(lo: nat, hi: nat)
    ensures |Range(lo, hi)| == Monus(hi, lo)
    decreases hi
  {
    if lo < hi {
      RangeSize(lo, hi - 1);
    }
  }

  function Evict(s: Snd): Snd
    requires BlockLen(s.symbolSize, s.k) >= LEN_PREFIX
  {
    var retain := RetainBlocks(s.symbolSize, s.k);
    if s.nextBlock <= retain then s
    else
      var cutoff := s.nextBlock - retain;
      DropIds(s, Range(s.oldestRetained, cutoff)).(oldestRetained := Max(s.oldestRetained, cutoff))
  }

  /** The encoder built for a payload under a tunnel's geometry. */
  function EncoderFor(symbolSize: nat, maxK: nat, payload: bytes): Encoder
    requires symbolSize > 0
  {
    var k := ActualK(|payload|, symbolSize, maxK);
    Encoder(PadBlock(payload, BlockLen(symbolSize, k)), k)
  }

  function Inserted(s: Snd, payload: bytes, repair: nat, now: nat): Snd
    requires s.symbolSize > 0
  {
    var b, e := s.nextBlock, EncoderFor(s.symbolSize, s.k, payload);
    s.(nextBlock := b + 1, repairSent := s.repairSent[b := repair], blockK := s.blockK[b := e.k],
       encoders := s.encoders[b := e], payloads := s.payloads[b := payload], sentAt := s.sentAt[b := now])
  }

  function EncodeOne(q: RaptorQ, s: Snd, payload: bytes, repair: nat, now: nat): (Snd, seq<Dgram>)
    requires s.symbolSize > 0 && BlockLen(s.symbolSize, s.k) >= LEN_PREFIX
  {
    var e := EncoderFor(s.symbolSize, s.k, payload);
    (Evict(Inserted(s, payload, repair, now)), Symbols(q, e, s.nextBlock, 0, e.k + repair))
  }

  function MoreRepair(q: RaptorQ, s: Snd, block: nat, extra: nat): (Snd, seq<Dgram>) {
    if block !in s.encoders then (s, [])
    else
      var already := if block in s.repairSent then s.repairSent[block] else 0;
      var e := s.encoders[block];
      (s.(repairSent := s.repairSent[block := already + extra]), Symbols(q, e, block, e.k + already, extra))
  }

  function Retire(s: Snd, block: nat): Snd {
    DropIds(s, {block}).(acked := s.acked + 1)
  }

  datatype TopUps = TopUps(snd: Snd, budget: Ledger, out: seq<(nat, nat)>)

  /** The proactive pass's verdict on one retained block. */
  function TopUpOne(t: TopUps, block: nat, now: nat, rtt: nat): TopUps {
    var s := t.snd;
    var count := if block in s.proactive then s.proactive[block] else 0;
    var actualK := if block in s.blockK then s.blockK[block] else s.k;
    var desired := Max(actualK / 4, 1);
    if block !in s.encoders || block !in s.sentAt || Monus(now, s.sentAt[block]) <= rtt
       || count >= PROACTIVE_TOPUP_CAP || !t.budget.Fits(desired)
    then t
    else TopUps(s.(proactive := s.proactive[block := count + 1]), t.budget.Reserve(desired), t.out + [(block, desired)])
  }

  /** The pass over the blocks in the order the hash map happens to yield them. */
  function TopUpAll(s: Snd, b: Ledger, order: seq<nat>, now: nat, rtt: nat): TopUps {
    if order == [] then TopUps(s, b, [])
    else TopUpOne(TopUpAll(s, b, order[..|order| - 1], now, rtt), order[|order| - 1], now, rtt)
  }

  function TopUpPass(s: Snd, b: Ledger, order: seq<nat>, now: nat, rtt: nat, link: LinkState): TopUps {
    if link.regime != Random then TopUps(s, b, []) else TopUpAll(s, b, order, now, rtt)
  }

  // ---------------------------------------------------------------- the class

  /** `BlockEncoder::emit`: the source symbols, then the repair symbols. */
  method Emit(q: RaptorQ, e: Encoder, block: nat, repairCount: nat) returns (out: seq<Dgram>)
    ensures out == Symbols(q, e, block, 0, e.k + repairCount)
  {
    out := [];
    var i := 0;
    while i < e.k
      invariant i <= e.k && out == Symbols(q, e, block, 0, i)
    {
      out := out + [Dgram(block, e.k, i, q.encode(e.block, i))];
      i := i + 1;
    }
    while i < e.k + repairCount
      invariant e.k <= i <= e.k + repairCount && out == Symbols(q, e, block, 0, i)
    {
      out := out + [Dgram(block, e.k, i, q.encode(e.block, i))];
      i := i + 1;
    }
  }

  class FecSender {
    const q: RaptorQ
    const symbolSize: nat
    const k: nat
    var nextBlock: nat
    var repairSent: map<nat, nat>
    var blockK: map<nat, nat>
    var encoders: map<nat, Encoder>
    var payloads: map<nat, bytes>
    var oldestRetained: nat
    var sentAt: map<nat, nat>
    var proactive: map<nat, nat>
    var acked: nat

    ghost function View(): Snd
      reads this
    {
      Snd(symbolSize, k, nextBlock, repairSent, blockK, encoders, payloads, oldestRetained, sentAt, proactive, acked)
    }

    constructor (q: RaptorQ, symbolSize: nat, k: nat)
      ensures View() == NewSnd(symbolSize, k) && this.q == q
    {
      this.q, this.symbolSize, this.k := q, symbolSize, Max(k, 1);
      nextBlock, oldestRetained, acked := 0, 0, 0;
      repairSent, blockK, encoders, payloads, sentAt, proactive := map[], map[], map[], map[], map[], map[];
    }

    method EncodeOneBlock(payload: bytes, repairCount: nat, now: nat) returns (out: seq<Dgram>)
      requires symbolSize > 0 && BlockLen(symbolSize, k) >= LEN_PREFIX
      modifies this
      ensures (View(), out) == EncodeOne(q, old(View()), payload, repairCount, now)
    {
      var blockId := nextBlock;
      nextBlock := nextBlock + 1;
      var actualK := ActualK(|payload|, symbolSize, k);
      var encoder := Encoder(PadBlock(payload, BlockLen(symbolSize, actualK)), actualK);
      out := Emit(q, encoder, blockId, repairCount);
      repairSent := repairSent[blockId := repairCount];
      blockK := blockK[blockId := actualK];
      encoders := encoders[blockId := encoder];
      payloads := payloads[blockId := payload];
      sentAt := sentAt[blockId := now];
      assert View() == Inserted(old(View()), payload, repairCount, now);
      EvictOldBlocks();
    }

    method EvictOldBlocks()
      requires BlockLen(symbolSize, k) >= LEN_PREFIX
      modifies this
      ensures View() == Evict(old(View()))
    {
      hide RetainBlocks;
      var retain := RetainBlocks(symbolSize, k);
      if nextBlock <= retain {
        return;
      }
      var cutoff := nextBlock - retain;
      RemoveRange(cutoff);
      oldestRetained := Max(oldestRetained, cutoff);
    }

    method RemoveRange(cutoff: nat)
      modifies this`repairSent, this`blockK, this`encoders, this`payloads, this`sentAt, this`proactive
      ensures View() == DropIds(old(View()), Range(old(oldestRetained), cutoff))
    {
      DropNone(View());
      hide DropIds;
      var id := oldestRetained;
      while id < cutoff
        invariant oldestRetained <= id <= Max(cutoff, oldestRetained)
        invariant View() == DropIds(old(View()), Range(oldestRetained, id))
      {
        Remove(id);
        DropTwice(old(View()), Range(oldestRetained, id), {id});
        assert Range(oldestRetained, id + 1) == Range(oldestRetained, id) + {id};
        id := id + 1;
      }
      assert Range(oldestRetained, id) == Range(oldestRetained, cutoff);
    }

    /** Forget everything retained for one block. */
    method Remove(block: nat)
      modifies this`repairSent, this`blockK, this`encoders, this`payloads, this`sentAt, this`proactive
      ensures View() == DropIds(old(View()), {block})
    {
      encoders := encoders - {block};
      repairSent := repairSent - {block};
      blockK := blockK - {block};
      payloads := payloads - {block};
      sentAt := sentAt - {block};
      proactive := proactive - {block};
    }

    method AdditionalRepair(block: nat, extra: nat) returns (out: seq<Dgram>)
      modifies this`repairSent
      ensures (View(), out) == MoreRepair(q, old(View()), block, extra)
    {
      if block !in encoders {
        return [];
      }
      var already := if block in repairSent then repairSent[block] else 0;
      out := Symbols(q, encoders[block], block, encoders[block].k + already, extra);
      repairSent := repairSent[block := already + extra];
    }

    /** Serves a `ReliableRequest`. */
    method ReliablePayload(block: nat) returns (r: Option<bytes>)
      ensures r.Some? <==> block in payloads
      ensures r.Some? ==> r.value == payloads[block]
    {
      r := if block in payloads then Some(payloads[block]) else None;
    }

    method RetireBlock(block: nat)
      modifies this
      ensures View() == Retire(old(View()), block)
    {
      Remove(block);
      acked := acked + 1;
    }

    method TopUp(block: nat, now: nat, rtt: nat, budget: RepairBudget) returns (extra: Option<nat>)
      requires block in sentAt
      modifies this`proactive, budget`inFlight
      ensures forall out :: (
        TopUpOne(TopUps(old(View()), old(budget.View()), out), block, now, rtt)
        == TopUps(View(), budget.View(), if extra.Some? then out + [(block, extra.value)] else out))
    {
      var count := if block in proactive then proactive[block] else 0;
      if block !in encoders || Monus(now, sentAt[block]) <= rtt || count >= PROACTIVE_TOPUP_CAP {
        return None;
      }
      var actualK := if block in blockK then blockK[block] else k;
      var desired := Max(actualK / 4, 1);
      var ok := budget.TryReserve(desired);
      if !ok {
        return None;
      }
      proactive := proactive[block := count + 1];
      extra := Some(desired);
    }

    /** `order` is the order in which the hash map yielded its keys. */
    method ProactiveTopups(now: nat, rtt: nat, budget: RepairBudget, link: LinkState)
      returns (out: seq<(nat, nat)>, ghost order: seq<nat>)
      modifies this`proactive, budget`inFlight
      ensures (set b | b in order) <= old(sentAt.Keys)
      ensures link.regime == Random ==> forall b :: b in old(sentAt) ==> b in order
      ensures forall i, j :: 0 <= i < j < |order| ==> order[i] != order[j]
      ensures TopUps(View(), budget.View(), out)
           == TopUpPass(old(View()), old(budget.View()), order, now, rtt, link)
    {
      out, order := [], [];
      if link.regime != Random {
        return;
      }
      var todo := sentAt.Keys;
      while todo != {}
        invariant todo <= sentAt.Keys && sentAt == old(sentAt)
        invariant forall b :: b in sentAt.Keys ==> (b in todo <==> b !in order)
        invariant (set b | b in order) <= sentAt.Keys
        invariant forall i, j :: 0 <= i < j < |order| ==> order[i] != order[j]
        invariant TopUps(View(), budget.View(), out) == TopUpAll(old(View()), old(budget.View()), order, now, rtt)
        decreases todo
      {
        var block :| block in todo;
        todo := todo - {block};
        var extra := TopUp(block, now, rtt, budget);
        if extra.Some? {
          out := out + [(block, extra.value)];
        }
        assert (order + [block])[..|order|] == order;
        order := order + [block];
      }
    }
  }

  lemma DropNone(s: Snd)
    ensures DropIds(s, {}) == s
  {
    assert s.repairSent - {} == s.repairSent && s.blockK - {} == s.blockK && s.encoders - {} == s.encoders;
    assert s.payloads - {} == s.payloads && s.sentAt - {} == s.sentAt && s.proactive - {} == s.proactive;
  }

  lemma DropTwice(s: Snd, a: set<nat>, b: set<nat>)
    ensures DropIds(DropIds(s, a), b) == DropIds(s, a + b)
  {
    assert (s.repairSent - a) - b == s.repairSent - (a + b);
    assert (s.blockK - a) - b == s.blockK - (a + b);
    assert (s.encoders - a) - b == s.encoders - (a + b);
    assert (s.payloads - a) - b == s.payloads - (a + b);
    assert (s.sentAt - a) - b == s.sentAt - (a + b);
    assert (s.proactive - a) - b == s.proactive - (a + b);
  }
}
