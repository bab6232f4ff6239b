/** What holds in every reachable state of a tunnel, over every run of sender, network and receiver. */
module TunnelRuns {
  import opened Base
  import opened Geometry
  import opened Codec
  import opened Link
  import opened Budget
  import opened Signals
  import opened Decoder
  import opened Sender
  import opened SenderHistory
  import opened Receiver
  import opened ReceiverSafety
  import opened TickSafety
  import opened Tunnel
  import opened TunnelSafety

  /** Step `i` of a run is one the state before it allows, and makes the state after it. */
  ghost predicate StepAt(q: RaptorQ, states: seq<Sys>, acts: seq<Act>, i: nat)
    requires |states| == |acts| + 1 && i < |acts|
  {
    Runnable(states[i]) && Enabled(states[i], acts[i]) && states[i + 1] == Next(q, states[i], acts[i])
  }

  /** A run: the states passed through and the steps taken between them. */
  ghost predicate Run(q: RaptorQ, states: seq<Sys>, acts: seq<Act>) {
    |states| == |acts| + 1 && forall i: nat :: i < |acts| ==> StepAt(q, states, acts, i)
  }

  /** A run of a tunnel from its start. */
  ghost predicate TunnelRun(q: RaptorQ, symbolSize: nat, k: nat, states: seq<Sys>, acts: seq<Act>) {
    Run(q, states, acts) && states[0] == Init(symbolSize, k)
  }

  ghost predicate Reachable(q: RaptorQ, symbolSize: nat, k: nat, s: Sys) {
    exists states, acts :: TunnelRun(q, symbolSize, k, states, acts) && states[|acts|] == s
  }

  /** Taking the steps `acts` one after another leads from `s` to `s'`. */
  ghost predicate Leads(q: RaptorQ, s: Sys, acts: seq<Act>, s': Sys) {
    exists states :: Run(q, states, acts) && states[0] == s && states[|acts|] == s'
  }

  lemma LeadsNowhere(q: RaptorQ, s: Sys)
    ensures Leads(q, s, [], s)
  {
    hide StepAt;
    var states := [s];
    assert Run(q, states, []) && states[0] == s;
  }

  lemma LeadsOne(q: RaptorQ, s: Sys, a: Act)
    requires Runnable(s) && Enabled(s, a)
    ensures Leads(q, s, [a], Next(q, s, a))
  {
    hide Next; hide Runnable; hide Enabled;
    var states, acts := [s, Next(q, s, a)], [a];
    assert StepAt(q, states, acts, 0);
    assert Run(q, states, acts) && states[0] == s;
  }

  lemma LeadsOn(q: RaptorQ, s: Sys, a: seq<Act>, mid: Sys, b: seq<Act>, s': Sys)
    requires Leads(q, s, a, mid) && Leads(q, mid, b, s')
    ensures Leads(q, s, a + b, s')
  {
    var first :| Run(q, first, a) && first[0] == s && first[|a|] == mid;
    var second :| Run(q, second, b) && second[0] == mid && second[|b|] == s';
    RunsJoin(q, first, a, second, b);
  }

  lemma RunsJoin(q: RaptorQ, first: seq<Sys>, a: seq<Act>, second: seq<Sys>, b: seq<Act>)
    requires Run(q, first, a) && Run(q, second, b) && first[|a|] == second[0]
    ensures Run(q, first + second[1..], a + b)
  {
    hide Next; hide Runnable; hide Enabled;
    var states, acts := first + second[1..], a + b;
    forall i: nat | i < |acts|
      ensures StepAt(q, states, acts, i)
    {
      if i < |a| {
        assert StepAt(q, first, a, i);
      } else {
        assert StepAt(q, second, b, i - |a|);
      }
    }
  }

  lemma LogOnlyGrows(q: RaptorQ, s: Sys, a: Act)
    requires Runnable(s) && Enabled(s, a)
    ensures s.h.log <= Next(q, s, a).h.log && s.h.produced <= Next(q, s, a).h.produced
  {}

  lemma {:induction false} LogsOnlyGrow(q: RaptorQ, states: seq<Sys>, acts: seq<Act>, i: nat, j: nat)
    requires Run(q, states, acts) && i <= j <= |acts|
    ensures states[i].h.log <= states[j].h.log
    decreases j - i
  {
    if i < j {
      assert StepAt(q, states, acts, i);
      hide Run;
      LogOnlyGrows(q, states[i], acts[i]);
      hide Next; hide Runnable; hide Enabled;
      LogsOnlyGrow(q, states, acts, i + 1, j);
    }
  }

  lemma FitBefore(log: seq<Dgram>, log': seq<Dgram>)
    requires IndicesFit(log') && log <= log'
    ensures IndicesFit(log)
  {
    forall d | d in log ensures d.esi < ESI_LIMIT {
      var i :| 0 <= i < |log| && log[i] == d;
      assert log'[i] == d;
    }
  }

  lemma FitAt(q: RaptorQ, states: seq<Sys>, acts: seq<Act>, n: nat)
    requires Run(q, states, acts) && n <= |acts| && IndicesFit(states[|acts|].h.log)
    ensures IndicesFit(states[n].h.log)
  {
    hide StepAt; hide IndicesFit;
    LogsOnlyGrow(q, states, acts, n, |acts|);
    FitBefore(states[n].h.log, states[|acts|].h.log);
  }

  /** The invariant holds along every run whose symbol indices fit the header. */
  lemma {:induction false} RunInv(q: RaptorQ, states: seq<Sys>, acts: seq<Act>, n: nat)
    requires Sound(q) && Run(q, states, acts) && Inv(q, states[0]) && n <= |acts| && IndicesFit(states[|acts|].h.log)
    ensures Inv(q, states[n])
  {
    hide Next; hide Runnable; hide Enabled; hide Inv; hide Sound; hide IndicesFit;
    if n > 0 {
      RunInv(q, states, acts, n - 1);
      FitAt(q, states, acts, n - 1);
      assert StepAt(q, states, acts, n - 1);
      NextKeeps(q, states[n - 1], acts[n - 1]);
    }
  }

  /** ... and so at every point of a tunnel's life. */
  lemma TunnelInv(q: RaptorQ, symbolSize: nat, k: nat, states: seq<Sys>, acts: seq<Act>, n: nat)
    requires Sound(q) && GoodGeometry(symbolSize, k) && TunnelRun(q, symbolSize, k, states, acts)
    requires n <= |acts| && IndicesFit(states[|acts|].h.log)
    ensures Inv(q, states[n])
  {
    hide Inv; hide Sound; hide Run; hide IndicesFit;
    InitHolds(q, symbolSize, k);
    RunInv(q, states, acts, n);
  }

  lemma ReachableInv(q: RaptorQ, symbolSize: nat, k: nat, s: Sys)
    requires Sound(q) && GoodGeometry(symbolSize, k) && Reachable(q, symbolSize, k, s) && IndicesFit(s.h.log)
    ensures Inv(q, s)
  {
    hide Inv; hide Sound; hide StepAt; hide IndicesFit;
    var states, acts :| TunnelRun(q, symbolSize, k, states, acts) && states[|acts|] == s;
    TunnelInv(q, symbolSize, k, states, acts, |acts|);
  }

  // ---------------------------------------------------------------- safety

  /** End to end: whatever the network does, the bytes handed to the local socket are the payloads of
      the blocks below the delivery floor, in order, each once and unaltered; everything waiting is its
      block's payload; and the floor never passes what was sent. */
  lemma InOrderDelivery(q: RaptorQ, symbolSize: nat, k: nat, s: Sys)
    requires Sound(q) && GoodGeometry(symbolSize, k) && Reachable(q, symbolSize, k, s) && IndicesFit(s.h.log)
    ensures s.recv.nextDeliver <= |s.h.produced| == s.h.snd.nextBlock
    ensures s.output == Concat(s.h.produced[..s.recv.nextDeliver])
    ensures forall b :: b in s.recv.ready ==> b < |s.h.produced| && s.recv.ready[b] == s.h.produced[b]
  {
    hide Sound; hide Reachable; hide Concat; hide AcksOk; hide ManagersOk; hide Contents; hide Sent;
    ReachableInv(q, symbolSize, k, s);
  }

  /** The downstream loop's exit test: once the delivered count reaches the announced total, the
      whole stream has been handed over, and the sender can add nothing to it. */
  lemma ExitMeansComplete(q: RaptorQ, symbolSize: nat, k: nat, s: Sys)
    requires Sound(q) && GoodGeometry(symbolSize, k) && Reachable(q, symbolSize, k, s) && IndicesFit(s.h.log)
    requires s.recv.total.Some? && s.recv.nextDeliver >= s.recv.total.value
    ensures s.eof && s.output == Concat(s.h.produced)
    ensures forall p, repair, now :: !Enabled(s, Send(p, repair, now))
  {
    hide Sound; hide Reachable; hide Concat; hide AcksOk; hide ManagersOk; hide HistInv;
    ReachableInv(q, symbolSize, k, s);
    InOrderDelivery(q, symbolSize, k, s);
    assert s.h.produced[..|s.h.produced|] == s.h.produced;
  }

  /** Every NACK and reliable request names a block the sender has produced, and every credit is true. */
  lemma AsksNameProducedBlocks(q: RaptorQ, symbolSize: nat, k: nat, s: Sys, sig: Signal)
    requires Sound(q) && GoodGeometry(symbolSize, k) && Reachable(q, symbolSize, k, s) && IndicesFit(s.h.log)
    requires sig in s.toSend
    ensures sig.Nack? ==> sig.block < s.h.snd.nextBlock && sig.need > 0
    ensures sig.ReliableRequest? ==> sig.block < s.h.snd.nextBlock
    ensures sig.Credit? ==> sig.delivered <= s.recv.nextDeliver
    ensures sig.BlockAck? ==> sig.block < s.h.snd.nextBlock && IsComplete(s.recv, sig.block)
  {
    hide Sound; hide Reachable; hide Concat; hide ManagersOk; hide Contents; hide Sent;
    ReachableInv(q, symbolSize, k, s);
    if sig.BlockAck? { AckedBlockComplete(q, s, sig.block); }
  }

  /** A block is acknowledged, or its acknowledgement is queued, exactly when its bytes have arrived
      in full; the sender lets go of no block before that. */
  lemma AcksExactlyComplete(q: RaptorQ, symbolSize: nat, k: nat, s: Sys, b: nat)
    requires Sound(q) && GoodGeometry(symbolSize, k) && Reachable(q, symbolSize, k, s) && IndicesFit(s.h.log)
    ensures BlockAck(b) in s.toSend || b in s.recv.pendingAcks <==> IsComplete(s.recv, b)
    ensures b in s.h.retired ==> IsComplete(s.recv, b)
  {
    hide Sound; hide Reachable; hide Concat; hide ManagersOk; hide HistInv; hide RecvOk; hide IsComplete;
    ReachableInv(q, symbolSize, k, s);
    if BlockAck(b) in s.toSend { assert BlockAck(b).block in Acked(s.toSend); }
  }

  /** So a block the receiver still lacks is retained exactly while it is inside the retention window,
      and a reliable request for it is answered with the bytes that were sent. */
  lemma MissingBlockAnswered(q: RaptorQ, symbolSize: nat, k: nat, s: Sys, b: nat)
    requires Sound(q) && GoodGeometry(symbolSize, k) && Reachable(q, symbolSize, k, s) && IndicesFit(s.h.log)
    requires b < |s.h.produced| && !IsComplete(s.recv, b)
    ensures s.h.snd.symbolSize == symbolSize && s.h.snd.k == k
    ensures b in s.h.snd.payloads <==> b + RetainBlocks(symbolSize, k) >= |s.h.produced|
    ensures b in s.h.snd.payloads ==>
      s.h.snd.payloads[b] == s.h.produced[b]
      && ReliableData(b, s.h.produced[b]) in SenderGets(q, s, ReliableRequest(b)).toRecv
  {
    hide Sound; hide Reachable; hide Inv; hide RetainBlocks;
    ReachableInv(q, symbolSize, k, s);
    GeometryFixed(q, symbolSize, k, s);
    RetainedWhen(q, s, b);
  }

  lemma RetainedWhen(q: RaptorQ, s: Sys, b: nat)
    requires Inv(q, s) && b < |s.h.produced| && !IsComplete(s.recv, b)
    ensures Runnable(s) && b !in s.h.retired
    ensures b in s.h.snd.payloads <==> b + RetainBlocks(s.h.snd.symbolSize, s.h.snd.k) >= |s.h.produced|
    ensures b in s.h.snd.payloads ==> s.h.snd.payloads[b] == s.h.produced[b]
  {
    RunnableOf(s);
    hide RetainBlocks; hide BlockLen; hide ReceiverSide; hide Sent; hide EncoderFor; hide Sensible; hide Truthful;
    assert b !in s.h.retired;
  }

  lemma GeometryKept(q: RaptorQ, s: Sys, a: Act)
    requires Runnable(s) && Enabled(s, a)
    ensures Next(q, s, a).h.snd.symbolSize == s.h.snd.symbolSize && Next(q, s, a).h.snd.k == s.h.snd.k
  {
    match a
    case Send(p, repair, now) => SameGeometry(q, s.h, Encode(p, repair, now));
    case ToSender(sig) =>
      match sig {
        case Nack(b, _, need) => SameGeometry(q, s.h, AnswerNack(b, need));
        case BlockAck(b) => SameGeometry(q, s.h, OnAck(b));
        case _ =>
      }
    case ProactiveTick(order, now, rtt, link) => SameGeometry(q, s.h, Spurt(order, now, rtt, s.budget, link));
    case _ =>
  }

  lemma {:induction false} GeometryAlong(q: RaptorQ, states: seq<Sys>, acts: seq<Act>, n: nat)
    requires Run(q, states, acts) && n <= |acts|
    ensures states[n].h.snd.symbolSize == states[0].h.snd.symbolSize && states[n].h.snd.k == states[0].h.snd.k
  {
    hide Next; hide Runnable; hide Enabled;
    if n > 0 {
      GeometryAlong(q, states, acts, n - 1);
      assert StepAt(q, states, acts, n - 1);
      GeometryKept(q, states[n - 1], acts[n - 1]);
    }
  }

  lemma GeometryFixed(q: RaptorQ, symbolSize: nat, k: nat, s: Sys)
    requires k >= 1 && Reachable(q, symbolSize, k, s)
    ensures s.h.snd.symbolSize == symbolSize && s.h.snd.k == k
  {
    hide StepAt;
    var states, acts :| TunnelRun(q, symbolSize, k, states, acts) && states[|acts|] == s;
    GeometryAlong(q, states, acts, |acts|);
  }

  /** Credit accounting, for any mix of late, repeated and reordered credits: the sender's view of
      progress never runs ahead of the receiver's, and its slot counts at most what is sent and
      uncredited, and falls short of that by at most what it abandoned. */
  lemma CreditAccounting(q: RaptorQ, symbolSize: nat, k: nat, s: Sys)
    requires Sound(q) && GoodGeometry(symbolSize, k) && Reachable(q, symbolSize, k, s) && IndicesFit(s.h.log)
    ensures s.credited <= s.recv.nextDeliver <= s.h.snd.nextBlock
    ensures s.slot + s.credited <= s.h.snd.nextBlock <= s.slot + s.credited + s.abandoned
  {
    hide Sound; hide Reachable; hide ReceiverSide; hide Contents; hide Sent; hide Truthful; hide Sensible;
    ReachableInv(q, symbolSize, k, s);
  }

  /** The repair ledger: the budget counts what live managers hold, what was stranded, and what other
      tunnels hold, so no release can wrap; and it never exceeds the largest ceiling there has been. */
  lemma RepairLedger(q: RaptorQ, symbolSize: nat, k: nat, s: Sys)
    requires Sound(q) && GoodGeometry(symbolSize, k) && Reachable(q, symbolSize, k, s) && IndicesFit(s.h.log)
    ensures s.budget.inFlight == Held(s.recv) + s.stranded + s.others
    ensures s.budget.inFlight <= s.peak
    ensures forall b :: b in s.recv.managers ==> s.recv.managers[b].reserved <= s.budget.inFlight
  {
    hide Sound; hide Reachable; hide ReceiverSide; hide HistInv; hide Truthful; hide Sensible; hide Held;
    ReachableInv(q, symbolSize, k, s);
    forall b | b in s.recv.managers ensures s.recv.managers[b].reserved <= s.budget.inFlight {
      HeldPart(s.recv, b);
    }
  }

  /** The header truncates nothing and no two datagrams of a tunnel carry the same symbol. */
  lemma DatagramsDistinct(q: RaptorQ, symbolSize: nat, k: nat, s: Sys, i: nat, j: nat)
    requires Sound(q) && GoodGeometry(symbolSize, k) && Reachable(q, symbolSize, k, s) && IndicesFit(s.h.log)
    requires i < j < |s.h.log|
    ensures s.h.log[i].block != s.h.log[j].block || s.h.log[i].esi % ESI_LIMIT != s.h.log[j].esi % ESI_LIMIT
  {
    hide Sound; hide Reachable; hide ReceiverSide; hide Retention; hide Contents; hide Truthful; hide Sensible;
    hide AllGenuine; hide ExactIndices; hide NeverTwice; hide IndicesFit; hide RetiredComplete; hide GoodGeometry;
    ReachableInv(q, symbolSize, k, s);
    DistinctOnWire(s.h.log, i, j);
  }

  lemma DistinctOnWire(log: seq<Dgram>, i: nat, j: nat)
    requires NeverTwice(log) && IndicesFit(log) && i < j < |log|
    ensures log[i].block != log[j].block || log[i].esi % ESI_LIMIT != log[j].esi % ESI_LIMIT
  {
    assert log[i] in log && log[j] in log;
  }

  // ---------------------------------------------------------------- no invisible hole, no spam

  /** After a control tick no undelivered block known to exist is invisible: each has a manager, is
      waiting in `ready`, or has been asked for. Known are the blocks up to and including the highest
      seen, and those below the announced high water or total. */
  lemma NoInvisibleHole(q: RaptorQ, symbolSize: nat, k: nat, s: Sys, order: seq<nat>, link: LinkState, now: nat, b: nat)
    requires Sound(q) && GoodGeometry(symbolSize, k) && Reachable(q, symbolSize, k, s) && IndicesFit(s.h.log)
    requires Enumerates(order, s.recv.managers) && s.recv.nextDeliver <= b < Upper(s.recv)
    ensures var r := TickSys(s, order, link, now).recv; b in r.managers || b in r.ready || b in r.requested
  {
    hide Sound; hide Reachable; hide HistInv; hide Truthful; hide Sensible; hide AcksOk; hide Concat; hide ManagersOk;
    ReachableInv(q, symbolSize, k, s);
    UpperTrue(q, s.h.produced, s.recv);
    hide Upper; hide RecvTick; hide Held;
    TickSafe(q, s.h.produced, s.recv, s.budget, order, link, now);
    assert !Invisible(RecvTick(s.recv, s.budget, order, link, now).recv, b);
  }

  /** The steps that end a reliable request: the request being dropped, or its answer arriving. */
  predicate EndsRequest(a: Act, b: nat) {
    a == Unmark(b) || (a.ToReceiver? && a.signal.ReliableData? && a.signal.block == b)
  }

  predicate Asks(s: Sys, a: Act, b: nat) {
    a.ControlTick? && b in Requests(RecvTick(s.recv, s.budget, a.order, a.link, a.now).signals)
  }

  lemma RequestStays(q: RaptorQ, s: Sys, a: Act, b: nat)
    requires Inv(q, s) && Enabled(s, a) && Runnable(s) && b in s.recv.requested && !EndsRequest(a, b)
    ensures b in Next(q, s, a).recv.requested && !Asks(s, a, b)
  {
    match a
    case Arrive(i, now) =>
      hide Inv;
      SymbolKeepsRequests(q, s.recv, s.budget, s.h.log[i], now);
    case ToReceiver(sig) =>
      hide Inv;
      if sig.ReliableData? { ReliableClears(s.recv, sig.block, sig.data); }
    case ControlTick(order, link, now) =>
      hide Inv;
      TickKeepsRequests(q, s, order, link, now, b);
    case _ => hide Inv;
  }

  lemma TickKeepsRequests(q: RaptorQ, s: Sys, order: seq<nat>, link: LinkState, now: nat, b: nat)
    requires Inv(q, s) && Enumerates(order, s.recv.managers)
    ensures var t := RecvTick(s.recv, s.budget, order, link, now);
      (b in Requests(t.signals) ==> b !in s.recv.requested) && AskedOnce(t.signals)
      && (b in t.recv.requested <==> b in s.recv.requested || b in Requests(t.signals))
  {
    hide HistInv; hide Truthful; hide Sensible; hide AcksOk; hide Concat; hide RecvTick; hide Held; hide ManagersOk;
    hide AskedOnce; hide Upper; hide Requests; hide AskOk;
    UpperTrue(q, s.h.produced, s.recv);
    TickSafe(q, s.h.produced, s.recv, s.budget, order, link, now);
  }

  lemma SymbolKeepsRequests(q: RaptorQ, r: Recv, bud: Ledger, d: Dgram, now: nat)
    ensures RecvSymbol(q, r, bud, d.block, d.k % 0x1_0000, Symbol(d.esi % ESI_LIMIT, d.data), now).recv.requested == r.requested
  {
    var r1 := r.(highestSeen := Max(r.highestSeen, d.block));
    var step := SymbolStep(q, ManagerFor(r1, d.block, d.k % 0x1_0000), bud, now, Symbol(d.esi % ESI_LIMIT, d.data));
    FlushKeeps(Routed(r1, d.block, step));
    hide SymbolStep; hide ManagerFor; hide Flush;
  }

  lemma ReliableClears(r: Recv, block: nat, data: bytes)
    ensures RecvReliable(r, block, data).recv.requested == if block < r.nextDeliver then r.requested else r.requested - {block}
  {
    FlushKeeps(Completed(r, block, data));
    hide Flush;
  }

  /** A tick that asks for a block marks it as asked, and asks for it once. */
  lemma AskingMarks(q: RaptorQ, s: Sys, a: Act, b: nat)
    requires Inv(q, s) && Runnable(s) && Enabled(s, a) && Asks(s, a, b)
    ensures b !in s.recv.requested && b in Next(q, s, a).recv.requested
    ensures AskedOnce(RecvTick(s.recv, s.budget, a.order, a.link, a.now).signals)
  {
    hide Inv; hide AskedOnce; hide Requests; hide RecvTick;
    TickKeepsRequests(q, s, a.order, a.link, a.now, b);
  }

  lemma {:induction false} RequestLasts(q: RaptorQ, symbolSize: nat, k: nat, states: seq<Sys>, acts: seq<Act>, i: nat, j: nat, b: nat)
    requires Sound(q) && GoodGeometry(symbolSize, k) && TunnelRun(q, symbolSize, k, states, acts)
    requires IndicesFit(states[|acts|].h.log) && i <= j <= |acts| && b in states[i].recv.requested
    requires forall n: nat :: i <= n < j ==> !EndsRequest(acts[n], b)
    ensures b in states[j].recv.requested
    decreases j - i
  {
    hide Inv; hide Sound; hide Runnable; hide Enabled; hide IndicesFit; hide Asks; hide EndsRequest; hide Next;
    if i < j {
      RequestLasts(q, symbolSize, k, states, acts, i, j - 1, b);
      TunnelInv(q, symbolSize, k, states, acts, j - 1);
      assert StepAt(q, states, acts, j - 1);
      RequestStays(q, states[j - 1], acts[j - 1], b);
    }
  }

  /** Between two reliable requests for one block lies a dropped request or an answer: of two steps
      that ask for the block, some step between them ended the first request. */
  lemma NoRequestSpam(q: RaptorQ, symbolSize: nat, k: nat, states: seq<Sys>, acts: seq<Act>, i: nat, j: nat, b: nat)
    requires Sound(q) && GoodGeometry(symbolSize, k) && TunnelRun(q, symbolSize, k, states, acts)
    requires IndicesFit(states[|acts|].h.log) && i < j < |acts|
    requires Asks(states[i], acts[i], b) && Asks(states[j], acts[j], b)
    ensures exists n: nat :: i < n < j && EndsRequest(acts[n], b)
  {
    hide Inv; hide Sound; hide Runnable; hide Enabled; hide IndicesFit; hide Next; hide Init;
    assert StepAt(q, states, acts, i) && StepAt(q, states, acts, j);
    TunnelInv(q, symbolSize, k, states, acts, i);
    TunnelInv(q, symbolSize, k, states, acts, j);
    AskingMarks(q, states[i], acts[i], b);
    AskingMarks(q, states[j], acts[j], b);
    hide Asks; hide EndsRequest;
    if forall n: nat :: i < n < j ==> !EndsRequest(acts[n], b) {
      RequestLasts(q, symbolSize, k, states, acts, i + 1, j, b);
    }
  }

  // ---------------------------------------------------------------- when a mark is cleared

  /** The steps that clear a block's mark: its unmarking, and its reliable copy arriving before the
      block is delivered. Decoding it from symbols does not. */
  predicate ClearsMark(s: Sys, a: Act, b: nat) {
    a == Unmark(b) || (a.ToReceiver? && a.signal.ReliableData? && a.signal.block == b && b >= s.recv.nextDeliver)
  }

  /** Exactly when the mark of an asked-for block is cleared. */
  lemma MarkClearedExactlyWhen(q: RaptorQ, s: Sys, a: Act, b: nat)
    requires Inv(q, s) && Enabled(s, a) && Runnable(s) && b in s.recv.requested
    ensures b !in Next(q, s, a).recv.requested <==> ClearsMark(s, a, b)
  {
    match a
    case Arrive(i, now) =>
      hide Inv;
      SymbolKeepsRequests(q, s.recv, s.budget, s.h.log[i], now);
    case ToReceiver(sig) =>
      hide Inv;
      if sig.ReliableData? { ReliableClears(s.recv, sig.block, sig.data); }
    case ControlTick(order, link, now) =>
      hide Inv;
      TickKeepsRequests(q, s, order, link, now, b);
    case _ => hide Inv;
  }

  /** So over every run a block that was asked for and then decoded from symbols and delivered stays
      marked until it is unmarked, however many reliable copies still arrive. */
  lemma {:induction false} MarkOutlivesDelivery(q: RaptorQ, symbolSize: nat, k: nat, states: seq<Sys>, acts: seq<Act>,
                                                i: nat, j: nat, b: nat)
    requires Sound(q) && GoodGeometry(symbolSize, k) && TunnelRun(q, symbolSize, k, states, acts)
    requires IndicesFit(states[|acts|].h.log) && i <= j <= |acts|
    requires b in states[i].recv.requested && b < states[i].recv.nextDeliver
    requires forall n: nat :: i <= n < j ==> acts[n] != Unmark(b)
    ensures b in states[j].recv.requested && b < states[j].recv.nextDeliver
    decreases j - i
  {
    hide Inv; hide Sound; hide Runnable; hide Enabled; hide IndicesFit; hide Next;
    if i < j {
      MarkOutlivesDelivery(q, symbolSize, k, states, acts, i, j - 1, b);
      TunnelInv(q, symbolSize, k, states, acts, j - 1);
      assert StepAt(q, states, acts, j - 1);
      MarkClearedExactlyWhen(q, states[j - 1], acts[j - 1], b);
      FloorOnlyRises(q, states[j - 1], acts[j - 1]);
    }
  }

  lemma FloorOnlyRises(q: RaptorQ, s: Sys, a: Act)
    requires Enabled(s, a) && Runnable(s)
    ensures Next(q, s, a).recv.nextDeliver >= s.recv.nextDeliver
  {
    hide Perform; hide TopUpPass;
    match a
    case Arrive(i, now) => SymbolRaises(q, s.recv, s.budget, s.h.log[i], now);
    case ToReceiver(sig) => if sig.ReliableData? { FlushKeeps(Completed(s.recv, sig.block, sig.data)); }
    case ControlTick(order, link, now) => TickKeepsDelivery(s.recv, s.budget, order, link, now);
    case _ =>
  }

  lemma SymbolRaises(q: RaptorQ, r: Recv, bud: Ledger, d: Dgram, now: nat)
    ensures RecvSymbol(q, r, bud, d.block, d.k % 0x1_0000, Symbol(d.esi % ESI_LIMIT, d.data), now).recv.nextDeliver >= r.nextDeliver
  {
    var r1 := r.(highestSeen := Max(r.highestSeen, d.block));
    var step := SymbolStep(q, ManagerFor(r1, d.block, d.k % 0x1_0000), bud, now, Symbol(d.esi % ESI_LIMIT, d.data));
    FlushKeeps(Routed(r1, d.block, step));
    hide SymbolStep; hide ManagerFor; hide Flush;
  }

  lemma {:induction false} PassKeepsDelivery(r: Recv, b: Ledger, order: seq<nat>, link: LinkState, now: nat)
    ensures var t := TickAll(r, b, order, link, now).recv; t == r.(managers := t.managers, requested := t.requested)
  {
    hide TickStep;
    if order != [] {
      PassKeepsDelivery(r, b, order[..|order| - 1], link, now);
    }
  }

  lemma {:induction false} ScanKeepsDelivery(t: Ticked, lo: nat, hi: nat)
    ensures var r := LostScan(t, lo, hi).recv; r == t.recv.(requested := r.requested)
    decreases hi
  {
    if lo < hi {
      ScanKeepsDelivery(t, lo, hi - 1);
    }
  }

  /** A tick touches managers and marks, and nothing that is delivered or about to be. */
  lemma TickKeepsDelivery(r: Recv, b: Ledger, order: seq<nat>, link: LinkState, now: nat)
    ensures var r' := RecvTick(r, b, order, link, now).recv; r' == r.(managers := r'.managers, requested := r'.requested)
  {
    var t := TickAll(r, b, order, link, now);
    PassKeepsDelivery(r, b, order, link, now);
    ScanKeepsDelivery(t, t.recv.nextDeliver, Upper(t.recv));
  }
}
