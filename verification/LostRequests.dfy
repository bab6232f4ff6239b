/** Both directions of a tunnel, and what becomes of a reliable request the sender cannot serve. The
    task that drops it unmarks the block so that a later tick asks again; but it unmarks it at its own
    end's receiver, whose block numbers belong to the other direction. */
module LostRequests {
  import opened Base
  import opened Geometry
  import opened Codec
  import opened Link
  import opened Signals
  import opened Decoder
  import opened Sender
  import opened SenderHistory
  import opened Receiver
  import opened ReceiverSafety
  import opened TickSafety
  import opened Tunnel
  import opened TunnelSafety
  import opened TunnelRuns
  import opened Convergence

  /** `ab` carries the first end's bytes to the second, `ba` the second's to the first. */
  datatype Duplex = Duplex(ab: Sys, ba: Sys)

  /** A step of either direction, or an end that drops a request it was sent. */
  datatype Move = Ab(act: Act) | Ba(act: Act) | DropAtA(block: nat) | DropAtB(block: nat)

  /** The receivers' own `Unmark` happens only when the task beside them drops a request. */
  ghost predicate Allowed(d: Duplex, m: Move) {
    && Runnable(d.ab) && Runnable(d.ba)
    && match m
       case Ab(a) => !a.Unmark? && Enabled(d.ab, a)
       case Ba(a) => !a.Unmark? && Enabled(d.ba, a)
       case DropAtA(x) => ReliableRequest(x) in d.ab.toSend
       case DropAtB(x) => ReliableRequest(x) in d.ba.toSend
  }

  ghost function Moved(q: RaptorQ, d: Duplex, m: Move): Duplex
    requires Allowed(d, m)
  {
    match m
    case Ab(a) => d.(ab := Next(q, d.ab, a))
    case Ba(a) => d.(ba := Next(q, d.ba, a))
    case DropAtA(x) => d.(ba := Next(q, d.ba, Unmark(x)))
    case DropAtB(x) => d.(ab := Next(q, d.ab, Unmark(x)))
  }

  ghost predicate MoveAt(q: RaptorQ, states: seq<Duplex>, moves: seq<Move>, i: nat)
    requires |states| == |moves| + 1 && i < |moves|
  {
    Allowed(states[i], moves[i]) && states[i + 1] == Moved(q, states[i], moves[i])
  }

  /** A run of both directions from the start. */
  ghost predicate DuplexRun(q: RaptorQ, symbolSize: nat, k: nat, states: seq<Duplex>, moves: seq<Move>) {
    && |states| == |moves| + 1 && states[0] == Duplex(Init(symbolSize, k), Init(symbolSize, k))
    && forall i: nat :: i < |moves| ==> MoveAt(q, states, moves, i)
  }

  /** A block the receiver has asked for and still lacks, which the sender no longer holds and of which
      no copy is under way. */
  ghost predicate Unanswerable(s: Sys, x: nat) {
    && x in s.recv.requested && !IsComplete(s.recv, x)
    && x < s.h.snd.nextBlock && x !in s.h.snd.payloads
    && forall data :: ReliableData(x, data) !in s.toRecv
  }

  // ---------------------------------------------------------------- one direction

  /** The sender never takes a block it has let go of back. */
  lemma NeverRetainedAgain(q: RaptorQ, h: Hist, op: Op, x: nat)
    requires h.snd.symbolSize > 0 && BlockLen(h.snd.symbolSize, h.snd.k) >= LEN_PREFIX
    requires x < h.snd.nextBlock && x !in h.snd.payloads
    ensures x < Perform(q, h, op).snd.nextBlock && x !in Perform(q, h, op).snd.payloads
  {
    hide BlockLen; hide RetainBlocks; hide EncoderFor; hide Symbols;
    if op.Spurt? {
      TopUpEffect(h.snd, op.budget, op.order, op.now, op.rtt);
      var t := TopUpPass(h.snd, op.budget, op.order, op.now, op.rtt, op.link);
      ServeGeometry(q, t.snd, t.out);
    }
  }

  lemma LackingArrive(q: RaptorQ, s: Sys, d: Dgram, now: nat, x: nat)
    requires !IsComplete(s.recv, x) && d.block != x
    ensures !IsComplete(ArriveStep(q, s, d, now).recv, x)
  {
    hide SymbolStep; hide Flush; hide ManagerFor;
    if d.block >= s.recv.nextDeliver {
      var r1 := s.recv.(highestSeen := Max(s.recv.highestSeen, d.block));
      var step := SymbolStep(q, ManagerFor(r1, d.block, d.k % 0x1_0000), s.budget, now, Symbol(d.esi % ESI_LIMIT, d.data));
      FlushKeeps(Routed(r1, d.block, step));
    }
  }

  lemma LackingReliable(s: Sys, sig: Signal, x: nat)
    requires !IsComplete(s.recv, x) && (sig.ReliableData? ==> sig.block != x)
    ensures !IsComplete(ReceiverGets(s, sig).recv, x)
  {
    hide Flush;
    if sig.ReliableData? && sig.block >= s.recv.nextDeliver {
      FlushKeeps(Completed(s.recv, sig.block, sig.data));
    }
  }

  lemma LackingTick(q: RaptorQ, s: Sys, order: seq<nat>, link: LinkState, now: nat, x: nat)
    requires Inv(q, s) && !IsComplete(s.recv, x) && Enumerates(order, s.recv.managers)
    ensures !IsComplete(TickSys(s, order, link, now).recv, x)
  {
    hide HistInv; hide Truthful; hide Sensible; hide AcksOk; hide Concat; hide RecvTick; hide Held; hide ManagersOk;
    hide AskedOnce; hide Upper; hide Requests; hide AskOk;
    UpperTrue(q, s.h.produced, s.recv);
    TickSafe(q, s.h.produced, s.recv, s.budget, order, link, now);
  }

  lemma StillLacking(q: RaptorQ, s: Sys, a: Act, x: nat)
    requires Inv(q, s) && Runnable(s) && Enabled(s, a) && Unanswerable(s, x)
    requires !OwnSymbol(s, a, x)
    ensures !IsComplete(Next(q, s, a).recv, x)
  {
    hide Inv; hide Perform; hide TickSys; hide ArriveStep; hide ReceiverGets; hide TopUpPass;
    match a
    case Arrive(i, now) => LackingArrive(q, s, s.h.log[i], now, x);
    case ToReceiver(sig) => LackingReliable(s, sig, x);
    case ControlTick(order, link, now) => LackingTick(q, s, order, link, now, x);
    case _ =>
  }

  lemma StillLetGo(q: RaptorQ, s: Sys, a: Act, x: nat)
    requires Runnable(s) && Enabled(s, a) && Unanswerable(s, x)
    ensures var s' := Next(q, s, a);
      && x < s'.h.snd.nextBlock && x !in s'.h.snd.payloads
      && forall data :: ReliableData(x, data) !in s'.toRecv
  {
    hide Perform; hide TopUpPass; hide IsComplete; hide RecvReliable; hide RecvTick; hide RecvSymbol;
    match a
    case Send(p, repair, now) => NeverRetainedAgain(q, s.h, Encode(p, repair, now), x);
    case ToSender(sig) =>
      match sig {
        case Nack(b, _, need) => NeverRetainedAgain(q, s.h, AnswerNack(b, need), x);
        case BlockAck(b) => NeverRetainedAgain(q, s.h, OnAck(b), x);
        case _ =>
      }
    case ProactiveTick(order, now, rtt, link) => NeverRetainedAgain(q, s.h, Spurt(order, now, rtt, s.budget, link), x);
    case _ =>
  }

  /** Nothing but the block's own symbols or its own unmarking touches the request. */
  lemma UnanswerableStays(q: RaptorQ, s: Sys, a: Act, x: nat)
    requires Inv(q, s) && Runnable(s) && Enabled(s, a) && Unanswerable(s, x)
    requires a != Unmark(x) && !OwnSymbol(s, a, x)
    ensures Unanswerable(Next(q, s, a), x) && !Asks(s, a, x)
  {
    StillLacking(q, s, a, x);
    StillLetGo(q, s, a, x);
    hide Inv; hide Next; hide IsComplete; hide Asks;
    assert !EndsRequest(a, x);
    RequestStays(q, s, a, x);
  }

  // ---------------------------------------------------------------- both directions

  ghost predicate BothInv(q: RaptorQ, d: Duplex) { Inv(q, d.ab) && Inv(q, d.ba) }

  ghost predicate BothFit(d: Duplex) { IndicesFit(d.ab.h.log) && IndicesFit(d.ba.h.log) }

  lemma MovedKeeps(q: RaptorQ, d: Duplex, m: Move)
    requires Sound(q) && BothInv(q, d) && BothFit(d) && Allowed(d, m)
    ensures BothInv(q, Moved(q, d, m))
  {
    hide Next; hide Inv; hide Sound; hide IndicesFit; hide Runnable; hide Enabled;
    match m
    case Ab(a) => NextKeeps(q, d.ab, a);
    case Ba(a) => NextKeeps(q, d.ba, a);
    case DropAtA(x) => AlwaysEnabled(d.ba, x); NextKeeps(q, d.ba, Unmark(x));
    case DropAtB(x) => AlwaysEnabled(d.ab, x); NextKeeps(q, d.ab, Unmark(x));
  }

  lemma AlwaysEnabled(s: Sys, x: nat)
    ensures Enabled(s, Unmark(x))
  {}

  lemma MovedGrows(q: RaptorQ, d: Duplex, m: Move)
    requires Allowed(d, m)
    ensures d.ab.h.log <= Moved(q, d, m).ab.h.log && d.ba.h.log <= Moved(q, d, m).ba.h.log
  {
    hide Next; hide Runnable; hide Enabled;
    match m
    case Ab(a) => LogOnlyGrows(q, d.ab, a);
    case Ba(a) => LogOnlyGrows(q, d.ba, a);
    case DropAtA(x) => AlwaysEnabled(d.ba, x); LogOnlyGrows(q, d.ba, Unmark(x));
    case DropAtB(x) => AlwaysEnabled(d.ab, x); LogOnlyGrows(q, d.ab, Unmark(x));
  }

  lemma FitEarlier(q: RaptorQ, d: Duplex, m: Move)
    requires Allowed(d, m) && BothFit(Moved(q, d, m))
    ensures BothFit(d)
  {
    MovedGrows(q, d, m);
    hide IndicesFit; hide Moved; hide Allowed;
    FitBefore(d.ab.h.log, Moved(q, d, m).ab.h.log);
    FitBefore(d.ba.h.log, Moved(q, d, m).ba.h.log);
  }

  lemma {:induction false} DuplexInv(q: RaptorQ, symbolSize: nat, k: nat, states: seq<Duplex>, moves: seq<Move>, n: nat)
    requires Sound(q) && GoodGeometry(symbolSize, k) && DuplexRun(q, symbolSize, k, states, moves)
    requires n <= |moves| && BothFit(states[n])
    ensures BothInv(q, states[n])
  {
    hide Moved; hide Allowed; hide BothFit; hide Sound;
    if n == 0 {
      InitHolds(q, symbolSize, k);
      hide Inv; hide Init;
    } else {
      hide BothInv;
      assert MoveAt(q, states, moves, n - 1);
      FitEarlier(q, states[n - 1], moves[n - 1]);
      DuplexInv(q, symbolSize, k, states, moves, n - 1);
      MovedKeeps(q, states[n - 1], moves[n - 1]);
    }
  }

  /** Moves that could still bring the block back: one of its own symbols arriving late, or the far end
      dropping a request for the block of the same number in the other direction. */
  predicate Revives(d: Duplex, m: Move, x: nat) {
    m == DropAtB(x) || (m.Ab? && OwnSymbol(d.ab, m.act, x))
  }

  lemma UnanswerableMoved(q: RaptorQ, d: Duplex, m: Move, x: nat)
    requires BothInv(q, d) && Allowed(d, m) && Unanswerable(d.ab, x) && !Revives(d, m, x)
    ensures Unanswerable(Moved(q, d, m).ab, x)
    ensures m.Ab? ==> !Asks(d.ab, m.act, x)
  {
    match m
    case Ab(a) => UnanswerableStays(q, d.ab, a, x);
    case Ba(_) =>
    case DropAtA(_) =>
    case DropAtB(y) => AlwaysEnabled(d.ab, y); UnanswerableStays(q, d.ab, Unmark(y), x);
  }

  /** A request for a block the sender has let go of is dropped, and dropping it retries nothing: from
      any point of any run of both directions, however often the sender drops the request, the block is
      neither completed nor asked for again, until one of its own symbols arrives or the other end
      drops a request for the same number. */
  lemma {:induction false} DroppedRequestNotRetried(q: RaptorQ, symbolSize: nat, k: nat, states: seq<Duplex>, moves: seq<Move>,
                                                    i: nat, j: nat, x: nat)
    requires Sound(q) && GoodGeometry(symbolSize, k) && DuplexRun(q, symbolSize, k, states, moves)
    requires i <= j < |moves| && BothFit(states[j]) && Unanswerable(states[i].ab, x)
    requires forall n: nat :: i <= n <= j ==> !Revives(states[n], moves[n], x)
    ensures Unanswerable(states[j + 1].ab, x)
    ensures moves[j].Ab? ==> !Asks(states[j].ab, moves[j].act, x)
    decreases j - i
  {
    hide Moved; hide Allowed; hide BothInv; hide BothFit; hide Unanswerable; hide Sound; hide Asks; hide Revives;
    assert MoveAt(q, states, moves, j);
    if i < j {
      assert MoveAt(q, states, moves, j - 1);
      FitEarlier(q, states[j - 1], moves[j - 1]);
      DroppedRequestNotRetried(q, symbolSize, k, states, moves, i, j - 1, x);
    }
    DuplexInv(q, symbolSize, k, states, moves, j);
    UnanswerableMoved(q, states[j], moves[j], x);
  }
}
