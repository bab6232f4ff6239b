/** One direction of a tunnel as a state machine: the sender with its past, the receiver, the
    datagrams and signals between them, the shared budget and the credit account.

    The network is adversarial. A datagram that was sent may arrive at any later time, any number of
    times, in any order, or never; the same freedom is given to signals, which covers FIFO delivery,
    the reader's separate per-kind channels, and a full queue dropping a message. */
module Tunnel {
  import opened Base
  import opened Geometry
  import opened Codec
  import opened Link
  import opened Budget
  import opened Signals
  import opened Sender
  import opened SenderHistory
  import opened Receiver
  import opened ReceiverSafety
  import opened TickSafety
  import SendWindows

  const ESI_LIMIT: nat := 0x100_0000

  /** `h.log` holds every datagram ever sent, `toRecv` and `toSend` every signal. `stranded` is
      repair reserved for proactive spurts or dropped with a manager, `others` what the
      connection's other tunnels hold, `peak` the largest ceiling there has been. `slot` and `credited`
      are the upstream task's credit account, and `abandoned` the blocks it has given up counting. */
  datatype Sys = Sys(h: Hist, recv: Recv, budget: Ledger, stranded: nat, others: nat, peak: nat,
                     toRecv: set<Signal>, toSend: set<Signal>, eof: bool, output: bytes,
                     slot: nat, credited: nat, abandoned: nat)

  /** `Abandon` follows a stall of the gate: the window was full, with what the slot and the other
      tunnels (`elsewhere`) have out. */
  datatype Act =
    | Send(payload: bytes, repair: nat, now: nat)
    | AnnounceHighWater
    | Eof
    | Arrive(i: nat, now: nat)
    | ToReceiver(signal: Signal)
    | ToSender(signal: Signal)
    | Unmark(block: nat)
    | ControlTick(order: seq<nat>, link: LinkState, now: nat)
    | SendAcks
    | SendCredit
    | ProactiveTick(order: seq<nat>, now: nat, rtt: nat, link: LinkState)
    | Abandon(elsewhere: nat)
    | RefreshCeiling(ceiling: nat)
    | OthersReserve(n: nat)
    | OthersRelease(n: nat)

  function Init(symbolSize: nat, k: nat): Sys {
    Sys(Fresh(symbolSize, k), NewRecv(symbolSize, k), Ledger(0, 0), 0, 0, 0, {}, {}, false, [], 0, 0, 0)
  }

  ghost predicate Enabled(s: Sys, a: Act) {
    match a
    case Send(p, _, _) => !s.eof && PayloadOk(s.h.snd.symbolSize, s.h.snd.k, p)
    case Arrive(i, _) => i < |s.h.log|
    case ToReceiver(sig) => sig in s.toRecv
    case ToSender(sig) => sig in s.toSend
    case ControlTick(order, _, _) => Enumerates(order, s.recv.managers)
    case Abandon(elsewhere) => !s.eof && !SendWindows.CwndRoomFor(s.slot + elsewhere, SendWindows.WINDOW_FLOOR_BLOCKS)
    case OthersReserve(n) => s.budget.Fits(n)
    case OthersRelease(n) => n <= s.others
    case _ => true
  }

  predicate Runnable(s: Sys) {
    s.h.snd.symbolSize > 0 && BlockLen(s.h.snd.symbolSize, s.h.snd.k) >= LEN_PREFIX
  }

  /** The header keeps 16 bits of K and 24 of the symbol index. */
  function ArriveStep(q: RaptorQ, s: Sys, d: Dgram, now: nat): Sys {
    var x := RecvSymbol(q, s.recv, s.budget, d.block, d.k % 0x1_0000, Symbol(d.esi % ESI_LIMIT, d.data), now);
    s.(recv := x.recv, budget := x.budget, output := s.output + x.out)
  }

  function ReceiverGets(s: Sys, sig: Signal): Sys {
    match sig
    case BlockCount(n) => s.(recv := s.recv.(total := Some(n)))
    case HighWater(n) => s.(recv := s.recv.(highWater := Max(s.recv.highWater, n)))
    case ReliableData(b, data) =>
      var d := RecvReliable(s.recv, b, data);
      s.(recv := d.recv, output := s.output + d.out, stranded := s.stranded + DroppedBy(s.recv, b))
    case _ => s
  }

  /** A cumulative credit settles what it newly covers, never more than the slot holds. */
  function Settle(s: Sys, delivered: nat): Sys {
    var newly := Monus(delivered, s.credited);
    s.(credited := Max(s.credited, delivered), slot := Monus(s.slot, newly))
  }

  function SenderGets(q: RaptorQ, s: Sys, sig: Signal): Sys
    requires Runnable(s)
  {
    match sig
    case Nack(b, _, need) => s.(h := Perform(q, s.h, AnswerNack(b, need)))
    case ReliableRequest(b) =>
      if b in s.h.snd.payloads then s.(toRecv := s.toRecv + {ReliableData(b, s.h.snd.payloads[b])}) else s
    case Credit(d) => Settle(s, d)
    case BlockAck(b) => s.(h := Perform(q, s.h, OnAck(b)))
    case _ => s
  }

  function Acks(blocks: seq<nat>): set<Signal> { set b | b in blocks :: BlockAck(b) }

  function Elements(signals: seq<Signal>): set<Signal> { set s | s in signals }

  function TickSys(s: Sys, order: seq<nat>, link: LinkState, now: nat): Sys {
    var t := RecvTick(s.recv, s.budget, order, link, now);
    s.(recv := t.recv, budget := t.budget, toSend := s.toSend + Elements(t.signals))
  }

  function SpurtSys(q: RaptorQ, s: Sys, order: seq<nat>, now: nat, rtt: nat, link: LinkState): Sys
    requires Runnable(s)
  {
    var t := TopUpPass(s.h.snd, s.budget, order, now, rtt, link);
    s.(h := Perform(q, s.h, Spurt(order, now, rtt, s.budget, link)),
       budget := t.budget, stranded := s.stranded + Asked(t.out))
  }

  ghost function Next(q: RaptorQ, s: Sys, a: Act): Sys
    requires Runnable(s) && Enabled(s, a)
  {
    match a
    case Send(p, repair, now) => s.(h := Perform(q, s.h, Encode(p, repair, now)), slot := s.slot + 1)
    case AnnounceHighWater => s.(toRecv := s.toRecv + {HighWater(s.h.snd.nextBlock)})
    case Eof => s.(eof := true, toRecv := s.toRecv + {BlockCount(s.h.snd.nextBlock)})
    case Arrive(i, now) => ArriveStep(q, s, s.h.log[i], now)
    case ToReceiver(sig) => ReceiverGets(s, sig)
    case ToSender(sig) => SenderGets(q, s, sig)
    case Unmark(b) => s.(recv := s.recv.(requested := s.recv.requested - {b}))
    case ControlTick(order, link, now) => TickSys(s, order, link, now)
    case SendAcks => s.(toSend := s.toSend + Acks(s.recv.pendingAcks), recv := s.recv.(pendingAcks := []))
    case SendCredit => s.(toSend := s.toSend + {Credit(s.recv.nextDeliver)})
    case ProactiveTick(order, now, rtt, link) => SpurtSys(q, s, order, now, rtt, link)
    case Abandon(_) => s.(slot := 0, abandoned := s.abandoned + s.slot)
    case RefreshCeiling(c) => s.(budget := s.budget.(ceiling := c), peak := Max(s.peak, c))
    case OthersReserve(n) => s.(budget := s.budget.Reserve(n), others := s.others + n)
    case OthersRelease(n) => s.(budget := s.budget.Release(n), others := s.others - n)
  }

  // ---------------------------------------------------------------- the invariant

  function Acked(toSend: set<Signal>): set<nat> { set s | s in toSend && s.BlockAck? :: s.block }

  /** Signals towards the receiver tell the truth about the stream. */
  ghost predicate Truthful(produced: seq<bytes>, eof: bool, toRecv: set<Signal>) {
    forall s :: s in toRecv ==> IsTrue(produced, eof, s)
  }

  ghost predicate IsTrue(produced: seq<bytes>, eof: bool, s: Signal) {
    match s
    case BlockCount(n) => eof && n == |produced|
    case HighWater(n) => n <= |produced|
    case ReliableData(b, data) => b < |produced| && data == produced[b]
    case _ => false
  }

  /** Signals towards the sender ask only about produced blocks and credit only what was delivered. */
  ghost predicate Sensible(produced: seq<bytes>, floor: nat, toSend: set<Signal>) {
    forall s :: s in toSend ==> AskOk(produced, s) || s.BlockAck? || (s.Credit? && s.delivered <= floor)
  }

  ghost predicate BoundsOk(produced: seq<bytes>, eof: bool, highWater: nat, total: Option<nat>) {
    highWater <= |produced| && (total.Some? ==> eof && total.value == |produced|)
  }

  /** Every block asked for reliably and not yet answered has had its request sent. */
  ghost predicate RequestsSent(requested: set<nat>, toSend: set<Signal>) {
    forall b :: b in requested ==> ReliableRequest(b) in toSend
  }

  ghost predicate RetiredComplete(retired: set<nat>, r: Recv) { forall b :: b in retired ==> IsComplete(r, b) }

  /** The budget counts exactly what is held, stranded, and held by the other tunnels. */
  ghost predicate LedgerOk(b: Ledger, held: nat, stranded: nat, others: nat, peak: nat) {
    b.inFlight == held + stranded + others && b.inFlight <= peak && b.ceiling <= peak
  }

  /** What the slot counts is at most what was sent and not credited, and short of it by at most what has
      been abandoned. */
  ghost predicate FlowOk(sent: nat, floor: nat, slot: nat, credited: nat, abandoned: nat) {
    credited <= floor <= sent && slot + credited <= sent <= slot + credited + abandoned
  }

  ghost predicate ReceiverSide(q: RaptorQ, produced: seq<bytes>, r: Recv, toSend: set<Signal>, output: bytes) {
    RecvOk(q, produced, r) && AcksOk(r, Acked(toSend)) && output == Concat(produced[..r.nextDeliver])
  }

  ghost predicate SameGeometryBothEnds(s: Sys) {
    s.recv.symbolSize == s.h.snd.symbolSize && s.recv.k == s.h.snd.k && GoodGeometry(s.recv.symbolSize, s.recv.k)
  }

  ghost predicate Inv(q: RaptorQ, s: Sys) {
    && SameGeometryBothEnds(s)
    && HistInv(q, s.h)
    && ReceiverSide(q, s.h.produced, s.recv, s.toSend, s.output)
    && Truthful(s.h.produced, s.eof, s.toRecv)
    && Sensible(s.h.produced, s.recv.nextDeliver, s.toSend)
    && BoundsOk(s.h.produced, s.eof, s.recv.highWater, s.recv.total)
    && RequestsSent(s.recv.requested, s.toSend)
    && RetiredComplete(s.h.retired, s.recv)
    && LedgerOk(s.budget, Held(s.recv), s.stranded, s.others, s.peak)
    && FlowOk(|s.h.produced|, s.recv.nextDeliver, s.slot, s.credited, s.abandoned)
  }

  /** Every symbol index put on the wire still fits the header. */
  ghost predicate IndicesFit(log: seq<Dgram>) { forall d :: d in log ==> d.esi < ESI_LIMIT }
}
