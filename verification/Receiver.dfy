/** The receiving half of a tunnel: symbols are routed to per-block managers, completed blocks wait
    in `ready` until their turn, and a periodic tick asks for what is missing. */
module Receiver {
  import opened Base
  import opened Codec
  import opened Link
  import opened Budget
  import opened Signals
  import opened Decoder

  datatype Recv = Recv(symbolSize: nat, k: nat, managers: map<nat, Mgr>, ready: map<nat, bytes>,
                       nextDeliver: nat, highestSeen: nat, total: Option<nat>, highWater: nat,
                       requested: set<nat>, pendingAcks: seq<nat>)

  function NewRecv(symbolSize: nat, k: nat): Recv {
    Recv(symbolSize, Max(k, 1), map[], map[], 0, 0, None, 0, {}, [])
  }

  /** What a call leaves behind and the bytes it hands to the local socket. */
  datatype Delivery = Delivery(recv: Recv, out: bytes)

  /** Deliver the contiguous run of completed blocks at the delivery floor. */
  function Flush(r: Recv): Delivery
    decreases |r.ready|
  {
    if r.nextDeliver in r.ready then
      var d := Flush(r.(ready := r.ready - {r.nextDeliver}, nextDeliver := r.nextDeliver + 1));
      Delivery(d.recv, r.ready[r.nextDeliver] + d.out)
    else Delivery(r, [])
  }

  lemma FlushOnce(r: Recv)
    requires r.nextDeliver in r.ready
    ensures var d := Flush(r.(ready := r.ready - {r.nextDeliver}, nextDeliver := r.nextDeliver + 1));
      Flush(r) == Delivery(d.recv, r.ready[r.nextDeliver] + d.out)
  {}

  lemma FlushEnds(r: Recv)
    requires r.nextDeliver !in r.ready
    ensures Flush(r) == Delivery(r, [])
  {}

  function ClampK(actualK: nat, k: nat): nat { Min(Max(actualK, 1), k) }

  function ManagerFor(r: Recv, block: nat, actualK: nat): Mgr {
    if block in r.managers then r.managers[block] else NewMgr(ClampK(actualK, r.k), r.symbolSize)
  }

  /** The receiver once a block's manager has taken a step. */
  function Routed(r: Recv, block: nat, s: Step): Recv {
    if s.action.Deliver? then
      r.(managers := r.managers - {block}, ready := r.ready[block := s.action.data],
         pendingAcks := r.pendingAcks + [block])
    else r.(managers := r.managers[block := s.mgr])
  }

  datatype SymbolResult = SymbolResult(recv: Recv, budget: Ledger, out: bytes)

  function RecvSymbol(q: RaptorQ, r: Recv, b: Ledger, block: nat, actualK: nat, s: Symbol, now: nat): SymbolResult {
    if block < r.nextDeliver then SymbolResult(r, b, [])
    else
      var r1 := r.(highestSeen := Max(r.highestSeen, block));
      var step := SymbolStep(q, ManagerFor(r1, block, actualK), b, now, s);
      var d := Flush(Routed(r1, block, step));
      SymbolResult(d.recv, step.budget, d.out)
  }

  function Completed(r: Recv, block: nat, data: bytes): Recv {
    r.(managers := r.managers - {block}, requested := r.requested - {block},
       ready := r.ready[block := data], pendingAcks := r.pendingAcks + [block])
  }

  function RecvReliable(r: Recv, block: nat, data: bytes): Delivery {
    if block < r.nextDeliver then Delivery(r, []) else Flush(Completed(r, block, data))
  }

  // ---------------------------------------------------------------- the control tick

  datatype Ticked = Ticked(recv: Recv, budget: Ledger, signals: seq<Signal>)

  function Ask(t: Ticked, block: nat): Ticked {
    t.(recv := t.recv.(requested := t.recv.requested + {block}), signals := t.signals + [ReliableRequest(block)])
  }

  /** The tick's verdict on one live block. */
  function TickOne(t: Ticked, block: nat, highest: nat, link: LinkState, now: nat): Ticked {
    if block !in t.recv.managers then t
    else
      var s := TickStep(t.recv.managers[block], t.budget, TickCtx(now, link, highest > block));
      var t1 := Ticked(t.recv.(managers := t.recv.managers[block := s.mgr]), s.budget, t.signals);
      match s.action
      case SendNack(have, need) => t1.(signals := t1.signals + [Nack(block, have, need)])
      case RequestReliableRetransmit => if block in t.recv.requested then t1 else Ask(t1, block)
      case _ => t1
  }

  /** The pass over the managers, in the order the hash map yields their keys. */
  function TickAll(r: Recv, b: Ledger, order: seq<nat>, link: LinkState, now: nat): Ticked {
    if order == [] then Ticked(r, b, [])
    else TickOne(TickAll(r, b, order[..|order| - 1], link, now), order[|order| - 1], r.highestSeen, link, now)
  }

  predicate Invisible(r: Recv, block: nat) {
    block !in r.managers && block !in r.ready && block !in r.requested
  }

  /** The scan for blocks of which nothing at all has arrived. */
  function LostScan(t: Ticked, lo: nat, hi: nat): Ticked
    decreases hi
  {
    if lo >= hi then t
    else
      var t1 := LostScan(t, lo, hi - 1);
      if Invisible(t1.recv, hi - 1) then Ask(t1, hi - 1) else t1
  }

  lemma ScanMore(t: Ticked, lo: nat, hi: nat)
    requires lo <= hi
    ensures var t1 := LostScan(t, lo, hi); LostScan(t, lo, hi + 1) == if Invisible(t1.recv, hi) then Ask(t1, hi) else t1
  {}

  /** One past the last block that provably exists. */
  function Upper(r: Recv): nat {
    var bySeen := if r.managers == map[] && r.highestSeen == 0 then 0 else r.highestSeen + 1;
    Max(Max(bySeen, r.highWater), if r.total.Some? then r.total.value else 0)
  }

  function RecvTick(r: Recv, b: Ledger, order: seq<nat>, link: LinkState, now: nat): Ticked {
    var t := TickAll(r, b, order, link, now);
    LostScan(t, t.recv.nextDeliver, Upper(t.recv))
  }

  /** `order` lists the keys of `m`, each once. */
  ghost predicate Enumerates<V>(order: seq<nat>, m: map<nat, V>) {
    && (forall b :: b in m <==> b in order)
    && (forall i, j :: 0 <= i < j < |order| ==> order[i] != order[j])
  }

  lemma OverwriteThenDrop(m: map<nat, Mgr>, block: nat, x: Mgr, y: Mgr)
    ensures m[block := x][block := y] == m[block := y] && m[block := y] - {block} == m - {block}
  {}

  // ---------------------------------------------------------------- the class

  class FecReceiver {
    const q: RaptorQ
    const symbolSize: nat
    const k: nat
    var managers: map<nat, BlockManager>
    var ready: map<nat, bytes>
    var nextDeliver: nat
    var highestSeen: nat
    var total: Option<nat>
    var highWater: nat
    var requested: set<nat>
    var pendingAcks: seq<nat>

    /** Each block owns its manager. */
    ghost predicate Valid()
      reads this
    {
      && (forall b :: b in managers ==> managers[b].q == q)
      && (forall a, b :: a in managers && b in managers && a != b ==> managers[a] != managers[b])
    }

    ghost function Managers(): map<nat, Mgr>
      reads this, managers.Values
    {
      map b | b in managers :: managers[b].View()
    }

    ghost function View(): Recv
      reads this, managers.Values
    {
      Recv(symbolSize, k, Managers(), ready, nextDeliver, highestSeen, total, highWater, requested, pendingAcks)
    }

    constructor (q: RaptorQ, symbolSize: nat, k: nat)
      ensures Valid() && View() == NewRecv(symbolSize, k) && this.q == q
    {
      this.q, this.symbolSize, this.k := q, symbolSize, Max(k, 1);
      managers, ready, nextDeliver, highestSeen := map[], map[], 0, 0;
      total, highWater, requested, pendingAcks := None, 0, {}, [];
    }

    method SetTotalBlocks(n: nat)
      modifies this`total
      ensures View() == old(View()).(total := Some(n))
    {
      total := Some(n);
    }

    method SetHighWater(blocks: nat)
      modifies this`highWater
      ensures View() == old(View()).(highWater := Max(old(highWater), blocks))
    {
      highWater := Max(highWater, blocks);
    }

    method DrainReady() returns (out: bytes)
      requires Valid()
      modifies this`ready, this`nextDeliver
      ensures Valid() && Delivery(View(), out) == Flush(old(View()))
    {
      hide Flush;
      out := [];
      ghost var start := View();
      while nextDeliver in ready
        invariant View() == start.(ready := ready, nextDeliver := nextDeliver) && Valid()
        invariant var d := Flush(start.(ready := ready, nextDeliver := nextDeliver));
          Flush(start) == Delivery(d.recv, out + d.out)
        decreases ready.Keys
      {
        FlushOnce(start.(ready := ready, nextDeliver := nextDeliver));
        out := out + ready[nextDeliver];
        ready, nextDeliver := ready - {nextDeliver}, nextDeliver + 1;
      }
      FlushEnds(start.(ready := ready, nextDeliver := nextDeliver));
    }

    method OnSymbol(block: nat, actualK: nat, s: Symbol, now: nat, budget: RepairBudget) returns (out: bytes)
      requires Valid()
      modifies this, managers.Values, budget`inFlight
      ensures Valid()
      ensures SymbolResult(View(), budget.View(), out)
           == RecvSymbol(q, old(View()), old(budget.View()), block, actualK, s, now)
    {
      hide SymbolStep; hide Flush; hide ManagerFor; hide Routed;
      if block < nextDeliver {
        return [];
      }
      highestSeen := Max(highestSeen, block);
      ghost var r1 := View();
      assert r1 == old(View()).(highestSeen := Max(old(highestSeen), block));
      Route(block, actualK, s, now, budget);
      out := DrainReady();
    }

    /** Give the symbol to the block's manager, made on first contact, and collect what it delivers. */
    method Route(block: nat, actualK: nat, s: Symbol, now: nat, budget: RepairBudget)
      requires Valid()
      modifies this, managers.Values, budget`inFlight
      ensures Valid()
      ensures var step := SymbolStep(q, ManagerFor(old(View()), block, actualK), old(budget.View()), now, s);
        View() == Routed(old(View()), block, step) && budget.View() == step.budget
    {
      hide SymbolStep; hide ManagerFor;
      ghost var m := ManagerFor(old(View()), block, actualK);
      FindManager(block, actualK);
      assert Managers()[block] == m;
      ghost var step := SymbolStep(q, m, old(budget.View()), now, s);
      var action := Feed(block, s, now, budget);
      OverwriteThenDrop(old(Managers()), block, m, step.mgr);
      if action.Deliver? {
        Complete(block, action.data);
      }
    }

    /** A decoded block leaves the managers for `ready`, and its acknowledgement is queued. */
    method Complete(block: nat, data: bytes)
      requires Valid()
      modifies this`managers, this`ready, this`pendingAcks
      ensures Valid()
      ensures View() == old(View()).(managers := old(Managers()) - {block}, ready := old(ready)[block := data],
                                     pendingAcks := old(pendingAcks) + [block])
      ensures managers.Values <= old(managers.Values)
    {
      managers := managers - {block};
      ready := ready[block := data];
      pendingAcks := pendingAcks + [block];
    }

    method Feed(block: nat, s: Symbol, now: nat, budget: RepairBudget) returns (action: Action)
      requires Valid() && block in managers
      modifies managers.Values, budget`inFlight
      ensures Valid()
      ensures var step := SymbolStep(q, old(Managers())[block], old(budget.View()), now, s);
        action == step.action && budget.View() == step.budget && Managers() == old(Managers())[block := step.mgr]
    {
      hide SymbolStep;
      action := managers[block].OnSymbol(now, s, budget);
    }

    method FindManager(block: nat, actualK: nat)
      requires Valid()
      modifies this`managers
      ensures Valid() && block in managers
      ensures Managers() == old(Managers())[block := ManagerFor(old(View()), block, actualK)]
      ensures forall m :: m in managers.Values && m !in old(managers.Values) ==> fresh(m)
    {
      if block !in managers {
        var added := new BlockManager(q, ClampK(actualK, k), symbolSize);
        managers := managers[block := added];
      }
    }

    method OnReliableBlock(block: nat, data: bytes) returns (out: bytes)
      requires Valid()
      modifies this
      ensures Valid() && Delivery(View(), out) == RecvReliable(old(View()), block, data)
    {
      if block < nextDeliver {
        return [];
      }
      managers := managers - {block};
      requested := requested - {block};
      ready := ready[block := data];
      pendingAcks := pendingAcks + [block];
      assert View() == Completed(old(View()), block, data);
      out := DrainReady();
    }

    method DrainAcks() returns (acks: seq<nat>)
      modifies this`pendingAcks
      ensures acks == old(pendingAcks) && View() == old(View()).(pendingAcks := [])
    {
      acks, pendingAcks := pendingAcks, [];
    }

    method UnmarkReliableRequested(block: nat)
      modifies this`requested
      ensures View() == old(View()).(requested := old(requested) - {block})
    {
      requested := requested - {block};
    }

    /** `order` is the order in which the hash map yielded its keys. */
    method Tick(link: LinkState, budget: RepairBudget, now: nat) returns (out: seq<Signal>, ghost order: seq<nat>)
      requires Valid()
      modifies this`requested, managers.Values, budget`inFlight
      ensures Valid() && Enumerates(order, old(managers))
      ensures Ticked(View(), budget.View(), out) == RecvTick(old(View()), old(budget.View()), order, link, now)
    {
      out, order := TickManagers(link, budget, now);
      out := ScanLost(out, budget);
    }

    method ScanLost(sent: seq<Signal>, ghost budget: RepairBudget) returns (out: seq<Signal>)
      requires Valid()
      modifies this`requested
      ensures Ticked(View(), budget.View(), out)
           == LostScan(Ticked(old(View()), budget.View(), sent), nextDeliver, Upper(old(View())))
    {
      out := sent;
      ghost var t := Ticked(View(), budget.View(), out);
      var bySeen := if managers == map[] && highestSeen == 0 then 0 else highestSeen + 1;
      var upper := Max(Max(bySeen, highWater), if total.Some? then total.value else 0);
      assert managers == map[] <==> Managers() == map[] by {
        if b :| b in managers { assert b in Managers(); }
      }
      assert upper == Upper(t.recv);
      assert LostScan(t, nextDeliver, nextDeliver) == t;
      hide Upper;
      var block := nextDeliver;
      while block < upper
        invariant nextDeliver <= block <= Max(upper, nextDeliver)
        invariant Ticked(View(), budget.View(), out) == LostScan(t, nextDeliver, block)
      {
        hide LostScan;
        ScanMore(t, nextDeliver, block);
        assert Invisible(View(), block) <==> block !in managers && block !in ready && block !in requested;
        if block !in managers && block !in ready && block !in requested {
          requested := requested + {block};
          out := out + [ReliableRequest(block)];
        }
        block := block + 1;
      }
      assert LostScan(t, nextDeliver, block) == LostScan(t, nextDeliver, upper);
    }

    /** The arbitration over every live block, over a snapshot of the ids. */
    method TickManagers(link: LinkState, budget: RepairBudget, now: nat) returns (out: seq<Signal>, ghost order: seq<nat>)
      requires Valid()
      modifies this`requested, managers.Values, budget`inFlight
      ensures Valid() && Enumerates(order, managers)
      ensures Ticked(View(), budget.View(), out) == TickAll(old(View()), old(budget.View()), order, link, now)
    {
      out, order := [], [];
      var highest := highestSeen;
      var todo := managers.Keys;
      while todo != {}
        invariant Valid()
        invariant todo <= managers.Keys
        invariant forall b :: b in managers <==> b in todo || b in order
        invariant forall b :: b in order ==> b !in todo
        invariant forall i, j :: 0 <= i < j < |order| ==> order[i] != order[j]
        invariant Ticked(View(), budget.View(), out) == TickAll(old(View()), old(budget.View()), order, link, now)
        decreases todo
      {
        var block :| block in todo;
        todo := todo - {block};
        out := TickBlock(block, highest, link, budget, now, out);
        assert (order + [block])[..|order|] == order;
        order := order + [block];
      }
    }

    method TickBlock(block: nat, highest: nat, link: LinkState, budget: RepairBudget, now: nat, sent: seq<Signal>)
      returns (out: seq<Signal>)
      requires Valid() && block in managers
      modifies this`requested, managers.Values, budget`inFlight
      ensures Valid()
      ensures Ticked(View(), budget.View(), out)
           == TickOne(Ticked(old(View()), old(budget.View()), sent), block, highest, link, now)
    {
      out := sent;
      var mgr := managers[block];
      var action := mgr.Tick(TickCtx(now, link, highest > block), budget);
      ghost var step := TickStep(old(Managers())[block], old(budget.View()), TickCtx(now, link, highest > block));
      assert Managers() == old(Managers())[block := step.mgr];
      match action
      case SendNack(have, need) =>
        out := out + [Nack(block, have, need)];
      case RequestReliableRetransmit =>
        if block !in requested {
          requested := requested + {block};
          out := out + [ReliableRequest(block)];
        }
      case Deliver(_) =>
      case Idle =>
    }
  }
}
