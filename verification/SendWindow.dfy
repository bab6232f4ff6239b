/** The connection-wide window over data blocks in flight, and each tunnel's slot in it. */
module SendWindows {
  import opened Base
  import opened Geometry

  const MIN_TUNNEL_SHARE_BLOCKS: nat := 2
  const BDP_CEILING_MULTIPLIER: nat := 1

  /** 16 blocks: the floor every connection's window is built with, which is also its ceiling. */
  const WINDOW_FLOOR_BLOCKS: nat := 16

  function FairShareOf(ceiling: nat, active: nat): nat {
    Max(ceiling / Max(active, 1), MIN_TUNNEL_SHARE_BLOCKS)
  }

  /** `has_cwnd_room`: the connection's own test. */
  predicate CwndRoomFor(inFlight: nat, ceiling: nat) { inFlight < ceiling }

  /** `has_room`: the connection's test and the tunnel's. */
  predicate RoomFor(inFlight: nat, ceiling: nat, mine: nat, active: nat) {
    CwndRoomFor(inFlight, ceiling) && mine < FairShareOf(ceiling, active)
  }

  class SendWindow {
    var inFlight: nat
    var ceiling: nat
    const blockBytes: nat
    const floorBlocks: nat
    var activeTunnels: nat
    var minCwndBdp: nat

    ghost predicate Valid()
      reads this
    {
      blockBytes > 0 && floorBlocks > 0
    }

    /** The smallest window observed is never above the floor's own, nor the ceiling off the floor. */
    ghost predicate AtFloor()
      reads this
    {
      Valid() && minCwndBdp <= floorBlocks * blockBytes && ceiling == floorBlocks
    }

    constructor (blockBytes: nat, floorBlocks: nat)
      ensures AtFloor() && inFlight == 0 && activeTunnels == 0
      ensures this.blockBytes == Max(blockBytes, 1) && this.floorBlocks == Max(floorBlocks, 1)
    {
      this.blockBytes, this.floorBlocks := Max(blockBytes, 1), Max(floorBlocks, 1);
      inFlight, ceiling, activeTunnels := 0, Max(floorBlocks, 1), 0;
      minCwndBdp := Max(floorBlocks, 1) * Max(blockBytes, 1);
    }

    /** Fold a sample into the running minimum, ignoring samples at or below the floor. */
    method ObserveCwnd(cwndBytes: nat)
      requires Valid()
      modifies this`minCwndBdp
      ensures minCwndBdp == if cwndBytes > floorBlocks * blockBytes then Min(old(minCwndBdp), cwndBytes) else old(minCwndBdp)
      ensures old(AtFloor()) ==> AtFloor() && minCwndBdp == old(minCwndBdp)
    {
      if cwndBytes <= floorBlocks * blockBytes {
        return;
      }
      if cwndBytes < minCwndBdp {
        minCwndBdp := cwndBytes;
      }
    }

    /** A window built by the constructor never leaves its floor: the cap seeded with the floor's own
        bytes divides back to at most the floor, whatever the transport reports. */
    method RefreshCeiling(cwndBytes: nat)
      requires Valid()
      modifies this`ceiling
      ensures ceiling == Max(Min(cwndBytes, minCwndBdp * BDP_CEILING_MULTIPLIER) / blockBytes, floorBlocks)
      ensures old(AtFloor()) ==> AtFloor()
    {
      var effective := Min(cwndBytes, minCwndBdp * BDP_CEILING_MULTIPLIER);
      ceiling := Max(effective / blockBytes, floorBlocks);
      if minCwndBdp <= floorBlocks * blockBytes {
        QuotientBounds(effective, blockBytes, floorBlocks);
      }
    }

    method RegisterTunnel() returns (slot: TunnelSlot)
      modifies this`activeTunnels
      ensures fresh(slot) && slot.window == this && slot.inFlight == 0
      ensures activeTunnels == old(activeTunnels) + 1
    {
      activeTunnels := activeTunnels + 1;
      slot := new TunnelSlot(this);
    }

    function FairShare(): nat
      reads this
    {
      FairShareOf(ceiling, activeTunnels)
    }

    predicate HasRoom(slot: TunnelSlot)
      reads this, slot
    {
      RoomFor(inFlight, ceiling, slot.inFlight, activeTunnels)
    }

    method AddSent(slot: TunnelSlot)
      modifies this`inFlight, slot`inFlight
      ensures inFlight == old(inFlight) + 1 && slot.inFlight == old(slot.inFlight) + 1
    {
      inFlight := inFlight + 1;
      slot.inFlight := slot.inFlight + 1;
    }

    /** The slot gives up what it can, and exactly that leaves the aggregate: an over-settle frees
        nothing that another tunnel holds. */
    method Settle(slot: TunnelSlot, newlyDelivered: nat)
      modifies this`inFlight, slot`inFlight
      ensures slot.inFlight == Monus(old(slot.inFlight), newlyDelivered)
      ensures old(slot.inFlight) <= old(inFlight) ==>
        inFlight - slot.inFlight == old(inFlight) - old(slot.inFlight) && slot.inFlight <= inFlight
    {
      var actual := Min(slot.inFlight, newlyDelivered);
      slot.inFlight := slot.inFlight - actual;
      inFlight := Monus(inFlight, actual);
    }
  }

  class TunnelSlot {
    const window: SendWindow
    var inFlight: nat

    constructor (window: SendWindow)
      ensures this.window == window && inFlight == 0
    {
      this.window, inFlight := window, 0;
    }

    method AbandonInFlight()
      modifies this`inFlight, window`inFlight
      ensures inFlight == 0 && window.inFlight == Monus(old(window.inFlight), old(inFlight))
    {
      var mine := inFlight;
      inFlight := 0;
      window.inFlight := Monus(window.inFlight, mine);
    }

    /** `Drop`. */
    method Close()
      requires window.activeTunnels > 0
      modifies window`inFlight, window`activeTunnels
      ensures window.inFlight == Monus(old(window.inFlight), inFlight)
      ensures window.activeTunnels == old(window.activeTunnels) - 1
    {
      window.inFlight := Monus(window.inFlight, inFlight);
      window.activeTunnels := window.activeTunnels - 1;
    }
  }

  // ---------------------------------------------------------------- fairness

  /** The share is the greatest that goes round: given to every tunnel it stays within the ceiling, unless it
      is the two blocks a tunnel always has, and one block more would not. */
  lemma ShareIsGreatest(ceiling: nat, active: nat)
    ensures var share, n := FairShareOf(ceiling, active), Max(active, 1);
      share >= 2 && (share + 1) * n > ceiling && (share * n <= ceiling || share == 2)
  {
    var n := Max(active, 1);
    var q := ceiling / n;
    assert ceiling == q * n + ceiling % n;
    MulStep(q, n);
    if q < 2 {
      MulStep(2, n);
      assert ceiling < 2 * n;
    }
  }

  lemma ShareTimesTunnels(ceiling: nat, active: nat)
    requires active > 0
    ensures active * FairShareOf(ceiling, active) <= Max(ceiling, MIN_TUNNEL_SHARE_BLOCKS * active)
  {
    var q := ceiling / active;
    assert ceiling == q * active + ceiling % active;
    if q >= MIN_TUNNEL_SHARE_BLOCKS {
      assert active * q == q * active;
    }
  }

  /** Tunnels that each keep within their share together hold at most the ceiling, or two blocks each
      where the ceiling is too small to go round. */
  lemma SharesFit(slots: map<nat, nat>, ceiling: nat)
    requires forall t :: t in slots ==> slots[t] <= FairShareOf(ceiling, |slots.Keys|)
    ensures Sum(slots) <= Max(ceiling, MIN_TUNNEL_SHARE_BLOCKS * |slots.Keys|)
  {
    var n := |slots.Keys|;
    SumBound(slots, FairShareOf(ceiling, n));
    if n > 0 {
      ShareTimesTunnels(ceiling, n);
    } else {
      assert n * FairShareOf(ceiling, n) == 0;
    }
  }

  lemma RoomForOne(others: nat, mine: nat, rest: nat, share: nat, ceiling: nat)
    requires others <= rest * share && mine < share && (rest + 1) * share <= ceiling
    ensures others + mine < ceiling
  {
    MulStep(rest, share);
  }

  lemma OthersFit(slots: map<nat, nat>, me: nat, share: nat)
    requires me in slots && forall t :: t in slots && t != me ==> slots[t] <= share
    ensures Sum(slots - {me}) <= (|slots.Keys| - 1) * share
  {
    var others := slots - {me};
    assert others.Keys == slots.Keys - {me};
    SumBound(others, share);
  }

  lemma ShareSuffices(slots: map<nat, nat>, ceiling: nat, me: nat)
    requires me in slots && MIN_TUNNEL_SHARE_BLOCKS * |slots.Keys| <= ceiling
    requires forall t :: t in slots && t != me ==> slots[t] <= FairShareOf(ceiling, |slots.Keys|)
    ensures slots[me] < FairShareOf(ceiling, |slots.Keys|) ==> Sum(slots) < ceiling
  {
    hide Sum; hide FairShareOf;
    var n := |slots.Keys|;
    var share := FairShareOf(ceiling, n);
    if slots[me] < share {
      SumSplit(slots, me);
      OthersFit(slots, me, share);
      assert me in slots.Keys && n > 0;
      ShareTimesTunnels(ceiling, n);
      RoomForOne(Sum(slots - {me}), slots[me], n - 1, share, ceiling);
    }
  }

  function CountsOf(slots: map<nat, TunnelSlot>): map<nat, nat>
    reads slots.Values
  {
    map t | t in slots :: slots[t].inFlight
  }

  /** A bulk tunnel cannot shut another out: while the ceiling gives every registered tunnel two blocks
      and the others keep within their share, `has_room` lets a tunnel send exactly while it is below
      its own share, whatever the rest of the window holds. */
  lemma ShareIsGuaranteed(w: SendWindow, slots: map<nat, TunnelSlot>, me: nat)
    requires me in slots && w.activeTunnels == |slots.Keys| && w.inFlight == Sum(CountsOf(slots))
    requires MIN_TUNNEL_SHARE_BLOCKS * w.activeTunnels <= w.ceiling
    requires forall t :: t in slots && t != me ==> slots[t].inFlight <= w.FairShare()
    ensures w.HasRoom(slots[me]) <==> slots[me].inFlight < w.FairShare()
  {
    hide Sum; hide FairShareOf;
    assert CountsOf(slots).Keys == slots.Keys;
    ShareSuffices(CountsOf(slots), w.ceiling, me);
  }

  /** The share a tunnel is given grows when another leaves. */
  lemma ShareWidens(ceiling: nat, active: nat)
    requires active > 1
    ensures FairShareOf(ceiling, active - 1) >= FairShareOf(ceiling, active)
  {
    var q := ceiling / active;
    assert ceiling == q * active + ceiling % active;
    assert q * active == q * (active - 1) + q;
    QuotientBounds(ceiling, active - 1, q);
  }
}
