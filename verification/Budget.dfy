/** The connection-wide cap on repair symbols in flight. */
module Budget {
  import opened Base

  const U64: nat := 0x1_0000_0000_0000_0000

  /** The two atomics, as values. */
  datatype Ledger = Ledger(inFlight: nat, ceiling: nat) {
    predicate Fits(n: nat) { inFlight + n <= ceiling }

    /** All or nothing. */
    function Reserve(n: nat): Ledger
      requires Fits(n)
    {
      this.(inFlight := inFlight + n)
    }

    /** `fetch_sub` on an unsigned 64-bit atomic: it does not saturate, it wraps. */
    function Release(n: nat): Ledger {
      this.(inFlight := if n <= inFlight then inFlight - n else inFlight + U64 - n % U64)
    }
  }

  class RepairBudget {
    var inFlight: nat
    var ceiling: nat
    const symbolSize: nat
    const cwndFractionPpm: nat

    ghost function View(): Ledger
      reads this
    {
      Ledger(inFlight, ceiling)
    }

    constructor (symbolSize: nat, cwndFractionPpm: nat)
      requires cwndFractionPpm <= 1_000_000
      ensures View() == Ledger(0, 0)
      ensures this.symbolSize == Max(symbolSize, 1) && this.cwndFractionPpm == cwndFractionPpm
    {
      this.symbolSize, this.cwndFractionPpm := Max(symbolSize, 1), cwndFractionPpm;
      inFlight, ceiling := 0, 0;
    }

    /** The new ceiling is the largest number of symbols whose bytes stay within the configured
        fraction of the congestion window (a product that saturates at 64 bits). */
    method RefreshCeiling(cwndBytes: nat)
      requires symbolSize > 0
      modifies this`ceiling
      ensures var total := Min(cwndBytes * cwndFractionPpm, U64 - 1);
        ceiling * symbolSize * 1_000_000 <= total < (ceiling + 1) * symbolSize * 1_000_000
    {
      var total := Min(cwndBytes * cwndFractionPpm, U64 - 1);
      var repairBytes := total / 1_000_000;
      ceiling := repairBytes / symbolSize;
      CeilingIsFloor(total, repairBytes, symbolSize, ceiling);
    }

    method TryReserve(n: nat) returns (ok: bool)
      modifies this`inFlight
      ensures ok == old(View()).Fits(n)
      ensures View() == if ok then old(View()).Reserve(n) else old(View())
    {
      ok := inFlight + n <= ceiling;
      if ok {
        inFlight := inFlight + n;
      }
    }

    method Release(n: nat)
      modifies this`inFlight
      ensures View() == old(View()).Release(n)
    {
      inFlight := if n <= inFlight then inFlight - n else inFlight + U64 - n % U64;
    }
  }

  lemma CeilingIsFloor(total: nat, repairBytes: nat, size: nat, c: nat)
    requires size > 0 && repairBytes == total / 1_000_000 && c == repairBytes / size
    ensures c * size * 1_000_000 <= total < (c + 1) * size * 1_000_000
  {
    assert repairBytes == size * c + repairBytes % size;
    assert (c + 1) * size == c * size + size;
    assert repairBytes * 1_000_000 <= total < (repairBytes + 1) * 1_000_000;
  }
}
