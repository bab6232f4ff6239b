/** The transport snapshot every control decision reads. Times are in nanoseconds. */
module Link {
  datatype LossRegime = Random | Congestion | Quiescent

  datatype LinkState = LinkState(smoothedRtt: nat, rttVar: nat, cwndBytes: nat, regime: LossRegime) {
    function StallGrace(): nat { smoothedRtt + 4 * rttVar }

    predicate IsCongested() { regime == Congestion }
  }
}
