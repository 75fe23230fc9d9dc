/** The buy-and-hold rebalance schedule of qstrader/system/rebalance/buy_and_hold.py. */
module BuyAndHoldRebalance {
  import opened Times

  /** `BuyAndHoldRebalance(start_dt).rebalances`: the start alone; no end date is consulted. */
  function GenerateRebalances(startDt: Timestamp): (rebalances: seq<Timestamp>)
    ensures |rebalances| == 1
    ensures forall t :: t in rebalances <==> t == startDt
  {
    [startDt]
  }
}
