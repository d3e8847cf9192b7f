/** The quarterly summary: the price at the last trading day of every
    complete 63-day quarter of the first series, and the quarter a calendar
    month falls in. */
module QuarterlySummary {
  import opened Prelude
  import opened TimeFrames

  /** `{ index, price }` */
  datatype QuarterPoint = QuarterPoint(index: nat, price: real)

  /** The index of quarter `k`'s last day: 62, 125, 188, ... */
  function QuarterEnd(k: nat): nat
  {
    QuarterDays * k + QuarterDays - 1
  }

  /** The summary of the first series of `simulationData`, nothing when there
      is no series or it is empty: one point per complete quarter, in order,
      at the quarter's last index and carrying the price there. */
  method Summarize(simulationData: seq<seq<real>>) returns (r: Option<seq<QuarterPoint>>)
    ensures r.None? <==> |simulationData| == 0 || |simulationData[0]| == 0
    ensures r.Some? ==>
      var sim := simulationData[0];
      && |r.value| == |sim| / QuarterDays
      && forall k :: 0 <= k < |r.value| ==>
           QuarterEnd(k) < |sim| && r.value[k] == QuarterPoint(QuarterEnd(k), sim[QuarterEnd(k)])
  {
    if |simulationData| == 0 || |simulationData[0]| == 0 {
      return None;
    }
    var sim := simulationData[0];
    var summary: seq<QuarterPoint> := [];
    var i := QuarterDays - 1;
    while i < |sim|
      invariant i == QuarterEnd(|summary|)
      invariant |summary| == 0 || QuarterEnd(|summary| - 1) < |sim|
      invariant forall k :: 0 <= k < |summary| ==>
        QuarterEnd(k) < |sim| && summary[k] == QuarterPoint(QuarterEnd(k), sim[QuarterEnd(k)])
      decreases |sim| - i
    {
      summary := summary + [QuarterPoint(i, sim[i])];
      i := i + QuarterDays;
    }
    return Some(summary);
  }

  /** Sampled indices rise in steps of exactly one quarter. */
  lemma QuarterEndsStep(k: nat)
    ensures QuarterEnd(k + 1) == QuarterEnd(k) + QuarterDays
    ensures QuarterEnd(k) % QuarterDays == QuarterDays - 1
  {
  }

  /** `month < 3 ? "Q1" : month < 6 ? "Q2" : month < 9 ? "Q3" : "Q4"`, as the
      quarter's number; for a calendar month 0..11 it is `month / 3 + 1`. */
  function QuarterOfMonth(month: int): (q: nat)
    ensures 1 <= q <= 4
    ensures 0 <= month < 12 ==> q == month / 3 + 1
  {
    if month < 3 then 1 else if month < 6 then 2 else if month < 9 then 3 else 4
  }
}
