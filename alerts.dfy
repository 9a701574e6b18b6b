/**
 * The alert list both job handlers build (pages/api/lib/keepaQueue.js and
 * lib/worker/keepaWorker.js push the same three messages under the same thresholds).
 */
module Alerts {
  import opened Wrappers

  const HighProfit := "High profit opportunity"
  const HighCrashRisk := "High price crash risk"
  const AmazonDominated := "Buy Box dominated by Amazon"

  /** A profit above 50, a crash score above 0.7 and an Amazon buy-box share above 80 each add
      their message, in that order; an absent share compares false. */
  function AlertList(profit: real, crashScore: int, amazonBuyBoxPercent: Option<real>): (alerts: seq<string>)
    ensures HighProfit in alerts <==> profit > 50.0
    ensures HighCrashRisk in alerts <==> crashScore >= 1
    ensures AmazonDominated in alerts <==> amazonBuyBoxPercent.Some? && amazonBuyBoxPercent.value > 80.0
    ensures |alerts| > 0 <==> profit > 50.0 || crashScore >= 1 || (amazonBuyBoxPercent.Some? && amazonBuyBoxPercent.value > 80.0)
    ensures forall i, j :: 0 <= i < j < |alerts| ==> alerts[i] != alerts[j]
    ensures profit > 50.0 ==> alerts[0] == HighProfit
  {
    (if profit > 50.0 then [HighProfit] else [])
    + (if crashScore as real > 0.7 then [HighCrashRisk] else [])
    + (if amazonBuyBoxPercent.Some? && amazonBuyBoxPercent.value > 80.0 then [AmazonDominated] else [])
  }

  /** The handlers' `alerts.push` sequence (pages/api/lib/keepaQueue.js:110-113,
      lib/worker/keepaWorker.js:46-50). */
  method BuildAlerts(profit: real, crashScore: int, amazonBuyBoxPercent: Option<real>) returns (alerts: seq<string>)
    ensures alerts == AlertList(profit, crashScore, amazonBuyBoxPercent)
  {
    alerts := [];
    if profit > 50.0 {
      alerts := alerts + [HighProfit];
    }
    if crashScore as real > 0.7 {
      alerts := alerts + [HighCrashRisk];
    }
    if amazonBuyBoxPercent.Some? && amazonBuyBoxPercent.value > 80.0 {
      alerts := alerts + [AmazonDominated];
    }
  }

  /** For the integer crash scores the handlers receive, "above 0.7" is "at least 1": a crash score
      of 1 out of 100 already raises the alert. */
  lemma CrashAlertThreshold(profit: real, pct: Option<real>)
    ensures HighCrashRisk in AlertList(profit, 1, pct)
    ensures HighCrashRisk !in AlertList(profit, 0, pct)
  {
  }
}
