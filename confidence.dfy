/**
 * calculate_confidence: three rule-based levels from the number of days
 * collected and of unhealthy days, lowered one step when the recent
 * missing rate reaches the threshold.
 */
module Confidence {
  import opened Config

  datatype Level = Low | Medium | High

  /** The level before the missing-rate adjustment. */
  function BaseLevel(cfg: Config, days: int, unhealthy: int): Level
  {
    if days >= cfg.confidenceHighDays && unhealthy >= cfg.confidenceHighUnhealthy then High
    else if days >= cfg.confidenceMediumDays && unhealthy >= cfg.confidenceMediumUnhealthy then Medium
    else Low
  }

  /** One step down; Low stays Low. */
  function Downgrade(l: Level): (r: Level)
    ensures l == High ==> r == Medium
    ensures l != High ==> r == Low
  {
    match l
    case High => Medium
    case Medium => Low
    case Low => Low
  }

  function CalculateConfidence(cfg: Config, days: int, unhealthy: int, missingRate: real): Level
  {
    var level := BaseLevel(cfg, days, unhealthy);
    if missingRate >= cfg.missingRateThreshold then Downgrade(level) else level
  }

  function Rank(l: Level): (r: nat)
    ensures r <= 2
  {
    match l
    case Low => 0
    case Medium => 1
    case High => 2
  }

  /**
   * The decision table: High exactly when both high thresholds are met
   * and the missing rate is below its threshold; Medium when the base
   * level is Medium with a low missing rate, or High with a high one;
   * Low otherwise.
   */
  lemma ConfidenceTable(cfg: Config, days: int, unhealthy: int, rate: real)
    ensures var c := CalculateConfidence(cfg, days, unhealthy, rate);
      var high := days >= cfg.confidenceHighDays && unhealthy >= cfg.confidenceHighUnhealthy;
      var medium := days >= cfg.confidenceMediumDays && unhealthy >= cfg.confidenceMediumUnhealthy;
      var lossy := rate >= cfg.missingRateThreshold;
      && (c == High <==> high && !lossy)
      && (c == Medium <==> (high && lossy) || (!high && medium && !lossy))
      && (c == Low <==> (!high && !medium) || (!high && lossy))
  {
  }

  /** A missing rate at or above the threshold costs exactly one level (none at Low). */
  lemma DowngradeOneStep(cfg: Config, days: int, unhealthy: int, rate: real)
    requires rate >= cfg.missingRateThreshold
    ensures var base := BaseLevel(cfg, days, unhealthy);
      var c := CalculateConfidence(cfg, days, unhealthy, rate);
      Rank(c) == if Rank(base) == 0 then 0 else Rank(base) - 1
  {
  }

  /** More days, more unhealthy days or a lower missing rate never lower the level, whatever the settings. */
  lemma ConfidenceMonotone(cfg: Config, d1: int, u1: int, r1: real, d2: int, u2: int, r2: real)
    requires d1 <= d2 && u1 <= u2 && r2 <= r1
    ensures Rank(CalculateConfidence(cfg, d1, u1, r1)) <= Rank(CalculateConfidence(cfg, d2, u2, r2))
  {
  }

  /** The documented settings: the outcomes the backend's tests fix. */
  lemma DocumentedExamples()
    ensures CalculateConfidence(Documented, 20, 3, 0.0) == Low
    ensures CalculateConfidence(Documented, 40, 3, 0.0) == Low
    ensures CalculateConfidence(Documented, 45, 7, 0.0) == Medium
    ensures CalculateConfidence(Documented, 60, 10, 0.0) == High
    ensures CalculateConfidence(Documented, 60, 10, 0.35) == Medium
    ensures CalculateConfidence(Documented, 45, 7, 0.35) == Low
    ensures CalculateConfidence(Documented, 10, 1, 0.5) == Low
  {
  }
}
