/**
 * The settings the backend reads from its config module. Their values
 * are not part of this model, so every operation takes them as a
 * parameter; Documented holds the values the tests and comments fix.
 */
module Config {

  datatype Config = Config(
    minDaysToday: int,
    minDays3d: int,
    minUnhealthy3d: int,
    confidenceHighDays: int,
    confidenceHighUnhealthy: int,
    confidenceMediumDays: int,
    confidenceMediumUnhealthy: int,
    missingRateThreshold: real,
    lgbmMinDays: int,
    lgbmMinUnhealthy: int,
    validationDays: int)

  /** 14-day readiness, 60/10 and 30/5 confidence, 0.3 missing rate, 60/10 gates, 14 test days. */
  const Documented: Config := Config(14, 60, 10, 60, 10, 30, 5, 0.3, 60, 10, 14)
}
