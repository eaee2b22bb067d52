// The tunable parameters of the live win-probability predictor, with the
// default values the predictor ships with (newapp/predictor/config.py).
module PredictorConfig {

  datatype Config = Config(
    // factor scaling
    homeCourtAdjustment: real,
    leadScale: real,
    spreadScale: real,
    efficiencyScale: real,
    sigmoidK: real,
    // weight bounds
    leadWeightMin: real,
    leadWeightMax: real,
    spreadBaseWeight: real,
    efficiencyWeightFull: real,
    efficiencyWeightGated: real,
    possessionEdgeWeightFull: real,
    possessionEdgeWeightGated: real,
    // gating thresholds
    efficiencyGateMinutes: real,
    efficiencyGatePoss: real,
    possessionEdgeGateMinutes: real,
    possessionEdgeGatePoss: real,
    // trailing edge detection
    trailingEdgeMinMargin: int,
    trailingEdgeFactorThreshold: real,
    // underdog watch
    upsetMinMinutes: real,
    upsetWinProbThreshold: real,
    upsetFlipBufferThreshold: real,
    upsetFlipSwingThreshold: real,
    // garbage time
    blowoutLeadThreshold: int,
    blowoutMinutesThreshold: real,
    // overtime
    otDampenFactor: real,
    // possession edge
    possessionEdgeScale: real,
    // data freshness
    staleWarningSec: real,
    staleCriticalSec: real,
    // API settings
    pollIntervalSec: int,
    apiMaxRetries: int,
    apiRetryBackoffMs: int,
    // league averages
    leagueAvgEfg: real,
    leagueAvgTovRate: real)

  function Default(): Config {
    Config(
      2.5, 0.15, 0.08, 5.0, 2.5,
      0.20, 0.35, 0.40, 0.25, 0.10, 0.12, 0.05,
      18.0, 30.0, 24.0, 40.0,
      3, 0.15,
      12.0, 0.40, 0.08, 4.0,
      20, 5.0,
      0.8,
      4.0,
      120.0, 300.0,
      30, 3, 500,
      0.52, 0.13)
  }

  /**
   * The relations between parameters that the model's properties rely on:
   * positive scales and steepness, non-negative weights, a lead weight range,
   * a damping factor in [0, 1] and a positive blowout threshold.
   */
  predicate Sane(c: Config) {
    c.leadScale > 0.0 && c.spreadScale > 0.0 && c.efficiencyScale > 0.0 && c.possessionEdgeScale > 0.0 &&
    c.sigmoidK > 0.0 &&
    0.0 <= c.leadWeightMin <= c.leadWeightMax &&
    c.spreadBaseWeight >= 0.0 &&
    c.efficiencyWeightFull >= 0.0 && c.efficiencyWeightGated >= 0.0 &&
    c.possessionEdgeWeightFull >= 0.0 && c.possessionEdgeWeightGated >= 0.0 &&
    0.0 <= c.otDampenFactor <= 1.0 &&
    c.blowoutLeadThreshold > 0
  }

  lemma DefaultIsSane()
    ensures Sane(Default())
  {
  }
}
