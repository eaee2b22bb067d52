// The weight optimiser of simulate_weights.py: the weight configuration and
// its dictionary form, the adjustment score and prediction under a given
// configuration, the error metrics of a configuration, the grid of
// configurations, and the ranking and acceptance thresholds of a run.
// Fetching records, shuffling, Monte Carlo sampling of configurations and the
// process pool are outside the model.
module SimulateWeights {
  import opened Wrappers
  import opened Arith
  import AutoTune
  import Numerics
  import Sorting

  // ---------------------------------------------------------------------
  // WeightConfig
  // ---------------------------------------------------------------------

  /** One value per adjustment weight. */
  datatype WeightConfig = WeightConfig(
    formMultiplier: real,
    formCap: real,
    paceFast: real,
    paceSlow: real,
    usageHigh: real,
    usageLow: real,
    restB2bRoad: real,
    restB2bHome: real,
    restOptimal: real,
    restRust: real,
    dvpWeak: real,
    dvpStrong: real,
    minutesHigh: real,
    minutesMed: real,
    minutesLow: real,
    consistencyStable: real,
    consistencyVolatile: real)

  /** The defaults, which are the weights currently in use. */
  const CurrentWeights := WeightConfig(6.0, 2.4, 1.8, -1.8, 1.2, -0.8, -2.0, -1.2, 0.4, -0.3,
                                       2.0, -2.0, 2.0, 1.0, -3.0, 1.5, -1.5)

  /** The dictionary keys, one per field, in declaration order. */
  const FieldNames: seq<string> := [
    "form_multiplier", "form_cap", "pace_fast", "pace_slow", "usage_high", "usage_low",
    "rest_b2b_road", "rest_b2b_home", "rest_optimal", "rest_rust", "dvp_weak", "dvp_strong",
    "minutes_high", "minutes_med", "minutes_low", "consistency_stable", "consistency_volatile"]

  /** The field a dictionary key names; 0.0 for a key that names no field. */
  function Field(c: WeightConfig, name: string): real {
    if name == "form_multiplier" then c.formMultiplier
    else if name == "form_cap" then c.formCap
    else if name == "pace_fast" then c.paceFast
    else if name == "pace_slow" then c.paceSlow
    else if name == "usage_high" then c.usageHigh
    else if name == "usage_low" then c.usageLow
    else if name == "rest_b2b_road" then c.restB2bRoad
    else if name == "rest_b2b_home" then c.restB2bHome
    else if name == "rest_optimal" then c.restOptimal
    else if name == "rest_rust" then c.restRust
    else if name == "dvp_weak" then c.dvpWeak
    else if name == "dvp_strong" then c.dvpStrong
    else if name == "minutes_high" then c.minutesHigh
    else if name == "minutes_med" then c.minutesMed
    else if name == "minutes_low" then c.minutesLow
    else if name == "consistency_stable" then c.consistencyStable
    else if name == "consistency_volatile" then c.consistencyVolatile
    else 0.0
  }

  /** Two configurations with the same value under every key are the same configuration. */
  lemma FieldsDetermine(c1: WeightConfig, c2: WeightConfig)
    requires forall i :: 0 <= i < |FieldNames| ==> Field(c1, FieldNames[i]) == Field(c2, FieldNames[i])
    ensures c1 == c2
  {
    assert Field(c1, FieldNames[0]) == Field(c2, FieldNames[0]);
    assert Field(c1, FieldNames[1]) == Field(c2, FieldNames[1]);
    assert Field(c1, FieldNames[2]) == Field(c2, FieldNames[2]);
    assert Field(c1, FieldNames[3]) == Field(c2, FieldNames[3]);
    assert Field(c1, FieldNames[4]) == Field(c2, FieldNames[4]);
    assert Field(c1, FieldNames[5]) == Field(c2, FieldNames[5]);
    assert Field(c1, FieldNames[6]) == Field(c2, FieldNames[6]);
    assert Field(c1, FieldNames[7]) == Field(c2, FieldNames[7]);
    assert Field(c1, FieldNames[8]) == Field(c2, FieldNames[8]);
    assert Field(c1, FieldNames[9]) == Field(c2, FieldNames[9]);
    assert Field(c1, FieldNames[10]) == Field(c2, FieldNames[10]);
    assert Field(c1, FieldNames[11]) == Field(c2, FieldNames[11]);
    assert Field(c1, FieldNames[12]) == Field(c2, FieldNames[12]);
    assert Field(c1, FieldNames[13]) == Field(c2, FieldNames[13]);
    assert Field(c1, FieldNames[14]) == Field(c2, FieldNames[14]);
    assert Field(c1, FieldNames[15]) == Field(c2, FieldNames[15]);
    assert Field(c1, FieldNames[16]) == Field(c2, FieldNames[16]);
  }

  /** A configuration as a dictionary. */
  type WeightDict = map<string, real>

  /** `to_dict`: one entry per field. */
  function ToDict(c: WeightConfig): (d: WeightDict)
    ensures forall k :: k in d <==> k in FieldNames
    ensures forall k :: k in d ==> d[k] == Field(c, k)
  {
    map k | k in FieldNames :: Field(c, k)
  }

  /** `cls(**d)` rejects a key that names no field. */
  const UnexpectedKeyword := "TypeError: unexpected keyword argument"

  /** A dictionary value, or the default when the key is absent. */
  function Get(d: WeightDict, name: string, default: real): real {
    if name in d then d[name] else default
  }

  /** Whether every key names a field. */
  predicate FieldsOnly(d: WeightDict) {
    forall k :: k in d ==> k in FieldNames
  }

  /**
   * `from_dict`, that is `cls(**d)`: a key that names no field raises;
   * every field the dictionary leaves out keeps its default.
   */
  function FromDict(d: WeightDict): (r: Result<WeightConfig, string>)
    ensures r.Err? <==> !FieldsOnly(d)
  {
    if !FieldsOnly(d) then Err(UnexpectedKeyword) else Ok(Build(d))
  }

  /** The configuration with each field taken from the dictionary, or its default when absent. */
  function Build(d: WeightDict): WeightConfig {
    var w := CurrentWeights;
    WeightConfig(
      Get(d, "form_multiplier", w.formMultiplier),
      Get(d, "form_cap", w.formCap),
      Get(d, "pace_fast", w.paceFast),
      Get(d, "pace_slow", w.paceSlow),
      Get(d, "usage_high", w.usageHigh),
      Get(d, "usage_low", w.usageLow),
      Get(d, "rest_b2b_road", w.restB2bRoad),
      Get(d, "rest_b2b_home", w.restB2bHome),
      Get(d, "rest_optimal", w.restOptimal),
      Get(d, "rest_rust", w.restRust),
      Get(d, "dvp_weak", w.dvpWeak),
      Get(d, "dvp_strong", w.dvpStrong),
      Get(d, "minutes_high", w.minutesHigh),
      Get(d, "minutes_med", w.minutesMed),
      Get(d, "minutes_low", w.minutesLow),
      Get(d, "consistency_stable", w.consistencyStable),
      Get(d, "consistency_volatile", w.consistencyVolatile))
  }

  /** Each field of the built configuration is the dictionary's value, or the default when absent. */
  lemma FromDictFields(d: WeightDict)
    requires FieldsOnly(d)
    ensures forall i :: 0 <= i < |FieldNames| ==>
      Field(FromDict(d).value, FieldNames[i]) == Get(d, FieldNames[i], Field(CurrentWeights, FieldNames[i]))
  {
    var c := FromDict(d).value;
    forall i | 0 <= i < |FieldNames|
      ensures Field(c, FieldNames[i]) == Get(d, FieldNames[i], Field(CurrentWeights, FieldNames[i]))
    {
      BuildField(d, i);
    }
  }

  /** One field of the built configuration. */
  lemma BuildField(d: WeightDict, i: int)
    requires 0 <= i < |FieldNames|
    ensures Field(Build(d), FieldNames[i]) == Get(d, FieldNames[i], Field(CurrentWeights, FieldNames[i]))
  {
    if i < 6 {
      BuildFieldsA(d, i);
    } else if i < 12 {
      BuildFieldsB(d, i);
    } else {
      BuildFieldsC(d, i);
    }
  }

  lemma BuildFieldsA(d: WeightDict, i: int)
    requires 0 <= i < 6
    ensures Field(Build(d), FieldNames[i]) == Get(d, FieldNames[i], Field(CurrentWeights, FieldNames[i]))
  {
    var c := Build(d);
    var w := CurrentWeights;
    var k := FieldNames[i];
    if i == 0 {
      assert k == "form_multiplier";
      assert Field(c, k) == c.formMultiplier && Field(w, k) == w.formMultiplier;
    } else if i == 1 {
      assert k == "form_cap";
      assert Field(c, k) == c.formCap && Field(w, k) == w.formCap;
    } else if i == 2 {
      assert k == "pace_fast";
      assert Field(c, k) == c.paceFast && Field(w, k) == w.paceFast;
    } else if i == 3 {
      assert k == "pace_slow";
      assert Field(c, k) == c.paceSlow && Field(w, k) == w.paceSlow;
    } else if i == 4 {
      assert k == "usage_high";
      assert Field(c, k) == c.usageHigh && Field(w, k) == w.usageHigh;
    } else {
      assert k == "usage_low";
      assert Field(c, k) == c.usageLow && Field(w, k) == w.usageLow;
    }
  }

  lemma BuildFieldsB(d: WeightDict, i: int)
    requires 6 <= i < 12
    ensures Field(Build(d), FieldNames[i]) == Get(d, FieldNames[i], Field(CurrentWeights, FieldNames[i]))
  {
    var c := Build(d);
    var w := CurrentWeights;
    var k := FieldNames[i];
    if i == 6 {
      assert k == "rest_b2b_road";
      assert Field(c, k) == c.restB2bRoad && Field(w, k) == w.restB2bRoad;
    } else if i == 7 {
      assert k == "rest_b2b_home";
      assert Field(c, k) == c.restB2bHome && Field(w, k) == w.restB2bHome;
    } else if i == 8 {
      assert k == "rest_optimal";
      assert Field(c, k) == c.restOptimal && Field(w, k) == w.restOptimal;
    } else if i == 9 {
      assert k == "rest_rust";
      assert Field(c, k) == c.restRust && Field(w, k) == w.restRust;
    } else if i == 10 {
      assert k == "dvp_weak";
      assert Field(c, k) == c.dvpWeak && Field(w, k) == w.dvpWeak;
    } else {
      assert k == "dvp_strong";
      assert Field(c, k) == c.dvpStrong && Field(w, k) == w.dvpStrong;
    }
  }

  lemma BuildFieldsC(d: WeightDict, i: int)
    requires 12 <= i < 17
    ensures Field(Build(d), FieldNames[i]) == Get(d, FieldNames[i], Field(CurrentWeights, FieldNames[i]))
  {
    var c := Build(d);
    var w := CurrentWeights;
    var k := FieldNames[i];
    if i == 12 {
      assert k == "minutes_high";
      assert Field(c, k) == c.minutesHigh && Field(w, k) == w.minutesHigh;
    } else if i == 13 {
      assert k == "minutes_med";
      assert Field(c, k) == c.minutesMed && Field(w, k) == w.minutesMed;
    } else if i == 14 {
      assert k == "minutes_low";
      assert Field(c, k) == c.minutesLow && Field(w, k) == w.minutesLow;
    } else if i == 15 {
      assert k == "consistency_stable";
      assert Field(c, k) == c.consistencyStable && Field(w, k) == w.consistencyStable;
    } else {
      assert k == "consistency_volatile";
      assert Field(c, k) == c.consistencyVolatile && Field(w, k) == w.consistencyVolatile;
    }
  }

  /** `from_dict(c.to_dict()) == c`. */
  lemma DictRoundTrip(c: WeightConfig)
    ensures FromDict(ToDict(c)).Ok? && FromDict(ToDict(c)).value == c
  {
    var d := ToDict(c);
    FromDictFields(d);
    FieldsDetermine(FromDict(d).value, c);
  }

  /** A dictionary holding exactly the field keys comes back unchanged through `from_dict` and `to_dict`. */
  lemma ConfigRoundTrip(d: WeightDict)
    requires forall k :: k in d <==> k in FieldNames
    ensures FromDict(d).Ok? && ToDict(FromDict(d).value) == d
  {
    FromDictFields(d);
    var back := ToDict(FromDict(d).value);
    forall k | k in d ensures back[k] == d[k] {
      var i :| 0 <= i < |FieldNames| && FieldNames[i] == k;
    }
  }

  // ---------------------------------------------------------------------
  // compute_adjustment_score_with_weights
  // ---------------------------------------------------------------------

  /** Form: the relative gap of recent over season scoring times the multiplier, kept within ±cap; 0 without a season average. */
  function FormTerm(rec: AutoTune.GameRecord, w: WeightConfig): (r: real)
    ensures rec.seasonPtsAvg <= 0.0 ==> r == 0.0
    ensures w.formCap >= 0.0 ==> -w.formCap <= r <= w.formCap
  {
    if rec.seasonPtsAvg > 0.0 then
      Max(-w.formCap, Min(w.formCap, (rec.l5PtsAvg - rec.seasonPtsAvg) / rec.seasonPtsAvg * w.formMultiplier))
    else 0.0
  }

  /** Pace: the fast weight above 104, the slow weight below 99. */
  function PaceTerm(pace: real, w: WeightConfig): (r: real)
    ensures r == 0.0 || r == w.paceFast || r == w.paceSlow
  {
    if pace > 104.0 then w.paceFast
    else if pace < 99.0 then w.paceSlow
    else 0.0
  }

  /** Usage: the high weight from 28%, the low weight below 20%, nothing when unknown. */
  function UsageTerm(usg: Option<real>, w: WeightConfig): (r: real)
    ensures r == 0.0 || r == w.usageHigh || r == w.usageLow
    ensures usg.None? ==> r == 0.0
  {
    if usg.None? then 0.0
    else if usg.value >= 28.0 then w.usageHigh
    else if usg.value < 20.0 then w.usageLow
    else 0.0
  }

  /**
   * Rest: a back-to-back draws the road or home weight, two days the optimal
   * weight, three or more the rust weight; one day, or a negative count, nothing.
   */
  function RestTerm(daysRest: int, isHome: bool, w: WeightConfig): (r: real)
    ensures r == 0.0 || r == w.restB2bRoad || r == w.restB2bHome || r == w.restOptimal || r == w.restRust
    ensures daysRest < 0 || daysRest == 1 ==> r == 0.0
  {
    if daysRest == 0 then (if !isHome then w.restB2bRoad else w.restB2bHome)
    else if daysRest == 2 then w.restOptimal
    else if daysRest >= 3 then w.restRust
    else 0.0
  }

  /** Defense versus position: the weak or strong weight. */
  function DvpTerm(bucket: string, w: WeightConfig): (r: real)
    ensures r == 0.0 || r == w.dvpWeak || r == w.dvpStrong
  {
    if bucket == "WEAK" then w.dvpWeak
    else if bucket == "STRONG" then w.dvpStrong
    else 0.0
  }

  /** Minutes: the high weight from 34, the medium weight from 30, the low weight below 26. */
  function MinutesTerm(minutes: real, w: WeightConfig): (r: real)
    ensures r == 0.0 || r == w.minutesHigh || r == w.minutesMed || r == w.minutesLow
    ensures 26.0 <= minutes < 30.0 ==> r == 0.0
  {
    if minutes >= 34.0 then w.minutesHigh
    else if minutes >= 30.0 then w.minutesMed
    else if minutes < 26.0 then w.minutesLow
    else 0.0
  }

  /** Consistency: the stable weight for a recent stdev up to 5, the volatile weight above 7. */
  function ConsistencyTerm(stdev: real, w: WeightConfig): (r: real)
    ensures r == 0.0 || r == w.consistencyStable || r == w.consistencyVolatile
  {
    if stdev <= 5.0 then w.consistencyStable
    else if stdev > 7.0 then w.consistencyVolatile
    else 0.0
  }

  /** `compute_adjustment_score_with_weights`: the sum of the seven weighted terms. */
  function ScoreWithWeights(rec: AutoTune.GameRecord, w: WeightConfig): real {
    FormTerm(rec, w)
    + PaceTerm(rec.paceEnv, w)
    + UsageTerm(rec.usgPct, w)
    + RestTerm(rec.daysRest, rec.isHome, w)
    + DvpTerm(rec.dvpBucket, w)
    + MinutesTerm(AutoTune.ProjectedMinutes(rec), w)
    + ConsistencyTerm(rec.l5PtsStdev, w)
  }

  /** The weights the tuner's own factor values use. */
  const TunerWeights := WeightConfig(8.0, 3.2, 2.2, -2.2, 1.5, -1.0, -2.5, -1.5, 0.5, -0.3,
                                     2.4, -2.4, 1.7, 0.85, -2.5, 1.5, -1.5)

  /** The tuner's seven score factors, summed. */
  function TunerScore(rec: AutoTune.GameRecord): real {
    AutoTune.UsageValue(rec.usgPct)
    + AutoTune.DvpValue(rec.dvpBucket)
    + AutoTune.RestValue(rec.daysRest, rec.isHome)
    + AutoTune.PaceValue(rec.paceEnv)
    + AutoTune.MinutesValue(AutoTune.ProjectedMinutes(rec))
    + AutoTune.FormValue(rec.seasonPtsAvg, rec.l5PtsAvg)
    + AutoTune.ConsistencyValue(rec.l5PtsStdev)
  }

  /**
   * Under the tuner's weights the weighted score is the sum of the tuner's
   * seven factor values, except that a negative rest count, which the tuner
   * treats as rust, scores nothing here.
   */
  lemma TunerWeightsAgree(rec: AutoTune.GameRecord)
    ensures rec.daysRest >= 0 ==> ScoreWithWeights(rec, TunerWeights) == TunerScore(rec)
    ensures rec.daysRest < 0 ==> ScoreWithWeights(rec, TunerWeights) == TunerScore(rec) + 0.3
  {
    var w := TunerWeights;
    assert FormTerm(rec, w) == AutoTune.FormValue(rec.seasonPtsAvg, rec.l5PtsAvg);
    assert PaceTerm(rec.paceEnv, w) == AutoTune.PaceValue(rec.paceEnv);
    assert UsageTerm(rec.usgPct, w) == AutoTune.UsageValue(rec.usgPct);
    assert DvpTerm(rec.dvpBucket, w) == AutoTune.DvpValue(rec.dvpBucket);
    assert MinutesTerm(AutoTune.ProjectedMinutes(rec), w) == AutoTune.MinutesValue(AutoTune.ProjectedMinutes(rec));
    assert ConsistencyTerm(rec.l5PtsStdev, w) == AutoTune.ConsistencyValue(rec.l5PtsStdev);
  }

  /** Every weight except the two form weights is at least as large in `w2`, and the form weights are equal. */
  predicate NoLess(w1: WeightConfig, w2: WeightConfig) {
    w1.formMultiplier == w2.formMultiplier && w1.formCap == w2.formCap &&
    w1.paceFast <= w2.paceFast && w1.paceSlow <= w2.paceSlow &&
    w1.usageHigh <= w2.usageHigh && w1.usageLow <= w2.usageLow &&
    w1.restB2bRoad <= w2.restB2bRoad && w1.restB2bHome <= w2.restB2bHome &&
    w1.restOptimal <= w2.restOptimal && w1.restRust <= w2.restRust &&
    w1.dvpWeak <= w2.dvpWeak && w1.dvpStrong <= w2.dvpStrong &&
    w1.minutesHigh <= w2.minutesHigh && w1.minutesMed <= w2.minutesMed && w1.minutesLow <= w2.minutesLow &&
    w1.consistencyStable <= w2.consistencyStable && w1.consistencyVolatile <= w2.consistencyVolatile
  }

  /** Each non-form weight enters the score with coefficient one, so raising weights never lowers a score. */
  lemma ScoreMonotoneInWeights(rec: AutoTune.GameRecord, w1: WeightConfig, w2: WeightConfig)
    requires NoLess(w1, w2)
    ensures ScoreWithWeights(rec, w1) <= ScoreWithWeights(rec, w2)
  {
    assert FormTerm(rec, w1) == FormTerm(rec, w2);
    assert PaceTerm(rec.paceEnv, w1) <= PaceTerm(rec.paceEnv, w2);
    assert UsageTerm(rec.usgPct, w1) <= UsageTerm(rec.usgPct, w2);
    assert RestTerm(rec.daysRest, rec.isHome, w1) <= RestTerm(rec.daysRest, rec.isHome, w2);
    assert DvpTerm(rec.dvpBucket, w1) <= DvpTerm(rec.dvpBucket, w2);
    var m := AutoTune.ProjectedMinutes(rec);
    assert MinutesTerm(m, w1) <= MinutesTerm(m, w2);
    assert ConsistencyTerm(rec.l5PtsStdev, w1) <= ConsistencyTerm(rec.l5PtsStdev, w2);
  }

  // ---------------------------------------------------------------------
  // compute_predictions_with_weights
  // ---------------------------------------------------------------------

  /** The score as a fraction of the baseline: a fortieth of it, kept within ±15%. */
  function AdjustedPct(score: real): (p: real)
    ensures -0.15 <= p <= 0.15
    ensures -6.0 <= score <= 6.0 ==> p == score / 40.0
  {
    Cap(score / 40.0, -0.15, 0.15)
  }

  /** The baseline moved by the adjusted fraction of a score. */
  function Scaled(b: real, score: real): (p: real)
    ensures b >= 0.0 ==> 0.85 * b <= p <= 1.15 * b
  {
    var f := 1.0 + AdjustedPct(score);
    assert b >= 0.0 ==> 0.85 * b <= b * f <= 1.15 * b by {
      if b >= 0.0 {
        MinuteScaleBounds(b, f);
      }
    }
    b * f
  }

  /** A higher score never lowers a non-negative baseline's scaled value. */
  lemma ScaledMonotone(b: real, s1: real, s2: real)
    requires s1 <= s2 && b >= 0.0
    ensures Scaled(b, s1) <= Scaled(b, s2)
  {
    var f1, f2 := 1.0 + AdjustedPct(s1), 1.0 + AdjustedPct(s2);
    assert f1 <= f2 by {
      assert s1 / 40.0 <= s2 / 40.0;
      CapMonotone(s1 / 40.0, s2 / 40.0, -0.15, 0.15);
    }
    MulMonotone(b, f1, f2);
    assert Scaled(b, s1) == b * f1 && Scaled(b, s2) == b * f2;
  }

  /**
   * The prediction for one record and a given score: the scaled baseline,
   * with no upside when the projected minutes are below 26.
   */
  function PredictFromScore(rec: AutoTune.GameRecord, score: real): (p: real)
    ensures rec.baselineProj >= 0.0 ==> 0.85 * rec.baselineProj <= p <= 1.15 * rec.baselineProj
    ensures AutoTune.ProjectedMinutes(rec) < 26.0 ==> p <= rec.baselineProj
  {
    var adj := Scaled(rec.baselineProj, score);
    if AutoTune.ProjectedMinutes(rec) < 26.0 then Min(adj, rec.baselineProj) else adj
  }

  /** A higher score never lowers the prediction of a non-negative baseline. */
  lemma PredictFromScoreMonotone(rec: AutoTune.GameRecord, s1: real, s2: real)
    requires s1 <= s2 && rec.baselineProj >= 0.0
    ensures PredictFromScore(rec, s1) <= PredictFromScore(rec, s2)
  {
    ScaledMonotone(rec.baselineProj, s1, s2);
    MinMonotone(Scaled(rec.baselineProj, s1), Scaled(rec.baselineProj, s2), rec.baselineProj);
  }

  /** The prediction for one record under a weight configuration. */
  function Predict(rec: AutoTune.GameRecord, w: WeightConfig): real {
    PredictFromScore(rec, ScoreWithWeights(rec, w))
  }

  /** Raising the non-form weights never lowers a prediction of a non-negative baseline. */
  lemma PredictMonotoneInWeights(rec: AutoTune.GameRecord, w1: WeightConfig, w2: WeightConfig)
    requires NoLess(w1, w2) && rec.baselineProj >= 0.0
    ensures Predict(rec, w1) <= Predict(rec, w2)
  {
    ScoreMonotoneInWeights(rec, w1, w2);
    PredictFromScoreMonotone(rec, ScoreWithWeights(rec, w1), ScoreWithWeights(rec, w2));
  }

  /** (predicted, actual) for each record, in order. */
  function Predictions(records: seq<AutoTune.GameRecord>, w: WeightConfig): (r: seq<(real, real)>)
    ensures |r| == |records|
    ensures forall i :: 0 <= i < |records| ==> r[i] == (Predict(records[i], w), records[i].actualPts)
  {
    if records == [] then []
    else
      var last := records[|records| - 1];
      Predictions(records[..|records| - 1], w) + [(Predict(last, w), last.actualPts)]
  }

  /** `compute_predictions_with_weights`: the loop over the records. */
  method ComputePredictions(records: seq<AutoTune.GameRecord>, w: WeightConfig) returns (r: seq<(real, real)>)
    ensures |r| == |records|
    ensures forall i :: 0 <= i < |records| ==> r[i] == (Predict(records[i], w), records[i].actualPts)
  {
    r := [];
    for j := 0 to |records|
      invariant |r| == j
      invariant forall i :: 0 <= i < j ==> r[i] == (Predict(records[i], w), records[i].actualPts)
    {
      var rec := records[j];
      var score := ScoreWithWeights(rec, w);
      var pred := Scaled(rec.baselineProj, score);
      if AutoTune.ProjectedMinutes(rec) < 26.0 {
        pred := Min(pred, rec.baselineProj);
      }
      r := r + [(pred, rec.actualPts)];
    }
  }

  // ---------------------------------------------------------------------
  // evaluate_config
  // ---------------------------------------------------------------------

  /** prediction - actual for each pair. */
  function Errors(preds: seq<(real, real)>): (e: seq<real>)
    ensures |e| == |preds| && forall i :: 0 <= i < |preds| ==> e[i] == preds[i].0 - preds[i].1
  {
    if preds == [] then []
    else Errors(preds[..|preds| - 1]) + [preds[|preds| - 1].0 - preds[|preds| - 1].1]
  }

  /** The metrics of one split. */
  datatype SplitMetrics = SplitMetrics(mae: real, rmse: real, bias: real, within5Pct: real, nPlayers: nat)

  /**
   * Mean absolute error, root mean squared error, mean error and the share
   * within 5 points, each 0 for an empty split; the same quantities as the
   * tuner's accuracy metrics.
   */
  function SplitMetricsOf(errors: seq<real>, nPlayers: nat, m: Numerics.RealOps): (r: SplitMetrics)
    ensures r.nPlayers == nPlayers
    ensures errors == [] ==> r.mae == 0.0 && r.rmse == 0.0 && r.bias == 0.0 && r.within5Pct == 0.0
    ensures errors != [] ==> (
      var a := AutoTune.AccuracyMetricsOf(errors, m).value;
      r.mae == a.mae && r.rmse == a.rmse && r.bias == a.bias && r.within5Pct == a.within5Pct)
  {
    if errors == [] then SplitMetrics(0.0, 0.0, 0.0, 0.0, nPlayers)
    else
      var n := |errors| as real;
      var abs := AutoTune.AbsAll(errors);
      SplitMetrics(
        AutoTune.Sum(abs) / n,
        m.sqrt(AutoTune.Sum(AutoTune.Squares(errors)) / n),
        AutoTune.Sum(errors) / n,
        AutoTune.CountAtMost(abs, 5.0) as real / n * 100.0,
        nPlayers)
  }

  /** The within-5 share is a percentage and the mean error never exceeds the mean absolute error in size. */
  predicate SaneMetrics(s: SplitMetrics) {
    0.0 <= s.within5Pct <= 100.0 && Abs(s.bias) <= s.mae
  }

  lemma SplitMetricsSane(errors: seq<real>, nPlayers: nat, m: Numerics.RealOps)
    ensures SaneMetrics(SplitMetricsOf(errors, nPlayers, m))
  {
    if errors != [] {
      AutoTune.AccuracyMetricsBounds(errors, m);
    }
  }

  /** The outcome of testing one weight configuration. */
  datatype SimulationResult = SimulationResult(
    config: WeightConfig,
    train: SplitMetrics,
    validation: SplitMetrics,
    configId: string,
    rank: int)

  /** The metrics of one split under a configuration. */
  function EvaluateSplit(records: seq<AutoTune.GameRecord>, w: WeightConfig, m: Numerics.RealOps): (r: SplitMetrics)
    ensures r.nPlayers == |records|
    ensures SaneMetrics(r)
  {
    SplitMetricsSane(Errors(Predictions(records, w)), |records|, m);
    SplitMetricsOf(Errors(Predictions(records, w)), |records|, m)
  }

  /** `evaluate_config`: the metrics on both splits, with no id and rank 0 yet. */
  function EvaluateConfig(w: WeightConfig, train: seq<AutoTune.GameRecord>, validation: seq<AutoTune.GameRecord>,
                          m: Numerics.RealOps): (r: SimulationResult)
    ensures r.config == w && r.rank == 0 && r.configId == ""
    ensures r.train.nPlayers == |train| && r.validation.nPlayers == |validation|
    ensures SaneMetrics(r.train) && SaneMetrics(r.validation)
  {
    SimulationResult(w, EvaluateSplit(train, w, m), EvaluateSplit(validation, w, m), "", 0)
  }

  // ---------------------------------------------------------------------
  // generate_grid_configs
  // ---------------------------------------------------------------------

  /** The number of combinations: the product of the list lengths. */
  function CountCombinations(lists: seq<seq<real>>): nat {
    if lists == [] then 1 else |lists[0]| * CountCombinations(lists[1..])
  }

  /** `[x] + t` for every tail `t`, in order. */
  function Prefixed(x: real, tails: seq<seq<real>>): (r: seq<seq<real>>)
    ensures |r| == |tails| && forall i :: 0 <= i < |tails| ==> r[i] == [x] + tails[i]
  {
    seq(|tails|, i requires 0 <= i < |tails| => [x] + tails[i])
  }

  /** Every tail prefixed by each value in turn: the first value's block, then the next value's. */
  function PrefixedAll(xs: seq<real>, tails: seq<seq<real>>): seq<seq<real>> {
    if xs == [] then [] else Prefixed(xs[0], tails) + PrefixedAll(xs[1..], tails)
  }

  /** `itertools.product(*lists)`: every combination, the first list varying slowest. */
  function Product(lists: seq<seq<real>>): seq<seq<real>>
    decreases |lists|
  {
    if lists == [] then [[]] else PrefixedAll(lists[0], Product(lists[1..]))
  }

  /** `c` takes one value from each list, in order. */
  predicate Choice(c: seq<real>, lists: seq<seq<real>>) {
    |c| == |lists| && forall i :: 0 <= i < |lists| ==> c[i] in lists[i]
  }

  lemma {:induction false} PrefixedAllCount(xs: seq<real>, tails: seq<seq<real>>)
    ensures |PrefixedAll(xs, tails)| == |xs| * |tails|
  {
    if xs != [] {
      PrefixedAllCount(xs[1..], tails);
      assert |xs| * |tails| == |tails| + (|xs| - 1) * |tails|;
    }
  }

  lemma {:induction false} PrefixedAllMembers(xs: seq<real>, tails: seq<seq<real>>, c: seq<real>)
    ensures c in PrefixedAll(xs, tails) <==> |c| > 0 && c[0] in xs && c[1..] in tails
  {
    if xs != [] {
      PrefixedAllMembers(xs[1..], tails, c);
      var p := Prefixed(xs[0], tails);
      if c in p {
        var i :| 0 <= i < |p| && p[i] == c;
        assert c[1..] == tails[i];
      }
      if |c| > 0 && c[0] == xs[0] && c[1..] in tails {
        var i :| 0 <= i < |tails| && tails[i] == c[1..];
        assert c == [xs[0]] + tails[i] == p[i];
      }
      assert xs == [xs[0]] + xs[1..];
    }
  }

  /** There are as many combinations as the product of the list lengths. */
  lemma {:induction false} ProductCount(lists: seq<seq<real>>)
    ensures |Product(lists)| == CountCombinations(lists)
  {
    if lists != [] {
      ProductCount(lists[1..]);
      PrefixedAllCount(lists[0], Product(lists[1..]));
    }
  }

  /** The combinations are exactly the choices of one value per list. */
  lemma {:induction false} ProductMembers(lists: seq<seq<real>>, c: seq<real>)
    ensures c in Product(lists) <==> Choice(c, lists)
  {
    if lists != [] {
      PrefixedAllMembers(lists[0], Product(lists[1..]), c);
      if |c| > 0 {
        ProductMembers(lists[1..], c[1..]);
        if Choice(c[1..], lists[1..]) && c[0] in lists[0] {
          forall i | 0 <= i < |lists| ensures c[i] in lists[i] {
            if i > 0 {
              assert c[1..][i - 1] == c[i];
            }
          }
        }
        if Choice(c, lists) {
          forall i | 0 <= i < |lists| - 1 ensures c[1..][i] in lists[1..][i] {
            assert c[i + 1] in lists[i + 1];
          }
        }
      }
    }
  }

  /** Every combination has one value per list. */
  lemma ProductLengths(lists: seq<seq<real>>)
    ensures forall c :: c in Product(lists) ==> |c| == |lists|
  {
    forall c | c in Product(lists) ensures |c| == |lists| {
      ProductMembers(lists, c);
    }
  }

  /** The names in order of first appearance, each once, as the keys of a dict built from them. */
  function Dedup(names: seq<string>): (r: seq<string>)
    ensures forall x :: x in r <==> x in names
    ensures forall i, j :: 0 <= i < j < |r| ==> r[i] != r[j]
  {
    if names == [] then []
    else
      var init := names[..|names| - 1];
      var last := names[|names| - 1];
      assert names == init + [last];
      var d := Dedup(init);
      if last in d then d else d + [last]
  }

  /** The error of `config_dict[factor]` for a factor that names no weight. */
  const KeyError := "KeyError: factor names no weight"

  /** The values one factor takes: its grid steps, or else its base value alone. */
  function ValuesOf(base: WeightConfig, factor: string, gridSteps: map<string, seq<real>>): seq<real> {
    if factor in gridSteps then gridSteps[factor] else [Field(base, factor)]
  }

  /** The value list of each factor, in order. */
  function FactorLists(base: WeightConfig, names: seq<string>, gridSteps: map<string, seq<real>>): (r: seq<seq<real>>)
    ensures |r| == |names| && forall i :: 0 <= i < |names| ==> r[i] == ValuesOf(base, names[i], gridSteps)
  {
    seq(|names|, i requires 0 <= i < |names| => ValuesOf(base, names[i], gridSteps))
  }

  /** `d` with `names[i]` set to `vals[i]`, one after another, for as many pairs as `zip` makes. */
  function Overlay(d: WeightDict, names: seq<string>, vals: seq<real>): (r: WeightDict)
    ensures forall k :: k in d ==> k in r
    ensures forall k :: k in r ==> k in d || k in names
    ensures forall i :: 0 <= i < |names| && i < |vals| ==> names[i] in r
    decreases |names|
  {
    if names == [] || vals == [] then d else Overlay(d[names[0] := vals[0]], names[1..], vals[1..])
  }

  /** Distinct names get their own values, and every other key keeps its value. */
  lemma {:induction false} OverlayValues(d: WeightDict, names: seq<string>, vals: seq<real>)
    requires |vals| == |names|
    requires forall i, j :: 0 <= i < j < |names| ==> names[i] != names[j]
    ensures forall i :: 0 <= i < |names| ==> Overlay(d, names, vals)[names[i]] == vals[i]
    ensures forall k :: k in d && k !in names ==> Overlay(d, names, vals)[k] == d[k]
    decreases |names|
  {
    if names != [] {
      var d' := d[names[0] := vals[0]];
      OverlayValues(d', names[1..], vals[1..]);
      var r := Overlay(d, names, vals);
      forall i | 0 <= i < |names| ensures r[names[i]] == vals[i] {
        if i > 0 {
          assert names[1..][i - 1] == names[i];
        } else {
          assert names[0] !in names[1..];
        }
      }
    }
  }

  /** The configuration of one combination: the base dictionary with each factor set to its value. */
  lemma OverlayConfig(d: WeightDict, names: seq<string>, vals: seq<real>)
    requires |vals| == |names|
    requires forall k :: k in d <==> k in FieldNames
    requires forall n :: n in names ==> n in FieldNames
    requires forall i, j :: 0 <= i < j < |names| ==> names[i] != names[j]
    ensures FromDict(Overlay(d, names, vals)).Ok?
    ensures forall i :: 0 <= i < |names| ==> Field(FromDict(Overlay(d, names, vals)).value, names[i]) == vals[i]
    ensures forall k :: k in FieldNames && k !in names ==> Field(FromDict(Overlay(d, names, vals)).value, k) == d[k]
  {
    var o := Overlay(d, names, vals);
    OverlayValues(d, names, vals);
    FromDictFields(o);
    var c := FromDict(o).value;
    forall k | k in FieldNames ensures Field(c, k) == o[k] {
      var t :| 0 <= t < |FieldNames| && FieldNames[t] == k;
    }
  }

  /** The values of `f` over `xs`, in order, stopping at the first error, as an exception raised in a loop would. */
  function CollectAll<T, U>(xs: seq<T>, f: T -> Result<U, string>): Result<seq<U>, string> {
    if xs == [] then Ok([])
    else
      match CollectAll(xs[..|xs| - 1], f)
      case Err(e) => Err(e)
      case Ok(us) =>
        var r := f(xs[|xs| - 1]);
        if r.Err? then Err(r.error) else Ok(us + [r.value])
  }

  /** When `f` succeeds on every element, the collection succeeds with one value per element. */
  lemma {:induction false} CollectAllOk<T, U>(xs: seq<T>, f: T -> Result<U, string>)
    requires forall j :: 0 <= j < |xs| ==> f(xs[j]).Ok?
    ensures CollectAll(xs, f).Ok?
    ensures |CollectAll(xs, f).value| == |xs|
    ensures forall j :: 0 <= j < |xs| ==> CollectAll(xs, f).value[j] == f(xs[j]).value
  {
    if xs != [] {
      var init := xs[..|xs| - 1];
      assert forall j :: 0 <= j < |init| ==> init[j] == xs[j];
      CollectAllOk(init, f);
    }
  }

  /** One more element extends the collection, or stops at its error. */
  lemma CollectAllSnoc<T, U>(xs: seq<T>, f: T -> Result<U, string>, j: int, us: seq<U>)
    requires 0 <= j < |xs| && CollectAll(xs[..j], f) == Ok(us)
    ensures CollectAll(xs[..j + 1], f) == if f(xs[j]).Ok? then Ok(us + [f(xs[j]).value]) else Err(f(xs[j]).error)
  {
    assert xs[..j + 1][..j] == xs[..j];
  }

  /** Once a prefix fails, the whole collection fails with the same error. */
  lemma {:induction false} CollectAllErr<T, U>(xs: seq<T>, f: T -> Result<U, string>, j: int)
    requires 0 <= j <= |xs| && CollectAll(xs[..j], f).Err?
    ensures CollectAll(xs, f) == CollectAll(xs[..j], f)
    decreases |xs| - j
  {
    if j < |xs| {
      assert xs[..j + 1][..j] == xs[..j];
      assert CollectAll(xs[..j + 1], f) == CollectAll(xs[..j], f);
      CollectAllErr(xs, f, j + 1);
    } else {
      assert xs[..j] == xs;
    }
  }

  /** The configuration of one combination, through `from_dict`. */
  function ConfigOf(d: WeightDict, names: seq<string>, combo: seq<real>): Result<WeightConfig, string> {
    FromDict(Overlay(d, names, combo))
  }

  /** Whether every factor names a weight. */
  predicate AllWeights(factors: seq<string>) {
    forall f :: f in factors ==> f in FieldNames
  }

  /**
   * `generate_grid_configs`: a factor that names no weight raises, since the
   * default of the grid lookup is evaluated first; otherwise one configuration
   * per combination of the distinct factors' values, every other weight kept
   * from the base.
   */
  function GridConfigs(base: WeightConfig, factors: seq<string>, gridSteps: map<string, seq<real>>): (r: Result<seq<WeightConfig>, string>)
    ensures r.Err? <==> !AllWeights(factors)
  {
    if !AllWeights(factors) then Err(KeyError)
    else
      var names := Dedup(factors);
      var d := ToDict(base);
      var combos := Product(FactorLists(base, names, gridSteps));
      GridCombosOk(base, factors, gridSteps);
      CollectAllOk(combos, c => ConfigOf(d, names, c));
      CollectAll(combos, c => ConfigOf(d, names, c))
  }

  /** Each combination of weight factors passes `from_dict`, with its values in place and the base's elsewhere. */
  lemma GridCombosOk(base: WeightConfig, factors: seq<string>, gridSteps: map<string, seq<real>>)
    requires AllWeights(factors)
    ensures var names := Dedup(factors);
      var d := ToDict(base);
      var combos := Product(FactorLists(base, names, gridSteps));
      forall j :: 0 <= j < |combos| ==>
        |combos[j]| == |names| && ConfigOf(d, names, combos[j]).Ok? &&
        (forall i :: 0 <= i < |names| ==> Field(ConfigOf(d, names, combos[j]).value, names[i]) == combos[j][i]) &&
        (forall k :: k in FieldNames && k !in factors ==> Field(ConfigOf(d, names, combos[j]).value, k) == Field(base, k))
  {
    var names := Dedup(factors);
    var lists := FactorLists(base, names, gridSteps);
    var combos := Product(lists);
    var d := ToDict(base);
    ProductLengths(lists);
    assert forall n :: n in names ==> n in FieldNames;
    assert forall k :: k in FieldNames && k !in factors ==> k !in names && d[k] == Field(base, k);
    forall j | 0 <= j < |combos|
      ensures |combos[j]| == |names| && ConfigOf(d, names, combos[j]).Ok?
      ensures forall i :: 0 <= i < |names| ==> Field(ConfigOf(d, names, combos[j]).value, names[i]) == combos[j][i]
      ensures forall k :: k in FieldNames && k !in factors ==> Field(ConfigOf(d, names, combos[j]).value, k) == Field(base, k)
    {
      assert combos[j] in combos;
      OverlayConfig(d, names, combos[j]);
    }
  }

  /**
   * The grid holds one configuration per combination: the distinct factors
   * take the combination's values and every other weight is the base's.
   */
  lemma GridConfigsSpec(base: WeightConfig, factors: seq<string>, gridSteps: map<string, seq<real>>)
    requires AllWeights(factors)
    ensures var r := GridConfigs(base, factors, gridSteps).value;
      var names := Dedup(factors);
      var combos := Product(FactorLists(base, names, gridSteps));
      |r| == |combos| && |r| == CountCombinations(FactorLists(base, names, gridSteps)) &&
      forall j :: 0 <= j < |r| ==>
        |combos[j]| == |names| &&
        (forall i :: 0 <= i < |names| ==> Field(r[j], names[i]) == combos[j][i]) &&
        (forall k :: k in FieldNames && k !in factors ==> Field(r[j], k) == Field(base, k))
  {
    var names := Dedup(factors);
    var lists := FactorLists(base, names, gridSteps);
    var combos := Product(lists);
    var d := ToDict(base);
    var f := c => ConfigOf(d, names, c);
    ProductCount(lists);
    GridCombosOk(base, factors, gridSteps);
    CollectAllOk(combos, f);
  }

  /** Every choice of one value per factor is somewhere in the grid, and only such choices are. */
  lemma GridConfigsComplete(base: WeightConfig, factors: seq<string>, gridSteps: map<string, seq<real>>, c: seq<real>)
    requires AllWeights(factors)
    ensures var lists := FactorLists(base, Dedup(factors), gridSteps);
      c in Product(lists) <==> Choice(c, lists)
  {
    ProductMembers(FactorLists(base, Dedup(factors), gridSteps), c);
  }

  /** The inner loop of the grid: the base dictionary with each factor set to its value of the combination. */
  method SetFactors(d: WeightDict, names: seq<string>, combo: seq<real>) returns (nd: WeightDict)
    ensures nd == Overlay(d, names, combo)
  {
    nd := d;
    var n := if |names| <= |combo| then |names| else |combo|;
    for t := 0 to n
      invariant Overlay(nd, names[t..], combo[t..]) == Overlay(d, names, combo)
    {
      assert names[t..][1..] == names[t + 1..] && combo[t..][1..] == combo[t + 1..];
      nd := nd[names[t] := combo[t]];
    }
    assert names[n..] == [] || combo[n..] == [];
  }

  /**
   * The first loop of `generate_grid_configs`: the distinct factors and their
   * value lists, or the error of the first factor that names no weight.
   */
  method FactorValueLists(base: WeightConfig, factors: seq<string>, gridSteps: map<string, seq<real>>)
    returns (r: Result<(seq<string>, seq<seq<real>>), string>)
    ensures r.Err? <==> !AllWeights(factors)
    ensures r.Err? ==> r.error == KeyError
    ensures r.Ok? ==> r.value.0 == Dedup(factors) && r.value.1 == FactorLists(base, Dedup(factors), gridSteps)
  {
    var d := ToDict(base);
    var names: seq<string> := [];
    var lists: seq<seq<real>> := [];
    for i := 0 to |factors|
      invariant names == Dedup(factors[..i])
      invariant lists == FactorLists(base, names, gridSteps)
      invariant AllWeights(factors[..i])
    {
      var f := factors[i];
      assert factors[..i + 1] == factors[..i] + [f];
      if f !in d {
        assert !AllWeights(factors);
        return Err(KeyError);
      }
      if f !in names {
        var vals := if f in gridSteps then gridSteps[f] else [d[f]];
        names := names + [f];
        lists := lists + [vals];
      }
    }
    assert factors[..|factors|] == factors;
    return Ok((names, lists));
  }

  /** The second loop of `generate_grid_configs`: one configuration per combination, in order. */
  method CollectConfigs(d: WeightDict, names: seq<string>, combos: seq<seq<real>>) returns (r: Result<seq<WeightConfig>, string>)
    ensures r == CollectAll(combos, c => ConfigOf(d, names, c))
  {
    var f := c => ConfigOf(d, names, c);
    var configs: seq<WeightConfig> := [];
    for j := 0 to |combos|
      invariant CollectAll(combos[..j], f) == Ok(configs)
    {
      var nd := SetFactors(d, names, combos[j]);
      var c := FromDict(nd);
      CollectAllSnoc(combos, f, j, configs);
      if c.Err? {
        CollectAllErr(combos, f, j + 1);
        return Err(c.error);
      }
      configs := configs + [c.value];
    }
    assert combos[..|combos|] == combos;
    return Ok(configs);
  }

  /** `generate_grid_configs`: the factor lists, then one configuration per combination. */
  method GenerateGridConfigs(base: WeightConfig, factors: seq<string>, gridSteps: map<string, seq<real>>)
    returns (r: Result<seq<WeightConfig>, string>)
    ensures r == GridConfigs(base, factors, gridSteps)
  {
    var fl := FactorValueLists(base, factors, gridSteps);
    if fl.Err? {
      return Err(fl.error);
    }
    var (names, lists) := fl.value;
    r := CollectConfigs(ToDict(base), names, Product(lists));
  }

  // ---------------------------------------------------------------------
  // run_simulation: the split, the ranking and the thresholds
  // ---------------------------------------------------------------------

  /** A slice bound as Python reads it: a negative one counts from the end, and both ends clamp. */
  function SliceBound(k: int, n: nat): (r: nat)
    ensures r <= n
    ensures 0 <= k <= n ==> r == k
    ensures k > n ==> r == n
    ensures k < 0 ==> r == if n + k < 0 then 0 else n + k
  {
    if k < 0 then (if n + k < 0 then 0 else n + k) else if k > n then n else k
  }

  /** `records[:split_idx]` and `records[split_idx:]`, with `split_idx = int(len(records) * train_ratio)`. */
  function SplitRecords<T>(records: seq<T>, ratio: real): (r: (seq<T>, seq<T>))
    ensures r.0 + r.1 == records
  {
    var k := SliceBound(Trunc(|records| as real * ratio), |records|);
    assert records[..k] + records[k..] == records;
    (records[..k], records[k..])
  }

  /** With a ratio between 0 and 1 the training part holds the truncated share of the records. */
  lemma SplitSize<T>(records: seq<T>, ratio: real)
    requires 0.0 <= ratio <= 1.0
    ensures |SplitRecords(records, ratio).0| == Trunc(|records| as real * ratio)
    ensures |SplitRecords(records, ratio).0| <= |records|
  {
    var n := |records| as real;
    MulMonotone(n, ratio, 1.0);
    MulNonNegative(n, ratio);
  }

  /** Ascending validation MAE, then ascending absolute bias, written as a descending key. */
  function RankKey(r: SimulationResult): Sorting.Key {
    Sorting.Key(-r.validation.mae, -Abs(r.validation.bias))
  }

  /** Each result numbered by its 1-based position. */
  function WithRanks(s: seq<SimulationResult>): (r: seq<SimulationResult>)
    ensures |r| == |s| && forall i :: 0 <= i < |s| ==> r[i] == s[i].(rank := i + 1)
  {
    seq(|s|, i requires 0 <= i < |s| => s[i].(rank := i + 1))
  }

  /** The results sorted by validation MAE and then absolute bias, then numbered. */
  function Ranked(results: seq<SimulationResult>): seq<SimulationResult> {
    WithRanks(Sorting.SortDesc(results, RankKey))
  }

  /** `a` may come before `b`: a lower validation MAE, or the same one and no larger absolute bias. */
  predicate RanksAhead(a: SimulationResult, b: SimulationResult) {
    a.validation.mae < b.validation.mae ||
    (a.validation.mae == b.validation.mae && Abs(a.validation.bias) <= Abs(b.validation.bias))
  }

  /** The ranking numbers its results 1, 2, ... and orders them by validation MAE and then absolute bias. */
  lemma RankedOrder(results: seq<SimulationResult>)
    ensures |Ranked(results)| == |results|
    ensures forall i :: 0 <= i < |results| ==> Ranked(results)[i].rank == i + 1
    ensures forall i, j :: 0 <= i < j < |results| ==> RanksAhead(Ranked(results)[i], Ranked(results)[j])
  {
    var s := Sorting.SortDesc(results, RankKey);
    var r := WithRanks(s);
    forall i, j | 0 <= i < j < |results| ensures RanksAhead(r[i], r[j]) {
      KeyOrderRanksAhead(s[i], s[j], i + 1, j + 1);
    }
  }

  /** The ranking keeps every result, and holds nothing else, up to the rank it writes in. */
  lemma RankedMembers(results: seq<SimulationResult>)
    ensures |Ranked(results)| == |results|
    ensures forall j :: 0 <= j < |results| ==>
      exists i :: 0 <= i < |results| && Ranked(results)[i] == results[j].(rank := i + 1)
    ensures forall i :: 0 <= i < |results| ==>
      exists j :: 0 <= j < |results| && Ranked(results)[i] == results[j].(rank := i + 1)
  {
    var s := Sorting.SortDesc(results, RankKey);
    var r := WithRanks(s);
    forall j | 0 <= j < |results|
      ensures exists i :: 0 <= i < |results| && r[i] == results[j].(rank := i + 1)
    {
      var i := SortedIndexOf(results, s, j);
      assert r[i] == results[j].(rank := i + 1);
    }
    forall i | 0 <= i < |results|
      ensures exists j :: 0 <= j < |results| && r[i] == results[j].(rank := i + 1)
    {
      var j := SortedIndexOf(s, results, i);
      assert r[i] == results[j].(rank := i + 1);
    }
  }

  /** Where an element of one sequence sits in a permutation of it. */
  lemma SortedIndexOf(a: seq<SimulationResult>, b: seq<SimulationResult>, j: int) returns (i: int)
    requires multiset(a) == multiset(b) && 0 <= j < |a|
    ensures 0 <= i < |b| && b[i] == a[j]
  {
    assert a[j] in multiset(a);
    assert a[j] in multiset(b);
    i :| 0 <= i < |b| && b[i] == a[j];
  }

  /** The sort key's order is the ranking order, whatever ranks are written in. */
  lemma KeyOrderRanksAhead(a: SimulationResult, b: SimulationResult, ra: int, rb: int)
    requires !Sorting.Above(RankKey(b), RankKey(a))
    ensures RanksAhead(a.(rank := ra), b.(rank := rb))
  {
  }

  /** `results.sort(...)` followed by the numbering loop. */
  method RankResults(results: seq<SimulationResult>) returns (r: seq<SimulationResult>)
    ensures r == Ranked(results)
  {
    var sorted := Sorting.SortDesc(results, RankKey);
    r := sorted;
    for i := 0 to |r|
      invariant |r| == |sorted|
      invariant forall k :: 0 <= k < i ==> r[k] == sorted[k].(rank := k + 1)
      invariant forall k :: i <= k < |r| ==> r[k] == sorted[k]
    {
      r := r[i := r[i].(rank := i + 1)];
    }
  }

  /** The current configuration is recognised by three of its weights. */
  predicate MatchesCurrent(r: SimulationResult, current: WeightConfig) {
    r.config.formMultiplier == current.formMultiplier &&
    r.config.paceFast == current.paceFast &&
    r.config.usageHigh == current.usageHigh
  }

  /** The position of the first result that matches the current configuration. */
  function FirstMatch(rs: seq<SimulationResult>, current: WeightConfig): (k: Option<nat>)
    ensures k.None? <==> forall i :: 0 <= i < |rs| ==> !MatchesCurrent(rs[i], current)
    ensures k.Some? ==> (
      k.value < |rs| && MatchesCurrent(rs[k.value], current) &&
      forall i :: 0 <= i < k.value ==> !MatchesCurrent(rs[i], current))
  {
    if rs == [] then None
    else if MatchesCurrent(rs[0], current) then Some(0)
    else
      match FirstMatch(rs[1..], current)
      case None => None
      case Some(k) => Some(k + 1)
  }

  /** The rank of the first matching result, or one past the last rank when none matches. */
  function CurrentRank(ranked: seq<SimulationResult>, current: WeightConfig): (r: int)
    ensures (forall i :: 0 <= i < |ranked| ==> !MatchesCurrent(ranked[i], current)) ==> r == |ranked| + 1
    ensures (exists i :: 0 <= i < |ranked| && MatchesCurrent(ranked[i], current)) ==>
              exists k :: 0 <= k < |ranked| && r == ranked[k].rank && MatchesCurrent(ranked[k], current) &&
                          forall i :: 0 <= i < k ==> !MatchesCurrent(ranked[i], current)
  {
    match FirstMatch(ranked, current)
    case None => |ranked| + 1
    case Some(k) => ranked[k].rank
  }

  /** The search loop for the current configuration's rank. */
  method FindCurrentRank(ranked: seq<SimulationResult>, current: WeightConfig) returns (rank: int)
    ensures rank == CurrentRank(ranked, current)
  {
    rank := |ranked| + 1;
    for i := 0 to |ranked|
      invariant forall k :: 0 <= k < i ==> !MatchesCurrent(ranked[k], current)
    {
      if MatchesCurrent(ranked[i], current) {
        rank := ranked[i].rank;
        return;
      }
    }
  }

  /**
   * In a ranking the current configuration's rank is the 1-based position of
   * the first result carrying its weights, and one past the end exactly when
   * no result does.
   */
  lemma CurrentRankSpec(results: seq<SimulationResult>, current: WeightConfig)
    ensures var r := Ranked(results); var k := CurrentRank(r, current);
      1 <= k <= |r| + 1 &&
      (k == |r| + 1 <==> forall i :: 0 <= i < |r| ==> !MatchesCurrent(r[i], current)) &&
      (k <= |r| ==> MatchesCurrent(r[k - 1], current) && forall i :: 0 <= i < k - 1 ==> !MatchesCurrent(r[i], current))
  {
    var r := Ranked(results);
    RankedOrder(results);
    match FirstMatch(r, current)
    case None =>
    case Some(k) =>
      assert r[k].rank == k + 1;
  }

  /** The least improvements the best configuration must show. */
  const MinMaeImprovement := 0.2
  const MinBiasImprovement := 0.3
  const MinWithin5Improvement := 2.0

  /** How much the best configuration improves on the current one. */
  datatype Improvement = Improvement(mae: real, bias: real, within5: real)

  /** Lower MAE, smaller absolute bias and a larger within-5 share count as improvements. */
  function ImprovementOf(current: SplitMetrics, best: SplitMetrics): (i: Improvement)
    ensures i.mae >= 0.0 <==> best.mae <= current.mae
    ensures i.bias >= 0.0 <==> Abs(best.bias) <= Abs(current.bias)
    ensures i.within5 >= 0.0 <==> best.within5Pct >= current.within5Pct
  {
    Improvement(current.mae - best.mae, Abs(current.bias) - Abs(best.bias), best.within5Pct - current.within5Pct)
  }

  /** All three improvements reach their thresholds. */
  predicate MeetsThresholds(i: Improvement)
    ensures MeetsThresholds(i) ==> i.mae > 0.0 && i.bias > 0.0 && i.within5 > 0.0
  {
    i.mae >= MinMaeImprovement && i.bias >= MinBiasImprovement && i.within5 >= MinWithin5Improvement
  }

  /** A configuration never meets the thresholds against its own metrics. */
  lemma NoSelfImprovement(m: SplitMetrics)
    ensures !MeetsThresholds(ImprovementOf(m, m))
  {
  }

  /** The summary of a run. */
  datatype Summary = Summary(
    totalConfigs: nat,
    currentRank: int,
    meetsThresholds: bool,
    improvement: Improvement,
    best: SimulationResult,
    top: seq<SimulationResult>)

  /** The error of `results[0]` on no results. */
  const IndexError := "IndexError: list index out of range"

  /**
   * The end of `run_simulation`: rank the results, find the current
   * configuration's rank, keep the top ten and compare the best with the current
   * configuration; with no results the best cannot be taken.
   */
  function Summarize(results: seq<SimulationResult>, current: WeightConfig, currentResult: SimulationResult): (r: Result<Summary, string>)
    ensures r.Err? <==> results == []
  {
    var ranked := Ranked(results);
    if |ranked| == 0 then Err(IndexError)
    else
      var imp := ImprovementOf(currentResult.validation, ranked[0].validation);
      var n := if |ranked| < 10 then |ranked| else 10;
      Ok(Summary(|ranked|, CurrentRank(ranked, current), MeetsThresholds(imp), imp, ranked[0], ranked[..n]))
  }

  /** The summary's best is the first of the ranking, and its top the first ten. */
  lemma SummaryParts(results: seq<SimulationResult>, current: WeightConfig, currentResult: SimulationResult)
    requires results != []
    ensures var s := Summarize(results, current, currentResult).value; var r := Ranked(results);
      |r| == |results| && s.totalConfigs == |results| && s.best == r[0] &&
      s.top == r[..if |results| < 10 then |results| else 10] && s.currentRank == CurrentRank(r, current) &&
      s.meetsThresholds == MeetsThresholds(ImprovementOf(currentResult.validation, r[0].validation))
  {
    RankedOrder(results);
  }

  /** The first of the ranking has no larger validation MAE than any result. */
  lemma RankedFirstLeast(results: seq<SimulationResult>)
    requires results != []
    ensures |Ranked(results)| == |results|
    ensures forall j :: 0 <= j < |results| ==> Ranked(results)[0].validation.mae <= results[j].validation.mae
  {
    var s := Sorting.SortDesc(results, RankKey);
    forall j | 0 <= j < |results| ensures s[0].validation.mae <= results[j].validation.mae {
      var i := SortedIndexOf(results, s, j);
      if i > 0 {
        KeyOrderRanksAhead(s[0], s[i], 1, i + 1);
      }
    }
  }

  /** The best result has rank 1 and no larger validation MAE than any result. */
  lemma SummaryBest(results: seq<SimulationResult>, current: WeightConfig, currentResult: SimulationResult)
    requires results != []
    ensures var s := Summarize(results, current, currentResult).value;
      s.totalConfigs == |results| && s.best.rank == 1 &&
      forall j :: 0 <= j < |results| ==> s.best.validation.mae <= results[j].validation.mae
  {
    SummaryParts(results, current, currentResult);
    RankedFirstLeast(results);
  }

  /** The top holds the first ten ranks, each ranked ahead of every result outside it. */
  lemma SummaryTop(results: seq<SimulationResult>, current: WeightConfig, currentResult: SimulationResult)
    requires results != []
    ensures var s := Summarize(results, current, currentResult).value;
      |s.top| == (if |results| < 10 then |results| else 10) &&
      (forall i :: 0 <= i < |s.top| ==> s.top[i].rank == i + 1) &&
      (forall i, j :: 0 <= i < |s.top| <= j < |results| ==> RanksAhead(s.top[i], Ranked(results)[j]))
  {
    SummaryParts(results, current, currentResult);
    RankedOrder(results);
  }

  /**
   * The current configuration's rank lies between 1 and one past the last,
   * and meeting the thresholds means the best beats the current configuration
   * by the required margins in MAE and absolute bias.
   */
  lemma SummaryThresholds(results: seq<SimulationResult>, current: WeightConfig, currentResult: SimulationResult)
    requires results != []
    ensures var s := Summarize(results, current, currentResult).value;
      1 <= s.currentRank <= |results| + 1 &&
      (s.meetsThresholds ==>
        s.best.validation.mae + MinMaeImprovement <= currentResult.validation.mae &&
        Abs(s.best.validation.bias) + MinBiasImprovement <= Abs(currentResult.validation.bias) &&
        s.best.validation.within5Pct >= currentResult.validation.within5Pct + MinWithin5Improvement)
  {
    SummaryParts(results, current, currentResult);
    CurrentRankSpec(results, current);
  }
}
