// The nightly auto-tuner of auto_tune_model_v3.py: minute parsing, the
// defense-versus-position rank lookup, the adjustment each factor would have
// applied to a finished game, the correlation guard, the weight suggestions
// derived from the correlations and the accuracy summary. Fetching games and
// box scores, and writing the log, are outside the model.
module AutoTune {
  import opened Wrappers
  import opened Text
  import opened Arith
  import Numerics
  import PointsPicks
  import Sorting

  // ---------------------------------------------------------------------
  // parse_minutes
  // ---------------------------------------------------------------------

  /** The value a box score gives for minutes played. */
  datatype RawMinutes =
    | MinutesText(text: string)
    | MinutesNumber(x: real)
    | MinutesNull
      /** Anything `float()` rejects. */
    | MinutesUnconvertible

  /** The unpacking `mm, ss = text.split(":")` fails for a text with two or more colons. */
  const UnpackError := "ValueError: too many values to unpack"
  /** `int()` rejects a minutes or seconds part. */
  const IntError := "ValueError: invalid literal for int()"

  /** `mm, ss = parts` followed by `int(mm) + int(ss) / 60.0`. */
  function ClockMinutes(parts: seq<string>): (r: Result<real, string>)
    ensures |parts| != 2 ==> r == Err(UnpackError)
    ensures r.Err? ==> r.error == UnpackError || r.error == IntError
  {
    if |parts| != 2 then Err(UnpackError)
    else
      var mm, ss := ParseInt(parts[0]), ParseInt(parts[1]);
      if mm.None? || ss.None? then Err(IntError)
      else Ok(mm.value as real + ss.value as real / 60.0)
  }

  /**
   * `parse_minutes`: "mm:ss" is mm + ss/60; anything else is `float(value or
   * 0.0)`, with 0.0 when the conversion fails. The unpacking and the `int()`
   * calls are outside the `try`, so their errors propagate. `parseFloat` is
   * Python's `float()` on a string.
   */
  function ParseMinutes(v: RawMinutes, parseFloat: string -> Option<real>): (r: Result<real, string>)
    ensures r.Err? ==> v.MinutesText? && ':' in v.text
    ensures v.MinutesNull? || v.MinutesUnconvertible? ==> r == Ok(0.0)
    ensures v.MinutesNumber? ==> r == Ok(v.x)
  {
    match v
    case MinutesText(s) =>
      if ':' in s then ClockMinutes(Split(s, ':'))
      else if s == "" then Ok(0.0)
      else
        var x := parseFloat(s);
        Ok(if x.Some? then x.value else 0.0)
    case MinutesNumber(x) => Ok(x)
    case MinutesNull => Ok(0.0)
    case MinutesUnconvertible => Ok(0.0)
  }

  /** A text with exactly one colon is split there and both parts go through `int()`. */
  lemma ParseMinutesParts(a: string, b: string, parseFloat: string -> Option<real>)
    requires ':' !in a && ':' !in b
    ensures ParseMinutes(MinutesText(a + [':'] + b), parseFloat) == ClockMinutes([a, b])
  {
    var t := a + [':'] + b;
    SplitFirst(a, b, ':');
    SplitAbsent(b, ':');
    assert Split(t, ':') == [a, b];
    assert ':' in t by {
      assert t[|a|] == ':';
    }
  }

  /** Two parts `int()` accepts give minutes plus seconds over sixty. */
  lemma ClockMinutesOf(a: string, b: string, mm: int, ss: int)
    requires ParseInt(a) == Some(mm) && ParseInt(b) == Some(ss)
    ensures ClockMinutes([a, b]).Ok? && ClockMinutes([a, b]).value == mm as real + ss as real / 60.0
  {
    var parts := [a, b];
    assert parts[0] == a && parts[1] == b;
  }

  /** "m:s" written with plain digits parses to m + s/60. */
  lemma ParseMinutesClock(a: string, b: string, parseFloat: string -> Option<real>)
    requires a != [] && b != [] && AllDigits(a) && AllDigits(b)
    ensures var r := ParseMinutes(MinutesText(a + [':'] + b), parseFloat);
      r.Ok? && r.value == DigitsValue(a) as real + DigitsValue(b) as real / 60.0
  {
    DigitsExclude(a, ':');
    DigitsExclude(b, ':');
    ParseMinutesParts(a, b, parseFloat);
    ParseIntDigits(a);
    ParseIntDigits(b);
    var x, y := DigitsValue(a), DigitsValue(b);
    ClockMinutesOf(a, b, x, y);
  }

  /** A text with a second colon raises instead of returning. */
  lemma ParseMinutesExtraColon(a: string, b: string, c: string, parseFloat: string -> Option<real>)
    requires ':' !in a && ':' !in b
    ensures ParseMinutes(MinutesText(a + ":" + b + ":" + c), parseFloat) == Err(UnpackError)
  {
    var s := a + ":" + b + ":" + c;
    assert s == a + [':'] + (b + [':'] + c);
    SplitFirst(a, b + [':'] + c, ':');
    SplitFirst(b, c, ':');
    assert s[|a|] == ':';
  }

  /** A text without a colon never raises: it is its float value, or 0.0. */
  lemma ParseMinutesNoColon(s: string, parseFloat: string -> Option<real>)
    requires ':' !in s
    ensures var r := ParseMinutes(MinutesText(s), parseFloat);
      r.Ok? && (parseFloat(s).None? ==> r.value == 0.0) && (s != "" && parseFloat(s).Some? ==> r.value == parseFloat(s).value)
  {
  }

  // ---------------------------------------------------------------------
  // get_dvp_bucket_for_position
  // ---------------------------------------------------------------------

  /** One position's entry of an opponent's defense-versus-position table. */
  datatype DvpRanking = DvpRanking(bucket: string, rank: int)

  /** The first of the keys the table lists, if any. */
  function FirstKey<V>(keys: seq<string>, table: map<string, V>): (r: Option<string>)
    ensures r.Some? ==> r.value in table && r.value in keys
    ensures r.None? ==> forall k :: 0 <= k < |keys| ==> keys[k] !in table
  {
    if keys == [] then None
    else if keys[0] in table then Some(keys[0])
    else FirstKey(keys[1..], table)
  }

  /** The key found is listed and no key before it is. */
  lemma {:induction false} FirstKeyFirst<V>(keys: seq<string>, table: map<string, V>)
    requires FirstKey(keys, table).Some?
    ensures exists i :: (0 <= i < |keys| && keys[i] == FirstKey(keys, table).value &&
      forall j :: 0 <= j < i ==> keys[j] !in table)
  {
    if keys[0] !in table {
      FirstKeyFirst(keys[1..], table);
      var i :| 0 <= i < |keys[1..]| && keys[1..][i] == FirstKey(keys, table).value &&
        forall j :: 0 <= j < i ==> keys[1..][j] !in table;
      assert keys[i + 1] == keys[1..][i];
      forall j | 0 <= j < i + 1 ensures keys[j] !in table {
        if j > 0 {
          assert keys[j] == keys[1..][j - 1];
        }
      }
    } else {
      assert keys[0] == FirstKey(keys, table).value;
    }
  }

  /** The bucket and rank returned when no lookup key is listed. */
  const FallbackRanking := DvpRanking("AVERAGE", 15)

  /**
   * `get_dvp_bucket_for_position`: the keys are tried in the same order as
   * the points picker tries them (exact position, combo parts, guard and
   * forward groups), and the first one listed gives bucket and rank.
   */
  function DvpRankingFor(dvp: map<string, DvpRanking>, position: string): DvpRanking {
    var k := FirstKey(PointsPicks.LookupKeys(Upper(position)), dvp);
    if k.Some? then dvp[k.value] else FallbackRanking
  }

  /** The table of buckets the points picker would see for the same rankings. */
  function BucketTable(dvp: map<string, DvpRanking>): (t: PointsPicks.DvpTable)
    ensures t.Keys == dvp.Keys
    ensures forall k :: k in t ==> t[k] == Some(dvp[k].bucket)
  {
    map k | k in dvp :: Some(dvp[k].bucket)
  }

  /** Looking for the first listed key and reading its bucket is the picker's lookup. */
  lemma {:induction false} FirstKeyListed(keys: seq<string>, dvp: map<string, DvpRanking>)
    ensures var k := FirstKey(keys, dvp);
      PointsPicks.FirstListed(keys, BucketTable(dvp)) == if k.Some? then Some(dvp[k.value].bucket) else None
  {
    if keys != [] && keys[0] !in dvp {
      FirstKeyListed(keys[1..], dvp);
    }
  }

  /**
   * The tuner's lookup returns the bucket the points picker finds for the
   * same table, and the fallback rank 15 exactly when no key is listed.
   */
  lemma DvpRankingAgrees(dvp: map<string, DvpRanking>, position: string)
    ensures DvpRankingFor(dvp, position).bucket == PointsPicks.DvpBucket(BucketTable(dvp), position)
    ensures FirstKey(PointsPicks.LookupKeys(Upper(position)), dvp).None? ==> DvpRankingFor(dvp, position) == FallbackRanking
  {
    FirstKeyListed(PointsPicks.LookupKeys(Upper(position)), dvp);
  }

  /** The result is the fallback or the entry of a key listed in the table. */
  lemma DvpRankingListed(dvp: map<string, DvpRanking>, position: string)
    ensures var r := DvpRankingFor(dvp, position);
      r == FallbackRanking || exists key :: key in dvp && dvp[key] == r
  {
  }

  /** The loop `for key in keys: if key in table: return key`. */
  method FindKey(keys: seq<string>, dvp: map<string, DvpRanking>) returns (r: Option<string>)
    ensures r == FirstKey(keys, dvp)
  {
    for k := 0 to |keys|
      invariant FirstKey(keys, dvp) == FirstKey(keys[k..], dvp)
    {
      assert keys[k..][1..] == keys[k + 1..];
      if keys[k] in dvp {
        return Some(keys[k]);
      }
    }
    assert keys[|keys|..] == [];
    return None;
  }

  /** The lookup as a method over the three key groups in turn. */
  method GetDvpBucketForPosition(dvp: map<string, DvpRanking>, position: string) returns (r: DvpRanking)
    ensures r == DvpRankingFor(dvp, position)
  {
    var keys := PointsPicks.LookupKeys(Upper(position));
    var k := FindKey(keys, dvp);
    if k.Some? {
      return dvp[k.value];
    }
    return FallbackRanking;
  }

  // ---------------------------------------------------------------------
  // compute_adjustment_values
  // ---------------------------------------------------------------------

  /** The pre-game context of one finished player game. */
  datatype GameRecord = GameRecord(
    isHome: bool,
    seasonPtsAvg: real,
    seasonMinutesAvg: real,
    l5PtsAvg: real,
    l5PtsStdev: real,
    l5MinutesAvg: real,
    usgPct: Option<real>,
    daysRest: int,
    dvpBucket: string,
    dvpRank: int,
    paceEnv: real,
    tsPct: Option<real>,
    offRating: Option<real>,
    teamDrtg: Option<real>,
    clutchPtsAvg: Option<real>,
    ptsLeagueRank: Option<int>,
    actualPts: real,
    baselineProj: real,
    predictionError: real)

  /** Usage: 1.5 from 28%, -1.0 below 20%, 0 otherwise or when unknown. */
  function UsageValue(usg: Option<real>): (r: real)
    ensures r == 1.5 <==> usg.Some? && usg.value >= 28.0
    ensures r == -1.0 <==> usg.Some? && usg.value < 20.0
    ensures r == 0.0 || r == 1.5 || r == -1.0
  {
    if usg.None? then 0.0
    else if usg.value >= 28.0 then 1.5
    else if usg.value < 20.0 then -1.0
    else 0.0
  }

  /** Defense versus position: +2.4 against a weak defense, -2.4 against a strong one. */
  function DvpValue(bucket: string): (r: real)
    ensures r > 0.0 <==> bucket == "WEAK"
    ensures r < 0.0 <==> bucket == "STRONG"
    ensures Abs(r) == 0.0 || Abs(r) == 2.4
  {
    if bucket == "WEAK" then 2.4
    else if bucket == "STRONG" then -2.4
    else 0.0
  }

  /** Rest: a back-to-back costs 2.5 on the road and 1.5 at home; two days add 0.5; three or more cost 0.3. */
  function RestValue(daysRest: int, isHome: bool): (r: real)
    ensures r > 0.0 <==> daysRest == 2
    ensures r <= -1.5 <==> daysRest == 0
    ensures daysRest == 0 ==> r == (if isHome then -1.5 else -2.5)
    ensures daysRest == 1 ==> r == 0.0
    ensures daysRest == 2 ==> r == 0.5
    ensures daysRest != 0 && daysRest != 1 && daysRest != 2 ==> r == -0.3
  {
    if daysRest == 0 then (if !isHome then -2.5 else -1.5)
    else if daysRest == 1 then 0.0
    else if daysRest == 2 then 0.5
    else -0.3
  }

  /** Pace: +2.2 above 104, -2.2 below 99. */
  function PaceValue(pace: real): (r: real)
    ensures r > 0.0 <==> pace > 104.0
    ensures r < 0.0 <==> pace < 99.0
    ensures Abs(r) == 0.0 || Abs(r) == 2.2
  {
    if pace > 104.0 then 2.2
    else if pace < 99.0 then -2.2
    else 0.0
  }

  /** The minutes the tuner projects: the recent average when positive, else the season average. */
  function ProjectedMinutes(rec: GameRecord): (m: real)
    ensures rec.l5MinutesAvg > 0.0 ==> m == rec.l5MinutesAvg
    ensures rec.l5MinutesAvg <= 0.0 ==> m == rec.seasonMinutesAvg
  {
    if rec.l5MinutesAvg > 0.0 then rec.l5MinutesAvg else rec.seasonMinutesAvg
  }

  /** Minutes stability: 1.7 from 34, 0.85 from 30, 0 from 26, -2.5 below. */
  function MinutesValue(minutes: real): (r: real)
    ensures -2.5 <= r <= 1.7
    ensures r > 0.0 <==> minutes >= 30.0
    ensures r < 0.0 <==> minutes < 26.0
  {
    if minutes >= 34.0 then 1.7
    else if minutes >= 30.0 then 0.85
    else if minutes >= 26.0 then 0.0
    else -2.5
  }

  /** The bound on the form adjustment. */
  const FormCap := 3.2

  /** Form: eight times the relative gap of recent scoring over the season average, within ±3.2; 0 without a season average. */
  function FormValue(seasonPts: real, l5Pts: real): (r: real)
    ensures -FormCap <= r <= FormCap
    ensures seasonPts <= 0.0 ==> r == 0.0
    ensures seasonPts > 0.0 ==> (r > 0.0 <==> l5Pts > seasonPts) && (r < 0.0 <==> l5Pts < seasonPts)
  {
    if seasonPts > 0.0 then
      GapSign(l5Pts, seasonPts);
      Cap((l5Pts - seasonPts) / seasonPts * 8.0, -FormCap, FormCap)
    else 0.0
  }

  /** Form never decreases as recent scoring rises. */
  lemma FormValueMonotone(seasonPts: real, a: real, b: real)
    requires a <= b
    ensures FormValue(seasonPts, a) <= FormValue(seasonPts, b)
  {
    if seasonPts > 0.0 {
      GapMonotone(a, b, seasonPts);
      var ga, gb := (a - seasonPts) / seasonPts, (b - seasonPts) / seasonPts;
      assert ga * 8.0 <= gb * 8.0;
      CapMonotone(ga * 8.0, gb * 8.0, -FormCap, FormCap);
    }
  }

  /** Consistency: +1.5 for a recent stdev up to 5, -1.5 above 7. */
  function ConsistencyValue(stdev: real): (r: real)
    ensures r > 0.0 <==> stdev <= 5.0
    ensures r < 0.0 <==> stdev > 7.0
    ensures Abs(r) == 0.0 || Abs(r) == 1.5
  {
    if stdev <= 5.0 then 1.5
    else if stdev <= 7.0 then 0.0
    else -1.5
  }

  /**
   * The four-step ladder shared by true shooting, offensive rating and
   * clutch scoring: 1.0 from `elite`, 0.5 from `good`, -0.5 below `poor`,
   * 0 otherwise or when unknown.
   */
  function Ladder(v: Option<real>, elite: real, good: real, poor: real): (r: real)
    requires poor <= good <= elite
    ensures -0.5 <= r <= 1.0
    ensures r == 1.0 <==> v.Some? && v.value >= elite
    ensures r > 0.0 <==> v.Some? && v.value >= good
    ensures r < 0.0 <==> v.Some? && v.value < poor
  {
    if v.None? then 0.0
    else if v.value >= elite then 1.0
    else if v.value >= good then 0.5
    else if v.value < poor then -0.5
    else 0.0
  }

  /** A larger known value never lowers the ladder. */
  lemma LadderMonotone(a: real, b: real, elite: real, good: real, poor: real)
    requires poor <= good <= elite && a <= b
    ensures Ladder(Some(a), elite, good, poor) <= Ladder(Some(b), elite, good, poor)
  {
  }

  /** True shooting: 0.62, 0.58 and 0.52. */
  function TsValue(ts: Option<real>): real {
    Ladder(ts, 0.62, 0.58, 0.52)
  }

  /** Offensive rating: 120, 115 and 105. */
  function OffRatingValue(ortg: Option<real>): real {
    Ladder(ortg, 120.0, 115.0, 105.0)
  }

  /** Clutch points: 4.0, 2.5 and 1.0. */
  function ClutchValue(clutch: Option<real>): real {
    Ladder(clutch, 4.0, 2.5, 1.0)
  }

  /** Opponent defensive rating: 2 from 118, 1 from 114, -2 up to 108, -1 up to 112. */
  function OppDrtgValue(drtg: Option<real>): (r: real)
    ensures -2.0 <= r <= 2.0
    ensures r > 0.0 <==> drtg.Some? && drtg.value >= 114.0
    ensures r < 0.0 <==> drtg.Some? && drtg.value <= 112.0
    ensures r == -2.0 <==> drtg.Some? && drtg.value <= 108.0
  {
    if drtg.None? then 0.0
    else if drtg.value >= 118.0 then 2.0
    else if drtg.value >= 114.0 then 1.0
    else if drtg.value <= 108.0 then -2.0
    else if drtg.value <= 112.0 then -1.0
    else 0.0
  }

  /** A weaker opposing defense never lowers the matchup value. */
  lemma OppDrtgMonotone(a: real, b: real)
    requires a <= b
    ensures OppDrtgValue(Some(a)) <= OppDrtgValue(Some(b))
  {
  }

  /** League scoring rank: 1.0 in the top 10, 0.5 in the top 25, -0.5 from 100 on. */
  function LeagueRankValue(rank: Option<int>): (r: real)
    ensures -0.5 <= r <= 1.0
    ensures r > 0.0 <==> rank.Some? && rank.value <= 25
    ensures r < 0.0 <==> rank.Some? && rank.value >= 100
  {
    if rank.None? then 0.0
    else if rank.value <= 10 then 1.0
    else if rank.value <= 25 then 0.5
    else if rank.value >= 100 then -0.5
    else 0.0
  }

  /** The twelve factors, in the order the tuner analyses them. */
  const FactorNames: seq<string> := ["usage", "dvp", "rest", "pace", "minutes", "form", "consistency",
                                     "ts_pct", "off_rating", "opp_drtg", "clutch", "league_rank"]

  /**
   * The adjustment one factor would have applied, 0.0 for a name that is
   * not a factor (as `adjustments.get(name, 0.0)` reads it).
   */
  function FactorValue(rec: GameRecord, name: string): (r: real)
    ensures -FormCap <= r <= FormCap
  {
    if name == "usage" then UsageValue(rec.usgPct)
    else if name == "dvp" then DvpValue(rec.dvpBucket)
    else if name == "rest" then RestValue(rec.daysRest, rec.isHome)
    else if name == "pace" then PaceValue(rec.paceEnv)
    else if name == "minutes" then MinutesValue(ProjectedMinutes(rec))
    else if name == "form" then FormValue(rec.seasonPtsAvg, rec.l5PtsAvg)
    else if name == "consistency" then ConsistencyValue(rec.l5PtsStdev)
    else if name == "ts_pct" then TsValue(rec.tsPct)
    else if name == "off_rating" then OffRatingValue(rec.offRating)
    else if name == "opp_drtg" then OppDrtgValue(rec.teamDrtg)
    else if name == "clutch" then ClutchValue(rec.clutchPtsAvg)
    else if name == "league_rank" then LeagueRankValue(rec.ptsLeagueRank)
    else 0.0
  }

  /**
   * `compute_adjustment_values`: a value for each of the twelve factors and
   * for nothing else, each within the form cap.
   */
  function AdjustmentValues(rec: GameRecord): (m: map<string, real>)
    ensures forall k :: k in m <==> k in FactorNames
    ensures forall k :: k in m ==> m[k] == FactorValue(rec, k) && -FormCap <= m[k] <= FormCap
  {
    map k | k in FactorNames :: FactorValue(rec, k)
  }

  // ---------------------------------------------------------------------
  // pearson_correlation
  // ---------------------------------------------------------------------

  /** The sum of a list. */
  function Sum(xs: seq<real>): real {
    if xs == [] then 0.0 else Sum(xs[..|xs| - 1]) + xs[|xs| - 1]
  }

  /** Σ (x - cx)(y - cy) over paired elements. */
  function CoSum(xs: seq<real>, ys: seq<real>, cx: real, cy: real): real
    requires |xs| == |ys|
  {
    if xs == [] then 0.0
    else CoSum(xs[..|xs| - 1], ys[..|ys| - 1], cx, cy) + (xs[|xs| - 1] - cx) * (ys[|ys| - 1] - cy)
  }

  /** Σ (x - c)² is never negative. */
  lemma {:induction false} SquareSumNonNegative(xs: seq<real>, c: real)
    ensures CoSum(xs, xs, c, c) >= 0.0
  {
    if xs != [] {
      SquareSumNonNegative(xs[..|xs| - 1], c);
      var d := xs[|xs| - 1] - c;
      assert d * d >= 0.0;
    }
  }

  /** The mean of a non-empty list. */
  function Mean(xs: seq<real>): real
    requires xs != []
  {
    Sum(xs) / |xs| as real
  }

  /** Σ (x - mean)², the unnormalised variance. */
  function SquaredDeviation(xs: seq<real>): (v: real)
    requires xs != []
    ensures v >= 0.0
  {
    SquareSumNonNegative(xs, Mean(xs));
    CoSum(xs, xs, Mean(xs), Mean(xs))
  }

  /**
   * `pearson_correlation`: 0.0 for fewer than three points, lists of
   * different lengths, or a zero denominator √(var_x·var_y); otherwise the
   * covariance sum over that denominator.
   */
  function Pearson(xs: seq<real>, ys: seq<real>, m: Numerics.RealOps): (r: real)
    ensures |xs| < 3 || |ys| != |xs| ==> r == 0.0
    ensures r != 0.0 ==> |xs| >= 3 && |ys| == |xs| && CoSum(xs, ys, Mean(xs), Mean(ys)) != 0.0
  {
    if |xs| < 3 || |ys| != |xs| then 0.0
    else
      var den := m.sqrt(SquaredDeviation(xs) * SquaredDeviation(ys));
      if den == 0.0 then 0.0 else CoSum(xs, ys, Mean(xs), Mean(ys)) / den
  }

  /** The guards: too few points, mismatched lengths and a zero variance all give 0.0; otherwise the quotient is taken. */
  lemma PearsonGuards(xs: seq<real>, ys: seq<real>, m: Numerics.RealOps)
    requires Numerics.SqrtLaws(m)
    ensures |xs| < 3 || |ys| != |xs| ==> Pearson(xs, ys, m) == 0.0
    ensures |xs| >= 3 && |ys| == |xs| ==>
      (SquaredDeviation(xs) == 0.0 || SquaredDeviation(ys) == 0.0 ==> Pearson(xs, ys, m) == 0.0) &&
      (SquaredDeviation(xs) != 0.0 && SquaredDeviation(ys) != 0.0 ==>
        var den := m.sqrt(SquaredDeviation(xs) * SquaredDeviation(ys));
        den > 0.0 && Pearson(xs, ys, m) == CoSum(xs, ys, Mean(xs), Mean(ys)) / den)
  {
    if |xs| >= 3 && |ys| == |xs| {
      var vx, vy := SquaredDeviation(xs), SquaredDeviation(ys);
      MulNonNegative(vx, vy);
      Numerics.SqrtZeroIff(m, vx * vy);
      if vx != 0.0 && vy != 0.0 {
        assert vx * vy != 0.0;
      } else {
        assert vx * vy == 0.0;
      }
    }
  }

  // ---------------------------------------------------------------------
  // generate_weight_suggestions
  // ---------------------------------------------------------------------

  /** What the correlation analysis reports for one factor. */
  datatype FactorStats = FactorStats(correlation: real, nNonZero: int)

  /** The direction a suggestion points in. */
  datatype Recommendation = Increase | Decrease | Maintain

  /** One suggested weight change. */
  datatype Suggestion = Suggestion(
    factor: string,
    description: string,
    correlation: real,
    nWithAdjustment: int,
    recommendation: Recommendation)

  /** The factors the suggestions consider, with their descriptions, in order. */
  const FactorAnalysis: seq<(string, string)> := [
    ("usage", "High usage (>=28%) players"),
    ("dvp", "DvP matchup advantage"),
    ("rest", "Days of rest impact"),
    ("pace", "Pace environment effect"),
    ("minutes", "Minutes stability bonus"),
    ("form", "Recent form adjustment"),
    ("consistency", "Scoring consistency"),
    ("ts_pct", "True Shooting % (efficiency)"),
    ("off_rating", "Offensive Rating (player impact)"),
    ("opp_drtg", "Opponent Defensive Rating (matchup)"),
    ("clutch", "Clutch scoring performance"),
    ("league_rank", "League scoring rank (volume)")]

  /** A factor missing from the analysis counts as correlation 0.0 with no adjusted samples. */
  function StatsOf(correlations: map<string, FactorStats>, factor: string): FactorStats {
    if factor in correlations then correlations[factor] else FactorStats(0.0, 0)
  }

  /** A correlation is worth acting on from |0.05| with at least ten adjusted samples. */
  predicate Meaningful(s: FactorStats) {
    Abs(s.correlation) >= 0.05 && s.nNonZero >= 10
  }

  /** Above 0.10 the weights should grow, below -0.10 shrink, and in between stay. */
  function RecommendationFor(corr: real): (r: Recommendation)
    ensures r == Increase <==> corr > 0.10
    ensures r == Decrease <==> corr < -0.10
    ensures r == Maintain <==> -0.10 <= corr <= 0.10
  {
    if corr > 0.10 then Increase
    else if corr < -0.10 then Decrease
    else Maintain
  }

  /** The suggestion for one factor, when its correlation is meaningful. */
  function SuggestionFor(factor: string, description: string, s: FactorStats): (r: Option<Suggestion>)
    ensures r.Some? <==> Meaningful(s)
    ensures r.Some? ==> (r.value.factor == factor && r.value.correlation == s.correlation &&
      r.value.nWithAdjustment == s.nNonZero && r.value.recommendation == RecommendationFor(s.correlation))
  {
    if !Meaningful(s) then None
    else Some(Suggestion(factor, description, s.correlation, s.nNonZero, RecommendationFor(s.correlation)))
  }

  /** The suggestions for the listed factors, in list order, before sorting. */
  function Suggested(factors: seq<(string, string)>, correlations: map<string, FactorStats>): seq<Suggestion> {
    if factors == [] then []
    else
      var init := Suggested(factors[..|factors| - 1], correlations);
      var (f, d) := factors[|factors| - 1];
      var s := SuggestionFor(f, d, StatsOf(correlations, f));
      if s.Some? then init + [s.value] else init
  }

  /** The sort key: strongest correlation first. */
  function StrengthKey(s: Suggestion): Sorting.Key {
    Sorting.Key(Abs(s.correlation), 0.0)
  }

  /** Every suggestion comes from a listed factor whose statistics are meaningful, and carries its label. */
  lemma {:induction false} SuggestedSound(factors: seq<(string, string)>, correlations: map<string, FactorStats>)
    ensures forall s :: s in Suggested(factors, correlations) ==>
      (exists i :: 0 <= i < |factors| && factors[i].0 == s.factor) &&
      Meaningful(StatsOf(correlations, s.factor)) &&
      s.correlation == StatsOf(correlations, s.factor).correlation &&
      s.recommendation == RecommendationFor(s.correlation)
  {
    if factors != [] {
      var init := factors[..|factors| - 1];
      SuggestedSound(init, correlations);
      forall s | s in Suggested(init, correlations)
        ensures exists i :: 0 <= i < |factors| && factors[i].0 == s.factor
      {
        var i :| 0 <= i < |init| && init[i].0 == s.factor;
        assert factors[i] == init[i];
      }
    }
  }

  /** A listed factor whose statistics are meaningful is suggested. */
  lemma {:induction false} SuggestedComplete(factors: seq<(string, string)>, correlations: map<string, FactorStats>, i: int)
    requires 0 <= i < |factors| && Meaningful(StatsOf(correlations, factors[i].0))
    ensures exists s :: s in Suggested(factors, correlations) && s.factor == factors[i].0
  {
    var init := factors[..|factors| - 1];
    if i < |factors| - 1 {
      assert init[i] == factors[i];
      SuggestedComplete(init, correlations, i);
      var s :| s in Suggested(init, correlations) && s.factor == factors[i].0;
      assert s in Suggested(factors, correlations);
    } else {
      var (f, d) := factors[i];
      var sg := SuggestionFor(f, d, StatsOf(correlations, f));
      assert Suggested(factors, correlations) == Suggested(init, correlations) + [sg.value];
    }
  }

  /**
   * `generate_weight_suggestions`: one suggestion per meaningful factor,
   * strongest correlation first, ties in factor order.
   */
  method GenerateWeightSuggestions(correlations: map<string, FactorStats>) returns (r: seq<Suggestion>)
    ensures r == Sorting.SortDesc(Suggested(FactorAnalysis, correlations), StrengthKey)
  {
    var suggestions: seq<Suggestion> := [];
    for i := 0 to |FactorAnalysis|
      invariant suggestions == Suggested(FactorAnalysis[..i], correlations)
    {
      assert FactorAnalysis[..i + 1][..i] == FactorAnalysis[..i];
      var (factor, description) := FactorAnalysis[i];
      var stats := StatsOf(correlations, factor);
      if Abs(stats.correlation) < 0.05 || stats.nNonZero < 10 {
        continue;
      }
      suggestions := suggestions + [Suggestion(factor, description, stats.correlation, stats.nNonZero,
                                               RecommendationFor(stats.correlation))];
    }
    assert FactorAnalysis[..|FactorAnalysis|] == FactorAnalysis;
    r := Sorting.SortDesc(suggestions, StrengthKey);
  }

  /**
   * The sorted suggestions are exactly the meaningful factors, each labelled
   * by its correlation, ordered by decreasing |correlation|.
   */
  lemma SuggestionsSpec(correlations: map<string, FactorStats>)
    ensures var r := Sorting.SortDesc(Suggested(FactorAnalysis, correlations), StrengthKey);
      Sorting.SortedDesc(r, StrengthKey) &&
      (forall s :: s in r ==> (Meaningful(StatsOf(correlations, s.factor)) &&
        s.recommendation == RecommendationFor(s.correlation))) &&
      (forall i :: 0 <= i < |FactorAnalysis| && Meaningful(StatsOf(correlations, FactorAnalysis[i].0)) ==>
        exists s :: s in r && s.factor == FactorAnalysis[i].0)
  {
    var sug := Suggested(FactorAnalysis, correlations);
    var r := Sorting.SortDesc(sug, StrengthKey);
    SuggestedSound(FactorAnalysis, correlations);
    forall s | s in r ensures s in sug {
      assert s in multiset(r);
    }
    forall i | 0 <= i < |FactorAnalysis| && Meaningful(StatsOf(correlations, FactorAnalysis[i].0))
      ensures exists s :: s in r && s.factor == FactorAnalysis[i].0
    {
      SuggestedComplete(FactorAnalysis, correlations, i);
      var s :| s in sug && s.factor == FactorAnalysis[i].0;
      assert s in multiset(sug);
    }
  }

  // ---------------------------------------------------------------------
  // compute_accuracy_metrics
  // ---------------------------------------------------------------------

  /** The summary of prediction errors. */
  datatype AccuracyMetrics = AccuracyMetrics(
    nPlayers: nat,
    mae: real,
    rmse: real,
    bias: real,
    within5Pct: real,
    within10Pct: real)

  /** The absolute values of a list. */
  function AbsAll(xs: seq<real>): (r: seq<real>)
    ensures |r| == |xs| && forall i :: 0 <= i < |xs| ==> r[i] == Abs(xs[i])
  {
    if xs == [] then [] else AbsAll(xs[..|xs| - 1]) + [Abs(xs[|xs| - 1])]
  }

  /** The squares of a list. */
  function Squares(xs: seq<real>): (r: seq<real>)
    ensures |r| == |xs| && forall i :: 0 <= i < |xs| ==> r[i] == xs[i] * xs[i]
  {
    if xs == [] then [] else Squares(xs[..|xs| - 1]) + [xs[|xs| - 1] * xs[|xs| - 1]]
  }

  /** How many elements are at most `t`. */
  function CountAtMost(xs: seq<real>, t: real): (c: nat)
    ensures c <= |xs|
  {
    if xs == [] then 0 else CountAtMost(xs[..|xs| - 1], t) + (if xs[|xs| - 1] <= t then 1 else 0)
  }

  /** A larger threshold never counts fewer elements. */
  lemma {:induction false} CountAtMostMonotone(xs: seq<real>, s: real, t: real)
    requires s <= t
    ensures CountAtMost(xs, s) <= CountAtMost(xs, t)
  {
    if xs != [] {
      CountAtMostMonotone(xs[..|xs| - 1], s, t);
    }
  }

  /** |Σ x| ≤ Σ |x|. */
  lemma {:induction false} SumAbsBound(xs: seq<real>)
    ensures Abs(Sum(xs)) <= Sum(AbsAll(xs))
  {
    if xs != [] {
      var init := xs[..|xs| - 1];
      SumAbsBound(init);
      assert AbsAll(xs)[..|xs| - 1] == AbsAll(init);
    }
  }

  /**
   * `compute_accuracy_metrics`: nothing for no records; otherwise mean
   * absolute error, root mean squared error, mean error and the percentages
   * of errors within 5 and 10 points.
   */
  function AccuracyMetricsOf(errors: seq<real>, m: Numerics.RealOps): (r: Option<AccuracyMetrics>)
    ensures r.None? <==> errors == []
    ensures r.Some? ==> r.value.nPlayers == |errors|
  {
    if errors == [] then None
    else
      var n := |errors| as real;
      var abs := AbsAll(errors);
      Some(AccuracyMetrics(
        |errors|,
        Sum(abs) / n,
        m.sqrt(Sum(Squares(errors)) / n),
        Sum(errors) / n,
        CountAtMost(abs, 5.0) as real / n * 100.0,
        CountAtMost(abs, 10.0) as real / n * 100.0))
  }

  /** Two counts out of the same total keep their order as percentages. */
  lemma PercentOrder(c5: real, c10: real, n: real)
    requires 0.0 <= c5 <= c10 <= n && n > 0.0
    ensures 0.0 <= c5 / n * 100.0 <= c10 / n * 100.0 <= 100.0
  {
    PercentOf(c5, n);
    PercentOf(c10, n);
    assert c5 / n <= c10 / n;
  }

  /** |s / n| ≤ t / n when |s| ≤ t. */
  lemma MeanAbsBound(s: real, t: real, n: real)
    requires Abs(s) <= t && n > 0.0
    ensures Abs(s / n) <= t / n
  {
    assert Abs(s / n) == Abs(s) / n;
  }

  /** The within-5 share never exceeds the within-10 share, both are percentages, and |bias| ≤ MAE. */
  lemma AccuracyMetricsBounds(errors: seq<real>, m: Numerics.RealOps)
    requires errors != []
    ensures var a := AccuracyMetricsOf(errors, m).value;
      0.0 <= a.within5Pct <= a.within10Pct <= 100.0 && Abs(a.bias) <= a.mae
  {
    var n := |errors| as real;
    var abs := AbsAll(errors);
    CountAtMostMonotone(abs, 5.0, 10.0);
    PercentOrder(CountAtMost(abs, 5.0) as real, CountAtMost(abs, 10.0) as real, n);
    SumAbsBound(errors);
    MeanAbsBound(Sum(errors), Sum(abs), n);
  }
}
