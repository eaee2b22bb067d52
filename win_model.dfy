// The live NBA win-probability model (newapp/predictor/model.py): clock
// parsing, time values, four weighted factors squashed by tanh, weight
// normalisation, a sigmoid, the lead that would flip the game to 50%, the
// blowout override, the confidence ladder and the trailing-edge and underdog
// alerts, assembled by `Predict`.
module WinModel {
  import opened Wrappers
  import opened Text
  import opened Arith
  import opened Numerics
  import opened PredictorConfig

  datatype GameState = GameState(
    homeTeam: string,
    awayTeam: string,
    homeTeamAbbrev: string,
    awayTeamAbbrev: string,
    homeScore: int,
    awayScore: int,
    quarter: int,
    clock: Option<string>,
    status: string)

  datatype TeamStats = TeamStats(fgm: int, fga: int, fg3m: int, fta: int, tov: int, orb: int)

  datatype SeasonStats = SeasonStats(efg: real, tovRate: real)

  /** One factor's contribution: an advantage in (-1, 1) (positive favours home) and its weight. */
  datatype Factor = Factor(
    name: string,
    advantage: real,
    weight: real,
    active: bool,
    rawValue: Option<real>,
    gated: Option<bool>)

  datatype Side = Home | Away

  datatype Confidence = High | Medium | Low

  datatype Phase = PreGame | InProgress | Halftime | BetweenQuarters | Final

  /** Why the underdog is worth watching; `ProbAtLeast` carries int(threshold * 100). */
  datatype UnderdogReason = ProbAtLeast(percent: int) | NearFifty | TrailingEdge

  datatype Prediction = Prediction(
    winProbHome: real,
    winProbAway: real,
    combinedScore: real,
    confidence: Confidence,
    factors: seq<Factor>,
    trailingTeam: Option<Side>,
    trailingEdgeAlert: bool,
    isBlowout: bool,
    isOvertime: bool,
    minutesPlayed: real,
    minutesRemaining: real,
    flipLeadHome: Option<real>,
    flipSwing: Option<real>,
    underdogTeam: Option<Side>,
    underdogProb: Option<real>,
    underdogWatch: bool,
    underdogReason: Option<UnderdogReason>,
    underdogCloseToFlip: bool)

  // ---------------------------------------------------------------- clock and time

  /**
   * "M:SS", "MM:SS" or "MM:SS.s" to (minutes, seconds); None when either
   * int() conversion fails. A string without a colon reads as (int(s), 0).
   */
  function ParseClock(clock: Option<string>): (r: Option<(int, int)>)
    ensures clock.None? || clock.value == "" ==> r.None?
    ensures r.Some? ==> ParseInt(Split(clock.value, ':')[0]) == Some(r.value.0)
  {
    if clock.None? || clock.value == "" then None
    else
      var parts := Split(clock.value, ':');
      var minutes := ParseInt(parts[0]);
      var secPart := if |parts| > 1 then Split(parts[1], '.')[0] else "0";
      var seconds := ParseInt(secPart);
      if minutes.Some? && seconds.Some? then Some((minutes.value, seconds.value)) else None
  }

  /** A clock "M:rest" reads its minutes from M and its seconds from `rest` up to the first '.'. */
  lemma ParseClockOfParts(minutesText: string, rest: string)
    requires ':' !in minutesText && ':' !in rest
    ensures ParseClock(Some(minutesText + ":" + rest)) ==
      var mm := ParseInt(minutesText);
      var ss := ParseInt(Split(rest, '.')[0]);
      if mm.Some? && ss.Some? then Some((mm.value, ss.value)) else None
  {
    SplitFirst(minutesText, rest, ':');
    SplitAbsent(rest, ':');
  }

  /** The seconds field "SS" or "SS.t": no colon, and "SS" before the first '.'. */
  lemma SecondsField(sec: string, tenths: Option<nat>)
    requires AllDigits(sec)
    ensures var rest := sec + (if tenths.Some? then "." + NatToString(tenths.value) else "");
      ':' !in rest && Split(rest, '.')[0] == sec
  {
    DigitsExclude(sec, ':');
    DigitsExclude(sec, '.');
    if tenths.Some? {
      var t := NatToString(tenths.value);
      DigitsExclude(t, ':');
      SplitFirst(sec, t, '.');
      assert sec + ("." + t) == sec + ['.'] + t;
    } else {
      SplitAbsent(sec, '.');
      assert sec + "" == sec;
    }
  }

  /** The game clock as the live feed renders it: "M:SS", or "M:SS.t" with tenths. */
  function ClockText(minutes: nat, seconds: nat, tenths: Option<nat>): string {
    NatToString(minutes) + ":" + Pad2(seconds) + (if tenths.Some? then "." + NatToString(tenths.value) else "")
  }

  /** A rendered clock reads back as the same minutes and seconds. */
  lemma ParseClockRoundTrip(minutes: nat, seconds: nat, tenths: Option<nat>)
    ensures ParseClock(Some(ClockText(minutes, seconds, tenths))) == Some((minutes as int, seconds as int))
  {
    var m := NatToString(minutes);
    var sec := Pad2(seconds);
    var rest := sec + (if tenths.Some? then "." + NatToString(tenths.value) else "");
    assert AllDigits(sec) by { LeadingZero(NatToString(seconds)); }
    SecondsField(sec, tenths);
    DigitsExclude(m, ':');
    ParseClockOfParts(m, rest);
    ParseIntNatToString(minutes);
    ParseIntPad2(seconds);
    ClockTextParts(minutes, seconds, tenths);
  }

  lemma ClockTextParts(minutes: nat, seconds: nat, tenths: Option<nat>)
    ensures ClockText(minutes, seconds, tenths) ==
      NatToString(minutes) + ":" + (Pad2(seconds) + (if tenths.Some? then "." + NatToString(tenths.value) else ""))
  {
  }

  /**
   * A colon-less all-digit clock such as "12" parses as (12, 0) through the
   * `else '0'` branch; the predictor's own tests expect None for it.
   */
  lemma ParseClockWithoutColon(digits: string)
    requires digits != [] && AllDigits(digits)
    ensures ParseClock(Some(digits)) == Some((DigitsValue(digits) as int, 0))
  {
    DigitsExclude(digits, ':');
    ParseClockColonless(digits);
    ParseIntDigits(digits);
  }

  lemma ParseClockMissing()
    ensures ParseClock(None) == None && ParseClock(Some("")) == None
  {
  }

  /** A clock without a colon reads its minutes from the whole text and zero seconds. */
  lemma ParseClockColonless(text: string)
    requires text != [] && ':' !in text
    ensures ParseClock(Some(text)) == if ParseInt(text).Some? then Some((ParseInt(text).value, 0)) else None
  {
    SplitAbsent(text, ':');
    ParseIntZero();
  }

  /** A clock whose minutes field is not a number does not parse, whatever follows the colon. */
  lemma ParseClockBadMinutes(minutesText: string, rest: string)
    requires ':' !in minutesText && ':' !in rest && ParseInt(minutesText).None?
    ensures ParseClock(Some(minutesText + ":" + rest)).None?
  {
    ParseClockOfParts(minutesText, rest);
  }


  /**
   * (minutes remaining, minutes played). Remaining is never negative; when
   * the clock reading is itself non-negative, remaining + played is the
   * scheduled length of the game through the current period.
   */
  function TimeValues(quarter: int, clockMinutes: int, clockSeconds: int): (r: (real, real))
    ensures r.0 >= 0.0
    ensures var clock := clockMinutes as real + clockSeconds as real / 60.0;
      quarter <= 4 ==> r.0 + r.1 == 48.0
    ensures var clock := clockMinutes as real + clockSeconds as real / 60.0;
      quarter > 4 && clock >= 0.0 ==> r.0 + r.1 == 48.0 + 5.0 * (quarter - 4) as real
  {
    var clock := clockMinutes as real + clockSeconds as real / 60.0;
    if quarter <= 4 then
      var remaining := Max(0.0, (4 - quarter) as real * 12.0 + clock);
      (remaining, 48.0 - remaining)
    else
      var otPeriod := quarter - 4;
      var elapsed := 5.0 - clock;
      (Max(0.0, 5.0 - elapsed), 48.0 + (otPeriod - 1) as real * 5.0 + elapsed)
  }

  lemma TimeValuesExamples()
    ensures TimeValues(1, 12, 0) == (48.0, 0.0)
    ensures TimeValues(1, 0, 0) == (36.0, 12.0)
    ensures TimeValues(2, 0, 0) == (24.0, 24.0)
    ensures TimeValues(4, 0, 0) == (0.0, 48.0)
    ensures TimeValues(5, 5, 0) == (5.0, 48.0)
    ensures TimeValues(5, 2, 30) == (2.5, 50.5)
    ensures TimeValues(6, 3, 0) == (3.0, 55.0)
  {
  }

  // ---------------------------------------------------------------- box-score primitives

  /** The possession estimate fga + 0.44 fta + tov - orb, floored at 1. */
  function Possessions(fga: int, fta: int, tov: int, orb: int): (p: real)
    ensures p >= 1.0
    ensures p == 1.0 || p == fga as real + 0.44 * fta as real + tov as real - orb as real
    ensures p >= fga as real + 0.44 * fta as real + tov as real - orb as real
  {
    Max(fga as real + 0.44 * fta as real + tov as real - orb as real, 1.0)
  }

  /** Effective field-goal percentage; 0 when there were no attempts. */
  function Efg(fgm: int, fg3m: int, fga: int): (r: real)
    ensures fga == 0 ==> r == 0.0
    ensures fga != 0 ==> r * fga as real == fgm as real + 0.5 * fg3m as real
  {
    if fga == 0 then 0.0 else (fgm as real + 0.5 * fg3m as real) / fga as real
  }

  function TovRate(tov: int, poss: real): (r: real)
    requires poss != 0.0
    ensures r * poss == tov as real
  {
    tov as real / poss
  }

  // ---------------------------------------------------------------- factors

  /** tanh of the home-court-adjusted lead over sqrt(remaining + 1), scaled. */
  function LeadAdvantageAt(cfg: Config, m: RealOps, lead: real, minutesRemaining: real): real
    requires minutesRemaining > -1.0
    requires m.sqrt(minutesRemaining + 1.0) != 0.0
  {
    m.tanh(LeadScore(cfg, lead, m.sqrt(minutesRemaining + 1.0)))
  }

  /** The lead factor's tanh argument: (lead - hca) / s · lead_scale, with s = sqrt(remaining + 1). */
  function LeadScore(cfg: Config, lead: real, s: real): real
    requires s != 0.0
  {
    (lead - cfg.homeCourtAdjustment) / s * cfg.leadScale
  }

  /** The fraction of regulation played, min(1, played / 48). */
  function Progress(minutesPlayed: real): (p: real)
    ensures minutesPlayed >= 0.0 ==> 0.0 <= p <= 1.0
    ensures minutesPlayed >= 48.0 <==> p == 1.0
  {
    Min(1.0, minutesPlayed / 48.0)
  }

  lemma ProgressMonotone(played1: real, played2: real)
    requires played1 <= played2
    ensures Progress(played1) <= Progress(played2)
  {
    assert played1 / 48.0 <= played2 / 48.0;
  }

  /** The lead weight grows linearly with the fraction of regulation played, capped at 1. */
  function LeadWeight(cfg: Config, minutesPlayed: real): (w: real)
    ensures minutesPlayed >= 0.0 && cfg.leadWeightMin <= cfg.leadWeightMax ==>
      cfg.leadWeightMin <= w <= cfg.leadWeightMax
    ensures minutesPlayed >= 48.0 ==> w == cfg.leadWeightMax
  {
    var d := cfg.leadWeightMax - cfg.leadWeightMin;
    var p := Progress(minutesPlayed);
    if minutesPlayed >= 0.0 && d >= 0.0 then
      MulMonotone(d, 0.0, p);
      MulMonotone(d, p, 1.0);
      cfg.leadWeightMin + d * p
    else
      cfg.leadWeightMin + d * p
  }

  lemma LeadWeightMonotone(cfg: Config, played1: real, played2: real)
    requires cfg.leadWeightMin <= cfg.leadWeightMax && played1 <= played2
    ensures LeadWeight(cfg, played1) <= LeadWeight(cfg, played2)
  {
    var p1, p2 := Progress(played1), Progress(played2);
    ProgressMonotone(played1, played2);
    var d := cfg.leadWeightMax - cfg.leadWeightMin;
    calc {
      LeadWeight(cfg, played1);
    ==
      cfg.leadWeightMin + d * p1;
    <= { MulMonotone(d, p1, p2); }
      cfg.leadWeightMin + d * p2;
    ==
      LeadWeight(cfg, played2);
    }
  }

  function LeadFactor(cfg: Config, m: RealOps, homeScore: int, awayScore: int,
                      minutesRemaining: real, minutesPlayed: real): (f: Factor)
    requires minutesRemaining > -1.0
    requires m.sqrt(minutesRemaining + 1.0) != 0.0
    ensures f.name == "lead" && f.active && f.gated == None
    ensures f.rawValue == Some((homeScore - awayScore) as real)
    ensures f.weight == LeadWeight(cfg, minutesPlayed)
    ensures f.advantage == LeadAdvantageAt(cfg, m, (homeScore - awayScore) as real, minutesRemaining)
  {
    var rawLead := homeScore - awayScore;
    Factor("lead", LeadAdvantageAt(cfg, m, rawLead as real, minutesRemaining),
           LeadWeight(cfg, minutesPlayed), true, Some(rawLead as real), None)
  }

  /** The lead favours home exactly when the raw lead beats the home-court adjustment. */
  lemma LeadAdvantageSign(cfg: Config, m: RealOps, lead: real, minutesRemaining: real)
    requires Lawful(m) && cfg.leadScale > 0.0 && minutesRemaining > -1.0
    ensures m.sqrt(minutesRemaining + 1.0) > 0.0
    ensures LeadAdvantageAt(cfg, m, lead, minutesRemaining) > 0.0 <==> lead > cfg.homeCourtAdjustment
    ensures LeadAdvantageAt(cfg, m, lead, minutesRemaining) < 0.0 <==> lead < cfg.homeCourtAdjustment
  {
    var s := m.sqrt(minutesRemaining + 1.0);
    SqrtPositive(m, minutesRemaining + 1.0);
    LeadScoreSign(cfg, lead, s);
    TanhSign(m, LeadScore(cfg, lead, s));
  }

  lemma LeadScoreSign(cfg: Config, lead: real, s: real)
    requires s > 0.0 && cfg.leadScale > 0.0
    ensures LeadScore(cfg, lead, s) > 0.0 <==> lead > cfg.homeCourtAdjustment
    ensures LeadScore(cfg, lead, s) < 0.0 <==> lead < cfg.homeCourtAdjustment
  {
    var d := lead - cfg.homeCourtAdjustment;
    if d > 0.0 {
      assert d / s > 0.0;
    } else if d < 0.0 {
      assert d / s < 0.0;
    }
  }

  function SpreadFactor(cfg: Config, m: RealOps, spread: Option<real>): (f: Factor)
    ensures f.name == "spread" && f.rawValue == spread && f.gated == None
    ensures spread.None? ==> !f.active && f.weight == 0.0 && f.advantage == 0.0
    ensures spread.Some? ==> f.active && f.weight == cfg.spreadBaseWeight
  {
    if spread.Some? then
      Factor("spread", m.tanh(spread.value * -cfg.spreadScale), cfg.spreadBaseWeight, true, spread, None)
    else
      Factor("spread", 0.0, 0.0, false, None, None)
  }

  /** A negative (home-favoured) spread gives home the advantage, a positive one gives it to away. */
  lemma SpreadAdvantageSign(cfg: Config, m: RealOps, spread: real)
    requires TanhLaws(m) && cfg.spreadScale > 0.0
    ensures SpreadFactor(cfg, m, Some(spread)).advantage > 0.0 <==> spread < 0.0
    ensures SpreadFactor(cfg, m, Some(spread)).advantage < 0.0 <==> spread > 0.0
  {
    var x := spread * -cfg.spreadScale;
    TanhSign(m, x);
    ScaledSign(-spread, cfg.spreadScale);
    assert x == -spread * cfg.spreadScale;
  }

  /** How far the home team outshoots its season eFG, minus how far the away team outshoots its own. */
  function EfficiencyEdge(home: TeamStats, away: TeamStats, homeSeason: SeasonStats, awaySeason: SeasonStats): real {
    (Efg(home.fgm, home.fg3m, home.fga) - homeSeason.efg) - (Efg(away.fgm, away.fg3m, away.fga) - awaySeason.efg)
  }

  function EfficiencyFactor(cfg: Config, m: RealOps, home: TeamStats, away: TeamStats,
                            homeSeason: SeasonStats, awaySeason: SeasonStats, minutesPlayed: real): (f: Factor)
    ensures f.name == "efficiency" && f.active && f.rawValue == None && f.gated.Some?
    ensures f.advantage == m.tanh(EfficiencyEdge(home, away, homeSeason, awaySeason) * cfg.efficiencyScale)
    ensures var minPoss := Min(Possessions(home.fga, home.fta, home.tov, home.orb),
                               Possessions(away.fga, away.fta, away.tov, away.orb));
      f.gated.value <==> minutesPlayed < cfg.efficiencyGateMinutes || minPoss < cfg.efficiencyGatePoss
    ensures f.weight == if f.gated.value then cfg.efficiencyWeightGated else cfg.efficiencyWeightFull
  {
    var homePoss := Possessions(home.fga, home.fta, home.tov, home.orb);
    var awayPoss := Possessions(away.fga, away.fta, away.tov, away.orb);
    var advantage := m.tanh(EfficiencyEdge(home, away, homeSeason, awaySeason) * cfg.efficiencyScale);
    var minPoss := Min(homePoss, awayPoss);
    if minutesPlayed < cfg.efficiencyGateMinutes || minPoss < cfg.efficiencyGatePoss then
      Factor("efficiency", advantage, cfg.efficiencyWeightGated, true, None, Some(true))
    else
      Factor("efficiency", advantage, cfg.efficiencyWeightFull, true, None, Some(false))
  }

  /** Extra possessions earned: turnovers forced beyond those committed, plus offensive-rebound margin. */
  function ExtraPossessions(home: TeamStats, away: TeamStats): int {
    (away.tov - home.tov) + (home.orb - away.orb)
  }

  /** Extra possessions per possession played by both teams (the total floored at 1). */
  function PossessionEdgeRate(home: TeamStats, away: TeamStats): real {
    ExtraPossessions(home, away) as real /
      Max(Possessions(home.fga, home.fta, home.tov, home.orb) + Possessions(away.fga, away.fta, away.tov, away.orb), 1.0)
  }

  function PossessionEdgeFactor(cfg: Config, m: RealOps, home: TeamStats, away: TeamStats,
                                minutesPlayed: real): (f: Factor)
    ensures f.name == "possession_edge" && f.active && f.gated.Some?
    ensures f.rawValue == Some(ExtraPossessions(home, away) as real)
    ensures f.advantage == m.tanh(PossessionEdgeRate(home, away) * cfg.possessionEdgeScale)
    ensures var minPoss := Min(Possessions(home.fga, home.fta, home.tov, home.orb),
                               Possessions(away.fga, away.fta, away.tov, away.orb));
      f.gated.value <==> minutesPlayed < cfg.possessionEdgeGateMinutes || minPoss < cfg.possessionEdgeGatePoss
    ensures f.weight == if f.gated.value then cfg.possessionEdgeWeightGated else cfg.possessionEdgeWeightFull
  {
    var homePoss := Possessions(home.fga, home.fta, home.tov, home.orb);
    var awayPoss := Possessions(away.fga, away.fta, away.tov, away.orb);
    var extra := ExtraPossessions(home, away);
    var advantage := m.tanh(PossessionEdgeRate(home, away) * cfg.possessionEdgeScale);
    var minPoss := Min(homePoss, awayPoss);
    if minutesPlayed < cfg.possessionEdgeGateMinutes || minPoss < cfg.possessionEdgeGatePoss then
      Factor("possession_edge", advantage, cfg.possessionEdgeWeightGated, true, Some(extra as real), Some(true))
    else
      Factor("possession_edge", advantage, cfg.possessionEdgeWeightFull, true, Some(extra as real), Some(false))
  }

  /** Home has the efficiency advantage exactly when it beats its season eFG by more than away beats its own. */
  lemma EfficiencyAdvantageSign(cfg: Config, m: RealOps, home: TeamStats, away: TeamStats,
                                homeSeason: SeasonStats, awaySeason: SeasonStats, minutesPlayed: real)
    requires TanhLaws(m) && cfg.efficiencyScale > 0.0
    ensures var a := EfficiencyFactor(cfg, m, home, away, homeSeason, awaySeason, minutesPlayed).advantage;
      (a > 0.0 <==> EfficiencyEdge(home, away, homeSeason, awaySeason) > 0.0) &&
      (a < 0.0 <==> EfficiencyEdge(home, away, homeSeason, awaySeason) < 0.0)
  {
    var e := EfficiencyEdge(home, away, homeSeason, awaySeason);
    TanhSign(m, e * cfg.efficiencyScale);
    ScaledSign(e, cfg.efficiencyScale);
  }

  /** The possession edge favours the side that earned the extra possessions. */
  lemma PossessionEdgeAdvantageSign(cfg: Config, m: RealOps, home: TeamStats, away: TeamStats, minutesPlayed: real)
    requires TanhLaws(m) && cfg.possessionEdgeScale > 0.0
    ensures var a := PossessionEdgeFactor(cfg, m, home, away, minutesPlayed).advantage;
      (a > 0.0 <==> ExtraPossessions(home, away) > 0) &&
      (a < 0.0 <==> ExtraPossessions(home, away) < 0)
  {
    var extra := ExtraPossessions(home, away) as real;
    var total := Max(Possessions(home.fga, home.fta, home.tov, home.orb) + Possessions(away.fga, away.fta, away.tov, away.orb), 1.0);
    assert total >= 1.0;
    if extra > 0.0 {
      assert extra / total > 0.0;
    } else if extra < 0.0 {
      assert extra / total < 0.0;
    } else {
      assert extra / total == 0.0;
    }
    var r := PossessionEdgeRate(home, away);
    TanhSign(m, r * cfg.possessionEdgeScale);
    ScaledSign(r, cfg.possessionEdgeScale);
  }

  /** Scaling by a positive factor keeps the sign. */
  lemma ScaledSign(x: real, k: real)
    requires k > 0.0
    ensures x * k > 0.0 <==> x > 0.0
    ensures x * k < 0.0 <==> x < 0.0
  {
    if x > 0.0 {
      assert x * k > 0.0;
    } else if x < 0.0 {
      assert x * k < 0.0;
    }
  }

  // ---------------------------------------------------------------- combining the factors

  /** Sum of the weights of the active factors. */
  function ActiveWeightSum(fs: seq<Factor>): real {
    if fs == [] then 0.0 else (if fs[0].active then fs[0].weight else 0.0) + ActiveWeightSum(fs[1..])
  }

  /** Sum of all weights, active or not. */
  function TotalWeight(fs: seq<Factor>): real {
    if fs == [] then 0.0 else fs[0].weight + TotalWeight(fs[1..])
  }

  /** weight · advantage for an active factor, 0 for an inactive one. */
  function Contribution(f: Factor): real {
    if f.active then f.weight * f.advantage else 0.0
  }

  /** Sum of weight times advantage over the active factors. */
  function WeightedSum(fs: seq<Factor>): real {
    if fs == [] then 0.0 else Contribution(fs[0]) + WeightedSum(fs[1..])
  }

  /** An active factor's weight divided by `total`; an inactive factor is kept as is. */
  function Rescaled(f: Factor, total: real): (g: Factor)
    requires total != 0.0
    ensures g == f.(weight := g.weight)
    ensures !f.active ==> g == f
    ensures f.active ==> g.weight * total == f.weight
  {
    if f.active then f.(weight := f.weight / total) else f
  }

  /** Rescaling by a positive total keeps a weight non-negative. */
  lemma RescaledNonNegative(f: Factor, total: real)
    requires total > 0.0 && f.weight >= 0.0
    ensures Rescaled(f, total).weight >= 0.0
  {
  }

  lemma {:induction false} RescaledSum(fs: seq<Factor>, rs: seq<Factor>, total: real)
    requires total != 0.0 && |rs| == |fs|
    requires forall k :: 0 <= k < |fs| ==> rs[k] == Rescaled(fs[k], total)
    ensures ActiveWeightSum(rs) == ActiveWeightSum(fs) / total
  {
    if fs != [] {
      assert forall k :: 0 <= k < |fs| - 1 ==> rs[1..][k] == Rescaled(fs[1..][k], total) by {
        forall k | 0 <= k < |fs| - 1 ensures rs[1..][k] == Rescaled(fs[1..][k], total) {
          assert rs[1..][k] == rs[k + 1] && fs[1..][k] == fs[k + 1];
        }
      }
      RescaledSum(fs[1..], rs[1..], total);
      RescaledActiveWeight(fs[0], total);
      var head := if fs[0].active then fs[0].weight else 0.0;
      DivAdd(head, ActiveWeightSum(fs[1..]), total);
    }
  }

  /** The active weight of a rescaled factor is its active weight over the total. */
  lemma RescaledActiveWeight(f: Factor, total: real)
    requires total != 0.0
    ensures (var g := Rescaled(f, total); if g.active then g.weight else 0.0) ==
      (if f.active then f.weight else 0.0) / total
  {
  }

  lemma DivAdd(x: real, y: real, total: real)
    requires total != 0.0
    ensures x / total + y / total == (x + y) / total
  {
  }

  /**
   * Rescales the active weights so that they sum to 1; returns the list
   * unchanged when the active weights sum to 0.
   */
  method NormalizeWeights(fs: seq<Factor>) returns (r: seq<Factor>)
    ensures |r| == |fs|
    ensures ActiveWeightSum(fs) == 0.0 ==> r == fs
    ensures ActiveWeightSum(fs) != 0.0 ==> forall k :: 0 <= k < |fs| ==> r[k] == Rescaled(fs[k], ActiveWeightSum(fs))
    ensures ActiveWeightSum(fs) != 0.0 ==> ActiveWeightSum(r) == 1.0
  {
    var total := ActiveWeightSum(fs);
    if total == 0.0 {
      return fs;
    }
    r := [];
    var i := 0;
    while i < |fs|
      invariant 0 <= i <= |fs| && |r| == i
      invariant forall k :: 0 <= k < i ==> r[k] == Rescaled(fs[k], total)
    {
      if fs[i].active {
        r := r + [fs[i].(weight := fs[i].weight / total)];
      } else {
        r := r + [fs[i]];
      }
      i := i + 1;
    }
    RescaledSum(fs, r, total);
    assert ActiveWeightSum(fs) / total == 1.0;
  }

  /** Σ weight·advantage over the active factors, scaled by the overtime damping factor in overtime. */
  function CombinedScore(cfg: Config, fs: seq<Factor>, isOvertime: bool): (r: real)
    ensures WellFormed(fs) && 0.0 <= cfg.otDampenFactor <= 1.0 ==> -ActiveWeightSum(fs) <= r <= ActiveWeightSum(fs)
    ensures isOvertime && 0.0 <= cfg.otDampenFactor <= 1.0 ==> Abs(r) <= Abs(WeightedSum(fs))
  {
    var s := WeightedSum(fs);
    var d := cfg.otDampenFactor;
    WeightedSumBoundedIf(fs);
    DampedWithin(s, ActiveWeightSum(fs), d, isOvertime);
    if isOvertime then s * d else s
  }

  /** Damping by a factor in [0, 1] keeps a value within its bound and never enlarges it. */
  lemma DampedWithin(s: real, w: real, d: real, isOvertime: bool)
    ensures var r := if isOvertime then s * d else s;
      (-w <= s <= w && 0.0 <= d <= 1.0 ==> -w <= r <= w) &&
      (isOvertime && 0.0 <= d <= 1.0 ==> Abs(r) <= Abs(s))
  {
    if 0.0 <= d <= 1.0 {
      MulUnitShrinks(s, d);
    }
  }

  /**
   * The overtime score is the regulation score times the damping factor, so a
   * factor below 1 strictly pulls any non-zero score toward 0 without changing
   * the side it favours.
   */
  lemma OvertimeDamps(cfg: Config, fs: seq<Factor>)
    ensures CombinedScore(cfg, fs, true) == CombinedScore(cfg, fs, false) * cfg.otDampenFactor
    ensures 0.0 <= cfg.otDampenFactor < 1.0 && CombinedScore(cfg, fs, false) != 0.0 ==>
      Abs(CombinedScore(cfg, fs, true)) < Abs(CombinedScore(cfg, fs, false))
    ensures 0.0 <= cfg.otDampenFactor < 1.0 && CombinedScore(cfg, fs, false) > 0.0 ==>
      0.0 <= CombinedScore(cfg, fs, true) < CombinedScore(cfg, fs, false)
    ensures 0.0 <= cfg.otDampenFactor < 1.0 && CombinedScore(cfg, fs, false) < 0.0 ==>
      CombinedScore(cfg, fs, false) < CombinedScore(cfg, fs, true) <= 0.0
  {
    var s := CombinedScore(cfg, fs, false);
    if 0.0 <= cfg.otDampenFactor < 1.0 && s != 0.0 {
      MulBelowUnitShrinks(s, cfg.otDampenFactor);
    }
  }

  /** Two active factors whose regulation score is 0.4 score 0.32 in overtime with the shipped damping of 0.8. */
  lemma OvertimeDampingExample()
    ensures var fs := [Factor("lead", 0.5, 0.5, true, None, None), Factor("spread", 0.3, 0.5, true, None, None)];
      CombinedScore(Default(), fs, false) == 0.4 &&
      CombinedScore(Default(), fs, true) == 0.32 < CombinedScore(Default(), fs, false)
  {
    var fs := [Factor("lead", 0.5, 0.5, true, None, None), Factor("spread", 0.3, 0.5, true, None, None)];
    assert WeightedSum(fs[1..]) == 0.15;
  }

  lemma WeightedSumBoundedIf(fs: seq<Factor>)
    ensures WellFormed(fs) ==> -ActiveWeightSum(fs) <= WeightedSum(fs) <= ActiveWeightSum(fs)
  {
    if WellFormed(fs) {
      WeightedSumBounded(fs);
    }
  }

  /** With non-negative weights and advantages in [-1, 1], |Σ w·a| is at most Σ w. */
  lemma {:induction false} WeightedSumBounded(fs: seq<Factor>)
    requires WellFormed(fs)
    ensures -ActiveWeightSum(fs) <= WeightedSum(fs) <= ActiveWeightSum(fs)
  {
    if fs != [] {
      var rest := fs[1..];
      assert WellFormed(rest) by {
        forall k | 0 <= k < |rest| && rest[k].active
          ensures rest[k].weight >= 0.0 && -1.0 <= rest[k].advantage <= 1.0
        {
          assert rest[k] == fs[k + 1];
        }
      }
      WeightedSumBounded(rest);
      assert fs[0].active ==> fs[0].weight >= 0.0 && -1.0 <= fs[0].advantage <= 1.0;
      ContributionBounded(fs[0]);
    }
  }

  lemma ContributionBounded(f: Factor)
    requires f.active ==> f.weight >= 0.0 && -1.0 <= f.advantage <= 1.0
    ensures var w := if f.active then f.weight else 0.0;
      -w <= Contribution(f) <= w
  {
    if f.active {
      MulMonotone(f.weight, -1.0, f.advantage);
      MulMonotone(f.weight, f.advantage, 1.0);
    }
  }

  /** After normalisation the combined score lies in [-1, 1], in regulation and in overtime. */
  lemma CombinedScoreWithinUnit(cfg: Config, fs: seq<Factor>, isOvertime: bool)
    requires 0.0 <= cfg.otDampenFactor <= 1.0
    requires WellFormed(fs) && ActiveWeightSum(fs) == 1.0
    ensures -1.0 <= CombinedScore(cfg, fs, isOvertime) <= 1.0
  {
  }

  /** The home win probability is the logistic function of k·combined; away takes the rest. */
  function WinProbability(cfg: Config, m: RealOps, combined: real): (r: (real, real))
    requires m.exp(-cfg.sigmoidK * combined) > -1.0
    ensures r.0 + r.1 == 1.0
  {
    var home := 1.0 / (1.0 + m.exp(-cfg.sigmoidK * combined));
    (home, 1.0 - home)
  }

  lemma WinProbabilityShape(cfg: Config, m: RealOps, combined: real)
    requires ExpLaws(m) && cfg.sigmoidK > 0.0
    ensures var r := WinProbability(cfg, m, combined);
      0.0 < r.0 < 1.0 && 0.0 < r.1 < 1.0 &&
      (r.0 > 0.5 <==> combined > 0.0) &&
      (r.0 < 0.5 <==> combined < 0.0) &&
      (combined == 0.0 ==> r == (0.5, 0.5))
  {
    var x := -cfg.sigmoidK * combined;
    var e := m.exp(x);
    assert e > 0.0;
    if combined > 0.0 {
      assert x < 0.0;
      assert e < m.exp(0.0);
    } else if combined < 0.0 {
      assert x > 0.0;
      assert e > m.exp(0.0);
    } else {
      assert x == 0.0;
    }
  }

  /** The home probability unfolded, for the monotonicity proof below. */
  lemma HomeProbability(cfg: Config, m: RealOps, c: real)
    requires ExpLaws(m)
    ensures WinProbability(cfg, m, c).0 == 1.0 / (1.0 + m.exp(-cfg.sigmoidK * c))
  {
  }

  lemma ExpMonotone(m: RealOps, x: real, y: real)
    requires ExpLaws(m) && x <= y
    ensures 0.0 < m.exp(x) <= m.exp(y)
  {
    if x < y {
      assert m.exp(x) < m.exp(y);
    }
  }

  /** A larger combined score never lowers the home win probability. */
  lemma WinProbabilityMonotone(cfg: Config, m: RealOps, c1: real, c2: real)
    requires ExpLaws(m) && cfg.sigmoidK > 0.0 && c1 <= c2
    ensures WinProbability(cfg, m, c1).0 <= WinProbability(cfg, m, c2).0
  {
    var x1, x2 := -cfg.sigmoidK * c1, -cfg.sigmoidK * c2;
    NegatedScaleAntitone(cfg.sigmoidK, c1, c2);
    ExpMonotone(m, x2, x1);
    ReciprocalAntitone(1.0 + m.exp(x2), 1.0 + m.exp(x1));
    HomeProbability(cfg, m, c1);
    HomeProbability(cfg, m, c2);
  }

  /** Scaling by a negated positive steepness reverses the order of scores. */
  lemma NegatedScaleAntitone(k: real, c1: real, c2: real)
    requires k > 0.0 && c1 <= c2
    ensures -k * c2 <= -k * c1
  {
    MulMonotone(k, c1, c2);
    assert -k * c1 == -(k * c1) && -k * c2 == -(k * c2);
  }

  // ---------------------------------------------------------------- flip lead

  /** The first factor with the given name, as `next(...)` finds it. */
  function FirstNamed(fs: seq<Factor>, name: string): (r: Option<Factor>)
    ensures r.Some? ==> r.value in fs && r.value.name == name
    ensures r.None? <==> forall k :: 0 <= k < |fs| ==> fs[k].name != name
  {
    if fs == [] then None else if fs[0].name == name then Some(fs[0]) else FirstNamed(fs[1..], name)
  }

  /** The factor found is the first one with that name: none before it has it. */
  lemma {:induction false} FirstNamedIsFirst(fs: seq<Factor>, name: string)
    requires FirstNamed(fs, name).Some?
    ensures exists k :: 0 <= k < |fs| && fs[k] == FirstNamed(fs, name).value &&
                        forall j :: 0 <= j < k ==> fs[j].name != name
    decreases |fs|
  {
    if fs[0].name != name {
      FirstNamedIsFirst(fs[1..], name);
      var k :| 0 <= k < |fs[1..]| && fs[1..][k] == FirstNamed(fs[1..], name).value &&
               forall j :: 0 <= j < k ==> fs[1..][j].name != name;
      assert fs[k + 1] == FirstNamed(fs, name).value;
      assert forall j :: 0 <= j < k + 1 ==> fs[j].name != name by {
        forall j | 0 <= j < k + 1 ensures fs[j].name != name {
          if j > 0 {
            assert fs[j] == fs[1..][j - 1];
          }
        }
      }
    } else {
      assert fs[0] == FirstNamed(fs, name).value;
    }
  }

  /** Σ weight·advantage over the active factors other than the lead. */
  function OtherContribution(fs: seq<Factor>): real {
    if fs == [] then 0.0
    else (if fs[0].name != "lead" then Contribution(fs[0]) else 0.0) + OtherContribution(fs[1..])
  }

  /** The lead advantage that would cancel the other factors: -other / w_lead. */
  function FlipTarget(fs: seq<Factor>, leadWeight: real): real
    requires leadWeight != 0.0
  {
    -OtherContribution(fs) / leadWeight
  }

  /**
   * The lead (home minus away) at which the lead factor would exactly cancel
   * all other factors, putting the game at 50%.
   */
  function FlipLeadHome(cfg: Config, m: RealOps, fs: seq<Factor>, minutesRemaining: real): (r: Option<real>)
    requires cfg.leadScale != 0.0 && minutesRemaining >= -1.0
    ensures var lead := FirstNamed(fs, "lead");
      r.Some? <==> lead.Some? && lead.value.active && lead.value.weight != 0.0 &&
                   -0.999 < FlipTarget(fs, lead.value.weight) < 0.999
  {
    var lead := FirstNamed(fs, "lead");
    if lead.None? || !lead.value.active || lead.value.weight == 0.0 then None
    else
      var target := FlipTarget(fs, lead.value.weight);
      if target <= -0.999 || target >= 0.999 then None
      else
        var leadScore := m.atanh(target) / cfg.leadScale;
        Some(leadScore * m.sqrt(minutesRemaining + 1.0) + cfg.homeCourtAdjustment)
  }

  /**
   * At the flip lead the lead factor's weighted advantage cancels the other
   * factors: w_lead · tanh(lead_scale · (L - hca) / sqrt(remaining + 1)) + other == 0.
   */
  lemma FlipLeadBalances(cfg: Config, m: RealOps, fs: seq<Factor>, minutesRemaining: real)
    requires AtanhLaws(m) && SqrtLaws(m) && cfg.leadScale > 0.0 && minutesRemaining > -1.0
    requires FlipLeadHome(cfg, m, fs, minutesRemaining).Some?
    ensures m.sqrt(minutesRemaining + 1.0) != 0.0
    ensures var lead := FirstNamed(fs, "lead").value;
      var flip := FlipLeadHome(cfg, m, fs, minutesRemaining).value;
      lead.weight * LeadAdvantageAt(cfg, m, flip, minutesRemaining) + OtherContribution(fs) == 0.0
  {
    SqrtPositive(m, minutesRemaining + 1.0);
    FlipLeadCancels(cfg, m, fs, minutesRemaining);
  }

  lemma FlipLeadCancels(cfg: Config, m: RealOps, fs: seq<Factor>, minutesRemaining: real)
    requires AtanhLaws(m) && m.sqrt(minutesRemaining + 1.0) > 0.0 && cfg.leadScale > 0.0 && minutesRemaining > -1.0
    requires FlipLeadHome(cfg, m, fs, minutesRemaining).Some?
    ensures FirstNamed(fs, "lead").value.weight *
              LeadAdvantageAt(cfg, m, FlipLeadHome(cfg, m, fs, minutesRemaining).value, minutesRemaining) +
            OtherContribution(fs) == 0.0
  {
    var w := FirstNamed(fs, "lead").value.weight;
    var other := OtherContribution(fs);
    var flip := FlipLeadHome(cfg, m, fs, minutesRemaining).value;
    assert flip == m.atanh(-other / w) / cfg.leadScale * m.sqrt(minutesRemaining + 1.0) + cfg.homeCourtAdjustment;
    FlipCancelCore(cfg, m, w, other, minutesRemaining);
    assert w * LeadAdvantageAt(cfg, m, flip, minutesRemaining) + other == 0.0;
  }

  /** The flip-lead computation for a lead weight `w` and other contributions `other`. */
  lemma FlipCancelCore(cfg: Config, m: RealOps, w: real, other: real, minutesRemaining: real)
    requires AtanhLaws(m) && m.sqrt(minutesRemaining + 1.0) > 0.0 && cfg.leadScale > 0.0 && minutesRemaining > -1.0
    requires w != 0.0 && -0.999 < -other / w < 0.999
    ensures var flip := m.atanh(-other / w) / cfg.leadScale * m.sqrt(minutesRemaining + 1.0) + cfg.homeCourtAdjustment;
      w * LeadAdvantageAt(cfg, m, flip, minutesRemaining) + other == 0.0
  {
    var target := -other / w;
    var a := m.atanh(target);
    var flip := a / cfg.leadScale * m.sqrt(minutesRemaining + 1.0) + cfg.homeCourtAdjustment;
    AdvantageAtFlip(cfg, m, minutesRemaining, a);
    var v := LeadAdvantageAt(cfg, m, flip, minutesRemaining);
    assert v == m.tanh(a) == target;
    WeightedCancel(w, other, v);
    assert flip == m.atanh(-other / w) / cfg.leadScale * m.sqrt(minutesRemaining + 1.0) + cfg.homeCourtAdjustment;
  }

  /** At the lead a / scale · sqrt(remaining + 1) + hca the lead factor's tanh argument is `a` again. */
  lemma AdvantageAtFlip(cfg: Config, m: RealOps, minutesRemaining: real, a: real)
    requires minutesRemaining > -1.0 && m.sqrt(minutesRemaining + 1.0) > 0.0 && cfg.leadScale > 0.0
    ensures LeadAdvantageAt(cfg, m, a / cfg.leadScale * m.sqrt(minutesRemaining + 1.0) + cfg.homeCourtAdjustment, minutesRemaining) == m.tanh(a)
  {
    LeadScoreAtFlip(cfg, m.sqrt(minutesRemaining + 1.0), a);
  }

  lemma LeadScoreAtFlip(cfg: Config, s: real, a: real)
    requires s > 0.0 && cfg.leadScale > 0.0
    ensures LeadScore(cfg, a / cfg.leadScale * s + cfg.homeCourtAdjustment, s) == a
  {
    LeadAtFlip(cfg.leadScale, s, a, a / cfg.leadScale * s);
  }

  /** w · (-other / w) + other == 0. */
  lemma WeightedCancel(w: real, other: real, v: real)
    requires w != 0.0 && v == -other / w
    ensures w * v + other == 0.0
  {
    MulDivCancel(-other, w);
  }

  /** Undoing the flip-lead scaling gives back the atanh value it started from. */
  lemma LeadAtFlip(c: real, s: real, a: real, d: real)
    requires s > 0.0 && c > 0.0 && d == a / c * s
    ensures d / s * c == a
  {
    ScaleRoundTrip(a, c, s);
  }

  // ---------------------------------------------------------------- alerts and overrides

  /** The pre-game underdog from the home-perspective spread: none for no spread or a pick'em. */
  function UnderdogTeam(spread: Option<real>): (r: Option<Side>)
    ensures r.None? <==> spread.None? || spread.value == 0.0
    ensures r == Some(Home) <==> spread.Some? && spread.value > 0.0
  {
    if spread.None? || spread.value == 0.0 then None
    else if spread.value > 0.0 then Some(Home) else Some(Away)
  }

  /** The underdog is always the side the spread factor works against. */
  lemma UnderdogOpposesSpreadFactor(cfg: Config, m: RealOps, spread: real)
    requires TanhLaws(m) && cfg.spreadScale > 0.0 && spread != 0.0
    ensures var adv := SpreadFactor(cfg, m, Some(spread)).advantage;
      (UnderdogTeam(Some(spread)) == Some(Home) <==> adv < 0.0) &&
      (UnderdogTeam(Some(spread)) == Some(Away) <==> adv > 0.0)
  {
    SpreadAdvantageSign(cfg, m, spread);
  }

  /** The watch is considered at all: no blowout, enough minutes played and data not stale. */
  predicate WatchGatesPass(cfg: Config, minutesPlayed: real, dataAgeSec: real, isBlowout: bool) {
    !isBlowout && minutesPlayed >= cfg.upsetMinMinutes && dataAgeSec < cfg.staleWarningSec
  }

  /**
   * (underdog probability, watch flag, reason). The flag is set exactly when
   * a reason is given; the reasons are tried in the order probability, near
   * 50%, trailing edge.
   */
  function UnderdogWatch(cfg: Config, underdog: Option<Side>, winProbHome: real, winProbAway: real,
                         combined: real, minutesPlayed: real, dataAgeSec: real,
                         trailingTeam: Option<Side>, trailingEdgeAlert: bool, isBlowout: bool)
    : (r: (Option<real>, bool, Option<UnderdogReason>))
    ensures r.1 <==> r.2.Some?
    ensures underdog.None? ==> r == (None, false, None)
    ensures underdog.Some? ==> r.0 == Some(if underdog.value == Home then winProbHome else winProbAway)
    ensures isBlowout || minutesPlayed < cfg.upsetMinMinutes || dataAgeSec >= cfg.staleWarningSec ==> !r.1
    ensures r.2 == Some(NearFifty) ==> r.0.value < cfg.upsetWinProbThreshold && Abs(combined) <= cfg.upsetFlipBufferThreshold
    ensures r.2 == Some(TrailingEdge) ==>
      r.0.value < cfg.upsetWinProbThreshold && Abs(combined) > cfg.upsetFlipBufferThreshold &&
      trailingEdgeAlert && trailingTeam == underdog
    // once every gate passes, the first condition that holds gives the reason
    ensures underdog.Some? && WatchGatesPass(cfg, minutesPlayed, dataAgeSec, isBlowout) ==>
      (r.2 == Some(ProbAtLeast(Trunc(cfg.upsetWinProbThreshold * 100.0))) <==> r.0.value >= cfg.upsetWinProbThreshold)
    ensures underdog.Some? && WatchGatesPass(cfg, minutesPlayed, dataAgeSec, isBlowout) ==>
      r.0.value < cfg.upsetWinProbThreshold ==>
        (r.2 == Some(NearFifty) <==> Abs(combined) <= cfg.upsetFlipBufferThreshold)
    ensures underdog.Some? && WatchGatesPass(cfg, minutesPlayed, dataAgeSec, isBlowout) ==>
      r.0.value < cfg.upsetWinProbThreshold && Abs(combined) > cfg.upsetFlipBufferThreshold ==>
        (r.2 == Some(TrailingEdge) <==> trailingEdgeAlert && trailingTeam == underdog)
    ensures underdog.Some? && WatchGatesPass(cfg, minutesPlayed, dataAgeSec, isBlowout) ==>
      (r.1 <==> r.0.value >= cfg.upsetWinProbThreshold || Abs(combined) <= cfg.upsetFlipBufferThreshold ||
                (trailingEdgeAlert && trailingTeam == underdog))
  {
    if underdog.None? then (None, false, None)
    else
      var prob := if underdog.value == Home then winProbHome else winProbAway;
      if isBlowout || minutesPlayed < cfg.upsetMinMinutes || dataAgeSec >= cfg.staleWarningSec then
        (Some(prob), false, None)
      else
        var reason :=
          if prob >= cfg.upsetWinProbThreshold then Some(ProbAtLeast(Trunc(cfg.upsetWinProbThreshold * 100.0)))
          else if Abs(combined) <= cfg.upsetFlipBufferThreshold then Some(NearFifty)
          else if trailingEdgeAlert && trailingTeam == underdog then Some(TrailingEdge)
          else None;
        (Some(prob), reason.Some?, reason)
  }

  /** The underdog is within a small swing of 50%: all gates pass and both the score and the swing are small. */
  function UnderdogCloseToFlip(cfg: Config, underdogProb: Option<real>, combined: real, flipSwing: Option<real>,
                               minutesPlayed: real, dataAgeSec: real, isBlowout: bool): (r: bool)
    ensures r <==>
      underdogProb.Some? && underdogProb.value < 0.5 && !isBlowout &&
      minutesPlayed >= cfg.upsetMinMinutes && dataAgeSec < cfg.staleWarningSec && flipSwing.Some? &&
      Abs(combined) <= cfg.upsetFlipBufferThreshold && Abs(flipSwing.value) <= cfg.upsetFlipSwingThreshold
  {
    if underdogProb.None? || underdogProb.value >= 0.5 then false
    else if isBlowout then false
    else if minutesPlayed < cfg.upsetMinMinutes then false
    else if dataAgeSec >= cfg.staleWarningSec then false
    else if flipSwing.None? then false
    else Abs(combined) <= cfg.upsetFlipBufferThreshold && Abs(flipSwing.value) <= cfg.upsetFlipSwingThreshold
  }

  /** Garbage time: a big raw lead late in the game pins the probabilities toward the leader. */
  function CheckBlowout(cfg: Config, homeScore: int, awayScore: int, minutesRemaining: real)
    : (r: (bool, Option<(real, real)>))
    ensures r.0 <==> Abs((homeScore - awayScore) as real) >= cfg.blowoutLeadThreshold as real &&
                     minutesRemaining <= cfg.blowoutMinutesThreshold
    ensures r.0 <==> r.1.Some?
    ensures r.0 ==> r.1.value.0 + r.1.value.1 == 1.0
    ensures r.0 && cfg.blowoutLeadThreshold > 0 ==>
      (r.1.value.0 > 0.5 <==> homeScore > awayScore) && (r.1.value.1 > 0.5 <==> awayScore > homeScore)
  {
    var rawLead := homeScore - awayScore;
    if Abs(rawLead as real) >= cfg.blowoutLeadThreshold as real && minutesRemaining <= cfg.blowoutMinutesThreshold then
      if rawLead > 0 then (true, Some((0.99, 0.01))) else (true, Some((0.01, 0.99)))
    else
      (false, None)
  }

  // ---------------------------------------------------------------- confidence

  function ActiveAdvantages(fs: seq<Factor>): (r: seq<real>)
    ensures |r| <= |fs|
    ensures r == [] <==> forall k :: 0 <= k < |fs| ==> !fs[k].active
  {
    if fs == [] then []
    else (if fs[0].active then [fs[0].advantage] else []) + ActiveAdvantages(fs[1..])
  }

  function MaxOf(s: seq<real>): (r: real)
    requires s != []
    ensures r in s && forall i :: 0 <= i < |s| ==> s[i] <= r
  {
    if |s| == 1 then s[0] else Max(s[0], MaxOf(s[1..]))
  }

  function MinOf(s: seq<real>): (r: real)
    requires s != []
    ensures r in s && forall i :: 0 <= i < |s| ==> r <= s[i]
  {
    if |s| == 1 then s[0] else Min(s[0], MinOf(s[1..]))
  }

  /** max - min is at most `bound` exactly when every pair of values is within `bound`. */
  lemma RangeWithin(s: seq<real>, bound: real)
    requires s != []
    ensures MaxOf(s) - MinOf(s) <= bound <==> forall i, j :: 0 <= i < |s| && 0 <= j < |s| ==> s[i] - s[j] <= bound
  {
  }

  predicate SameSign(s: seq<real>) {
    (forall i :: 0 <= i < |s| ==> s[i] >= 0.0) || (forall i :: 0 <= i < |s| ==> s[i] <= 0.0)
  }

  /** 'Low' on hard failures, then 'Medium' on soft ones, else 'High' only when the spread is available. */
  function ConfidenceLevel(cfg: Config, fs: seq<Factor>, dataAgeSec: real, minutesPlayed: real,
                           spreadAvailable: bool): (r: Confidence)
    ensures var adv := ActiveAdvantages(fs);
      r == Low <==> (adv == [] || dataAgeSec >= cfg.staleCriticalSec ||
                     (exists i, j :: 0 <= i < |adv| && 0 <= j < |adv| && adv[i] - adv[j] > 0.20) ||
                     minutesPlayed < 12.0)
    ensures var adv := ActiveAdvantages(fs);
      r == High <==> (r != Low && SameSign(adv) && dataAgeSec < cfg.staleWarningSec &&
                      minutesPlayed >= 24.0 && spreadAvailable)
  {
    var adv := ActiveAdvantages(fs);
    if adv == [] then Low
    else
      var spread := MaxOf(adv) - MinOf(adv);
      RangeWithin(adv, 0.20);
      if dataAgeSec >= cfg.staleCriticalSec then Low
      else if spread > 0.20 then Low
      else if minutesPlayed < 12.0 then Low
      else
        var maxConfidence := if spreadAvailable then High else Medium;
        if !SameSign(adv) then Medium
        else if dataAgeSec >= cfg.staleWarningSec then Medium
        else if minutesPlayed < 24.0 then Medium
        else maxConfidence
  }

  // ---------------------------------------------------------------- trailing edge

  /** Number of active factors whose advantage, signed toward the trailing team, reaches the threshold. */
  function CountFavoring(fs: seq<Factor>, sign: real, threshold: real): nat {
    if fs == [] then 0
    else CountFavoring(fs[..|fs| - 1], sign, threshold) +
         (if fs[|fs| - 1].active && fs[|fs| - 1].advantage * sign >= threshold then 1 else 0)
  }

  /** The side behind on the scoreboard; none on a tie. */
  function TrailingSide(homeScore: int, awayScore: int): (r: Option<Side>)
    ensures r.None? <==> homeScore == awayScore
    ensures r == Some(Home) <==> homeScore < awayScore
  {
    if homeScore == awayScore then None else if homeScore > awayScore then Some(Away) else Some(Home)
  }

  /**
   * The trailing-edge alert: the game is not tied, the margin reaches the
   * minimum, and at least two active factors lean toward the trailing side
   * by the threshold.
   */
  predicate EdgeAlert(cfg: Config, homeScore: int, awayScore: int, fs: seq<Factor>) {
    homeScore != awayScore &&
    Abs((homeScore - awayScore) as real) >= cfg.trailingEdgeMinMargin as real &&
    CountFavoring(fs, if homeScore > awayScore then -1.0 else 1.0, cfg.trailingEdgeFactorThreshold) >= 2
  }

  /** (trailing team, alert), counting the factors that favour the trailing side in one pass. */
  method CheckTrailingEdge(cfg: Config, homeScore: int, awayScore: int, fs: seq<Factor>)
    returns (trailing: Option<Side>, alert: bool)
    ensures trailing == TrailingSide(homeScore, awayScore)
    ensures alert == EdgeAlert(cfg, homeScore, awayScore, fs)
  {
    if homeScore == awayScore {
      return None, false;
    }
    var sign: real;
    if homeScore > awayScore {
      trailing, sign := Some(Away), -1.0;
    } else {
      trailing, sign := Some(Home), 1.0;
    }
    var margin := Abs((homeScore - awayScore) as real);
    if ActiveAdvantages(fs) == [] {
      assert CountFavoring(fs, sign, cfg.trailingEdgeFactorThreshold) == 0 by {
        NoActiveNoneFavoring(fs, sign, cfg.trailingEdgeFactorThreshold);
      }
      return trailing, false;
    }
    var count := 0;
    var i := 0;
    while i < |fs|
      invariant 0 <= i <= |fs|
      invariant count == CountFavoring(fs[..i], sign, cfg.trailingEdgeFactorThreshold)
    {
      assert fs[..i + 1][..i] == fs[..i];
      if fs[i].active && fs[i].advantage * sign >= cfg.trailingEdgeFactorThreshold {
        count := count + 1;
      }
      i := i + 1;
    }
    assert fs[..|fs|] == fs;
    alert := margin >= cfg.trailingEdgeMinMargin as real && count >= 2;
  }

  lemma {:induction false} NoActiveNoneFavoring(fs: seq<Factor>, sign: real, threshold: real)
    requires forall k :: 0 <= k < |fs| ==> !fs[k].active
    ensures CountFavoring(fs, sign, threshold) == 0
  {
    if fs != [] {
      NoActiveNoneFavoring(fs[..|fs| - 1], sign, threshold);
    }
  }

  // ---------------------------------------------------------------- game phase

  function GameStatus(status: string, period: int, clock: Option<string>): (r: Phase)
    ensures r == Final <==> status == "Final"
    ensures r == PreGame <==> status != "Final" && (period == 0 || clock.None?)
    ensures r == Halftime <==> status != "Final" && period == 2 && clock == Some("0:00")
    ensures r == BetweenQuarters <==> status != "Final" && (period == 1 || period == 3) && clock == Some("0:00")
    ensures r == InProgress <==>
      status != "Final" && period != 0 && clock.Some? && (clock.value != "0:00" || !(1 <= period <= 3))
  {
    if status == "Final" then Final
    else if period == 0 || clock.None? then PreGame
    else if clock.value == "0:00" && (period == 1 || period == 3) then BetweenQuarters
    else if clock.value == "0:00" && period == 2 then Halftime
    else InProgress
  }

  // ---------------------------------------------------------------- the pipeline

  /**
   * The factor list before normalisation: lead, spread, efficiency and, when
   * enabled outside pre-game, possession edge. Before tip-off lead and
   * efficiency are inactive with weight 0.
   */
  function RawFactors(cfg: Config, m: RealOps, gs: GameState, home: TeamStats, away: TeamStats,
                      homeSeason: SeasonStats, awaySeason: SeasonStats, spread: Option<real>,
                      enablePossessionEdge: bool, minutesRemaining: real, minutesPlayed: real): (fs: seq<Factor>)
    requires minutesRemaining > -1.0 && m.sqrt(minutesRemaining + 1.0) != 0.0
    ensures 3 <= |fs| <= 4
    ensures fs[0].name == "lead" && fs[1] == SpreadFactor(cfg, m, spread) && fs[2].name == "efficiency"
    ensures |fs| == 4 <==> enablePossessionEdge && GameStatus(gs.status, gs.quarter, gs.clock) != PreGame
    ensures forall k :: 0 <= k < |fs| && !fs[k].active ==> fs[k].weight == 0.0
    ensures GameStatus(gs.status, gs.quarter, gs.clock) == PreGame ==>
              fs[0] == Factor("lead", 0.0, 0.0, false, None, None) &&
              fs[2] == Factor("efficiency", 0.0, 0.0, false, None, None)
    ensures GameStatus(gs.status, gs.quarter, gs.clock) != PreGame ==>
              fs[0] == LeadFactor(cfg, m, gs.homeScore, gs.awayScore, minutesRemaining, minutesPlayed) &&
              fs[2] == EfficiencyFactor(cfg, m, home, away, homeSeason, awaySeason, minutesPlayed)
    ensures |fs| == 4 ==> fs[3] == PossessionEdgeFactor(cfg, m, home, away, minutesPlayed)
  {
    var spreadFactor := SpreadFactor(cfg, m, spread);
    if GameStatus(gs.status, gs.quarter, gs.clock) == PreGame then
      [Factor("lead", 0.0, 0.0, false, None, None), spreadFactor, Factor("efficiency", 0.0, 0.0, false, None, None)]
    else
      [LeadFactor(cfg, m, gs.homeScore, gs.awayScore, minutesRemaining, minutesPlayed),
       spreadFactor,
       EfficiencyFactor(cfg, m, home, away, homeSeason, awaySeason, minutesPlayed)] +
      (if enablePossessionEdge then [PossessionEdgeFactor(cfg, m, home, away, minutesPlayed)] else [])
  }

  /** When every inactive factor has weight 0, the total weight is the active weight. */
  lemma {:induction false} InactiveWeightless(fs: seq<Factor>)
    requires forall k :: 0 <= k < |fs| && !fs[k].active ==> fs[k].weight == 0.0
    ensures TotalWeight(fs) == ActiveWeightSum(fs)
  {
    if fs != [] {
      InactiveWeightless(fs[1..]);
    }
  }

  /** The shape the score bound needs: active factors carry a non-negative weight and an advantage in [-1, 1]. */
  predicate WellFormed(fs: seq<Factor>) {
    forall k :: 0 <= k < |fs| && fs[k].active ==> fs[k].weight >= 0.0 && -1.0 <= fs[k].advantage <= 1.0
  }

  /**
   * Every factor advantage is a tanh value, and with a sane configuration
   * and a non-negative time played every active weight is non-negative.
   */
  lemma RawFactorsWellFormed(cfg: Config, m: RealOps, gs: GameState, home: TeamStats, away: TeamStats,
                             homeSeason: SeasonStats, awaySeason: SeasonStats, spread: Option<real>,
                             enablePossessionEdge: bool, minutesRemaining: real, minutesPlayed: real)
    requires TanhLaws(m) && Sane(cfg)
    requires minutesRemaining > -1.0 && m.sqrt(minutesRemaining + 1.0) != 0.0 && minutesPlayed >= 0.0
    ensures WellFormed(RawFactors(cfg, m, gs, home, away, homeSeason, awaySeason, spread,
                                  enablePossessionEdge, minutesRemaining, minutesPlayed))
  {
  }

  lemma {:induction false} ActiveWeightNonNegative(fs: seq<Factor>)
    requires WellFormed(fs)
    ensures ActiveWeightSum(fs) >= 0.0
  {
    if fs != [] {
      assert WellFormed(fs[1..]) by {
        forall k | 0 <= k < |fs[1..]| && fs[1..][k].active
          ensures fs[1..][k].weight >= 0.0 && -1.0 <= fs[1..][k].advantage <= 1.0
        {
          assert fs[1..][k] == fs[k + 1];
        }
      }
      ActiveWeightNonNegative(fs[1..]);
    }
  }

  /**
   * Normalising well-formed factors with a positive active weight keeps
   * them well formed, and their combined score then lies in [-1, 1].
   */
  lemma NormalizedScoreWithinUnit(cfg: Config, raw: seq<Factor>, normalized: seq<Factor>, isOvertime: bool)
    requires 0.0 <= cfg.otDampenFactor <= 1.0
    requires WellFormed(raw) && ActiveWeightSum(raw) != 0.0 && |normalized| == |raw|
    requires forall k :: 0 <= k < |raw| ==> normalized[k] == Rescaled(raw[k], ActiveWeightSum(raw))
    ensures WellFormed(normalized) && ActiveWeightSum(normalized) == 1.0
    ensures -1.0 <= CombinedScore(cfg, normalized, isOvertime) <= 1.0
  {
    var total := ActiveWeightSum(raw);
    ActiveWeightNonNegative(raw);
    forall k | 0 <= k < |raw| && raw[k].active
      ensures normalized[k].weight >= 0.0
    {
      RescaledNonNegative(raw[k], total);
    }
    RescaledSum(raw, normalized, total);
    DivSelf(total);
    CombinedScoreWithinUnit(cfg, normalized, isOvertime);
  }

  /** The clock reading fed to the time values: the parsed clock, or 0:00 when it does not parse. */
  function ClockOrZero(clock: Option<string>): (int, int) {
    var parsed := ParseClock(clock);
    if parsed.None? then (0, 0) else parsed.value
  }

  /** The prediction's clock: the time values of the parsed clock, and overtime past the fourth period. */
  predicate TimingOf(gs: GameState, p: Prediction) {
    var clock := ClockOrZero(gs.clock);
    (p.minutesRemaining, p.minutesPlayed) == TimeValues(gs.quarter, clock.0, clock.1) &&
    p.isOvertime == (gs.quarter > 4)
  }

  /** The prediction's factors: the raw factors of its clock, each rescaled by their total active weight, summing to 1. */
  ghost predicate FactorsOf(cfg: Config, m: RealOps, gs: GameState, home: TeamStats, away: TeamStats,
                            homeSeason: SeasonStats, awaySeason: SeasonStats, spread: Option<real>,
                            enablePossessionEdge: bool, p: Prediction)
    requires SqrtLaws(m)
  {
    p.minutesRemaining >= 0.0 &&
    (SqrtPositive(m, p.minutesRemaining + 1.0);
     var raw := RawFactors(cfg, m, gs, home, away, homeSeason, awaySeason, spread, enablePossessionEdge,
                           p.minutesRemaining, p.minutesPlayed);
     |p.factors| == |raw| && ActiveWeightSum(p.factors) == 1.0 && TotalWeight(raw) != 0.0 &&
     (forall k :: 0 <= k < |raw| ==> p.factors[k] == Rescaled(raw[k], TotalWeight(raw))))
  }

  /**
   * The prediction's outcome: the combined score of its factors, and the
   * sigmoid probabilities unless the blowout check overrides them; no flip
   * lead in a blowout, and the swing is the flip lead less the current lead.
   */
  ghost predicate OutcomeOf(cfg: Config, m: RealOps, gs: GameState, p: Prediction)
    requires ExpLaws(m) && cfg.leadScale != 0.0
  {
    var blowout := CheckBlowout(cfg, gs.homeScore, gs.awayScore, p.minutesRemaining);
    p.combinedScore == CombinedScore(cfg, p.factors, p.isOvertime) &&
    p.isBlowout == blowout.0 &&
    (p.winProbHome, p.winProbAway) == (if p.isBlowout then blowout.1.value
                                      else WinProbability(cfg, m, p.combinedScore)) &&
    p.minutesRemaining >= 0.0 &&
    p.flipLeadHome == (if p.isBlowout then None else FlipLeadHome(cfg, m, p.factors, p.minutesRemaining)) &&
    (p.flipSwing.Some? <==> p.flipLeadHome.Some?) &&
    (p.flipSwing.Some? ==> p.flipSwing.value == p.flipLeadHome.value - (gs.homeScore - gs.awayScore) as real)
  }

  /** The prediction's labels and alerts: confidence, trailing-edge alert, underdog watch and close-to-flip. */
  predicate AlertsOf(cfg: Config, gs: GameState, spread: Option<real>, dataAgeSec: real, p: Prediction) {
    p.confidence == ConfidenceLevel(cfg, p.factors, dataAgeSec, p.minutesPlayed, spread.Some?) &&
    p.trailingTeam == TrailingSide(gs.homeScore, gs.awayScore) &&
    p.trailingEdgeAlert == EdgeAlert(cfg, gs.homeScore, gs.awayScore, p.factors) &&
    p.underdogTeam == UnderdogTeam(spread) &&
    (p.underdogProb, p.underdogWatch, p.underdogReason) ==
      UnderdogWatch(cfg, p.underdogTeam, p.winProbHome, p.winProbAway, p.combinedScore, p.minutesPlayed,
                    dataAgeSec, p.trailingTeam, p.trailingEdgeAlert, p.isBlowout) &&
    p.underdogCloseToFlip ==
      UnderdogCloseToFlip(cfg, p.underdogProb, p.combinedScore, p.flipSwing, p.minutesPlayed, dataAgeSec, p.isBlowout)
  }

  /** The raw factors at the game's own clock, as predict computes them before normalising. */
  function RawAtClock(cfg: Config, m: RealOps, gs: GameState, home: TeamStats, away: TeamStats,
                      homeSeason: SeasonStats, awaySeason: SeasonStats, spread: Option<real>,
                      enablePossessionEdge: bool): seq<Factor>
    requires SqrtLaws(m)
  {
    var clock := ClockOrZero(gs.clock);
    var tv := TimeValues(gs.quarter, clock.0, clock.1);
    SqrtPositive(m, tv.0 + 1.0);
    RawFactors(cfg, m, gs, home, away, homeSeason, awaySeason, spread, enablePossessionEdge, tv.0, tv.1)
  }

  /**
   * The whole prediction. None exactly when the raw weights sum to 0 (a
   * pre-game state with no spread); otherwise normalised factors, the
   * sigmoid probabilities (or the blowout override), the flip lead and
   * the alerts.
   */
  method Predict(cfg: Config, m: RealOps, gs: GameState, home: TeamStats, away: TeamStats,
                 homeSeason: SeasonStats, awaySeason: SeasonStats, spread: Option<real>,
                 dataAgeSec: real, enablePossessionEdge: bool)
    returns (r: Option<Prediction>)
    requires SqrtLaws(m) && ExpLaws(m) && cfg.leadScale != 0.0
    ensures r.None? <==>
      TotalWeight(RawAtClock(cfg, m, gs, home, away, homeSeason, awaySeason, spread, enablePossessionEdge)) == 0.0
    ensures r.Some? ==> TimingOf(gs, r.value)
    ensures r.Some? ==> FactorsOf(cfg, m, gs, home, away, homeSeason, awaySeason, spread, enablePossessionEdge, r.value)
    ensures r.Some? ==> OutcomeOf(cfg, m, gs, r.value)
    ensures r.Some? ==> AlertsOf(cfg, gs, spread, dataAgeSec, r.value)
  {
    var clock := ClockOrZero(gs.clock);
    var tv := TimeValues(gs.quarter, clock.0, clock.1);
    var minutesRemaining, minutesPlayed := tv.0, tv.1;
    var isOvertime := gs.quarter > 4;
    SqrtPositive(m, minutesRemaining + 1.0);

    var raw := RawAtClock(cfg, m, gs, home, away, homeSeason, awaySeason, spread, enablePossessionEdge);
    var spreadFactor := raw[1];
    if TotalWeight(raw) == 0.0 {
      return None;
    }
    InactiveWeightless(raw);
    var factors := NormalizeWeights(raw);
    var p := Assess(cfg, m, gs, spread, dataAgeSec, factors, minutesRemaining, minutesPlayed, isOvertime,
                    spreadFactor.active);
    r := Some(p);
  }

  /**
   * The part of predict after normalisation: the combined score, the
   * probabilities (overridden in a blowout), the flip lead and the alerts
   * for the given normalised factors and clock.
   */
  method Assess(cfg: Config, m: RealOps, gs: GameState, spread: Option<real>, dataAgeSec: real,
                factors: seq<Factor>, minutesRemaining: real, minutesPlayed: real, isOvertime: bool,
                spreadActive: bool)
    returns (p: Prediction)
    requires ExpLaws(m) && cfg.leadScale != 0.0 && minutesRemaining >= 0.0 && spreadActive == spread.Some?
    ensures p.factors == factors && p.isOvertime == isOvertime
    ensures p.minutesRemaining == minutesRemaining && p.minutesPlayed == minutesPlayed
    ensures OutcomeOf(cfg, m, gs, p)
    ensures AlertsOf(cfg, gs, spread, dataAgeSec, p)
  {
    var combined := CombinedScore(cfg, factors, isOvertime);
    var probs := WinProbability(cfg, m, combined);
    var winProbHome, winProbAway := probs.0, probs.1;

    var flipLeadHome := FlipLeadHome(cfg, m, factors, minutesRemaining);
    var flipSwing: Option<real> := None;
    if flipLeadHome.Some? {
      flipSwing := Some(flipLeadHome.value - (gs.homeScore - gs.awayScore) as real);
    }

    var blowout := CheckBlowout(cfg, gs.homeScore, gs.awayScore, minutesRemaining);
    var isBlowout := blowout.0;
    if isBlowout && blowout.1.Some? {
      winProbHome, winProbAway := blowout.1.value.0, blowout.1.value.1;
      flipLeadHome := None;
      flipSwing := None;
    }

    var confidence := ConfidenceLevel(cfg, factors, dataAgeSec, minutesPlayed, spreadActive);
    var trailingTeam, trailingEdgeAlert := CheckTrailingEdge(cfg, gs.homeScore, gs.awayScore, factors);
    var underdogTeam := UnderdogTeam(spread);
    var watch := UnderdogWatch(cfg, underdogTeam, winProbHome, winProbAway, combined, minutesPlayed,
                               dataAgeSec, trailingTeam, trailingEdgeAlert, isBlowout);
    var closeToFlip := UnderdogCloseToFlip(cfg, watch.0, combined, flipSwing, minutesPlayed, dataAgeSec, isBlowout);

    p := Prediction(winProbHome, winProbAway, combined, confidence, factors, trailingTeam,
                    trailingEdgeAlert, isBlowout, isOvertime, minutesPlayed, minutesRemaining,
                    flipLeadHome, flipSwing, underdogTeam, watch.0, watch.1, watch.2, closeToFlip);
  }
}
