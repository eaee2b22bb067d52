// The Monte Carlo points engine of simulation_engine.py: the adjustment
// score built from fixed ladders, the adjusted projection (shared with the
// points picker), player lookup by normalized name, and the per-game
// simulation loop. Random draws are parameters.
module SimulationEngine {
  import opened Wrappers
  import opened Text
  import Arith
  import PointsPicks
  import Sorting

  /** The standard deviation used when a player has none. */
  const DefaultStdev: real := 6.0

  /**
   * One player of the game data, after the `_safe_float` defaults: missing
   * season and recent numbers are 0.0, a missing recent stdev is
   * `DefaultStdev`, a missing sample size is 0 and a missing starter flag
   * is false. Advanced numbers keep their absence.
   */
  datatype PlayerRecord = PlayerRecord(
    name: string,
    position: string,
    isStarter: bool,
    seasonPts: real,
    seasonMinutes: real,
    l5PtsAvg: real,
    l5PtsStdev: real,
    l5MinutesAvg: real,
    sampleSize: int,
    seasonUsg: Option<real>, recentUsg: Option<real>,
    seasonTs: Option<real>, recentTs: Option<real>,
    seasonOffRating: Option<real>, recentOffRating: Option<real>,
    clutchPtsAvg: Option<real>,
    ptsLeagueRank: Option<int>)

  /**
   * One team of the game data: days of rest (1 when missing), pace over the
   * last ten games, the advanced defensive and net ratings (0.0 when
   * missing) and its defense-versus-position table.
   */
  datatype TeamRecord = TeamRecord(
    daysRest: int,
    paceLast10: Option<real>,
    defensiveRating: real,
    netRating: real,
    dvp: PointsPicks.DvpTable)

  /** What `teams.get(abbr) or {}` yields for an unknown team. */
  const UnknownTeam := TeamRecord(1, None, 0.0, 0.0, map[])

  /** The factors reported beside the score. */
  datatype GoatFactors = GoatFactors(
    usagePct: Option<real>,
    tsPct: Option<real>,
    offRating: Option<real>,
    oppDrtg: Option<real>,
    oppNrtg: real,
    clutchPpg: Option<real>,
    leagueRank: Option<int>,
    isStarter: bool,
    daysRest: int,
    dvpBucket: string)

  /** The tuple `compute_adjustment_score` returns. */
  datatype Adjustment = Adjustment(score: real, projMinutes: real, l5Stdev: real, factors: GoatFactors)

  // ---------------------------------------------------------------------
  // Inputs
  // ---------------------------------------------------------------------

  /** Python's `a or b` on optional numbers: `a` unless it is missing or zero. */
  function Or(a: Option<real>, b: Option<real>): (r: Option<real>)
    ensures a.Some? && a.value != 0.0 ==> r == a
    ensures (a.None? || a.value == 0.0) ==> r == b
  {
    if a.Some? && a.value != 0.0 then a else b
  }

  /** `x if x else None`: a zero value is reported as missing. */
  function Truthy(x: Option<real>): (r: Option<real>)
    ensures r.Some? <==> x.Some? && x.value != 0.0
    ensures r.Some? ==> r == x
  {
    if x.Some? && x.value != 0.0 then x else None
  }

  /**
   * Projected minutes: the recent average once three games are sampled
   * and it is positive, else the season minutes unless they are zero,
   * else the recent average.
   */
  function ProjectedMinutes(p: PlayerRecord): (r: real)
    ensures p.sampleSize >= 3 && p.l5MinutesAvg > 0.0 ==> r == p.l5MinutesAvg
    ensures !(p.sampleSize >= 3 && p.l5MinutesAvg > 0.0) && p.seasonMinutes != 0.0 ==> r == p.seasonMinutes
    ensures r == p.l5MinutesAvg || r == p.seasonMinutes
  {
    if p.sampleSize >= 3 && p.l5MinutesAvg > 0.0 then p.l5MinutesAvg
    else if p.seasonMinutes != 0.0 then p.seasonMinutes
    else p.l5MinutesAvg
  }

  /** The bucket for the upper-cased position: the exact key, then the parts of a combo position. */
  function DvpBucket(dvp: PointsPicks.DvpTable, position: string): (r: string)
    ensures Upper(position) in dvp ==> r == PointsPicks.BucketOf(dvp[Upper(position)])
    ensures PointsPicks.FirstListed([Upper(position)] + PointsPicks.ComboKeys(Upper(position)), dvp).None? ==> r == "AVERAGE"
  {
    var pos := Upper(position);
    var found := PointsPicks.FirstListed([pos] + PointsPicks.ComboKeys(pos), dvp);
    if found.Some? then found.value else "AVERAGE"
  }

  /**
   * This engine's lookup is the points picker's without the guard and
   * forward fallback: they agree whenever the exact key or a combo part is
   * listed, and otherwise this one says "AVERAGE".
   */
  lemma DvpBucketWithoutGroups(dvp: PointsPicks.DvpTable, position: string)
    ensures var pos := Upper(position);
      var found := PointsPicks.FirstListed([pos] + PointsPicks.ComboKeys(pos), dvp);
      if found.Some? then DvpBucket(dvp, position) == PointsPicks.DvpBucket(dvp, position)
      else DvpBucket(dvp, position) == "AVERAGE"
  {
    var pos := Upper(position);
    PointsPicks.FirstListedAppend([pos] + PointsPicks.ComboKeys(pos), PointsPicks.GroupKeys(PointsPicks.PositionGroups, pos), dvp);
  }

  // ---------------------------------------------------------------------
  // The ladders
  // ---------------------------------------------------------------------

  /** A. Minutes and role: 1.2 from 34 minutes, 0.6 from 30, 0 from 26, else -3.3. */
  function MinutesLadder(projMinutes: real): (r: real)
    ensures -3.3 <= r <= 1.2
    ensures r == 1.2 <==> projMinutes >= 34.0
    ensures r == -3.3 <==> projMinutes < 26.0
  {
    if projMinutes >= 34.0 then 1.2
    else if projMinutes >= 30.0 then 0.6
    else if projMinutes >= 26.0 then 0.0
    else -3.3
  }

  /** The minutes step, halved while fewer than three games are sampled. */
  function MinutesAdj(projMinutes: real, sampleSize: int): real {
    if sampleSize < 3 then MinutesLadder(projMinutes) * 0.5 else MinutesLadder(projMinutes)
  }

  /** B. Recent form, 14.5 times the relative gap, clamped to [-5, 5]. */
  function FormAdj(seasonPts: real, l5PtsAvg: real): (r: real)
    requires seasonPts > 0.0
    ensures -5.0 <= r <= 5.0
    ensures r > 0.0 <==> l5PtsAvg > seasonPts
    ensures r < 0.0 <==> l5PtsAvg < seasonPts
  {
    Arith.GapSign(l5PtsAvg, seasonPts);
    Arith.Cap((l5PtsAvg - seasonPts) / seasonPts * 14.5, -5.0, 5.0)
  }

  /** C. Consistency: 1.3 up to a stdev of 5, 0 up to 7, else -1.7. */
  function ConsistencyAdj(stdev: real): (r: real)
    ensures -1.7 <= r <= 1.3
    ensures r == 1.3 <==> stdev <= 5.0
  {
    if stdev <= 5.0 then 1.3 else if stdev <= 7.0 then 0.0 else -1.7
  }

  /** D. Pace: 2.7 from a pace of 104, -2.7 up to 98, 0 between or when unknown. */
  function PaceAdj(pace: Option<real>): (r: real)
    ensures r == 2.7 <==> pace.Some? && pace.value >= 104.0
    ensures r == -2.7 <==> pace.Some? && pace.value <= 98.0
    ensures r == 0.0 <==> pace.None? || 98.0 < pace.value < 104.0
  {
    if pace.None? then 0.0
    else if pace.value >= 104.0 then 2.7
    else if pace.value <= 98.0 then -2.7
    else 0.0
  }

  /** E. Usage: 1.2 from 28%, -1 below 20%, 0 otherwise or when unknown. */
  function UsageAdj(usg: Option<real>): (r: real)
    ensures -1.0 <= r <= 1.2
    ensures usg.None? ==> r == 0.0
  {
    if usg.None? then 0.0
    else if usg.value >= 28.0 then 1.2
    else if usg.value < 20.0 then -1.0
    else 0.0
  }

  /** F. True shooting: 1 from .62, .5 from .58, -.5 below .52, 0 otherwise or when unknown. */
  function TsAdj(ts: Option<real>): (r: real)
    ensures -0.5 <= r <= 1.0
    ensures ts.None? ==> r == 0.0
  {
    if ts.None? then 0.0
    else if ts.value >= 0.62 then 1.0
    else if ts.value >= 0.58 then 0.5
    else if ts.value < 0.52 then -0.5
    else 0.0
  }

  /**
   * G. Matchup: by the opponent's defensive rating when it is positive,
   * otherwise by the defense-versus-position bucket.
   */
  function MatchupAdj(oppDrtg: real, bucket: string): (r: real)
    ensures -2.0 <= r <= 1.7
    ensures oppDrtg <= 0.0 ==> (r == 1.7 <==> bucket == "WEAK") && (r == -2.0 <==> bucket == "STRONG")
  {
    if oppDrtg > 0.0 then
      if oppDrtg >= 118.0 then 1.7
      else if oppDrtg >= 114.0 then 0.8
      else if oppDrtg <= 108.0 then -2.0
      else if oppDrtg <= 112.0 then -1.0
      else 0.0
    else if bucket == "WEAK" then 1.7
    else if bucket == "STRONG" then -2.0
    else 0.0
  }

  /** H. Rest: a back-to-back costs 1.8 away and 1.0 at home; 2 days earn 0.2; 3 or more cost 0.3. */
  function RestAdj(daysRest: int, isAway: bool): (r: real)
    ensures -1.8 <= r <= 0.2
    ensures r == 0.2 <==> daysRest == 2
    ensures r == 0.0 <==> daysRest == 1
  {
    if daysRest == 0 then (if isAway then -1.8 else -1.0)
    else if daysRest == 1 then 0.0
    else if daysRest == 2 then 0.2
    else -0.3
  }

  /** I. Clutch scoring: 1 from 4 points, .5 from 2.5, -.5 below 1, 0 otherwise or when unknown. */
  function ClutchAdj(clutch: Option<real>): (r: real)
    ensures -0.5 <= r <= 1.0
    ensures clutch.None? ==> r == 0.0
  {
    if clutch.None? then 0.0
    else if clutch.value >= 4.0 then 1.0
    else if clutch.value >= 2.5 then 0.5
    else if clutch.value < 1.0 then -0.5
    else 0.0
  }

  /** J. League scoring rank: 1.4 in the top 10, .5 in the top 25, -.5 from 100 on. */
  function RankAdj(rank: Option<int>): (r: real)
    ensures -0.5 <= r <= 1.4
    ensures rank.None? ==> r == 0.0
  {
    if rank.None? then 0.0
    else if rank.value <= 10 then 1.4
    else if rank.value <= 25 then 0.5
    else if rank.value >= 100 then -0.5
    else 0.0
  }

  /** The sum of the ten ladder steps, defined only for a positive season average. */
  function AdjustmentScore(p: PlayerRecord, opp: TeamRecord, daysRest: int, isAway: bool, pace: Option<real>): real
    requires p.seasonPts > 0.0
  {
    MinutesAdj(ProjectedMinutes(p), p.sampleSize)
    + FormAdj(p.seasonPts, p.l5PtsAvg)
    + ConsistencyAdj(p.l5PtsStdev)
    + PaceAdj(pace)
    + UsageAdj(Or(p.seasonUsg, p.recentUsg))
    + TsAdj(Or(p.seasonTs, p.recentTs))
    + MatchupAdj(opp.defensiveRating, DvpBucket(opp.dvp, p.position))
    + RestAdj(daysRest, isAway)
    + ClutchAdj(p.clutchPtsAvg)
    + RankAdj(p.ptsLeagueRank)
  }

  /** The factors reported for a player against an opponent. */
  function Factors(p: PlayerRecord, opp: TeamRecord, daysRest: int): GoatFactors {
    GoatFactors(
      Truthy(Or(p.seasonUsg, p.recentUsg)),
      Truthy(Or(p.seasonTs, p.recentTs)),
      Truthy(Or(p.seasonOffRating, p.recentOffRating)),
      if opp.defensiveRating > 0.0 then Some(opp.defensiveRating) else None,
      opp.netRating,
      Truthy(p.clutchPtsAvg),
      p.ptsLeagueRank,
      p.isStarter,
      daysRest,
      DvpBucket(opp.dvp, p.position))
  }

  /**
   * `compute_adjustment_score`: the ten ladder steps added in turn. With a
   * season average of zero or less the form step is never bound and the
   * source raises; that outcome is the error here.
   */
  method ComputeAdjustmentScore(p: PlayerRecord, team: TeamRecord, opp: TeamRecord, isAway: bool, pace: Option<real>)
    returns (r: Result<Adjustment, string>)
    ensures r.Err? <==> p.seasonPts <= 0.0
    ensures r.Err? ==> r.error == UnboundForm
    ensures r.Ok? ==> r.value == Adjustment(AdjustmentScore(p, opp, team.daysRest, isAway, pace),
                                            ProjectedMinutes(p), p.l5PtsStdev, Factors(p, opp, team.daysRest))
  {
    var projMinutes;
    if p.sampleSize >= 3 && p.l5MinutesAvg > 0.0 {
      projMinutes := p.l5MinutesAvg;
    } else if p.seasonMinutes != 0.0 {
      projMinutes := p.seasonMinutes;
    } else {
      projMinutes := p.l5MinutesAvg;
    }
    var bucket := DvpBucket(opp.dvp, p.position);
    var score := 0.0;

    var minutesAdj;
    if projMinutes >= 34.0 {
      minutesAdj := 1.2;
    } else if projMinutes >= 30.0 {
      minutesAdj := 0.6;
    } else if projMinutes >= 26.0 {
      minutesAdj := 0.0;
    } else {
      minutesAdj := -3.3;
    }
    if p.sampleSize < 3 {
      minutesAdj := minutesAdj * 0.5;
    }
    score := score + minutesAdj;

    if p.seasonPts <= 0.0 {
      return Err(UnboundForm);
    }
    score := score + FormAdj(p.seasonPts, p.l5PtsAvg);
    score := score + ConsistencyAdj(p.l5PtsStdev);
    score := score + PaceAdj(pace);
    score := score + UsageAdj(Or(p.seasonUsg, p.recentUsg));
    score := score + TsAdj(Or(p.seasonTs, p.recentTs));
    score := score + MatchupAdj(opp.defensiveRating, bucket);
    score := score + RestAdj(team.daysRest, isAway);
    score := score + ClutchAdj(p.clutchPtsAvg);
    score := score + RankAdj(p.ptsLeagueRank);
    return Ok(Adjustment(score, projMinutes, p.l5PtsStdev, Factors(p, opp, team.daysRest)));
  }

  /** Fewer than three sampled games halve the minutes step. */
  lemma MinutesAdjHalved(projMinutes: real, sampleSize: int)
    ensures sampleSize < 3 ==> MinutesAdj(projMinutes, sampleSize) == MinutesLadder(projMinutes) / 2.0
    ensures sampleSize >= 3 ==> MinutesAdj(projMinutes, sampleSize) == MinutesLadder(projMinutes)
    ensures -3.3 <= MinutesAdj(projMinutes, sampleSize) <= 1.2
  {
  }

  /** The form step grows with the recent average. */
  lemma FormAdjMonotone(seasonPts: real, a: real, b: real)
    requires seasonPts > 0.0 && a <= b
    ensures FormAdj(seasonPts, a) <= FormAdj(seasonPts, b)
  {
    Arith.GapMonotone(a, b, seasonPts);
    Arith.CapMonotone((a - seasonPts) / seasonPts * 14.5, (b - seasonPts) / seasonPts * 14.5, -5.0, 5.0);
  }

  /** The usage, true-shooting and clutch steps grow with their inputs. */
  lemma LaddersMonotone(u: real, u': real, t: real, t': real, c: real, c': real)
    requires u <= u' && t <= t' && c <= c'
    ensures UsageAdj(Some(u)) <= UsageAdj(Some(u'))
    ensures TsAdj(Some(t)) <= TsAdj(Some(t'))
    ensures ClutchAdj(Some(c)) <= ClutchAdj(Some(c'))
  {
  }

  /** A better (smaller) league rank never lowers the rank step; neither does a lower stdev. */
  lemma LaddersAntitone(k: int, k': int, s: real, s': real)
    requires k <= k' && s <= s'
    ensures RankAdj(Some(k')) <= RankAdj(Some(k))
    ensures ConsistencyAdj(s') <= ConsistencyAdj(s)
    ensures MinutesLadder(s) <= MinutesLadder(s')
  {
  }

  /** A positive defensive rating decides the matchup step whatever the bucket. */
  lemma MatchupIgnoresBucket(oppDrtg: real, b: string, b': string)
    requires oppDrtg > 0.0
    ensures MatchupAdj(oppDrtg, b) == MatchupAdj(oppDrtg, b')
  {
  }

  /** The score lies between the sum of the lowest steps and the sum of the highest. */
  lemma AdjustmentScoreBounds(p: PlayerRecord, opp: TeamRecord, daysRest: int, isAway: bool, pace: Option<real>)
    requires p.seasonPts > 0.0
    ensures -19.0 <= AdjustmentScore(p, opp, daysRest, isAway, pace) <= 16.7
  {
    MinutesAdjHalved(ProjectedMinutes(p), p.sampleSize);
    var pa := PaceAdj(pace);
    assert -2.7 <= pa <= 2.7;
  }

  // ---------------------------------------------------------------------
  // Projection and the Monte Carlo step
  // ---------------------------------------------------------------------

  /**
   * `compute_adjusted_projection`, before its final rounding: the same
   * blend, scaling, bump and sanity constraints as the points picker, with
   * the adjustment score as context.
   */
  method ComputeAdjustedProjection(seasonPts: real, l5PtsAvg: real, adjustmentScore: real,
                                   projMinutes: real, l5MinutesAvg: real) returns (projPts: real)
    ensures projPts == PointsPicks.ProjectPoints(seasonPts, l5PtsAvg, projMinutes, l5MinutesAvg, adjustmentScore)
    ensures l5PtsAvg > 0.0 ==> projPts <= 1.3 * l5PtsAvg
  {
    var baseline := 0.55 * seasonPts + 0.45 * l5PtsAvg;
    var minuteScale := 1.0;
    if l5MinutesAvg > 0.0 {
      minuteScale := Arith.Cap(projMinutes / l5MinutesAvg, 0.85, 1.15);
    }
    var contextBump := Arith.Cap(adjustmentScore / 10.0, -0.2, 0.2);
    assert baseline == PointsPicks.Baseline(seasonPts, l5PtsAvg);
    assert minuteScale == PointsPicks.MinuteScale(projMinutes, l5MinutesAvg);
    assert 1.0 + contextBump == PointsPicks.ContextFactor(adjustmentScore);
    projPts := baseline * minuteScale * (1.0 + contextBump);
    assert projPts == PointsPicks.RawProjection(seasonPts, l5PtsAvg, projMinutes, l5MinutesAvg, adjustmentScore);
    if l5PtsAvg > 0.0 && projPts > l5PtsAvg * 1.30 {
      projPts := l5PtsAvg * 1.30;
    }
    if projMinutes < 24.0 {
      projPts := projPts * 0.90;
    }
  }

  /**
   * `run_monte_carlo` before rounding. A non-positive stdev gives the
   * certain outcome; otherwise `wins` of `iterations` random draws beat the
   * line and their mean is `drawMean`.
   */
  function RunMonteCarlo(mean: real, stdev: real, line: real, iterations: int, wins: nat, drawMean: real): (r: (real, real))
    requires stdev > 0.0 ==> 0 <= wins <= iterations && iterations > 0
    ensures 0.0 <= r.0 <= 100.0
    ensures stdev <= 0.0 ==> (r.0 == 100.0 <==> mean > line) && (r.0 == 0.0 <==> mean <= line) && r.1 == mean
    ensures stdev > 0.0 ==> r.0 * iterations as real == wins as real * 100.0 && r.1 == drawMean
  {
    if stdev <= 0.0 then (if mean > line then 100.0 else 0.0, mean)
    else
      Arith.PercentOf(wins as real, iterations as real);
      (wins as real / iterations as real * 100.0, drawMean)
  }

  // ---------------------------------------------------------------------
  // Player lookup
  // ---------------------------------------------------------------------

  /** Players grouped by team abbreviation, in the game data's order. */
  type Roster = seq<(string, seq<PlayerRecord>)>

  /** The first element satisfying `f`, if any. */
  function FirstWhere<T>(xs: seq<T>, f: T -> bool): Option<T> {
    if xs == [] then None
    else if f(xs[0]) then Some(xs[0])
    else FirstWhere(xs[1..], f)
  }

  /** The element found satisfies `f` and no earlier one does; nothing is found only when none does. */
  lemma {:induction false} FirstWhereSpec<T>(xs: seq<T>, f: T -> bool)
    ensures FirstWhere(xs, f).None? <==> forall k :: 0 <= k < |xs| ==> !f(xs[k])
    ensures FirstWhere(xs, f).Some? ==> exists i :: (0 <= i < |xs| && FirstWhere(xs, f).value == xs[i] &&
      f(xs[i]) && forall j :: 0 <= j < i ==> !f(xs[j]))
  {
    if xs != [] && !f(xs[0]) {
      var tail := xs[1..];
      FirstWhereSpec(tail, f);
      if FirstWhere(tail, f).Some? {
        var i :| 0 <= i < |tail| && FirstWhere(tail, f).value == tail[i] && f(tail[i]) &&
          forall j :: 0 <= j < i ==> !f(tail[j]);
        assert xs[i + 1] == tail[i];
        forall j | 0 <= j < i + 1 ensures !f(xs[j]) {
          if j > 0 {
            assert xs[j] == tail[j - 1];
          }
        }
      } else {
        forall k | 0 <= k < |xs| ensures !f(xs[k]) {
          if k > 0 {
            assert xs[k] == tail[k - 1];
          }
        }
      }
    }
  }

  /** Whether a player's normalized name is `key`. */
  function NameIs(key: string): PlayerRecord -> bool {
    (p: PlayerRecord) => PointsPicks.NormalizedName(p.name) == key
  }

  /** The first player of a team whose normalized name is `key`. */
  function FindInTeam(key: string, players: seq<PlayerRecord>): Option<PlayerRecord> {
    FirstWhere(players, NameIs(key))
  }

  /** The first group, in order, holding an element satisfying `f`, with that element and the group's label. */
  function FirstInGroups<T>(groups: seq<(string, seq<T>)>, f: T -> bool): Option<(T, string)> {
    if groups == [] then None
    else
      var found := FirstWhere(groups[0].1, f);
      if found.Some? then Some((found.value, groups[0].0)) else FirstInGroups(groups[1..], f)
  }

  /** Nothing is found exactly when no group holds a match; otherwise the element comes from the first group that does. */
  lemma {:induction false} FirstInGroupsSpec<T>(groups: seq<(string, seq<T>)>, f: T -> bool)
    ensures FirstInGroups(groups, f).None? <==> forall t :: 0 <= t < |groups| ==> FirstWhere(groups[t].1, f).None?
    ensures FirstInGroups(groups, f).Some? ==> exists t :: (0 <= t < |groups| &&
      groups[t].0 == FirstInGroups(groups, f).value.1 &&
      FirstWhere(groups[t].1, f) == Some(FirstInGroups(groups, f).value.0) &&
      forall u :: 0 <= u < t ==> FirstWhere(groups[u].1, f).None?)
  {
    if groups != [] && FirstWhere(groups[0].1, f).None? {
      var tail := groups[1..];
      FirstInGroupsSpec(tail, f);
      if FirstInGroups(tail, f).Some? {
        var t :| 0 <= t < |tail| && tail[t].0 == FirstInGroups(tail, f).value.1 &&
          FirstWhere(tail[t].1, f) == Some(FirstInGroups(tail, f).value.0) &&
          forall u :: 0 <= u < t ==> FirstWhere(tail[u].1, f).None?;
        assert groups[t + 1] == tail[t];
        forall u | 0 <= u < t + 1 ensures FirstWhere(groups[u].1, f).None? {
          if u > 0 {
            assert groups[u] == tail[u - 1];
          }
        }
      } else {
        forall u | 0 <= u < |groups| ensures FirstWhere(groups[u].1, f).None? {
          if u > 0 {
            assert groups[u] == tail[u - 1];
          }
        }
      }
    }
  }

  /** The first team, in order, holding a player whose normalized name is `key`, with that player. */
  function FindPlayer(key: string, roster: Roster): Option<(PlayerRecord, string)> {
    FirstInGroups(roster, NameIs(key))
  }

  /** A team yields the first of its players whose normalized name is `key`, and none when no name matches. */
  lemma FindInTeamSpec(key: string, players: seq<PlayerRecord>)
    ensures FindInTeam(key, players).None? <==>
      forall k :: 0 <= k < |players| ==> PointsPicks.NormalizedName(players[k].name) != key
    ensures FindInTeam(key, players).Some? ==> exists i :: (0 <= i < |players| &&
      FindInTeam(key, players).value == players[i] && PointsPicks.NormalizedName(players[i].name) == key &&
      forall j :: 0 <= j < i ==> PointsPicks.NormalizedName(players[j].name) != key)
  {
    FirstWhereSpec(players, NameIs(key));
  }

  /** Nothing is found exactly when no team holds a match; otherwise the player comes from the first team that does. */
  lemma FindPlayerSpec(key: string, roster: Roster)
    ensures FindPlayer(key, roster).None? <==> forall t :: 0 <= t < |roster| ==> FindInTeam(key, roster[t].1).None?
    ensures FindPlayer(key, roster).Some? ==> exists t :: (0 <= t < |roster| &&
      roster[t].0 == FindPlayer(key, roster).value.1 &&
      FindInTeam(key, roster[t].1) == Some(FindPlayer(key, roster).value.0) &&
      forall u :: 0 <= u < t ==> FindInTeam(key, roster[u].1).None?)
  {
    FirstInGroupsSpec(roster, NameIs(key));
  }

  /** `find_player_in_game_data`: normalize the query, then search teams and their players. */
  method FindPlayerInGameData(playerName: string, roster: Roster) returns (r: Option<(PlayerRecord, string)>)
    ensures r == FindPlayer(PointsPicks.NormalizedName(playerName), roster)
  {
    var target := PointsPicks.NormalizeNameForMatch(playerName);
    r := FindPlayerByKey(target, roster);
  }

  /** The nested search over teams and their players for a normalized name. */
  method FindPlayerByKey(target: string, roster: Roster) returns (r: Option<(PlayerRecord, string)>)
    ensures r == FindPlayer(target, roster)
  {
    for t := 0 to |roster|
      invariant FindPlayer(target, roster) == FindPlayer(target, roster[t..])
    {
      assert roster[t..][1..] == roster[t + 1..];
      var players := roster[t].1;
      var found := FindInPlayers(target, players);
      if found.Some? {
        return Some((found.value, roster[t].0));
      }
    }
    assert roster[|roster|..] == [];
    return None;
  }

  /** The inner loop over one team's players. */
  method FindInPlayers(target: string, players: seq<PlayerRecord>) returns (r: Option<PlayerRecord>)
    ensures r == FindInTeam(target, players)
  {
    for k := 0 to |players|
      invariant FindInTeam(target, players) == FirstWhere(players[k..], NameIs(target))
    {
      assert players[k..][1..] == players[k + 1..];
      var norm := PointsPicks.NormalizeNameForMatch(players[k].name);
      assert NameIs(target)(players[k]) <==> norm == target;
      if norm == target {
        return Some(players[k]);
      }
    }
    assert players[|players|..] == [];
    return None;
  }

  // ---------------------------------------------------------------------
  // Simulating a game
  // ---------------------------------------------------------------------

  /** The game data: the two team abbreviations, the team table and the rosters. */
  datatype GameData = GameData(awayAbbr: string, homeAbbr: string, teams: map<string, TeamRecord>, roster: Roster)

  /** One entry of the returned list. */
  datatype SimulationResult = SimulationResult(
    playerName: string,
    team: string,
    position: string,
    baselineLine: real,
    adjustedMean: real,
    stdev: real,
    simulatedMean: real,
    winProbPct: real,
    iterations: int,
    edgePts: real,
    isStarter: bool,
    goatFactors: GoatFactors)

  /** The random outcome of one player's simulation: wins among the draws and their mean. */
  datatype Draw = Draw(wins: nat, mean: real)

  function TeamOf(teams: map<string, TeamRecord>, abbr: string): TeamRecord {
    if abbr in teams then teams[abbr] else UnknownTeam
  }

  /** The projected game pace: the mean of both known paces, the one known, or none. */
  function ProjectedPace(away: Option<real>, home: Option<real>): (r: Option<real>)
    ensures r.None? <==> away.None? && home.None?
    ensures away.Some? && home.Some? ==>
      Arith.Min(away.value, home.value) <= r.value <= Arith.Max(away.value, home.value)
    ensures away.Some? != home.Some? ==> r == (if away.Some? then away else home)
  {
    if away.Some? && home.Some? then Some((away.value + home.value) / 2.0)
    else if away.Some? then away
    else home
  }

  lemma ProjectedPaceSymmetric(a: Option<real>, b: Option<real>)
    ensures ProjectedPace(a, b) == ProjectedPace(b, a)
  {
  }

  /** What one baseline entry contributes: nothing, a result, or the error that stops the run. */
  datatype Step = Skip | Emit(result: SimulationResult) | Fail(error: string)

  /** The result for a found player with a positive season average. */
  function ResultFor(game: GameData, pace: Option<real>, p: PlayerRecord, teamAbbr: string, name: string,
                     line: real, iterations: int, draw: Draw): (r: SimulationResult)
    requires p.seasonPts > 0.0 && iterations > 0 && draw.wins <= iterations
    ensures r.team == teamAbbr && r.baselineLine == line && r.isStarter == p.isStarter
    ensures 0.0 <= r.winProbPct <= 100.0 && r.stdev > 0.0 && r.edgePts == r.adjustedMean - line
  {
    var isAway := teamAbbr == Upper(game.awayAbbr);
    var team := TeamOf(game.teams, teamAbbr);
    var opp := TeamOf(game.teams, if isAway then Upper(game.homeAbbr) else Upper(game.awayAbbr));
    var score := AdjustmentScore(p, opp, team.daysRest, isAway, pace);
    var mean := PointsPicks.ProjectPoints(p.seasonPts, p.l5PtsAvg, ProjectedMinutes(p), p.l5MinutesAvg, score);
    var stdev := if p.l5PtsStdev > 0.0 then p.l5PtsStdev else DefaultStdev;
    var mc := RunMonteCarlo(mean, stdev, line, iterations, draw.wins, draw.mean);
    SimulationResult(if p.name != "" then p.name else name, teamAbbr, p.position, line, mean, stdev,
                     mc.1, mc.0, iterations, mean - line, p.isStarter, Factors(p, opp, team.daysRest))
  }

  /**
   * One baseline entry, as the body of the loop in `simulate_game` handles
   * it; `key` is the entry's normalized player name.
   */
  function SimulateOne(game: GameData, pace: Option<real>, key: string, name: string, line: real,
                       iterations: int, startersOnly: bool, draw: Draw): (s: Step)
    requires iterations > 0 && draw.wins <= iterations
    ensures var found := FindPlayer(key, game.roster);
      (s.Fail? <==> Failing(game, key, startersOnly)) &&
      (s.Skip? <==> found.None? || (startersOnly && !found.value.0.isStarter)) &&
      (s.Emit? ==> Found(game, key, line, s.result) && 0.0 <= s.result.winProbPct <= 100.0 &&
                   (startersOnly ==> s.result.isStarter))
  {
    var found := FindPlayer(key, game.roster);
    if found.None? then Skip
    else if startersOnly && !found.value.0.isStarter then Skip
    else if found.value.0.seasonPts <= 0.0 then Fail(UnboundForm)
    else Emit(ResultFor(game, pace, found.value.0, found.value.1, name, line, iterations, draw))
  }

  /** The message of the error raised when the form step is never bound. */
  const UnboundForm := "form_adj is unbound when season points are not positive"

  /** The entry's player is found (and is a starter, when only starters are wanted) but has no positive season average. */
  predicate Failing(game: GameData, key: string, startersOnly: bool) {
    var found := FindPlayer(key, game.roster);
    found.Some? && (!startersOnly || found.value.0.isStarter) && found.value.0.seasonPts <= 0.0
  }

  /** The result is for a player found under `key`, on that player's team and against `line`. */
  predicate Found(game: GameData, key: string, line: real, r: SimulationResult) {
    var found := FindPlayer(key, game.roster);
    found.Some? && r.team == found.value.1 && r.baselineLine == line
  }

  /** The draws fit the iterations. */
  predicate DrawsFit(draws: seq<Draw>, iterations: int) {
    forall k :: 0 <= k < |draws| ==> draws[k].wins <= iterations
  }

  /** The normalized player name of every baseline entry. */
  function NameKeys(baselines: seq<(string, real)>): (keys: seq<string>)
    ensures |keys| == |baselines|
  {
    if baselines == [] then []
    else NameKeys(baselines[..|baselines| - 1]) + [PointsPicks.NormalizedName(baselines[|baselines| - 1].0)]
  }

  lemma {:induction false} NameKeysAt(baselines: seq<(string, real)>, k: nat)
    requires k < |baselines|
    ensures NameKeys(baselines)[k] == PointsPicks.NormalizedName(baselines[k].0)
  {
    if k < |baselines| - 1 {
      var init := baselines[..|baselines| - 1];
      NameKeysAt(init, k);
      assert init[k] == baselines[k];
    }
  }

  /** The step of every baseline entry, in order. */
  function Steps(game: GameData, pace: Option<real>, keys: seq<string>, baselines: seq<(string, real)>,
                 iterations: int, startersOnly: bool, draws: seq<Draw>): (steps: seq<Step>)
    requires iterations > 0 && |keys| == |draws| == |baselines| && DrawsFit(draws, iterations)
    ensures |steps| == |baselines|
  {
    seq(|baselines|, k requires 0 <= k < |baselines| =>
      SimulateOne(game, pace, keys[k], baselines[k].0, baselines[k].1, iterations, startersOnly, draws[k]))
  }

  /** The emitted results in order, or the first error. */
  function Collect(steps: seq<Step>): Result<seq<SimulationResult>, string> {
    if steps == [] then Ok([])
    else if steps[0].Fail? then Err(steps[0].error)
    else
      var rest := Collect(steps[1..]);
      if rest.Err? || steps[0].Skip? then rest else Ok([steps[0].result] + rest.value)
  }

  /** Collecting fails exactly when a step fails; otherwise each result was emitted by some step. */
  lemma {:induction false} CollectSpec(steps: seq<Step>)
    ensures Collect(steps).Err? <==> exists k :: 0 <= k < |steps| && steps[k].Fail?
    ensures Collect(steps).Ok? ==>
      |Collect(steps).value| <= |steps| &&
      (forall j :: 0 <= j < |Collect(steps).value| ==> Emit(Collect(steps).value[j]) in steps)
  {
    if steps != [] {
      var tail := steps[1..];
      CollectSpec(tail);
      if !steps[0].Fail? {
        if Collect(tail).Err? {
          var k :| 0 <= k < |tail| && tail[k].Fail?;
          assert steps[k + 1] == tail[k];
        } else {
          forall k | 0 <= k < |steps| ensures !steps[k].Fail? {
            if k > 0 {
              assert steps[k] == tail[k - 1];
            }
          }
          var r := Collect(steps).value;
          forall j | 0 <= j < |r| ensures Emit(r[j]) in steps {
            if steps[0].Emit? && j == 0 {
              assert steps[0] == Emit(r[0]);
            } else {
              var j' := if steps[0].Emit? then j - 1 else j;
              assert r[j] == Collect(tail).value[j'];
              var k :| 0 <= k < |tail| && tail[k] == Emit(r[j]);
              assert steps[k + 1] == tail[k];
            }
          }
        }
      }
    }
  }

  /** The results of the baseline entries in order, before sorting, or the first error. */
  function SimulateAll(game: GameData, pace: Option<real>, keys: seq<string>, baselines: seq<(string, real)>,
                       iterations: int, startersOnly: bool, draws: seq<Draw>): Result<seq<SimulationResult>, string>
    requires iterations > 0 && |keys| == |draws| == |baselines| && DrawsFit(draws, iterations)
  {
    Collect(Steps(game, pace, keys, baselines, iterations, startersOnly, draws))
  }

  /** The sort key of `simulate_game`: win probability, descending. */
  function WinProbKey(r: SimulationResult): Sorting.Key {
    Sorting.Key(r.winProbPct, 0.0)
  }

  /** `results` in front of a later outcome; an error stays the error. */
  function Prepend(results: seq<SimulationResult>, later: Result<seq<SimulationResult>, string>): Result<seq<SimulationResult>, string> {
    if later.Err? then later else Ok(results + later.value)
  }

  /** Collecting one more step after `results` is collecting the rest after `results` and that step. */
  lemma CollectStep(results: seq<SimulationResult>, steps: seq<Step>)
    requires steps != [] && !steps[0].Fail?
    ensures Prepend(results, Collect(steps)) ==
      Prepend(if steps[0].Emit? then results + [steps[0].result] else results, Collect(steps[1..]))
  {
    var later := Collect(steps[1..]);
    if later.Ok? && steps[0].Emit? {
      assert results + ([steps[0].result] + later.value) == results + [steps[0].result] + later.value;
    }
  }

  /** The normalized name of every baseline entry, one call to the normalizer each. */
  method NormalizeNames(baselines: seq<(string, real)>) returns (keys: seq<string>)
    ensures keys == NameKeys(baselines)
  {
    keys := [];
    for i := 0 to |baselines|
      invariant keys == NameKeys(baselines[..i])
    {
      var key := PointsPicks.NormalizeNameForMatch(baselines[i].0);
      assert baselines[..i + 1][..i] == baselines[..i];
      keys := keys + [key];
    }
    assert baselines[..|baselines|] == baselines;
  }

  /** The baseline loop of `simulate_game`, with the error ending it early; `keys[k]` is entry k's normalized name. */
  method SimulateEntries(game: GameData, pace: Option<real>, keys: seq<string>, baselines: seq<(string, real)>,
                         iterations: int, startersOnly: bool, draws: seq<Draw>)
    returns (r: Result<seq<SimulationResult>, string>)
    requires iterations > 0 && |keys| == |draws| == |baselines| && DrawsFit(draws, iterations)
    ensures r == SimulateAll(game, pace, keys, baselines, iterations, startersOnly, draws)
  {
    ghost var steps := Steps(game, pace, keys, baselines, iterations, startersOnly, draws);
    var results: seq<SimulationResult> := [];
    assert steps[0..] == steps;
    assert Collect(steps).Ok? ==> [] + Collect(steps).value == Collect(steps).value;
    for i := 0 to |baselines|
      invariant Collect(steps) == Prepend(results, Collect(steps[i..]))
    {
      var step := SimulateStep(game, pace, keys[i], baselines[i].0, baselines[i].1, iterations, startersOnly, draws[i]);
      assert step == steps[i] == steps[i..][0];
      if step.Fail? {
        return Err(step.error);
      }
      CollectStep(results, steps[i..]);
      assert steps[i..][1..] == steps[i + 1..];
      if step.Emit? {
        results := results + [step.result];
      }
    }
    assert steps[|baselines|..] == [] && results + [] == results;
    return Ok(results);
  }

  /** The loop body for one entry: look the player up, then score, project and simulate. */
  method SimulateStep(game: GameData, pace: Option<real>, key: string, name: string, line: real,
                      iterations: int, startersOnly: bool, draw: Draw) returns (step: Step)
    requires iterations > 0 && draw.wins <= iterations
    ensures step == SimulateOne(game, pace, key, name, line, iterations, startersOnly, draw)
  {
    var found := FindPlayerByKey(key, game.roster);
    if found.None? {
      return Skip;
    }
    var (p, teamAbbr) := found.value;
    if startersOnly && !p.isStarter {
      return Skip;
    }
    var result := SimulatePlayer(game, pace, p, teamAbbr, name, line, iterations, draw);
    if result.Err? {
      return Fail(result.error);
    }
    return Emit(result.value);
  }

  /** Scoring, projecting and simulating one found player. */
  method SimulatePlayer(game: GameData, pace: Option<real>, p: PlayerRecord, teamAbbr: string, name: string,
                        line: real, iterations: int, draw: Draw) returns (r: Result<SimulationResult, string>)
    requires iterations > 0 && draw.wins <= iterations
    ensures r.Err? <==> p.seasonPts <= 0.0
    ensures r.Err? ==> r.error == UnboundForm
    ensures r.Ok? ==> r.value == ResultFor(game, pace, p, teamAbbr, name, line, iterations, draw)
  {
    var away := Upper(game.awayAbbr);
    var home := Upper(game.homeAbbr);
    var isAway := teamAbbr == away;
    var team := TeamOf(game.teams, teamAbbr);
    var opp := TeamOf(game.teams, if isAway then home else away);
    var adj := ComputeAdjustmentScore(p, team, opp, isAway, pace);
    if adj.Err? {
      return Err(adj.error);
    }
    var score := AdjustmentScore(p, opp, team.daysRest, isAway, pace);
    assert adj.value.score == score && adj.value.projMinutes == ProjectedMinutes(p);
    var mean := ComputeAdjustedProjection(p.seasonPts, p.l5PtsAvg, adj.value.score, adj.value.projMinutes, p.l5MinutesAvg);
    assert mean == PointsPicks.ProjectPoints(p.seasonPts, p.l5PtsAvg, ProjectedMinutes(p), p.l5MinutesAvg, score);
    var stdev := if adj.value.l5Stdev > 0.0 then adj.value.l5Stdev else DefaultStdev;
    var mc := RunMonteCarlo(mean, stdev, line, iterations, draw.wins, draw.mean);
    r := Ok(SimulationResult(
      if p.name != "" then p.name else name, teamAbbr, p.position, line, mean, stdev,
      mc.1, mc.0, iterations, mean - line, p.isStarter, adj.value.factors));
  }

  /**
   * `simulate_game`: the projected pace from both teams, one result per
   * baseline entry whose player is found (and starts, when only starters
   * are wanted), sorted by win probability with ties in entry order.
   * `draws[k]` is the random outcome for the k-th entry.
   */
  method SimulateGame(game: GameData, baselines: seq<(string, real)>, iterations: int,
                      startersOnly: bool, draws: seq<Draw>) returns (r: Result<seq<SimulationResult>, string>)
    requires iterations > 0 && |draws| == |baselines| && DrawsFit(draws, iterations)
    ensures var pace := ProjectedPace(TeamOf(game.teams, Upper(game.awayAbbr)).paceLast10,
                                      TeamOf(game.teams, Upper(game.homeAbbr)).paceLast10);
      var all := SimulateAll(game, pace, NameKeys(baselines), baselines, iterations, startersOnly, draws);
      r.Err? == all.Err? && (r.Ok? ==> r.value == Sorting.SortDesc(all.value, WinProbKey))
    ensures r.Ok? ==> Sorting.SortedDesc(r.value, WinProbKey)
  {
    var away := TeamOf(game.teams, Upper(game.awayAbbr));
    var home := TeamOf(game.teams, Upper(game.homeAbbr));
    var pace: Option<real>;
    if away.paceLast10.Some? && home.paceLast10.Some? {
      pace := Some((away.paceLast10.value + home.paceLast10.value) / 2.0);
    } else if away.paceLast10.Some? {
      pace := away.paceLast10;
    } else if home.paceLast10.Some? {
      pace := home.paceLast10;
    } else {
      pace := None;
    }
    assert pace == ProjectedPace(away.paceLast10, home.paceLast10);
    var keys := NormalizeNames(baselines);
    var entries := SimulateEntries(game, pace, keys, baselines, iterations, startersOnly, draws);
    if entries.Err? {
      return entries;
    }
    r := Ok(Sorting.SortDesc(entries.value, WinProbKey));
  }

  /**
   * A run fails exactly when some entry's key finds a player (a starter,
   * when only starters are wanted) whose season average is not positive.
   * Otherwise there is at most one result per entry, each for a player
   * found under some entry's key, on the team it was found on, against that
   * entry's line, with a win probability in [0, 100], and a starter when
   * only starters are wanted.
   */
  lemma SimulateAllFails(game: GameData, pace: Option<real>, keys: seq<string>, baselines: seq<(string, real)>,
                         iterations: int, startersOnly: bool, draws: seq<Draw>)
    requires iterations > 0 && |keys| == |draws| == |baselines| && DrawsFit(draws, iterations)
    ensures SimulateAll(game, pace, keys, baselines, iterations, startersOnly, draws).Err? <==>
      exists b :: 0 <= b < |keys| && Failing(game, keys[b], startersOnly)
  {
    var steps := Steps(game, pace, keys, baselines, iterations, startersOnly, draws);
    CollectSpec(steps);
    if Collect(steps).Err? {
      var k :| 0 <= k < |steps| && steps[k].Fail?;
      assert Failing(game, keys[k], startersOnly);
    } else {
      forall b | 0 <= b < |keys| ensures !Failing(game, keys[b], startersOnly) {
        assert !steps[b].Fail?;
      }
    }
  }

  lemma SimulateAllResults(game: GameData, pace: Option<real>, keys: seq<string>, baselines: seq<(string, real)>,
                           iterations: int, startersOnly: bool, draws: seq<Draw>)
    requires iterations > 0 && |keys| == |draws| == |baselines| && DrawsFit(draws, iterations)
    ensures var all := SimulateAll(game, pace, keys, baselines, iterations, startersOnly, draws);
      all.Ok? ==>
        |all.value| <= |baselines| &&
        (forall j :: 0 <= j < |all.value| ==> Accounted(game, keys, baselines, startersOnly, all.value[j]))
  {
    var steps := Steps(game, pace, keys, baselines, iterations, startersOnly, draws);
    CollectSpec(steps);
    var all := Collect(steps);
    if all.Ok? {
      forall j | 0 <= j < |all.value| ensures Accounted(game, keys, baselines, startersOnly, all.value[j]) {
        var k :| 0 <= k < |steps| && steps[k] == Emit(all.value[j]);
        assert steps[k].Emit? && Found(game, keys[k], baselines[k].1, all.value[j]);
      }
    }
  }

  /** A result comes from some entry's key and line, with a win probability in [0, 100] and, when only starters are wanted, a starter. */
  predicate Accounted(game: GameData, keys: seq<string>, baselines: seq<(string, real)>, startersOnly: bool,
                      r: SimulationResult)
    requires |keys| == |baselines|
  {
    (exists b :: 0 <= b < |keys| && Found(game, keys[b], baselines[b].1, r)) &&
    0.0 <= r.winProbPct <= 100.0 && (startersOnly ==> r.isStarter)
  }
}
