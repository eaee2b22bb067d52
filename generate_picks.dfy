// The single-game pick generator: the safety score, the stat-specific
// factors, the over/under side choice, and the per-stat selection of each
// team's two best picks. The matchup difficulty ladder is the same as the
// parlay optimizer's and is taken from there.
module GeneratePicks {
  import opened Wrappers
  import opened Text
  import opened Sorting
  import Parlay = ParlayOptimizerV3

  type Side = Parlay.Side

  /** The stat types processed, in order. */
  const StatTypes: seq<string> := ["PTS", "REB", "AST"]

  // ---------------------------------------------------------------------
  // Safety score
  // ---------------------------------------------------------------------

  /** `calculate_safety_score`: ten times the margin, a tenth of the win probability, less five times the blowout risk. */
  function SafetyScore(floorMargin: real, winProb: real, blowoutRisk: real): real {
    floorMargin * 10.0 + winProb / 10.0 - blowoutRisk * 5.0
  }

  /**
   * The score grows with the margin and the win probability and falls with
   * the blowout risk; a tenth of a point of margin outweighs anything less
   * than ten points of win probability.
   */
  lemma SafetyScoreMonotone(m: real, m': real, w: real, w': real, b: real, b': real)
    requires m <= m' && w <= w' && b' <= b
    ensures SafetyScore(m, w, b) <= SafetyScore(m', w', b')
    ensures (m < m' || w < w' || b' < b) ==> SafetyScore(m, w, b) < SafetyScore(m', w', b')
  {
  }

  lemma MarginOutweighsProbability(m: real, w: real, w': real, b: real)
    requires w' - w < 10.0
    ensures SafetyScore(m, w', b) < SafetyScore(m + 0.1, w, b)
  {
  }

  // ---------------------------------------------------------------------
  // Stat-specific factors
  // ---------------------------------------------------------------------

  datatype SeasonStats = SeasonStats(rebPct: Option<real>, astPct: Option<real>, usgPct: Option<real>, tsPct: Option<real>)
  datatype RecentStats = RecentStats(usgPct: Option<real>, rebStdev: Option<real>)
  datatype PlayerData = PlayerData(playerId: int, position: string, season: SeasonStats, recent: RecentStats)
  datatype TeamData = TeamData(offensiveRating: Option<real>, pace: Option<real>)

  /** A factor value: a number or a word. */
  datatype FactorValue = Number(x: real) | Word(s: string)

  /** Python truthiness of an optional number: present and non-zero. */
  predicate Truthy(x: Option<real>) {
    x.Some? && x.value != 0.0
  }

  function OrElse(x: Option<real>, default: real): real {
    if x.Some? then x.value else default
  }

  /** Minutes stability of a rebounder from the spread of recent rebounds. */
  function MinutesStability(stdev: real): (r: string)
    ensures r == "HIGH" <==> stdev <= 3.0
    ensures r == "LOW" <==> stdev >= 8.0
    ensures r == "MODERATE" <==> 3.0 < stdev < 8.0
  {
    if stdev <= 3.0 then "HIGH" else if stdev >= 8.0 then "LOW" else "MODERATE"
  }

  /** A one-entry factor map when the value is truthy, empty otherwise. */
  function Optional(key: string, x: Option<real>): (r: map<string, FactorValue>)
    ensures key in r <==> Truthy(x)
    ensures r.Keys <= {key}
    ensures key in r ==> r[key] == Number(x.value)
  {
    if Truthy(x) then map[key := Number(x.value)] else map[]
  }

  /** The usage rate: the recent one when truthy, else the season one. */
  function UsageOf(p: PlayerData): Option<real> {
    if Truthy(p.recent.usgPct) then p.recent.usgPct else p.season.usgPct
  }

  /** `get_stat_specific_factors`. */
  function StatFactors(p: PlayerData, statType: string, team: TeamData, opp: TeamData): map<string, FactorValue> {
    if statType == "REB" then
      var oppFg := OrElse(opp.offensiveRating, 110.0) / 100.0;
      Optional("reb_pct", p.season.rebPct) + map[
        "position" := Word(p.position),
        "opp_miss_rate" := Number(1.0 - oppFg * 0.45),
        "minutes_stability" := Word(MinutesStability(OrElse(p.recent.rebStdev, 0.0)))]
    else if statType == "AST" then
      var teamFg := OrElse(team.offensiveRating, 110.0) / 100.0;
      Optional("ast_pct", p.season.astPct) + map[
        "team_fg_pct" := Number(teamFg * 0.45),
        "projected_pace" := Number((OrElse(team.pace, 100.0) + OrElse(opp.pace, 100.0)) / 2.0)]
    else if statType == "PTS" then
      Optional("usg_pct", UsageOf(p)) + Optional("ts_pct", p.season.tsPct)
    else map[]
  }

  /**
   * Rebounding factors: the position, the opponent's miss rate and the
   * minutes stability always, the rebound rate when it is known; a missing
   * offensive rating reads as 110 and a missing spread as 0 (HIGH).
   */
  lemma ReboundFactors(p: PlayerData, team: TeamData, opp: TeamData)
    ensures var f := StatFactors(p, "REB", team, opp);
      && f.Keys == (if Truthy(p.season.rebPct) then {"reb_pct"} else {}) + {"position", "opp_miss_rate", "minutes_stability"}
      && f["position"] == Word(p.position)
      && f["minutes_stability"] == Word(MinutesStability(OrElse(p.recent.rebStdev, 0.0)))
      && (opp.offensiveRating.None? ==> f["opp_miss_rate"] == Number(0.505))
      && (p.recent.rebStdev.None? ==> f["minutes_stability"] == Word("HIGH"))
  {
  }

  /** Assist factors: the team's shooting estimate and the average pace, 100 for a missing one. */
  lemma AssistFactors(p: PlayerData, team: TeamData, opp: TeamData)
    ensures var f := StatFactors(p, "AST", team, opp);
      && f.Keys == (if Truthy(p.season.astPct) then {"ast_pct"} else {}) + {"team_fg_pct", "projected_pace"}
      && (team.pace.None? && opp.pace.None? ==> f["projected_pace"] == Number(100.0))
  {
  }

  /** Scoring factors: the usage rate, recent before season, and the true shooting rate, each when known. */
  lemma ScoringFactors(p: PlayerData, team: TeamData, opp: TeamData)
    ensures var f := StatFactors(p, "PTS", team, opp);
      && f.Keys <= {"usg_pct", "ts_pct"}
      && ("usg_pct" in f <==> Truthy(p.recent.usgPct) || Truthy(p.season.usgPct))
      && (Truthy(p.recent.usgPct) ==> f["usg_pct"] == Number(p.recent.usgPct.value))
      && ("ts_pct" in f <==> Truthy(p.season.tsPct))
  {
    assert "usg_pct" != "ts_pct";
  }

  /** Any other stat type has no factors. */
  lemma OtherFactors(p: PlayerData, statType: string, team: TeamData, opp: TeamData)
    requires statType !in {"PTS", "REB", "AST"}
    ensures StatFactors(p, statType, team, opp) == map[]
  {
  }

  // ---------------------------------------------------------------------
  // Over or under
  // ---------------------------------------------------------------------

  datatype SideMargin = SideMargin(side: Side, margin: real)

  /**
   * `determine_side`: the over when the floor clears the line, else the
   * under when the ceiling is below it, else the over if it is at least
   * 55% likely, else the under if that is; no side otherwise.
   */
  function DetermineSide(p10: real, p90: real, line: real, overProb: real, underProb: real): (r: Option<SideMargin>)
    ensures r.None? <==> p10 <= line && p90 >= line && overProb < 55.0 && underProb < 55.0
    ensures r.Some? && r.value.side == Parlay.Over ==> r.value.margin == p10 - line
    ensures r.Some? && r.value.side == Parlay.Under ==> r.value.margin == line - p90
    ensures p10 > line ==> r.Some? && r.value.side == Parlay.Over
  {
    var overMargin := p10 - line;
    var underMargin := line - p90;
    if overMargin > 0.0 then Some(SideMargin(Parlay.Over, overMargin))
    else if underMargin > 0.0 then Some(SideMargin(Parlay.Under, underMargin))
    else if overProb >= 55.0 then Some(SideMargin(Parlay.Over, overMargin))
    else if underProb >= 55.0 then Some(SideMargin(Parlay.Under, underMargin))
    else None
  }

  /**
   * A side is chosen only when its margin is positive or its probability
   * is at least 55, so the minimum-criteria filter of the selection loop
   * never drops a pick.
   */
  lemma MinimumCriteriaRedundant(p10: real, p90: real, line: real, overProb: real, underProb: real)
    requires DetermineSide(p10, p90, line, overProb, underProb).Some?
    ensures var c := DetermineSide(p10, p90, line, overProb, underProb).value;
      var winProb := if c.side == Parlay.Over then overProb else underProb;
      c.margin > 0.0 || winProb >= 55.0
  {
  }

  /**
   * Against the parlay optimizer's choice (zero buffers): both take the
   * same side when just one side clears its line; when both do and the
   * under is likelier, the optimizer takes the under and this takes the over.
   */
  lemma SideAgainstParlay(p10: real, p90: real, line: real, overProb: real, underProb: real)
    ensures var mine := DetermineSide(p10, p90, line, overProb, underProb);
      var theirs := Parlay.ChooseSide(line, p10, p90, overProb, underProb);
      && ((p10 > line) != (p90 < line) ==>
            mine.Some? && theirs.Some? && mine.value.side == theirs.value.side &&
            mine.value.margin == theirs.value.floorMargin)
      && (p10 > line && p90 < line && underProb > overProb ==>
            mine.Some? && theirs.Some? && mine.value.side == Parlay.Over && theirs.value.side == Parlay.Under)
  {
    Parlay.ZeroBuffers(line, p10, p90);
  }

  // ---------------------------------------------------------------------
  // The per-stat selection
  // ---------------------------------------------------------------------

  /** The simulated summary of one stat. */
  datatype StatSummary = StatSummary(line: real, p10: real, p50: real, p90: real, overProb: real, underProb: real)

  /** One player's simulation result. */
  datatype SimResult = SimResult(
    playerId: int,
    playerName: string,
    team: string,
    isStarter: bool,
    injuryStatus: string,
    stats: map<string, StatSummary>)

  /** The game's teams and rosters, keyed by team abbreviation. */
  datatype Game = Game(
    awayAbbr: string,
    homeAbbr: string,
    teams: map<string, TeamData>,
    players: map<string, seq<PlayerData>>)

  /** One pick. */
  datatype Pick = Pick(
    player: string,
    statType: string,
    side: Side,
    line: real,
    p10: real,
    p50: real,
    p90: real,
    floorMargin: real,
    winProb: real,
    safetyScore: real,
    matchupDifficulty: string,
    blowoutRisk: real,
    statFactors: map<string, FactorValue>)

  /** What one result yields: no pick, a pick, or a missing team key that aborts the run. */
  datatype Outcome = Skipped | Kept(pick: Pick) | KeyError

  /** The first roster entry with this player id. */
  function FindPlayer(roster: seq<PlayerData>, playerId: int): (r: Option<PlayerData>)
    ensures r.Some? ==> r.value in roster && r.value.playerId == playerId
    ensures r.None? <==> forall i :: 0 <= i < |roster| ==> roster[i].playerId != playerId
  {
    if roster == [] then None
    else if roster[0].playerId == playerId then Some(roster[0])
    else FindPlayer(roster[1..], playerId)
  }

  /** The player found is the first roster entry with the id. */
  lemma {:induction false} FindPlayerFirst(roster: seq<PlayerData>, playerId: int)
    requires FindPlayer(roster, playerId).Some?
    ensures exists i :: 0 <= i < |roster| && roster[i] == FindPlayer(roster, playerId).value &&
                        forall j :: 0 <= j < i ==> roster[j].playerId != playerId
  {
    if roster[0].playerId == playerId {
      assert roster[0] == FindPlayer(roster, playerId).value;
    } else {
      FindPlayerFirst(roster[1..], playerId);
      var i :| 0 <= i < |roster[1..]| && roster[1..][i] == FindPlayer(roster[1..], playerId).value &&
               forall j :: 0 <= j < i ==> roster[1..][j].playerId != playerId;
      assert roster[i + 1] == FindPlayer(roster, playerId).value;
      forall j | 0 <= j < i + 1
        ensures roster[j].playerId != playerId
      {
        if j > 0 {
          assert roster[j] == roster[1..][j - 1];
        }
      }
    }
  }

  /** The roster search of the selection loop. */
  method FindPlayerData(roster: seq<PlayerData>, playerId: int) returns (r: Option<PlayerData>)
    ensures r == FindPlayer(roster, playerId)
  {
    var i := 0;
    while i < |roster|
      invariant 0 <= i <= |roster|
      invariant FindPlayer(roster, playerId) == FindPlayer(roster[i..], playerId)
    {
      if roster[i].playerId == playerId {
        return Some(roster[i]);
      }
      assert roster[i..][1..] == roster[i + 1..];
      i := i + 1;
    }
    return None;
  }

  /** The opponent of a team: the home side for the away team, the away side otherwise. */
  function OpponentOf(game: Game, team: string): string {
    if team == game.awayAbbr then game.homeAbbr else game.awayAbbr
  }

  /** A result the selection loop looks at: an available starter with a summary for the stat. */
  predicate Eligible(r: SimResult, statType: string) {
    r.isStarter && r.injuryStatus == "AVAILABLE" && Lower(statType) in r.stats
  }

  /**
   * What the selection loop makes of one result for one stat type: nothing
   * for an ineligible result, no side, or a player missing from the roster;
   * a key error for a missing team; otherwise the pick of the side
   * `DetermineSide` chooses, with that side's margin and probability and the
   * roster entry's factors.
   */
  function Evaluate(r: SimResult, statType: string, game: Game, blowoutRisk: real): (o: Outcome)
    ensures !Eligible(r, statType) ==> o.Skipped?
    ensures Eligible(r, statType) ==>
      var s := r.stats[Lower(statType)];
      var side := DetermineSide(s.p10, s.p90, s.line, s.overProb, s.underProb);
      && (side.None? ==> o.Skipped?)
      && (side.Some? && r.team !in game.players ==> o.KeyError?)
      && (side.Some? && r.team in game.players && FindPlayer(game.players[r.team], r.playerId).None? ==> o.Skipped?)
      && (side.Some? && r.team in game.players && FindPlayer(game.players[r.team], r.playerId).Some? ==>
            (o.KeyError? <==> r.team !in game.teams || OpponentOf(game, r.team) !in game.teams))
      && (o.Kept? <==> side.Some? && r.team in game.players && FindPlayer(game.players[r.team], r.playerId).Some? &&
                       r.team in game.teams && OpponentOf(game, r.team) in game.teams)
    ensures o.Kept? ==>
      && Eligible(r, statType)
      && var s := r.stats[Lower(statType)];
      && var c := DetermineSide(s.p10, s.p90, s.line, s.overProb, s.underProb).value;
      && r.team in game.players && r.team in game.teams && OpponentOf(game, r.team) in game.teams
      && FindPlayer(game.players[r.team], r.playerId).Some?
      && o.pick.player == r.playerName && o.pick.statType == statType && o.pick.line == s.line
      && o.pick.p10 == s.p10 && o.pick.p50 == s.p50 && o.pick.p90 == s.p90
      && o.pick.side == c.side && o.pick.floorMargin == c.margin
      && o.pick.winProb == (if c.side == Parlay.Over then s.overProb else s.underProb)
      && (o.pick.floorMargin > 0.0 || o.pick.winProb >= 55.0)
      && o.pick.safetyScore == SafetyScore(o.pick.floorMargin, o.pick.winProb, blowoutRisk)
      && o.pick.matchupDifficulty == Parlay.MatchupDifficulty(o.pick.winProb, o.pick.floorMargin, blowoutRisk)
      && o.pick.blowoutRisk == blowoutRisk
      && o.pick.statFactors == StatFactors(FindPlayer(game.players[r.team], r.playerId).value, statType,
                                           game.teams[r.team], game.teams[OpponentOf(game, r.team)])
  {
    if !r.isStarter || r.injuryStatus != "AVAILABLE" then Skipped
    else if Lower(statType) !in r.stats then Skipped
    else
      var s := r.stats[Lower(statType)];
      match DetermineSide(s.p10, s.p90, s.line, s.overProb, s.underProb)
      case None => Skipped
      case Some(c) =>
        var winProb := if c.side == Parlay.Over then s.overProb else s.underProb;
        var floorMargin := if c.side == Parlay.Over then s.p10 - s.line else s.line - s.p90;
        if winProb < 55.0 && floorMargin < 0.0 then Skipped
        else if r.team !in game.players then KeyError
        else
          match FindPlayer(game.players[r.team], r.playerId)
          case None => Skipped
          case Some(p) =>
            var opp := OpponentOf(game, r.team);
            if r.team !in game.teams || opp !in game.teams then KeyError
            else
              var factors := StatFactors(p, statType, game.teams[r.team], game.teams[opp]);
              Kept(Pick(r.playerName, statType, c.side, s.line, s.p10, s.p50, s.p90, floorMargin, winProb,
                        SafetyScore(floorMargin, winProb, blowoutRisk),
                        Parlay.MatchupDifficulty(winProb, floorMargin, blowoutRisk), blowoutRisk, factors))
  }

  /** `r` belongs to the away list (or, with `away` false, the home list). */
  predicate OnSide(r: SimResult, game: Game, away: bool) {
    (r.team == game.awayAbbr) == away
  }

  /**
   * The picks of one side of the game in result order, or an error when
   * some result hits a missing team key.
   */
  function TeamPicks(results: seq<SimResult>, statType: string, game: Game, blowoutRisk: real, away: bool): Result<seq<Pick>, string>
    decreases |results|
  {
    if results == [] then Ok([])
    else
      match TeamPicks(results[..|results| - 1], statType, game, blowoutRisk, away)
      case Err(e) => Err(e)
      case Ok(picks) =>
        var r := results[|results| - 1];
        match Evaluate(r, statType, game, blowoutRisk)
        case KeyError => Err("missing team key")
        case Skipped => Ok(picks)
        case Kept(p) => if OnSide(r, game, away) then Ok(picks + [p]) else Ok(picks)
  }

  /** The ranking key: floor margin first, then win probability. */
  function PickKey(p: Pick): Key {
    Key(p.floorMargin, p.winProb)
  }

  /** How many picks a team keeps. */
  function KeepCount(n: nat): (k: nat)
    ensures k <= n && k <= 2
  {
    if n < 2 then n else 2
  }

  /** A team's two best picks, by margin and then win probability. */
  function TopTwo(picks: seq<Pick>): seq<Pick> {
    SortDesc(picks, PickKey)[..KeepCount(|picks|)]
  }

  /**
   * The selection loop of `main` for one stat type: collect each team's
   * picks, then sort each list best first and keep its first two. The run
   * aborts when a result's team is missing from the game's tables.
   */
  method SelectStatPicks(results: seq<SimResult>, statType: string, game: Game, blowoutRisk: real)
    returns (r: Result<(seq<Pick>, seq<Pick>), string>)
    ensures r.Err? <==> TeamPicks(results, statType, game, blowoutRisk, true).Err?
    ensures r.Ok? ==>
      && TeamPicks(results, statType, game, blowoutRisk, false).Ok?
      && r.value.0 == TopTwo(TeamPicks(results, statType, game, blowoutRisk, true).value)
      && r.value.1 == TopTwo(TeamPicks(results, statType, game, blowoutRisk, false).value)
  {
    var awayPicks: seq<Pick> := [];
    var homePicks: seq<Pick> := [];
    var i := 0;
    while i < |results|
      invariant 0 <= i <= |results|
      invariant TeamPicks(results[..i], statType, game, blowoutRisk, true) == Ok(awayPicks)
      invariant TeamPicks(results[..i], statType, game, blowoutRisk, false) == Ok(homePicks)
    {
      var res := results[i];
      assert results[..i + 1][..i] == results[..i];
      assert results[..i + 1][i] == res;
      var o := Evaluate(res, statType, game, blowoutRisk);
      if o.KeyError? {
        ErrorSticks(results, i + 1, statType, game, blowoutRisk);
        return Err("missing team key");
      }
      if o.Kept? {
        if res.team == game.awayAbbr {
          awayPicks := awayPicks + [o.pick];
        } else {
          homePicks := homePicks + [o.pick];
        }
      }
      i := i + 1;
    }
    assert results[..i] == results;
    awayPicks := SortDesc(awayPicks, PickKey);
    awayPicks := awayPicks[..KeepCount(|awayPicks|)];
    homePicks := SortDesc(homePicks, PickKey);
    homePicks := homePicks[..KeepCount(|homePicks|)];
    r := Ok((awayPicks, homePicks));
  }

  /** Once some result aborts the run, so does every longer run, on both sides. */
  lemma {:induction false} ErrorSticks(results: seq<SimResult>, i: nat, statType: string, game: Game, blowoutRisk: real)
    requires 0 < i <= |results|
    requires Evaluate(results[i - 1], statType, game, blowoutRisk).KeyError? ||
             TeamPicks(results[..i], statType, game, blowoutRisk, true).Err?
    ensures TeamPicks(results, statType, game, blowoutRisk, true).Err?
    ensures TeamPicks(results, statType, game, blowoutRisk, false).Err?
    decreases |results| - i
  {
    ErrorBothSides(results[..i], statType, game, blowoutRisk);
    if i == |results| {
      assert results[..i] == results;
    } else {
      assert results[..i + 1][..i] == results[..i];
      ErrorSticks(results, i + 1, statType, game, blowoutRisk);
    }
  }

  /** A run aborts on the away side exactly when it aborts on the home side. */
  lemma {:induction false} ErrorBothSides(results: seq<SimResult>, statType: string, game: Game, blowoutRisk: real)
    ensures TeamPicks(results, statType, game, blowoutRisk, true).Err? <==>
            TeamPicks(results, statType, game, blowoutRisk, false).Err?
    ensures results != [] && Evaluate(results[|results| - 1], statType, game, blowoutRisk).KeyError? ==>
            TeamPicks(results, statType, game, blowoutRisk, true).Err?
    decreases |results|
  {
    if results != [] {
      ErrorBothSides(results[..|results| - 1], statType, game, blowoutRisk);
    }
  }

  /**
   * Every pick of a side comes from a result of that side that `Evaluate`
   * keeps, so it is a starter listed as AVAILABLE whose pick clears its
   * line or is at least 55% likely.
   */
  lemma {:induction false} TeamPicksFrom(results: seq<SimResult>, statType: string, game: Game, blowoutRisk: real, away: bool, p: Pick)
    requires TeamPicks(results, statType, game, blowoutRisk, away).Ok?
    requires p in TeamPicks(results, statType, game, blowoutRisk, away).value
    ensures exists i :: (0 <= i < |results| && OnSide(results[i], game, away) &&
      Evaluate(results[i], statType, game, blowoutRisk) == Kept(p))
    decreases |results|
  {
    var init := results[..|results| - 1];
    var r := results[|results| - 1];
    var picks := TeamPicks(init, statType, game, blowoutRisk, away).value;
    if p in picks {
      TeamPicksFrom(init, statType, game, blowoutRisk, away, p);
      var i :| 0 <= i < |init| && OnSide(init[i], game, away) && Evaluate(init[i], statType, game, blowoutRisk) == Kept(p);
      assert results[i] == init[i];
    } else {
      assert Evaluate(r, statType, game, blowoutRisk) == Kept(p) && OnSide(r, game, away);
    }
  }

  /** The kept picks: as many as there are up to two, drawn from the side's picks, best first. */
  lemma TopTwoSpec(picks: seq<Pick>)
    ensures var top := TopTwo(picks);
      && |top| == KeepCount(|picks|)
      && multiset(top) <= multiset(picks)
      && SortedDesc(top, PickKey)
  {
    var s := SortDesc(picks, PickKey);
    var top := TopTwo(picks);
    assert s == top + s[|top|..];
    assert multiset(s) == multiset(top) + multiset(s[|top|..]);
  }

  /** No pick left out is ranked above a pick kept. */
  lemma TopTwoBest(picks: seq<Pick>, i: int, j: int)
    requires 0 <= i < |TopTwo(picks)| <= j < |picks|
    ensures !Above(PickKey(SortDesc(picks, PickKey)[j]), PickKey(TopTwo(picks)[i]))
  {
  }
}
