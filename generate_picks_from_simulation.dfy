// The points picks of one game from simulation results: the GOAT adjustment
// score, the pace adjustment, the per-team candidate filter, the cascading
// win-probability tiers that choose three picks, and the tier and
// confidence of a formatted pick.
module GeneratePicksFromSimulation {
  import opened Wrappers
  import opened Text
  import opened Sorting
  import opened Lists
  import Arith
  import Engine = SimulationEngine

  /** How many picks a team gets. */
  const PicksPerTeam: int := 3

  /** The warning carried by a pick from the relaxed tier, and by one from the fallback. */
  const RelaxedFlag: string := "⚠️ RELAXED THRESHOLD"
  const FallbackFlag: string := "⚡ FALLBACK PICK"

  // ---------------------------------------------------------------------
  // Game data
  // ---------------------------------------------------------------------

  /** A team's entry in the game data; a missing team reads as all absent. */
  datatype TeamInfo = TeamInfo(
    paceOfficial: Option<real>,
    paceLast10: Option<real>,
    daysRest: Option<int>,
    defensiveRating: Option<real>)

  const NoTeam := TeamInfo(None, None, None, None)

  /**
   * A player's entry in the game data, with the defaults of its lookups:
   * missing averages are 0 and a missing injury status is empty. The last
   * three fields are the ones `select_team_picks` writes before scoring.
   */
  datatype PlayerInfo = PlayerInfo(
    name: string,
    injuryStatus: string,
    recentUsg: Option<real>,
    recentTs: Option<real>,
    recentPtsAvg: real,
    recentPtsStdev: real,
    recentMinutes: real,
    seasonPts: real,
    seasonMinutes: real,
    clutchPtsAvg: Option<real>,
    ptsLeagueRank: Option<int>,
    daysRest: Option<int>,
    isAway: Option<bool>,
    paceAdjustment: Option<real>)

  datatype GameData = GameData(
    awayAbbr: Option<string>,
    teams: map<string, TeamInfo>,
    players: map<string, seq<PlayerInfo>>)

  function TeamOf(game: GameData, team: string): TeamInfo {
    if team in game.teams then game.teams[team] else NoTeam
  }

  // ---------------------------------------------------------------------
  // GOAT score
  // ---------------------------------------------------------------------

  /** A. Usage: 1.2 from 28%, -0.8 below 20%, 0 otherwise or when unknown. */
  function UsageStep(usg: Option<real>): (r: real)
    ensures -0.8 <= r <= 1.2
    ensures usg.None? ==> r == 0.0
  {
    if usg.None? then 0.0
    else if usg.value >= 28.0 then 1.2
    else if usg.value < 20.0 then -0.8
    else 0.0
  }

  /** C. Opponent defense: 1.7 from 118, 0.8 from 114, -2 up to 108, -1 up to 112. */
  function DefenseStep(drtg: Option<real>): (r: real)
    ensures -2.0 <= r <= 1.7
    ensures drtg.None? ==> r == 0.0
  {
    if drtg.None? then 0.0
    else if drtg.value >= 118.0 then 1.7
    else if drtg.value >= 114.0 then 0.8
    else if drtg.value <= 108.0 then -2.0
    else if drtg.value <= 112.0 then -1.0
    else 0.0
  }

  /** E. Rest: a back-to-back costs 1.8 away and 1 at home, 2 days earn 0.2, 3 or more cost 0.3. */
  function RestStep(daysRest: int, isAway: bool): (r: real)
    ensures -1.8 <= r <= 0.2
    ensures r == 0.2 <==> daysRest == 2
    ensures r == 0.0 <==> daysRest == 1 || daysRest < 0
  {
    if daysRest == 0 then (if isAway then -1.8 else -1.0)
    else if daysRest == 2 then 0.2
    else if daysRest >= 3 then -0.3
    else 0.0
  }

  /** F. Form: 17 times the relative gap to the season average, within [-5.5, 5.5]; 0 without a season average. */
  function FormStep(recentPts: real, seasonPts: real): (r: real)
    ensures -5.5 <= r <= 5.5
    ensures seasonPts <= 0.0 ==> r == 0.0
  {
    if seasonPts > 0.0 then Arith.Cap((recentPts - seasonPts) / seasonPts * 17.0, -5.5, 5.5) else 0.0
  }

  /** The minutes the ladder looks at: the recent average when non-zero, else the season's. */
  function ProjectedMinutes(p: PlayerInfo): real {
    if p.recentMinutes != 0.0 then p.recentMinutes else p.seasonMinutes
  }

  function OrReal(x: Option<real>, default: real): real {
    if x.Some? then x.value else default
  }

  function OrInt(x: Option<int>, default: int): int {
    if x.Some? then x.value else default
  }

  /**
   * `compute_goat_score` before rounding: the ten steps, of which the pace
   * step is whatever pace adjustment the player's entry carries.
   */
  function GoatScore(p: PlayerInfo, opp: TeamInfo): (r: real)
    ensures -16.6 <= r - OrReal(p.paceAdjustment, 0.0) <= 14.5
  {
    UsageStep(p.recentUsg)
    + Engine.TsAdj(p.recentTs)
    + DefenseStep(opp.defensiveRating)
    + OrReal(p.paceAdjustment, 0.0)
    + RestStep(OrInt(p.daysRest, 1), p.isAway == Some(true))
    + FormStep(p.recentPtsAvg, p.seasonPts)
    + Engine.ClutchAdj(p.clutchPtsAvg)
    + Engine.RankAdj(p.ptsLeagueRank)
    + Engine.MinutesLadder(ProjectedMinutes(p))
    + Engine.ConsistencyAdj(p.recentPtsStdev)
  }

  /** `compute_goat_score`: the steps added one after another. */
  method ComputeGoatScore(p: PlayerInfo, opp: TeamInfo) returns (score: real)
    ensures score == GoatScore(p, opp)
  {
    score := 0.0;
    if p.recentUsg.Some? {
      if p.recentUsg.value >= 28.0 {
        score := score + 1.2;
      } else if p.recentUsg.value < 20.0 {
        score := score - 0.8;
      }
    }
    assert score == UsageStep(p.recentUsg);
    score := score + Engine.TsAdj(p.recentTs);
    score := score + DefenseStep(opp.defensiveRating);
    score := score + OrReal(p.paceAdjustment, 0.0);
    ghost var upToPace := score;
    var daysRest := OrInt(p.daysRest, 1);
    if daysRest == 0 {
      score := score + (if p.isAway == Some(true) then -1.8 else -1.0);
    } else if daysRest == 2 {
      score := score + 0.2;
    } else if daysRest >= 3 {
      score := score - 0.3;
    }
    assert score == upToPace + RestStep(daysRest, p.isAway == Some(true));
    ghost var upToRest := score;
    if p.seasonPts > 0.0 {
      var formDelta := (p.recentPtsAvg - p.seasonPts) / p.seasonPts * 17.0;
      score := score + Arith.Max(-5.5, Arith.Min(5.5, formDelta));
    }
    assert score == upToRest + FormStep(p.recentPtsAvg, p.seasonPts);
    score := score + Engine.ClutchAdj(p.clutchPtsAvg);
    score := score + Engine.RankAdj(p.ptsLeagueRank);
    ghost var upToRank := score;
    var projMinutes := ProjectedMinutes(p);
    if projMinutes >= 34.0 {
      score := score + 1.2;
    } else if projMinutes >= 30.0 {
      score := score + 0.6;
    } else if projMinutes < 26.0 {
      score := score - 3.3;
    }
    assert score == upToRank + Engine.MinutesLadder(projMinutes);
    ghost var upToMinutes := score;
    if p.recentPtsStdev <= 5.0 {
      score := score + 1.3;
    } else if p.recentPtsStdev > 7.0 {
      score := score - 1.7;
    }
    assert score == upToMinutes + Engine.ConsistencyAdj(p.recentPtsStdev);
  }

  /** Without a pace adjustment the score lies within the sum of the steps' ranges. */
  lemma GoatScoreBounds(p: PlayerInfo, opp: TeamInfo)
    requires p.paceAdjustment.None?
    ensures -16.6 <= GoatScore(p, opp) <= 14.5
  {
  }

  /** The pace adjustment the entry carries enters the score as it is. */
  lemma GoatScorePace(p: PlayerInfo, opp: TeamInfo, x: real)
    ensures GoatScore(p.(paceAdjustment := Some(x)), opp) == GoatScore(p.(paceAdjustment := None), opp) + x
  {
  }

  // ---------------------------------------------------------------------
  // Pace
  // ---------------------------------------------------------------------

  /** A team's pace: the official one when truthy, else the last-ten one. */
  function PaceOf(t: TeamInfo): Option<real> {
    if t.paceOfficial.Some? && t.paceOfficial.value != 0.0 then t.paceOfficial else t.paceLast10
  }

  /**
   * `compute_pace_adjustment`: 0 when either pace is unknown; otherwise
   * 2.7 when the average pace is at least 104, -2.7 when at most 98, 0 between.
   */
  function PaceAdjustment(game: GameData, team: string, oppTeam: string): (r: real)
    ensures PaceOf(TeamOf(game, team)).None? || PaceOf(TeamOf(game, oppTeam)).None? ==> r == 0.0
    ensures PaceOf(TeamOf(game, team)).Some? && PaceOf(TeamOf(game, oppTeam)).Some? ==>
      var avg := (PaceOf(TeamOf(game, team)).value + PaceOf(TeamOf(game, oppTeam)).value) / 2.0;
      (r == 2.7 <==> avg >= 104.0) && (r == -2.7 <==> avg <= 98.0) && (r == 0.0 <==> 98.0 < avg < 104.0)
  {
    var a := PaceOf(TeamOf(game, team));
    var b := PaceOf(TeamOf(game, oppTeam));
    if a.None? || b.None? then 0.0 else Engine.PaceAdj(Some((a.value + b.value) / 2.0))
  }

  /** The adjustment does not depend on which team is asking. */
  lemma PaceAdjustmentSymmetric(game: GameData, team: string, oppTeam: string)
    ensures PaceAdjustment(game, team, oppTeam) == PaceAdjustment(game, oppTeam, team)
  {
    var a := PaceOf(TeamOf(game, team));
    var b := PaceOf(TeamOf(game, oppTeam));
    if a.Some? && b.Some? {
      assert (a.value + b.value) / 2.0 == (b.value + a.value) / 2.0;
    }
  }

  // ---------------------------------------------------------------------
  // Candidates
  // ---------------------------------------------------------------------

  /** One simulation result. */
  datatype SimResult = SimResult(
    player: string,
    team: string,
    isStarter: bool,
    baselineLine: Option<real>,
    adjustedMean: real,
    winProbPct: real,
    edgePts: real)

  datatype Candidate = Candidate(
    player: string,
    line: real,
    adjustedMean: real,
    winProbPct: real,
    edgePts: real,
    goatScore: real,
    playerData: PlayerInfo,
    result: SimResult)

  /** `get_player_data`: the team's first player with this name. */
  function PlayerData(game: GameData, team: string, name: string): (r: Option<PlayerInfo>)
    ensures r.Some? ==> team in game.players && r.value in game.players[team] && r.value.name == name
    ensures r.Some? ==>
      exists k :: 0 <= k < |game.players[team]| && game.players[team][k] == r.value &&
                  forall j :: 0 <= j < k ==> game.players[team][j].name != name
    ensures r.None? <==> team !in game.players || forall i :: 0 <= i < |game.players[team]| ==> game.players[team][i].name != name
  {
    if team in game.players then FirstNamed(game.players[team], name) else None
  }

  function FirstNamed(players: seq<PlayerInfo>, name: string): (r: Option<PlayerInfo>)
    ensures r.Some? ==> r.value in players && r.value.name == name
    ensures r.Some? ==> exists k :: 0 <= k < |players| && players[k] == r.value && forall j :: 0 <= j < k ==> players[j].name != name
    ensures r.None? <==> forall i :: 0 <= i < |players| ==> players[i].name != name
  {
    if players == [] then None
    else if players[0].name == name then Some(players[0])
    else
      var r' := FirstNamed(players[1..], name);
      assert r'.Some? ==> exists k :: 0 <= k < |players| && players[k] == r'.value &&
                                     forall j :: 0 <= j < k ==> players[j].name != name by {
        if r'.Some? {
          var k :| 0 <= k < |players[1..]| && players[1..][k] == r'.value &&
                   forall j :: 0 <= j < k ==> players[1..][j].name != name;
          assert players[k + 1] == r'.value && forall j :: 0 <= j < k + 1 ==> players[j].name != name;
        }
      }
      r'
  }

  /** The player's entry with the team context `select_team_picks` writes into it. */
  function WithContext(p: PlayerInfo, game: GameData, team: string, paceAdj: real): PlayerInfo {
    p.(daysRest := Some(OrInt(TeamOf(game, team).daysRest, 1)),
       isAway := Some(game.awayAbbr == Some(team)),
       paceAdjustment := Some(paceAdj))
  }

  /**
   * The candidate a result yields for a team: a starter of that team with a
   * line, found in the game data and not OUT or DOUBTFUL; its GOAT score
   * adds the pace adjustment once more on top of the one the entry carries.
   */
  function CandidateFor(r: SimResult, game: GameData, team: string, oppTeam: string, paceAdj: real): (c: Option<Candidate>)
    ensures c.Some? ==>
      && r.team == team && r.isStarter && r.baselineLine.Some?
      && PlayerData(game, team, r.player).Some?
      && Upper(PlayerData(game, team, r.player).value.injuryStatus) !in {"OUT", "DOUBTFUL"}
      && c.value.result == r && c.value.player == r.player && c.value.line == r.baselineLine.value
      && c.value.winProbPct == r.winProbPct && c.value.edgePts == r.edgePts
      && c.value.playerData == WithContext(PlayerData(game, team, r.player).value, game, team, paceAdj)
      && c.value.goatScore == GoatScore(c.value.playerData, TeamOf(game, oppTeam)) + paceAdj
  {
    if r.team != team || !r.isStarter || r.baselineLine.None? then None
    else match PlayerData(game, team, r.player)
      case None => None
      case Some(p) =>
        if Upper(p.injuryStatus) in {"OUT", "DOUBTFUL"} then None
        else
          var q := WithContext(p, game, team, paceAdj);
          Some(Candidate(r.player, r.baselineLine.value, r.adjustedMean, r.winProbPct, r.edgePts,
                         GoatScore(q, TeamOf(game, oppTeam)) + paceAdj, q, r))
  }

  /**
   * The pace adjustment is counted twice: a candidate's GOAT score is the
   * score of the entry without it plus twice the adjustment.
   */
  lemma PaceCountedTwice(r: SimResult, game: GameData, team: string, oppTeam: string, paceAdj: real)
    requires CandidateFor(r, game, team, oppTeam, paceAdj).Some?
    ensures var c := CandidateFor(r, game, team, oppTeam, paceAdj).value;
      c.goatScore == GoatScore(c.playerData.(paceAdjustment := None), TeamOf(game, oppTeam)) + 2.0 * paceAdj
  {
    var c := CandidateFor(r, game, team, oppTeam, paceAdj).value;
    GoatScorePace(c.playerData, TeamOf(game, oppTeam), paceAdj);
    assert c.playerData.(paceAdjustment := Some(paceAdj)) == c.playerData;
  }

  /** The team's candidates, in result order. */
  function Candidates(results: seq<SimResult>, game: GameData, team: string, oppTeam: string, paceAdj: real): seq<Candidate>
    decreases |results|
  {
    if results == [] then []
    else
      var init := Candidates(results[..|results| - 1], game, team, oppTeam, paceAdj);
      match CandidateFor(results[|results| - 1], game, team, oppTeam, paceAdj)
      case None => init
      case Some(c) => init + [c]
  }

  /** Every candidate comes from one of the results. */
  lemma {:induction false} CandidatesFrom(results: seq<SimResult>, game: GameData, team: string, oppTeam: string, paceAdj: real, c: Candidate)
    requires c in Candidates(results, game, team, oppTeam, paceAdj)
    ensures exists i :: 0 <= i < |results| && CandidateFor(results[i], game, team, oppTeam, paceAdj) == Some(c)
    decreases |results|
  {
    var init := results[..|results| - 1];
    if c in Candidates(init, game, team, oppTeam, paceAdj) {
      CandidatesFrom(init, game, team, oppTeam, paceAdj, c);
      var i :| 0 <= i < |init| && CandidateFor(init[i], game, team, oppTeam, paceAdj) == Some(c);
      assert results[i] == init[i];
    } else {
      assert CandidateFor(results[|results| - 1], game, team, oppTeam, paceAdj) == Some(c);
    }
  }

  /** Distinct results give distinct candidates, since each candidate keeps its result. */
  lemma {:induction false} CandidatesDistinct(results: seq<SimResult>, game: GameData, team: string, oppTeam: string, paceAdj: real)
    requires Distinct(results)
    ensures Distinct(Candidates(results, game, team, oppTeam, paceAdj))
    decreases |results|
  {
    if results != [] {
      var init := results[..|results| - 1];
      var last := results[|results| - 1];
      assert Distinct(init);
      CandidatesDistinct(init, game, team, oppTeam, paceAdj);
      var o := CandidateFor(last, game, team, oppTeam, paceAdj);
      if o.Some? {
        var cs := Candidates(init, game, team, oppTeam, paceAdj);
        forall x | x in [o.value] ensures x !in cs {
          if x in cs {
            CandidatesFrom(init, game, team, oppTeam, paceAdj, x);
          }
        }
        AppendDistinct(cs, [o.value]);
      }
    }
  }

  // ---------------------------------------------------------------------
  // The cascading tiers
  // ---------------------------------------------------------------------

  /** Candidates are ranked by win probability alone. */
  function WinKey(c: Candidate): Key {
    Key(c.winProbPct, 0.0)
  }

  function AtLeast(t: real): Candidate -> bool {
    (c: Candidate) => c.winProbPct >= t
  }

  function HasEdge(): Candidate -> bool {
    (c: Candidate) => c.edgePts >= 0.5
  }

  /** Tiers 2 and 3: top up from the unselected candidates reaching the threshold. */
  function Tier(ranked: seq<Candidate>, selected: seq<Candidate>, t: real): seq<Candidate> {
    if |selected| < PicksPerTeam then
      selected + Take(Filter(Without(ranked, selected), AtLeast(t)), PicksPerTeam - |selected|)
    else selected
  }

  /**
   * Tier 4: the unselected candidates with an edge of half a point come
   * first when there are enough of them to fill the selection, otherwise
   * the likeliest of the rest.
   */
  function Fallback(ranked: seq<Candidate>, selected: seq<Candidate>): seq<Candidate> {
    if |selected| < PicksPerTeam then
      var remaining := SortDesc(Without(ranked, selected), WinKey);
      var edge := Filter(remaining, HasEdge());
      if |selected| + |edge| >= PicksPerTeam then selected + Take(edge, PicksPerTeam - |selected|)
      else selected + Take(remaining, PicksPerTeam - |selected|)
    else selected
  }

  /** The first tier: up to three candidates reaching 60%. */
  function FirstTier(ranked: seq<Candidate>): seq<Candidate> {
    Take(Filter(ranked, AtLeast(60.0)), PicksPerTeam)
  }

  /** The first three tiers. */
  function Tiers(ranked: seq<Candidate>): seq<Candidate> {
    Tier(ranked, Tier(ranked, FirstTier(ranked), 55.0), 50.0)
  }

  /** The selection from the candidates ranked by win probability. */
  function Cascade(ranked: seq<Candidate>): seq<Candidate> {
    Take(Fallback(ranked, Tiers(ranked)), PicksPerTeam)
  }

  /** `select_team_picks`, as a value. */
  function TeamSelection(results: seq<SimResult>, game: GameData, team: string, oppTeam: string): seq<Candidate> {
    Cascade(SortDesc(Candidates(results, game, team, oppTeam, PaceAdjustment(game, team, oppTeam)), WinKey))
  }

  /** The candidate loop of `select_team_picks`. */
  method CollectCandidates(results: seq<SimResult>, game: GameData, team: string, oppTeam: string, paceAdj: real)
    returns (candidates: seq<Candidate>)
    ensures candidates == Candidates(results, game, team, oppTeam, paceAdj)
  {
    candidates := [];
    var i := 0;
    while i < |results|
      invariant 0 <= i <= |results|
      invariant candidates == Candidates(results[..i], game, team, oppTeam, paceAdj)
    {
      assert results[..i + 1][..i] == results[..i];
      var c := CandidateFor(results[i], game, team, oppTeam, paceAdj);
      if c.Some? {
        candidates := candidates + [c.value];
      }
      i := i + 1;
    }
    assert results[..i] == results;
  }

  /**
   * `select_team_picks`: collect the team's candidates, rank them by win
   * probability, then fill three places tier by tier.
   */
  method SelectTeamPicks(results: seq<SimResult>, game: GameData, team: string, oppTeam: string)
    returns (selected: seq<Candidate>)
    ensures selected == TeamSelection(results, game, team, oppTeam)
  {
    var paceAdj := PaceAdjustment(game, team, oppTeam);
    var candidates := CollectCandidates(results, game, team, oppTeam, paceAdj);
    candidates := SortDesc(candidates, WinKey);

    selected := Take(Filter(candidates, AtLeast(60.0)), PicksPerTeam);
    ghost var tier1 := selected;
    if |selected| < PicksPerTeam {
      var tier2 := Filter(Without(candidates, selected), AtLeast(55.0));
      selected := selected + Take(tier2, PicksPerTeam - |selected|);
    }
    assert selected == Tier(candidates, tier1, 55.0);
    ghost var upToTier2 := selected;
    if |selected| < PicksPerTeam {
      var tier3 := Filter(Without(candidates, selected), AtLeast(50.0));
      selected := selected + Take(tier3, PicksPerTeam - |selected|);
    }
    assert selected == Tier(candidates, upToTier2, 50.0);
    selected := FallbackPicks(candidates, selected);
    selected := Take(selected, PicksPerTeam);
  }

  /** Tier 4 of `select_team_picks`. */
  method FallbackPicks(candidates: seq<Candidate>, selected: seq<Candidate>) returns (r: seq<Candidate>)
    ensures r == Fallback(candidates, selected)
  {
    r := selected;
    if |r| < PicksPerTeam {
      var remaining := SortDesc(Without(candidates, r), WinKey);
      var tier4Edge := Filter(remaining, HasEdge());
      if |r| + |tier4Edge| >= PicksPerTeam {
        r := r + Take(tier4Edge, PicksPerTeam - |r|);
        if |r| < PicksPerTeam {
          // The top-up from the candidates without an edge: enough edge
          // picks were just taken, so this never runs.
          assert false;
        }
      } else {
        r := r + Take(remaining, PicksPerTeam - |r|);
      }
    }
  }

  // ---------------------------------------------------------------------
  // What the selection promises
  // ---------------------------------------------------------------------

  /** A tier adds only candidates that were not selected. */
  lemma TierFrom(ranked: seq<Candidate>, selected: seq<Candidate>, t: real)
    requires Within(selected, ranked)
    ensures Within(Tier(ranked, selected, t), ranked)
    ensures forall x :: x in Tier(ranked, selected, t) && x !in selected ==> AtLeast(t)(x)
  {
    if |selected| < PicksPerTeam {
      var pool := Filter(Without(ranked, selected), AtLeast(t));
      forall x | x in Tier(ranked, selected, t) && x !in selected ensures x in ranked && AtLeast(t)(x) {
        InTake(pool, PicksPerTeam - |selected|, x);
        InFilter(Without(ranked, selected), AtLeast(t), x);
        InWithout(ranked, selected, x);
      }
    }
  }

  /** The fallback adds only candidates that were not selected. */
  lemma FallbackFrom(ranked: seq<Candidate>, selected: seq<Candidate>)
    requires Within(selected, ranked)
    ensures Within(Fallback(ranked, selected), ranked)
  {
    if |selected| < PicksPerTeam {
      var rest := Without(ranked, selected);
      var remaining := SortDesc(rest, WinKey);
      var edge := Filter(remaining, HasEdge());
      forall x | x in Fallback(ranked, selected) && x !in selected ensures x in ranked {
        assert x in remaining by {
          if |selected| + |edge| >= PicksPerTeam {
            InTake(edge, PicksPerTeam - |selected|, x);
            InFilter(remaining, HasEdge(), x);
          } else {
            InTake(remaining, PicksPerTeam - |selected|, x);
          }
        }
        assert x in multiset(rest);
        InWithout(ranked, selected, x);
      }
    }
  }

  /** Everything the tiers select is one of the ranked candidates. */
  lemma TiersFrom(ranked: seq<Candidate>)
    ensures Within(FirstTier(ranked), ranked)
    ensures Within(Tiers(ranked), ranked)
  {
    var tier1 := FirstTier(ranked);
    forall x | x in tier1 ensures x in ranked {
      InTake(Filter(ranked, AtLeast(60.0)), PicksPerTeam, x);
      InFilter(ranked, AtLeast(60.0), x);
    }
    TierFrom(ranked, tier1, 55.0);
    TierFrom(ranked, Tier(ranked, tier1, 55.0), 50.0);
  }

  /** Everything the cascade returns is one of the ranked candidates. */
  lemma CascadeFrom(ranked: seq<Candidate>)
    ensures Within(Cascade(ranked), ranked)
  {
    TiersFrom(ranked);
    FallbackFrom(ranked, Tiers(ranked));
    var f := Fallback(ranked, Tiers(ranked));
    forall x | x in Cascade(ranked) ensures x in ranked {
      InTake(f, PicksPerTeam, x);
    }
  }

  /** Every pick is a candidate, so it carries the candidate filter's guarantees. */
  lemma PickIsCandidate(results: seq<SimResult>, game: GameData, team: string, oppTeam: string, c: Candidate)
    requires c in TeamSelection(results, game, team, oppTeam)
    ensures exists i :: (0 <= i < |results| &&
      CandidateFor(results[i], game, team, oppTeam, PaceAdjustment(game, team, oppTeam)) == Some(c))
  {
    var paceAdj := PaceAdjustment(game, team, oppTeam);
    var cs := Candidates(results, game, team, oppTeam, paceAdj);
    var ranked := SortDesc(cs, WinKey);
    CascadeFrom(ranked);
    assert c in multiset(ranked);
    CandidatesFrom(results, game, team, oppTeam, paceAdj, c);
  }

  /** A distinct selection of at most three from `ranked`. */
  predicate Chosen(selected: seq<Candidate>, ranked: seq<Candidate>) {
    Distinct(selected) && |selected| <= PicksPerTeam && Within(selected, ranked)
  }

  /** A tier keeps the selection distinct and never shrinks it. */
  lemma TierChosen(ranked: seq<Candidate>, selected: seq<Candidate>, t: real)
    requires Distinct(ranked) && Chosen(selected, ranked)
    ensures Chosen(Tier(ranked, selected, t), ranked)
  {
    TierFrom(ranked, selected, t);
    if |selected| < PicksPerTeam {
      var rest := Without(ranked, selected);
      FilterDistinct(ranked, (x: Candidate) => x !in selected);
      var pool := Filter(rest, AtLeast(t));
      FilterDistinct(rest, AtLeast(t));
      var add := Take(pool, PicksPerTeam - |selected|);
      SliceDistinct(pool, 0, |add|);
      assert add == pool[..|add|];
      forall x | x in add ensures x !in selected {
        InTake(pool, PicksPerTeam - |selected|, x);
        InFilter(rest, AtLeast(t), x);
        InWithout(ranked, selected, x);
      }
      AppendDistinct(selected, add);
    }
  }

  /** The fallback adds distinct unselected candidates. */
  lemma FallbackDistinct(ranked: seq<Candidate>, selected: seq<Candidate>)
    requires Distinct(ranked) && Distinct(selected)
    ensures Distinct(Fallback(ranked, selected))
  {
    if |selected| < PicksPerTeam {
      var rest := Without(ranked, selected);
      var remaining := SortDesc(rest, WinKey);
      var edge := Filter(remaining, HasEdge());
      var pool := if |selected| + |edge| >= PicksPerTeam then edge else remaining;
      var add := Take(pool, PicksPerTeam - |selected|);
      FilterDistinct(ranked, (x: Candidate) => x !in selected);
      PermutationDistinct(rest, remaining);
      FilterDistinct(remaining, HasEdge());
      SliceDistinct(pool, 0, |add|);
      assert add == pool[..|add|];
      forall x | x in add ensures x !in selected {
        InTake(pool, PicksPerTeam - |selected|, x);
        if pool == edge {
          InFilter(remaining, HasEdge(), x);
        }
        assert x in multiset(rest);
        InWithout(ranked, selected, x);
      }
      AppendDistinct(selected, add);
    }
  }

  /** The fallback fills the selection up to three when there are that many candidates, or takes them all. */
  lemma FallbackLength(ranked: seq<Candidate>, selected: seq<Candidate>)
    requires Distinct(ranked) && Chosen(selected, ranked)
    ensures |Fallback(ranked, selected)| == if |ranked| < PicksPerTeam then |ranked| else PicksPerTeam
  {
    if |selected| < PicksPerTeam {
      FilterDistinct(ranked, (x: Candidate) => x !in selected);
      WithoutLength(ranked, selected);
    } else {
      WithinLength(selected, ranked);
    }
  }

  /** The fallback keeps the selection a distinct choice of at most three. */
  lemma FallbackChosen(ranked: seq<Candidate>, selected: seq<Candidate>)
    requires Distinct(ranked) && Chosen(selected, ranked)
    ensures Chosen(Fallback(ranked, selected), ranked)
    ensures |Fallback(ranked, selected)| == if |ranked| < PicksPerTeam then |ranked| else PicksPerTeam
  {
    FallbackFrom(ranked, selected);
    FallbackDistinct(ranked, selected);
    FallbackLength(ranked, selected);
  }

  /**
   * At most three picks, none twice, all of them candidates; with distinct
   * results, exactly three when the team has three candidates, else all.
   */
  lemma SelectionSpec(results: seq<SimResult>, game: GameData, team: string, oppTeam: string)
    requires Distinct(results)
    ensures var paceAdj := PaceAdjustment(game, team, oppTeam);
      var cs := Candidates(results, game, team, oppTeam, paceAdj);
      var s := TeamSelection(results, game, team, oppTeam);
      && Distinct(s)
      && |s| == (if |cs| < PicksPerTeam then |cs| else PicksPerTeam)
      && Within(s, cs)
  {
    var paceAdj := PaceAdjustment(game, team, oppTeam);
    var cs := Candidates(results, game, team, oppTeam, paceAdj);
    CandidatesDistinct(results, game, team, oppTeam, paceAdj);
    var ranked := SortDesc(cs, WinKey);
    PermutationDistinct(cs, ranked);
    var pool := Filter(ranked, AtLeast(60.0));
    FilterDistinct(ranked, AtLeast(60.0));
    var tier1 := FirstTier(ranked);
    SliceDistinct(pool, 0, |tier1|);
    assert tier1 == pool[..|tier1|];
    TiersFrom(ranked);
    var t2 := Tier(ranked, tier1, 55.0);
    TierChosen(ranked, tier1, 55.0);
    TierChosen(ranked, t2, 50.0);
    FallbackChosen(ranked, Tiers(ranked));
    var f := Fallback(ranked, Tiers(ranked));
    assert Take(f, PicksPerTeam) == f;
    forall x | x in f ensures x in cs {
      assert x in multiset(ranked);
    }
  }

  // ---------------------------------------------------------------------
  // The tiers rank by win probability
  // ---------------------------------------------------------------------

  /** Ranked best first by win probability. */
  predicate RankedByWin(s: seq<Candidate>) {
    forall i, j :: 0 <= i < j < |s| ==> s[j].winProbPct <= s[i].winProbPct
  }

  /** The number of ranked candidates reaching a threshold. */
  function Reaching(ranked: seq<Candidate>, t: real): nat {
    |Filter(ranked, AtLeast(t))|
  }

  /** In a ranked list, the candidates reaching a threshold are a prefix. */
  lemma ReachingPrefix(ranked: seq<Candidate>, t: real)
    requires RankedByWin(ranked)
    ensures Filter(ranked, AtLeast(t)) == ranked[..Reaching(ranked, t)]
    ensures forall i :: 0 <= i < |ranked| ==> (ranked[i].winProbPct >= t <==> i < Reaching(ranked, t))
  {
    FilterPrefix(ranked, AtLeast(t));
    FilterPrefixIndex(ranked, AtLeast(t));
  }

  /** A higher threshold is reached by no more candidates. */
  lemma ReachingAntitone(ranked: seq<Candidate>, t: real, t': real)
    requires RankedByWin(ranked) && t <= t'
    ensures Reaching(ranked, t') <= Reaching(ranked, t)
  {
    ReachingPrefix(ranked, t);
    ReachingPrefix(ranked, t');
    var n := Reaching(ranked, t);
    if n < |ranked| {
      assert ranked[n].winProbPct < t;
    }
  }

  function Min3(n: int): int {
    if n < PicksPerTeam then n else PicksPerTeam
  }

  /**
   * Topping up the `a` likeliest candidates, all reaching `t`, from those
   * reaching `t` gives the min(3, Reaching(t)) likeliest.
   */
  lemma TierOnPrefix(ranked: seq<Candidate>, a: nat, t: real)
    requires RankedByWin(ranked) && Distinct(ranked)
    requires a <= PicksPerTeam && a <= Reaching(ranked, t)
    ensures Tier(ranked, ranked[..a], t) == ranked[..Min3(Reaching(ranked, t))]
  {
    var n := Reaching(ranked, t);
    ReachingPrefix(ranked, t);
    if a < PicksPerTeam {
      WithoutPrefix(ranked, a);
      FilterPrefixFrom(ranked, AtLeast(t), a);
      assert Filter(Without(ranked, ranked[..a]), AtLeast(t)) == ranked[a..n];
      PrefixExtend(ranked, a, n, Min3(n));
    }
  }

  /** The first three tiers pick the min(3, Reaching(50)) likeliest candidates. */
  lemma TiersArePrefix(ranked: seq<Candidate>)
    requires RankedByWin(ranked) && Distinct(ranked)
    ensures Tiers(ranked) == ranked[..Min3(Reaching(ranked, 50.0))]
  {
    ReachingPrefix(ranked, 60.0);
    ReachingAntitone(ranked, 55.0, 60.0);
    ReachingAntitone(ranked, 50.0, 55.0);
    var n60 := Reaching(ranked, 60.0);
    var n55 := Reaching(ranked, 55.0);
    assert FirstTier(ranked) == ranked[..Min3(n60)];
    TierOnPrefix(ranked, Min3(n60), 55.0);
    TierOnPrefix(ranked, Min3(n55), 50.0);
  }

  /**
   * When at least three candidates reach 50%, the selection is the three
   * likeliest candidates.
   */
  lemma CascadeTopThree(ranked: seq<Candidate>)
    requires RankedByWin(ranked) && Distinct(ranked)
    requires Reaching(ranked, 50.0) >= PicksPerTeam
    ensures Cascade(ranked) == ranked[..PicksPerTeam]
  {
    TiersArePrefix(ranked);
  }

  /** The whole selection is the top three by win probability whenever three candidates reach 50%. */
  lemma TopThreeWhenThreeReachFifty(results: seq<SimResult>, game: GameData, team: string, oppTeam: string)
    requires Distinct(results)
    requires var ranked := SortDesc(Candidates(results, game, team, oppTeam, PaceAdjustment(game, team, oppTeam)), WinKey);
      Reaching(ranked, 50.0) >= PicksPerTeam
    ensures var ranked := SortDesc(Candidates(results, game, team, oppTeam, PaceAdjustment(game, team, oppTeam)), WinKey);
      TeamSelection(results, game, team, oppTeam) == ranked[..PicksPerTeam]
  {
    var cs := Candidates(results, game, team, oppTeam, PaceAdjustment(game, team, oppTeam));
    var ranked := SortDesc(cs, WinKey);
    CandidatesDistinct(results, game, team, oppTeam, PaceAdjustment(game, team, oppTeam));
    PermutationDistinct(cs, ranked);
    assert RankedByWin(ranked) by {
      forall i, j | 0 <= i < j < |ranked| ensures ranked[j].winProbPct <= ranked[i].winProbPct {
        assert !Above(WinKey(ranked[j]), WinKey(ranked[i]));
      }
    }
    CascadeTopThree(ranked);
  }

  /** A filter keeps a ranking ranked. */
  lemma FilterRanked(s: seq<Candidate>, f: Candidate -> bool)
    requires RankedByWin(s)
    ensures RankedByWin(Filter(s, f))
  {
    var key := (c: Candidate) => c.winProbPct;
    assert NonIncreasing(s, key);
    FilterNonIncreasing(s, f, key);
    var r := Filter(s, f);
    forall i, j | 0 <= i < j < |r| ensures r[j].winProbPct <= r[i].winProbPct {
      assert key(r[j]) <= key(r[i]);
    }
  }

  /** On a ranking, what the first n leave behind is no likelier than any of them. */
  lemma TakeAhead(s: seq<Candidate>, n: int, x: Candidate, y: Candidate)
    requires RankedByWin(s) && n >= 0
    requires x in Take(s, n) && y in s && y !in Take(s, n)
    ensures y.winProbPct <= x.winProbPct
  {
    var t := Take(s, n);
    var i :| 0 <= i < |t| && t[i] == x;
    var j :| 0 <= j < |s| && s[j] == y;
    assert s[i] == x;
    assert j >= |t|;
  }

  /**
   * The fallback's order of preference: when the unselected candidates with
   * an edge of half a point are enough to fill the selection, it adds only
   * such candidates, each at least as likely as every edge candidate it
   * leaves out; otherwise it adds the likeliest unselected candidates.
   */
  lemma FallbackEdgeFirst(ranked: seq<Candidate>, selected: seq<Candidate>)
    requires |selected| < PicksPerTeam
    ensures var rest := Without(ranked, selected);
      var f := Fallback(ranked, selected);
      var added := f[|selected|..];
      && |selected| <= |f| && f[..|selected|] == selected
      && (|selected| + |Filter(rest, HasEdge())| >= PicksPerTeam ==>
            && |added| == PicksPerTeam - |selected|
            && (forall x :: x in added ==> x.edgePts >= 0.5)
            && (forall x, y :: x in added && y in rest && y.edgePts >= 0.5 && y !in added ==> y.winProbPct <= x.winProbPct))
      && (|selected| + |Filter(rest, HasEdge())| < PicksPerTeam ==>
            forall x, y :: x in added && y in rest && y !in added ==> y.winProbPct <= x.winProbPct)
  {
    var rest := Without(ranked, selected);
    var remaining := SortDesc(rest, WinKey);
    var edge := Filter(remaining, HasEdge());
    SortedRanked(rest);
    FilterPermutation(remaining, rest, HasEdge());
    if |selected| + |edge| >= PicksPerTeam {
      FallbackByEdge(ranked, selected);
    } else {
      FallbackByWin(ranked, selected);
    }
  }

  /** Sorting by win probability ranks. */
  lemma SortedRanked(s: seq<Candidate>)
    ensures RankedByWin(SortDesc(s, WinKey))
  {
    var r := SortDesc(s, WinKey);
    forall i, j | 0 <= i < j < |r| ensures r[j].winProbPct <= r[i].winProbPct {
      assert !Above(WinKey(r[j]), WinKey(r[i]));
    }
  }

  /** The fallback with enough edge candidates: the likeliest of them. */
  lemma FallbackByEdge(ranked: seq<Candidate>, selected: seq<Candidate>)
    requires |selected| < PicksPerTeam
    requires |selected| + |Filter(SortDesc(Without(ranked, selected), WinKey), HasEdge())| >= PicksPerTeam
    ensures var rest := Without(ranked, selected);
      var f := Fallback(ranked, selected);
      var added := f[|selected|..];
      && |selected| <= |f| && f[..|selected|] == selected
      && |added| == PicksPerTeam - |selected|
      && (forall x :: x in added ==> x.edgePts >= 0.5)
      && (forall x, y :: x in added && y in rest && y.edgePts >= 0.5 && y !in added ==> y.winProbPct <= x.winProbPct)
  {
    var rest := Without(ranked, selected);
    var remaining := SortDesc(rest, WinKey);
    var edge := Filter(remaining, HasEdge());
    var k := PicksPerTeam - |selected|;
    var f := Fallback(ranked, selected);
    assert f == selected + Take(edge, k);
    var added := Take(edge, k);
    assert f[|selected|..] == added;
    SortedRanked(rest);
    FilterRanked(remaining, HasEdge());
    forall x | x in added ensures x.edgePts >= 0.5 {
      InTake(edge, k, x);
      InFilter(remaining, HasEdge(), x);
    }
    forall x, y | x in added && y in rest && y.edgePts >= 0.5 && y !in added
      ensures y.winProbPct <= x.winProbPct
    {
      assert y in multiset(remaining);
      FilterKeeps(remaining, HasEdge(), y);
      TakeAhead(edge, k, x, y);
    }
  }

  /** The fallback without enough edge candidates: the likeliest unselected ones. */
  lemma FallbackByWin(ranked: seq<Candidate>, selected: seq<Candidate>)
    requires |selected| < PicksPerTeam
    requires |selected| + |Filter(SortDesc(Without(ranked, selected), WinKey), HasEdge())| < PicksPerTeam
    ensures var rest := Without(ranked, selected);
      var f := Fallback(ranked, selected);
      var added := f[|selected|..];
      && |selected| <= |f| && f[..|selected|] == selected
      && forall x, y :: x in added && y in rest && y !in added ==> y.winProbPct <= x.winProbPct
  {
    var rest := Without(ranked, selected);
    var remaining := SortDesc(rest, WinKey);
    var k := PicksPerTeam - |selected|;
    var f := Fallback(ranked, selected);
    assert f == selected + Take(remaining, k);
    var added := Take(remaining, k);
    assert f[|selected|..] == added;
    SortedRanked(rest);
    forall x, y | x in added && y in rest && y !in added
      ensures y.winProbPct <= x.winProbPct
    {
      assert y in multiset(remaining);
      TakeAhead(remaining, k, x, y);
    }
  }

  // ---------------------------------------------------------------------
  // Formatting a pick
  // ---------------------------------------------------------------------

  /** The selection tier of a formatted pick, from its win probability. */
  function SelectionTier(winProb: real): (tier: int)
    ensures 1 <= tier <= 4
    ensures tier == 1 <==> winProb >= 60.0
    ensures tier == 2 <==> 55.0 <= winProb < 60.0
    ensures tier == 3 <==> 50.0 <= winProb < 55.0
    ensures tier == 4 <==> winProb < 50.0
  {
    if winProb >= 60.0 then 1 else if winProb >= 55.0 then 2 else if winProb >= 50.0 then 3 else 4
  }

  /** The flag that goes with a tier: a warning for the relaxed and fallback tiers only. */
  function SelectionFlag(tier: int): (r: Option<string>)
    ensures r == Some(RelaxedFlag) <==> tier == 3
    ensures r == Some(FallbackFlag) <==> tier == 4
    ensures r.None? <==> tier != 3 && tier != 4
  {
    if tier == 3 then Some(RelaxedFlag)
    else if tier == 4 then Some(FallbackFlag)
    else None
  }

  /** The confidence: 0.8 times the win probability plus 40, rounded, kept within [50, 95]. */
  function Confidence(winProb: real): (r: int)
    ensures 50 <= r <= 95
  {
    Arith.CapInt(Arith.RoundHalfEven(winProb * 0.8 + 40.0), 50, 95)
  }

  /** A likelier pick never gets a lower confidence; 12.5% and below give 50, 69.4% and above 95. */
  lemma ConfidenceMonotone(w: real, w': real)
    requires w <= w'
    ensures Confidence(w) <= Confidence(w')
    ensures w <= 12.5 ==> Confidence(w) == 50
    ensures w' >= 69.4 ==> Confidence(w') == 95
  {
    var x := w * 0.8 + 40.0;
    var y := w' * 0.8 + 40.0;
    var rx := Arith.RoundHalfEven(x);
    var ry := Arith.RoundHalfEven(y);
    if rx > ry {
      assert false;
    }
  }

  /** The tier, flag and confidence of `format_pick`. */
  datatype Formatted = Formatted(player: string, line: real, winProbPct: real, edgePts: real,
                                 confidence: int, tier: int, flag: Option<string>)

  function FormatPick(c: Candidate): (f: Formatted)
    ensures f.tier == SelectionTier(c.winProbPct) && f.confidence == Confidence(c.winProbPct)
    ensures f.player == c.player && f.line == c.line && f.winProbPct == c.winProbPct && f.edgePts == c.edgePts
    ensures f.flag.None? <==> c.winProbPct >= 55.0
    ensures f.flag == Some(RelaxedFlag) <==> 50.0 <= c.winProbPct < 55.0
    ensures f.flag == Some(FallbackFlag) <==> c.winProbPct < 50.0
  {
    var tier := SelectionTier(c.winProbPct);
    Formatted(c.player, c.line, c.winProbPct, c.edgePts, Confidence(c.winProbPct), tier, SelectionFlag(tier))
  }

  /** When three candidates reach 60%, every formatted pick is tier 1 without a flag. */
  lemma StrongSlateAllTierOne(ranked: seq<Candidate>, i: int)
    requires RankedByWin(ranked) && Distinct(ranked)
    requires Reaching(ranked, 60.0) >= PicksPerTeam
    requires 0 <= i < |Cascade(ranked)|
    ensures FormatPick(Cascade(ranked)[i]).tier == 1 && FormatPick(Cascade(ranked)[i]).flag.None?
  {
    ReachingPrefix(ranked, 60.0);
    ReachingAntitone(ranked, 50.0, 60.0);
    CascadeTopThree(ranked);
    assert Cascade(ranked)[i] == ranked[i];
  }
}
