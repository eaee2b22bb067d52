// The ten-leg parlay optimizer: the matchup difficulty label and the safety
// score of a leg, the evaluation of one player's stat into a candidate leg
// (the over/under choice against the simulated 10th and 90th percentiles),
// and the greedy selection of legs under the one-leg-per-player and
// per-game caps.
module ParlayOptimizerV3 {
  import opened Wrappers
  import opened Sorting

  /** The floor must clear the line by this much for an over. */
  const OverBuffer: real := 0.0
  /** The ceiling must stay this far below the line for an under. */
  const UnderBuffer: real := 0.0
  const MaxLegs: int := 10
  const MaxPlayersPerGame: int := 1
  const StatTypes: seq<string> := ["pts", "reb", "ast", "fg3m", "pra"]

  // ---------------------------------------------------------------------
  // Matchup difficulty and safety score
  // ---------------------------------------------------------------------

  /** Points for the win probability (a percentage). */
  function WinProbPoints(winProb: real): int {
    if winProb >= 65.0 then 2
    else if winProb >= 55.0 then 1
    else if winProb < 45.0 then -2
    else 0
  }

  /** Points for the distance of the floor from the line. */
  function MarginPoints(floorMargin: real): int {
    if floorMargin >= 2.0 then 2
    else if floorMargin >= 1.0 then 1
    else if floorMargin < 0.0 then -2
    else 0
  }

  /** A penalty point for a likely blowout. */
  function BlowoutPoints(blowoutRisk: real): int {
    if blowoutRisk > 0.4 then -1 else 0
  }

  /** The integer score that `compute_matchup_difficulty` accumulates. */
  function DifficultyScore(winProb: real, floorMargin: real, blowoutRisk: real): (score: int)
    ensures -5 <= score <= 4
  {
    WinProbPoints(winProb) + MarginPoints(floorMargin) + BlowoutPoints(blowoutRisk)
  }

  /** The label of a score: EASY from 3 up, HARD from -1 down, NEUTRAL between. */
  function Label(score: int): (r: string)
    ensures r == "EASY" <==> score >= 3
    ensures r == "HARD" <==> score <= -1
    ensures r == "NEUTRAL" <==> 0 <= score <= 2
  {
    if score >= 3 then "EASY"
    else if score <= -1 then "HARD"
    else "NEUTRAL"
  }

  /** `compute_matchup_difficulty`. */
  function MatchupDifficulty(winProb: real, floorMargin: real, blowoutRisk: real): (r: string)
    ensures r in {"EASY", "NEUTRAL", "HARD"}
  {
    Label(DifficultyScore(winProb, floorMargin, blowoutRisk))
  }

  /** How hard a label says a matchup is: EASY 0, NEUTRAL 1, HARD 2. */
  function Hardness(difficulty: string): nat {
    if difficulty == "EASY" then 0 else if difficulty == "NEUTRAL" then 1 else 2
  }

  /**
   * A higher win probability, a wider floor margin or a lower blowout risk
   * never makes a matchup harder.
   */
  lemma DifficultyMonotone(w: real, w': real, m: real, m': real, b: real, b': real)
    requires w <= w' && m <= m' && b' <= b
    ensures Hardness(MatchupDifficulty(w', m', b')) <= Hardness(MatchupDifficulty(w, m, b))
  {
    assert WinProbPoints(w) <= WinProbPoints(w');
    assert MarginPoints(m) <= MarginPoints(m');
    assert BlowoutPoints(b) <= BlowoutPoints(b');
  }

  /** A sure thing with a comfortable floor is EASY even in a likely blowout. */
  lemma EasyDespiteBlowout(winProb: real, floorMargin: real, blowoutRisk: real)
    requires winProb >= 65.0 && floorMargin >= 2.0
    ensures MatchupDifficulty(winProb, floorMargin, blowoutRisk) == "EASY"
  {
  }

  /** A leg under 45% whose floor misses the line is HARD whatever the blowout risk. */
  lemma HardWhenBothFail(winProb: real, floorMargin: real, blowoutRisk: real)
    requires winProb < 45.0 && floorMargin < 0.0
    ensures MatchupDifficulty(winProb, floorMargin, blowoutRisk) == "HARD"
  {
  }

  /** `compute_safety_score`: the win probability, plus twice the margin, less eight times the blowout risk. */
  function SafetyScore(floorMargin: real, winProb: real, blowoutRisk: real): real {
    winProb + floorMargin * 2.0 - blowoutRisk * 8.0
  }

  /**
   * The score grows with the win probability and the margin and falls with
   * the blowout risk; a point of margin is worth two points of probability.
   */
  lemma SafetyScoreMonotone(m: real, m': real, w: real, w': real, b: real, b': real)
    requires m <= m' && w <= w' && b' <= b
    ensures SafetyScore(m, w, b) <= SafetyScore(m', w', b')
    ensures (m < m' || w < w' || b' < b) ==> SafetyScore(m, w, b) < SafetyScore(m', w', b')
    ensures SafetyScore(m + 1.0, w, b) == SafetyScore(m, w + 2.0, b)
  {
  }

  // ---------------------------------------------------------------------
  // Evaluating one leg
  // ---------------------------------------------------------------------

  datatype Side = Over | Under

  /** The side taken, its win probability and its margin against the buffered line. */
  datatype Choice = Choice(side: Side, winProb: real, floorMargin: real)

  /** The over is valid when the 10th percentile clears the buffered line. */
  predicate OverValid(line: real, p10: real) {
    p10 - (line + OverBuffer) > 0.0
  }

  /** The under is valid when the 90th percentile stays below the buffered line. */
  predicate UnderValid(line: real, p90: real) {
    (line - UnderBuffer) - p90 > 0.0
  }

  function OverChoice(line: real, p10: real, overProb: real): Choice {
    Choice(Over, overProb, p10 - (line + OverBuffer))
  }

  function UnderChoice(line: real, p90: real, underProb: real): Choice {
    Choice(Under, underProb, (line - UnderBuffer) - p90)
  }

  /**
   * The over/under decision of `evaluate_leg`: a side whose percentile
   * clears the buffered line, the likelier one (the over on a tie) when
   * both do; when neither does, the likelier side if either probability
   * reaches 55, and no leg otherwise.
   */
  function ChooseSide(line: real, p10: real, p90: real, overProb: real, underProb: real): (r: Option<Choice>)
    ensures r.None? <==> (!OverValid(line, p10) && !UnderValid(line, p90) && overProb < 55.0 && underProb < 55.0)
    ensures r.Some? ==> r.value == OverChoice(line, p10, overProb) || r.value == UnderChoice(line, p90, underProb)
  {
    var over := OverChoice(line, p10, overProb);
    var under := UnderChoice(line, p90, underProb);
    if OverValid(line, p10) && UnderValid(line, p90) then
      Some(if overProb >= underProb then over else under)
    else if OverValid(line, p10) then Some(over)
    else if UnderValid(line, p90) then Some(under)
    else if overProb >= 55.0 || underProb >= 55.0 then
      Some(if overProb >= underProb then over else under)
    else None
  }

  /**
   * With both buffers zero, the over is valid exactly when the floor is
   * above the line and the under exactly when the ceiling is below it.
   */
  lemma ZeroBuffers(line: real, p10: real, p90: real)
    ensures OverValid(line, p10) <==> p10 > line
    ensures UnderValid(line, p90) <==> p90 < line
  {
  }

  /**
   * A valid side is always preferred to an invalid one, and the chosen leg
   * either clears its buffered line or has at least a 55% win probability.
   */
  lemma ChooseSideSafe(line: real, p10: real, p90: real, overProb: real, underProb: real)
    requires ChooseSide(line, p10, p90, overProb, underProb).Some?
    ensures var c := ChooseSide(line, p10, p90, overProb, underProb).value;
      (OverValid(line, p10) || UnderValid(line, p90)) ==> c.floorMargin > 0.0
    ensures var c := ChooseSide(line, p10, p90, overProb, underProb).value;
      c.floorMargin > 0.0 || c.winProb >= 55.0
  {
  }

  /**
   * When both sides or neither are valid, the choice takes the larger of
   * the two probabilities, the over on a tie.
   */
  lemma ChooseSideLikelier(line: real, p10: real, p90: real, overProb: real, underProb: real)
    requires OverValid(line, p10) == UnderValid(line, p90)
    requires ChooseSide(line, p10, p90, overProb, underProb).Some?
    ensures var c := ChooseSide(line, p10, p90, overProb, underProb).value;
      c.winProb >= overProb && c.winProb >= underProb && (c.side == Over <==> overProb >= underProb)
  {
  }

  /** The simulated summary of one stat; a missing number reads as 0. */
  datatype StatSim = StatSim(line: real, p10: real, p90: real, overProb: real, underProb: real)

  /** One player's simulation result. */
  datatype PlayerResult = PlayerResult(
    playerName: string,
    playerId: int,
    team: string,
    gameId: int,
    opponent: string,
    blowoutRisk: real,
    contextNotes: seq<string>,
    stats: map<string, StatSim>)

  /** `CandidateLeg`: a leg before the final selection. */
  datatype CandidateLeg = CandidateLeg(
    player: string,
    playerId: int,
    team: string,
    statType: string,
    side: Side,
    line: real,
    winProbPct: real,
    floor10th: real,
    ceiling90th: real,
    floorMargin: real,
    safetyScore: real,
    matchupDifficulty: string,
    gameId: int,
    opponent: string,
    blowoutRisk: real,
    contextNotes: seq<string>)

  /**
   * `evaluate_leg`: the candidate leg for one stat of one player. It is
   * skipped exactly when the stat is missing, its line is not positive, or
   * no side qualifies; otherwise it carries the player's fields, the stat's
   * line and percentiles, the chosen side, and the score and label computed
   * from that side.
   */
  function EvaluateLeg(pr: PlayerResult, statType: string): (r: Option<CandidateLeg>)
    ensures r.None? <==>
      (statType !in pr.stats || pr.stats[statType].line <= 0.0 ||
       ChooseSide(pr.stats[statType].line, pr.stats[statType].p10, pr.stats[statType].p90,
                  pr.stats[statType].overProb, pr.stats[statType].underProb).None?)
    ensures r.Some? ==> LegOf(r.value, pr, statType)
  {
    if statType !in pr.stats then None
    else
      var s := pr.stats[statType];
      if s.line <= 0.0 then None
      else
        match ChooseSide(s.line, s.p10, s.p90, s.overProb, s.underProb)
        case None => None
        case Some(c) =>
          Some(CandidateLeg(
            pr.playerName, pr.playerId, pr.team, statType, c.side, s.line, c.winProb,
            s.p10, s.p90, c.floorMargin,
            SafetyScore(c.floorMargin, c.winProb, pr.blowoutRisk),
            MatchupDifficulty(c.winProb, c.floorMargin, pr.blowoutRisk),
            pr.gameId, pr.opponent, pr.blowoutRisk, pr.contextNotes))
  }

  /** `c` is the leg `evaluate_leg` builds for this stat of this player. */
  predicate LegOf(c: CandidateLeg, pr: PlayerResult, statType: string) {
    && statType in pr.stats
    && var s := pr.stats[statType];
    && var choice := ChooseSide(s.line, s.p10, s.p90, s.overProb, s.underProb);
    && choice.Some?
    && c.player == pr.playerName && c.playerId == pr.playerId && c.team == pr.team
    && c.gameId == pr.gameId && c.opponent == pr.opponent
    && c.blowoutRisk == pr.blowoutRisk && c.contextNotes == pr.contextNotes
    && c.statType == statType && c.line == s.line && c.line > 0.0
    && c.floor10th == s.p10 && c.ceiling90th == s.p90
    && c.side == choice.value.side && c.winProbPct == choice.value.winProb
    && c.floorMargin == choice.value.floorMargin
    && c.safetyScore == SafetyScore(c.floorMargin, c.winProbPct, c.blowoutRisk)
    && c.matchupDifficulty == MatchupDifficulty(c.winProbPct, c.floorMargin, c.blowoutRisk)
  }

  // ---------------------------------------------------------------------
  // Selecting the parlay
  // ---------------------------------------------------------------------

  /** `ParlayLeg`: a selected leg, the candidate without its score and blowout risk. */
  datatype ParlayLeg = ParlayLeg(
    player: string,
    playerId: int,
    team: string,
    statType: string,
    side: Side,
    line: real,
    winProbPct: real,
    floor10th: real,
    ceiling90th: real,
    floorMargin: real,
    matchupDifficulty: string,
    gameId: int,
    opponent: string,
    contextNotes: seq<string>)

  function ToLeg(c: CandidateLeg): ParlayLeg {
    ParlayLeg(c.player, c.playerId, c.team, c.statType, c.side, c.line, c.winProbPct,
              c.floor10th, c.ceiling90th, c.floorMargin, c.matchupDifficulty, c.gameId,
              c.opponent, c.contextNotes)
  }

  function Legs(cs: seq<CandidateLeg>): (r: seq<ParlayLeg>)
    ensures |r| == |cs|
    decreases |cs|
  {
    if cs == [] then [] else Legs(cs[..|cs| - 1]) + [ToLeg(cs[|cs| - 1])]
  }

  lemma {:induction false} LegsAt(cs: seq<CandidateLeg>, i: int)
    requires 0 <= i < |cs|
    ensures Legs(cs)[i] == ToLeg(cs[i])
    decreases |cs|
  {
    if i < |cs| - 1 {
      LegsAt(cs[..|cs| - 1], i);
    }
  }

  /** The ranking key: win probability first, then safety score. */
  function RankKey(c: CandidateLeg): Key {
    Key(c.winProbPct, c.safetyScore)
  }

  /** Some leg of `s` is for this player. */
  predicate UsesPlayer(s: seq<CandidateLeg>, playerId: int)
    decreases |s|
  {
    s != [] && (s[|s| - 1].playerId == playerId || UsesPlayer(s[..|s| - 1], playerId))
  }

  /** The number of legs of `s` in this game. */
  function GameCount(s: seq<CandidateLeg>, gameId: int): (n: nat)
    ensures n <= |s|
    decreases |s|
  {
    if s == [] then 0
    else GameCount(s[..|s| - 1], gameId) + (if s[|s| - 1].gameId == gameId then 1 else 0)
  }

  /** A candidate the loop skips: the parlay is full, the player is taken or the game is at its cap. */
  predicate Blocked(s: seq<CandidateLeg>, c: CandidateLeg, maxLegs: int, maxPerGame: int) {
    |s| >= maxLegs || UsesPlayer(s, c.playerId) || GameCount(s, c.gameId) >= maxPerGame
  }

  /** The candidates the greedy loop keeps, walking `cs` in order. */
  function Pick(cs: seq<CandidateLeg>, maxLegs: int, maxPerGame: int): seq<CandidateLeg>
    decreases |cs|
  {
    if cs == [] then []
    else
      var s := Pick(cs[..|cs| - 1], maxLegs, maxPerGame);
      if Blocked(s, cs[|cs| - 1], maxLegs, maxPerGame) then s else s + [cs[|cs| - 1]]
  }

  /** `select_optimal_parlay`: the legs chosen from the candidates ranked best first. */
  method SelectOptimalParlay(candidates: seq<CandidateLeg>, maxLegs: int, maxPerGame: int)
    returns (selected: seq<ParlayLeg>)
    ensures selected == Legs(Pick(SortDesc(candidates, RankKey), maxLegs, maxPerGame))
  {
    var sorted := SortDesc(candidates, RankKey);
    selected := [];
    var usedPlayers: set<int> := {};
    var gameCounts: map<int, int> := map[];
    ghost var picked: seq<CandidateLeg> := [];
    var i := 0;
    while i < |sorted|
      invariant 0 <= i <= |sorted|
      invariant picked == Pick(sorted[..i], maxLegs, maxPerGame)
      invariant selected == Legs(picked)
      invariant forall p :: p in usedPlayers <==> UsesPlayer(picked, p)
      invariant forall g :: g in gameCounts ==> gameCounts[g] == GameCount(picked, g)
      invariant forall g :: g !in gameCounts ==> GameCount(picked, g) == 0
    {
      var c := sorted[i];
      if |selected| >= maxLegs {
        PickFull(sorted, i, maxLegs, maxPerGame);
        return;
      }
      var count := if c.gameId in gameCounts then gameCounts[c.gameId] else 0;
      PickStep(sorted, i, maxLegs, maxPerGame);
      if c.playerId in usedPlayers || count >= maxPerGame {
        i := i + 1;
        continue;
      }
      ghost var next := picked + [c];
      var players := usedPlayers + {c.playerId};
      var counts := gameCounts[c.gameId := count + 1];
      forall p ensures p in players <==> UsesPlayer(next, p) {
        SnocPlayer(picked, c, p);
      }
      forall g | g in counts ensures counts[g] == GameCount(next, g) {
        SnocGame(picked, c, g);
      }
      forall g | g !in counts ensures GameCount(next, g) == 0 {
        SnocGame(picked, c, g);
      }
      SnocLegs(picked, c);
      selected := selected + [ToLeg(c)];
      usedPlayers := players;
      gameCounts := counts;
      picked := next;
      i := i + 1;
    }
    assert sorted[..i] == sorted;
  }

  /** One more candidate walked: it is appended unless it is blocked. */
  lemma PickStep(cs: seq<CandidateLeg>, i: nat, maxLegs: int, maxPerGame: int)
    requires i < |cs|
    ensures var s := Pick(cs[..i], maxLegs, maxPerGame);
      Pick(cs[..i + 1], maxLegs, maxPerGame) == if Blocked(s, cs[i], maxLegs, maxPerGame) then s else s + [cs[i]]
  {
    assert cs[..i + 1][..i] == cs[..i];
    assert cs[..i + 1][i] == cs[i];
  }

  lemma SnocPlayer(s: seq<CandidateLeg>, c: CandidateLeg, p: int)
    ensures UsesPlayer(s + [c], p) <==> (UsesPlayer(s, p) || c.playerId == p)
  {
    assert (s + [c])[..|s|] == s;
  }

  lemma SnocGame(s: seq<CandidateLeg>, c: CandidateLeg, g: int)
    ensures GameCount(s + [c], g) == GameCount(s, g) + (if c.gameId == g then 1 else 0)
  {
    assert (s + [c])[..|s|] == s;
  }

  lemma SnocLegs(s: seq<CandidateLeg>, c: CandidateLeg)
    ensures Legs(s + [c]) == Legs(s) + [ToLeg(c)]
  {
    assert (s + [c])[..|s|] == s;
  }

  /** Once the parlay is full, the rest of the candidates add nothing. */
  lemma {:induction false} PickFull(cs: seq<CandidateLeg>, i: nat, maxLegs: int, maxPerGame: int)
    requires i <= |cs| && |Pick(cs[..i], maxLegs, maxPerGame)| >= maxLegs
    ensures Pick(cs, maxLegs, maxPerGame) == Pick(cs[..i], maxLegs, maxPerGame)
    decreases |cs| - i
  {
    if i == |cs| {
      assert cs[..i] == cs;
    } else {
      var c := cs[i];
      assert cs[..i + 1][..i] == cs[..i];
      assert cs[..i + 1][i] == c;
      assert Pick(cs[..i + 1], maxLegs, maxPerGame) == Pick(cs[..i], maxLegs, maxPerGame);
      PickFull(cs, i + 1, maxLegs, maxPerGame);
    }
  }

  // ---------------------------------------------------------------------
  // What the selection promises
  // ---------------------------------------------------------------------

  /** No player has two legs. */
  predicate DistinctPlayers(s: seq<CandidateLeg>) {
    forall i, j :: 0 <= i < j < |s| ==> s[i].playerId != s[j].playerId
  }

  /** `UsesPlayer` means some leg is for the player. */
  lemma {:induction false} UsesPlayerSpec(s: seq<CandidateLeg>, playerId: int)
    ensures UsesPlayer(s, playerId) <==> exists i :: 0 <= i < |s| && s[i].playerId == playerId
    decreases |s|
  {
    if s != [] {
      var init := s[..|s| - 1];
      UsesPlayerSpec(init, playerId);
      if UsesPlayer(init, playerId) {
        var i :| 0 <= i < |init| && init[i].playerId == playerId;
        assert s[i] == init[i];
      }
      if exists i :: 0 <= i < |s| && s[i].playerId == playerId {
        var i :| 0 <= i < |s| && s[i].playerId == playerId;
        if i < |init| {
          assert init[i] == s[i];
        }
      }
    }
  }

  /**
   * The selection has at most `maxLegs` legs (none when `maxLegs` is not
   * positive), no player twice, and at most `maxPerGame` legs from any game.
   */
  lemma {:induction false} PickRespectsCaps(cs: seq<CandidateLeg>, maxLegs: int, maxPerGame: int, gameId: int)
    ensures var s := Pick(cs, maxLegs, maxPerGame);
      (maxLegs <= 0 ==> s == []) && (maxLegs > 0 ==> |s| <= maxLegs)
    ensures DistinctPlayers(Pick(cs, maxLegs, maxPerGame))
    ensures var n := GameCount(Pick(cs, maxLegs, maxPerGame), gameId);
      n == 0 || n <= maxPerGame
    decreases |cs|
  {
    if cs != [] {
      var init := cs[..|cs| - 1];
      var c := cs[|cs| - 1];
      var s := Pick(init, maxLegs, maxPerGame);
      PickRespectsCaps(init, maxLegs, maxPerGame, gameId);
      if !Blocked(s, c, maxLegs, maxPerGame) {
        var r := s + [c];
        assert r[..|s|] == s;
        assert GameCount(r, gameId) == GameCount(s, gameId) + (if c.gameId == gameId then 1 else 0);
        UsesPlayerSpec(s, c.playerId);
        forall i, j | 0 <= i < j < |r| ensures r[i].playerId != r[j].playerId {
          assert r[i] == s[i];
          if j < |s| {
            assert r[j] == s[j];
          }
        }
      }
    }
  }

  /** `a` is `b` with some elements left out, in order. */
  predicate Subseq<T(==)>(a: seq<T>, b: seq<T>)
    decreases |b|
  {
    if a == [] then true
    else if b == [] then false
    else Subseq(a, b[..|b| - 1]) || (a[|a| - 1] == b[|b| - 1] && Subseq(a[..|a| - 1], b[..|b| - 1]))
  }

  /** The selection is a subsequence of the candidates it walked. */
  lemma {:induction false} PickSubseq(cs: seq<CandidateLeg>, maxLegs: int, maxPerGame: int)
    ensures Subseq(Pick(cs, maxLegs, maxPerGame), cs)
    decreases |cs|
  {
    if cs != [] {
      var init := cs[..|cs| - 1];
      var s := Pick(init, maxLegs, maxPerGame);
      PickSubseq(init, maxLegs, maxPerGame);
      if !Blocked(s, cs[|cs| - 1], maxLegs, maxPerGame) {
        var r := s + [cs[|cs| - 1]];
        assert r[..|r| - 1] == s;
      }
    }
  }

  /** Every element of a subsequence is an element of the whole. */
  lemma {:induction false} SubseqIn<T>(a: seq<T>, b: seq<T>, x: T)
    requires Subseq(a, b) && x in a
    ensures x in b
    decreases |b|
  {
    var bi := b[..|b| - 1];
    if Subseq(a, bi) {
      SubseqIn(a, bi, x);
    } else if x == a[|a| - 1] {
    } else {
      var ai := a[..|a| - 1];
      assert a == ai + [a[|a| - 1]];
      SubseqIn(ai, bi, x);
    }
    assert bi <= b;
  }

  /** A subsequence of a sequence sorted best first is sorted best first. */
  lemma {:induction false} SubseqSorted<T>(a: seq<T>, b: seq<T>, key: T -> Key)
    requires Subseq(a, b) && SortedDesc(b, key)
    ensures SortedDesc(a, key)
    decreases |b|
  {
    if a != [] {
      var bi := b[..|b| - 1];
      assert SortedDesc(bi, key);
      if Subseq(a, bi) {
        SubseqSorted(a, bi, key);
      } else {
        var ai := a[..|a| - 1];
        SubseqSorted(ai, bi, key);
        forall i, j | 0 <= i < j < |a| ensures !Above(key(a[j]), key(a[i])) {
          assert a[i] == ai[i];
          if j < |ai| {
            assert a[j] == ai[j];
          } else {
            SubseqIn(ai, bi, ai[i]);
            var k :| 0 <= k < |bi| && bi[k] == ai[i];
            assert b[k] == ai[i] && b[|b| - 1] == a[j];
          }
        }
      }
    }
  }

  /** A blocked candidate stays blocked as the selection grows by one leg. */
  lemma BlockedGrows(s: seq<CandidateLeg>, c: CandidateLeg, d: CandidateLeg, maxLegs: int, maxPerGame: int)
    requires Blocked(s, d, maxLegs, maxPerGame)
    ensures Blocked(s + [c], d, maxLegs, maxPerGame)
  {
    var r := s + [c];
    assert r[..|s|] == s;
  }

  /**
   * Greedy maximality: every candidate left out is blocked by the final
   * selection, because the parlay is full, its player already has a leg,
   * or its game is at the cap.
   */
  lemma {:induction false} PickMaximal(cs: seq<CandidateLeg>, maxLegs: int, maxPerGame: int, c: CandidateLeg)
    requires c in cs && c !in Pick(cs, maxLegs, maxPerGame)
    ensures Blocked(Pick(cs, maxLegs, maxPerGame), c, maxLegs, maxPerGame)
    decreases |cs|
  {
    var init := cs[..|cs| - 1];
    var last := cs[|cs| - 1];
    var s := Pick(init, maxLegs, maxPerGame);
    var r := Pick(cs, maxLegs, maxPerGame);
    if c != last {
      assert c in init by {
        var k :| 0 <= k < |cs| && cs[k] == c;
        assert init[k] == c;
      }
      if r == s {
        PickMaximal(init, maxLegs, maxPerGame, c);
      } else {
        assert r == s + [last];
        assert c !in s;
        PickMaximal(init, maxLegs, maxPerGame, c);
        BlockedGrows(s, last, c, maxLegs, maxPerGame);
      }
    }
  }

  /**
   * The parlay, in terms of the candidates: legs copied unchanged from a
   * subsequence of the ranked candidates, best first, within the caps, and
   * no candidate left out that could still have been added.
   */
  lemma SelectionSpec(candidates: seq<CandidateLeg>, maxLegs: int, maxPerGame: int, gameId: int)
    ensures var ranked := SortDesc(candidates, RankKey);
      var p := Pick(ranked, maxLegs, maxPerGame);
      && Subseq(p, ranked)
      && SortedDesc(p, RankKey)
      && DistinctPlayers(p)
      && (maxLegs > 0 ==> |p| <= maxLegs) && (maxLegs <= 0 ==> p == [])
      && (GameCount(p, gameId) == 0 || GameCount(p, gameId) <= maxPerGame)
      && (forall c :: c in candidates && c !in p ==> Blocked(p, c, maxLegs, maxPerGame))
  {
    var ranked := SortDesc(candidates, RankKey);
    var p := Pick(ranked, maxLegs, maxPerGame);
    PickSubseq(ranked, maxLegs, maxPerGame);
    SubseqSorted(p, ranked, RankKey);
    PickRespectsCaps(ranked, maxLegs, maxPerGame, gameId);
    forall c | c in candidates && c !in p ensures Blocked(p, c, maxLegs, maxPerGame) {
      assert c in multiset(candidates);
      assert c in ranked;
      PickMaximal(ranked, maxLegs, maxPerGame, c);
    }
  }
}
