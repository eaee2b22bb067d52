// The pure parts of archive/fetch_live_lines_v3.py: the odds conversion and
// line quality, the filter that turns raw props of one game into player
// props, and the slate merge that keeps each player's fairest line per stat,
// derives PRA and keeps the likely starters. The HTTP requests are
// parameters: each game's raw props, or None when its request failed.
module FetchLiveLinesV3 {
  import opened Wrappers
  import opened Text
  import Arith
  import SimulationEngineV3
  import Lists

  /** `STAT_TYPE_MAP`: a lower-cased prop type to the stat key it is stored under. */
  function StatTypeOf(propType: string): (r: Option<string>)
    ensures r.Some? ==> r.value in {"pts", "reb", "ast", "fg3m", "pra"}
  {
    if propType == "points" || propType == "pts" then Some("pts")
    else if propType == "rebounds" || propType == "reb" then Some("reb")
    else if propType == "assists" || propType == "ast" then Some("ast")
    else if propType == "threes" || propType == "three_pointers_made" || propType == "fg3m" then Some("fg3m")
    else if propType == "points_rebounds_assists" || propType == "pra" then Some("pra")
    else None
  }

  /** `ALL_PROP_TYPES`, requested when the caller names none. */
  const AllPropTypes: seq<string> := ["points", "rebounds", "assists", "threes"]

  /** The pts line a player needs to count as a likely starter. */
  const StarterPtsLine: real := 10.5

  /** The quality of a line with an odds side missing: worse than any complete line. */
  const MissingQuality: real := 10.0

  // ---------------------------------------------------------------------
  // Odds and line quality
  // ---------------------------------------------------------------------

  /**
   * `_odds_to_implied` on odds that already went through `int()`: None
   * stands for missing odds and for odds `int()` refused.
   */
  function OddsToImplied(odds: Option<int>): (r: Option<real>)
    ensures r.None? <==> odds.None?
    ensures r.Some? ==> 0.0 <= r.value < 1.0
  {
    if odds.None? then None else Some(SimulationEngineV3.OddsToImplied(odds.value))
  }

  /** `_line_quality`: how far both sides are from an even 50/50 price; lower is fairer. */
  function LineQuality(overOdds: Option<int>, underOdds: Option<int>): (r: real)
    ensures overOdds.None? || underOdds.None? ==> r == MissingQuality
    ensures overOdds.Some? && underOdds.Some? ==> 0.0 <= r <= 1.0
  {
    var overImp := OddsToImplied(overOdds);
    var underImp := OddsToImplied(underOdds);
    if overImp.None? || underImp.None? then MissingQuality
    else Arith.Abs(overImp.value - 0.5) + Arith.Abs(underImp.value - 0.5)
  }

  /** An even-money pair of sides is a perfectly fair line, and no line is fairer. */
  lemma EvenMoneyIsFairest(overOdds: Option<int>, underOdds: Option<int>)
    ensures LineQuality(Some(-100), Some(100)) == 0.0
    ensures LineQuality(Some(100), Some(-100)) == 0.0
    ensures 0.0 <= LineQuality(overOdds, underOdds)
  {
  }

  /** A line priced on both sides always beats one with a side missing. */
  lemma CompleteBeatsMissing(o: int, u: int, overOdds: Option<int>, underOdds: Option<int>)
    requires overOdds.None? || underOdds.None?
    ensures LineQuality(Some(o), Some(u)) < LineQuality(overOdds, underOdds)
  {
  }

  // ---------------------------------------------------------------------
  // Props of one game
  // ---------------------------------------------------------------------

  /**
   * One element of the props response, with Python's conversions done:
   * the prop and market types as strings, `int(player_id or 0)`, the name
   * and team after the fallbacks to the embedded player object (stripped,
   * upper-cased), `float(line_value)` (None when missing or not a number)
   * and `int()` of each odds side (None when missing or not an integer).
   */
  datatype RawProp = RawProp(
    propType: string,
    marketType: string,
    playerId: int,
    playerName: string,
    teamAbbr: string,
    lineValue: Option<real>,
    overOdds: Option<int>,
    underOdds: Option<int>)

  /** The game a request was for. */
  datatype GameInfo = GameInfo(gameId: int, homeAbbr: string, awayAbbr: string)

  /** `PlayerProp`. */
  datatype PlayerProp = PlayerProp(
    playerId: int,
    playerName: string,
    teamAbbr: string,
    propType: string,
    line: real,
    gameId: int,
    opponent: string,
    overOdds: Option<int>,
    underOdds: Option<int>)

  /** A prop survives the filter: a requested and known type, an over/under market, an id and a numeric line. */
  predicate Kept(p: RawProp, requested: seq<string>) {
    Lower(p.propType) in requested && StatTypeOf(Lower(p.propType)).Some? &&
    Lower(p.marketType) == "over_under" && p.playerId != 0 && p.lineValue.Some?
  }

  /** The other team of the game, or "" when the team is neither. */
  function Opponent(team: string, game: Option<GameInfo>): (r: string)
    ensures game.Some? && team == game.value.homeAbbr ==> r == game.value.awayAbbr
    ensures game.Some? && team != game.value.homeAbbr && team == game.value.awayAbbr ==> r == game.value.homeAbbr
    ensures game.None? || (team != game.value.homeAbbr && team != game.value.awayAbbr) ==> r == ""
  {
    if game.None? then ""
    else if team == game.value.homeAbbr then game.value.awayAbbr
    else if team == game.value.awayAbbr then game.value.homeAbbr
    else ""
  }

  /** The player prop a kept raw prop becomes; a nameless player is called `player_<id>`. */
  function ToProp(p: RawProp, gameId: int, game: Option<GameInfo>): PlayerProp
    requires StatTypeOf(Lower(p.propType)).Some? && p.lineValue.Some?
  {
    PlayerProp(
      p.playerId,
      if p.playerName == "" then "player_" + IntToString(p.playerId) else p.playerName,
      p.teamAbbr,
      StatTypeOf(Lower(p.propType)).value,
      p.lineValue.value,
      gameId,
      Opponent(p.teamAbbr, game),
      p.overOdds,
      p.underOdds)
  }

  /** The player props of one game, in response order. */
  function PropsOf(raws: seq<RawProp>, requested: seq<string>, gameId: int, game: Option<GameInfo>): seq<PlayerProp>
    decreases |raws|
  {
    if raws == [] then []
    else
      var n := |raws| - 1;
      var front := PropsOf(raws[..n], requested, gameId, game);
      if Kept(raws[n], requested) then front + [ToProp(raws[n], gameId, game)] else front
  }

  /**
   * Every prop produced comes from a kept raw prop, every kept raw prop
   * produces one, and each carries a known stat type and a non-zero id.
   */
  lemma {:induction false} PropsOfSpec(raws: seq<RawProp>, requested: seq<string>, gameId: int, game: Option<GameInfo>)
    ensures |PropsOf(raws, requested, gameId, game)| <= |raws|
    ensures forall i :: 0 <= i < |raws| && Kept(raws[i], requested) ==>
      ToProp(raws[i], gameId, game) in PropsOf(raws, requested, gameId, game)
    ensures forall q :: q in PropsOf(raws, requested, gameId, game) ==>
      exists i :: 0 <= i < |raws| && Kept(raws[i], requested) && q == ToProp(raws[i], gameId, game)
    ensures forall q :: q in PropsOf(raws, requested, gameId, game) ==>
      q.playerId != 0 && q.propType in {"pts", "reb", "ast", "fg3m", "pra"} && q.gameId == gameId
    decreases |raws|
  {
    if raws != [] {
      var n := |raws| - 1;
      var front := raws[..n];
      PropsOfSpec(front, requested, gameId, game);
      assert forall i :: 0 <= i < n ==> front[i] == raws[i];
      forall q | q in PropsOf(raws, requested, gameId, game)
        ensures exists i :: 0 <= i < |raws| && Kept(raws[i], requested) && q == ToProp(raws[i], gameId, game)
      {
        if q !in PropsOf(front, requested, gameId, game) {
          assert Kept(raws[n], requested) && q == ToProp(raws[n], gameId, game);
        }
      }
    }
  }

  /** The props loop of `fetch_player_props_for_game`. */
  method FetchPlayerProps(raws: seq<RawProp>, requested: seq<string>, gameId: int, game: Option<GameInfo>)
    returns (props: seq<PlayerProp>)
    ensures props == PropsOf(raws, requested, gameId, game)
  {
    props := [];
    for i := 0 to |raws|
      invariant props == PropsOf(raws[..i], requested, gameId, game)
    {
      assert raws[..i + 1][..i] == raws[..i];
      var p := raws[i];
      var propType := Lower(p.propType);
      if propType !in requested {
        continue;
      }
      var statType := StatTypeOf(propType);
      if statType.None? {
        continue;
      }
      if Lower(p.marketType) != "over_under" {
        continue;
      }
      if p.playerId == 0 {
        continue;
      }
      if p.lineValue.None? {
        continue;
      }
      props := props + [ToProp(p, gameId, game)];
    }
    assert raws[..|raws|] == raws;
  }

  // ---------------------------------------------------------------------
  // The slate
  // ---------------------------------------------------------------------

  /** One stat's line with its odds. */
  datatype StatLine = StatLine(line: real, overOdds: Option<int>, underOdds: Option<int>)

  /** A player's entry: the info of its first prop and a line per stat type. */
  datatype PlayerEntry = PlayerEntry(
    playerId: int,
    playerName: string,
    team: string,
    gameId: int,
    opponent: string,
    stats: map<string, StatLine>)

  /**
   * The slate, keyed by player id (the source keys it by `str(player_id)`,
   * which names each integer id once).
   */
  type Slate = map<int, PlayerEntry>

  function LineOf(p: PlayerProp): StatLine {
    StatLine(p.line, p.overOdds, p.underOdds)
  }

  function Quality(l: StatLine): (r: real)
    ensures l.overOdds.None? || l.underOdds.None? ==> r == MissingQuality
    ensures l.overOdds.Some? && l.underOdds.Some? ==> 0.0 <= r <= 1.0
  {
    LineQuality(l.overOdds, l.underOdds)
  }

  /** One prop merged in: a new entry on first sight, and a stat line kept unless the new one is strictly fairer. */
  function MergeProp(slate: Slate, p: PlayerProp): Slate {
    var e := if p.playerId in slate then slate[p.playerId]
      else PlayerEntry(p.playerId, p.playerName, p.teamAbbr, p.gameId, p.opponent, map[]);
    var stats :=
      if p.propType in e.stats && !(Quality(LineOf(p)) < Quality(e.stats[p.propType])) then e.stats
      else e.stats[p.propType := LineOf(p)];
    slate[p.playerId := e.(stats := stats)]
  }

  /** The props merged in order. */
  function MergeAll(slate: Slate, props: seq<PlayerProp>): Slate
    decreases |props|
  {
    if props == [] then slate
    else MergeProp(MergeAll(slate, props[..|props| - 1]), props[|props| - 1])
  }

  /** Merging two runs of props is merging their concatenation. */
  lemma {:induction false} MergeAllAppend(slate: Slate, a: seq<PlayerProp>, b: seq<PlayerProp>)
    ensures MergeAll(MergeAll(slate, a), b) == MergeAll(slate, a + b)
    decreases |b|
  {
    if b == [] {
      assert a + b == a;
    } else {
      var n := |b| - 1;
      MergeAllAppend(slate, a, b[..n]);
      Lists.AppendInit(a, b);
      assert MergeAll(slate, a + b) == MergeProp(MergeAll(slate, a + b[..n]), b[n]);
    }
  }

  /** Predicate: `p` is a prop for player `pid` and stat `t`. */
  predicate For(p: PlayerProp, pid: int, t: string) {
    p.playerId == pid && p.propType == t
  }

  /** Predicate: `props[i]` is the first of the fairest props for `pid` and `t`. */
  predicate FirstFairest(props: seq<PlayerProp>, pid: int, t: string, i: int) {
    0 <= i < |props| && For(props[i], pid, t) &&
    (forall j :: 0 <= j < i && For(props[j], pid, t) ==> Quality(LineOf(props[i])) < Quality(LineOf(props[j]))) &&
    (forall j :: i < j < |props| && For(props[j], pid, t) ==> Quality(LineOf(props[i])) <= Quality(LineOf(props[j])))
  }

  /** The line a slate holds for a player's stat, if any. */
  function StatAt(slate: Slate, pid: int, t: string): Option<StatLine> {
    if pid in slate && t in slate[pid].stats then Some(slate[pid].stats[t]) else None
  }

  /** Merging a prop touches only its own player's stat: it fills it, or replaces it by a strictly fairer line. */
  lemma MergePropStat(slate: Slate, p: PlayerProp, pid: int, t: string)
    ensures StatAt(MergeProp(slate, p), pid, t) ==
      if !For(p, pid, t) then StatAt(slate, pid, t)
      else if StatAt(slate, pid, t).Some? && !(Quality(LineOf(p)) < Quality(StatAt(slate, pid, t).value))
      then StatAt(slate, pid, t)
      else Some(LineOf(p))
    ensures pid in MergeProp(slate, p) <==> pid in slate || p.playerId == pid
  {
  }

  /** A player has an entry exactly when it has a prop, and a stat line exactly when it has a prop for that stat. */
  lemma {:induction false} MergeKeys(props: seq<PlayerProp>, pid: int, t: string)
    ensures pid in MergeAll(map[], props) <==> exists i :: 0 <= i < |props| && props[i].playerId == pid
    ensures StatAt(MergeAll(map[], props), pid, t).Some? <==> exists i :: 0 <= i < |props| && For(props[i], pid, t)
    decreases |props|
  {
    if props != [] {
      var n := |props| - 1;
      var front := props[..n];
      MergeKeys(front, pid, t);
      MergePropStat(MergeAll(map[], front), props[n], pid, t);
      assert forall i :: 0 <= i < n ==> front[i] == props[i];
    }
  }

  /** A last prop that is not strictly fairer leaves the first fairest prop as it was. */
  lemma FirstFairestKeep(props: seq<PlayerProp>, pid: int, t: string, i: int)
    requires props != [] && FirstFairest(props[..|props| - 1], pid, t, i)
    requires For(props[|props| - 1], pid, t) ==>
      Quality(LineOf(props[i])) <= Quality(LineOf(props[|props| - 1]))
    ensures FirstFairest(props, pid, t, i)
  {
    var n := |props| - 1;
    assert forall j :: 0 <= j < n ==> props[..n][j] == props[j];
  }

  /** A strictly fairer last prop becomes the first fairest one. */
  lemma FirstFairestNew(props: seq<PlayerProp>, pid: int, t: string, i: int)
    requires props != [] && FirstFairest(props[..|props| - 1], pid, t, i)
    requires For(props[|props| - 1], pid, t)
    requires Quality(LineOf(props[|props| - 1])) < Quality(LineOf(props[i]))
    ensures FirstFairest(props, pid, t, |props| - 1)
  {
    var n := |props| - 1;
    forall j | 0 <= j < n && For(props[j], pid, t)
      ensures Quality(LineOf(props[n])) < Quality(LineOf(props[j]))
    {
      assert props[..n][j] == props[j];
    }
  }

  /**
   * The line kept for a player's stat is the fairest of its props, the
   * first one among equally fair ones.
   */
  lemma {:induction false} MergeKeepsFirstFairest(props: seq<PlayerProp>, pid: int, t: string)
    requires StatAt(MergeAll(map[], props), pid, t).Some?
    ensures exists i :: FirstFairest(props, pid, t, i) && StatAt(MergeAll(map[], props), pid, t) == Some(LineOf(props[i]))
    decreases |props|
  {
    var n := |props| - 1;
    var front := props[..n];
    assert forall i :: 0 <= i < n ==> front[i] == props[i];
    var m := MergeAll(map[], front);
    MergePropStat(m, props[n], pid, t);
    var before := StatAt(m, pid, t);
    if before.Some? {
      MergeKeepsFirstFairest(front, pid, t);
      var i :| FirstFairest(front, pid, t, i) && before == Some(LineOf(front[i]));
      if For(props[n], pid, t) && Quality(LineOf(props[n])) < Quality(before.value) {
        FirstFairestNew(props, pid, t, i);
      } else {
        FirstFairestKeep(props, pid, t, i);
      }
    } else {
      MergeKeys(front, pid, t);
      assert FirstFairest(props, pid, t, n);
    }
  }

  /** Predicate: `props[i]` is the first prop of player `pid`. */
  predicate FirstOfPlayer(props: seq<PlayerProp>, pid: int, i: int) {
    0 <= i < |props| && props[i].playerId == pid && forall j :: 0 <= j < i ==> props[j].playerId != pid
  }

  /** Predicate: the entry carries the prop's player info. */
  predicate InfoOf(e: PlayerEntry, p: PlayerProp) {
    e.playerId == p.playerId && e.playerName == p.playerName && e.team == p.teamAbbr &&
    e.gameId == p.gameId && e.opponent == p.opponent
  }

  /** A player's info is that of its first prop. */
  lemma {:induction false} MergeInfoFromFirst(props: seq<PlayerProp>, pid: int)
    requires pid in MergeAll(map[], props)
    ensures exists i :: FirstOfPlayer(props, pid, i) && InfoOf(MergeAll(map[], props)[pid], props[i])
    decreases |props|
  {
    var n := |props| - 1;
    var front := props[..n];
    assert forall i :: 0 <= i < n ==> front[i] == props[i];
    MergeKeys(front, pid, "");
    if pid in MergeAll(map[], front) {
      MergeInfoFromFirst(front, pid);
    }
  }

  /** One game's request: the game, and its raw props or None when the request failed. */
  datatype GameFetch = GameFetch(game: GameInfo, raws: Option<seq<RawProp>>)

  /** The props a game contributes: none for a game without id or a failed request. */
  function GameProps(g: GameFetch, requested: seq<string>): seq<PlayerProp> {
    if g.game.gameId == 0 || g.raws.None? then []
    else PropsOf(g.raws.value, requested, g.game.gameId, Some(g.game))
  }

  /** All the props of the slate, game after game. */
  function SlateProps(games: seq<GameFetch>, requested: seq<string>): seq<PlayerProp>
    decreases |games|
  {
    if games == [] then []
    else SlateProps(games[..|games| - 1], requested) + GameProps(games[|games| - 1], requested)
  }

  /** `data["pra"]` added from the pts, reb and ast lines when all three exist, with no odds. */
  function WithPra(e: PlayerEntry): (r: PlayerEntry)
    ensures r.playerId == e.playerId && r.playerName == e.playerName && r.team == e.team
    ensures r.gameId == e.gameId && r.opponent == e.opponent
    ensures forall t :: t != "pra" ==> (t in r.stats <==> t in e.stats) && (t in e.stats ==> r.stats[t] == e.stats[t])
    ensures "pts" in e.stats && "reb" in e.stats && "ast" in e.stats ==>
      "pra" in r.stats &&
      r.stats["pra"] == StatLine(e.stats["pts"].line + e.stats["reb"].line + e.stats["ast"].line, None, None)
    ensures !("pts" in e.stats && "reb" in e.stats && "ast" in e.stats) ==> r == e
  {
    if "pts" in e.stats && "reb" in e.stats && "ast" in e.stats then
      var pra := e.stats["pts"].line + e.stats["reb"].line + e.stats["ast"].line;
      e.(stats := e.stats["pra" := StatLine(pra, None, None)])
    else e
  }

  /** The PRA pass over every player. */
  function AddPra(slate: Slate): (r: Slate)
    ensures r.Keys == slate.Keys
  {
    map k | k in slate :: WithPra(slate[k])
  }

  /** A likely starter: a pts line of at least 10.5. */
  predicate IsStarter(e: PlayerEntry) {
    "pts" in e.stats && e.stats["pts"].line >= StarterPtsLine
  }

  /** The starters filter: exactly the likely starters, unchanged. */
  function Starters(slate: Slate): (r: Slate)
    ensures forall k :: k in r <==> k in slate && IsStarter(slate[k])
    ensures forall k :: k in r ==> r[k] == slate[k]
  {
    map k | k in slate && IsStarter(slate[k]) :: slate[k]
  }

  /** The prop types asked for: all of them when the caller names none. */
  function Requested(propTypes: Option<seq<string>>): seq<string> {
    if propTypes.None? then AllPropTypes else propTypes.value
  }

  /** `fetch_all_lines_for_slate`, with every game's response given. */
  function SlateLines(games: seq<GameFetch>, propTypes: Option<seq<string>>, startersOnly: bool): Slate {
    if games == [] then map[]
    else
      var requested := Requested(propTypes);
      var lines := AddPra(MergeAll(map[], SlateProps(games, requested)));
      if startersOnly then Starters(lines) else lines
  }

  /**
   * In the slate, every player's stat line other than PRA is the first
   * fairest of that player's props for the stat across all games, and
   * with `startersOnly` every player kept has a pts line of at least 10.5.
   */
  lemma SlateLinesSpec(games: seq<GameFetch>, propTypes: Option<seq<string>>, startersOnly: bool, pid: int, t: string)
    requires games != [] && t != "pra"
    requires pid in SlateLines(games, propTypes, startersOnly) && t in SlateLines(games, propTypes, startersOnly)[pid].stats
    ensures exists i :: (FirstFairest(SlateProps(games, Requested(propTypes)), pid, t, i) &&
      SlateLines(games, propTypes, startersOnly)[pid].stats[t] == LineOf(SlateProps(games, Requested(propTypes))[i]))
    ensures startersOnly ==> SlateLines(games, propTypes, startersOnly)[pid].stats["pts"].line >= StarterPtsLine
  {
    var requested := Requested(propTypes);
    var merged := MergeAll(map[], SlateProps(games, requested));
    var lines := AddPra(merged);
    assert SlateLines(games, propTypes, startersOnly)[pid] == lines[pid] == WithPra(merged[pid]);
    assert StatAt(merged, pid, t) == Some(lines[pid].stats[t]);
    var props := SlateProps(games, requested);
    MergeKeepsFirstFairest(props, pid, t);
    var i :| FirstFairest(props, pid, t, i) && StatAt(merged, pid, t) == Some(LineOf(props[i]));
    assert SlateLines(games, propTypes, startersOnly)[pid].stats[t] == LineOf(props[i]);
  }

  // ---------------------------------------------------------------------
  // The slate, step by step
  // ---------------------------------------------------------------------

  /** The merge step for one prop, as the loop body writes it. */
  method MergeOne(slate: Slate, p: PlayerProp) returns (r: Slate)
    ensures r == MergeProp(slate, p)
  {
    r := slate;
    if p.playerId !in r {
      r := r[p.playerId := PlayerEntry(p.playerId, p.playerName, p.teamAbbr, p.gameId, p.opponent, map[])];
    }
    var e := r[p.playerId];
    var newLine := StatLine(p.line, p.overOdds, p.underOdds);
    if p.propType in e.stats {
      var existing := e.stats[p.propType];
      if LineQuality(newLine.overOdds, newLine.underOdds) < LineQuality(existing.overOdds, existing.underOdds) {
        r := r[p.playerId := e.(stats := e.stats[p.propType := newLine])];
      }
    } else {
      r := r[p.playerId := e.(stats := e.stats[p.propType := newLine])];
    }
  }

  /** The games loop, merging each game's props as they come. */
  method MergeGames(games: seq<GameFetch>, requested: seq<string>) returns (slate: Slate)
    ensures slate == MergeAll(map[], SlateProps(games, requested))
  {
    slate := map[];
    for g := 0 to |games|
      invariant slate == MergeAll(map[], SlateProps(games[..g], requested))
    {
      assert games[..g + 1][..g] == games[..g];
      ghost var done := SlateProps(games[..g], requested);
      assert SlateProps(games[..g + 1], requested) == done + GameProps(games[g], requested);
      var game := games[g].game;
      if game.gameId == 0 || games[g].raws.None? {
        assert done + GameProps(games[g], requested) == done;
        continue;
      }
      var props := FetchPlayerProps(games[g].raws.value, requested, game.gameId, Some(game));
      MergeAllAppend(map[], done, props);
      slate := MergeProps(slate, props);
    }
    assert games[..|games|] == games;
  }

  /** The props loop of one game. */
  method MergeProps(slate: Slate, props: seq<PlayerProp>) returns (r: Slate)
    ensures r == MergeAll(slate, props)
  {
    r := slate;
    for i := 0 to |props|
      invariant r == MergeAll(slate, props[..i])
    {
      assert props[..i + 1][..i] == props[..i];
      r := MergeOne(r, props[i]);
    }
    assert props[..|props|] == props;
  }

  /** The PRA step for one player. */
  method PraEntry(e: PlayerEntry) returns (r: PlayerEntry)
    ensures r == WithPra(e)
  {
    r := e;
    if "pts" in e.stats && "reb" in e.stats && "ast" in e.stats {
      var pra := e.stats["pts"].line + e.stats["reb"].line + e.stats["ast"].line;
      r := e.(stats := e.stats["pra" := StatLine(pra, None, None)]);
    }
  }

  /** A non-empty set of keys has an element to pick. */
  lemma NonEmptyHasKey(keys: set<int>)
    requires keys != {}
    ensures exists k :: k in keys
  {
    if forall k :: k !in keys {
      assert false;
    }
  }

  /** The PRA loop over every player. */
  method AddPraLines(slate: Slate) returns (r: Slate)
    ensures r == AddPra(slate)
  {
    r := slate;
    var todo := slate.Keys;
    while todo != {}
      invariant todo <= slate.Keys
      invariant forall k :: k in r <==> k in slate
      invariant forall k :: k in slate && k !in todo ==> r[k] == WithPra(slate[k])
      invariant forall k :: k in todo ==> r[k] == slate[k]
      decreases |todo|
    {
      NonEmptyHasKey(todo);
      var k :| k in todo;
      var e := PraEntry(r[k]);
      r := r[k := e];
      todo := todo - {k};
    }
    var expected := AddPra(slate);
    forall k ensures k in r <==> k in expected {
    }
    assert r.Keys == expected.Keys;
    forall k | k in r ensures r[k] == expected[k] {
    }
  }

  /** The starters loop, rebuilding the slate from the likely starters. */
  method FilterStarters(slate: Slate) returns (r: Slate)
    ensures r == Starters(slate)
  {
    r := map[];
    var todo := slate.Keys;
    while todo != {}
      invariant todo <= slate.Keys
      invariant forall k :: k in r <==> k in slate && k !in todo && IsStarter(slate[k])
      invariant forall k :: k in r ==> r[k] == slate[k]
      decreases |todo|
    {
      NonEmptyHasKey(todo);
      var k :| k in todo;
      var e := slate[k];
      if "pts" in e.stats && e.stats["pts"].line >= StarterPtsLine {
        r := r[k := e];
      }
      todo := todo - {k};
    }
    var expected := Starters(slate);
    forall k ensures k in r <==> k in expected {
    }
    assert r.Keys == expected.Keys;
    forall k | k in r ensures r[k] == expected[k] {
    }
  }

  /** `fetch_all_lines_for_slate` as its three passes. */
  method FetchAllLinesForSlate(games: seq<GameFetch>, propTypes: Option<seq<string>>, startersOnly: bool)
    returns (lines: Slate)
    ensures lines == SlateLines(games, propTypes, startersOnly)
  {
    if games == [] {
      return map[];
    }
    var requested := if propTypes.None? then AllPropTypes else propTypes.value;
    assert requested == Requested(propTypes);
    var merged := MergeGames(games, requested);
    lines := AddPraLines(merged);
    if startersOnly {
      lines := FilterStarters(lines);
    }
  }
}
