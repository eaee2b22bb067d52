// The multi-stat engine of archive/simulation_engine_v3.py: the player-id
// index over the lines file, usage cannibalization, the defense-versus-
// position and rest multipliers, the final clamps of the projection and of
// the blowout risk, the guards that decide whether a player is simulated
// at all, and the American-odds conversion. The normal draws, percentiles
// and expected values are random and are not part of this model.
module SimulationEngineV3 {
  import opened Wrappers
  import opened Text
  import Arith

  /** Players projected below this many minutes are skipped. */
  const MinMinutesProj: real := 14.0

  /** A season usage percentage at or above this counts as high usage. */
  const HighUsagePct: real := 25.0

  // ---------------------------------------------------------------------
  // The lines index
  // ---------------------------------------------------------------------

  /** A `player_id` value as read from JSON. */
  datatype IdValue = NoId | IntId(n: int) | RealId(x: real) | TextId(s: string) | OtherId

  /** `int(pid)`: truncation for numbers, decimal parsing for text, a failure (None) otherwise. */
  function IdToInt(v: IdValue): (r: Option<int>)
    ensures v.NoId? || v.OtherId? ==> r.None?
    ensures v.IntId? ==> r == Some(v.n)
  {
    match v
    case NoId => None
    case IntId(n) => Some(n)
    case RealId(x) => Some(Arith.Trunc(x))
    case TextId(s) => ParseInt(s)
    case OtherId => None
  }

  /**
   * One stat entry of a player's lines: something other than a dict, or a
   * dict whose `line` has gone through `_safe_float` (0.0 when missing).
   */
  datatype StatEntry = NotADict | StatDict(line: real)

  /** A player's lines, by key (`pts`, `reb`, ..., and the info keys). */
  type PlayerLines = map<string, StatEntry>

  /** A value of the lines file: not a dict, or a dict with its `player_id` and its lines. */
  datatype LineValue = NotAnObject | LineObject(playerId: IdValue, lines: PlayerLines)

  /** The key a value is indexed under, if any: dicts whose id converts. */
  function KeyOf(v: LineValue): Option<int> {
    if v.LineObject? then IdToInt(v.playerId) else None
  }

  /** The index built from the values in order, later values overwriting earlier ones. */
  function LinesIndex(values: seq<LineValue>): map<int, PlayerLines>
    decreases |values|
  {
    if values == [] then map[]
    else
      var m := LinesIndex(values[..|values| - 1]);
      var v := values[|values| - 1];
      match KeyOf(v)
      case None => m
      case Some(k) => m[k := v.lines]
  }

  /** Predicate: `values[i]` is the last value indexed under `k`. */
  predicate LastWithKey(values: seq<LineValue>, k: int, i: int) {
    0 <= i < |values| && KeyOf(values[i]) == Some(k) &&
    forall j :: i < j < |values| ==> KeyOf(values[j]) != Some(k)
  }

  /** An id is in the index exactly when some value has it. */
  lemma {:induction false} LinesIndexKeys(values: seq<LineValue>, k: int)
    ensures k in LinesIndex(values) <==> exists i :: 0 <= i < |values| && KeyOf(values[i]) == Some(k)
    decreases |values|
  {
    if values != [] {
      var n := |values| - 1;
      var front := values[..n];
      LinesIndexKeys(front, k);
      if KeyOf(values[n]) != Some(k) && exists i :: 0 <= i < |values| && KeyOf(values[i]) == Some(k) {
        var i :| 0 <= i < |values| && KeyOf(values[i]) == Some(k);
        assert i != n;
        assert front[i] == values[i];
      }
    }
  }

  /** An id in the index maps to the lines of the last value that has it. */
  lemma {:induction false} LinesIndexLast(values: seq<LineValue>, k: int)
    requires k in LinesIndex(values)
    ensures exists i :: LastWithKey(values, k, i) && LinesIndex(values)[k] == values[i].lines
    decreases |values|
  {
    assert values != [];
    var n := |values| - 1;
    var front := values[..n];
    if KeyOf(values[n]) == Some(k) {
      assert LastWithKey(values, k, n);
    } else {
      assert k in LinesIndex(front) && LinesIndex(values)[k] == LinesIndex(front)[k];
      LinesIndexLast(front, k);
      var i :| LastWithKey(front, k, i) && LinesIndex(front)[k] == front[i].lines;
      assert front[i] == values[i];
      forall j | i < j < |values|
        ensures KeyOf(values[j]) != Some(k)
      {
        if j < n {
          assert front[j] == values[j];
        }
      }
      assert LastWithKey(values, k, i);
    }
  }

  /** `build_lines_index`: one pass over the values of the lines file. */
  method BuildLinesIndex(values: seq<LineValue>) returns (index: map<int, PlayerLines>)
    ensures index == LinesIndex(values)
  {
    index := map[];
    for i := 0 to |values|
      invariant index == LinesIndex(values[..i])
    {
      assert values[..i + 1][..i] == values[..i];
      var v := values[i];
      if v.LineObject? {
        var pid := IdToInt(v.playerId);
        if pid.Some? {
          index := index[pid.value := v.lines];
        }
      }
    }
    assert values[..|values|] == values;
  }

  // ---------------------------------------------------------------------
  // Usage cannibalization
  // ---------------------------------------------------------------------

  /** A teammate: its `player_id` (None when missing) and season usage after `_safe_float`. */
  datatype TeamPlayer = TeamPlayer(playerId: Option<int>, usgPct: real)

  /** The number of high-usage teammates. */
  function HighUsageCount(players: seq<TeamPlayer>): nat
    decreases |players|
  {
    if players == [] then 0
    else
      var n := |players| - 1;
      HighUsageCount(players[..n]) + (if players[n].usgPct >= HighUsagePct then 1 else 0)
  }

  /** The positions of the high-usage teammates. */
  function HighUsageAt(players: seq<TeamPlayer>): set<int> {
    set i | 0 <= i < |players| && players[i].usgPct >= HighUsagePct
  }

  /** The count is the number of positions holding a high-usage teammate. */
  lemma {:induction false} HighUsageCountSpec(players: seq<TeamPlayer>)
    ensures HighUsageCount(players) == |HighUsageAt(players)| <= |players|
    decreases |players|
  {
    if players != [] {
      var n := |players| - 1;
      var front := players[..n];
      HighUsageCountSpec(front);
      assert forall i :: 0 <= i < n ==> front[i] == players[i];
      if players[n].usgPct >= HighUsagePct {
        assert HighUsageAt(players) == HighUsageAt(front) + {n};
      } else {
        assert HighUsageAt(players) == HighUsageAt(front);
      }
    }
  }

  /** The usage of the last teammate with the target id, 0.0 when there is none. */
  function TargetUsage(players: seq<TeamPlayer>, target: int): real
    decreases |players|
  {
    if players == [] then 0.0
    else
      var n := |players| - 1;
      if players[n].playerId == Some(target) then players[n].usgPct
      else TargetUsage(players[..n], target)
  }

  /** The target's usage belongs to its last entry, or is 0.0 when it has none. */
  lemma {:induction false} TargetUsageSpec(players: seq<TeamPlayer>, target: int)
    ensures (forall i :: 0 <= i < |players| ==> players[i].playerId != Some(target)) ==>
      TargetUsage(players, target) == 0.0
    ensures (exists i :: 0 <= i < |players| && players[i].playerId == Some(target)) ==>
      exists i :: 0 <= i < |players| && players[i].playerId == Some(target) &&
        TargetUsage(players, target) == players[i].usgPct &&
        forall j :: i < j < |players| ==> players[j].playerId != Some(target)
    decreases |players|
  {
    if players != [] {
      var n := |players| - 1;
      var front := players[..n];
      TargetUsageSpec(front, target);
      assert forall i :: 0 <= i < n ==> front[i] == players[i];
      if players[n].playerId != Some(target) && exists i :: 0 <= i < |players| && players[i].playerId == Some(target) {
        var i :| 0 <= i < |players| && players[i].playerId == Some(target);
        assert front[i] == players[i];
      }
    }
  }

  /** The factor for a count of high-usage teammates and the target's own usage. */
  function Cannibalization(highUsageCount: nat, targetUsage: real): (r: real)
    ensures r == 0.95 || r == 0.92 || r == 1.0
    ensures r < 1.0 <==> (highUsageCount >= 3 && targetUsage >= 20.0) || highUsageCount >= 4
  {
    if highUsageCount >= 3 && targetUsage >= 20.0 then 0.95
    else if highUsageCount >= 4 then 0.92
    else 1.0
  }

  /** More high-usage teammates never raise the factor. */
  lemma CannibalizationAntitone(c: nat, c': nat, targetUsage: real)
    requires c <= c'
    ensures Cannibalization(c', targetUsage) <= Cannibalization(c, targetUsage)
  {
  }

  /** `compute_usage_cannibalization`: one pass counting and finding the target, then the ladder. */
  method ComputeUsageCannibalization(players: seq<TeamPlayer>, target: int) returns (r: real)
    ensures r == Cannibalization(HighUsageCount(players), TargetUsage(players, target))
  {
    var count := 0;
    var targetUsage := 0.0;
    for i := 0 to |players|
      invariant count == HighUsageCount(players[..i])
      invariant targetUsage == TargetUsage(players[..i], target)
    {
      assert players[..i + 1][..i] == players[..i];
      if players[i].usgPct >= HighUsagePct {
        count := count + 1;
      }
      if players[i].playerId == Some(target) {
        targetUsage := players[i].usgPct;
      }
    }
    assert players[..|players|] == players;
    if count >= 3 && targetUsage >= 20.0 {
      r := 0.95;
    } else if count >= 4 {
      r := 0.92;
    } else {
      r := 1.0;
    }
  }

  // ---------------------------------------------------------------------
  // Defense versus position and rest
  // ---------------------------------------------------------------------

  /** A position's entry in the opponent table; only its `bucket` key is read, and an empty entry is falsy. */
  type PosEntry = map<string, string>

  /** The opponent table: stat type, then position, then the entry. */
  type DvpData = map<string, map<string, PosEntry>>

  /** `d.get(k)`, with a missing entry read as the empty (falsy) one. */
  function EntryAt(d: map<string, PosEntry>, k: string): PosEntry {
    if k in d then d[k] else map[]
  }

  /** The entry for a position: the exact upper-cased one, else its group's. */
  function PositionEntry(statDvp: map<string, PosEntry>, position: string): PosEntry {
    var pos := Upper(position);
    var exact := EntryAt(statDvp, pos);
    if exact != map[] then exact
    else if pos == "G-F" || pos == "F-G" then
      (if EntryAt(statDvp, "G") != map[] then EntryAt(statDvp, "G") else EntryAt(statDvp, "F"))
    else if pos == "PG" || pos == "SG" then EntryAt(statDvp, "G")
    else if pos == "SF" || pos == "PF" then EntryAt(statDvp, "F")
    else exact
  }

  /** The multiplier a bucket name stands for. */
  function BucketMultiplier(bucket: string): (r: real)
    ensures r == 1.08 <==> bucket == "WEAK"
    ensures r == 0.92 <==> bucket == "STRONG"
    ensures r == 1.0 <==> bucket != "WEAK" && bucket != "STRONG"
  {
    if bucket == "WEAK" then 1.08 else if bucket == "STRONG" then 0.92 else 1.0
  }

  /** `get_dvp_multiplier`. */
  function DvpMultiplier(dvp: DvpData, statType: string, position: string): (r: real)
    ensures r == 1.08 || r == 0.92 || r == 1.0
    ensures dvp == map[] || statType !in dvp || dvp[statType] == map[] ==> r == 1.0
  {
    if dvp == map[] then 1.0
    else
      var statDvp := if statType in dvp then dvp[statType] else map[];
      if statDvp == map[] then 1.0
      else
        var entry := PositionEntry(statDvp, position);
        if entry == map[] then 1.0
        else BucketMultiplier(if "bucket" in entry then entry["bucket"] else "AVERAGE")
  }

  /** An entry for the exact position decides the multiplier; an entry without a bucket counts as AVERAGE. */
  lemma DvpExact(dvp: DvpData, statType: string, position: string, entry: PosEntry)
    requires statType in dvp && Upper(position) in dvp[statType]
    requires entry == dvp[statType][Upper(position)] && entry != map[]
    ensures DvpMultiplier(dvp, statType, position) ==
      BucketMultiplier(if "bucket" in entry then entry["bucket"] else "AVERAGE")
  {
  }

  /** With no entry of its own, a PG or SG reads the G entry and an SF or PF the F entry. */
  lemma DvpGroupFallback(dvp: DvpData, statType: string, position: string)
    requires statType in dvp && EntryAt(dvp[statType], Upper(position)) == map[]
    ensures (Upper(position) == "PG" || Upper(position) == "SG") ==>
      DvpMultiplier(dvp, statType, position) == DvpMultiplier(dvp, statType, "G")
    ensures (Upper(position) == "SF" || Upper(position) == "PF") ==>
      DvpMultiplier(dvp, statType, position) == DvpMultiplier(dvp, statType, "F")
  {
    assert Upper("G") == "G";
    assert Upper("F") == "F";
  }

  /** With no entry of its own, a G-F or F-G reads the G entry, or the F entry when G has none. */
  lemma DvpComboFallback(dvp: DvpData, statType: string, position: string)
    requires statType in dvp && EntryAt(dvp[statType], Upper(position)) == map[]
    requires Upper(position) == "G-F" || Upper(position) == "F-G"
    ensures EntryAt(dvp[statType], "G") != map[] ==>
      DvpMultiplier(dvp, statType, position) == DvpMultiplier(dvp, statType, "G")
    ensures EntryAt(dvp[statType], "G") == map[] ==>
      DvpMultiplier(dvp, statType, position) == DvpMultiplier(dvp, statType, "F")
  {
    assert Upper("G") == "G";
    assert Upper("F") == "F";
  }

  /** `get_rest_multiplier`: tired on a back-to-back, fresher after two days, neutral otherwise. */
  function RestMultiplier(daysRest: int): (r: real)
    ensures r < 1.0 <==> daysRest == 0
    ensures r > 1.0 <==> daysRest == 2
    ensures 0.96 <= r <= 1.02
  {
    if daysRest == 0 then 0.96
    else if daysRest == 1 then 1.0
    else if daysRest == 2 then 1.02
    else 1.0
  }

  // ---------------------------------------------------------------------
  // Clamps
  // ---------------------------------------------------------------------

  /** The last step of `compute_base_projection`: floors on the projection and its spread. */
  function ClampProjection(base: real, stdev: real): (r: (real, real))
    ensures r.0 >= 0.1 && r.1 >= 0.5
    ensures base >= 0.1 ==> r.0 == base
    ensures stdev >= 0.5 ==> r.1 == stdev
    ensures base < 0.1 ==> r.0 == 0.1
    ensures stdev < 0.5 ==> r.1 == 0.5
  {
    (Arith.Max(0.1, base), Arith.Max(0.5, stdev))
  }

  /** The clamp closing `compute_blowout_risk`, applied to the logistic value. */
  function ClampRisk(risk: real): (r: real)
    ensures 0.0 <= r <= 1.0
    ensures 0.0 <= risk <= 1.0 ==> r == risk
  {
    Arith.Min(1.0, Arith.Max(0.0, risk))
  }

  /**
   * The logistic value 1/(1 + e), with `e` the positive exponential term of
   * `compute_blowout_risk`, already lies in (0, 1), so the clamp keeps it.
   */
  lemma BlowoutRiskLogistic(e: real)
    requires e > 0.0
    ensures 0.0 < 1.0 / (1.0 + e) < 1.0
    ensures ClampRisk(1.0 / (1.0 + e)) == 1.0 / (1.0 + e)
  {
  }

  // ---------------------------------------------------------------------
  // Odds
  // ---------------------------------------------------------------------

  /** `_odds_to_implied`: the probability American odds stand for. */
  function OddsToImplied(odds: int): (r: real)
    ensures 0.0 <= r < 1.0
    ensures odds > 0 ==> r > 0.0
    ensures odds <= -100 ==> r >= 0.5
    ensures odds >= 100 ==> r <= 0.5
  {
    if odds > 0 then
      Arith.ShareBounds(100.0, odds as real + 100.0);
      100.0 / (odds as real + 100.0)
    else
      var x := Arith.Abs(odds as real);
      Arith.ShareBounds(x, x + 100.0);
      x / (x + 100.0)
  }

  /** A favourite's and the matching underdog's probabilities sum to one. */
  lemma OddsComplement(odds: int)
    requires odds > 0
    ensures OddsToImplied(odds) + OddsToImplied(-odds) == 1.0
  {
    var d := odds as real + 100.0;
    assert OddsToImplied(-odds) == odds as real / d;
    assert 100.0 / d + odds as real / d == (100.0 + odds as real) / d;
  }

  /** Longer odds mean a smaller probability, on each side of zero. */
  lemma OddsAntitone(a: int, b: int)
    requires a <= b && (0 < a || b <= 0)
    ensures OddsToImplied(b) <= OddsToImplied(a)
  {
    if 0 < a {
      Arith.DivAntitone(100.0, a as real + 100.0, b as real + 100.0);
    } else {
      var x, y := -b as real, -a as real;
      assert OddsToImplied(b) == x / (x + 100.0) && OddsToImplied(a) == y / (y + 100.0);
      assert x / (x + 100.0) == 1.0 - 100.0 / (x + 100.0);
      assert y / (y + 100.0) == 1.0 - 100.0 / (y + 100.0);
      Arith.DivAntitone(100.0, x + 100.0, y + 100.0);
    }
  }

  // ---------------------------------------------------------------------
  // Which players are simulated
  // ---------------------------------------------------------------------

  /**
   * The fields of a player record that decide whether it is simulated:
   * its id, name, injury status (AVAILABLE when missing) and the recent and
   * season minutes after `_safe_float`.
   */
  datatype SimPlayer = SimPlayer(
    playerId: int,
    name: string,
    injuryStatus: string,
    recentMinutesAvg: real,
    seasonMinutes: real)

  /** The lines file as name-keyed entries, in file order. */
  type LinesData = seq<(string, PlayerLines)>

  /** Injured players are skipped. */
  predicate IsOut(status: string) {
    Upper(status) == "OUT" || Upper(status) == "DOUBTFUL"
  }

  /** `lines_data.get(name, {})`. */
  function LinesByName(data: LinesData, name: string): PlayerLines
    decreases |data|
  {
    if data == [] then map[]
    else if data[0].0 == name then data[0].1
    else LinesByName(data[1..], name)
  }

  /** One name is contained in the other, ignoring case. */
  predicate LooseMatch(playerName: string, name: string) {
    Contains(Lower(name), Lower(playerName)) || Contains(Lower(playerName), Lower(name))
  }

  /** The lines of the first entry whose name loosely matches, the empty lines when none does. */
  function LooseLines(data: LinesData, playerName: string): (r: PlayerLines)
    ensures (forall i :: 0 <= i < |data| ==> !LooseMatch(playerName, data[i].0)) ==> r == map[]
    ensures (exists i :: 0 <= i < |data| && LooseMatch(playerName, data[i].0)) ==>
      exists i :: 0 <= i < |data| && LooseMatch(playerName, data[i].0) && r == data[i].1 &&
        forall j :: 0 <= j < i ==> !LooseMatch(playerName, data[j].0)
    decreases |data|
  {
    if data == [] then map[]
    else if LooseMatch(playerName, data[0].0) then data[0].1
    else
      var r := LooseLines(data[1..], playerName);
      assert forall i :: 1 <= i < |data| ==> data[1..][i - 1] == data[i];
      r
  }

  /** The lines found for a player: by id, else by exact name, else by a loose name match. */
  function PlayerLinesFor(p: SimPlayer, data: LinesData, byId: map<int, PlayerLines>): PlayerLines {
    var fromId := if byId != map[] && p.playerId in byId then byId[p.playerId] else map[];
    if fromId != map[] then fromId
    else if LinesByName(data, p.name) != map[] then LinesByName(data, p.name)
    else LooseLines(data, p.name)
  }

  /** `_safe_float(recent minutes) or _safe_float(season minutes)`. */
  function MinutesProjection(p: SimPlayer): (r: real)
    ensures p.recentMinutesAvg != 0.0 ==> r == p.recentMinutesAvg
    ensures p.recentMinutesAvg == 0.0 ==> r == p.seasonMinutes
  {
    if p.recentMinutesAvg != 0.0 then p.recentMinutesAvg else p.seasonMinutes
  }

  /** The four stat types with their own lines, in simulation order. */
  const SimulatedTypes: seq<string> := ["pts", "reb", "ast", "fg3m"]

  /** The stat has a dict entry with a positive line. */
  predicate HasLine(lines: PlayerLines, statType: string) {
    statType in lines && lines[statType].StatDict? && lines[statType].line > 0.0
  }

  /** The stat types simulated from their own lines, in order. */
  function LinedTypes(lines: PlayerLines, types: seq<string>): (r: seq<string>)
    ensures forall s :: s in r <==> s in types && HasLine(lines, s)
    ensures |r| <= |types|
    decreases |types|
  {
    if types == [] then []
    else
      var n := |types| - 1;
      var front := LinedTypes(lines, types[..n]);
      assert forall s :: s in types <==> s in types[..n] || s == types[n];
      if HasLine(lines, types[n]) then front + [types[n]] else front
  }

  /** The stat types in the result: the lined ones, then PRA when points, rebounds and assists were all simulated. */
  function StatsOf(lines: PlayerLines): seq<string> {
    var own := LinedTypes(lines, SimulatedTypes);
    if "pts" in own && "reb" in own && "ast" in own then own + ["pra"] else own
  }

  /** The stat types `simulate_player` reports for a player, or None when it returns None. */
  function SimulationOutcome(p: SimPlayer, data: LinesData, byId: map<int, PlayerLines>): Option<seq<string>> {
    if IsOut(p.injuryStatus) then None
    else
      var lines := PlayerLinesFor(p, data, byId);
      if lines == map[] then None
      else if MinutesProjection(p) < MinMinutesProj then None
      else if StatsOf(lines) == [] then None
      else Some(StatsOf(lines))
  }

  /** The stats reported are the lined ones, plus PRA exactly when points, rebounds and assists are lined. */
  lemma StatsOfSpec(lines: PlayerLines)
    ensures StatsOf(lines) == [] <==> forall s :: s in SimulatedTypes ==> !HasLine(lines, s)
    ensures forall s :: s in SimulatedTypes ==> (s in StatsOf(lines) <==> HasLine(lines, s))
    ensures "pra" in StatsOf(lines) <==> HasLine(lines, "pts") && HasLine(lines, "reb") && HasLine(lines, "ast")
  {
    var own := LinedTypes(lines, SimulatedTypes);
    assert "pra" !in SimulatedTypes;
    if own != [] {
      assert own[0] in own;
    }
  }

  /**
   * `simulate_player` returns None exactly for an injured player, one with
   * no lines, one projected below the minutes floor, or one with no stat
   * line; otherwise it reports every stat with a line, and PRA only
   * alongside points, rebounds and assists.
   */
  lemma SimulationOutcomeSpec(p: SimPlayer, data: LinesData, byId: map<int, PlayerLines>)
    ensures var lines := PlayerLinesFor(p, data, byId);
      SimulationOutcome(p, data, byId).None? <==>
        IsOut(p.injuryStatus) || lines == map[] || MinutesProjection(p) < MinMinutesProj ||
        (forall s :: s in SimulatedTypes ==> !HasLine(lines, s))
    ensures var lines := PlayerLinesFor(p, data, byId);
      SimulationOutcome(p, data, byId).Some? ==>
        SimulationOutcome(p, data, byId).value == StatsOf(lines) &&
        (forall s :: s in SimulatedTypes ==> (s in StatsOf(lines) <==> HasLine(lines, s))) &&
        ("pra" in StatsOf(lines) <==> HasLine(lines, "pts") && HasLine(lines, "reb") && HasLine(lines, "ast"))
  {
    StatsOfSpec(PlayerLinesFor(p, data, byId));
  }

  /** The loose-match loop with its early exit. */
  method FindLooseLines(data: LinesData, playerName: string) returns (r: PlayerLines)
    ensures r == LooseLines(data, playerName)
  {
    var i := 0;
    while i < |data|
      invariant 0 <= i <= |data|
      invariant LooseLines(data, playerName) == LooseLines(data[i..], playerName)
    {
      assert data[i..][1..] == data[i + 1..];
      if LooseMatch(playerName, data[i].0) {
        return data[i].1;
      }
      i := i + 1;
    }
    return map[];
  }

  /** The stat loop of `simulate_player`, keeping the types it simulates. */
  method SimulatedStats(lines: PlayerLines) returns (stats: seq<string>)
    ensures stats == StatsOf(lines)
  {
    stats := [];
    for i := 0 to |SimulatedTypes|
      invariant stats == LinedTypes(lines, SimulatedTypes[..i])
    {
      assert SimulatedTypes[..i + 1][..i] == SimulatedTypes[..i];
      var statType := SimulatedTypes[i];
      if statType in lines && lines[statType].StatDict? {
        var line := lines[statType].line;
        if line > 0.0 {
          stats := stats + [statType];
        }
      }
    }
    assert SimulatedTypes[..|SimulatedTypes|] == SimulatedTypes;
    if "pts" in stats && "reb" in stats && "ast" in stats {
      stats := stats + ["pra"];
    }
  }

  /** `simulate_player` reduced to its guards and the stat types it fills. */
  method SimulatePlayer(p: SimPlayer, data: LinesData, byId: map<int, PlayerLines>) returns (r: Option<seq<string>>)
    ensures r == SimulationOutcome(p, data, byId)
  {
    if Upper(p.injuryStatus) == "OUT" || Upper(p.injuryStatus) == "DOUBTFUL" {
      return None;
    }
    var lines: PlayerLines := map[];
    if byId != map[] {
      lines := if p.playerId in byId then byId[p.playerId] else map[];
    }
    if lines == map[] {
      lines := LinesByName(data, p.name);
    }
    if lines == map[] {
      lines := FindLooseLines(data, p.name);
    }
    if lines == map[] {
      return None;
    }
    var minutes := if p.recentMinutesAvg != 0.0 then p.recentMinutesAvg else p.seasonMinutes;
    if minutes < MinMinutesProj {
      return None;
    }
    var stats := SimulatedStats(lines);
    r := if stats == [] then None else Some(stats);
  }
}
