// The pure parts of the predictor's data clients (newapp/predictor/data_fetcher.py):
// season eFG and turnover rate from raw season totals, box-score and game
// parsing with their defaults, the bookmaker scan that fills the spread
// cache, and the lookup that matches a game against that cache by exact key
// or by team nickname, flipping the sign when home and away are reversed.
// API responses are passed in as values; requests, rate limiting and the
// date-keyed season cache are not modelled.
module DataFetcher {
  import opened Wrappers
  import opened Text
  import opened PredictorConfig
  import WinModel

  // ---------------------------------------------------------------- season stats

  /** One row of season averages; a missing key is None. */
  datatype SeasonTotals = SeasonTotals(
    fgm: Option<real>, fga: Option<real>, fg3m: Option<real>,
    fta: Option<real>, turnover: Option<real>, oreb: Option<real>)

  function GetOr<T>(v: Option<T>, default: T): T {
    if v.Some? then v.value else default
  }

  /** eFG and turnover rate of a season row, falling back to league averages when a denominator is not positive. */
  function SeasonFromTotals(cfg: Config, t: SeasonTotals): (s: WinModel.SeasonStats)
    ensures var fga := GetOr(t.fga, 1.0);
      (fga > 0.0 ==> s.efg * fga == GetOr(t.fgm, 0.0) + 0.5 * GetOr(t.fg3m, 0.0)) &&
      (fga <= 0.0 ==> s.efg == cfg.leagueAvgEfg)
    ensures var poss := GetOr(t.fga, 1.0) + 0.44 * GetOr(t.fta, 0.0) + GetOr(t.turnover, 0.0) - GetOr(t.oreb, 0.0);
      (poss > 0.0 ==> s.tovRate * poss == GetOr(t.turnover, 0.0)) &&
      (poss <= 0.0 ==> s.tovRate == cfg.leagueAvgTovRate)
  {
    var fgm, fga, fg3m := GetOr(t.fgm, 0.0), GetOr(t.fga, 1.0), GetOr(t.fg3m, 0.0);
    var fta, tov, orb := GetOr(t.fta, 0.0), GetOr(t.turnover, 0.0), GetOr(t.oreb, 0.0);
    var efg := if fga > 0.0 then (fgm + 0.5 * fg3m) / fga else cfg.leagueAvgEfg;
    var poss := fga + 0.44 * fta + tov - orb;
    var tovRate := if poss > 0.0 then tov / poss else cfg.leagueAvgTovRate;
    WinModel.SeasonStats(efg, tovRate)
  }

  /** The season stats from the API's data rows: the first row, or league averages when there is none. */
  function SeasonStatsOf(cfg: Config, rows: seq<SeasonTotals>): (s: WinModel.SeasonStats)
    ensures rows == [] ==> s == WinModel.SeasonStats(cfg.leagueAvgEfg, cfg.leagueAvgTovRate)
    ensures rows != [] ==> s == SeasonFromTotals(cfg, rows[0])
  {
    if rows == [] then WinModel.SeasonStats(cfg.leagueAvgEfg, cfg.leagueAvgTovRate)
    else SeasonFromTotals(cfg, rows[0])
  }

  /** A row without attempts and without any other totals yields the league averages. */
  lemma EmptyRowIsLeagueAverage(cfg: Config)
    ensures var t := SeasonTotals(None, Some(0.0), None, None, None, None);
      SeasonFromTotals(cfg, t) == WinModel.SeasonStats(cfg.leagueAvgEfg, cfg.leagueAvgTovRate)
  {
  }

  // ---------------------------------------------------------------- box score and game parsing

  /** A JSON object of integer counters. */
  type Counters = map<string, int>

  function Count(m: Counters, key: string): int {
    if key in m then m[key] else 0
  }

  /** The home or visitor team's counters from a box score, each missing counter read as 0. */
  function ParseTeamStats(boxScore: map<string, Counters>, isHome: bool): (t: WinModel.TeamStats)
    ensures var side := if isHome then "home_team" else "visitor_team";
      var c := if side in boxScore then boxScore[side] else map[];
      t.fgm == Count(c, "fgm") && t.fga == Count(c, "fga") && t.fg3m == Count(c, "fg3m") &&
      t.fta == Count(c, "fta") && t.tov == Count(c, "turnover") && t.orb == Count(c, "oreb")
    ensures (if isHome then "home_team" else "visitor_team") !in boxScore ==> t == WinModel.TeamStats(0, 0, 0, 0, 0, 0)
  {
    var side := if isHome then "home_team" else "visitor_team";
    var c := if side in boxScore then boxScore[side] else map[];
    WinModel.TeamStats(Count(c, "fgm"), Count(c, "fga"), Count(c, "fg3m"),
                       Count(c, "fta"), Count(c, "turnover"), Count(c, "oreb"))
  }

  datatype TeamRecord = TeamRecord(fullName: Option<string>, abbreviation: Option<string>)

  /** A game object from the scores API; a missing key is None. */
  datatype GameRecord = GameRecord(
    homeTeam: Option<TeamRecord>,
    visitorTeam: Option<TeamRecord>,
    homeTeamScore: Option<int>,
    visitorTeamScore: Option<int>,
    period: Option<int>,
    time: Option<string>,
    status: Option<string>)

  /** s[:3]. */
  function Take3(s: string): (r: string)
    ensures |r| == if |s| < 3 then |s| else 3
    ensures r == s[..|r|]
  {
    if |s| < 3 then s else s[..3]
  }

  /** The abbreviation, or the first three letters of the full name (of `fallback` when that is missing) upper-cased. */
  function Abbreviation(team: TeamRecord, fallback: string): (r: string)
    ensures team.abbreviation.Some? ==> r == team.abbreviation.value
    ensures team.abbreviation.None? ==> r == Upper(Take3(GetOr(team.fullName, fallback)))
  {
    GetOr(team.abbreviation, Upper(Take3(GetOr(team.fullName, fallback))))
  }

  function ParseGameState(g: GameRecord): (gs: WinModel.GameState)
    ensures gs.homeScore == GetOr(g.homeTeamScore, 0) && gs.awayScore == GetOr(g.visitorTeamScore, 0)
    ensures gs.quarter == GetOr(g.period, 0) && gs.clock == g.time && gs.status == GetOr(g.status, "")
    ensures g.homeTeam.None? ==> gs.homeTeam == "Home" && gs.homeTeamAbbrev == "HOM"
    ensures g.visitorTeam.None? ==> gs.awayTeam == "Away" && gs.awayTeamAbbrev == "AWY"
    ensures g.homeTeam.Some? ==> gs.homeTeam == GetOr(g.homeTeam.value.fullName, "Home") &&
                                 gs.homeTeamAbbrev == Abbreviation(g.homeTeam.value, "HOM")
    ensures g.visitorTeam.Some? ==> gs.awayTeam == GetOr(g.visitorTeam.value.fullName, "Away") &&
                                    gs.awayTeamAbbrev == Abbreviation(g.visitorTeam.value, "AWY")
  {
    var home := GetOr(g.homeTeam, TeamRecord(None, None));
    var away := GetOr(g.visitorTeam, TeamRecord(None, None));
    assert Upper(Take3("HOM")) == "HOM";
    assert Upper(Take3("AWY")) == "AWY";
    WinModel.GameState(
      GetOr(home.fullName, "Home"), GetOr(away.fullName, "Away"),
      Abbreviation(home, "HOM"), Abbreviation(away, "AWY"),
      GetOr(g.homeTeamScore, 0), GetOr(g.visitorTeamScore, 0),
      GetOr(g.period, 0), g.time, GetOr(g.status, ""))
  }

  // ---------------------------------------------------------------- the spread cache as a dictionary

  /** A dictionary from "home vs away" to the home spread, in insertion order. */
  type SpreadTable = seq<(string, real)>

  predicate UniqueKeys(d: SpreadTable) {
    forall i, j :: 0 <= i < j < |d| ==> d[i].0 != d[j].0
  }

  predicate HasKey(d: SpreadTable, key: string) {
    exists i :: 0 <= i < |d| && d[i].0 == key
  }

  lemma HasKeyTail(d: SpreadTable, key: string)
    requires d != [] && d[0].0 != key
    ensures HasKey(d, key) <==> HasKey(d[1..], key)
  {
    if HasKey(d, key) {
      var i :| 0 <= i < |d| && d[i].0 == key;
      assert d[1..][i - 1].0 == key;
    }
    if HasKey(d[1..], key) {
      var i :| 0 <= i < |d[1..]| && d[1..][i].0 == key;
      assert d[i + 1].0 == key;
    }
  }

  lemma UniqueTail(d: SpreadTable)
    requires UniqueKeys(d)
    ensures d != [] ==> UniqueKeys(d[1..])
  {
    if d != [] {
      forall i, j | 0 <= i < j < |d[1..]| ensures d[1..][i].0 != d[1..][j].0 {
        assert d[1..][i] == d[i + 1] && d[1..][j] == d[j + 1];
      }
    }
  }

  /** d[key] when present: the value of the first entry holding the key. */
  function Lookup(d: SpreadTable, key: string): (r: Option<real>)
    ensures r.None? <==> !HasKey(d, key)
    ensures r.Some? ==> exists i :: 0 <= i < |d| && d[i] == (key, r.value) && forall j :: 0 <= j < i ==> d[j].0 != key
  {
    if d == [] then None
    else if d[0].0 == key then Some(d[0].1)
    else
      var r := Lookup(d[1..], key);
      HasKeyTail(d, key);
      if r.Some? then
        var i :| 0 <= i < |d[1..]| && d[1..][i] == (key, r.value) && forall j :: 0 <= j < i ==> d[1..][j].0 != key;
        assert d[i + 1] == (key, r.value);
        assert forall j :: 1 <= j < i + 1 ==> d[j] == d[1..][j - 1];
        r
      else r
  }

  /** With unique keys, every entry is what a lookup of its key returns. */
  lemma LookupEntry(d: SpreadTable, i: nat)
    requires UniqueKeys(d) && i < |d|
    ensures Lookup(d, d[i].0) == Some(d[i].1)
  {
    var r := Lookup(d, d[i].0);
    var k :| 0 <= k < |d| && d[k] == (d[i].0, r.value) && forall j :: 0 <= j < k ==> d[j].0 != d[i].0;
    assert k == i;
  }

  /** d[key] = value: overwrites the entry in place when the key is present, appends it otherwise. */
  function Put(d: SpreadTable, key: string, value: real): (r: SpreadTable)
    requires UniqueKeys(d)
    ensures HasKey(d, key) ==> |r| == |d| && forall i :: 0 <= i < |d| ==> r[i] == if d[i].0 == key then (key, value) else d[i]
    ensures !HasKey(d, key) ==> r == d + [(key, value)]
  {
    UniqueTail(d);
    if d == [] then [(key, value)]
    else if d[0].0 == key then [(key, value)] + d[1..]
    else
      HasKeyTail(d, key);
      var rest := Put(d[1..], key, value);
      assert forall i :: 1 <= i < |d| ==> d[i] == d[1..][i - 1];
      [d[0]] + rest
  }

  /** d[key] = value keeps the keys unique. */
  lemma PutKeepsUnique(d: SpreadTable, key: string, value: real)
    requires UniqueKeys(d)
    ensures UniqueKeys(Put(d, key, value))
  {
    var r := Put(d, key, value);
    if HasKey(d, key) {
      forall i, j | 0 <= i < j < |r| ensures r[i].0 != r[j].0 {
        assert r[i].0 == d[i].0 && r[j].0 == d[j].0;
      }
    } else {
      forall i, j | 0 <= i < j < |r| ensures r[i].0 != r[j].0 {
        if j == |d| {
          assert r[i] == d[i];
        } else {
          assert r[i] == d[i] && r[j] == d[j];
        }
      }
    }
  }

  /** After d[key] = value, key reads as value. */
  lemma LookupPutSame(d: SpreadTable, key: string, value: real)
    requires UniqueKeys(d)
    ensures Lookup(Put(d, key, value), key) == Some(value)
  {
    var r := Put(d, key, value);
    PutKeepsUnique(d, key, value);
    if HasKey(d, key) {
      var at :| 0 <= at < |d| && d[at].0 == key;
      LookupEntry(r, at);
    } else {
      LookupEntry(r, |d|);
    }
  }

  /** After d[key] = value, every other key reads as before. */
  lemma LookupPutOther(d: SpreadTable, key: string, value: real, other: string)
    requires UniqueKeys(d) && other != key
    ensures Lookup(Put(d, key, value), other) == Lookup(d, other)
  {
    var r := Put(d, key, value);
    PutKeepsUnique(d, key, value);
    if HasKey(d, other) {
      var i :| 0 <= i < |d| && d[i].0 == other;
      LookupEntry(d, i);
      assert r[i] == d[i];
      LookupEntry(r, i);
    } else {
      forall i | 0 <= i < |r| ensures r[i].0 != other {
        if i < |d| {
          assert r[i].0 == key || r[i] == d[i];
        }
      }
    }
  }

  // ---------------------------------------------------------------- filling the cache from the odds feed

  datatype Outcome = Outcome(name: string, point: Option<real>)
  datatype Market = Market(key: string, outcomes: seq<Outcome>)
  datatype Bookmaker = Bookmaker(markets: seq<Market>)
  /** One game of the odds feed; missing names and lists arrive as "" and []. */
  datatype OddsGame = OddsGame(homeTeam: string, awayTeam: string, bookmakers: seq<Bookmaker>)

  /** The cache key of a game. */
  function GameKey(home: string, away: string): string {
    home + " vs " + away
  }

  /** The point of the first outcome named after the home team (0 when it has none). */
  function HomePoint(os: seq<Outcome>, home: string): (r: Option<real>)
    ensures r.None? <==> forall i :: 0 <= i < |os| ==> os[i].name != home
    ensures r.Some? ==> exists i :: 0 <= i < |os| && os[i].name == home && r.value == GetOr(os[i].point, 0.0) &&
                                    forall j :: 0 <= j < i ==> os[j].name != home
  {
    if os == [] then None
    else if os[0].name == home then Some(GetOr(os[0].point, 0.0))
    else
      var r := HomePoint(os[1..], home);
      if r.Some? then
        var i :| 0 <= i < |os[1..]| && os[1..][i].name == home && r.value == GetOr(os[1..][i].point, 0.0) &&
                 forall j :: 0 <= j < i ==> os[1..][j].name != home;
        assert os[i + 1] == os[1..][i];
        assert forall j :: 1 <= j < i + 1 ==> os[j] == os[1..][j - 1];
        r
      else r
  }

  /** The home point a market offers: only a "spreads" market with an outcome for the home team offers one. */
  function Offer(m: Market, home: string): Option<real> {
    if m.key == "spreads" then HomePoint(m.outcomes, home) else None
  }

  /** The offer of the last market that makes one: later markets overwrite earlier ones. */
  function LastOffer(ms: seq<Market>, home: string): Option<real> {
    if ms == [] then None
    else if Offer(ms[|ms| - 1], home).Some? then Offer(ms[|ms| - 1], home)
    else LastOffer(ms[..|ms| - 1], home)
  }

  /** A bookmaker leaves no offer exactly when none of its markets makes one. */
  lemma {:induction false} LastOfferNone(ms: seq<Market>, home: string)
    ensures LastOffer(ms, home).None? <==> forall i :: 0 <= i < |ms| ==> Offer(ms[i], home).None?
  {
    if ms != [] && Offer(ms[|ms| - 1], home).None? {
      LastOfferNone(ms[..|ms| - 1], home);
      assert forall i :: 0 <= i < |ms| - 1 ==> ms[..|ms| - 1][i] == ms[i];
    }
  }

  /** The market loop of one bookmaker: every offering market writes the key. */
  function ScanMarkets(ms: seq<Market>, home: string, key: string, d: SpreadTable): (r: SpreadTable)
    requires UniqueKeys(d)
    ensures UniqueKeys(r)
    decreases |ms|
  {
    if ms == [] then d
    else
      var d' := if Offer(ms[0], home).Some? then Put(d, key, Offer(ms[0], home).value) else d;
      PutKeepsUnique(d, key, if Offer(ms[0], home).Some? then Offer(ms[0], home).value else 0.0);
      ScanMarkets(ms[1..], home, key, d')
  }

  /** The market loop leaves the other keys alone and leaves the key holding the last offer, if any. */
  lemma {:induction false} ScanMarketsEffect(ms: seq<Market>, home: string, key: string, d: SpreadTable, other: string)
    requires UniqueKeys(d)
    ensures other != key ==> Lookup(ScanMarkets(ms, home, key, d), other) == Lookup(d, other)
    ensures LastOffer(ms, home).Some? ==> Lookup(ScanMarkets(ms, home, key, d), key) == LastOffer(ms, home)
    ensures LastOffer(ms, home).None? ==> ScanMarkets(ms, home, key, d) == d
    decreases |ms|
  {
    if ms != [] {
      var o := Offer(ms[0], home);
      var d' := if o.Some? then Put(d, key, o.value) else d;
      PutKeepsUnique(d, key, if o.Some? then o.value else 0.0);
      ScanMarketsEffect(ms[1..], home, key, d', other);
      if o.Some? {
        LookupPutSame(d, key, o.value);
        if other != key {
          LookupPutOther(d, key, o.value, other);
        }
      }
      LastOfferSplit(ms, home);
    }
  }

  /** The last offer of a list is the last offer of its tail, or the head's offer when the tail makes none. */
  lemma {:induction false} LastOfferSplit(ms: seq<Market>, home: string)
    requires ms != []
    ensures LastOffer(ms, home) == if LastOffer(ms[1..], home).Some? then LastOffer(ms[1..], home) else Offer(ms[0], home)
    decreases |ms|
  {
    if |ms| > 1 {
      var init, tl := ms[..|ms| - 1], ms[1..];
      assert tl[|tl| - 1] == ms[|ms| - 1];
      if Offer(ms[|ms| - 1], home).None? {
        LastOfferSplit(init, home);
        assert init[1..] == tl[..|tl| - 1];
        assert init[0] == ms[0];
        LastOfferDropLast(ms, home);
        LastOfferDropLast(tl, home);
      }
    }
  }

  /** A last market that makes no offer does not change the last offer. */
  lemma LastOfferDropLast(ms: seq<Market>, home: string)
    requires ms != [] && Offer(ms[|ms| - 1], home).None?
    ensures LastOffer(ms, home) == LastOffer(ms[..|ms| - 1], home)
  {
  }

  /** The bookmaker loop: scan each bookmaker's markets and stop after the first one that leaves the key set. */
  function ScanBookmakers(bs: seq<Bookmaker>, home: string, key: string, d: SpreadTable): (r: SpreadTable)
    requires UniqueKeys(d)
    ensures UniqueKeys(r)
    decreases |bs|
  {
    if bs == [] then d
    else
      var d' := ScanMarkets(bs[0].markets, home, key, d);
      if HasKey(d', key) then d' else ScanBookmakers(bs[1..], home, key, d')
  }

  /** The last offer of the first bookmaker that makes one. */
  function FirstBookOffer(bs: seq<Bookmaker>, home: string): (r: Option<real>)
    ensures r.None? <==> forall i :: 0 <= i < |bs| ==> LastOffer(bs[i].markets, home).None?
  {
    if bs == [] then None
    else if LastOffer(bs[0].markets, home).Some? then LastOffer(bs[0].markets, home)
    else
      var r := FirstBookOffer(bs[1..], home);
      assert forall i :: 1 <= i < |bs| ==> bs[i] == bs[1..][i - 1];
      r
  }

  /**
   * A game's scan touches only its own key. Starting without the key, the
   * key ends up holding the first bookmaker's offer; starting with it (an
   * earlier game had the same key), only the first bookmaker is scanned.
   */
  lemma {:induction false} ScanBookmakersEffect(bs: seq<Bookmaker>, home: string, key: string, d: SpreadTable, other: string)
    requires UniqueKeys(d)
    ensures other != key ==> Lookup(ScanBookmakers(bs, home, key, d), other) == Lookup(d, other)
    ensures !HasKey(d, key) ==> Lookup(ScanBookmakers(bs, home, key, d), key) == FirstBookOffer(bs, home)
    ensures HasKey(d, key) && bs != [] ==> ScanBookmakers(bs, home, key, d) == ScanMarkets(bs[0].markets, home, key, d)
    decreases |bs|
  {
    if bs != [] {
      var d' := ScanMarkets(bs[0].markets, home, key, d);
      ScanMarketsEffect(bs[0].markets, home, key, d, other);
      ScanMarketsEffect(bs[0].markets, home, key, d, key);
      if !HasKey(d', key) {
        ScanBookmakersEffect(bs[1..], home, key, d', other);
      }
    }
  }

  /** get_nba_spreads as a value: the games are scanned in feed order into a fresh dictionary. */
  function SpreadsOf(games: seq<OddsGame>): (r: SpreadTable)
    ensures UniqueKeys(r)
  {
    if games == [] then []
    else
      var g := games[|games| - 1];
      ScanBookmakers(g.bookmakers, g.homeTeam, GameKey(g.homeTeam, g.awayTeam), SpreadsOf(games[..|games| - 1]))
  }

  /** Every cached key is the key of some game of the feed. */
  lemma {:induction false} SpreadKeysFromFeed(games: seq<OddsGame>, key: string)
    requires HasKey(SpreadsOf(games), key)
    ensures exists i :: 0 <= i < |games| && GameKey(games[i].homeTeam, games[i].awayTeam) == key
  {
    var n := |games|;
    var g := games[n - 1];
    var prefix := games[..n - 1];
    if GameKey(g.homeTeam, g.awayTeam) != key {
      ScanBookmakersEffect(g.bookmakers, g.homeTeam, GameKey(g.homeTeam, g.awayTeam), SpreadsOf(prefix), key);
      SpreadKeysFromFeed(prefix, key);
      var i :| 0 <= i < |prefix| && GameKey(prefix[i].homeTeam, prefix[i].awayTeam) == key;
      assert games[i] == prefix[i];
    }
  }

  /** A key that no game of the feed has is not cached. */
  lemma {:induction false} KeyAbsentFromFeed(games: seq<OddsGame>, key: string)
    requires forall j :: 0 <= j < |games| ==> GameKey(games[j].homeTeam, games[j].awayTeam) != key
    ensures !HasKey(SpreadsOf(games), key)
  {
    if games != [] {
      var g := games[|games| - 1];
      var prefix := games[..|games| - 1];
      assert forall j :: 0 <= j < |prefix| ==> prefix[j] == games[j];
      KeyAbsentFromFeed(prefix, key);
      ScanBookmakersEffect(g.bookmakers, g.homeTeam, GameKey(g.homeTeam, g.awayTeam), SpreadsOf(prefix), key);
    }
  }

  /** A game whose key no other game shares is cached with the home point of its first offering bookmaker. */
  lemma {:induction false} SpreadOfGame(games: seq<OddsGame>, i: nat)
    requires i < |games|
    requires forall j :: 0 <= j < |games| && j != i ==>
      GameKey(games[j].homeTeam, games[j].awayTeam) != GameKey(games[i].homeTeam, games[i].awayTeam)
    ensures Lookup(SpreadsOf(games), GameKey(games[i].homeTeam, games[i].awayTeam)) ==
      FirstBookOffer(games[i].bookmakers, games[i].homeTeam)
  {
    var n := |games|;
    var g := games[n - 1];
    var prefix := games[..n - 1];
    var key := GameKey(games[i].homeTeam, games[i].awayTeam);
    if i == n - 1 {
      forall j | 0 <= j < |prefix| ensures GameKey(prefix[j].homeTeam, prefix[j].awayTeam) != key {
        assert prefix[j] == games[j];
      }
      KeyAbsentFromFeed(prefix, key);
      ScanBookmakersEffect(g.bookmakers, g.homeTeam, key, SpreadsOf(prefix), key);
    } else {
      assert prefix[i] == games[i];
      forall j | 0 <= j < |prefix| && j != i
        ensures GameKey(prefix[j].homeTeam, prefix[j].awayTeam) != key
      {
        assert prefix[j] == games[j];
      }
      SpreadOfGame(prefix, i);
      ScanBookmakersEffect(g.bookmakers, g.homeTeam, GameKey(g.homeTeam, g.awayTeam), SpreadsOf(prefix), key);
    }
  }

  /** The feed of the predictor's integration test: one game, one bookmaker, one spreads market. */
  function SampleFeed(): seq<OddsGame> {
    [OddsGame("Los Angeles Lakers", "Boston Celtics",
              [Bookmaker([Market("spreads", [Outcome("Los Angeles Lakers", Some(-3.5)),
                                             Outcome("Boston Celtics", Some(3.5))])])])]
  }

  lemma SampleOffer()
    ensures FirstBookOffer(SampleFeed()[0].bookmakers, "Los Angeles Lakers") == Some(-3.5)
  {
    var m := SampleFeed()[0].bookmakers[0].markets;
    assert Offer(m[0], "Los Angeles Lakers") == Some(-3.5);
    assert LastOffer(m, "Los Angeles Lakers") == Some(-3.5);
  }

  lemma SampleFeedSpread()
    ensures Lookup(SpreadsOf(SampleFeed()), "Los Angeles Lakers vs Boston Celtics") == Some(-3.5)
  {
    var feed := SampleFeed();
    SpreadOfGame(feed, 0);
    SampleOffer();
    SampleGameKey();
  }

  lemma SampleGameKey()
    ensures GameKey(SampleFeed()[0].homeTeam, SampleFeed()[0].awayTeam) == "Los Angeles Lakers vs Boston Celtics"
  {
  }

  // ---------------------------------------------------------------- matching a game against the cache

  /** The team's nickname: the last word of the lower-cased name, if it has any word. */
  function Nickname(name: string): (r: Option<string>)
    ensures r.None? <==> Words(Lower(name)) == []
  {
    var ws := Words(Lower(name));
    if ws == [] then None else Some(ws[|ws| - 1])
  }

  /** Two nickname sets intersect: both names have a nickname and it is the same. */
  predicate SameTeam(a: Option<string>, b: Option<string>) {
    a.Some? && a == b
  }

  /**
   * What a cached game with nicknames `cachedHome` and `cachedAway` says
   * about the asked game: its spread when the nicknames match in the same
   * orientation, the negated spread when they match the other way round.
   */
  function NicknameAnswer(spread: real, cachedHome: Option<string>, cachedAway: Option<string>,
                          homeNick: Option<string>, awayNick: Option<string>): Option<real> {
    if SameTeam(homeNick, cachedHome) && SameTeam(awayNick, cachedAway) then Some(spread)
    else if SameTeam(homeNick, cachedAway) && SameTeam(awayNick, cachedHome) then Some(-spread)
    else None
  }

  /** What one cache entry says about a game; nothing when its key has no " vs ". */
  function EntryMatch(entry: (string, real), homeNick: Option<string>, awayNick: Option<string>): Option<real> {
    var parts := SplitOnce(entry.0, " vs ");
    if parts.None? then None
    else NicknameAnswer(entry.1, Nickname(parts.value.0), Nickname(parts.value.1), homeNick, awayNick)
  }

  /** The spread with its sign flipped, if there is one. */
  function Negated(v: Option<real>): (r: Option<real>)
    ensures r.Some? <==> v.Some?
    ensures r.Some? ==> r.value == -v.value
  {
    if v.Some? then Some(-v.value) else None
  }

  /** The answer of the first item, in order, that gives one. */
  function FirstAnswer<T>(xs: seq<T>, answer: T -> Option<real>): Option<real> {
    if xs == [] then None
    else if answer(xs[0]).Some? then answer(xs[0])
    else FirstAnswer(xs[1..], answer)
  }

  /** There is no answer exactly when no item gives one. */
  lemma {:induction false} FirstAnswerNone<T>(xs: seq<T>, answer: T -> Option<real>)
    ensures FirstAnswer(xs, answer).None? <==> forall i :: 0 <= i < |xs| ==> answer(xs[i]).None?
  {
    if xs != [] {
      FirstAnswerNone(xs[1..], answer);
      assert forall i :: 1 <= i < |xs| ==> xs[i] == xs[1..][i - 1];
    }
  }

  /** When item i is the first to give an answer, that is the answer. */
  lemma {:induction false} FirstAnswerAt<T>(xs: seq<T>, answer: T -> Option<real>, i: nat)
    requires i < |xs| && answer(xs[i]).Some?
    requires forall j :: 0 <= j < i ==> answer(xs[j]).None?
    ensures FirstAnswer(xs, answer) == answer(xs[i])
  {
    if i > 0 {
      assert answer(xs[0]).None?;
      assert forall j :: 0 <= j < i - 1 ==> xs[1..][j] == xs[j + 1];
      FirstAnswerAt(xs[1..], answer, i - 1);
    }
  }

  /** One step of a pass from item i: its answer if it has one, else the answer of the items after it. */
  lemma FirstAnswerStep<T>(xs: seq<T>, answer: T -> Option<real>, i: nat)
    requires i < |xs|
    ensures FirstAnswer(xs[i..], answer) ==
      if answer(xs[i]).Some? then answer(xs[i]) else FirstAnswer(xs[i + 1..], answer)
  {
    assert xs[i..][0] == xs[i] && xs[i..][1..] == xs[i + 1..];
  }

  /** Answering every item with the negated answer negates the first answer. */
  lemma {:induction false} FirstAnswerNegated<T>(xs: seq<T>, answer: T -> Option<real>, flipped: T -> Option<real>)
    requires forall x :: flipped(x) == Negated(answer(x))
    ensures FirstAnswer(xs, flipped) == Negated(FirstAnswer(xs, answer))
  {
    if xs != [] {
      FirstAnswerNegated(xs[1..], answer, flipped);
    }
  }

  /** EntryMatch for a fixed pair of nicknames, as a function of the entry. */
  function EntryAnswer(homeNick: Option<string>, awayNick: Option<string>): ((string, real)) -> Option<real> {
    entry => EntryMatch(entry, homeNick, awayNick)
  }

  /** The nickname match over the whole cache: the first entry, in insertion order, that says something. */
  function FuzzyMatch(cache: SpreadTable, homeNick: Option<string>, awayNick: Option<string>): Option<real> {
    FirstAnswer(cache, EntryAnswer(homeNick, awayNick))
  }

  /** The fuzzy match finds nothing exactly when no entry matches in either orientation. */
  lemma FuzzyMatchNone(cache: SpreadTable, homeNick: Option<string>, awayNick: Option<string>)
    ensures FuzzyMatch(cache, homeNick, awayNick).None? <==>
            forall i :: 0 <= i < |cache| ==> EntryMatch(cache[i], homeNick, awayNick).None?
  {
    FirstAnswerNone(cache, EntryAnswer(homeNick, awayNick));
  }

  /** When entry i is the first to match, the fuzzy match is what entry i says. */
  lemma FirstMatchWins(cache: SpreadTable, homeNick: Option<string>, awayNick: Option<string>, i: nat)
    requires i < |cache| && EntryMatch(cache[i], homeNick, awayNick).Some?
    requires forall j :: 0 <= j < i ==> EntryMatch(cache[j], homeNick, awayNick).None?
    ensures FuzzyMatch(cache, homeNick, awayNick) == EntryMatch(cache[i], homeNick, awayNick)
  {
    FirstAnswerAt(cache, EntryAnswer(homeNick, awayNick), i);
  }

  /** The spread for a game: the exact "home vs away" entry first, then the nickname match. */
  function MatchSpread(cache: SpreadTable, home: string, away: string): (r: Option<real>)
    ensures Lookup(cache, GameKey(home, away)).Some? ==> r == Lookup(cache, GameKey(home, away))
    ensures Lookup(cache, GameKey(home, away)).None? ==> r == FuzzyMatch(cache, Nickname(home), Nickname(away))
  {
    var exact := Lookup(cache, GameKey(home, away));
    if exact.Some? then exact else FuzzyMatch(cache, Nickname(home), Nickname(away))
  }

  /** The lookup proper: the exact key, then one pass over the cache that returns at the first match. */
  method FindSpread(cache: SpreadTable, home: string, away: string) returns (r: Option<real>)
    ensures r == MatchSpread(cache, home, away)
  {
    r := Lookup(cache, GameKey(home, away));
    if r.Some? {
      return;
    }
    var homeNick, awayNick := Nickname(home), Nickname(away);
    var i := 0;
    while i < |cache|
      invariant 0 <= i <= |cache|
      invariant FuzzyMatch(cache, homeNick, awayNick) == FirstAnswer(cache[i..], EntryAnswer(homeNick, awayNick))
    {
      FirstAnswerStep(cache, EntryAnswer(homeNick, awayNick), i);
      var answer := MatchEntry(cache[i], homeNick, awayNick);
      if answer.Some? {
        return answer;
      }
      i := i + 1;
    }
    assert cache[i..] == [];
  }

  /** The body of the pass for one entry: split its key, compare nicknames both ways round. */
  method MatchEntry(entry: (string, real), homeNick: Option<string>, awayNick: Option<string>) returns (r: Option<real>)
    ensures r == EntryMatch(entry, homeNick, awayNick)
  {
    var parts := SplitOnce(entry.0, " vs ");
    if parts.Some? {
      var cachedHome, cachedAway := Nickname(parts.value.0), Nickname(parts.value.1);
      if SameTeam(homeNick, cachedHome) && SameTeam(awayNick, cachedAway) {
        return Some(entry.1);
      }
      if SameTeam(homeNick, cachedAway) && SameTeam(awayNick, cachedHome) {
        return Some(-entry.1);
      }
    }
    return None;
  }

  /** Whether an entry matches straight or reversed, swapping the two nicknames flips the answer. */
  lemma EntryMatchSwap(entry: (string, real), homeNick: Option<string>, awayNick: Option<string>)
    requires homeNick != awayNick
    ensures EntryMatch(entry, awayNick, homeNick) == Negated(EntryMatch(entry, homeNick, awayNick))
  {
    var parts := SplitOnce(entry.0, " vs ");
    if parts.Some? {
      AnswerSwap(entry.1, Nickname(parts.value.0), Nickname(parts.value.1), homeNick, awayNick);
    }
  }

  lemma AnswerSwap(spread: real, cachedHome: Option<string>, cachedAway: Option<string>,
                   homeNick: Option<string>, awayNick: Option<string>)
    requires homeNick != awayNick
    ensures NicknameAnswer(spread, cachedHome, cachedAway, awayNick, homeNick) ==
            Negated(NicknameAnswer(spread, cachedHome, cachedAway, homeNick, awayNick))
  {
  }

  /**
   * For two different nicknames, asking with home and away swapped
   * negates the nickname match: each entry matches in at most one
   * orientation and answers with the spread's sign flipped.
   */
  lemma FuzzyMatchSwap(cache: SpreadTable, homeNick: Option<string>, awayNick: Option<string>)
    requires homeNick != awayNick
    ensures FuzzyMatch(cache, awayNick, homeNick) == Negated(FuzzyMatch(cache, homeNick, awayNick))
  {
    var straight := EntryAnswer(homeNick, awayNick);
    var swapped := EntryAnswer(awayNick, homeNick);
    forall entry
      ensures swapped(entry) == Negated(straight(entry))
    {
      EntryMatchSwap(entry, homeNick, awayNick);
    }
    FirstAnswerNegated(cache, straight, swapped);
  }

  /** A cache holding just one game, asked with the two nicknames the other way round, answers the negated spread. */
  lemma ReversedGameNegates(key: string, spread: real, home: string, away: string)
    requires SplitOnce(key, " vs ").Some?
    requires var parts := SplitOnce(key, " vs ").value;
      SameTeam(Nickname(home), Nickname(parts.1)) && SameTeam(Nickname(away), Nickname(parts.0)) &&
      Nickname(home) != Nickname(away)
    requires key != GameKey(home, away)
    ensures MatchSpread([(key, spread)], home, away) == Some(-spread)
  {
    var cache := [(key, spread)];
    assert !HasKey(cache, GameKey(home, away));
    assert EntryMatch(cache[0], Nickname(home), Nickname(away)) == Some(-spread);
    FirstMatchWins(cache, Nickname(home), Nickname(away), 0);
  }

  // ---------------------------------------------------------------- the odds client

  /** The spreads one odds request yields: none when the request failed or had no API key. */
  function FetchedSpreads(response: Option<seq<OddsGame>>): (r: SpreadTable)
    ensures UniqueKeys(r)
    ensures response.None? ==> r == []
  {
    if response.Some? then SpreadsOf(response.value) else []
  }

  /**
   * The odds client with its spread cache. The HTTP request is not modelled:
   * each method that would send one takes its decoded response as `response`.
   */
  class OddsClient {
    var spreadCache: SpreadTable

    constructor ()
      ensures spreadCache == []
    {
      spreadCache := [];
    }

    /** Scans the feed game by game, replaces the cache with the result and returns it. */
    method GetNbaSpreads(response: Option<seq<OddsGame>>) returns (spreads: SpreadTable)
      modifies this
      ensures spreads == FetchedSpreads(response) && UniqueKeys(spreads)
      ensures spreadCache == spreads
    {
      spreads := [];
      if response.Some? {
        var games := response.value;
        var i := 0;
        while i < |games|
          invariant 0 <= i <= |games|
          invariant spreads == SpreadsOf(games[..i])
        {
          var game := games[i];
          assert games[..i + 1][..i] == games[..i];
          spreads := ScanBookmakers(game.bookmakers, game.homeTeam, GameKey(game.homeTeam, game.awayTeam), spreads);
          i := i + 1;
        }
        assert games[..i] == games;
      }
      spreadCache := spreads;
    }

    /**
     * The spread of one game, from the home team's side: refetches when asked
     * to or when the cache is empty, then matches the game against the cache.
     */
    method GetSpreadForGame(home: string, away: string, refresh: bool, response: Option<seq<OddsGame>>)
      returns (r: Option<real>)
      modifies this
      ensures refresh || old(spreadCache) == [] ==> spreadCache == FetchedSpreads(response)
      ensures !refresh && old(spreadCache) != [] ==> spreadCache == old(spreadCache)
      ensures r == MatchSpread(spreadCache, home, away)
    {
      if refresh || spreadCache == [] {
        var fetched := GetNbaSpreads(response);
      }
      r := FindSpread(spreadCache, home, away);
    }
  }

  /** A cache holding just one game, asked with nicknames in the cached orientation, answers the spread itself. */
  lemma SameGameMatches(key: string, spread: real, home: string, away: string)
    requires SplitOnce(key, " vs ").Some?
    requires var parts := SplitOnce(key, " vs ").value;
      SameTeam(Nickname(home), Nickname(parts.0)) && SameTeam(Nickname(away), Nickname(parts.1))
    requires key != GameKey(home, away)
    ensures MatchSpread([(key, spread)], home, away) == Some(spread)
  {
    var cache := [(key, spread)];
    assert !HasKey(cache, GameKey(home, away));
    assert EntryMatch(cache[0], Nickname(home), Nickname(away)) == Some(spread);
    FirstMatchWins(cache, Nickname(home), Nickname(away), 0);
  }

  /** The partial-name lookup of the integration test: the nicknames alone find the full-name entry. */
  lemma NicknameMatchExample()
    ensures MatchSpread([("Los Angeles Lakers vs Boston Celtics", -3.5)], "Lakers", "Celtics") == Some(-3.5)
  {
    var key := "Los Angeles Lakers vs Boston Celtics";
    SampleKeySplits();
    LakersNicknames();
    CelticsNicknames();
    ShortKeyDiffers();
    SameGameMatches(key, -3.5, "Lakers", "Celtics");
  }

  lemma ShortKeyDiffers()
    ensures GameKey("Lakers", "Celtics") != "Los Angeles Lakers vs Boston Celtics"
  {
    assert GameKey("Lakers", "Celtics")[1] == 'a';
  }

  lemma SampleKeySplits()
    ensures SplitOnce("Los Angeles Lakers vs Boston Celtics", " vs ") == Some(("Los Angeles Lakers", "Boston Celtics"))
  {
    assert 'v' !in "Los Angeles Lakers";
    assert "Los Angeles Lakers" + " vs " + "Boston Celtics" == "Los Angeles Lakers vs Boston Celtics";
    SplitAfter("Los Angeles Lakers", "Boston Celtics", "Los Angeles Lakers vs Boston Celtics");
  }

  lemma SplitAfter(home: string, away: string, key: string)
    requires 'v' !in home && key == home + " vs " + away
    ensures SplitOnce(key, " vs ") == Some((home, away))
  {
    SplitOnceAt(home, " vs ", away);
  }

  lemma LakersNicknames()
    ensures Nickname("Lakers") == Some("lakers") && Nickname("Los Angeles Lakers") == Some("lakers")
  {
    assert Lower("Lakers") == "lakers";
    WordsOfWord("lakers");
    LosAngelesNickname();
  }

  lemma LosAngelesNickname()
    ensures Nickname("Los Angeles Lakers") == Some("lakers")
  {
    LowerLosAngeles();
    assert NoSpace("los") && NoSpace("angeles") && NoSpace("lakers");
    WordsPair("angeles", "lakers");
    WordsCons("los", "angeles" + " " + "lakers");
  }

  lemma LowerLosAngeles()
    ensures Lower("Los Angeles Lakers") == "los" + " " + ("angeles" + " " + "lakers")
  {
  }

  lemma CelticsNicknames()
    ensures Nickname("Celtics") == Some("celtics") && Nickname("Boston Celtics") == Some("celtics")
  {
    assert Lower("Boston Celtics") == "boston" + " " + "celtics";
    assert Lower("Celtics") == "celtics";
    assert NoSpace("boston");
    assert NoSpace("celtics");
    WordsPair("boston", "celtics");
    WordsOfWord("celtics");
  }
}
