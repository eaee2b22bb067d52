# nbapicks in Dafny

A Dafny model of the decision logic of the nbapicks repository, with proofs
of what that logic promises.

The centre of the model is the live NBA win-probability predictor
(`newapp/predictor/model.py`, in `win_model.dfy`). It covers these stages:

- clock parsing and minutes played and remaining, in regulation and overtime;
- the possession and effective-field-goal primitives;
- the lead, spread, efficiency and possession-edge factors, each squashed by tanh;
- weight normalisation, the combined score with overtime dampening, and the sigmoid;
- the lead that would flip the game to 50%, and the blowout override;
- the confidence ladder, the trailing-edge and underdog alerts, and the game-status classifier;
- `predict`, which assembles all of the above.

The predictor's defaults (`newapp/predictor/config.py`) form the `Config` value in `predictor_config.dfy`.

Around the predictor, the model covers:

- the pure parts of its data clients (`data_fetcher.dfy`) and terminal display (`display.dfy`);
- the subtitle tools: `json_to_srt.dfy`, `translate_srt.dfy` and `youtube_segment.dfy`;
- the player-prop pick generators:
  - points picks (`points_picks.dfy`);
  - the points simulation engine (`simulation_engine.dfy`) and the multi-stat engine (`simulation_engine_v3.dfy`);
  - the auto-tuner (`auto_tune.dfy`) and the weight optimiser (`simulate_weights.dfy`);
  - the live-lines merge (`fetch_live_lines_v3.dfy`) and the parlay optimizer (`parlay_optimizer_v3.dfy`);
  - the single-game pick generator (`generate_picks.dfy`);
  - the simulation-driven and strict pick finalizers (`generate_picks_from_simulation.dfy`, `finalize_picks_strict.dfy`).

Six support modules hold what is shared:

- `Wrappers`: `Option` and `Result`;
- `Text`: Python's string operations — strip, split, join, `int()` and replace, with lower and upper on ASCII letters (lower also on Armenian capitals);
- `Arith`: abs, max, min, truncation, `round` and the `_cap` clamp;
- `Lists`: filters and slices;
- `Sorting`: Python's stable `sort` on one or two keys;
- `Numerics`: tanh, atanh, exp and sqrt.

Quantities are Dafny `real`s. tanh, atanh, exp and sqrt are values of a
record, `Numerics.RealOps`, and `Numerics.Lawful` states the mathematical laws the
proofs use:

- tanh is odd and strictly increasing, with values in (−1, 1);
- atanh inverts tanh;
- exp is positive and increasing;
- sqrt is non-negative and squares back.

Python dictionaries whose iteration order matters are association lists, except the live-lines slate (see "## Left out"). A
raised exception is an `Err` value, and a `None` result is `None`.

HTTP responses, file contents and random draws are parameters of the
functions that use them. The same holds for Python's float-to-text formatting.

Three behaviours of the source that look unintended are modelled exactly as written:

- `parse_clock("12")` gives `(12, 0)`, because a colon-less clock reads its seconds as `'0'`
  (`WinModel.ParseClockColonless`), although the test suite expects no result.
- `compute_adjustment_score` in `simulation_engine.py` reads `form_adj` before
  assigning it when the season average is not positive. The model returns an
  `Err` there (`SimulationEngine.ComputeAdjustmentScore`).
- `generate_picks_from_simulation.py` adds the pace adjustment twice: once in
  the GOAT score and again when a candidate is built
  (`GeneratePicksFromSimulation.PaceCountedTwice`).

## Model

| member | source | states |
|---|---|---|
| WinModel.ParseClock | newapp/predictor/model.py:81-97 | a missing or empty clock gives None; a result carries as its minutes int() of the text before the first colon; ParseClockOfParts, ParseClockRoundTrip and the lemmas below pin the seconds and every failure |
| WinModel.ParseClockOfParts | newapp/predictor/model.py:81-97 | a clock "M:rest" yields (int(M), int of `rest` up to its first '.'), or None when either field is not an integer |
| WinModel.ParseClockRoundTrip | newapp/predictor/model.py:81-97 | every clock "M:SS" or "M:SS.t" reads back as the same minutes and seconds |
| WinModel.ParseClockWithoutColon | newapp/predictor/model.py:81-97 | a colon-less all-digit clock such as "12" parses as (12, 0) through the `else '0'` branch |
| WinModel.ParseClockMissing | newapp/predictor/model.py:81-97 | a missing or empty clock gives None |
| WinModel.ParseClockColonless | newapp/predictor/model.py:81-97 | a clock without a colon reads its minutes from the whole text and zero seconds, or None when that text is not an integer |
| WinModel.ParseClockBadMinutes | newapp/predictor/model.py:81-97 | a clock whose minutes field is not an integer does not parse, whatever follows the colon |
| WinModel.TimeValues | newapp/predictor/model.py:100-119 | minutes remaining is never negative; remaining + played is 48 in regulation and 48 + 5 per overtime period |
| WinModel.TimeValuesExamples | newapp/predictor/model.py:100-119 | the quarter and overtime clock readings give the expected (remaining, played) pairs, e.g. Q5 2:30 is (2.5, 50.5) |
| WinModel.Possessions | newapp/predictor/model.py:122-129 | the estimate is fga + 0.44 fta + tov - orb, floored at 1 |
| WinModel.Efg | newapp/predictor/model.py:132-140 | eFG times fga is fgm + 0.5 fg3m; 0 with no attempts |
| WinModel.TovRate | newapp/predictor/model.py:143-145 | the rate times the possessions is the turnovers |
| WinModel.Progress | newapp/predictor/model.py:164 | game progress lies in [0, 1] and is 1 exactly from 48 minutes played on |
| WinModel.ProgressMonotone | newapp/predictor/model.py:164 | more minutes played never lowers the progress |
| WinModel.LeadWeight | newapp/predictor/model.py:165-167 | the lead weight lies between the configured minimum and maximum and is the maximum from 48 minutes on |
| WinModel.LeadWeightMonotone | newapp/predictor/model.py:165-167 | the lead weight never decreases as the game goes on |
| WinModel.LeadFactor | newapp/predictor/model.py:148-176 | the lead factor is active, named "lead", carries the raw lead and the progress weight, and its advantage is tanh(scale * (lead - hca) / sqrt(remaining + 1)) |
| WinModel.LeadAdvantageSign | newapp/predictor/model.py:159-162 | the lead advantage favours home exactly when the raw lead exceeds the home-court adjustment, and away exactly when it is below it |
| WinModel.SpreadFactor | newapp/predictor/model.py:179-205 | no spread gives an inactive factor with weight and advantage 0; a spread gives an active factor with the base weight |
| WinModel.SpreadAdvantageSign | newapp/predictor/model.py:179-205 | a negative (home-favoured) spread gives home the advantage and a positive one gives it to away |
| WinModel.EfficiencyFactor | newapp/predictor/model.py:208-248 | the efficiency advantage is the tanh of the scaled difference between the two teams' eFG gains over their season eFG; the factor is gated exactly when too few minutes or possessions have passed, and then takes the gated weight |
| WinModel.EfficiencyAdvantageSign | newapp/predictor/model.py:228-231 | with a positive scale, the efficiency advantage favours home exactly when home beats its season eFG by more than away beats its own, and away exactly in the opposite case |
| WinModel.PossessionEdgeFactor | newapp/predictor/model.py:251-285 | the possession-edge advantage is the tanh of the scaled extra possessions per possession played (total floored at 1); the factor carries the extra-possession count and is gated exactly when too few minutes or possessions have passed |
| WinModel.PossessionEdgeAdvantageSign | newapp/predictor/model.py:262-266 | with a positive scale, the possession edge favours home exactly when home earned extra possessions, and away exactly when away did |
| WinModel.Rescaled | newapp/predictor/model.py:288-313 | rescaling changes only the weight of an active factor, to weight / total |
| WinModel.RescaledSum | newapp/predictor/model.py:288-313 | the active weights of the rescaled list sum to the old sum over the total |
| WinModel.NormalizeWeights | newapp/predictor/model.py:288-313 | with a zero active weight sum the list is returned unchanged; otherwise every factor is rescaled and the active weights sum to 1 |
| WinModel.WeightedSumBounded | newapp/predictor/model.py:316-327 | with non-negative weights and advantages in [-1, 1] the weighted sum lies within plus or minus the active weight sum |
| WinModel.CombinedScore | newapp/predictor/model.py:316-327 | for well-formed factors and a damping factor in [0, 1] the combined score stays within plus or minus the active weight sum, and overtime damping never enlarges it; OvertimeDamps relates the overtime and regulation scores |
| WinModel.OvertimeDamps | newapp/predictor/model.py:322-327 | the overtime score is the regulation score times ot_dampen_factor; with a factor in [0, 1) a non-zero score strictly shrinks in size and keeps its sign, so a positive score drops below its regulation value |
| WinModel.OvertimeDampingExample | newapp/tests/test_model.py:395-406 | two active factors with a regulation score of 0.4 score 0.32 in overtime under the shipped damping of 0.8, below the regulation score |
| WinModel.CombinedScoreWithinUnit | newapp/predictor/model.py:316-327 | after normalisation the combined score, dampened in overtime, lies in [-1, 1] |
| WinModel.WinProbability | newapp/predictor/model.py:330-339 | the two win probabilities sum to 1 |
| WinModel.WinProbabilityShape | newapp/predictor/model.py:330-339 | both probabilities lie strictly in (0, 1); home is above 50% exactly for a positive combined score, below it exactly for a negative one, and a zero score gives (0.5, 0.5) |
| WinModel.WinProbabilityMonotone | newapp/predictor/model.py:330-339 | a larger combined score never lowers the home probability |
| WinModel.FirstNamed | newapp/predictor/model.py:350 | the factor found is in the list and has the name asked for; none is found exactly when no factor has it |
| WinModel.FirstNamedIsFirst | newapp/predictor/model.py:350 | the factor found is the first one with that name: it sits at some index and no earlier factor has the name |
| WinModel.FlipLeadHome | newapp/predictor/model.py:342-365 | a flip lead exists exactly when the lead factor is active with a non-zero weight and the target advantage lies strictly inside (-0.999, 0.999) |
| WinModel.FlipLeadBalances | newapp/predictor/model.py:342-365 | at the flip lead the lead factor's weighted advantage exactly cancels the other factors, putting the game at 50% |
| WinModel.AdvantageAtFlip | newapp/predictor/model.py:358-363 | the lead a / scale * sqrt(remaining + 1) + hca gives back the tanh argument a, so the flip lead inverts the lead advantage |
| WinModel.UnderdogTeam | newapp/predictor/model.py:368-376 | no underdog without a spread or on a pick'em; home is the underdog exactly for a positive spread |
| WinModel.UnderdogOpposesSpreadFactor | newapp/predictor/model.py:179-205 | the underdog is always the side the spread factor works against |
| WinModel.UnderdogWatch | newapp/predictor/model.py:379-418 | no underdog gives nothing; a blowout, too few minutes or stale data give the probability without a watch; otherwise the watch fires exactly when the probability reaches the threshold, the combined score is within the flip buffer, or a trailing-edge alert names the underdog, and the reason is the first of these that holds |
| WinModel.UnderdogCloseToFlip | newapp/predictor/model.py:421-446 | true exactly when the underdog is below 50%, every gate passes and both the combined score and the flip swing are within their thresholds |
| WinModel.CheckBlowout | newapp/predictor/model.py:449-469 | a blowout exactly when the lead reaches the threshold late in the game; its pinned probabilities sum to 1 and favour the leader |
| WinModel.ActiveAdvantages | newapp/predictor/model.py:481 | the list is empty exactly when no factor is active |
| WinModel.RangeWithin | newapp/predictor/model.py:486 | max - min is within a bound exactly when every pair of values is |
| WinModel.ConfidenceLevel | newapp/predictor/model.py:472-511 | 'Low' exactly on no active factor, critically stale data, a factor spread above 0.20 or under 12 minutes; 'High' exactly when not Low, same sign, fresh, from 24 minutes and with a spread |
| WinModel.TrailingSide | newapp/predictor/model.py:514-553 | no trailing side on a tie; home trails exactly when it has fewer points |
| WinModel.CheckTrailingEdge | newapp/predictor/model.py:514-553 | the one-pass count gives the trailing side and the alert of the factor-count specification |
| WinModel.NoActiveNoneFavoring | newapp/predictor/model.py:514-553 | with no active factor no factor favours the trailing side |
| WinModel.GameStatus | newapp/predictor/model.py:556-570 | "Final" exactly for a final status; pre-game exactly when not final and period 0 or no clock; halftime exactly at 0:00 of period 2 and between-quarters exactly at 0:00 of periods 1 and 3 when not final; in progress in every other case |
| WinModel.RawFactors | newapp/predictor/model.py:607-635 | the list is exactly the lead, spread and efficiency factors of the inputs, followed by the possession-edge factor exactly when it is enabled outside pre-game; before tip-off lead and efficiency are the inactive zero-weight placeholders, and every inactive factor weighs 0 |
| WinModel.InactiveWeightless | newapp/predictor/model.py:637-640 | when every inactive factor weighs 0 the total weight is the active weight |
| WinModel.RawFactorsWellFormed | newapp/predictor/model.py:607-635 | every factor advantage is a tanh value and, with a sane configuration, every active weight is non-negative |
| WinModel.ActiveWeightNonNegative | newapp/predictor/model.py:288-313 | well-formed factors have a non-negative active weight sum |
| WinModel.NormalizedScoreWithinUnit | newapp/predictor/model.py:642-647 | normalised well-formed factors stay well formed with active weights summing to 1, and their combined score lies in [-1, 1] |
| WinModel.Predict | newapp/predictor/model.py:573-717 | None exactly when the raw weights sum to 0; otherwise the timing, the normalised factors, the probabilities (or the blowout override), the flip lead and the alerts of their specifications |
| WinModel.Assess | newapp/predictor/model.py:645-717 | after normalisation: the combined score, probabilities or blowout override, flip lead and alerts of their specifications |
| PredictorConfig.DefaultIsSane | newapp/predictor/config.py:13-68 | the shipped configuration has non-negative weights, a lead weight minimum below its maximum and positive scales |
| DataFetcher.SeasonFromTotals | newapp/predictor/data_fetcher.py:152-166 | eFG times fga is fgm + 0.5 fg3m when fga > 0, else the league average; the turnover rate times the possessions is the turnovers when they are positive, else the league average; missing counts read as their defaults |
| DataFetcher.SeasonStatsOf | newapp/predictor/data_fetcher.py:152-179 | no season row gives the league averages; otherwise the stats of the first row |
| DataFetcher.EmptyRowIsLeagueAverage | newapp/predictor/data_fetcher.py:152-166 | a row with zero field-goal attempts and every other field missing falls back to both league averages |
| DataFetcher.ParseTeamStats | newapp/predictor/data_fetcher.py:198-210 | each count is read from the side's box score, 0 when missing; a missing side gives all zeros |
| DataFetcher.Take3 | newapp/predictor/data_fetcher.py:189-190 | the slice [:3] is the first min(3, len) characters |
| DataFetcher.Abbreviation | newapp/predictor/data_fetcher.py:189-190 | the given abbreviation, else the first three letters of the full name (or the fallback) upper-cased |
| DataFetcher.ParseGameState | newapp/predictor/data_fetcher.py:181-196 | every field is read from the game with its default: "Home"/"Away", "HOM"/"AWY", scores and period 0, the clock as given, status "" |
| DataFetcher.Lookup | newapp/predictor/data_fetcher.py:309-310 | dict lookup: absent exactly when no entry has the key; otherwise the value of the first entry with it |
| DataFetcher.LookupEntry | newapp/predictor/data_fetcher.py:309-310 | in a dict with unique keys every entry's key looks up its own value |
| DataFetcher.Put | newapp/predictor/data_fetcher.py:285 | dict assignment overwrites the entry with the key in place, or appends a new one |
| DataFetcher.PutKeepsUnique | newapp/predictor/data_fetcher.py:285 | assignment keeps the keys unique |
| DataFetcher.LookupPutSame | newapp/predictor/data_fetcher.py:285 | after d[key] = v, looking up key gives v |
| DataFetcher.LookupPutOther | newapp/predictor/data_fetcher.py:285 | after d[key] = v, every other key looks up as before |
| DataFetcher.HomePoint | newapp/predictor/data_fetcher.py:282-286 | the point of the first outcome named after the home team (0 when missing), none when no outcome is |
| DataFetcher.LastOfferNone | newapp/predictor/data_fetcher.py:280-286 | a bookmaker offers no spread exactly when none of its markets does |
| DataFetcher.ScanMarkets | newapp/predictor/data_fetcher.py:280-286 | the market loop keeps the dict's keys unique |
| DataFetcher.ScanMarketsEffect | newapp/predictor/data_fetcher.py:280-286 | the market loop leaves other keys alone and leaves the game's key holding the last spreads market's home point, untouched when no market offers one |
| DataFetcher.ScanBookmakers | newapp/predictor/data_fetcher.py:279-288 | the bookmaker loop keeps the dict's keys unique |
| DataFetcher.FirstBookOffer | newapp/predictor/data_fetcher.py:279-288 | no offer exactly when no bookmaker offers a home point |
| DataFetcher.ScanBookmakersEffect | newapp/predictor/data_fetcher.py:279-288 | the loop stops at the first bookmaker that sets the key: other keys keep their values and a new key gets the first bookmaker's offer |
| DataFetcher.SpreadsOf | newapp/predictor/data_fetcher.py:271-291 | the spreads dict has unique keys |
| DataFetcher.SpreadKeysFromFeed | newapp/predictor/data_fetcher.py:271-291 | every key of the dict is "home vs away" of some game of the feed |
| DataFetcher.KeyAbsentFromFeed | newapp/predictor/data_fetcher.py:271-291 | a key that no game has is not in the dict |
| DataFetcher.SpreadOfGame | newapp/predictor/data_fetcher.py:271-291 | a game whose key no other game shares maps to its first bookmaker's home point |
| DataFetcher.SampleFeedSpread | newapp/predictor/data_fetcher.py:271-291 | a one-game sample feed yields "Los Angeles Lakers vs Boston Celtics" at -3.5 |
| DataFetcher.SampleOffer | newapp/predictor/data_fetcher.py:279-288 | the sample game's first bookmaker offers the home point -3.5 |
| DataFetcher.Nickname | newapp/predictor/data_fetcher.py:313-315 | the last word of the lower-cased name; none exactly when the name has no words |
| DataFetcher.Negated | newapp/predictor/data_fetcher.py:336 | the negation keeps presence and flips the value's sign |
| DataFetcher.FirstAnswerNone | newapp/predictor/data_fetcher.py:321-338 | the scan finds nothing exactly when no entry answers |
| DataFetcher.FirstAnswerAt | newapp/predictor/data_fetcher.py:321-338 | the scan returns the answer of the first entry that has one |
| DataFetcher.FuzzyMatchNone | newapp/predictor/data_fetcher.py:321-338 | the fuzzy match fails exactly when no cached entry matches either way round |
| DataFetcher.FirstMatchWins | newapp/predictor/data_fetcher.py:321-338 | the first cached entry, in order, that matches decides the answer |
| DataFetcher.MatchSpread | newapp/predictor/data_fetcher.py:307-338 | an exact key wins; otherwise the nickname fuzzy match |
| DataFetcher.FindSpread | newapp/predictor/data_fetcher.py:307-338 | the loop over the cache returns the spread of the matching specification |
| DataFetcher.MatchEntry | newapp/predictor/data_fetcher.py:322-336 | one cached entry's answer: its spread on a same-side match, its negation on a reversed one, skipped without " vs " |
| DataFetcher.EntryMatchSwap | newapp/predictor/data_fetcher.py:322-336 | asking with home and away swapped negates an entry's answer |
| DataFetcher.FuzzyMatchSwap | newapp/predictor/data_fetcher.py:321-338 | asking with home and away swapped negates the fuzzy match |
| DataFetcher.ReversedGameNegates | newapp/predictor/data_fetcher.py:333-336 | a cached game whose sides match the other way round answers with the negated spread |
| DataFetcher.SameGameMatches | newapp/predictor/data_fetcher.py:328-331 | a cached game whose sides match by nickname answers with its spread |
| DataFetcher.NicknameMatchExample | newapp/predictor/data_fetcher.py:293-338 | "Lakers" vs "Celtics" finds the "Los Angeles Lakers vs Boston Celtics" spread by nickname |
| DataFetcher.LakersNicknames | newapp/predictor/data_fetcher.py:313-315 | "Lakers" and "Los Angeles Lakers" share the nickname "lakers" |
| DataFetcher.CelticsNicknames | newapp/predictor/data_fetcher.py:313-315 | "Celtics" and "Boston Celtics" share the nickname "celtics" |
| DataFetcher.FetchedSpreads | newapp/predictor/data_fetcher.py:262-291 | the fetched dict has unique keys and is empty when the request failed |
| DataFetcher.OddsClient.constructor | newapp/predictor/data_fetcher.py:218-222 | a new client starts with an empty spread cache |
| DataFetcher.OddsClient.GetNbaSpreads | newapp/predictor/data_fetcher.py:256-291 | the spreads of the feed, which also replace the cache |
| DataFetcher.OddsClient.GetSpreadForGame | newapp/predictor/data_fetcher.py:293-338 | the cache is refreshed exactly on request or when empty, and the answer is the matching specification's over the cache |
| Display.QuarterLabel | newapp/predictor/display.py:26-30 | the period label ("Q1".."Q4", "OT", "OT2", ...) is non-empty and holds no space |
| Display.QuarterLabelRoundTrip | newapp/predictor/display.py:21-34 | every period has its own label: reading the label back gives the period |
| Display.FormatClock | newapp/predictor/display.py:21-34 | "Pre-game" for period 0; the bare period label without a clock |
| Display.FormatClockSplits | newapp/predictor/display.py:21-34 | with a clock, the text is the period label, one space, then the clock unchanged |
| Display.ConfidenceColor | newapp/predictor/display.py:37-44 | High is green, Medium yellow and Low red, and white is given exactly for any other text |
| Display.LevelColorsDistinct | newapp/predictor/display.py:37-44 | the three confidence levels get three different colours, none of them white |
| Display.FavorText | newapp/predictor/display.py:47-54 | above 0.01 the home team's first three letters upper-cased in green with "+" and the two-decimal advantage, below -0.01 the away team's in red with the two-decimal advantage, else the neutral mark in white with "0.00"; the neutral mark is the three-character literal "â€”" as the file holds it (a mis-encoded em dash) |
| Display.FavorMirror | newapp/predictor/display.py:47-54 | negating the advantage and swapping the teams names the same team; white exactly within 0.01 |
| Display.ProbabilityBar | newapp/predictor/display.py:57-61 | for a probability in [0, 1] the bar is int(prob * width) full cells then empty ones up to `width`; each cell is the three-character literal "â–ˆ" or "â–‘" as the file holds it, so the text is 3 * width characters long |
| Display.BarCell | newapp/predictor/display.py:57-61 | read in three-character cells, the k-th cell of the bar is the full cell exactly when k < int(prob * width), and the empty cell otherwise |
| Display.BarFilledMonotone | newapp/predictor/display.py:57-61 | a higher probability never fills fewer cells |
| Display.FormatFlipLead | newapp/predictor/display.py:64-70 | "PK" within 0.05 of zero; otherwise the leading side's abbreviation and the size of the lead |
| Display.FlipLeadMirror | newapp/predictor/display.py:64-70 | negating the flip lead and swapping the abbreviations gives the same text |
| Display.GameStatusText | newapp/predictor/display.py:249-278 | scheduled exactly for an empty or date-time-looking status; "Unknown" for an empty one, the Pacific time when it converts, else the status itself |
| Display.FinalStatusUnchanged | newapp/predictor/display.py:249-278 | "Final" is shown as is and is not scheduled |
| JsonToSrt.TimestampOf | json_to_srt.py:41-51 | the minutes and seconds fields are below 60 and the milliseconds at most 999 (1000 after rounding is clamped) |
| JsonToSrt.FmtTime | json_to_srt.py:32-53 | the SRT layout HH:MM:SS,mmm: at least 12 characters, with colons before the two-digit minutes and seconds and a comma before the three-digit milliseconds; the lemmas below give the fields and the documented examples |
| JsonToSrt.FmtTimeClampsNegative | json_to_srt.py:41-42 | a negative time is written as 00:00:00,000 |
| JsonToSrt.TimestampRoundTrip | json_to_srt.py:32-53 | the fields of a timestamp are read back exactly from the seconds they stand for |
| JsonToSrt.FmtTimeHalfSecond | json_to_srt.py:32-53 | 3.5 seconds is written 00:00:03,500, as the function's own documentation says |
| JsonToSrt.FmtTimeLong | json_to_srt.py:32-53 | 2672.656 seconds is written 00:44:32,656, as the function's own documentation says |
| JsonToSrt.Keep | json_to_srt.py:69-77 | a whitespace-only word is skipped; any other is kept with its text stripped and no blank text |
| JsonToSrt.KeptWordsClean | json_to_srt.py:67-77 | every word that is kept has a non-blank stripped text |
| JsonToSrt.LoadedWordsClean | json_to_srt.py:56-79 | every loaded word over all segments has a non-blank stripped text |
| JsonToSrt.KeptWordsCount | json_to_srt.py:67-77 | exactly the non-blank entries are kept |
| JsonToSrt.LoadWords | json_to_srt.py:56-79 | the nested loop over segments and words gives the loaded-words specification |
| JsonToSrt.JoinWord | json_to_srt.py:118-130 | the existing text is a prefix of the result; no space before a word starting with break punctuation, one space otherwise, the new word alone after empty text |
| JsonToSrt.NoBreakBeforeMeans | json_to_srt.py:166-169 | a group has no punctuation break before its last word exactly when no earlier word closes it |
| JsonToSrt.AddWordKeeps | json_to_srt.py:132-169 | one turn of the word loop keeps every closed group within the character and duration limits and without an inner punctuation break |
| JsonToSrt.TurnAllOrder | json_to_srt.py:132-172 | the closed groups and the open one, concatenated, are the words in their order |
| JsonToSrt.GroupingOfOk | json_to_srt.py:132-169 | after any number of words every group respects the limits |
| JsonToSrt.GroupsPartition | json_to_srt.py:82-174 | the groups partition the words in order, and each one respects the limits |
| JsonToSrt.GroupsNoMoreThanWords | json_to_srt.py:82-174 | there are never more groups than words |
| JsonToSrt.SubtitlesOf | json_to_srt.py:107-112 | one subtitle per group, from its first word's start to its last word's end with the joined text |
| JsonToSrt.Subtitles | json_to_srt.py:93-94 | no words give no subtitles, and never more subtitles than words |
| JsonToSrt.OverflowsWith | json_to_srt.py:138-156 | the loop's break test is exactly an open subtitle that would exceed the duration or the character limit |
| JsonToSrt.ClosesWith | json_to_srt.py:166-169 | the punctuation break is exactly a long enough text ending in break punctuation |
| JsonToSrt.SubtitleBuilder.constructor | json_to_srt.py:96-102 | no subtitles and an empty open state |
| JsonToSrt.SubtitleBuilder.FinalizeSubtitle | json_to_srt.py:104-116 | the open subtitle, when it has words, is appended; the open state is reset |
| JsonToSrt.SubtitleBuilder.Push | json_to_srt.py:132-169 | one word: close before an overflowing word, add it, close after a punctuation break, as one turn of the grouping specification |
| JsonToSrt.SubtitleBuilder.AppendWord | json_to_srt.py:158-164 | the word joins the open subtitle, its text joined on and the start set only for the first word |
| JsonToSrt.Finalized | json_to_srt.py:104-116 | the open group is closed when non-empty and nothing stays open |
| JsonToSrt.BuildSubtitles | json_to_srt.py:82-174 | the builder's subtitles are the subtitles of the word grouping |
| JsonToSrt.SrtLinesLayout | json_to_srt.py:191-196 | four lines per subtitle: its 1-based number, "start --> end", its text and a blank line |
| JsonToSrt.WriteSrt | json_to_srt.py:177-199 | the file content is the SRT lines joined with newlines |
| JsonToSrt.WriteBlocks | json_to_srt.py:191-199 | the loop's lines, joined with newlines, are the SRT lines of the subtitles |
| TranslateSrt.GlossaryWellFormed | translate_srt.py:19-54 | every glossary term and its replacement are non-empty and the replacements start with a visible character |
| TranslateSrt.TranslateText | translate_srt.py:10-75 | the replacement loop over the glossary, the four phrase replacements and the final strip give the translation specification |
| TranslateSrt.ApplyGlossary | translate_srt.py:64-66 | no contract of its own: TranslateText ties the loop to it, GlossaryKeepsVisible states that it never blanks visible text, and GlossaryIdle that text with no glossary term is left alone |
| TranslateSrt.GlossaryKeepsVisible | translate_srt.py:64-66 | the glossary replacements never turn text with a visible character into blank text |
| TranslateSrt.PhrasesKeepVisible | translate_srt.py:70-73 | the phrase replacements never turn text with a visible character into blank text |
| TranslateSrt.TranslationVisible | translate_srt.py:10-75 | non-blank text translates to non-empty text with no surrounding whitespace |
| TranslateSrt.BlankUnchanged | translate_srt.py:14-15 | empty or whitespace-only text is returned as it is |
| TranslateSrt.GlossaryIdle | translate_srt.py:64-66 | text containing no glossary term, in either case form, is left alone by the replacements |
| TranslateSrt.UntouchedTextStripped | translate_srt.py:10-75 | text with no glossary term and no phrase is only stripped |
| TranslateSrt.ProcessLines | translate_srt.py:77-115 | one output line per input line, each the output of the line rule with the script's glossary |
| TranslateSrt.OutputAt | translate_srt.py:88-105 | the output at each position is the line rule applied to the input line at that position |
| TranslateSrt.ProcessLinesWith | translate_srt.py:85-105 | the while loop over the lines builds the line-by-line outputs |
| TranslateSrt.ProcessLine | translate_srt.py:89-103 | one line's output is the line rule's |
| TranslateSrt.StructuralLinesKept | translate_srt.py:92-96 | index lines, timestamp lines and blank lines are kept exactly, newline included |
| TranslateSrt.TextLineTranslated | translate_srt.py:97-103 | a text line becomes its (non-empty) translation plus a newline |
| YoutubeSegment.ParseTime | download_youtube_segment.py:25-46 | no contract of its own: ParseTimeSeconds, ParseTimeMalformed, ParseTimeBadField and ParseFormatRoundTrip state that a plain number reads as itself, a shape other than two or three fields is an invalid format, an unreadable field rejects the time, and every formatted time reads back |
| YoutubeSegment.ColonTime | download_youtube_segment.py:38-46 | anything but two or three colon-separated fields is an invalid format; a result means every field was read by int() |
| YoutubeSegment.AllFieldsOf | download_youtube_segment.py:40-43 | map(int, parts) succeeds with the values read from each field |
| YoutubeSegment.AllFieldsFail | download_youtube_segment.py:40-43 | map(int, parts) fails as soon as one field is not an integer |
| YoutubeSegment.SecondsTextIsInt | download_youtube_segment.py:34-35 | a text that the digits pattern accepts (optionally with a final newline) is read by int() as its digits' value |
| YoutubeSegment.ParseTimeSeconds | download_youtube_segment.py:34-35 | a plain number of seconds parses as itself |
| YoutubeSegment.ParseTimeMalformed | download_youtube_segment.py:45-46 | a text that is not a number and has neither two nor three fields is rejected as an invalid format |
| YoutubeSegment.ParseTimeBadField | download_youtube_segment.py:39-44 | a field that int() cannot read rejects the time |
| YoutubeSegment.ClockFields | download_youtube_segment.py:161-169 | format_time writes two or three fields, each non-empty digits |
| YoutubeSegment.FormatTime | download_youtube_segment.py:161-169 | no contract of its own: FormatTimeSplits, FormatTimeFields and ParseFormatRoundTrip state that it writes H:MM:SS from one hour on and M:SS below, and that the time parser reads it back |
| YoutubeSegment.FormatTimeSplits | download_youtube_segment.py:161-169 | splitting a formatted time at ':' gives back its fields |
| YoutubeSegment.FormatTimeFields | download_youtube_segment.py:166-169 | three fields from one hour on, two below it |
| YoutubeSegment.FormattedNotSecondsText | download_youtube_segment.py:34 | a formatted time never takes parse_time's pure-seconds branch |
| YoutubeSegment.ClockArithmetic | download_youtube_segment.py:163-165 | splitting a number of seconds into hours, minutes and seconds and recombining them as parse_time does gives it back |
| YoutubeSegment.FieldsOfFormattedTime | download_youtube_segment.py:161-169 | int() reads back exactly the hour, minute and second values that were written |
| YoutubeSegment.ParseFormatRoundTrip | download_youtube_segment.py:25-46 | parse_time reads back every time format_time writes: the two are inverse on whole seconds |
| YoutubeSegment.HourExample | download_youtube_segment.py:25-46 | 5025 seconds formats as "1:23:45" and "1:23:45" parses as 5025, the example of the script's documentation |
| YoutubeSegment.FormatTimeNegative | download_youtube_segment.py:161-169 | a negative time prints as its remainder modulo an hour, since the hour field is then never positive |
| YoutubeSegment.SegmentSpan | download_youtube_segment.py:84-98 | a span's duration is positive and is end - start; the start is parsed first; an end time wins over a duration; neither gives the missing-length error |
| YoutubeSegment.Checked | download_youtube_segment.py:97-98 | a span is accepted exactly when its duration is positive |
| YoutubeSegment.EndOrDurationAgree | download_youtube_segment.py:84-98 | asking by an end time of start + d or by a duration of d gives the same segment |
| YoutubeSegment.SpanByEnd | download_youtube_segment.py:88-90 | with an end time the span runs from the start to it |
| YoutubeSegment.SpanByDuration | download_youtube_segment.py:91-93 | with only a duration the span ends that long after the start |
| PointsPicks.NormalizeStatus | points_picks.py:50-57 | a missing or empty status is AVAILABLE; any other is stripped and upper-cased, with GTD and GAME TIME DECISION read as QUESTIONABLE |
| PointsPicks.StatusOfNormalForm | points_picks.py:50-57 | a stripped, upper-case status is kept as it is, except that GTD and GAME TIME DECISION become QUESTIONABLE |
| PointsPicks.CapitalsNormalForm | points_picks.py:50-57 | a status made only of capitals is already stripped and upper-case |
| PointsPicks.CapitalStatusKept | points_picks.py:50-57 | a capital-letter status other than GTD normalises to itself |
| PointsPicks.AvailableKept | points_picks.py:50-57 | AVAILABLE normalises to itself |
| PointsPicks.QuestionableKept | points_picks.py:50-57 | QUESTIONABLE normalises to itself |
| PointsPicks.NormalizeStatusIdempotent | points_picks.py:50-57 | normalising an already normalised, non-empty status changes nothing |
| PointsPicks.IsActiveIgnoresCase | points_picks.py:50-57 | two statuses that agree after strip and upper-case normalise alike, so one is active exactly when the other is |
| PointsPicks.BlankStatusIsEmpty | points_picks.py:50-57 | an all-blank status normalises to the empty text and does not exclude the player |
| PointsPicks.InactiveExactly | points_picks.py:47-57 | a player is excluded exactly when the status is present, non-empty, and its stripped upper-case form is OUT or DOUBTFUL |
| PointsPicks.PunctuationMarks | points_picks.py:78-79 | every mark the name normaliser deletes is a non-empty text |
| PointsPicks.RemoveMarks | points_picks.py:78-79 | the loop deletes each listed mark in turn, giving the text the specification function describes |
| PointsPicks.NormalizeNameForMatch | points_picks.py:74-83 | the method computes the normalised name (lower-cased, marks deleted, a trailing jr, sr, ii, iii, iv or v dropped, words single-spaced) |
| PointsPicks.NormalizedName | points_picks.py:74-83 | no contract of its own: NormalizeNameForMatch ties the loop to it, and NormalizedNameShape, NormalizeTwice and NormalizeIdempotentIff state its shape (lower case, no marks, no outer blanks, one suffix word dropped) and when normalising again changes nothing |
| PointsPicks.NormalizedNameShape | points_picks.py:74-83 | the normalised name has no '.' or ',', is unchanged by lower-casing, has no outer blanks, and its words are the name's words with the suffix dropped |
| PointsPicks.NormalizeTwice | points_picks.py:74-83 | normalising a normalised name drops one more suffix word, if any |
| PointsPicks.NormalizeIdempotentIff | points_picks.py:74-83 | normalisation is idempotent on a name exactly when the normalised words end in no suffix |
| PointsPicks.DropSuffixJoin | points_picks.py:80-83 | dropping the suffix changes the joined text exactly when it changes the word list |
| PointsPicks.JoinInjective | points_picks.py:83 | two word lists that join to the same text are equal |
| PointsPicks.EnvironmentAdj | points_picks.py:130-140 | the pace adjustment is zero unless the pace is known and above 104 or below 99, and lies within 1.5 points for up to 35 minutes |
| PointsPicks.EnvironmentAdjMonotone | points_picks.py:130-140 | a faster pace never lowers the adjustment |
| PointsPicks.EnvironmentAdjSymmetric | points_picks.py:130-140 | a fast game adds exactly what a slow game removes |
| PointsPicks.UsageAdj | points_picks.py:143-152 | the usage adjustment lies in [-1, 1.5] and is zero when usage is unknown |
| PointsPicks.UsageAdjMonotone | points_picks.py:143-152 | higher usage never lowers the adjustment |
| PointsPicks.RestAdj | points_picks.py:155-164 | the rest adjustment lies in [-2.5, 0.5] and is the bonus exactly on two days' rest |
| PointsPicks.RestAdjAway | points_picks.py:155-164 | playing away never helps, and costs extra only on a back-to-back |
| PointsPicks.DvpAdj | points_picks.py:167-173 | the matchup adjustment is positive exactly for WEAK, negative exactly for STRONG, within 2 points |
| PointsPicks.DvpAdjSymmetric | points_picks.py:167-173 | WEAK and STRONG adjust by opposite amounts |
| PointsPicks.MinutesRoleAdj | points_picks.py:176-182 | with recent minutes known, the role adjustment has the sign of projected minus recent minutes and at most 0.3 times its size; otherwise it is zero |
| PointsPicks.MinutesRoleAdjMonotone | points_picks.py:176-182 | more projected minutes never lower the adjustment |
| PointsPicks.FormAdj | points_picks.py:185-189 | the form adjustment is capped at 3 points either way and is zero without a season average |
| PointsPicks.FormAdjSign | points_picks.py:185-189 | the form adjustment is positive exactly when the last five games beat the season average, negative exactly when they fall short |
| PointsPicks.FormAdjMonotone | points_picks.py:185-189 | better recent scoring never lowers the form adjustment |
| PointsPicks.ConsistencyAdj | points_picks.py:192-197 | the consistency adjustment is capped at 2 points either way |
| PointsPicks.ConsistencyAdjAntitone | points_picks.py:192-197 | a larger spread of recent points never raises the adjustment |
| PointsPicks.MinuteScale | points_picks.py:219-221 | the minute scale is capped to [0.85, 1.15], and is 1 when recent minutes are unknown |
| PointsPicks.ContextBump | points_picks.py:223 | the context bump is capped at 20 percent either way |
| PointsPicks.ContextFactor | points_picks.py:223-225 | the context factor lies in [0.8, 1.2] |
| PointsPicks.ProjectPoints | points_picks.py:210-233 | the projection never exceeds 130 percent of the recent average when that average is positive |
| PointsPicks.ContextBumpMonotone | points_picks.py:223 | a higher context score never lowers the bump |
| PointsPicks.ConstrainedMonotone | points_picks.py:228-231 | the final clamping preserves order |
| PointsPicks.ProjectPointsNonNegative | points_picks.py:210-233 | non-negative averages give a non-negative projection |
| PointsPicks.ProjectPointsMonotoneInScore | points_picks.py:210-233 | a higher context score never lowers the projection |
| PointsPicks.RawProjectionMonotone | points_picks.py:217-225 | before clamping, a higher context score never lowers the projection |
| PointsPicks.RawProjectionBounds | points_picks.py:217-225 | with recent minutes known, the unclamped projection lies between 0.68 and 1.38 times the blended baseline |
| PointsPicks.Confidence | points_picks.py:236-286 | the confidence lies in [50, 95] |
| PointsPicks.ConfidenceRange | points_picks.py:236-286 | the uncapped total lies in [30, 95] and the confidence is that total raised to the floor of 50 |
| PointsPicks.ConfidenceWorstCase | points_picks.py:236-286 | the worst inputs reach the raw minimum 30, which the floor lifts to 50 |
| PointsPicks.ConfidenceMonotone | points_picks.py:236-286 | better score, minutes, consistency and usage never lower confidence, and STRONG and WEAK matchups bound every other bucket |
| PointsPicks.FirstListedSpec | points_picks.py:295-315 | the lookup finds nothing exactly when no key is listed, and otherwise returns the bucket of the first listed key |
| PointsPicks.FirstListedAppend | points_picks.py:295-315 | looking through two key lists in turn is looking through their concatenation |
| PointsPicks.FindListed | points_picks.py:300-315 | the loop returns the bucket of the first key present in the team's table, or nothing |
| PointsPicks.GetDvpBucket | points_picks.py:289-317 | the method returns the bucket the specification function assigns to the opponent's table and the position |
| PointsPicks.FallbackBucket | points_picks.py:307-317 | the fallback returns the first listed group's bucket, or AVERAGE |
| PointsPicks.DvpExactMatch | points_picks.py:295-297 | an upper-cased position listed in the table gives its own bucket |
| PointsPicks.DvpBucketListed | points_picks.py:289-317 | the bucket is AVERAGE or the bucket of some listed entry |
| PointsPicks.DvpUnlisted | points_picks.py:289-317 | when none of the keys tried is listed, the bucket is AVERAGE |
| PointsPicks.ComboSecondPart | points_picks.py:300-304 | for a combo position A-B where only B is listed, the second part's bucket is used |
| PointsPicks.SelectTopNUnique | points_picks.py:484-494 | the method returns the first max(1, n) candidates of the list with later repeats of a player removed |
| PointsPicks.DedupDistinct | points_picks.py:484-494 | the selection never holds one player twice |
| PointsPicks.DedupPlayers | points_picks.py:484-494 | every player of the input is represented after removing repeats |
| PointsPicks.DedupFirstOccurrence | points_picks.py:484-494 | each kept candidate is that player's first occurrence in the ranked input |
| PointsPicks.SelectionShape | points_picks.py:484-494 | the selection has distinct players and holds min(number of players, max(1, n)) candidates |
| PointsPicks.DistinctCount | points_picks.py:484-494 | a list with distinct players has as many players as entries |
| AutoTune.ClockMinutes | auto_tune_model_v3.py:157-158 | unpacking anything but two fields fails; the only failures are that unpacking error and int() rejecting a field |
| AutoTune.ParseMinutes | auto_tune_model_v3.py:154-162 | only a text with a colon can raise; a missing or unconvertible value reads as 0 and a number as itself |
| AutoTune.ParseMinutesParts | auto_tune_model_v3.py:156-158 | a text with one colon is read as its two fields |
| AutoTune.ClockMinutesOf | auto_tune_model_v3.py:158 | two integer fields give minutes plus seconds over 60 |
| AutoTune.ParseMinutesClock | auto_tune_model_v3.py:154-158 | "mm:ss" with digit fields reads as mm + ss/60 |
| AutoTune.ParseMinutesExtraColon | auto_tune_model_v3.py:157 | a text with two colons raises the unpacking error |
| AutoTune.ParseMinutesNoColon | auto_tune_model_v3.py:159-162 | a text without a colon reads as its float value, or 0 when float() rejects it |
| AutoTune.FirstKey | auto_tune_model_v3.py:358-374 | the key found is one of the keys tried and is listed; finding none means no key tried is listed |
| AutoTune.FirstKeyFirst | auto_tune_model_v3.py:358-374 | the key found is the first listed one in the order tried |
| AutoTune.BucketTable | auto_tune_model_v3.py:351-376 | the bucket table has the ranking table's keys and each entry's bucket |
| AutoTune.FirstKeyListed | auto_tune_model_v3.py:351-376 | searching the ranking table agrees with the points-picks lookup on its bucket table |
| AutoTune.DvpRankingAgrees | auto_tune_model_v3.py:351-376 | the ranking's bucket is the one the points-picks lookup gives for the same position, and no match gives AVERAGE with rank 15 |
| AutoTune.DvpRankingListed | auto_tune_model_v3.py:351-376 | the ranking returned is the fallback or an entry of the table |
| AutoTune.FindKey | auto_tune_model_v3.py:364-374 | the loop returns the first listed key tried, or nothing |
| AutoTune.GetDvpBucketForPosition | auto_tune_model_v3.py:351-376 | the method returns the exact, combo-part or group-fallback ranking, else AVERAGE with rank 15 |
| AutoTune.UsageValue | auto_tune_model_v3.py:585-594 | usage adds 1.5 exactly from 28 percent, removes 1 exactly below 20 percent, and is otherwise 0 |
| AutoTune.DvpValue | auto_tune_model_v3.py:596-602 | the matchup value is +2.4 for WEAK, -2.4 for STRONG and 0 otherwise |
| AutoTune.RestValue | auto_tune_model_v3.py:604-612 | rest gives -2.5 on the road and -1.5 at home after no rest, 0 after one day, +0.5 after two and -0.3 otherwise; it helps exactly after two days and costs 1.5 or more exactly on a back-to-back |
| AutoTune.PaceValue | auto_tune_model_v3.py:614-620 | pace gives +2.2 above 104, -2.2 below 99 and 0 otherwise |
| AutoTune.ProjectedMinutes | auto_tune_model_v3.py:623 | recent minutes are used when positive, else the season average |
| AutoTune.MinutesValue | auto_tune_model_v3.py:624-631 | the minutes value is positive exactly from 30 minutes, negative exactly below 26, within [-2.5, 1.7] |
| AutoTune.FormValue | auto_tune_model_v3.py:633-638 | the form value is capped at 3.2 either way, zero without a season average, and has the sign of recent minus season scoring |
| AutoTune.FormValueMonotone | auto_tune_model_v3.py:633-638 | better recent scoring never lowers the form value |
| AutoTune.ConsistencyValue | auto_tune_model_v3.py:640-646 | consistency gives +1.5 up to a spread of 5, -1.5 above 7, else 0 |
| AutoTune.Ladder | auto_tune_model_v3.py:650-715 | a three-step ladder gives 1 from the elite mark, a positive value exactly from the good mark, a negative value exactly below the poor mark, and 0 when the value is missing |
| AutoTune.LadderMonotone | auto_tune_model_v3.py:650-715 | a better value never lowers a ladder adjustment |
| AutoTune.OppDrtgValue | auto_tune_model_v3.py:676-689 | the opponent-defence value is positive exactly from 114, negative exactly up to 112, and -2 exactly up to 108 |
| AutoTune.OppDrtgMonotone | auto_tune_model_v3.py:676-689 | a weaker opponent defence never lowers the value |
| AutoTune.LeagueRankValue | auto_tune_model_v3.py:704-715 | the scoring-rank value is positive exactly for the top 25 and negative exactly from rank 100 |
| AutoTune.FactorValue | auto_tune_model_v3.py:575-717 | every factor's value lies within the form cap of 3.2 either way |
| AutoTune.AdjustmentValues | auto_tune_model_v3.py:575-717 | the adjustments hold exactly the twelve factors, each with its own rule's value |
| AutoTune.SquareSumNonNegative | auto_tune_model_v3.py:731-732 | a sum of squared deviations is never negative |
| AutoTune.SquaredDeviation | auto_tune_model_v3.py:731-732 | a variance sum is never negative |
| AutoTune.Pearson | auto_tune_model_v3.py:720-739 | 0 for fewer than three points or unequal lengths; a non-zero correlation needs at least three paired points and a non-zero co-deviation sum; PearsonGuards adds the zero-variance guard and the quotient |
| AutoTune.PearsonGuards | auto_tune_model_v3.py:720-739 | the correlation is 0 for fewer than three points, unequal lengths or a zero variance, and otherwise the co-deviation sum over a positive root of the variance product |
| AutoTune.RecommendationFor | auto_tune_model_v3.py:909-920 | the advice is INCREASE exactly above 0.10, DECREASE exactly below -0.10, MAINTAIN otherwise |
| AutoTune.SuggestionFor | auto_tune_model_v3.py:892-922 | a factor is suggested exactly when its correlation is at least 0.05 in size with at least 10 non-zero samples, carrying that correlation, count and advice |
| AutoTune.SuggestedSound | auto_tune_model_v3.py:892-922 | every suggestion is for a listed factor with a meaningful correlation and the matching advice |
| AutoTune.SuggestedComplete | auto_tune_model_v3.py:892-922 | every listed factor with a meaningful correlation is suggested |
| AutoTune.GenerateWeightSuggestions | auto_tune_model_v3.py:840-927 | the method returns the suggestions stably sorted by correlation size, largest first |
| AutoTune.SuggestionsSpec | auto_tune_model_v3.py:840-927 | the result is sorted by correlation size, holds only meaningful factors with the matching advice, and holds every meaningful factor |
| AutoTune.AbsAll | auto_tune_model_v3.py:936 | the absolute errors match the errors one for one |
| AutoTune.Squares | auto_tune_model_v3.py:939 | the squared errors match the errors one for one |
| AutoTune.CountAtMost | auto_tune_model_v3.py:946-947 | a count of errors within a bound is at most the number of errors |
| AutoTune.CountAtMostMonotone | auto_tune_model_v3.py:946-947 | a wider bound never counts fewer errors |
| AutoTune.SumAbsBound | auto_tune_model_v3.py:938-943 | the size of the error sum is at most the sum of error sizes |
| AutoTune.AccuracyMetricsOf | auto_tune_model_v3.py:930-956 | there are no metrics exactly when there are no records, and otherwise they count every record |
| AutoTune.PercentOrder | auto_tune_model_v3.py:946-947 | the within-5 share is a percentage no larger than the within-10 share |
| AutoTune.MeanAbsBound | auto_tune_model_v3.py:938-943 | dividing by the count keeps the bias within the mean absolute error |
| AutoTune.AccuracyMetricsBounds | auto_tune_model_v3.py:930-956 | within-5 and within-10 shares are ordered percentages, and the bias is no larger in size than the mean absolute error |
| FetchLiveLinesV3.StatTypeOf | archive/fetch_live_lines_v3.py:58-70 | a recognised prop name maps to one of pts, reb, ast, fg3m, pra |
| FetchLiveLinesV3.OddsToImplied | archive/fetch_live_lines_v3.py:216-225 | American odds give an implied probability in [0, 1), and missing odds give none |
| FetchLiveLinesV3.LineQuality | archive/fetch_live_lines_v3.py:228-234 | a line missing either side's odds scores 10; otherwise the distance from a fair line lies in [0, 1] |
| FetchLiveLinesV3.Quality | archive/fetch_live_lines_v3.py:465-467 | a stored line's quality: 10 when either side's odds are missing, otherwise a distance from a fair line in [0, 1] |
| FetchLiveLinesV3.EvenMoneyIsFairest | archive/fetch_live_lines_v3.py:228-234 | even money on both sides scores 0, the best possible quality |
| FetchLiveLinesV3.CompleteBeatsMissing | archive/fetch_live_lines_v3.py:228-234 | a line with both odds always beats a line missing one |
| FetchLiveLinesV3.Opponent | archive/fetch_live_lines_v3.py:353-359 | the opponent is the other team of the game, or empty when the team is not in it or the game is unknown |
| FetchLiveLinesV3.PropsOfSpec | archive/fetch_live_lines_v3.py:268-371 | the props kept are exactly the requested, recognised over/under entries with a player id and a line, converted in order, each with a known stat type and the game's id |
| FetchLiveLinesV3.FetchPlayerProps | archive/fetch_live_lines_v3.py:237-373 | the loop returns the props the specification function keeps |
| FetchLiveLinesV3.MergeAllAppend | archive/fetch_live_lines_v3.py:429-470 | merging two batches in turn is merging their concatenation |
| FetchLiveLinesV3.MergePropStat | archive/fetch_live_lines_v3.py:441-470 | a prop adds its player, and replaces the stored line for its stat only when that stat is new or the prop's line is strictly fairer |
| FetchLiveLinesV3.MergeKeys | archive/fetch_live_lines_v3.py:441-470 | the slate holds a player, or a player's stat, exactly when some prop supplies it |
| FetchLiveLinesV3.FirstFairestKeep | archive/fetch_live_lines_v3.py:463-470 | a later prop that is not strictly fairer leaves the first fairest line in place |
| FetchLiveLinesV3.FirstFairestNew | archive/fetch_live_lines_v3.py:463-468 | a later prop that is strictly fairer becomes the first fairest line |
| FetchLiveLinesV3.MergeKeepsFirstFairest | archive/fetch_live_lines_v3.py:441-470 | each stored line comes from the first prop of best quality for that player and stat |
| FetchLiveLinesV3.MergeInfoFromFirst | archive/fetch_live_lines_v3.py:446-453 | a player's name, team, game and opponent come from that player's first prop |
| FetchLiveLinesV3.WithPra | archive/fetch_live_lines_v3.py:477-487 | with points, rebounds and assists all present, a PRA line equal to their sum and without odds is added; nothing else changes |
| FetchLiveLinesV3.AddPra | archive/fetch_live_lines_v3.py:477-487 | deriving PRA keeps the set of players |
| FetchLiveLinesV3.Starters | archive/fetch_live_lines_v3.py:490-498 | the filter keeps exactly the players whose points line is at least 10.5, unchanged |
| FetchLiveLinesV3.SlateLinesSpec | archive/fetch_live_lines_v3.py:386-501 | every stored non-PRA line is the first fairest prop for that player and stat, and with the starter filter every player's points line is at least 10.5 |
| FetchLiveLinesV3.MergeOne | archive/fetch_live_lines_v3.py:441-470 | the method merges one prop as the specification function does |
| FetchLiveLinesV3.MergeGames | archive/fetch_live_lines_v3.py:429-474 | the loop over games merges every game's props into an empty slate |
| FetchLiveLinesV3.MergeProps | archive/fetch_live_lines_v3.py:441-470 | the loop merges a batch of props in order |
| FetchLiveLinesV3.PraEntry | archive/fetch_live_lines_v3.py:478-487 | the method derives one player's PRA line as the specification function does |
| FetchLiveLinesV3.AddPraLines | archive/fetch_live_lines_v3.py:476-487 | the loop derives PRA for every player |
| FetchLiveLinesV3.FilterStarters | archive/fetch_live_lines_v3.py:489-498 | the loop keeps exactly the starters |
| FetchLiveLinesV3.FetchAllLinesForSlate | archive/fetch_live_lines_v3.py:386-501 | the method returns the slate the specification function describes: nothing without games, else merged, PRA derived, optionally filtered |
| FinalizePicksStrict.Candidate.constructor | archive/finalize_picks_strict.py:60-62 | a fresh candidate carries its player, win probability and edge, with no tier and no flag yet |
| FinalizePicksStrict.UpToTier1 | archive/finalize_picks_strict.py:62-63 | the strict tier never selects more than three picks |
| FinalizePicksStrict.UpToTier2 | archive/finalize_picks_strict.py:65-69 | topping up from the standard tier never exceeds three picks |
| FinalizePicksStrict.UpToTier3 | archive/finalize_picks_strict.py:71-79 | topping up from the relaxed tier never exceeds three picks |
| FinalizePicksStrict.Selection | archive/finalize_picks_strict.py:60-101 | the selection never exceeds three picks |
| FinalizePicksStrict.MarkedFrom | archive/finalize_picks_strict.py:71-89 | a fallback-pool candidate ends marked tier 4, else a relaxed-pool candidate tier 3, else its mark is unchanged |
| FinalizePicksStrict.FinalTierFrom | archive/finalize_picks_strict.py:91-97 | a selected candidate without a tier gets 1 from a 60 percent win probability and 2 otherwise; other tiers stay as marked |
| FinalizePicksStrict.Mark | archive/finalize_picks_strict.py:76-78 | every candidate of a pool gets the pool's tier and warning flag |
| FinalizePicksStrict.AssignTiers | archive/finalize_picks_strict.py:91-99 | each selected candidate without a tier gets tier 1 or 2 by its win probability, and flags are left as they are |
| FinalizePicksStrict.SelectAndMark | archive/finalize_picks_strict.py:60-89 | the method selects the tiered picks from the candidates and marks the relaxed and fallback pools as the specification functions say |
| FinalizePicksStrict.SelectTeamPicks | archive/finalize_picks_strict.py:60-101 | the method returns the tiered selection and leaves each candidate with the final tier and flag the specification functions give |
| FinalizePicksStrict.PoolFacts | archive/finalize_picks_strict.py:62 | a tier pool is sorted by win probability, largest first, and holds exactly the remaining candidates reaching the threshold |
| FinalizePicksStrict.TierPool | archive/finalize_picks_strict.py:67-68 | the pool of remaining candidates holds exactly the unselected candidates reaching the threshold |
| FinalizePicksStrict.FallbackPoolFacts | archive/finalize_picks_strict.py:81-84 | the fallback pool holds only unselected candidates, and all of them when fewer than three were picked |
| FinalizePicksStrict.PoolsWithin | archive/finalize_picks_strict.py:60-89 | every pool and every stage of the selection consists of candidates |
| FinalizePicksStrict.PoolDistinct | archive/finalize_picks_strict.py:62 | a pool of distinct candidates has no repeats |
| FinalizePicksStrict.TopUpDistinct | archive/finalize_picks_strict.py:67-69 | topping up from a pool of unselected candidates keeps the picks distinct |
| FinalizePicksStrict.TiersDistinct | archive/finalize_picks_strict.py:60-79 | each tier stage selects distinct candidates |
| FinalizePicksStrict.SelectionSpec | archive/finalize_picks_strict.py:60-101 | the selection has distinct candidates, and holds three of them, or all when there are fewer |
| FinalizePicksStrict.TopUpTop | archive/finalize_picks_strict.py:67-79 | topping up from a sorted threshold pool keeps the picks the best by win probability and all reaching the threshold |
| FinalizePicksStrict.Tier1Top | archive/finalize_picks_strict.py:62-63 | the strict picks are the best by win probability and all reach 60 percent |
| FinalizePicksStrict.Tier2Top | archive/finalize_picks_strict.py:65-69 | the picks after the standard tier are the best by win probability and all reach 55 percent |
| FinalizePicksStrict.Tier3Top | archive/finalize_picks_strict.py:71-79 | the picks after the relaxed tier are the best by win probability and all reach 50 percent |
| FinalizePicksStrict.Exhausted | archive/finalize_picks_strict.py:60-79 | a tier stage short of three picks has taken every candidate reaching its threshold |
| FinalizePicksStrict.ThreeReachFifty | archive/finalize_picks_strict.py:60-79 | when three distinct candidates reach 50 percent, the relaxed stage completes the three picks |
| FinalizePicksStrict.TopThreeWhenThreeReachFifty | archive/finalize_picks_strict.py:60-101 | then the selection is the three best by win probability, all at least 50 percent |
| FinalizePicksStrict.TopThreeWhenThreeReachSixty | archive/finalize_picks_strict.py:60-101 | when three reach 60 percent, the selection is the first three of the sorted strict pool |
| FinalizePicksStrict.ThresholdTier | archive/finalize_picks_strict.py:60-97 | the tier implied by a win probability is 1 from 60, 2 from 55, 3 from 50 and 4 below |
| FinalizePicksStrict.EarlyPick | archive/finalize_picks_strict.py:60-69 | a strict or standard pick is in neither warning pool, reaches 55 percent, and is strict exactly from 60 percent |
| FinalizePicksStrict.PickLabelsUpToTier2 | archive/finalize_picks_strict.py:60-99 | a strict or standard pick is labelled with its threshold tier and no warning flag |
| FinalizePicksStrict.RelaxedPick | archive/finalize_picks_strict.py:71-79 | a relaxed-stage pick is in the relaxed pool only and lies in [50, 55) percent |
| FinalizePicksStrict.PickLabelsTier3 | archive/finalize_picks_strict.py:71-99 | a relaxed-stage pick is labelled tier 3 with the relaxed warning |
| FinalizePicksStrict.PickLabelsTier4 | archive/finalize_picks_strict.py:81-99 | a fallback pick is labelled tier 4 with the fallback warning, and its win probability is below 50 percent |
| FinalizePicksStrict.PickLabels | archive/finalize_picks_strict.py:60-101 | every pick's final tier and flag are those implied by its win probability alone |
| FinalizePicksStrict.UnselectedMarks | archive/finalize_picks_strict.py:71-89 | unselected candidates are still marked: all as fallback when the fallback stage ran, those reaching 50 percent as relaxed when only the relaxed stage ran, and none otherwise |
| FinalizePicksStrict.DefenseDesc | archive/finalize_picks_strict.py:31-35 | the defence is described as weak exactly from 114 and strong exactly up to 112 |
| FinalizePicksStrict.RankPart | archive/finalize_picks_strict.py:40-46 | a scorer's rank is described as top 10, top 50 or a plain rank by its value |
| FinalizePicksStrict.TsPart | archive/finalize_picks_strict.py:22-26 | shooting is described as elite exactly from 0.62 |
| FinalizePicksStrict.FactorParts | archive/finalize_picks_strict.py:15-51 | the factor reasons number at most five and none is the edge |
| FinalizePicksStrict.WhyPartsEdge | archive/finalize_picks_strict.py:12-57 | there are at most six reasons, and the edge is the last one exactly when it is given |
| FinalizePicksStrict.WhyPartsUsage | archive/finalize_picks_strict.py:15-18 | usage leads the reasons exactly when it is truthy |
| FinalizePicksStrict.Rendered | archive/finalize_picks_strict.py:18-56 | each reason is rendered to one text, in order |
| FinalizePicksStrict.Summary | archive/finalize_picks_strict.py:58 | the summary is empty exactly without reasons, and otherwise ends with ". " and the last reason |
| FinalizePicksStrict.GenerateWhySummary | archive/finalize_picks_strict.py:12-58 | the method builds the summary the specification functions describe |
| FinalizePicksStrict.SummaryEndsWithEdge | archive/finalize_picks_strict.py:53-58 | with an edge, the summary ends with ". " and the edge text |
| FinalizePicksStrict.EdgeOnlySummary | archive/finalize_picks_strict.py:58 | with no factors, the summary is ". " followed by the edge text |
| GeneratePicks.SafetyScore | archive/generate_picks.py:13-15 | no contract of its own: SafetyScoreMonotone and MarginOutweighsProbability state that it rises with margin and win probability, falls with blowout risk, and how margin outweighs probability |
| GeneratePicks.SafetyScoreMonotone | archive/generate_picks.py:13-15 | the safety score rises with the floor margin and the win probability and falls with blowout risk, strictly when any of them moves |
| GeneratePicks.MarginOutweighsProbability | archive/generate_picks.py:13-15 | a tenth of a point of margin outweighs any gain in win probability under 10 points |
| GeneratePicks.MinutesStability | archive/generate_picks.py:64-70 | stability is HIGH up to a spread of 3, LOW from 8 and MODERATE between |
| GeneratePicks.Optional | archive/generate_picks.py:54-56 | a factor is recorded, with its value, exactly when the value is truthy |
| GeneratePicks.ReboundFactors | archive/generate_picks.py:53-70 | rebound factors are the rebound rate when truthy plus position, opponent miss rate and minutes stability |
| GeneratePicks.AssistFactors | archive/generate_picks.py:72-83 | assist factors are the assist rate when truthy plus team shooting and projected pace, which defaults to 100 |
| GeneratePicks.ScoringFactors | archive/generate_picks.py:85-92 | scoring factors are the recent usage, else the season usage, and the true shooting, each when truthy |
| GeneratePicks.OtherFactors | archive/generate_picks.py:45-94 | other stat types have no factors |
| GeneratePicks.DetermineSide | archive/generate_picks.py:96-115 | no side exactly when neither margin is positive and neither probability reaches 55; the over's margin is floor minus line, the under's line minus ceiling, and a floor above the line always picks the over |
| GeneratePicks.MinimumCriteriaRedundant | archive/generate_picks.py:231-233 | any side chosen already has a positive margin or a 55 percent probability, so the minimum-criteria check never drops a pick |
| GeneratePicks.SideAgainstParlay | archive/generate_picks.py:96-115 | when only one side clears its line this agrees with the parlay optimizer's side and margin; when both clear and the under is likelier, the two disagree |
| GeneratePicks.FindPlayer | archive/generate_picks.py:236-244 | the player found is on the roster with the wanted id, and none is found exactly when no roster entry has it |
| GeneratePicks.FindPlayerData | archive/generate_picks.py:237-241 | the loop finds the first roster entry with the wanted id |
| GeneratePicks.FindPlayerFirst | archive/generate_picks.py:236-244 | the entry found is on the roster and no earlier entry has the wanted id |
| GeneratePicks.Evaluate | archive/generate_picks.py:195-277 | a result is kept exactly when the player is an available starter with that stat, a side is chosen, the team is in the players map, the player is on the roster and both teams are in the game; bench, unavailable or stat-less players, no side and a player off the roster are skipped, and a missing team raises a key error; a kept pick carries the chosen side, its floor margin, the over or under probability of that side, the three percentiles, the line, the blowout risk, the safety score and difficulty computed from them, and the factors of the roster entry against the two teams |
| GeneratePicks.KeepCount | archive/generate_picks.py:283 | at most two picks are kept per team |
| GeneratePicks.SelectStatPicks | archive/generate_picks.py:190-288 | the method fails exactly when some result raises a key error, and otherwise returns each team's top two picks |
| GeneratePicks.ErrorSticks | archive/generate_picks.py:195-250 | a key error on any result aborts the whole stat type, for both teams |
| GeneratePicks.ErrorBothSides | archive/generate_picks.py:195-250 | the away and home passes fail together, and a key error on the last result fails them |
| GeneratePicks.TeamPicksFrom | archive/generate_picks.py:195-277 | every team pick is the evaluation of some result on that team's side |
| GeneratePicks.TopTwoSpec | archive/generate_picks.py:280-283 | the kept picks are at most two of the team's picks, sorted by floor margin then win probability |
| GeneratePicks.TopTwoBest | archive/generate_picks.py:280-283 | no dropped pick ranks above a kept one |
| ParlayOptimizerV3.DifficultyScore | archive/parlay_optimizer_v3.py:134-152 | the combined difficulty score lies in [-5, 4] |
| ParlayOptimizerV3.Label | archive/parlay_optimizer_v3.py:154-158 | a score labels EASY exactly from 3, HARD exactly up to -1 and NEUTRAL between |
| ParlayOptimizerV3.MatchupDifficulty | archive/parlay_optimizer_v3.py:128-158 | the label is one of EASY, NEUTRAL, HARD (the same rule as archive/generate_picks.py lines 17-43) |
| ParlayOptimizerV3.DifficultyMonotone | archive/parlay_optimizer_v3.py:128-158 | a higher win probability, a larger margin or a lower blowout risk never makes a matchup harder |
| ParlayOptimizerV3.EasyDespiteBlowout | archive/parlay_optimizer_v3.py:128-158 | a 65 percent probability with a margin of 2 is EASY whatever the blowout risk |
| ParlayOptimizerV3.HardWhenBothFail | archive/parlay_optimizer_v3.py:128-158 | below 45 percent with a negative margin the matchup is HARD |
| ParlayOptimizerV3.SafetyScore | archive/parlay_optimizer_v3.py:161-175 | no contract of its own: SafetyScoreMonotone states that the score rises with margin and win probability and falls with blowout risk |
| ParlayOptimizerV3.SafetyScoreMonotone | archive/parlay_optimizer_v3.py:161-175 | the ranking score rises with margin and probability and falls with blowout risk, strictly when any moves, and one point of margin is worth two of probability |
| ParlayOptimizerV3.ChooseSide | archive/parlay_optimizer_v3.py:211-257 | no side exactly when neither buffered side is valid and neither probability reaches 55; otherwise the over or the under with its own probability and margin |
| ParlayOptimizerV3.ZeroBuffers | archive/parlay_optimizer_v3.py:214-222 | with zero buffers a side is valid exactly when its floor or ceiling clears the line |
| ParlayOptimizerV3.ChooseSideSafe | archive/parlay_optimizer_v3.py:229-257 | when a side is valid the chosen margin is positive, and every choice has a positive margin or a 55 percent probability |
| ParlayOptimizerV3.ChooseSideLikelier | archive/parlay_optimizer_v3.py:229-257 | when both sides or neither are valid, the likelier side is chosen, ties going to the over |
| ParlayOptimizerV3.EvaluateLeg | archive/parlay_optimizer_v3.py:178-282 | a leg is skipped exactly when the stat is missing, the line is not positive, or no side is chosen; otherwise it carries the chosen side's probability, margin, safety score and difficulty |
| ParlayOptimizerV3.Legs | archive/parlay_optimizer_v3.py:320-337 | every selected candidate becomes one leg |
| ParlayOptimizerV3.LegsAt | archive/parlay_optimizer_v3.py:320-335 | each leg copies its candidate's fields |
| ParlayOptimizerV3.GameCount | archive/parlay_optimizer_v3.py:306-339 | a game's count never exceeds the number of legs |
| ParlayOptimizerV3.SelectOptimalParlay | archive/parlay_optimizer_v3.py:285-341 | the loop returns the legs of the greedy pick over the candidates sorted by probability then score |
| ParlayOptimizerV3.PickStep | archive/parlay_optimizer_v3.py:308-339 | each candidate is added unless the legs are full, its player is used, or its game is at the cap |
| ParlayOptimizerV3.SnocPlayer | archive/parlay_optimizer_v3.py:313-338 | adding a leg marks exactly its player as used |
| ParlayOptimizerV3.SnocGame | archive/parlay_optimizer_v3.py:316-339 | adding a leg raises exactly its game's count by one |
| ParlayOptimizerV3.SnocLegs | archive/parlay_optimizer_v3.py:337 | the legs of an extended pick are the old legs plus the new one |
| ParlayOptimizerV3.PickFull | archive/parlay_optimizer_v3.py:309-310 | once the legs are full, later candidates change nothing |
| ParlayOptimizerV3.UsesPlayerSpec | archive/parlay_optimizer_v3.py:305-314 | a player is used exactly when some leg has that player |
| ParlayOptimizerV3.PickRespectsCaps | archive/parlay_optimizer_v3.py:285-341 | the pick holds at most the leg cap (none when the cap is not positive), one leg per player, and no more than the per-game cap from any game |
| ParlayOptimizerV3.PickSubseq | archive/parlay_optimizer_v3.py:308-339 | the pick keeps candidates in their ranked order |
| ParlayOptimizerV3.SubseqIn | archive/parlay_optimizer_v3.py:308-339 | every picked candidate is a candidate |
| ParlayOptimizerV3.SubseqSorted | archive/parlay_optimizer_v3.py:298-302 | an ordered selection from a ranked list is ranked |
| ParlayOptimizerV3.BlockedGrows | archive/parlay_optimizer_v3.py:309-317 | a candidate blocked by the legs so far stays blocked after more legs are added |
| ParlayOptimizerV3.PickMaximal | archive/parlay_optimizer_v3.py:308-339 | every candidate left out is blocked by the final pick: full legs, a used player or a full game |
| ParlayOptimizerV3.SelectionSpec | archive/parlay_optimizer_v3.py:285-341 | the selection is an ordered, ranked selection of the candidates with distinct players, within the leg cap and the per-game cap |
| GeneratePicksFromSimulation.UsageStep | archive/generate_picks_from_simulation.py:33-39 | usage adds 1.2 from 28 percent, removes 0.8 below 20 percent, and adds nothing when unknown |
| GeneratePicksFromSimulation.DefenseStep | archive/generate_picks_from_simulation.py:51-61 | the opponent defence moves the score by at most 1.7 up and 2 down, and not at all when unknown |
| GeneratePicksFromSimulation.RestStep | archive/generate_picks_from_simulation.py:67-75 | rest moves the score within [-1.8, 0.2]; the bonus comes exactly after two days, and one day or a negative count changes nothing |
| GeneratePicksFromSimulation.FormStep | archive/generate_picks_from_simulation.py:77-82 | recent form is capped at 5.5 either way and counts only with a positive season average |
| GeneratePicksFromSimulation.ComputeGoatScore | archive/generate_picks_from_simulation.py:29-120 | the method adds up the ten factor steps and the stored pace adjustment as the specification function does |
| GeneratePicksFromSimulation.GoatScore | archive/generate_picks_from_simulation.py:29-120 | apart from the stored pace adjustment, which enters unchanged, the factor steps add up to a score in [-16.6, 14.5] |
| GeneratePicksFromSimulation.GoatScoreBounds | archive/generate_picks_from_simulation.py:29-120 | without a pace adjustment the score lies in [-16.6, 14.5] |
| GeneratePicksFromSimulation.GoatScorePace | archive/generate_picks_from_simulation.py:63-65 | a stored pace adjustment adds exactly its value to the score |
| GeneratePicksFromSimulation.PaceAdjustment | archive/generate_picks_from_simulation.py:123-140 | without both paces the adjustment is 0; otherwise it is 2.7 from an average of 104, -2.7 up to 98, and 0 between |
| GeneratePicksFromSimulation.PaceAdjustmentSymmetric | archive/generate_picks_from_simulation.py:123-140 | both teams of a game get the same pace adjustment |
| GeneratePicksFromSimulation.PlayerData | archive/generate_picks_from_simulation.py:20-26 | the entry found is the first on the team's roster under the wanted name; none is found exactly when the team is missing or no roster entry has that name |
| GeneratePicksFromSimulation.FirstNamed | archive/generate_picks_from_simulation.py:23-26 | the roster entry found is the first with the wanted name, and none is found exactly when no entry has it |
| GeneratePicksFromSimulation.CandidateFor | archive/generate_picks_from_simulation.py:158-193 | a candidate comes from a starter of the team with a line, found in the game data and not OUT or DOUBTFUL; it carries the result's fields, the player data with rest, venue and pace added, and the GOAT score plus the pace adjustment |
| GeneratePicksFromSimulation.PaceCountedTwice | archive/generate_picks_from_simulation.py:179-182 | a candidate's GOAT score counts the pace adjustment twice |
| GeneratePicksFromSimulation.CandidatesFrom | archive/generate_picks_from_simulation.py:158-193 | every candidate comes from some result |
| GeneratePicksFromSimulation.CandidatesDistinct | archive/generate_picks_from_simulation.py:158-193 | distinct results give distinct candidates |
| GeneratePicksFromSimulation.CollectCandidates | archive/generate_picks_from_simulation.py:152-193 | the loop collects the candidates the specification function gives, in result order |
| GeneratePicksFromSimulation.SelectTeamPicks | archive/generate_picks_from_simulation.py:143-232 | the method returns the cascade of tiers over the candidates sorted by win probability |
| GeneratePicksFromSimulation.FallbackPicks | archive/generate_picks_from_simulation.py:216-230 | the method computes the fallback specification, the top-up from the candidates without an edge being unreachable |
| GeneratePicksFromSimulation.FallbackEdgeFirst | archive/generate_picks_from_simulation.py:216-230 | the fallback keeps the selection as a prefix; when the unselected candidates with an edge of 0.5 are enough, it adds exactly the missing number, all with an edge of 0.5 and each at least as likely as every edge candidate left out; otherwise each added pick is at least as likely as every unselected candidate left out |
| Sorting.SortDesc | archive/generate_picks_from_simulation.py:196 | `sort(key=..., reverse=True)`: the result is a rearrangement of the input in which no element is above one before it |
| Sorting.SortStable | archive/generate_picks_from_simulation.py:196 | the sort is stable: the elements of each key come out in their input order |
| GeneratePicksFromSimulation.TierFrom | archive/generate_picks_from_simulation.py:200-214 | a tier adds only ranked candidates that reach its threshold |
| GeneratePicksFromSimulation.FallbackFrom | archive/generate_picks_from_simulation.py:216-230 | the fallback adds only ranked candidates |
| GeneratePicksFromSimulation.TiersFrom | archive/generate_picks_from_simulation.py:200-214 | the three threshold tiers pick only ranked candidates |
| GeneratePicksFromSimulation.CascadeFrom | archive/generate_picks_from_simulation.py:198-232 | the whole cascade picks only ranked candidates |
| GeneratePicksFromSimulation.PickIsCandidate | archive/generate_picks_from_simulation.py:143-232 | every pick is the candidate of some result |
| GeneratePicksFromSimulation.TierChosen | archive/generate_picks_from_simulation.py:204-214 | a tier keeps the picks distinct and drawn from the ranking, never more than three |
| GeneratePicksFromSimulation.FallbackDistinct | archive/generate_picks_from_simulation.py:216-230 | the fallback never repeats a pick |
| GeneratePicksFromSimulation.FallbackLength | archive/generate_picks_from_simulation.py:216-232 | after the fallback there are three picks, or every candidate when there are fewer |
| GeneratePicksFromSimulation.FallbackChosen | archive/generate_picks_from_simulation.py:216-232 | the fallback keeps the picks distinct, drawn from the ranking, and brings them to three or to all candidates |
| GeneratePicksFromSimulation.SelectionSpec | archive/generate_picks_from_simulation.py:143-232 | the selection has distinct candidates, three of them or all when fewer |
| GeneratePicksFromSimulation.ReachingPrefix | archive/generate_picks_from_simulation.py:196-201 | on the ranking, the candidates reaching a threshold are exactly a prefix |
| GeneratePicksFromSimulation.ReachingAntitone | archive/generate_picks_from_simulation.py:196-214 | a higher threshold is reached by a shorter prefix |
| GeneratePicksFromSimulation.TierOnPrefix | archive/generate_picks_from_simulation.py:204-214 | topping up a prefix from a tier gives the prefix up to three of the candidates reaching its threshold |
| GeneratePicksFromSimulation.TiersArePrefix | archive/generate_picks_from_simulation.py:198-214 | the three threshold tiers pick the first candidates reaching 50 percent, up to three |
| GeneratePicksFromSimulation.CascadeTopThree | archive/generate_picks_from_simulation.py:198-232 | when three candidates reach 50 percent, the cascade picks the first three of the ranking |
| GeneratePicksFromSimulation.TopThreeWhenThreeReachFifty | archive/generate_picks_from_simulation.py:143-232 | then the team's picks are its three likeliest candidates |
| GeneratePicksFromSimulation.SelectionFlag | archive/generate_picks_from_simulation.py:241-254 | tier 3 carries the RELAXED THRESHOLD warning, tier 4 the FALLBACK PICK warning and every other tier none |
| GeneratePicksFromSimulation.SelectionTier | archive/generate_picks_from_simulation.py:241-254 | the tier is 1 from 60 percent, 2 in [55, 60), 3 in [50, 55) and 4 below 50 |
| GeneratePicksFromSimulation.Confidence | archive/generate_picks_from_simulation.py:299 | the confidence lies in [50, 95] |
| GeneratePicksFromSimulation.ConfidenceMonotone | archive/generate_picks_from_simulation.py:299 | a likelier pick never gets lower confidence; 12.5 percent and below give 50 and 69.4 percent and above give 95 |
| GeneratePicksFromSimulation.FormatPick | archive/generate_picks_from_simulation.py:235-310 | a formatted pick keeps the candidate's player, line, win probability and edge, carries its threshold tier and confidence, no flag from 55 percent, the RELAXED THRESHOLD warning in [50, 55) and the FALLBACK PICK warning below 50 |
| GeneratePicksFromSimulation.StrongSlateAllTierOne | archive/generate_picks_from_simulation.py:198-254 | when three candidates reach 60 percent, every pick is tier 1 without a flag |
| SimulateWeights.FieldsDetermine | simulate_weights.py:85-116 | two configurations agreeing on all seventeen weights are equal |
| SimulateWeights.ToDict | simulate_weights.py:118-120 | the dictionary has exactly the seventeen weight names, each with its weight |
| SimulateWeights.FromDict | simulate_weights.py:122-125 | building a configuration fails exactly when the dictionary has a key that is not a weight name |
| SimulateWeights.FromDictFields | simulate_weights.py:122-125 | each weight is the dictionary's value, or the default when the key is missing |
| SimulateWeights.BuildField | simulate_weights.py:122-125 | the configuration built from a dictionary takes each weight from it, falling back to the default |
| SimulateWeights.DictRoundTrip | simulate_weights.py:118-125 | rebuilding a configuration from its dictionary gives it back |
| SimulateWeights.ConfigRoundTrip | simulate_weights.py:118-125 | a dictionary with exactly the weight names survives a round trip through a configuration |
| SimulateWeights.FormTerm | simulate_weights.py:153-156 | the form term is zero without a season average and within the form cap when the cap is not negative |
| SimulateWeights.PaceTerm | simulate_weights.py:158-162 | the pace term is the fast weight, the slow weight or zero |
| SimulateWeights.UsageTerm | simulate_weights.py:164-169 | the usage term is the high weight, the low weight or zero, and zero when usage is unknown |
| SimulateWeights.RestTerm | simulate_weights.py:171-177 | the rest term is one of the four rest weights or zero, and zero after one day or a negative count |
| SimulateWeights.DvpTerm | simulate_weights.py:179-183 | the matchup term is the weak weight, the strong weight or zero |
| SimulateWeights.MinutesTerm | simulate_weights.py:185-192 | the minutes term is one of the three minutes weights or zero, and zero from 26 to under 30 minutes |
| SimulateWeights.ConsistencyTerm | simulate_weights.py:194-198 | the consistency term is the stable weight, the volatile weight or zero |
| SimulateWeights.TunerWeightsAgree | simulate_weights.py:143-200 | under the tuner's own weights the score equals the sum of the tuner's seven factor values, except that a negative rest count scores 0.3 more here |
| SimulateWeights.ScoreMonotoneInWeights | simulate_weights.py:143-200 | with the form weights fixed, raising any other weight never lowers the score |
| SimulateWeights.AdjustedPct | simulate_weights.py:220-221 | the percentage adjustment is the score over 40, clamped to 15 percent either way |
| SimulateWeights.Scaled | simulate_weights.py:223-224 | the adjusted projection stays within 15 percent of a non-negative baseline |
| SimulateWeights.ScaledMonotone | simulate_weights.py:220-224 | a higher score never lowers the adjusted projection |
| SimulateWeights.PredictFromScore | simulate_weights.py:213-229 | the prediction stays within 15 percent of a non-negative baseline and never above it for players under 26 minutes |
| SimulateWeights.PredictFromScoreMonotone | simulate_weights.py:213-229 | a higher score never lowers the prediction |
| SimulateWeights.PredictMonotoneInWeights | simulate_weights.py:203-233 | raising the weights never lowers a prediction |
| SimulateWeights.Predictions | simulate_weights.py:203-233 | there is one prediction per record, paired with its actual points |
| SimulateWeights.ComputePredictions | simulate_weights.py:203-233 | the loop predicts every record in order, paired with its actual points |
| SimulateWeights.Errors | simulate_weights.py:268 | each error is prediction minus actual |
| SimulateWeights.SplitMetricsOf | simulate_weights.py:266-303 | no records give zero metrics; otherwise the metrics are the tuner's accuracy metrics of the errors |
| SimulateWeights.SplitMetricsSane | simulate_weights.py:266-303 | mean absolute error is non-negative, the bias is no larger in size than the mean absolute error, and the within-5 share is a percentage |
| SimulateWeights.EvaluateSplit | simulate_weights.py:260-303 | the metrics of one split count its records and are sane (non-negative error, within-5 share a percentage) |
| SimulateWeights.EvaluateConfig | simulate_weights.py:260-305 | the result keeps the configuration and both record counts, with sane metrics, no rank and no id |
| SimulateWeights.Prefixed | simulate_weights.py:381 | prefixing every tail keeps their order |
| SimulateWeights.PrefixedAllCount | simulate_weights.py:381 | prefixing every tail with every head gives heads times tails combinations |
| SimulateWeights.PrefixedAllMembers | simulate_weights.py:381 | a combination comes from the prefixing exactly when its head is a head and its rest a tail |
| SimulateWeights.ProductCount | simulate_weights.py:381 | the product has as many combinations as the lengths multiplied |
| SimulateWeights.ProductMembers | simulate_weights.py:381 | a combination is in the product exactly when it takes one value from each list |
| SimulateWeights.ProductLengths | simulate_weights.py:381 | every combination has one value per list |
| SimulateWeights.Dedup | simulate_weights.py:377-378 | the factor names keep every requested factor once |
| SimulateWeights.FactorLists | simulate_weights.py:377-379 | each factor's values are its grid steps, or its current weight alone |
| SimulateWeights.Overlay | simulate_weights.py:382-384 | setting the factors keeps every key and adds only factor names |
| SimulateWeights.OverlayValues | simulate_weights.py:382-384 | each named factor takes its value from the combination and every other key is unchanged |
| SimulateWeights.OverlayConfig | simulate_weights.py:382-385 | a combination over weight names builds a configuration with those weights and the base elsewhere |
| SimulateWeights.CollectAllOk | simulate_weights.py:381-385 | when every combination builds, the configurations are built one per combination, in order |
| SimulateWeights.CollectAllSnoc | simulate_weights.py:381-385 | each combination adds its configuration or stops with its error |
| SimulateWeights.CollectAllErr | simulate_weights.py:381-385 | once a combination fails, the whole grid fails with that error |
| SimulateWeights.GridConfigs | simulate_weights.py:361-387 | the grid fails exactly when a requested factor is not a weight name |
| SimulateWeights.GridCombosOk | simulate_weights.py:377-385 | for weight names, every combination builds a configuration with its values for the factors and the base elsewhere |
| SimulateWeights.GridConfigsSpec | simulate_weights.py:361-387 | the grid holds one configuration per combination, as many as the lengths multiplied, each with that combination's values and the base elsewhere |
| SimulateWeights.GridConfigsComplete | simulate_weights.py:377-381 | every choice of one value per factor is a combination of the grid |
| SimulateWeights.SetFactors | simulate_weights.py:382-384 | the loop sets each named factor to its value |
| SimulateWeights.FactorValueLists | simulate_weights.py:377-379 | the loop fails with a key error exactly when a factor is not a weight name, and otherwise gives the names and their value lists |
| SimulateWeights.CollectConfigs | simulate_weights.py:381-385 | the loop builds one configuration per combination, stopping at the first failure |
| SimulateWeights.GenerateGridConfigs | simulate_weights.py:361-387 | the method gives the grid the specification function describes |
| SimulateWeights.SliceBound | simulate_weights.py:415-417 | a slice index is cut to the list as Python does, counting a negative index from the end |
| SimulateWeights.SplitRecords | simulate_weights.py:413-417 | the training and validation parts together are the records |
| SimulateWeights.SplitSize | simulate_weights.py:415 | with a ratio in [0, 1], the training part holds the truncated share of the records |
| SimulateWeights.WithRanks | simulate_weights.py:504-506 | the i-th result gets rank i + 1 and nothing else changes |
| SimulateWeights.RankedOrder | simulate_weights.py:501-506 | the ranking keeps every result, numbers them from 1, and orders them by validation error then size of bias |
| SimulateWeights.RankedMembers | simulate_weights.py:501-506 | the ranking is a rearrangement of the results with ranks set |
| SimulateWeights.SortedIndexOf | simulate_weights.py:501-502 | each result appears somewhere in its sorted rearrangement |
| SimulateWeights.KeyOrderRanksAhead | simulate_weights.py:502 | a result not sorted after another ranks ahead of it |
| SimulateWeights.RankResults | simulate_weights.py:501-506 | the method sorts the results and numbers them as the specification function does |
| SimulateWeights.FirstMatch | simulate_weights.py:510-515 | the match found is the first result sharing the current form multiplier, fast-pace and high-usage weights, and none is found exactly when no result shares them |
| SimulateWeights.FindCurrentRank | simulate_weights.py:508-515 | the loop finds the current configuration's rank |
| SimulateWeights.CurrentRank | simulate_weights.py:508-515 | one past the last when no result carries the current weights; otherwise the rank of the first result that does |
| SimulateWeights.CurrentRankSpec | simulate_weights.py:508-515 | the current rank is that of the first matching result, or one past the last when none matches |
| SimulateWeights.ImprovementOf | simulate_weights.py:521-524 | each improvement is non-negative exactly when the best is no worse than the current on that measure |
| SimulateWeights.MeetsThresholds | simulate_weights.py:526-530 | meeting the thresholds means the best configuration is strictly better on error, bias and within-5 share |
| SimulateWeights.NoSelfImprovement | simulate_weights.py:526-530 | a configuration never meets the thresholds against itself |
| SimulateWeights.Summarize | simulate_weights.py:501-530 | the summary fails exactly when there are no results, where taking the best raises |
| SimulateWeights.SummaryParts | simulate_weights.py:501-530 | the summary counts the results, takes the best and top ten from the ranking, and the current rank and threshold verdict from their definitions |
| SimulateWeights.RankedFirstLeast | simulate_weights.py:501-502 | the first ranked result has the least validation error |
| SimulateWeights.SummaryBest | simulate_weights.py:501-521 | the best configuration has rank 1 and the least validation error of all |
| SimulateWeights.SummaryTop | simulate_weights.py:517-518 | the top list holds the first ten ranked results, or all, numbered from 1, and each ranks ahead of every result left out |
| SimulateWeights.SummaryThresholds | simulate_weights.py:508-530 | the current rank lies in 1 to one past the last, and meeting the thresholds means the best improves error by 0.2, bias by 0.3 and the within-5 share by 2 points |
| SimulationEngine.Or | simulation_engine.py:144-146 | a season value that is present and non-zero wins, otherwise the recent value is used |
| SimulationEngine.Truthy | simulation_engine.py:183-188 | a factor is reported exactly when its value is present and non-zero |
| SimulationEngine.ProjectedMinutes | simulation_engine.py:159-163 | with three or more recent games and positive recent minutes those are used, else the season minutes when non-zero, else the recent minutes |
| SimulationEngine.DvpBucket | simulation_engine.py:168-179 | an upper-cased position listed in the table gives its own bucket; when neither it nor a part of a combo position is listed the bucket is AVERAGE |
| SimulationEngine.DvpBucketWithoutGroups | simulation_engine.py:168-179 | the bucket is that of the exact position or the first listed part of a combo position, as in the points picks, and AVERAGE otherwise, with no group fallback |
| SimulationEngine.MinutesLadder | simulation_engine.py:198-206 | the minutes step lies in [-3.3, 1.2], 1.2 exactly from 34 minutes and -3.3 exactly below 26 |
| SimulationEngine.FormAdj | simulation_engine.py:212-215 | with a season average, recent form is capped at 5 either way and has the sign of recent minus season scoring |
| SimulationEngine.ConsistencyAdj | simulation_engine.py:218-225 | consistency lies in [-1.7, 1.3], with the bonus exactly up to a spread of 5 |
| SimulationEngine.PaceAdj | simulation_engine.py:227-237 | the pace step is 2.7 exactly from 104, -2.7 exactly up to 98, and 0 exactly between or without a pace |
| SimulationEngine.UsageAdj | simulation_engine.py:239-247 | the usage step lies in [-1, 1.2] and is 0 without usage |
| SimulationEngine.TsAdj | simulation_engine.py:249-260 | the shooting step lies in [-0.5, 1] and is 0 without a value |
| SimulationEngine.MatchupAdj | simulation_engine.py:262-277 | the matchup step lies in [-2, 1.7]; without a defensive rating it is 1.7 exactly for WEAK and -2 exactly for STRONG |
| SimulationEngine.RestAdj | simulation_engine.py:279-288 | the rest step lies in [-1.8, 0.2], the bonus exactly after two days and 0 exactly after one |
| SimulationEngine.ClutchAdj | simulation_engine.py:290-301 | the clutch step lies in [-0.5, 1] and is 0 without a value |
| SimulationEngine.RankAdj | simulation_engine.py:303-313 | the scoring-rank step lies in [-0.5, 1.4] and is 0 without a rank |
| SimulationEngine.ComputeAdjustmentScore | simulation_engine.py:116-315 | the method fails, as the unbound form step does, exactly when the season average is not positive, and otherwise returns the summed score, the projected minutes, the spread and the reported factors |
| SimulationEngine.MinutesAdjHalved | simulation_engine.py:198-210 | the minutes step is halved with fewer than three recent games, staying within [-3.3, 1.2] |
| SimulationEngine.FormAdjMonotone | simulation_engine.py:212-215 | better recent scoring never lowers the form step |
| SimulationEngine.LaddersMonotone | simulation_engine.py:239-301 | more usage, better shooting or more clutch scoring never lowers its step |
| SimulationEngine.LaddersAntitone | simulation_engine.py:198-313 | a worse scoring rank or a larger spread never raises its step, and more minutes never lower the minutes step |
| SimulationEngine.MatchupIgnoresBucket | simulation_engine.py:262-277 | with a defensive rating the matchup bucket plays no part |
| SimulationEngine.AdjustmentScoreBounds | simulation_engine.py:196-315 | with a season average the score lies in [-19, 16.7] |
| SimulationEngine.ComputeAdjustedProjection | simulation_engine.py:318-347 | the projection is the points-picks projection and never exceeds 130 percent of a positive recent average |
| SimulationEngine.RunMonteCarlo | simulation_engine.py:350-378 | the win probability is a percentage; without spread it is 100 exactly when the mean beats the line and the mean is kept; otherwise it is the share of winning draws |
| SimulationEngine.FirstWhereSpec | simulation_engine.py:395-398 | the search finds the first matching entry, or none exactly when nothing matches |
| SimulationEngine.FirstInGroupsSpec | simulation_engine.py:394-400 | the search returns the first match of the first team that has one, with that team |
| SimulationEngine.FindInTeamSpec | simulation_engine.py:395-398 | within a team, the player found is the first whose normalised name matches |
| SimulationEngine.FindPlayerSpec | simulation_engine.py:381-400 | the player found belongs to the first team with a name match, and none is found exactly when no team has one |
| SimulationEngine.FindPlayerInGameData | simulation_engine.py:381-400 | the method normalises the name and searches the teams in order |
| SimulationEngine.FindPlayerByKey | simulation_engine.py:392-400 | the loop over teams finds what the specification function finds |
| SimulationEngine.FindInPlayers | simulation_engine.py:395-398 | the loop over one team finds the first name match |
| SimulationEngine.ProjectedPace | simulation_engine.py:432-442 | the game pace is the average of both paces, the one pace known, or none |
| SimulationEngine.ProjectedPaceSymmetric | simulation_engine.py:435-442 | swapping the teams does not change the game pace |
| SimulationEngine.ResultFor | simulation_engine.py:459-515 | a result carries the team, the line and the starter flag, a percentage win probability, a positive spread and the edge as mean minus line |
| SimulationEngine.SimulateOne | simulation_engine.py:446-515 | one entry fails exactly as the unbound form step does, is skipped exactly when the player is unknown or a bench player when starters are asked for, and otherwise yields a result for the player found |
| SimulationEngine.NameKeys | simulation_engine.py:390 | every baseline gets one name key |
| SimulationEngine.NameKeysAt | simulation_engine.py:390 | each key is the normalised baseline name |
| SimulationEngine.Steps | simulation_engine.py:446-515 | every baseline gets one outcome |
| SimulationEngine.CollectSpec | simulation_engine.py:446-515 | the run fails exactly when some entry fails, and otherwise keeps at most one result per entry, each coming from an entry |
| SimulationEngine.CollectStep | simulation_engine.py:446-515 | each entry adds its result, adds nothing when skipped, and the rest follow |
| SimulationEngine.NormalizeNames | simulation_engine.py:446-448 | the loop normalises every baseline name |
| SimulationEngine.SimulateEntries | simulation_engine.py:446-515 | the loop over baselines produces what the specification function does |
| SimulationEngine.SimulateStep | simulation_engine.py:447-515 | the method handles one entry as the specification function does |
| SimulationEngine.SimulatePlayer | simulation_engine.py:459-515 | the method fails exactly when the season average is not positive, and otherwise gives the specified result |
| SimulationEngine.SimulateGame | simulation_engine.py:403-520 | the method fails exactly when some entry fails, and otherwise returns the entries' results sorted by win probability, largest first |
| SimulationEngine.SimulateAllFails | simulation_engine.py:446-515 | the run fails exactly when some baseline names a player found, eligible, and without a season average |
| SimulationEngine.SimulateAllResults | simulation_engine.py:446-515 | each result is accounted for by a baseline whose player was found |
| SimulationEngineV3.IdToInt | archive/simulation_engine_v3.py:125-131 | an integer player id is read as itself; a missing or unconvertible id gives nothing |
| SimulationEngineV3.LinesIndexKeys | archive/simulation_engine_v3.py:119-133 | the index holds exactly the ids of entries with a readable player id |
| SimulationEngineV3.LinesIndexLast | archive/simulation_engine_v3.py:119-133 | each id maps to the lines of the last entry with that id |
| SimulationEngineV3.BuildLinesIndex | archive/simulation_engine_v3.py:119-133 | the loop builds the index the specification function describes |
| SimulationEngineV3.HighUsageCountSpec | archive/simulation_engine_v3.py:161-165 | the high-usage count is the number of teammates at 25 percent usage or more |
| SimulationEngineV3.TargetUsageSpec | archive/simulation_engine_v3.py:161-167 | the target's usage is that of the last entry with its id, or 0 when absent |
| SimulationEngineV3.Cannibalization | archive/simulation_engine_v3.py:169-174 | the factor is 0.95, 0.92 or 1, and below 1 exactly with three high-usage players and a target at 20 percent, or with four |
| SimulationEngineV3.CannibalizationAntitone | archive/simulation_engine_v3.py:169-174 | more high-usage teammates never raise the factor |
| SimulationEngineV3.ComputeUsageCannibalization | archive/simulation_engine_v3.py:149-174 | the loop counts high-usage teammates and finds the target's usage, giving the specified factor |
| SimulationEngineV3.BucketMultiplier | archive/simulation_engine_v3.py:209-214 | WEAK gives 1.08, STRONG 0.92, anything else 1 |
| SimulationEngineV3.DvpMultiplier | archive/simulation_engine_v3.py:177-214 | the multiplier is 1.08, 0.92 or 1, and 1 without data for the stat |
| SimulationEngineV3.DvpExact | archive/simulation_engine_v3.py:194-195 | a listed position uses its own bucket, AVERAGE when it has none |
| SimulationEngineV3.DvpGroupFallback | archive/simulation_engine_v3.py:201-204 | an unlisted guard position uses the G entry and an unlisted forward position the F entry |
| SimulationEngineV3.DvpComboFallback | archive/simulation_engine_v3.py:199-200 | an unlisted G-F or F-G uses the G entry when present, else the F entry |
| SimulationEngineV3.RestMultiplier | archive/simulation_engine_v3.py:217-231 | rest lowers the projection exactly on a back-to-back and raises it exactly after two days, within [0.96, 1.02] |
| SimulationEngineV3.ClampProjection | archive/simulation_engine_v3.py:434-435 | the projection is raised to at least 0.1 and the spread to at least 0.5, and values already there are kept |
| SimulationEngineV3.ClampRisk | archive/simulation_engine_v3.py:146 | the risk is clamped to [0, 1], and a risk already there is kept |
| SimulationEngineV3.BlowoutRiskLogistic | archive/simulation_engine_v3.py:136-146 | the logistic value lies strictly between 0 and 1, so the clamp keeps it |
| SimulationEngineV3.OddsToImplied | archive/simulation_engine_v3.py:621-625 | the implied probability lies in [0, 1), is positive for positive odds, at least 0.5 for favourites and at most 0.5 for underdogs |
| SimulationEngineV3.OddsComplement | archive/simulation_engine_v3.py:621-625 | plus and minus the same odds imply probabilities summing to 1 |
| SimulationEngineV3.OddsAntitone | archive/simulation_engine_v3.py:621-625 | on either side of zero, larger odds imply a smaller probability |
| SimulationEngineV3.LooseLines | archive/simulation_engine_v3.py:465-470 | the loose match takes the first entry whose name contains, or is contained in, the player's name, ignoring case, and nothing when none does |
| SimulationEngineV3.LinedTypes | archive/simulation_engine_v3.py:503-511 | the simulated stat types are exactly those with a positive line, in order |
| SimulationEngineV3.StatsOfSpec | archive/simulation_engine_v3.py:503-618 | a stat is simulated exactly when it has a positive line, and PRA exactly when points, rebounds and assists all are |
| SimulationEngineV3.MinutesProjection | archive/simulation_engine_v3.py:482 | the recent minutes average when it is non-zero, else the season minutes |
| SimulationEngineV3.SimulationOutcomeSpec | archive/simulation_engine_v3.py:440-618 | a player gives no result exactly when OUT or DOUBTFUL, without lines, projected under 14 minutes, or without any positive line; otherwise the simulated stats are those with lines |
| SimulationEngineV3.FindLooseLines | archive/simulation_engine_v3.py:465-470 | the loop finds the first loose name match |
| SimulationEngineV3.SimulatedStats | archive/simulation_engine_v3.py:500-616 | the loop lists the simulated stat types as the specification function does |
| SimulationEngineV3.SimulatePlayer | archive/simulation_engine_v3.py:440-618 | the method decides whether and which stats a player is simulated for as the specification function does |

## Left out

- HTTP requests and their retries are not modelled: `RateLimiter`, the `_request` methods of both API clients, and the request halves of `fetch_live_lines_v3.py`. Their responses are parameters.
- The wall clock is not modelled: request throttling and the date-keyed season-stats cache.
- Files and subprocesses are not modelled: file reading and writing in the subtitle tools and the archive scripts, and the `yt-dlp` calls of `download_segment` and `run_pipeline`.
- Printing and the terminal UI are not modelled: the Rich `display_*` rendering, the polling loop, JSON-lines logging, config-file loading and hashing, and every argparse `main`.
- `Display.GameStatusText`: the conversion of a scheduled time to Pacific time in `format_game_status` is not modelled, because it needs date and timezone handling. The converted text, or `None` when parsing fails, is a parameter.
- Random draws are not modelled:
  - the normal sampling in `run_monte_carlo` and in `simulate_player` of the multi-stat engine;
  - their percentiles, expected values and distributions;
  - Monte Carlo config sampling and `random.shuffle` in `simulate_weights.py`.

  Only the deterministic branches and the guards are modelled.
- The process pool of `simulate_weights.py` is not modelled; configurations are evaluated as a value.
- Floating point is not modelled. Quantities are exact reals, and tanh, atanh, exp and sqrt are only known through the laws in `Numerics.Lawful`. Pearson correlation, RMSE and `statistics.pstdev` are not computed to IEEE precision, and only their guards are modelled.
- Python's `round(x, n)` to decimal places is not modelled. Values are stated before rounding: the GOAT score, the floor margin and safety score of the parlay legs, PRA lines and the accuracy percentages.
- Float-to-text formatting (`f"{x:.1f}"` and similar) is a function parameter of the display formatters. In `archive/finalize_picks_strict.py` the parameter `render` turns a whole reason part into text, its label included, so the wording of the reasons is not modelled either.
- `compute_base_projection` of the multi-stat engine: only its final clamps are modelled (`SimulationEngineV3.ClampProjection`). The projection ladder ahead of them is not.
- `compute_blowout_risk` of the multi-stat engine is modelled through an arbitrary logistic value and its clamp. The exp of the source is not evaluated.
- `analyze_correlations` in `auto_tune_model_v3.py` is not modelled. It is a Pearson correlation per factor, a floating-point computation; the weight suggestions take the correlations as input.
- `run_pipeline` and `optimize_parlay` in `archive/parlay_optimizer_v3.py` are not modelled. `run_pipeline` runs subprocesses; `optimize_parlay` prints the legs it ranks; the file reading and writing belong to `main`.
- `calculate_blowout_risk` of `archive/generate_picks.py` is not modelled, because it is an exp; the blowout risk is an input of the safety score and the difficulty label.
- `generate_why_summary` of `archive/generate_picks.py` is not modelled. It builds display text only, and the strict finalizer's version is modelled instead.
- Team and player-name inference in `fetch_live_lines_v3.py` (which side a prop's player belongs to) is not modelled. The team is part of each raw prop.
- `int()` on odds and ids: values that `int()` refuses are modelled as missing, where the source catches the error (as `build_lines_index` does at archive/simulation_engine_v3.py:128-130). `int(player_id)` in `simulate_player` (archive/simulation_engine_v3.py:462) sits outside any `try` and raises `ValueError` for a non-integer id when the line index is non-empty. `SimulationEngineV3.SimPlayer.playerId` is an `int`, so that error cannot be expressed in the model. Python's booleans counting as integers is not modelled.
- Missing numeric fields in stat dictionaries read as 0, as the source's `.get(..., 0)` defaults do. Values of the wrong type are not modelled.
- Text.ParseInt / Text.IsDigit: they accept an optional sign and ASCII digits only. Python's `int()` also accepts underscores between digits ("1_000") and Unicode decimal digits, and `str.isdigit()` and the regular expression `\d` accept Unicode digits. On such input `WinModel.ParseClock`, `YoutubeSegment.ParseTime`, the index-line test of `TranslateSrt.ProcessLine` and `AutoTune.ParseMinutes` differ from the source.
- Text.Lower / Text.Upper: case mapping covers ASCII letters, and for lower-casing also the Armenian capitals the subtitle glossary uses. Python maps every cased letter ('É' to 'é', 'ß' upper-cased to "SS"). The names matched through `PointsPicks.NormalizedName`, `DataFetcher.Nickname`, the name search of `SimulationEngine` and `SimulationEngineV3.LooseLines`, and the upper-cased injury statuses, therefore agree with Python only on names and statuses whose letters are ASCII.
- A zero `lead_scale` is excluded: `WinModel.FlipLeadHome`, `WinModel.Predict` and `WinModel.Assess` require `cfg.leadScale != 0.0`, because newapp/predictor/model.py:363 divides by it; the shipped value is 0.15. Likewise `SimulationEngine.RunMonteCarlo` requires a positive iteration count when the standard deviation is positive (simulation_engine.py:377 divides by it; the default is 10000), and `SimulationEngine.ResultFor` and the functions that simulate a whole game require one outright.
- The slate of `fetch_live_lines_v3.py` is a map from player id (`FetchLiveLinesV3.Slate`), so the order in which the source writes the players to its JSON file is not modelled. `SimulationEngineV3` reads that file as an ordered list and its loose name match takes the first match in list order; the model leaves that order open rather than deriving it from the fetcher.
- Ranking on rounded keys is not modelled: the source sorts on rounded values (the floor margin and win probability in `archive/generate_picks.py`, the parlay safety score, the mean absolute error in `simulate_weights.py`). Two keys that round alike tie in the source and keep their input order, while the model compares them unrounded and may order them differently.
- `SimulateWeights.RankResults` ranks a list of result values. The source writes the rank into each result dictionary in place.
- `GeneratePicksFromSimulation.SelectTeamPicks`: the source writes `days_rest`, `is_away` and `pace_adjustment` into the shared `player_data` dictionary (archive/generate_picks_from_simulation.py:177-179), which `compute_goat_score` then reads. That in-place update, visible to later readers of the game data, is not captured: the model passes `WithContext` copies of the entries instead.
- `FinalizePicksStrict.SelectTeamPicks`: candidates are objects compared by identity. Python's `in` on dictionaries also matches a distinct dictionary with equal contents, and the model does not. A flag that is absent and a flag set to `None` are not distinguished.
- `TranslateSrt.ProcessLines` returns the lines to write rather than writing them. Its result is specified by `TranslateSrt.Outputs`.
- Three source behaviours that look unintended are modelled as written and not corrected (see the introduction): `parse_clock` of a colon-less clock, the unbound `form_adj`, and the double pace adjustment.
