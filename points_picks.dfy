// The player-points pick generator: status and name normalisation, the
// per-factor points adjustments, the projected points and the confidence
// score of one candidate, the defense-versus-position lookup and the
// selection of the top candidates with distinct players.
module PointsPicks {
  import opened Wrappers
  import opened Text
  import Arith

  // ---------------------------------------------------------------------
  // Injury status
  // ---------------------------------------------------------------------

  /** Statuses that take a player out of the candidate pool. */
  const InactiveStatuses: set<string> := {"OUT", "DOUBTFUL"}

  /**
   * `_normalize_status`: a missing or empty status is "AVAILABLE"; otherwise
   * the status stripped and upper-cased, with the vendor spellings of a game
   * time decision mapped to "QUESTIONABLE".
   */
  function NormalizeStatus(status: Option<string>): (r: string)
    ensures status.None? || status.value == [] ==> r == "AVAILABLE"
    ensures status.Some? && status.value != [] ==>
              (var s := Upper(Strip(status.value));
               r == if s == "GTD" || s == "GAME TIME DECISION" then "QUESTIONABLE" else s)
  {
    if status.None? || status.value == [] then "AVAILABLE"
    else VendorStatus(Upper(Strip(status.value)))
  }

  /** The vendor spellings of a game time decision, mapped to "QUESTIONABLE". */
  function VendorStatus(s: string): string {
    if s == "GTD" || s == "GAME TIME DECISION" then "QUESTIONABLE" else s
  }

  predicate IsActive(status: Option<string>) {
    NormalizeStatus(status) !in InactiveStatuses
  }

  lemma UpperCharSpace(c: char)
    ensures IsSpace(UpperChar(c)) <==> IsSpace(c)
    ensures UpperChar(UpperChar(c)) == UpperChar(c)
  {
  }

  lemma UpperIdempotent(s: string)
    ensures Upper(Upper(s)) == Upper(s)
  {
    forall i | 0 <= i < |s| ensures Upper(Upper(s))[i] == Upper(s)[i] {
      UpperCharSpace(s[i]);
    }
  }

  /** Upper-casing keeps a stripped string stripped. */
  lemma UpperKeepsEnds(t: string)
    requires t == [] || (!IsSpace(t[0]) && !IsSpace(t[|t| - 1]))
    ensures Strip(Upper(t)) == Upper(t)
  {
    if t != [] {
      UpperCharSpace(t[0]);
      UpperCharSpace(t[|t| - 1]);
    }
    StripNoSpaceEnds(Upper(t));
  }

  /** A string without lower-case ASCII letters is its own upper case. */
  lemma UpperIdle(s: string)
    requires forall i :: 0 <= i < |s| ==> !('a' <= s[i] <= 'z')
    ensures Upper(s) == s
  {
  }

  /** A stripped, upper-case status normalises to itself unless it is a game time decision. */
  lemma StatusOfNormalForm(u: string)
    requires u != [] && Strip(u) == u && Upper(u) == u
    ensures NormalizeStatus(Some(u)) == if u == "GTD" || u == "GAME TIME DECISION" then "QUESTIONABLE" else u
  {
  }

  /** A word of capital letters is already stripped and upper case. */
  lemma CapitalsNormalForm(u: string)
    requires u != [] && forall i :: 0 <= i < |u| ==> 'A' <= u[i] <= 'Z'
    ensures Strip(u) == u && Upper(u) == u
  {
    StripNoSpaceEnds(u);
    UpperIdle(u);
  }

  /** A status given in capitals, without padding, is kept as it is. */
  lemma CapitalStatusKept(u: string)
    requires u != [] && forall i :: 0 <= i < |u| ==> 'A' <= u[i] <= 'Z'
    requires u != "GTD"
    ensures NormalizeStatus(Some(u)) == u
  {
    assert u != "GAME TIME DECISION" by {
      if |u| > 4 {
        assert u[4] != ' ';
      }
    }
    CapitalsNormalForm(u);
    StatusOfNormalForm(u);
  }

  /** The two statuses the normalisation introduces are fixed points of it. */
  lemma AvailableKept()
    ensures NormalizeStatus(Some("AVAILABLE")) == "AVAILABLE"
  {
    CapitalStatusKept("AVAILABLE");
  }

  lemma QuestionableKept()
    ensures NormalizeStatus(Some("QUESTIONABLE")) == "QUESTIONABLE"
  {
    CapitalStatusKept("QUESTIONABLE");
  }

  /** A status passed through the normalisation is a fixed point of it. */
  lemma NormalizeStatusIdempotent(v: string)
    requires v != [] && NormalizeStatus(Some(v)) == Upper(Strip(v)) != []
    ensures NormalizeStatus(Some(NormalizeStatus(Some(v)))) == NormalizeStatus(Some(v))
  {
    var t := Strip(v);
    var r := Upper(t);
    assert Strip(r) == r by {
      StripShape(v);
      UpperKeepsEnds(t);
    }
    assert Upper(r) == r by {
      UpperIdempotent(t);
    }
    StatusOfNormalForm(r);
  }

  /** Case and surrounding whitespace never change whether a player is active. */
  lemma IsActiveIgnoresCase(s: string, t: string)
    requires s != [] && t != [] && Upper(Strip(s)) == Upper(Strip(t))
    ensures NormalizeStatus(Some(s)) == NormalizeStatus(Some(t))
    ensures IsActive(Some(s)) <==> IsActive(Some(t))
  {
  }

  /**
   * A status made only of whitespace normalises to the empty string, not to
   * "AVAILABLE"; it still counts as active.
   */
  lemma BlankStatusIsEmpty(s: string)
    requires s != [] && AllSpace(s)
    ensures NormalizeStatus(Some(s)) == [] && IsActive(Some(s))
  {
    StripShape(s);
  }

  /** Only "OUT" and "DOUBTFUL", in any case and padding, make a player inactive. */
  lemma InactiveExactly(status: Option<string>)
    ensures !IsActive(status) <==>
      status.Some? && status.value != [] && Upper(Strip(status.value)) in InactiveStatuses
  {
  }

  // ---------------------------------------------------------------------
  // Player names
  // ---------------------------------------------------------------------

  /** Generational suffixes dropped from the end of a name. */
  const NameSuffixes: set<string> := {"jr", "sr", "ii", "iii", "iv", "v"}

  /** The punctuation removed from a name, in removal order. */
  const Punctuation: seq<string> := [".", ","]

  /** Patterns str.replace can look for. */
  predicate NonEmptyMarks(marks: seq<string>) {
    forall k :: 0 <= k < |marks| ==> marks[k] != []
  }

  lemma PunctuationMarks()
    ensures NonEmptyMarks(Punctuation)
  {
  }

  /** Each pattern in turn replaced by nothing. */
  function RemoveAll(s: string, marks: seq<string>): string
    requires NonEmptyMarks(marks)
    decreases |marks|
  {
    if marks == [] then s else RemoveAll(Replace(s, marks[0], ""), marks[1..])
  }

  /** The word list without a trailing suffix (only one is dropped). */
  function DropSuffix(parts: seq<string>): seq<string> {
    if parts != [] && parts[|parts| - 1] in NameSuffixes then parts[..|parts| - 1] else parts
  }

  /** The words a normalised name is made of. */
  function NameWords(name: string): seq<string> {
    DropSuffix(Words(RemoveAll(Lower(Strip(name)), Punctuation)))
  }

  function NormalizedName(name: string): string {
    Join(NameWords(name), " ")
  }

  /** The loop of `_normalize_name_for_match` that deletes each mark in turn. */
  method RemoveMarks(s: string, marks: seq<string>) returns (r: string)
    requires NonEmptyMarks(marks)
    ensures r == RemoveAll(s, marks)
  {
    r := s;
    for k := 0 to |marks|
      invariant RemoveAll(r, marks[k..]) == RemoveAll(s, marks)
    {
      assert marks[k..][1..] == marks[k + 1..];
      r := Replace(r, marks[k], "");
    }
    assert marks[|marks|..] == [];
  }

  /** `_normalize_name_for_match`. */
  method NormalizeNameForMatch(name: string) returns (r: string)
    ensures r == NormalizedName(name)
  {
    PunctuationMarks();
    var s := RemoveMarks(Lower(Strip(name)), Punctuation);
    r := Join(DropSuffix(Words(s)), " ");
  }

  /** Every character of `s` satisfies `ok`. */
  predicate CharsOk(s: string, ok: char -> bool) {
    forall i :: 0 <= i < |s| ==> ok(s[i])
  }

  lemma {:induction false} ReplaceKeeps(s: string, pat: string, ok: char -> bool)
    requires pat != [] && CharsOk(s, ok)
    ensures CharsOk(Replace(s, pat, ""), ok)
    decreases |s|
  {
    if |s| >= |pat| {
      if s[..|pat|] == pat {
        ReplaceKeeps(s[|pat|..], pat, ok);
        assert Replace(s, pat, "") == Replace(s[|pat|..], pat, "");
      } else {
        ReplaceKeeps(s[1..], pat, ok);
        var r := Replace(s[1..], pat, "");
        assert Replace(s, pat, "") == [s[0]] + r;
        assert forall i :: 1 <= i < |r| + 1 ==> ([s[0]] + r)[i] == r[i - 1];
      }
    }
  }

  lemma {:induction false} ReplaceRemoves(s: string, c: char)
    ensures c !in Replace(s, [c], "")
    decreases |s|
  {
    if |s| >= 1 {
      if s[..1] == [c] {
        ReplaceRemoves(s[1..], c);
      } else {
        ReplaceRemoves(s[1..], c);
        assert s[0] != c by { assert s[..1][0] == s[0]; }
      }
    }
  }

  lemma SliceKeeps(s: string, i: nat, j: nat, ok: char -> bool)
    requires i <= j <= |s| && CharsOk(s, ok)
    ensures CharsOk(s[i..j], ok)
  {
    assert forall k :: 0 <= k < j - i ==> s[i..j][k] == s[i + k];
  }

  lemma ConsKeeps(w: string, rest: seq<string>, ok: char -> bool)
    requires CharsOk(w, ok) && forall k :: 0 <= k < |rest| ==> CharsOk(rest[k], ok)
    ensures forall k :: 0 <= k < |[w] + rest| ==> CharsOk(([w] + rest)[k], ok)
  {
    forall k | 0 <= k < |[w] + rest| ensures CharsOk(([w] + rest)[k], ok) {
      if k > 0 {
        assert ([w] + rest)[k] == rest[k - 1];
      }
    }
  }

  /** The words of a string are made of its characters. */
  lemma {:induction false} WordsKeep(s: string, ok: char -> bool)
    requires CharsOk(s, ok)
    ensures forall k :: 0 <= k < |Words(s)| ==> CharsOk(Words(s)[k], ok)
    decreases |s|
  {
    var t := LStrip(s);
    if t != [] {
      var n := TokenLength(t);
      assert CharsOk(t, ok) by { SliceKeeps(s, |s| - |t|, |s|, ok); }
      SliceKeeps(t, 0, n, ok);
      SliceKeeps(t, n, |t|, ok);
      WordsKeep(t[n..], ok);
      ConsKeeps(t[..n], Words(t[n..]), ok);
      assert Words(s) == [t[..n]] + Words(t[n..]);
    }
  }

  lemma {:induction false} JoinKeep(ws: seq<string>, sep: string, ok: char -> bool)
    requires forall k :: 0 <= k < |ws| ==> CharsOk(ws[k], ok)
    requires CharsOk(sep, ok)
    ensures CharsOk(Join(ws, sep), ok)
  {
    if |ws| > 1 {
      JoinKeep(ws[1..], sep, ok);
      var rest := Join(ws[1..], sep);
      assert Join(ws, sep) == ws[0] + sep + rest;
      forall i | 0 <= i < |ws[0] + sep + rest| ensures ok((ws[0] + sep + rest)[i]) {
        if i >= |ws[0]| + |sep| {
          assert (ws[0] + sep + rest)[i] == rest[i - |ws[0]| - |sep|];
        } else if i >= |ws[0]| {
          assert (ws[0] + sep + rest)[i] == sep[i - |ws[0]|];
        }
      }
    }
  }

  predicate LowerFixed(c: char) {
    LowerChar(c) == c
  }

  /** The characters a normalised name may contain. */
  predicate NameChar(c: char) {
    c != '.' && c != ',' && LowerChar(c) == c
  }

  lemma {:induction false} RemoveAllKeeps(s: string, marks: seq<string>, ok: char -> bool)
    requires NonEmptyMarks(marks)
    requires CharsOk(s, ok)
    ensures CharsOk(RemoveAll(s, marks), ok)
    decreases |marks|
  {
    if marks != [] {
      ReplaceKeeps(s, marks[0], ok);
      RemoveAllKeeps(Replace(s, marks[0], ""), marks[1..], ok);
    }
  }

  /** No single-character mark survives the removal. */
  lemma {:induction false} RemoveAllRemoves(s: string, marks: seq<string>, j: nat)
    requires NonEmptyMarks(marks)
    requires j < |marks| && |marks[j]| == 1
    ensures marks[j][0] !in RemoveAll(s, marks)
    decreases |marks|
  {
    var c := marks[j][0];
    var t := Replace(s, marks[0], "");
    if j == 0 {
      assert marks[0] == [c];
      ReplaceRemoves(s, c);
      assert CharsOk(t, x => x != c);
      RemoveAllKeeps(t, marks[1..], x => x != c);
    } else {
      RemoveAllRemoves(t, marks[1..], j - 1);
    }
  }

  lemma LowerFixes(s: string)
    ensures CharsOk(Lower(s), LowerFixed)
  {
  }

  /** After lower-casing and removing the punctuation only name characters remain. */
  lemma CleanedChars(l: string)
    requires CharsOk(l, LowerFixed)
    ensures CharsOk(RemoveAll(l, Punctuation), NameChar)
  {
    var r := RemoveAll(l, Punctuation);
    assert CharsOk(r, LowerFixed) by {
      RemoveAllKeeps(l, Punctuation, LowerFixed);
    }
    assert '.' !in r by {
      RemoveAllRemoves(l, Punctuation, 0);
    }
    assert ',' !in r by {
      RemoveAllRemoves(l, Punctuation, 1);
    }
    forall i | 0 <= i < |r| ensures NameChar(r[i]) {
      assert LowerFixed(r[i]);
    }
  }

  /** Name words joined by single spaces. */
  lemma JoinedShape(ws: seq<string>)
    requires IsWordList(ws) && forall k :: 0 <= k < |ws| ==> CharsOk(ws[k], NameChar)
    ensures var r := Join(ws, " "); CharsOk(r, NameChar) && Strip(r) == r && Words(r) == ws
  {
    JoinKeep(ws, " ", NameChar);
    WordsJoin(ws);
    JoinEnds(ws);
    StripNoSpaceEnds(Join(ws, " "));
  }

  /** A prefix of a list keeps what holds of every element. */
  lemma DropSuffixKeeps(ws: seq<string>)
    requires IsWordList(ws) && forall k :: 0 <= k < |ws| ==> CharsOk(ws[k], NameChar)
    ensures var d := DropSuffix(ws);
      IsWordList(d) && forall k :: 0 <= k < |d| ==> CharsOk(d[k], NameChar)
  {
    var d := DropSuffix(ws);
    assert forall k :: 0 <= k < |d| ==> d[k] == ws[k];
  }

  /**
   * A normalised name is lower case, has no '.' or ',', no surrounding
   * whitespace, and its words are separated by single spaces.
   */
  lemma NormalizedNameShape(name: string)
    ensures var r := NormalizedName(name);
      CharsOk(r, NameChar) && Strip(r) == r && Words(r) == NameWords(name)
  {
    var cleaned := RemoveAll(Lower(Strip(name)), Punctuation);
    assert CharsOk(cleaned, NameChar) by {
      LowerFixes(Strip(name));
      CleanedChars(Lower(Strip(name)));
    }
    var ws := Words(cleaned);
    assert forall k :: 0 <= k < |ws| ==> CharsOk(ws[k], NameChar) by {
      WordsKeep(cleaned, NameChar);
    }
    DropSuffixKeeps(ws);
    JoinedShape(NameWords(name));
  }

  lemma {:induction false} LowerIdle(s: string)
    requires CharsOk(s, NameChar)
    ensures Lower(s) == s
  {
  }

  /** Removing punctuation from a string without any leaves it alone. */
  lemma RemoveAllIdle(s: string)
    requires CharsOk(s, NameChar)
    ensures RemoveAll(s, Punctuation) == s
  {
    ContainsChar(s, '.');
    ContainsChar(s, ',');
    assert Punctuation[1..][1..] == [];
  }

  /** Normalising a normalised name drops one more suffix, if there is one. */
  lemma NormalizeTwice(name: string)
    ensures NameWords(NormalizedName(name)) == DropSuffix(NameWords(name))
  {
    var r := NormalizedName(name);
    NormalizedNameShape(name);
    LowerIdle(r);
    RemoveAllIdle(r);
  }

  /**
   * Normalisation is idempotent exactly when the normalised name does not
   * itself end in a suffix ("Gary Payton II Jr." normalises to "gary payton ii",
   * which normalises again to "gary payton").
   */
  lemma NormalizeIdempotentIff(name: string)
    ensures NormalizedName(NormalizedName(name)) == NormalizedName(name) <==>
      DropSuffix(NameWords(name)) == NameWords(name)
  {
    NormalizeTwice(name);
    NormalizedNameShape(name);
    DropSuffixJoin(NameWords(name));
  }

  /** Dropping a suffix changes the joined words exactly when there is one to drop. */
  lemma DropSuffixJoin(ws: seq<string>)
    requires IsWordList(ws)
    ensures Join(DropSuffix(ws), " ") == Join(ws, " ") <==> DropSuffix(ws) == ws
  {
    var ds := DropSuffix(ws);
    assert IsWordList(ds) by {
      assert forall k :: 0 <= k < |ds| ==> ds[k] == ws[k];
    }
    if Join(ds, " ") == Join(ws, " ") {
      JoinInjective(ds, ws);
    }
  }

  /** Different word lists join to different strings. */
  lemma JoinInjective(a: seq<string>, b: seq<string>)
    requires IsWordList(a) && IsWordList(b) && Join(a, " ") == Join(b, " ")
    ensures a == b
  {
    WordsJoin(a);
    WordsJoin(b);
  }

  // ---------------------------------------------------------------------
  // Points adjustments
  // ---------------------------------------------------------------------

  /**
   * `_compute_environment_adj`: a fast projected pace (above 104) adds and a
   * slow one (below 99) removes 1.5 points per 35 projected minutes.
   */
  function EnvironmentAdj(pace: Option<real>, projMinutes: real): (r: real)
    ensures 0.0 <= projMinutes <= 35.0 ==> -1.5 <= r <= 1.5
    ensures r != 0.0 ==> pace.Some? && (pace.value > 104.0 || pace.value < 99.0)
  {
    if pace.None? then 0.0
    else if pace.value > 104.0 then 1.5 * (projMinutes / 35.0)
    else if pace.value < 99.0 then -1.5 * (projMinutes / 35.0)
    else 0.0
  }

  /** A faster pace never lowers the adjustment. */
  lemma EnvironmentAdjMonotone(p: real, q: real, projMinutes: real)
    requires p <= q && projMinutes >= 0.0
    ensures EnvironmentAdj(Some(p), projMinutes) <= EnvironmentAdj(Some(q), projMinutes)
  {
  }

  /** Fast and slow games move the projection by the same amount in opposite directions. */
  lemma EnvironmentAdjSymmetric(fast: real, slow: real, projMinutes: real)
    requires fast > 104.0 && slow < 99.0
    ensures EnvironmentAdj(Some(fast), projMinutes) == -EnvironmentAdj(Some(slow), projMinutes)
  {
  }

  /** `_compute_usage_adj`: +1.5 from 28% usage, -1 below 20%, nothing without a rate. */
  function UsageAdj(usage: Option<real>): (r: real)
    ensures -1.0 <= r <= 1.5
    ensures usage.None? ==> r == 0.0
  {
    if usage.None? then 0.0
    else if usage.value >= 28.0 then 1.5
    else if usage.value < 20.0 then -1.0
    else 0.0
  }

  lemma UsageAdjMonotone(u: real, v: real)
    requires u <= v
    ensures UsageAdj(Some(u)) <= UsageAdj(Some(v))
  {
  }

  /**
   * `_compute_rest_adj`: a back-to-back costs 2.5 points away and 1.5 at
   * home, one day of rest is neutral, two days add 0.5, and any other count
   * (three or more, or a negative one) costs 0.3.
   */
  function RestAdj(daysRest: int, isAway: bool): (r: real)
    ensures -2.5 <= r <= 0.5
    ensures r == 0.5 <==> daysRest == 2
  {
    if daysRest == 0 then (if isAway then -2.5 else -1.5)
    else if daysRest == 1 then 0.0
    else if daysRest == 2 then 0.5
    else -0.3
  }

  /** Playing away never helps, and only a back-to-back depends on it. */
  lemma RestAdjAway(daysRest: int)
    ensures RestAdj(daysRest, true) <= RestAdj(daysRest, false)
    ensures RestAdj(daysRest, true) != RestAdj(daysRest, false) <==> daysRest == 0
  {
  }

  /** `_compute_dvp_adj`: a weak defense adds and a strong one removes 2 points. */
  function DvpAdj(bucket: string): (r: real)
    ensures -2.0 <= r <= 2.0
    ensures r > 0.0 <==> bucket == "WEAK"
    ensures r < 0.0 <==> bucket == "STRONG"
  {
    if bucket == "WEAK" then 2.0 else if bucket == "STRONG" then -2.0 else 0.0
  }

  lemma DvpAdjSymmetric()
    ensures DvpAdj("WEAK") == -DvpAdj("STRONG")
  {
  }

  /**
   * `_compute_minutes_role_adj`: 0.15 points per projected minute above (or
   * below) the recent average, 0.30 once the gap exceeds 5 minutes; nothing
   * without a recent average.
   */
  function MinutesRoleAdj(projMinutes: real, recentMinutes: real): (r: real)
    ensures recentMinutes <= 0.0 ==> r == 0.0
    ensures recentMinutes > 0.0 ==> (r > 0.0 <==> projMinutes > recentMinutes)
    ensures recentMinutes > 0.0 ==> (r < 0.0 <==> projMinutes < recentMinutes)
    ensures Arith.Abs(r) <= 0.3 * Arith.Abs(projMinutes - recentMinutes)
  {
    if recentMinutes <= 0.0 then 0.0
    else
      var diff := projMinutes - recentMinutes;
      diff * (if Arith.Abs(diff) > 5.0 then 0.30 else 0.15)
  }

  /** More projected minutes never lower the role adjustment, despite the jump in weight at 5. */
  lemma MinutesRoleAdjMonotone(p: real, q: real, recentMinutes: real)
    requires p <= q
    ensures MinutesRoleAdj(p, recentMinutes) <= MinutesRoleAdj(q, recentMinutes)
  {
  }

  /**
   * `_compute_form_adj`: five times the relative gap between the last-five
   * average and the season average, clamped to [-3, 3]; nothing when the
   * season average is not positive.
   */
  function FormAdj(l5Pts: real, seasonPts: real): (r: real)
    ensures -3.0 <= r <= 3.0
    ensures seasonPts <= 0.0 ==> r == 0.0
  {
    if seasonPts <= 0.0 then 0.0
    else Arith.Cap((l5Pts - seasonPts) / seasonPts * 5.0, -3.0, 3.0)
  }

  /** The relative gap has the sign of the difference. */
  lemma RelativeGapSign(a: real, s: real)
    requires s > 0.0
    ensures (a - s) / s * 5.0 > 0.0 <==> a > s
    ensures (a - s) / s * 5.0 < 0.0 <==> a < s
  {
    var g := (a - s) / s;
    assert g * s == a - s;
  }

  /** Recent form above the season average is a bonus, below it a penalty. */
  lemma FormAdjSign(l5Pts: real, seasonPts: real)
    requires seasonPts > 0.0
    ensures FormAdj(l5Pts, seasonPts) > 0.0 <==> l5Pts > seasonPts
    ensures FormAdj(l5Pts, seasonPts) < 0.0 <==> l5Pts < seasonPts
  {
    RelativeGapSign(l5Pts, seasonPts);
  }

  lemma FormAdjMonotone(a: real, b: real, seasonPts: real)
    requires a <= b
    ensures FormAdj(a, seasonPts) <= FormAdj(b, seasonPts)
  {
    if seasonPts > 0.0 {
      var ga := (a - seasonPts) / seasonPts;
      var gb := (b - seasonPts) / seasonPts;
      assert ga * seasonPts == a - seasonPts && gb * seasonPts == b - seasonPts;
      if ga > gb {
        Arith.MulMonotone(seasonPts, gb, ga);
        assert false;
      }
      Arith.CapMonotone(ga * 5.0, gb * 5.0, -3.0, 3.0);
    }
  }

  /** `_compute_consistency_adj`: +2 for a last-five deviation up to 5, -2 above 7. */
  function ConsistencyAdj(l5Stdev: real): (r: real)
    ensures -2.0 <= r <= 2.0
  {
    if l5Stdev <= 5.0 then 2.0 else if l5Stdev <= 7.0 then 0.0 else -2.0
  }

  /** A steadier scorer never gets a smaller adjustment. */
  lemma ConsistencyAdjAntitone(s: real, t: real)
    requires s <= t
    ensures ConsistencyAdj(t) <= ConsistencyAdj(s)
  {
  }

  // ---------------------------------------------------------------------
  // Projected points
  // ---------------------------------------------------------------------

  /** The projected-over-recent minutes ratio, clamped to [0.85, 1.15]; 1 without a recent average. */
  function MinuteScale(projMinutes: real, recentMinutes: real): (r: real)
    ensures recentMinutes > 0.0 ==> 0.85 <= r <= 1.15
    ensures recentMinutes <= 0.0 ==> r == 1.0
  {
    if recentMinutes > 0.0 then Arith.Cap(projMinutes / recentMinutes, 0.85, 1.15) else 1.0
  }

  /** A tenth of the outcome score, clamped to [-0.2, 0.2]. */
  function ContextBump(score: real): (r: real)
    ensures -0.2 <= r <= 0.2
  {
    Arith.Cap(score / 10.0, -0.2, 0.2)
  }

  /** The context factor 1 + bump, in [0.8, 1.2]. */
  function ContextFactor(score: real): (r: real)
    ensures 0.8 <= r <= 1.2
  {
    1.0 + ContextBump(score)
  }

  /** The season-weighted blend of the season and last-five averages. */
  function Baseline(seasonPts: real, l5Pts: real): real {
    0.55 * seasonPts + 0.45 * l5Pts
  }

  /** The baseline scaled by minutes and context, before the sanity constraints. */
  function RawProjection(seasonPts: real, l5Pts: real, projMinutes: real, recentMinutes: real, score: real): real {
    Baseline(seasonPts, l5Pts) * MinuteScale(projMinutes, recentMinutes) * ContextFactor(score)
  }

  /** The cut to 1.3 times a positive last-five average, then 10% off below 24 minutes. */
  function Constrained(raw: real, l5Pts: real, projMinutes: real): real {
    var capped := if l5Pts > 0.0 && raw > l5Pts * 1.30 then l5Pts * 1.30 else raw;
    if projMinutes < 24.0 then capped * 0.90 else capped
  }

  /**
   * `_project_points` before its final rounding: the raw projection, cut to
   * 1.3 times the last-five average when that average is positive, then
   * reduced by 10% for fewer than 24 projected minutes.
   */
  function ProjectPoints(seasonPts: real, l5Pts: real, projMinutes: real, recentMinutes: real, score: real): (r: real)
    ensures l5Pts > 0.0 ==> r <= 1.3 * l5Pts
  {
    Constrained(RawProjection(seasonPts, l5Pts, projMinutes, recentMinutes, score), l5Pts, projMinutes)
  }

  lemma ContextBumpMonotone(s: real, t: real)
    requires s <= t
    ensures ContextBump(s) <= ContextBump(t)
  {
    Arith.CapMonotone(s / 10.0, t / 10.0, -0.2, 0.2);
  }

  /** The sanity constraints keep the order of two raw projections. */
  lemma ConstrainedMonotone(raw: real, raw': real, l5Pts: real, projMinutes: real)
    requires raw <= raw'
    ensures Constrained(raw, l5Pts, projMinutes) <= Constrained(raw', l5Pts, projMinutes)
  {
  }

  /** Non-negative averages give a non-negative projection. */
  lemma ProjectPointsNonNegative(seasonPts: real, l5Pts: real, projMinutes: real, recentMinutes: real, score: real)
    requires seasonPts >= 0.0 && l5Pts >= 0.0
    ensures ProjectPoints(seasonPts, l5Pts, projMinutes, recentMinutes, score) >= 0.0
  {
    var b := Baseline(seasonPts, l5Pts);
    var m := MinuteScale(projMinutes, recentMinutes);
    Arith.MulNonNegative(b, m);
    Arith.MulNonNegative(b * m, ContextFactor(score));
  }

  /** A better outcome score never lowers the projection of a non-negative baseline. */
  lemma ProjectPointsMonotoneInScore(seasonPts: real, l5Pts: real, projMinutes: real, recentMinutes: real,
                                     s: real, t: real)
    requires Baseline(seasonPts, l5Pts) >= 0.0 && s <= t
    ensures ProjectPoints(seasonPts, l5Pts, projMinutes, recentMinutes, s)
         <= ProjectPoints(seasonPts, l5Pts, projMinutes, recentMinutes, t)
  {
    RawProjectionMonotone(seasonPts, l5Pts, projMinutes, recentMinutes, s, t);
    ConstrainedMonotone(RawProjection(seasonPts, l5Pts, projMinutes, recentMinutes, s),
      RawProjection(seasonPts, l5Pts, projMinutes, recentMinutes, t), l5Pts, projMinutes);
  }

  lemma RawProjectionMonotone(seasonPts: real, l5Pts: real, projMinutes: real, recentMinutes: real,
                              s: real, t: real)
    requires Baseline(seasonPts, l5Pts) >= 0.0 && s <= t
    ensures RawProjection(seasonPts, l5Pts, projMinutes, recentMinutes, s)
         <= RawProjection(seasonPts, l5Pts, projMinutes, recentMinutes, t)
  {
    var b := Baseline(seasonPts, l5Pts);
    var m := MinuteScale(projMinutes, recentMinutes);
    ContextBumpMonotone(s, t);
    calc {
      RawProjection(seasonPts, l5Pts, projMinutes, recentMinutes, s);
    ==
      b * m * ContextFactor(s);
    <= { Arith.ProductMonotone(b, m, ContextFactor(s), ContextFactor(t)); }
      b * m * ContextFactor(t);
    ==
      RawProjection(seasonPts, l5Pts, projMinutes, recentMinutes, t);
    }
  }

  /**
   * With a recent average, the raw projection stays between 0.68 and 1.38
   * times the baseline: the product of the two clamps' ends.
   */
  lemma RawProjectionBounds(seasonPts: real, l5Pts: real, projMinutes: real, recentMinutes: real, score: real)
    requires Baseline(seasonPts, l5Pts) >= 0.0 && recentMinutes > 0.0
    ensures var b := Baseline(seasonPts, l5Pts);
      0.68 * b <= RawProjection(seasonPts, l5Pts, projMinutes, recentMinutes, score) <= 1.38 * b
  {
    var b := Baseline(seasonPts, l5Pts);
    var m := MinuteScale(projMinutes, recentMinutes);
    var c := ContextFactor(score);
    Arith.ProductBounds(b, m, c);
    assert RawProjection(seasonPts, l5Pts, projMinutes, recentMinutes, score) == b * m * c;
  }

  // ---------------------------------------------------------------------
  // Confidence
  // ---------------------------------------------------------------------

  function MinutesPoints(projMinutes: real): int {
    if projMinutes >= 30.0 then 10 else if projMinutes < 26.0 then -12 else 0
  }

  function VolatilityPoints(l5Stdev: real): int {
    if l5Stdev <= 5.0 then 6 else if l5Stdev > 7.0 then -6 else 0
  }

  function ScorePoints(score: real): int {
    if score >= 4.0 then 4 else if score <= -4.0 then -4 else 0
  }

  function UsagePoints(usage: Option<real>): int {
    if usage.None? then 0 else if usage.value >= 28.0 then 3 else if usage.value < 20.0 then -2 else 0
  }

  function RestPoints(daysRest: int): int {
    if daysRest == 0 then -6 else if daysRest == 2 then 2 else if daysRest >= 3 then -2 else 0
  }

  function MatchupPoints(bucket: string): int {
    if bucket == "WEAK" then 5 else if bucket == "STRONG" then -5 else 0
  }

  /** The confidence before the clamp: 65 plus one contribution per factor. */
  function RawConfidence(score: real, projMinutes: real, l5Stdev: real, usage: Option<real>,
                         daysRest: int, bucket: string): int {
    65 + MinutesPoints(projMinutes) + VolatilityPoints(l5Stdev) + ScorePoints(score)
    + UsagePoints(usage) + RestPoints(daysRest) + MatchupPoints(bucket)
  }

  /** `_confidence`: the raw confidence clamped to [50, 95]. */
  function Confidence(score: real, projMinutes: real, l5Stdev: real, usage: Option<real>,
                      daysRest: int, bucket: string): (c: int)
    ensures 50 <= c <= 95
  {
    Arith.CapInt(RawConfidence(score, projMinutes, l5Stdev, usage, daysRest, bucket), 50, 95)
  }

  /**
   * The contributions add up to at most 95, so the upper clamp never acts;
   * they can add up to as little as 30, so the lower one does.
   */
  lemma ConfidenceRange(score: real, projMinutes: real, l5Stdev: real, usage: Option<real>,
                        daysRest: int, bucket: string)
    ensures 30 <= RawConfidence(score, projMinutes, l5Stdev, usage, daysRest, bucket) <= 95
    ensures var raw := RawConfidence(score, projMinutes, l5Stdev, usage, daysRest, bucket);
      Confidence(score, projMinutes, l5Stdev, usage, daysRest, bucket) == if raw < 50 then 50 else raw
  {
  }

  /** Every factor at its worst gives the raw minimum of 30, which the clamp lifts to 50. */
  lemma ConfidenceWorstCase()
    ensures RawConfidence(-5.0, 20.0, 8.0, Some(10.0), 0, "STRONG") == 30
    ensures Confidence(-5.0, 20.0, 8.0, Some(10.0), 0, "STRONG") == 50
  {
  }

  /** Each factor moves the confidence the way it moves the projection. */
  lemma ConfidenceMonotone(score: real, score': real, projMinutes: real, projMinutes': real,
                           l5Stdev: real, l5Stdev': real, usage: real, usage': real,
                           daysRest: int, bucket: string)
    requires score <= score' && projMinutes <= projMinutes' && l5Stdev' <= l5Stdev && usage <= usage'
    ensures Confidence(score, projMinutes, l5Stdev, Some(usage), daysRest, bucket)
         <= Confidence(score', projMinutes', l5Stdev', Some(usage'), daysRest, bucket)
    ensures Confidence(score, projMinutes, l5Stdev, Some(usage), daysRest, "STRONG")
         <= Confidence(score, projMinutes, l5Stdev, Some(usage), daysRest, bucket)
         <= Confidence(score, projMinutes, l5Stdev, Some(usage), daysRest, "WEAK")
  {
  }

  // ---------------------------------------------------------------------
  // Defense versus position
  // ---------------------------------------------------------------------

  /**
   * One opponent's defense-versus-position table: for each position listed,
   * its "bucket" entry if it has one.
   */
  type DvpTable = map<string, Option<string>>

  /** An entry's bucket, "AVERAGE" when the entry has none. */
  function BucketOf(entry: Option<string>): string {
    if entry.None? then "AVERAGE" else entry.value
  }

  /** The bucket of the first key the table lists, if any key is listed. */
  function FirstListed(keys: seq<string>, dvp: DvpTable): Option<string> {
    if keys == [] then None
    else if keys[0] in dvp then Some(BucketOf(dvp[keys[0]]))
    else FirstListed(keys[1..], dvp)
  }

  /** The fallback position groups: a guard is tried as PG then SG, a forward as SF then PF. */
  const PositionGroups: seq<(string, seq<string>)> := [("G", ["PG", "SG"]), ("F", ["SF", "PF"])]

  /** The keys of every group whose letter occurs in the position, in group order. */
  function GroupKeys(groups: seq<(string, seq<string>)>, pos: string): seq<string> {
    if groups == [] then []
    else (if Contains(pos, groups[0].0) then groups[0].1 else []) + GroupKeys(groups[1..], pos)
  }

  /** The parts of a combo position such as "G-F"; none for a plain position. */
  function ComboKeys(pos: string): seq<string> {
    if '-' in pos then Split(pos, '-') else []
  }

  /** Every key `_get_dvp_bucket` looks up, in the order it tries them. */
  function LookupKeys(pos: string): seq<string> {
    [pos] + ComboKeys(pos) + GroupKeys(PositionGroups, pos)
  }

  /** The table of the opponent, empty when the opponent is unknown. */
  function TeamDvp(teams: map<string, DvpTable>, opponent: string): DvpTable {
    if opponent in teams then teams[opponent] else map[]
  }

  /** The bucket `_get_dvp_bucket` returns. */
  function DvpBucket(dvp: DvpTable, position: string): string {
    var found := FirstListed(LookupKeys(Upper(position)), dvp);
    if found.Some? then found.value else "AVERAGE"
  }

  /** The bucket found is that of the first listed key, and no earlier key is listed. */
  lemma {:induction false} FirstListedSpec(keys: seq<string>, dvp: DvpTable)
    ensures FirstListed(keys, dvp).None? <==> forall k :: 0 <= k < |keys| ==> keys[k] !in dvp
    ensures FirstListed(keys, dvp).Some? ==> exists i :: (0 <= i < |keys| && keys[i] in dvp &&
      FirstListed(keys, dvp).value == BucketOf(dvp[keys[i]]) &&
      forall j :: 0 <= j < i ==> keys[j] !in dvp)
  {
    if keys != [] && keys[0] !in dvp {
      FirstListedSpec(keys[1..], dvp);
      var r := FirstListed(keys, dvp);
      if r.Some? {
        var i :| 0 <= i < |keys[1..]| && keys[1..][i] in dvp && r.value == BucketOf(dvp[keys[1..][i]]) &&
          forall j :: 0 <= j < i ==> keys[1..][j] !in dvp;
        assert keys[i + 1] in dvp && r.value == BucketOf(dvp[keys[i + 1]]);
        forall j | 0 <= j < i + 1 ensures keys[j] !in dvp {
          if j > 0 {
            assert keys[j] == keys[1..][j - 1];
          }
        }
      } else {
        forall k | 0 <= k < |keys| ensures keys[k] !in dvp {
          if k > 0 {
            assert keys[k] == keys[1..][k - 1];
          }
        }
      }
    }
  }

  /** Looking through two key lists in turn is looking through their concatenation. */
  lemma {:induction false} FirstListedAppend(a: seq<string>, b: seq<string>, dvp: DvpTable)
    ensures FirstListed(a + b, dvp) == if FirstListed(a, dvp).Some? then FirstListed(a, dvp) else FirstListed(b, dvp)
  {
    if a == [] {
      assert a + b == b;
    } else {
      assert (a + b)[0] == a[0];
      assert (a + b)[1..] == a[1..] + b;
      FirstListedAppend(a[1..], b, dvp);
    }
  }

  /** The lookup that mirrors `for key in keys: if key in dvp: return ...`. */
  method FindListed(keys: seq<string>, dvp: DvpTable) returns (r: Option<string>)
    ensures r == FirstListed(keys, dvp)
  {
    for k := 0 to |keys|
      invariant FirstListed(keys, dvp) == FirstListed(keys[k..], dvp)
    {
      assert keys[k..][1..] == keys[k + 1..];
      if keys[k] in dvp {
        return Some(BucketOf(dvp[keys[k]]));
      }
    }
    assert keys[|keys|..] == [];
    return None;
  }

  /**
   * `_get_dvp_bucket`: the exact position first, then the parts of a combo
   * position, then the guard and forward groups, else "AVERAGE".
   */
  method GetDvpBucket(teams: map<string, DvpTable>, opponent: string, position: string) returns (bucket: string)
    ensures bucket == DvpBucket(TeamDvp(teams, opponent), position)
  {
    var dvp := if opponent in teams then teams[opponent] else map[];
    var pos := Upper(position);
    FirstListedAppend([pos] + ComboKeys(pos), GroupKeys(PositionGroups, pos), dvp);
    FirstListedAppend([pos], ComboKeys(pos), dvp);
    if pos in dvp {
      return BucketOf(dvp[pos]);
    }
    if '-' in pos {
      var found := FindListed(Split(pos, '-'), dvp);
      if found.Some? {
        return found.value;
      }
    }
    bucket := FallbackBucket(PositionGroups, pos, dvp);
  }

  /** The loop over the position groups, each with its inner loop over candidate keys. */
  method FallbackBucket(groups: seq<(string, seq<string>)>, pos: string, dvp: DvpTable) returns (bucket: string)
    ensures var found := FirstListed(GroupKeys(groups, pos), dvp);
      bucket == if found.Some? then found.value else "AVERAGE"
  {
    for g := 0 to |groups|
      invariant FirstListed(GroupKeys(groups, pos), dvp) == FirstListed(GroupKeys(groups[g..], pos), dvp)
    {
      var keys := if Contains(pos, groups[g].0) then groups[g].1 else [];
      assert groups[g..][1..] == groups[g + 1..];
      assert GroupKeys(groups[g..], pos) == keys + GroupKeys(groups[g + 1..], pos);
      FirstListedAppend(keys, GroupKeys(groups[g + 1..], pos), dvp);
      if Contains(pos, groups[g].0) {
        var found := FindListed(groups[g].1, dvp);
        if found.Some? {
          return found.value;
        }
      }
    }
    assert groups[|groups|..] == [];
    return "AVERAGE";
  }

  /** A position the table lists is looked up directly. */
  lemma DvpExactMatch(dvp: DvpTable, position: string)
    requires Upper(position) in dvp
    ensures DvpBucket(dvp, position) == BucketOf(dvp[Upper(position)])
  {
  }

  /** The result is "AVERAGE" or the bucket of some position the table lists. */
  lemma DvpBucketListed(dvp: DvpTable, position: string)
    ensures var r := DvpBucket(dvp, position);
      r == "AVERAGE" || exists key :: key in dvp && r == BucketOf(dvp[key])
  {
    FirstListedSpec(LookupKeys(Upper(position)), dvp);
  }

  /** When none of the looked-up keys is listed, the bucket is "AVERAGE". */
  lemma DvpUnlisted(dvp: DvpTable, position: string)
    requires forall k :: 0 <= k < |LookupKeys(Upper(position))| ==> LookupKeys(Upper(position))[k] !in dvp
    ensures DvpBucket(dvp, position) == "AVERAGE"
  {
    FirstListedSpec(LookupKeys(Upper(position)), dvp);
  }

  /**
   * For a two-part combo position neither of whose first keys is listed,
   * the second part decides before the guard and forward groups are tried.
   */
  lemma ComboSecondPart(a: string, b: string, dvp: DvpTable)
    requires '-' !in a && '-' !in b
    requires a + "-" + b !in dvp && a !in dvp && b in dvp
    ensures FirstListed(LookupKeys(a + "-" + b), dvp) == Some(BucketOf(dvp[b]))
  {
    var pos := a + "-" + b;
    assert '-' in pos by { assert pos[|a|] == '-'; }
    SplitFirst(a, b, '-');
    SplitAbsent(b, '-');
    assert ComboKeys(pos) == [a, b];
    assert LookupKeys(pos) == [pos, a, b] + GroupKeys(PositionGroups, pos);
    FirstListedAppend([pos, a, b], GroupKeys(PositionGroups, pos), dvp);
    assert [pos, a, b][1..] == [a, b] && [a, b][1..] == [b];
    assert FirstListed([b], dvp) == Some(BucketOf(dvp[b]));
    assert FirstListed([a, b], dvp) == FirstListed([b], dvp);
    assert FirstListed([pos, a, b], dvp) == FirstListed([a, b], dvp);
  }

  // ---------------------------------------------------------------------
  // Candidates and the top-n selection
  // ---------------------------------------------------------------------

  /** One scored player, as `Candidate`. */
  datatype Candidate = Candidate(
    player: string,
    team: string,
    opponent: string,
    position: string,
    projMinutes: real,
    seasonPts: real,
    l5PtsAvg: real,
    l5PtsStdev: real,
    usgPct: Option<real>,
    daysRest: int,
    dvpBucket: string,
    pointsOutcomeScore: real,
    projPts: real,
    confidence: int,
    whySummary: string)

  function PlayersOf(cs: seq<Candidate>): set<string> {
    set i | 0 <= i < |cs| :: cs[i].player
  }

  /** The candidates in order, keeping only the first one of each player. */
  function Dedup(cs: seq<Candidate>): seq<Candidate>
    decreases |cs|
  {
    if cs == [] then []
    else
      var d := Dedup(cs[..|cs| - 1]);
      if cs[|cs| - 1].player in PlayersOf(d) then d else d + [cs[|cs| - 1]]
  }

  /** `len(selected) >= n` first holds at one selected candidate when n < 1. */
  function Quota(n: int): nat {
    if n < 1 then 1 else n
  }

  /**
   * `select_top_n_unique`: walk the candidates in order, skip players
   * already chosen, and stop once n have been chosen (after the first one
   * when n < 1).
   */
  method SelectTopNUnique(candidates: seq<Candidate>, n: int) returns (selected: seq<Candidate>)
    ensures var d := Dedup(candidates);
      selected == d[..if |d| < Quota(n) then |d| else Quota(n)]
  {
    selected := [];
    var seen: set<string> := {};
    var i := 0;
    while i < |candidates|
      invariant 0 <= i <= |candidates|
      invariant selected == Dedup(candidates[..i])
      invariant seen == PlayersOf(selected)
      invariant |selected| < Quota(n)
    {
      var c := candidates[i];
      assert candidates[..i + 1][..i] == candidates[..i];
      if c.player !in seen {
        selected := selected + [c];
        seen := seen + {c.player};
        PlayersOfSnoc(Dedup(candidates[..i]), c);
        if |selected| >= n {
          DedupPrefix(candidates, i + 1);
          return;
        }
      }
      i := i + 1;
    }
    assert candidates[..i] == candidates;
  }

  lemma PlayersOfSnoc(cs: seq<Candidate>, c: Candidate)
    ensures PlayersOf(cs + [c]) == PlayersOf(cs) + {c.player}
  {
    var xs := cs + [c];
    assert xs[|cs|] == c;
    forall p | p in PlayersOf(xs) ensures p in PlayersOf(cs) + {c.player} {
      var i :| 0 <= i < |xs| && xs[i].player == p;
      if i < |cs| {
        assert cs[i] == xs[i];
      }
    }
    forall p | p in PlayersOf(cs) ensures p in PlayersOf(xs) {
      var i :| 0 <= i < |cs| && cs[i].player == p;
      assert xs[i] == cs[i];
    }
  }

  /** The de-duplication of a prefix is a prefix of the de-duplication. */
  lemma {:induction false} DedupPrefix(cs: seq<Candidate>, i: nat)
    requires i <= |cs|
    ensures |Dedup(cs[..i])| <= |Dedup(cs)| && Dedup(cs[..i]) == Dedup(cs)[..|Dedup(cs[..i])|]
    decreases |cs|
  {
    if i < |cs| {
      var init := cs[..|cs| - 1];
      assert init[..i] == cs[..i];
      DedupPrefix(init, i);
    } else {
      assert cs[..i] == cs;
    }
  }

  /** No player occurs twice. */
  predicate DistinctPlayers(cs: seq<Candidate>) {
    forall i, j :: 0 <= i < j < |cs| ==> cs[i].player != cs[j].player
  }

  /** Adding a player not yet present keeps the players distinct. */
  lemma DistinctSnoc(cs: seq<Candidate>, c: Candidate)
    requires DistinctPlayers(cs) && c.player !in PlayersOf(cs)
    ensures DistinctPlayers(cs + [c])
  {
    var d := cs + [c];
    forall i, j | 0 <= i < j < |d| ensures d[i].player != d[j].player {
      assert d[i] == cs[i];
      if j == |cs| {
        assert cs[i].player in PlayersOf(cs);
      } else {
        assert d[j] == cs[j];
      }
    }
  }

  /** No player occurs twice in the de-duplication. */
  lemma {:induction false} DedupDistinct(cs: seq<Candidate>)
    ensures DistinctPlayers(Dedup(cs))
    decreases |cs|
  {
    if cs != [] {
      var init := cs[..|cs| - 1];
      DedupDistinct(init);
      var c := cs[|cs| - 1];
      if c.player !in PlayersOf(Dedup(init)) {
        DistinctSnoc(Dedup(init), c);
      }
    }
  }

  /** Every player of the input is kept, and nothing else. */
  lemma {:induction false} DedupPlayers(cs: seq<Candidate>)
    ensures PlayersOf(Dedup(cs)) == PlayersOf(cs)
    decreases |cs|
  {
    if cs != [] {
      var init := cs[..|cs| - 1];
      var c := cs[|cs| - 1];
      DedupPlayers(init);
      PlayersOfSnoc(init, c);
      assert cs == init + [c];
      if c.player !in PlayersOf(Dedup(init)) {
        PlayersOfSnoc(Dedup(init), c);
      }
    }
  }

  /** Each kept candidate is the first occurrence of its player in the input. */
  lemma {:induction false} DedupFirstOccurrence(cs: seq<Candidate>)
    ensures var d := Dedup(cs);
      forall k :: 0 <= k < |d| ==> exists i :: (0 <= i < |cs| && cs[i] == d[k] &&
        forall j :: 0 <= j < i ==> cs[j].player != d[k].player)
    decreases |cs|
  {
    if cs != [] {
      var init := cs[..|cs| - 1];
      var c := cs[|cs| - 1];
      DedupFirstOccurrence(init);
      DedupPlayers(init);
      var d0 := Dedup(init);
      var d := Dedup(cs);
      forall k | 0 <= k < |d| ensures exists i :: (0 <= i < |cs| && cs[i] == d[k] &&
        forall j :: 0 <= j < i ==> cs[j].player != d[k].player)
      {
        if k < |d0| {
          assert d[k] == d0[k];
          var i :| 0 <= i < |init| && init[i] == d0[k] && forall j :: 0 <= j < i ==> init[j].player != d0[k].player;
          assert cs[i] == init[i];
          assert forall j :: 0 <= j < i ==> cs[j] == init[j];
        } else {
          assert d[k] == c && c.player !in PlayersOf(init);
          forall j | 0 <= j < |cs| - 1 ensures cs[j].player != c.player {
            assert init[j] == cs[j];
          }
        }
      }
    }
  }

  /**
   * The selection has distinct players, each picked at its first
   * appearance, and it is as long as the quota allows.
   */
  lemma SelectionShape(candidates: seq<Candidate>, n: int)
    ensures var d := Dedup(candidates);
      var sel := d[..if |d| < Quota(n) then |d| else Quota(n)];
      DistinctPlayers(sel) &&
      |sel| == (if |PlayersOf(candidates)| < Quota(n) then |PlayersOf(candidates)| else Quota(n))
  {
    DedupDistinct(candidates);
    DedupPlayers(candidates);
    DistinctCount(Dedup(candidates));
  }

  /** A list of distinct players is as long as its set of players. */
  lemma {:induction false} DistinctCount(cs: seq<Candidate>)
    requires DistinctPlayers(cs)
    ensures |PlayersOf(cs)| == |cs|
    decreases |cs|
  {
    if cs != [] {
      var init := cs[..|cs| - 1];
      var c := cs[|cs| - 1];
      DistinctCount(init);
      assert cs == init + [c];
      PlayersOfSnoc(init, c);
      forall i | 0 <= i < |init| ensures init[i].player != c.player {
        assert init[i] == cs[i];
      }
      assert c.player !in PlayersOf(init);
    }
  }
}
