// The text formatters of the terminal display (newapp/predictor/display.py):
// quarter and clock labels, the flip-lead label, the factor "favours" cell,
// the probability bar, the confidence colour and the game-status label.
// Python's fixed-point float formatting (f"{x:.1f}", f"{x:.2f}") is passed in
// as a function, since its digits depend on IEEE rounding.
module Display {
  import opened Wrappers
  import opened Text
  import Arith
  import WinModel
  import DataFetcher

  // ---------------------------------------------------------------- quarter and clock

  /** "Pre-game" for period 0, "Q<n>" up to the fourth, then "OT" and "OT<k>" for the k-th overtime. */
  function QuarterLabel(quarter: int): (r: string)
    ensures r != [] && NoSpace(r)
  {
    if quarter == 0 then "Pre-game"
    else if quarter <= 4 then IntToSpaceless("Q", quarter)
    else if quarter - 4 > 1 then IntToSpaceless("OT", quarter - 4)
    else "OT"
  }

  /** A tag followed by an integer's text, which holds no whitespace. */
  function IntToSpaceless(tag: string, n: int): (r: string)
    requires NoSpace(tag)
    ensures r == tag + IntToString(n) && NoSpace(r)
  {
    IntToStringNoSpace(n);
    tag + IntToString(n)
  }

  /** Reads a quarter label back: the inverse of QuarterLabel. */
  function QuarterOfLabel(name: string): Option<int> {
    if |name| >= 1 && name[0] == 'Q' then ParseInt(name[1..])
    else if name == "OT" then Some(5)
    else if |name| > 2 && name[..2] == "OT" then
      var k := ParseInt(name[2..]);
      if k.Some? then Some(k.value + 4) else None
    else if name == "Pre-game" then Some(0)
    else None
  }

  /** Every period has its own label: reading the label back gives the period. */
  lemma QuarterLabelRoundTrip(quarter: int)
    ensures QuarterOfLabel(QuarterLabel(quarter)) == Some(quarter)
  {
    if quarter == 0 {
    } else if quarter <= 4 {
      ReadRegulation(IntToString(quarter));
      ParseIntIntToString(quarter);
    } else if quarter - 4 > 1 {
      ReadOvertime(IntToString(quarter - 4));
      ParseIntIntToString(quarter - 4);
    }
  }

  lemma ReadRegulation(digits: string)
    ensures QuarterOfLabel("Q" + digits) == ParseInt(digits)
  {
    var name := "Q" + digits;
    assert name[0] == 'Q' && name[1..] == digits;
  }

  lemma ReadOvertime(digits: string)
    requires digits != []
    ensures QuarterOfLabel("OT" + digits) == if ParseInt(digits).Some? then Some(ParseInt(digits).value + 4) else None
  {
    var name := "OT" + digits;
    assert name[0] == 'O' && name[..2] == "OT" && name[2..] == digits;
    assert name != "OT" by { assert |name| > 2; }
  }

  /** format_clock: the period label, then the clock after one space when there is a non-empty clock. */
  function FormatClock(clock: Option<string>, quarter: int): (r: string)
    ensures quarter == 0 ==> r == "Pre-game"
    ensures quarter != 0 && (clock.None? || clock.value == []) ==> r == QuarterLabel(quarter)
  {
    if quarter == 0 then "Pre-game"
    else if clock.Some? && clock.value != [] then QuarterLabel(quarter) + " " + clock.value
    else QuarterLabel(quarter)
  }

  /** The clock text splits back at its first space into the period label and the clock as given. */
  lemma FormatClockSplits(clock: string, quarter: int)
    requires quarter != 0 && clock != []
    ensures SplitOnce(FormatClock(Some(clock), quarter), " ") == Some((QuarterLabel(quarter), clock))
  {
    var name := QuarterLabel(quarter);
    assert ' ' !in name by {
      assert forall i :: 0 <= i < |name| ==> name[i] != ' ';
    }
    SplitOnceAtChar(name, ' ', clock);
  }

  // ---------------------------------------------------------------- confidence colour

  /** The text the predictor gives a confidence level. */
  function LevelName(c: WinModel.Confidence): (r: string) {
    match c
    case High => "High"
    case Medium => "Medium"
    case Low => "Low"
  }

  /** get_confidence_color: green, yellow, red for the three levels and white for anything else. */
  function ConfidenceColor(confidence: string): (r: string)
    ensures confidence == "High" ==> r == "green"
    ensures confidence == "Medium" ==> r == "yellow"
    ensures confidence == "Low" ==> r == "red"
    ensures r == "white" <==> confidence !in {"High", "Medium", "Low"}
  {
    if confidence == "High" then "green"
    else if confidence == "Medium" then "yellow"
    else if confidence == "Low" then "red"
    else "white"
  }

  /** Each level the predictor produces gets a colour of its own, never the fallback white. */
  lemma LevelColorsDistinct(a: WinModel.Confidence, b: WinModel.Confidence)
    ensures ConfidenceColor(LevelName(a)) != "white"
    ensures ConfidenceColor(LevelName(a)) == ConfidenceColor(LevelName(b)) <==> a == b
  {
    assert "High" != "Medium" && "High" != "Low" && "Medium" != "Low";
  }

  // ---------------------------------------------------------------- factor favour cell

  datatype Favor = Favor(team: string, color: string, value: string)

  /**
   * The neutral mark of a factor that favours neither team. The display
   * module holds it as the three characters "â€”" (an em dash whose UTF-8
   * bytes were read as Windows-1252), and the model keeps it as written.
   */
  const NeutralMark: string := "\U{E2}\U{20AC}\U{201D}"

  /**
   * get_factor_favor_text: an advantage above 0.01 names the home team's
   * first three letters in green with a plus sign, one below -0.01 the away
   * team's in red, and anything between is neutral.
   */
  function FavorText(advantage: real, homeTeam: string, awayTeam: string, fmt2: real -> string): (r: Favor)
    ensures advantage > 0.01 ==> r.team == Upper(DataFetcher.Take3(homeTeam)) && r.color == "green"
    ensures advantage > 0.01 ==> r.value == "+" + fmt2(advantage)
    ensures advantage < -0.01 ==> r.team == Upper(DataFetcher.Take3(awayTeam)) && r.color == "red"
    ensures advantage < -0.01 ==> r.value == fmt2(advantage)
    ensures -0.01 <= advantage <= 0.01 ==> r == Favor(NeutralMark, "white", "0.00")
  {
    if advantage > 0.01 then Favor(Upper(DataFetcher.Take3(homeTeam)), "green", "+" + fmt2(advantage))
    else if advantage < -0.01 then Favor(Upper(DataFetcher.Take3(awayTeam)), "red", fmt2(advantage))
    else Favor(NeutralMark, "white", "0.00")
  }

  /** Negating the advantage and swapping the teams names the same team: the cell is about who is favoured. */
  lemma FavorMirror(advantage: real, homeTeam: string, awayTeam: string, fmt2: real -> string)
    ensures FavorText(-advantage, awayTeam, homeTeam, fmt2).team == FavorText(advantage, homeTeam, awayTeam, fmt2).team
    ensures FavorText(advantage, homeTeam, awayTeam, fmt2).color == "white" <==> Arith.Abs(advantage) <= 0.01
  {
  }

  // ---------------------------------------------------------------- probability bar

  /**
   * The bar's cells, as the display module writes them: "â–ˆ" and "â–‘",
   * the full and light block glyphs with their UTF-8 bytes read as
   * Windows-1252, three characters each.
   */
  const FullCell: string := "\U{E2}\U{2013}\U{02C6}"
  const EmptyCell: string := "\U{E2}\U{2013}\U{2018}"

  /** int(prob * width): the number of filled cells. */
  function FilledCells(prob: real, width: int): int {
    Arith.Trunc(prob * width as real)
  }

  /**
   * create_probability_bar: the filled cells, then the empty ones up to the
   * width; with three-character cells the text is three times the width.
   */
  function ProbabilityBar(prob: real, width: int): (r: string)
    ensures 0.0 <= prob <= 1.0 && width >= 0 ==>
      |r| == 3 * width && 0 <= FilledCells(prob, width) <= width &&
      r == Repeat(FullCell, FilledCells(prob, width)) + Repeat(EmptyCell, width - FilledCells(prob, width))
  {
    var filled := FilledCells(prob, width);
    var bar := Repeat(FullCell, filled) + Repeat(EmptyCell, width - filled);
    if 0.0 <= prob <= 1.0 && width >= 0 then FilledWithinWidth(prob, width); bar else bar
  }

  /** Read as cells of three characters, the k-th cell is full exactly when k < int(prob * width). */
  lemma BarCell(prob: real, width: int, k: int)
    requires 0.0 <= prob <= 1.0 && 0 <= k < width
    ensures 3 * k + 3 <= |ProbabilityBar(prob, width)|
    ensures ProbabilityBar(prob, width)[3 * k .. 3 * k + 3] == if k < FilledCells(prob, width) then FullCell else EmptyCell
  {
    var filled := FilledCells(prob, width);
    FilledWithinWidth(prob, width);
    var full := Repeat(FullCell, filled);
    var bar := ProbabilityBar(prob, width);
    assert bar == full + Repeat(EmptyCell, width - filled);
    if k < filled {
      RepeatBlock(FullCell, filled, k);
      assert bar[3 * k .. 3 * k + 3] == full[3 * k .. 3 * k + 3];
    } else {
      RepeatBlock(EmptyCell, width - filled, k - filled);
      assert |full| == 3 * filled;
      assert bar[3 * k .. 3 * k + 3] == Repeat(EmptyCell, width - filled)[3 * (k - filled) .. 3 * (k - filled) + 3];
    }
  }

  lemma FilledWithinWidth(prob: real, width: int)
    requires 0.0 <= prob <= 1.0 && width >= 0
    ensures 0 <= FilledCells(prob, width) <= width
  {
    Arith.MulMonotone(width as real, prob, 1.0);
    Arith.MulMonotone(width as real, 0.0, prob);
  }

  /** A higher probability never fills fewer cells. */
  lemma BarFilledMonotone(p: real, q: real, width: int)
    requires 0.0 <= p <= q && width >= 0
    ensures FilledCells(p, width) <= FilledCells(q, width)
  {
    Arith.MulMonotone(width as real, p, q);
    Arith.MulMonotone(width as real, 0.0, p);
  }

  // ---------------------------------------------------------------- flip lead

  /**
   * format_flip_lead: "PK" within 0.05 of zero, otherwise the abbreviation of
   * the team that must lead, a plus sign and the size of the lead.
   */
  function FormatFlipLead(flipLeadHome: real, homeAbbr: string, awayAbbr: string, fmt1: real -> string): (r: string)
    ensures Arith.Abs(flipLeadHome) < 0.05 ==> r == "PK"
    ensures flipLeadHome >= 0.05 ==> r == homeAbbr + " +" + fmt1(flipLeadHome)
    ensures flipLeadHome <= -0.05 ==> r == awayAbbr + " +" + fmt1(-flipLeadHome)
  {
    if Arith.Abs(flipLeadHome) < 0.05 then "PK"
    else if flipLeadHome > 0.0 then homeAbbr + " +" + fmt1(flipLeadHome)
    else awayAbbr + " +" + fmt1(Arith.Abs(flipLeadHome))
  }

  /** The label does not depend on which side is called home: seen from the other side, the lead is negated. */
  lemma FlipLeadMirror(flipLeadHome: real, homeAbbr: string, awayAbbr: string, fmt1: real -> string)
    ensures FormatFlipLead(-flipLeadHome, awayAbbr, homeAbbr, fmt1) == FormatFlipLead(flipLeadHome, homeAbbr, awayAbbr, fmt1)
  {
  }

  // ---------------------------------------------------------------- game status

  /** A scheduled tip-off time: a "T" somewhere and a trailing "Z". */
  predicate LooksScheduled(status: string) {
    'T' in status && EndsWith(status, "Z")
  }

  /**
   * format_game_status: ("Unknown", true) for an empty status; for a
   * scheduled time, the Pacific time the date parser gives (`pacificTime`)
   * or, when it fails, the status itself, flagged as scheduled; any other
   * status unchanged and not scheduled.
   */
  function GameStatusText(status: string, pacificTime: Option<string>): (r: (string, bool))
    ensures r.1 <==> status == [] || LooksScheduled(status)
    ensures status == [] ==> r.0 == "Unknown"
    ensures status != [] && !LooksScheduled(status) ==> r.0 == status
    ensures status != [] && LooksScheduled(status) ==>
      r.0 == (if pacificTime.Some? then "Scheduled " + pacificTime.value + " PT" else status)
  {
    if status == [] then ("Unknown", true)
    else if LooksScheduled(status) then
      (if pacificTime.Some? then "Scheduled " + pacificTime.value + " PT" else status, true)
    else (status, false)
  }

  /** A finished game's status passes through as it is. */
  lemma FinalStatusUnchanged(pacificTime: Option<string>)
    ensures GameStatusText("Final", pacificTime) == ("Final", false)
  {
    assert 'T' !in "Final";
  }
}
