// The time arithmetic of download_youtube_segment.py: parse_time, format_time
// and the start / end / duration rule of download_segment. A raised
// ValueError is an `Err` value; the yt-dlp subprocess calls are not modelled.
module YoutubeSegment {
  import opened Wrappers
  import opened Text

  /** Why a time or a segment is rejected (each is a ValueError in the script). */
  datatype TimeError =
    | NotAnInteger(field: string)   // int() failed on one of the colon-separated fields
    | InvalidFormat(text: string)   // neither digits nor two or three colon-separated fields
    | NoLength                      // neither a duration nor an end time
    | NotPositive                   // the segment's duration is zero or negative

  // ---------------------------------------------------------------- parse_time

  /**
   * re.match(r'^\d+$', s): one or more digits, and nothing after them but
   * an optional final newline, since '$' also matches just before one.
   */
  predicate IsSecondsText(s: string) {
    (s != [] && AllDigits(s)) || (|s| >= 2 && s[|s| - 1] == '\n' && AllDigits(s[..|s| - 1]))
  }

  /** The digits of a seconds text, without the final newline if there is one. */
  function DigitsPart(s: string): (d: string)
    requires IsSecondsText(s)
    ensures d != [] && AllDigits(d)
  {
    if AllDigits(s) then s else s[..|s| - 1]
  }

  /**
   * parse_time: a pure number of seconds, "M:S" or "H:M:S" with each field
   * read by int(); any other shape is rejected.
   */
  function ParseTime(s: string): Result<int, TimeError> {
    if IsSecondsText(s) then Ok(DigitsValue(DigitsPart(s)) as int)
    else ColonTime(s, Split(s, ':'))
  }

  /** The colon branch of parse_time, given the text's colon-separated fields. */
  function ColonTime(s: string, parts: seq<string>): (r: Result<int, TimeError>)
    ensures |parts| !in {2, 3} ==> r == Err(InvalidFormat(s))
    ensures r.Ok? ==> AllFields(parts, ParseInt).Some?
  {
    if |parts| == 2 || |parts| == 3 then
      match AllFields(parts, ParseInt)
      case None => Err(NotAnInteger(s))
      case Some(v) => Ok(FieldSeconds(v))
    else Err(InvalidFormat(s))
  }

  /** h * 3600 + m * 60 + s for three fields, m * 60 + s for two. */
  function FieldSeconds(v: seq<int>): int
    requires |v| == 2 || |v| == 3
  {
    if |v| == 3 then v[0] * 3600 + v[1] * 60 + v[2] else v[0] * 60 + v[1]
  }

  /** map(read, parts) consumed in full: every part's value, or None as soon as one part is unreadable. */
  function AllFields<T>(parts: seq<string>, read: string -> Option<T>): (r: Option<seq<T>>)
    ensures r.Some? ==> |r.value| == |parts|
  {
    if parts == [] then Some([])
    else
      match read(parts[0])
      case None => None
      case Some(n) =>
        match AllFields(parts[1..], read)
        case None => None
        case Some(rest) => Some([n] + rest)
  }

  /** The fields are all read when each one is, and then they are read in order. */
  lemma {:induction false} AllFieldsOf<T>(parts: seq<string>, read: string -> Option<T>, values: seq<T>)
    requires |parts| == |values|
    requires forall k :: 0 <= k < |parts| ==> read(parts[k]) == Some(values[k])
    ensures AllFields(parts, read) == Some(values)
  {
    if parts != [] {
      AllFieldsOf(parts[1..], read, values[1..]);
      assert values == [values[0]] + values[1..];
    }
  }

  /** One unreadable field fails the whole time. */
  lemma {:induction false} AllFieldsFail<T>(parts: seq<string>, read: string -> Option<T>, k: nat)
    requires k < |parts| && read(parts[k]).None?
    ensures AllFields(parts, read).None?
  {
    if k > 0 && read(parts[0]).Some? {
      AllFieldsFail(parts[1..], read, k - 1);
    }
  }

  /** int() accepts a seconds text and gives the same value: the regular-expression branch agrees with int(). */
  lemma SecondsTextIsInt(s: string)
    requires IsSecondsText(s)
    ensures ParseInt(s) == Some(DigitsValue(DigitsPart(s)) as int)
  {
    var d := DigitsPart(s);
    if AllDigits(s) {
      ParseIntDigits(s);
    } else {
      assert d == s[..|s| - 1];
      assert s == s[..|s| - 1] + [s[|s| - 1]];
      NewlineInt(d);
    }
  }

  /** int() ignores the newline after a digit string. */
  lemma NewlineInt(d: string)
    requires d != [] && AllDigits(d)
    ensures ParseInt(d + "\n") == Some(DigitsValue(d) as int)
  {
    ParseIntDigits(d);
    StripNewline(d);
    ParseIntSameStrip(d + "\n", d);
  }

  /** A plain number of seconds reads as itself. */
  lemma ParseTimeSeconds(n: nat)
    ensures ParseTime(NatToString(n)) == Ok(n as int)
  {
  }

  /** Text that is neither digits nor two or three colon-separated fields is rejected as malformed. */
  lemma ParseTimeMalformed(s: string)
    requires !IsSecondsText(s) && |Split(s, ':')| != 2 && |Split(s, ':')| != 3
    ensures ParseTime(s) == Err(InvalidFormat(s))
  {
  }

  /** A field int() cannot read rejects the whole time. */
  lemma ParseTimeBadField(s: string, k: nat)
    requires !IsSecondsText(s) && (|Split(s, ':')| == 2 || |Split(s, ':')| == 3)
    requires k < |Split(s, ':')| && ParseInt(Split(s, ':')[k]).None?
    ensures ParseTime(s) == Err(NotAnInteger(s))
  {
    AllFieldsFail(Split(s, ':'), ParseInt, k);
  }

  /** Stripping a digit string followed by a newline leaves the digits. */
  lemma StripNewline(d: string)
    requires d != [] && AllDigits(d)
    ensures Strip(d + "\n") == Strip(d)
  {
    var s := d + "\n";
    assert LStrip(s) == s;
    assert LStrip(d) == d;
    assert s[..|s| - 1] == d;
    assert RStrip(s) == RStrip(d);
  }

  // ---------------------------------------------------------------- format_time

  /**
   * The fields format_time shows: hours, two-digit minutes and two-digit
   * seconds when there is at least one whole hour, otherwise minutes and
   * two-digit seconds. They come from floor division and modulo by positive
   * divisors, where Dafny's Euclidean operators agree with Python's.
   */
  function ClockFields(seconds: int): (fields: seq<string>)
    ensures 2 <= |fields| <= 3
    ensures forall k :: 0 <= k < |fields| ==> fields[k] != [] && AllDigits(fields[k])
  {
    var hours := seconds / 3600;
    var minutes := (seconds % 3600) / 60;
    var secs := seconds % 60;
    Pad2Digits(minutes);
    Pad2Digits(secs);
    if hours > 0 then [NatToString(hours), Pad2(minutes), Pad2(secs)]
    else [NatToString(minutes), Pad2(secs)]
  }

  /** format_time: f"{h}:{m:02d}:{s:02d}" or f"{m}:{s:02d}", the fields joined by colons. */
  function FormatTime(seconds: int): string {
    Join(ClockFields(seconds), ":")
  }

  lemma Pad2Digits(n: nat)
    ensures Pad2(n) != [] && AllDigits(Pad2(n))
  {
    if n < 10 {
      LeadingZero(NatToString(n));
    }
  }

  /** Splitting a formatted time at its colons gives back the fields. */
  lemma FormatTimeSplits(seconds: int)
    ensures Split(FormatTime(seconds), ':') == ClockFields(seconds)
  {
    var fields := ClockFields(seconds);
    forall k | 0 <= k < |fields|
      ensures ':' !in fields[k]
    {
      DigitsExclude(fields[k], ':');
    }
    SplitJoin(fields, ':');
  }

  /** Three fields from one hour on, two below it: "H:MM:SS" against "M:SS". */
  lemma FormatTimeFields(seconds: nat)
    ensures |Split(FormatTime(seconds), ':')| == if seconds >= 3600 then 3 else 2
  {
    FormatTimeSplits(seconds);
  }

  /** A formatted time holds a colon before its last character, so it never takes the pure-seconds branch. */
  lemma FormattedNotSecondsText(seconds: int)
    ensures !IsSecondsText(FormatTime(seconds))
  {
    var fields := ClockFields(seconds);
    var s := FormatTime(seconds);
    var rest := Join(fields[1..], ":");
    JoinCons(fields[0], fields[1..], ":");
    assert fields == [fields[0]] + fields[1..];
    assert rest != [] by {
      if |fields| == 3 {
        JoinCons(fields[1], fields[2..], ":");
        assert fields[1..] == [fields[1]] + fields[2..];
      }
    }
    assert s == fields[0] + ":" + rest;
    var i := |fields[0]|;
    assert s[i] == ':' && !IsDigit(s[i]);
    assert i < |s| - 1;
    assert s[..|s| - 1][i] == ':';
  }

  /** Splitting a whole number of seconds into hours, minutes and seconds loses nothing. */
  lemma ClockArithmetic(seconds: nat)
    ensures |ClockValues(seconds)| == 2 || |ClockValues(seconds)| == 3
    ensures FieldSeconds(ClockValues(seconds)) == seconds
  {
    var h, r := seconds / 3600, seconds % 3600;
    var m, q := r / 60, r % 60;
    assert seconds == 3600 * h + r;
    assert r == 60 * m + q;
    var k := 60 * h + m;
    assert seconds == 60 * k + q;
    ModSixty(k, q);
  }

  /** Adding whole minutes leaves the seconds of a time unchanged. */
  lemma ModSixty(k: int, q: int)
    requires 0 <= q < 60
    ensures (60 * k + q) % 60 == q
  {
  }

  /** What int() reads from each field format_time writes. */
  function ClockValues(seconds: nat): seq<int> {
    var h, m, q := seconds / 3600, (seconds % 3600) / 60, seconds % 60;
    if h > 0 then [h, m, q] else [m, q]
  }

  lemma FieldsOfFormattedTime(seconds: nat)
    ensures AllFields(ClockFields(seconds), ParseInt) == Some(ClockValues(seconds))
  {
    var h, m, q := seconds / 3600, (seconds % 3600) / 60, seconds % 60;
    var fields, values := ClockFields(seconds), ClockValues(seconds);
    forall k | 0 <= k < |fields|
      ensures ParseInt(fields[k]) == Some(values[k])
    {
      if h > 0 {
        if k == 0 {
          ParseIntNatToString(h);
        } else if k == 1 {
          ParseIntPad2(m);
        } else {
          ParseIntPad2(q);
        }
      } else if k == 0 {
        ParseIntNatToString(m);
      } else {
        ParseIntPad2(q);
      }
    }
    AllFieldsOf(fields, ParseInt, values);
  }

  /** The colon branch of parse_time once every field has been read by int(). */
  lemma ColonTimeOfFields(s: string, parts: seq<string>, v: seq<int>)
    requires AllFields(parts, ParseInt) == Some(v) && (|v| == 2 || |v| == 3)
    ensures ColonTime(s, parts) == Ok(FieldSeconds(v))
  {
  }

  /** parse_time reads back every time format_time writes: the two are inverse on whole seconds. */
  lemma ParseFormatRoundTrip(seconds: nat)
    ensures ParseTime(FormatTime(seconds)) == Ok(seconds as int)
  {
    var s, fields, v := FormatTime(seconds), ClockFields(seconds), ClockValues(seconds);
    FormattedNotSecondsText(seconds);
    FormatTimeSplits(seconds);
    assert ParseTime(s) == ColonTime(s, fields);
    FieldsOfFormattedTime(seconds);
    ColonTimeOfFields(s, fields, v);
    ClockArithmetic(seconds);
  }

  /** The example of the script's own documentation: 1:23:45 is 5025 seconds, both ways. */
  lemma HourExample()
    ensures FormatTime(5025) == "1:23:45" && ParseTime("1:23:45") == Ok(5025)
  {
    assert 5025 / 3600 == 1 && (5025 % 3600) / 60 == 23 && 5025 % 60 == 45;
    TwoDigits(2, 3);
    TwoDigits(4, 5);
    assert NatToString(1) == "1";
    assert ClockFields(5025) == ["1", "23", "45"];
    ParseFormatRoundTrip(5025);
  }

  /** The text of a two-digit number. */
  lemma TwoDigits(tens: nat, units: nat)
    requires 1 <= tens <= 9 && units <= 9
    ensures Pad2(tens * 10 + units) == [('0' as int + tens) as char, ('0' as int + units) as char]
  {
    var n := tens * 10 + units;
    assert n / 10 == tens && n % 10 == units;
    assert NatToString(tens) == [('0' as int + tens) as char];
    assert NatToString(n) == NatToString(tens) + [('0' as int + units) as char];
  }

  /**
   * A negative time prints as the minutes and seconds of its remainder
   * modulo an hour: there are no negative hours, so -1 prints as "59:59".
   */
  lemma FormatTimeNegative(seconds: int)
    requires seconds < 0
    ensures FormatTime(seconds) == FormatTime(seconds % 3600)
  {
    var k, r := seconds / 3600, seconds % 3600;
    assert seconds == k * 3600 + r && k < 0;
    assert r / 3600 == 0 && r % 3600 == r;
    assert seconds == (k * 60) * 60 + r;
    assert r % 60 == seconds % 60;
    assert ClockFields(seconds) == ClockFields(r);
  }

  // ---------------------------------------------------------------- download_segment

  /** Start, end and duration of the requested segment, in seconds. */
  datatype Span = Span(start: int, end: int, duration: int)

  /** Python truthiness of an optional argument: given and not empty. */
  predicate Given(arg: Option<string>) {
    arg.Some? && arg.value != []
  }

  /**
   * The arithmetic of download_segment: the start is parsed first; an end
   * time, when given, wins over a duration (duration = end - start);
   * otherwise end = start + duration; with neither, or with a duration that
   * is not positive, the download is refused.
   */
  function SegmentSpan(startTime: string, duration: Option<string>, endTime: Option<string>): (r: Result<Span, TimeError>)
    ensures r.Ok? ==> r.value.duration > 0 && r.value.end - r.value.start == r.value.duration
    ensures r.Ok? ==> ParseTime(startTime) == Ok(r.value.start)
    ensures r.Ok? && Given(endTime) ==> ParseTime(endTime.value) == Ok(r.value.end)
    ensures r.Ok? && !Given(endTime) ==> Given(duration) && ParseTime(duration.value) == Ok(r.value.duration)
    ensures ParseTime(startTime).Ok? && !Given(endTime) && !Given(duration) ==> r == Err(NoLength)
    ensures ParseTime(startTime).Err? ==> r == Err(ParseTime(startTime).error)
  {
    SpanOf(ParseTime(startTime), Parsed(endTime), Parsed(duration))
  }

  /** parse_time applied to an argument that was given; None for one that was not. */
  function Parsed(arg: Option<string>): Option<Result<int, TimeError>> {
    if Given(arg) then Some(ParseTime(arg.value)) else None
  }

  /**
   * The segment from the parsed start and the parsed end time and duration,
   * each present only when given: the end time wins over the duration.
   */
  function SpanOf(start: Result<int, TimeError>, end: Option<Result<int, TimeError>>, duration: Option<Result<int, TimeError>>): Result<Span, TimeError> {
    match start
    case Err(e) => Err(e)
    case Ok(s) =>
      match end
      case Some(Err(e)) => Err(e)
      case Some(Ok(t)) => Checked(Span(s, t, t - s))
      case None =>
        match duration
        case Some(Err(e)) => Err(e)
        case Some(Ok(d)) => Checked(Span(s, s + d, d))
        case None => Err(NoLength)
  }

  /** "Duration must be positive". */
  function Checked(span: Span): (r: Result<Span, TimeError>)
    ensures r.Ok? <==> span.duration > 0
    ensures r.Ok? ==> r.value == span
  {
    if span.duration <= 0 then Err(NotPositive) else Ok(span)
  }

  /**
   * Asking for a segment by its end time or by its length gives the same
   * segment: an end time that reads as start + d and a duration that reads
   * as d select the same span (for instance FormatTime(start + d) and
   * FormatTime(d), by ParseFormatRoundTrip).
   */
  lemma EndOrDurationAgree(startTime: string, endText: string, durationText: string, start: int, d: int)
    requires ParseTime(startTime) == Ok(start)
    requires endText != [] && ParseTime(endText) == Ok(start + d)
    requires durationText != [] && ParseTime(durationText) == Ok(d)
    ensures SegmentSpan(startTime, None, Some(endText)) == SegmentSpan(startTime, Some(durationText), None)
  {
    SpanByEnd(startTime, endText, start, start + d);
    SpanByDuration(startTime, durationText, start, d);
    assert Span(start, start + d, start + d - start) == Span(start, start + d, d);
  }

  /** With an end time, the span runs from the start to it. */
  lemma SpanByEnd(startTime: string, endText: string, start: int, end: int)
    requires ParseTime(startTime) == Ok(start) && ParseTime(endText) == Ok(end) && endText != []
    ensures SegmentSpan(startTime, None, Some(endText)) == Checked(Span(start, end, end - start))
  {
    assert Parsed(Some(endText)) == Some(Ok(end));
  }

  /** With only a duration, the span ends that long after the start. */
  lemma SpanByDuration(startTime: string, durationText: string, start: int, d: int)
    requires ParseTime(startTime) == Ok(start) && ParseTime(durationText) == Ok(d) && durationText != []
    ensures SegmentSpan(startTime, Some(durationText), None) == Checked(Span(start, start + d, d))
  {
    assert Parsed(Some(durationText)) == Some(Ok(d));
  }
}
