// Speech-to-text words to SRT subtitles (json_to_srt.py): the whitespace
// filter of the word loader, the SRT timestamp, the grouping of words into
// subtitles and the line layout of the SRT file.
module JsonToSrt {
  import opened Wrappers
  import opened Text
  import Arith

  // ---------------------------------------------------------------- configuration

  const MaxDurationSeconds: real := 4.5
  const MaxChars: nat := 60
  const MinCharsForPunctBreak: nat := 20

  /** Punctuation that may end a subtitle early. */
  const BreakPunctuation: set<char> := {'.', '?', '!', ',', ';', ':'}

  // ---------------------------------------------------------------- timestamps

  /** The four fields of an SRT timestamp HH:MM:SS,mmm. */
  datatype Timestamp = Timestamp(hours: nat, minutes: nat, seconds: nat, millis: nat)

  /**
   * The fields fmt_time prints: a negative time counts as zero; hours,
   * minutes and seconds by floor division; the fraction rounded to whole
   * milliseconds, half to even, and held below 1000.
   */
  function TimestampOf(seconds: real): (t: Timestamp)
    ensures t.minutes < 60 && t.seconds < 60 && t.millis <= 999
  {
    var s := if seconds < 0.0 then 0.0 else seconds;
    var hours := (s / 3600.0).Floor;
    var minutes := ((s - 3600.0 * hours as real) / 60.0).Floor;
    var secs := (s - 60.0 * (s / 60.0).Floor as real).Floor;
    var millis := Arith.RoundHalfEven((s - s.Floor as real) * 1000.0);
    Timestamp(hours, minutes, secs, if millis >= 1000 then 999 else millis)
  }

  /** f"{n:03d}". */
  function Pad3(n: nat): string {
    if n < 10 then "00" + NatToString(n)
    else if n < 100 then "0" + NatToString(n)
    else NatToString(n)
  }

  function Render(t: Timestamp): string {
    Pad2(t.hours) + ":" + Pad2(t.minutes) + ":" + Pad2(t.seconds) + "," + Pad3(t.millis)
  }

  /** fmt_time: a time in seconds as an SRT timestamp. */
  function FmtTime(seconds: real): (r: string)
    ensures |r| >= 12
    ensures r[|r| - 10] == ':' && r[|r| - 7] == ':' && r[|r| - 4] == ','
  {
    var t := TimestampOf(seconds);
    Pad2Width(t.minutes);
    Pad2Width(t.seconds);
    Pad3Width(t.millis);
    Pad2AtLeast(t.hours);
    Render(t)
  }

  /** A value below 100 takes exactly two characters in f"{n:02d}". */
  lemma Pad2Width(n: nat)
    requires n < 100
    ensures |Pad2(n)| == 2
  {
    if n >= 10 {
      assert NatToString(n) == NatToString(n / 10) + [('0' as int + n % 10) as char];
    }
  }

  lemma Pad2AtLeast(n: nat)
    ensures |Pad2(n)| >= 2
  {
    if n >= 10 {
      assert NatToString(n) == NatToString(n / 10) + [('0' as int + n % 10) as char];
    }
  }

  /** A value below 1000 takes exactly three characters in f"{n:03d}". */
  lemma Pad3Width(n: nat)
    requires n < 1000
    ensures |Pad3(n)| == 3
  {
    if 10 <= n < 100 {
      assert NatToString(n) == NatToString(n / 10) + [('0' as int + n % 10) as char];
    } else if n >= 100 {
      assert NatToString(n) == NatToString(n / 10) + [('0' as int + n % 10) as char];
      assert NatToString(n / 10) == NatToString(n / 100) + [('0' as int + (n / 10) % 10) as char];
    }
  }

  /** Zero and every negative time print as the zero timestamp. */
  lemma FmtTimeClampsNegative(seconds: real)
    requires seconds <= 0.0
    ensures FmtTime(seconds) == "00:00:00,000"
  {
    assert TimestampOf(seconds) == Timestamp(0, 0, 0, 0);
  }

  /**
   * A time given by its fields, with whole milliseconds, is printed with
   * exactly those fields: TimestampOf inverts the field arithmetic.
   */
  lemma TimestampRoundTrip(t: Timestamp)
    requires t.minutes < 60 && t.seconds < 60 && t.millis < 1000
    ensures TimestampOf(Seconds(t)) == t
  {
    var s := Seconds(t);
    var within := t.minutes as real * 60.0 + t.seconds as real + t.millis as real / 1000.0;
    assert 0.0 <= within < 3600.0;
    assert (s / 3600.0).Floor == t.hours by {
      assert s / 3600.0 == t.hours as real + within / 3600.0;
    }
    assert ((s - 3600.0 * t.hours as real) / 60.0).Floor == t.minutes by {
      assert (s - 3600.0 * t.hours as real) / 60.0 ==
             t.minutes as real + (t.seconds as real + t.millis as real / 1000.0) / 60.0;
    }
    var whole := t.hours * 3600 + t.minutes * 60 + t.seconds;
    assert s.Floor == whole by {
      assert s == whole as real + t.millis as real / 1000.0;
    }
    assert (s / 60.0).Floor == t.hours * 60 + t.minutes by {
      assert s / 60.0 == (t.hours * 60 + t.minutes) as real + (t.seconds as real + t.millis as real / 1000.0) / 60.0;
    }
    assert (s - s.Floor as real) * 1000.0 == t.millis as real;
  }

  /** The number of seconds a timestamp's fields stand for. */
  function Seconds(t: Timestamp): (s: real)
    ensures s >= 0.0
  {
    t.hours as real * 3600.0 + t.minutes as real * 60.0 + t.seconds as real + t.millis as real / 1000.0
  }

  lemma FmtTimeHalfSecond()
    ensures FmtTime(3.5) == "00:00:03,500"
  {
    TimestampRoundTrip(Timestamp(0, 0, 3, 500));
    assert Seconds(Timestamp(0, 0, 3, 500)) == 3.5;
  }

  lemma FmtTimeLong()
    ensures FmtTime(2672.656) == "00:44:32,656"
  {
    TimestampRoundTrip(Timestamp(0, 44, 32, 656));
    assert Seconds(Timestamp(0, 44, 32, 656)) == 2672.656;
    RenderLong();
  }

  lemma RenderLong()
    ensures Render(Timestamp(0, 44, 32, 656)) == "00:44:32,656"
  {
  }

  // ---------------------------------------------------------------- loading words

  /** One word entry of the export; missing keys are None. */
  datatype RawWord = RawWord(text: Option<string>, startTime: Option<real>, endTime: Option<real>)

  /** A word kept for the subtitles: its stripped text and its times. */
  datatype Word = Word(text: string, start: real, end: real)

  /** A word as the loader keeps it: some text, with no whitespace at either end. */
  predicate Clean(w: Word) {
    w.text != [] && !IsSpace(w.text[0]) && !IsSpace(w.text[|w.text| - 1])
  }

  /** The text of an entry, "" when it has none. */
  function RawText(w: RawWord): string {
    if w.text.Some? then w.text.value else ""
  }

  /** One entry as the loader keeps it: nothing when its text is blank, else the stripped text with times defaulting to 0.0. */
  function Keep(w: RawWord): (r: Option<Word>)
    ensures r.None? <==> AllSpace(RawText(w))
    ensures r.Some? ==> Clean(r.value) && r.value.text == Strip(RawText(w))
  {
    var text := Strip(RawText(w));
    StripShape(RawText(w));
    if text == [] then None
    else Some(Word(text, if w.startTime.Some? then w.startTime.value else 0.0,
                         if w.endTime.Some? then w.endTime.value else 0.0))
  }

  /** The values `keep` gives the items, in order, skipping the items it drops. */
  function Filtered<T, U>(xs: seq<T>, keep: T -> Option<U>): (r: seq<U>)
    ensures |r| <= |xs|
  {
    if xs == [] then []
    else
      var kept := keep(xs[|xs| - 1]);
      var before := Filtered(xs[..|xs| - 1], keep);
      if kept.None? then before else before + [kept.value]
  }

  /** The words of one segment that are not blank, in order. */
  function KeptWords(raw: seq<RawWord>): (r: seq<Word>)
    ensures |r| <= |raw|
  {
    Filtered(raw, Keep)
  }

  /** Every value Filtered gives satisfies `good` when every value `keep` can give does. */
  lemma {:induction false} FilteredAll<T, U>(xs: seq<T>, keep: T -> Option<U>, good: U -> bool)
    requires forall x :: keep(x).Some? ==> good(keep(x).value)
    ensures forall k :: 0 <= k < |Filtered(xs, keep)| ==> good(Filtered(xs, keep)[k])
  {
    if xs != [] {
      FilteredAll(xs[..|xs| - 1], keep, good);
    }
  }

  /** Every word the loader keeps is clean. */
  lemma KeptWordsClean(raw: seq<RawWord>)
    ensures forall k :: 0 <= k < |KeptWords(raw)| ==> Clean(KeptWords(raw)[k])
  {
    forall x | Keep(x).Some?
      ensures Clean(Keep(x).value)
    {
    }
    FilteredAll(raw, Keep, Clean);
  }

  /** The words of all segments, in order. */
  function LoadedWords(segments: seq<seq<RawWord>>): seq<Word> {
    if segments == [] then [] else LoadedWords(segments[..|segments| - 1]) + KeptWords(segments[|segments| - 1])
  }

  /** Every loaded word has some text and no whitespace at either end. */
  lemma {:induction false} LoadedWordsClean(segments: seq<seq<RawWord>>)
    ensures forall k :: 0 <= k < |LoadedWords(segments)| ==> Clean(LoadedWords(segments)[k])
  {
    if segments != [] {
      LoadedWordsClean(segments[..|segments| - 1]);
      KeptWordsClean(segments[|segments| - 1]);
    }
  }

  /** The number of entries whose text is not all whitespace. */
  function NonBlank(raw: seq<RawWord>): nat {
    if raw == [] then 0
    else NonBlank(raw[..|raw| - 1]) + (if AllSpace(RawText(raw[|raw| - 1])) then 0 else 1)
  }

  /** Exactly the non-blank entries are kept: a blank entry is dropped and no other is. */
  lemma {:induction false} KeptWordsCount(raw: seq<RawWord>)
    ensures |KeptWords(raw)| == NonBlank(raw)
  {
    if raw != [] {
      KeptWordsCount(raw[..|raw| - 1]);
    }
  }

  lemma SliceSnoc<T>(s: seq<T>, j: nat)
    requires j < |s|
    ensures s[..j + 1] == s[..j] + [s[j]]
  {
  }

  lemma FilteredSnoc<T, U>(xs: seq<T>, x: T, keep: T -> Option<U>)
    ensures Filtered(xs + [x], keep) == Filtered(xs, keep) + (if keep(x).Some? then [keep(x).value] else [])
  {
    assert (xs + [x])[..|xs|] == xs;
  }

  /** The items of every segment that `keep` keeps, segment after segment. */
  function FilteredSegments<T, U>(segments: seq<seq<T>>, keep: T -> Option<U>): seq<U> {
    if segments == [] then []
    else FilteredSegments(segments[..|segments| - 1], keep) + Filtered(segments[|segments| - 1], keep)
  }

  lemma LoadedWordsSegments(segments: seq<seq<RawWord>>)
    ensures LoadedWords(segments) == FilteredSegments(segments, Keep)
  {
  }

  /** load_words after the JSON is read: the nested loop over segments and their words. */
  method LoadWords(segments: seq<seq<RawWord>>) returns (words: seq<Word>)
    ensures words == LoadedWords(segments)
  {
    words := FilterSegments(segments, Keep);
    LoadedWordsSegments(segments);
  }

  /** The nested loop of load_words, for any filter of the entries. */
  method FilterSegments<T, U>(segments: seq<seq<T>>, keep: T -> Option<U>) returns (words: seq<U>)
    ensures words == FilteredSegments(segments, keep)
  {
    words := [];
    var i := 0;
    while i < |segments|
      invariant 0 <= i <= |segments|
      invariant words == FilteredSegments(segments[..i], keep)
    {
      var segment := segments[i];
      var j := 0;
      ghost var start := words;
      while j < |segment|
        invariant 0 <= j <= |segment|
        invariant words == start + Filtered(segment[..j], keep)
      {
        SliceSnoc(segment, j);
        FilteredSnoc(segment[..j], segment[j], keep);
        var kept := keep(segment[j]);
        if kept.Some? {
          words := words + [kept.value];
        }
        j := j + 1;
      }
      assert segment[..j] == segment;
      SliceSnoc(segments, i);
      i := i + 1;
    }
    assert segments[..i] == segments;
  }

  // ---------------------------------------------------------------- grouping words into subtitles

  datatype Subtitle = Subtitle(start: real, end: real, text: string)

  /** join_word: the first word as is, break punctuation glued on, any other word after one space. */
  function JoinWord(existing: string, newWord: string): (r: string)
    ensures |existing| <= |r| && r[..|existing|] == existing
    ensures existing == [] ==> r == newWord
    ensures existing != [] && newWord != [] && newWord[0] in BreakPunctuation ==> r == existing + newWord
    ensures existing != [] && !(newWord != [] && newWord[0] in BreakPunctuation) ==> r == existing + " " + newWord
  {
    if existing == [] then newWord
    else if newWord != [] && newWord[0] in BreakPunctuation then existing + newWord
    else existing + " " + newWord
  }

  /** The text of a group of words, joined one by one from the empty text. */
  function TextOf(group: seq<Word>): string {
    if group == [] then "" else JoinWord(TextOf(group[..|group| - 1]), group[|group| - 1].text)
  }

  predicate EndsWithBreak(text: string) {
    text != [] && text[|text| - 1] in BreakPunctuation
  }

  /** Adding the word to the open group would make it last longer than MaxDurationSeconds or hold more than MaxChars characters. */
  predicate Overflows(open: seq<Word>, w: Word) {
    open != [] && (w.end - open[0].start > MaxDurationSeconds || |JoinWord(TextOf(open), w.text)| > MaxChars)
  }

  /** A group closes at punctuation: its text has MinCharsForPunctBreak characters and its last word ends with a break mark. */
  predicate ClosesAtBreak(group: seq<Word>) {
    group != [] && |TextOf(group)| >= MinCharsForPunctBreak && EndsWithBreak(group[|group| - 1].text)
  }

  /** Word i of a group would have closed it at punctuation. */
  predicate PunctBreakAfter(group: seq<Word>, i: nat)
    requires i < |group|
  {
    ClosesAtBreak(group[..i + 1])
  }

  /** The closed subtitles, as groups of words, and the words of the subtitle being built. */
  datatype Grouping = Grouping(closed: seq<seq<Word>>, open: seq<Word>)

  /**
   * One turn of a word loop with its two decisions as parameters: close the
   * open group first when the word overflows it, add the word, then close
   * the group when it ends the group.
   */
  function Turn(g: Grouping, w: Word, overflows: (seq<Word>, Word) -> bool, closes: seq<Word> -> bool): Grouping {
    var kept := if overflows(g.open, w) then Grouping(g.closed + [g.open], []) else g;
    var open := kept.open + [w];
    if closes(open) then Grouping(kept.closed + [open], []) else Grouping(kept.closed, open)
  }

  /** The turns over a word list, from no groups at all. */
  function TurnAll(words: seq<Word>, overflows: (seq<Word>, Word) -> bool, closes: seq<Word> -> bool): Grouping {
    if words == [] then Grouping([], [])
    else Turn(TurnAll(words[..|words| - 1], overflows, closes), words[|words| - 1], overflows, closes)
  }

  /** One turn of build_subtitles. */
  function AddWord(g: Grouping, w: Word): Grouping {
    Turn(g, w, Overflows, ClosesAtBreak)
  }

  function GroupingOf(words: seq<Word>): Grouping {
    TurnAll(words, Overflows, ClosesAtBreak)
  }

  /** The groups of the subtitles: the closed ones and, when it has words, the last open one. */
  function Groups(words: seq<Word>): seq<seq<Word>> {
    var g := GroupingOf(words);
    if g.open == [] then g.closed else g.closed + [g.open]
  }

  /** A group's limits: with two words or more it fits MaxChars and MaxDurationSeconds, and only its last word may be a punctuation break. */
  predicate GroupOk(group: seq<Word>) {
    group != [] &&
    (|group| >= 2 ==> |TextOf(group)| <= MaxChars && group[|group| - 1].end - group[0].start <= MaxDurationSeconds) &&
    NoBreakBefore(group)
  }

  /** No proper prefix of the group ends at a punctuation break. */
  predicate NoBreakBefore(group: seq<Word>) {
    |group| <= 1 || (NoBreakBefore(group[..|group| - 1]) && !ClosesAtBreak(group[..|group| - 1]))
  }

  /** NoBreakBefore says that no word but the last closes the group at punctuation. */
  lemma {:induction false} NoBreakBeforeMeans(group: seq<Word>)
    ensures NoBreakBefore(group) <==> forall i :: 0 <= i < |group| - 1 ==> !PunctBreakAfter(group, i)
    decreases |group|
  {
    if |group| > 1 {
      var prefix := group[..|group| - 1];
      NoBreakBeforeMeans(prefix);
      forall i | 0 <= i < |prefix|
        ensures PunctBreakAfter(group, i) == PunctBreakAfter(prefix, i)
      {
        assert group[..i + 1] == prefix[..i + 1];
      }
      assert PunctBreakAfter(prefix, |prefix| - 1) == ClosesAtBreak(prefix) by {
        assert prefix[..|prefix|] == prefix;
      }
      if NoBreakBefore(group) {
        forall i | 0 <= i < |group| - 1
          ensures !PunctBreakAfter(group, i)
        {
          assert PunctBreakAfter(group, i) == PunctBreakAfter(prefix, i);
        }
      } else {
        assert !NoBreakBefore(prefix) || ClosesAtBreak(prefix);
      }
    }
  }

  /** The open group keeps the limits and its last word is no punctuation break either. */
  predicate OpenOk(open: seq<Word>) {
    open == [] || (GroupOk(open) && !ClosesAtBreak(open))
  }

  predicate GroupingOk(g: Grouping) {
    (forall k :: 0 <= k < |g.closed| ==> GroupOk(g.closed[k])) && OpenOk(g.open)
  }

  function Concat(groups: seq<seq<Word>>): seq<Word> {
    if groups == [] then [] else Concat(groups[..|groups| - 1]) + groups[|groups| - 1]
  }

  lemma ConcatSnoc(groups: seq<seq<Word>>, group: seq<Word>)
    ensures Concat(groups + [group]) == Concat(groups) + group
  {
    assert (groups + [group])[..|groups|] == groups;
  }

  /** Closing a group that keeps the limits keeps every closed group within them. */
  lemma CloseKeeps(closed: seq<seq<Word>>, group: seq<Word>)
    requires forall k :: 0 <= k < |closed| ==> GroupOk(closed[k])
    requires GroupOk(group)
    ensures forall k :: 0 <= k < |closed + [group]| ==> GroupOk((closed + [group])[k])
  {
  }

  /** Adding a word to a group only appends to its text. */
  lemma TextOfSnoc(group: seq<Word>, w: Word)
    ensures TextOf(group + [w]) == JoinWord(TextOf(group), w.text)
  {
    assert (group + [w])[..|group|] == group;
  }

  /**
   * A word that fits the character and duration limits extends an open
   * group to one that keeps the limits: the punctuation breaks before it
   * are those of the open group, none of which closes it.
   */
  lemma ExtendKeeps(open: seq<Word>, w: Word)
    requires OpenOk(open)
    requires open != [] ==> |JoinWord(TextOf(open), w.text)| <= MaxChars && w.end - open[0].start <= MaxDurationSeconds
    ensures GroupOk(open + [w])
  {
    TextOfSnoc(open, w);
    assert (open + [w])[..|open|] == open;
  }

  /** A group that keeps the limits and does not end at a punctuation break may stay open. */
  lemma StaysOpen(open: seq<Word>)
    requires GroupOk(open) && !ClosesAtBreak(open)
    ensures OpenOk(open)
  {
  }

  /** One turn keeps every group within its limits. */
  lemma AddWordKeeps(g: Grouping, w: Word)
    requires GroupingOk(g)
    ensures GroupingOk(AddWord(g, w))
  {
    var kept := if Overflows(g.open, w) then Grouping(g.closed + [g.open], []) else g;
    if Overflows(g.open, w) {
      CloseKeeps(g.closed, g.open);
    }
    var open := kept.open + [w];
    ExtendKeeps(kept.open, w);
    if ClosesAtBreak(open) {
      CloseKeeps(kept.closed, open);
    } else {
      StaysOpen(open);
    }
  }

  /** One turn adds the word at the end of the word order and moves no other, whatever its decisions. */
  lemma TurnOrder(g: Grouping, w: Word, overflows: (seq<Word>, Word) -> bool, closes: seq<Word> -> bool)
    ensures Concat(Turn(g, w, overflows, closes).closed) + Turn(g, w, overflows, closes).open == Concat(g.closed) + g.open + [w]
  {
    var kept := if overflows(g.open, w) then Grouping(g.closed + [g.open], []) else g;
    if overflows(g.open, w) {
      ConcatSnoc(g.closed, g.open);
    }
    var open := kept.open + [w];
    if closes(open) {
      ConcatSnoc(kept.closed, open);
    }
  }

  /** Turns over a word list lose, repeat and reorder no word, whatever their decisions. */
  lemma {:induction false} TurnAllOrder(words: seq<Word>, overflows: (seq<Word>, Word) -> bool, closes: seq<Word> -> bool)
    ensures Concat(TurnAll(words, overflows, closes).closed) + TurnAll(words, overflows, closes).open == words
  {
    if words != [] {
      var prefix, w := words[..|words| - 1], words[|words| - 1];
      var g := TurnAll(prefix, overflows, closes);
      var next := TurnAll(words, overflows, closes);
      assert next == Turn(g, w, overflows, closes);
      TurnAllOrder(prefix, overflows, closes);
      TurnOrder(g, w, overflows, closes);
      calc {
        Concat(next.closed) + next.open;
        Concat(g.closed) + g.open + [w];
        prefix + [w];
        { assert prefix + [w] == words; }
        words;
      }
    }
  }

  /** The grouping of any word list keeps the limits. */
  lemma {:induction false} GroupingOfOk(words: seq<Word>)
    ensures GroupingOk(GroupingOf(words))
  {
    if words != [] {
      var prefix := words[..|words| - 1];
      GroupingOfOk(prefix);
      AddWordKeeps(GroupingOf(prefix), words[|words| - 1]);
    }
  }

  /**
   * The subtitles partition the words: every group is non-empty, the groups
   * concatenated give the words back in order, and every group keeps the
   * character, duration and punctuation limits.
   */
  lemma GroupsPartition(words: seq<Word>)
    ensures Concat(Groups(words)) == words
    ensures forall k :: 0 <= k < |Groups(words)| ==> GroupOk(Groups(words)[k])
  {
    var g := GroupingOf(words);
    GroupingOfOk(words);
    TurnAllOrder(words, Overflows, ClosesAtBreak);
    if g.open != [] {
      ConcatSnoc(g.closed, g.open);
    }
  }

  function SubtitleOf(group: seq<Word>): Subtitle
    requires group != []
  {
    Subtitle(group[0].start, group[|group| - 1].end, TextOf(group))
  }

  /** One subtitle per group: from its first word's start to its last word's end, with the joined text. */
  function SubtitlesOf(groups: seq<seq<Word>>): (r: seq<Subtitle>)
    requires forall k :: 0 <= k < |groups| ==> groups[k] != []
    ensures |r| == |groups| && forall k :: 0 <= k < |r| ==> r[k] == SubtitleOf(groups[k])
  {
    if groups == [] then [] else SubtitlesOf(groups[..|groups| - 1]) + [SubtitleOf(groups[|groups| - 1])]
  }

  /** build_subtitles as a value. */
  function Subtitles(words: seq<Word>): (r: seq<Subtitle>)
    ensures words == [] ==> r == []
    ensures |r| <= |words|
  {
    GroupsPartition(words);
    GroupsNoMoreThanWords(Groups(words));
    SubtitlesOf(Groups(words))
  }

  /** The overflow test on the loop's own variables: the text so far and the start of the open subtitle. */
  lemma OverflowsWith(open: seq<Word>, w: Word, text: string, start: Option<real>)
    requires text == TextOf(open) && (start.Some? <==> open != [])
    requires open != [] ==> start.value == open[0].start
    ensures Overflows(open, w) <==>
      open != [] && (w.end - start.value > MaxDurationSeconds || |JoinWord(text, w.text)| > MaxChars)
  {
  }

  /** The punctuation test on the loop's own variables: the text with the word added. */
  lemma ClosesWith(open: seq<Word>, w: Word, text: string)
    requires text == TextOf(open + [w])
    ensures ClosesAtBreak(open + [w]) <==>
      |text| >= MinCharsForPunctBreak && w.text != [] && w.text[|w.text| - 1] in BreakPunctuation
  {
  }

  predicate NonEmptyGroups(groups: seq<seq<Word>>) {
    forall k :: 0 <= k < |groups| ==> groups[k] != []
  }

  /** One turn closes only groups that hold a word. */
  lemma AddWordNonEmpty(g: Grouping, w: Word)
    requires NonEmptyGroups(g.closed)
    ensures NonEmptyGroups(AddWord(g, w).closed)
  {
  }

  lemma SubtitlesOfSnoc(groups: seq<seq<Word>>, group: seq<Word>)
    requires NonEmptyGroups(groups)
    requires group != []
    ensures SubtitlesOf(groups + [group]) == SubtitlesOf(groups) + [SubtitleOf(group)]
  {
    assert (groups + [group])[..|groups|] == groups;
  }

  lemma GroupingOfSnoc(words: seq<Word>, i: nat)
    requires i < |words|
    ensures GroupingOf(words[..i + 1]) == AddWord(GroupingOf(words[..i]), words[i])
  {
    assert words[..i + 1][..i] == words[..i];
  }

  /** Non-empty groups are never more than their words. */
  lemma {:induction false} GroupsNoMoreThanWords(groups: seq<seq<Word>>)
    requires forall k :: 0 <= k < |groups| ==> GroupOk(groups[k])
    ensures |groups| <= |Concat(groups)|
  {
    if groups != [] {
      GroupsNoMoreThanWords(groups[..|groups| - 1]);
    }
  }

  /**
   * The state build_subtitles keeps for the subtitle being built, which its
   * nested finalize_subtitle updates: the subtitles so far, the words, text,
   * start and end of the open one. `grouping` is the grouping it stands for.
   */
  class SubtitleBuilder {
    var subtitles: seq<Subtitle>
    var currentWords: seq<Word>
    var currentText: string
    var currentStart: Option<real>
    var currentEnd: Option<real>
    ghost var grouping: Grouping

    ghost predicate Valid()
      reads this
    {
      NonEmptyGroups(grouping.closed) && subtitles == SubtitlesOf(grouping.closed) &&
      currentWords == grouping.open && OpenState(currentWords, currentText, currentStart, currentEnd)
    }

    constructor()
      ensures Valid() && grouping == Grouping([], [])
    {
      subtitles, currentWords, currentText, currentStart, currentEnd := [], [], "", None, None;
      grouping := Grouping([], []);
    }

    /** finalize_subtitle: the open subtitle, when it has words, appended to the subtitles; the open state reset. */
    method FinalizeSubtitle()
      requires Valid()
      modifies this
      ensures Valid() && grouping == Finalized(old(grouping))
    {
      ghost var g := grouping;
      if currentWords != [] {
        SubtitlesOfSnoc(g.closed, g.open);
        assert SubtitleOf(g.open) == Subtitle(currentStart.value, currentEnd.value, currentText);
        subtitles := subtitles + [Subtitle(currentStart.value, currentEnd.value, currentText)];
      }
      assert NonEmptyGroups(Finalized(g).closed) && subtitles == SubtitlesOf(Finalized(g).closed);
      currentWords, currentText, currentStart, currentEnd, grouping := [], "", None, None, Finalized(g);
    }

    /** The body of the word loop: close before an overflowing word, add it, close after a punctuation break. */
    method Push(word: Word)
      requires Valid()
      modifies this
      ensures Valid() && grouping == AddWord(old(grouping), word)
    {
      ghost var g := grouping;
      var potentialText := JoinWord(currentText, word.text);
      var potentialDuration := if currentStart.Some? then word.end - currentStart.value else 0.0;
      var shouldBreak := false;
      if currentWords != [] {
        if potentialDuration > MaxDurationSeconds {
          shouldBreak := true;
        } else if |potentialText| > MaxChars {
          shouldBreak := true;
        }
      }
      OverflowsWith(g.open, word, currentText, currentStart);
      if shouldBreak {
        FinalizeSubtitle();
      }
      ghost var kept := grouping;
      assert kept == if Overflows(g.open, word) then Grouping(g.closed + [g.open], []) else g;
      AppendWord(word);
      ClosesWith(kept.open, word, currentText);
      if |currentText| >= MinCharsForPunctBreak && word.text != [] && word.text[|word.text| - 1] in BreakPunctuation {
        FinalizeSubtitle();
      }
    }

    /** The word added to the open subtitle: its start when it is the first, its text joined on, its end. */
    method AppendWord(word: Word)
      requires Valid()
      modifies this
      ensures Valid() && grouping == Grouping(old(grouping).closed, old(grouping).open + [word])
      ensures currentText == TextOf(grouping.open)
    {
      ghost var g := grouping;
      if currentStart.None? {
        currentStart := Some(word.start);
      }
      var text, end, open := JoinWord(currentText, word.text), Some(word.end), currentWords + [word];
      OpenStateSnoc(g.open, word, currentText, old(currentStart), currentEnd);
      currentText, currentEnd, currentWords, grouping := text, end, open, Grouping(g.closed, open);
    }
  }

  /**
   * The open subtitle's variables agree with its words: the text is their
   * joined text, and a start and an end are set exactly when it has words,
   * to its first word's start and its last word's end.
   */
  predicate OpenState(words: seq<Word>, text: string, start: Option<real>, end: Option<real>) {
    text == TextOf(words) && (start.Some? <==> words != []) &&
    (words != [] ==> start.value == words[0].start && end == Some(words[|words| - 1].end))
  }

  /** Adding a word to the open subtitle the way the word loop does keeps its variables in agreement. */
  lemma OpenStateSnoc(words: seq<Word>, w: Word, text: string, start: Option<real>, end: Option<real>)
    requires OpenState(words, text, start, end)
    ensures OpenState(words + [w], JoinWord(text, w.text), if start.None? then Some(w.start) else start, Some(w.end))
  {
    TextOfSnoc(words, w);
    assert (words + [w])[0] == if words == [] then w else words[0];
  }

  /** The grouping once the open group, if it has words, is closed. */
  function Finalized(g: Grouping): (r: Grouping)
    ensures r.open == []
    ensures r.closed == if g.open == [] then g.closed else g.closed + [g.open]
  {
    if g.open == [] then Grouping(g.closed, []) else Grouping(g.closed + [g.open], [])
  }

  /**
   * build_subtitles: one pass over the words with the builder, and the
   * subtitle still open closed at the end.
   */
  method BuildSubtitles(words: seq<Word>) returns (subtitles: seq<Subtitle>)
    ensures subtitles == Subtitles(words)
  {
    if words == [] {
      return [];
    }
    var builder := new SubtitleBuilder();
    var i := 0;
    assert words[..0] == [];
    while i < |words|
      invariant 0 <= i <= |words|
      invariant builder.Valid() && builder.grouping == GroupingOf(words[..i])
    {
      GroupingOfSnoc(words, i);
      builder.Push(words[i]);
      i := i + 1;
    }
    assert words[..i] == words;
    builder.FinalizeSubtitle();
    subtitles := builder.subtitles;
  }

  // ---------------------------------------------------------------- the SRT file

  /**
   * The four lines of one block: its number, the time range, the text and a
   * blank line. The timestamp formatter is a parameter (FmtTime in the file
   * written) so that the layout can be reasoned about apart from it.
   */
  function Block(index: nat, sub: Subtitle, fmt: real -> string): seq<string> {
    [NatToString(index), fmt(sub.start) + " --> " + fmt(sub.end), sub.text, ""]
  }

  function SrtLines(subtitles: seq<Subtitle>, fmt: real -> string): seq<string> {
    if subtitles == [] then []
    else SrtLines(subtitles[..|subtitles| - 1], fmt) + Block(|subtitles|, subtitles[|subtitles| - 1], fmt)
  }

  /** Four lines per subtitle, numbered from 1 in order, each block holding its subtitle's times and text. */
  lemma {:induction false} SrtLinesLayout(subtitles: seq<Subtitle>, fmt: real -> string)
    ensures |SrtLines(subtitles, fmt)| == 4 * |subtitles|
    ensures forall k :: 0 <= k < |subtitles| ==> SrtLines(subtitles, fmt)[4 * k..4 * k + 4] == Block(k + 1, subtitles[k], fmt)
  {
    if subtitles != [] {
      var n := |subtitles|;
      var prefix := subtitles[..n - 1];
      SrtLinesLayout(prefix, fmt);
      var lines := SrtLines(subtitles, fmt);
      forall k | 0 <= k < n
        ensures lines[4 * k..4 * k + 4] == Block(k + 1, subtitles[k], fmt)
      {
        if k < n - 1 {
          assert lines[4 * k..4 * k + 4] == SrtLines(prefix, fmt)[4 * k..4 * k + 4];
          assert prefix[k] == subtitles[k];
        } else {
          assert lines[4 * k..4 * k + 4] == Block(n, subtitles[n - 1], fmt);
        }
      }
    }
  }

  lemma SrtLinesSnoc(subtitles: seq<Subtitle>, sub: Subtitle, fmt: real -> string)
    ensures SrtLines(subtitles + [sub], fmt) ==
      SrtLines(subtitles, fmt) + [NatToString(|subtitles| + 1), fmt(sub.start) + " --> " + fmt(sub.end), sub.text, ""]
  {
    assert (subtitles + [sub])[..|subtitles|] == subtitles;
  }

  /** write_srt without the file: the lines built block by block, joined with newlines. */
  method WriteSrt(subtitles: seq<Subtitle>) returns (content: string)
    ensures content == Join(SrtLines(subtitles, FmtTime), "\n")
  {
    content := WriteBlocks(subtitles, FmtTime);
  }

  /** The loop of write_srt, for any timestamp formatter. */
  method WriteBlocks(subtitles: seq<Subtitle>, fmt: real -> string) returns (content: string)
    ensures content == Join(SrtLines(subtitles, fmt), "\n")
  {
    var lines: seq<string> := [];
    var idx := 0;
    while idx < |subtitles|
      invariant 0 <= idx <= |subtitles|
      invariant lines == SrtLines(subtitles[..idx], fmt)
    {
      var sub := subtitles[idx];
      SliceSnoc(subtitles, idx);
      SrtLinesSnoc(subtitles[..idx], sub, fmt);
      lines := lines + [NatToString(idx + 1)];
      lines := lines + [fmt(sub.start) + " --> " + fmt(sub.end)];
      lines := lines + [sub.text];
      lines := lines + [""];
      idx := idx + 1;
    }
    assert subtitles[..idx] == subtitles;
    content := Join(lines, "\n");
  }
}
