// The SRT translation pass of translate_srt.py: the glossary-driven
// translate_text_english_to_armenian and the line-classification loop of
// process_srt_file. Reading and writing the files is left to the caller:
// the loop takes the file's lines (as readlines gives them) and returns the
// lines to write.
module TranslateSrt {
  import opened Text
  import Lists

  /** An English term and the Armenian text that replaces it. */
  type Entry = (string, string)

  /** The glossary, in the order the translation applies it. */
  const Glossary: seq<Entry> := [
    ("Word of God", "Աստծո խոսքը"),
    ("Holy Spirit", "Սուրբ Հոգի"),
    ("Scripture", "Սուրբ Գրոց"),
    ("Confession", "խոստովանություն"),
    ("God", "Աստված"),
    ("Jesus", "Հիսուս"),
    ("Christ", "Քրիստոս"),
    ("Bible", "Աստվածաշունչ"),
    ("faith", "հավատ"),
    ("healing", "բժշկություն"),
    ("prayer", "աղոթք"),
    ("mountain", "լեռ"),
    ("heart", "սիրտ"),
    ("life", "կյանք"),
    ("word", "խոսք"),
    ("power", "զորություն"),
    ("victory", "հաղթանակ"),
    ("peace", "խաղաղություն"),
    ("provision", "համեստություն"),
    ("circumstances", "հանգամանքներ"),
    ("situation", "իրավիճակ"),
    ("challenge", "մարտահրավեր"),
    ("defeat", "պարտություն"),
    ("fear", "վախ"),
    ("doubt", "կասկած"),
    ("believe", "հավատալ"),
    ("speak", "խոսել"),
    ("say", "ասել"),
    ("declare", "հայտարարել"),
    ("confess", "խոստովանել"),
    ("promise", "խոստում")
  ]

  /** Every term is a non-empty pattern and every replacement starts with a visible character. */
  predicate WellFormedEntries(entries: seq<Entry>) {
    forall k :: 0 <= k < |entries| ==> entries[k].0 != [] && entries[k].1 != [] && !IsSpace(entries[k].1[0])
  }

  lemma GlossaryWellFormed()
    ensures WellFormedEntries(Glossary)
  {
  }

  // ---------------------------------------------------------------- translation

  /** One glossary entry: the term as written, then its lower-case form. */
  function GlossaryStep(text: string, e: Entry): string
    requires e.0 != []
  {
    Replace(Replace(text, e.0, e.1), Lower(e.0), Lower(e.1))
  }

  /** The glossary entries applied one after the other, first entry first. */
  function ApplyGlossary(text: string, entries: seq<Entry>): string
    requires WellFormedEntries(entries)
    decreases |entries|
  {
    if entries == [] then text else ApplyGlossary(GlossaryStep(text, entries[0]), entries[1..])
  }

  /** The four phrase rewrites that follow the glossary, exact case only. */
  function Phrases(text: string): string {
    var t := Replace(text, "you are", "դուք եք");
    var t := Replace(t, "I am", "ես եմ");
    var t := Replace(t, "we are", "մենք ենք");
    Replace(t, "they are", "նրանք են")
  }

  /** Empty or only whitespace: such text is returned as it is. */
  predicate Blank(text: string) {
    text == [] || Strip(text) == []
  }

  /**
   * What translate_text_english_to_armenian returns for a text, with the
   * glossary as a parameter (the script uses Glossary); every property below
   * holds for any well-formed glossary.
   */
  function Translation(text: string, entries: seq<Entry>): string
    requires WellFormedEntries(entries)
  {
    if Blank(text) then text else Strip(Phrases(ApplyGlossary(text, entries)))
  }

  /** translate_text_english_to_armenian: the glossary loop, the phrase rewrites, then strip. */
  method TranslateText(text: string, entries: seq<Entry>) returns (r: string)
    requires WellFormedEntries(entries)
    ensures r == Translation(text, entries)
  {
    if text == [] || Strip(text) == [] {
      return text;
    }
    r := text;
    var i := 0;
    while i < |entries|
      invariant 0 <= i <= |entries|
      invariant ApplyGlossary(r, entries[i..]) == ApplyGlossary(text, entries)
    {
      var (eng, arm) := entries[i];
      assert entries[i..][1..] == entries[i + 1..];
      r := Replace(r, eng, arm);
      r := Replace(r, Lower(eng), Lower(arm));
      i := i + 1;
    }
    assert entries[i..] == [];
    r := Replace(r, "you are", "դուք եք");
    r := Replace(r, "I am", "ես եմ");
    r := Replace(r, "we are", "մենք ենք");
    r := Replace(r, "they are", "նրանք են");
    r := Strip(r);
  }

  /** Some character that is not whitespace. */
  predicate Visible(s: string) {
    exists i :: 0 <= i < |s| && !IsSpace(s[i])
  }

  /** Replacing a pattern by text that starts with a visible character keeps a visible character. */
  lemma {:induction false} ReplaceKeepsVisible(s: string, pat: string, rep: string)
    requires pat != [] && rep != [] && !IsSpace(rep[0]) && Visible(s)
    ensures Visible(Replace(s, pat, rep))
    decreases |s|
  {
    var r := Replace(s, pat, rep);
    if |s| < |pat| {
    } else if s[..|pat|] == pat {
      assert r[0] == rep[0];
    } else if !IsSpace(s[0]) {
      assert r[0] == s[0];
    } else {
      var i :| 0 <= i < |s| && !IsSpace(s[i]);
      assert s[1..][i - 1] == s[i];
      ReplaceKeepsVisible(s[1..], pat, rep);
      var j :| 0 <= j < |Replace(s[1..], pat, rep)| && !IsSpace(Replace(s[1..], pat, rep)[j]);
      assert r[j + 1] == Replace(s[1..], pat, rep)[j];
    }
  }

  /** Lower-casing keeps a visible character visible. */
  lemma LowerVisible(s: string)
    requires s != [] && !IsSpace(s[0])
    ensures Lower(s) != [] && !IsSpace(Lower(s)[0])
  {
  }

  lemma {:induction false} GlossaryKeepsVisible(text: string, entries: seq<Entry>)
    requires WellFormedEntries(entries) && Visible(text)
    ensures Visible(ApplyGlossary(text, entries))
    decreases |entries|
  {
    if entries != [] {
      var e := entries[0];
      ReplaceKeepsVisible(text, e.0, e.1);
      LowerVisible(e.1);
      ReplaceKeepsVisible(Replace(text, e.0, e.1), Lower(e.0), Lower(e.1));
      GlossaryKeepsVisible(GlossaryStep(text, e), entries[1..]);
    }
  }

  lemma PhrasesKeepVisible(g: string)
    requires Visible(g)
    ensures Visible(Phrases(g))
  {
    var t := Replace(g, "you are", "դուք եք");
    ReplaceKeepsVisible(g, "you are", "դուք եք");
    var t2 := Replace(t, "I am", "ես եմ");
    ReplaceKeepsVisible(t, "I am", "ես եմ");
    var t3 := Replace(t2, "we are", "մենք ենք");
    ReplaceKeepsVisible(t2, "we are", "մենք ենք");
    ReplaceKeepsVisible(t3, "they are", "նրանք են");
  }

  /** Visible text is exactly text whose strip is not empty. */
  lemma VisibleStrip(s: string)
    ensures Visible(s) <==> Strip(s) != []
  {
    StripShape(s);
  }

  /**
   * Text with a visible character never translates to the empty string, so
   * the fallback that keeps an original line whose translation is empty
   * never fires; and a translation has no surrounding whitespace.
   */
  lemma TranslationVisible(text: string, entries: seq<Entry>)
    requires WellFormedEntries(entries)
    ensures var r := Translation(text, entries);
      !Blank(text) ==> r != [] && !IsSpace(r[0]) && !IsSpace(r[|r| - 1])
  {
    if !Blank(text) {
      VisibleStrip(text);
      var g := ApplyGlossary(text, entries);
      GlossaryKeepsVisible(text, entries);
      PhrasesKeepVisible(g);
      VisibleStrip(Phrases(g));
      StripShape(Phrases(g));
    }
  }

  /** Blank text comes back unchanged, including its whitespace. */
  lemma BlankUnchanged(text: string, entries: seq<Entry>)
    requires WellFormedEntries(entries) && AllSpace(text)
    ensures Translation(text, entries) == text
  {
    StripShape(text);
  }

  /** A glossary none of whose terms (in either case) occurs in the text leaves it as it is. */
  lemma {:induction false} GlossaryIdle(text: string, entries: seq<Entry>)
    requires WellFormedEntries(entries)
    requires forall k :: 0 <= k < |entries| ==> !Contains(text, entries[k].0) && !Contains(text, Lower(entries[k].0))
    ensures ApplyGlossary(text, entries) == text
    decreases |entries|
  {
    if entries != [] {
      assert GlossaryStep(text, entries[0]) == text;
      GlossaryIdle(text, entries[1..]);
    }
  }

  /** Text with a visible character but no glossary term and no phrase in it is only stripped. */
  lemma UntouchedTextStripped(text: string, entries: seq<Entry>)
    requires WellFormedEntries(entries) && !Blank(text)
    requires forall k :: 0 <= k < |entries| ==> !Contains(text, entries[k].0) && !Contains(text, Lower(entries[k].0))
    requires !Contains(text, "you are") && !Contains(text, "I am") && !Contains(text, "we are") && !Contains(text, "they are")
    ensures Translation(text, entries) == Strip(text)
  {
    GlossaryIdle(text, entries);
    assert Phrases(text) == text;
  }

  // ---------------------------------------------------------------- process_srt_file

  /** A subtitle index number: str.isdigit() on the stripped line. */
  predicate IsIndexLine(line: string) {
    line != [] && AllDigits(line)
  }

  /** The output line for one input line (as readlines gives it, newline included). */
  function OutputLine(raw: string, entries: seq<Entry>): string
    requires WellFormedEntries(entries)
  {
    var line := Strip(raw);
    if IsIndexLine(line) || Contains(line, "-->") then raw
    else if line == [] then raw
    else
      var translated := Translation(line, entries);
      if translated != [] then translated + "\n" else raw
  }

  /** process_srt_file's loop with the script's glossary: one output line per input line, in order. */
  method ProcessLines(lines: seq<string>) returns (out: seq<string>)
    ensures |out| == |lines|
    ensures WellFormedEntries(Glossary) && out == Outputs(lines, Glossary)
  {
    GlossaryWellFormed();
    out := ProcessLinesWith(lines, Glossary);
  }

  /** The output of one line, as a function of the line. */
  function LineFn(entries: seq<Entry>): string --> string
    requires WellFormedEntries(entries)
    ensures forall raw :: LineFn(entries).requires(raw)
  {
    (raw: string) requires WellFormedEntries(entries) => OutputLine(raw, entries)
  }

  /** The output lines for a run of input lines, in order. */
  function Outputs(lines: seq<string>, entries: seq<Entry>): seq<string>
    requires WellFormedEntries(entries)
  {
    Lists.MapSeq(lines, LineFn(entries))
  }

  /** One output line per input line, and each is the output of the input line at its position. */
  lemma OutputAt(lines: seq<string>, entries: seq<Entry>, i: int)
    requires WellFormedEntries(entries) && 0 <= i < |lines|
    ensures |Outputs(lines, entries)| == |lines|
    ensures Outputs(lines, entries)[i] == OutputLine(lines[i], entries)
  {
    Lists.MapSeqAt(lines, LineFn(entries), i);
  }

  /** process_srt_file's loop for a given glossary: one output line per input line, in order. */
  method ProcessLinesWith(lines: seq<string>, entries: seq<Entry>) returns (out: seq<string>)
    requires WellFormedEntries(entries)
    ensures |out| == |lines|
    ensures out == Outputs(lines, entries)
  {
    out := [];
    var i := 0;
    while i < |lines|
      invariant 0 <= i <= |lines|
      invariant out == Outputs(lines[..i], entries)
    {
      var next := ProcessLine(lines[i], entries);
      Lists.MapSeqSnoc(lines, LineFn(entries), i);
      out := out + [next];
      i := i + 1;
    }
    assert lines[..i] == lines;
    Lists.MapSeqLength(lines, LineFn(entries));
  }

  /** One pass of the loop: classify the line, and translate it when it is text. */
  method ProcessLine(raw: string, entries: seq<Entry>) returns (next: string)
    requires WellFormedEntries(entries)
    ensures next == OutputLine(raw, entries)
  {
    var line := Strip(raw);
    if (line != [] && AllDigits(line)) || Contains(line, "-->") {
      next := raw;
    } else if line == [] {
      next := raw;
    } else {
      var translated := TranslateText(line, entries);
      if translated != [] {
        next := translated + "\n";
      } else {
        next := raw;
      }
    }
  }

  /** Index numbers, timestamps and blank lines pass through byte for byte. */
  lemma StructuralLinesKept(raw: string, entries: seq<Entry>)
    requires WellFormedEntries(entries)
    requires IsIndexLine(Strip(raw)) || Contains(Strip(raw), "-->") || AllSpace(raw)
    ensures OutputLine(raw, entries) == raw
  {
    StripShape(raw);
  }

  /** Every other line becomes its non-empty translation followed by a newline. */
  lemma TextLineTranslated(raw: string, entries: seq<Entry>)
    requires WellFormedEntries(entries)
    requires !IsIndexLine(Strip(raw)) && !Contains(Strip(raw), "-->") && !AllSpace(raw)
    ensures OutputLine(raw, entries) == Translation(Strip(raw), entries) + "\n"
    ensures Translation(Strip(raw), entries) != []
  {
    var line := Strip(raw);
    StripShape(raw);
    StripNoSpaceEnds(line);
    TranslationVisible(line, entries);
  }
}
