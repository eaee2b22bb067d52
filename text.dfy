// String operations with Python's semantics, shared by the text-handling
// modules: str.strip, str.split (with and without a separator), str.join,
// int() on a string, str.replace, `in` on strings, lower/upper and "c" * n.
module Text {
  import opened Wrappers

  /** The characters for which Python's str.isspace() is true. */
  predicate IsSpace(c: char) {
    c == ' ' || ('\t' <= c <= '\r') || ('\U{1c}' <= c <= '\U{1f}') || c == '\U{85}' || c == '\U{a0}'
    || c == '\U{1680}' || ('\U{2000}' <= c <= '\U{200a}') || c == '\U{2028}' || c == '\U{2029}'
    || c == '\U{202f}' || c == '\U{205f}' || c == '\U{3000}'
  }

  predicate NoSpace(s: string) {
    forall i :: 0 <= i < |s| ==> !IsSpace(s[i])
  }

  predicate AllSpace(s: string) {
    forall i :: 0 <= i < |s| ==> IsSpace(s[i])
  }

  /** str.lstrip(): drops the leading whitespace and nothing else. */
  function LStrip(s: string): (r: string)
    ensures |r| <= |s| && r == s[|s| - |r|..]
    ensures AllSpace(s[..|s| - |r|])
    ensures r == [] || !IsSpace(r[0])
  {
    if s != [] && IsSpace(s[0]) then
      var r := LStrip(s[1..]);
      LStripStep(s, r);
      r
    else s
  }

  lemma LStripStep(s: string, r: string)
    requires s != [] && IsSpace(s[0])
    requires |r| <= |s| - 1 && r == s[1..][|s| - 1 - |r|..] && AllSpace(s[1..][..|s| - 1 - |r|])
    ensures r == s[|s| - |r|..] && AllSpace(s[..|s| - |r|])
  {
    assert s[1..][|s| - 1 - |r|..] == s[|s| - |r|..];
    forall i | 0 <= i < |s| - |r| ensures IsSpace(s[i]) {
      if i > 0 {
        assert s[i] == s[1..][..|s| - 1 - |r|][i - 1];
      }
    }
  }

  /** str.rstrip(): drops the trailing whitespace and nothing else. */
  function RStrip(s: string): (r: string)
    ensures |r| <= |s| && r == s[..|r|]
    ensures AllSpace(s[|r|..])
    ensures r == [] || !IsSpace(r[|r| - 1])
  {
    if s != [] && IsSpace(s[|s| - 1]) then
      var r := RStrip(s[..|s| - 1]);
      RStripStep(s, r);
      r
    else s
  }

  lemma RStripStep(s: string, r: string)
    requires s != [] && IsSpace(s[|s| - 1])
    requires |r| <= |s| - 1 && r == s[..|s| - 1][..|r|] && AllSpace(s[..|s| - 1][|r|..])
    ensures r == s[..|r|] && AllSpace(s[|r|..])
  {
    assert s[..|s| - 1][..|r|] == s[..|r|];
    forall i | 0 <= i < |s| - |r| ensures IsSpace(s[|r|..][i]) {
      if |r| + i < |s| - 1 {
        assert s[|r|..][i] == s[..|s| - 1][|r|..][i];
      }
    }
  }

  function Strip(s: string): string {
    RStrip(LStrip(s))
  }

  lemma StripShape(s: string)
    ensures var r := Strip(s);
      (r == [] || (!IsSpace(r[0]) && !IsSpace(r[|r| - 1]))) &&
      (r == [] <==> AllSpace(s))
  {
    var l := LStrip(s);
    var r := RStrip(l);
    if r != [] {
      assert r[0] == l[0];
    }
    LStripEmpty(s);
    RStripEmpty(l);
  }

  lemma LStripEmpty(s: string)
    ensures LStrip(s) == [] <==> AllSpace(s)
  {
    var l := LStrip(s);
    if l != [] {
      assert l[0] == s[|s| - |l|];
    } else {
      assert s[..|s|] == s;
    }
  }

  lemma RStripEmpty(s: string)
    ensures RStrip(s) == [] <==> AllSpace(s)
  {
    var r := RStrip(s);
    if r != [] {
      assert r[|r| - 1] == s[|r| - 1];
    } else {
      assert s[0..] == s;
    }
  }

  /** A string without surrounding whitespace is its own strip. */
  lemma StripNoSpaceEnds(s: string)
    requires s == [] || (!IsSpace(s[0]) && !IsSpace(s[|s| - 1]))
    ensures Strip(s) == s
  {
  }

  /** `sub in s` for strings. */
  predicate StartsWith(s: string, p: string) {
    |p| <= |s| && s[..|p|] == p
  }

  predicate EndsWith(s: string, p: string) {
    |p| <= |s| && s[|s| - |p|..] == p
  }

  predicate Contains(s: string, p: string)
    decreases |s|
  {
    StartsWith(s, p) || (s != [] && Contains(s[1..], p))
  }

  /** The index of the first occurrence of a non-empty `p` in `s`, as str.find. */
  function Find(s: string, p: string): (r: Option<nat>)
    requires p != []
    ensures r.Some? ==> r.value + |p| <= |s| && s[r.value..r.value + |p|] == p
    ensures r.Some? ==> forall j :: 0 <= j < r.value ==> !StartsWith(s[j..], p)
    ensures r.None? <==> !Contains(s, p)
    decreases |s|
  {
    if StartsWith(s, p) then Some(0)
    else if s == [] then None
    else
      var rest := Find(s[1..], p);
      if rest.None? then None
      else
        assert s[1..][rest.value..rest.value + |p|] == s[rest.value + 1..rest.value + 1 + |p|];
        assert forall j :: 1 <= j <= rest.value ==> s[j..] == s[1..][j - 1..];
        Some(rest.value + 1)
  }

  /** s.split(sep, 1) for a separator that occurs in `s`: the text before and after its first occurrence. */
  function SplitOnce(s: string, sep: string): (r: Option<(string, string)>)
    requires sep != []
    ensures r.None? <==> !Contains(s, sep)
    ensures r.Some? ==> s == r.value.0 + sep + r.value.1 && !Contains(r.value.0, sep)
  {
    var i := Find(s, sep);
    if i.None? then None
    else
      var before, after := s[..i.value], s[i.value + |sep|..];
      assert s == before + sep + after;
      assert !Contains(before, sep) by { FirstOccurrence(s, sep, i.value); }
      Some((before, after))
  }

  /** An occurrence at any position makes `p` contained in `s`. */
  lemma {:induction false} ContainsAt(s: string, p: string, i: nat)
    requires i <= |s| && StartsWith(s[i..], p)
    ensures Contains(s, p)
    decreases i
  {
    if i > 0 {
      assert s[1..][i - 1..] == s[i..];
      ContainsAt(s[1..], p, i - 1);
    }
  }

  /**
   * Splitting `a + sep + b` at the first `sep` gives `a` and `b` back when
   * `a` holds no copy of the separator's second character and that character
   * differs from the first (so no occurrence can start inside `a`).
   */
  lemma SplitOnceAt(a: string, sep: string, b: string)
    requires |sep| >= 2 && sep[0] != sep[1] && sep[1] !in a
    ensures SplitOnce(a + sep + b, sep) == Some((a, b))
  {
    var s := a + sep + b;
    assert s[|a|..][..|sep|] == sep;
    forall j | 0 <= j < |a|
      ensures !StartsWith(s[j..], sep)
    {
      if j + 1 < |a| {
        assert s[j..][1] == a[j + 1];
      } else {
        assert s[j..][1] == sep[0];
      }
    }
    ContainsAt(s, sep, |a|);
    var i := Find(s, sep);
    assert i.value == |a| by {
      assert StartsWith(s[i.value..], sep) by {
        assert s[i.value..][..|sep|] == s[i.value..i.value + |sep|];
      }
    }
    assert s[..|a|] == a;
    assert s[|a| + |sep|..] == b;
  }

  /** Splitting at the first occurrence of a character that `a` does not hold gives `a` and the rest. */
  lemma SplitOnceAtChar(a: string, c: char, b: string)
    requires c !in a
    ensures SplitOnce(a + [c] + b, [c]) == Some((a, b))
  {
    var s := a + [c] + b;
    assert s[|a|..][..1] == [c];
    ContainsAt(s, [c], |a|);
    forall j | 0 <= j < |a|
      ensures !StartsWith(s[j..], [c])
    {
      assert s[j..][0] == a[j];
    }
    var i := Find(s, [c]);
    assert i.value == |a| by {
      assert StartsWith(s[i.value..], [c]) by {
        assert s[i.value..][..1] == s[i.value..i.value + 1];
      }
    }
    assert s[..|a|] == a;
    assert s[|a| + 1..] == b;
  }

  /** Nothing before the first occurrence of `p` contains `p`. */
  lemma FirstOccurrence(s: string, p: string, i: nat)
    requires p != [] && i + |p| <= |s|
    requires forall j :: 0 <= j < i ==> !StartsWith(s[j..], p)
    ensures !Contains(s[..i], p)
  {
    NotContainsPrefix(s, p, i, 0);
  }

  lemma {:induction false} NotContainsPrefix(s: string, p: string, i: nat, j: nat)
    requires p != [] && i + |p| <= |s| && j <= i
    requires forall k :: 0 <= k < i ==> !StartsWith(s[k..], p)
    ensures !Contains(s[..i][j..], p)
    decreases i - j
  {
    var t := s[..i][j..];
    if j < i {
      assert !StartsWith(s[j..], p);
      if |p| <= |t| {
        assert t[..|p|] == s[j..][..|p|];
      }
      NotContainsPrefix(s, p, i, j + 1);
      assert t[1..] == s[..i][j + 1..];
    } else {
      assert t == [];
    }
  }

  lemma {:induction false} ContainsChar(s: string, c: char)
    ensures Contains(s, [c]) <==> c in s
  {
    if s != [] {
      ContainsChar(s[1..], c);
      assert s == [s[0]] + s[1..];
    }
  }

  /** The position of the first occurrence of a character. */
  function IndexOf(s: string, c: char): (i: nat)
    requires c in s
    ensures i < |s| && s[i] == c && c !in s[..i]
  {
    if s[0] == c then 0 else 1 + IndexOf(s[1..], c)
  }

  /** str.split(sep) for a one-character separator. */
  function Split(s: string, sep: char): (parts: seq<string>)
    ensures |parts| >= 1
    ensures forall k :: 0 <= k < |parts| ==> sep !in parts[k]
    decreases |s|
  {
    if sep in s then
      var i := IndexOf(s, sep);
      [s[..i]] + Split(s[i + 1..], sep)
    else
      [s]
  }

  /** A string without the separator splits into itself alone. */
  lemma SplitAbsent(s: string, sep: char)
    requires sep !in s
    ensures Split(s, sep) == [s]
  {
  }

  /** The first occurrence of the separator ends the first part. */
  lemma SplitFirst(a: string, b: string, sep: char)
    requires sep !in a
    ensures Split(a + [sep] + b, sep) == [a] + Split(b, sep)
  {
    var s := a + [sep] + b;
    assert s[|a|] == sep && s[..|a|] == a;
    assert IndexOf(s, sep) == |a|;
    assert s[|a| + 1..] == b;
  }

  /** A digit string contains no character other than digits. */
  lemma DigitsExclude(s: string, c: char)
    requires AllDigits(s) && !IsDigit(c)
    ensures c !in s
  {
  }

  /** sep.join(parts). */
  function Join(parts: seq<string>, sep: string): string {
    if |parts| == 0 then []
    else if |parts| == 1 then parts[0]
    else parts[0] + sep + Join(parts[1..], sep)
  }

  lemma {:induction false} JoinSplit(s: string, sep: char)
    ensures Join(Split(s, sep), [sep]) == s
    decreases |s|
  {
    if sep in s {
      var i := IndexOf(s, sep);
      var rest := Split(s[i + 1..], sep);
      assert Split(s, sep) == [s[..i]] + rest;
      JoinCons(s[..i], rest, [sep]);
      JoinSplit(s[i + 1..], sep);
      assert s == s[..i] + [sep] + s[i + 1..];
    }
  }

  /** Joining one more part in front adds it and a separator. */
  lemma JoinCons(head: string, rest: seq<string>, sep: string)
    requires |rest| >= 1
    ensures Join([head] + rest, sep) == head + sep + Join(rest, sep)
  {
    assert ([head] + rest)[1..] == rest;
  }

  lemma {:induction false} SplitJoin(parts: seq<string>, sep: char)
    requires |parts| >= 1
    requires forall k :: 0 <= k < |parts| ==> sep !in parts[k]
    ensures Split(Join(parts, [sep]), sep) == parts
  {
    if |parts| > 1 {
      var rest := Join(parts[1..], [sep]);
      var s := parts[0] + [sep] + rest;
      assert s[|parts[0]|] == sep && s[..|parts[0]|] == parts[0];
      assert IndexOf(s, sep) == |parts[0]|;
      assert s[|parts[0]| + 1..] == rest;
      SplitJoin(parts[1..], sep);
    }
  }

  /** The length of the run of non-space characters at the start of `t`. */
  function TokenLength(t: string): (n: nat)
    ensures n <= |t| && NoSpace(t[..n])
    ensures n == |t| || IsSpace(t[n])
  {
    if t == [] || IsSpace(t[0]) then 0 else 1 + TokenLength(t[1..])
  }

  /** str.split() with no argument: the maximal runs of non-space characters. */
  function Words(s: string): (ws: seq<string>)
    ensures forall k :: 0 <= k < |ws| ==> ws[k] != [] && NoSpace(ws[k])
    decreases |s|
  {
    var t := LStrip(s);
    if t == [] then []
    else
      var n := TokenLength(t);
      var rest := Words(t[n..]);
      WordCons(t[..n], rest);
      [t[..n]] + rest
  }

  lemma WordCons(w: string, rest: seq<string>)
    requires w != [] && NoSpace(w)
    requires forall k :: 0 <= k < |rest| ==> rest[k] != [] && NoSpace(rest[k])
    ensures forall k :: 0 <= k < |rest| + 1 ==> ([w] + rest)[k] != [] && NoSpace(([w] + rest)[k])
  {
    forall k | 0 <= k < |rest| + 1
      ensures ([w] + rest)[k] != [] && NoSpace(([w] + rest)[k])
    {
      if k > 0 {
        assert ([w] + rest)[k] == rest[k - 1];
      }
    }
  }

  lemma {:induction false} TokenLengthPrefix(a: string, t: string)
    requires NoSpace(a)
    ensures TokenLength(a + t) == |a| + TokenLength(t)
  {
    if a != [] {
      assert (a + t)[1..] == a[1..] + t;
      TokenLengthPrefix(a[1..], t);
    } else {
      assert a + t == t;
    }
  }

  /** A single word splits into itself. */
  lemma WordsOfWord(w: string)
    requires w != [] && NoSpace(w)
    ensures Words(w) == [w]
  {
    TokenLengthPrefix(w, []);
    assert w + [] == w;
    assert w[|w|..] == [];
  }

  /** A word followed by a space splits off as the first word. */
  lemma WordsCons(a: string, rest: string)
    requires a != [] && NoSpace(a)
    ensures Words(a + " " + rest) == [a] + Words(rest)
  {
    var s := a + " " + rest;
    assert s[0] == a[0];
    assert LStrip(s) == s;
    TokenLengthPrefix(a, " " + rest);
    assert s == a + (" " + rest);
    assert s[..|a|] == a;
    assert s[|a|..] == " " + rest;
    assert LStrip(" " + rest) == LStrip(rest) by {
      assert (" " + rest)[1..] == rest;
    }
  }

  /** Non-empty words without whitespace, as str.split() returns them. */
  predicate IsWordList(ws: seq<string>) {
    forall k :: 0 <= k < |ws| ==> ws[k] != [] && NoSpace(ws[k])
  }

  lemma WordListTail(ws: seq<string>)
    requires IsWordList(ws) && ws != []
    ensures IsWordList(ws[1..]) && ws[0] != [] && NoSpace(ws[0])
  {
  }

  /** Words joined by single spaces split back into the same words. */
  lemma {:induction false} WordsJoin(ws: seq<string>)
    requires IsWordList(ws)
    ensures Words(Join(ws, " ")) == ws
  {
    if ws == [] {
      assert Words(Join(ws, " ")) == ws by {
        assert Join(ws, " ") == [];
        assert LStrip([]) == [];
      }
    } else if |ws| == 1 {
      assert Words(Join(ws, " ")) == ws by {
        WordListTail(ws);
        WordsOfWord(ws[0]);
      }
    } else {
      WordListTail(ws);
      WordsJoin(ws[1..]);
      WordsJoinStep(ws);
    }
  }

  lemma WordsJoinStep(ws: seq<string>)
    requires |ws| > 1 && ws[0] != [] && NoSpace(ws[0])
    requires Words(Join(ws[1..], " ")) == ws[1..]
    ensures Words(Join(ws, " ")) == ws
  {
    JoinCons(ws[0], ws[1..], " ");
    assert ws == [ws[0]] + ws[1..];
    WordsCons(ws[0], Join(ws[1..], " "));
  }

  /** Words joined by single spaces neither start nor end with whitespace. */
  lemma {:induction false} JoinEnds(ws: seq<string>)
    requires IsWordList(ws)
    ensures var j := Join(ws, " "); j == [] || (!IsSpace(j[0]) && !IsSpace(j[|j| - 1]))
  {
    if |ws| > 1 {
      WordListTail(ws);
      JoinEnds(ws[1..]);
      var rest := Join(ws[1..], " ");
      assert rest != [] by { WordsJoin(ws[1..]); }
      assert Join(ws, " ") == ws[0] + " " + rest;
    }
  }

  /** Two words joined by one space split back into the two words. */
  lemma WordsPair(a: string, b: string)
    requires a != [] && NoSpace(a) && b != [] && NoSpace(b)
    ensures Words(a + " " + b) == [a, b]
  {
    WordsCons(a, b);
    WordsOfWord(b);
  }

  predicate IsDigit(c: char) {
    '0' <= c <= '9'
  }

  predicate AllDigits(s: string) {
    forall i :: 0 <= i < |s| ==> IsDigit(s[i])
  }

  function DigitValue(c: char): nat
    requires IsDigit(c)
  {
    c as int - '0' as int
  }

  function DigitsValue(s: string): nat
    requires AllDigits(s)
  {
    if s == [] then 0 else DigitsValue(s[..|s| - 1]) * 10 + DigitValue(s[|s| - 1])
  }

  /** str(n) for a non-negative integer. */
  function NatToString(n: nat): (s: string)
    ensures s != [] && AllDigits(s) && DigitsValue(s) == n
  {
    var d := ('0' as int + n % 10) as char;
    if n < 10 then [d] else
      var prefix := NatToString(n / 10);
      assert (prefix + [d])[..|prefix|] == prefix;
      prefix + [d]
  }

  /** f"{n:02d}" for a non-negative integer. */
  function Pad2(n: nat): string {
    if n < 10 then ['0'] + NatToString(n) else NatToString(n)
  }

  lemma {:induction false} LeadingZero(s: string)
    requires AllDigits(s)
    ensures AllDigits(['0'] + s) && DigitsValue(['0'] + s) == DigitsValue(s)
  {
    if s != [] {
      var t := ['0'] + s;
      assert t[..|t| - 1] == ['0'] + s[..|s| - 1];
      LeadingZero(s[..|s| - 1]);
    }
  }

  /** int(s) on a string: surrounding whitespace, an optional sign, then ASCII digits. */
  function ParseInt(s: string): Option<int> {
    ParseStripped(Strip(s))
  }

  /** int() on text already stripped of whitespace. */
  function ParseStripped(t: string): Option<int> {
    if t != [] && (t[0] == '-' || t[0] == '+') then
      var ds := t[1..];
      if ds != [] && AllDigits(ds) then
        Some(if t[0] == '-' then -(DigitsValue(ds) as int) else DigitsValue(ds) as int)
      else None
    else if t != [] && AllDigits(t) then Some(DigitsValue(t) as int)
    else None
  }

  lemma ParseIntDigits(s: string)
    requires s != [] && AllDigits(s)
    ensures ParseInt(s) == Some(DigitsValue(s) as int)
  {
    StripNoSpaceEnds(s);
  }

  /** int() looks only at the stripped text. */
  lemma ParseIntSameStrip(s: string, t: string)
    requires Strip(s) == Strip(t)
    ensures ParseInt(s) == ParseInt(t)
  {
  }

  lemma ParseIntZero()
    ensures ParseInt("0") == Some(0)
  {
    ParseIntDigits("0");
    assert DigitsValue("0") == 0;
  }

  /** int() rejects every string without a single digit in it. */
  lemma ParseIntNeedsDigit(s: string)
    requires forall i :: 0 <= i < |s| ==> !IsDigit(s[i])
    ensures ParseInt(s) == None
  {
    var l := LStrip(s);
    var t := RStrip(l);
    if t != [] {
      assert t[0] == l[0] == s[|s| - |l|];
      if |t| > 1 {
        assert t[1] == l[1] == s[|s| - |l| + 1];
        assert !IsDigit(t[1..][0]);
      }
    }
  }

  /** int(str(n)) == n. */
  lemma ParseIntNatToString(n: nat)
    ensures ParseInt(NatToString(n)) == Some(n as int)
  {
    ParseIntDigits(NatToString(n));
  }

  /** str(n) for any integer: a minus sign before the digits of a negative one. */
  function IntToString(n: int): (s: string)
    ensures s != [] && (n >= 0 ==> s == NatToString(n)) && (n < 0 ==> s == "-" + NatToString(-n))
  {
    if n < 0 then "-" + NatToString(-n) else NatToString(n)
  }

  lemma ParseIntIntToString(n: int)
    ensures ParseInt(IntToString(n)) == Some(n)
  {
    if n < 0 {
      var s := IntToString(n);
      StripNoSpaceEnds(s);
      assert s[1..] == NatToString(-n);
    } else {
      ParseIntNatToString(n);
    }
  }

  /** The text of an integer holds no whitespace. */
  lemma IntToStringNoSpace(n: int)
    ensures NoSpace(IntToString(n))
  {
  }

  /** int(f"{n:02d}") == n. */
  lemma ParseIntPad2(n: nat)
    ensures ParseInt(Pad2(n)) == Some(n as int)
  {
    if n < 10 {
      LeadingZero(NatToString(n));
      ParseIntDigits(Pad2(n));
    } else {
      ParseIntNatToString(n);
    }
  }

  /** s.replace(pat, rep) for a non-empty pattern: left-to-right, non-overlapping. */
  function Replace(s: string, pat: string, rep: string): (r: string)
    requires pat != []
    ensures !Contains(s, pat) ==> r == s
    decreases |s|
  {
    if |s| < |pat| then s
    else if s[..|pat|] == pat then rep + Replace(s[|pat|..], pat, rep)
    else [s[0]] + Replace(s[1..], pat, rep)
  }

  /**
   * str.lower() on ASCII letters and on the Armenian capitals U+0531 to U+0556,
   * which the subtitle glossary lowers; every other character is left as it is.
   */
  function LowerChar(c: char): char {
    if 'A' <= c <= 'Z' then (c as int + 32) as char
    else if '\U{0531}' <= c <= '\U{0556}' then (c as int + 48) as char
    else c
  }

  /** str.upper() on ASCII letters. */
  function UpperChar(c: char): char {
    if 'a' <= c <= 'z' then (c as int - 32) as char else c
  }

  function Lower(s: string): (r: string)
    ensures |r| == |s| && forall i :: 0 <= i < |s| ==> r[i] == LowerChar(s[i])
  {
    seq(|s|, i requires 0 <= i < |s| => LowerChar(s[i]))
  }

  function Upper(s: string): (r: string)
    ensures |r| == |s| && forall i :: 0 <= i < |s| ==> r[i] == UpperChar(s[i])
  {
    seq(|s|, i requires 0 <= i < |s| => UpperChar(s[i]))
  }

  /** s * n: n copies of s one after another, the empty string when n <= 0. */
  function Repeat(s: string, n: int): (r: string)
    ensures |r| == if n <= 0 then 0 else |s| * n
    decreases n
  {
    if n <= 0 then [] else s + Repeat(s, n - 1)
  }

  /** The k-th block of |s| characters of s * n is s itself. */
  lemma {:induction false} RepeatBlock(s: string, n: int, k: int)
    requires 0 <= k < n
    ensures k * |s| + |s| <= |Repeat(s, n)|
    ensures Repeat(s, n)[k * |s| .. k * |s| + |s|] == s
    decreases n
  {
    var r := Repeat(s, n);
    assert r == s + Repeat(s, n - 1);
    if k > 0 {
      RepeatBlock(s, n - 1, k - 1);
      assert k * |s| == (k - 1) * |s| + |s|;
      assert r[k * |s| .. k * |s| + |s|] == Repeat(s, n - 1)[(k - 1) * |s| .. (k - 1) * |s| + |s|];
    } else {
      assert r[..|s|] == s;
    }
  }
}
