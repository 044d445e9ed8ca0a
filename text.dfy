/**
 * The parts of Python's `str` that the core relies on, as functions over
 * `seq<char>`. Character classes (`lower`, `isdigit`, the regex classes `\d`
 * and `\W`) are the ASCII ones; `strip()` and `splitlines()` use Python's full
 * sets of whitespace and line-boundary characters.
 */
module Text {
  import opened Wrappers

  // ---------------------------------------------------------------------
  // Character classes

  predicate IsDigit(c: char) { '0' <= c <= '9' }

  predicate IsAsciiLetter(c: char) { ('a' <= c <= 'z') || ('A' <= c <= 'Z') }

  /** A character of the regex class `\w` (ASCII). */
  predicate IsWordChar(c: char) { IsDigit(c) || IsAsciiLetter(c) || c == '_' }

  predicate AllDigits(s: string) { forall i :: 0 <= i < |s| ==> IsDigit(s[i]) }

  /** The characters `str.strip()` removes when given no argument. */
  const Whitespace: set<char> := {
    '\t', '\n', '\U{000B}', '\U{000C}', '\r', '\U{001C}', '\U{001D}', '\U{001E}', '\U{001F}',
    ' ', '\U{0085}', '\U{00A0}', '\U{1680}',
    '\U{2000}', '\U{2001}', '\U{2002}', '\U{2003}', '\U{2004}', '\U{2005}', '\U{2006}',
    '\U{2007}', '\U{2008}', '\U{2009}', '\U{200A}',
    '\U{2028}', '\U{2029}', '\U{202F}', '\U{205F}', '\U{3000}'
  }

  /** The characters `str.splitlines()` treats as line boundaries ("\r\n" counts as one). */
  const LineBreaks: set<char> := {
    '\n', '\r', '\U{000B}', '\U{000C}', '\U{001C}', '\U{001D}', '\U{001E}', '\U{0085}',
    '\U{2028}', '\U{2029}'
  }

  function LowerChar(c: char): char {
    if 'A' <= c <= 'Z' then (c as int + 32) as char else c
  }

  function UpperChar(c: char): char {
    if 'a' <= c <= 'z' then (c as int - 32) as char else c
  }

  /** `s.lower()` */
  function Lower(s: string): (r: string)
    ensures |r| == |s|
    ensures forall i :: 0 <= i < |s| ==> r[i] == LowerChar(s[i])
  {
    if s == [] then [] else [LowerChar(s[0])] + Lower(s[1..])
  }

  // ---------------------------------------------------------------------
  // Truthiness and formatting of optional strings

  /** Python truthiness of an optional string: neither None nor "". */
  predicate Truthy(o: Option<string>) { o.Some? && o.value != "" }

  /** `f"{o}"` for an optional string: None prints as "None". */
  function Show(o: Option<string>): string {
    match o
    case None => "None"
    case Some(s) => s
  }

  // ---------------------------------------------------------------------
  // Searching

  predicate IsPrefix(p: string, s: string) { |p| <= |s| && s[..|p|] == p }

  /** `sub in s` */
  predicate Contains(s: string, sub: string)
    decreases |s|
  {
    IsPrefix(sub, s) || (|s| > 0 && Contains(s[1..], sub))
  }

  lemma {:induction false} ContainsAt(s: string, sub: string, i: nat)
    requires i + |sub| <= |s| && s[i..i + |sub|] == sub
    ensures Contains(s, sub)
    decreases i
  {
    if i > 0 {
      assert s[1..][i - 1..i - 1 + |sub|] == s[i..i + |sub|];
      ContainsAt(s[1..], sub, i - 1);
    }
  }

  lemma {:induction false} ContainsWitness(s: string, sub: string) returns (i: nat)
    requires Contains(s, sub)
    ensures i + |sub| <= |s| && s[i..i + |sub|] == sub
    decreases |s|
  {
    if IsPrefix(sub, s) {
      i := 0;
    } else {
      var j := ContainsWitness(s[1..], sub);
      assert s[1..][j..j + |sub|] == s[j + 1..j + 1 + |sub|];
      i := j + 1;
    }
  }

  /** Whatever occurs in s is made of characters of s. */
  lemma ContainsChars(s: string, sub: string, k: nat)
    requires Contains(s, sub) && k < |sub|
    ensures exists j :: 0 <= j < |s| && s[j] == sub[k]
  {
    var i := ContainsWitness(s, sub);
    assert s[i + k] == s[i..i + |sub|][k];
  }

  /** Letter case does not hide an occurrence: lowering both sides keeps it. */
  lemma LowerKeepsContains(s: string, sub: string)
    requires Contains(s, sub)
    ensures Contains(Lower(s), Lower(sub))
  {
    var i := ContainsWitness(s, sub);
    assert Lower(s)[i..i + |sub|] == Lower(sub);
    ContainsAt(Lower(s), Lower(sub), i);
  }

  /** Nothing longer than s occurs in s. */
  lemma ContainsShorter(s: string, sub: string)
    requires Contains(s, sub)
    ensures |sub| <= |s|
  {
    var i := ContainsWitness(s, sub);
  }

  // ---------------------------------------------------------------------
  // Building strings

  function Repeat(c: char, n: nat): (r: string)
    ensures |r| == n && forall i :: 0 <= i < n ==> r[i] == c
  {
    if n == 0 then [] else [c] + Repeat(c, n - 1)
  }

  /** The empty sequence is a left unit of concatenation. */
  lemma EmptyAppend<T>(s: seq<T>)
    ensures [] + s == s
  {
  }

  /** A suffix of a suffix is a suffix of the whole. */
  lemma SuffixOfSuffix<T>(d: seq<T>, t: seq<T>, j: nat)
    requires |t| <= |d| && d[|d| - |t|..] == t && j <= |t|
    ensures d[|d| - j..] == t[|t| - j..]
    ensures j < |t| ==> d[|d| - j - 1] == t[|t| - j - 1]
  {
    assert d[|d| - j..] == d[|d| - |t|..][|t| - j..];
    if j < |t| {
      assert d[|d| - j - 1] == d[|d| - |t|..][|t| - j - 1];
    }
  }

  /** Each of three concatenated sequences is found again as a slice of the whole. */
  lemma ThreeParts<T>(a: seq<T>, b: seq<T>, c: seq<T>)
    ensures var s := a + b + c;
      s[..|a|] == a && s[|a|..|a| + |b|] == b && s[|a| + |b|..] == c
  {
    var s := a + b + c;
    assert s[..|a|] == a;
    assert s[|a|..|a| + |b|] == b;
    assert s[|a| + |b|..] == c;
  }

  /** Indexing into five concatenated parts: the first, the third and the end of the last. */
  lemma FiveParts<T>(a: seq<T>, b: seq<T>, c: seq<T>, d: seq<T>, e: seq<T>, i: nat, j: nat)
    requires i < |a| && j < |c| && e != []
    ensures var x := a + b + c + d + e;
      |x| == |a| + |b| + |c| + |d| + |e| && x[i] == a[i] && x[|a| + |b| + j] == c[j] && x[|x| - 1] == e[|e| - 1]
  {
  }

  /** A concatenation ends with its second part. */
  lemma AppendTail<T>(a: seq<T>, b: seq<T>)
    ensures |a + b| >= |b| && (a + b)[|a + b| - |b|..] == b
  {
    assert (a + b)[|a|..] == b;
  }

  /** Concatenation regroups freely. */
  lemma AppendAssoc<T>(a: seq<T>, b: seq<T>, c: seq<T>)
    ensures a + (b + c) == a + b + c
  {
  }

  /** `sep.join(parts)` */
  function Join(parts: seq<string>, sep: string): string {
    if parts == [] then ""
    else if |parts| == 1 then parts[0]
    else parts[0] + sep + Join(parts[1..], sep)
  }

  lemma {:induction false} JoinAppend(parts: seq<string>, last: string, sep: string)
    requires parts != []
    ensures Join(parts + [last], sep) == Join(parts, sep) + sep + last
  {
    if |parts| == 1 {
      assert parts + [last] == [parts[0], last];
    } else {
      assert (parts + [last])[1..] == parts[1..] + [last];
      JoinAppend(parts[1..], last, sep);
    }
  }

  /** A join holds only the characters of its parts and of the separator. */
  lemma {:induction false} JoinWithout(parts: seq<string>, sep: string, c: char)
    requires c !in sep
    requires forall i :: 0 <= i < |parts| ==> c !in parts[i]
    ensures c !in Join(parts, sep)
  {
    if |parts| > 1 {
      JoinWithout(parts[1..], sep, c);
    }
  }

  /** `s.replace(a, b)` for single characters. */
  function ReplaceChar(s: string, a: char, b: char): (r: string)
    ensures |r| == |s|
    ensures forall i :: 0 <= i < |s| ==> r[i] == if s[i] == a then b else s[i]
  {
    if s == [] then [] else [if s[0] == a then b else s[0]] + ReplaceChar(s[1..], a, b)
  }

  /** Replacing a character that does not occur changes nothing. */
  lemma ReplaceAbsent(s: string, a: char, b: char)
    requires a !in s
    ensures ReplaceChar(s, a, b) == s
  {
  }

  /** `s.replace(old, new)`: left to right, non-overlapping. */
  function ReplaceAll(s: string, from: string, to: string): string
    requires from != []
    decreases |s|
  {
    if s == [] then []
    else if IsPrefix(from, s) then to + ReplaceAll(s[|from|..], from, to)
    else [s[0]] + ReplaceAll(s[1..], from, to)
  }

  /** Replacing by a string of the same length keeps the length. */
  lemma {:induction false} ReplaceAllLength(s: string, from: string, to: string)
    requires from != [] && |to| == |from|
    ensures |ReplaceAll(s, from, to)| == |s|
    decreases |s|
  {
    if s != [] {
      if IsPrefix(from, s) {
        ReplaceAllLength(s[|from|..], from, to);
      } else {
        ReplaceAllLength(s[1..], from, to);
      }
    }
  }

  /** The regex substitution that deletes every run of non-word characters: only the word characters stay. */
  function RemoveNonWord(s: string): (r: string)
    ensures |r| <= |s|
    ensures forall i :: 0 <= i < |r| ==> IsWordChar(r[i])
  {
    if s == [] then []
    else if IsWordChar(s[0]) then [s[0]] + RemoveNonWord(s[1..])
    else RemoveNonWord(s[1..])
  }

  /** Removing non-word characters works piece by piece. */
  lemma {:induction false} RemoveNonWordAppend(a: string, b: string)
    ensures RemoveNonWord(a + b) == RemoveNonWord(a) + RemoveNonWord(b)
  {
    if a == [] {
      assert a + b == b;
    } else {
      assert (a + b)[0] == a[0] && (a + b)[1..] == a[1..] + b;
      RemoveNonWordAppend(a[1..], b);
    }
  }

  /** A string of word characters is kept whole; one without any is removed altogether. */
  lemma {:induction false} RemoveNonWordOf(s: string)
    ensures (forall i :: 0 <= i < |s| ==> IsWordChar(s[i])) ==> RemoveNonWord(s) == s
    ensures (forall i :: 0 <= i < |s| ==> !IsWordChar(s[i])) ==> RemoveNonWord(s) == ""
  {
    if s != [] {
      RemoveNonWordOf(s[1..]);
    }
  }

  /** Word, non-word, word, non-word: only the two word runs are kept. */
  lemma RemoveNonWordPieces(a: string, b: string, c: string, d: string)
    requires forall i :: 0 <= i < |a| ==> IsWordChar(a[i])
    requires forall i :: 0 <= i < |b| ==> !IsWordChar(b[i])
    requires forall i :: 0 <= i < |c| ==> IsWordChar(c[i])
    requires forall i :: 0 <= i < |d| ==> !IsWordChar(d[i])
    ensures RemoveNonWord(a + b + c + d) == a + c
  {
    RemoveNonWordOf(a);
    RemoveNonWordOf(b);
    RemoveNonWordOf(c);
    RemoveNonWordOf(d);
    RemoveNonWordAppend(a + b + c, d);
    RemoveNonWordAppend(a + b, c);
    RemoveNonWordAppend(a, b);
  }

  /** `s.title()`: a letter is upper-cased after a non-letter, lower-cased after a letter. */
  function TitleCase(s: string): string {
    TitleFrom(s, false)
  }

  function TitleFrom(s: string, previousIsCased: bool): (r: string)
    ensures |r| == |s|
  {
    if s == [] then []
    else
      [if previousIsCased then LowerChar(s[0]) else UpperChar(s[0])]
      + TitleFrom(s[1..], IsAsciiLetter(s[0]))
  }

  /** Each letter is lower-cased after a letter and upper-cased otherwise; the first follows the given state. */
  lemma {:induction false} TitleFromChars(s: string, previousIsCased: bool)
    ensures var r := TitleFrom(s, previousIsCased);
      (s != [] ==> r[0] == if previousIsCased then LowerChar(s[0]) else UpperChar(s[0]))
      && forall i :: 0 < i < |s| ==> r[i] == if IsAsciiLetter(s[i - 1]) then LowerChar(s[i]) else UpperChar(s[i])
  {
    if s != [] {
      TitleFromChars(s[1..], IsAsciiLetter(s[0]));
      var r := TitleFrom(s, previousIsCased);
      var rest := TitleFrom(s[1..], IsAsciiLetter(s[0]));
      assert r[1..] == rest;
      forall i | 1 < i < |s|
        ensures r[i] == if IsAsciiLetter(s[i - 1]) then LowerChar(s[i]) else UpperChar(s[i])
      {
        assert r[i] == rest[i - 1] && s[1..][i - 1] == s[i] && s[1..][i - 2] == s[i - 1];
      }
    }
  }

  // ---------------------------------------------------------------------
  // Stripping

  /** `s.lstrip(chars)` */
  function LStrip(s: string, chars: set<char>): (r: string)
    ensures |r| <= |s| && r == s[|s| - |r|..]
    ensures r == [] || r[0] !in chars
    ensures forall i :: 0 <= i < |s| - |r| ==> s[i] in chars
  {
    if s != [] && s[0] in chars then LStrip(s[1..], chars) else s
  }

  /** `s.rstrip(chars)` */
  function RStrip(s: string, chars: set<char>): (r: string)
    ensures |r| <= |s| && r == s[..|r|]
    ensures r == [] || r[|r| - 1] !in chars
    ensures forall i :: |r| <= i < |s| ==> s[i] in chars
  {
    if s != [] && s[|s| - 1] in chars then RStrip(s[..|s| - 1], chars) else s
  }

  /** `s.strip(chars)`; `StripSpace` is `s.strip()`. */
  function Strip(s: string, chars: set<char>): string {
    LStrip(RStrip(s, chars), chars)
  }

  function StripSpace(s: string): string { Strip(s, Whitespace) }

  /** Stripping leaves a string alone when neither end is a stripped character. */
  lemma StripNothing(s: string, chars: set<char>)
    requires s == [] || (s[0] !in chars && s[|s| - 1] !in chars)
    ensures Strip(s, chars) == s
  {
  }

  /** A stripped string has no stripped character at either end. */
  lemma StripEnds(s: string, chars: set<char>)
    ensures var r := Strip(s, chars);
      r == [] || (r[0] !in chars && r[|r| - 1] !in chars)
  {
    var rs := RStrip(s, chars);
    var r := LStrip(rs, chars);
    if r != [] {
      assert r[|r| - 1] == rs[|rs| - 1];
    }
  }

  /** A stripped string occurs in the original. */
  lemma StripInside(s: string, chars: set<char>)
    ensures Contains(s, Strip(s, chars))
  {
    var rs := RStrip(s, chars);
    var r := LStrip(rs, chars);
    var i := |rs| - |r|;
    assert r == rs[i..];
    assert s[i..i + |r|] == r;
    ContainsAt(s, r, i);
  }

  /** A stripped string has no stripped character at either end, and it occurs in the original. */
  lemma StripShape(s: string, chars: set<char>)
    ensures var r := Strip(s, chars);
      r == [] || (r[0] !in chars && r[|r| - 1] !in chars)
    ensures Contains(s, Strip(s, chars))
  {
    StripEnds(s, chars);
    StripInside(s, chars);
  }

  // ---------------------------------------------------------------------
  // Splitting

  /** `s.split(sep)` for a single-character separator: never empty. */
  function Split(s: string, sep: char): (parts: seq<string>)
    ensures |parts| >= 1
    ensures forall i :: 0 <= i < |parts| ==> sep !in parts[i]
  {
    if s == [] then [""]
    else
      var rest := Split(s[1..], sep);
      if s[0] == sep then [""] + rest
      else [[s[0]] + rest[0]] + rest[1..]
  }

  /** Joining the pieces of a split with the separator gives the string back. */
  lemma {:induction false} JoinSplit(s: string, sep: char)
    ensures Join(Split(s, sep), [sep]) == s
  {
    if s != [] {
      var rest := Split(s[1..], sep);
      JoinSplit(s[1..], sep);
      if s[0] == sep {
        assert ([""] + rest)[1..] == rest;
      } else if |rest| > 1 {
        assert ([[s[0]] + rest[0]] + rest[1..])[1..] == rest[1..];
      }
    }
  }

  /** The first piece of a split is the longest separator-free prefix: the string ends there or a separator follows. */
  lemma {:induction false} SplitFirst(s: string, sep: char)
    ensures IsPrefix(Split(s, sep)[0], s)
    ensures |Split(s, sep)[0]| < |s| ==> s[|Split(s, sep)[0]|] == sep
  {
    if s != [] {
      SplitFirst(s[1..], sep);
      var rest := Split(s[1..], sep);
      if s[0] != sep {
        var w := [s[0]] + rest[0];
        assert Split(s, sep)[0] == w;
        assert s[..|w|] == [s[0]] + s[1..][..|rest[0]|];
      }
    }
  }

  lemma {:induction false} SplitPrefix(p: string, t: string, sep: char)
    requires sep !in p
    ensures Split(p + t, sep) == [p + Split(t, sep)[0]] + Split(t, sep)[1..]
  {
    var rest := Split(t, sep);
    if p != [] {
      assert (p + t)[1..] == p[1..] + t;
      SplitPrefix(p[1..], t, sep);
      assert [p[0]] + (p[1..] + rest[0]) == p + rest[0];
    } else {
      assert p + t == t;
      assert p + rest[0] == rest[0];
      assert [rest[0]] + rest[1..] == rest;
    }
  }

  /** Splitting a separator-free join gives back the pieces. */
  lemma {:induction false} SplitJoin(parts: seq<string>, sep: char)
    requires |parts| >= 1
    requires forall i :: 0 <= i < |parts| ==> sep !in parts[i]
    ensures Split(Join(parts, [sep]), sep) == parts
  {
    if |parts| == 1 {
      SplitPrefix(parts[0], "", sep);
      assert Split("", sep) == [""];
      assert parts[0] + "" == parts[0];
    } else {
      var tail := Join(parts[1..], [sep]);
      SplitJoin(parts[1..], sep);
      assert Join(parts, [sep]) == parts[0] + ([sep] + tail);
      SplitPrefix(parts[0], [sep] + tail, sep);
      assert ([sep] + tail)[1..] == tail;
      var x := Split([sep] + tail, sep);
      assert x == [""] + parts[1..];
      assert x[0] == "" && x[1..] == parts[1..];
      assert parts[0] + x[0] == parts[0];
      assert [parts[0]] + parts[1..] == parts;
    }
  }

  function FirstBreak(s: string): (i: nat)
    ensures i <= |s|
    ensures i < |s| ==> s[i] in LineBreaks
    ensures forall j :: 0 <= j < i ==> s[j] !in LineBreaks
  {
    if s == [] || s[0] in LineBreaks then 0 else 1 + FirstBreak(s[1..])
  }

  /** `s.splitlines()`: no line holds a line boundary; a final boundary opens no line. */
  function SplitLines(s: string): (lines: seq<string>)
    ensures s == [] <==> lines == []
    ensures forall k :: 0 <= k < |lines| ==> forall j :: 0 <= j < |lines[k]| ==> lines[k][j] !in LineBreaks
    decreases |s|
  {
    if s == [] then []
    else
      var i := FirstBreak(s);
      if i == |s| then [s]
      else
        var next := if s[i] == '\r' && i + 1 < |s| && s[i + 1] == '\n' then i + 2 else i + 1;
        [s[..i]] + SplitLines(s[next..])
  }

  // ---------------------------------------------------------------------
  // Padding

  /** `s.ljust(width)`: pads with spaces on the right, never truncates. */
  function LJust(s: string, width: int): (r: string)
    ensures |r| == if width <= |s| then |s| else width
    ensures r == s + Repeat(' ', |r| - |s|)
  {
    if width <= |s| then s else s + Repeat(' ', width - |s|)
  }

  /** `s.center(width)`, CPython's rule: the odd space goes left only when both margin and width are odd. */
  function Center(s: string, width: int): (r: string)
    ensures |r| == if width <= |s| then |s| else width
  {
    if width <= |s| then s
    else
      var marg := width - |s|;
      var left := marg / 2 + (if marg % 2 == 1 && width % 2 == 1 then 1 else 0);
      Repeat(' ', left) + s + Repeat(' ', marg - left)
  }

  /** Centring in an even width leaves (width - |s|) / 2 spaces on the left and the rest on the right. */
  lemma CenterEven(s: string, width: int)
    requires |s| < width && width % 2 == 0
    ensures Center(s, width) == Repeat(' ', (width - |s|) / 2) + s + Repeat(' ', width - |s| - (width - |s|) / 2)
  {
  }

  /** Right alignment with zero fill: zeros on the left up to width w. */
  function ZeroPad(s: string, width: nat): (r: string)
    ensures |r| == if width <= |s| then |s| else width
  {
    if width <= |s| then s else Repeat('0', width - |s|) + s
  }

  // ---------------------------------------------------------------------
  // Decimal numbers

  function DigitChar(d: nat): (c: char)
    requires d < 10
    ensures IsDigit(c) && c as int - '0' as int == d
  {
    ('0' as int + d) as char
  }

  /** The number a string of ASCII digits denotes. */
  function DecimalValue(s: string): nat
    requires AllDigits(s)
  {
    if s == [] then 0 else DecimalValue(s[..|s| - 1]) * 10 + (s[|s| - 1] as int - '0' as int)
  }

  /** `str(n)` for n >= 0: the shortest decimal numeral denoting n. */
  function NatToString(n: nat): (s: string)
    ensures |s| >= 1 && AllDigits(s)
    ensures DecimalValue(s) == n
    ensures |s| > 1 ==> s[0] != '0'
    ensures n < 10 <==> |s| == 1
  {
    if n < 10 then [DigitChar(n)]
    else
      var prefix := NatToString(n / 10);
      var s := prefix + [DigitChar(n % 10)];
      assert s[..|s| - 1] == prefix;
      s
  }

  /** `str(i)` for any integer: a minus sign before a negative number. */
  function IntToString(i: int): (s: string)
    ensures i >= 0 <==> AllDigits(s)
  {
    if i >= 0 then NatToString(i)
    else
      var s := "-" + NatToString(-i);
      assert !IsDigit(s[0]);
      s
  }

  lemma {:induction false} LeadingZeroValue(s: string)
    requires AllDigits(s)
    ensures AllDigits("0" + s) && DecimalValue("0" + s) == DecimalValue(s)
    decreases |s|
  {
    if s != [] {
      var p := s[..|s| - 1];
      LeadingZeroValue(p);
      assert ("0" + s)[..|"0" + s| - 1] == "0" + p;
    } else {
      assert ("0" + s)[..0] == "";
    }
  }

  /** `f"{n:0>2}"`: at least two digits, and the digits still denote n. */
  lemma CountPadded(n: nat)
    ensures |ZeroPad(NatToString(n), 2)| == (if n < 10 then 2 else |NatToString(n)|)
    ensures AllDigits(ZeroPad(NatToString(n), 2))
    ensures DecimalValue(ZeroPad(NatToString(n), 2)) == n
  {
    if n < 10 {
      assert ZeroPad(NatToString(n), 2) == "0" + NatToString(n);
      LeadingZeroValue(NatToString(n));
    }
  }

  // ---------------------------------------------------------------------
  // Ordering (Python compares strings by code point, a prefix first)

  predicate StrLe(a: string, b: string)
    decreases |a|
  {
    a == [] || (b != [] && (a[0] < b[0] || (a[0] == b[0] && StrLe(a[1..], b[1..]))))
  }

  lemma {:induction false} StrLeTotal(a: string, b: string)
    ensures StrLe(a, b) || StrLe(b, a)
    decreases |a|
  {
    if a != [] && b != [] && a[0] == b[0] {
      StrLeTotal(a[1..], b[1..]);
    }
  }

  lemma {:induction false} StrLeTrans(a: string, b: string, c: string)
    requires StrLe(a, b) && StrLe(b, c)
    ensures StrLe(a, c)
    decreases |a|
  {
    if a != [] && b != [] && c != [] && a[0] == b[0] && b[0] == c[0] {
      StrLeTrans(a[1..], b[1..], c[1..]);
    }
  }
}
