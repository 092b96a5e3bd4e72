/**
 * String primitives of the JavaScript runtime that the core relies on:
 * `String.prototype.trim`, `split` and `join` on a one-character separator,
 * `indexOf`, the ASCII digit class, number-to-decimal-string rendering and the
 * case mappings used on PPV type names.
 */
module Text {
  import opened Wrappers

  // ---------------------------------------------------------------------------
  // Whitespace and trim
  // ---------------------------------------------------------------------------

  /** ECMAScript WhiteSpace and LineTerminator code points: what `trim` removes. */
  predicate IsWhitespace(c: char) {
    c == '\t' || c == '\n' || c == '\U{B}' || c == '\U{C}' || c == '\r' || c == ' '
    || c == '\U{A0}' || c == '\U{1680}' || ('\U{2000}' <= c <= '\U{200A}')
    || c == '\U{2028}' || c == '\U{2029}' || c == '\U{202F}' || c == '\U{205F}'
    || c == '\U{3000}' || c == '\U{FEFF}'
  }

  predicate AllWhitespace(s: string) {
    forall i :: 0 <= i < |s| ==> IsWhitespace(s[i])
  }

  /** Neither end of `s` is whitespace (vacuously true of the empty string). */
  predicate IsTrimmed(s: string) {
    s == [] || (!IsWhitespace(s[0]) && !IsWhitespace(s[|s| - 1]))
  }

  /** `trimStart`: drops the leading whitespace, keeps the rest. */
  function TrimStart(s: string): (r: string)
    ensures |r| <= |s| && r == s[|s| - |r|..]
    ensures AllWhitespace(s[..|s| - |r|])
    ensures r == [] || !IsWhitespace(r[0])
  {
    if s == [] || !IsWhitespace(s[0]) then s else TrimStart(s[1..])
  }

  /** `trimEnd`: drops the trailing whitespace, keeps the rest. */
  function TrimEnd(s: string): (r: string)
    ensures |r| <= |s| && r == s[..|r|]
    ensures AllWhitespace(s[|r|..])
    ensures r == [] || !IsWhitespace(r[|r| - 1])
  {
    if s == [] || !IsWhitespace(s[|s| - 1]) then s else TrimEnd(s[..|s| - 1])
  }

  /**
   * `trim`: `trimStart` followed by `trimEnd`. The result is the text left
   * after the leading whitespace, with a whitespace-only tail cut off, and
   * neither of its ends is whitespace.
   */
  function Trim(s: string): (r: string)
    ensures IsTrimmed(r)
    ensures var t := TrimStart(s); |r| <= |t| && r == t[..|r|] && AllWhitespace(t[|r|..])
  {
    TrimEnd(TrimStart(s))
  }

  lemma {:induction false} TrimOfTrimmed(s: string)
    requires IsTrimmed(s)
    ensures Trim(s) == s
  {
  }

  /** Concatenation regroups freely; stated once so that long chains are cheap to regroup. */
  lemma AppendAssoc<T>(a: seq<T>, b: seq<T>, c: seq<T>)
    ensures (a + b) + c == a + (b + c)
  {
  }

  /** The middle piece of a concatenation is found between the other two. */
  lemma Between<T>(a: seq<T>, b: seq<T>, c: seq<T>)
    ensures (a + b + c)[|a|..|a| + |b|] == b
  {
  }

  // ---------------------------------------------------------------------------
  // indexOf
  // ---------------------------------------------------------------------------

  /** The first index at or after `from` that holds `c`. */
  function IndexOfChar(s: string, c: char, from: nat): (r: Option<nat>)
    ensures r.Some? ==> from <= r.value < |s| && s[r.value] == c
                        && forall j :: from <= j < r.value ==> s[j] != c
    ensures r.None? ==> forall j :: from <= j < |s| ==> s[j] != c
    decreases |s| - from
  {
    if from >= |s| then None
    else if s[from] == c then Some(from)
    else IndexOfChar(s, c, from + 1)
  }

  predicate OccursAt(s: string, pat: string, i: nat) {
    i + |pat| <= |s| && s[i..i + |pat|] == pat
  }

  /** `pat` occurs at `i` and nowhere before. */
  predicate FirstOccurrence(s: string, pat: string, i: nat) {
    OccursAt(s, pat, i) && forall k: nat :: k < i ==> !OccursAt(s, pat, k)
  }

  /** A piece of an occurrence is found at the matching offset. */
  lemma OccursPiece(s: string, pat: string, p: nat, i: nat, j: nat)
    requires OccursAt(s, pat, p) && i <= j <= |pat|
    ensures s[p + i..p + j] == pat[i..j]
  {
    forall k | 0 <= k < j - i
      ensures s[p + i..p + j][k] == pat[i..j][k]
    {
      assert s[p + i + k] == s[p..p + |pat|][i + k];
    }
  }

  /** `indexOf` of a whole string: the first position at or after `from` where `pat` occurs. */
  function IndexOf(s: string, pat: string, from: nat): (r: Option<nat>)
    ensures r.Some? ==> from <= r.value && OccursAt(s, pat, r.value)
                        && forall j :: from <= j < r.value ==> !OccursAt(s, pat, j)
    ensures r.None? ==> forall j :: from <= j ==> !OccursAt(s, pat, j)
    decreases |s| - from
  {
    if from + |pat| > |s| then None
    else if s[from..from + |pat|] == pat then Some(from)
    else IndexOf(s, pat, from + 1)
  }

  // ---------------------------------------------------------------------------
  // split / join on a one-character separator
  // ---------------------------------------------------------------------------

  /** `s.split(sep)`: always at least one part, and no part holds the separator. */
  function Split(s: string, sep: char): (parts: seq<string>)
    ensures |parts| >= 1
    ensures forall i :: 0 <= i < |parts| ==> sep !in parts[i]
    decreases |s|
  {
    match IndexOfChar(s, sep, 0)
    case None => [s]
    case Some(k) => [s[..k]] + Split(s[k + 1..], sep)
  }

  /** `parts.join(sep)` */
  function Join(parts: seq<string>, sep: char): string
  {
    if |parts| == 0 then ""
    else if |parts| == 1 then parts[0]
    else parts[0] + [sep] + Join(parts[1..], sep)
  }

  /** Splitting and re-joining on the same separator gives back the string. */
  lemma {:induction false} JoinSplit(s: string, sep: char)
    ensures Join(Split(s, sep), sep) == s
    decreases |s|
  {
    match IndexOfChar(s, sep, 0)
    case None =>
    case Some(k) =>
      var rest := Split(s[k + 1..], sep);
      assert Split(s, sep) == [s[..k]] + rest;
      JoinSplit(s[k + 1..], sep);
      JoinCons(s[..k], rest, sep);
      assert s == s[..k] + [sep] + s[k + 1..];
  }

  lemma JoinCons(head: string, rest: seq<string>, sep: char)
    requires |rest| >= 1
    ensures Join([head] + rest, sep) == head + [sep] + Join(rest, sep)
  {
    assert ([head] + rest)[1..] == rest;
  }

  /** Joining parts that hold no separator and splitting again gives back the parts. */
  lemma {:induction false} SplitJoin(parts: seq<string>, sep: char)
    requires |parts| >= 1
    requires forall i :: 0 <= i < |parts| ==> sep !in parts[i]
    ensures Split(Join(parts, sep), sep) == parts
    decreases |parts|
  {
    if |parts| == 1 {
      assert IndexOfChar(parts[0], sep, 0).None?;
    } else {
      assert Join(parts, sep) == parts[0] + [sep] + Join(parts[1..], sep);
      SplitFirst(parts[0], Join(parts[1..], sep), sep);
      SplitJoin(parts[1..], sep);
      assert parts == [parts[0]] + parts[1..];
    }
  }

  /** The first two fields of a split and the re-joined rest rebuild the string. */
  lemma SplitHead(s: string, sep: char)
    requires |Split(s, sep)| >= 2
    ensures var parts := Split(s, sep);
            s == parts[0] + [sep] + Join(parts[1..], sep)
  {
    var parts := Split(s, sep);
    JoinSplit(s, sep);
  }

  /** With at least three fields, the first two and the re-joined rest rebuild the string. */
  lemma SplitTwoHeads(s: string, sep: char)
    requires |Split(s, sep)| >= 3
    ensures var parts := Split(s, sep);
            s == parts[0] + [sep] + parts[1] + [sep] + Join(parts[2..], sep)
  {
    var parts := Split(s, sep);
    JoinSplit(s, sep);
    assert parts[1..][1..] == parts[2..];
  }

  /** Two separator-free fields around one separator split back into those two fields. */
  lemma SplitPair(a: string, b: string, sep: char)
    requires sep !in a && sep !in b
    ensures Split(a + [sep] + b, sep) == [a, b]
  {
    assert Join([a, b], sep) == a + [sep] + b;
    SplitJoin([a, b], sep);
  }

  /** The first separator of `s` is at `k` when `s[k]` is one and no earlier character is. */
  lemma FirstSeparator(s: string, sep: char, k: nat)
    requires k < |s| && s[k] == sep
    requires forall j :: 0 <= j < k ==> s[j] != sep
    ensures IndexOfChar(s, sep, 0) == Some(k)
  {
    var r := IndexOfChar(s, sep, 0);
    assert r.Some? && r.value <= k;
  }

  /** Splitting two strings glued by one separator splits each of them. */
  lemma {:induction false} SplitConcat(a: string, b: string, sep: char)
    ensures Split(a + [sep] + b, sep) == Split(a, sep) + Split(b, sep)
    decreases |a|
  {
    match IndexOfChar(a, sep, 0)
    case None =>
      SplitFirst(a, b, sep);
      SplitWhole(a, sep);
    case Some(k) =>
      var head, rest := a[..k], a[k + 1..];
      assert sep !in head;
      assert a == head + [sep] + rest;
      assert a + [sep] + b == head + [sep] + (rest + [sep] + b);
      SplitFirst(head, rest + [sep] + b, sep);
      SplitFirst(head, rest, sep);
      SplitConcat(rest, b, sep);
  }

  /** A separator-free field before a separator is split off first. */
  lemma SplitFirst(a: string, b: string, sep: char)
    requires sep !in a
    ensures Split(a + [sep] + b, sep) == [a] + Split(b, sep)
  {
    var s := a + [sep] + b;
    FirstSeparator(s, sep, |a|);
    assert s[..|a|] == a && s[|a| + 1..] == b;
  }

  /** A separator-free string is its own only field. */
  lemma SplitWhole(a: string, sep: char)
    requires sep !in a
    ensures Split(a, sep) == [a]
  {
    assert IndexOfChar(a, sep, 0).None?;
  }

  /** A suffix of a suffix is a suffix. */
  lemma SuffixOfSuffix(s: string, head: string, end: string)
    requires |head + end| <= |s| && s[|s| - |head + end|..] == head + end
    ensures |end| <= |s| && s[|s| - |end|..] == end
  {
    assert s[|s| - |end|..] == (head + end)[|head|..];
  }

  // ---------------------------------------------------------------------------
  // ASCII digits and decimal rendering
  // ---------------------------------------------------------------------------

  predicate IsDigit(c: char) { '0' <= c <= '9' }

  predicate AllDigits(s: string) {
    forall i :: 0 <= i < |s| ==> IsDigit(s[i])
  }

  function DigitValue(c: char): nat
    requires IsDigit(c)
  {
    (c as int) - ('0' as int)
  }

  function DigitChar(d: nat): (c: char)
    requires d < 10
    ensures IsDigit(c) && DigitValue(c) == d
  {
    (('0' as int) + d) as char
  }

  /** The value of a string of decimal digits (the empty string has value 0). */
  function DigitsValue(s: string): nat
    requires AllDigits(s)
  {
    if s == [] then 0 else 10 * DigitsValue(s[..|s| - 1]) + DigitValue(s[|s| - 1])
  }

  /** The longest prefix of `s` made of ASCII digits. */
  function LeadingDigits(s: string): (r: string)
    ensures AllDigits(r) && |r| <= |s| && r == s[..|r|]
    ensures |r| == |s| || !IsDigit(s[|r|])
  {
    if s == [] || !IsDigit(s[0]) then "" else [s[0]] + LeadingDigits(s[1..])
  }

  /** Decimal rendering of a natural number, no leading zeros (`String(n)`). */
  function NatToString(n: nat): (r: string)
    ensures r != [] && AllDigits(r)
    ensures r[0] == '0' ==> n == 0 && r == "0"
  {
    if n < 10 then [DigitChar(n)] else NatToString(n / 10) + [DigitChar(n % 10)]
  }

  /** Decimal rendering of an integer, with a leading `-` when negative. */
  function IntToString(n: int): string
  {
    if n < 0 then "-" + NatToString(-n) else NatToString(n)
  }

  /** Reading back the rendering of a number gives the number. */
  lemma {:induction false} NatToStringValue(n: nat)
    ensures DigitsValue(NatToString(n)) == n
    decreases n
  {
    if n >= 10 {
      var r := NatToString(n);
      NatToStringValue(n / 10);
      assert r[..|r| - 1] == NatToString(n / 10);
    }
  }

  lemma {:induction false} LeadingDigitsOfDigits(a: string, b: string)
    requires AllDigits(a)
    requires b == [] || !IsDigit(b[0])
    ensures LeadingDigits(a + b) == a
    decreases |a|
  {
    if a != [] {
      assert (a + b)[1..] == a[1..] + b;
      LeadingDigitsOfDigits(a[1..], b);
    } else {
      assert a + b == b;
    }
  }

  // ---------------------------------------------------------------------------
  // Case mapping
  // ---------------------------------------------------------------------------

  /**
   * `toUpperCase` restricted to the characters whose upper case is a single
   * ASCII letter: a-z, dotless i (U+0131 -> I) and long s (U+017F -> S).
   * Every other character is left as it is.
   */
  function UpperChar(c: char): char {
    if 'a' <= c <= 'z' then ((c as int) - 32) as char
    else if c == '\U{131}' then 'I'
    else if c == '\U{17F}' then 'S'
    else c
  }

  function ToUpper(s: string): (r: string)
    ensures |r| == |s|
    ensures forall i :: 0 <= i < |s| ==> r[i] == UpperChar(s[i])
  {
    if s == [] then "" else [UpperChar(s[0])] + ToUpper(s[1..])
  }

  /** Text in capitals A-Z is its own upper case. */
  lemma CapitalsStayUpper(s: string)
    requires forall i :: 0 <= i < |s| ==> 'A' <= s[i] <= 'Z'
    ensures ToUpper(s) == s
  {
    forall i | 0 <= i < |s|
      ensures ToUpper(s)[i] == s[i]
    {
      assert 'A' <= s[i] <= 'Z';
    }
  }

  function LowerChar(c: char): char {
    if 'A' <= c <= 'Z' then ((c as int) + 32) as char else c
  }

  /** `toLowerCase` on ASCII text. */
  function ToLower(s: string): (r: string)
    ensures |r| == |s|
    ensures forall i :: 0 <= i < |s| ==> r[i] == LowerChar(s[i])
  {
    if s == [] then "" else [LowerChar(s[0])] + ToLower(s[1..])
  }
}
