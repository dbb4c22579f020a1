/**
  * The handful of Python string operations the crawler and the S3 helper rely on:
  * str.upper, str.strip, str.split/str.join on one separator character,
  * regex removal of a literal pattern, str.replace of one character, str(int),
  * suffix tests and str.splitlines.
  */
module Text {

  // ---------------------------------------------------------------------------
  // Characters

  predicate IsLowerAscii(c: char) { 'a' <= c <= 'z' }

  predicate IsDigit(c: char) { '0' <= c <= '9' }

  /** Python's str.isspace(), by code point. */
  predicate IsSpace(c: char) {
    var n := c as int;
    n == 32 || 9 <= n <= 13 || 28 <= n <= 31 || n == 0x85 || n == 0xA0 || n == 0x1680
    || 0x2000 <= n <= 0x200A || n == 0x2028 || n == 0x2029 || n == 0x202F || n == 0x205F
    || n == 0x3000
  }

  /** The line boundaries recognised by Python's str.splitlines(). */
  predicate IsLineBreak(c: char) {
    var n := c as int;
    10 <= n <= 13 || 28 <= n <= 30 || n == 0x85 || n == 0x2028 || n == 0x2029
  }

  function UpperChar(c: char): (u: char)
    ensures !IsLowerAscii(u)
    ensures IsLowerAscii(c) ==> u as int == c as int - 32
    ensures !IsLowerAscii(c) ==> u == c
  {
    if IsLowerAscii(c) then (c as int - 32) as char else c
  }

  /** str.upper(), restricted to the ASCII letters. */
  function Upper(s: string): (r: string)
    ensures |r| == |s|
    ensures forall k :: 0 <= k < |r| ==> !IsLowerAscii(r[k])
    ensures forall k :: 0 <= k < |s| ==>
              (IsLowerAscii(s[k]) ==> r[k] as int == s[k] as int - 32)
              && (!IsLowerAscii(s[k]) ==> r[k] == s[k])
  {
    seq(|s|, k requires 0 <= k < |s| => UpperChar(s[k]))
  }

  /** Text made only of characters of text without lower-case ASCII letters has none. */
  lemma NoLowerInherited(s: string, r: string)
    requires forall k :: 0 <= k < |s| ==> !IsLowerAscii(s[k])
    requires forall k :: 0 <= k < |r| ==> r[k] in s
    ensures forall k :: 0 <= k < |r| ==> !IsLowerAscii(r[k])
  {
    forall k | 0 <= k < |r| ensures !IsLowerAscii(r[k]) {
      var j :| 0 <= j < |s| && s[j] == r[k];
    }
  }

  /** Upper-casing twice is upper-casing once. */
  lemma UpperIdempotent(s: string)
    ensures Upper(Upper(s)) == Upper(s)
  {
    assert forall k :: 0 <= k < |s| ==> UpperChar(Upper(s)[k]) == Upper(s)[k];
  }

  lemma UpperAppend(a: string, b: string)
    ensures Upper(a + b) == Upper(a) + Upper(b)
  {
  }

  // ---------------------------------------------------------------------------
  // Substrings

  /** p occurs in s starting at index i. */
  predicate MatchAt(s: string, p: string, i: int) {
    0 <= i && i + |p| <= |s| && s[i..i + |p|] == p
  }

  predicate Contains(s: string, p: string) {
    exists i :: 0 <= i <= |s| && MatchAt(s, p, i)
  }

  predicate EndsWith(s: string, suffix: string) {
    |suffix| <= |s| && s[|s| - |suffix|..] == suffix
  }

  /** The slice s[-k:] for k > 0: the last k characters, or all of s when it is shorter. */
  function Tail(s: string, k: nat): (r: string)
    requires k > 0
    ensures |r| == if |s| <= k then |s| else k
    ensures r == s[|s| - |r|..]
  {
    if |s| <= k then s else s[|s| - k..]
  }

  lemma TailIsSuffix(s: string, suffix: string)
    requires suffix != []
    ensures Tail(s, |suffix|) == suffix <==> EndsWith(s, suffix)
  {
  }

  /** The slice s[lo:hi] for 0 <= lo <= hi, clamped to the string as Python clamps it. */
  function Slice(s: string, lo: nat, hi: nat): (r: string)
    requires lo <= hi
    ensures |r| == if |s| <= lo then 0 else if |s| <= hi then |s| - lo else hi - lo
    ensures forall k :: 0 <= k < |r| ==> r[k] == s[lo + k]
  {
    if |s| <= lo then [] else if |s| <= hi then s[lo..] else s[lo..hi]
  }

  /**
    * re.sub(p, "", s) for a pattern p without special characters: every match found by a
    * left-to-right scan is removed, and the scan resumes after the removed text.
    */
  function RemoveAll(s: string, p: string): (r: string)
    requires p != []
    ensures |r| <= |s|
    ensures forall k :: 0 <= k < |r| ==> r[k] in s
    decreases |s|
  {
    if |s| < |p| then s
    else if s[..|p|] == p then
      var r := RemoveAll(s[|p|..], p);
      assert forall c :: c in s[|p|..] ==> c in s;
      r
    else
      var r := RemoveAll(s[1..], p);
      assert forall c :: c in s[1..] ==> c in s;
      [s[0]] + r
  }

  /** Text without the pattern is left as it is. */
  lemma {:induction false} RemoveAllNoMatch(s: string, p: string)
    requires p != [] && !Contains(s, p)
    ensures RemoveAll(s, p) == s
    decreases |s|
  {
    if |s| >= |p| {
      assert !MatchAt(s, p, 0);
      assert s[0..0 + |p|] == s[..|p|];
      forall i | MatchAt(s[1..], p, i)
        ensures false
      {
        assert s[i + 1..i + 1 + |p|] == s[1..][i..i + |p|];
        assert MatchAt(s, p, i + 1);
      }
      RemoveAllNoMatch(s[1..], p);
    }
  }

  /** A pattern none of whose proper suffixes is also a prefix of it. */
  predicate BorderFree(p: string) {
    forall k :: 0 < k < |p| ==> p[k..] != p[..|p| - k]
  }

  /** A border-free pattern cannot start inside s and end inside the copy of it appended to s. */
  lemma BorderStraddle(s: string, p: string)
    requires BorderFree(p) && 0 < |s| < |p|
    ensures (s + p)[..|p|] != p
  {
    var w := (s + p)[..|p|];
    assert w[|s|..] == p[..|p| - |s|];
    assert p[|s|..] != p[..|p| - |s|];
  }

  /** A trailing occurrence of a border-free pattern is removed and nothing else changes. */
  lemma {:induction false} RemoveAllTrailing(s: string, p: string)
    requires p != [] && BorderFree(p)
    ensures RemoveAll(s + p, p) == RemoveAll(s, p)
    decreases |s|
  {
    var t := s + p;
    if t[..|p|] == p {
      if |s| == 0 {
        assert t[|p|..] == [];
      } else if |s| < |p| {
        BorderStraddle(s, p);
        assert false;
      } else {
        assert s[..|p|] == p;
        assert t[|p|..] == s[|p|..] + p;
        RemoveAllTrailing(s[|p|..], p);
      }
    } else {
      if |s| == 0 {
        assert false;
      }
      assert t[1..] == s[1..] + p;
      RemoveAllTrailing(s[1..], p);
      if |s| >= |p| {
        assert s[..|p|] == t[..|p|];
      } else {
        assert RemoveAll(s[1..], p) == s[1..];
        assert [s[0]] + s[1..] == s;
      }
    }
  }

  /**
    * Text q appended to s survives the removal of p unchanged when no occurrence of p
    * overlaps q.
    */
  ghost predicate NoMatchTouching(s: string, q: string, p: string) {
    forall j :: |s| < j + |p| ==> !MatchAt(s + q, p, j)
  }

  /** Dropping a prefix of s keeps q clear of occurrences of p. */
  lemma NoMatchTouchingDrop(s: string, q: string, p: string, d: nat)
    requires d <= |s| && NoMatchTouching(s, q, p)
    ensures NoMatchTouching(s[d..], q, p)
  {
    var t := s + q;
    forall j | |s[d..]| < j + |p| && MatchAt(s[d..] + q, p, j)
      ensures false
    {
      assert (s[d..] + q)[j..j + |p|] == t[j + d..j + d + |p|];
      assert MatchAt(t, p, j + d);
    }
  }

  lemma {:induction false} RemoveAllAppendUntouched(s: string, q: string, p: string)
    requires p != [] && NoMatchTouching(s, q, p)
    ensures RemoveAll(s + q, p) == RemoveAll(s, p) + q
    decreases |s|
  {
    var t := s + q;
    if |s| == 0 {
      assert t == q;
      RemoveAllNoMatch(q, p);
      assert !Contains(q, p);
      assert RemoveAll(q, p) == q;
    } else if |t| < |p| {
      assert |s| < |p|;
    } else if t[..|p|] == p {
      assert t[0..0 + |p|] == t[..|p|];
      assert MatchAt(t, p, 0);
      assert |s| >= |p|;
      assert s[..|p|] == p;
      assert t[|p|..] == s[|p|..] + q;
      NoMatchTouchingDrop(s, q, p, |p|);
      RemoveAllAppendUntouched(s[|p|..], q, p);
    } else {
      assert t[1..] == s[1..] + q;
      NoMatchTouchingDrop(s, q, p, 1);
      RemoveAllAppendUntouched(s[1..], q, p);
      if |s| >= |p| {
        assert s[..|p|] == t[..|p|];
      } else {
        assert RemoveAll(s[1..], p) == s[1..];
        assert [s[0]] + s[1..] == s;
      }
    }
  }

  // ---------------------------------------------------------------------------
  // Stripping whitespace

  function StripLeft(s: string): (r: string)
    ensures |r| <= |s| && r == s[|s| - |r|..]
    ensures r == [] || !IsSpace(r[0])
    ensures forall k :: 0 <= k < |s| - |r| ==> IsSpace(s[k])
  {
    if s != [] && IsSpace(s[0]) then
      var r := StripLeft(s[1..]);
      assert forall k :: 1 <= k < |s| ==> s[k] == s[1..][k - 1];
      r
    else s
  }

  function StripRight(s: string): (r: string)
    ensures |r| <= |s| && r == s[..|r|]
    ensures r == [] || !IsSpace(r[|r| - 1])
    ensures forall k :: |r| <= k < |s| ==> IsSpace(s[k])
  {
    if s != [] && IsSpace(s[|s| - 1]) then
      var r := StripRight(s[..|s| - 1]);
      assert forall k :: 0 <= k < |s| - 1 ==> s[k] == s[..|s| - 1][k];
      r
    else s
  }

  /** r is s[i..i + |r|] and everything of s around it is whitespace. */
  predicate StrippedAt(s: string, r: string, i: int) {
    0 <= i && i + |r| <= |s| && r == s[i..i + |r|]
    && (forall k :: 0 <= k < i ==> IsSpace(s[k]))
    && (forall k :: i + |r| <= k < |s| ==> IsSpace(s[k]))
  }

  /** Stripping the right of a suffix of s leaves a slice of s. */
  lemma StripRightOfSuffixSlice(s: string, i: nat)
    requires i <= |s|
    ensures i + |StripRight(s[i..])| <= |s| && StripRight(s[i..]) == s[i..i + |StripRight(s[i..])|]
  {
    var l := s[i..];
    var r := StripRight(l);
    assert r == l[..|r|];
  }

  /** What stripping the right of a suffix of s drops is whitespace. */
  lemma StripRightOfSuffixSpace(s: string, i: nat)
    requires i <= |s|
    ensures forall k :: i + |StripRight(s[i..])| <= k < |s| ==> IsSpace(s[k])
  {
    var l := s[i..];
    var r := StripRight(l);
    forall k | i + |r| <= k < |s| ensures IsSpace(s[k]) {
      assert s[k] == l[k - i];
    }
  }

  /** Stripping the left and then the right leaves the middle of s, whitespace around it. */
  lemma StripLeftRight(s: string)
    ensures StrippedAt(s, StripRight(StripLeft(s)), |s| - |StripLeft(s)|)
  {
    var i := |s| - |StripLeft(s)|;
    assert StripLeft(s) == s[i..];
    StripRightOfSuffixSlice(s, i);
    StripRightOfSuffixSpace(s, i);
  }

  /** str.strip(): the text between the leading and the trailing whitespace. */
  function Strip(s: string): (r: string)
    ensures r == [] || (!IsSpace(r[0]) && !IsSpace(r[|r| - 1]))
    ensures exists i :: StrippedAt(s, r, i)
    ensures forall k :: 0 <= k < |r| ==> r[k] in s
  {
    StripLeftRight(s);
    var r := StripRight(StripLeft(s));
    SliceMembers(s, r, |s| - |StripLeft(s)|);
    r
  }

  /** Every character of a slice of s occurs in s. */
  lemma SliceMembers(s: string, r: string, i: int)
    requires 0 <= i && i + |r| <= |s| && r == s[i..i + |r|]
    ensures forall k :: 0 <= k < |r| ==> r[k] in s
  {
    forall k | 0 <= k < |r| ensures r[k] in s {
      assert r[k] == s[i + k];
    }
  }

  /** Text without leading or trailing whitespace is its own strip. */
  lemma StripOfStripped(s: string)
    requires s == [] || (!IsSpace(s[0]) && !IsSpace(s[|s| - 1]))
    ensures Strip(s) == s
  {
  }

  // ---------------------------------------------------------------------------
  // Replacing, splitting and joining on one character

  /** str.replace(a, b) for single characters a and b. */
  function ReplaceChar(s: string, a: char, b: char): (r: string)
    ensures |r| == |s|
    ensures forall k :: 0 <= k < |s| ==> r[k] == (if s[k] == a then b else s[k])
  {
    seq(|s|, k requires 0 <= k < |s| => if s[k] == a then b else s[k])
  }

  /**
    * str.split(sep) for a one-character separator: the pieces between separators,
    * one more piece than there are separators, empty pieces kept.
    */
  function Split(s: string, sep: char): (parts: seq<string>)
    ensures |parts| >= 1
    ensures forall k :: 0 <= k < |parts| ==> sep !in parts[k]
    ensures |parts[0]| <= |s| && parts[0] == s[..|parts[0]|]
    ensures |parts[0]| < |s| ==> s[|parts[0]|] == sep
  {
    if s == [] then [[]]
    else
      var rest := Split(s[1..], sep);
      if s[0] == sep then [[]] + rest
      else
        var parts := [[s[0]] + rest[0]] + rest[1..];
        assert forall k :: 1 <= k < |parts| ==> parts[k] == rest[k];
        parts
  }

  /** sep.join(parts). */
  function Join(parts: seq<string>, sep: char): string {
    if parts == [] then []
    else if |parts| == 1 then parts[0]
    else parts[0] + [sep] + Join(parts[1..], sep)
  }

  /** Joining the pieces of a split gives back the original text. */
  lemma {:induction false} JoinSplit(s: string, sep: char)
    ensures Join(Split(s, sep), sep) == s
  {
    if s != [] {
      var rest := Split(s[1..], sep);
      JoinSplit(s[1..], sep);
      if s[0] == sep {
        assert Split(s, sep)[1..] == rest;
      } else if |rest| == 1 {
        assert [s[0]] + rest[0] == s;
      } else {
        var parts := Split(s, sep);
        assert parts[1..] == rest[1..];
        assert Join(rest, sep) == rest[0] + [sep] + Join(rest[1..], sep);
      }
    }
  }

  lemma {:induction false} SplitSepFree(a: string, sep: char)
    requires sep !in a
    ensures Split(a, sep) == [a]
  {
    if a != [] {
      SplitSepFree(a[1..], sep);
      assert [a[0]] + a[1..] == a;
    }
  }

  lemma {:induction false} SplitAfterPiece(a: string, t: string, sep: char)
    requires sep !in a
    ensures Split(a + [sep] + t, sep) == [a] + Split(t, sep)
  {
    if a == [] {
      assert (a + [sep] + t)[1..] == t;
    } else {
      assert (a + [sep] + t)[1..] == a[1..] + [sep] + t;
      assert (a + [sep] + t)[0] == a[0] != sep;
      SplitAfterPiece(a[1..], t, sep);
      assert [a[0]] + a[1..] == a;
    }
  }

  /** Splitting a join of separator-free pieces gives back the pieces. */
  lemma {:induction false} SplitJoin(parts: seq<string>, sep: char)
    requires |parts| >= 1
    requires forall k :: 0 <= k < |parts| ==> sep !in parts[k]
    ensures Split(Join(parts, sep), sep) == parts
  {
    if |parts| == 1 {
      SplitSepFree(parts[0], sep);
    } else {
      SplitJoin(parts[1..], sep);
      SplitAfterPiece(parts[0], Join(parts[1..], sep), sep);
      assert [parts[0]] + parts[1..] == parts;
    }
  }

  /** s.split(sep)[0]: the text before the first separator, or all of it. */
  function Before(s: string, sep: char): (r: string)
    ensures sep !in r
    ensures |r| <= |s| && r == s[..|r|]
    ensures |r| < |s| ==> s[|r|] == sep
  {
    Split(s, sep)[0]
  }

  /** The first index of c in s, or |s| when c does not occur. */
  function IndexOf(s: string, c: char): (i: nat)
    ensures i <= |s|
    ensures i < |s| ==> s[i] == c
    ensures forall k :: 0 <= k < i ==> s[k] != c
  {
    if s == [] then 0 else if s[0] == c then 0 else 1 + IndexOf(s[1..], c)
  }

  // ---------------------------------------------------------------------------
  // str(int) and its inverse

  function DigitChar(d: nat): (c: char)
    requires d < 10
    ensures IsDigit(c)
  {
    "0123456789"[d]
  }

  function DigitValue(c: char): nat
    requires IsDigit(c)
  {
    c as int - '0' as int
  }

  /** str(n) for n >= 0: decimal digits, no leading zero. */
  function NatToString(n: nat): (s: string)
    ensures |s| >= 1
    ensures forall k :: 0 <= k < |s| ==> IsDigit(s[k])
    ensures s[0] == '0' ==> n == 0
  {
    if n < 10 then [DigitChar(n)] else NatToString(n / 10) + [DigitChar(n % 10)]
  }

  /** str(i): a minus sign for negative numbers, then the digits. */
  function IntToString(i: int): (s: string)
    ensures |s| >= 1
    ensures forall k :: 1 <= k < |s| ==> IsDigit(s[k])
    ensures s[0] == '-' <==> i < 0
    ensures i >= 0 ==> IsDigit(s[0])
    ensures i >= 0 ==> DecimalValue(s) == i
    ensures i < 0 ==> DecimalValue(s[1..]) == -i
  {
    if i < 0 then
      DecimalRoundTrip(-i);
      var s := "-" + NatToString(-i);
      assert s[1..] == NatToString(-i);
      s
    else
      DecimalRoundTrip(i);
      NatToString(i)
  }

  /** The number a string of decimal digits denotes. */
  function DecimalValue(s: string): nat
    requires forall k :: 0 <= k < |s| ==> IsDigit(s[k])
  {
    if s == [] then 0 else DecimalValue(s[..|s| - 1]) * 10 + DigitValue(s[|s| - 1])
  }

  lemma {:induction false} DecimalRoundTrip(n: nat)
    ensures DecimalValue(NatToString(n)) == n
  {
    if n >= 10 {
      var s := NatToString(n);
      assert s[..|s| - 1] == NatToString(n / 10);
      DecimalRoundTrip(n / 10);
    }
  }

  /** Distinct numbers print differently. */
  lemma NatToStringInjective(m: nat, n: nat)
    requires NatToString(m) == NatToString(n)
    ensures m == n
  {
    DecimalRoundTrip(m);
    DecimalRoundTrip(n);
  }

  // ---------------------------------------------------------------------------
  // str.splitlines()

  function FirstBreak(s: string): (i: nat)
    ensures i <= |s|
    ensures i < |s| ==> IsLineBreak(s[i])
    ensures forall k :: 0 <= k < i ==> !IsLineBreak(s[k])
  {
    if s == [] || IsLineBreak(s[0]) then 0 else 1 + FirstBreak(s[1..])
  }

  predicate BreakFree(s: string) {
    forall k :: 0 <= k < |s| ==> !IsLineBreak(s[k])
  }

  /** Where the text after the boundary at i starts: "\r\n" is one boundary. */
  function BoundaryEnd(s: string, i: nat): (next: nat)
    requires i < |s|
    ensures i < next <= |s|
    ensures s[i] != '\r' ==> next == i + 1
  {
    if s[i] == '\r' && i + 1 < |s| && s[i + 1] == '\n' then i + 2 else i + 1
  }

  /**
    * str.splitlines(): the lines between boundaries, "\r\n" counting as one boundary,
    * and no empty line after a final boundary.
    */
  function SplitLines(s: string): (lines: seq<string>)
    ensures forall k :: 0 <= k < |lines| ==> BreakFree(lines[k])
    ensures |lines| <= |s|
    decreases |s|
  {
    if s == [] then []
    else
      var i := FirstBreak(s);
      if i == |s| then [s]
      else
        [s[..i]] + SplitLines(s[BoundaryEnd(s, i)..])
  }

  /** Text without a boundary is one line; the empty text has none. */
  lemma SplitLinesBreakFree(s: string)
    requires BreakFree(s)
    ensures SplitLines(s) == if s == [] then [] else [s]
  {
    if s != [] {
      assert FirstBreak(s) == |s|;
    }
  }

  /**
    * A line, a boundary other than "\r\n" and the rest: the line, then the lines of the
    * rest. A "\r" counts alone when no "\n" follows it.
    */
  lemma SplitLinesAtBreak(line: string, c: char, rest: string)
    requires BreakFree(line) && IsLineBreak(c)
    requires c == '\r' ==> rest == [] || rest[0] != '\n'
    ensures SplitLines(line + [c] + rest) == [line] + SplitLines(rest)
  {
    var s := line + [c] + rest;
    assert FirstBreak(s) == |line| by {
      FirstBreakAt(s, |line|);
    }
    assert s[..|line|] == line;
    assert s[|line| + 1..] == rest;
    SplitLinesStep(s);
  }

  /** A line, "\r\n" and the rest: the pair is one boundary. */
  lemma SplitLinesAtCrLf(line: string, rest: string)
    requires BreakFree(line)
    ensures SplitLines(line + "\r\n" + rest) == [line] + SplitLines(rest)
  {
    var s := line + "\r\n" + rest;
    assert FirstBreak(s) == |line| by {
      FirstBreakAt(s, |line|);
    }
    assert s[..|line|] == line;
    assert BoundaryEnd(s, |line|) == |line| + 2;
    assert s[|line| + 2..] == rest;
    SplitLinesStep(s);
  }

  /** The first boundary of s is at i when s[i] is one and nothing before it is. */
  lemma {:induction false} FirstBreakAt(s: string, i: nat)
    requires i < |s| && IsLineBreak(s[i])
    requires forall k :: 0 <= k < i ==> !IsLineBreak(s[k])
    ensures FirstBreak(s) == i
    decreases i
  {
    if i > 0 {
      FirstBreakAt(s[1..], i - 1);
    }
  }

  /** Lines written out, each followed by "\n". */
  function Unlines(lines: seq<string>): string {
    if lines == [] then [] else lines[0] + "\n" + Unlines(lines[1..])
  }

  /** Lines without boundaries, each ended by "\n", split back into the same lines. */
  lemma {:induction false} SplitLinesUnlines(lines: seq<string>)
    requires forall k :: 0 <= k < |lines| ==> BreakFree(lines[k])
    ensures SplitLines(Unlines(lines)) == lines
  {
    if lines != [] {
      var rest := lines[1..];
      UnlinesHead(lines);
      SplitLinesAtBreak(lines[0], '\n', Unlines(rest));
      SplitLinesUnlines(rest);
      assert [lines[0]] + rest == lines;
    }
  }

  /** Lines ended by "\n" followed by an unterminated last line: that line is kept. */
  lemma {:induction false} SplitLinesLast(lines: seq<string>, last: string)
    requires forall k :: 0 <= k < |lines| ==> BreakFree(lines[k])
    requires BreakFree(last) && last != []
    ensures SplitLines(Unlines(lines) + last) == lines + [last]
  {
    if lines == [] {
      assert Unlines(lines) + last == last;
      SplitLinesBreakFree(last);
    } else {
      var rest := lines[1..];
      UnlinesFirst(lines, last);
      SplitLinesAtBreak(lines[0], '\n', Unlines(rest) + last);
      SplitLinesLast(rest, last);
      FirstThenRest(lines, last);
    }
  }

  /** Text after written-out lines: the first line, its "\n", then the other lines and the text. */
  lemma UnlinesFirst(lines: seq<string>, t: string)
    requires lines != []
    ensures Unlines(lines) + t == lines[0] + ['\n'] + (Unlines(lines[1..]) + t)
  {
    UnlinesHead(lines);
  }

  /** Written-out lines: the first line, its "\n", then the other lines. */
  lemma UnlinesHead(lines: seq<string>)
    requires lines != []
    ensures Unlines(lines) == lines[0] + ['\n'] + Unlines(lines[1..])
  {
  }

  /** A nonempty sequence with an element appended is its head, then its tail with the element. */
  lemma FirstThenRest<T>(s: seq<T>, x: T)
    requires s != []
    ensures [s[0]] + (s[1..] + [x]) == s + [x]
  {
    assert [s[0]] + s[1..] == s;
  }

  /** splitlines takes the text up to the first boundary and goes on after the boundary. */
  lemma SplitLinesStep(s: string)
    requires FirstBreak(s) < |s|
    ensures SplitLines(s) == [s[..FirstBreak(s)]] + SplitLines(s[BoundaryEnd(s, FirstBreak(s))..])
  {
  }

  /** At a first boundary that is a lone "\n", splitlines goes on right after it. */
  lemma SplitLinesAtNewline(s: string, i: nat)
    requires i == FirstBreak(s) && i < |s| && s[i] == '\n'
    ensures SplitLines(s) == [s[..i]] + SplitLines(s[i + 1..])
  {
    SplitLinesStep(s);
    assert BoundaryEnd(s, i) == i + 1;
  }

  /** Writing out a first line and then the others. */
  lemma UnlinesCons(line: string, lines: seq<string>)
    ensures Unlines([line] + lines) == line + "\n" + Unlines(lines)
  {
    assert ([line] + lines)[1..] == lines;
  }

  /** Text around a "\n": the part before it, the "\n" and the part after it. */
  lemma AroundNewline(s: string, i: nat)
    requires i < |s| && s[i] == '\n'
    ensures s == s[..i] + "\n" + s[i + 1..]
  {
    assert s == s[..i + 1] + s[i + 1..];
    assert s[..i + 1] == s[..i] + "\n";
  }

  /** Text whose only boundaries are "\n" and which ends in one is its lines written out. */
  lemma {:induction false} UnlinesSplitLines(s: string)
    requires forall k :: 0 <= k < |s| && IsLineBreak(s[k]) ==> s[k] == '\n'
    requires s == [] || s[|s| - 1] == '\n'
    ensures Unlines(SplitLines(s)) == s
    decreases |s|
  {
    if s != [] {
      var i := FirstBreak(s);
      assert i < |s| by {
        if i == |s| {
          assert IsLineBreak(s[|s| - 1]);
        }
      }
      var rest := s[i + 1..];
      forall k | 0 <= k < |rest| && IsLineBreak(rest[k]) ensures rest[k] == '\n' {
        assert rest[k] == s[i + 1 + k];
      }
      assert rest == [] || rest[|rest| - 1] == s[|s| - 1];
      UnlinesSplitLines(rest);
      SplitLinesAtNewline(s, i);
      UnlinesCons(s[..i], SplitLines(rest));
      AroundNewline(s, i);
    }
  }
}
