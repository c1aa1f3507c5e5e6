/**
  The string primitives the scoring core relies on, restricted to ASCII:
  lower-casing, the substring test `sub in s`, `strip()`, `split()` word
  counting, `isdigit()` and splitting on newline characters.
 */
module Text {

  /** The ASCII characters Python's `str.isspace` accepts, listed one by one. */
  const AsciiWhitespace: string := " \t\n\U{B}\U{C}\r\U{1C}\U{1D}\U{1E}\U{1F}"

  /** Python's `str.isspace` on ASCII: space, the controls 9..13 and the separators 28..31. */
  predicate IsSpace(c: char): (b: bool)
    ensures b <==> c in AsciiWhitespace
  {
    c == ' ' || ('\t' <= c <= '\r') || ('\U{1C}' <= c <= '\U{1F}')
  }

  predicate IsUpper(c: char) {
    'A' <= c <= 'Z'
  }

  /** `str.isdigit` on ASCII: one of the ten decimal digits. */
  predicate IsDigit(c: char): (b: bool)
    ensures b <==> c in "0123456789"
  {
    '0' <= c <= '9'
  }

  function LowerChar(c: char): (r: char)
    ensures !IsUpper(r)
    ensures IsUpper(c) ==> r as int == c as int + 32
    ensures !IsUpper(c) ==> r == c
  {
    if IsUpper(c) then (c as int + 32) as char else c
  }

  /** `str.lower()` on ASCII text. */
  function Lower(s: string): (r: string)
    ensures |r| == |s|
    ensures forall i :: 0 <= i < |s| ==> r[i] == LowerChar(s[i])
  {
    seq(|s|, i requires 0 <= i < |s| => LowerChar(s[i]))
  }

  /** No character of `s` is an upper-case ASCII letter. */
  predicate IsLowerCase(s: string) {
    forall c :: c in s ==> !IsUpper(c)
  }

  /** Lower-casing twice is lower-casing once. */
  lemma LowerIdempotent(s: string)
    ensures Lower(Lower(s)) == Lower(s)
  {
    assert forall i :: 0 <= i < |s| ==> Lower(Lower(s))[i] == Lower(s)[i];
  }

  /** Lower-casing distributes over concatenation. */
  lemma LowerAppend(a: string, b: string)
    ensures Lower(a + b) == Lower(a) + Lower(b)
  {
    assert forall i :: 0 <= i < |a + b| ==> Lower(a + b)[i] == (Lower(a) + Lower(b))[i];
  }

  /** Python's `sub in s`: `sub` occurs in `s` as a contiguous block. */
  predicate Contains(s: string, sub: string)
    decreases |s|
  {
    sub <= s || (s != [] && Contains(s[1..], sub))
  }

  /** A witness position shows that `sub` occurs. */
  lemma {:induction false} ContainsAt(s: string, sub: string, i: nat)
    requires i + |sub| <= |s| && s[i..i + |sub|] == sub
    ensures Contains(s, sub)
    decreases i
  {
    if i == 0 {
      assert sub <= s;
    } else {
      assert s[1..][i - 1..i - 1 + |sub|] == s[i..i + |sub|];
      ContainsAt(s[1..], sub, i - 1);
    }
  }

  /** An occurrence has a position. */
  lemma {:induction false} ContainsPosition(s: string, sub: string) returns (i: nat)
    requires Contains(s, sub)
    ensures i + |sub| <= |s| && s[i..i + |sub|] == sub
    decreases |s|
  {
    if sub <= s {
      i := 0;
    } else {
      var j := ContainsPosition(s[1..], sub);
      assert s[1..][j..j + |sub|] == s[j + 1..j + 1 + |sub|];
      i := j + 1;
    }
  }

  /** Every character of an occurring substring occurs in the text. */
  lemma ContainsChar(s: string, sub: string, k: nat)
    requires Contains(s, sub) && k < |sub|
    ensures sub[k] in s
  {
    var i := ContainsPosition(s, sub);
    assert s[i + k] == sub[k];
  }

  /** Extending the text on either side keeps every occurrence. */
  lemma ContainsExtend(s: string, sub: string, pre: string, post: string)
    requires Contains(s, sub)
    ensures Contains(pre + s + post, sub)
  {
    var i := ContainsPosition(s, sub);
    var t := pre + s + post;
    assert t[|pre| + i..|pre| + i + |sub|] == s[i..i + |sub|];
    ContainsAt(t, sub, |pre| + i);
  }

  /** The number of whitespace characters `s.lstrip()` removes. */
  function LeadingSpaces(s: string): (n: nat)
    ensures n <= |s|
    ensures forall j :: 0 <= j < n ==> IsSpace(s[j])
    ensures n < |s| ==> !IsSpace(s[n])
    decreases |s|
  {
    if s != [] && IsSpace(s[0]) then 1 + LeadingSpaces(s[1..]) else 0
  }

  /** The number of whitespace characters `s.rstrip()` removes. */
  function TrailingSpaces(s: string): (n: nat)
    ensures n <= |s|
    ensures forall j :: |s| - n <= j < |s| ==> IsSpace(s[j])
    ensures n < |s| ==> !IsSpace(s[|s| - 1 - n])
    decreases |s|
  {
    if s != [] && IsSpace(s[|s| - 1]) then 1 + TrailingSpaces(s[..|s| - 1]) else 0
  }

  /** `s.strip()`: drop leading and trailing whitespace. */
  function Strip(s: string): (r: string)
    ensures r == [] || (!IsSpace(r[0]) && !IsSpace(r[|r| - 1]))
    ensures exists a, b ::
      && 0 <= a <= b <= |s| && r == s[a..b]
      && (forall j :: 0 <= j < a ==> IsSpace(s[j]))
      && (forall j :: b <= j < |s| ==> IsSpace(s[j]))
  {
    var a := LeadingSpaces(s);
    var n := TrailingSpaces(s[a..]);
    SuffixTrailing(s, a, n);
    s[a..|s| - n]
  }

  /** Whitespace trailing the suffix `s[a..]` trails `s`, and so does the character before it. */
  lemma SuffixTrailing(s: string, a: nat, n: nat)
    requires a <= |s| && n <= |s| - a
    requires forall j :: |s| - a - n <= j < |s| - a ==> IsSpace(s[a..][j])
    requires n < |s| - a ==> !IsSpace(s[a..][|s| - a - 1 - n])
    ensures forall j :: |s| - n <= j < |s| ==> IsSpace(s[j])
    ensures n < |s| - a ==> !IsSpace(s[|s| - 1 - n])
  {
    var t := s[a..];
    forall j | |s| - n <= j < |s|
      ensures IsSpace(s[j])
    {
      assert s[j] == t[j - a];
    }
  }

  /** Every character of the stripped text comes from the text. */
  lemma StripChars(s: string)
    ensures forall c :: c in Strip(s) ==> c in s
  {
    var a, b :| 0 <= a <= b <= |s| && Strip(s) == s[a..b];
    assert forall j :: 0 <= j < b - a ==> s[a..b][j] == s[a + j];
  }

  /** A line strips to nothing exactly when every character of it is whitespace. */
  lemma StripEmpty(s: string)
    ensures Strip(s) == [] <==> forall j :: 0 <= j < |s| ==> IsSpace(s[j])
  {
    var a := LeadingSpaces(s);
    var t := s[a..];
    if a < |s| {
      assert t[0] == s[a];
      assert TrailingSpaces(t) < |t|;
    }
  }

  /** `len(s.split())`: the number of maximal runs of non-whitespace characters. */
  function WordCount(s: string): nat {
    WordsAfter(s, true)
  }

  /** Words of `s` when the character before it was whitespace (`afterSpace`) or not. */
  function WordsAfter(s: string, afterSpace: bool): (n: nat)
    ensures n <= |s|
    decreases |s|
  {
    if s == [] then 0
    else (if afterSpace && !IsSpace(s[0]) then 1 else 0) + WordsAfter(s[1..], IsSpace(s[0]))
  }

  /** The number of ASCII digits in `s`: `sum(c.isdigit() for c in s)`. */
  function DigitCount(s: string): (n: nat)
    ensures n <= |s|
    decreases |s|
  {
    if s == [] then 0 else (if IsDigit(s[0]) then 1 else 0) + DigitCount(s[1..])
  }

  /** Digits of a concatenation are the digits of the parts. */
  lemma {:induction false} DigitCountAppend(a: string, b: string)
    ensures DigitCount(a + b) == DigitCount(a) + DigitCount(b)
    decreases |a|
  {
    if a != [] {
      assert (a + b)[0] == a[0] && (a + b)[1..] == a[1..] + b;
      DigitCountAppend(a[1..], b);
    } else {
      assert a + b == b;
    }
  }

  /** `sep.join(parts)`. */
  function Join(parts: seq<string>, sep: string): string
    decreases |parts|
  {
    if parts == [] then ""
    else if |parts| == 1 then parts[0]
    else parts[0] + sep + Join(parts[1..], sep)
  }

  /** `re.split(r"\n", s)`: the pieces between newline characters (at least one piece). */
  function SplitLines(s: string): (lines: seq<string>)
    ensures |lines| >= 1
    ensures forall k :: 0 <= k < |lines| ==> '\n' !in lines[k]
    decreases |s|
  {
    if s == [] then [""]
    else
      var rest := SplitLines(s[1..]);
      if s[0] == '\n' then [""] + rest
      else [[s[0]] + rest[0]] + rest[1..]
  }

  /** Every character of a line comes from the text. */
  lemma {:induction false} SplitLinesChars(s: string, k: nat, c: char)
    requires k < |SplitLines(s)| && c in SplitLines(s)[k]
    ensures c in s
    decreases |s|
  {
    if s != [] {
      var rest := SplitLines(s[1..]);
      if s[0] == '\n' {
        SplitLinesChars(s[1..], k - 1, c);
      } else if k == 0 {
        if c != s[0] {
          assert c in rest[0];
          SplitLinesChars(s[1..], 0, c);
        }
      } else {
        SplitLinesChars(s[1..], k, c);
      }
    }
  }

  /** Splitting on newlines and joining with newlines gives back the text. */
  lemma {:induction false} SplitLinesJoin(s: string)
    ensures Join(SplitLines(s), "\n") == s
    decreases |s|
  {
    if s != [] {
      var rest := SplitLines(s[1..]);
      SplitLinesJoin(s[1..]);
      if s[0] == '\n' {
        assert Join([""] + rest, "\n") == "" + "\n" + Join(rest, "\n");
      } else {
        var lines := [[s[0]] + rest[0]] + rest[1..];
        if |rest| == 1 {
          assert Join(lines, "\n") == [s[0]] + rest[0];
        } else {
          assert lines[1..] == rest[1..];
          assert Join(rest, "\n") == rest[0] + "\n" + Join(rest[1..], "\n");
          assert Join(lines, "\n") == [s[0]] + rest[0] + "\n" + Join(rest[1..], "\n");
        }
      }
    }
  }
}
