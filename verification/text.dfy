/**
 * The Python string built-ins the bot relies on: `strip`, `lower`, `capitalize`,
 * `split`, `join`, `splitlines`, `isalnum`, the regex class `\w`, `in` on strings
 * and `str(int)`. Case mapping, `isalnum` and `\w` are modelled on ASCII.
 */
module Text {

  // ---------------------------------------------------------------- characters

  /** `c.isspace()`: the characters Python's `strip()` removes. */
  predicate IsSpace(c: char) {
    ('\t' <= c <= '\r') || ('\U{1C}' <= c <= ' ') || c == '\U{85}' || c == '\U{A0}' || c == '\U{1680}'
    || ('\U{2000}' <= c <= '\U{200A}') || c == '\U{2028}' || c == '\U{2029}' || c == '\U{202F}'
    || c == '\U{205F}' || c == '\U{3000}'
  }

  /** The line boundaries recognised by `str.splitlines()`. */
  predicate IsLineBreak(c: char) {
    ('\n' <= c <= '\r') || ('\U{1C}' <= c <= '\U{1E}') || c == '\U{85}' || c == '\U{2028}' || c == '\U{2029}'
  }

  predicate IsAsciiLetter(c: char) { 'a' <= c <= 'z' || 'A' <= c <= 'Z' }

  predicate IsAsciiDigit(c: char) { '0' <= c <= '9' }

  /** A character of the regular-expression class `\w`. */
  predicate IsWordChar(c: char) { IsAsciiLetter(c) || IsAsciiDigit(c) || c == '_' }

  function LowerChar(c: char): (r: char)
    ensures r == c || 'A' <= c <= 'Z'
  {
    if 'A' <= c <= 'Z' then (c as int + 32) as char else c
  }

  /** Lower-casing never turns a space into a non-space or back. */
  lemma LowerCharKeepsSpace(c: char)
    ensures IsSpace(LowerChar(c)) <==> IsSpace(c)
  {
  }

  function UpperChar(c: char): char {
    if 'a' <= c <= 'z' then (c as int - 32) as char else c
  }

  // ---------------------------------------------------------------- strip, lower

  /** `s.lstrip()`. */
  function TrimLeft(s: string): (r: string)
    ensures |r| <= |s| && r == s[|s| - |r|..]
    ensures r == [] || !IsSpace(r[0])
    ensures forall i :: 0 <= i < |s| - |r| ==> IsSpace(s[i])
    ensures r == [] <==> AllSpace(s)
  {
    if s != [] && IsSpace(s[0]) then TrimLeft(s[1..]) else s
  }

  /** `s.rstrip()`. */
  function TrimRight(s: string): (r: string)
    ensures |r| <= |s| && r == s[..|r|]
    ensures r == [] || !IsSpace(r[|r| - 1])
    ensures forall i :: |r| <= i < |s| ==> IsSpace(s[i])
    ensures r == [] <==> AllSpace(s)
  {
    if s != [] && IsSpace(s[|s| - 1]) then TrimRight(s[..|s| - 1]) else s
  }

  /** `s.strip()`. */
  function Strip(s: string): string {
    TrimRight(TrimLeft(s))
  }

  predicate AllSpace(s: string) {
    forall i :: 0 <= i < |s| ==> IsSpace(s[i])
  }

  /** `s.strip()` is empty exactly when `s` is blank, which is how `if message.strip():` reads. */
  lemma StripEmptyIffBlank(s: string)
    ensures Strip(s) == [] <==> AllSpace(s)
  {
    var l := TrimLeft(s);
    assert AllSpace(l) <==> l == [];
  }

  lemma {:induction false} TrimLeftSkipsPadding(pad: string, s: string)
    requires AllSpace(pad)
    ensures TrimLeft(pad + s) == TrimLeft(s)
    decreases |pad|
  {
    if pad == [] {
      assert pad + s == s;
    } else {
      var ps := pad + s;
      assert ps[0] == pad[0];
      assert ps[1..] == pad[1..] + s;
      TrimLeftSkipsPadding(pad[1..], s);
    }
  }

  lemma {:induction false} TrimRightSkipsPadding(s: string, pad: string)
    requires AllSpace(pad)
    ensures TrimRight(s + pad) == TrimRight(s)
    decreases |pad|
  {
    if pad == [] {
      assert s + pad == s;
    } else {
      var sp := s + pad;
      assert sp[|sp| - 1] == pad[|pad| - 1];
      assert sp[..|sp| - 1] == s + pad[..|pad| - 1];
      TrimRightSkipsPadding(s, pad[..|pad| - 1]);
    }
  }

  lemma {:induction false} TrimLeftKeepsSuffix(s: string, pad: string)
    requires AllSpace(pad)
    ensures TrimLeft(s + pad) == TrimLeft(s) + pad || (TrimLeft(s) == [] && AllSpace(TrimLeft(s + pad)))
    decreases |s|
  {
    if s == [] {
      assert s + pad == pad;
    } else if IsSpace(s[0]) {
      assert (s + pad)[1..] == s[1..] + pad;
      TrimLeftKeepsSuffix(s[1..], pad);
    }
  }

  /** Surrounding whitespace never changes what `strip()` returns. */
  lemma StripIgnoresPadding(pre: string, s: string, post: string)
    requires AllSpace(pre) && AllSpace(post)
    ensures Strip(pre + s + post) == Strip(s)
  {
    assert pre + s + post == pre + (s + post);
    TrimLeftSkipsPadding(pre, s + post);
    var left := TrimLeft(s + post);
    assert Strip(pre + s + post) == TrimRight(left);
    TrimLeftKeepsSuffix(s, post);
    if left == TrimLeft(s) + post {
      TrimRightSkipsPadding(TrimLeft(s), post);
    } else {
      assert TrimLeft(s) == [] && AllSpace(left);
      assert TrimRight(left) == [];
      assert Strip(s) == TrimRight([]);
    }
  }

  /** `s.lower()`. */
  function Lower(s: string): (r: string)
    ensures |r| == |s|
    ensures forall i :: 0 <= i < |s| ==> r[i] == LowerChar(s[i])
  {
    seq(|s|, i requires 0 <= i < |s| => LowerChar(s[i]))
  }

  lemma {:induction false} LowerTrimLeft(s: string)
    ensures Lower(TrimLeft(s)) == TrimLeft(Lower(s))
    decreases |s|
  {
    if s != [] {
      LowerCharKeepsSpace(s[0]);
      if IsSpace(s[0]) {
        assert Lower(s)[1..] == Lower(s[1..]);
        LowerTrimLeft(s[1..]);
      }
    }
  }

  lemma {:induction false} LowerTrimRight(s: string)
    ensures Lower(TrimRight(s)) == TrimRight(Lower(s))
    decreases |s|
  {
    if s != [] {
      LowerCharKeepsSpace(s[|s| - 1]);
      if IsSpace(s[|s| - 1]) {
        assert Lower(s)[..|s| - 1] == Lower(s[..|s| - 1]);
        LowerTrimRight(s[..|s| - 1]);
      }
    }
  }

  /** Lower-casing and stripping commute, so `s.strip().lower()` depends only on `s.lower()`. */
  lemma LowerStripCommute(s: string)
    ensures Lower(Strip(s)) == Strip(Lower(s))
  {
    LowerTrimRight(TrimLeft(s));
    LowerTrimLeft(s);
  }

  /** Text without surrounding whitespace is its own `strip()`. */
  lemma StripUnpadded(s: string)
    requires s == [] || (!IsSpace(s[0]) && !IsSpace(s[|s| - 1]))
    ensures Strip(s) == s
  {
  }

  /** Text without upper-case letters is its own `lower()`. */
  lemma LowerNoUpper(s: string)
    requires forall i :: 0 <= i < |s| ==> !('A' <= s[i] <= 'Z')
    ensures Lower(s) == s
  {
  }

  lemma LowerConcat(a: string, b: string)
    ensures Lower(a + b) == Lower(a) + Lower(b)
  {
  }

  /** `s.capitalize()`: first character upper-cased, the rest lower-cased. */
  function Capitalize(s: string): (r: string)
    ensures |r| == |s|
  {
    if s == [] then [] else [UpperChar(s[0])] + Lower(s[1..])
  }

  // ---------------------------------------------------------------- substrings

  predicate StartsWith(s: string, prefix: string) {
    |prefix| <= |s| && s[..|prefix|] == prefix
  }

  lemma StartsWithAppended(prefix: string, rest: string)
    ensures StartsWith(prefix + rest, prefix)
  {
    assert (prefix + rest)[..|prefix|] == prefix;
  }

  /** Python's `t in s` for strings. */
  predicate Contains(s: string, t: string)
    decreases |s|
  {
    StartsWith(s, t) || (s != [] && Contains(s[1..], t))
  }

  lemma {:induction false} ContainsPrefixed(a: string, s: string, t: string)
    requires Contains(s, t)
    ensures Contains(a + s, t)
    decreases |a|
  {
    if a == [] {
      assert a + s == s;
    } else {
      assert (a + s)[1..] == a[1..] + s;
      ContainsPrefixed(a[1..], s, t);
    }
  }

  lemma {:induction false} ContainsAppended(s: string, tail: string, t: string)
    requires Contains(s, t)
    ensures Contains(s + tail, t)
    decreases |s|
  {
    if StartsWith(s, t) {
      assert (s + tail)[..|t|] == s[..|t|];
    } else {
      assert (s + tail)[1..] == s[1..] + tail;
      ContainsAppended(s[1..], tail, t);
    }
  }

  lemma ContainsMiddle(a: string, t: string, b: string)
    ensures Contains(a + t + b, t)
  {
    assert a + t + b == a + (t + b);
    assert StartsWith(t + b, t);
    ContainsPrefixed(a, t + b, t);
  }

  /** Python's `s.replace(target, replacement)`: every occurrence of `target`, scanning left to right without overlaps. */
  function ReplaceAll(s: string, target: string, replacement: string): (r: string)
    requires target != []
    decreases |s|
  {
    if |s| < |target| then s
    else if s[..|target|] == target then replacement + ReplaceAll(s[|target|..], target, replacement)
    else [s[0]] + ReplaceAll(s[1..], target, replacement)
  }

  /** Text without the searched-for string comes back unchanged. */
  lemma {:induction false} ReplaceAbsent(s: string, target: string, replacement: string)
    requires target != [] && !Contains(s, target)
    ensures ReplaceAll(s, target, replacement) == s
    decreases |s|
  {
    if |s| >= |target| {
      assert !StartsWith(s, target);
      ReplaceAbsent(s[1..], target, replacement);
      assert [s[0]] + s[1..] == s;
    }
  }

  /** Text missing the first character of `t` does not contain `t`. */
  lemma {:induction false} MissingFirstChar(s: string, t: string)
    requires t != [] && t[0] !in s
    ensures !Contains(s, t)
    decreases |s|
  {
    if s != [] {
      assert s[0] != t[0];
      MissingFirstChar(s[1..], t);
    }
  }

  /** A single character is contained as a string exactly when it occurs. */
  lemma {:induction false} ContainsChar(s: string, c: char)
    ensures Contains(s, [c]) <==> c in s
    decreases |s|
  {
    if s != [] {
      ContainsChar(s[1..], c);
      assert c in s <==> s[0] == c || c in s[1..];
    }
  }

  // ---------------------------------------------------------------- split, join

  /** `s.split(sep)` for a one-character separator. */
  function Split(s: string, sep: char): (parts: seq<string>)
    ensures |parts| >= 1
    ensures forall i :: 0 <= i < |parts| ==> sep !in parts[i]
    decreases |s|
  {
    if s == [] then [""]
    else
      var rest := Split(s[1..], sep);
      if s[0] == sep then [""] + rest
      else [[s[0]] + rest[0]] + rest[1..]
  }

  /** `sep.join(parts)`. */
  function Join(parts: seq<string>, sep: string): string
    decreases |parts|
  {
    if parts == [] then ""
    else if |parts| == 1 then parts[0]
    else parts[0] + sep + Join(parts[1..], sep)
  }

  /** Splitting loses nothing: joining the parts back gives the original text. */
  lemma {:induction false} SplitJoin(s: string, sep: char)
    ensures Join(Split(s, sep), [sep]) == s
    decreases |s|
  {
    if s != [] {
      var rest := Split(s[1..], sep);
      SplitJoin(s[1..], sep);
      if s[0] != sep {
        var parts := Split(s, sep);
        assert parts[0] == [s[0]] + rest[0];
        assert parts[1..] == rest[1..];
        if |rest| > 1 {
          var tail := Join(rest[1..], [sep]);
          assert Join(rest, [sep]) == rest[0] + [sep] + tail;
          assert Join(parts, [sep]) == ([s[0]] + rest[0]) + [sep] + tail;
          AppendAssoc([s[0]], rest[0], [sep]);
          AppendAssoc([s[0]], rest[0] + [sep], tail);
        }
        assert s == [s[0]] + s[1..];
      }
    }
  }

  /** A text without the separator is one part. */
  lemma {:induction false} SplitWithoutSeparator(s: string, sep: char)
    requires sep !in s
    ensures Split(s, sep) == [s]
    decreases |s|
  {
    if s != [] {
      SplitWithoutSeparator(s[1..], sep);
      assert [s[0]] + s[1..] == s;
    }
  }

  /** Splitting distributes over a separator occurrence. */
  lemma {:induction false} SplitAround(a: string, sep: char, b: string)
    ensures Split(a + [sep] + b, sep) == Split(a, sep) + Split(b, sep)
    decreases |a|
  {
    if a == [] {
      assert a + [sep] + b == [sep] + b;
      assert ([sep] + b)[1..] == b;
    } else {
      assert (a + [sep] + b)[1..] == a[1..] + [sep] + b;
      SplitAround(a[1..], sep, b);
    }
  }

  /** Joining parts that hold no separator and splitting again gives the parts back. */
  lemma {:induction false} JoinSplit(parts: seq<string>, sep: char)
    requires |parts| >= 1
    requires forall i :: 0 <= i < |parts| ==> sep !in parts[i]
    ensures Split(Join(parts, [sep]), sep) == parts
    decreases |parts|
  {
    SplitWithoutSeparator(parts[0], sep);
    if |parts| > 1 {
      JoinSplit(parts[1..], sep);
      SplitAround(parts[0], sep, Join(parts[1..], [sep]));
      assert [parts[0]] + parts[1..] == parts;
    }
  }

  /** `s.rstrip(c)` for a single character. */
  function RStrip(s: string, c: char): (r: string)
    ensures |r| <= |s| && r == s[..|r|]
    ensures r == [] || r[|r| - 1] != c
    ensures forall i :: |r| <= i < |s| ==> s[i] == c
    decreases |s|
  {
    if s != [] && s[|s| - 1] == c then RStrip(s[..|s| - 1], c) else s
  }

  /** `xs.index(x)`: the first position holding `x`. */
  function IndexOf<T(==)>(xs: seq<T>, x: T): (i: nat)
    requires x in xs
    ensures i < |xs| && xs[i] == x && x !in xs[..i]
  {
    if xs[0] == x then 0
    else
      var j := IndexOf(xs[1..], x);
      assert xs[..j + 1] == [xs[0]] + xs[1..][..j];
      1 + j
  }

  /** The last part of `s.split(sep)`, i.e. `s.split(sep)[-1]`. */
  function LastPart(s: string, sep: char): (r: string)
    ensures sep !in r
  {
    var parts := Split(s, sep);
    parts[|parts| - 1]
  }

  /** The last part is exactly the text after the final separator. */
  lemma LastPartAfterFinalSeparator(prefix: string, sep: char, tail: string)
    requires sep !in tail
    ensures LastPart(prefix + [sep] + tail, sep) == tail
  {
    SplitAround(prefix, sep, tail);
    SplitWithoutSeparator(tail, sep);
  }

  /** Concatenation of a sequence of strings. */
  function Concat(parts: seq<string>): string
    decreases |parts|
  {
    if parts == [] then "" else parts[0] + Concat(parts[1..])
  }

  lemma {:induction false} JoinContains(parts: seq<string>, sep: string, k: nat)
    requires k < |parts|
    ensures Contains(Join(parts, sep), parts[k])
    decreases |parts|
  {
    if |parts| == 1 {
      assert Join(parts, sep) == "" + parts[0] + "";
      ContainsMiddle("", parts[0], "");
    } else if k == 0 {
      assert Join(parts, sep) == "" + parts[0] + (sep + Join(parts[1..], sep));
      ContainsMiddle("", parts[0], sep + Join(parts[1..], sep));
    } else {
      JoinContains(parts[1..], sep, k - 1);
      ContainsPrefixed(parts[0] + sep, Join(parts[1..], sep), parts[k]);
    }
  }

  // ---------------------------------------------------------------- splitlines

  predicate NoLineBreak(line: string) {
    forall j :: 0 <= j < |line| ==> !IsLineBreak(line[j])
  }

  /** Characters taken by a boundary at the head of `s`: two for `\r\n`, otherwise one. */
  function BreakWidth(s: string): (w: nat)
    requires s != []
    ensures 1 <= w <= |s|
    ensures s[0] != '\r' ==> w == 1
  {
    if s[0] == '\r' && |s| > 1 && s[1] == '\n' then 2 else 1
  }

  /** `s.splitlines()`: a boundary ends a line; `\r\n` counts as one boundary; no empty last line. */
  function SplitLines(s: string): (lines: seq<string>)
    ensures forall k :: 0 <= k < |lines| ==> NoLineBreak(lines[k])
    ensures s == [] <==> lines == []
    decreases |s|
  {
    if s == [] then []
    else if IsLineBreak(s[0]) then [""] + SplitLines(s[BreakWidth(s)..])
    else
      var rest := SplitLines(s[1..]);
      if rest == [] then [[s[0]]] else [[s[0]] + rest[0]] + rest[1..]
  }

  /** Each line followed by a newline, concatenated. */
  function Unlines(lines: seq<string>): string
    decreases |lines|
  {
    if lines == [] then "" else lines[0] + "\n" + Unlines(lines[1..])
  }

  lemma AppendAssoc<T>(a: seq<T>, b: seq<T>, c: seq<T>)
    ensures (a + b) + c == a + (b + c)
  {
  }

  /** A sequence is its prefix, the element at `k` and the rest. */
  lemma SplitAt<T>(s: seq<T>, k: nat)
    requires k < |s|
    ensures s == s[..k] + [s[k]] + s[k + 1..]
    ensures s[..k + 1] == s[..k] + [s[k]]
  {
  }

  /** Appending items one by one appends them as a block. */
  lemma AppendItems<T>(s: seq<T>, a: T, b: T, c: T, e: T)
    ensures s + [a] + [b] == s + [a, b]
    ensures s + [a] + [b] + [c] == s + [a, b, c]
    ensures s + [a] + [b] + [c] + [e] == s + [a, b, c, e]
  {
  }

  lemma UnlinesPrepend(c: char, lines: seq<string>)
    requires lines != []
    ensures Unlines([[c] + lines[0]] + lines[1..]) == [c] + Unlines(lines)
  {
    var l := [[c] + lines[0]] + lines[1..];
    var a := lines[0];
    var t := Unlines(lines[1..]);
    assert l[0] == [c] + a;
    assert l[1..] == lines[1..];
    assert Unlines(l) == ([c] + a) + "\n" + t;
    assert Unlines(lines) == a + "\n" + t;
    AppendAssoc([c], a, "\n");
    AppendAssoc([c], a + "\n", t);
  }

  /** Text in which `\n` is the only line boundary. */
  predicate OnlyNewlineBreaks(s: string) {
    forall k :: 0 <= k < |s| && IsLineBreak(s[k]) ==> s[k] == '\n'
  }

  /** The text with a final newline added unless it is empty or already has one. */
  function NewlineTerminated(s: string): string {
    if s == [] || s[|s| - 1] == '\n' then s else s + "\n"
  }

  lemma NewlineTerminatedCons(c: char, tail: string)
    requires tail != []
    ensures NewlineTerminated([c] + tail) == [c] + NewlineTerminated(tail)
  {
    var s := [c] + tail;
    assert s[|s| - 1] == tail[|tail| - 1];
    AppendAssoc([c], tail, "\n");
  }

  lemma OnlyNewlineBreaksTail(s: string)
    requires s != [] && OnlyNewlineBreaks(s)
    ensures OnlyNewlineBreaks(s[1..])
  {
    var tail := s[1..];
    forall k | 0 <= k < |tail| && IsLineBreak(tail[k]) ensures tail[k] == '\n' {
      assert tail[k] == s[k + 1];
    }
  }

  /**
   * For text whose only line boundary is `\n`, `splitlines()` loses nothing but the
   * final newline: writing each line back with a newline restores the text.
   */
  lemma {:induction false} SplitLinesRoundTrip(s: string)
    requires OnlyNewlineBreaks(s)
    ensures Unlines(SplitLines(s)) == NewlineTerminated(s)
    decreases |s|
  {
    if s != [] {
      var c := s[0];
      var tail := s[1..];
      assert s == [c] + tail;
      OnlyNewlineBreaksTail(s);
      SplitLinesRoundTrip(tail);
      if tail != [] {
        NewlineTerminatedCons(c, tail);
      }
      if IsLineBreak(c) {
        assert c == '\n';
        var lines := [""] + SplitLines(tail);
        assert SplitLines(s) == lines;
        assert lines[1..] == SplitLines(tail);
        assert Unlines(lines) == "" + "\n" + Unlines(SplitLines(tail));
        assert "" + "\n" == [c];
      } else {
        var rest := SplitLines(tail);
        if rest == [] {
          assert Unlines([[c]]) == [c] + "\n" + "";
        } else {
          UnlinesPrepend(c, rest);
        }
      }
    }
  }

  /** One line without boundaries, then `\n`, splits back into that line. */
  lemma {:induction false} SplitLinesOneLine(s: string)
    requires NoLineBreak(s)
    ensures SplitLines(s + "\n") == [s]
    decreases |s|
  {
    if s == [] {
      assert s + "\n" == "\n";
      assert BreakWidth("\n") == 1;
      assert "\n"[1..] == [];
    } else {
      var t := s + "\n";
      assert t[1..] == s[1..] + "\n";
      SplitLinesOneLine(s[1..]);
      assert !IsLineBreak(t[0]);
      assert [s[0]] + s[1..] == s;
    }
  }

  // ---------------------------------------------------------------- isalnum, str(n)

  /** `s.isalnum()`: non-empty and every character a letter or digit. */
  predicate IsAlnum(s: string) {
    |s| > 0 && forall i :: 0 <= i < |s| ==> IsAsciiLetter(s[i]) || IsAsciiDigit(s[i])
  }

  function DigitChar(d: nat): char
    requires d < 10
  {
    ('0' as int + d) as char
  }

  /** `str(n)` for a non-negative integer. */
  function NatToString(n: nat): (r: string)
    ensures |r| >= 1
    ensures forall i :: 0 <= i < |r| ==> IsAsciiDigit(r[i])
  {
    if n < 10 then [DigitChar(n)] else NatToString(n / 10) + [DigitChar(n % 10)]
  }
}
