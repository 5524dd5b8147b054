/**
 * The JavaScript string operations the code relies on: `trim`, `toLowerCase`,
 * `endsWith`, a `reduce` that concatenates, the `/[^\x00-\x7F]/g` filter and
 * the `/^\d/` test.
 */
module JsStrings {

  /** ECMAScript WhiteSpace and LineTerminator code points, the set `trim` removes. */
  predicate IsWhitespace(c: char)
  {
    c == '\t' || c == '\n' || c == '\U{B}' || c == '\U{C}' || c == '\r' || c == ' '
    || c == '\U{A0}' || c == '\U{1680}' || ('\U{2000}' <= c <= '\U{200A}')
    || c == '\U{2028}' || c == '\U{2029}' || c == '\U{202F}' || c == '\U{205F}'
    || c == '\U{3000}' || c == '\U{FEFF}'
  }

  predicate AllWhitespace(s: string)
  {
    forall i :: 0 <= i < |s| ==> IsWhitespace(s[i])
  }

  /** `trimStart`: drops the leading whitespace. */
  function TrimStart(s: string): (r: string)
    ensures |r| <= |s| && r == s[|s| - |r|..]
    ensures r == "" || !IsWhitespace(r[0])
    ensures AllWhitespace(s[..|s| - |r|])
  {
    if |s| > 0 && IsWhitespace(s[0]) then
      var r := TrimStart(s[1..]);
      var n := |s| - |r|;
      assert s[..n] == [s[0]] + s[1..][..n - 1];
      assert s[n..] == s[1..][n - 1..];
      r
    else s
  }

  /** `trimEnd`: drops the trailing whitespace. */
  function TrimEnd(s: string): (r: string)
    ensures |r| <= |s| && r == s[..|r|]
    ensures r == "" || !IsWhitespace(r[|r| - 1])
    ensures AllWhitespace(s[|r|..])
  {
    if |s| > 0 && IsWhitespace(s[|s| - 1]) then
      var r := TrimEnd(s[..|s| - 1]);
      assert s[..|s| - 1][|r|..] + [s[|s| - 1]] == s[|r|..];
      r
    else s
  }

  /** `String.prototype.trim`: `trimStart`, then `trimEnd`. */
  function Trim(s: string): (r: string)
    ensures r == "" || (!IsWhitespace(r[0]) && !IsWhitespace(r[|r| - 1]))
  {
    TrimEnd(TrimStart(s))
  }

  /** A string that neither starts nor ends with whitespace is left alone by `trim`. */
  lemma TrimUnchanged(s: string)
    requires s == "" || (!IsWhitespace(s[0]) && !IsWhitespace(s[|s| - 1]))
    ensures Trim(s) == s
  {
  }

  lemma {:induction false} TrimStartSkipsWhitespace(w: string, s: string)
    requires AllWhitespace(w)
    ensures TrimStart(w + s) == TrimStart(s)
  {
    if w != [] {
      assert (w + s)[1..] == w[1..] + s;
      TrimStartSkipsWhitespace(w[1..], s);
    } else {
      assert w + s == s;
    }
  }

  lemma {:induction false} TrimStartAppend(s: string, t: string)
    ensures TrimStart(s) != "" ==> TrimStart(s + t) == TrimStart(s) + t
    ensures TrimStart(s) == "" ==> TrimStart(s + t) == TrimStart(t)
  {
    if s == [] {
      assert s + t == t;
    } else if IsWhitespace(s[0]) {
      assert (s + t)[1..] == s[1..] + t;
      TrimStartAppend(s[1..], t);
    } else {
      assert (s + t)[0] == s[0];
    }
  }

  lemma {:induction false} TrimEndSkipsWhitespace(s: string, w: string)
    requires AllWhitespace(w)
    ensures TrimEnd(s + w) == TrimEnd(s)
  {
    if w != [] {
      assert (s + w)[..|s + w| - 1] == s + w[..|w| - 1];
      TrimEndSkipsWhitespace(s, w[..|w| - 1]);
    } else {
      assert s + w == s;
    }
  }

  /** Whitespace added on either side does not change what `trim` returns. */
  lemma TrimIgnoresPadding(before: string, s: string, after: string)
    requires AllWhitespace(before) && AllWhitespace(after)
    ensures Trim(before + s + after) == Trim(s)
  {
    assert before + s + after == before + (s + after);
    TrimStartSkipsWhitespace(before, s + after);
    TrimStartAppend(s, after);
    if TrimStart(s) != "" {
      TrimEndSkipsWhitespace(TrimStart(s), after);
    } else {
      assert TrimStart(after) == "";
    }
  }

  /** The ASCII part of `toLowerCase`: upper-case Latin letters become lower case. */
  function LowerChar(c: char): char
  {
    if 'A' <= c <= 'Z' then (c as int + 32) as char else c
  }

  /** `String.prototype.toLowerCase` on the ASCII letters. */
  function ToLowerCase(s: string): (r: string)
    ensures |r| == |s|
    ensures forall i :: 0 <= i < |s| ==> r[i] == LowerChar(s[i])
  {
    seq(|s|, i requires 0 <= i < |s| => LowerChar(s[i]))
  }

  /**
   * After lower-casing no upper-case letter is left, every upper-case letter
   * has become its lower-case partner, and every other character is kept.
   */
  lemma LowerCaseLetters(s: string)
    ensures var r := ToLowerCase(s);
            && (forall i :: 0 <= i < |r| ==> !('A' <= r[i] <= 'Z'))
            && (forall i :: 0 <= i < |s| && 'A' <= s[i] <= 'Z' ==> 'a' <= r[i] <= 'z' && r[i] as int - s[i] as int == 32)
            && (forall i :: 0 <= i < |s| && !('A' <= s[i] <= 'Z') ==> r[i] == s[i])
  {
  }

  lemma {:induction false} TrimStartToLower(s: string)
    ensures TrimStart(ToLowerCase(s)) == ToLowerCase(TrimStart(s))
    decreases |s|
  {
    if |s| > 0 && IsWhitespace(s[0]) {
      assert ToLowerCase(s)[1..] == ToLowerCase(s[1..]);
      TrimStartToLower(s[1..]);
    }
  }

  lemma {:induction false} TrimEndToLower(s: string)
    ensures TrimEnd(ToLowerCase(s)) == ToLowerCase(TrimEnd(s))
    decreases |s|
  {
    if |s| > 0 && IsWhitespace(s[|s| - 1]) {
      assert ToLowerCase(s)[..|s| - 1] == ToLowerCase(s[..|s| - 1]);
      TrimEndToLower(s[..|s| - 1]);
    }
  }

  /** Lower-casing never turns whitespace into non-whitespace or back, so it commutes with `trim`. */
  lemma TrimToLowerCommute(s: string)
    ensures Trim(ToLowerCase(s)) == ToLowerCase(Trim(s))
  {
    TrimStartToLower(s);
    TrimEndToLower(TrimStart(s));
  }

  /**
   * `parts.reduce((acc, part) => acc + part, init)`: a left fold that
   * appends each part to the accumulator, front to back.
   */
  function ReduceConcat(acc: string, parts: seq<string>): string
    decreases |parts|
  {
    if parts == [] then acc else ReduceConcat(acc + parts[0], parts[1..])
  }

  /** The reference concatenation: the parts one after the other. */
  function Concat(parts: seq<string>): string
    decreases |parts|
  {
    if parts == [] then "" else parts[0] + Concat(parts[1..])
  }

  /** Reducing with `+` from an accumulator is the accumulator followed by all parts in order. */
  lemma {:induction false} ReduceConcatIsConcat(acc: string, parts: seq<string>)
    ensures ReduceConcat(acc, parts) == acc + Concat(parts)
    decreases |parts|
  {
    if parts != [] {
      ReduceConcatIsConcat(acc + parts[0], parts[1..]);
      assert acc + parts[0] + Concat(parts[1..]) == acc + (parts[0] + Concat(parts[1..]));
    }
  }

  lemma {:induction false} ConcatAppend(a: seq<string>, b: seq<string>)
    ensures Concat(a + b) == Concat(a) + Concat(b)
    decreases |a|
  {
    if a == [] {
      assert a + b == b;
    } else {
      assert (a + b)[1..] == a[1..] + b;
      ConcatAppend(a[1..], b);
    }
  }

  /** Where the i-th part starts in the concatenation. */
  function PartOffset(parts: seq<string>, i: nat): nat
    requires i <= |parts|
  {
    |Concat(parts[..i])|
  }

  /** Every part appears, unchanged, at its offset: the concatenation keeps the parts in order. */
  lemma PartAt(parts: seq<string>, i: nat)
    requires i < |parts|
    ensures PartOffset(parts, i) + |parts[i]| <= |Concat(parts)|
    ensures Concat(parts)[PartOffset(parts, i) .. PartOffset(parts, i) + |parts[i]|] == parts[i]
  {
    assert parts == parts[..i] + ([parts[i]] + parts[i + 1..]);
    ConcatAppend(parts[..i], [parts[i]] + parts[i + 1..]);
    assert Concat([parts[i]] + parts[i + 1..]) == parts[i] + Concat(parts[i + 1..]) by {
      assert ([parts[i]] + parts[i + 1..])[1..] == parts[i + 1..];
    }
  }

  /** The length of a concatenation is the sum of the parts' lengths. */
  function TotalLength(parts: seq<string>): nat
  {
    if parts == [] then 0 else |parts[0]| + TotalLength(parts[1..])
  }

  lemma {:induction false} ConcatLength(parts: seq<string>)
    ensures |Concat(parts)| == TotalLength(parts)
  {
    if parts != [] {
      ConcatLength(parts[1..]);
    }
  }

  /** The `/^\d/` test: an ASCII decimal digit. */
  predicate IsDigit(c: char)
  {
    '0' <= c <= '9'
  }

  predicate IsAscii(c: char)
  {
    c as int <= 0x7F
  }

  /** `s.replace(/[^\x00-\x7F]/g, '')`: keeps the ASCII characters, in order. */
  function StripNonAscii(s: string): (r: string)
    ensures |r| <= |s|
    ensures forall i :: 0 <= i < |r| ==> IsAscii(r[i])
  {
    if s == [] then ""
    else if IsAscii(s[0]) then [s[0]] + StripNonAscii(s[1..])
    else StripNonAscii(s[1..])
  }

  /** Stripping distributes over concatenation, so the ASCII characters keep their order. */
  lemma {:induction false} StripNonAsciiAppend(a: string, b: string)
    ensures StripNonAscii(a + b) == StripNonAscii(a) + StripNonAscii(b)
  {
    if a == [] {
      assert a + b == b;
    } else {
      assert (a + b)[1..] == a[1..] + b;
      StripNonAsciiAppend(a[1..], b);
    }
  }

  /** An all-ASCII string is left unchanged. */
  lemma {:induction false} StripNonAsciiKeepsAscii(s: string)
    requires forall i :: 0 <= i < |s| ==> IsAscii(s[i])
    ensures StripNonAscii(s) == s
  {
    if s != [] {
      StripNonAsciiKeepsAscii(s[1..]);
    }
  }

  /** `s.endsWith(suffix)`. */
  predicate EndsWith(s: string, suffix: string)
  {
    |suffix| <= |s| && s[|s| - |suffix|..] == suffix
  }

  predicate StartsWith(s: string, prefix: string)
  {
    |prefix| <= |s| && s[..|prefix|] == prefix
  }
}
