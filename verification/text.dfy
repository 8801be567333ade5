/** The Java string primitives the annotation classes rely on: `StringTokenizer` with its
    default delimiters, `String.trim`, `String.equalsIgnoreCase`, and the
    `replaceAll("\\\\n", " ")` that cleans descriptions. */
module Text {

  /** The default delimiter set of `java.util.StringTokenizer`: space, tab, newline,
      carriage return and form feed. */
  predicate IsDelimiter(c: char) {
    c == ' ' || c == '\t' || c == '\n' || c == '\r' || c == '\U{000C}'
  }

  /** A token as `StringTokenizer.nextToken` returns it: non-empty, no delimiter inside. */
  predicate IsToken(t: string) {
    |t| > 0 && forall k :: 0 <= k < |t| ==> !IsDelimiter(t[k])
  }

  /** Length of the longest delimiter-free prefix of `s`. */
  function RunLength(s: string): (n: nat)
    ensures n <= |s|
    ensures forall k :: 0 <= k < n ==> !IsDelimiter(s[k])
    ensures n < |s| ==> IsDelimiter(s[n])
  {
    if |s| == 0 || IsDelimiter(s[0]) then 0 else 1 + RunLength(s[1..])
  }

  /** The tokens `new StringTokenizer(s)` hands out, in order. */
  function Tokens(s: string): (ts: seq<string>)
    ensures forall i :: 0 <= i < |ts| ==> IsToken(ts[i])
    decreases |s|
  {
    if |s| == 0 then []
    else if IsDelimiter(s[0]) then Tokens(s[1..])
    else
      var n := RunLength(s);
      [s[..n]] + Tokens(s[n..])
  }

  /** `s` with every delimiter removed: the reference for what tokenising keeps. */
  function Squeeze(s: string): string
  {
    if |s| == 0 then [] else (if IsDelimiter(s[0]) then [] else [s[0]]) + Squeeze(s[1..])
  }

  function Concat(ts: seq<string>): string
  {
    if |ts| == 0 then [] else ts[0] + Concat(ts[1..])
  }

  lemma {:induction false} SqueezeAppend(a: string, b: string)
    ensures Squeeze(a + b) == Squeeze(a) + Squeeze(b)
    decreases |a|
  {
    if |a| == 0 {
      assert a + b == b;
    } else {
      assert (a + b)[1..] == a[1..] + b;
      SqueezeAppend(a[1..], b);
    }
  }

  lemma {:induction false} SqueezeOfDelimiterFree(t: string)
    requires forall k :: 0 <= k < |t| ==> !IsDelimiter(t[k])
    ensures Squeeze(t) == t
    decreases |t|
  {
    if |t| > 0 {
      SqueezeOfDelimiterFree(t[1..]);
      assert t == [t[0]] + t[1..];
    }
  }

  /** Tokenising loses nothing but delimiters, and keeps the characters in order. */
  lemma {:induction false} TokensKeepContent(s: string)
    ensures Concat(Tokens(s)) == Squeeze(s)
    decreases |s|
  {
    if |s| == 0 {
    } else if IsDelimiter(s[0]) {
      TokensKeepContent(s[1..]);
    } else {
      var n := RunLength(s);
      assert s == s[..n] + s[n..];
      SqueezeAppend(s[..n], s[n..]);
      SqueezeOfDelimiterFree(s[..n]);
      TokensKeepContent(s[n..]);
    }
  }

  lemma {:induction false} RunLengthStopsAt(a: string, d: char, b: string)
    requires IsDelimiter(d)
    ensures RunLength(a + [d] + b) == RunLength(a)
    decreases |a|
  {
    if |a| > 0 && !IsDelimiter(a[0]) {
      assert (a + [d] + b)[1..] == a[1..] + [d] + b;
      RunLengthStopsAt(a[1..], d, b);
    }
  }

  /** A delimiter separates: the tokens of `a d b` are those of `a` followed by those of `b`. */
  lemma {:induction false} TokensSplitAtDelimiter(a: string, d: char, b: string)
    requires IsDelimiter(d)
    ensures Tokens(a + [d] + b) == Tokens(a) + Tokens(b)
    decreases |a|
  {
    var s := a + [d] + b;
    if |a| == 0 {
      assert s[1..] == b;
    } else if IsDelimiter(a[0]) {
      assert s[1..] == a[1..] + [d] + b;
      TokensSplitAtDelimiter(a[1..], d, b);
    } else {
      RunLengthStopsAt(a, d, b);
      var m := RunLength(a);
      assert s[..m] == a[..m];
      assert s[m..] == a[m..] + [d] + b;
      TokensSplitAtDelimiter(a[m..], d, b);
    }
  }

  lemma TokensOfToken(t: string)
    requires IsToken(t)
    ensures Tokens(t) == [t]
  {
    assert !IsDelimiter(t[0]);
    var n := RunLength(t);
    assert n == |t|;
    assert t[..n] == t && t[n..] == [];
    assert Tokens(t) == [t[..n]] + Tokens(t[n..]);
  }

  /** `t1 + " " + t2 + ... + " " + tn`. */
  function JoinSpaced(ts: seq<string>): string
  {
    if |ts| == 0 then [] else if |ts| == 1 then ts[0] else ts[0] + " " + JoinSpaced(ts[1..])
  }

  /** Joining tokens with single spaces and tokenising again gives the tokens back. */
  lemma {:induction false} TokensOfJoinSpaced(ts: seq<string>)
    requires forall i :: 0 <= i < |ts| ==> IsToken(ts[i])
    ensures Tokens(JoinSpaced(ts)) == ts
    decreases |ts|
  {
    if |ts| == 1 {
      TokensOfToken(ts[0]);
    } else if |ts| > 1 {
      TokensOfJoinSpaced(ts[1..]);
      TokensSplitAtDelimiter(ts[0], ' ', JoinSpaced(ts[1..]));
      TokensOfToken(ts[0]);
      assert ts == [ts[0]] + ts[1..];
    }
  }

  /** Characters `String.trim` strips: every code point up to U+0020. */
  predicate IsTrimmed(c: char) {
    c <= ' '
  }

  /** The first index from `i` on whose character is not trimmable, or `|s|`. */
  function TrimmedPrefixEnd(s: string, i: nat): (n: nat)
    requires i <= |s|
    ensures i <= n <= |s|
    ensures forall k :: i <= k < n ==> IsTrimmed(s[k])
    ensures n < |s| ==> !IsTrimmed(s[n])
    decreases |s| - i
  {
    if i < |s| && IsTrimmed(s[i]) then TrimmedPrefixEnd(s, i + 1) else i
  }

  /** The least index down from `j`, but not below `lo`, from which on every character
      before `j` is trimmable. */
  function TrimmedSuffixStart(s: string, lo: nat, j: nat): (m: nat)
    requires lo <= j <= |s|
    ensures lo <= m <= j
    ensures forall k :: m <= k < j ==> IsTrimmed(s[k])
    ensures m > lo ==> !IsTrimmed(s[m - 1])
    decreases j
  {
    if j > lo && IsTrimmed(s[j - 1]) then TrimmedSuffixStart(s, lo, j - 1) else j
  }

  /** `r` is the slice of `s` at offset `i` with only trimmable characters around it. */
  ghost predicate SliceBetweenTrimmed(s: string, r: string, i: int) {
    0 <= i <= |s| - |r|
    && r == s[i..i + |r|]
    && (forall k :: 0 <= k < i ==> IsTrimmed(s[k]))
    && (forall k :: i + |r| <= k < |s| ==> IsTrimmed(s[k]))
  }

  /** `String.trim`: what is left once every leading and trailing character up to U+0020
      is removed. */
  function Trim(s: string): (r: string)
    ensures |r| == 0 || (!IsTrimmed(r[0]) && !IsTrimmed(r[|r| - 1]))
    ensures exists i :: SliceBetweenTrimmed(s, r, i)
  {
    var i := TrimmedPrefixEnd(s, 0);
    var j := TrimmedSuffixStart(s, i, |s|);
    assert SliceBetweenTrimmed(s, s[i..j], i);
    s[i..j]
  }

  /** A string that already starts and ends with a visible character is its own trim. */
  lemma TrimOfTrimmed(s: string)
    requires |s| == 0 || (!IsTrimmed(s[0]) && !IsTrimmed(s[|s| - 1]))
    ensures Trim(s) == s
  {
  }

  /** One space in front of a string that starts and ends visibly is trimmed away again. */
  lemma TrimOfSpaced(x: string)
    requires |x| > 0 && !IsTrimmed(x[0]) && !IsTrimmed(x[|x| - 1])
    ensures Trim(" " + x) == x
  {
    var s := " " + x;
    assert TrimmedPrefixEnd(s, 0) == 1;
    assert TrimmedSuffixStart(s, 1, |s|) == |s|;
    assert s[1..|s|] == x;
  }

  /** A string of characters at or below U+0020 only trims to nothing. */
  lemma TrimOfBlank(s: string)
    requires forall k :: 0 <= k < |s| ==> IsTrimmed(s[k])
    ensures Trim(s) == ""
  {
    assert TrimmedPrefixEnd(s, 0) == |s|;
  }

  lemma TrimIdempotent(s: string)
    ensures Trim(Trim(s)) == Trim(s)
  {
    TrimOfTrimmed(Trim(s));
  }

  function UpperAscii(c: char): char {
    if 'a' <= c <= 'z' then (c as int - 32) as char else c
  }

  function LowerAscii(c: char): char {
    if 'A' <= c <= 'Z' then (c as int + 32) as char else c
  }

  function ToLowerAscii(s: string): (r: string)
    ensures |r| == |s|
  {
    seq(|s|, k requires 0 <= k < |s| => LowerAscii(s[k]))
  }

  /** `String.equalsIgnoreCase`, with case folding restricted to ASCII letters. */
  predicate EqualsIgnoreCase(a: string, b: string) {
    |a| == |b| && forall k :: 0 <= k < |a| ==> UpperAscii(a[k]) == UpperAscii(b[k])
  }

  /** True when `s` holds the two-character sequence backslash, `n`. */
  predicate HasEscapedNewline(s: string) {
    exists k :: 0 <= k < |s| - 1 && s[k] == '\\' && s[k + 1] == 'n'
  }

  /** `s.replaceAll("\\\\n", " ")`: every literal backslash-n becomes one space, scanning
      left to right. The result starts with `n` exactly when the input does; the recursion
      needs this to see that a kept backslash is never followed by an `n` in the result. */
  function ReplaceEscapedNewlines(s: string): (r: string)
    ensures |r| <= |s|
    ensures |s| > 0 ==> |r| > 0 && (r[0] == 'n' <==> s[0] == 'n')
    ensures !HasEscapedNewline(r)
  {
    if |s| < 2 then s
    else if s[0] == '\\' && s[1] == 'n' then " " + ReplaceEscapedNewlines(s[2..])
    else
      var rest := ReplaceEscapedNewlines(s[1..]);
      assert forall k :: 1 <= k < |rest| ==> ([s[0]] + rest)[k] == rest[k - 1];
      [s[0]] + rest
  }

  /** Text without an escaped newline is left as it is; so the cleaning is idempotent. */
  lemma {:induction false} ReplaceEscapedNewlinesIdentity(s: string)
    requires !HasEscapedNewline(s)
    ensures ReplaceEscapedNewlines(s) == s
    decreases |s|
  {
    if |s| >= 2 {
      assert !(s[0] == '\\' && s[1] == 'n');
      assert !HasEscapedNewline(s[1..]) by {
        forall k | 0 <= k < |s[1..]| - 1
          ensures !(s[1..][k] == '\\' && s[1..][k + 1] == 'n')
        {
          assert s[1..][k] == s[k + 1] && s[1..][k + 1] == s[k + 2];
        }
      }
      ReplaceEscapedNewlinesIdentity(s[1..]);
    }
  }

  /** Each escaped newline becomes one space in place: text before the first one is kept,
      and the cleaning carries on after it. This holds even when that text ends in a
      backslash: two backslashes and an `n` become one backslash and a space. */
  lemma {:induction false} ReplaceAtFirstEscapedNewline(a: string, b: string)
    requires !HasEscapedNewline(a)
    ensures ReplaceEscapedNewlines(a + "\\n" + b) == a + " " + ReplaceEscapedNewlines(b)
    decreases |a|
  {
    var s := a + "\\n" + b;
    if |a| == 0 {
      assert s[2..] == b;
    } else {
      var a' := a[1..];
      KeptFirst(a, b);
      CleanAfterFirst(a);
      ReplaceAtFirstEscapedNewline(a', b);
      assert a == [a[0]] + a';
    }
  }

  /** When the text before an escaped newline is not empty, its first character is kept. */
  lemma KeptFirst(a: string, b: string)
    requires !HasEscapedNewline(a) && |a| > 0
    ensures ReplaceEscapedNewlines(a + "\\n" + b) ==
              [a[0]] + ReplaceEscapedNewlines(a[1..] + "\\n" + b)
  {
    var s := a + "\\n" + b;
    assert s[0] == a[0];
    assert !(s[0] == '\\' && s[1] == 'n') by {
      if |a| >= 2 {
        assert s[1] == a[1];
      }
    }
    assert s[1..] == a[1..] + "\\n" + b;
  }

  /** Dropping the first character keeps a text free of escaped newlines. */
  lemma CleanAfterFirst(a: string)
    requires !HasEscapedNewline(a) && |a| > 0
    ensures !HasEscapedNewline(a[1..])
  {
    var a' := a[1..];
    forall k | 0 <= k < |a'| - 1
      ensures !(a'[k] == '\\' && a'[k + 1] == 'n')
    {
      assert a'[k] == a[k + 1] && a'[k + 1] == a[k + 2];
    }
  }

  lemma ReplaceEscapedNewlinesKeepsClean(s: string)
    ensures !HasEscapedNewline(s) ==> ReplaceEscapedNewlines(s) == s
  {
    if !HasEscapedNewline(s) {
      ReplaceEscapedNewlinesIdentity(s);
    }
  }
}
