/**
 * The JavaScript string built-ins the application relies on, on strings as sequences of
 * characters: `trim`, `toLowerCase`, `includes`, `startsWith`, `split` on one character,
 * and global replacement of a literal pattern.
 */
module JsString {

  /** ECMAScript WhiteSpace and LineTerminator code points: what `trim` removes. */
  predicate IsWhitespace(c: char) {
    var n := c as int;
    (9 <= n <= 13) || n == 0x20 || n == 0xA0 || n == 0x1680 || (0x2000 <= n <= 0x200A) ||
    n == 0x2028 || n == 0x2029 || n == 0x202F || n == 0x205F || n == 0x3000 || n == 0xFEFF
  }

  predicate AllWhitespace(s: string) {
    forall i :: 0 <= i < |s| ==> IsWhitespace(s[i])
  }

  /** No whitespace at either end. */
  predicate IsTrimmed(s: string) {
    s == [] || (!IsWhitespace(s[0]) && !IsWhitespace(s[|s| - 1]))
  }

  /** The number of whitespace characters that start s. */
  function LeadingWhitespace(s: string): (k: nat)
    ensures k <= |s|
    ensures AllWhitespace(s[..k])
    ensures k < |s| ==> !IsWhitespace(s[k])
  {
    if s != [] && IsWhitespace(s[0]) then 1 + LeadingWhitespace(s[1..]) else 0
  }

  /** The number of whitespace characters that end s. */
  function TrailingWhitespace(s: string): (k: nat)
    ensures k <= |s|
    ensures AllWhitespace(s[|s| - k..])
    ensures k < |s| ==> !IsWhitespace(s[|s| - 1 - k])
  {
    if s != [] && IsWhitespace(s[|s| - 1]) then 1 + TrailingWhitespace(s[..|s| - 1]) else 0
  }

  /** `s.trim()` */
  function Trim(s: string): (r: string)
    ensures IsTrimmed(r)
    ensures |r| <= |s|
    ensures r == [] <==> AllWhitespace(s)
  {
    var a := LeadingWhitespace(s);
    var rest := s[a..];
    TrimmedEmpty(s, a, rest);
    rest[..|rest| - TrailingWhitespace(rest)]
  }

  /** When nothing is left between the leading and the trailing whitespace, s is all whitespace. */
  lemma TrimmedEmpty(s: string, a: nat, rest: string)
    requires a == LeadingWhitespace(s) && rest == s[a..]
    ensures rest[..|rest| - TrailingWhitespace(rest)] == [] ==> AllWhitespace(s)
  {
    if |rest| - TrailingWhitespace(rest) == 0 {
      assert rest[|rest| - TrailingWhitespace(rest)..] == rest;
      AllWhitespaceJoin(s, a);
    }
  }

  lemma AllWhitespaceJoin(s: string, a: nat)
    requires a <= |s| && AllWhitespace(s[..a]) && AllWhitespace(s[a..])
    ensures AllWhitespace(s)
  {
    forall i | 0 <= i < |s|
      ensures IsWhitespace(s[i])
    {
      if i < a {
        assert s[..a][i] == s[i];
      } else {
        assert s[a..][i - a] == s[i];
      }
    }
  }

  /** Trimming removes only surrounding whitespace: the result is a slice s[i..j] of s. */
  lemma TrimIsSlice(s: string) returns (i: nat, j: nat)
    ensures i <= j <= |s| && Trim(s) == s[i..j]
    ensures AllWhitespace(s[..i]) && AllWhitespace(s[j..])
  {
    i := LeadingWhitespace(s);
    var rest := s[i..];
    var t := TrailingWhitespace(rest);
    j := i + |rest| - t;
    assert s[j..] == rest[|rest| - t..];
  }

  /** Trimming an already trimmed string changes nothing; in particular `trim` is idempotent. */
  lemma TrimTrimmed(s: string)
    requires IsTrimmed(s)
    ensures Trim(s) == s
  {
  }

  function ToLowerChar(c: char): char {
    if 'A' <= c <= 'Z' then (c as int + 32) as char else c
  }

  /** `s.toLowerCase()` on the ASCII letters. */
  function ToLower(s: string): string {
    seq(|s|, i requires 0 <= i < |s| => ToLowerChar(s[i]))
  }

  /** `s.startsWith(prefix)` */
  predicate StartsWith(s: string, prefix: string) {
    |prefix| <= |s| && s[..|prefix|] == prefix
  }

  /** t occurs in s at position i. */
  predicate OccursAt(s: string, t: string, i: int) {
    0 <= i <= |s| - |t| && s[i..i + |t|] == t
  }

  /** `s.includes(t)`: t occurs in s at some position. */
  predicate Contains(s: string, t: string) {
    exists i | 0 <= i <= |s| - |t| :: OccursAt(s, t, i)
  }

  function Count(s: string, c: char): (n: nat)
    ensures n <= |s|
  {
    if s == [] then 0 else (if s[0] == c then 1 else 0) + Count(s[1..], c)
  }

  /** A non-empty pattern none of whose characters occurs in s does not occur in s. */
  lemma DisjointAbsent(s: string, pattern: string)
    requires pattern != [] && forall i :: 0 <= i < |s| ==> s[i] !in pattern
    ensures !Contains(s, pattern)
  {
    forall i | 0 <= i <= |s| - |pattern|
      ensures !OccursAt(s, pattern, i)
    {
      assert s[i..i + |pattern|][0] == s[i];
    }
  }

  /** The position of the first c in s, or |s| when there is none (`s.indexOf(c)` made total). */
  function FirstIndex(s: string, c: char): (r: nat)
    ensures r <= |s| && c !in s[..r]
    ensures r < |s| ==> s[r] == c
    ensures r == |s| <==> c !in s
  {
    if s == [] then 0 else if s[0] == c then 0 else 1 + FirstIndex(s[1..], c)
  }

  /** A c at position i with no c before it is the first one. */
  lemma {:induction false} FirstIndexAt(s: string, c: char, i: nat)
    requires i < |s| && s[i] == c && c !in s[..i]
    ensures FirstIndex(s, c) == i
  {
    if i > 0 {
      assert s[0] == s[..i][0];
      assert s[1..][..i - 1] == s[1..i];
      assert forall k :: 0 <= k < i - 1 ==> s[1..i][k] == s[..i][k + 1];
      FirstIndexAt(s[1..], c, i - 1);
    }
  }

  /** `s.split(sep)` for a one-character separator. */
  function Split(s: string, sep: char): (pieces: seq<string>)
    ensures |pieces| == Count(s, sep) + 1
    ensures forall k :: 0 <= k < |pieces| ==> sep !in pieces[k]
  {
    if s == [] then [[]]
    else
      var rest := Split(s[1..], sep);
      if s[0] == sep then [[]] + rest else [[s[0]] + rest[0]] + rest[1..]
  }

  /** Without the separator, split gives the whole string. */
  lemma {:induction false} SplitWithout(s: string, sep: char)
    requires sep !in s
    ensures Split(s, sep) == [s]
  {
    if s != [] {
      assert sep !in s[1..] by {
        forall k | 0 <= k < |s[1..]| ensures s[1..][k] != sep { assert s[1..][k] == s[k + 1]; }
      }
      SplitWithout(s[1..], sep);
      assert [s[0]] + s[1..] == s;
    }
  }

  /** Split at the first separator: the part before it, then the pieces of the rest. */
  lemma {:induction false} SplitFirst(s: string, sep: char)
    requires sep in s
    ensures var i := FirstIndex(s, sep); Split(s, sep) == [s[..i]] + Split(s[i + 1..], sep)
  {
    if s[0] != sep {
      var i := FirstIndex(s, sep);
      var rest := Split(s[1..], sep);
      assert Split(s, sep) == [[s[0]] + rest[0]] + rest[1..];
      SplitFirst(s[1..], sep);
      assert rest == [s[1..][..i - 1]] + Split(s[1..][i..], sep);
      assert s[1..][i..] == s[i + 1..];
      assert [s[0]] + s[1..][..i - 1] == s[..i];
    }
  }

  /** The first piece of a split is the text before the first separator. */
  lemma {:induction false} SplitHead(s: string, sep: char)
    ensures Split(s, sep)[0] == s[..FirstIndex(s, sep)]
  {
    if s != [] && s[0] != sep {
      var k := FirstIndex(s[1..], sep);
      SplitHead(s[1..], sep);
      assert [s[0]] + s[1..][..k] == s[..k + 1];
    }
  }

  /** Every character of a piece comes from the string that was split. */
  lemma {:induction false} SplitChars(s: string, sep: char)
    ensures forall k, i :: 0 <= k < |Split(s, sep)| && 0 <= i < |Split(s, sep)[k]| ==> Split(s, sep)[k][i] in s
  {
    if s != [] {
      SplitChars(s[1..], sep);
      var rest := Split(s[1..], sep);
      assert forall k, i :: 0 <= k < |rest| && 0 <= i < |rest[k]| ==> rest[k][i] in s;
      if s[0] != sep {
        var first := [s[0]] + rest[0];
        assert forall i :: 0 <= i < |first| ==> first[i] in s;
      }
    }
  }

  /** `pieces.join(sep)` */
  function Join(pieces: seq<string>, sep: char): string {
    if pieces == [] then []
    else if |pieces| == 1 then pieces[0]
    else pieces[0] + [sep] + Join(pieces[1..], sep)
  }

  /** A character of a joined string is the separator or a character of one of the pieces. */
  lemma {:induction false} JoinChars(pieces: seq<string>, sep: char, i: nat)
    requires i < |Join(pieces, sep)|
    ensures Join(pieces, sep)[i] == sep ||
            exists k :: 0 <= k < |pieces| && Join(pieces, sep)[i] in pieces[k]
  {
    if |pieces| == 1 {
      assert Join(pieces, sep)[i] in pieces[0];
    } else if |pieces| > 1 {
      var j := Join(pieces, sep);
      assert j == pieces[0] + [sep] + Join(pieces[1..], sep);
      if i < |pieces[0]| {
        assert j[i] in pieces[0];
      } else if i > |pieces[0]| {
        var i' := i - |pieces[0]| - 1;
        assert j[i] == Join(pieces[1..], sep)[i'];
        JoinChars(pieces[1..], sep, i');
        if j[i] != sep {
          var k :| 0 <= k < |pieces[1..]| && j[i] in pieces[1..][k];
          assert j[i] in pieces[k + 1];
        }
      }
    }
  }

  /** Splitting loses nothing: joining the pieces with the separator gives back the string. */
  lemma {:induction false} JoinSplit(s: string, sep: char)
    ensures Join(Split(s, sep), sep) == s
  {
    if s != [] {
      var rest := Split(s[1..], sep);
      JoinSplit(s[1..], sep);
      if s[0] == sep {
        assert Split(s, sep) == [[]] + rest;
        assert (([[]] + rest)[1..]) == rest;
      } else {
        var pieces := Split(s, sep);
        assert pieces == [[s[0]] + rest[0]] + rest[1..];
        if |rest| == 1 {
          assert Join(pieces, sep) == [s[0]] + rest[0];
        } else {
          assert pieces[1..] == rest[1..];
          assert Join(pieces, sep) == [s[0]] + rest[0] + [sep] + Join(rest[1..], sep);
        }
      }
    }
  }

  /**
   * `s.replace(new RegExp(pattern, 'g'), replacement)` for a pattern free of regular-expression
   * metacharacters: scanning left to right, every occurrence that does not overlap an earlier
   * replaced one is replaced. The empty pattern matches before every character and at the end.
   */
  function ReplaceAll(s: string, pattern: string, replacement: string): string
    decreases |s|
  {
    if pattern == [] then
      if s == [] then replacement else replacement + [s[0]] + ReplaceAll(s[1..], pattern, replacement)
    else if s == [] then []
    else if StartsWith(s, pattern) then replacement + ReplaceAll(s[|pattern|..], pattern, replacement)
    else [s[0]] + ReplaceAll(s[1..], pattern, replacement)
  }

  /** Replacing a non-empty pattern that does not occur leaves the string unchanged. */
  lemma {:induction false} ReplaceAbsent(s: string, pattern: string, replacement: string)
    requires pattern != [] && !Contains(s, pattern)
    ensures ReplaceAll(s, pattern, replacement) == s
  {
    if s != [] {
      assert !OccursAt(s, pattern, 0);
      assert !StartsWith(s, pattern);
      forall i | 0 <= i <= |s[1..]| - |pattern|
        ensures !OccursAt(s[1..], pattern, i)
      {
        assert s[1..][i..i + |pattern|] == s[i + 1..i + 1 + |pattern|];
        assert !OccursAt(s, pattern, i + 1);
      }
      ReplaceAbsent(s[1..], pattern, replacement);
    }
  }

  /** Replacing a pattern by itself is the identity: every match consumes exactly the pattern. */
  lemma {:induction false} ReplaceBySelf(s: string, pattern: string)
    ensures ReplaceAll(s, pattern, pattern) == s
  {
    if s != [] {
      if pattern == [] || !StartsWith(s, pattern) {
        ReplaceBySelf(s[1..], pattern);
        assert s == [s[0]] + s[1..];
      } else {
        ReplaceBySelf(s[|pattern|..], pattern);
        assert s == s[..|pattern|] + s[|pattern|..];
      }
    }
  }

  /** If the pattern neither starts c + t nor occurs in t, it does not occur in c + t. */
  lemma ConsAbsent(c: char, t: string, pattern: string)
    requires !OccursAt([c] + t, pattern, 0) && !Contains(t, pattern)
    ensures !Contains([c] + t, pattern)
  {
    var s := [c] + t;
    forall i | 1 <= i <= |s| - |pattern|
      ensures !OccursAt(s, pattern, i)
    {
      assert s[i..i + |pattern|] == t[i - 1..i - 1 + |pattern|];
      assert !OccursAt(t, pattern, i - 1);
    }
  }

  /**
   * If the pattern occurs in neither a nor b, and the last character of a or the first of b
   * is not in the pattern, then it does not occur in a + b.
   */
  lemma ConcatAbsent(a: string, b: string, pattern: string)
    requires !Contains(a, pattern) && !Contains(b, pattern)
    requires a == [] || b == [] || a[|a| - 1] !in pattern || b[0] !in pattern
    ensures !Contains(a + b, pattern)
  {
    var s := a + b;
    forall i | 0 <= i <= |s| - |pattern|
      ensures !OccursAt(s, pattern, i)
    {
      if i + |pattern| <= |a| {
        assert s[i..i + |pattern|] == a[i..i + |pattern|];
        assert !OccursAt(a, pattern, i);
      } else if i >= |a| {
        assert s[i..i + |pattern|] == b[i - |a|..i - |a| + |pattern|];
        assert !OccursAt(b, pattern, i - |a|);
      } else if a[|a| - 1] !in pattern {
        assert s[i..i + |pattern|][|a| - 1 - i] == a[|a| - 1];
      } else {
        assert s[i..i + |pattern|][|a| - i] == b[0];
      }
    }
  }

  /**
   * Up to any length n, the result either copies the input unchanged, or already holds the
   * first character of the replacement somewhere before n.
   */
  lemma {:induction false} ReplacePrefix(s: string, pattern: string, replacement: string, n: nat)
    requires pattern != [] && replacement != []
    requires n <= |ReplaceAll(s, pattern, replacement)|
    ensures (n <= |s| && ReplaceAll(s, pattern, replacement)[..n] == s[..n]) ||
            (exists j :: 0 <= j < n && ReplaceAll(s, pattern, replacement)[j] == replacement[0])
  {
    var r := ReplaceAll(s, pattern, replacement);
    if n > 0 && s != [] {
      if StartsWith(s, pattern) {
        assert r[0] == replacement[0];
      } else {
        var t := ReplaceAll(s[1..], pattern, replacement);
        assert r == [s[0]] + t;
        ReplacePrefix(s[1..], pattern, replacement, n - 1);
        if n - 1 <= |s[1..]| && t[..n - 1] == s[1..][..n - 1] {
          assert r[..n] == [s[0]] + t[..n - 1];
          assert s[..n] == [s[0]] + s[1..][..n - 1];
        } else {
          var j :| 0 <= j < n - 1 && t[j] == replacement[0];
          assert r[j + 1] == replacement[0];
        }
      }
    }
  }

  /**
   * After a global replacement, the pattern is gone, provided the replacement cannot re-create
   * it: the pattern does not occur in the replacement, and neither the first nor the last
   * character of the replacement occurs in the pattern.
   */
  lemma {:induction false} ReplaceRemoves(s: string, pattern: string, replacement: string)
    requires pattern != [] && replacement != []
    requires replacement[0] !in pattern && replacement[|replacement| - 1] !in pattern
    requires !Contains(replacement, pattern)
    ensures !Contains(ReplaceAll(s, pattern, replacement), pattern)
  {
    if s != [] {
      if StartsWith(s, pattern) {
        var t := ReplaceAll(s[|pattern|..], pattern, replacement);
        ReplaceRemoves(s[|pattern|..], pattern, replacement);
        assert ReplaceAll(s, pattern, replacement) == replacement + t;
        ConcatAbsent(replacement, t, pattern);
      } else {
        var t := ReplaceAll(s[1..], pattern, replacement);
        var r := [s[0]] + t;
        assert ReplaceAll(s, pattern, replacement) == r;
        ReplaceRemoves(s[1..], pattern, replacement);
        if |pattern| <= |r| {
          var n := |pattern| - 1;
          ReplacePrefix(s[1..], pattern, replacement, n);
          if n <= |s[1..]| && t[..n] == s[1..][..n] {
            assert s[..|pattern|] == [s[0]] + s[1..][..n];
            assert r[..|pattern|] == [s[0]] + t[..n];
            assert r[0..|pattern|] != pattern;
          } else {
            var j :| 0 <= j < n && t[j] == replacement[0];
            assert r[0..|pattern|][j + 1] == replacement[0];
          }
        }
        assert !OccursAt(r, pattern, 0);
        ConsAbsent(s[0], t, pattern);
      }
    }
  }
}
