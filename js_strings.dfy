/** The JavaScript string operations the commands rely on, stated over
    `string` (a sequence of Unicode scalar values): `split` on a one-character
    separator, `join`, `trim`, `lastIndexOf`, `startsWith`, a global
    replace of a literal pattern and the UTF-16 `length`. */
module JsStrings {
  import opened Wrappers

  /** JavaScript truthiness of an optional string option: neither `undefined` nor `""`. */
  predicate Truthy(o: Option<string>) {
    o.Some? && o.value != ""
  }

  // ---------------------------------------------------------------------------
  // split / join

  /** `s.split(sep)`: the maximal separator-free pieces, always at least one
      (`"".split(",")` is `[""]`). */
  function Split(s: string, sep: char): (r: seq<string>)
    ensures |r| >= 1
    ensures forall i :: 0 <= i < |r| ==> sep !in r[i]
    decreases |s|
  {
    if s == [] then [""]
    else
      var rest := Split(s[1..], sep);
      if s[0] == sep then [""] + rest
      else [[s[0]] + rest[0]] + rest[1..]
  }

  /** `pieces.join(sep)` for a one-character separator. */
  function Join(pieces: seq<string>, sep: char): string
  {
    if pieces == [] then ""
    else if |pieces| == 1 then pieces[0]
    else pieces[0] + [sep] + Join(pieces[1..], sep)
  }

  /** Joining the pieces of a split gives back the original text. */
  lemma {:induction false} JoinSplit(s: string, sep: char)
    ensures Join(Split(s, sep), sep) == s
    decreases |s|
  {
    if s != [] {
      var rest := Split(s[1..], sep);
      JoinSplit(s[1..], sep);
      if s[0] == sep {
        assert Split(s, sep) == [""] + rest;
        assert ([""] + rest)[1..] == rest;
      } else {
        var r := Split(s, sep);
        assert r == [[s[0]] + rest[0]] + rest[1..];
        if |rest| == 1 {
          assert Join(rest, sep) == rest[0];
        } else {
          assert r[1..] == rest[1..];
          assert Join(rest, sep) == rest[0] + [sep] + Join(rest[1..], sep);
        }
      }
    }
  }

  /** A separator-free text splits into itself alone. */
  lemma {:induction false} SplitWithoutSeparator(p: string, sep: char)
    requires sep !in p
    ensures Split(p, sep) == [p]
    decreases |p|
  {
    if p != [] {
      SplitWithoutSeparator(p[1..], sep);
      assert [p[0]] + p[1..] == p;
    }
  }

  /** Splitting at a separator that follows a separator-free prefix. */
  lemma {:induction false} SplitAfterPiece(p: string, sep: char, t: string)
    requires sep !in p
    ensures Split(p + [sep] + t, sep) == [p] + Split(t, sep)
    decreases |p|
  {
    if p == [] {
      assert p + [sep] + t == [sep] + t;
      assert ([sep] + t)[1..] == t;
    } else {
      var s := p + [sep] + t;
      assert s[0] == p[0];
      assert s[1..] == p[1..] + [sep] + t;
      SplitAfterPiece(p[1..], sep, t);
      assert [p[0]] + p[1..] == p;
    }
  }

  /** Splitting a join of separator-free pieces gives the pieces back. */
  lemma {:induction false} SplitJoin(pieces: seq<string>, sep: char)
    requires |pieces| >= 1
    requires forall i :: 0 <= i < |pieces| ==> sep !in pieces[i]
    ensures Split(Join(pieces, sep), sep) == pieces
    decreases |pieces|
  {
    if |pieces| == 1 {
      SplitWithoutSeparator(pieces[0], sep);
    } else {
      SplitJoin(pieces[1..], sep);
      SplitAfterPiece(pieces[0], sep, Join(pieces[1..], sep));
      assert [pieces[0]] + pieces[1..] == pieces;
    }
  }

  // ---------------------------------------------------------------------------
  // trim

  /** The characters `String.prototype.trim` removes: the ECMAScript
      WhiteSpace and LineTerminator code points. */
  predicate IsWhitespace(c: char) {
    c == '\t' || c == '\n' || c == '\U{000B}' || c == '\U{000C}' || c == '\r' || c == ' '
    || c == '\U{00A0}' || c == '\U{1680}' || ('\U{2000}' <= c <= '\U{200A}')
    || c == '\U{2028}' || c == '\U{2029}' || c == '\U{202F}' || c == '\U{205F}'
    || c == '\U{3000}' || c == '\U{FEFF}'
  }

  /** The first position from `i` on that does not hold whitespace, or `|s|`. */
  function FirstNonWhitespace(s: string, i: nat): (n: nat)
    requires i <= |s|
    ensures i <= n <= |s|
    ensures forall k :: i <= k < n ==> IsWhitespace(s[k])
    ensures n < |s| ==> !IsWhitespace(s[n])
    decreases |s| - i
  {
    if i < |s| && IsWhitespace(s[i]) then FirstNonWhitespace(s, i + 1) else i
  }

  /** The end of the last character before `j`, and not before `lo`, that is
      not whitespace, or `lo`. */
  function EndOfNonWhitespace(s: string, lo: nat, j: nat): (n: nat)
    requires lo <= j <= |s|
    ensures lo <= n <= j
    ensures forall k :: n <= k < j ==> IsWhitespace(s[k])
    ensures n > lo ==> !IsWhitespace(s[n - 1])
    decreases j
  {
    if j > lo && IsWhitespace(s[j - 1]) then EndOfNonWhitespace(s, lo, j - 1) else j
  }

  /** `s.trim()`: the slice of `s` left after dropping whitespace at both
      ends; everything cut is whitespace, and neither end of what is left is. */
  function Trim(s: string): (r: string)
    ensures var i := FirstNonWhitespace(s, 0); var j := EndOfNonWhitespace(s, i, |s|);
      && r == s[i..j]
      && (forall k :: 0 <= k < i ==> IsWhitespace(s[k]))
      && (forall k :: j <= k < |s| ==> IsWhitespace(s[k]))
    ensures r == [] || (!IsWhitespace(r[0]) && !IsWhitespace(r[|r| - 1]))
  {
    var i := FirstNonWhitespace(s, 0);
    var j := EndOfNonWhitespace(s, i, |s|);
    assert s[i..j] == [] || (s[i..j][0] == s[i] && s[i..j][j - i - 1] == s[j - 1]);
    s[i..j]
  }

  /** A text without whitespace at either end is its own trim. */
  lemma TrimOfTrimmed(s: string)
    requires s == [] || (!IsWhitespace(s[0]) && !IsWhitespace(s[|s| - 1]))
    ensures Trim(s) == s
  {
  }

  /** Trimming twice is trimming once. */
  lemma TrimIdempotent(s: string)
    ensures Trim(Trim(s)) == Trim(s)
  {
    TrimOfTrimmed(Trim(s));
  }

  // ---------------------------------------------------------------------------
  // lastIndexOf

  /** `s.lastIndexOf(c)`: the position of the last `c`, or -1 when there is none. */
  function LastIndexOf(s: string, c: char): (r: int)
    ensures -1 <= r < |s|
    ensures r == -1 <==> c !in s
    ensures r >= 0 ==> s[r] == c && c !in s[r + 1..]
  {
    if s == [] then -1
    else if s[|s| - 1] == c then |s| - 1
    else
      var r := LastIndexOf(s[..|s| - 1], c);
      LastIndexOfExtend(s, c, r);
      r
  }

  /** A last character other than `c` leaves the last position of `c` where
      it was in the rest. */
  lemma LastIndexOfExtend(s: string, c: char, r: int)
    requires s != [] && s[|s| - 1] != c && -1 <= r < |s| - 1
    requires r == -1 <==> c !in s[..|s| - 1]
    requires r >= 0 ==> s[..|s| - 1][r] == c && c !in s[..|s| - 1][r + 1..]
    ensures r == -1 <==> c !in s
    ensures r >= 0 ==> s[r] == c && c !in s[r + 1..]
  {
    var init := s[..|s| - 1];
    if r == -1 {
      forall j | 0 <= j < |s|
        ensures s[j] != c
      {
        if j < |s| - 1 {
          assert s[j] == init[j];
        }
      }
    } else {
      assert s[r] == init[r];
      var tail := s[r + 1..];
      forall j | 0 <= j < |tail|
        ensures tail[j] != c
      {
        if r + 1 + j < |s| - 1 {
          assert tail[j] == init[r + 1..][j];
        }
      }
    }
  }

  // ---------------------------------------------------------------------------
  // replace(/pattern/g, replacement) for a pattern without metacharacters

  /** `s.startsWith(prefix)`. */
  predicate StartsWith(s: string, prefix: string) {
    |prefix| <= |s| && s[..|prefix|] == prefix
  }

  /** `s.endsWith(suffix)`. */
  predicate EndsWith(s: string, suffix: string) {
    |suffix| <= |s| && s[|s| - |suffix|..] == suffix
  }

  /** Whether `pattern` occurs anywhere in `s`. */
  predicate Occurs(s: string, pattern: string)
    decreases |s|
  {
    StartsWith(s, pattern) || (s != [] && Occurs(s[1..], pattern))
  }

  /** `s.replace(/pattern/g, replacement)` for a replacement without `$`:
      scans left to right and replaces every non-overlapping occurrence of the
      literal `pattern`. The replacement is inserted literally, so the `$`
      patterns JavaScript expands (`$&`, `$$`, `` $` ``, `$'`) are not modelled. */
  function ReplaceAll(s: string, pattern: string, replacement: string): string
    requires pattern != []
    decreases |s|
  {
    if s == [] then []
    else if StartsWith(s, pattern) then replacement + ReplaceAll(s[|pattern|..], pattern, replacement)
    else [s[0]] + ReplaceAll(s[1..], pattern, replacement)
  }

  /** A text in which the pattern does not occur is left as it is. */
  lemma {:induction false} ReplaceAllAbsent(s: string, pattern: string, replacement: string)
    requires pattern != []
    requires !Occurs(s, pattern)
    ensures ReplaceAll(s, pattern, replacement) == s
    decreases |s|
  {
    if s != [] {
      ReplaceAllAbsent(s[1..], pattern, replacement);
      assert [s[0]] + s[1..] == s;
    }
  }

  /** Replacing the pattern by itself changes nothing. */
  lemma {:induction false} ReplaceAllSelf(s: string, pattern: string)
    requires pattern != []
    ensures ReplaceAll(s, pattern, pattern) == s
    decreases |s|
  {
    if s != [] {
      if StartsWith(s, pattern) {
        ReplaceAllSelf(s[|pattern|..], pattern);
        assert s[..|pattern|] + s[|pattern|..] == s;
      } else {
        ReplaceAllSelf(s[1..], pattern);
        assert [s[0]] + s[1..] == s;
      }
    }
  }

  /** `pieces.join(glue)` for a glue of any length. */
  function JoinWith(pieces: seq<string>, glue: string): string
  {
    if pieces == [] then ""
    else if |pieces| == 1 then pieces[0]
    else pieces[0] + glue + JoinWith(pieces[1..], glue)
  }

  /** A prefix holding no character that starts the pattern cannot hold or
      begin an occurrence, so it passes through the replacement as it is. */
  lemma {:induction false} ReplaceAllPlainPrefix(p: string, t: string, pattern: string, replacement: string)
    requires pattern != [] && pattern[0] !in p
    ensures ReplaceAll(p + t, pattern, replacement) == p + ReplaceAll(t, pattern, replacement)
    decreases |p|
  {
    if p == [] {
      assert p + t == t;
    } else {
      var s := p + t;
      assert !StartsWith(s, pattern) by {
        if |pattern| <= |s| {
          assert s[..|pattern|][0] == p[0];
        }
      }
      assert s[1..] == p[1..] + t;
      ReplaceAllPlainPrefix(p[1..], t, pattern, replacement);
      assert [p[0]] + p[1..] == p;
    }
  }

  /** Every occurrence between pieces free of the pattern's first character is
      replaced: `pieces.join(pattern).replace(/pattern/g, r) == pieces.join(r)`. */
  lemma {:induction false} ReplaceAllPieces(pieces: seq<string>, pattern: string, replacement: string)
    requires pattern != []
    requires forall i :: 0 <= i < |pieces| ==> pattern[0] !in pieces[i]
    ensures ReplaceAll(JoinWith(pieces, pattern), pattern, replacement) == JoinWith(pieces, replacement)
    decreases |pieces|
  {
    if |pieces| == 1 {
      ReplaceAllPlainPrefix(pieces[0], "", pattern, replacement);
      assert pieces[0] + "" == pieces[0];
    } else if |pieces| > 1 {
      var rest := JoinWith(pieces[1..], pattern);
      assert JoinWith(pieces, pattern) == pieces[0] + (pattern + rest);
      ReplaceAllPlainPrefix(pieces[0], pattern + rest, pattern, replacement);
      assert ReplaceAll(pattern + rest, pattern, replacement) == replacement + ReplaceAll(rest, pattern, replacement) by {
        assert StartsWith(pattern + rest, pattern) by {
          assert (pattern + rest)[..|pattern|] == pattern;
        }
        assert (pattern + rest)[|pattern|..] == rest;
      }
      ReplaceAllPieces(pieces[1..], pattern, replacement);
    }
  }

  // ---------------------------------------------------------------------------
  // length

  /** JavaScript's `length`: UTF-16 code units, two for a code point above U+FFFF. */
  function Utf16Length(s: string): (n: nat)
    ensures |s| <= n <= 2 * |s|
    ensures (forall i :: 0 <= i < |s| ==> s[i] as int <= 0xFFFF) ==> n == |s|
  {
    if s == [] then 0
    else (if s[0] as int > 0xFFFF then 2 else 1) + Utf16Length(s[1..])
  }
}
