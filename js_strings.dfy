/**
 * The JavaScript string operations the client relies on: the `\s` character
 * class and `trim`, ASCII case mapping, `startsWith`, `includes`, `split`,
 * `join`, and regular-expression replacements of character runs.
 */
module JsStrings {

  /** The code points JavaScript's `\s` matches and `trim` removes
      (the WhiteSpace and LineTerminator productions). */
  predicate IsSpace(c: char)
  {
    c == '\t' || c == '\n' || c == '\U{B}' || c == '\U{C}' || c == '\r' || c == ' '
    || c == '\U{A0}' || c == '\U{1680}' || ('\U{2000}' <= c <= '\U{200A}')
    || c == '\U{2028}' || c == '\U{2029}' || c == '\U{202F}' || c == '\U{205F}'
    || c == '\U{3000}' || c == '\U{FEFF}'
  }

  /** The characters a regular-expression `.` does not match. */
  predicate IsLineTerminator(c: char)
  {
    c == '\n' || c == '\r' || c == '\U{2028}' || c == '\U{2029}'
  }

  predicate IsUpper(c: char) { 'A' <= c <= 'Z' }
  predicate IsLower(c: char) { 'a' <= c <= 'z' }
  predicate IsDigit(c: char) { '0' <= c <= '9' }
  predicate IsHexDigit(c: char) { IsDigit(c) || 'a' <= c <= 'f' || 'A' <= c <= 'F' }
  /** The regular-expression class `\w`. */
  predicate IsWordChar(c: char) { IsUpper(c) || IsLower(c) || IsDigit(c) || c == '_' }

  predicate NoneIn(s: string, p: char -> bool)
  {
    forall i :: 0 <= i < |s| ==> !p(s[i])
  }

  predicate AllIn(s: string, p: char -> bool)
  {
    forall i :: 0 <= i < |s| ==> p(s[i])
  }

  function LowerChar(c: char): (r: char)
    ensures !IsUpper(r)
    ensures IsUpper(c) <==> r != c
    ensures IsLower(r) <==> IsLower(c) || IsUpper(c)
  {
    if IsUpper(c) then (c as int + 32) as char else c
  }

  /** `toLowerCase`, for the ASCII letters. */
  function Lower(s: string): (r: string)
    ensures |r| == |s|
    ensures forall i :: 0 <= i < |s| ==> r[i] == LowerChar(s[i])
  {
    seq(|s|, i requires 0 <= i < |s| => LowerChar(s[i]))
  }

  lemma LowerFixesLowered(s: string)
    requires NoneIn(s, IsUpper)
    ensures Lower(s) == s
  {
  }

  function DropWhile(s: string, p: char -> bool): (r: string)
    ensures |r| <= |s| && r == s[|s| - |r|..]
    ensures r == [] || !p(r[0])
    ensures AllIn(s[..|s| - |r|], p)
  {
    if s != [] && p(s[0]) then
      var r := DropWhile(s[1..], p);
      DroppedOneMore(s, p, r);
      r
    else s
  }

  lemma DroppedOneMore(s: string, p: char -> bool, r: string)
    requires s != [] && p(s[0])
    requires |r| <= |s| - 1 && r == s[1..][|s| - 1 - |r|..] && AllIn(s[1..][..|s| - 1 - |r|], p)
    ensures r == s[|s| - |r|..] && AllIn(s[..|s| - |r|], p)
  {
    var k := |s| - |r|;
    assert s[1..][k - 1..] == s[k..];
    forall i | 0 <= i < k ensures p(s[..k][i]) {
      if i > 0 {
        assert s[..k][i] == s[1..][..k - 1][i - 1];
      }
    }
  }

  function DropLastWhile(s: string, p: char -> bool): (r: string)
    ensures |r| <= |s| && r == s[..|r|]
    ensures r == [] || !p(r[|r| - 1])
    ensures AllIn(s[|r|..], p)
  {
    if s != [] && p(s[|s| - 1]) then
      var r := DropLastWhile(s[..|s| - 1], p);
      DroppedLastOneMore(s, p, r);
      r
    else s
  }

  lemma DroppedLastOneMore(s: string, p: char -> bool, r: string)
    requires s != [] && p(s[|s| - 1])
    requires |r| <= |s| - 1 && r == s[..|s| - 1][..|r|] && AllIn(s[..|s| - 1][|r|..], p)
    ensures r == s[..|r|] && AllIn(s[|r|..], p)
  {
    var k := |r|;
    forall i | 0 <= i < |s| - k ensures p(s[k..][i]) {
      if k + i < |s| - 1 {
        assert s[k..][i] == s[..|s| - 1][k..][i];
      }
    }
  }

  /** `r` occurs in `s` at `a` with only whitespace before and after it. */
  predicate SpaceAround(s: string, r: string, a: int)
  {
    OccursAt(s, r, a) && AllIn(s[..a], IsSpace) && AllIn(s[a + |r|..], IsSpace)
  }

  /** `trim`: the longest infix without whitespace at either end. */
  function Trim(s: string): (r: string)
    ensures exists a :: OccursAt(s, r, a)
    ensures exists a :: SpaceAround(s, r, a)
    ensures r == [] || (!IsSpace(r[0]) && !IsSpace(r[|r| - 1]))
  {
    var t := DropWhile(s, IsSpace);
    var r := DropLastWhile(t, IsSpace);
    var a := |s| - |t|;
    PrefixOfSuffix(s, a, |r|);
    assert s[a + |r|..] == t[|r|..];
    assert SpaceAround(s, r, a);
    r
  }

  /** The first `n` characters of the suffix from `k` occur at `k`. */
  lemma PrefixOfSuffix(s: string, k: nat, n: nat)
    requires k + n <= |s|
    ensures OccursAt(s, s[k..][..n], k)
  {
    assert s[k..][..n] == s[k..k + n];
  }

  lemma TrimShorter(s: string)
    ensures |Trim(s)| <= |s|
  {
    var a :| OccursAt(s, Trim(s), a);
  }

  lemma TrimKeeps(s: string)
    requires s == [] || (!IsSpace(s[0]) && !IsSpace(s[|s| - 1]))
    ensures Trim(s) == s
  {
  }

  /** Every character of `Trim(s)` is a character of `s`. */
  lemma TrimChars(s: string, p: char -> bool)
    requires AllIn(s, p)
    ensures AllIn(Trim(s), p)
  {
    var r := Trim(s);
    var a :| OccursAt(s, r, a);
    forall i | 0 <= i < |r| ensures p(r[i]) {
      assert r[i] == s[a + i];
    }
  }

  /** Keeps the characters satisfying `p` (a `replace(/[^…]/g, '')`). */
  function Filter(s: string, p: char -> bool): (r: string)
    ensures |r| <= |s|
    ensures AllIn(r, p)
    ensures AllIn(s, p) ==> r == s
  {
    if s == [] then [] else (if p(s[0]) then [s[0]] else []) + Filter(s[1..], p)
  }

  lemma FilterChars(s: string, keep: char -> bool, p: char -> bool)
    requires AllIn(s, p)
    ensures AllIn(Filter(s, keep), p)
  {
    if s != [] {
      FilterChars(s[1..], keep, p);
    }
  }

  /**
   * Replaces every maximal run of characters satisfying `p` by the single
   * character `rep` (a `replace(/x+/g, rep)`).
   */
  function ReplaceRuns(s: string, p: char -> bool, rep: char): (r: string)
    ensures |r| <= |s|
    ensures (r == []) == (s == [])
    ensures s != [] && !p(s[0]) ==> r[0] == s[0]
    ensures forall i :: 0 <= i < |r| ==> p(r[i]) ==> r[i] == rep
    ensures forall i :: 0 <= i < |r| - 1 ==> !(p(r[i]) && p(r[i + 1]))
    decreases |s|
  {
    if s == [] then []
    else if p(s[0]) then
      var rest := ReplaceRuns(DropWhile(s[1..], p), p, rep);
      RunsCons(rep, rest, p, rep);
      [rep] + rest
    else
      var rest := ReplaceRuns(s[1..], p, rep);
      RunsCons(s[0], rest, p, rep);
      [s[0]] + rest
  }

  /** Putting `c` in front of a result of `ReplaceRuns` keeps its two properties. */
  lemma RunsCons(c: char, rest: string, p: char -> bool, rep: char)
    requires forall i :: 0 <= i < |rest| ==> p(rest[i]) ==> rest[i] == rep
    requires forall i :: 0 <= i < |rest| - 1 ==> !(p(rest[i]) && p(rest[i + 1]))
    requires p(c) ==> c == rep
    requires rest != [] && p(c) ==> !p(rest[0])
    ensures var r := [c] + rest; forall i :: 0 <= i < |r| ==> p(r[i]) ==> r[i] == rep
    ensures var r := [c] + rest; forall i :: 0 <= i < |r| - 1 ==> !(p(r[i]) && p(r[i + 1]))
  {
    var r := [c] + rest;
    assert forall i :: 1 <= i < |r| ==> r[i] == rest[i - 1];
  }

  /** The characters of `ReplaceRuns(s, p, rep)` are `rep` and characters of `s` outside `p`. */
  lemma {:induction false} ReplaceRunsChars(s: string, p: char -> bool, rep: char, q: char -> bool)
    requires AllIn(s, q) && q(rep)
    ensures AllIn(ReplaceRuns(s, p, rep), q)
    decreases |s|
  {
    if s != [] {
      AllInSuffix(s, 1, q);
      if p(s[0]) {
        var t := DropWhile(s[1..], p);
        AllInSuffix(s[1..], |s| - 1 - |t|, q);
        ReplaceRunsChars(t, p, rep, q);
        AllInCons(rep, ReplaceRuns(t, p, rep), q);
      } else {
        ReplaceRunsChars(s[1..], p, rep, q);
        AllInCons(s[0], ReplaceRuns(s[1..], p, rep), q);
      }
    }
  }

  lemma AllInSuffix(s: string, k: int, q: char -> bool)
    requires AllIn(s, q) && 0 <= k <= |s|
    ensures AllIn(s[k..], q)
  {
    assert forall i :: 0 <= i < |s[k..]| ==> s[k..][i] == s[k + i];
  }

  lemma AllInCons(c: char, t: string, q: char -> bool)
    requires q(c) && AllIn(t, q)
    ensures AllIn([c] + t, q)
  {
    assert forall i :: 1 <= i < |[c] + t| ==> ([c] + t)[i] == t[i - 1];
  }

  /** A string without characters of `p` is left unchanged. */
  lemma {:induction false} ReplaceRunsNone(s: string, p: char -> bool, rep: char)
    requires NoneIn(s, p)
    ensures ReplaceRuns(s, p, rep) == s
  {
    if s != [] {
      ReplaceRunsNone(s[1..], p, rep);
    }
  }

  /** A string whose `p`-runs are single `rep` characters is left unchanged. */
  lemma {:induction false} ReplaceRunsSingles(s: string, p: char -> bool, rep: char)
    requires forall i :: 0 <= i < |s| ==> p(s[i]) ==> s[i] == rep
    requires forall i :: 0 <= i < |s| - 1 ==> !(p(s[i]) && p(s[i + 1]))
    ensures ReplaceRuns(s, p, rep) == s
  {
    if s != [] {
      if p(s[0]) {
        assert DropWhile(s[1..], p) == s[1..];
      }
      ReplaceRunsSingles(s[1..], p, rep);
    }
  }

  function StartsWith(s: string, prefix: string): bool
  {
    |prefix| <= |s| && s[..|prefix|] == prefix
  }

  /** `part` occurs in `s` starting at index `i`. */
  predicate OccursAt(s: string, part: string, i: int)
  {
    0 <= i <= |s| - |part| && s[i..i + |part|] == part
  }

  /** `includes`: `part` occurs somewhere in `s`. */
  predicate Contains(s: string, part: string)
  {
    exists i | 0 <= i <= |s| :: OccursAt(s, part, i)
  }

  /** `split(sep)` for a non-empty separator: cuts at every occurrence, left to right. */
  function Split(s: string, sep: string): (parts: seq<string>)
    requires sep != []
    ensures |parts| >= 1
    decreases |s|
  {
    if |s| < |sep| then [s]
    else if s[..|sep|] == sep then [[]] + Split(s[|sep|..], sep)
    else
      var rest := Split(s[1..], sep);
      [[s[0]] + rest[0]] + rest[1..]
  }

  /** `join(sep)`. */
  function Join(parts: seq<string>, sep: string): string
  {
    if parts == [] then []
    else if |parts| == 1 then parts[0]
    else parts[0] + sep + Join(parts[1..], sep)
  }

  /** Splitting and joining back with the same separator gives the original string. */
  lemma {:induction false} JoinSplit(s: string, sep: string)
    requires sep != []
    ensures Join(Split(s, sep), sep) == s
    decreases |s|
  {
    if |s| < |sep| {
    } else if s[..|sep|] == sep {
      JoinSplit(s[|sep|..], sep);
      JoinSplitAtSeparator(sep, s[|sep|..]);
      assert s == sep + s[|sep|..];
    } else {
      JoinSplit(s[1..], sep);
      assert s == [s[0]] + s[1..];
      JoinSplitPastChar(s[0], s[1..], sep);
    }
  }

  lemma JoinSplitAtSeparator(sep: string, t: string)
    requires sep != []
    requires Join(Split(t, sep), sep) == t
    ensures Join(Split(sep + t, sep), sep) == sep + t
  {
    var s := sep + t;
    assert s[..|sep|] == sep && s[|sep|..] == t;
    var rest := Split(t, sep);
    assert Split(s, sep) == [[]] + rest;
    JoinCons([], rest, sep);
    assert [] + sep == sep;
  }

  lemma JoinSplitPastChar(c: char, t: string, sep: string)
    requires sep != [] && |t| + 1 >= |sep| && ([c] + t)[..|sep|] != sep
    requires Join(Split(t, sep), sep) == t
    ensures Join(Split([c] + t, sep), sep) == [c] + t
  {
    var s := [c] + t;
    assert s[0] == c && s[1..] == t;
    var rest := Split(t, sep);
    assert Split(s, sep) == [[c] + rest[0]] + rest[1..];
    JoinFirstExtended([c], rest, sep);
  }

  lemma JoinCons(a: string, rest: seq<string>, sep: string)
    requires rest != []
    ensures Join([a] + rest, sep) == a + sep + Join(rest, sep)
  {
    assert ([a] + rest)[1..] == rest;
  }

  /** Extending the first part of a list by `c` extends its join by `c`. */
  lemma JoinFirstExtended(c: string, parts: seq<string>, sep: string)
    requires parts != []
    ensures Join([c + parts[0]] + parts[1..], sep) == c + Join(parts, sep)
  {
    if |parts| > 1 {
      JoinCons(c + parts[0], parts[1..], sep);
      JoinCons(parts[0], parts[1..], sep);
      assert [parts[0]] + parts[1..] == parts;
      assert c + parts[0] + sep + Join(parts[1..], sep) == c + (parts[0] + sep + Join(parts[1..], sep));
    }
  }

  /** When `p` holds no separator character, splitting `p + rest` only extends the first part. */
  lemma {:induction false} SplitPlainPrefix(p: string, rest: string, sep: string)
    requires sep != [] && forall i :: 0 <= i < |p| ==> p[i] != sep[0]
    ensures Split(p + rest, sep) == [p + Split(rest, sep)[0]] + Split(rest, sep)[1..]
    decreases |p|
  {
    if p != [] {
      var s := p + rest;
      assert s[0] == p[0];
      assert |s| >= |sep| ==> s[..|sep|] != sep;
      assert s[1..] == p[1..] + rest;
      SplitPlainPrefix(p[1..], rest, sep);
      var x := Split(rest, sep);
      if |s| < |sep| {
        assert |rest| < |sep|;
      } else {
        assert [s[0]] + (p[1..] + x[0]) == p + x[0];
      }
    } else {
      var x := Split(rest, sep);
      assert p + rest == rest && p + x[0] == x[0];
      assert [x[0]] + x[1..] == x;
    }
  }

  /** Splitting a string that starts with the separator yields an empty first part. */
  lemma SplitAtSep(rest: string, sep: string)
    requires sep != []
    ensures Split(sep + rest, sep) == [[]] + Split(rest, sep)
  {
    assert (sep + rest)[..|sep|] == sep;
    assert (sep + rest)[|sep|..] == rest;
  }

  function DigitChar(d: nat): (c: char)
    requires d < 10
    ensures IsDigit(c)
  {
    ('0' as int + d) as char
  }

  /** Decimal rendering of a number, as template literals produce it. */
  function IntToString(n: int): (r: string)
    ensures r != []
    decreases if n < 0 then -n + 1 else n
  {
    if n < 0 then "-" + IntToString(-n)
    else if n < 10 then [DigitChar(n)]
    else IntToString(n / 10) + [DigitChar(n % 10)]
  }

  /** A string without the separator splits into itself alone. */
  lemma {:induction false} SplitNoSep(s: string, c: char)
    requires forall i :: 0 <= i < |s| ==> s[i] != c
    ensures Split(s, [c]) == [s]
    decreases |s|
  {
    if |s| >= 1 {
      assert s[..1] != [c] by { assert s[..1][0] == s[0]; }
      SplitNoSep(s[1..], c);
      assert [s[0]] + s[1..] == s;
    }
  }

  /** No part of a split on `c` contains `c`. */
  lemma {:induction false} SplitPartsFree(s: string, c: char)
    ensures forall i, j :: 0 <= i < |Split(s, [c])| && 0 <= j < |Split(s, [c])[i]| ==> Split(s, [c])[i][j] != c
    decreases |s|
  {
    if |s| >= 1 {
      SplitPartsFree(s[1..], c);
      if s[..1] != [c] {
        assert s[0] != c by { assert s[..1][0] == s[0]; }
        var rest := Split(s[1..], [c]);
        var parts := [[s[0]] + rest[0]] + rest[1..];
        assert Split(s, [c]) == parts;
        forall i, j | 0 <= i < |parts| && 0 <= j < |parts[i]| ensures parts[i][j] != c {
          if i == 0 {
            if j > 0 {
              assert parts[0][j] == rest[0][j - 1];
            }
          } else {
            assert parts[i] == rest[i];
          }
        }
      }
    }
  }

  /** Joining parts free of `c` with `c` and splitting on `c` gives the parts back. */
  lemma {:induction false} SplitJoin(parts: seq<string>, c: char)
    requires parts != []
    requires forall i, j :: 0 <= i < |parts| && 0 <= j < |parts[i]| ==> parts[i][j] != c
    ensures Split(Join(parts, [c]), [c]) == parts
    decreases |parts|
  {
    if |parts| == 1 {
      SplitNoSep(parts[0], c);
    } else {
      var tail := parts[1..];
      assert forall i, j :: 0 <= i < |tail| && 0 <= j < |tail[i]| ==> tail[i][j] != c by {
        forall i, j | 0 <= i < |tail| && 0 <= j < |tail[i]| ensures tail[i][j] != c {
          assert tail[i] == parts[i + 1];
        }
      }
      SplitJoin(tail, c);
      var rest := Join(tail, [c]);
      assert Join(parts, [c]) == parts[0] + ([c] + rest);
      SplitAtSep(rest, [c]);
      assert forall i :: 0 <= i < |parts[0]| ==> parts[0][i] != [c][0];
      SplitPlainPrefix(parts[0], [c] + rest, [c]);
      var x := Split([c] + rest, [c]);
      assert x == [[]] + tail;
      assert x[0] == [] && x[1..] == tail;
      assert parts[0] + x[0] == parts[0];
      assert [parts[0]] + tail == parts;
    }
  }

  /** A leading space makes no difference to `trim`. */
  lemma TrimLeadingSpace(x: string)
    ensures Trim(" " + x) == Trim(x)
  {
    assert (" " + x)[1..] == x;
    assert DropWhile(" " + x, IsSpace) == DropWhile(x, IsSpace);
  }

  lemma TrimIdempotent(s: string)
    ensures Trim(Trim(s)) == Trim(s)
  {
    TrimKeeps(Trim(s));
  }
}
