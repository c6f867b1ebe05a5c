/**
 * The parts of Go's `strings` package that the branch filter relies on:
 * `strings.Index` with a one-character separator, `strings.Split`,
 * `strings.ToLower`, and `strings.Join` as the inverse of `Split`.
 */
module GoStrings {

  /** `strings.Index(s, string(c))`: the first position of `c` in `s`, or -1. */
  function IndexOf(s: string, c: char): (r: int)
    ensures -1 <= r < |s|
    ensures r == -1 ==> forall k :: 0 <= k < |s| ==> s[k] != c
    ensures 0 <= r ==> s[r] == c && forall k :: 0 <= k < r ==> s[k] != c
  {
    if |s| == 0 then -1
    else if s[0] == c then 0
    else
      var i := IndexOf(s[1..], c);
      if i < 0 then -1 else i + 1
  }

  /**
   * `strings.Split(s, string(sep))`: cut `s` at every occurrence of `sep`.
   * The empty string splits to one empty piece, and adjacent or trailing
   * separators give empty pieces.
   */
  function Split(s: string, sep: char): (r: seq<string>)
    ensures |r| >= 1
    ensures forall k :: 0 <= k < |r| ==> sep !in r[k]
    decreases |s|
  {
    var m := IndexOf(s, sep);
    if m < 0 then [s]
    else
      var rest := Split(s[m + 1..], sep);
      assert forall k :: 0 <= k < m ==> s[..m][k] != sep;
      [s[..m]] + rest
  }

  /** As Go documents it: one more piece than there are separators. */
  lemma {:induction false} SplitCount(s: string, sep: char)
    ensures |Split(s, sep)| == multiset(s)[sep] + 1
    decreases |s|
  {
    var m := SplitStep(s, sep);
    if m >= 0 {
      SplitCount(s[m + 1..], sep);
      assert s == s[..m] + [sep] + s[m + 1..];
      assert multiset(s) == multiset(s[..m]) + multiset{sep} + multiset(s[m + 1..]);
    }
  }

  /** `strings.Join(parts, string(sep))`. */
  function Join(parts: seq<string>, sep: char): string
  {
    if |parts| == 0 then ""
    else if |parts| == 1 then parts[0]
    else parts[0] + [sep] + Join(parts[1..], sep)
  }

  /** Splitting loses nothing: joining the pieces gives back the input. */
  lemma {:induction false} JoinSplit(s: string, sep: char)
    ensures Join(Split(s, sep), sep) == s
    decreases |s|
  {
    var m := SplitStep(s, sep);
    if m >= 0 {
      var tail := s[m + 1..];
      var rest := Split(tail, sep);
      var parts := [s[..m]] + rest;
      calc {
        Join(Split(s, sep), sep);
        Join(parts, sep);
        { assert parts[1..] == rest; }
        s[..m] + [sep] + Join(rest, sep);
        { JoinSplit(tail, sep); }
        s[..m] + [sep] + tail;
        { assert s == s[..m] + [sep] + tail; }
        s;
      }
    }
  }

  /**
   * Splitting is the inverse of joining separator-free pieces: `Split` finds
   * the only decomposition of its input into separator-free pieces.
   */
  lemma {:induction false} SplitJoin(parts: seq<string>, sep: char)
    requires |parts| >= 1
    requires forall k :: 0 <= k < |parts| ==> sep !in parts[k]
    ensures Split(Join(parts, sep), sep) == parts
    decreases |parts|
  {
    if |parts| > 1 {
      var p, tail := parts[0], Join(parts[1..], sep);
      var s := p + [sep] + tail;
      assert Join(parts, sep) == s;
      var m := IndexOf(s, sep);
      assert s[|p|] == sep;
      assert m == |p|;
      assert s[..m] == p;
      assert s[m + 1..] == tail;
      SplitJoin(parts[1..], sep);
      assert parts == [p] + parts[1..];
    }
  }

  /**
   * `t` is a field of `s`: a separator-free stretch `s[i..j]` that starts at
   * the beginning of `s` or just after a separator, and ends at the end of
   * `s` or just before a separator.
   */
  ghost predicate IsField(s: string, sep: char, t: string)
  {
    sep !in t &&
    exists i, j :: 0 <= i <= j <= |s| && s[i..j] == t && Delimited(s, sep, i, j)
  }

  /** `s[i..j]` is bounded by the ends of `s` or by separators. */
  predicate Delimited(s: string, sep: char, i: int, j: int)
    requires 0 <= i <= j <= |s|
  {
    (i == 0 || s[i - 1] == sep) && (j == |s| || s[j] == sep)
  }

  /** One step of `Split`: either no separator, or the piece before the first one. */
  lemma SplitStep(s: string, sep: char) returns (m: int)
    ensures m < 0 ==> sep !in s && Split(s, sep) == [s]
    ensures 0 <= m ==> m < |s| && s[m] == sep && sep !in s[..m]
    ensures 0 <= m ==> Split(s, sep) == [s[..m]] + Split(s[m + 1..], sep)
  {
    m := IndexOf(s, sep);
    if m < 0 {
      assert forall k :: 0 <= k < |s| ==> s[k] != sep;
    } else {
      assert forall k :: 0 <= k < m ==> s[..m][k] != sep;
    }
  }

  /** Piece `k` of separator-free `parts` is a field of their join, found at `[i..j]`. */
  lemma {:induction false} JoinPieceAt(parts: seq<string>, sep: char, k: nat) returns (i: int, j: int)
    requires k < |parts|
    requires forall n :: 0 <= n < |parts| ==> sep !in parts[n]
    ensures 0 <= i <= j <= |Join(parts, sep)|
    ensures Join(parts, sep)[i..j] == parts[k] && Delimited(Join(parts, sep), sep, i, j)
    decreases |parts|
  {
    var s := Join(parts, sep);
    if |parts| == 1 {
      i, j := 0, |s|;
    } else {
      var p, rest := parts[0], parts[1..];
      assert s == p + [sep] + Join(rest, sep);
      if k == 0 {
        i, j := 0, |p|;
        assert s[i..j] == p;
      } else {
        var i', j' := JoinPieceAt(rest, sep, k - 1);
        FieldOfWhole(s, sep, |p| + 1, i', j');
        i, j := |p| + 1 + i', |p| + 1 + j';
      }
    }
  }

  /** Piece `k` of `Split` is a field of the input, found at `s[i..j]`. */
  lemma SplitPieceAt(s: string, sep: char, k: nat) returns (i: int, j: int)
    requires k < |Split(s, sep)|
    ensures 0 <= i <= j <= |s| && s[i..j] == Split(s, sep)[k] && Delimited(s, sep, i, j)
  {
    JoinSplit(s, sep);
    i, j := JoinPieceAt(Split(s, sep), sep, k);
  }

  /** A field of `s` that starts after separator `s[a - 1]` is a field of `s[a..]`. */
  lemma FieldOfSuffix(s: string, sep: char, a: int, i: int, j: int)
    requires 0 < a <= i <= j <= |s| && s[a - 1] == sep && Delimited(s, sep, i, j)
    ensures Delimited(s[a..], sep, i - a, j - a)
    ensures s[a..][i - a..j - a] == s[i..j]
  {
  }

  /** A field of `s[a..]`, where `s[a - 1]` is a separator, is a field of `s`. */
  lemma FieldOfWhole(s: string, sep: char, a: int, i: int, j: int)
    requires 0 < a <= |s| && s[a - 1] == sep
    requires 0 <= i <= j <= |s| - a && Delimited(s[a..], sep, i, j)
    ensures Delimited(s, sep, a + i, a + j)
    ensures s[a..][i..j] == s[a + i..a + j]
  {
  }

  /** A field that starts no later than the first separator ends at it. */
  lemma FirstField(s: string, sep: char, m: int, i: int, j: int)
    requires 0 <= m < |s| && s[m] == sep && sep !in s[..m]
    requires 0 <= i <= m && i <= j <= |s| && sep !in s[i..j] && Delimited(s, sep, i, j)
    ensures i == 0 && j == m
  {
  }

  /** Every field of the input is a piece of `Split`. */
  lemma {:induction false} FieldsAreSplitPieces(s: string, sep: char, i: int, j: int)
    requires 0 <= i <= j <= |s| && sep !in s[i..j] && Delimited(s, sep, i, j)
    ensures s[i..j] in Split(s, sep)
    decreases |s|
  {
    var m := SplitStep(s, sep);
    if m < 0 {
      assert s[i..j] == s;
    } else if i <= m {
      FirstField(s, sep, m, i, j);
    } else {
      var tail, i', j' := s[m + 1..], i - (m + 1), j - (m + 1);
      FieldOfSuffix(s, sep, m + 1, i, j);
      assert tail[i'..j'] == s[i..j];
      FieldsAreSplitPieces(tail, sep, i', j');
      assert s[i..j] in Split(tail, sep);
    }
  }

  /** The pieces of `Split` are exactly the fields of the input. */
  lemma SplitIsFields(s: string, sep: char, t: string)
    ensures t in Split(s, sep) <==> IsField(s, sep, t)
  {
    if t in Split(s, sep) {
      var k :| 0 <= k < |Split(s, sep)| && Split(s, sep)[k] == t;
      var i, j := SplitPieceAt(s, sep, k);
    }
    if IsField(s, sep, t) {
      var i, j :| 0 <= i <= j <= |s| && s[i..j] == t && Delimited(s, sep, i, j);
      FieldsAreSplitPieces(s, sep, i, j);
    }
  }

  /** Go's case mapping restricted to ASCII letters. */
  function LowerChar(c: char): (r: char)
    ensures 'A' <= c <= 'Z' ==> 'a' <= r <= 'z' && r as int - 'a' as int == c as int - 'A' as int
    ensures !('A' <= c <= 'Z') ==> r == c
  {
    if 'A' <= c <= 'Z' then (c as int + 32) as char else c
  }

  /** `strings.ToLower`, for ASCII input. */
  function ToLower(s: string): (r: string)
    ensures |r| == |s|
    ensures forall i :: 0 <= i < |s| ==> r[i] == LowerChar(s[i])
  {
    seq(|s|, i requires 0 <= i < |s| => LowerChar(s[i]))
  }

  /**
   * Two characters that are equal, or are the upper- and lower-case forms
   * of the same ASCII letter.
   */
  predicate CaseEq(x: char, y: char)
  {
    x == y
    || ('A' <= x <= 'Z' && y as int == x as int + 32)
    || ('A' <= y <= 'Z' && x as int == y as int + 32)
  }

  /**
   * Two strings that differ only in the case of ASCII letters. Unlike Go's
   * `strings.EqualFold`, no other Unicode case folding is applied.
   */
  ghost predicate AsciiEqualFold(a: string, b: string)
  {
    |a| == |b| && forall i :: 0 <= i < |a| ==> CaseEq(a[i], b[i])
  }

  /** Two characters lower-case alike exactly when they are equal up to case. */
  lemma LowerCharIffCaseEq(x: char, y: char)
    ensures LowerChar(x) == LowerChar(y) <==> CaseEq(x, y)
  {
  }

  /** Strings equal up to case lower-case to the same string, and back. */
  lemma ToLowerIffAsciiEqualFold(a: string, b: string)
    ensures ToLower(a) == ToLower(b) <==> AsciiEqualFold(a, b)
  {
    if ToLower(a) == ToLower(b) {
      forall i | 0 <= i < |a| ensures CaseEq(a[i], b[i]) {
        assert ToLower(a)[i] == ToLower(b)[i];
        LowerCharIffCaseEq(a[i], b[i]);
      }
    }
    if AsciiEqualFold(a, b) {
      forall i | 0 <= i < |a| ensures ToLower(a)[i] == ToLower(b)[i] {
        LowerCharIffCaseEq(a[i], b[i]);
      }
    }
  }

  /** Lower-casing twice is lower-casing once. */
  lemma ToLowerIdempotent(s: string)
    ensures ToLower(ToLower(s)) == ToLower(s)
  {
    var l := ToLower(s);
    forall i | 0 <= i < |l| ensures ToLower(l)[i] == l[i] {
      assert !('A' <= l[i] <= 'Z');
    }
  }

  /** A string equals its own lower-cased form up to case. */
  lemma AsciiEqualFoldToLower(s: string)
    ensures AsciiEqualFold(s, ToLower(s))
  {
    ToLowerIdempotent(s);
    ToLowerIffAsciiEqualFold(s, ToLower(s));
  }

  /** A string without upper-case ASCII letters is its own lower-cased form. */
  lemma ToLowerKeepsLower(s: string)
    requires forall i :: 0 <= i < |s| ==> !('A' <= s[i] <= 'Z')
    ensures ToLower(s) == s
  {
  }
}
