/** The few Python string operations the core relies on, written out on
    `seq<char>`: `startswith`, `split(d)[-1]`, `strip`, `lower`, `join` and
    `replace(p, "")`. Whitespace and case are ASCII only. */
module Strings {

  /** The ASCII characters `str.strip()` removes: space, tab, the line and
      page breaks, and the four separators 0x1C-0x1F. */
  predicate IsWhitespace(c: char) {
    c == ' ' || c == '\t' || c == '\n' || c == '\r' || c == '\U{000B}' || c == '\U{000C}' ||
    '\U{001C}' <= c <= '\U{001F}'
  }

  /** `s.startswith(p)` */
  predicate StartsWith(s: string, p: string) {
    |p| <= |s| && s[..|p|] == p
  }

  /** A text does not start with a pattern whose first character differs
      from its own. */
  lemma FirstCharDiffers(s: string, p: string)
    requires |s| > 0 && |p| > 0 && s[0] != p[0]
    ensures !StartsWith(s, p)
  {
    if |p| <= |s| {
      assert s[..|p|][0] == s[0];
    }
  }

  /** `p` occurs in `s` starting at index `i`. */
  predicate OccursAt(s: string, p: string, i: int) {
    0 <= i && i + |p| <= |s| && s[i..i + |p|] == p
  }

  /** `p in s` */
  predicate Contains(s: string, p: string) {
    exists i | 0 <= i <= |s| - |p| :: OccursAt(s, p, i)
  }

  /** An occurrence in the tail of `s` is an occurrence in `s`, one further on. */
  lemma ContainsTail(s: string, p: string)
    requires |s| > 0 && Contains(s[1..], p)
    ensures Contains(s, p)
  {
    var i :| 0 <= i <= |s[1..]| - |p| && OccursAt(s[1..], p, i);
    assert s[i + 1..i + 1 + |p|] == s[1..][i..i + |p|];
    assert OccursAt(s, p, i + 1);
  }

  /** Containment is transitive: what a part of `a` holds, `a` holds. */
  lemma ContainsTransitive(a: string, b: string, c: string)
    requires Contains(a, b) && Contains(b, c)
    ensures Contains(a, c)
  {
    var i :| 0 <= i <= |a| - |b| && OccursAt(a, b, i);
    var j :| 0 <= j <= |b| - |c| && OccursAt(b, c, j);
    assert a[i..i + |b|] == b && b[j..j + |c|] == c;
    forall k | 0 <= k < |c| ensures a[i + j..i + j + |c|][k] == c[k] {
      assert a[i + j + k] == a[i..i + |b|][j + k] == b[j + k] == b[j..j + |c|][k];
    }
    assert a[i + j..i + j + |c|] == c;
    assert OccursAt(a, c, i + j);
  }

  /** A string shorter than `p` cannot contain `p`. */
  lemma ShortContainsNothing(s: string, p: string)
    requires |s| < |p|
    ensures !Contains(s, p)
  {
  }

  /** `s.split(d)[-1]`: Python splits at the leftmost occurrence of `d`,
      again and again, and the last piece is what remains. */
  function AfterLast(s: string, d: string): string
    requires |d| > 0
    decreases |s|
  {
    if !Contains(s, d) then s
    else if StartsWith(s, d) then AfterLast(s[|d|..], d)
    else AfterLast(s[1..], d)
  }

  /** The last piece is a suffix of the text. */
  lemma {:induction false} AfterLastIsSuffix(s: string, d: string)
    requires |d| > 0
    ensures |AfterLast(s, d)| <= |s|
    ensures AfterLast(s, d) == s[|s| - |AfterLast(s, d)|..]
    decreases |s|
  {
    if !Contains(s, d) {
    } else if StartsWith(s, d) {
      AfterLastIsSuffix(s[|d|..], d);
    } else {
      AfterLastIsSuffix(s[1..], d);
    }
  }

  /** The last piece holds no delimiter. */
  lemma {:induction false} AfterLastHasNoDelimiter(s: string, d: string)
    requires |d| > 0
    ensures !Contains(AfterLast(s, d), d)
    decreases |s|
  {
    if !Contains(s, d) {
    } else if StartsWith(s, d) {
      AfterLastHasNoDelimiter(s[|d|..], d);
    } else {
      AfterLastHasNoDelimiter(s[1..], d);
    }
  }

  /** When the text holds the delimiter, the last piece comes right after
      an occurrence of it. */
  lemma {:induction false} AfterLastFollowsDelimiter(s: string, d: string)
    requires |d| > 0 && Contains(s, d)
    ensures |AfterLast(s, d)| + |d| <= |s|
    ensures s[|s| - |AfterLast(s, d)| - |d|..|s| - |AfterLast(s, d)|] == d
    decreases |s|
  {
    var n := if StartsWith(s, d) then |d| else 1;
    var t := s[n..];
    if StartsWith(s, d) && !Contains(t, d) {
      assert AfterLast(s, d) == t;
      assert s[|s| - |t| - |d|..|s| - |t|] == s[..|d|];
    } else {
      if !StartsWith(s, d) {
        OccurrenceMovesToTail(s, d);
      }
      assert AfterLast(s, d) == AfterLast(t, d);
      AfterLastFollowsDelimiter(t, d);
      var r := AfterLast(t, d);
      var a, b := |s| - |r| - |d|, |s| - |r|;
      assert t[a - n..b - n] == d;
      DropSlice(s, n, a, b);
      assert s[a..b] == d;
    }
  }

  /** `t` is the last piece of `s` split at `d`, defined by where it sits: a
      suffix of `s` holding no `d`, right after an occurrence of `d` when
      `s` holds one, and the whole of `s` otherwise. */
  predicate IsLastPiece(s: string, d: string, t: string) {
    |t| <= |s| && t == s[|s| - |t|..] && !Contains(t, d) &&
    (Contains(s, d) ==> |t| + |d| <= |s| && s[|s| - |t| - |d|..|s| - |t|] == d) &&
    (!Contains(s, d) ==> t == s)
  }

  /** The delimiter's first character appears nowhere else in it, so two
      occurrences of it can never overlap. */
  predicate FirstCharUnique(d: string) {
    |d| > 0 && forall k :: 0 < k < |d| ==> d[k] != d[0]
  }

  /** `split(d)[-1]` is the last piece. */
  lemma AfterLastIsLastPiece(s: string, d: string)
    requires |d| > 0
    ensures IsLastPiece(s, d, AfterLast(s, d))
  {
    AfterLastIsSuffix(s, d);
    AfterLastHasNoDelimiter(s, d);
    if Contains(s, d) {
      AfterLastFollowsDelimiter(s, d);
    } else {
      AfterLastWithoutDelimiter(s, d);
    }
  }

  /** For a delimiter whose occurrences cannot overlap there is only one
      last piece. */
  lemma LastPieceUnique(s: string, d: string, t1: string, t2: string)
    requires FirstCharUnique(d) && IsLastPiece(s, d, t1) && IsLastPiece(s, d, t2) && |t1| <= |t2|
    ensures t1 == t2
  {
    if Contains(s, d) {
      var p1, p2 := |s| - |t1| - |d|, |s| - |t2| - |d|;
      OccursAtChars(s, d, p1);
      OccursAtChars(s, d, p2);
      SuffixKeepsOccurrence(s, t2, d, p1);
      assert s[p1] == d[0];
      if |t1| < |t2| {
        assert false;
      }
    }
  }

  /** An occurrence gives the text's characters there. */
  lemma OccursAtChars(s: string, d: string, p: int)
    requires OccursAt(s, d, p)
    ensures forall i :: p <= i < p + |d| ==> s[i] == d[i - p]
  {
    forall i | p <= i < p + |d| ensures s[i] == d[i - p] {
      assert s[i] == s[p..p + |d|][i - p];
    }
  }

  /** An occurrence inside a suffix is an occurrence in that suffix. */
  lemma SuffixKeepsOccurrence(s: string, t: string, d: string, p: int)
    requires |t| <= |s| && t == s[|s| - |t|..] && OccursAt(s, d, p)
    ensures p >= |s| - |t| ==> Contains(t, d)
  {
    if p >= |s| - |t| {
      var q := |s| - |t|;
      assert t[p - q..p - q + |d|] == s[p..p + |d|];
      assert OccursAt(t, d, p - q);
    }
  }

  /** For such a delimiter, any last piece is `split(d)[-1]`. */
  lemma LastPieceIsAfterLast(s: string, d: string, t: string)
    requires FirstCharUnique(d) && IsLastPiece(s, d, t)
    ensures t == AfterLast(s, d)
  {
    AfterLastIsLastPiece(s, d);
    if |t| <= |AfterLast(s, d)| {
      LastPieceUnique(s, d, t, AfterLast(s, d));
    } else {
      LastPieceUnique(s, d, AfterLast(s, d), t);
    }
  }

  /** A one-character text occurs exactly where that character does. */
  lemma ContainsChar(s: string, c: char)
    ensures Contains(s, [c]) <==> c in s
  {
    if c in s {
      var i :| 0 <= i < |s| && s[i] == c;
      assert s[i..i + 1] == [c];
      assert OccursAt(s, [c], i);
    }
    if Contains(s, [c]) {
      var i :| 0 <= i <= |s| - 1 && OccursAt(s, [c], i);
      assert s[i] == s[i..i + 1][0];
    }
  }

  /** With a one-character delimiter, the last piece of `prefix + d + name`
      is `name` whenever `name` holds no delimiter, whatever `prefix` is. */
  lemma AfterLastOfSingle(prefix: string, c: char, name: string)
    requires c !in name
    ensures AfterLast(prefix + [c] + name, [c]) == name
  {
    var s, d := prefix + [c] + name, [c];
    assert s[|prefix|..|prefix| + 1] == d;
    assert OccursAt(s, d, |prefix|);
    assert Contains(s, d);
    AfterLastIsSuffix(s, d);
    AfterLastHasNoDelimiter(s, d);
    AfterLastFollowsDelimiter(s, d);
    var r := AfterLast(s, d);
    var k := |s| - |r| - 1;
    assert s[k..k + 1] == d;
    assert s[k] == s[k..k + 1][0] == d[0] == c;
    assert forall i :: |prefix| < i < |s| ==> s[i] == name[i - |prefix| - 1];
    if |r| > |name| {
      assert r[|r| - |name| - 1] == s[|prefix|];
      assert r[|r| - |name| - 1..|r| - |name|] == d;
      assert OccursAt(r, d, |r| - |name| - 1);
    } else if |r| < |name| {
      assert false;
    }
    assert name == s[|s| - |name|..];
  }

  /** An occurrence that is not at the front is one in the tail. */
  lemma OccurrenceMovesToTail(s: string, d: string)
    requires |d| > 0 && Contains(s, d) && !StartsWith(s, d)
    ensures Contains(s[1..], d)
  {
    var i :| 0 <= i <= |s| - |d| && OccursAt(s, d, i);
    assert i != 0;
    DropSlice(s, 1, i, i + |d|);
    assert OccursAt(s[1..], d, i - 1);
  }

  /** Slicing after a drop is slicing further on. */
  lemma DropSlice(s: string, n: nat, a: nat, b: nat)
    requires n <= a <= b <= |s|
    ensures s[n..][a - n..b - n] == s[a..b]
  {
  }

  /** Without a delimiter the whole text is the last piece. */
  lemma AfterLastWithoutDelimiter(s: string, d: string)
    requires |d| > 0 && !Contains(s, d)
    ensures AfterLast(s, d) == s
  {
  }

  /** `s.lstrip()` */
  function TrimStart(s: string): (r: string)
    ensures |r| <= |s| && r == s[|s| - |r|..]
    ensures forall k :: 0 <= k < |s| - |r| ==> IsWhitespace(s[k])
    ensures r == [] || !IsWhitespace(r[0])
    decreases |s|
  {
    if |s| > 0 && IsWhitespace(s[0]) then TrimStart(s[1..]) else s
  }

  /** `s.rstrip()` */
  function TrimEnd(s: string): (r: string)
    ensures |r| <= |s| && r == s[..|r|]
    ensures forall k :: |r| <= k < |s| ==> IsWhitespace(s[k])
    ensures r == [] || !IsWhitespace(r[|r| - 1])
    decreases |s|
  {
    if |s| > 0 && IsWhitespace(s[|s| - 1]) then TrimEnd(s[..|s| - 1]) else s
  }

  /** `s.strip()`: the text with its leading and trailing whitespace removed. */
  function Strip(s: string): (r: string)
    ensures r == [] || (!IsWhitespace(r[0]) && !IsWhitespace(r[|r| - 1]))
    ensures Contains(s, r)
  {
    var t := TrimStart(s);
    var r := TrimEnd(t);
    assert r == s[|s| - |t|..|s| - |t| + |r|];
    assert OccursAt(s, r, |s| - |t|);
    r
  }

  /** `r` sits at `i` in `s` with only whitespace before and after it. */
  predicate StrippedAt(s: string, r: string, i: int) {
    0 <= i <= |s| - |r| && r == s[i..i + |r|] &&
    (forall k :: 0 <= k < i ==> IsWhitespace(s[k])) &&
    (forall k :: i + |r| <= k < |s| ==> IsWhitespace(s[k]))
  }

  /** `strip` removes only whitespace, and only at the two ends: what it
      keeps is the text between a leading and a trailing whitespace run. */
  lemma StripRemovesOnlyEnds(s: string)
    ensures exists i :: StrippedAt(s, Strip(s), i)
  {
    var t := TrimStart(s);
    var r := TrimEnd(t);
    var i := |s| - |t|;
    assert r == s[i..i + |r|];
    assert forall k :: i + |r| <= k < |s| ==> s[k] == t[k - i];
    assert Strip(s) == r;
    assert StrippedAt(s, r, i);
  }

  /** What `strip` keeps is fixed by that: a piece with only whitespace
      around it and none at its own ends is the stripped text. */
  lemma StrippedAtIsStrip(s: string, r: string, i: int)
    requires StrippedAt(s, r, i) && (r == [] || (!IsWhitespace(r[0]) && !IsWhitespace(r[|r| - 1])))
    ensures r == Strip(s)
  {
    StripRemovesOnlyEnds(s);
    var j :| StrippedAt(s, Strip(s), j);
    var q := Strip(s);
    StrippedAtUnique(s, r, i, q, j);
  }

  /** Two pieces with only whitespace around them and none at their own
      ends are the same piece. */
  lemma StrippedAtUnique(s: string, r: string, i: int, q: string, j: int)
    requires StrippedAt(s, r, i) && (r == [] || (!IsWhitespace(r[0]) && !IsWhitespace(r[|r| - 1])))
    requires StrippedAt(s, q, j) && (q == [] || (!IsWhitespace(q[0]) && !IsWhitespace(q[|q| - 1])))
    ensures r == q
  {
    StrippedAtBounds(s, r, i);
    StrippedAtBounds(s, q, j);
  }

  /** Where a stripped piece sits: with nothing kept, the text is all
      whitespace; otherwise the piece runs from the first to the last
      character that is not whitespace. */
  lemma StrippedAtBounds(s: string, r: string, i: int)
    requires StrippedAt(s, r, i) && (r == [] || (!IsWhitespace(r[0]) && !IsWhitespace(r[|r| - 1])))
    ensures r == [] ==> forall k :: 0 <= k < |s| ==> IsWhitespace(s[k])
    ensures r != [] ==> !IsWhitespace(s[i]) && !IsWhitespace(s[i + |r| - 1])
  {
    if r != [] {
      assert s[i] == r[0];
      assert s[i + |r| - 1] == r[|r| - 1];
    }
  }



  /** A text with no whitespace at either end is left alone by `strip`. */
  lemma StripKeepsTrimmed(s: string)
    requires s == [] || (!IsWhitespace(s[0]) && !IsWhitespace(s[|s| - 1]))
    ensures Strip(s) == s
  {
  }

  /** `strip` is idempotent. */
  lemma StripIdempotent(s: string)
    ensures Strip(Strip(s)) == Strip(s)
  {
    StripKeepsTrimmed(Strip(s));
  }

  /** A text strips to the empty text iff it is all whitespace. */
  lemma {:induction false} StripEmptyIffBlank(s: string)
    ensures Strip(s) == [] <==> forall k :: 0 <= k < |s| ==> IsWhitespace(s[k])
  {
    if Strip(s) != [] {
      var r := Strip(s);
      var i :| 0 <= i <= |s| - |r| && OccursAt(s, r, i);
      assert s[i] == r[0];
    }
  }

  /** The lower-case form of an ASCII letter; every other character is kept. */
  function LowerChar(c: char): char {
    if 'A' <= c <= 'Z' then (c as int - 'A' as int + 'a' as int) as char else c
  }

  /** `s.lower()` */
  function Lower(s: string): (r: string)
    ensures |r| == |s|
    ensures forall i :: 0 <= i < |s| ==> r[i] == LowerChar(s[i])
  {
    if s == [] then [] else [LowerChar(s[0])] + Lower(s[1..])
  }

  /** A lower-cased text holds no upper-case ASCII letter, so lowering it again
      changes nothing. */
  lemma LowerIdempotent(s: string)
    ensures forall i :: 0 <= i < |s| ==> !('A' <= Lower(s)[i] <= 'Z')
    ensures Lower(Lower(s)) == Lower(s)
  {
  }

  /** `sep.join(lines)` */
  function Join(lines: seq<string>, sep: string): string
    decreases |lines|
  {
    if |lines| == 0 then ""
    else if |lines| == 1 then lines[0]
    else lines[0] + sep + Join(lines[1..], sep)
  }

  /** Joining one more line adds the separator and that line at the end, so
      the history text grows with the conversation list. */
  lemma {:induction false} JoinSnoc(lines: seq<string>, l: string, sep: string)
    requires |lines| > 0
    ensures Join(lines + [l], sep) == Join(lines, sep) + sep + l
    decreases |lines|
  {
    if |lines| > 1 {
      assert (lines + [l])[1..] == lines[1..] + [l];
      JoinSnoc(lines[1..], l, sep);
    }
  }

  /** `s.replace(p, "")`: every occurrence of `p`, found left to right without
      overlap, is removed. */
  function RemoveAll(s: string, p: string): (r: string)
    requires |p| > 0
    ensures |r| <= |s|
    decreases |s|
  {
    if |s| == 0 then ""
    else if StartsWith(s, p) then RemoveAll(s[|p|..], p)
    else [s[0]] + RemoveAll(s[1..], p)
  }

  /** Removing a pattern the text does not hold changes nothing. */
  lemma {:induction false} RemoveAllAbsent(s: string, p: string)
    requires |p| > 0 && !Contains(s, p)
    ensures RemoveAll(s, p) == s
    decreases |s|
  {
    if |s| > 0 {
      assert !OccursAt(s, p, 0);
      if Contains(s[1..], p) {
        ContainsTail(s, p);
      }
      RemoveAllAbsent(s[1..], p);
    }
  }

  /** A leading occurrence of the pattern is removed. */
  lemma RemoveAllLeading(p: string, rest: string)
    requires |p| > 0
    ensures RemoveAll(p + rest, p) == RemoveAll(rest, p)
  {
    assert StartsWith(p + rest, p);
    assert (p + rest)[|p|..] == rest;
  }
}
