/**
 * Strings built by concatenating a list of pieces, as a template literal does,
 * and the substring relations used to state what such a string contains.
 */
module Text {

  /** The pieces of `parts` joined in order, with no separator. */
  function Concat(parts: seq<string>): string
  {
    if parts == [] then [] else parts[0] + Concat(parts[1..])
  }

  /** `w` occurs in `s` starting at index `k`. */
  predicate OccursAt(s: string, w: string, k: int)
  {
    0 <= k && k + |w| <= |s| && s[k..k + |w|] == w
  }

  /** `w` occurs somewhere in `s`. */
  predicate Contains(s: string, w: string)
  {
    exists k | 0 <= k <= |s| :: OccursAt(s, w, k)
  }

  /** `w` occurs in `s` twice, the second occurrence starting after the first one ends. */
  predicate ContainsTwice(s: string, w: string)
  {
    exists k1, k2 | 0 <= k1 && k1 + |w| <= k2 <= |s| :: OccursAt(s, w, k1) && OccursAt(s, w, k2)
  }

  /** Joining distributes over appending piece lists. */
  lemma {:induction false} ConcatAppend(a: seq<string>, b: seq<string>)
    ensures Concat(a + b) == Concat(a) + Concat(b)
  {
    if a == [] {
      assert a + b == b;
    } else {
      assert (a + b)[1..] == a[1..] + b;
      ConcatAppend(a[1..], b);
    }
  }

  /** Joining a list of one, two or three pieces. */
  lemma ConcatSmall(x: string, y: string, z: string)
    ensures Concat([x]) == x
    ensures Concat([x, y]) == x + y
    ensures Concat([x, y, z]) == x + y + z
  {
    assert Concat([z]) == z + Concat([]);
    assert Concat([y]) == y + Concat([]);
    assert Concat([x]) == x + Concat([]);
    assert [x, y][1..] == [y];
    assert Concat([x, y]) == x + Concat([y]);
    assert [x, y, z][1..] == [y, z];
    assert Concat([y, z]) == y + Concat([z]) by { assert [y, z][1..] == [z]; }
    assert Concat([x, y, z]) == x + Concat([y, z]);
  }

  /**
   * The pieces `i` up to (but not including) `j`, joined, occur in the joined
   * whole right after the text of the pieces before `i`.
   */
  lemma SliceOccurs(parts: seq<string>, i: int, j: int)
    requires 0 <= i <= j <= |parts|
    ensures OccursAt(Concat(parts), Concat(parts[i..j]), |Concat(parts[..i])|)
  {
    assert parts == parts[..i] + parts[i..j] + parts[j..];
    ConcatAppend(parts[..i] + parts[i..j], parts[j..]);
    ConcatAppend(parts[..i], parts[i..j]);
  }

  /** Joined text around one chosen piece: everything before it, the piece, everything after. */
  lemma ConcatAt(parts: seq<string>, i: int)
    requires 0 <= i < |parts|
    ensures Concat(parts) == Concat(parts[..i]) + parts[i] + Concat(parts[i + 1..])
  {
    assert parts == parts[..i] + parts[i..];
    ConcatAppend(parts[..i], parts[i..]);
    assert parts[i..][1..] == parts[i + 1..];
  }

  /**
   * Joined text around two chosen pieces `i` < `j`: everything before `i`,
   * piece `i`, the pieces strictly between, piece `j`, everything after.
   */
  lemma ConcatAround(parts: seq<string>, i: int, j: int)
    requires 0 <= i < j < |parts|
    ensures Concat(parts) == Concat(parts[..i]) + parts[i] + Concat(parts[i + 1..j]) + parts[j] + Concat(parts[j + 1..])
  {
    var front := parts[..j];
    ConcatAt(parts, j);
    ConcatAt(front, i);
    assert front[..i] == parts[..i];
    assert front[i + 1..] == parts[i + 1..j];
  }

  /** The pieces `i` up to `j`, joined, occur in the joined whole. */
  lemma SliceContained(parts: seq<string>, i: int, j: int)
    requires 0 <= i <= j <= |parts|
    ensures Contains(Concat(parts), Concat(parts[i..j]))
  {
    SliceOccurs(parts, i, j);
    assert OccursAt(Concat(parts), Concat(parts[i..j]), |Concat(parts[..i])|);
  }

  /** A single piece occurs in the joined text. */
  lemma PieceIn(parts: seq<string>, i: int)
    requires 0 <= i < |parts|
    ensures Contains(Concat(parts), parts[i])
  {
    SliceContained(parts, i, i + 1);
    assert parts[i..i + 1] == [parts[i]];
    ConcatSmall(parts[i], parts[i], parts[i]);
  }

  /** Two consecutive pieces occur together in the joined text. */
  lemma TwoPiecesIn(parts: seq<string>, i: int)
    requires 0 <= i && i + 2 <= |parts|
    ensures Contains(Concat(parts), parts[i] + parts[i + 1])
  {
    SliceContained(parts, i, i + 2);
    assert parts[i..i + 2] == [parts[i], parts[i + 1]];
    ConcatSmall(parts[i], parts[i + 1], parts[i + 1]);
  }

  /** Three consecutive pieces occur together in the joined text. */
  lemma ThreePiecesIn(parts: seq<string>, i: int)
    requires 0 <= i && i + 3 <= |parts|
    ensures Contains(Concat(parts), parts[i] + parts[i + 1] + parts[i + 2])
  {
    SliceContained(parts, i, i + 3);
    assert parts[i..i + 3] == [parts[i], parts[i + 1], parts[i + 2]];
    ConcatSmall(parts[i], parts[i + 1], parts[i + 2]);
  }

  /** What occurs in either half of a string occurs in the whole. */
  lemma ContainsInHalves(a: string, b: string, w: string)
    ensures Contains(a, w) ==> Contains(a + b, w)
    ensures Contains(b, w) ==> Contains(a + b, w)
  {
    if Contains(a, w) {
      var k :| 0 <= k <= |a| && OccursAt(a, w, k);
      assert (a + b)[k..k + |w|] == a[k..k + |w|];
      assert OccursAt(a + b, w, k);
    }
    if Contains(b, w) {
      var k :| 0 <= k <= |b| && OccursAt(b, w, k);
      assert (a + b)[|a| + k..|a| + k + |w|] == b[k..k + |w|];
      assert OccursAt(a + b, w, |a| + k);
    }
  }

  /** A string found in both halves occurs twice in the whole. */
  lemma ContainsOnBothSides(a: string, b: string, w: string)
    requires Contains(a, w) && Contains(b, w)
    ensures ContainsTwice(a + b, w)
  {
    var k1 :| 0 <= k1 <= |a| && OccursAt(a, w, k1);
    var k2 :| 0 <= k2 <= |b| && OccursAt(b, w, k2);
    assert (a + b)[k1..k1 + |w|] == a[k1..k1 + |w|];
    assert (a + b)[|a| + k2..|a| + k2 + |w|] == b[k2..k2 + |w|];
    assert OccursAt(a + b, w, k1) && OccursAt(a + b, w, |a| + k2);
  }

  /** A piece that stands in both halves of a piece list occurs twice in the joined whole. */
  lemma PieceOnBothSides(front: seq<string>, back: seq<string>, i: int, j: int)
    requires 0 <= i < |front| && 0 <= j < |back|
    requires front[i] == back[j]
    ensures ContainsTwice(Concat(front + back), front[i])
  {
    ConcatAppend(front, back);
    PieceIn(front, i);
    PieceIn(back, j);
    ContainsOnBothSides(Concat(front), Concat(back), front[i]);
  }

  /** `w` is a prefix of `s`. */
  predicate StartsWith(s: string, w: string)
  {
    |w| <= |s| && s[..|w|] == w
  }

  /** `w` is a suffix of `s`. */
  predicate EndsWith(s: string, w: string)
  {
    |w| <= |s| && s[|s| - |w|..] == w
  }

  /** The joined text starts with its first three pieces. */
  lemma ConcatStarts(parts: seq<string>)
    requires |parts| >= 3
    ensures StartsWith(Concat(parts), parts[0] + parts[1] + parts[2])
  {
    assert parts == parts[..3] + parts[3..];
    ConcatAppend(parts[..3], parts[3..]);
    assert parts[..3] == [parts[0], parts[1], parts[2]];
    ConcatSmall(parts[0], parts[1], parts[2]);
  }

  /** The joined text ends with its last three pieces. */
  lemma ConcatEnds(parts: seq<string>)
    requires |parts| >= 3
    ensures var n := |parts|; EndsWith(Concat(parts), parts[n - 3] + parts[n - 2] + parts[n - 1])
  {
    var n := |parts|;
    var front, last := parts[..n - 3], parts[n - 3..];
    assert parts == front + last;
    ConcatAppend(front, last);
    assert last == [parts[n - 3], parts[n - 2], parts[n - 1]];
    ConcatSmall(parts[n - 3], parts[n - 2], parts[n - 1]);
    EndsWithItself(Concat(last));
    EndsWithAfterPrefix(Concat(front), Concat(last), Concat(last));
  }

  /** Every string ends with itself. */
  lemma EndsWithItself(s: string)
    ensures EndsWith(s, s)
  {
    assert s[|s| - |s|..] == s;
  }

  /** A string that starts with `w` still does after something is put behind it. */
  lemma StartsWithBeforeSuffix(s: string, back: string, w: string)
    requires StartsWith(s, w)
    ensures StartsWith(s + back, w)
  {
    assert (s + back)[..|w|] == s[..|w|];
  }

  /** A string that ends with `w` still does after something is put in front of it. */
  lemma EndsWithAfterPrefix(front: string, s: string, w: string)
    requires EndsWith(s, w)
    ensures EndsWith(front + s, w)
  {
    assert (front + s)[|front + s| - |w|..] == s[|s| - |w|..];
  }

  /** Prepending `front` to a string split in parts keeps the split, with `front` joining the first part. */
  lemma Regroup(front: string, a: string, x: string, b: string, y: string, c: string)
    ensures front + (a + x + b + y + c) == (front + a) + x + b + y + c
    ensures front + (a + x + b + c) == (front + a) + x + b + c
  {
  }

  /**
   * Two piece lists that agree everywhere except at pieces `i` < `j` join to
   * texts that agree everywhere except where those pieces stand; the common
   * text before piece `i` ends with piece `i - 1`.
   */
  lemma PiecesDifferAt(p1: seq<string>, p0: seq<string>, i: int, j: int) returns (a: string, b: string, c: string)
    requires |p1| == |p0| && 0 < i < j < |p1|
    requires forall k | 0 <= k < |p1| && k != i && k != j :: p1[k] == p0[k]
    ensures Concat(p1) == a + p1[i] + b + p1[j] + c
    ensures Concat(p0) == a + p0[i] + b + p0[j] + c
    ensures EndsWith(a, p1[i - 1])
  {
    assert p1[..i] == p0[..i];
    assert p1[i + 1..j] == p0[i + 1..j];
    assert p1[j + 1..] == p0[j + 1..];
    ConcatAround(p1, i, j);
    ConcatAround(p0, i, j);
    a, b, c := Concat(p1[..i]), Concat(p1[i + 1..j]), Concat(p1[j + 1..]);
    var front := p1[..i];
    ConcatAt(front, i - 1);
    assert front[i..] == [];
  }
}
