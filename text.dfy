/**
 * String helpers of the badge renderer: the `truncate` arrow function of
 * `generateSVG`, and the prefix / suffix / infix predicates the badge
 * properties are stated with.
 *
 * Strings are sequences of Unicode scalar values, whereas JavaScript's
 * `length` and `substring` count UTF-16 code units; the two agree on text
 * without characters outside the Basic Multilingual Plane.
 */
module Text {

  /** The marker `truncate` appends to a shortened string. */
  const Ellipsis: string := "..."

  /**
   * `truncate(str, length)`: a string longer than `limit` is cut to its first
   * `limit` characters followed by the ellipsis; any other string is kept.
   */
  function Truncate(s: string, limit: nat): (r: string)
    ensures |s| <= limit ==> r == s
    ensures |s| > limit ==> |r| == limit + |Ellipsis| && r[..limit] == s[..limit] && r[limit..] == Ellipsis
    ensures |r| <= limit + |Ellipsis|
  {
    if |s| > limit then s[..limit] + Ellipsis else s
  }

  /**
   * Truncation leaves a string alone exactly when it is short enough, or when
   * its tail after `limit` characters already is the ellipsis.
   */
  lemma TruncateFixedPoint(s: string, limit: nat)
    ensures Truncate(s, limit) == s <==> |s| <= limit || s[limit..] == Ellipsis
  {
    if |s| > limit {
      if s[limit..] == Ellipsis {
        assert s == s[..limit] + s[limit..];
      } else {
        assert Truncate(s, limit)[limit..] != s[limit..];
      }
    }
  }

  /**
   * Two strings truncate alike exactly when they are equal, or both are over
   * the limit and agree on their first `limit` characters: the cut forgets
   * everything after it and nothing before it.
   */
  lemma TruncateAgreement(s: string, t: string, limit: nat)
    ensures Truncate(s, limit) == Truncate(t, limit)
        <==> s == t || (|s| > limit && |t| > limit && s[..limit] == t[..limit])
  {
    if Truncate(s, limit) == Truncate(t, limit) && s != t && |s| > limit && |t| > limit {
      assert s[..limit] == Truncate(s, limit)[..limit];
    }
    if |s| > limit && |t| > limit && s[..limit] == t[..limit] {
      assert Truncate(s, limit) == s[..limit] + Ellipsis;
    }
  }

  /** `doc` begins with `p`. */
  predicate StartsWith(doc: string, p: string)
  {
    |p| <= |doc| && doc[..|p|] == p
  }

  /** `doc` ends with `p`. */
  predicate EndsWith(doc: string, p: string)
  {
    |p| <= |doc| && doc[|doc| - |p|..] == p
  }

  /** `piece` occurs in `doc` starting at index `i`. */
  predicate OccursAt(doc: string, piece: string, i: int)
  {
    0 <= i <= |doc| - |piece| && doc[i..i + |piece|] == piece
  }

  /** `piece` occurs somewhere in `doc`. */
  ghost predicate Contains(doc: string, piece: string)
  {
    exists i :: OccursAt(doc, piece, i)
  }

  lemma StartsWithConcat(a: string, b: string)
    ensures StartsWith(a + b, a)
  {
    assert (a + b)[..|a|] == a;
  }

  lemma EndsWithConcat(a: string, b: string)
    ensures EndsWith(a + b, b)
  {
    assert (a + b)[|a + b| - |b|..] == b;
  }

  lemma ContainsMiddle(a: string, b: string, c: string)
    ensures Contains(a + b + c, b)
  {
    var doc := a + b + c;
    assert doc[|a|..|a| + |b|] == b;
    assert OccursAt(doc, b, |a|);
  }

  /** The pieces of a template, joined in order. */
  function Concat(parts: seq<string>): string
  {
    if parts == [] then "" else Concat(parts[..|parts| - 1]) + parts[|parts| - 1]
  }

  lemma {:induction false} ConcatAppend(a: seq<string>, b: seq<string>)
    ensures Concat(a + b) == Concat(a) + Concat(b)
    decreases |b|
  {
    if b == [] {
      assert a + b == a;
    } else {
      var b' := b[..|b| - 1];
      assert (a + b)[..|a + b| - 1] == a + b';
      ConcatAppend(a, b');
    }
  }

  /** Piece `k` of a template sits between the pieces before it and those after it. */
  lemma {:induction false} ConcatAt(parts: seq<string>, k: nat)
    requires k < |parts|
    ensures Concat(parts) == Concat(parts[..k]) + parts[k] + Concat(parts[k + 1..])
  {
    var front := parts[..k + 1];
    assert parts == front + parts[k + 1..];
    ConcatAppend(front, parts[k + 1..]);
    assert front[..|front| - 1] == parts[..k];
    assert Concat(front) == Concat(parts[..k]) + parts[k];
  }

  /** Every piece of a template occurs in the joined string, after the pieces before it. */
  lemma PieceOccurs(parts: seq<string>, k: nat)
    requires k < |parts|
    ensures OccursAt(Concat(parts), parts[k], |Concat(parts[..k])|)
    ensures StartsWith(Concat(parts), Concat(parts[..k]) + parts[k])
  {
    ConcatAt(parts, k);
    ContainsMiddle(Concat(parts[..k]), parts[k], Concat(parts[k + 1..]));
    StartsWithConcat(Concat(parts[..k]) + parts[k], Concat(parts[k + 1..]));
    var doc := Concat(parts);
    var i := |Concat(parts[..k])|;
    assert doc[i..i + |parts[k]|] == parts[k];
  }

  /** A string that begins with `a` does not begin with a `b` that disagrees with `a` at some index. */
  lemma StartsWithExcludes(doc: string, a: string, b: string, i: nat)
    requires StartsWith(doc, a) && i < |a| && i < |b| && a[i] != b[i]
    ensures !StartsWith(doc, b)
  {
    assert doc[i] == a[i];
  }

  /** A string that ends with `a` does not end with a `b` that disagrees with `a` `j` places from the end. */
  lemma EndsWithExcludes(doc: string, a: string, b: string, j: nat)
    requires EndsWith(doc, a) && 0 < j <= |a| && j <= |b| && a[|a| - j] != b[|b| - j]
    ensures !EndsWith(doc, b)
  {
    assert doc[|doc| - j] == a[|a| - j];
  }

  /** At one offset, a string holds at most one of two pieces that disagree at some index. */
  lemma OccursAtExcludes(doc: string, a: string, b: string, k: int, i: nat)
    requires OccursAt(doc, a, k) && i < |a| && i < |b| && a[i] != b[i]
    ensures !OccursAt(doc, b, k)
  {
    assert doc[k + i] == a[i];
  }

  /** An occurrence inside an occurrence is an occurrence. */
  lemma OccursWithin(doc: string, outer: string, k: int, inner: string, j: int)
    requires OccursAt(doc, outer, k) && OccursAt(outer, inner, j)
    ensures OccursAt(doc, inner, k + j)
  {
    forall m | 0 <= m < |inner|
      ensures doc[k + j + m] == inner[m]
    {
      assert outer[j + m] == inner[m];
      assert doc[k + (j + m)] == outer[j + m];
    }
    assert doc[k + j..k + j + |inner|] == inner;
  }

  lemma EndsWithPair(front: string, a: string, b: string)
    ensures EndsWith(front + a + b, a + b)
  {
    assert front + a + b == front + (a + b);
    EndsWithConcat(front, a + b);
  }
}
