/**
 * Positions inside generated text: where a piece occurs, and when two texts are
 * the same except for one piece standing at the same place in both.
 */
module Text {

  /** `x` occurs in `s` starting at index `k`. */
  ghost predicate OccursAt(s: string, x: string, k: int)
  {
    0 <= k && k + |x| <= |s| && s[k..k + |x|] == x
  }

  ghost predicate Contains(s: string, x: string)
  {
    exists k :: OccursAt(s, x, k)
  }

  /** Some occurrence of `x` in `s` ends no later than some occurrence of `y` starts. */
  ghost predicate Precedes(s: string, x: string, y: string)
  {
    exists i, j :: OccursAt(s, x, i) && OccursAt(s, y, j) && i + |x| <= j
  }

  /**
   * `a` and `b` are one text with a single slot: `a` has `x` in the slot, `b`
   * has `y`, and everything before and after the slot is identical.
   */
  ghost predicate Substituted(a: string, b: string, x: string, y: string)
  {
    exists k :: OccursAt(a, x, k) && OccursAt(b, y, k) && a[..k] == b[..k] && a[k + |x|..] == b[k + |y|..]
  }

  lemma OccursInContext(pre: string, s: string, post: string, x: string, k: int)
    requires OccursAt(s, x, k)
    ensures OccursAt(pre + s + post, x, |pre| + k)
  {
    var t := pre + s + post;
    assert t[|pre| + k..|pre| + k + |x|] == s[k..k + |x|];
  }

  lemma ContainsInContext(pre: string, s: string, post: string, x: string)
    requires Contains(s, x)
    ensures Contains(pre + s + post, x)
  {
    var k :| OccursAt(s, x, k);
    OccursInContext(pre, s, post, x, k);
  }

  lemma ContainsWhole(pre: string, x: string, post: string)
    ensures OccursAt(pre + x + post, x, |pre|)
  {
    assert (pre + x + post)[|pre|..|pre| + |x|] == x;
  }

  lemma PrecedesInContext(pre: string, s: string, post: string, x: string, y: string)
    requires Precedes(s, x, y)
    ensures Precedes(pre + s + post, x, y)
  {
    var i, j :| OccursAt(s, x, i) && OccursAt(s, y, j) && i + |x| <= j;
    OccursInContext(pre, s, post, x, i);
    OccursInContext(pre, s, post, y, j);
  }

  /** `x` and `y` placed in the order `pre + x + mid + y + post`. */
  lemma PrecedesWhole(pre: string, x: string, mid: string, y: string, post: string)
    ensures Precedes(pre + x + mid + y + post, x, y)
  {
    var t := pre + x + mid + y + post;
    assert t == pre + x + (mid + y + post);
    ContainsWhole(pre, x, mid + y + post);
    assert t == (pre + x + mid) + y + post;
    ContainsWhole(pre + x + mid, y, post);
  }

  lemma SubstitutedSlot(x: string, y: string)
    ensures Substituted(x, y, x, y)
  {
    assert OccursAt(x, x, 0) && OccursAt(y, y, 0);
    assert x[|x|..] == [] == y[|y|..];
  }

  lemma SubstitutedInContext(pre: string, a: string, b: string, post: string, x: string, y: string)
    requires Substituted(a, b, x, y)
    ensures Substituted(pre + a + post, pre + b + post, x, y)
  {
    var k :| OccursAt(a, x, k) && OccursAt(b, y, k) && a[..k] == b[..k] && a[k + |x|..] == b[k + |y|..];
    var s, t := pre + a + post, pre + b + post;
    OccursInContext(pre, a, post, x, k);
    OccursInContext(pre, b, post, y, k);
    assert s[..|pre| + k] == pre + a[..k];
    assert t[..|pre| + k] == pre + b[..k];
    assert s[|pre| + k + |x|..] == a[k + |x|..] + post;
    assert t[|pre| + k + |y|..] == b[k + |y|..] + post;
  }

  // ---------------------------------------------------------------------------
  // A template as the list of its pieces
  // ---------------------------------------------------------------------------

  /** The pieces of a template, one after the other. */
  function Concat(pieces: seq<string>): string
  {
    if pieces == [] then "" else pieces[0] + Concat(pieces[1..])
  }

  lemma {:induction false} ConcatAppend(ps: seq<string>, qs: seq<string>)
    ensures Concat(ps + qs) == Concat(ps) + Concat(qs)
  {
    if ps != [] {
      assert (ps + qs)[1..] == ps[1..] + qs;
      ConcatAppend(ps[1..], qs);
    } else {
      assert ps + qs == qs;
    }
  }

  /** Piece `k` stands between the pieces before it and the pieces after it. */
  lemma ConcatSplit(ps: seq<string>, k: nat)
    requires k < |ps|
    ensures Concat(ps) == Concat(ps[..k]) + ps[k] + Concat(ps[k + 1..])
  {
    var rest := ps[k..];
    assert ps == ps[..k] + rest;
    ConcatAppend(ps[..k], rest);
    assert rest[0] == ps[k] && rest[1..] == ps[k + 1..];
    AppendAssoc(Concat(ps[..k]), ps[k], Concat(ps[k + 1..]));
  }

  lemma AppendAssoc(a: string, b: string, c: string)
    ensures a + (b + c) == a + b + c
  {
  }

  lemma ContainsSelf(x: string)
    ensures Contains(x, x)
  {
    ContainsWhole("", x, "");
    assert "" + x + "" == x;
  }

  lemma ContainsTrans(s: string, m: string, x: string)
    requires Contains(s, m) && Contains(m, x)
    ensures Contains(s, x)
  {
    var i :| OccursAt(s, m, i);
    var j :| OccursAt(m, x, j);
    assert m == s[i..i + |m|];
    forall t | 0 <= t < |x| ensures s[i + j..i + j + |x|][t] == x[t] {
      assert x[t] == m[j + t] == s[i + j + t];
    }
    assert OccursAt(s, x, i + j);
  }

  /** Text found in one piece is found in the whole. */
  lemma ContainsPart(ps: seq<string>, k: nat, x: string)
    requires k < |ps| && Contains(ps[k], x)
    ensures Contains(Concat(ps), x)
  {
    ConcatSplit(ps, k);
    ContainsInContext(Concat(ps[..k]), ps[k], Concat(ps[k + 1..]), x);
  }

  /** An earlier piece precedes a later one. */
  lemma PartsPrecede(ps: seq<string>, i: nat, j: nat)
    requires i < j < |ps|
    ensures Precedes(Concat(ps), ps[i], ps[j])
  {
    ConcatSplit(ps, j);
    var front := ps[..j];
    ConcatSplit(front, i);
    assert front[i] == ps[i];
    PrecedesWhole(Concat(front[..i]), ps[i], Concat(front[i + 1..]), ps[j], Concat(ps[j + 1..]));
  }

  /** Order found inside one piece holds in the whole. */
  lemma PrecedesInPart(ps: seq<string>, k: nat, x: string, y: string)
    requires k < |ps| && Precedes(ps[k], x, y)
    ensures Precedes(Concat(ps), x, y)
  {
    ConcatSplit(ps, k);
    PrecedesInContext(Concat(ps[..k]), ps[k], Concat(ps[k + 1..]), x, y);
  }

  /** Replacing one piece is a one-slot change of the whole. */
  lemma SubstitutedPart(ps: seq<string>, k: nat, b: string, x: string, y: string)
    requires k < |ps| && Substituted(ps[k], b, x, y)
    ensures Substituted(Concat(ps), Concat(ps[k := b]), x, y)
  {
    var qs := ps[k := b];
    ConcatSplit(ps, k);
    ConcatSplit(qs, k);
    assert qs[..k] == ps[..k] && qs[k + 1..] == ps[k + 1..];
    SubstitutedInContext(Concat(ps[..k]), ps[k], b, Concat(ps[k + 1..]), x, y);
  }
}
