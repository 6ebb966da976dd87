/**
 * Duplicate suppression in first-met order, the way the source builds its
 * result lists (`if x not in result: result.append(x)`) and the key order of
 * an `OrderedDict`.
 */
module Sequences {

  predicate Distinct<T(==)>(s: seq<T>) {
    forall i, j :: 0 <= i < j < |s| ==> s[i] != s[j]
  }

  /** Position of the first occurrence of `x` in `xs`. */
  function FirstIndex<T(==)>(xs: seq<T>, x: T): (i: nat)
    requires x in xs
    ensures i < |xs| && xs[i] == x && x !in xs[..i]
  {
    var n := |xs| - 1;
    if x in xs[..n] then
      var i := FirstIndex(xs[..n], x);
      assert xs[..n][..i] == xs[..i];
      i
    else
      n
  }

  /**
   * Scanning `xs` left to right and appending every element not yet kept:
   * the list a loop of `if x not in result: result.append(x)` ends with.
   */
  function Dedup<T(==)>(xs: seq<T>): (r: seq<T>)
    ensures forall i :: 0 <= i < |r| ==> r[i] in xs
  {
    if xs == [] then []
    else
      var n := |xs| - 1;
      var kept := Dedup(xs[..n]);
      assert xs == xs[..n] + [xs[n]];
      if xs[n] in kept then kept else kept + [xs[n]]
  }

  lemma AppendAssoc<T>(a: seq<T>, b: seq<T>, c: seq<T>)
    ensures a + b + c == a + (b + c)
  {
  }

  /** What is kept is kept once. */
  lemma {:induction false} DedupIsDistinct<T>(xs: seq<T>)
    ensures Distinct(Dedup(xs))
  {
    if xs != [] {
      var n := |xs| - 1;
      DedupIsDistinct(xs[..n]);
    }
  }

  /** Suppressing repeats loses no element and invents none. */
  lemma {:induction false} DedupMember<T>(xs: seq<T>, x: T)
    ensures x in Dedup(xs) <==> x in xs
  {
    if xs != [] {
      var n := |xs| - 1;
      DedupMember(xs[..n], x);
      assert xs == xs[..n] + [xs[n]];
    }
  }

  /** One more element at the end either is already kept or is appended. */
  lemma DedupSnoc<T>(xs: seq<T>, x: T)
    ensures Dedup(xs + [x]) == if x in xs then Dedup(xs) else Dedup(xs) + [x]
  {
    assert (xs + [x])[..|xs|] == xs;
    DedupMember(xs, x);
  }

  /** Appending at most one element: it is kept unless it already was. */
  lemma DedupStep<T>(xs: seq<T>, ext: seq<T>)
    requires |ext| <= 1
    ensures Dedup(xs + ext) == if ext != [] && ext[0] !in Dedup(xs) then Dedup(xs) + ext else Dedup(xs)
  {
    if ext == [] {
      assert xs + ext == xs;
    } else {
      assert ext == [ext[0]];
      DedupSnoc(xs, ext[0]);
      DedupMember(xs, ext[0]);
    }
  }

  lemma FirstIndexSnoc<T>(xs: seq<T>, x: T, y: T)
    requires y in xs
    ensures FirstIndex(xs + [x], y) == FirstIndex(xs, y)
  {
    assert (xs + [x])[..|xs|] == xs;
  }

  /** Kept elements appear in the order in which they are first met. */
  lemma {:induction false} DedupFirstMetOrder<T>(xs: seq<T>, i: nat, j: nat)
    requires i < j < |Dedup(xs)|
    ensures FirstIndex(xs, Dedup(xs)[i]) < FirstIndex(xs, Dedup(xs)[j])
  {
    var n := |xs| - 1;
    var ys, y := xs[..n], xs[n];
    assert xs == ys + [y];
    DedupSnoc(ys, y);
    var d := Dedup(ys);
    if y in ys {
      FirstIndexSnoc(ys, y, d[i]);
      FirstIndexSnoc(ys, y, d[j]);
      DedupFirstMetOrder(ys, i, j);
    } else if j < |d| {
      FirstIndexSnoc(ys, y, d[i]);
      FirstIndexSnoc(ys, y, d[j]);
      DedupFirstMetOrder(ys, i, j);
    } else {
      FirstIndexSnoc(ys, y, d[i]);
    }
  }

  /** The first element met is the first element kept. */
  lemma DedupHead<T>(xs: seq<T>)
    requires xs != []
    ensures Dedup(xs) != [] && Dedup(xs)[0] == xs[0]
  {
    var r := Dedup(xs);
    DedupMember(xs, xs[0]);
    var j :| 0 <= j < |r| && r[j] == xs[0];
    if j != 0 {
      DedupFirstMetOrder(xs, 0, j);
    }
  }

  /** Without duplicates there is nothing to suppress. */
  lemma {:induction false} DedupDistinct<T>(xs: seq<T>)
    requires Distinct(xs)
    ensures Dedup(xs) == xs
  {
    if xs != [] {
      var n := |xs| - 1;
      assert xs == xs[..n] + [xs[n]];
      DedupDistinct(xs[..n]);
      DedupSnoc(xs[..n], xs[n]);
    }
  }
}
