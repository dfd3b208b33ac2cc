/** Lexicographic order on sequences, and the strict orders that it lifts. */
module Lexicographic {

  /** Below orders the elements that are good, and leaves no two of them incomparable. */
  ghost predicate StrictOrder<T(!new)>(below: (T, T) -> bool, good: T -> bool) {
    && (forall x :: good(x) ==> !below(x, x))
    && (forall x, y, z :: good(x) && good(y) && good(z) && below(x, y) && below(y, z) ==> below(x, z))
    && (forall x, y :: good(x) && good(y) ==> x == y || below(x, y) || below(y, x))
  }

  /** The first k elements agree, and then the left sequence ends or has the smaller element. */
  predicate LexAt<T(==)>(below: (T, T) -> bool, xs: seq<T>, ys: seq<T>, k: nat) {
    && k <= |xs| && k < |ys| && xs[..k] == ys[..k]
    && (k < |xs| ==> below(xs[k], ys[k]))
  }

  predicate Lex<T(==)>(below: (T, T) -> bool, xs: seq<T>, ys: seq<T>) {
    exists k | 0 <= k < |ys| :: LexAt(below, xs, ys, k)
  }

  predicate All<T>(good: T -> bool, xs: seq<T>) {
    forall i | 0 <= i < |xs| :: good(xs[i])
  }

  lemma LexIrreflexive<T(!new)>(below: (T, T) -> bool, good: T -> bool, xs: seq<T>)
    requires StrictOrder(below, good) && All(good, xs)
    ensures !Lex(below, xs, xs)
  {
  }

  lemma LexTransitive<T(!new)>(below: (T, T) -> bool, good: T -> bool, xs: seq<T>, ys: seq<T>, zs: seq<T>)
    requires StrictOrder(below, good) && All(good, xs) && All(good, ys) && All(good, zs)
    requires Lex(below, xs, ys) && Lex(below, ys, zs)
    ensures Lex(below, xs, zs)
  {
    var j :| 0 <= j < |ys| && LexAt(below, xs, ys, j);
    var k :| 0 <= k < |zs| && LexAt(below, ys, zs, k);
    var m := if j < k then j else k;
    assert xs[..m] == xs[..j][..m] && zs[..m] == zs[..k][..m] && ys[..m] == ys[..j][..m] == ys[..k][..m];
    if j < k {
      assert ys[j] == ys[..k][j] == zs[..k][j] == zs[j];
    } else if k < j {
      assert xs[k] == xs[..j][k] == ys[..j][k] == ys[k];
    }
    assert LexAt(below, xs, zs, m);
  }

  /** From a common prefix of length k on, the first difference decides. */
  lemma {:induction false} LexTotalFrom<T(!new)>(below: (T, T) -> bool, good: T -> bool, xs: seq<T>, ys: seq<T>, k: nat)
    requires StrictOrder(below, good) && All(good, xs) && All(good, ys)
    requires k <= |xs| && k <= |ys| && xs[..k] == ys[..k]
    ensures xs == ys || Lex(below, xs, ys) || Lex(below, ys, xs)
    decreases |xs| - k
  {
    if k == |xs| || k == |ys| {
      assert k == |xs| == |ys| ==> xs == xs[..k] && ys == ys[..k];
      assert k < |ys| ==> LexAt(below, xs, ys, k);
      assert k < |xs| ==> LexAt(below, ys, xs, k);
    } else if xs[k] == ys[k] {
      assert xs[..k + 1] == xs[..k] + [xs[k]] && ys[..k + 1] == ys[..k] + [ys[k]];
      LexTotalFrom(below, good, xs, ys, k + 1);
    } else {
      assert LexAt(below, xs, ys, k) || LexAt(below, ys, xs, k);
    }
  }

  lemma LexTotal<T(!new)>(below: (T, T) -> bool, good: T -> bool, xs: seq<T>, ys: seq<T>)
    requires StrictOrder(below, good) && All(good, xs) && All(good, ys)
    ensures xs == ys || Lex(below, xs, ys) || Lex(below, ys, xs)
  {
    LexTotalFrom(below, good, xs, ys, 0);
  }

  /** After a common prefix, the end of one sequence or a smaller element decides. */
  lemma FirstDifferenceDecides<T(!new)>(below: (T, T) -> bool, good: T -> bool, xs: seq<T>, ys: seq<T>, k: nat)
    requires StrictOrder(below, good) && All(good, xs) && All(good, ys)
    requires k <= |xs| && k <= |ys| && xs[..k] == ys[..k] && (k < |xs| || k < |ys|)
    ensures k == |xs| || (k < |ys| && below(xs[k], ys[k])) ==> Lex(below, xs, ys) && !Lex(below, ys, xs)
    ensures k == |ys| || (k < |xs| && below(ys[k], xs[k])) ==> Lex(below, ys, xs) && !Lex(below, xs, ys)
  {
    assert k < |ys| && (k < |xs| ==> below(xs[k], ys[k])) ==> LexAt(below, xs, ys, k);
    assert k < |xs| && (k < |ys| ==> below(ys[k], xs[k])) ==> LexAt(below, ys, xs, k);
    forall j: nat {:trigger LexAt(below, xs, ys, j)} {:trigger LexAt(below, ys, xs, j)} | j < k
      ensures !LexAt(below, xs, ys, j) && !LexAt(below, ys, xs, j)
    {
      assert xs[..k][j] == ys[..k][j];
    }
  }

  /** Between sequences of one length, all but the last elements come first. */
  lemma LexOfEqualLengths<T>(below: (T, T) -> bool, xs: seq<T>, ys: seq<T>, x: T, y: T)
    requires |xs| == |ys|
    ensures Lex(below, xs + [x], ys + [y]) <==> Lex(below, xs, ys) || (xs == ys && below(x, y))
  {
    var n := |xs|;
    if Lex(below, xs, ys) {
      var k :| 0 <= k < n && LexAt(below, xs, ys, k);
      assert (xs + [x])[..k] == xs[..k] && (ys + [y])[..k] == ys[..k];
      assert LexAt(below, xs + [x], ys + [y], k);
    }
    if xs == ys && below(x, y) {
      assert (xs + [x])[..n] == xs && (ys + [y])[..n] == ys;
      assert LexAt(below, xs + [x], ys + [y], n);
    }
    if Lex(below, xs + [x], ys + [y]) {
      var k :| 0 <= k <= n && LexAt(below, xs + [x], ys + [y], k);
      assert (xs + [x])[..k] == xs[..k] && (ys + [y])[..k] == ys[..k];
      assert k < n ==> LexAt(below, xs, ys, k);
    }
  }

  // ----- Strings

  predicate CharBelow(c: char, d: char) { c < d }

  predicate TextBelow(x: string, y: string) { Lex(CharBelow, x, y) }

  lemma CharsOrdered()
    ensures StrictOrder(CharBelow, (c: char) => true)
  {
  }

  lemma TextOrdered(x: string, y: string, z: string)
    ensures !TextBelow(x, x)
    ensures TextBelow(x, y) && TextBelow(y, z) ==> TextBelow(x, z)
    ensures x == y || TextBelow(x, y) || TextBelow(y, x)
  {
    var any := (c: char) => true;
    CharsOrdered();
    LexIrreflexive(CharBelow, any, x);
    LexTotal(CharBelow, any, x, y);
    if TextBelow(x, y) && TextBelow(y, z) {
      LexTransitive(CharBelow, any, x, y, z);
    }
  }
}
