/**
 * The bounded provenance record of an execution: the last 64 observations, and
 * a hash chain over everything that was dropped before them.
 */
module Provenance {
  import opened Wrappers

  const MAX_OBSERVATIONS := 64

  datatype Overflow<+D> = Complete | Truncated(omittedCount: nat, digest: D)

  datatype Bounded<+O, +D> = Bounded(recent: seq<O>, overflow: Overflow<D>)

  /** One link of the chain: the dropped observation and the digest before it, if any. */
  type Link<!O, !D> = (O, Option<D>) -> D

  function PriorDigest<D>(overflow: Overflow<D>): Option<D> {
    match overflow
    case Complete => None
    case Truncated(_, digest) => Some(digest)
  }

  function AppendObservation<O, D>(hash: Link<O, D>, p: Bounded<O, D>, o: O): Bounded<O, D> {
    var recent := p.recent + [o];
    if |recent| <= MAX_OBSERVATIONS then
      Bounded(recent, p.overflow)
    else
      var omitted := if p.overflow.Truncated? then p.overflow.omittedCount + 1 else 1;
      Bounded(recent[1..], Truncated(omitted, hash(recent[0], PriorDigest(p.overflow))))
  }

  // ----- What the record stands for: the whole history

  /** The fold of the hash over a dropped prefix, oldest first. */
  function ChainDigest<O, D>(hash: Link<O, D>, dropped: seq<O>): Option<D> {
    if dropped == [] then None
    else Some(hash(dropped[|dropped| - 1], ChainDigest(hash, dropped[..|dropped| - 1])))
  }

  ghost predicate Refines<O, D>(hash: Link<O, D>, p: Bounded<O, D>, history: seq<O>) {
    var cut := if |history| <= MAX_OBSERVATIONS then 0 else |history| - MAX_OBSERVATIONS;
    && p.recent == history[cut..]
    && PriorDigest(p.overflow) == ChainDigest(hash, history[..cut])
    && (p.overflow.Truncated? ==> p.overflow.omittedCount == cut)
  }

  /** Two different links with the same digest. */
  ghost predicate Collision<O(!new), D(!new)>(hash: Link<O, D>) {
    exists a: O, b: O, x: Option<D>, y: Option<D> ::
      hash(a, x) == hash(b, y) && (a, x) != (b, y)
  }

  /** Appending to the record is appending to the history it stands for. */
  lemma AppendRefines<O, D>(hash: Link<O, D>, p: Bounded<O, D>, history: seq<O>, o: O)
    requires Refines(hash, p, history)
    ensures Refines(hash, AppendObservation(hash, p, o), history + [o])
  {
    var longer := history + [o];
    if |history| < MAX_OBSERVATIONS {
      assert longer[0..] == history[0..] + [o];
      assert longer[..0] == history[..0];
    } else {
      var cut := |history| - MAX_OBSERVATIONS;
      assert longer[..cut + 1][..cut] == history[..cut];
      assert longer[cut + 1..] == (history[cut..] + [o])[1..];
    }
  }

  /** The record counts every observation ever made, kept or dropped. */
  lemma CountsWholeHistory<O, D>(hash: Link<O, D>, p: Bounded<O, D>, history: seq<O>)
    requires Refines(hash, p, history)
    ensures |history| == |p.recent| + (if p.overflow.Truncated? then p.overflow.omittedCount else 0)
  {
  }

  /** Equal chain digests of different prefixes exhibit a collision of the hash. */
  lemma {:induction false} ChainDeterminesPrefix<O(!new), D(!new)>(hash: Link<O, D>, xs: seq<O>, ys: seq<O>)
    requires ChainDigest(hash, xs) == ChainDigest(hash, ys)
    ensures xs == ys || Collision(hash)
  {
    if xs != [] && ys != [] {
      var x, y := xs[|xs| - 1], ys[|ys| - 1];
      var xs', ys' := xs[..|xs| - 1], ys[..|ys| - 1];
      if (x, ChainDigest(hash, xs')) == (y, ChainDigest(hash, ys')) {
        ChainDeterminesPrefix(hash, xs', ys');
        assert xs == xs' + [x] && ys == ys' + [y];
      } else {
        assert hash(x, ChainDigest(hash, xs')) == hash(y, ChainDigest(hash, ys'));
      }
    }
  }

  /** Unless the hash collides, a bounded record stands for exactly one history. */
  lemma RecordDeterminesHistory<O(!new), D(!new)>(hash: Link<O, D>, p: Bounded<O, D>, xs: seq<O>, ys: seq<O>)
    requires Refines(hash, p, xs) && Refines(hash, p, ys)
    ensures xs == ys || Collision(hash)
  {
    CountsWholeHistory(hash, p, xs);
    CountsWholeHistory(hash, p, ys);
    var cut := if |xs| <= MAX_OBSERVATIONS then 0 else |xs| - MAX_OBSERVATIONS;
    ChainDeterminesPrefix(hash, xs[..cut], ys[..cut]);
    assert xs == xs[..cut] + xs[cut..] && ys == ys[..cut] + ys[cut..];
  }
}
