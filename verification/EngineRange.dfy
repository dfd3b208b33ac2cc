/** Versions and engine ranges, from the parts that the version and range syntax names. */
module EngineRange {
  import opened Wrappers
  import opened DecimalNumerals
  import opened Lexicographic

  datatype Version = Version(major: nat, minor: nat, patch: nat, prerelease: Option<seq<string>>)

  // ----- Precedence, as section 11 of Semantic Versioning 2.0.0 defines it

  predicate Numeric(id: string) {
    id != "" && Digits(id)
  }

  /** What version parsing accepts as an identifier, its characters aside. */
  predicate GoodId(id: string) {
    id != "" && (Numeric(id) && |id| > 1 ==> id[0] != '0')
  }

  predicate Parsed(v: Version) {
    v.prerelease.Some? ==> v.prerelease.value != [] && All(GoodId, v.prerelease.value)
  }

  /** Numeric identifiers compare by value and come before the others, which compare as text. */
  predicate IdBelow(x: string, y: string) {
    if Numeric(x) && Numeric(y) then Value(x) < Value(y)
    else if Numeric(x) || Numeric(y) then Numeric(x)
    else TextBelow(x, y)
  }

  predicate PrereleaseBelow(x: Option<seq<string>>, y: Option<seq<string>>) {
    x.Some? && (y.Some? ==> Lex(IdBelow, x.value, y.value))
  }

  predicate Below(x: Version, y: Version) {
    if x.major != y.major then x.major < y.major
    else if x.minor != y.minor then x.minor < y.minor
    else if x.patch != y.patch then x.patch < y.patch
    else PrereleaseBelow(x.prerelease, y.prerelease)
  }

  /** The sign of a comparison. */
  function Order(x: Version, y: Version): int {
    if Below(x, y) then -1 else if Below(y, x) then 1 else 0
  }

  // ----- Numeric identifiers of any length

  lemma ShorterIsSmaller(x: string, y: string)
    requires Numeric(x) && Numeric(y) && GoodId(y) && |x| < |y|
    ensures Value(x) < Value(y)
  {
    ValueBounds(x);
    ValueBounds(y);
    Pow10Grows(|x|, |y| - 1);
  }

  lemma {:induction false} SameLengthByText(x: string, y: string)
    requires |x| == |y| && Digits(x) && Digits(y)
    ensures TextBelow(x, y) <==> Value(x) < Value(y)
    ensures x == y <==> Value(x) == Value(y)
  {
    hide Lex;
    if x != "" {
      var n := |x| - 1;
      var xs, ys := x[..n], y[..n];
      SameLengthByText(xs, ys);
      assert x == xs + [x[n]] && y == ys + [y[n]];
      assert Digit(x[n]) && Digit(y[n]);
      LexOfEqualLengths(CharBelow, xs, ys, x[n], y[n]);
    } else {
      LexIrreflexive(CharBelow, (c: char) => true, x);
    }
  }

  /** Comparing lengths and then texts is comparing values, for any number of digits. */
  lemma NumericByLengthThenText(x: string, y: string)
    requires Numeric(x) && Numeric(y) && GoodId(x) && GoodId(y)
    ensures (if |x| == |y| then TextBelow(x, y) else |x| < |y|) <==> Value(x) < Value(y)
    ensures x == y <==> Value(x) == Value(y)
  {
    if |x| < |y| {
      ShorterIsSmaller(x, y);
    } else if |y| < |x| {
      ShorterIsSmaller(y, x);
    } else {
      SameLengthByText(x, y);
    }
  }

  // ----- Precedence is a strict total order

  lemma IdsOrdered()
    ensures StrictOrder(IdBelow, GoodId)
  {
    hide TextBelow, Value, GoodId;
    forall x, y, z | GoodId(x) && GoodId(y) && GoodId(z)
      ensures !IdBelow(x, x) && (IdBelow(x, y) && IdBelow(y, z) ==> IdBelow(x, z))
      ensures x == y || IdBelow(x, y) || IdBelow(y, x)
    {
      TextOrdered(x, y, z);
      if Numeric(x) && Numeric(y) {
        NumericByLengthThenText(x, y);
      }
    }
  }

  /** Precedence is irreflexive, transitive and total on versions. */
  lemma BelowIsStrictOrder()
    ensures StrictOrder(Below, Parsed)
  {
    hide IdBelow, StrictOrder, Lex;
    IdsOrdered();
    forall x, y, z | Parsed(x) && Parsed(y) && Parsed(z)
      ensures !Below(x, x) && (Below(x, y) && Below(y, z) ==> Below(x, z))
      ensures x == y || Below(x, y) || Below(y, x)
    {
      PrereleasesOrdered(x, y, z);
    }
    StrictOrderHolds(Below, Parsed);
  }

  lemma StrictOrderHolds<T(!new)>(below: (T, T) -> bool, good: T -> bool)
    requires forall x, y, z :: good(x) && good(y) && good(z) ==>
      !below(x, x) && (below(x, y) && below(y, z) ==> below(x, z)) && (x == y || below(x, y) || below(y, x))
    ensures StrictOrder(below, good)
  {
  }

  lemma PrereleasesOrdered(x: Version, y: Version, z: Version)
    requires StrictOrder(IdBelow, GoodId) && Parsed(x) && Parsed(y) && Parsed(z)
    ensures !PrereleaseBelow(x.prerelease, x.prerelease)
    ensures PrereleaseBelow(x.prerelease, y.prerelease) && PrereleaseBelow(y.prerelease, z.prerelease)
      ==> PrereleaseBelow(x.prerelease, z.prerelease)
    ensures x.prerelease == y.prerelease || PrereleaseBelow(x.prerelease, y.prerelease)
      || PrereleaseBelow(y.prerelease, x.prerelease)
  {
    hide IdBelow, StrictOrder, Lex, GoodId;
    if x.prerelease.Some? {
      LexIrreflexive(IdBelow, GoodId, x.prerelease.value);
      if y.prerelease.Some? {
        LexTotal(IdBelow, GoodId, x.prerelease.value, y.prerelease.value);
        if z.prerelease.Some? && Lex(IdBelow, x.prerelease.value, y.prerelease.value)
          && Lex(IdBelow, y.prerelease.value, z.prerelease.value) {
          LexTransitive(IdBelow, GoodId, x.prerelease.value, y.prerelease.value, z.prerelease.value);
        }
      }
    }
  }

  /** Two versions compare equal only when they are the same; otherwise one sign is the other reversed. */
  lemma OrderIsSign(x: Version, y: Version)
    requires Parsed(x) && Parsed(y)
    ensures Order(x, y) == -Order(y, x)
    ensures Order(x, y) == 0 <==> x == y
  {
    hide Below;
    BelowIsStrictOrder();
  }

  /** The comparison of two prereleases, from their first identifiers on. */
  method ComparePrereleases(left: seq<string>, right: seq<string>) returns (r: int)
    requires All(GoodId, left) && All(GoodId, right)
    ensures -1 <= r <= 1
    ensures r < 0 <==> Lex(IdBelow, left, right)
    ensures r > 0 <==> Lex(IdBelow, right, left)
  {
    hide TextBelow, Value, GoodId;
    IdsOrdered();
    var length := if |left| > |right| then |left| else |right|;
    for index := 0 to length
      invariant index <= |left| && index <= |right| && left[..index] == right[..index]
    {
      FirstDifferenceDecides(IdBelow, GoodId, left, right, index);
      if index == |left| {
        return -1;
      }
      if index == |right| {
        return 1;
      }
      var leftId, rightId := left[index], right[index];
      if leftId == rightId {
        continue;
      }
      TextOrdered(leftId, rightId, leftId);
      var leftNumeric, rightNumeric := Numeric(leftId), Numeric(rightId);
      if leftNumeric && rightNumeric {
        NumericByLengthThenText(leftId, rightId);
        return if |leftId| == |rightId| then (if TextBelow(leftId, rightId) then -1 else 1)
               else if |leftId| < |rightId| then -1 else 1;
      }
      if leftNumeric != rightNumeric {
        return if leftNumeric then -1 else 1;
      }
      return if TextBelow(leftId, rightId) then -1 else 1;
    }
    LexIrreflexive(IdBelow, GoodId, left);
    return 0;
  }

  method Compare(left: Version, right: Version) returns (r: int)
    requires Parsed(left) && Parsed(right)
    ensures r < 0 <==> Below(left, right)
    ensures r > 0 <==> Below(right, left)
    ensures r == Order(left, right)
  {
    hide IdBelow, Lex;
    if left.major != right.major {
      return if left.major < right.major then -1 else 1;
    }
    if left.minor != right.minor {
      return if left.minor < right.minor then -1 else 1;
    }
    if left.patch != right.patch {
      return if left.patch < right.patch then -1 else 1;
    }
    if left.prerelease.None? && right.prerelease.None? {
      return 0;
    }
    if left.prerelease.None? {
      return 1;
    }
    if right.prerelease.None? {
      return -1;
    }
    r := ComparePrereleases(left.prerelease.value, right.prerelease.value);
  }

  // ----- Ranges

  datatype Operator = GreaterThan | AtLeast | LessThan | AtMost | Exactly

  /** One comparator; Unreadable is one that names no version. */
  datatype Comparator = Unreadable | Comparator(op: Operator, target: Version)

  /** One alternative of a range. The version after a caret or a tilde is absent when it does not parse. */
  datatype Alternative =
    | Anything
    | Wildcard(major: nat, minor: Option<nat>)
    | Caret(lower: Option<Version>)
    | Tilde(lower: Option<Version>)
    | Comparators(comparators: seq<Comparator>)

  /** The alternatives between the bars; a blank one is absent. hasDash tells whether the text has a dash. */
  datatype Range = Range(alternatives: seq<Option<Alternative>>, hasDash: bool)

  function SatisfiesComparator(version: Version, comparator: Comparator): Option<bool> {
    if comparator.Unreadable? then None
    else
      var result := Order(version, comparator.target);
      Some(match comparator.op
           case GreaterThan => result > 0
           case AtLeast => result >= 0
           case LessThan => result < 0
           case AtMost => result <= 0
           case Exactly => result == 0)
  }

  function CaretUpper(lower: Version): Version {
    if lower.major > 0 then Version(lower.major + 1, 0, 0, None)
    else if lower.minor > 0 then Version(0, lower.minor + 1, 0, None)
    else Version(0, 0, lower.patch + 1, None)
  }

  function TildeUpper(lower: Version): Version {
    Version(lower.major, lower.minor + 1, 0, None)
  }

  function Satisfies(version: Version, alternative: Alternative): Option<bool> {
    match alternative
    case Anything => Some(true)
    case Wildcard(major, minor) => Some(version.major == major && (minor.None? || version.minor == minor.value))
    case Caret(lower) =>
      if lower.None? then None
      else if Order(version, lower.value) < 0 then Some(false)
      else Some(Order(version, CaretUpper(lower.value)) < 0)
    case Tilde(lower) =>
      if lower.None? then None
      else if Order(version, lower.value) < 0 then Some(false)
      else Some(Order(version, TildeUpper(lower.value)) < 0)
    case Comparators(comparators) =>
      if exists c <- comparators :: SatisfiesComparator(version, c).None? then None
      else Some(forall c <- comparators :: SatisfiesComparator(version, c) == Some(true))
  }

  predicate IsValidRange(range: Range) {
    var probe := Version(0, 0, 0, None);
    && (forall a <- range.alternatives :: a.Some?)
    && forall a <- range.alternatives :: Satisfies(probe, a.value).Some?
  }

  predicate SatisfiesEngine(range: Range, version: Option<Version>) {
    && version.Some?
    && (version.value.prerelease.Some? ==> range.hasDash)
    && (forall a <- range.alternatives :: a.Some?)
    && !(exists a <- range.alternatives :: Satisfies(version.value, a.value).None?)
    && exists a <- range.alternatives :: Satisfies(version.value, a.value) == Some(true)
  }

  predicate ParsedAlternative(alternative: Alternative) {
    match alternative
    case Caret(lower) => lower.Some? ==> Parsed(lower.value)
    case Tilde(lower) => lower.Some? ==> Parsed(lower.value)
    case Comparators(comparators) => forall c <- comparators :: c.Comparator? ==> Parsed(c.target)
    case _ => true
  }

  /** The leading parts that a caret keeps: those up to the first that is not zero. */
  predicate SameCaretSeries(v: Version, lower: Version) {
    && v.major == lower.major
    && (lower.major == 0 ==> v.minor == lower.minor)
    && (lower.major == 0 && lower.minor == 0 ==> v.patch == lower.patch)
  }

  predicate PrereleaseOf(v: Version, upper: Version) {
    v.major == upper.major && v.minor == upper.minor && v.patch == upper.patch && v.prerelease.Some?
  }

  /** A caret range is what is not below its version in the same series, and the prereleases of the series' end. */
  lemma CaretExactly(v: Version, lower: Version)
    requires Parsed(v) && Parsed(lower)
    ensures Satisfies(v, Caret(Some(lower))) == Some(true) <==>
      !Below(v, lower) && (SameCaretSeries(v, lower) || PrereleaseOf(v, CaretUpper(lower)))
  {
    hide IdBelow, Lex;
    OrderIsSign(v, lower);
    OrderIsSign(v, CaretUpper(lower));
  }

  lemma TildeExactly(v: Version, lower: Version)
    requires Parsed(v) && Parsed(lower)
    ensures Satisfies(v, Tilde(Some(lower))) == Some(true) <==>
      !Below(v, lower) && ((v.major == lower.major && v.minor == lower.minor) || PrereleaseOf(v, TildeUpper(lower)))
  {
    hide IdBelow, Lex;
    OrderIsSign(v, lower);
    OrderIsSign(v, TildeUpper(lower));
  }

  /** A comparator says on which side of its version a version lies. */
  lemma ComparatorExactly(v: Version, op: Operator, target: Version)
    requires Parsed(v) && Parsed(target)
    ensures SatisfiesComparator(v, Comparator(op, target)) == Some(
      match op
      case GreaterThan => Below(target, v)
      case AtLeast => !Below(v, target)
      case LessThan => Below(v, target)
      case AtMost => !Below(target, v)
      case Exactly => v == target)
  {
    hide Below;
    OrderIsSign(v, target);
    BelowIsStrictOrder();
  }

  /** An alternative holds for everything between two versions that it holds for. */
  lemma AlternativesAreIntervals(low: Version, v: Version, high: Version, alternative: Alternative)
    requires Parsed(low) && Parsed(v) && Parsed(high) && ParsedAlternative(alternative)
    requires !Below(v, low) && !Below(high, v)
    requires Satisfies(low, alternative) == Some(true) && Satisfies(high, alternative) == Some(true)
    ensures Satisfies(v, alternative) == Some(true)
  {
    BelowIsStrictOrder();
    if alternative.Wildcard? {
      hide IdBelow, Lex, StrictOrder;
    } else {
      hide Below;
    }
  }

  /** Whether an alternative can be read does not depend on the version it is put to. */
  lemma ReadabilityIgnoresVersion(v: Version, w: Version, alternative: Alternative)
    ensures Satisfies(v, alternative).Some? == Satisfies(w, alternative).Some?
  {
    hide Order;
    if alternative.Comparators? {
      forall c <- alternative.comparators
        ensures SatisfiesComparator(v, c).None? == SatisfiesComparator(w, c).None?
      {
      }
    }
  }

  /** A range that a version satisfies is valid, and of the valid ranges those are satisfied that have a matching alternative. */
  lemma SatisfiedRangesAreValid(range: Range, version: Version)
    ensures SatisfiesEngine(range, Some(version)) <==>
      && IsValidRange(range)
      && (version.prerelease.Some? ==> range.hasDash)
      && exists a <- range.alternatives :: Satisfies(version, a.value) == Some(true)
  {
    hide Satisfies;
    forall a: Option<Alternative> | a.Some?
      ensures Satisfies(version, a.value).Some? == Satisfies(Version(0, 0, 0, None), a.value).Some?
    {
      ReadabilityIgnoresVersion(version, Version(0, 0, 0, None), a.value);
    }
  }

  /** The range ^1.2.3-0, whose text has a dash, takes a candidate of version 2.0.0 and not that version itself. */
  lemma CaretTakesNextCandidate()
    ensures var range := Range([Some(Caret(Some(Version(1, 2, 3, Some(["0"])))))], true);
      && IsValidRange(range) && SatisfiesEngine(range, Some(Version(2, 0, 0, Some(["rc"]))))
      && !SatisfiesEngine(range, Some(Version(2, 0, 0, None)))
  {
    hide Satisfies, Below;
    var lower, candidate, next := Version(1, 2, 3, Some(["0"])), Version(2, 0, 0, Some(["rc"])), Version(2, 0, 0, None);
    var range := Range([Some(Caret(Some(lower)))], true);
    assert lower.prerelease.value[0] == "0" && candidate.prerelease.value[0] == "rc";
    assert Parsed(lower) && Parsed(candidate) by {
      assert !Digit("rc"[0]) && GoodId("rc") && GoodId("0");
    }
    CaretExactly(candidate, lower);
    CaretExactly(next, lower);
    OneCaret(range, lower, candidate);
    OneCaret(range, lower, next);
    HigherMajor(candidate, lower);
  }

  lemma HigherMajor(v: Version, w: Version)
    requires v.major > w.major
    ensures !Below(v, w)
  {
  }

  lemma OneCaret(range: Range, lower: Version, version: Version)
    requires range.alternatives == [Some(Caret(Some(lower)))] && range.hasDash
    ensures IsValidRange(range)
    ensures SatisfiesEngine(range, Some(version)) <==> Satisfies(version, Caret(Some(lower))) == Some(true)
  {
    var a := range.alternatives[0];
    assert a in range.alternatives;
  }
}
