/** The four data classifications, their total order, and channel capacities. */
module Classification {

  datatype Level = Public | Internal | Confidential | Restricted

  datatype Capacity = PublicChannel | InternalChannel | PrivateChannel | LocalOnly

  const MAX_RANK := 3

  function Rank(level: Level): (r: nat)
    ensures r <= MAX_RANK
  {
    match level
    case Public => 0
    case Internal => 1
    case Confidential => 2
    case Restricted => 3
  }

  function Join(a: Level, b: Level): (r: Level)
    ensures Rank(a) <= Rank(r) && Rank(b) <= Rank(r)
    ensures r == a || r == b
  {
    if Rank(a) < Rank(b) then b else a
  }

  /** The fold that starts from the lowest level; no levels at all are public. */
  method MaxClassification(levels: seq<Level>) returns (highest: Level)
    ensures forall level :: level in levels ==> Rank(level) <= Rank(highest)
    ensures if levels == [] then highest == Public else highest in levels
  {
    highest := Public;
    for i := 0 to |levels|
      invariant forall level :: level in levels[..i] ==> Rank(level) <= Rank(highest)
      invariant highest == Public || highest in levels[..i]
    {
      if Rank(levels[i]) > Rank(highest) {
        highest := levels[i];
      }
    }
    if levels != [] && highest == Public {
      assert Rank(levels[0]) <= Rank(highest);
    }
  }

  function Ceiling(capacity: Capacity): Level {
    match capacity
    case PublicChannel => Public
    case InternalChannel => Internal
    case PrivateChannel => Confidential
    case LocalOnly => Restricted
  }

  predicate ExceedsCapacity(level: Level, capacity: Capacity) {
    Rank(level) > Rank(Ceiling(capacity))
  }
}
