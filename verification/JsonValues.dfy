/** JSON values as the program holds them, and equality of JSON values. */
module JsonValues {

  /**
   * A number is its value and whether it is negative zero. Undefined is the
   * value of a missing property.
   */
  datatype Json =
    | Null
    | Undefined
    | Bool(b: bool)
    | Number(value: real, negativeZero: bool)
    | String(s: string)
    | Array(items: seq<Json>)
    | Object(members: seq<Member>)

  datatype Member = Member(key: string, value: Json)

  const PROTO := "__proto__"

  predicate UniqueKeys(members: seq<Member>) {
    forall i, j | 0 <= i < j < |members| :: members[i].key != members[j].key
  }

  /** The objects of a value have each key once, and only zero can be negative zero. */
  predicate WellFormed(v: Json) {
    match v
    case Number(x, negativeZero) => negativeZero ==> x == 0.0
    case Array(items) => forall i | 0 <= i < |items| :: WellFormed(items[i])
    case Object(members) => UniqueKeys(members) && forall i | 0 <= i < |members| :: WellFormed(members[i].value)
    case _ => true
  }

  /** A value that JSON text can stand for. */
  predicate Plain(v: Json) {
    match v
    case Undefined => false
    case Array(items) => forall i | 0 <= i < |items| :: Plain(items[i])
    case Object(members) => forall i | 0 <= i < |members| :: Plain(members[i].value)
    case _ => true
  }

  function Keys(members: seq<Member>): set<string> {
    set i | 0 <= i < |members| :: members[i].key
  }

  /** Where a key is, or the number of members when it is not there. */
  function IndexOf(members: seq<Member>, key: string): (r: nat)
    ensures r <= |members|
    ensures r < |members| ==> members[r].key == key
    ensures r < |members| <==> key in Keys(members)
  {
    if members == [] then 0
    else if members[0].key == key then 0
    else
      var r := IndexOf(members[1..], key);
      assert forall i | 0 < i < |members| :: members[i] == members[1..][i - 1];
      r + 1
  }

  // ----- JSON equality

  datatype Tree = Leaf(leaf: Json) | List(trees: seq<Tree>) | Record(fields: map<string, Tree>)

  /** The tree of a value: without the order of keys, but with the sign of each zero. */
  function Normal(v: Json): Tree {
    match v
    case Array(items) => List(seq(|items|, i requires 0 <= i < |items| => Normal(items[i])))
    case Object(members) =>
      Record(map k | k in Keys(members) && members[IndexOf(members, k)].value != Undefined
               :: Normal(members[IndexOf(members, k)].value))
    case _ => Leaf(v)
  }

  /** JSON has one zero. */
  function Unsigned(v: Json): Json {
    match v
    case Number(x, _) => if x == 0.0 then Number(0.0, false) else v
    case Array(items) => Array(seq(|items|, i requires 0 <= i < |items| => Unsigned(items[i])))
    case Object(members) =>
      Object(seq(|members|, i requires 0 <= i < |members| => Member(members[i].key, Unsigned(members[i].value))))
    case _ => v
  }

  /** Equality of JSON values: neither the order of keys nor the sign of a zero matters. */
  predicate EqualJson(left: Json, right: Json) {
    Normal(Unsigned(left)) == Normal(Unsigned(right))
  }

  predicate NoZero(v: Json) {
    match v
    case Number(x, _) => x != 0.0
    case Array(items) => forall i | 0 <= i < |items| :: NoZero(items[i])
    case Object(members) => forall i | 0 <= i < |members| :: NoZero(members[i].value)
    case _ => true
  }

  predicate NoNegativeZero(v: Json) {
    match v
    case Number(_, negativeZero) => !negativeZero
    case Array(items) => forall i | 0 <= i < |items| :: NoNegativeZero(items[i])
    case Object(members) => forall i | 0 <= i < |members| :: NoNegativeZero(members[i].value)
    case _ => true
  }

  // ----- Equality as the validator decides it

  /** What indexing an object gives: its own value or, for one key, the empty object that it inherits. */
  function Property(members: seq<Member>, key: string): Json {
    var i := IndexOf(members, key);
    if i < |members| then members[i].value
    else if key == PROTO then Object([]) else Undefined
  }

  predicate SameJson(left: Json, right: Json) {
    match left
    case Array(items) =>
      && right.Array? && |items| == |right.items|
      && forall i | 0 <= i < |items| :: SameJson(items[i], right.items[i])
    case Object(members) =>
      && right.Object? && |members| == |right.members|
      && forall i | 0 <= i < |members| :: SameJson(members[i].value, Property(right.members, members[i].key))
    case _ => left == right
  }

  /** No object of the value has an own member that the inherited one could be taken for. */
  predicate Unmistakable(v: Json) {
    match v
    case Array(items) => forall i | 0 <= i < |items| :: Unmistakable(items[i])
    case Object(members) =>
      && Member(PROTO, Object([])) !in members
      && forall i | 0 <= i < |members| :: Unmistakable(members[i].value)
    case _ => true
  }

  lemma IndexOfMember(members: seq<Member>, i: nat)
    requires UniqueKeys(members) && i < |members|
    ensures IndexOf(members, members[i].key) == i
  {
    var j := IndexOf(members, members[i].key);
    assert members[i].key in Keys(members);
  }

  lemma NormalMember(v: Json, i: nat)
    requires v.Object? && WellFormed(v) && Plain(v) && i < |v.members|
    ensures v.members[i].key in Normal(v).fields && Normal(v).fields[v.members[i].key] == Normal(v.members[i].value)
  {
    IndexOfMember(v.members, i);
  }

  /** Equal trees are found to be the same. */
  lemma {:induction false} EqualTreesAreSame(left: Json, right: Json)
    requires WellFormed(left) && WellFormed(right) && Plain(left) && Plain(right)
    requires Normal(left) == Normal(right)
    ensures SameJson(left, right)
  {
    match left
    case Array(items) =>
      assert right.Array?;
      forall i | 0 <= i < |items|
        ensures SameJson(items[i], right.items[i])
      {
        assert Normal(left).trees[i] == Normal(items[i]) && Normal(right).trees[i] == Normal(right.items[i]);
        EqualTreesAreSame(items[i], right.items[i]);
      }
      assert |Normal(left).trees| == |items| && |Normal(right).trees| == |right.items|;
    case Object(members) =>
      hide Plain, WellFormed;
      forall i | 0 <= i < |members|
        ensures SameJson(members[i].value, Property(right.members, members[i].key))
      {
        EqualRecordMembers(left, right, i);
        EqualTreesAreSame(members[i].value, Property(right.members, members[i].key));
      }
      EqualRecordKeys(left, right);
    case _ =>
  }

  lemma EqualRecordKeys(left: Json, right: Json)
    requires left.Object? && WellFormed(left) && WellFormed(right) && Plain(left) && Plain(right)
    requires Normal(left) == Normal(right)
    ensures right.Object? && Keys(left.members) == Keys(right.members) && |left.members| == |right.members|
  {
    assert right.Object?;
    assert Keys(left.members) == Normal(left).fields.Keys && Keys(right.members) == Normal(right).fields.Keys;
    KeysCount(left.members);
    KeysCount(right.members);
  }

  lemma EqualRecordMembers(left: Json, right: Json, i: nat)
    requires left.Object? && WellFormed(left) && WellFormed(right) && Plain(left) && Plain(right)
    requires Normal(left) == Normal(right) && i < |left.members|
    ensures right.Object?
    ensures var l, r := left.members[i].value, Property(right.members, left.members[i].key);
      WellFormed(l) && WellFormed(r) && Plain(l) && Plain(r) && Normal(l) == Normal(r)
  {
    EqualRecordKeys(left, right);
    NormalMember(left, i);
    NormalMember(right, IndexOf(right.members, left.members[i].key));
  }

  lemma {:induction false} KeysCount(members: seq<Member>)
    requires UniqueKeys(members)
    ensures |Keys(members)| == |members|
  {
    if members != [] {
      var n := |members| - 1;
      KeysCount(members[..n]);
      assert Keys(members) == Keys(members[..n]) + {members[n].key};
    }
  }

  lemma SubsetOfSameSize(a: set<string>, b: set<string>)
    requires a <= b && |a| == |b|
    ensures a == b
  {
    assert b == a + (b - a);
    assert |b - a| == 0;
  }

  /** A member that is the same as an inherited one, or as an absent one, is ruled out. */
  lemma MemberIsOwn(left: Json, right: Json, i: nat)
    requires left.Object? && right.Object? && Plain(left) && Unmistakable(left) && i < |left.members|
    requires SameJson(left.members[i].value, Property(right.members, left.members[i].key))
    ensures left.members[i].key in Keys(right.members)
  {
    var m := left.members[i];
    assert SameJson(m.value, Object([])) ==> m.value == Object([]);
    assert m in left.members && m == Member(m.key, m.value);
  }

  lemma {:induction false} SameAreEqualTrees(left: Json, right: Json)
    requires WellFormed(left) && WellFormed(right) && Plain(left) && Plain(right)
    requires Unmistakable(left) && SameJson(left, right)
    ensures Normal(left) == Normal(right)
  {
    match left
    case Array(items) =>
      forall i | 0 <= i < |items|
        ensures Normal(items[i]) == Normal(right.items[i])
      {
        SameAreEqualTrees(items[i], right.items[i]);
      }
    case Object(members) =>
      hide Plain;
      SameKeys(left, right);
      forall i | 0 <= i < |members|
        ensures Normal(members[i].value) == Normal(right.members[IndexOf(right.members, members[i].key)].value)
      {
        PlainMembers(left, i);
        PlainMembers(right, IndexOf(right.members, members[i].key));
        SameAreEqualTrees(members[i].value, right.members[IndexOf(right.members, members[i].key)].value);
      }
      EqualRecords(left, right);
    case _ =>
  }

  lemma EqualRecords(left: Json, right: Json)
    requires left.Object? && right.Object? && WellFormed(left) && WellFormed(right) && Plain(left) && Plain(right)
    requires Keys(left.members) == Keys(right.members)
    requires forall i | 0 <= i < |left.members| ::
      Normal(left.members[i].value) == Normal(right.members[IndexOf(right.members, left.members[i].key)].value)
    ensures Normal(left) == Normal(right)
  {
    hide Plain, WellFormed;
    var f, g := Normal(left).fields, Normal(right).fields;
    forall k | k in Keys(left.members)
      ensures k in f && k in g && f[k] == g[k]
    {
      var i, j := IndexOf(left.members, k), IndexOf(right.members, k);
      NormalMember(left, i);
      NormalMember(right, j);
    }
    assert f.Keys <= Keys(left.members) && g.Keys <= Keys(right.members);
    assert f == g;
  }

  lemma PlainMembers(v: Json, i: nat)
    requires v.Object? && Plain(v) && i < |v.members|
    ensures Plain(v.members[i].value)
  {
  }

  lemma SameKeys(left: Json, right: Json)
    requires left.Object? && WellFormed(left) && WellFormed(right) && Plain(left) && Unmistakable(left)
    requires SameJson(left, right)
    ensures Keys(left.members) == Keys(right.members)
  {
    forall i | 0 <= i < |left.members|
      ensures left.members[i].key in Keys(right.members)
    {
      MemberIsOwn(left, right, i);
    }
    KeysCount(left.members);
    KeysCount(right.members);
    SubsetOfSameSize(Keys(left.members), Keys(right.members));
  }

  // ----- Where it is not JSON equality

  function Total(members: seq<Member>): nat {
    if members == [] then 0 else |members[0].key| + Total(members[1..])
  }

  lemma {:induction false} TotalBounds(members: seq<Member>, i: nat)
    requires i < |members|
    ensures |members[i].key| <= Total(members)
  {
    if i > 0 {
      TotalBounds(members[1..], i - 1);
    }
  }

  lemma UnusedKey(members: seq<Member>) returns (key: string)
    ensures key !in Keys(members) && key != PROTO
  {
    key := seq(Total(members) + 10, i => 'a');
    forall i | 0 <= i < |members|
      ensures members[i].key != key
    {
      TotalBounds(members, i);
    }
  }

  lemma Reflexive(v: Json)
    requires WellFormed(v) && Plain(v)
    ensures SameJson(v, v)
  {
    EqualTreesAreSame(v, v);
  }

  /** Replacing a member leaves the others where they were. */
  lemma OtherMembers(members: seq<Member>, p: nat, m: Member, i: nat)
    requires UniqueKeys(members) && p < |members| && i < |members| && i != p
    requires m.key == members[p].key || m.key !in Keys(members)
    ensures UniqueKeys(members[p := m]) && Property(members[p := m], members[i].key) == members[i].value
  {
    var after := members[p := m];
    forall j, k | 0 <= j < k < |members|
      ensures after[j].key != after[k].key
    {
      assert members[j].key in Keys(members) && members[k].key in Keys(members);
    }
    IndexOfMember(after, i);
  }

  /** One of the members of a value is exchanged for another that passes for it. */
  lemma ExchangedMember(v: Json, p: nat, m: Member)
    requires v.Object? && WellFormed(v) && Plain(v) && p < |v.members| && WellFormed(m.value) && Plain(m.value)
    requires m.key == v.members[p].key || m.key !in Keys(v.members)
    requires SameJson(v.members[p].value, Property(v.members[p := m], v.members[p].key))
    ensures var w := Object(v.members[p := m]);
      WellFormed(w) && Plain(w) && SameJson(v, w)
  {
    var w := Object(v.members[p := m]);
    forall i | 0 <= i < |v.members|
      ensures SameJson(v.members[i].value, Property(w.members, v.members[i].key))
    {
      if i != p {
        OtherMembers(v.members, p, m, i);
        Reflexive(v.members[i].value);
      }
    }
    if |v.members| > 1 {
      OtherMembers(v.members, p, m, if p == 0 then 1 else 0);
    }
  }

  /** A value that is found to be the same as another one. */
  lemma {:induction false} Mistaken(v: Json) returns (w: Json)
    requires WellFormed(v) && Plain(v) && !Unmistakable(v)
    ensures WellFormed(w) && Plain(w) && SameJson(v, w) && Normal(v) != Normal(w)
    ensures NoNegativeZero(v) ==> NoNegativeZero(w)
  {
    match v {
      case Array(items) =>
        var i :| 0 <= i < |items| && !Unmistakable(items[i]);
        var twin := Mistaken(items[i]);
        w := Array(items[i := twin]);
        MistakenItem(v, i, twin);
      case Object(members) =>
        if Member(PROTO, Object([])) in members {
          var p :| 0 <= p < |members| && members[p] == Member(PROTO, Object([]));
          w := MistakenMember(v, p);
        } else {
          var i :| 0 <= i < |members| && !Unmistakable(members[i].value);
          var twin := Mistaken(members[i].value);
          w := Object(members[i := Member(members[i].key, twin)]);
          MistakenInside(v, i, twin);
        }
    }
  }

  lemma MistakenItem(v: Json, i: nat, twin: Json)
    requires v.Array? && WellFormed(v) && Plain(v) && i < |v.items| && WellFormed(twin) && Plain(twin)
    requires SameJson(v.items[i], twin) && Normal(v.items[i]) != Normal(twin)
    ensures var w := Array(v.items[i := twin]);
      WellFormed(w) && Plain(w) && SameJson(v, w) && Normal(v) != Normal(w)
  {
    var w := Array(v.items[i := twin]);
    forall j | 0 <= j < |v.items|
      ensures SameJson(v.items[j], w.items[j])
    {
      if j != i {
        Reflexive(v.items[j]);
      }
    }
    assert Normal(v).trees[i] == Normal(v.items[i]) && Normal(w).trees[i] == Normal(twin);
  }

  lemma MistakenInside(v: Json, i: nat, twin: Json)
    requires v.Object? && WellFormed(v) && Plain(v) && i < |v.members| && WellFormed(twin) && Plain(twin)
    requires SameJson(v.members[i].value, twin) && Normal(v.members[i].value) != Normal(twin)
    ensures var w := Object(v.members[i := Member(v.members[i].key, twin)]);
      WellFormed(w) && Plain(w) && SameJson(v, w) && Normal(v) != Normal(w)
  {
    var m := Member(v.members[i].key, twin);
    var w := Object(v.members[i := m]);
    if |v.members| > 1 {
      OtherMembers(v.members, i, m, if i == 0 then 1 else 0);
    }
    IndexOfMember(w.members, i);
    ExchangedMember(v, i, m);
    NormalMember(v, i);
    NormalMember(w, i);
  }

  lemma MistakenMember(v: Json, p: nat) returns (w: Json)
    requires v.Object? && WellFormed(v) && Plain(v) && p < |v.members| && v.members[p] == Member(PROTO, Object([]))
    ensures WellFormed(w) && Plain(w) && SameJson(v, w) && Normal(v) != Normal(w)
    ensures NoNegativeZero(v) ==> NoNegativeZero(w)
  {
    var key := UnusedKey(v.members);
    var m := Member(key, Null);
    w := Object(v.members[p := m]);
    forall i | 0 <= i < |v.members|
      ensures w.members[i].key != PROTO
    {
      assert i != p ==> v.members[i].key != v.members[p].key;
    }
    assert PROTO !in Keys(w.members);
    Reflexive(Object([]));
    ExchangedMember(v, p, m);
    NormalMember(w, p);
    assert key !in Normal(v).fields;
  }

  // ----- The sign of zero

  function UnsignedTree(t: Tree): Tree {
    match t
    case Leaf(v) => Leaf(if v.Number? && v.value == 0.0 then Number(0.0, false) else v)
    case List(trees) => List(seq(|trees|, i requires 0 <= i < |trees| => UnsignedTree(trees[i])))
    case Record(fields) => Record(map k <- fields :: UnsignedTree(fields[k]))
  }

  predicate ZeroFree(t: Tree) {
    match t
    case Leaf(v) => v.Number? ==> v.value != 0.0
    case List(trees) => forall i | 0 <= i < |trees| :: ZeroFree(trees[i])
    case Record(fields) => forall k <- fields :: ZeroFree(fields[k])
  }

  lemma {:induction false} UnsignedOfZeroFree(t: Tree)
    requires ZeroFree(UnsignedTree(t))
    ensures UnsignedTree(t) == t
  {
    match t
    case Leaf(_) =>
    case List(trees) =>
      forall i | 0 <= i < |trees|
        ensures UnsignedTree(trees[i]) == trees[i]
      {
        assert UnsignedTree(t).trees[i] == UnsignedTree(trees[i]);
        UnsignedOfZeroFree(trees[i]);
      }
    case Record(fields) =>
      forall k | k in fields
        ensures UnsignedTree(fields[k]) == fields[k]
      {
        assert UnsignedTree(t).fields[k] == UnsignedTree(fields[k]);
        UnsignedOfZeroFree(fields[k]);
      }
      assert UnsignedTree(t).fields == fields;
  }

  lemma {:induction false} NormalOfNoZero(v: Json)
    requires NoZero(v)
    ensures ZeroFree(Normal(v))
  {
    match v
    case Array(items) =>
      forall i | 0 <= i < |items|
        ensures ZeroFree(Normal(v).trees[i])
      {
        NormalOfNoZero(items[i]);
      }
    case Object(members) =>
      forall k | k in Normal(v).fields
        ensures ZeroFree(Normal(v).fields[k])
      {
        NormalOfNoZero(members[IndexOf(members, k)].value);
      }
    case _ =>
  }

  /** Dropping the signs keeps the value well formed. */
  lemma {:induction false} UnsignedIsGood(v: Json)
    requires WellFormed(v)
    ensures WellFormed(Unsigned(v)) && (Plain(v) ==> Plain(Unsigned(v))) && NoNegativeZero(Unsigned(v))
  {
    match v
    case Array(items) =>
      forall i | 0 <= i < |items|
        ensures var u := Unsigned(v).items[i]; WellFormed(u) && (Plain(items[i]) ==> Plain(u)) && NoNegativeZero(u)
      {
        UnsignedIsGood(items[i]);
      }
    case Object(members) =>
      forall i | 0 <= i < |members|
        ensures var u := Unsigned(v).members[i].value; WellFormed(u) && (Plain(members[i].value) ==> Plain(u)) && NoNegativeZero(u)
      {
        UnsignedIsGood(members[i].value);
      }
    case _ =>
  }

  lemma {:induction false} UnsignedIsSame(v: Json)
    requires WellFormed(v) && NoNegativeZero(v)
    ensures Unsigned(v) == v
  {
    match v
    case Array(items) =>
      forall i | 0 <= i < |items|
        ensures Unsigned(items[i]) == items[i]
      {
        UnsignedIsSame(items[i]);
      }
      assert Unsigned(v).items == items;
    case Object(members) =>
      forall i | 0 <= i < |members|
        ensures Unsigned(v).members[i] == members[i]
      {
        UnsignedIsSame(members[i].value);
      }
      assert Unsigned(v).members == members;
    case _ =>
  }

  lemma UnsignedKeys(v: Json)
    requires v.Object? && WellFormed(v)
    ensures Keys(Unsigned(v).members) == Keys(v.members)
    ensures forall k <- Keys(v.members) :: IndexOf(Unsigned(v).members, k) == IndexOf(v.members, k)
  {
    var ms, us := v.members, Unsigned(v).members;
    assert forall i | 0 <= i < |ms| :: us[i].key == ms[i].key;
    forall k | k in Keys(ms)
      ensures IndexOf(us, k) == IndexOf(ms, k)
    {
      IndexOfMember(us, IndexOf(ms, k));
    }
  }

  /** The tree of an unsigned value is the unsigned tree of the value. */
  lemma {:induction false} NormalOfUnsigned(v: Json)
    requires WellFormed(v)
    ensures Normal(Unsigned(v)) == UnsignedTree(Normal(v))
  {
    match v
    case Array(items) =>
      forall i | 0 <= i < |items|
        ensures Normal(Unsigned(v)).trees[i] == UnsignedTree(Normal(v)).trees[i]
      {
        NormalOfUnsigned(items[i]);
      }
      assert Normal(Unsigned(v)).trees == UnsignedTree(Normal(v)).trees;
    case Object(members) =>
      forall i | 0 <= i < |members|
        ensures Normal(Unsigned(members[i].value)) == UnsignedTree(Normal(members[i].value))
      {
        NormalOfUnsigned(members[i].value);
      }
      UnsignedRecord(v);
    case _ =>
  }

  lemma UnsignedRecord(v: Json)
    requires v.Object? && WellFormed(v)
    requires forall i | 0 <= i < |v.members| ::
      Normal(Unsigned(v.members[i].value)) == UnsignedTree(Normal(v.members[i].value))
    ensures Normal(Unsigned(v)) == UnsignedTree(Normal(v))
  {
    hide WellFormed, UnsignedTree;
    UnsignedKeys(v);
    var u := Unsigned(v).members;
    var f, n := Normal(Unsigned(v)).fields, Normal(v).fields;
    assert forall i | 0 <= i < |u| :: u[i].value == Unsigned(v.members[i].value);
    forall k | k in Keys(v.members)
      ensures (k in f <==> k in n) && (k in f ==> f[k] == UnsignedTree(n[k]))
    {
      var i := IndexOf(v.members, k);
      assert u[i].value != Undefined <==> v.members[i].value != Undefined;
    }
    RecordOfUnsigned(f, n);
  }

  lemma RecordOfUnsigned(f: map<string, Tree>, n: map<string, Tree>)
    requires f.Keys == n.Keys && forall k <- f :: f[k] == UnsignedTree(n[k])
    ensures Record(f) == UnsignedTree(Record(n))
  {
  }

  lemma EqualTreesAreEqualJson(left: Json, right: Json)
    requires WellFormed(left) && WellFormed(right) && Normal(left) == Normal(right)
    ensures EqualJson(left, right)
  {
    NormalOfUnsigned(left);
    NormalOfUnsigned(right);
  }

  /** Without a zero on the left, equality of JSON values is equality of the trees. */
  lemma NoZeroEqualTrees(left: Json, right: Json)
    requires WellFormed(left) && WellFormed(right) && NoZero(left) && EqualJson(left, right)
    ensures Normal(left) == Normal(right)
  {
    NormalOfUnsigned(left);
    NormalOfUnsigned(right);
    NormalOfNoZero(left);
    NoZeroIsUnsigned(left);
    UnsignedOfZeroFree(Normal(right));
  }

  lemma {:induction false} NoZeroIsUnsigned(v: Json)
    requires WellFormed(v) && NoZero(v)
    ensures NoNegativeZero(v) && Unsigned(v) == v
  {
    NoZeroNoNegative(v);
    UnsignedIsSame(v);
  }

  lemma {:induction false} NoZeroNoNegative(v: Json)
    requires WellFormed(v) && NoZero(v)
    ensures NoNegativeZero(v)
  {
    match v
    case Array(items) =>
      forall i | 0 <= i < |items|
        ensures NoNegativeZero(items[i])
      {
        NoZeroNoNegative(items[i]);
      }
    case Object(members) =>
      forall i | 0 <= i < |members|
        ensures NoNegativeZero(members[i].value)
      {
        NoZeroNoNegative(members[i].value);
      }
    case _ =>
  }

  /** The value with the sign of every zero turned round. */
  function Flipped(v: Json): Json {
    match v
    case Number(x, negativeZero) => if x == 0.0 then Number(x, !negativeZero) else v
    case Array(items) => Array(seq(|items|, i requires 0 <= i < |items| => Flipped(items[i])))
    case Object(members) =>
      Object(seq(|members|, i requires 0 <= i < |members| => Member(members[i].key, Flipped(members[i].value))))
    case _ => v
  }

  lemma {:induction false} FlippedIsEqual(v: Json)
    requires WellFormed(v) && Plain(v)
    ensures WellFormed(Flipped(v)) && Plain(Flipped(v)) && Unsigned(Flipped(v)) == Unsigned(v)
  {
    match v
    case Array(items) =>
      forall i | 0 <= i < |items|
        ensures var f := Flipped(v).items[i]; WellFormed(f) && Plain(f) && Unsigned(f) == Unsigned(items[i])
      {
        FlippedIsEqual(items[i]);
      }
      assert Unsigned(Flipped(v)).items == Unsigned(v).items;
    case Object(members) =>
      forall i | 0 <= i < |members|
        ensures var f := Flipped(v).members[i].value; WellFormed(f) && Plain(f) && Unsigned(f) == Unsigned(members[i].value)
      {
        FlippedIsEqual(members[i].value);
      }
      assert Unsigned(Flipped(v)).members == Unsigned(v).members;
    case _ =>
  }

  /** A value in which some zero stands is not found to be the same as that one. */
  lemma {:induction false} FlippedIsNotSame(v: Json)
    requires WellFormed(v) && Plain(v) && !NoZero(v)
    ensures !SameJson(v, Flipped(v))
  {
    match v
    case Array(items) =>
      var i :| 0 <= i < |items| && !NoZero(items[i]);
      FlippedIsNotSame(items[i]);
      assert Flipped(v).items[i] == Flipped(items[i]);
    case Object(members) =>
      var i :| 0 <= i < |members| && !NoZero(members[i].value);
      FlippedIsNotSame(members[i].value);
      var others := Flipped(v).members;
      FlippedIsEqual(v);
      IndexOfMember(others, i);
      assert Property(others, members[i].key) == Flipped(members[i].value);
    case _ =>
  }

  /** A value with a negative zero is not found to be the same as the one without the sign. */
  lemma {:induction false} UnsignedIsNotSame(v: Json)
    requires WellFormed(v) && Plain(v) && !NoNegativeZero(v)
    ensures !SameJson(v, Unsigned(v))
  {
    match v
    case Array(items) =>
      var i :| 0 <= i < |items| && !NoNegativeZero(items[i]);
      UnsignedIsNotSame(items[i]);
      assert Unsigned(v).items[i] == Unsigned(items[i]);
    case Object(members) =>
      var i :| 0 <= i < |members| && !NoNegativeZero(members[i].value);
      UnsignedIsNotSame(members[i].value);
      var others := Unsigned(v).members;
      UnsignedIsGood(v);
      IndexOfMember(others, i);
      assert Property(others, members[i].key) == Unsigned(members[i].value);
    case _ =>
  }

  lemma UnsignedIsEqual(v: Json)
    requires WellFormed(v)
    ensures EqualJson(v, Unsigned(v))
  {
    UnsignedIsGood(v);
    UnsignedIsSame(Unsigned(v));
  }

  /** The comparison is equality of JSON values when no sign of zero can get in the way. */
  lemma SameIsEqual(left: Json, right: Json)
    requires WellFormed(left) && WellFormed(right) && Plain(left) && Plain(right) && Unmistakable(left)
    requires NoZero(left) || (NoNegativeZero(left) && NoNegativeZero(right))
    ensures SameJson(left, right) <==> EqualJson(left, right)
  {
    hide Normal, SameJson, Unsigned;
    if SameJson(left, right) {
      SameAreEqualTrees(left, right);
      EqualTreesAreEqualJson(left, right);
    }
    if EqualJson(left, right) {
      if NoZero(left) {
        NoZeroEqualTrees(left, right);
      } else {
        UnsignedIsSame(left);
        UnsignedIsSame(right);
      }
      EqualTreesAreSame(left, right);
    }
  }

  /** For which left sides the comparison is equality of JSON values. */
  lemma SameJsonExactly(left: Json)
    requires WellFormed(left) && Plain(left)
    ensures (forall right | WellFormed(right) && Plain(right) :: SameJson(left, right) <==> EqualJson(left, right))
      <==> Unmistakable(left) && NoZero(left)
  {
    hide SameJson, Normal, Unsigned, WellFormed, Plain;
    if !NoZero(left) {
      FlippedIsEqual(left);
      FlippedIsNotSame(left);
      assert EqualJson(left, Flipped(left));
    } else if Unmistakable(left) {
      forall right | WellFormed(right) && Plain(right)
        ensures SameJson(left, right) <==> EqualJson(left, right)
      {
        SameIsEqual(left, right);
      }
    } else {
      var w := Mistaken(left);
      if EqualJson(left, w) {
        NoZeroEqualTrees(left, w);
      }
    }
  }

  /** For which left sides it is equality with every right side that has no negative zero. */
  lemma SameUnsignedExactly(left: Json)
    requires WellFormed(left) && Plain(left)
    ensures (forall right | WellFormed(right) && Plain(right) && NoNegativeZero(right) ::
               SameJson(left, right) <==> EqualJson(left, right))
      <==> Unmistakable(left) && NoNegativeZero(left)
  {
    hide SameJson, Normal, Unsigned, WellFormed, Plain;
    if !NoNegativeZero(left) {
      UnsignedIsGood(left);
      UnsignedIsNotSame(left);
      UnsignedIsEqual(left);
    } else if Unmistakable(left) {
      forall right | WellFormed(right) && Plain(right) && NoNegativeZero(right)
        ensures SameJson(left, right) <==> EqualJson(left, right)
      {
        SameIsEqual(left, right);
      }
    } else {
      var w := Mistaken(left);
      UnsignedIsSame(left);
      UnsignedIsSame(w);
      assert SameJson(left, w) && !EqualJson(left, w);
    }
  }

  /** The comparison is not symmetric: the object with its own empty prototype member against one with another member. */
  lemma SameJsonIsNotSymmetric()
    ensures var a, b := Object([Member(PROTO, Object([]))]), Object([Member("a", Null)]);
      SameJson(a, b) && !SameJson(b, a)
  {
    var a, b := Object([Member(PROTO, Object([]))]), Object([Member("a", Null)]);
    assert |PROTO| == 9;
    assert a.members[0].key !in Keys(b.members) && b.members[0].key !in Keys(a.members);
    assert SameJson(Object([]), Object([]));
    assert !SameJson(b.members[0].value, Property(a.members, b.members[0].key));
  }
}
