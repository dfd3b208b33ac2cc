/** The form of a JSON value that does not depend on the order in which its keys were written. */
module StableJson {
  import opened Wrappers
  import opened Lexicographic
  import opened JsonValues

  // ----- Sorted keys

  predicate Increasing(keys: seq<string>) {
    forall i, j | 0 <= i < j < |keys| :: TextBelow(keys[i], keys[j])
  }

  function Insert(keys: seq<string>, key: string): (r: seq<string>)
    ensures forall k :: k in r <==> k in keys || k == key
  {
    if keys == [] || TextBelow(key, keys[0]) then [key] + keys
    else [keys[0]] + Insert(keys[1..], key)
  }

  function Sort(keys: seq<string>): (r: seq<string>)
    ensures forall k :: k in r <==> k in keys
  {
    if keys == [] then [] else Insert(Sort(keys[1..]), keys[0])
  }

  function KeySeq(members: seq<Member>): (r: seq<string>)
    ensures |r| == |members| && forall i | 0 <= i < |r| :: r[i] == members[i].key
    ensures forall k <- r :: k in Keys(members)
  {
    assert forall i | 0 <= i < |members| :: members[i].key in Keys(members);
    seq(|members|, i requires 0 <= i < |members| => members[i].key)
  }

  lemma {:induction false} InsertKeepsIncreasing(keys: seq<string>, key: string)
    requires Increasing(keys) && key !in keys
    ensures Increasing(Insert(keys, key))
  {
    hide TextBelow;
    if keys == [] {
    } else if TextBelow(key, keys[0]) {
      var r := [key] + keys;
      forall j | 0 < j < |r|
        ensures TextBelow(r[0], r[j])
      {
        TextOrdered(key, keys[0], r[j]);
      }
    } else {
      InsertKeepsIncreasing(keys[1..], key);
      TextOrdered(key, keys[0], key);
      var r := Insert(keys, key);
      forall j | 0 < j < |r|
        ensures TextBelow(r[0], r[j])
      {
        assert r[j] in Insert(keys[1..], key);
      }
    }
  }

  lemma {:induction false} SortIncreases(keys: seq<string>)
    requires forall i, j | 0 <= i < j < |keys| :: keys[i] != keys[j]
    ensures Increasing(Sort(keys))
  {
    if keys != [] {
      SortIncreases(keys[1..]);
      InsertKeepsIncreasing(Sort(keys[1..]), keys[0]);
    }
  }

  lemma SameElementsSameEmptiness(a: seq<string>, b: seq<string>)
    requires forall k :: k in a <==> k in b
    ensures a == [] <==> b == []
  {
    if a != [] {
      assert a[0] in a;
    }
    if b != [] {
      assert b[0] in b;
    }
  }

  /** An increasing sequence is determined by its elements. */
  lemma {:induction false} IncreasingIsUnique(a: seq<string>, b: seq<string>)
    requires Increasing(a) && Increasing(b) && forall k :: k in a <==> k in b
    ensures a == b
    decreases |a|
  {
    hide TextBelow;
    SameElementsSameEmptiness(a, b);
    if a != [] {
      assert a[0] in a && b[0] in b;
      var i :| 0 <= i < |a| && a[i] == b[0];
      var j :| 0 <= j < |b| && b[j] == a[0];
      TextOrdered(a[0], b[0], a[0]);
      assert a[0] == b[0];
      forall k
        ensures k in a[1..] <==> k in b[1..]
      {
        TextOrdered(k, k, k);
        assert k in a[1..] ==> TextBelow(a[0], k);
        assert k in b[1..] ==> TextBelow(b[0], k);
        assert k in a <==> k == a[0] || k in a[1..];
        assert k in b <==> k == b[0] || k in b[1..];
      }
      IncreasingIsUnique(a[1..], b[1..]);
    }
  }

  // ----- The stable form

  function MemberAt(v: Json, key: string): (r: Json)
    requires v.Object? && key in Keys(v.members)
    ensures r < v
  {
    v.members[IndexOf(v.members, key)].value
  }

  /** Absent when some part of the value is not JSON. Setting the prototype key adds no member. */
  function Stable(v: Json): Option<Json>
    decreases v, 1
  {
    match v
    case Undefined => None
    case Array(items) =>
      if exists i | 0 <= i < |items| :: Stable(items[i]).None? then None
      else Some(Array(seq(|items|, i requires 0 <= i < |items| && Stable(items[i]).Some? => Stable(items[i]).value)))
    case Object(members) =>
      var r := StableMembers(v, Sort(KeySeq(members)));
      if r.None? then None else Some(Object(r.value))
    case _ => Some(v)
  }

  function StableMembers(v: Json, keys: seq<string>): Option<seq<Member>>
    requires v.Object? && forall k <- keys :: k in Keys(v.members)
    decreases v, 0, |keys|
  {
    if keys == [] then Some([])
    else
      var key := keys[|keys| - 1];
      var before := StableMembers(v, keys[..|keys| - 1]);
      if before.None? || MemberAt(v, key) == Undefined then before
      else
        var entry := Stable(MemberAt(v, key));
        if entry.None? then None
        else if key == PROTO then before
        else Some(before.value + [Member(key, entry.value)])
  }

  /** The loops of the program, over the items and over the sorted keys. */
  method StableJsonValue(v: Json) returns (r: Option<Json>)
    ensures r == Stable(v)
    decreases v
  {
    match v {
      case Undefined =>
        return None;
      case Array(items) =>
        var stable := [];
        for i := 0 to |items|
          invariant |stable| == i
          invariant forall j | 0 <= j < i :: Stable(items[j]) == Some(stable[j])
        {
          var entry := StableJsonValue(items[i]);
          if entry.None? {
            return None;
          }
          stable := stable + [entry.value];
        }
        assert Stable(v) == Some(Array(stable)) by {
          assert Stable(v).Some? && Stable(v).value.items == stable;
        }
        return Some(Array(stable));
      case Object(members) =>
        var keys := Sort(KeySeq(members));
        var result := [];
        for i := 0 to |keys|
          invariant StableMembers(v, keys[..i]) == Some(result)
        {
          assert keys[..i + 1][..i] == keys[..i] && keys[i] in keys;
          var entry := MemberAt(v, keys[i]);
          if entry != Undefined {
            var stable := StableJsonValue(entry);
            if stable.None? {
              StableFails(v, keys, i + 1);
              assert keys[..|keys|] == keys;
              return None;
            }
            if keys[i] != PROTO {
              result := result + [Member(keys[i], stable.value)];
            }
          }
        }
        assert keys[..|keys|] == keys;
        return Some(Object(result));
      case _ =>
        return Some(v);
    }
  }

  lemma {:induction false} StableFails(v: Json, keys: seq<string>, n: nat)
    requires v.Object? && (forall k <- keys :: k in Keys(v.members)) && n <= |keys|
    requires StableMembers(v, keys[..n]).None?
    ensures StableMembers(v, keys).None?
    decreases |keys|
  {
    if n < |keys| {
      assert keys[..|keys| - 1][..n] == keys[..n];
      StableFails(v, keys[..|keys| - 1], n);
    } else {
      assert keys[..n] == keys;
    }
  }

  // ----- What the stable form identifies

  /** Whether an object's member counts: it is not undefined, and setting it does add a member. */
  predicate Counts(v: Json, key: string)
    requires v.Object? && key in Keys(v.members)
  {
    key != PROTO && MemberAt(v, key) != Undefined
  }

  /** The tree of a value without the members that do not count. */
  function Content(v: Json): Tree {
    match v
    case Array(items) => List(seq(|items|, i requires 0 <= i < |items| => Content(items[i])))
    case Object(members) => Record(map k | k in Keys(members) && Counts(v, k) :: Content(MemberAt(v, k)))
    case _ => Leaf(v)
  }

  lemma AppendIncreases(ms: seq<Member>, m: Member)
    requires Increasing(KeySeq(ms)) && forall x <- ms :: TextBelow(x.key, m.key)
    ensures Increasing(KeySeq(ms + [m]))
  {
    hide TextBelow;
    assert KeySeq(ms + [m]) == KeySeq(ms) + [m.key];
  }

  /** The stable members are those that count, in the order of their keys. */
  ghost predicate StableMembersOf(v: Json, keys: seq<string>, ms: seq<Member>)
    requires v.Object? && (forall k <- keys :: k in Keys(v.members))
  {
    && Increasing(KeySeq(ms))
    && (forall m <- ms :: m.key in keys && Counts(v, m.key) && Stable(MemberAt(v, m.key)) == Some(m.value))
    && (forall k <- keys :: Counts(v, k) ==> exists m <- ms :: m.key == k)
  }

  lemma {:induction false} StableMembersAre(v: Json, keys: seq<string>)
    requires v.Object? && (forall k <- keys :: k in Keys(v.members)) && Increasing(keys)
    requires StableMembers(v, keys).Some?
    ensures StableMembersOf(v, keys, StableMembers(v, keys).value)
  {
    hide TextBelow, Stable, MemberAt;
    if keys != [] {
      var n := |keys| - 1;
      StableMembersAre(v, keys[..n]);
      var before, ms := StableMembers(v, keys[..n]).value, StableMembers(v, keys).value;
      if ms != before {
        var m := ms[|ms| - 1];
        forall x | x in before
          ensures TextBelow(x.key, m.key)
        {
          assert x.key in keys[..n];
        }
        AppendIncreases(before, m);
        assert ms == before + [m] && m in ms;
      }
      forall k | k in keys && Counts(v, k)
        ensures exists m <- ms :: m.key == k
      {
        assert k in keys[..n] || k == keys[n];
      }
    }
  }

  lemma StableObject(v: Json) returns (ms: seq<Member>)
    requires v.Object? && WellFormed(v) && Stable(v).Some?
    ensures Stable(v) == Some(Object(ms)) && Increasing(KeySeq(ms)) && UniqueKeys(ms)
    ensures forall k :: k in Keys(ms) <==> k in Keys(v.members) && Counts(v, k)
    ensures forall i | 0 <= i < |ms| ::
      ms[i].key in Keys(v.members) && Stable(MemberAt(v, ms[i].key)) == Some(ms[i].value)
  {
    hide TextBelow, MemberAt;
    var names := KeySeq(v.members);
    var keys := Sort(names);
    forall i, j | 0 <= i < j < |names|
      ensures names[i] != names[j]
    {
      assert v.members[i].key != v.members[j].key;
    }
    SortIncreases(names);
    ms := StableMembers(v, keys).value;
    StableMembersAre(v, keys);
    IncreasingKeysAreUnique(ms);
    assert forall i | 0 <= i < |ms| :: ms[i] in ms;
    assert forall i | 0 <= i < |names| :: names[i] in names;
    forall k | k in Keys(v.members) && Counts(v, k)
      ensures k in Keys(ms)
    {
      var i :| 0 <= i < |v.members| && v.members[i].key == k;
      assert names[i] in names;
      var m :| m in ms && m.key == k;
    }
  }

  lemma IncreasingKeysAreUnique(ms: seq<Member>)
    requires Increasing(KeySeq(ms))
    ensures UniqueKeys(ms)
  {
    hide TextBelow;
    var keys := KeySeq(ms);
    forall i, j | 0 <= i < j < |ms|
      ensures ms[i].key != ms[j].key
    {
      assert TextBelow(keys[i], keys[j]);
      TextOrdered(keys[i], keys[j], keys[i]);
    }
  }

  /** The stable form has the same content, and nothing in it is left to drop. */
  lemma {:induction false} StableKeepsContent(v: Json)
    requires WellFormed(v) && Stable(v).Some?
    ensures WellFormed(Stable(v).value) && !Stable(v).value.Undefined?
    ensures Content(Stable(v).value) == Content(v)
    decreases v
  {
    match v {
      case Array(items) =>
        forall i | 0 <= i < |items|
          ensures WellFormed(Stable(items[i]).value) && Content(Stable(items[i]).value) == Content(items[i])
        {
          StableKeepsContent(items[i]);
        }
      case Object(members) =>
        var ms := StableObject(v);
        StableMembersKeepContent(v, ms);
      case _ =>
    }
  }

  lemma {:induction false} StableMembersKeepContent(v: Json, ms: seq<Member>)
    requires v.Object? && WellFormed(v) && UniqueKeys(ms)
    requires forall k :: k in Keys(ms) <==> k in Keys(v.members) && Counts(v, k)
    requires forall i | 0 <= i < |ms| ::
      ms[i].key in Keys(v.members) && Stable(MemberAt(v, ms[i].key)) == Some(ms[i].value)
    ensures WellFormed(Object(ms)) && Content(Object(ms)) == Content(v)
    decreases v, 0
  {
    hide Stable, Counts;
    var s := Object(ms);
    forall i | 0 <= i < |ms|
      ensures WellFormed(ms[i].value) && !ms[i].value.Undefined?
      ensures Content(ms[i].value) == Content(MemberAt(v, ms[i].key))
    {
      StableKeepsContent(MemberAt(v, ms[i].key));
    }
    forall k | k in Keys(ms)
      ensures Counts(s, k) && Content(MemberAt(s, k)) == Content(MemberAt(v, k))
    {
      CountsAlso(v, s, k);
    }
    assert Content(s).fields == Content(v).fields;
  }

  lemma CountsAlso(v: Json, s: Json, k: string)
    requires v.Object? && s.Object? && k in Keys(v.members) && k in Keys(s.members) && Counts(v, k)
    requires forall i | 0 <= i < |s.members| :: !s.members[i].value.Undefined?
    ensures Counts(s, k)
  {
  }

  /** Values of one content have one stable form. */
  lemma {:induction false} SameContentSameStable(v: Json, w: Json)
    requires WellFormed(v) && WellFormed(w) && Stable(v).Some? && Stable(w).Some?
    requires Content(v) == Content(w)
    ensures Stable(v) == Stable(w)
    decreases v
  {
    match v {
      case Array(items) =>
        assert w.Array? && |Content(v).trees| == |items| && |Content(w).trees| == |w.items|;
        forall i | 0 <= i < |items|
          ensures Stable(items[i]) == Stable(w.items[i])
        {
          assert Content(v).trees[i] == Content(items[i]) && Content(w).trees[i] == Content(w.items[i]);
          SameContentSameStable(items[i], w.items[i]);
        }
        assert Stable(v).value.items == Stable(w).value.items;
      case Object(members) =>
        assert w.Object?;
        var ms := StableObject(v);
        var ns := StableObject(w);
        SameRecordsSameStable(v, w, ms, ns);
      case _ =>
    }
  }

  lemma {:induction false} SameRecordsSameStable(v: Json, w: Json, ms: seq<Member>, ns: seq<Member>)
    requires v.Object? && w.Object? && WellFormed(v) && WellFormed(w) && Content(v) == Content(w)
    requires Increasing(KeySeq(ms)) && Increasing(KeySeq(ns))
    requires forall k :: k in Keys(ms) <==> k in Keys(v.members) && Counts(v, k)
    requires forall k :: k in Keys(ns) <==> k in Keys(w.members) && Counts(w, k)
    requires forall i | 0 <= i < |ms| ::
      ms[i].key in Keys(v.members) && Stable(MemberAt(v, ms[i].key)) == Some(ms[i].value)
    requires forall i | 0 <= i < |ns| ::
      ns[i].key in Keys(w.members) && Stable(MemberAt(w, ns[i].key)) == Some(ns[i].value)
    ensures ms == ns
    decreases v, 0
  {
    hide Stable, Counts, TextBelow;
    assert Content(v).fields.Keys == Keys(ms) && Content(w).fields.Keys == Keys(ns);
    KeySeqElements(ms);
    KeySeqElements(ns);
    IncreasingIsUnique(KeySeq(ms), KeySeq(ns));
    forall i | 0 <= i < |ms|
      ensures ms[i] == ns[i]
    {
      var k := ms[i].key;
      assert KeySeq(ms)[i] == k && KeySeq(ns)[i] == ns[i].key;
      assert k in Keys(ms);
      assert Content(v).fields[k] == Content(MemberAt(v, k)) && Content(w).fields[k] == Content(MemberAt(w, k));
      SameContentSameStable(MemberAt(v, k), MemberAt(w, k));
    }
  }

  lemma KeySeqElements(ms: seq<Member>)
    ensures forall k :: k in KeySeq(ms) <==> k in Keys(ms)
  {
    forall k | k in Keys(ms)
      ensures k in KeySeq(ms)
    {
      var i :| 0 <= i < |ms| && ms[i].key == k;
      assert KeySeq(ms)[i] == k;
    }
  }

  /** Undefined stands only where it means that a property is absent. */
  predicate Serializable(v: Json) {
    match v
    case Undefined => false
    case Array(items) => forall i | 0 <= i < |items| :: Serializable(items[i])
    case Object(members) =>
      forall i | 0 <= i < |members| :: members[i].value.Undefined? || Serializable(members[i].value)
    case _ => true
  }

  /** The stable form exists for what can be written as JSON, and for nothing else. */
  lemma {:induction false} StableExists(v: Json)
    requires WellFormed(v)
    ensures Stable(v).Some? <==> Serializable(v)
    decreases v
  {
    match v {
      case Array(items) =>
        forall i | 0 <= i < |items|
          ensures Stable(items[i]).Some? <==> Serializable(items[i])
        {
          StableExists(items[i]);
        }
      case Object(members) =>
        StableMembersExist(v, Sort(KeySeq(members)));
        SerializableMembers(v);
      case _ =>
    }
  }

  lemma SerializableMembers(v: Json)
    requires v.Object? && WellFormed(v)
    ensures Serializable(v) <==>
      forall k <- Sort(KeySeq(v.members)) :: MemberAt(v, k).Undefined? || Serializable(MemberAt(v, k))
  {
    hide Sort;
    var keys, members := Sort(KeySeq(v.members)), v.members;
    KeySeqElements(members);
    forall i | 0 <= i < |members|
      ensures members[i].key in keys && MemberAt(v, members[i].key) == members[i].value
    {
      IndexOfMember(members, i);
      assert members[i].key in Keys(members);
    }
  }

  lemma {:induction false} StableMembersExist(v: Json, keys: seq<string>)
    requires v.Object? && WellFormed(v) && forall k <- keys :: k in Keys(v.members)
    ensures StableMembers(v, keys).Some? <==> forall k <- keys :: MemberAt(v, k).Undefined? || Serializable(MemberAt(v, k))
    decreases v, 0, |keys|
  {
    hide Stable, Serializable;
    if keys != [] {
      var n := |keys| - 1;
      assert keys == keys[..n] + [keys[n]];
      StableMembersExist(v, keys[..n]);
      StableExists(MemberAt(v, keys[n]));
    }
  }

  /** Two values have the same stable form exactly when they have the same content. */
  lemma StableExactly(v: Json, w: Json)
    requires WellFormed(v) && WellFormed(w) && Serializable(v) && Serializable(w)
    ensures Stable(v) == Stable(w) <==> Content(v) == Content(w)
  {
    hide Stable, Content;
    StableExists(v);
    StableExists(w);
    StableKeepsContent(v);
    StableKeepsContent(w);
    if Content(v) == Content(w) {
      SameContentSameStable(v, w);
    }
  }

  /** The stable form of a stable form is itself. */
  lemma StableIsIdempotent(v: Json)
    requires WellFormed(v) && Serializable(v)
    ensures Stable(v).Some? && Stable(Stable(v).value) == Stable(v)
  {
    hide Content;
    StableExists(v);
    StableKeepsContent(v);
    var s := Stable(v).value;
    StableIsSerializable(v);
    StableExists(s);
    SameContentSameStable(s, v);
  }

  lemma {:induction false} StableIsSerializable(v: Json)
    requires WellFormed(v) && Stable(v).Some?
    ensures Serializable(Stable(v).value) && WithoutProto(Stable(v).value)
    decreases v
  {
    match v {
      case Array(items) =>
        forall i | 0 <= i < |items|
          ensures Serializable(Stable(items[i]).value) && WithoutProto(Stable(items[i]).value)
        {
          StableIsSerializable(items[i]);
        }
      case Object(members) =>
        hide Stable;
        var ms := StableObject(v);
        forall i | 0 <= i < |ms|
          ensures Serializable(ms[i].value) && WithoutProto(ms[i].value) && ms[i].key != PROTO
        {
          assert ms[i].key in Keys(ms);
          StableIsSerializable(MemberAt(v, ms[i].key));
        }
      case _ =>
    }
  }

  /** No object of the value has an own prototype member, unless it is undefined. */
  predicate WithoutProto(v: Json) {
    match v
    case Array(items) => forall i | 0 <= i < |items| :: WithoutProto(items[i])
    case Object(members) =>
      forall i | 0 <= i < |members| :: members[i].value.Undefined? || (members[i].key != PROTO && WithoutProto(members[i].value))
    case _ => true
  }

  /** The content leaves out just those members. */
  lemma {:induction false} ContentIsNormal(v: Json)
    requires WellFormed(v)
    ensures Content(v) == Normal(v) <==> WithoutProto(v)
    decreases v
  {
    match v {
      case Array(items) =>
        forall i | 0 <= i < |items|
          ensures Content(items[i]) == Normal(items[i]) <==> WithoutProto(items[i])
          ensures Content(v).trees[i] == Content(items[i]) && Normal(v).trees[i] == Normal(items[i])
        {
          ContentIsNormal(items[i]);
        }
      case Object(members) =>
        forall i | 0 <= i < |members|
          ensures Content(members[i].value) == Normal(members[i].value) <==> WithoutProto(members[i].value)
        {
          ContentIsNormal(members[i].value);
        }
        ContentOfRecord(v);
      case _ =>
    }
  }

  /** The fields of a record's content and tree come from its members. */
  ghost predicate FromMembers(members: seq<Member>, content: map<string, Tree>, normal: map<string, Tree>) {
    && content.Keys <= normal.Keys
    && (forall k <- normal :: exists i | 0 <= i < |members| :: members[i].key == k && !members[i].value.Undefined?)
    && forall i | 0 <= i < |members| && !members[i].value.Undefined? ::
         var k := members[i].key;
         && k in normal && normal[k] == Normal(members[i].value)
         && (k in content <==> k != PROTO) && (k in content ==> content[k] == Content(members[i].value))
  }

  lemma RecordFields(v: Json)
    requires v.Object? && WellFormed(v)
    ensures Content(v).Record? && Normal(v).Record?
    ensures FromMembers(v.members, Content(v).fields, Normal(v).fields)
  {
    var c, n := Content(v).fields, Normal(v).fields;
    forall i | 0 <= i < |v.members| && !v.members[i].value.Undefined?
      ensures var k := v.members[i].key;
        && k in n && n[k] == Normal(v.members[i].value)
        && (k in c <==> k != PROTO) && (k in c ==> c[k] == Content(v.members[i].value))
    {
      IndexOfMember(v.members, i);
      assert v.members[i].key in Keys(v.members);
    }
    forall k | k in n
      ensures exists i | 0 <= i < |v.members| :: v.members[i].key == k && !v.members[i].value.Undefined?
    {
      assert v.members[IndexOf(v.members, k)].key == k;
    }
  }

  lemma FieldsAgree(members: seq<Member>, c: map<string, Tree>, n: map<string, Tree>)
    requires FromMembers(members, c, n)
    requires forall i | 0 <= i < |members| && !members[i].value.Undefined? ::
      members[i].key != PROTO && Content(members[i].value) == Normal(members[i].value)
    ensures c == n
  {
    hide Content, Normal;
    forall k | k in n
      ensures k in c && c[k] == n[k]
    {
      var i :| 0 <= i < |members| && members[i].key == k && !members[i].value.Undefined?;
    }
  }

  lemma FieldsDiffer(members: seq<Member>, c: map<string, Tree>, n: map<string, Tree>, i: nat)
    requires FromMembers(members, c, n) && i < |members| && !members[i].value.Undefined?
    requires members[i].key == PROTO || Content(members[i].value) != Normal(members[i].value)
    ensures c != n
  {
    hide Content, Normal;
    assert members[i].key in n;
  }

  lemma ContentOfRecord(v: Json)
    requires v.Object? && WellFormed(v)
    requires forall i | 0 <= i < |v.members| ::
      Content(v.members[i].value) == Normal(v.members[i].value) <==> WithoutProto(v.members[i].value)
    ensures Content(v) == Normal(v) <==> WithoutProto(v)
  {
    hide FromMembers, Content, Normal;
    RecordFields(v);
    if WithoutProto(v) {
      FieldsAgree(v.members, Content(v).fields, Normal(v).fields);
    } else {
      var i :| 0 <= i < |v.members| && !v.members[i].value.Undefined?
               && (v.members[i].key == PROTO || !WithoutProto(v.members[i].value));
      FieldsDiffer(v.members, Content(v).fields, Normal(v).fields, i);
    }
  }

  /** Without such members the stable form identifies exactly the values of one tree; with one it also identifies others. */
  lemma StableIsEqualityExactly(v: Json)
    requires WellFormed(v) && Serializable(v)
    ensures (forall w | WellFormed(w) && Serializable(w) && WithoutProto(w) :: Stable(v) == Stable(w) <==> Normal(v) == Normal(w))
      <==> WithoutProto(v)
  {
    hide Stable, Content, Normal, WithoutProto, Serializable;
    ContentIsNormal(v);
    if WithoutProto(v) {
      forall w | WellFormed(w) && Serializable(w) && WithoutProto(w)
        ensures Stable(v) == Stable(w) <==> Normal(v) == Normal(w)
      {
        StableExactly(v, w);
        ContentIsNormal(w);
      }
    } else {
      StableIsIdempotent(v);
      StableKeepsContent(v);
      StableIsSerializable(v);
      ContentIsNormal(Stable(v).value);
    }
  }
}
