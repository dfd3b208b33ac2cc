/**
 * The schema validator. A schema is what remains once every keyword is known to
 * have a value of its type: a boolean, or the assertions an object makes.
 */
module JsonSchema {
  import opened Wrappers
  import opened JsonValues
  import opened FloatingPoint

  datatype TypeName = ObjectType | ArrayType | StringType | NumberType | IntegerType | BooleanType | NullType

  /** An exclusive bound is its own number, or a flag on the inclusive one. */
  datatype Exclusive = Flag(on: bool) | Bound(bound: real)

  datatype Property = Property(name: string, schema: Schema)

  datatype Schema =
    | Always(accepts: bool)
    | Assertions(
        types: Option<seq<TypeName>>,
        nullable: bool,
        constant: Option<Json>,
        options: Option<seq<Json>>,
        minLength: Option<nat>, maxLength: Option<nat>,
        minimum: Option<real>, maximum: Option<real>,
        exclusiveMinimum: Option<Exclusive>, exclusiveMaximum: Option<Exclusive>,
        multipleOf: Option<real>,
        minItems: Option<nat>, maxItems: Option<nat>, uniqueItems: bool, items: Option<Schema>,
        minProperties: Option<nat>, maxProperties: Option<nat>,
        properties: seq<Property>, required: seq<string>, additional: Option<Schema>,
        defaultValue: Option<Json>, examples: seq<Json>, annotations: seq<Member>)

  const MAX_DEPTH := 16
  const MAX_NODES := 10_000
  const MAX_MEMBERS := 1_024
  const MAX_UNIQUE_ITEMS := 1_000

  type Equality = (Json, Json) -> bool

  // ----- What a schema means

  predicate HasType(value: Json, t: TypeName) {
    match t
    case ObjectType => value.Object?
    case ArrayType => value.Array?
    case StringType => value.String?
    case NumberType => value.Number?
    case IntegerType => value.Number? && value.value.Floor as real == value.value
    case BooleanType => value.Bool?
    case NullType => value.Null?
  }

  predicate Between(n: nat, low: Option<nat>, high: Option<nat>) {
    (low.Some? ==> low.value <= n) && (high.Some? ==> n <= high.value)
  }

  function Distance(x: real, k: int): real {
    if x < k as real then k as real - x else x - k as real
  }

  const TOLERANCE := 0.0000000001

  ghost predicate NearWhole(quotient: real) {
    exists k: int :: Distance(quotient, k) <= TOLERANCE
  }

  predicate AboveMinimum(x: real, minimum: Option<real>, exclusive: Option<Exclusive>) {
    && (minimum.Some? ==> if exclusive == Some(Flag(true)) then x > minimum.value else x >= minimum.value)
    && (exclusive.Some? && exclusive.value.Bound? ==> x > exclusive.value.bound)
  }

  predicate BelowMaximum(x: real, maximum: Option<real>, exclusive: Option<Exclusive>) {
    && (maximum.Some? ==> if exclusive == Some(Flag(true)) then x < maximum.value else x <= maximum.value)
    && (exclusive.Some? && exclusive.value.Bound? ==> x < exclusive.value.bound)
  }

  predicate TypeAllowed(types: seq<TypeName>, nullable: bool, value: Json) {
    (exists t <- types :: HasType(value, t)) || (nullable && value.Null?)
  }

  predicate Distinct(same: Equality, items: seq<Json>) {
    forall i, j | 0 <= i < |items| && 0 <= j < |items| && i != j :: !same(items[i], items[j])
  }

  predicate PositiveStep(schema: Schema) {
    schema.Assertions? && schema.multipleOf.Some? ==> schema.multipleOf.value > 0.0
  }

  /** The assertions that do not look inside the value. */
  ghost predicate Local(same: Equality, schema: Schema, value: Json)
    requires schema.Assertions? && PositiveStep(schema)
  {
    && (schema.types.Some? ==> TypeAllowed(schema.types.value, schema.nullable, value))
    && (schema.constant.Some? ==> same(value, schema.constant.value))
    && (schema.options.Some? ==> exists option <- schema.options.value :: same(value, option))
    && match value
       case String(s) => Between(|s|, schema.minLength, schema.maxLength)
       case Number(x, _) =>
         && AboveMinimum(x, schema.minimum, schema.exclusiveMinimum)
         && BelowMaximum(x, schema.maximum, schema.exclusiveMaximum)
         && (schema.multipleOf.Some? ==> NearWhole(x / schema.multipleOf.value))
       case Array(items) =>
         Between(|items|, schema.minItems, schema.maxItems) && (schema.uniqueItems ==> Distinct(same, items))
       case Object(members) =>
         && Between(|members|, schema.minProperties, schema.maxProperties)
         && forall key <- schema.required :: key in Keys(members)
       case _ => true
  }

  /** The schema of a property, if there is one with that name. */
  function PropertySchema(properties: seq<Property>, name: string): (r: Option<Schema>)
    ensures r.Some? ==> Property(name, r.value) in properties
  {
    if properties == [] then None
    else if properties[0].name == name then Some(properties[0].schema)
    else PropertySchema(properties[1..], name)
  }

  /** Steps of multiples are positive throughout. */
  ghost predicate Sensible(schema: Schema) {
    && PositiveStep(schema)
    && (schema.Assertions? ==>
          && (schema.items.Some? ==> Sensible(schema.items.value))
          && (schema.additional.Some? ==> Sensible(schema.additional.value))
          && forall i | 0 <= i < |schema.properties| :: Sensible(schema.properties[i].schema))
  }

  /** What a member must satisfy; nothing if it is an unnamed one and those are welcome. */
  function MemberSchema(schema: Schema, key: string): (r: Option<Schema>)
    requires schema.Assertions?
    ensures Sensible(schema) && r.Some? ==> Sensible(r.value)
  {
    var named := PropertySchema(schema.properties, key);
    if named.Some? then named
    else if schema.additional == Some(Always(true)) then None else schema.additional
  }

  predicate AcceptsNull(schema: Schema, value: Json) {
    schema.Assertions? && schema.types.None? && schema.nullable && value.Null?
  }

  /** Whether a value meets a schema, for a given notion of equality. */
  ghost predicate Accepts(same: Equality, schema: Schema, value: Json)
    requires Sensible(schema)
    decreases value
  {
    match schema
    case Always(accepts) => accepts
    case Assertions(_, _, _, _, _, _, _, _, _, _, _, _, _, _, items, _, _, _, _, _, _, _, _) =>
      AcceptsNull(schema, value)
      || (
        && Local(same, schema, value)
        && (value.Array? && items.Some? ==>
              forall i | 0 <= i < |value.items| :: Accepts(same, items.value, value.items[i]))
        && (value.Object? ==>
              forall i | 0 <= i < |value.members| ::
                var s := MemberSchema(schema, value.members[i].key);
                s.Some? ==> Accepts(same, s.value, value.members[i].value)))
  }

  // ----- What validating costs

  /** How often the validator is entered for a value that is accepted. */
  function Visits(schema: Schema, value: Json): nat
    decreases value, 1
  {
    if schema.Always? || AcceptsNull(schema, value) then 1
    else if value.Array? && schema.items.Some? then 1 + ItemVisits(schema.items.value, value, |value.items|)
    else if value.Object? then 1 + MemberVisits(schema, value, |value.members|)
    else 1
  }

  function ItemVisits(schema: Schema, value: Json, n: nat): nat
    requires value.Array? && n <= |value.items|
    decreases value, 0, n
  {
    if n == 0 then 0 else ItemVisits(schema, value, n - 1) + Visits(schema, value.items[n - 1])
  }

  function MemberVisits(schema: Schema, value: Json, n: nat): nat
    requires schema.Assertions? && value.Object? && n <= |value.members|
    decreases value, 0, n
  {
    if n == 0 then 0
    else
      var m := value.members[n - 1];
      var s := MemberSchema(schema, m.key);
      MemberVisits(schema, value, n - 1) + (if s.Some? then Visits(s.value, m.value) else 0)
  }

  predicate UniqueLimit(schema: Schema, value: Json)
    requires schema.Assertions?
  {
    value.Array? && schema.uniqueItems ==> |value.items| <= MAX_UNIQUE_ITEMS
  }

  /** No visit is too deep, and no array that must not repeat itself is too long. */
  predicate Within(schema: Schema, value: Json, depth: nat)
    decreases value
  {
    && depth <= MAX_DEPTH
    && (schema.Always? || AcceptsNull(schema, value) || (
          && UniqueLimit(schema, value)
          && (value.Array? && schema.items.Some? ==>
                forall i | 0 <= i < |value.items| :: Within(schema.items.value, value.items[i], depth + 1))
          && (value.Object? ==>
                forall i | 0 <= i < |value.members| ::
                  var s := MemberSchema(schema, value.members[i].key);
                  s.Some? ==> Within(s.value, value.members[i].value, depth + 1))))
  }

  // ----- The validator

  class Budget {
    var remaining: int

    constructor (remaining: int)
      ensures this.remaining == remaining
    {
      this.remaining := remaining;
    }
  }

  /** Validation fails early, and for an accepted value it takes one unit of the budget for each visit. */
  method ValidateSchema(schema: Schema, value: Json, depth: nat, budget: Budget) returns (ok: bool)
    requires Sensible(schema)
    modifies budget
    ensures ok <==>
      Accepts(SameJson, schema, value) && Within(schema, value, depth) && Visits(schema, value) <= old(budget.remaining)
    ensures ok ==> budget.remaining == old(budget.remaining) - Visits(schema, value)
    decreases value, 2
  {
    budget.remaining := budget.remaining - 1;
    if depth > MAX_DEPTH || budget.remaining < 0 {
      return false;
    }
    if schema.Always? {
      return schema.accepts;
    }
    if schema.types.Some? {
      if !TypeAllowed(schema.types.value, schema.nullable, value) {
        return false;
      }
    } else if schema.nullable && value.Null? {
      return true;
    }
    var local := ValidateLocal(schema, value);
    if !local {
      return false;
    }
    if value.Array? {
      if schema.items.Some? {
        ok := ValidateItems(schema.items.value, value, depth, budget);
        return;
      }
    }
    if value.Object? {
      ok := ValidateMembers(schema, value, depth, budget);
      return;
    }
    return true;
  }

  method ValidateItems(schema: Schema, value: Json, depth: nat, budget: Budget) returns (ok: bool)
    requires Sensible(schema) && value.Array?
    requires budget.remaining >= 0
    modifies budget
    ensures ok <==>
      && (forall i | 0 <= i < |value.items| :: Accepts(SameJson, schema, value.items[i]))
      && (forall i | 0 <= i < |value.items| :: Within(schema, value.items[i], depth + 1))
      && ItemVisits(schema, value, |value.items|) <= old(budget.remaining)
    ensures ok ==> budget.remaining == old(budget.remaining) - ItemVisits(schema, value, |value.items|)
    decreases value, 1
  {
    hide Accepts, Within;
    for index := 0 to |value.items|
      invariant forall i | 0 <= i < index :: Accepts(SameJson, schema, value.items[i])
      invariant forall i | 0 <= i < index :: Within(schema, value.items[i], depth + 1)
      invariant budget.remaining == old(budget.remaining) - ItemVisits(schema, value, index) >= 0
    {
      ItemVisitsGrow(schema, value, index + 1, |value.items|);
      var valid := ValidateSchema(schema, value.items[index], depth + 1, budget);
      if !valid {
        return false;
      }
    }
    return true;
  }

  lemma {:induction false} ItemVisitsGrow(schema: Schema, value: Json, m: nat, n: nat)
    requires value.Array? && m <= n <= |value.items|
    ensures ItemVisits(schema, value, m) <= ItemVisits(schema, value, n)
    decreases n
  {
    if m < n {
      ItemVisitsGrow(schema, value, m, n - 1);
    }
  }

  lemma {:induction false} MemberVisitsGrow(schema: Schema, value: Json, m: nat, n: nat)
    requires schema.Assertions? && value.Object? && m <= n <= |value.members|
    ensures MemberVisits(schema, value, m) <= MemberVisits(schema, value, n)
    decreases n
  {
    if m < n {
      MemberVisitsGrow(schema, value, m, n - 1);
    }
  }

  predicate MemberWithin(schema: Schema, m: Member, depth: nat)
    requires schema.Assertions?
  {
    var s := MemberSchema(schema, m.key);
    s.Some? ==> Within(s.value, m.value, depth + 1)
  }

  ghost predicate MemberAccepted(schema: Schema, m: Member)
    requires schema.Assertions? && Sensible(schema)
  {
    var s := MemberSchema(schema, m.key);
    s.Some? ==> Accepts(SameJson, s.value, m.value)
  }

  method ValidateMembers(schema: Schema, value: Json, depth: nat, budget: Budget) returns (ok: bool)
    requires Sensible(schema) && schema.Assertions? && value.Object?
    requires budget.remaining >= 0
    modifies budget
    ensures ok <==>
      && (forall i | 0 <= i < |value.members| :: MemberAccepted(schema, value.members[i]))
      && (forall i | 0 <= i < |value.members| :: MemberWithin(schema, value.members[i], depth))
      && MemberVisits(schema, value, |value.members|) <= old(budget.remaining)
    ensures ok ==> budget.remaining == old(budget.remaining) - MemberVisits(schema, value, |value.members|)
    decreases value, 1
  {
    hide MemberAccepted, MemberWithin;
    for index := 0 to |value.members|
      invariant forall i | 0 <= i < index :: MemberAccepted(schema, value.members[i])
      invariant forall i | 0 <= i < index :: MemberWithin(schema, value.members[i], depth)
      invariant budget.remaining == old(budget.remaining) - MemberVisits(schema, value, index) >= 0
    {
      MemberVisitsGrow(schema, value, index + 1, |value.members|);
      var valid := ValidateMember(schema, value, index, depth, budget);
      if !valid {
        return false;
      }
    }
    return true;
  }

  method ValidateMember(schema: Schema, value: Json, index: nat, depth: nat, budget: Budget) returns (ok: bool)
    requires Sensible(schema) && schema.Assertions? && value.Object? && index < |value.members|
    requires budget.remaining >= 0
    modifies budget
    ensures var cost := MemberVisits(schema, value, index + 1) - MemberVisits(schema, value, index);
      && (ok <==> MemberAccepted(schema, value.members[index]) && MemberWithin(schema, value.members[index], depth)
                  && cost <= old(budget.remaining))
      && (ok ==> budget.remaining == old(budget.remaining) - cost)
    decreases value, 0
  {
    var m := value.members[index];
    var named := PropertySchema(schema.properties, m.key);
    if named.Some? {
      assert MemberSchema(schema, m.key) == named;
      ok := ValidateSchema(named.value, m.value, depth + 1, budget);
      return;
    }
    if schema.additional == Some(Always(false)) {
      return false;
    }
    if schema.additional.Some? && schema.additional != Some(Always(true)) {
      ok := ValidateSchema(schema.additional.value, m.value, depth + 1, budget);
      return;
    }
    return true;
  }

  function Nearest(quotient: real): int {
    (quotient + 0.5).Floor
  }

  lemma NearestOf(quotient: real, k: int)
    requires Distance(quotient, k) <= TOLERANCE
    ensures Nearest(quotient) == k
  {
    var n := Nearest(quotient);
    assert n as real <= quotient + 0.5 < n as real + 1.0;
    assert k as real <= quotient + 0.5 < k as real + 1.0;
    assert -1.0 < (n - k) as real < 1.0;
  }

  /** If a whole number is close, it is the nearest one. */
  lemma NearestIsNear(quotient: real)
    ensures NearWhole(quotient) <==> Distance(quotient, Nearest(quotient)) <= TOLERANCE
  {
    hide Nearest;
    if NearWhole(quotient) {
      var k :| Distance(quotient, k) <= TOLERANCE;
      NearestOf(quotient, k);
    }
  }

  method ValidateNumber(schema: Schema, x: real) returns (ok: bool)
    requires schema.Assertions? && PositiveStep(schema)
    ensures ok <==>
      && AboveMinimum(x, schema.minimum, schema.exclusiveMinimum)
      && BelowMaximum(x, schema.maximum, schema.exclusiveMaximum)
      && (schema.multipleOf.Some? ==> NearWhole(x / schema.multipleOf.value))
  {
    if schema.minimum.Some? {
      if (if schema.exclusiveMinimum == Some(Flag(true)) then x <= schema.minimum.value else x < schema.minimum.value) {
        return false;
      }
    }
    if schema.exclusiveMinimum.Some? && schema.exclusiveMinimum.value.Bound?
      && x <= schema.exclusiveMinimum.value.bound {
      return false;
    }
    if schema.maximum.Some? {
      if (if schema.exclusiveMaximum == Some(Flag(true)) then x >= schema.maximum.value else x > schema.maximum.value) {
        return false;
      }
    }
    if schema.exclusiveMaximum.Some? && schema.exclusiveMaximum.value.Bound?
      && x >= schema.exclusiveMaximum.value.bound {
      return false;
    }
    if schema.multipleOf.Some? {
      var quotient := x / schema.multipleOf.value;
      NearestIsNear(quotient);
      if Distance(quotient, Nearest(quotient)) > TOLERANCE {
        return false;
      }
    }
    return true;
  }

  method ValidateUnique(items: seq<Json>) returns (ok: bool)
    ensures ok <==> Distinct(SameJson, items)
  {
    for index := 0 to |items|
      invariant forall i, j | 0 <= i < |items| && 0 <= j < index && i != j :: !SameJson(items[i], items[j])
    {
      if exists other | 0 <= other < |items| :: other != index && SameJson(items[other], items[index]) {
        return false;
      }
    }
    return true;
  }

  method ValidateRequired(required: seq<string>, members: seq<Member>) returns (ok: bool)
    ensures ok <==> forall key <- required :: key in Keys(members)
  {
    for index := 0 to |required|
      invariant forall i | 0 <= i < index :: required[i] in Keys(members)
    {
      if IndexOf(members, required[index]) == |members| {
        return false;
      }
    }
    return true;
  }

  /** The comparisons of the validator that do not look inside the value. */
  method ValidateLocal(schema: Schema, value: Json) returns (ok: bool)
    requires schema.Assertions? && PositiveStep(schema)
    requires schema.types.Some? ==> TypeAllowed(schema.types.value, schema.nullable, value)
    ensures ok <==> Local(SameJson, schema, value) && UniqueLimit(schema, value)
  {
    hide TypeAllowed, NearWhole, AboveMinimum, BelowMaximum, Distinct;
    if schema.constant.Some? && !SameJson(value, schema.constant.value) {
      return false;
    }
    if schema.options.Some? && !(exists option <- schema.options.value :: SameJson(value, option)) {
      return false;
    }
    match value {
      case String(s) =>
        if schema.minLength.Some? && |s| < schema.minLength.value {
          return false;
        }
        return !(schema.maxLength.Some? && |s| > schema.maxLength.value);
      case Number(x, _) =>
        ok := ValidateNumber(schema, x);
      case Array(items) =>
        if schema.minItems.Some? && |items| < schema.minItems.value {
          return false;
        }
        if schema.maxItems.Some? && |items| > schema.maxItems.value {
          return false;
        }
        if schema.uniqueItems {
          if |items| > MAX_UNIQUE_ITEMS {
            return false;
          }
          ok := ValidateUnique(items);
        } else {
          ok := true;
        }
      case Object(members) =>
        if schema.minProperties.Some? && |members| < schema.minProperties.value {
          return false;
        }
        if schema.maxProperties.Some? && |members| > schema.maxProperties.value {
          return false;
        }
        ok := ValidateRequired(schema.required, members);
      case _ =>
        return true;
    }
  }

  // ----- Soundness and completeness

  predicate GoodLiteral(v: Json) {
    WellFormed(v) && Plain(v)
  }

  /** The literals of a schema are JSON. */
  predicate GoodLiterals(schema: Schema) {
    schema.Assertions? ==>
      && (schema.constant.Some? ==> GoodLiteral(schema.constant.value))
      && (schema.options.Some? ==> forall i | 0 <= i < |schema.options.value| :: GoodLiteral(schema.options.value[i]))
      && (schema.items.Some? ==> GoodLiterals(schema.items.value))
      && (schema.additional.Some? ==> GoodLiterals(schema.additional.value))
      && forall i | 0 <= i < |schema.properties| :: GoodLiterals(schema.properties[i].schema)
  }

  lemma MemberLiterals(schema: Schema, key: string)
    requires schema.Assertions? && GoodLiterals(schema)
    ensures MemberSchema(schema, key).Some? ==> GoodLiterals(MemberSchema(schema, key).value)
  {
  }

  predicate UnsignedLiteral(v: Json) {
    GoodLiteral(v) && NoNegativeZero(v)
  }

  /** No literal of the schema holds a negative zero. */
  predicate UnsignedLiterals(schema: Schema) {
    schema.Assertions? ==>
      && (schema.constant.Some? ==> UnsignedLiteral(schema.constant.value))
      && (schema.options.Some? ==> forall i | 0 <= i < |schema.options.value| :: UnsignedLiteral(schema.options.value[i]))
      && (schema.items.Some? ==> UnsignedLiterals(schema.items.value))
      && (schema.additional.Some? ==> UnsignedLiterals(schema.additional.value))
      && forall i | 0 <= i < |schema.properties| :: UnsignedLiterals(schema.properties[i].schema)
  }

  lemma MemberUnsigned(schema: Schema, key: string)
    requires schema.Assertions? && UnsignedLiterals(schema)
    ensures MemberSchema(schema, key).Some? ==> UnsignedLiterals(MemberSchema(schema, key).value)
  {
  }

  /** No sign of a zero can get in the way of comparing the value with a literal of the schema, or parts of it with each other. */
  predicate SignsAgree(schema: Schema, value: Json) {
    NoZero(value) || (NoNegativeZero(value) && UnsignedLiterals(schema))
  }

  lemma LocalIsMeaning(schema: Schema, value: Json)
    requires schema.Assertions? && PositiveStep(schema) && GoodLiterals(schema)
    requires GoodLiteral(value) && Unmistakable(value) && SignsAgree(schema, value)
    ensures Local(SameJson, schema, value) == Local(EqualJson, schema, value)
  {
    hide SameJson, EqualJson;
    if schema.constant.Some? {
      SameIsEqual(value, schema.constant.value);
    }
    if schema.options.Some? {
      forall option | option in schema.options.value
        ensures SameJson(value, option) == EqualJson(value, option)
      {
        SameIsEqual(value, option);
      }
    }
    if value.Array? {
      forall i, j | 0 <= i < |value.items| && 0 <= j < |value.items|
        ensures SameJson(value.items[i], value.items[j]) == EqualJson(value.items[i], value.items[j])
      {
        SameIsEqual(value.items[i], value.items[j]);
      }
    }
  }

  /** What the validator checks is what the schema means, with JSON equality. */
  lemma {:induction false} AcceptsIsMeaning(schema: Schema, value: Json)
    requires Sensible(schema) && GoodLiterals(schema) && GoodLiteral(value)
    requires Unmistakable(value) && SignsAgree(schema, value)
    ensures Accepts(SameJson, schema, value) == Accepts(EqualJson, schema, value)
    decreases value
  {
    hide Local, SameJson, EqualJson;
    if schema.Assertions? {
      LocalIsMeaning(schema, value);
      if value.Array? && schema.items.Some? {
        forall i | 0 <= i < |value.items|
          ensures Accepts(SameJson, schema.items.value, value.items[i])
            == Accepts(EqualJson, schema.items.value, value.items[i])
        {
          AcceptsIsMeaning(schema.items.value, value.items[i]);
        }
      }
      if value.Object? {
        forall i | 0 <= i < |value.members|
          ensures var s := MemberSchema(schema, value.members[i].key);
            s.Some? ==> Accepts(SameJson, s.value, value.members[i].value) == Accepts(EqualJson, s.value, value.members[i].value)
        {
          MemberIsMeaning(schema, value, i);
        }
      }
    }
  }

  lemma {:induction false} MemberIsMeaning(schema: Schema, value: Json, i: nat)
    requires schema.Assertions? && value.Object? && i < |value.members|
    requires Sensible(schema) && GoodLiterals(schema) && GoodLiteral(value)
    requires Unmistakable(value) && SignsAgree(schema, value)
    ensures var s := MemberSchema(schema, value.members[i].key);
      s.Some? ==> Accepts(SameJson, s.value, value.members[i].value) == Accepts(EqualJson, s.value, value.members[i].value)
    decreases value, 0
  {
    hide SameJson, EqualJson, Accepts;
    MemberLiterals(schema, value.members[i].key);
    if !NoZero(value) {
      MemberUnsigned(schema, value.members[i].key);
    }
    var s := MemberSchema(schema, value.members[i].key);
    if s.Some? {
      AcceptsIsMeaning(s.value, value.members[i].value);
    }
  }

  function ConstantSchema(nullable: bool, constant: Json): Schema {
    Assertions(None, nullable, Some(constant), None, None, None, None, None, None, None, None,
               None, None, false, None, None, None, [], [], None, None, [], [])
  }

  /** A schema of one constant asks for that constant. */
  lemma ConstantAccepts(same: Equality, constant: Json, value: Json)
    ensures Sensible(ConstantSchema(false, constant)) && (GoodLiteral(constant) ==> GoodLiterals(ConstantSchema(false, constant)))
    ensures UnsignedLiteral(constant) ==> UnsignedLiterals(ConstantSchema(false, constant))
    ensures Accepts(same, ConstantSchema(false, constant), value) <==> same(value, constant)
  {
    var schema := ConstantSchema(false, constant);
    assert Local(same, schema, value) <==> same(value, constant);
  }

  /** For which values the validator and the meaning agree on every schema. */
  lemma MeaningExactly(value: Json)
    requires GoodLiteral(value)
    ensures (forall schema | Sensible(schema) && GoodLiterals(schema) ::
               Accepts(SameJson, schema, value) == Accepts(EqualJson, schema, value))
      <==> Unmistakable(value) && NoZero(value)
  {
    hide Accepts, GoodLiterals, SameJson, EqualJson, Sensible;
    if Unmistakable(value) && NoZero(value) {
      forall schema | Sensible(schema) && GoodLiterals(schema)
        ensures Accepts(SameJson, schema, value) == Accepts(EqualJson, schema, value)
      {
        AcceptsIsMeaning(schema, value);
      }
    } else {
      SameJsonExactly(value);
      var other :| GoodLiteral(other) && SameJson(value, other) != EqualJson(value, other);
      ConstantAccepts(SameJson, other, value);
      ConstantAccepts(EqualJson, other, value);
    }
  }

  /** For which values they agree on every schema whose literals hold no negative zero. */
  lemma UnsignedMeaningExactly(value: Json)
    requires GoodLiteral(value)
    ensures (forall schema | Sensible(schema) && GoodLiterals(schema) && UnsignedLiterals(schema) ::
               Accepts(SameJson, schema, value) == Accepts(EqualJson, schema, value))
      <==> Unmistakable(value) && NoNegativeZero(value)
  {
    hide Accepts, GoodLiterals, UnsignedLiterals, SameJson, EqualJson, Sensible;
    if Unmistakable(value) && NoNegativeZero(value) {
      forall schema | Sensible(schema) && GoodLiterals(schema) && UnsignedLiterals(schema)
        ensures Accepts(SameJson, schema, value) == Accepts(EqualJson, schema, value)
      {
        AcceptsIsMeaning(schema, value);
      }
    } else {
      SameUnsignedExactly(value);
      var other :| UnsignedLiteral(other) && SameJson(value, other) != EqualJson(value, other);
      ConstantAccepts(SameJson, other, value);
      ConstantAccepts(EqualJson, other, value);
    }
  }

  /** Two equal JSON numbers that the validator takes for different ones. */
  lemma ZeroIsNotNegativeZero()
    ensures var zero, negative := Number(0.0, false), Number(0.0, true);
      && EqualJson(zero, negative)
      && Accepts(EqualJson, ConstantSchema(false, zero), negative) && !Accepts(SameJson, ConstantSchema(false, zero), negative)
      && Distinct(SameJson, [zero, negative]) && !Distinct(EqualJson, [zero, negative])
  {
    var zero, negative := Number(0.0, false), Number(0.0, true);
    ConstantAccepts(EqualJson, zero, negative);
    ConstantAccepts(SameJson, zero, negative);
    assert !Distinct(EqualJson, [zero, negative]) by {
      assert EqualJson([zero, negative][0], [zero, negative][1]);
    }
  }

  // ----- The conventions of the validator

  predicate CloseTo(x: real, step: real, k: int) {
    var multiple := k as real * step;
    multiple - TOLERANCE * step <= x <= multiple + TOLERANCE * step
  }

  lemma Scaled(x: real, step: real, k: int)
    requires step > 0.0
    ensures Distance(x / step, k) <= TOLERANCE <==> CloseTo(x, step, k)
  {
    var q, e := x / step, k as real;
    assert x == q * step;
    Ordered(q, e + TOLERANCE, step);
    Ordered(e - TOLERANCE, q, step);
  }

  lemma Ordered(a: real, b: real, step: real)
    requires step > 0.0
    ensures a <= b <==> a * step <= b * step
  {
    assert (b - a) * step == b * step - a * step;
  }

  /** A number meets a step exactly when it is a multiple, give or take a small part of the step. */
  lemma MultipleWithin(x: real, step: real)
    requires step > 0.0
    ensures NearWhole(x / step) <==> exists k: int :: CloseTo(x, step, k)
  {
    hide CloseTo, Distance;
    if NearWhole(x / step) {
      var k: int :| Distance(x / step, k) <= TOLERANCE;
      Scaled(x, step, k);
    }
    if k: int :| CloseTo(x, step, k) {
      Scaled(x, step, k);
      assert Distance(x / step, k) <= TOLERANCE;
    }
  }

  /** A quotient that was rounded to a number from 2^52 on passes for a whole one. */
  lemma LargeQuotientPasses(rounded: real)
    requires IsDouble(rounded) && Large(rounded)
    ensures NearWhole(rounded)
  {
    LargeIsWhole(rounded);
    assert Distance(rounded, rounded.Floor) <= TOLERANCE;
  }

  /** So 2^60 meets a step of three, which it is no multiple of, however its quotient is rounded. */
  lemma NonMultiplePasses(rounded: real)
    requires IsDouble(rounded) && Large(rounded)
    ensures NearWhole(rounded) && !NearWhole(0x1000_0000_0000_0000 as real / 3.0)
  {
    LargeQuotientPasses(rounded);
    var x := 0x1000_0000_0000_0000 as real;
    MultipleWithin(x, 3.0);
    forall k: int
      ensures !CloseTo(x, 3.0, k)
    {
      assert k as real * 3.0 == (3 * k) as real;
      assert 0x1000_0000_0000_0000 - 3 * k != 0;
    }
  }

  /** Without a type, a nullable schema accepts null whatever constant or options it names. */
  lemma NullableSkipsConstant(same: Equality, constant: Json)
    requires !same(Null, constant)
    ensures var schema := ConstantSchema(true, constant);
      Sensible(schema) && Accepts(same, schema, Null) && !Local(same, schema, Null)
  {
  }
}
