/** The check that a schema is well formed and not too large, which precedes every validation. */
module SchemaBounds {
  import opened Wrappers
  import opened JsonValues
  import opened JsonSchema

  // ----- Literals

  function Children(v: Json): (r: seq<Json>)
    ensures forall i | 0 <= i < |r| :: r[i] < v
  {
    match v
    case Array(items) => items
    case Object(members) => seq(|members|, i requires 0 <= i < |members| => members[i].value)
    case _ => []
  }

  function LiteralNodes(v: Json): nat
    decreases v, 1
  {
    1 + ChildNodes(v, |Children(v)|)
  }

  function ChildNodes(v: Json, n: nat): nat
    requires n <= |Children(v)|
    decreases v, 0, n
  {
    if n == 0 then 0 else ChildNodes(v, n - 1) + LiteralNodes(Children(v)[n - 1])
  }

  predicate LiteralFits(v: Json, depth: nat) {
    && depth <= MAX_DEPTH && !v.Undefined? && |Children(v)| <= MAX_MEMBERS
    && forall i | 0 <= i < |Children(v)| :: LiteralFits(Children(v)[i], depth + 1)
  }

  predicate LiteralsFit(literals: seq<Json>, depth: nat) {
    forall i | 0 <= i < |literals| :: LiteralFits(literals[i], depth)
  }

  function LiteralSum(literals: seq<Json>): nat {
    if literals == [] then 0 else LiteralSum(literals[..|literals| - 1]) + LiteralNodes(literals[|literals| - 1])
  }

  lemma {:induction false} ChildNodesGrow(v: Json, m: nat, n: nat)
    requires m <= n <= |Children(v)|
    ensures ChildNodes(v, m) <= ChildNodes(v, n)
    decreases n
  {
    if m < n {
      ChildNodesGrow(v, m, n - 1);
    }
  }

  lemma {:induction false} LiteralSumGrows(literals: seq<Json>, n: nat)
    requires n < |literals|
    ensures LiteralSum(literals[..n + 1]) == LiteralSum(literals[..n]) + LiteralNodes(literals[n])
    ensures LiteralSum(literals[..n + 1]) <= LiteralSum(literals)
  {
    var shorter := literals[..|literals| - 1];
    assert literals[..n + 1][..n] == literals[..n];
    if n < |literals| - 1 {
      LiteralSumGrows(shorter, n);
      assert shorter[..n + 1] == literals[..n + 1];
    } else {
      assert literals[..n + 1] == literals;
    }
  }

  lemma EmptySum()
    ensures LiteralSum([]) == 0
  {
  }

  method AssertLiteral(v: Json, depth: nat, budget: Budget) returns (ok: bool)
    modifies budget
    ensures ok <==> LiteralFits(v, depth) && LiteralNodes(v) <= old(budget.remaining)
    ensures ok ==> budget.remaining == old(budget.remaining) - LiteralNodes(v)
    decreases v, 1
  {
    budget.remaining := budget.remaining - 1;
    if depth > MAX_DEPTH || budget.remaining < 0 {
      return false;
    }
    if v.Undefined? || |Children(v)| > MAX_MEMBERS {
      return false;
    }
    ok := AssertChildren(v, depth, budget);
  }

  method AssertChildren(v: Json, depth: nat, budget: Budget) returns (ok: bool)
    requires budget.remaining >= 0
    modifies budget
    ensures ok <==>
      && (forall i | 0 <= i < |Children(v)| :: LiteralFits(Children(v)[i], depth + 1))
      && ChildNodes(v, |Children(v)|) <= old(budget.remaining)
    ensures ok ==> budget.remaining == old(budget.remaining) - ChildNodes(v, |Children(v)|)
    decreases v, 0
  {
    hide LiteralFits;
    var children := Children(v);
    for index := 0 to |children|
      invariant forall i | 0 <= i < index :: LiteralFits(children[i], depth + 1)
      invariant budget.remaining == old(budget.remaining) - ChildNodes(v, index) >= 0
    {
      ChildNodesGrow(v, index + 1, |children|);
      var fits := AssertLiteral(children[index], depth + 1, budget);
      if !fits {
        return false;
      }
    }
    return true;
  }

  method AssertLiterals(literals: seq<Json>, depth: nat, budget: Budget) returns (ok: bool)
    requires budget.remaining >= 0
    modifies budget
    ensures ok <==>
      LiteralsFit(literals, depth) && LiteralSum(literals) <= old(budget.remaining)
    ensures ok ==> budget.remaining == old(budget.remaining) - LiteralSum(literals)
  {
    hide LiteralFits, LiteralSum, LiteralNodes;
    assert LiteralSum(literals[..0]) == 0 by {
      EmptySum();
    }
    for index := 0 to |literals|
      invariant forall i | 0 <= i < index :: LiteralFits(literals[i], depth)
      invariant budget.remaining == old(budget.remaining) - LiteralSum(literals[..index]) >= 0
    {
      LiteralSumGrows(literals, index);
      var fits := AssertLiteral(literals[index], depth, budget);
      if !fits {
        return false;
      }
    }
    assert literals[..|literals|] == literals;
    return true;
  }

  // ----- Schemas

  predicate NoRepeats<T(==)>(s: seq<T>) {
    forall i, j | 0 <= i < j < |s| :: s[i] != s[j]
  }

  function Optional(v: Option<Json>): seq<Json> {
    if v.Some? then [v.value] else []
  }

  const TEXT_KEYWORDS := {"$schema", "$id", "$comment", "title", "description", "format", "contentEncoding", "contentMediaType"}

  const FLAG_KEYWORDS := {"deprecated", "readOnly", "writeOnly"}

  /** A keyword that asserts nothing is a known one, with a value of its type; no other keyword is supported. */
  predicate GoodAnnotation(m: Member) {
    (m.key in TEXT_KEYWORDS && m.value.String?) || (m.key in FLAG_KEYWORDS && m.value.Bool?)
  }

  /** What is asked of the keywords of one schema, apart from what is inside them. */
  predicate WellShaped(schema: Schema)
    requires schema.Assertions?
  {
    && (forall i | 0 <= i < |schema.annotations| :: GoodAnnotation(schema.annotations[i]))
    && |schema.examples| <= MAX_MEMBERS
    && (schema.types.Some? ==> 1 <= |schema.types.value| <= 8 && NoRepeats(schema.types.value))
    && |schema.properties| <= MAX_MEMBERS
    && |schema.required| <= MAX_MEMBERS && NoRepeats(schema.required)
    && (schema.options.Some? ==> 1 <= |schema.options.value| <= MAX_MEMBERS)
    && (schema.exclusiveMinimum.Some? && schema.exclusiveMinimum.value.Flag? ==> schema.minimum.Some?)
    && (schema.exclusiveMaximum.Some? && schema.exclusiveMaximum.value.Flag? ==> schema.maximum.Some?)
    && PositiveStep(schema)
  }

  /** The schemas inside a schema that are checked on their own. */
  function Subschemas(schema: Schema): (r: seq<Schema>)
    requires schema.Assertions?
    ensures forall i | 0 <= i < |r| :: r[i] < schema
  {
    seq(|schema.properties|, i requires 0 <= i < |schema.properties| => schema.properties[i].schema)
    + (if schema.additional.Some? && !schema.additional.value.Always? then [schema.additional.value] else [])
    + (if schema.items.Some? then [schema.items.value] else [])
  }

  function Literals(schema: Schema): seq<Json>
    requires schema.Assertions?
  {
    Optional(schema.defaultValue) + schema.examples
    + (if schema.options.Some? then schema.options.value else []) + Optional(schema.constant)
  }

  function SchemaNodes(schema: Schema): nat
    decreases schema, 1
  {
    if schema.Always? then 1
    else 1 + SubschemaNodes(schema, |Subschemas(schema)|) + LiteralSum(Literals(schema))
  }

  function SubschemaNodes(schema: Schema, n: nat): nat
    requires schema.Assertions? && n <= |Subschemas(schema)|
    decreases schema, 0, n
  {
    if n == 0 then 0 else SubschemaNodes(schema, n - 1) + SchemaNodes(Subschemas(schema)[n - 1])
  }

  /** Well shaped throughout, and nowhere too deep. */
  predicate Bounded(schema: Schema, depth: nat) {
    && depth <= MAX_DEPTH
    && (schema.Assertions? ==>
          && WellShaped(schema)
          && LiteralsFit(Literals(schema), depth + 1)
          && (forall i | 0 <= i < |Subschemas(schema)| :: Bounded(Subschemas(schema)[i], depth + 1)))
  }

  lemma {:induction false} SubschemaNodesGrow(schema: Schema, m: nat, n: nat)
    requires schema.Assertions? && m <= n <= |Subschemas(schema)|
    ensures SubschemaNodes(schema, m) <= SubschemaNodes(schema, n)
    decreases n
  {
    if m < n {
      SubschemaNodesGrow(schema, m, n - 1);
    }
  }

  /** The literals and the schemas inside are checked in one pass each, where the program interleaves them. */
  method AssertBounded(schema: Schema, depth: nat, budget: Budget) returns (ok: bool)
    modifies budget
    ensures ok <==> Bounded(schema, depth) && SchemaNodes(schema) <= old(budget.remaining)
    ensures ok ==> budget.remaining == old(budget.remaining) - SchemaNodes(schema)
    decreases schema, 1
  {
    budget.remaining := budget.remaining - 1;
    if depth > MAX_DEPTH || budget.remaining < 0 {
      return false;
    }
    if schema.Always? {
      return true;
    }
    if !WellShaped(schema) {
      return false;
    }
    hide LiteralsFit, LiteralSum, Subschemas, Literals, WellShaped;
    var fits := AssertLiterals(Literals(schema), depth + 1, budget);
    if !fits {
      return false;
    }
    ok := AssertSubschemas(schema, depth, budget);
  }

  method AssertSubschemas(schema: Schema, depth: nat, budget: Budget) returns (ok: bool)
    requires schema.Assertions? && budget.remaining >= 0
    modifies budget
    ensures ok <==>
      && (forall i | 0 <= i < |Subschemas(schema)| :: Bounded(Subschemas(schema)[i], depth + 1))
      && SubschemaNodes(schema, |Subschemas(schema)|) <= old(budget.remaining)
    ensures ok ==> budget.remaining == old(budget.remaining) - SubschemaNodes(schema, |Subschemas(schema)|)
    decreases schema, 0
  {
    hide Bounded;
    var subschemas := Subschemas(schema);
    for index := 0 to |subschemas|
      invariant forall i | 0 <= i < index :: Bounded(subschemas[i], depth + 1)
      invariant budget.remaining == old(budget.remaining) - SubschemaNodes(schema, index) >= 0
    {
      SubschemaNodesGrow(schema, index + 1, |subschemas|);
      var bounded := AssertBounded(subschemas[index], depth + 1, budget);
      if !bounded {
        return false;
      }
    }
    return true;
  }

  /** A bounded schema is sensible for the validator. */
  lemma {:induction false} BoundedIsSensible(schema: Schema, depth: nat)
    requires Bounded(schema, depth)
    ensures Sensible(schema)
    decreases schema
  {
    if schema.Assertions? {
      var subschemas := Subschemas(schema);
      forall i | 0 <= i < |subschemas|
        ensures Sensible(subschemas[i])
      {
        BoundedIsSensible(subschemas[i], depth + 1);
      }
      var n := |schema.properties|;
      forall i | 0 <= i < n
        ensures Sensible(schema.properties[i].schema)
      {
        assert subschemas[i] == schema.properties[i].schema;
      }
      if schema.additional.Some? && !schema.additional.value.Always? {
        assert subschemas[n] == schema.additional.value;
      }
      if schema.items.Some? {
        assert subschemas[|subschemas| - 1] == schema.items.value;
      }
    }
  }

  /** A value is accepted when the schema is bounded, the value meets it, and meeting it stays within the limits. */
  method ValidateAgainstJsonSchema(schema: Schema, value: Json) returns (success: bool)
    ensures success <==>
      && Bounded(schema, 0) && SchemaNodes(schema) <= MAX_NODES
      && Sensible(schema) && Accepts(SameJson, schema, value)
      && Within(schema, value, 0) && Visits(schema, value) <= MAX_NODES
  {
    var schemaBudget := new Budget(MAX_NODES);
    var bounded := AssertBounded(schema, 0, schemaBudget);
    if !bounded {
      return false;
    }
    BoundedIsSensible(schema, 0);
    var budget := new Budget(MAX_NODES);
    success := ValidateSchema(schema, value, 0, budget);
  }
}
