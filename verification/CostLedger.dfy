/** The ledger of what model calls have used, and its totals. */
module CostLedger {
  import opened Wrappers
  import JsonValues
  import Journal = ModelJournal

  datatype Operation = Operation(execution: string, key: string)

  datatype Money = Money(amount: real, currency: string)

  datatype UsageRecord = UsageRecord(
    operation: Option<Operation>, runId: Option<string>,
    inputTokens: nat, outputTokens: nat, cachedInputTokens: Option<nat>, cacheWriteTokens: Option<nat>,
    amount: Option<real>, currency: Option<string>)

  datatype Tokens = Tokens(input: nat, output: nat, cached: nat, written: nat)

  /** An entry of the table of amounts: a number, or the text that adding to something else gave. */
  datatype Amount = Sum(total: real) | NotANumber

  datatype CostSummary = CostSummary(tokens: Tokens, amounts: map<string, real>)

  const NONE := Tokens(0, 0, 0, 0)

  /** The names that an object has without being given them. */
  predicate Inherited(name: string) {
    || name == JsonValues.PROTO || name == "constructor" || name == "hasOwnProperty" || name == "isPrototypeOf"
    || name == "propertyIsEnumerable" || name == "toLocaleString" || name == "toString" || name == "valueOf"
    || name == "__defineGetter__" || name == "__defineSetter__" || name == "__lookupGetter__" || name == "__lookupSetter__"
  }

  function OrZero(n: Option<nat>): nat {
    if n.Some? then n.value else 0
  }

  function Plus(a: Tokens, b: Tokens): Tokens {
    Tokens(a.input + b.input, a.output + b.output, a.cached + b.cached, a.written + b.written)
  }

  function TokensOf(r: UsageRecord): Tokens {
    Tokens(r.inputTokens, r.outputTokens, OrZero(r.cachedInputTokens), OrZero(r.cacheWriteTokens))
  }

  /** What a record must satisfy to be accepted. */
  predicate Acceptable(r: UsageRecord) {
    && (r.amount.Some? <==> r.currency.Some?)
    && (r.amount.Some? ==> r.amount.value >= 0.0)
    && (r.currency.Some? ==> r.currency.value != "")
    && OrZero(r.cachedInputTokens) + OrZero(r.cacheWriteTokens) <= r.inputTokens
  }

  // ----- Totals

  function TotalTokens(records: seq<UsageRecord>): Tokens {
    if records == [] then NONE else Plus(TotalTokens(records[..|records| - 1]), TokensOf(records[|records| - 1]))
  }

  /** How much was charged in a currency. */
  function TotalIn(records: seq<UsageRecord>, currency: string): real {
    if records == [] then 0.0
    else
      var last := records[|records| - 1];
      TotalIn(records[..|records| - 1], currency)
      + (if last.currency == Some(currency) && last.amount.Some? then last.amount.value else 0.0)
  }

  predicate ChargedIn(records: seq<UsageRecord>, currency: string) {
    exists i | 0 <= i < |records| :: records[i].currency == Some(currency)
  }

  function Of(records: seq<UsageRecord>, operation: Operation): seq<UsageRecord> {
    if records == [] then []
    else
      var last := records[|records| - 1];
      Of(records[..|records| - 1], operation) + if last.operation == Some(operation) then [last] else []
  }

  function TotalOver(records: seq<UsageRecord>, operations: seq<Operation>): Tokens
    decreases |operations|
  {
    if operations == [] then NONE
    else Plus(TotalOver(records, operations[..|operations| - 1]), TotalTokens(Of(records, operations[|operations| - 1])))
  }

  /** Adding to an own number, to nothing, or to something that was inherited; the prototype cannot be set to text. */
  function AddAmount(amounts: map<string, Amount>, currency: string, amount: real): map<string, Amount> {
    if currency == JsonValues.PROTO then amounts
    else if currency in amounts then
      amounts[currency := if amounts[currency].Sum? then Sum(amounts[currency].total + amount) else NotANumber]
    else amounts[currency := if Inherited(currency) then NotANumber else Sum(amount)]
  }

  /** What recording answers: it returns, it refuses the record, or it throws although the record was taken. */
  datatype Answer = Recorded | Refused | PublishFailed

  /** Some record is charged in a currency that a summary cannot name. */
  predicate Unpublishable(records: seq<UsageRecord>) {
    exists i | 0 <= i < |records| ::
      records[i].currency.Some? && records[i].currency.value != JsonValues.PROTO && Inherited(records[i].currency.value)
  }

  class CostLedger {
    var records: seq<UsageRecord>

    predicate Valid()
      reads this
    {
      AllAcceptable(records)
    }

    constructor ()
      ensures Valid() && records == []
    {
      records := [];
    }

    /** Every record is followed by a summary of them all, which may fail. */
    method Record(candidate: UsageRecord) returns (answer: Answer)
      requires Valid()
      modifies this`records
      ensures Valid()
      ensures records == if Acceptable(candidate) then old(records) + [candidate] else old(records)
      ensures answer ==
        if !Acceptable(candidate) then Refused
        else if Unpublishable(records) then PublishFailed else Recorded
    {
      if !Acceptable(candidate) {
        return Refused;
      }
      records := records + [candidate];
      var summary := Summarize(records);
      SummaryFailsExactly(records, summary);
      return if summary.Some? then Recorded else PublishFailed;
    }

    method List(runId: Option<string>) returns (r: seq<UsageRecord>)
      ensures r == Listed(records, runId)
    {
      r := [];
      for i := 0 to |records|
        invariant r == Listed(records[..i], runId)
      {
        assert records[..i + 1][..i] == records[..i];
        if runId.None? || records[i].runId == runId {
          r := r + [records[i]];
        }
      }
      assert records[..|records|] == records;
    }
  }

  function Listed(records: seq<UsageRecord>, runId: Option<string>): seq<UsageRecord> {
    if records == [] then []
    else
      var last := records[|records| - 1];
      Listed(records[..|records| - 1], runId) + if runId.None? || last.runId == runId then [last] else []
  }

  /** The table of amounts says what was charged, wherever it holds a number. */
  ghost predicate AmountsOf(records: seq<UsageRecord>, amounts: map<string, Amount>) {
    forall c :: AmountOf(records, amounts, c)
  }

  ghost predicate AmountOf(records: seq<UsageRecord>, amounts: map<string, Amount>, c: string) {
    && (c in amounts <==> c != JsonValues.PROTO && ChargedIn(records, c))
    && (c in amounts ==> amounts[c] == if Inherited(c) then NotANumber else Sum(TotalIn(records, c)))
  }

  lemma AmountAdded(records: seq<UsageRecord>, r: UsageRecord, amounts: map<string, Amount>)
    requires AmountsOf(records, amounts) && Acceptable(r)
    ensures AmountsOf(records + [r],
                      if r.amount.Some? && r.currency.Some? then AddAmount(amounts, r.currency.value, r.amount.value) else amounts)
  {
    var after := if r.amount.Some? && r.currency.Some? then AddAmount(amounts, r.currency.value, r.amount.value) else amounts;
    forall c
      ensures AmountOf(records + [r], after, c)
    {
      assert AmountOf(records, amounts, c);
      assert (records + [r])[..|records|] == records;
      assert ChargedIn(records + [r], c) <==> ChargedIn(records, c) || r.currency == Some(c) by {
        assert (records + [r])[|records|] == r;
        assert forall i | 0 <= i < |records| :: (records + [r])[i] == records[i];
      }
      if !ChargedIn(records, c) {
        NothingCharged(records, c);
      }
    }
  }

  lemma {:induction false} NothingCharged(records: seq<UsageRecord>, currency: string)
    requires !ChargedIn(records, currency)
    ensures TotalIn(records, currency) == 0.0
  {
    if records != [] {
      var n := |records| - 1;
      assert forall i | 0 <= i < n :: records[..n][i] == records[i];
      NothingCharged(records[..n], currency);
    }
  }

  predicate AllAcceptable(records: seq<UsageRecord>) {
    forall i | 0 <= i < |records| :: Acceptable(records[i])
  }

  /** The totals, and of each currency what was charged in it; or nothing, when a currency is named like what is inherited. */
  ghost predicate IsSummary(records: seq<UsageRecord>, r: Option<CostSummary>) {
    && (r.Some? <==> forall c | ChargedIn(records, c) :: c == JsonValues.PROTO || !Inherited(c))
    && (r.Some? ==>
          && r.value.tokens == TotalTokens(records)
          && forall c :: (c in r.value.amounts <==> c != JsonValues.PROTO && ChargedIn(records, c))
                         && (c in r.value.amounts ==> r.value.amounts[c] == TotalIn(records, c)))
  }

  /**
   * The sum of the records. It fails when some amount came out as text, which the
   * schema of a summary refuses.
   */
  method Summarize(records: seq<UsageRecord>) returns (r: Option<CostSummary>)
    requires AllAcceptable(records)
    ensures IsSummary(records, r)
  {
    hide Inherited;
    var tokens := NONE;
    var amounts: map<string, Amount> := map[];
    for i := 0 to |records|
      invariant tokens == TotalTokens(records[..i])
      invariant AmountsOf(records[..i], amounts)
    {
      hide AmountsOf, Inherited;
      var record := records[i];
      assert records[..i + 1] == records[..i] + [record] && records[..i + 1][..i] == records[..i];
      tokens := Tokens(tokens.input + record.inputTokens, tokens.output + record.outputTokens,
                       tokens.cached + OrZero(record.cachedInputTokens), tokens.written + OrZero(record.cacheWriteTokens));
      AmountAdded(records[..i], record, amounts);
      if record.amount.Some? && record.currency.Some? {
        amounts := AddAmount(amounts, record.currency.value, record.amount.value);
      }
    }
    assert records[..|records|] == records;
    forall c
      ensures c in amounts <==> c != JsonValues.PROTO && ChargedIn(records, c)
      ensures c in amounts ==> amounts[c] == if Inherited(c) then NotANumber else Sum(TotalIn(records, c))
    {
      assert AmountOf(records, amounts, c);
    }
    if exists c :: c in amounts && amounts[c].NotANumber? {
      return None;
    }
    return Some(CostSummary(tokens, map c | c in amounts && amounts[c].Sum? :: amounts[c].total));
  }

  lemma SummaryFailsExactly(records: seq<UsageRecord>, r: Option<CostSummary>)
    requires IsSummary(records, r)
    ensures r.None? <==> Unpublishable(records)
  {
    hide Inherited;
    if Unpublishable(records) {
      var i :| 0 <= i < |records| && records[i].currency.Some?
               && records[i].currency.value != JsonValues.PROTO && Inherited(records[i].currency.value);
      assert ChargedIn(records, records[i].currency.value);
    }
  }

  /** Once such a record is taken, recording throws for good: every later record is taken, and none can be published. */
  lemma NeverPublishedAgain(records: seq<UsageRecord>, more: seq<UsageRecord>)
    requires Unpublishable(records)
    ensures Unpublishable(records + more)
  {
    hide Inherited;
    var i :| 0 <= i < |records| && records[i].currency.Some?
             && records[i].currency.value != JsonValues.PROTO && Inherited(records[i].currency.value);
    assert (records + more)[i] == records[i];
  }

  /** For which ledgers a summary says of each currency what was charged in it. */
  lemma SummaryExactly(records: seq<UsageRecord>, r: Option<CostSummary>)
    requires IsSummary(records, r)
    ensures (r.Some? && forall c | ChargedIn(records, c) :: c in r.value.amounts && r.value.amounts[c] == TotalIn(records, c))
      <==> forall c | ChargedIn(records, c) :: !Inherited(c)
  {
    assert Inherited(JsonValues.PROTO);
  }

  /** Cached and written tokens are among the input tokens, in total too. */
  lemma {:induction false} CachedWithinInput(records: seq<UsageRecord>)
    requires AllAcceptable(records)
    ensures TotalTokens(records).cached + TotalTokens(records).written <= TotalTokens(records).input
  {
    if records != [] {
      CachedWithinInput(records[..|records| - 1]);
      assert Acceptable(records[|records| - 1]);
    }
  }

  predicate EachOnce(operations: seq<Operation>) {
    forall i, j | 0 <= i < j < |operations| :: operations[i] != operations[j]
  }

  /** The ledger's totals are the sums over the operations that its records belong to. */
  lemma {:induction false} TotalsByOperation(records: seq<UsageRecord>, operations: seq<Operation>)
    requires EachOnce(operations)
    requires forall i | 0 <= i < |records| :: records[i].operation.Some? && records[i].operation.value in operations
    ensures TotalTokens(records) == TotalOver(records, operations)
  {
    hide TotalOver, TokensOf;
    if records == [] {
      NothingOver(records, operations);
    } else {
      var n := |records| - 1;
      TotalsByOperation(records[..n], operations);
      OneMoreOver(records[..n], records[n], operations);
      assert records == records[..n] + [records[n]];
    }
  }

  lemma OfNothing(records: seq<UsageRecord>, operation: Operation)
    requires records == []
    ensures TotalTokens(Of(records, operation)) == NONE
  {
  }

  lemma {:induction false} NothingOver(records: seq<UsageRecord>, operations: seq<Operation>)
    requires records == []
    ensures TotalOver(records, operations) == NONE
    decreases |operations|
  {
    hide Of, TotalTokens, TokensOf;
    if operations == [] {
      return;
    }
    NothingOver(records, operations[..|operations| - 1]);
    OfNothing(records, operations[|operations| - 1]);
  }

  lemma OneMoreOf(records: seq<UsageRecord>, r: UsageRecord, operation: Operation)
    ensures var before := TotalTokens(Of(records, operation));
      TotalTokens(Of(records + [r], operation)) == if r.operation == Some(operation) then Plus(before, TokensOf(r)) else before
  {
    var mine := Of(records, operation);
    assert (records + [r])[..|records|] == records;
    assert (mine + [r])[..|mine|] == mine;
    assert mine + [] == mine;
  }

  lemma OverNone(records: seq<UsageRecord>)
    ensures TotalOver(records, []) == NONE
  {
  }

  lemma OverLast(records: seq<UsageRecord>, rest: seq<Operation>, last: Operation)
    ensures TotalOver(records, rest + [last]) == Plus(TotalOver(records, rest), TotalTokens(Of(records, last)))
  {
    assert (rest + [last])[..|rest|] == rest;
  }

  lemma {:induction false} OneMoreOver(records: seq<UsageRecord>, r: UsageRecord, operations: seq<Operation>)
    requires EachOnce(operations) && r.operation.Some?
    ensures TotalOver(records + [r], operations) ==
      if r.operation.value in operations then Plus(TotalOver(records, operations), TokensOf(r))
      else TotalOver(records, operations)
    decreases |operations|
  {
    hide TotalOver, Of, TotalTokens, TokensOf;
    OverNone(records);
    OverNone(records + [r]);
    if operations == [] {
      return;
    }
    var rest, last := operations[..|operations| - 1], operations[|operations| - 1];
    assert operations == rest + [last];
    OneMoreOver(records, r, rest);
    OneMoreOf(records, r, last);
    OverLast(records, rest, last);
    OverLast(records + [r], rest, last);
  }

  // ----- The usage of model operations

  function TokensUsed(u: Journal.Usage): Tokens {
    Tokens(u.inputTokens, u.outputTokens, u.cachedInputTokens, u.cacheWriteTokens)
  }

  /** The records of an operation hold what it used, in order. */
  predicate Holds(records: seq<UsageRecord>, operation: Operation, used: seq<Journal.Usage>) {
    var mine := Of(records, operation);
    |mine| == |used| && forall i | 0 <= i < |used| :: TokensOf(mine[i]) == TokensUsed(used[i])
  }

  function TotalUsed(operations: seq<Operation>, used: Operation -> seq<Journal.Usage>): Tokens {
    if operations == [] then NONE
    else
      var n := |operations| - 1;
      var last := used(operations[n]);
      var before := TotalUsed(operations[..n], used);
      if last == [] then before else Plus(before, TokensUsed(last[0]))
  }

  /** When each operation has recorded at most one usage, the ledger's totals count each of those once. */
  lemma TotalsOfOperations(records: seq<UsageRecord>, operations: seq<Operation>, used: Operation -> seq<Journal.Usage>)
    requires EachOnce(operations)
    requires forall i | 0 <= i < |records| :: records[i].operation.Some? && records[i].operation.value in operations
    requires forall i | 0 <= i < |operations| :: Holds(records, operations[i], used(operations[i])) && |used(operations[i])| <= 1
    ensures TotalTokens(records) == TotalUsed(operations, used)
  {
    TotalsByOperation(records, operations);
    OverIsUsed(records, operations, used);
  }

  lemma {:induction false} OverIsUsed(records: seq<UsageRecord>, operations: seq<Operation>, used: Operation -> seq<Journal.Usage>)
    requires forall i | 0 <= i < |operations| :: Holds(records, operations[i], used(operations[i])) && |used(operations[i])| <= 1
    ensures TotalOver(records, operations) == TotalUsed(operations, used)
    decreases |operations|
  {
    hide Of, TokensOf;
    if operations != [] {
      var n := |operations| - 1;
      OverIsUsed(records, operations[..n], used);
      var mine := Of(records, operations[n]);
      assert Holds(records, operations[n], used(operations[n]));
      if mine != [] {
        assert mine[..0] == [];
        assert TotalTokens(mine) == TokensOf(mine[0]);
      }
    }
  }
}
