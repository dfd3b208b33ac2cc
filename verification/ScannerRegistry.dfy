/** Prompt scanners, and the verdict that survives every cut of their findings. */
module ScannerRegistry {
  import opened Wrappers

  const MAX_SCAN_FINDINGS := 64
  const MAX_SCANNER_CANDIDATES := MAX_SCAN_FINDINGS * 8

  datatype Action = Block | Review | Allow
  datatype Finding = Finding(scanner: string, code: string, action: Action)
  datatype FailureKind = Timeout | Error | Invalid
  datatype Failure = Failure(scanner: string, kind: FailureKind)
  datatype Coverage = Full | Partial | Nothing
  datatype Report = Report(findings: seq<Finding>, failures: seq<Failure>, coverage: Coverage, truncated: bool)

  /** What a scanner came back with: an exception, something that is no list, or candidates to parse. */
  datatype Raw = Threw(timeout: bool) | NotAList | Candidates(items: seq<Option<Finding>>)
  datatype ScannerResult = ScannerResult(scanner: string, raw: Raw)
  datatype ScannerOutcome = ScannerOutcome(findings: seq<Finding>, failure: Option<Failure>)

  function Severity(action: Action): nat {
    match action
    case Block => 0
    case Review => 1
    case Allow => 2
  }

  // ----- Sorting and cutting

  function Only(findings: seq<Finding>, action: Action): seq<Finding> {
    if findings == [] then []
    else (if findings[0].action == action then [findings[0]] else []) + Only(findings[1..], action)
  }

  /** The stable sort by severity, most severe first. */
  function SortBySeverity(findings: seq<Finding>): seq<Finding> {
    Only(findings, Block) + Only(findings, Review) + Only(findings, Allow)
  }

  function Cut<T>(xs: seq<T>, n: nat): seq<T> {
    if |xs| <= n then xs else xs[..n]
  }

  lemma {:induction false} OnlyKeeps(findings: seq<Finding>, action: Action)
    ensures forall f :: f in Only(findings, action) <==> f in findings && f.action == action
  {
    if findings != [] {
      OnlyKeeps(findings[1..], action);
      assert findings == [findings[0]] + findings[1..];
    }
  }

  lemma {:induction false} OnlyPartitions(findings: seq<Finding>)
    ensures multiset(Only(findings, Block)) + multiset(Only(findings, Review)) + multiset(Only(findings, Allow))
      == multiset(findings)
  {
    if findings != [] {
      OnlyPartitions(findings[1..]);
      assert findings == [findings[0]] + findings[1..];
    }
  }

  lemma {:induction false} OnlyOfJoined(a: seq<Finding>, b: seq<Finding>, action: Action)
    ensures Only(a + b, action) == Only(a, action) + Only(b, action)
    decreases |a|
  {
    if a == [] {
      assert a + b == b;
    } else {
      OnlyOfJoined(a[1..], b, action);
      assert (a + b)[1..] == a[1..] + b;
    }
  }

  lemma {:induction false} OnlyOfOne(findings: seq<Finding>, all: Action, action: Action)
    requires forall f <- findings :: f.action == all
    ensures Only(findings, action) == if action == all then findings else []
  {
    if findings != [] {
      OnlyOfOne(findings[1..], all, action);
    }
  }

  /** It is a permutation in order of severity, and findings of one severity keep their order. */
  lemma SortBySeveritySorts(findings: seq<Finding>)
    ensures multiset(SortBySeverity(findings)) == multiset(findings)
    ensures forall i, j :: 0 <= i < j < |SortBySeverity(findings)| ==>
      Severity(SortBySeverity(findings)[i].action) <= Severity(SortBySeverity(findings)[j].action)
    ensures forall action :: Only(SortBySeverity(findings), action) == Only(findings, action)
  {
    hide Only;
    var b, r, a := Only(findings, Block), Only(findings, Review), Only(findings, Allow);
    OnlyPartitions(findings);
    OnlyKeeps(findings, Block);
    OnlyKeeps(findings, Review);
    OnlyKeeps(findings, Allow);
    var sorted := b + r + a;
    forall i | 0 <= i < |sorted|
      ensures sorted[i].action == if i < |b| then Block else if i < |b| + |r| then Review else Allow
    {
      if i < |b| {
        assert sorted[i] in b;
      } else if i < |b| + |r| {
        assert sorted[i] == r[i - |b|] && r[i - |b|] in r;
      } else {
        assert sorted[i] == a[i - |b| - |r|] && a[i - |b| - |r|] in a;
      }
    }
    forall action: Action
      ensures Only(sorted, action) == Only(findings, action)
    {
      OnlyOfJoined(b + r, a, action);
      OnlyOfJoined(b, r, action);
      OnlyOfOne(b, Block, action);
      OnlyOfOne(r, Review, action);
      OnlyOfOne(a, Allow, action);
    }
  }

  // ----- The scan

  function ParsedOf(items: seq<Option<Finding>>): seq<Finding> {
    if items == [] then []
    else (if items[0].Some? then [items[0].value] else []) + ParsedOf(items[1..])
  }

  lemma ParsedOfAppend(items: seq<Option<Finding>>, item: Option<Finding>)
    ensures ParsedOf(items + [item]) == ParsedOf(items) + (if item.Some? then [item.value] else [])
  {
    if items == [] {
      assert items + [item] == [item];
    } else {
      assert (items + [item])[1..] == items[1..] + [item];
    }
  }

  /** Everything one scanner said that is ever looked at. */
  function Heard(result: ScannerResult): seq<Finding> {
    match result.raw
    case Candidates(items) => ParsedOf(Cut(items, MAX_SCANNER_CANDIDATES))
    case _ => []
  }

  predicate Faulty(result: ScannerResult) {
    match result.raw
    case Candidates(items) => |items| > MAX_SCAN_FINDINGS || None in items[..|Cut(items, MAX_SCANNER_CANDIDATES)|]
    case _ => true
  }

  method RunScanner(result: ScannerResult) returns (outcome: ScannerOutcome)
    ensures outcome.findings == Cut(SortBySeverity(Heard(result)), MAX_SCAN_FINDINGS)
    ensures outcome.failure.Some? <==> Faulty(result)
    ensures outcome.failure.Some? ==> outcome.failure.value.scanner == result.scanner
  {
    match result.raw
    case Threw(timeout) =>
      return ScannerOutcome([], Some(Failure(result.scanner, if timeout then Timeout else Error)));
    case NotAList =>
      return ScannerOutcome([], Some(Failure(result.scanner, Invalid)));
    case Candidates(items) =>
      var window := Cut(items, MAX_SCANNER_CANDIDATES);
      var parsed: seq<Finding>, rejected := [], 0;
      for i := 0 to |window|
        invariant parsed == ParsedOf(window[..i])
        invariant 0 <= rejected <= i
        invariant rejected == 0 <==> None !in window[..i]
      {
        assert window[..i + 1] == window[..i] + [window[i]];
        ParsedOfAppend(window[..i], window[i]);
        if window[i].None? {
          rejected := rejected + 1;
        } else {
          parsed := parsed + [window[i].value];
        }
      }
      assert window[..|window|] == window;
      var findings := Cut(SortBySeverity(parsed), MAX_SCAN_FINDINGS);
      if rejected == 0 && |items| <= MAX_SCAN_FINDINGS {
        return ScannerOutcome(findings, None);
      }
      return ScannerOutcome(findings, Some(Failure(result.scanner, Invalid)));
  }

  function AllFindings(outcomes: seq<ScannerOutcome>): seq<Finding> {
    if outcomes == [] then [] else outcomes[0].findings + AllFindings(outcomes[1..])
  }

  function AllFailures(outcomes: seq<ScannerOutcome>): seq<Failure> {
    if outcomes == [] then []
    else (if outcomes[0].failure.Some? then [outcomes[0].failure.value] else []) + AllFailures(outcomes[1..])
  }

  function Assemble(outcomes: seq<ScannerOutcome>, truncated: bool): Report {
    if outcomes == [] then Report([], [], Nothing, truncated)
    else
      var failures := AllFailures(outcomes);
      var scanned := if |failures| == |outcomes| then Nothing else if |failures| > 0 then Partial else Full;
      Report(Cut(SortBySeverity(AllFindings(outcomes)), MAX_SCAN_FINDINGS), failures,
             if truncated && scanned == Full then Partial else scanned, truncated)
  }

  function ScanReportAction(report: Report): Action {
    if exists f <- report.findings :: f.action == Block then Block
    else if exists f <- report.findings :: f.action == Review then Review
    else if report.coverage != Full then Review
    else Allow
  }

  // ----- The verdict

  function Worse(a: Action, b: Action): Action {
    if Severity(b) < Severity(a) then b else a
  }

  /** The most severe action found, if any. */
  function Worst(findings: seq<Finding>): Action {
    if findings == [] then Allow else Worse(findings[0].action, Worst(findings[1..]))
  }

  lemma {:induction false} WorstExact(findings: seq<Finding>)
    ensures forall f <- findings :: Severity(Worst(findings)) <= Severity(f.action)
    ensures Worst(findings) == Allow || exists f <- findings :: f.action == Worst(findings)
  {
    if findings != [] {
      WorstExact(findings[1..]);
      assert findings[0] in findings && (forall f <- findings[1..] :: f in findings);
    }
  }

  /** Cutting the sorted findings, at any positive length, keeps the worst of them. */
  lemma CutKeepsWorst(findings: seq<Finding>, n: nat)
    requires n > 0
    ensures Worst(Cut(SortBySeverity(findings), n)) == Worst(findings)
  {
    hide SortBySeverity, Worst;
    var sorted := SortBySeverity(findings);
    SortBySeveritySorts(findings);
    WorstExact(findings);
    WorstExact(Cut(sorted, n));
    SameElements(sorted, findings);
    if findings == [] {
      assert Cut(sorted, n) == findings;
    } else {
      assert Cut(sorted, n)[0] == sorted[0];
      forall f | f in findings
        ensures Severity(sorted[0].action) <= Severity(f.action)
      {
        var i :| 0 <= i < |sorted| && sorted[i] == f;
      }
    }
  }

  lemma SameElements(xs: seq<Finding>, ys: seq<Finding>)
    requires multiset(xs) == multiset(ys)
    ensures |xs| == |ys| && forall f :: f in xs <==> f in ys
  {
    assert |xs| == |multiset(xs)| && |ys| == |multiset(ys)|;
    assert forall f :: f in xs <==> f in multiset(xs);
  }

  lemma {:induction false} WorstConcat(xs: seq<Finding>, ys: seq<Finding>)
    ensures Worst(xs + ys) == Worse(Worst(xs), Worst(ys))
  {
    if xs == [] {
      assert xs + ys == ys;
    } else {
      assert (xs + ys)[1..] == xs[1..] + ys;
      WorstConcat(xs[1..], ys);
    }
  }

  function AllHeard(results: seq<ScannerResult>): seq<Finding> {
    if results == [] then [] else Heard(results[0]) + AllHeard(results[1..])
  }

  /** The outcomes that running the scanners gives. */
  ghost predicate OutcomesOf(results: seq<ScannerResult>, outcomes: seq<ScannerOutcome>) {
    && |outcomes| == |results|
    && forall i :: 0 <= i < |results| ==>
         && outcomes[i].findings == Cut(SortBySeverity(Heard(results[i])), MAX_SCAN_FINDINGS)
         && (outcomes[i].failure.Some? <==> Faulty(results[i]))
  }

  lemma {:induction false} WorstOfOutcomes(results: seq<ScannerResult>, outcomes: seq<ScannerOutcome>)
    requires OutcomesOf(results, outcomes)
    ensures Worst(AllFindings(outcomes)) == Worst(AllHeard(results))
    ensures |AllFailures(outcomes)| <= |outcomes|
    ensures AllFailures(outcomes) == [] <==> forall r <- results :: !Faulty(r)
  {
    if results != [] {
      WorstOfOutcomes(results[1..], outcomes[1..]);
      CutKeepsWorst(Heard(results[0]), MAX_SCAN_FINDINGS);
      WorstConcat(outcomes[0].findings, AllFindings(outcomes[1..]));
      WorstConcat(Heard(results[0]), AllHeard(results[1..]));
      assert results[0] in results && (forall r <- results :: r == results[0] || r in results[1..]);
      assert forall r <- results[1..] :: r in results;
    }
  }

  /**
   * Sorting by severity and cutting to 64, for each scanner and again over all
   * of them, changes no verdict: it is the worst of everything heard, raised to
   * review when a scanner was missing, failed or overflowed, or the text was cut.
   */
  lemma CuttingKeepsVerdict(results: seq<ScannerResult>, outcomes: seq<ScannerOutcome>, truncated: bool)
    requires OutcomesOf(results, outcomes)
    ensures ScanReportAction(Assemble(outcomes, truncated)) ==
      if results != [] && !truncated && (forall r <- results :: !Faulty(r))
      then Worst(AllHeard(results))
      else Worse(Review, Worst(AllHeard(results)))
  {
    hide Heard, SortBySeverity, Faulty;
    var report := Assemble(outcomes, truncated);
    WorstOfOutcomes(results, outcomes);
    if results != [] {
      CutKeepsWorst(AllFindings(outcomes), MAX_SCAN_FINDINGS);
    }
    WorstExact(report.findings);
  }

  method Scan(results: seq<ScannerResult>, truncated: bool) returns (report: Report)
    ensures exists outcomes :: OutcomesOf(results, outcomes) && report == Assemble(outcomes, truncated)
    ensures ScanReportAction(report) == Block <==> Worst(AllHeard(results)) == Block
  {
    hide Heard, SortBySeverity, Faulty, AllHeard, Worst, Assemble, ScanReportAction, Cut;
    var outcomes: seq<ScannerOutcome> := [];
    for i := 0 to |results|
      invariant |outcomes| == i
      invariant forall j :: 0 <= j < i ==>
        && outcomes[j].findings == Cut(SortBySeverity(Heard(results[j])), MAX_SCAN_FINDINGS)
        && (outcomes[j].failure.Some? <==> Faulty(results[j]))
    {
      var outcome := RunScanner(results[i]);
      outcomes := outcomes + [outcome];
    }
    report := Assemble(outcomes, truncated);
    CuttingKeepsVerdict(results, outcomes, truncated);
  }
}
