/** The classification of each open run, which only rises, and the raises it has had. */
module ClassificationService {
  import opened Wrappers
  import opened Classification

  const MAX_RAISE_HISTORY := 64
  const MAX_REASON_LENGTH := 512

  datatype Snapshot = Snapshot(level: Level, version: nat)
  datatype Raise = Raise(level: Level, version: nat, reason: string)

  /** initial is the level that the run was opened with. */
  datatype Run = Run(initial: Level, level: Level, version: nat, history: seq<Raise>)

  const UNCLASSIFIED := Snapshot(Public, 0)

  /** The level after the first n raises. */
  function LevelAfter(run: Run, n: nat): Level
    requires n <= |run.history|
  {
    if n == 0 then run.initial else run.history[n - 1].level
  }

  /** Every raise is in the history, each above the level before it, with the next version. */
  predicate Consistent(run: Run) {
    && run.version == 1 + |run.history| && run.level == LevelAfter(run, |run.history|)
    && forall i | 0 <= i < |run.history| ::
         Rank(run.history[i].level) > Rank(LevelAfter(run, i)) && run.history[i].version == i + 2
  }

  lemma {:induction false} RaisesRise(run: Run, n: nat)
    requires Consistent(run) && n <= |run.history|
    ensures n + Rank(run.initial) <= Rank(LevelAfter(run, n))
  {
    if n > 0 {
      RaisesRise(run, n - 1);
      assert LevelAfter(run, n) == run.history[n - 1].level;
    }
  }

  /** There are at most three raises, so the bound on the history is never reached. */
  lemma HistoryIsComplete(run: Run)
    requires Consistent(run)
    ensures |run.history| <= MAX_RANK && |run.history| + 1 <= MAX_RAISE_HISTORY
  {
    RaisesRise(run, |run.history|);
  }

  function Shortened(reason: string): string {
    if |reason| <= MAX_REASON_LENGTH then reason else reason[..MAX_REASON_LENGTH]
  }

  /** The history without what is over the bound. */
  function Latest(history: seq<Raise>): seq<Raise> {
    var overflow := |history| - MAX_RAISE_HISTORY;
    if overflow > 0 then history[overflow..] else history
  }

  /** The run at a higher level, with the raise at the end of its history. */
  function Raised(run: Run, level: Level, reason: string): Run {
    Run(run.initial, level, run.version + 1, run.history + [Raise(level, run.version + 1, Shortened(reason))])
  }

  lemma RaisedIsConsistent(run: Run, level: Level, reason: string)
    requires Consistent(run) && Rank(level) > Rank(run.level)
    ensures Consistent(Raised(run, level, reason))
  {
    var after := Raised(run, level, reason);
    forall n | 0 <= n <= |run.history|
      ensures LevelAfter(after, n) == LevelAfter(run, n)
    {
    }
  }

  class ClassificationService {
    var runs: map<string, Run>

    predicate Valid()
      reads this
    {
      forall id <- runs :: Consistent(runs[id])
    }

    constructor ()
      ensures Valid() && runs == map[]
    {
      runs := map[];
    }

    /** What is said of a run; nothing is classified outside an open one. */
    function SnapshotOf(id: Option<string>): Snapshot
      reads this
    {
      if id.Some? && id.value in runs then Snapshot(runs[id.value].level, runs[id.value].version) else UNCLASSIFIED
    }

    method OpenRun(id: string, initial: Level) returns (ok: bool)
      requires Valid()
      modifies this
      ensures Valid() && ok == (id != "" && id !in old(runs))
      ensures runs == if ok then old(runs)[id := Run(initial, initial, 1, [])] else old(runs)
    {
      if id == "" || id in runs {
        return false;
      }
      runs := runs[id := Run(initial, initial, 1, [])];
      return true;
    }

    method DisposeRun(id: string)
      requires Valid()
      modifies this
      ensures Valid() && runs == old(runs) - {id}
    {
      runs := runs - {id};
    }

    /** A higher level is taken over as the next version, and recorded; another changes nothing. */
    method RaiseTo(id: string, level: Level, reason: string) returns (r: Snapshot)
      requires Valid()
      modifies this
      ensures Valid()
      ensures id !in old(runs) ==> runs == old(runs) && r == UNCLASSIFIED
      ensures id in old(runs) ==>
        var before := old(runs)[id];
        && runs == old(runs)[id := if Rank(level) > Rank(before.level) then Raised(before, level, reason) else before]
        && r == Snapshot(Join(before.level, level), if Rank(level) > Rank(before.level) then before.version + 1 else before.version)
    {
      hide Consistent;
      if id !in runs {
        return UNCLASSIFIED;
      }
      var run := runs[id];
      if Rank(level) <= Rank(run.level) {
        return Snapshot(run.level, run.version);
      }
      HistoryIsComplete(run);
      RaisedIsConsistent(run, level, reason);
      var version := run.version + 1;
      var history := run.history + [Raise(level, version, Shortened(reason))];
      runs := runs[id := Run(run.initial, level, version, Latest(history))];
      return Snapshot(level, version);
    }
  }
}
