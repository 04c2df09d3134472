/** `OctopusCheckExecutor.ExecuteChecks`: runs every check once and collects
    what each returns, turning a check's error into a result record of its
    own. */
module Executor {
  import opened Wrappers
  import opened Seqs
  import opened Resources
  import opened Checks
  import opened Factory

  /** The record that stands for a check that returned an error. */
  function FailureRecord(id: string, e: Err): CheckResult
  {
    CheckResult("The check failed to run: " + ErrorText(e), id, "", Error, GeneralError)
  }

  /** The records one check contributes, given what its `Execute` returns
      (`run`): a failure record when it erred, then its result when that is
      not nil. */
  function Records(run: CheckKind -> Execution, otherIds: CheckKind -> string): CheckKind -> seq<CheckResult>
  {
    (c: CheckKind) =>
      (if run(c).error.Some? then [FailureRecord(CheckId(otherIds, c), run(c).error.value)] else [])
      + (if run(c).result.Some? then [run(c).result.value] else [])
  }

  function Erred(run: CheckKind -> Execution): CheckKind -> bool
  {
    (c: CheckKind) => run(c).error.Some?
  }

  function Returned(run: CheckKind -> Execution): CheckKind -> bool
  {
    (c: CheckKind) => run(c).result.Some?
  }

  /** `ExecuteChecks`, one check after another. The retried closure never
      fails, so `handleError` is never called and the error returned is
      always nil. */
  method ExecuteChecks(checkCollection: seq<CheckKind>, run: CheckKind -> Execution, otherIds: CheckKind -> string,
                       handleError: (CheckKind, Err) -> Option<Err>)
    returns (checkResults: seq<CheckResult>, err: Option<Err>)
    ensures checkResults == FlatMap(checkCollection, Records(run, otherIds))
    ensures checkCollection == [] ==> checkResults == []
    ensures err == None
  {
    if |checkCollection| == 0 {
      return [], None;
    }
    checkResults := [];
    var i := 0;
    while i < |checkCollection|
      invariant 0 <= i <= |checkCollection|
      invariant checkResults == FlatMap(checkCollection[..i], Records(run, otherIds))
    {
      var c := checkCollection[i];
      FlatMapGo(checkCollection, i, Records(run, otherIds));
      var outcome := run(c);
      if outcome.error.Some? {
        checkResults := checkResults + [FailureRecord(CheckId(otherIds, c), outcome.error.value)];
      }
      if outcome.result.Some? {
        checkResults := checkResults + [outcome.result.value];
      }
      i := i + 1;
    }
    assert checkCollection[..i] == checkCollection;
    return checkResults, None;
  }

  /** `r` is the failure record of `c`, which erred, or the result `c`
      returned. */
  predicate Contributes(run: CheckKind -> Execution, otherIds: CheckKind -> string, c: CheckKind, r: CheckResult)
  {
    (run(c).error.Some? && r == FailureRecord(CheckId(otherIds, c), run(c).error.value)) || run(c).result == Some(r)
  }

  /** A record is collected exactly when it is the failure record of a check
      that erred, or the unchanged result of a check that returned one. */
  lemma CollectedIff(checks: seq<CheckKind>, run: CheckKind -> Execution, otherIds: CheckKind -> string, r: CheckResult)
    ensures r in FlatMap(checks, Records(run, otherIds)) <==>
      exists i :: 0 <= i < |checks| && Contributes(run, otherIds, checks[i], r)
  {
    FlatMapMember(checks, Records(run, otherIds), r);
    forall i | 0 <= i < |checks|
      ensures r in Records(run, otherIds)(checks[i]) <==> Contributes(run, otherIds, checks[i], r)
    {
      RecordsIff(run, otherIds, checks[i], r);
    }
  }

  lemma RecordsIff(run: CheckKind -> Execution, otherIds: CheckKind -> string, c: CheckKind, r: CheckResult)
    ensures r in Records(run, otherIds)(c) <==> Contributes(run, otherIds, c, r)
  {
  }

  /** There is one record per check that erred plus one per check that
      returned a result, so at most two per check. */
  lemma {:induction false} RecordCount(checks: seq<CheckKind>, run: CheckKind -> Execution, otherIds: CheckKind -> string)
    ensures |FlatMap(checks, Records(run, otherIds))| == |Filter(checks, Erred(run))| + |Filter(checks, Returned(run))|
    ensures |FlatMap(checks, Records(run, otherIds))| <= 2 * |checks|
    decreases |checks|
  {
    if checks != [] {
      var n := |checks| - 1;
      RecordCount(checks[..n], run, otherIds);
      FilterLength(checks, Erred(run));
      FilterLength(checks, Returned(run));
    }
  }

  /** The records, counted with their multiplicity, do not depend on the
      order the checks run in. */
  lemma OrderIndependent(checks: seq<CheckKind>, reordered: seq<CheckKind>, run: CheckKind -> Execution,
                         otherIds: CheckKind -> string)
    requires multiset(checks) == multiset(reordered)
    ensures multiset(FlatMap(checks, Records(run, otherIds))) == multiset(FlatMap(reordered, Records(run, otherIds)))
  {
    FlatMapPermutation(checks, reordered, Records(run, otherIds));
  }

  /** A check that returns `nil, nil` (it is switched off) adds nothing. */
  lemma SwitchedOffAddsNothing(run: CheckKind -> Execution, otherIds: CheckKind -> string, c: CheckKind)
    requires run(c) == Nothing
    ensures Records(run, otherIds)(c) == []
  {
  }
}
