/** `OctoLintUnhealthyTargets`: the unhealthy targets that have not reported
    a healthy check in the last 30 days. */
module UnhealthyTargets {
  import opened Wrappers
  import opened Seqs
  import opened Strings
  import opened Resources
  import opened Checks

  const Id: string := "OctoLintUnhealthyTargets"

  /** `maxHealthCheckTime`. */
  const MaxHealthCheckTime: int := 30 * NanosPerDay

  const Header: string := "The following targets have not been healthy in the last 30 days:\n"
  const OkMessage: string := "There are no targets that were unhealthy for all of the last 30 days"

  /** A `MachineHealthy` event less than 30 days before `now`. */
  predicate RecentlyHealthy(now: int, e: Event)
  {
    e.category == "MachineHealthy" && now - e.occurred < MaxHealthCheckTime
  }

  predicate HasRecentHealthyEvent(now: int, events: seq<Event>)
  {
    exists k :: 0 <= k < |events| && RecentlyHealthy(now, events[k])
  }

  /** What one target contributes: only a target whose health status is
      `Unhealthy` has its events fetched, and it is listed when none of them
      is a recent healthy check; a failed event fetch is skipped or ends the
      check. */
  function TargetStep(env: Env, now: int, eventsOf: Machine -> Fetch<seq<Event>>): Machine -> Step<string, Execution>
  {
    (m: Machine) =>
      if m.healthStatus != "Unhealthy" then Emit([])
      else match eventsOf(m)
        case FetchFailed(e) => SkipOrStop(env.handler, e)
        case Fetched(events) => Emit(if HasRecentHealthyEvent(now, events) then [] else [m.name])
  }

  function Verdict(env: Env, now: int, targets: Fetch<seq<Machine>>, eventsOf: Machine -> Fetch<seq<Event>>): Execution
  {
    if !env.hasClient then Failed(NilClient)
    else match targets
      case FetchFailed(e) => env.handler.handleError(Id, Organization, e)
      case Fetched(ms) => Finish(ms, TargetStep(env, now, eventsOf), Id, Organization, Header, OkMessage)
  }

  /** The loop over an unhealthy target's events: whether one of them is a
      healthy check in the last 30 days. */
  method WasEverHealthy(now: int, events: seq<Event>) returns (healthy: bool)
    ensures healthy == HasRecentHealthyEvent(now, events)
  {
    healthy := false;
    var j := 0;
    while j < |events|
      invariant 0 <= j <= |events|
      invariant forall k :: 0 <= k < j ==> !RecentlyHealthy(now, events[k])
    {
      var e := events[j];
      if e.category == "MachineHealthy" && now - e.occurred < MaxHealthCheckTime {
        return true;
      }
      j := j + 1;
    }
  }

  method Execute(env: Env, now: int, targets: Fetch<seq<Machine>>, eventsOf: Machine -> Fetch<seq<Event>>)
    returns (out: Execution)
    ensures out == Verdict(env, now, targets, eventsOf)
  {
    if !env.hasClient {
      return Failed(NilClient);
    }
    if targets.FetchFailed? {
      return env.handler.handleError(Id, Organization, targets.error);
    }
    var ms := targets.value;
    ghost var step := TargetStep(env, now, eventsOf);
    var unhealthyMachines: seq<string> := [];
    var i := 0;
    while i < |ms|
      invariant 0 <= i <= |ms|
      invariant Scan(ms[..i], step) == Done(unhealthyMachines)
    {
      var m := ms[i];
      var wasEverHealthy := true;
      if m.healthStatus == "Unhealthy" {
        var targetEvents := eventsOf(m);
        if targetEvents.FetchFailed? {
          if !env.handler.shouldContinue(targetEvents.error) {
            ScanStop(ms, i, step, unhealthyMachines);
            return Failed(targetEvents.error);
          }
          ScanGo(ms, i, step, unhealthyMachines);
          i := i + 1;
          continue;
        }
        wasEverHealthy := WasEverHealthy(now, targetEvents.value);
      }
      ghost var before := unhealthyMachines;
      if !wasEverHealthy {
        unhealthyMachines := unhealthyMachines + [m.name];
      }
      ScanGo(ms, i, step, before);
      i := i + 1;
    }
    assert ms[..|ms|] == ms;
    out := Summary(Id, Organization, Header, unhealthyMachines, OkMessage);
  }

  /** A target is listed exactly when its status is `Unhealthy`, its events
      were fetched and none of them is a healthy check in the last 30 days;
      a target in any other status is never listed. */
  lemma ListedIff(env: Env, now: int, ms: seq<Machine>, eventsOf: Machine -> Fetch<seq<Event>>,
                  unhealthy: seq<string>, name: string)
    requires Scan(ms, TargetStep(env, now, eventsOf)) == Done(unhealthy)
    ensures name in unhealthy <==>
      exists i :: 0 <= i < |ms| && ms[i].name == name && ms[i].healthStatus == "Unhealthy"
        && eventsOf(ms[i]).Fetched? && !HasRecentHealthyEvent(now, eventsOf(ms[i]).value)
  {
    FinishEntries(ms, TargetStep(env, now, eventsOf), unhealthy, name);
  }

  /** When no event fetch ends the check, it warns exactly when some
      unhealthy target has no recent healthy check. */
  lemma WarningIff(env: Env, now: int, ms: seq<Machine>, eventsOf: Machine -> Fetch<seq<Event>>)
    requires env.hasClient
    requires forall i :: 0 <= i < |ms| && ms[i].healthStatus == "Unhealthy" ==>
      eventsOf(ms[i]).Fetched? || env.handler.shouldContinue(eventsOf(ms[i]).error)
    ensures Verdict(env, now, Fetched(ms), eventsOf).error == None
    ensures Verdict(env, now, Fetched(ms), eventsOf).result.Some?
    ensures Verdict(env, now, Fetched(ms), eventsOf).result.value.severity == Warning <==>
      exists i :: 0 <= i < |ms| && ms[i].healthStatus == "Unhealthy" && eventsOf(ms[i]).Fetched?
        && !HasRecentHealthyEvent(now, eventsOf(ms[i]).value)
  {
    FinishWarningIff(ms, TargetStep(env, now, eventsOf), Id, Organization, Header, OkMessage);
  }

  /** The events of targets that are not unhealthy are never consulted: two
      event sources that agree on the unhealthy targets give the same
      verdict. */
  lemma OnlyUnhealthyTargetsQueried(env: Env, now: int, targets: Fetch<seq<Machine>>,
                                    eventsOf: Machine -> Fetch<seq<Event>>, eventsOf': Machine -> Fetch<seq<Event>>)
    requires forall m: Machine :: m.healthStatus == "Unhealthy" ==> eventsOf(m) == eventsOf'(m)
    ensures Verdict(env, now, targets, eventsOf) == Verdict(env, now, targets, eventsOf')
  {
    if env.hasClient && targets.Fetched? {
      ScanCongruent(targets.value, TargetStep(env, now, eventsOf), TargetStep(env, now, eventsOf'));
    }
  }
}
