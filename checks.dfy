/** The vocabulary every check shares: the result record, the `(result,
    error)` pair a check returns, the injected error handler, the regular
    expression engine, the special variable names, and the summary each
    listing check ends with. */
module Checks {
  import opened Wrappers
  import opened Seqs
  import opened Strings
  import opened Resources

  datatype Severity = Ok | Warning | Error

  datatype Category = Security | Organization | Naming | Performance | GeneralError

  /** `checks.OctopusCheckResult` as built by `NewOctopusCheckResultImpl`. */
  datatype CheckResult = CheckResult(
    description: string,
    id: string,
    link: string,
    severity: Severity,
    category: Category)

  /** What a check's `Execute` returns: a result or nil, and an error or nil. */
  datatype Execution = Execution(result: Option<CheckResult>, error: Option<Err>)

  /** `return nil, nil`: the check is switched off. */
  const Nothing: Execution := Execution(None, None)

  /** `return nil, err`. */
  function Failed(e: Err): Execution
  {
    Execution(None, Some(e))
  }

  /** `return result, nil`. */
  function Reported(r: CheckResult): Execution
  {
    Execution(Some(r), None)
  }

  /** The error every check returns when it was built without a client. */
  const NilClient: Err := OtherError("octoclient is nil")

  /** The `checks.OctopusClientErrorHandler` given to every check. Its
      implementation is not part of the model: `shouldContinue` decides
      whether a failed API call is skipped, and `handleError` turns a failed
      top-level fetch into the check's outcome. */
  datatype ErrorHandler = ErrorHandler(
    shouldContinue: Err -> bool,
    handleError: (string, Category, Err) -> Execution)

  /** Go's `regexp`: whether a pattern compiles and whether a compiled
      pattern matches a string. Both are left uninterpreted. */
  datatype Regex = Regex(compiles: string -> bool, matches: (string, string) -> bool)

  /** What a check is built with besides its configuration: whether it has a
      client, its error handler and the regular expression engine. */
  datatype Env = Env(hasClient: bool, handler: ErrorHandler, regex: Regex)

  /** A failed per-item API call inside a check's loop: skipped when the
      handler says to continue, otherwise the check returns `(nil, err)`. */
  function SkipOrStop<U>(h: ErrorHandler, e: Err): (r: Step<U, Execution>)
    ensures r.Emit? <==> h.shouldContinue(e)
    ensures r.Emit? ==> r.items == []
    ensures r.Exit? ==> r.outcome == Failed(e)
  {
    if h.shouldContinue(e) then Emit([]) else Exit(Failed(e))
  }

  /** The result a regular-expression check gives for a pattern that does not
      compile; `quoted` is the pattern its message names. */
  function BadRegex(id: string, quoted: string): (r: Execution)
    ensures r.error == None && r.result.Some?
    ensures r.result.value.severity == Error && r.result.value.category == Naming
    ensures r.result.value.id == id
  {
    Reported(CheckResult("The supplied regex " + quoted + " does not compile", id, "", Error, Naming))
  }

  /** The result every listing check ends with: a Warning listing `entries`
      one per line after `header`, or an Ok with `okMessage` when there are
      no entries. */
  function Summary(id: string, category: Category, header: string, entries: seq<string>, okMessage: string): (r: Execution)
    ensures r.error == None && r.result.Some?
    ensures r.result.value.id == id && r.result.value.category == category && r.result.value.link == ""
    ensures r.result.value.severity == Warning <==> entries != []
    ensures r.result.value.severity == Ok <==> entries == []
    ensures entries != [] ==> r.result.value.description == header + Join(entries, "\n")
    ensures entries == [] ==> r.result.value.description == okMessage
  {
    if |entries| > 0 then Reported(CheckResult(header + Join(entries, "\n"), id, "", Warning, category))
    else Reported(CheckResult(okMessage, id, "", Ok, category))
  }

  /** The end of a listing check that walks `items` with `step`: the value
      a step stopped the walk with, or the summary of all the entries. */
  function Finish<T>(items: seq<T>, step: T -> Step<string, Execution>, id: string, category: Category,
                     header: string, okMessage: string): Execution
  {
    match Scan(items, step)
    case Exited(x) => x
    case Done(entries) => Summary(id, category, header, entries, okMessage)
  }

  /** When no item stops the walk, a listing check warns exactly when some
      item contributes an entry, and its entries are those of the items in
      order. */
  lemma FinishWarningIff<T>(items: seq<T>, step: T -> Step<string, Execution>, id: string, category: Category,
                            header: string, okMessage: string)
    requires NoExit(items, step)
    ensures Scan(items, step) == Done(FlatMap(items, Emitted(step)))
    ensures Finish(items, step, id, category, header, okMessage).error == None
    ensures Finish(items, step, id, category, header, okMessage).result.Some?
    ensures Finish(items, step, id, category, header, okMessage).result.value.severity == Warning <==>
      exists i :: 0 <= i < |items| && step(items[i]).items != []
  {
    ScanDone(items, step);
    FlatMapEmpty(items, Emitted(step));
  }

  /** The entries of a listing check that no item stopped are exactly the
      entries of its items. */
  lemma FinishEntries<T>(items: seq<T>, step: T -> Step<string, Execution>, entries: seq<string>, e: string)
    requires Scan(items, step) == Done(entries)
    ensures e in entries <==> exists i :: 0 <= i < |items| && step(items[i]).Emit? && e in step(items[i]).items
  {
    ScanDone(items, step);
    FlatMapMember(items, Emitted(step), e);
  }

  /** A listing check stops with the value of the first item that stops its
      walk. */
  lemma FinishStops<T>(items: seq<T>, step: T -> Step<string, Execution>, id: string, category: Category,
                       header: string, okMessage: string, i: int)
    requires 0 <= i < |items| && step(items[i]).Exit? && NoExit(items[..i], step)
    ensures Finish(items, step, id, category, header, okMessage) == step(items[i]).outcome
  {
    ScanExited(items, step, step(items[i]).outcome);
  }

  /** A listing check whose items each contribute `f` of themselves, with
      no per-item API call, warns exactly when some item contributes. */
  lemma ListingWarningIff<T>(items: seq<T>, f: T -> seq<string>, id: string, category: Category,
                             header: string, okMessage: string)
    ensures Summary(id, category, header, FlatMap(items, f), okMessage).result.value.severity == Warning <==>
      exists i :: 0 <= i < |items| && f(items[i]) != []
  {
    FlatMapEmpty(items, f);
  }

  // ---------------------------------------------------------------- special variables

  /** `checks.SpecialVars`: debug and system variables that a project does
      not declare itself. */
  const SpecialVars: seq<string> := ["OctopusPrintVariables", "OctopusPrintEvaluatedVariables"]

  lemma ContainsChar(s: string, c: char)
    ensures Contains(s, [c]) <==> c in s
  {
    if c in s {
      var i :| 0 <= i < |s| && s[i] == c;
      assert s[i..i + 1] == [c];
      assert OccursAt(s, [c], i);
    }
    if Contains(s, [c]) {
      var i := Index(s, [c]);
      assert s[i..i + 1][0] == s[i];
    }
  }

  /** `checks.IgnoreVariable`: a variable name is ignored exactly when it is
      one of the two special variables (compared case-sensitively), or looks
      like a JSON substitution (holds ':') or a group (holds '['). */
  predicate IgnoreVariable(name: string): (r: bool)
    ensures r <==>
      name == "OctopusPrintVariables" || name == "OctopusPrintEvaluatedVariables" || ':' in name || '[' in name
  {
    ContainsChar(name, ':');
    ContainsChar(name, '[');
    if IndexOf(SpecialVars, name) != -1 then true
    else if Contains(name, ":") then true
    else if Contains(name, "[") then true
    else false
  }

  /** `naiveVariableSetVariableScan` (the unused-targets and the
      invalid-variable-name checks each carry a copy): whether the value of
      some variable of the set holds the variable's name. */
  predicate VariableSetScan(variables: seq<Variable>, variable: Variable)
  {
    variables != [] && (Contains(variables[0].value, variable.name) || VariableSetScan(variables[1..], variable))
  }

  lemma {:induction false} VariableSetScanIff(variables: seq<Variable>, variable: Variable)
    ensures VariableSetScan(variables, variable) <==>
      exists i :: 0 <= i < |variables| && Contains(variables[i].value, variable.name)
  {
    if variables != [] {
      VariableSetScanIff(variables[1..], variable);
      if exists i :: 0 <= i < |variables| && Contains(variables[i].value, variable.name) {
        var i :| 0 <= i < |variables| && Contains(variables[i].value, variable.name);
        if i > 0 {
          assert variables[1..][i - 1] == variables[i];
        }
      }
    }
  }

  // ---------------------------------------------------------------- deployment processes

  /** Some property value of an action holds `name`. */
  predicate PropertiesMention(properties: map<string, string>, name: string)
  {
    exists k :: k in properties && Contains(properties[k], name)
  }

  /** A failed fetch whose API error says 404 Not Found. */
  predicate NotFound(e: Err)
  {
    e.ApiError? && e.statusCode == 404
  }

  /** `stepsInDeploymentProcess` of the naming checks (each of them carries
      its own copy): the deployment process with id `id`, or nil when the
      project has none (an empty id, or a 404 from the server); any other
      failure is returned. */
  function ProcessOrNil(id: string, processes: string -> Fetch<DeploymentProcess>): (r: Fetch<Option<DeploymentProcess>>)
    ensures id == "" ==> r == Fetched(None)
    ensures r.FetchFailed? <==> id != "" && processes(id).FetchFailed? && !NotFound(processes(id).error)
    ensures r.FetchFailed? ==> r.error == processes(id).error
    ensures r == Fetched(None) <==> id == "" || (processes(id).FetchFailed? && NotFound(processes(id).error))
    ensures r.Fetched? && r.value.Some? ==> processes(id) == Fetched(r.value.value)
  {
    if id == "" then Fetched(None)
    else match processes(id)
      case FetchFailed(e) => if NotFound(e) then Fetched(None) else FetchFailed(e)
      case Fetched(p) => Fetched(Some(p))
  }
}
