/** `OctoLintUnrotatedAccounts`: the accounts nobody has modified in the
    last 90 days. */
module UnrotatedAccounts {
  import opened Wrappers
  import opened Seqs
  import opened Resources
  import opened Checks

  const Id: string := "OctoLintUnrotatedAccounts"

  const Header: string := "The following accounts have not been updated in 90 days:\n"
  const OkMessage: string := "There are no unedited accounts"

  /** OIDC accounts hold no secret to rotate. */
  predicate IsOidc(a: Account)
  {
    a.accountType == "AmazonWebServicesOidcAccount" || a.accountType == "AzureOidc"
  }

  /** An audit record of a modification of the account. */
  predicate ModifiedBy(a: Account, t: Audit)
  {
    t.category == "Modified" && a.id in t.relatedDocumentIds
  }

  predicate RecentEdit(a: Account, audits: seq<Audit>)
  {
    exists k :: 0 <= k < |audits| && ModifiedBy(a, audits[k])
  }

  /** What one account contributes: its name when none of the audit records
      of the window modified it; OIDC accounts contribute nothing, and a
      failed audit fetch is skipped or ends the check. */
  function AccountStep(env: Env, auditsOf: Account -> Fetch<seq<Audit>>): Account -> Step<string, Execution>
  {
    (a: Account) =>
      if IsOidc(a) then Emit([])
      else match auditsOf(a)
        case FetchFailed(e) => SkipOrStop(env.handler, e)
        case Fetched(audits) => Emit(if RecentEdit(a, audits) then [] else [a.name])
  }

  /** The outcome of the check; `auditsOf` gives the events that concern
      an account in the `maxTimeSinceAccountEdit` window, the 90 days before
      the check runs. */
  function Verdict(env: Env, accounts: Fetch<seq<Account>>, auditsOf: Account -> Fetch<seq<Audit>>): Execution
  {
    if !env.hasClient then Failed(NilClient)
    else match accounts
      case FetchFailed(e) => env.handler.handleError(Id, Security, e)
      case Fetched(as_) => Finish(as_, AccountStep(env, auditsOf), Id, Security, Header, OkMessage)
  }

  /** The loop over an account's audit records: whether one of them
      modified it. */
  method WasModified(m: Account, audits: seq<Audit>) returns (recentEdit: bool)
    ensures recentEdit == RecentEdit(m, audits)
  {
    recentEdit := false;
    var j := 0;
    while j < |audits|
      invariant 0 <= j <= |audits|
      invariant recentEdit <==> exists k :: 0 <= k < j && ModifiedBy(m, audits[k])
    {
      var t := audits[j];
      if t.category == "Modified" && IndexOf(t.relatedDocumentIds, m.id) != -1 {
        recentEdit := true;
      }
      j := j + 1;
    }
  }

  method Execute(env: Env, accounts: Fetch<seq<Account>>, auditsOf: Account -> Fetch<seq<Audit>>) returns (out: Execution)
    ensures out == Verdict(env, accounts, auditsOf)
  {
    if !env.hasClient {
      return Failed(NilClient);
    }
    if accounts.FetchFailed? {
      return env.handler.handleError(Id, Security, accounts.error);
    }
    var allAccounts := accounts.value;
    ghost var step := AccountStep(env, auditsOf);
    var uneditedAccounts: seq<string> := [];
    var i := 0;
    while i < |allAccounts|
      invariant 0 <= i <= |allAccounts|
      invariant Scan(allAccounts[..i], step) == Done(uneditedAccounts)
    {
      var m := allAccounts[i];
      if m.accountType == "AmazonWebServicesOidcAccount" || m.accountType == "AzureOidc" {
        ScanGo(allAccounts, i, step, uneditedAccounts);
        i := i + 1;
        continue;
      }
      var audits := auditsOf(m);
      if audits.FetchFailed? {
        if !env.handler.shouldContinue(audits.error) {
          ScanStop(allAccounts, i, step, uneditedAccounts);
          return Failed(audits.error);
        }
        ScanGo(allAccounts, i, step, uneditedAccounts);
        i := i + 1;
        continue;
      }
      var recentEdit := WasModified(m, audits.value);
      ghost var before := uneditedAccounts;
      if !recentEdit {
        uneditedAccounts := uneditedAccounts + [m.name];
      }
      ScanGo(allAccounts, i, step, before);
      i := i + 1;
    }
    assert allAccounts[..|allAccounts|] == allAccounts;
    out := Summary(Id, Security, Header, uneditedAccounts, OkMessage);
  }

  /** A non-OIDC account whose audit records were fetched and none of which
      modified it. */
  predicate Unrotated(auditsOf: Account -> Fetch<seq<Audit>>, a: Account)
  {
    !IsOidc(a) && auditsOf(a).Fetched? && !RecentEdit(a, auditsOf(a).value)
  }

  lemma StepEntries(env: Env, auditsOf: Account -> Fetch<seq<Audit>>, a: Account, name: string)
    ensures (AccountStep(env, auditsOf)(a).Emit? && name in AccountStep(env, auditsOf)(a).items)
      <==> a.name == name && Unrotated(auditsOf, a)
  {
    if !IsOidc(a) && auditsOf(a).FetchFailed? {
      assert AccountStep(env, auditsOf)(a) == SkipOrStop(env.handler, auditsOf(a).error);
    }
  }

  /** An account is listed exactly when it is not an OIDC account, its
      audit records were fetched and none of them modified it. */
  lemma ListedIff(env: Env, as_: seq<Account>, auditsOf: Account -> Fetch<seq<Audit>>, listed: seq<string>, name: string)
    requires Scan(as_, AccountStep(env, auditsOf)) == Done(listed)
    ensures name in listed <==>
      exists i :: 0 <= i < |as_| && as_[i].name == name && Unrotated(auditsOf, as_[i])
  {
    FinishEntries(as_, AccountStep(env, auditsOf), listed, name);
    forall i | 0 <= i < |as_|
      ensures (AccountStep(env, auditsOf)(as_[i]).Emit? && name in AccountStep(env, auditsOf)(as_[i]).items)
        <==> as_[i].name == name && Unrotated(auditsOf, as_[i])
    {
      StepEntries(env, auditsOf, as_[i], name);
    }
  }

  /** When no audit fetch ends the check, it warns exactly when some
      non-OIDC account was not modified in the window. */
  lemma WarningIff(env: Env, as_: seq<Account>, auditsOf: Account -> Fetch<seq<Audit>>)
    requires env.hasClient
    requires forall i :: 0 <= i < |as_| && !IsOidc(as_[i]) ==>
      auditsOf(as_[i]).Fetched? || env.handler.shouldContinue(auditsOf(as_[i]).error)
    ensures Verdict(env, Fetched(as_), auditsOf).error == None && Verdict(env, Fetched(as_), auditsOf).result.Some?
    ensures Verdict(env, Fetched(as_), auditsOf).result.value.severity == Warning <==>
      exists i :: 0 <= i < |as_| && !IsOidc(as_[i]) && auditsOf(as_[i]).Fetched?
        && !RecentEdit(as_[i], auditsOf(as_[i]).value)
  {
    FinishWarningIff(as_, AccountStep(env, auditsOf), Id, Security, Header, OkMessage);
  }
}
