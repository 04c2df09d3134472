/** `OctoLintPerpetualApiKeys`: the API keys that never expire. */
module PerpetualApiKeys {
  import opened Wrappers
  import opened Seqs
  import opened Resources
  import opened Checks

  const Id: string := "OctoLintPerpetualApiKeys"

  const Header: string := "The following API keys do not expire:\n"
  const OkMessage: string := "No perpetual API keys found"

  /** A key without an expiry that shows a hint, of a user other than the
      guest. */
  predicate Perpetual(u: User, k: ApiKey)
  {
    k.expires.None? && k.hint.Some? && u.username != "guest"
  }

  function KeyEntry(u: User): ApiKey -> seq<string>
  {
    (k: ApiKey) => if k.expires.None? && k.hint.Some? && u.username != "guest" then [k.hint.value + "... (" + u.username + ")"] else []
  }

  /** What one user contributes: an entry per perpetual key, in key order;
      a failed key fetch is skipped or ends the check. */
  function UserStep(env: Env, keysOf: User -> Fetch<seq<ApiKey>>): User -> Step<string, Execution>
  {
    (u: User) => match keysOf(u)
      case FetchFailed(e) => SkipOrStop(env.handler, e)
      case Fetched(keys) => Emit(FlatMap(keys, KeyEntry(u)))
  }

  function Verdict(env: Env, users: Fetch<seq<User>>, keysOf: User -> Fetch<seq<ApiKey>>): Execution
  {
    if !env.hasClient then Failed(NilClient)
    else match users
      case FetchFailed(e) => env.handler.handleError(Id, Security, e)
      case Fetched(us) => Finish(us, UserStep(env, keysOf), Id, Security, Header, OkMessage)
  }

  /** The loop over one user's keys: their entries, appended to `acc`. */
  method AppendKeys(u: User, keys: seq<ApiKey>, acc: seq<string>) returns (r: seq<string>)
    ensures r == acc + FlatMap(keys, KeyEntry(u))
  {
    r := acc;
    var j := 0;
    while j < |keys|
      invariant 0 <= j <= |keys|
      invariant r == acc + FlatMap(keys[..j], KeyEntry(u))
    {
      var k := keys[j];
      FlatMapAccGo(acc, keys, j, KeyEntry(u));
      ghost var before := r;
      if k.expires.None? && k.hint.Some? && u.username != "guest" {
        r := r + [k.hint.value + "... (" + u.username + ")"];
      }
      assert r == before + KeyEntry(u)(k);
      j := j + 1;
    }
    assert keys[..j] == keys;
  }

  method Execute(env: Env, users: Fetch<seq<User>>, keysOf: User -> Fetch<seq<ApiKey>>) returns (out: Execution)
    ensures out == Verdict(env, users, keysOf)
  {
    if !env.hasClient {
      return Failed(NilClient);
    }
    if users.FetchFailed? {
      return env.handler.handleError(Id, Security, users.error);
    }
    var us := users.value;
    ghost var step := UserStep(env, keysOf);
    var perpetualApiKeys: seq<string> := [];
    var i := 0;
    while i < |us|
      invariant 0 <= i <= |us|
      invariant Scan(us[..i], step) == Done(perpetualApiKeys)
    {
      var u := us[i];
      var keys := keysOf(u);
      if keys.FetchFailed? {
        if !env.handler.shouldContinue(keys.error) {
          ScanStop(us, i, step, perpetualApiKeys);
          return Failed(keys.error);
        }
        ScanGo(us, i, step, perpetualApiKeys);
        i := i + 1;
        continue;
      }
      ghost var before := perpetualApiKeys;
      perpetualApiKeys := AppendKeys(u, keys.value, perpetualApiKeys);
      ScanGo(us, i, step, before);
      i := i + 1;
    }
    assert us[..|us|] == us;
    out := Summary(Id, Security, Header, perpetualApiKeys, OkMessage);
  }

  /** An entry is listed exactly when it is the hint of a perpetual key of a
      user whose keys were fetched, followed by "... (" and the username. */
  lemma ListedIff(env: Env, us: seq<User>, keysOf: User -> Fetch<seq<ApiKey>>, listed: seq<string>, e: string)
    requires Scan(us, UserStep(env, keysOf)) == Done(listed)
    ensures e in listed <==>
      exists i, j :: 0 <= i < |us| && keysOf(us[i]).Fetched? && 0 <= j < |keysOf(us[i]).value|
        && Perpetual(us[i], keysOf(us[i]).value[j])
        && e == keysOf(us[i]).value[j].hint.value + "... (" + us[i].username + ")"
  {
    var step := UserStep(env, keysOf);
    FinishEntries(us, step, listed, e);
    forall i | 0 <= i < |us| && keysOf(us[i]).Fetched?
      ensures e in step(us[i]).items <==>
        exists j :: 0 <= j < |keysOf(us[i]).value| && Perpetual(us[i], keysOf(us[i]).value[j])
          && e == keysOf(us[i]).value[j].hint.value + "... (" + us[i].username + ")"
    {
      FlatMapMember(keysOf(us[i]).value, KeyEntry(us[i]), e);
    }
  }

  /** The guest user's keys are never reported. */
  lemma GuestNeverReported(u: User, keys: seq<ApiKey>)
    requires u.username == "guest"
    ensures FlatMap(keys, KeyEntry(u)) == []
  {
    FlatMapEmpty(keys, KeyEntry(u));
  }

  /** When no key fetch ends the check, it warns exactly when some user has
      a perpetual key. */
  lemma WarningIff(env: Env, us: seq<User>, keysOf: User -> Fetch<seq<ApiKey>>)
    requires env.hasClient
    requires forall i :: 0 <= i < |us| ==> keysOf(us[i]).Fetched? || env.handler.shouldContinue(keysOf(us[i]).error)
    ensures Verdict(env, Fetched(us), keysOf).error == None && Verdict(env, Fetched(us), keysOf).result.Some?
    ensures Verdict(env, Fetched(us), keysOf).result.value.severity == Warning <==>
      exists i, j :: 0 <= i < |us| && keysOf(us[i]).Fetched? && 0 <= j < |keysOf(us[i]).value|
        && Perpetual(us[i], keysOf(us[i]).value[j])
  {
    var step := UserStep(env, keysOf);
    FinishWarningIff(us, step, Id, Security, Header, OkMessage);
    forall i | 0 <= i < |us| && keysOf(us[i]).Fetched?
      ensures step(us[i]).items != [] <==>
        exists j :: 0 <= j < |keysOf(us[i]).value| && Perpetual(us[i], keysOf(us[i]).value[j])
    {
      FlatMapEmpty(keysOf(us[i]).value, KeyEntry(us[i]));
    }
  }
}
