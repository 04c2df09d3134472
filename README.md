# octolint check engine in Dafny

octolint lints an Octopus Deploy space. It has three parts:

- A **check factory** builds the 29 checks in a fixed order. It drops every check whose id appears in the comma-separated `SkipTests` setting.
- A **check executor** runs the checks and collects their results.
- Each **check** reads the space through the Octopus client and reports one `OctopusCheckResult`. A result has a description, a severity (`Ok`, `Warning` or `Error`) and a group. A check that cannot reach a verdict returns an error instead, or hands it to the error handler.

This project models the factory, the executor, the shared helpers and 23 of the checks:

- the organization checks: unused targets, unused projects, too many steps, unhealthy targets, empty projects, duplicated variables, tenants used instead of tags;
- the naming checks: invalid variable, worker pool, container image, release template, target role, target and lifecycle names, and default step names;
- the security checks: reused git credentials, deployments queued by admins, unrotated accounts, perpetual API keys, insecure feeds, insecure Kubernetes targets and insecure subscriptions;
- the performance check on deployment queue time.

How the model is built:

- Each check has a `Verdict` function, its specification. Verdict takes the API responses the check would fetch as inputs (`Fetch<T>` is either the value or the error), together with an `Env` that holds:
  - whether a client is present;
  - the configured error handler (`ShouldContinue`/`HandleError`);
  - the regular-expression engine.
- Each check's `Execute` method has the source's loops and early returns and is proved to return exactly `Verdict`.
- The lemmas beside each check state what the check reports:
  - which items are listed, and in what order;
  - when it warns;
  - which errors end it early.

Shared modules:

- `Seqs`: the list combinators the specifications are written with (flat map, a scan that stops at the first exit, filter, de-duplication) and their lemmas.
- `Strings`: the few Go library string functions the checks use: `strings.Index`, `TrimSpace`, `Split`, `Join`, `ToLower`, `strconv.Atoi` and `slices.Sort`.
- `Resources`: the Octopus resources the checks read.
- `Checks`: the result types, the error handler, the special-variable filter and the summary every check ends with.
- `ProcessScan`: the walk over project deployment processes that several naming checks share.

## Model

| member | source | states |
|---|---|---|
| Factory.BuildAllChecks | internal/checks/factory/octopus_check_factory.go:29-69 | the error returned with the checks is always nil |
| Factory.BuiltIff | internal/checks/factory/octopus_check_factory.go:30-68 | a check is built exactly when no comma-separated piece of `SkipTests`, once trimmed, equals its id; the match is exact and case-sensitive |
| Factory.KeptIff | internal/checks/factory/octopus_check_factory.go:66-68 | the filter keeps a check exactly when its id is not in the skip list, so every built check's id differs from every skip entry and every check not skipped is built |
| Factory.SkippedIff | internal/checks/factory/octopus_check_factory.go:30-32 | an id is in the skip list exactly when some piece of `SkipTests` names it after trimming |
| Factory.TrimmedMember | internal/checks/factory/octopus_check_factory.go:30-32 | an id is among the trimmed pieces exactly when some piece trims to it |
| Factory.EveryKindListed | internal/checks/factory/octopus_check_factory.go:34-64 | the construction list holds every kind of check |
| Factory.BuiltInOrder | internal/checks/factory/octopus_check_factory.go:34-68 | the construction list has 29 checks and the built checks are an order-preserving subsequence of it |
| Factory.EmptySkipKeepsAll | internal/checks/factory/octopus_check_factory.go:30-68 | an empty `SkipTests` splits to one empty piece, so (no id being empty) every check is built, in order |
| Factory.SkipIdempotent | internal/checks/factory/octopus_check_factory.go:66-68 | filtering the built checks with the same skip list again removes nothing |
| Factory.ModelledIdsNamed | internal/checks/factory/octopus_check_factory.go:34-64 | every id the model defines starts with "OctoLint" and is longer than that prefix, so none equals an empty skip piece |
| Executor.ExecuteChecks | internal/executor/octopus_check_executor.go:22-73 | the records collected are, check by check, a failure record when the check erred followed by its result when it returned one; an empty collection gives no records; the error returned is always nil, because the retried closure never fails and `handleError` is never reached |
| Executor.CollectedIff | internal/executor/octopus_check_executor.go:37-52 | a record is collected exactly when it is the failure record (the check's id, "The check failed to run: " and the error, severity Error, category GeneralError) of a check that erred, or the unchanged result of a check that returned one |
| Executor.RecordsIff | internal/executor/octopus_check_executor.go:39-52 | the same for a single check |
| Executor.RecordCount | internal/executor/octopus_check_executor.go:37-52 | the number of records is the number of checks that erred plus the number that returned a result, at most twice the number of checks |
| Executor.OrderIndependent | internal/executor/octopus_check_executor.go:32-66 | the multiset of records does not depend on the order in which the checks run |
| Executor.SwitchedOffAddsNothing | internal/executor/octopus_check_executor.go:50-52 | a check that returns `(nil, nil)` contributes no record |
| Checks.IgnoreVariable | internal/checks/special_variables.go:9-31 | a variable name is ignored exactly when it is one of the two special names (compared case-sensitively) or holds ':' or '[' |
| Checks.ContainsChar | internal/checks/special_variables.go:21-28 | a one-character substring search succeeds exactly when the character occurs |
| Checks.SkipOrStop | internal/checks/organization/octopus_project_too_many_steps_check.go:56-61 | a failed per-item call is skipped with no entries exactly when the handler says to continue, and otherwise ends the check with `(nil, err)` |
| Checks.BadRegex | internal/checks/naming/octopus_invalid_target_name.go:51-60 | a pattern that does not compile yields a result with nil error, severity Error, category Naming and the check's id |
| Checks.Summary | internal/checks/naming/octopus_invalid_target_name.go:77-91 | the closing result of a listing check: severity Warning exactly when there are entries (header plus the entries joined by newlines), Ok with the fixed message otherwise; error nil, empty link, the check's id and category |
| Checks.FinishWarningIff | internal/checks/organization/octopus_unused_targets_check.go:58-99 | when no item ends the walk, the entries are those of the items in order, and the check warns exactly when some item contributes one |
| Checks.FinishEntries | internal/checks/organization/octopus_unused_targets_check.go:58-84 | a walk that finished lists an entry exactly when some item contributes it |
| Checks.FinishStops | internal/checks/organization/octopus_unused_projects_check.go:59-69 | the first item whose per-item call ends the walk decides the check's outcome |
| Checks.ListingWarningIff | internal/checks/security/octopus_insecure_subscriptions_check.go:49-72 | a listing check with no per-item call warns exactly when some item contributes an entry |
| Checks.VariableSetScanIff | internal/checks/organization/octopus_unused_targets_check.go:121-129 | `naiveVariableSetVariableScan` holds exactly when the value of some variable contains the variable's name |
| Checks.ProcessOrNil | internal/checks/naming/octopus_project_uses_invalid_worker_pool.go:147-163 | the process of a project: nil for an empty id or a 404, the fetched process otherwise, and every other failure is passed on unchanged |
| ProcessScan.StepOf | internal/checks/naming/octopus_project_uses_invalid_container_image.go:69-91 | what one project contributes: a failed process fetch is skipped or ends the check, no process contributes nothing, and otherwise the entries of its actions, step by step |
| ProcessScan.StepsOf | internal/checks/naming/octopus_project_uses_invalid_container_image.go:113-129 | a project without a process has no steps, and a fetched process gives its steps |
| ProcessScan.StepsMember | internal/checks/naming/octopus_project_uses_invalid_container_image.go:83-92 | an entry comes from the steps exactly when some action of some step contributes it |
| ProcessScan.StepsEmpty | internal/checks/naming/octopus_project_uses_invalid_container_image.go:83-92 | the steps contribute nothing exactly when no action does |
| ProcessScan.ListedIff | internal/checks/naming/octopus_project_uses_invalid_container_image.go:65-94 | a finished walk lists an entry exactly when some action of some project contributes it |
| ProcessScan.WarningIff | internal/checks/naming/octopus_project_uses_invalid_container_image.go:65-110 | when no process fetch ends the check, it finishes with nil error and warns exactly when some action contributes an entry |
| DuplicatedVariables.ShouldIgnoreVariable | internal/checks/organization/octopus_duplicated_variables_check.go:131-141 | a variable is left out of the comparison exactly when its value is empty, its type is not "String", its name is one of the special variables, its value spells "true", "false", "yes" or "no" in any ASCII case, or `strconv.Atoi` accepts its value |
| DuplicatedVariables.NumbersIgnored | internal/checks/organization/octopus_duplicated_variables_check.go:131-141 | every value that is a 64-bit integer written in decimal is ignored, because `strconv.Atoi` accepts it |
| DuplicatedVariables.Limit | internal/checks/organization/octopus_duplicated_variables_check.go:60-63 | the first phase reads at most as many projects as there are |
| DuplicatedVariables.Pad | internal/checks/organization/octopus_duplicated_variables_check.go:84-95 | the projects past the limit have no variables in the second phase, and those read keep their position |
| DuplicatedVariables.VariableSetsRead | internal/checks/organization/octopus_duplicated_variables_check.go:60-77 | after the first phase each project read has its own variables, or none when its read failed and the handler said to continue |
| DuplicatedVariables.CandidatesOf | internal/checks/organization/octopus_duplicated_variables_check.go:84 | the visits of one project's variables are its variables, in order, tagged with its index |
| DuplicatedVariables.CapFoldSnoc | internal/checks/organization/octopus_duplicated_variables_check.go:84-106 | one more visit adds nothing once the cap is reached and otherwise all the duplicates of the variable visited |
| DuplicatedVariables.CapFoldSaturated | internal/checks/organization/octopus_duplicated_variables_check.go:85-87 | once the cap is reached, no later visit changes the duplicates collected |
| DuplicatedVariables.CapFoldPrefix | internal/checks/organization/octopus_duplicated_variables_check.go:85-87 | the capped collection is a prefix of the uncapped one, equal to it with no cap, and shorter only when the cap was reached |
| DuplicatedVariables.CandidatesOfMember | internal/checks/organization/octopus_duplicated_variables_check.go:84 | a visit belongs to one project exactly when it carries that index and one of its variables |
| DuplicatedVariables.CandidatesMember | internal/checks/organization/octopus_duplicated_variables_check.go:82-84 | the outer loops visit exactly the variables of the projects, each with its project's index |
| DuplicatedVariables.MatchesMember | internal/checks/organization/octopus_duplicated_variables_check.go:95-103 | the innermost loop pairs `variable1` with exactly the variables of the project that have its value |
| DuplicatedVariables.PairsBelowMember | internal/checks/organization/octopus_duplicated_variables_check.go:93-105 | the two inner loops pair `variable1` with exactly the same-valued variables of the projects strictly after its own |
| DuplicatedVariables.DuplicateMember | internal/checks/organization/octopus_duplicated_variables_check.go:82-107 | with no cap, a pair is collected exactly when the first variable is not ignored, the second belongs to a later project (so never the same one) and both have the same value; the second variable is not filtered |
| DuplicatedVariables.CandidatesPrefix | internal/checks/organization/octopus_duplicated_variables_check.go:82-84 | the visits of the first projects come first among all the visits |
| DuplicatedVariables.LaterDuplicates | internal/checks/organization/octopus_duplicated_variables_check.go:93-105 | the two inner loops collect exactly the duplicates of `variable1` in the later projects |
| DuplicatedVariables.ReadVariableSets | internal/checks/organization/octopus_duplicated_variables_check.go:59-77 | the first phase reads the projects up to the limit, skipping or stopping on a failed read as the handler says |
| DuplicatedVariables.CollectDuplicates | internal/checks/organization/octopus_duplicated_variables_check.go:79-107 | the second phase collects the capped duplicates of all the visits, the cap being checked only before each `variable1` |
| DuplicatedVariables.CollectFromProject | internal/checks/organization/octopus_duplicated_variables_check.go:84-106 | the middle loop extends the capped collection by one project's variables, or breaks out of both loops with the final collection once the cap is reached |
| DuplicatedVariables.NextCandidate | internal/checks/organization/octopus_duplicated_variables_check.go:84-91 | visiting one more variable of the middle loop is a step of the capped collection |
| DuplicatedVariables.NextProject | internal/checks/organization/octopus_duplicated_variables_check.go:82-84 | the visits up to the end of one project are those of the projects up to and including it |
| DuplicatedVariables.CapReached | internal/checks/organization/octopus_duplicated_variables_check.go:85-87 | breaking out of both loops when the cap is reached gives the same result as visiting every variable |
| DuplicatedVariables.Messages | internal/checks/organization/octopus_duplicated_variables_check.go:110-113 | one line `project1/variable1 == project2/variable2` per duplicate, in order |
| DuplicatedVariables.Execute | internal/checks/organization/octopus_duplicated_variables_check.go:42-129 | the check's outcome: a nil client, a failed project fetch, a stopping variable read, or the summary of the capped duplicates |
| DuplicatedVariables.ReportedIff | internal/checks/organization/octopus_duplicated_variables_check.go:60-107 | with no cap, a pair is reported exactly when both variables were read, the first is not ignored, the second is in a later project within the project limit and the values are equal; projects at or past the limit and projects whose read was skipped contribute nothing |
| DuplicatedVariables.CappedIsPrefix | internal/checks/organization/octopus_duplicated_variables_check.go:85-87 | with a cap the pairs reported are the first ones of the uncapped report, and fewer only when at least the cap was collected (the last `variable1` may take the list past the cap) |
| DuplicatedVariables.WarningIff | internal/checks/organization/octopus_duplicated_variables_check.go:109-128 | once the variables are read, the check warns exactly when a pair was collected, with one line per pair; category Organization |
| TenantsInsteadOfTags.KeyPermutationInvariant | internal/checks/organization/octopus_tenants_instead_of_tags_check.go:147-148 | any two orderings of the same tenant IDs give the same group key |
| TenantsInsteadOfTags.SplitKey | internal/checks/organization/octopus_tenants_instead_of_tags_check.go:108-148 | when no ID holds a comma, splitting a group key gives back its IDs, sorted |
| TenantsInsteadOfTags.TenantReferences.constructor | internal/checks/organization/octopus_tenants_instead_of_tags_check.go:69-70 | both maps start empty and consistent |
| TenantsInsteadOfTags.TenantReferences.AddTenants | internal/checks/organization/octopus_tenants_instead_of_tags_check.go:142-159 | fewer than two IDs change nothing; otherwise the caller's IDs are sorted in place, the group's count goes up by exactly one, the source is appended to its sources, no other group changes, and every count stays equal to the number of its sources |
| TenantsInsteadOfTags.TenantReferences.Bump | internal/checks/organization/octopus_tenants_instead_of_tags_check.go:150-158 | one group is counted once more and gains one source; the maps stay consistent |
| TenantsInsteadOfTags.BumpConsistent | internal/checks/organization/octopus_tenants_instead_of_tags_check.go:150-158 | counting a group once more while appending one source keeps `counts[k] == len(sources[k])` for every key |
| TenantsInsteadOfTags.SortIds | internal/checks/organization/octopus_tenants_instead_of_tags_check.go:147 | the IDs are sorted in place |
| TenantsInsteadOfTags.TallyFromAppend | internal/checks/organization/octopus_tenants_instead_of_tags_check.go:71-93 | recording two runs of references is recording one after the other |
| TenantsInsteadOfTags.TallyKeys | internal/checks/organization/octopus_tenants_instead_of_tags_check.go:142-159 | a group is in the sources map exactly when it was there already or a reference to two or more tenants forms it |
| TenantsInsteadOfTags.TallySources | internal/checks/organization/octopus_tenants_instead_of_tags_check.go:155-158 | a group's sources are the earlier ones followed by those of the references forming it, in order |
| TenantsInsteadOfTags.ReferenceIff | internal/checks/organization/octopus_tenants_instead_of_tags_check.go:71-93 | only accounts, certificates and targets in the tenanted-or-untenanted mode make references, with sources "Account - ", "Certificate - " and "Target - " followed by the name |
| TenantsInsteadOfTags.TenantName | internal/checks/organization/octopus_tenants_instead_of_tags_check.go:132-140 | the name of the first tenant with the ID, and "" when none has it |
| TenantsInsteadOfTags.GetTenantNameById | internal/checks/organization/octopus_tenants_instead_of_tags_check.go:132-140 | the search loop returns that name |
| TenantsInsteadOfTags.IdArray | internal/checks/organization/octopus_tenants_instead_of_tags_check.go:75-91 | a fresh slice holding the resource's tenant IDs |
| TenantsInsteadOfTags.RecordAccounts | internal/checks/organization/octopus_tenants_instead_of_tags_check.go:71-77 | the account loop records the accounts' references, keeping the maps consistent |
| TenantsInsteadOfTags.RecordCertificates | internal/checks/organization/octopus_tenants_instead_of_tags_check.go:79-85 | the certificate loop records the certificates' references |
| TenantsInsteadOfTags.RecordTargets | internal/checks/organization/octopus_tenants_instead_of_tags_check.go:87-93 | the target loop records the targets' references |
| TenantsInsteadOfTags.MultipleTenantReferences | internal/checks/organization/octopus_tenants_instead_of_tags_check.go:95-101 | the groups counted more than once, each once, in the order the map yields them |
| TenantsInsteadOfTags.TenantNames | internal/checks/organization/octopus_tenants_instead_of_tags_check.go:108-112 | the names of a group's tenants, in the order of its key |
| TenantsInsteadOfTags.GroupedTenants | internal/checks/organization/octopus_tenants_instead_of_tags_check.go:106-114 | one line per reported group, in order |
| TenantsInsteadOfTags.Execute | internal/checks/organization/octopus_tenants_instead_of_tags_check.go:34-130 | the check's outcome for the groups it lists, and when every fetch succeeds those groups are exactly the ones referenced more than once |
| TenantsInsteadOfTags.ReportedIff | internal/checks/organization/octopus_tenants_instead_of_tags_check.go:96-114 | a group is reported exactly when two or more references form it, and its sources are exactly those references' sources in reading order |
| TenantsInsteadOfTags.GroupsWarning | internal/checks/organization/octopus_tenants_instead_of_tags_check.go:103-129 | listing the groups referenced more than once warns exactly when there is one |
| TenantsInsteadOfTags.WarningIff | internal/checks/organization/octopus_tenants_instead_of_tags_check.go:103-129 | when every fetch succeeds, the check warns exactly when some group is referenced more than once, and is Ok otherwise |
| TenantsInsteadOfTags.GroupLineNames | internal/checks/organization/octopus_tenants_instead_of_tags_check.go:107-114 | when no ID holds a comma, a group's line names its tenants in the order of their sorted IDs, followed by its sources in parentheses |
| UnusedTargets.Execute | internal/checks/organization/octopus_unused_targets_check.go:39-100 | the check's outcome: nil client, a failed target fetch, a stopping task fetch, or the summary of the targets without a recent task |
| UnusedTargets.ListedIff | internal/checks/organization/octopus_unused_targets_check.go:21-84 | a target is listed exactly when its deployment tasks were fetched and none completed less than 30 days before now; targets whose fetch was skipped are not listed |
| UnusedTargets.IncompleteTasksIrrelevant | internal/checks/organization/octopus_unused_targets_check.go:73 | tasks with no completion time never make a target used |
| UnusedTargets.WarningIff | internal/checks/organization/octopus_unused_targets_check.go:85-99 | when no task fetch ends the check, it warns exactly when some target has no recent task |
| UnusedTargets.ActionsMentionIff | internal/checks/organization/octopus_unused_targets_check.go:107-113 | the scan of a step's actions finds the name exactly when some property value of some action holds it |
| UnusedTargets.StepsMentionIff | internal/checks/organization/octopus_unused_targets_check.go:106-114 | the same over every action of every step |
| UnusedTargets.StepVariableScanIff | internal/checks/organization/octopus_unused_targets_check.go:104-118 | `naiveStepVariableScan` holds exactly when there is a process and some property value of one of its actions contains the variable name; false for a nil process |
| UnusedProjects.Execute | internal/checks/organization/octopus_unused_projects_check.go:33-100 | the check's outcome: nil client, a failed project fetch, the first failed task fetch, or the summary of the unused projects |
| UnusedProjects.HasTask | internal/checks/organization/octopus_unused_projects_check.go:71-76 | the inner loop finds a task exactly when some task has a start time later than the cut-off |
| UnusedProjects.StepEntries | internal/checks/organization/octopus_unused_projects_check.go:55-81 | one project contributes a name exactly when it is enabled, its tasks were fetched and none started in the window |
| UnusedProjects.ListedIff | internal/checks/organization/octopus_unused_projects_check.go:55-81 | a project is listed exactly when it is enabled and no task has a start time strictly after now less the configured number of days; disabled projects are never listed |
| UnusedProjects.TaskErrorEndsCheck | internal/checks/organization/octopus_unused_projects_check.go:67-69 | the first enabled project whose tasks cannot be fetched ends the check through `HandleError` instead of being skipped |
| UnusedProjects.WarningIff | internal/checks/organization/octopus_unused_projects_check.go:83-99 | when every task fetch succeeds, the check warns exactly when some enabled project is unused, and its Ok message names the number of days |
| TooManySteps.StepCount | internal/checks/organization/octopus_project_too_many_steps_check.go:85-101 | `stepsInDeploymentProcess`: 0 for an empty id and for a 404, the number of steps of a fetched process, and any other failure returned unchanged |
| TooManySteps.Execute | internal/checks/organization/octopus_project_too_many_steps_check.go:33-83 | the check's outcome: nil client, a failed project fetch, a stopping process fetch, or the summary of the projects with too many steps |
| TooManySteps.ListedIff | internal/checks/organization/octopus_project_too_many_steps_check.go:15-66 | a project is listed exactly when its process was fetched and has 20 or more steps; projects without a process or with a missing one are never listed |
| TooManySteps.WarningIff | internal/checks/organization/octopus_project_too_many_steps_check.go:56-82 | when no process fetch ends the check, it warns exactly when some project has at least 20 steps |
| UnhealthyTargets.Execute | internal/checks/organization/octopus_unhealthy_target_count.go:34-98 | the check's outcome: nil client, a failed target fetch, a stopping event fetch, or the summary of the unhealthy targets |
| UnhealthyTargets.WasEverHealthy | internal/checks/organization/octopus_unhealthy_target_count.go:70-75 | the inner loop finds a healthy event exactly when some event is a "MachineHealthy" event less than 30 days old |
| UnhealthyTargets.ListedIff | internal/checks/organization/octopus_unhealthy_target_count.go:16-81 | a target is listed exactly when its status is "Unhealthy", its events were fetched and none is a `MachineHealthy` event less than 30 days old; targets in other states are never listed |
| UnhealthyTargets.WarningIff | internal/checks/organization/octopus_unhealthy_target_count.go:83-97 | when no event fetch ends the check, it warns exactly when some unhealthy target had no recent healthy check |
| UnhealthyTargets.OnlyUnhealthyTargetsQueried | internal/checks/organization/octopus_unhealthy_target_count.go:55-59 | the events of targets that are not unhealthy are never consulted |
| EmptyProject.RunbooksInProject | internal/checks/organization/octopus_empty_project_check.go:83-91 | the number of runbooks whose project id matches, at most the number of runbooks, and 0 exactly when none matches |
| EmptyProject.NoneInProject | internal/checks/organization/octopus_empty_project_check.go:83-91 | no runbook counts for a project exactly when none names it |
| EmptyProject.StepCount | internal/checks/organization/octopus_empty_project_check.go:93-105 | 0 steps for an empty id, the number of steps of a fetched process, and every failed fetch returned, with no 404 case |
| EmptyProject.RunbooksOrNone | internal/checks/organization/octopus_empty_project_check.go:46 | a failed runbook fetch is ignored and leaves no runbooks |
| EmptyProject.Execute | internal/checks/organization/octopus_empty_project_check.go:29-81 | the check's outcome: nil client, a failed project fetch, a stopping process fetch, or the summary of the empty projects |
| EmptyProject.ListedIff | internal/checks/organization/octopus_empty_project_check.go:49-64 | a project is listed exactly when its process was read (or it has none) with no steps and no runbook names it |
| EmptyProject.RunbookMakesNonEmpty | internal/checks/organization/octopus_empty_project_check.go:61 | a project with a runbook is never listed, whatever its process |
| EmptyProject.WarningIff | internal/checks/organization/octopus_empty_project_check.go:66-80 | when no process fetch ends the check, it warns exactly when some project is empty |
| InvalidVariables.AppendInvalid | internal/checks/naming/octopus_invalid_variables_check.go:84-93 | the inner loop appends one "project: name" entry per variable of the set that is not ignored and whose name fails the pattern, in order |
| InvalidVariables.Execute | internal/checks/naming/octopus_invalid_variables_check.go:43-112 | the check's outcome: nil client, a failed project fetch, then a pattern that does not compile, a stopping variable fetch, or the summary of the invalid variables |
| InvalidVariables.ListedIff | internal/checks/naming/octopus_invalid_variables_check.go:72-94 | an entry is listed exactly when it is "project: name" for a variable of a fetched project that is not ignored and whose name fails the pattern; projects whose fetch was skipped contribute nothing |
| InvalidVariables.ProjectEntries | internal/checks/naming/octopus_invalid_variables_check.go:75-93 | one project contributes exactly the entries of its invalid variables |
| InvalidVariables.RegexCheckedAfterFetch | internal/checks/naming/octopus_invalid_variables_check.go:54-69 | a failed project fetch wins over a pattern that does not compile, and such a pattern gives an Error/Naming result with nil error |
| InvalidVariables.NeverSwitchedOff | internal/checks/naming/octopus_invalid_variables_check.go:60-69 | there is no blank-pattern exit: once the projects are fetched the check never returns `(nil, nil)` |
| InvalidVariables.WarningIff | internal/checks/naming/octopus_invalid_variables_check.go:96-111 | when the pattern compiles and no variable fetch ends the check, it warns exactly when some fetched project has a variable that is not ignored and fails the pattern |
| InvalidVariables.ActionsMentionIff | internal/checks/naming/octopus_invalid_variables_check.go:161-174 | the scan of a step's actions finds the name exactly when one action mentions it |
| InvalidVariables.StepsMentionIff | internal/checks/naming/octopus_invalid_variables_check.go:160-175 | the same over every action of every step |
| InvalidVariables.StepVariableScanIff | internal/checks/naming/octopus_invalid_variables_check.go:158-179 | `naiveStepVariableScan` holds exactly when some action holds the name in a property value, a package's feed id or its package id; a nil step list never does |
| WorkerPoolNames.AppendActions | internal/checks/naming/octopus_project_uses_invalid_worker_pool.go:105-125 | the action loop appends the entries of the actions, in order |
| WorkerPoolNames.AppendSteps | internal/checks/naming/octopus_project_uses_invalid_worker_pool.go:104-126 | the step loop appends the entries of every action of every step, in order |
| WorkerPoolNames.Execute | internal/checks/naming/octopus_project_uses_invalid_worker_pool.go:39-145 | the check's outcome: nil client, a blank pattern giving `(nil, nil)`, a pattern that does not compile giving Error/Naming, a failed project or pool fetch, or the walk over the projects |
| WorkerPoolNames.ScanProjects | internal/checks/naming/octopus_project_uses_invalid_worker_pool.go:87-144 | the project loop ends as the first stopping process fetch says, or with the summary of every project's entries; the messages quote `ContainerImageRegex` and the category is Organization |
| WorkerPoolNames.VisitProject | internal/checks/naming/octopus_project_uses_invalid_worker_pool.go:91-126 | one project: a failed process fetch stops the loop or is skipped, a project without a process adds nothing, otherwise its actions' entries are appended |
| WorkerPoolNames.DefaultPoolIff | internal/checks/naming/octopus_project_uses_invalid_worker_pool.go:78-85 | the default pool is named only when exactly one pool is the default, and then it is that pool's name |
| WorkerPoolNames.ActionEntryIff | internal/checks/naming/octopus_project_uses_invalid_worker_pool.go:107-124 | an action whose pool comes from a variable is never reported; one with no pool is reported "(default)" exactly when one default pool exists and its name fails the pattern; one naming a pool is reported exactly when that id fails the pattern, exactly one pool has that id and that pool's name fails too |
| WorkerPoolNames.WarningIff | internal/checks/naming/octopus_project_uses_invalid_worker_pool.go:130-144 | when the pattern compiles, both lists are fetched and no process fetch ends the check, it warns exactly when some action is reported |
| WorkerPoolNames.BlankPatternSwitchesOff | internal/checks/naming/octopus_project_uses_invalid_worker_pool.go:50-52 | a blank or all-space pattern gives `(nil, nil)` |
| ContainerImageNames.AppendActions | internal/checks/naming/octopus_project_uses_invalid_container_image.go:83-91 | the action loop appends "project/action: image" for each action with a non-blank image that fails the pattern, in order |
| ContainerImageNames.AppendSteps | internal/checks/naming/octopus_project_uses_invalid_container_image.go:82-92 | the step loop appends the entries of every action of every step, in order |
| ContainerImageNames.Execute | internal/checks/naming/octopus_project_uses_invalid_container_image.go:36-111 | the check's outcome: nil client, a blank pattern giving `(nil, nil)`, a pattern that does not compile giving Error/Naming, a failed project fetch, or the walk over the projects |
| ContainerImageNames.ScanProjects | internal/checks/naming/octopus_project_uses_invalid_container_image.go:67-110 | the project loop ends as the first stopping process fetch says, or with the summary of every project's entries, category Organization |
| ContainerImageNames.VisitProject | internal/checks/naming/octopus_project_uses_invalid_container_image.go:69-92 | one project: a failed process fetch stops the loop or is skipped, a project without a process ("" or 404) adds nothing, otherwise its actions' entries are appended |
| ContainerImageNames.ListedIff | internal/checks/naming/octopus_project_uses_invalid_container_image.go:82-92 | an entry is listed exactly when it is "project/action: image" for an action with a non-blank image that fails the pattern; actions without a container or with a blank image never are |
| ContainerImageNames.WarningIff | internal/checks/naming/octopus_project_uses_invalid_container_image.go:96-110 | when the pattern compiles and no process fetch ends the check, it warns exactly when some action's non-blank image fails the pattern |
| ContainerImageNames.SomeEntryIffSomeFails | internal/checks/naming/octopus_project_uses_invalid_container_image.go:84-90 | an action contributes an entry exactly when its image is non-blank and fails |
| DefaultStepNames.AppendActions | internal/checks/naming/octopus_project_uses_default_step_names.go:73-77 | the action loop appends "project/action" for each action whose name is a default step name, in order |
| DefaultStepNames.AppendSteps | internal/checks/naming/octopus_project_uses_default_step_names.go:72-78 | the step loop appends the entries of every action of every step, in order |
| DefaultStepNames.Execute | internal/checks/naming/octopus_project_uses_default_step_names.go:38-97 | the check's outcome: nil client, a failed project fetch, the first stopping process fetch, or the summary of the entries, category Organization |
| DefaultStepNames.ListedIff | internal/checks/naming/octopus_project_uses_default_step_names.go:56-80 | an entry is listed exactly when it is "project/action" for an action whose name is a default step name (compared exactly) |
| DefaultStepNames.ProjectEntries | internal/checks/naming/octopus_project_uses_default_step_names.go:72-78 | at most one entry per action, and none for an action whose name is not a default one |
| DefaultStepNames.WarningIff | internal/checks/naming/octopus_project_uses_default_step_names.go:82-96 | when no process fetch ends the check, it warns exactly when some action has a default step name |
| ReleaseTemplates.Execute | internal/checks/naming/octopus_project_invalid_release_template.go:37-94 | the check's outcome: nil client, a blank pattern giving `(nil, nil)`, a pattern that does not compile giving Error/Naming, a failed project fetch, or the summary of the bad templates |
| ReleaseTemplates.ReportedInOrder | internal/checks/naming/octopus_project_invalid_release_template.go:70-77 | the entries are "name - template" for exactly the projects with a versioning strategy whose template fails the pattern, one each and in project order; projects without a strategy are never reported |
| ReleaseTemplates.WarningIff | internal/checks/naming/octopus_project_invalid_release_template.go:79-93 | once the pattern compiles and the projects are fetched, the check warns exactly when some project's template fails the pattern |
| TargetRoles.CollectInvalidRoles | internal/checks/naming/octopus_invalid_target_role.go:72-77 | the inner loop collects the roles that fail the pattern, in role order |
| TargetRoles.Execute | internal/checks/naming/octopus_invalid_target_role.go:36-99 | the check's outcome: nil client, a blank role pattern giving `(nil, nil)`, a pattern that does not compile, a failed target fetch, or the summary of the targets with failing roles |
| TargetRoles.InvalidRolesExact | internal/checks/naming/octopus_invalid_target_role.go:72-77 | a role is among a target's invalid roles exactly when the target has it and it fails the pattern, and there are no more of them than roles |
| TargetRoles.HasEntryIff | internal/checks/naming/octopus_invalid_target_role.go:79-81 | a target is reported exactly when at least one of its roles fails |
| TargetRoles.ReportedInOrder | internal/checks/naming/octopus_invalid_target_role.go:68-82 | the entries are "name - role1,role2…" for exactly the targets with a failing role, one each and in target order |
| TargetRoles.BadRegexQuotesNamePattern | internal/checks/naming/octopus_invalid_target_role.go:51-60 | a role pattern that does not compile is reported with the target-name pattern in its message |
| TargetRoles.WarningIff | internal/checks/naming/octopus_invalid_target_role.go:84-98 | once the pattern compiles and the targets are fetched, the check warns exactly when some role of some target fails |
| TargetRoles.SomeEntryIff | internal/checks/naming/octopus_invalid_target_role.go:79-91 | some target has an entry exactly when some role of some target fails |
| TargetNames.Execute | internal/checks/naming/octopus_invalid_target_name.go:36-92 | the check's outcome: nil client, a blank pattern giving `(nil, nil)`, a pattern that does not compile giving Error/Naming, a failed target fetch, or the summary of the failing names |
| TargetNames.ReportedInOrder | internal/checks/naming/octopus_invalid_target_name.go:68-75 | the entries are the names of exactly the targets whose names fail the pattern, one each and in target order |
| TargetNames.WarningIff | internal/checks/naming/octopus_invalid_target_name.go:77-91 | once the pattern compiles and the targets are fetched, the check warns exactly when some target's name fails |
| LifecycleNames.Execute | internal/checks/naming/octopus_invalid_lifecycle_name.go:34-86 | the check's outcome: nil client, a blank pattern giving `(nil, nil)`, a pattern that does not compile giving Error/Naming, a failed lifecycle fetch, or the summary of the failing names |
| LifecycleNames.ReportedInOrder | internal/checks/naming/octopus_invalid_lifecycle_name.go:64-69 | the entries are the names of exactly the lifecycles whose names fail the pattern, one each and in lifecycle order |
| LifecycleNames.WarningIff | internal/checks/naming/octopus_invalid_lifecycle_name.go:71-85 | once the pattern compiles and the lifecycles are fetched, the check warns exactly when some lifecycle's name fails |
| GitCredentialsReuse.CountUsernames | internal/checks/security/octopus_duplicated_git_creds_check.go:67-83 | the first loop gives each username used by a counted project (version controlled, username and password, username present) its projects in input order, and its count equals the number of those projects |
| GitCredentialsReuse.CountProject | internal/checks/security/octopus_duplicated_git_creds_check.go:70-82 | one pass of the first loop keeps, for the projects seen so far plus this one, the projects and the count of every username |
| GitCredentialsReuse.DuplicatedUsernames | internal/checks/security/octopus_duplicated_git_creds_check.go:85-90 | the second loop keeps exactly the usernames counted more than once, with their projects |
| GitCredentialsReuse.Messages | internal/checks/security/octopus_duplicated_git_creds_check.go:93-96 | the third loop gives one line "user (project, project…)" per reused username, each username once, in map order |
| GitCredentialsReuse.MessagesAreLines | internal/checks/security/octopus_duplicated_git_creds_check.go:94-96 | lines built from each username's projects are the check's lines |
| GitCredentialsReuse.Execute | internal/checks/security/octopus_duplicated_git_creds_check.go:45-112 | the check's outcome for the usernames it lists, and when the projects are fetched those are exactly the usernames counted for two or more projects |
| GitCredentialsReuse.ReportedIff | internal/checks/security/octopus_duplicated_git_creds_check.go:70-90 | a username is reported exactly when two different counted projects use it |
| GitCredentialsReuse.ProjectsOfIff | internal/checks/security/octopus_duplicated_git_creds_check.go:73-81 | a username's projects are exactly the counted projects that use it, in input order |
| GitCredentialsReuse.WarningIff | internal/checks/security/octopus_duplicated_git_creds_check.go:92-111 | once the projects are fetched, the check warns exactly when two counted projects share a username; category Security |
| QueuedByAdmin.GetAdminTeams | internal/checks/security/octopus_deployment_queued_by_admin.go:138-159 | the loop over the three team names returns what `AdminTeams` specifies |
| QueuedByAdmin.AdminTeamsQueries | internal/checks/security/octopus_deployment_queued_by_admin.go:138-159 | exactly "Octopus Administrators", "Space Managers" and "Octopus Managers" are looked up, in that order; the teams are their results concatenated, and the first failed lookup fails the call |
| QueuedByAdmin.AddIfAdmin | internal/checks/security/octopus_deployment_queued_by_admin.go:107-111 | the team loop adds a user's name once when the user belongs to some team and is not listed yet |
| QueuedByAdmin.AddAdmins | internal/checks/security/octopus_deployment_queued_by_admin.go:106-112 | the user loop adds each administrator not yet listed, in order of first appearance |
| QueuedByAdmin.ProjectDeployers | internal/checks/security/octopus_deployment_queued_by_admin.go:87-114 | the event loop ends as the first stopping user lookup says, or gives the administrators among the users found for the events |
| QueuedByAdmin.Execute | internal/checks/security/octopus_deployment_queued_by_admin.go:37-136 | the check's outcome: nil client, a failed project or team fetch, a stopping event or user fetch, or the summary of the projects deployed by administrators |
| QueuedByAdmin.AdminsInIff | internal/checks/security/octopus_deployment_queued_by_admin.go:106-112 | a project's deployer list has no duplicates, and a name is in it exactly when a user found for its events, with that name, has an id in some admin team's members |
| QueuedByAdmin.SystemEventsSkipped | internal/checks/security/octopus_deployment_queued_by_admin.go:89-91 | events queued by "system" contribute no user |
| QueuedByAdmin.ListedIff | internal/checks/security/octopus_deployment_queued_by_admin.go:66-119 | the project walk lists exactly, for each project whose events and users were found and among whose users some administrator is, the text "name (u1,u2,...)" with its administrators in order of first appearance; projects with no administrator are never listed |
| QueuedByAdmin.WarningIff | internal/checks/security/octopus_deployment_queued_by_admin.go:116-135 | when no fetch ends the check, it warns exactly when some project has a deployment queued by an administrator |
| UnrotatedAccounts.Execute | internal/checks/security/octopus_unrotated_accounts_check.go:36-108 | the check's outcome: nil client, a failed account fetch, a stopping audit fetch, or the summary of the unedited accounts |
| UnrotatedAccounts.WasModified | internal/checks/security/octopus_unrotated_accounts_check.go:81-85 | the inner loop finds an edit exactly when some audit is "Modified" and names the account among its related documents |
| UnrotatedAccounts.ListedIff | internal/checks/security/octopus_unrotated_accounts_check.go:58-90 | an account is listed exactly when it is not an `AmazonWebServicesOidcAccount` or `AzureOidc` account, its audits were fetched and none has category "Modified" with the account id among its related documents |
| UnrotatedAccounts.WarningIff | internal/checks/security/octopus_unrotated_accounts_check.go:93-107 | when no audit fetch ends the check, it warns exactly when some non-OIDC account was not modified; category Security |
| PerpetualApiKeys.AppendKeys | internal/checks/security/octopus_perpetual_api_keys_check.go:74-78 | the key loop appends one entry per perpetual key of the user, in key order |
| PerpetualApiKeys.Execute | internal/checks/security/octopus_perpetual_api_keys_check.go:42-96 | the check's outcome: nil client, a failed user fetch, a stopping key fetch, or the summary of the perpetual keys |
| PerpetualApiKeys.ListedIff | internal/checks/security/octopus_perpetual_api_keys_check.go:61-79 | an entry is listed exactly when it is hint + "... (" + username + ")" for a key with no expiry and a hint, of a user other than "guest" whose keys were fetched |
| PerpetualApiKeys.GuestNeverReported | internal/checks/security/octopus_perpetual_api_keys_check.go:75 | the guest user's keys are never reported |
| PerpetualApiKeys.WarningIff | internal/checks/security/octopus_perpetual_api_keys_check.go:81-95 | when no key fetch ends the check, it warns exactly when some user has a perpetual key |
| InsecureFeeds.FeedEntry | internal/checks/security/octopus_insecure_feeds_check.go:50-90 | the six type branches report a feed, once, exactly when its type is one of the six and its URI starts with "http://" |
| InsecureFeeds.Execute | internal/checks/security/octopus_insecure_feeds_check.go:29-109 | the check's outcome: nil client, a failed feed fetch, or the summary of the insecure feeds |
| InsecureFeeds.ReportedInOrder | internal/checks/security/octopus_insecure_feeds_check.go:47-92 | the entries are the names of exactly the insecure feeds, each once and in feed order; feeds of other types never appear |
| InsecureFeeds.WarningIff | internal/checks/security/octopus_insecure_feeds_check.go:94-108 | once the feeds are fetched, the check warns exactly when some feed is insecure |
| InsecureK8s.Execute | internal/checks/security/octopus_insecure_k8s_check.go:33-80 | the check's outcome: nil client, a failed target fetch, or the summary of the insecure Kubernetes targets |
| InsecureK8s.ReportedInOrder | internal/checks/security/octopus_insecure_k8s_check.go:50-63 | the entries are the names of exactly the Kubernetes targets that skip TLS verification or have an "http://" cluster URL, in target order; other targets are never listed |
| InsecureK8s.FilterOfFilter | internal/checks/security/octopus_insecure_k8s_check.go:50-52 | selecting the Kubernetes targets first loses no insecure target |
| InsecureK8s.WarningIff | internal/checks/security/octopus_insecure_k8s_check.go:65-79 | once the targets are fetched, the check warns exactly when some target is an insecure Kubernetes target |
| InsecureK8s.SomeEntryIff | internal/checks/security/octopus_insecure_k8s_check.go:55-63 | some Kubernetes target has an entry exactly when some target is insecure |
| InsecureSubscriptions.Execute | internal/checks/security/octopus_insecure_subscriptions_check.go:30-73 | the check's outcome: nil client, a failed subscription fetch, or the summary of the insecure subscriptions |
| InsecureSubscriptions.ReportedInOrder | internal/checks/security/octopus_insecure_subscriptions_check.go:49-56 | the entries are the names of exactly the subscriptions with an event notification whose webhook URI starts with "http://", in input order |
| InsecureSubscriptions.WarningIff | internal/checks/security/octopus_insecure_subscriptions_check.go:58-72 | once the subscriptions are fetched, the check warns exactly when some subscription is insecure |
| QueuedTime.DeploymentOf | internal/checks/performance/octopus_deployment_queued_time_check.go:127-134 | the first related document id starting with "Deployments-", or "" when none does; the result is always "" or has that prefix |
| QueuedTime.GetDeploymentFromRelatedDocs | internal/checks/performance/octopus_deployment_queued_time_check.go:127-134 | the early-return search returns that document id |
| QueuedTime.AppendStarted | internal/checks/performance/octopus_deployment_queued_time_check.go:81-92 | the inner loop appends one entry per started event of the same deployment that began more than a minute after the queued event |
| QueuedTime.CollectDeployments | internal/checks/performance/octopus_deployment_queued_time_check.go:74-95 | the nested loops collect the slow deployments of the events, in queued-then-started order |
| QueuedTime.Links | internal/checks/performance/octopus_deployment_queued_time_check.go:97-106 | one text per entry, in order |
| QueuedTime.MapLinks | internal/checks/performance/octopus_deployment_queued_time_check.go:97-106 | the `lo.Map` gives those texts |
| QueuedTime.Execute | internal/checks/performance/octopus_deployment_queued_time_check.go:53-125 | the check's outcome: nil client, a failed event fetch, or the result for the slow deployments found |
| QueuedTime.QueuedEntriesIff | internal/checks/performance/octopus_deployment_queued_time_check.go:79-93 | a queued event yields an entry exactly when some started event pairs with it |
| QueuedTime.StartedEntryIff | internal/checks/performance/octopus_deployment_queued_time_check.go:82-90 | for a queued event, a started event yields exactly the entry of their pair when it is recorded |
| QueuedTime.SlowIff | internal/checks/performance/octopus_deployment_queued_time_check.go:76-94 | an entry is recorded exactly for a queued event and a started event with equal deployment ids (possibly both "") more than a minute later, carrying that id, the gap and the queue time |
| QueuedTime.ShortGapsIgnored | internal/checks/performance/octopus_deployment_queued_time_check.go:83-84 | every entry has a gap over one minute, so gaps of a minute or less, negative ones included, are never recorded; its id is "" or a deployment id |
| QueuedTime.UnnamedEventsPair | internal/checks/performance/octopus_deployment_queued_time_check.go:80-82 | events with no deployment document share the id "" and pair with each other |
| QueuedTime.WarningMessageShape | internal/checks/performance/octopus_deployment_queued_time_check.go:108-116 | the warning opens with "Found <count> deployment" and ends with the texts joined by newlines |
| QueuedTime.OkMessageShape | internal/checks/performance/octopus_deployment_queued_time_check.go:118-124 | the Ok message opens with "Found <count> deployment" and ends with the texts joined by ", " |
| QueuedTime.WarningIff | internal/checks/performance/octopus_deployment_queued_time_check.go:108-124 | once the events are fetched, the check warns exactly when ten or more slow deployments are found and is Ok otherwise (even with one to nine); the message opens with their count and ends with the texts of the entries, one per line in the warning and comma-separated in the Ok message; there is one text per entry |
| Strings.Index | internal/checks/special_variables.go:21-26 | `strings.Index`: the first position at which the substring occurs, or -1 exactly when it occurs nowhere |
| Strings.TrimSpace | internal/checks/factory/octopus_check_factory.go:31 | `strings.TrimSpace`: the string less its leading and trailing white space |
| Strings.BlankIffAllSpace | internal/checks/naming/octopus_invalid_target_name.go:47 | a setting trims to "" exactly when it is all white space |
| Strings.TrimSpaceIdempotent | internal/checks/factory/octopus_check_factory.go:30-32 | trimming a trimmed string changes nothing |
| Strings.Split | internal/checks/factory/octopus_check_factory.go:30 | `strings.Split` always gives at least one piece |
| Strings.SplitPiecesLackSeparator | internal/checks/organization/octopus_tenants_instead_of_tags_check.go:108 | no piece of a split holds the separator |
| Strings.JoinSplit | internal/checks/organization/octopus_tenants_instead_of_tags_check.go:108 | joining the pieces of a split with the separator gives the string back |
| Strings.SplitJoin | internal/checks/organization/octopus_tenants_instead_of_tags_check.go:147-148 | splitting a join recovers the pieces when none holds the separator |
| Strings.AtoiIntToString | internal/checks/organization/octopus_duplicated_variables_check.go:132 | `strconv.Atoi` parses every printed 64-bit integer back to itself |
| Strings.Sort | internal/checks/organization/octopus_tenants_instead_of_tags_check.go:147 | `slices.Sort` gives a sorted permutation of its input |
| Strings.SortedUnique | internal/checks/organization/octopus_tenants_instead_of_tags_check.go:147 | two sorted lists with the same elements are equal |
| Strings.SortPermutationInvariant | internal/checks/organization/octopus_tenants_instead_of_tags_check.go:147-148 | any two orderings of the same IDs sort to the same list |

## Left out

- Concurrency. The executor runs the checks in an `errgroup` with `SetLimit(15)` and appends to a shared slice without a lock, so the order of the collected results is whatever order the goroutines finish in. The model runs the checks one after another. `Executor.OrderIndependent` states that any order of the checks collects the same multiset of results.
- The executor never calls `HandleError`, so a failing check's error is only logged and turned into an error result. The model follows the code.
- The `retry-go` wrapper around each check is not modelled; a check is one call.
- The command-line entry point (`cmd/octolint.go`), argument parsing (`internal/config/args.go`), the reporters and the logging with `zap` are not part of this model. Configuration values arrive as parameters. This includes the defaults in `internal/defaults/defaultValues.go` and the list of default step names.
- The six checks whose source files are not part of this model: environment count, default project group count, unused variables, lifecycle retention policy, project-specific environments and project groups with exclusive environments. The factory and executor take their ids as the parameter `otherIds`.
- `internal/checks/naming/octopus_project_too_many_steps_check.go` is an older copy of the too-many-steps check that the factory does not build. The model follows `internal/checks/organization/octopus_project_too_many_steps_check.go`.
- The container image check's id is "OctoLintProjectContainerImageName", as the code has it, although the project's description names it differently.
- Every call to the Octopus API is an input to the check's `Verdict`. This covers paging, the `client_wrapper` helpers with their limits, the `2147483647` take of the subscriptions request, the configured `MaxDeploymentTasks` take of the queued-time event query, and the three-month `From` window with take 100 of the queued-by-admin event query. The model does not check that the server returned what was asked for.
- `getAdminTeams` makes HTTP requests of its own; its results are inputs too.
- Regular expressions are uninterpreted: `Regex.compiles` and `Regex.matches` stand for Go's `regexp`. The regexes that build links in messages are not modelled.
- Times are integer nanoseconds, and `time.Now()` is the parameter `now`. `AddDate` over whole days is a subtraction of `NanosPerDay` per day, which ignores daylight-saving changes. Formatted dates in messages are the parameter `stamp`.
- `time.Duration` is a signed 64-bit count of nanoseconds, and the model computes durations without its wrap-around. This covers every day-based window: the unused-projects window `time.Hour * 24 * time.Duration(maxDays)` (`now - maxDays * NanosPerDay` in the model), the fixed 30-day and 90-day windows, and the queue times of `QueuedTime`. Only a configured day count above 106751 makes the Go product overflow.
- `QueuedTime`: the queue duration is compared as `Minutes() > 1`. On a `time.Duration` this holds exactly when the gap is more than 60 seconds, and the model states it that way. The rounding of minutes in the message text is not modelled.
- Go's type assertions that panic when they fail are preconditions or predicates of the model:
  - the `*core.APIError` cast for not-found responses is the predicate `NotFound` on an error;
  - a git credential's details are taken to be present (`CredentialsPresent`);
  - a Kubernetes target's endpoint type is a field of the target.
- `Strings.ToLower` lowers only the ASCII letters; the values it is compared with are ASCII.
- `getDeploymentSteps` in the invalid-variables check, with its runbook fetches, is not modelled because nothing calls it. `InvalidVariables.StepVariableScanIff` covers the scan it would feed.
- An events response that is nil counts as an empty list.
- `ReleaseTemplates`: the helper `stepsInDeploymentProcess`, which the check declares but never calls, is not modelled.
- `TenantsInsteadOfTags`: the map of tenant groups is iterated in an order that Go leaves unspecified. The model takes the order as a parameter, constrained by a predicate that makes it a listing of the map's keys. The same holds for the usernames of `GitCredentialsReuse`.
- Some `Execute` methods are split into helper methods for each project, each step or each inner loop. This gives the same result and keeps each proof small. The labelled `break` out of nested loops is a `capped` flag.
- Test files serve only as evidence of intended behaviour and are not modelled. For example, the worker pool test sets `WorkerPoolNameRegex`, which the check never reads.
