/** `OctopusCheckFactory.BuildAllChecks`: the fixed list of the 29 checks,
    less those the comma-separated `SkipTests` setting names. */
module Factory {
  import opened Wrappers
  import opened Seqs
  import opened Strings
  import opened Resources
  import UnrotatedAccounts
  import QueuedByAdmin
  import PerpetualApiKeys
  import GitCredentialsReuse
  import InsecureK8s
  import InsecureFeeds
  import InsecureSubscriptions
  import EmptyProject
  import DuplicatedVariables
  import TooManySteps
  import UnusedTargets
  import TenantsInsteadOfTags
  import UnhealthyTargets
  import UnusedProjects
  import QueuedTime
  import ContainerImageNames
  import InvalidVariables
  import TargetNames
  import TargetRoles
  import ReleaseTemplates
  import WorkerPoolNames
  import LifecycleNames
  import DefaultStepNames

  /** One constructor per check the factory builds. */
  datatype CheckKind =
    | UnrotatedAccountsCheck
    | DeploymentQueuedByAdminCheck
    | PerpetualApiKeysCheck
    | DuplicatedGitCredentialsCheck
    | InsecureK8sCheck
    | InsecureFeedsCheck
    | InsecureSubscriptionsCheck
    | EnvironmentCountCheck
    | DefaultProjectGroupCountCheck
    | EmptyProjectCheck
    | UnusedVariablesCheck
    | DuplicatedVariablesCheck
    | ProjectTooManyStepsCheck
    | LifecycleRetentionPolicyCheck
    | UnusedTargetsCheck
    | ProjectSpecificEnvironmentCheck
    | TenantsInsteadOfTagsCheck
    | ProjectGroupsWithExclusiveEnvironmentsCheck
    | UnhealthyTargetCheck
    | UnusedProjectsCheck
    | DeploymentQueuedTimeCheck
    | ProjectContainerImageRegexCheck
    | InvalidVariableNameCheck
    | InvalidTargetNameCheck
    | InvalidTargetRoleCheck
    | ProjectReleaseTemplateRegexCheck
    | ProjectWorkerPoolRegexCheck
    | InvalidLifecycleNameCheck
    | ProjectDefaultStepNamesCheck

  /** `allChecks`, in construction order. */
  const AllChecks: seq<CheckKind> := [
    UnrotatedAccountsCheck, DeploymentQueuedByAdminCheck, PerpetualApiKeysCheck, DuplicatedGitCredentialsCheck,
    InsecureK8sCheck, InsecureFeedsCheck, InsecureSubscriptionsCheck, EnvironmentCountCheck,
    DefaultProjectGroupCountCheck, EmptyProjectCheck, UnusedVariablesCheck, DuplicatedVariablesCheck,
    ProjectTooManyStepsCheck, LifecycleRetentionPolicyCheck, UnusedTargetsCheck, ProjectSpecificEnvironmentCheck,
    TenantsInsteadOfTagsCheck, ProjectGroupsWithExclusiveEnvironmentsCheck, UnhealthyTargetCheck, UnusedProjectsCheck,
    DeploymentQueuedTimeCheck, ProjectContainerImageRegexCheck, InvalidVariableNameCheck, InvalidTargetNameCheck,
    InvalidTargetRoleCheck, ProjectReleaseTemplateRegexCheck, ProjectWorkerPoolRegexCheck, InvalidLifecycleNameCheck,
    ProjectDefaultStepNamesCheck]

  /** The `Id()` of the checks this model describes; the six others are
      not part of this model and their ids are given from outside. */
  function ModelledId(k: CheckKind): Option<string>
  {
    match k
    case UnrotatedAccountsCheck => Some(UnrotatedAccounts.Id)
    case DeploymentQueuedByAdminCheck => Some(QueuedByAdmin.Id)
    case PerpetualApiKeysCheck => Some(PerpetualApiKeys.Id)
    case DuplicatedGitCredentialsCheck => Some(GitCredentialsReuse.Id)
    case InsecureK8sCheck => Some(InsecureK8s.Id)
    case InsecureFeedsCheck => Some(InsecureFeeds.Id)
    case InsecureSubscriptionsCheck => Some(InsecureSubscriptions.Id)
    case EmptyProjectCheck => Some(EmptyProject.Id)
    case DuplicatedVariablesCheck => Some(DuplicatedVariables.Id)
    case ProjectTooManyStepsCheck => Some(TooManySteps.Id)
    case UnusedTargetsCheck => Some(UnusedTargets.Id)
    case TenantsInsteadOfTagsCheck => Some(TenantsInsteadOfTags.Id)
    case UnhealthyTargetCheck => Some(UnhealthyTargets.Id)
    case UnusedProjectsCheck => Some(UnusedProjects.Id)
    case DeploymentQueuedTimeCheck => Some(QueuedTime.Id)
    case ProjectContainerImageRegexCheck => Some(ContainerImageNames.Id)
    case InvalidVariableNameCheck => Some(InvalidVariables.Id)
    case InvalidTargetNameCheck => Some(TargetNames.Id)
    case InvalidTargetRoleCheck => Some(TargetRoles.Id)
    case ProjectReleaseTemplateRegexCheck => Some(ReleaseTemplates.Id)
    case ProjectWorkerPoolRegexCheck => Some(WorkerPoolNames.Id)
    case InvalidLifecycleNameCheck => Some(LifecycleNames.Id)
    case ProjectDefaultStepNamesCheck => Some(DefaultStepNames.Id)
    case _ => None
  }

  /** Every id this model describes is "OctoLint" followed by a name. */
  lemma ModelledIdsNamed(k: CheckKind)
    ensures ModelledId(k).Some? ==> |ModelledId(k).value| > 8 && ModelledId(k).value[..8] == "OctoLint"
  {
  }

  /** A check's `Id()`; `otherIds` gives the ids of the checks this model
      does not describe. */
  function CheckId(otherIds: CheckKind -> string, k: CheckKind): string
  {
    match ModelledId(k)
    case Some(id) => id
    case None => otherIds(k)
  }

  /** The `lo.Filter` test: the check's id is not in the skip list. */
  function Kept(otherIds: CheckKind -> string, skip: seq<string>): CheckKind -> bool
  {
    (k: CheckKind) => IndexOf(skip, CheckId(otherIds, k)) == -1
  }

  /** `BuildAllChecks`: the checks that are built, and the error, which is
      always nil. The skip list is the comma-separated pieces of
      `skipTests`, each with its surrounding white space trimmed. */
  function BuildAllChecks(skipTests: string, otherIds: CheckKind -> string): (r: (seq<CheckKind>, Option<Err>))
    ensures r.1 == None
  {
    (Filter(AllChecks, Kept(otherIds, Map(Split(skipTests, ','), TrimSpace))), None)
  }

  /** A check is built exactly when no trimmed piece of `SkipTests` equals
      its id: matching is exact and case-sensitive. */
  lemma BuiltIff(skipTests: string, otherIds: CheckKind -> string, k: CheckKind)
    ensures k in BuildAllChecks(skipTests, otherIds).0 <==>
      forall i :: 0 <= i < |Split(skipTests, ',')| ==> !Names(Split(skipTests, ',')[i], CheckId(otherIds, k))
  {
    KeptIff(Map(Split(skipTests, ','), TrimSpace), otherIds, k);
    SkippedIff(skipTests, CheckId(otherIds, k));
  }

  /** A check is built exactly when its id is not in the skip list. */
  lemma KeptIff(skip: seq<string>, otherIds: CheckKind -> string, k: CheckKind)
    ensures k in Filter(AllChecks, Kept(otherIds, skip)) <==> CheckId(otherIds, k) !in skip
  {
    FilterMember(AllChecks, Kept(otherIds, skip), k);
    EveryKindListed(k);
  }

  /** An id is in the skip list exactly when some trimmed piece names it. */
  lemma SkippedIff(skipTests: string, id: string)
    ensures id in Map(Split(skipTests, ','), TrimSpace) <==>
      exists i :: 0 <= i < |Split(skipTests, ',')| && Names(Split(skipTests, ',')[i], id)
  {
    TrimmedMember(Split(skipTests, ','), id);
  }

  /** A piece of `SkipTests` that names `id` once trimmed. */
  predicate Names(piece: string, id: string)
  {
    TrimSpace(piece) == id
  }

  /** An id is in the trimmed pieces exactly when some piece names it. */
  lemma TrimmedMember(pieces: seq<string>, id: string)
    ensures id in Map(pieces, TrimSpace) <==> exists i :: 0 <= i < |pieces| && Names(pieces[i], id)
  {
    MapMember(pieces, TrimSpace, id);
  }

  /** The construction list holds every check. */
  lemma EveryKindListed(k: CheckKind)
    ensures k in AllChecks
  {
    match k
    case UnrotatedAccountsCheck => assert AllChecks[0] == k;
    case DeploymentQueuedByAdminCheck => assert AllChecks[1] == k;
    case PerpetualApiKeysCheck => assert AllChecks[2] == k;
    case DuplicatedGitCredentialsCheck => assert AllChecks[3] == k;
    case InsecureK8sCheck => assert AllChecks[4] == k;
    case InsecureFeedsCheck => assert AllChecks[5] == k;
    case InsecureSubscriptionsCheck => assert AllChecks[6] == k;
    case EnvironmentCountCheck => assert AllChecks[7] == k;
    case DefaultProjectGroupCountCheck => assert AllChecks[8] == k;
    case EmptyProjectCheck => assert AllChecks[9] == k;
    case UnusedVariablesCheck => assert AllChecks[10] == k;
    case DuplicatedVariablesCheck => assert AllChecks[11] == k;
    case ProjectTooManyStepsCheck => assert AllChecks[12] == k;
    case LifecycleRetentionPolicyCheck => assert AllChecks[13] == k;
    case UnusedTargetsCheck => assert AllChecks[14] == k;
    case ProjectSpecificEnvironmentCheck => assert AllChecks[15] == k;
    case TenantsInsteadOfTagsCheck => assert AllChecks[16] == k;
    case ProjectGroupsWithExclusiveEnvironmentsCheck => assert AllChecks[17] == k;
    case UnhealthyTargetCheck => assert AllChecks[18] == k;
    case UnusedProjectsCheck => assert AllChecks[19] == k;
    case DeploymentQueuedTimeCheck => assert AllChecks[20] == k;
    case ProjectContainerImageRegexCheck => assert AllChecks[21] == k;
    case InvalidVariableNameCheck => assert AllChecks[22] == k;
    case InvalidTargetNameCheck => assert AllChecks[23] == k;
    case InvalidTargetRoleCheck => assert AllChecks[24] == k;
    case ProjectReleaseTemplateRegexCheck => assert AllChecks[25] == k;
    case ProjectWorkerPoolRegexCheck => assert AllChecks[26] == k;
    case InvalidLifecycleNameCheck => assert AllChecks[27] == k;
    case ProjectDefaultStepNamesCheck => assert AllChecks[28] == k;
  }

  /** The checks built are the 29 in construction order with some left out:
      each sits at a strictly later position of the list than the one
      before it. */
  lemma BuiltInOrder(skipTests: string, otherIds: CheckKind -> string) returns (idx: seq<int>)
    ensures |AllChecks| == 29
    ensures SubsequenceAt(BuildAllChecks(skipTests, otherIds).0, AllChecks, idx)
  {
    idx := FilterSubsequence(AllChecks, Kept(otherIds, Map(Split(skipTests, ','), TrimSpace)));
  }

  /** An empty `SkipTests` splits to [""], which no check id equals, so
      every check is built. */
  lemma EmptySkipKeepsAll(otherIds: CheckKind -> string)
    requires forall k :: ModelledId(k).None? ==> otherIds(k) != ""
    ensures BuildAllChecks("", otherIds).0 == AllChecks
  {
    assert Split("", ',') == [""];
    assert TrimSpace("") == "";
    assert Map(Split("", ','), TrimSpace) == [""];
    forall i | 0 <= i < |AllChecks|
      ensures Kept(otherIds, [""])(AllChecks[i])
    {
      ModelledIdsNamed(AllChecks[i]);
    }
    FilterAll(AllChecks, Kept(otherIds, [""]));
  }

  /** Applying the same skip list to the built checks again removes
      nothing more. */
  lemma SkipIdempotent(skipTests: string, otherIds: CheckKind -> string)
    ensures Filter(BuildAllChecks(skipTests, otherIds).0, Kept(otherIds, Map(Split(skipTests, ','), TrimSpace)))
      == BuildAllChecks(skipTests, otherIds).0
  {
    FilterIdempotent(AllChecks, Kept(otherIds, Map(Split(skipTests, ','), TrimSpace)));
  }
}
