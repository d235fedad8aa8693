# Verified model of the SDP identity service and injector

The repository runs two cooperating services in a Kubernetes cluster. The *identity service*
keeps a pool of disabled users at an SDP controller, hands one to every service that appears,
activates it and cleans up behind services that are gone. The *injector* admits pods and
deployments: it patches sidecars into pods and gives every injected pod a device id. Device ids
of ended pods travel back through the identity service and are used again.

This project models both services in Dafny and proves what holds over whole runs, all
interleavings and all inputs. Objects that the program changes in place are classes whose
methods are proved against specification functions; message passing is a state machine over
first-in-first-out queues; everything outside (controller, cluster API, randomness) is an
oracle that decides freely.

| part | files |
|---|---|
| names, text, UUIDs | `Collections`, `Strings`, `Naming`, `Uuids`, `Identities` |
| identity manager: handlers as functions, as a class, the reconciliation in small and big steps | `ManagerModel`, `IdentityManager`, `Reconciliation`, `ReconciliationSteps`, `HandlerLaws` |
| the identity service as a machine, and its invariants | `IdentitySystem`, `Ownership`, `PoolLevel`, `Activation`, `ActivationTarget`, `StartUp`, `Survival`, `ReconciliationEntry`, `Deadlock`, `OrderlyStart`, `DeadlockInRuns` |
| identity creator | `CreatorModel`, `IdentityCreator`, `CreatorLaws`, `ColdStart` |
| device ids | `DeviceStore`, `IdentityStore`, `DeviceExclusion`, `DeviceRoundTrip` |
| admission | `Pointers`, `Kube`, `JsonPatch`, `PodPatch`, `PodInjection`, `DeploymentPatch`, `Retry` |
| candidate watcher | `Watcher` |

Findings where the code does something a reader might not expect. Each has a lemma or method
that shows it and, where it is a failure of a promise, the exact condition:

- Manager and creator can deadlock on their two 50-slot channels during the reconciliation.
  With p users in the pool and g = min(p, services without identity) this is possible exactly
  when g >= 52 or 2g >= p + 42; so never with at most 41 users, and with 42 users and 42
  services (`DeadlockInRuns.DeadlockAtReconciliation`, `DeadlockInRuns.DeadlockHappens`). A
  handler that sends to its own queue can block there, too (`Deadlock.HandlerBlocksExactly`).
- An identity stored before its user is activated (a crash, or an activation the controller
  refused) makes the next start announce that user as spare: it is pooled and assigned at
  once (`ColdStart.CrashBeforeActivation`; exactly when, `ColdStart.SafeStartExactly`). The
  reconciliation then deletes the user and leaves it in the pool
  (`Reconciliation.PooledUserIsDeleted`).
- A service first seen by the injector without a device id list hands one id to two live pods;
  with a list, possibly empty, it never does (`DeviceExclusion.ExclusiveExactly`).
- An object listed while it is not a candidate is not asked for when it becomes one, until it
  has been deleted as a candidate (`Watchers.Watcher.Watch`).
- A pod whose name cannot be resolved is released to the right service only if two random
  draws agree (`DeviceRoundTrip.ReleaseMatchesAdmission`).
- The patch of a deployment whose pod template has no metadata does not apply
  (`DeploymentPatch.PatchDeployment`), and only the exact text `true` enables a deployment,
  while pods accept `1` and any case (`DeploymentPatch.OnlyTrueEnables`).
- A sidecar image without a tag but with a registry port loses its path
  (`PodPatch.RetagKeepsImage`).
- The user name prefix is recovered only if cluster and namespace together have at most 120
  characters (`Naming.PrefixRecoveredByLength`); object names of different services can
  collide although their ids do not (`Naming.ServiceNamesCollide`).
- A device id is never handed out more than twice: once returned a second time it is lost
  (`DeviceExclusion.DeviceIdsAreExclusive`, `DeviceRoundTrip.ReleasedIdIsReused`).

## Model

| member | source | states |
|---|---|---|
| Naming.ServiceIdInjective | sdp-common/src/traits.rs:37-57 | namespaces without underscore: equal service ids mean equal namespace and name |
| Naming.ServiceNamesCollide | sdp-common/src/traits.rs:37-40 | two services share an object name if and only if they are the same, or the longer namespace continues the shorter one with a dash and its remainder begins the other name |
| Naming.ServiceNameInjective | sdp-common/src/traits.rs:37-40 | namespaces without dash: equal object names mean equal namespace and name |
| Naming.ServiceNamesDoCollide | sdp-common/src/traits.rs:37-40 | two services with different ids that share an object name |
| Naming.GeneratedNameRoundTrip | sdp-common/src/kubernetes.rs:45-77 | a generateName `name-hash-` gives the name back if and only if the hash has no dash |
| Naming.PodNameIsTaken | sdp-common/src/kubernetes.rs:45-77 | the annotation, or the generated name without its last two pieces, or the given name; invented only if none is to be had |
| Naming.UsernameLength | sdp-common/src/service.rs:554-558 | user names have at most 128 characters, and exactly 128 from a known total length on |
| Naming.UsernameIsPrefixed | sdp-common/src/service.rs:554-558 | cluster, namespace and service joined by underscores, cut at 122 characters, then the suffix |
| Naming.PrefixRecovered | sdp-common/src/sdp/auth.rs:85-92 | the prefix is recovered if and only if the truncated prefix still has three parts |
| Naming.PrefixRecoveredByLength | sdp-common/src/sdp/auth.rs:85-92 | for parts without underscores: if and only if cluster and namespace have at most 120 characters |
| Naming.PasswordFieldInjective | sdp-common/src/service.rs:203-217 | users with the same password field are the same user |
| Naming.FieldsApart | sdp-common/src/service.rs:203-217 | user and URL fields are never taken for a password field |
| Uuids.ParseToText | sdp-injector/src/deviceid.rs:150-156 | parsing the canonical text of a UUID gives the UUID back |
| Uuids.ToTextShape | sdp-injector/src/deviceid.rs:150-156 | the canonical text: 36 characters, four hyphens, lower-case digits |
| Uuids.ParseOtherForms | sdp-injector/src/deviceid.rs:150-156 | plain, braced and URN texts read as the same UUID |
| Uuids.HexIgnoresCase | sdp-injector/src/deviceid.rs:150-156 | digits are read in either case |
| IdentityManagers.IdentityManager.Initialize | sdp-identity-service/src/identity_manager.rs:525-558 | stored identities are registered in order, then the creator is started |
| IdentityManagers.IdentityManager.DeleteIdentity | sdp-identity-service/src/identity_manager.rs:560-595 | a refused API delete leaves the identity registered and sends nothing |
| IdentityManagers.IdentityManager.NextIdentity | sdp-identity-service/src/identity_manager.rs:172-203 | known service, oldest pooled user, or nothing when the pool is empty |
| IdentityManagers.IdentityManager.RequestIdentity | sdp-identity-service/src/identity_manager.rs:597-663 | only a new identity whose creation succeeds is activated, with a refill when the pool is low |
| IdentityManagers.IdentityManager.DeleteExtra | sdp-identity-service/src/identity_manager.rs:802-833 | the first loop computes its specification and the set of removed services |
| IdentityManagers.IdentityManager.DeleteOrphanUsers | sdp-identity-service/src/identity_manager.rs:835-849 | the second loop sends one deletion per orphan user, in order |
| IdentityManagers.IdentityManager.DeleteOrphans | sdp-identity-service/src/identity_manager.rs:851-888 | the third loop computes its specification, skipping services already removed |
| IdentityManagers.IdentityManager.RequestMissing | sdp-identity-service/src/identity_manager.rs:902-924 | the last loop computes its specification |
| IdentityManagers.IdentityManager.Reconciled | sdp-identity-service/src/identity_manager.rs:786-930 | for whatever visiting orders happen, the handler computes the composed reconciliation and then releases the watchers |
| IdentityManagers.IdentityManager.Receive | sdp-identity-service/src/identity_manager.rs:392-462 | every message runs its handler and nothing else; only IdentityManagerReady releases the watchers |
| HandlerLaws.NewServiceIsRegistered | sdp-identity-service/src/identity_manager.rs:172-203 | a new service is registered under its namespace, name and labels with the first user of the pool; nothing else changes |
| HandlerLaws.NewServiceIsActivated | sdp-identity-service/src/identity_manager.rs:607-640 | the activation is sent last and exactly if the API stored the identity, for that user, the manager's cluster and the candidate's namespace, name and labels; a refill precedes it exactly when fewer than ten users remain |
| HandlerLaws.OtherRequestsDoNothing | sdp-identity-service/src/identity_manager.rs:597-663 | a known service, an empty pool or a missing namespace changes and sends nothing |
| HandlerLaws.MissingLoopActivates | sdp-identity-service/src/identity_manager.rs:902-924 | every new identity of the last loop is named after its candidate, holds the user next in the pool and is activated exactly once, in order |
| HandlerLaws.DeletedServiceIsDropped | sdp-identity-service/src/identity_manager.rs:932-962 | a deleted candidate drops its identity and asks for the deletion of its user, in two messages, if the API agrees |
| HandlerLaws.SurvivorNamesAnnounced | sdp-identity-service/src/identity_manager.rs:889-900 | exactly the names of the survivors' users are handed to the creator, once |
| HandlerLaws.ConfirmedUserIsHeld | sdp-identity-service/src/identity_manager.rs:711-743 | a confirmed user replaces the one its service holds and touches nobody else |
| HandlerLaws.ReleasedIdIsListed | sdp-identity-service/src/identity_manager.rs:964-1011 | a released id is listed once, after those already there; the creator is told exactly when the API stored it |
| HandlerLaws.RestoredIdentities | sdp-identity-service/src/identity_manager.rs:525-558 | after a restart exactly the stored identities are registered, the last one of an id |
| HandlerLaws.FoundIsFiled | sdp-identity-service/src/identity_manager.rs:665-709 | listed candidates are filed as existing or missing, users found deactivated join the end of the pool |
| ReconciliationSteps.StepsComputeReconcile | sdp-identity-service/src/identity_manager.rs:786-930 | the interleavable small steps and the composed handler have the same effect and accept the same orders |
| Reconciliation.DeletionLoopsLeaveSurvivors | sdp-identity-service/src/identity_manager.rs:786-888 | survivors are exactly the identities with a candidate and no deactivated user, or whose delete failed; each other one is deleted exactly once |
| Reconciliation.DeletionLoopsMessages | sdp-identity-service/src/identity_manager.rs:786-888 | the deletions asked for are exactly those of the non-survivors and of the activated users unused after the first loop, none twice |
| Reconciliation.PooledUserIsDeleted | sdp-identity-service/src/identity_manager.rs:851-888 | a pooled deactivated user stays in the pool, and its deletion is asked for if and only if some identity holds it whose delete is not refused |
| Reconciliation.OrphansAreUnused | sdp-identity-service/src/identity_manager.rs:60-85 | with disjoint activated and deactivated users no orphan deletion names a pooled, surviving or newly assigned user |
| Reconciliation.RequestAllGrants | sdp-identity-service/src/identity_manager.rs:172-203 | a sequence of requests serves the unserved candidates in order with the pool in order, until either ends |
| Reconciliation.RequestAllMessages | sdp-identity-service/src/identity_manager.rs:607-640 | how many refills and activations a sequence of requests sends, and nothing to itself |
| Reconciliation.MissingLoopServes | sdp-identity-service/src/identity_manager.rs:902-924 | for every order exactly min(pool, unserved missing candidates) new identities, the pool shrinks by that, others are unchanged, at most two messages each |
| Ownership.UsersAreNeverShared | sdp-identity-service/src/identity_manager.rs:147-203 | in every reachable state users in pool and services are pairwise distinct and identities are filed under their id |
| Ownership.StepOwned | sdp-identity-service/src/identity_manager.rs:688-743 | every event of every process keeps the ownership of users, stale activations included |
| PoolLevel.PoolStaysFilled | sdp-identity-service/src/identity_manager.rs:607-640 | pooled, announced and ordered users never grow in number; without failures they stay at ten or more, so drained queues mean a filled pool |
| Activation.ActivationConverges | sdp-identity-service/src/identity_manager.rs:711-743 | without failures and with drained queues every service still registered holds the user granted to it last |
| Activation.ServeConverging | sdp-identity-service/src/identity_creator.rs:472-517 | the creator keeps the order of activations per service |
| ActivationTarget.ActivationModifiesOwnUser | sdp-common/src/sdp/auth.rs:95-109 | every pooled user is named after its id, so the user modified on activation is the one its service holds |
| StartUp.ReadyExactlyOnce | sdp-identity-service/src/identity_manager.rs:745-784 | IdentityManagerReady is emitted at most once, only after every listed candidate and announced user is processed, and has been emitted when all are done |
| Survival.RestoredIdentitySurvives | sdp-identity-service/src/identity_manager.rs:786-930 | a restored identity with a listed candidate and a user never found deactivated keeps it in every run, and no deletion of that user is ever sent |
| ReconciliationEntry.ReconciliationStartsTidy | sdp-identity-service/src/identity_manager.rs:745-784 | when the reconciliation is due its preconditions hold, no missing candidate has an identity and the creator owes no answers |
| Deadlock.DeadlockExactly | sdp-identity-service/src/main.rs:128-139 | when the API accepts every new identity, a deadlock is reachable if and only if pooled users and unserved candidates are too many, a condition on two numbers |
| Deadlock.NoDeadlock | sdp-identity-service/src/identity_manager.rs:786-930 | otherwise manager or creator can always move, whatever the API answers and however full the queues are |
| Deadlock.SafePoolSize | sdp-identity-service/src/identity_manager.rs:902-924 | no number of candidates is too many if and only if the pool holds at most 41 users |
| Deadlock.HandlerBlocksExactly | sdp-identity-service/src/identity_manager.rs:745-784 | a handler can block for ever on its own queue if and only if it deletes a registered service or completes the start-up and others fill the queue meanwhile |
| OrderlyStart.OrderlyRun | sdp-identity-service/src/identity_manager.rs:392-462 | every configuration has a run to its reconciliation with all users announced, all candidates listed and at most one message queued |
| DeadlockInRuns.DeadlockAtReconciliation | sdp-identity-service/src/identity_manager.rs:786-930 | in every run, when the reconciliation is due it can deadlock if and only if the users in the pool and the missing candidates are too many |
| DeadlockInRuns.StartUpDeadlocks | sdp-identity-service/src/identity_manager.rs:786-930 | every configuration has a run on which the deadlock threatens if and only if its spare users and new services are too many |
| DeadlockInRuns.DeadlockHappens | sdp-identity-service/src/main.rs:128-139 | for all two numbers there is a cluster and a start-up run with that many users and services; 42 and 42 can deadlock |
| CreatorModel.InitializeRecovers | sdp-identity-service/src/identity_creator.rs:283-377 | from any crash state: users and password entries in bijection, each user announced once with its stored password, exactly the recoverable and the created users left, max(pool size, recovered) spares |
| CreatorModel.RecoverAllSorts | sdp-identity-service/src/identity_creator.rs:296-356 | the first loop keeps exactly the users whose password is known and counts the spares |
| CreatorModel.CleanupReconciles | sdp-identity-service/src/identity_creator.rs:250-281 | after the cleanup the secret holds the entries of the announced users and no other |
| CreatorModel.CreateAllReconciles | sdp-identity-service/src/identity_creator.rs:361-375 | new users enter both stores and are announced as spares; nobody else changes |
| CreatorModel.InitializeIsStable | sdp-identity-service/src/identity_creator.rs:283-377 | a second initialization changes neither store |
| CreatorModel.SettledWorld | sdp-identity-service/src/identity_creator.rs:283-377 | stores in step with enough spares are a fixed point |
| CreatorModel.ServingKeepsInStep | sdp-identity-service/src/identity_creator.rs:415-617 | messages served without refused calls keep the users and the password entries in step |
| CreatorModel.ServingLeavesNoStrays | sdp-identity-service/src/identity_creator.rs:163-226 | whatever calls are refused, no password entry outlives its user |
| CreatorModel.RestartLosesNoUser | sdp-identity-service/src/identity_creator.rs:379-617 | after any served messages and refusals a restart keeps exactly the users whose password is stored; without refusals it loses none |
| CreatorLaws.ActivationServed | sdp-identity-service/src/identity_creator.rs:472-517 | an accepted activation of a known user enables it under the service user name; nothing else changes, and a refused or unknown one changes nothing |
| CreatorLaws.EnabledStays | sdp-identity-service/src/identity_creator.rs:415-617 | whatever is served, an enabled user stays enabled until it is deleted |
| CreatorLaws.ActivatedIsNoSpare | sdp-identity-service/src/identity_creator.rs:283-377 | once activated, a user is gone or announced as activated by the next start, never as a spare |
| CreatorLaws.DeletionServed | sdp-identity-service/src/identity_creator.rs:192-226 | an accepted deletion takes the user and its three fields and nothing else; what is left when a call is refused |
| CreatorLaws.DeletedIsNotAnnounced | sdp-identity-service/src/identity_creator.rs:283-377 | a user whose deletion was served is not announced by the next start, whatever is served in between |
| CreatorLaws.CreationServed | sdp-identity-service/src/identity_creator.rs:163-190 | a new user is disabled, named after its id and its password stored unless an entry exists; what is left when a call is refused |
| CreatorLaws.RepliesAreTrue | sdp-identity-service/src/identity_creator.rs:415-517 | what the creator reports is true of the stores it leaves |
| CreatorLaws.AnnouncementsAreComplete | sdp-identity-service/src/identity_creator.rs:228-248 | every announcement carries the profile URL and the registered device ids of its user, in order |
| IdentityCreators.IdentityCreator.CreateUser | sdp-identity-service/src/identity_creator.rs:163-190 | controller user first, disabled and named after its id, then its password; what is left when either call is refused |
| IdentityCreators.IdentityCreator.DeleteSdpUser | sdp-identity-service/src/identity_creator.rs:192-226 | the fields of the user go first, then the user; what is left when either call is refused |
| IdentityCreators.IdentityCreator.CleanupSecretEntries | sdp-identity-service/src/identity_creator.rs:250-281 | exactly the known entries stay, unchanged |
| IdentityCreators.IdentityCreator.RecoverUsers | sdp-identity-service/src/identity_creator.rs:296-356 | the recovery loop computes its specification |
| IdentityCreators.IdentityCreator.CreateMissing | sdp-identity-service/src/identity_creator.rs:361-375 | the creation loop computes its specification |
| IdentityCreators.IdentityCreator.Initialize | sdp-identity-service/src/identity_creator.rs:283-377 | for whatever listing order, the method computes the specified initialization |
| IdentityCreators.IdentityCreator.Receive | sdp-identity-service/src/identity_creator.rs:415-617 | stores and answers after one message, for accepted and refused calls; activations are confirmed either way |
| ColdStart.InitializationIsClean | sdp-identity-service/src/identity_creator.rs:283-377 | what the initialization announces is a clean start if and only if the stored identities hold distinct users, none disabled with a known password or newly created |
| ColdStart.ServeSendsReplies | sdp-identity-service/src/identity_creator.rs:415-517 | the creator process of a run answers as the creator does |
| ColdStart.CreatorAsAnalysed | sdp-common/src/sdp/auth.rs:95-109 | the answered messages and the modified user are those the analyses of channels and activations assume |
| ColdStart.CleanStartIsExact | sdp-identity-service/src/identity_manager.rs:525-558 | all runs keep users unshared if and only if the start is clean |
| ColdStart.SafeStartExactly | sdp-identity-service/src/main.rs:31 | from any crash state, with a pool size of ten: all runs keep users unshared if and only if the stores are restartable, activations find their user if and only if disabled users are named after their ids, and the pool fills up again when nothing fails |
| ColdStart.CrashBeforeActivation | sdp-identity-service/src/identity_manager.rs:607-640 | an identity stored before its user was activated leads, after the next start, to a run in which that user is both pooled and assigned |
| IdentityStores.MergeDeviceIds | sdp-injector/src/deviceid.rs:108-122 | the loop computes the merge; a missing list stays missing |
| IdentityStores.InMemoryIdentityStore.PushId | sdp-injector/src/deviceid.rs:37-45 | an id joins the front of its pool unless it waits there already |
| IdentityStores.InMemoryIdentityStore.RegisterOrUpdate | sdp-injector/src/deviceid.rs:125-165 | stored identity and pool after an update, as specified |
| IdentityStores.InMemoryIdentityStore.UnregisterService | sdp-injector/src/deviceid.rs:167-177 | both entries are removed and returned if both were there |
| IdentityStores.InMemoryIdentityStore.PopDeviceId | sdp-injector/src/deviceid.rs:179-200 | the front of the pool, a drawn UUID when it is empty, or not found |
| IdentityStores.InMemoryIdentityStore.Receive | sdp-injector/src/deviceid.rs:259-330 | one provider message, keeping the store well formed |
| DeviceStore.StoreStaysWellFormed | sdp-injector/src/deviceid.rs:125-200 | over every sequence of requests both maps have the same keys and pools have no duplicates |
| DeviceStore.UpdateReversesNewIds | sdp-injector/src/deviceid.rs:125-165 | the pool becomes the newly listed ids, de-duplicated and reversed, before the old pool; the recorded list gains exactly the listed unused ids; other services stay |
| DeviceStore.FirstIdentityStays | sdp-injector/src/deviceid.rs:125-177 | an update keeps the identity first stored in everything but its list; unregistering removes one service from both maps |
| DeviceStore.NovelIsExact | sdp-injector/src/deviceid.rs:37-45 | de-duplication keeps first occurrences, all of them, in order |
| DeviceStore.MergeIdempotent | sdp-injector/src/deviceid.rs:108-122 | merging a list twice is merging it once |
| DeviceStore.RegisterIdempotent | sdp-injector/src/deviceid.rs:125-165 | delivering an identity twice in a row is delivering it once |
| DeviceStore.PopsAreLifo | sdp-injector/src/deviceid.rs:179-200 | consecutive requests drain the pool from the front and draw exactly when it is empty |
| DeviceExclusion.DeviceIdsAreExclusive | sdp-injector/src/deviceid.rs:108-200 | over every interleaving of admissions, ends, repeated releases and stale watch events no two live pods share an id, no pool offers an id in use, no id is handed out three times |
| DeviceExclusion.StepSafe | sdp-identity-service/src/identity_manager.rs:964-1011 | every event keeps the invariant behind it |
| DeviceExclusion.ExclusiveExactly | sdp-injector/src/deviceid.rs:125-165 | with every other service listed, all runs keep ids exclusive if and only if this service comes with a list |
| DeviceExclusion.CurrentListMayArrive | sdp-identity-service/src/identity_manager.rs:964-1011 | the manager's current list is among the watch events considered, after every run |
| DeviceExclusion.UnlistedServiceOffersAll | sdp-injector/src/deviceid.rs:132-157 | a service stored without a list offers every listed id at every update, in use or not |
| DeviceExclusion.RelistedIsReached | sdp-injector/src/deviceid.rs:132-157 | such a service reaches a state where a returned id is listed |
| DeviceExclusion.UnlistedServiceShares | sdp-injector/src/deviceid.rs:132-157 | from there one watch event seen twice puts one id into two live pods |
| DeviceRoundTrip.InjectedReports | sdp-identity-service/src/pod_watcher.rs:15-53 | an injected candidate reports the device id and name of its annotations when it ends or is evicted |
| DeviceRoundTrip.ReportedExactly | sdp-identity-service/src/pod_watcher.rs:15-102 | which pods are reported: candidates with namespace and legible device id, when deleted or evicted |
| DeviceRoundTrip.EnvironmentSource | sdp-injector/src/injector.rs:332-421 | whose secrets, keys and names a pod is given |
| DeviceRoundTrip.ServiceOfPod | sdp-common/src/kubernetes.rs:45-77 | the service of a pod over its own annotation, generated name and name |
| DeviceRoundTrip.ReleaseMatchesAdmission | sdp-injector/src/injector.rs:348-385 | the release carries the UUID of the admission; it names the same service if and only if the pod's name is resolvable or the draws agree |
| DeviceRoundTrip.ReleasedIdIsReused | sdp-identity-service/src/identity_manager.rs:964-1011 | after release, listing and update the id is offered if and only if it waited already or was not recorded; one listed for the first time goes to the next pod |
| Pointers.EscapeRoundTrip | sdp-common/src/annotations.rs:17-23 | an escaped key is read back if and only if it has no tilde |
| Pointers.FullEscapeRoundTrip | sdp-injector/src/injector.rs:65-71 | the reader undoes the full escaping of RFC 6901 for every token |
| Pointers.PointerRoundTrip | sdp-injector/src/injector.rs:65-71 | a path of tokens is read back if and only if no token has a tilde |
| JsonPatch.ParentMustExist | sdp-injector/src/injector.rs:531-536 | an operation whose parent is missing does not apply |
| Kube.WrittenStrategy | sdp-common/src/service.rs:31-38 | the text written for a strategy is read as that strategy |
| Kube.WrittenDecision | sdp-common/src/service.rs:502-543 | with strategy and decision written, the decision is what counts |
| Kube.DecisionTable | sdp-common/src/service.rs:502-543 | strategy and decision over the texts of the two annotations |
| Kube.SilenceMeansInjection | sdp-common/src/service.rs:502-543 | an object without the two annotations is injected |
| Kube.AnnotationKeys | sdp-common/src/annotations.rs:3-37 | the eleven annotation keys |
| PodPatch.Patch | sdp-injector/src/injector.rs:502-682 | operations are emitted if and only if the pod has a container and none named like a sidecar; every one applies and together they make the injected pod; the refusals, case by case |
| PodPatch.PatchAnnotations | sdp-injector/src/injector.rs:531-587 | the annotation operations apply to any pod and write the six annotations |
| PodPatch.PatchContainers | sdp-injector/src/injector.rs:589-610 | the sidecars are appended in order, retagged and with their environment |
| PodPatch.PatchInit | sdp-injector/src/injector.rs:611-636 | non-empty init containers are wrapped unless the pod opts out |
| PodPatch.PatchVolumes | sdp-injector/src/injector.rs:637-649 | the volumes are appended, or created where there were none |
| PodPatch.PatchNetwork | sdp-injector/src/injector.rs:650-677 | DNS configuration and, from version 22 on, the sysctl are set |
| PodPatch.RetagReplacesTag | sdp-injector/src/injector.rs:596-604 | the tag is replaced if and only if what precedes it does not end in the same tag |
| PodPatch.RetagKeepsImage | sdp-injector/src/injector.rs:596-604 | the version is merely appended if and only if the image has no colon; a registry port is taken for the start of a tag |
| PodPatch.SearchesKeepDomains | sdp-injector/src/injector.rs:779-809 | no search domain is lost or moved, at most one is new, and the parent of the first is among them |
| PodPatch.SearchesExactly | sdp-injector/src/injector.rs:788-809 | the list of domains, case by case |
| PodPatch.ParentFollowsDot | sdp-injector/src/injector.rs:788-798 | the parent of a domain is what follows its first dot |
| PodPatch.TrimExactly | sdp-injector/src/injector.rs:779-781 | trimming cuts blanks at both ends and nothing else |
| PodPatch.DomainsRoundTrip | sdp-injector/src/injector.rs:779-781 | domains separated by single blanks are read as they stand |
| PodInjection.ValidateExact | sdp-injector/src/injector.rs:684-737 | the validator accepts exactly the pods with every required container and volume name |
| PodInjection.MissingExactly | sdp-injector/src/injector.rs:684-737 | a refusal lists exactly the required names that are not there |
| PodInjection.AdmittedPodIsValid | sdp-injector/src/injector.rs:493-499 | every pod with a container and no container named like a sidecar is valid once injected |
| PodInjection.InjectedPodIsComplete | sdp-injector/src/injector.rs:493-499 | the injected pod passes the validator and is not patched again if there is any sidecar |
| PodInjection.InjectionKeepsOrder | sdp-injector/src/injector.rs:589-677 | own containers, volumes and sysctls keep their places, init containers are only wrapped, other fields stay |
| PodInjection.SidecarsInPlace | sdp-injector/src/injector.rs:589-610 | each sidecar in its place, with the version the pod asks for or else the default |
| PodInjection.InitContainersWrapped | sdp-injector/src/injector.rs:611-636 | init containers between the first and the last one of the sidecars, unless there are none or the pod opts out; the search domains used |
| PodInjection.MarkedLookup | sdp-injector/src/injector.rs:537-587 | the value of every known annotation after the patch |
| PodInjection.MarkedElsewhere | sdp-injector/src/injector.rs:531-587 | keys other than the six written keep their values and none appears |
| PodInjection.ClientMatchesAnnotations | sdp-injector/src/injector.rs:423-467 | the client container works under the device id and service id of the annotations |
| PodInjection.ClientHasCredentials | sdp-injector/src/injector.rs:423-467 | the client reads user name, password and profile URL from the secret and keys of its environment |
| PodInjection.ClientKnowsItsPod | sdp-injector/src/injector.rs:423-467 | the client is told service, number of containers, resolver, log level and where to read the fields of its pod |
| PodInjection.OthersLearnLess | sdp-injector/src/injector.rs:423-467 | credentials and device id go to the client container alone |
| PodInjection.PatchKeepsDecision | sdp-injector/src/injector.rs:537-559 | the pod patch does not change whether the pod needs injection |
| DeploymentPatch.PatchDeployment | sdp-injector/src/injector.rs:825-977 | the operations apply if and only if the pod template has metadata, and then write decision and settings to both places |
| DeploymentPatch.DecisionsAgree | sdp-injector/src/injector.rs:851-939 | patched deployment and pods from its template are decided upon as computed, for all annotations |
| DeploymentPatch.OwnAnnotationCounts | sdp-injector/src/injector.rs:855-872 | the deployment's own annotation counts alone, then the namespace's |
| DeploymentPatch.TemplateSays | sdp-injector/src/injector.rs:851-977 | strategy, decision, init containers and client version written to the template, over the annotations of deployment and namespace |
| DeploymentPatch.OtherAnnotationsStay | sdp-injector/src/injector.rs:851-977 | other annotations of deployment and template keep their values |
| DeploymentPatch.OnlyAnnotationsChange | sdp-injector/src/injector.rs:825-977 | nothing but annotations is written |
| DeploymentPatch.OnlyTrueEnables | sdp-injector/src/injector.rs:855-863 | with an inherited `enabled` annotation the pods are injected if and only if it is the exact text `true` |
| Retry.AdmissionIdInjective | sdp-injector/src/injector.rs:102-104 | pods and deployments of services are counted apart |
| Retry.Attempts.CountFailure | sdp-injector/src/injector.rs:113-122 | the one-byte counter goes up without overflow and starts over beyond fifteen |
| Retry.Attempts.Attempt | sdp-injector/src/injector.rs:102-131 | the k-th failure in a row is refused if and only if k is a multiple of sixteen, otherwise it is attempt k modulo sixteen; counters stay in 1 to 15 |
| Retry.IdsAreIndependent | sdp-injector/src/injector.rs:102-131 | the streak of an id depends on its own admissions only |
| Retry.FailuresInARow | sdp-common/src/constants.rs:5 | k failures after a reset make a streak of k |
| Watchers.Watcher.List | sdp-common/src/watcher.rs:85-113 | eligible entities are reported in order; every entity with a key counts as applied |
| Watchers.Watcher.React | sdp-common/src/watcher.rs:137-197 | an applied candidate ends up announced if and only if it was not listed silently before; deletions are forwarded and forgotten |
| Watchers.Watcher.Watch | sdp-common/src/watcher.rs:52-200 | over a listing and any events no announced service is asked for again, and a service listed while not eligible is mentioned if and only if it is deleted while eligible |
| Watchers.EligibleExactly | sdp-identity-service/src/service_candidate_watcher.rs:29-92 | an entity is spoken of exactly if it has a namespace, is a candidate and its namespace is labelled `enabled` |
| Watchers.DeletionBetweenRequests | sdp-identity-service/src/service_candidate_watcher.rs:45-88 | two requests for one service have its deletion between them |

## Left out

- Handlers run to completion between two events of the machine in `IdentitySystem`, except the reconciliation, which is interleaved iteration by iteration; queues are unbounded there, and the bounded channels are the subject of `Deadlock` alone.
- Deadlock.HandlerBlocksExactly: how many messages others offer while a handler runs is a parameter.
- The branch in which the API finds an existing identity is part of the handlers but not of the machine: the lookup uses the service id, objects are created under the service name, so it never finds one (sdp-identity-service/src/identity_manager.rs:235-255).
- CreatorModel.InitializeRecovers: calls to the controller and the cluster succeed; a refused deletion would leave a user without announcement until the next start.
- IdentityCreators.IdentityCreator.Receive: calls to the controller during one message share one answer, and so do calls to the secret; secrets and config maps in the services' own namespaces are not part of the model.
- DeviceExclusion.DeviceIdsAreExclusive: assumes that an unregistered service does not register again and that drawn UUIDs are new; injector restarts and pods that bring their own secrets are outside.
- Watchers.Watcher.React: sending succeeds; objects created between the listing and the watch are not seen by the program and not by the model.
- Retry.Attempts.Attempt: an admission whose service id cannot be computed fails before it is counted, and answers the patchers never give are not modelled.
- Pods and deployments without a metadata object, which the API server never sends.
- Kubernetes and SDP REST calls, tokens, timeouts, client profiles, device registration at the controller: oracles or left out.
- JSON encoding: patches act on typed objects; only the paths the injector emits are interpreted, array indices other than `-` are not.
- The text of validation errors, log messages and HTTP responses; TLS, certificates, configuration and environment variables (the default client version is a parameter).
- Text is ASCII: lower-casing and truncation of other text are not modelled.
- push_device_id, which only tests call, sdp-injector/src/watchers.rs and the second injector binary, which are not built.
