# Verified model of the DPF HCP provisioner operator

A Dafny 4.11 model of the operator's crash-prone reconcile loop and of the exact data transformations
around it, with proofs of what they guarantee. `dafny verify dfyconfig.toml` checks everything.

| file | models |
|---|---|
| `ReleaseVersion.dfy` | release references, matching them against HyperShift's version history |
| `ProvisionerStatus.dfy` | the resource, its conditions, the Ready and phase decisions, status mirroring |
| `ProvisionerWorld.dfy` | the persisted cluster state, what the environment may do to it, the invariant |
| `ProvisionerRecovery.dfy` | an undisturbed pass in a healthy cluster as a function, and its convergence |
| `ProvisionerController.dfy` | the reconcile pass, call by call, as a class with failing calls and interference |
| `Finalizer.dfy` | deletion: ordered cleanup handlers under one finalizer |
| `Exclusivity.dfy` | one provisioner per DPUCluster under interleaved passes |
| `SecretCopies.dfy` | credential copies and the HostedCluster's references to them |
| `IgnitionSync.dfy` | publishing ignition only when HyperShift has caught up with the credentials |
| `CsrApproval.dfy` | the CSR polling loop and its validators |
| `Escaping.dfy`, `IgnitionFiles.dfy` | query escaping, MTU and machine OS edits, recompression |
| `EmptyObjects.dfy` | removal of empty JSON objects |
| `OvnTemplate.dfy` | the OVN DPUServiceTemplate |
| `KubeconfigInjection.dfy` | kubeconfig injection |
| `Text.dfy`, `ApiServer.dfy` | string search and replacement; failing calls |

## How the reconcile loop is modelled

`Operator` holds the persisted `world`, the in-memory copy `cr` of the running pass, which is lost when
the pass ends, and the `ignitionReconciled` flag, which is lost on a restart. Every API call may fail, a
failing write may or may not have been applied, and between any two calls the environment may take any
number of steps: the user edits the spec or asks for deletion, HyperShift extends the version history at
the front or completes its newest entry, dependencies appear and vanish, the ignition ConfigMap or the
NodePool is deleted by hand. Every persisted state, including those between two writes of one pass, goes
into the ghost `log`, and `Run` proves the invariant of all of them. A crash is a pass that stops after any
call. The field `calm` switches failures and interference off for statements about undisturbed passes.

Auxiliary fields number the spec edits (`imageRevision` of the HostedCluster, `revision` of the ConfigMap),
remember the rollout for which Ready was last granted (`readyEntry`) and tell a ConfigMap of this resource
from one that a deleted predecessor for the same DPUCluster left behind (`own`, `leftover`); the program
does not have them and no decision reads them.

Main results:

- **Upgrade safety and freshness.** In every reachable persisted state `HostedClusterUpgrading=True` means
  that ignition is withdrawn and no ConfigMap exists, a ConfigMap this resource published is never older than
  the release image last written to the HostedCluster, and `IgnitionConfigured=True` never rests on a
  predecessor's ConfigMap (`Operator.Run`).
- **Crash recovery.** From whatever a crash inside the image sync leaves, the next `HandleUpgrade` finishes it
  exactly if the history has a completed rollout that does not match the target, whether the references are
  tags or digests; the rollout that made the resource Ready is still on record and is one unless it matches.
- **Delivery.** A new resource in good surroundings has its HostedCluster and NodePool after two undisturbed
  passes, and after HyperShift's rollout three more passes make it Ready (`Operator.Deliver`); a changed release
  image or a crashed sync starts the upgrade in the next pass, a lost dependency withdraws ignition, and a
  deleted resource is cleaned up (`Operator.Reconcile`).
- **Self-stabilisation.** From every state the invariant allows, three undisturbed passes in a healthy
  cluster reach Ready with ignition for the current generation published, and further passes keep it
  (`Operator.Recover`); each pass is shown equal to a function whose distance to that state decreases.
- **Deletion** requests are ordered and restricted to owned objects, and if each requested deletion completes
  before the next pass, the finalizer is gone within five passes.
- **At most one** provisioner per DPUCluster ever owns a HostedCluster.
- **CSR polling** approves exactly the requests that meet one declarative predicate, each at most once.
- **Editing escaped text is editing text**, recompression keeps every file's content, and stripping empty
  objects keeps every datum.

Assumptions: one worker per provisioner; reads return the current state; a status write replaces the whole
status; only the operator writes the HostedCluster spec, the ignition ConfigMap, the status and managed
templates; nobody else deletes an owned HostedCluster or strips the finalizer while the resource lives;
HyperShift's history is not pruned; `dpuDeploymentRef` is set; nobody else labels secrets as this resource's
while it is being deleted, or makes it their controller.

Where code and comments disagree the model follows the code: `generateIgnition` waits for the control plane
only, although the comment on `handleUpgrade` names the stricter test; Ready has five requirements, not the
two its comment lists; the OVN version table is walked forwards, not in reverse; the field table of the
repository's README calls the secret references immutable, but code and API types support changing them;
serving CSRs may carry e-mail and URI names, which only bootstrap CSRs are checked for.

Properties that turned out false of the code, with the exact condition:

- A second run of `CopySecrets` writes nothing if and only if neither reference names a copy that the first
  run removes (`SecretCopies.SecondRunWritesNothingIff`, counterexample `SecretCopies.LegacyReferenceFails`).
- Kubeconfig injection with distinct namespaces converges if and only if an existing target secret has its key
  (`KubeconfigInjection.ConvergesIffReady`). With one namespace for both, it converges if and only if the one
  secret holds the same data under both keys from the start (`SharedConvergesIff`); a fresh secret never does
  (`SharedNamespaceNeverConverges`), and with different data a linked pass deletes its own source for good
  (`SharedSourceDestroyed`).
- The status has the secret's name after injection if and only if it had it before or the first pass found
  something to do in the cluster (`KubeconfigInjection.SecretRefSetIff`).
- A crashed upgrade is resumed if and only if some completed rollout on record does not match the target
  (`Operator.HandleUpgrade`). It goes unnoticed when the user renames the running version, for example from
  a digest to its tag (`ReleaseVersion.UnnoticedUpgrade`).
- No ConfigMap older than the HostedCluster's image is ever beside it if and only if no predecessor left one:
  no cleanup handler deletes the ConfigMap, so a successor for the same DPUCluster can create its HostedCluster
  beside it (`Operator.Run`, counterexample `Operator.CreateBesideLeftover`).
- Generation waits for the control plane after a release change if and only if the condition still has that
  reason (`Operator.GenerateIfDue`). After a crash between the image update and the status write, with a
  HostedCluster that is degraded, the phase is not Ready, the sync is not resumed, the lost ConfigMap replaces
  the reason, and the next pass generates without waiting (`Operator.GenerateAfterLoss`).

## Model

| member | source | states |
|---|---|---|
| `ReleaseVersion.VersionMatchesImage` | internal/controller/dpfhcpprovisioner_controller.go:1655-1667 | the suffix-trimming loop decides whether a rollout matches a reference, by tag if it has one and by image otherwise |
| `ReleaseVersion.TagNamesVersion` | internal/controller/dpfhcpprovisioner_controller.go:1656-1664 | a tagged reference names the version in front of any of the six architecture suffixes, or of none |
| `ReleaseVersion.DigestNamesImage` | internal/controller/dpfhcpprovisioner_controller.go:1655-1667 | a digest or an untagged reference is matched by image alone |
| `ReleaseVersion.DistinguishableIff` | internal/controller/dpfhcpprovisioner_controller.go:1655-1667 | the textual test is exact: two references are distinguishable if and only if no history entry matches both |
| `ReleaseVersion.HasCompletedDifferentVersion` | internal/controller/dpfhcpprovisioner_controller.go:1646-1653 | true if and only if some completed entry does not match the target |
| `ReleaseVersion.OnRecordStays` | internal/controller/dpfhcpprovisioner_controller.go:1643-1653 | growing history keeps every completed rollout and the evidence for a different one |
| `ReleaseVersion.DifferentVersionOnRecord` | internal/controller/dpfhcpprovisioner_controller.go:1522-1537 | for references of any form, a completed rollout that does not match the target proves the upgrade |
| `ReleaseVersion.DistinguishableOnRecord` | internal/controller/dpfhcpprovisioner_controller.go:1522-1537 | references that are distinguishable by their text leave that proof in every case |
| `ReleaseVersion.UnnoticedUpgrade` | internal/controller/dpfhcpprovisioner_controller.go:1529-1534 | an input where the test fails: the only completed rollout passes for the old digest and the new tag |
| `ProvisionerStatus.ReadyIff` | internal/controller/dpfhcpprovisioner_controller.go:1209-1305 | Ready is granted exactly when reference, completed and matching history head, ignition of this generation, kubeconfig, availability and required MetalLB are all there; the branch without a reference is unreachable |
| `ProvisionerStatus.PhaseReadyIff` | internal/controller/dpfhcpprovisioner_controller.go:1308-1381 | phase Ready is exactly Ready=True without deletion, failed validation, failed ignition, blocked or degraded HostedCluster |
| `ProvisionerStatus.PhaseIff` | internal/controller/dpfhcpprovisioner_controller.go:1308-1418 | when each of the other phases is shown, in terms of conditions, reference and history: trouble first, then the stages of provisioning |
| `ProvisionerStatus.PendingIff` | internal/controller/dpfhcpprovisioner_controller.go:1308-1418 | phase Pending is exactly an undeleted resource without reference and without failed validation |
| `ProvisionerStatus.AnyCheckFails` | internal/controller/dpfhcpprovisioner_controller.go:1315-1346 | the loop over the validation table finds a failure if and only if there is one |
| `ProvisionerStatus.ValidationFailsIff` | internal/controller/dpfhcpprovisioner_controller.go:1315-1346 | which condition values count as failures |
| `ProvisionerStatus.MirrorConditions` | internal/controller/hostedcluster/status.go:112-147 | the loop leaves the mirrored conditions |
| `ProvisionerStatus.MirroredAt` | internal/controller/hostedcluster/status.go:112-147 | the seven mapped conditions are copied where reported, every other one is kept |
| `ProvisionerWorld.DriftKeeps` | internal/controller/dpfhcpprovisioner_controller.go:1478-1613 | no sequence of environment steps breaks the invariant or makes the in-memory copy unsafe to write |
| `ProvisionerWorld.FreshWithoutLeftover` | internal/controller/dpfhcpprovisioner_controller.go:1562-1579 | without a predecessor's ConfigMap, the invariant makes every ConfigMap beside the HostedCluster as new as its image |
| `ProvisionerController.Operator.WriteStatus` | internal/controller/dpfhcpprovisioner_controller.go:286-290 | a whole-status write, applied or not, leaves a state that satisfies the invariant |
| `ProvisionerController.Operator.ComputeReady` | internal/controller/dpfhcpprovisioner_controller.go:1209-1305 | whenever Ready is granted, every requirement holds in the cluster at that moment |
| `ProvisionerController.Operator.UpdatePhase` | internal/controller/dpfhcpprovisioner_controller.go:1308-1418 | the phase follows from the conditions and the HostedCluster read at that moment |
| `ProvisionerController.Operator.ValidateDPUCluster` | internal/controller/dpucluster/validator.go:64-109 | the persisted conditions never claim more than this pass found about presence, type and exclusivity |
| `ProvisionerController.Operator.LookupLayerImage` | internal/controller/dpfhcpprovisioner_controller.go:1071-1105 | lookup only in the phases that need it, replaced by a given machine OS URL, and its verdict recorded |
| `ProvisionerController.Operator.Validate` | internal/controller/dpfhcpprovisioner_controller.go:161-185 | the phase is Pending afterwards only if every validation of this pass succeeded |
| `ProvisionerController.Operator.DeleteConfigMap` | internal/controller/dpfhcpprovisioner_controller.go:932-944 | success means that no ignition ConfigMap is left |
| `ProvisionerController.Operator.StartUpgrade` | internal/controller/dpfhcpprovisioner_controller.go:1539-1612 | undisturbed, HostedCluster and NodePool carry the target, ignition is withdrawn, the ConfigMap is gone and the upgrade is recorded; disturbed at any call, every state left behind satisfies the invariant |
| `ProvisionerController.Operator.HandleUpgrade` | internal/controller/dpfhcpprovisioner_controller.go:1478-1613 | with the upgrade not recorded, starts or resumes it exactly if the image differs or a crashed sync is on record, and otherwise changes nothing; a Ready rollout that does not match the target is such a record, whatever the form of the references; a recorded upgrade ends exactly when the history head is completed, matches, and the cluster version no longer progresses |
| `ProvisionerController.Operator.CreateOrUpdateHostedCluster` | internal/controller/hostedcluster/hostedcluster.go:64-155 | a missing HostedCluster is created on the wanted image, only under the good verdicts of the running pass; an owned one is kept, another owner's is an error |
| `ProvisionerController.Operator.CreateBesideLeftover` | internal/controller/dpfhcpprovisioner_controller.go:1427-1447 | a new resource creates its HostedCluster beside a predecessor's ConfigMap, which stays |
| `ProvisionerController.Operator.CreateNodePool` | internal/controller/hostedcluster/nodepool.go:59-113 | creates a missing NodePool on the wanted image, accepts an owned one, refuses another's |
| `ProvisionerController.Operator.ReconcileHostedClusterAndNodePool` | internal/controller/dpfhcpprovisioner_controller.go:1424-1468 | in phase Pending a missing HostedCluster and NodePool are created; with an owned HostedCluster the pass goes on and the NodePool exists |
| `ProvisionerController.Operator.Establish` | internal/controller/dpfhcpprovisioner_controller.go:223-264 | from no HostedCluster as well as from a sound one, the predicted objects, reference and status |
| `ProvisionerController.Operator.SetHostedClusterRefIfOwned` | internal/controller/dpfhcpprovisioner_controller.go:315-336 | the reference is set for an owned HostedCluster and only then |
| `ProvisionerController.Operator.SyncStatus` | internal/controller/hostedcluster/status.go:50-107 | undisturbed, the in-memory conditions are the mirrored ones |
| `ProvisionerController.Operator.InvalidateForDependency` | internal/controller/dpfhcpprovisioner_controller.go:883-910 | stops the pass with the ConfigMap gone and ignition withdrawn, persisted if that is news |
| `ProvisionerController.Operator.HandleDependencyChanges` | internal/controller/dpfhcpprovisioner_controller.go:760-877 | passing this step undisturbed means that published ignition agrees with the deployment; a missing deployment or flavor deletes the ConfigMap and withdraws ignition, a changed flavor withdraws it, a changed BFB only updates the annotation |
| `ProvisionerController.Operator.BuildAndPublish` | internal/controller/ignitiongenerator/ignition_generator.go:205-311 | published ignition carries the current generation and image; undisturbed, it is published exactly when server, deployment, flavor and machine OS are there |
| `ProvisionerController.Operator.CreateOrUpdateConfigMap` | internal/controller/ignitiongenerator/ignition_generator.go:781-864 | the ConfigMap is stamped with the deployment as read at that moment |
| `ProvisionerController.Operator.GenerateIgnition` | internal/controller/ignitiongenerator/ignition_generator.go:133-202 | success is persisted with the current generation; a server out of sync or broken leaves the ConfigMap and persists the matching reason |
| `ProvisionerController.Operator.GenerateIfDue` | internal/controller/dpfhcpprovisioner_controller.go:1109-1181 | generation runs only when due; it is put off, with nothing changed, exactly when the reason is a release change and the control plane is not on the target |
| `ProvisionerController.Operator.GenerateAfterLoss` | internal/controller/dpfhcpprovisioner_controller.go:1126-1141 | once a lost ConfigMap has replaced the reason, ignition is published for a release the control plane does not run yet |
| `ProvisionerController.Operator.VerifyIgnitionConfigMap` | internal/controller/dpfhcpprovisioner_controller.go:991-1037 | a vanished ConfigMap or a fresh operator process withdraws the condition, with the right reason, exactly then |
| `ProvisionerController.Operator.ReconcileIgnition` | internal/controller/dpfhcpprovisioner_controller.go:965-984 | after an undisturbed step that lets the pass go on, configured ignition is up to date |
| `ProvisionerController.Operator.HandleDeletion` | internal/controller/dpfhcpprovisioner_controller.go:1670-1709 | persists the status, and with the finalizer cleanup begins and either waits or lets the resource go |
| `ProvisionerController.Operator.Cleanup` | internal/controller/dpfhcpprovisioner_controller.go:1685-1706 | the finalizer goes only when no owned HostedCluster is left |
| `ProvisionerController.Operator.FirstHalf` | internal/controller/dpfhcpprovisioner_controller.go:117-264 | where the undisturbed first half ends: with exactly the predicted status in a sound cluster, with the new HostedCluster when there was none, in a started upgrade when one is due, in cleanup for a deleted resource, with the finalizer for a new one |
| `ProvisionerController.Operator.ConfigureIgnition` | internal/controller/dpfhcpprovisioner_controller.go:266-290 | the undisturbed second half refines its functional description, and with a dependency lost ends with ignition withdrawn and persisted so |
| `ProvisionerController.Operator.Reconcile` | internal/controller/dpfhcpprovisioner_controller.go:117-311 | reaching the final Ready computation undisturbed with ignition configured means an up-to-date ConfigMap and an existing flavor, for every prior state; an undisturbed pass creates a missing HostedCluster, starts a due upgrade, withdraws ignition that lost a dependency, cleans up a deleted resource, and in a healthy cluster equals a function |
| `ProvisionerController.Operator.Bootstrap` | internal/controller/dpfhcpprovisioner_controller.go:144-236 | a new resource has its HostedCluster on the wanted image, its NodePool and its reference after two passes |
| `ProvisionerController.Operator.Deliver` | internal/controller/dpfhcpprovisioner_controller.go:117-311 | two passes, HyperShift's rollout and three more passes make a new resource Ready and stable |
| `ProvisionerRecovery.FrontFacts` | internal/controller/dpfhcpprovisioner_controller.go:161-264 | after the first half everything but ignition is in order and ignition is untouched |
| `ProvisionerRecovery.FrontPhase` | internal/controller/dpfhcpprovisioner_controller.go:142-190 | a status in order keeps its phase through the validations, and the machine OS has been looked up when generation needs it |
| `ProvisionerRecovery.UpgradeProceeds` | internal/controller/dpfhcpprovisioner_controller.go:142-190 | from the persisted state, a due upgrade is still due after the validations |
| `ProvisionerRecovery.StartupFacts` | internal/controller/dpfhcpprovisioner_controller.go:223-264 | right after the creation there is nothing to do for ignition |
| `ProvisionerRecovery.FinishedFacts` | internal/controller/dpfhcpprovisioner_controller.go:279-283 | with the rest in order, Ready and the phase follow ignition alone |
| `ProvisionerRecovery.TailFacts` | internal/controller/dpfhcpprovisioner_controller.go:266-290 | what the second half achieves from every ignition condition, reason and ConfigMap |
| `ProvisionerRecovery.PassApproaches` | internal/controller/dpfhcpprovisioner_controller.go:117-311 | every undisturbed pass in a healthy cluster strictly decreases the distance to the stable state, which is kept |
| `ProvisionerController.Operator.Recover` | internal/controller/dpfhcpprovisioner_controller.go:117-311 | three such passes make any reachable state Ready and stable, and more passes keep it so |
| `ProvisionerController.AllInvAt` | internal/controller/dpfhcpprovisioner_controller.go:117-311 | the invariant holds at every index of the record of persisted states |
| `ProvisionerController.Operator.Run` | internal/controller/dpfhcpprovisioner_controller.go:117-311 | in every persisted state of every run: upgrading means withdrawn ignition and no ConfigMap, the resource's ConfigMap is not older than the HostedCluster's image, and neither is any other if none was left by a predecessor; Ready has its rollout on record; every HostedCluster was created under good verdicts |
| `Finalizer.Manager.RegisterAll` | cmd/main.go:287-299 | the registered list: kubeconfig, HostedCluster, MetalLB |
| `Finalizer.CleanedStays` | internal/controller/finalizer/manager.go:72-106 | what a handler has established stays so while later handlers run |
| `Finalizer.Manager.CleanupKubeconfig` | internal/controller/kubeconfiginjection/cleanup_handler.go:72-131 | the secrets listed by label are deleted, undisturbed exactly those, whatever other secrets there are |
| `Finalizer.Manager.DeleteResource` | internal/controller/hostedcluster/cleanup_handler.go:133-203 | done means absent or not owned; a requeue leaves fewer owned objects once deletions complete |
| `Finalizer.Manager.DeleteSecrets` | internal/controller/hostedcluster/cleanup_handler.go:206-279 | exactly the controlled secrets under the three names go, and success means that none of them is left |
| `Finalizer.Manager.CleanupHostedCluster` | internal/controller/hostedcluster/cleanup_handler.go:85-129 | done means that neither HostedCluster nor NodePool is owned any more and that the old copies and the etcd key are gone |
| `Finalizer.Manager.CleanupMetalLB` | internal/controller/metallb/cleanup_handler.go:69-161 | pool before advertisement, and done means that neither is owned |
| `Finalizer.Manager.DeleteAddress` | internal/controller/metallb/cleanup_handler.go:77-154 | an owned pool or advertisement is asked to go on every visit, and a requeue leaves fewer owned objects once deletions complete |
| `Finalizer.Manager.HandleFinalizerCleanup` | internal/controller/finalizer/manager.go:72-106 | for any list in any order, a handler runs only after all earlier ones were done in the same pass, and completion means that all of them hold at once |
| `Finalizer.Manager.HandleDeletion` | internal/controller/dpfhcpprovisioner_controller.go:1670-1709 | the finalizer goes only when nothing of the resource is left, its secrets included; an undisturbed pass removes it or makes measurable progress |
| `Finalizer.Manager.Drain` | internal/controller/dpfhcpprovisioner_controller.go:1670-1709 | if requested deletions complete between passes, everything and then the finalizer is gone after at most one pass more than there are owned objects |
| `Finalizer.Manager.Run` | internal/controller/finalizer/manager.go:72-106 | in every run with the registered order, each deletion was of an owned object in its turn, load balancer addresses last, and the finalizer went only when nothing was left |
| `Exclusivity.FindConflict` | internal/controller/dpucluster/validator.go:201-232 | returns the first other provisioner with the same reference, and nothing exactly when there is none |
| `Exclusivity.ListDecides` | internal/controller/dpucluster/validator.go:208-231 | the check over the list decides exclusivity in the system |
| `Exclusivity.StepKeepsInv` | internal/controller/dpfhcpprovisioner_controller.go:144-167 | every step of users and passes keeps the invariant: holders are protected by their finalizer and alone |
| `Exclusivity.OneOwnerPerCluster` | README.md:5 | in no reachable state of interleaved passes do two provisioners of one DPUCluster own a HostedCluster |
| `Exclusivity.CreationIsFirst` | internal/controller/dpfhcpprovisioner_controller.go:1427-1447 | no creation happens beside a rival's HostedCluster, even if rivals appeared after the check |
| `Exclusivity.RivalsBlockEachOther` | internal/controller/dpucluster/validator.go:215-228 | in any run, no pass of either rival gets past the check while both are there, and ownership stays as it is |
| `Exclusivity.ClearedIffAlone` | internal/controller/dpucluster/validator.go:201-232 | in any run, a pass gets past the check exactly if no other provisioner references the DPUCluster, and may then create |
| `Exclusivity.HandOver` | internal/controller/dpfhcpprovisioner_controller.go:1670-1709 | deleting the only rival hands the DPUCluster over |
| `SecretCopies.NamesDiffer` | internal/controller/hostedcluster/secrets.go:53-67 | for every provisioner name the copy names, the legacy names and the etcd key's name do not collide |
| `SecretCopies.CopyNamesAre` | internal/controller/hostedcluster/secrets.go:53-61 | the two names, written out |
| `SecretCopies.CopyNamesFollowReferences` | internal/controller/hostedcluster/secrets.go:45-61 | a copy's name changes exactly with the digest of its own reference |
| `SecretCopies.Manager.CopySecret` | internal/controller/hostedcluster/secrets.go:132-271 | creates a labelled owned copy, relabels an owned one, refuses another owner's, and writes nothing when nothing changes |
| `SecretCopies.Manager.CleanupStaleSecretCopies` | internal/controller/hostedcluster/secrets.go:277-305 | only stale copies disappear, and on success all of them |
| `SecretCopies.Manager.CopySecrets` | internal/controller/hostedcluster/secrets.go:103-129 | success leaves the settled store; in every case the secrets that are not copies are spared; an unchanged store means no write |
| `SecretCopies.ExactlyOneCopyEach` | internal/controller/hostedcluster/secrets.go:103-305 | exactly one owned pull copy and one owned SSH copy remain, under the current names |
| `SecretCopies.NewCopiesHaveSourceData` | internal/controller/hostedcluster/secrets.go:132-271 | a new copy has its source's data, and an existing one the data it had |
| `SecretCopies.SettledSpares` | internal/controller/hostedcluster/secrets.go:277-305 | other owners' secrets and unlabelled non-legacy ones are untouched |
| `SecretCopies.EtcdKeySpared` | internal/controller/hostedcluster/secrets.go:309-369 | so is the etcd key |
| `SecretCopies.RemovedIffDoomed` | internal/controller/hostedcluster/secrets.go:284-303 | which secrets a run removes, decided beforehand |
| `SecretCopies.SecondRunWritesNothingIff` | internal/controller/hostedcluster/secrets.go:103-305 | a second run has nothing to do if and only if neither reference names a copy that the first run removes |
| `SecretCopies.LegacyReferenceFails` | internal/controller/hostedcluster/secrets.go:294-295 | a reference to the provisioner's own legacy copy works once and then never again |
| `SecretCopies.Manager.CreateOrUpdateHostedCluster` | internal/controller/hostedcluster/hostedcluster.go:64-155 | moves references with a requeue, creates what is missing, refuses another owner's; going on means current references |
| `SecretCopies.Manager.SyncCredentials` | internal/controller/dpfhcpprovisioner_controller.go:199-235 | when the pass goes on, the HostedCluster names the current copies, both exist, and new ones hold the data of the referenced secrets |
| `SecretCopies.Manager.Rotate` | internal/controller/dpfhcpprovisioner_controller.go:199-235 | after any change of references the second undisturbed pass goes on with the new copies and the data of the new references, and a third writes nothing |
| `IgnitionSync.IgnitionContainsSSHKey` | internal/controller/ignitiongenerator/ignition_generator.go:475-490 | the nested search finds the key, up to surrounding white space, if and only if some user has it |
| `IgnitionSync.TrimSpaceIs` | internal/controller/ignitiongenerator/ignition_generator.go:481-485 | trimming takes exactly the white space around the text |
| `IgnitionSync.Generator.Synchronized` | internal/controller/ignitiongenerator/ignition_generator.go:382-472 | a token is returned only when references, copies, config version, token and hash agreed, each at the moment it was read and in that order, and undisturbed exactly then; what is missing is waited for, what is unusable is a failure |
| `IgnitionSync.Generator.DownloadStrict` | internal/controller/ignitiongenerator/ignition_generator.go:511-608 | with references only the current token is used and the payload must carry the current key |
| `IgnitionSync.Generator.DownloadLegacy` | internal/controller/ignitiongenerator/ignition_generator.go:527-608 | without references the payload comes from a listed token that the server accepted; rejected tokens are passed over and the first other answer decides |
| `IgnitionSync.Generator.Download` | internal/controller/ignitiongenerator/ignition_generator.go:511-608 | the strict way is taken as soon as one reference is set |
| `IgnitionSync.LiveKeepsKeys` | internal/controller/ignitiongenerator/ignition_generator.go:731-734 | the live config carries a key exactly when the payload does |
| `IgnitionSync.LiveKeepsAll` | internal/controller/ignitiongenerator/ignition_generator.go:731-734 | the live config has the payload's users and groups in every case |
| `IgnitionSync.Generator.GenerateIgnition` | internal/controller/ignitiongenerator/ignition_generator.go:133-202 | while the cluster moves on between any two reads, the ConfigMap is written and the condition set only with what a synchronized server served during this generation, with the SSH key as read; undisturbed it is written exactly when everything is there, and otherwise stays as it was with the condition False, waiting exactly when HyperShift is behind |
| `CsrApproval.IsPending` | internal/controller/csrapproval/hostname.go:98-109 | pending means neither approved nor denied |
| `CsrApproval.ExtractionAgrees` | internal/controller/csrapproval/hostname.go:42-95 | a request that meets the predicate for a hostname has that hostname extracted |
| `CsrApproval.AfterPrefixIff` | internal/controller/csrapproval/hostname.go:73-95 | the prefix is removed exactly from names that have it and something after it |
| `CsrApproval.HostnameUnique` | internal/controller/csrapproval/hostname.go:42-55 | a request can be approved for one hostname only |
| `CsrApproval.MeetsIff` | internal/controller/csrapproval/csr_content_validation.go:48-303 | the declarative predicate with every name, group, usage and phase written out |
| `CsrApproval.ValidateUsages` | internal/controller/csrapproval/csr_content_validation.go:184-202 | the flag map accepts exactly the allowed set of usages |
| `CsrApproval.ValidateBootstrapperIdentity` | internal/controller/csrapproval/csr_content_validation.go:122-149 | the bootstrapper's name and all required groups |
| `CsrApproval.ValidateNodeIdentity` | internal/controller/csrapproval/csr_content_validation.go:152-179 | the node's own name and both node groups |
| `CsrApproval.ValidateServingIdentities` | internal/controller/csrapproval/csr_content_validation.go:275-303 | exactly the hostname as DNS name and only routable addresses |
| `CsrApproval.ValidateBootstrapCSR` | internal/controller/csrapproval/csr_content_validation.go:48-83 | accepts exactly the declared bootstrap content |
| `CsrApproval.ValidateServingCSR` | internal/controller/csrapproval/csr_content_validation.go:86-119 | accepts exactly the declared serving content |
| `CsrApproval.GetDPU` | internal/controller/csrapproval/csr_owner_validation.go:122-135 | finds a DPU of that name if there is one |
| `CsrApproval.NodeExists` | internal/controller/csrapproval/csr_owner_validation.go:138-151 | decides membership |
| `CsrApproval.ValidateCSROwner` | internal/controller/csrapproval/csr_owner_validation.go:57-119 | unless a lookup fails, the verdict is the DPU's phase, and for serving the node's existence |
| `CsrApproval.SplitBySigner` | internal/controller/csrapproval/csrapproval.go:178-193 | the three lists partition the pending ones by signer, and each keeps their order |
| `CsrApproval.SignersPartition` | internal/controller/csrapproval/csrapproval.go:178-193 | the three kinds of signers divide any list of requests |
| `CsrApproval.Approver.ProcessCSR` | internal/controller/csrapproval/csrapproval.go:230-279 | approves nothing but an approvable request, and without errors always that |
| `CsrApproval.Approver.ApproveCSR` | internal/controller/csrapproval/csrapproval.go:282-295 | appends one approval to that request only |
| `CsrApproval.Approver.ProcessPendingCSRs` | internal/controller/csrapproval/csrapproval.go:152-224 | whatever fails, only approvable requests are approved; without errors the result is exactly the declarative poll |
| `CsrApproval.DecidedStays` | internal/controller/csrapproval/hostname.go:98-109 | a decided request is never touched again |
| `CsrApproval.ApprovedAtMostOnce` | internal/controller/csrapproval/csrapproval.go:152-295 | over any run of polls in a changing fleet a request gains one approval, exactly if some poll finds it approvable, or nothing |
| `CsrApproval.FurtherPollsAddNothing` | internal/controller/csrapproval/csrapproval.go:152-224 | in an unchanged cluster any number of further polls changes nothing |
| `Escaping.EscapeRoundTrip` | internal/ignition/mtu.go:28-30 | unescaping undoes escaping, for all bytes |
| `Escaping.EscapeAlphabet` | internal/ignition/machineos.go:62-63 | escaped text has no semicolon and no comma |
| `Escaping.EscapePlain` | internal/ignition/mtu.go:28-30 | letters, digits and four marks stand for themselves |
| `Escaping.PercentAligned` | internal/ignition/mtu.go:73-78 | every percent sign in escaped text starts the codeword of some byte |
| `Escaping.PrefixDecodes` | internal/ignition/mtu.go:73-78 | an escaped pattern at the start of escaped text is the pattern at the start of the text |
| `Escaping.FirstOccurrence` | internal/ignition/mtu.go:73-78 | the first escaped occurrence is the escape of the first occurrence |
| `Escaping.EditEscaped` | internal/ignition/mtu.go:69-83 | replacing in escaped text is escaping the replaced text |
| `IgnitionFiles.MtuEditsText` | internal/ignition/mtu.go:69-83 | the source of the first virtual function's file becomes the escape of its text with the MTU inserted, whatever the text |
| `IgnitionFiles.MtuEditsContent` | internal/ignition/mtu.go:69-83 | and so its content does |
| `IgnitionFiles.MtuInserted` | internal/ignition/mtu.go:73-78 | the edit inserts one line behind the first section header and changes nothing else |
| `IgnitionFiles.MtuNeedsSection` | internal/ignition/mtu.go:73-78 | a text without the section is left alone |
| `IgnitionFiles.DecimalReads` | internal/ignition/mtu.go:33-44 | the written number reads back, without leading zeros |
| `IgnitionFiles.ConnectionFileIs` | internal/ignition/mtu.go:33-67 | path, mode, overwrite flag and text of an interface file |
| `IgnitionFiles.ConnectionFilesAre` | internal/ignition/mtu.go:50-52 | the four interfaces |
| `IgnitionFiles.ConnectionFileContent` | internal/ignition/mtu.go:33-44 | an added interface file decodes to the connection text |
| `IgnitionFiles.Config.EnableMTU` | internal/ignition/mtu.go:47-84 | four files are appended, the matching ones are edited, the rest and the order stay |
| `IgnitionFiles.RecompressKeepsContent` | internal/ignition/compress.go:32-85 | recompression keeps content, path, mode and overwrite flag, and is the identity afterwards |
| `IgnitionFiles.RecompressFailsIff` | internal/ignition/compress.go:50-66 | it fails exactly on uncompressed files without readable content |
| `IgnitionFiles.SecondRunIsIdentity` | internal/ignition/compress.go:32-85 | a second run over all files changes nothing |
| `IgnitionFiles.SecondRunSucceeds` | internal/ignition/compress.go:32-85 | and does not fail |
| `IgnitionFiles.PartialRunKeepsContents` | internal/ignition/compress.go:32-85 | a run stopped by a bad file has kept every content |
| `IgnitionFiles.Config.GzipIgnitionFiles` | internal/ignition/compress.go:32-85 | recompresses up to the first bad file, succeeds exactly if there is none, and keeps count, order, paths, modes and contents in either case |
| `IgnitionFiles.ReadEscaped` | internal/ignition/compress.go:57-66 | escaped text in a data URI reads as the text: it cannot contain the base64 mark |
| `IgnitionFiles.ReadMarked` | internal/ignition/compress.go:50-56 | behind the first base64 mark the rest is decoded as base64 or is malformed |
| `IgnitionFiles.ReadPlain` | internal/ignition/compress.go:57-66 | without the mark, what follows the first comma of a data URI is unescaped |
| `IgnitionFiles.ReadElsewhere` | internal/ignition/compress.go:57-68 | everything else is not data |
| `IgnitionFiles.NoPlainDataLeft` | internal/ignition/compress.go:32-85 | after a whole run no file holds its data uncompressed |
| `IgnitionFiles.OnlyURLChanges` | internal/ignition/machineos.go:46-60 | in the JSON, the URL is set in the spec, whatever stood there is gone, and every other datum stays at its path |
| `IgnitionFiles.MachineOSEditsText` | internal/ignition/machineos.go:36-65 | on escaped text the edit is an edit of the text |
| `IgnitionFiles.MachineConfigSurvives` | internal/ignition/machineos.go:62-65 | the edited machine config comes out of recompression byte for byte |
| `IgnitionFiles.Config.ReplaceMachineOSURL` | internal/ignition/machineos.go:30-71 | edits the first file of that path and no other, or fails and changes nothing |
| `IgnitionFiles.EditsCompose` | internal/controller/ignitiongenerator/ignition_generator.go:649-702 | the three edits in sequence deliver the edited machine config, the patched and new files and every other content, all compressed |
| `IgnitionFiles.Config.EditTarget` | internal/controller/ignitiongenerator/ignition_generator.go:649-702 | the program's order of edits delivers the machine config byte for byte, the MTU settings unless the MTU is 1500, and the content of all other files; it fails only for want of the machine config or on an undecodable file |
| `EmptyObjects.StripEmpty` | internal/ignition/encoding.go:65-81 | the loop over the keys, in any order, computes the stripped object |
| `EmptyObjects.RemovedIffHollow` | internal/ignition/encoding.go:65-81 | a key goes exactly if its value is an object with nothing but objects in it |
| `EmptyObjects.StripCleans` | internal/ignition/encoding.go:65-81 | no visited position keeps an empty object under a key, also when it became empty on the way |
| `EmptyObjects.FixedIffClean` | internal/ignition/encoding.go:65-81 | exactly the clean trees are left alone |
| `EmptyObjects.StripIdempotent` | internal/ignition/encoding.go:65-81 | stripping twice is stripping once |
| `EmptyObjects.StripKeepsData` | internal/ignition/encoding.go:65-81 | every scalar stays at its path, every array keeps its length, and nothing is added |
| `OvnTemplate.OVNKDaemonsetVersionForOCP` | internal/controller/dpuservicetemplate/dpuservicetemplate.go:292-309 | the forward walk computes the table's choice, or the default for an unparsable version |
| `OvnTemplate.ChooseIsGreatest` | internal/controller/dpuservicetemplate/dpuservicetemplate.go:289-309 | for any sorted table the choice is the greatest entry at or below the version, or the default if there is none |
| `OvnTemplate.VersionOrder` | internal/controller/dpuservicetemplate/dpuservicetemplate.go:302-306 | versions are compared part by part, as a total order |
| `OvnTemplate.ResolvedVersionIs` | internal/controller/dpuservicetemplate/dpuservicetemplate.go:266-309 | the versions in use: 1.2.0 for OCP 4.22.0, 1.3.0 for every other |
| `OvnTemplate.ResolvedImageIs` | internal/controller/dpuservicetemplate/dpuservicetemplate.go:401-416 | a multi-arch release keeps the running image, another one gives the registry's, unchanged when joined |
| `OvnTemplate.SplitRejoins` | internal/controller/dpuservicetemplate/release_image.go:121-136 | repository and tag joined by a colon are the image again |
| `OvnTemplate.PortIsNoTag` | internal/controller/dpuservicetemplate/release_image.go:130-135 | a registry port is not taken for a tag |
| `OvnTemplate.OvnkImageFromDaemonSet` | internal/controller/dpuservicetemplate/dpuservicetemplate.go:239-246 | the image of the first container of that name |
| `OvnTemplate.Manager.EnsureTemplate` | internal/controller/dpuservicetemplate/dpuservicetemplate.go:521-599 | writes only an absent or a managed, live template |
| `OvnTemplate.Manager.EnsureOVNTemplate` | internal/controller/dpuservicetemplate/dpuservicetemplate.go:348-470 | keeps image, version and source note in lockstep: unchanged while the running image is the noted one, all from one fresh resolution otherwise, nothing written while an existing template's DaemonSet is not fully rolled out; undisturbed it is done exactly when all it reads is there and the template may be written |
| `OvnTemplate.Manager.Run` | internal/controller/dpuservicetemplate/dpuservicetemplate.go:348-470 | over any run the three values come from one resolution, and no ClusterVersion, registry or chart change alters them while image and template are left alone |
| `KubeconfigInjection.Injector.InjectKubeconfig` | internal/controller/kubeconfiginjection/injector.go:77-221 | undisturbed it is the functional pass; disturbed it touches only target, reference and status, and reports success only for an existing, referenced target |
| `KubeconfigInjection.Injector.CheckDrift` | internal/controller/kubeconfiginjection/injector.go:359-402 | tells drift from equality, and fails when either key is missing |
| `KubeconfigInjection.Injector.CreateOrUpdateKubeconfigSecret` | internal/controller/kubeconfiginjection/injector.go:405-474 | writes the target as a labelled copy of the source, or nothing |
| `KubeconfigInjection.CopiedIs` | internal/controller/kubeconfiginjection/injector.go:405-440 | place, key, data and labels of the copy, written out |
| `KubeconfigInjection.LinkIs` | internal/controller/kubeconfiginjection/injector.go:477-507 | DPUCluster and status get the same name |
| `KubeconfigInjection.OnePassSuffices` | internal/controller/kubeconfiginjection/injector.go:305-355 | one pass converges exactly unless the secret exists with other data and no reference to it |
| `KubeconfigInjection.TwoPassesSuffice` | internal/controller/kubeconfiginjection/injector.go:77-221 | two passes always do |
| `KubeconfigInjection.ConvergedIsFixed` | internal/controller/kubeconfiginjection/injector.go:305-355 | the converged state is a fixpoint of the whole state |
| `KubeconfigInjection.ConvergesIffReady` | internal/controller/kubeconfiginjection/injector.go:77-402 | with a HostedCluster, some number of passes converges if and only if DPUCluster and source are there and an existing target has its key |
| `KubeconfigInjection.SharedConvergesIff` | internal/controller/kubeconfiginjection/injector.go:226-402 | with one namespace, some number of passes converges if and only if the DPUCluster exists and the one secret holds the same data under both keys |
| `KubeconfigInjection.SharedSourceDestroyed` | internal/controller/kubeconfiginjection/injector.go:405-474 | with different data there, a linked pass overwrites its own source and no later pass has one |
| `KubeconfigInjection.SharedNamespaceNeverConverges` | internal/controller/kubeconfiginjection/injector.go:226-268 | a fresh secret is taken for its own copy and no number of passes converges |
| `KubeconfigInjection.SecretRefSetIff` | internal/controller/kubeconfiginjection/injector.go:305-355 | after any number of passes the status has the secret's name if and only if it had it before or the first pass found something to do |
| `KubeconfigInjection.SecretRefStaysUnset` | internal/controller/kubeconfiginjection/injector.go:308-326 | linked without drift, the status never gains the secret's name |
| `KubeconfigInjection.PassFrame` | internal/controller/kubeconfiginjection/injector.go:405-474 | no secret but the target is written |
| `KubeconfigInjection.Injector.Recover` | internal/controller/kubeconfiginjection/injector.go:77-221 | after any number of passes cut short, two undisturbed ones converge |

## Left out

- The Kubernetes client, informers, watches, predicates, events, logging and RBAC; requeue delays, messages and timestamps.
- HTTP, TLS, registry access, tar extraction, x509, PEM and kubeconfig parsing: their results are inputs.
- gzip, base64, SHA-256 and FNV: abstract functions; only the round trips are used, and no hash is taken to be injective.
- JSON parsing and printing: abstract functions of which only the round trip is used.
- IgnitionFiles.Config.EditTarget: the content providers, the flavor merge and the ignition validator that run between the edits are not modelled.
- Building HostedCluster, NodePool, DaemonSet and template specs, networking defaults, the hugepages DaemonSet and the DTS and HBN templates: long but easy.
- MetalLB configuration beyond its verdict, namespace handling, CRD validation rules, `cmd/main.go` beyond the handler order.
- The legacy token search by creation time: the tokens of a provisioner without references are given in order.
- EmptyObjects.StripEmpty: works on values and returns the stripped object; update in place and aliasing inside the decoded tree are not modelled.
- ProvisionerController.Operator.CreateOrUpdateHostedCluster: the move of secret references is only "the pass may stop here"; SecretCopies models it.
- ProvisionerController.Operator.InjectKubeconfig: only the verdict and its persistence; KubeconfigInjection models the rest.
- ProvisionerController.Operator.Cleanup: the handlers are the HostedCluster's disappearance; Finalizer models them.
- ProvisionerController.Operator.HandleDeletion: cleanup is abstracted to the HostedCluster's disappearance; Finalizer models the protocol.
- OvnTemplate.Manager.EnsureOVNTemplate: the template is not replaced between the two reads of one pass, and pre-release parts of table entries are not modelled.
- CsrApproval.Approver.ProcessPendingCSRs: DPUs and nodes stand still during one poll; they may change between polls.
- No guarantee is stated where the code gives none: a second image change during an upgrade waits for the first, ignition may be generated for an image the HostedCluster does not have yet when generation is retried in phase Failed, validators persist a phase computed from an older Ready, stale copies are deleted before the HostedCluster's references move, and hashed copies are left to garbage collection.
