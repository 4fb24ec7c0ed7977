/** The DPFHCPProvisioner resource, and the two decisions every reconcile pass ends with:
    the Ready condition and the lifecycle phase. */
module ProvisionerStatus {
  import opened Text
  import opened ReleaseVersion

  datatype Tri = Yes | No | Unknown

  datatype Reason =
    | ReleaseImageUpdated | DependencyDeleted | DeploymentChanged
    | ConfigMapDeleted | OperatorRestarted
    | GenerationFailed | SyncPending | MachineOSMissing | Generated
    | Blocked | Other

  datatype Condition = Condition(status: Tri, reason: Reason, generation: nat)

  datatype ConditionType =
    | Ready
    | HcAvailable | HcProgressing | HcDegraded
    | ValidReleaseInfo | ValidReleaseImage | IgnitionEndpointAvailable | IgnitionServerValidReleaseInfo
    | KubeConfigInjected | MetalLB | Ignition | Upgrading
    | DpuClusterMissing | ClusterTypeValid | DpuClusterInUse | SecretsValid | LayerImageFound

  type Conditions = map<ConditionType, Condition>

  datatype Phase =
    | Pending | WaitingForControlPlane | GeneratingIgnition | ClusterVersionProgressing
    | PhaseReady | Failed | ErrorPhase | Deleting

  /** `readyEntry` is auxiliary: the rollout for which Ready was last granted. */
  datatype Status = Status(
    phase: Phase,
    conditions: Conditions,
    hostedClusterRef: bool,
    layerImage: string,
    readyEntry: Option<Entry>)

  datatype Spec = Spec(image: string, machineOSURL: string, exposeThroughLB: bool)

  /** `generation` counts the edits of the spec. */
  datatype Provisioner = Provisioner(
    spec: Spec, generation: nat, deleting: bool, finalizer: bool, status: Status)

  /** `imageRevision` is auxiliary: the generation whose image was last written to the spec. */
  datatype HostedCluster = HostedCluster(
    owned: bool, image: string, imageRevision: nat,
    history: seq<Entry>, versionProgressing: bool, conditions: Conditions)

  datatype Read = Unreadable | Missing | Found(hc: HostedCluster)

  predicate Is(c: Conditions, t: ConditionType, s: Tri) {
    t in c && c[t].status == s
  }

  function Set(st: Status, t: ConditionType, c: Condition): Status {
    st.(conditions := st.conditions[t := c])
  }

  // ----- Ready -----

  predicate Rolled(read: Read, image: string) {
    read.Found? && ControlPlaneReady(read.hc.history, image)
  }

  /** Guards are tried in the source's order; the first unmet one makes Ready False. */
  function ReadyVerdict(cr: Provisioner, read: Read): Tri {
    var c := cr.status.conditions;
    if cr.spec.exposeThroughLB && !Is(c, MetalLB, Yes) then No
    else if !Is(c, HcAvailable, Yes) then No
    else if !Is(c, KubeConfigInjected, Yes) then No
    else if !Is(c, Ignition, Yes) || c[Ignition].generation != cr.generation then No
    else if cr.status.hostedClusterRef && !Rolled(read, cr.spec.image) then No
    else Yes
  }

  function WithReady(cr: Provisioner, read: Read): Provisioner {
    var verdict := ReadyVerdict(cr, read);
    var st := Set(cr.status, Ready, Condition(verdict, Other, 0));
    cr.(status := if verdict == Yes && read.Found? && read.hc.history != []
                  then st.(readyEntry := Some(read.hc.history[0])) else st)
  }

  // ----- Phase -----

  /** A validation condition, and whether True (rather than False) is the failing value. */
  datatype Check = Check(condition: ConditionType, negative: bool)

  const VALIDATION_CHECKS: seq<Check> := [
    Check(DpuClusterMissing, true),
    Check(ClusterTypeValid, false),
    Check(DpuClusterInUse, true),
    Check(SecretsValid, false),
    Check(LayerImageFound, false)
  ]

  predicate CheckFails(c: Conditions, check: Check) {
    Is(c, check.condition, if check.negative then Yes else No)
  }

  predicate ValidationFails(c: Conditions) {
    exists i :: 0 <= i < |VALIDATION_CHECKS| && CheckFails(c, VALIDATION_CHECKS[i])
  }

  method AnyCheckFails(c: Conditions) returns (failed: bool)
    ensures failed == ValidationFails(c)
  {
    for i := 0 to |VALIDATION_CHECKS|
      invariant forall k :: 0 <= k < i ==> !CheckFails(c, VALIDATION_CHECKS[k])
    {
      if CheckFails(c, VALIDATION_CHECKS[i]) {
        return true;
      }
    }
    return false;
  }

  predicate IgnitionFailed(c: Conditions) {
    Is(c, Ignition, No) && (c[Ignition].reason == GenerationFailed || c[Ignition].reason == MachineOSMissing)
  }

  predicate HostedClusterBroken(c: Conditions) {
    || (Is(c, HcProgressing, No) && c[HcProgressing].reason == Blocked)
    || Is(c, HcDegraded, Yes)
  }

  function PhaseOf(cr: Provisioner, read: Read): Phase {
    var c := cr.status.conditions;
    if cr.deleting then Deleting
    else if ValidationFails(c) then Failed
    else if IgnitionFailed(c) then Failed
    else if cr.status.hostedClusterRef && HostedClusterBroken(c) then ErrorPhase
    else if Is(c, Ready, Yes) then PhaseReady
    else if Is(c, Ignition, Yes) && c[Ignition].generation == cr.generation then ClusterVersionProgressing
    else if Is(c, HcAvailable, Yes) && Is(c, KubeConfigInjected, Yes) then
      if Is(c, Upgrading, Yes) && cr.status.hostedClusterRef && !Rolled(read, cr.spec.image)
      then WaitingForControlPlane
      else GeneratingIgnition
    else if cr.status.hostedClusterRef then WaitingForControlPlane
    else Pending
  }

  function WithPhase(cr: Provisioner, read: Read): Provisioner {
    cr.(status := cr.status.(phase := PhaseOf(cr, read)))
  }

  // ----- What the decisions mean -----

  /** Conditions that only come into being once the HostedCluster is referenced. */
  predicate RefFirst(st: Status) {
    var c := st.conditions;
    (HcAvailable in c || KubeConfigInjected in c || Ignition in c || Upgrading in c || Is(c, Ready, Yes))
      ==> st.hostedClusterRef
  }

  /** Ready is granted exactly when every component is operational; in particular the
      branch that skips the version check for a missing reference is never taken. */
  lemma ReadyIff(cr: Provisioner, read: Read)
    requires RefFirst(cr.status)
    ensures var c := cr.status.conditions;
            Is(WithReady(cr, read).status.conditions, Ready, Yes) <==>
              && cr.status.hostedClusterRef
              && read.Found? && read.hc.history != []
              && read.hc.history[0].completed && Matches(read.hc.history[0], cr.spec.image)
              && Is(c, Ignition, Yes) && c[Ignition].generation == cr.generation
              && Is(c, KubeConfigInjected, Yes) && Is(c, HcAvailable, Yes)
              && (cr.spec.exposeThroughLB ==> Is(c, MetalLB, Yes))
  {
  }

  /** Phase Ready computed right after Ready also rules out every other trouble. */
  lemma PhaseReadyIff(cr: Provisioner, read: Read)
    ensures var c := cr.status.conditions;
            PhaseOf(cr, read) == PhaseReady <==>
              && Is(c, Ready, Yes) && !cr.deleting
              && !Is(c, DpuClusterMissing, Yes) && !Is(c, DpuClusterInUse, Yes)
              && !Is(c, ClusterTypeValid, No) && !Is(c, SecretsValid, No) && !Is(c, LayerImageFound, No)
              && !(Is(c, Ignition, No) && c[Ignition].reason in {GenerationFailed, MachineOSMissing})
              && !(cr.status.hostedClusterRef && Is(c, HcProgressing, No) && c[HcProgressing].reason == Blocked)
              && !(cr.status.hostedClusterRef && Is(c, HcDegraded, Yes))
  {
    ValidationFailsIff(cr.status.conditions);
  }

  /** Nothing is wrong with the resource. */
  predicate Untroubled(cr: Provisioner) {
    var c := cr.status.conditions;
    && !cr.deleting
    && !Is(c, DpuClusterMissing, Yes) && !Is(c, DpuClusterInUse, Yes)
    && !Is(c, ClusterTypeValid, No) && !Is(c, SecretsValid, No) && !Is(c, LayerImageFound, No)
    && !(Is(c, Ignition, No) && c[Ignition].reason in {GenerationFailed, MachineOSMissing})
  }

  /** The rollout of an upgrade is still to be waited for. */
  predicate RollingOut(cr: Provisioner, read: Read) {
    && Is(cr.status.conditions, Upgrading, Yes) && cr.status.hostedClusterRef
    && !(read.Found? && read.hc.history != [] && read.hc.history[0].completed && Matches(read.hc.history[0], cr.spec.image))
  }

  /** When the other phases are shown: trouble first, then the stages of provisioning in order. */
  lemma PhaseIff(cr: Provisioner, read: Read)
    ensures var c, p, ref := cr.status.conditions, PhaseOf(cr, read), cr.status.hostedClusterRef;
      var broken := ref && ((Is(c, HcProgressing, No) && c[HcProgressing].reason == Blocked) || Is(c, HcDegraded, Yes));
      var configured := Is(c, Ignition, Yes) && c[Ignition].generation == cr.generation;
      var connected := Is(c, HcAvailable, Yes) && Is(c, KubeConfigInjected, Yes);
      && (p == Deleting <==> cr.deleting)
      && (p == Failed <==> !cr.deleting && !Untroubled(cr))
      && (p == ErrorPhase <==> Untroubled(cr) && broken)
      && (p == ClusterVersionProgressing <==> Untroubled(cr) && !broken && !Is(c, Ready, Yes) && configured)
      && (p == GeneratingIgnition <==>
            Untroubled(cr) && !broken && !Is(c, Ready, Yes) && !configured && connected && !RollingOut(cr, read))
      && (p == WaitingForControlPlane <==>
            && Untroubled(cr) && !broken && !Is(c, Ready, Yes) && !configured
            && (if connected then RollingOut(cr, read) else ref))
  {
    ValidationFailsIff(cr.status.conditions);
  }

  lemma ValidationFailsIff(c: Conditions)
    ensures ValidationFails(c) <==>
              || Is(c, DpuClusterMissing, Yes) || Is(c, DpuClusterInUse, Yes)
              || Is(c, ClusterTypeValid, No) || Is(c, SecretsValid, No) || Is(c, LayerImageFound, No)
  {
    assert CheckFails(c, VALIDATION_CHECKS[0]) <==> Is(c, DpuClusterMissing, Yes);
    assert CheckFails(c, VALIDATION_CHECKS[1]) <==> Is(c, ClusterTypeValid, No);
    assert CheckFails(c, VALIDATION_CHECKS[2]) <==> Is(c, DpuClusterInUse, Yes);
    assert CheckFails(c, VALIDATION_CHECKS[3]) <==> Is(c, SecretsValid, No);
    assert CheckFails(c, VALIDATION_CHECKS[4]) <==> Is(c, LayerImageFound, No);
  }

  /** Initial provisioning is exactly the reference-free, untroubled state. */
  lemma PendingIff(cr: Provisioner, read: Read)
    requires RefFirst(cr.status)
    ensures PhaseOf(cr, read) == Pending <==>
              !cr.deleting && !cr.status.hostedClusterRef && !ValidationFails(cr.status.conditions)
    ensures !cr.status.hostedClusterRef ==> PhaseOf(cr, read) in {Pending, Failed, Deleting}
  {
  }

  // ----- Mirroring -----

  const MIRRORED: seq<ConditionType> := [
    HcAvailable, HcProgressing, HcDegraded,
    ValidReleaseInfo, ValidReleaseImage, IgnitionEndpointAvailable, IgnitionServerValidReleaseInfo
  ]

  predicate IsMirrored(t: ConditionType) {
    || t.HcAvailable? || t.HcProgressing? || t.HcDegraded? || t.ValidReleaseInfo? || t.ValidReleaseImage?
    || t.IgnitionEndpointAvailable? || t.IgnitionServerValidReleaseInfo?
  }

  lemma MirroredList(t: ConditionType)
    ensures t in MIRRORED <==> IsMirrored(t)
  {
    assert MIRRORED[0] == HcAvailable && MIRRORED[1] == HcProgressing && MIRRORED[2] == HcDegraded;
    assert MIRRORED[3] == ValidReleaseInfo && MIRRORED[4] == ValidReleaseImage;
    assert MIRRORED[5] == IgnitionEndpointAvailable && MIRRORED[6] == IgnitionServerValidReleaseInfo;
  }

  /** The conditions the HostedCluster reports are copied, the others kept. */
  function Mirrored(cr: Provisioner, hc: HostedCluster): Conditions {
    MirroredUpTo(cr, hc, |MIRRORED|)
  }

  function MirroredUpTo(cr: Provisioner, hc: HostedCluster, n: nat): Conditions
    requires n <= |MIRRORED|
  {
    if n == 0 then cr.status.conditions
    else if MIRRORED[n - 1] in hc.conditions then
      MirroredUpTo(cr, hc, n - 1)[MIRRORED[n - 1] := hc.conditions[MIRRORED[n - 1]].(generation := cr.generation)]
    else MirroredUpTo(cr, hc, n - 1)
  }

  method MirrorConditions(cr: Provisioner, hc: HostedCluster) returns (c: Conditions)
    ensures c == Mirrored(cr, hc)
  {
    c := cr.status.conditions;
    for i := 0 to |MIRRORED|
      invariant c == MirroredUpTo(cr, hc, i)
    {
      var t := MIRRORED[i];
      if t in hc.conditions {
        c := c[t := hc.conditions[t].(generation := cr.generation)];
      }
    }
  }

  lemma {:induction false} MirroredUpToAt(cr: Provisioner, hc: HostedCluster, n: nat, t: ConditionType)
    requires n <= |MIRRORED|
    ensures var m, copied := MirroredUpTo(cr, hc, n), t in MIRRORED[..n] && t in hc.conditions;
      && (t in m <==> t in cr.status.conditions || copied)
      && (t in m ==> m[t] == if copied then hc.conditions[t].(generation := cr.generation) else cr.status.conditions[t])
  {
    if n > 0 {
      assert MIRRORED[..n] == MIRRORED[..n - 1] + [MIRRORED[n - 1]];
      MirroredUpToAt(cr, hc, n - 1, t);
    }
  }

  /** The conditions HyperShift reports are copied and every other is kept. */
  lemma {:induction false} MirroredAt(cr: Provisioner, hc: HostedCluster, t: ConditionType)
    ensures t in Mirrored(cr, hc) <==> t in cr.status.conditions || (IsMirrored(t) && t in hc.conditions)
    ensures t in Mirrored(cr, hc) ==>
              Mirrored(cr, hc)[t] == if IsMirrored(t) && t in hc.conditions
                                     then hc.conditions[t].(generation := cr.generation)
                                     else cr.status.conditions[t]
  {
    assert MIRRORED[..|MIRRORED|] == MIRRORED;
    MirroredList(t);
    MirroredUpToAt(cr, hc, |MIRRORED|, t);
  }
}
