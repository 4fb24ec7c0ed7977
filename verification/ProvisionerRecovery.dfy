/** What one undisturbed pass does in a healthy cluster, as a function, and why three of them make
    the provisioner Ready whatever state it starts from. */
module ProvisionerRecovery {
  import opened Text
  import opened ReleaseVersion
  import opened ProvisionerStatus
  import opened ProvisionerWorld

  predicate VersionReady(hc: HostedCluster, image: string) {
    ControlPlaneReady(hc.history, image) && !hc.versionProgressing
  }

  /** The published ConfigMap reflects the current DPUDeployment, whose flavor exists. */
  predicate IgnitionUpToDate(w: World) {
    && w.cm.Some? && w.env.deployment.Some?
    && w.env.deployment.value.flavor in w.env.flavors
    && w.cm.value.flavor == w.env.deployment.value.flavor
    && w.cm.value.bfb == w.env.deployment.value.bfb
  }

  // ----- Health -----

  /** What a pass needs to work on the HostedCluster. */
  predicate GoodSurroundings(env: Surroundings, spec: Spec) {
    && env.dpuCluster == Present(false) && !env.rival && env.secretsValid
    && (spec.machineOSURL != "" || (env.layerImage.Some? && env.layerImage.value != ""))
    && (spec.exposeThroughLB ==> env.metalLB)
  }

  /** The DPUDeployment or its flavor is not there. */
  predicate DependencyLost(env: Surroundings) {
    env.deployment.None? || env.deployment.value.flavor == "" || env.deployment.value.flavor !in env.flavors
  }

  /** What ignition needs. */
  predicate GoodDependencies(env: Surroundings) {
    env.server == Serves && !DependencyLost(env)
  }

  /** HyperShift reports the wanted release as rolled out and nothing as broken. */
  predicate HealthyHostedCluster(hc: HostedCluster, image: string) {
    && hc.owned && hc.image == image
    && hc.history != [] && hc.history[0].completed && Matches(hc.history[0], image) && !hc.versionProgressing
    && Is(hc.conditions, HcAvailable, Yes)
    && HcDegraded in hc.conditions && hc.conditions[HcDegraded].status != Yes
    && HcProgressing in hc.conditions
    && !(hc.conditions[HcProgressing].status == No && hc.conditions[HcProgressing].reason == Blocked)
  }

  predicate Healthy(w: World) {
    Sound(w) && GoodDependencies(w.env)
  }

  /** Everything but the dependencies of ignition is as it should be. */
  predicate Sound(w: World) {
    && !w.cr.deleting && w.cr.finalizer && !w.cleanup
    && w.hc.Some? && HealthyHostedCluster(w.hc.value, w.cr.spec.image)
    && (w.np.Some? ==> w.np.value.owned)
    && GoodSurroundings(w.env, w.cr.spec) && w.env.kubeconfig
  }

  // ----- The steps of a pass -----

  function Mark(cr: Provisioner, t: ConditionType, s: Tri, reason: Reason): Provisioner {
    cr.(status := Set(cr.status, t, Condition(s, reason, cr.generation)))
  }

  function ClusterChecked(cr: Provisioner): Provisioner {
    Mark(Mark(Mark(cr, ClusterTypeValid, Yes, Other), DpuClusterInUse, No, Other), DpuClusterMissing, No, Other)
  }

  function LookedUp(cr: Provisioner, env: Surroundings): Provisioner {
    if cr.spec.machineOSURL != "" then Mark(cr, LayerImageFound, Yes, Other)
    else if cr.status.phase !in {Pending, Failed, GeneratingIgnition} || env.layerImage.None? then cr
    else Mark(cr.(status := cr.status.(layerImage := env.layerImage.value)), LayerImageFound, Yes, Other)
  }

  function Validated(cr: Provisioner, env: Surroundings, read: Read): Provisioner {
    WithPhase(Looked(cr, env), read)
  }

  function Prepared(cr: Provisioner): Provisioner {
    if cr.spec.exposeThroughLB then Mark(cr, MetalLB, Yes, Other) else cr
  }

  function Finished(cr: Provisioner, read: Read): Provisioner {
    WithPhase(WithReady(cr, read), read)
  }

  function UpgradeClosed(cr: Provisioner, read: Read): Provisioner {
    if cr.status.hostedClusterRef && cr.status.phase !in {Pending, Failed} && Is(cr.status.conditions, Upgrading, Yes)
    then Finished(Mark(cr, Upgrading, No, Other), read)
    else cr
  }

  function Referenced(cr: Provisioner): Provisioner {
    cr.(status := cr.status.(hostedClusterRef := true))
  }

  function Synced(cr: Provisioner, hc: HostedCluster): Provisioner {
    var referenced := Referenced(cr);
    referenced.(status := referenced.status.(conditions := Mirrored(referenced, hc)))
  }

  function Injected(cr: Provisioner, env: Surroundings): Provisioner {
    Mark(cr, KubeConfigInjected, if env.dpuCluster.Present? && env.kubeconfig then Yes else No, Other)
  }

  /** The in-memory copy, and the persisted status, when the kubeconfig has been injected. */
  function Front(cr: Provisioner, env: Surroundings, hc: HostedCluster): Provisioner {
    Mark(Synced(UpgradeClosed(Begun(cr, env, hc), Found(hc)), hc), KubeConfigInjected, Yes, Other)
  }

  function WithNodePool(w: World, image: string): World {
    w.(np := if w.np.None? then Some(NodePool(true, image)) else w.np)
  }

  function AfterFront(w: World): World
    requires w.hc.Some?
  {
    PutStatus(WithNodePool(w, w.cr.spec.image), Front(w.cr, w.env, w.hc.value).status)
  }

  // ----- The first pass -----

  predicate Alive(cr: Provisioner) {
    !cr.deleting && cr.finalizer
  }

  /** There is no HostedCluster, and no NodePool that would be in the way. */
  predicate Unprovisioned(w: World) {
    w.hc.None? && (w.np.Some? ==> w.np.value.owned)
  }

  predicate Startup(w: World) {
    Unprovisioned(w) && Alive(w.cr) && GoodSurroundings(w.env, w.cr.spec)
  }

  function NewHostedCluster(cr: Provisioner): HostedCluster {
    HostedCluster(true, cr.spec.image, cr.generation, [], false, map[])
  }

  function WithNewHostedCluster(w: World, cr: Provisioner): World {
    w.(hc := Some(NewHostedCluster(cr)))
  }

  function StartupFront(cr: Provisioner, env: Surroundings): Provisioner {
    Injected(Synced(Prepared(Validated(WithPhase(cr, Missing), env, Missing)), NewHostedCluster(cr)), env)
  }

  function AfterStartup(w: World): World {
    PutStatus(WithNodePool(WithNewHostedCluster(w, w.cr), w.cr.spec.image), StartupFront(w.cr, w.env).status)
  }

  // ----- Upgrades -----

  /** A sync that a crash cut short: the target is not rolled out, and another version once was. */
  predicate Missed(cr: Provisioner, hc: HostedCluster) {
    && cr.status.phase == PhaseReady
    && !ControlPlaneReady(hc.history, cr.spec.image) && CompletedDifferent(hc.history, cr.spec.image)
  }

  predicate UpgradeDue(cr: Provisioner, w: World) {
    && cr.status.hostedClusterRef && cr.status.phase !in {Pending, Failed} && !Is(cr.status.conditions, Upgrading, Yes)
    && w.hc.Some? && (w.hc.value.image != cr.spec.image || Missed(cr, w.hc.value))
  }

  /** What a user or a crash leaves for the next pass to act on, read off the persisted state. */
  predicate MustUpgrade(w: World) {
    var c := w.cr.status.conditions;
    && Alive(w.cr) && GoodSurroundings(w.env, w.cr.spec)
    && w.cr.status.hostedClusterRef && w.hc.Some? && !Is(c, Upgrading, Yes) && !IgnitionFailed(c)
    && (|| w.hc.value.image != w.cr.spec.image
        || (&& Is(c, Ready, Yes) && !ValidationFails(c) && !HostedClusterBroken(c)
            && !ControlPlaneReady(w.hc.value.history, w.cr.spec.image)
            && CompletedDifferent(w.hc.value.history, w.cr.spec.image)))
  }

  /** The operator's state between passes. */
  datatype Machine = Machine(world: World, ignitionReconciled: bool)

  predicate Due(cr: Provisioner) {
    var c := cr.status.conditions;
    || cr.status.phase == GeneratingIgnition
    || (Is(c, Ignition, No) && c[Ignition].reason in {GenerationFailed, OperatorRestarted, ConfigMapDeleted})
  }

  function Closed(w: World, cr: Provisioner): World
    requires w.hc.Some?
  {
    PutStatus(w, Finished(cr, Found(w.hc.value)).status)
  }

  function Generate(w: World, cr: Provisioner): World
    requires w.hc.Some? && w.env.deployment.Some?
  {
    if cr.spec.machineOSURL == "" && cr.status.layerImage == "" then
      var failed := Mark(cr, Ignition, No, GenerationFailed);
      PutStatus(w, WithPhase(failed, Found(w.hc.value)).status)
    else
      var d := w.env.deployment.value;
      Closed(w.(cm := Some(ConfigMap(cr.generation, cr.spec.image, d.flavor, d.bfb, true))), Mark(cr, Ignition, Yes, Generated))
  }

  /** The rest of the pass, from the verification of published ignition on. */
  function IgnitionTail(w: World, cr: Provisioner, flag: bool): Machine
    requires w.hc.Some? && w.env.deployment.Some?
  {
    var configured := Is(cr.status.conditions, Ignition, Yes);
    if configured && w.cm.None? then
      Machine(Closed(w, Mark(cr, Ignition, No, ConfigMapDeleted)), true)
    else if configured && !flag then
      Machine(Closed(w, Mark(cr, Ignition, No, OperatorRestarted)), true)
    else if Due(cr) then
      Machine(Generate(w, cr), flag || configured || HasMachineOS(cr))
    else
      Machine(Closed(w, cr), true)
  }

  /** The rest of the pass, from the dependency check on. */
  function Tail(w: World, cr: Provisioner, flag: bool): Machine
    requires w.hc.Some? && w.env.deployment.Some?
  {
    var configured := Is(cr.status.conditions, Ignition, Yes);
    var d := w.env.deployment.value;
    if configured && w.cm.Some? && w.cm.value.flavor != d.flavor then
      Machine(Closed(w.(cm := None), Mark(cr, Ignition, No, DeploymentChanged)), flag)
    else if configured && w.cm.Some? && w.cm.value.bfb != d.bfb then
      Machine(w.(cm := Some(w.cm.value.(bfb := d.bfb))), flag)
    else
      IgnitionTail(w, cr, flag)
  }

  function Pass(m: Machine): Machine
    requires Healthy(m.world)
  {
    Tail(AfterFront(m.world), Front(m.world.cr, m.world.env, m.world.hc.value), m.ignitionReconciled)
  }

  // ----- Convergence -----

  /** Everything but ignition is in order, and the status says so. */
  predicate FrontInOrder(cr: Provisioner) {
    var c := cr.status.conditions;
    && cr.status.hostedClusterRef && !ValidationFails(c) && !HostedClusterBroken(c)
    && Is(c, HcAvailable, Yes) && Is(c, KubeConfigInjected, Yes) && !Is(c, Upgrading, Yes)
    && (cr.spec.exposeThroughLB ==> Is(c, MetalLB, Yes))
  }

  predicate Configured(cr: Provisioner) {
    Is(cr.status.conditions, Ignition, Yes) && cr.status.conditions[Ignition].generation == cr.generation
  }

  predicate Stable(m: Machine) {
    && FrontInOrder(m.world.cr) && Configured(m.world.cr) && IgnitionUpToDate(m.world) && m.ignitionReconciled
    && Is(m.world.cr.status.conditions, Ready, Yes) && m.world.cr.status.phase == PhaseReady
  }

  /** The next pass will generate ignition with everything at hand. */
  predicate Primed(m: Machine) {
    var cr := m.world.cr;
    var c := cr.status.conditions;
    && FrontInOrder(cr)
    && (|| (Is(c, Ignition, No) && c[Ignition].reason == GenerationFailed)
        || (!Is(c, Ready, Yes) && !IgnitionFailed(c) && !Is(c, Ignition, Yes))
        || (!Is(c, Ready, Yes) && Is(c, Ignition, Yes) && !Configured(cr) && IgnitionUpToDate(m.world) && m.ignitionReconciled))
  }

  /** Published ignition agrees with the deployment. */
  predicate Aligned(m: Machine) {
    FrontInOrder(m.world.cr) && Is(m.world.cr.status.conditions, Ignition, Yes) && IgnitionUpToDate(m.world)
  }

  /** How many passes are left at most. */
  function Distance(m: Machine): nat {
    if Stable(m) then 0 else if Primed(m) then 1 else if Aligned(m) then 2 else 3
  }

  function Looked(cr: Provisioner, env: Surroundings): Provisioner {
    LookedUp(Mark(ClusterChecked(cr), SecretsValid, Yes, Other), env)
  }

  /** Two statuses agree on a condition. */
  predicate Agree(a: Conditions, b: Conditions, t: ConditionType) {
    (t in a <==> t in b) && (t in a ==> a[t] == b[t])
  }

  lemma LookedKeeps(cr: Provisioner, env: Surroundings, t: ConditionType)
    requires t !in {DpuClusterMissing, ClusterTypeValid, DpuClusterInUse, SecretsValid, LayerImageFound}
    ensures Agree(Looked(cr, env).status.conditions, cr.status.conditions, t)
  {
  }

  lemma LookedPasses(cr: Provisioner, env: Surroundings, hc: HostedCluster)
    requires GoodSurroundings(env, cr.spec) && !cr.deleting
    requires cr.status.phase == PhaseOf(cr, Found(hc))
    ensures !ValidationFails(Looked(cr, env).status.conditions)
    ensures cr.status.phase in {Pending, Failed, GeneratingIgnition} ==> HasMachineOS(Looked(cr, env))
  {
    ValidationFailsIff(cr.status.conditions);
    ValidationFailsIff(Looked(cr, env).status.conditions);
  }

  predicate HasMachineOS(cr: Provisioner) {
    cr.spec.machineOSURL != "" || cr.status.layerImage != ""
  }

  /** Two copies have the same ignition condition. */
  predicate SameIgnition(a: Provisioner, b: Provisioner) {
    Agree(a.status.conditions, b.status.conditions, Ignition)
  }

  lemma UpgradeClosedFacts(cr: Provisioner, hc: HostedCluster)
    requires !cr.deleting && RefFirst(cr.status) && !ValidationFails(cr.status.conditions)
    requires Is(cr.status.conditions, Upgrading, Yes) ==> Invalidated(cr.status.conditions)
    requires cr.status.phase == PhaseOf(cr, Found(hc))
    ensures var u := UpgradeClosed(cr, Found(hc));
      && !Is(u.status.conditions, Upgrading, Yes) && !ValidationFails(u.status.conditions)
      && u.spec == cr.spec && u.generation == cr.generation && !u.deleting
      && u.status.layerImage == cr.status.layerImage
      && SameIgnition(u, cr) && Agree(u.status.conditions, cr.status.conditions, MetalLB)
      && (!Is(cr.status.conditions, Upgrading, Yes) ==> u == cr)
  {
    PendingIff(cr, Found(hc));
    var u := UpgradeClosed(cr, Found(hc));
    ValidationFailsIff(cr.status.conditions);
    ValidationFailsIff(u.status.conditions);
  }

  /** Without a reference, a pass whose validations succeed is in phase Pending. */
  lemma StartsPending(cr: Provisioner, env: Surroundings)
    requires RefFirst(cr.status) && !cr.status.hostedClusterRef && !cr.deleting && GoodSurroundings(env, cr.spec)
    ensures var v := Prepared(Validated(WithPhase(cr, Missing), env, Missing));
      v.status.phase == Pending && !v.status.hostedClusterRef && v.spec == cr.spec
  {
    var start := WithPhase(cr, Missing);
    PendingIff(cr, Missing);
    ValidationFailsIff(cr.status.conditions);
    ValidationFailsIff(Looked(start, env).status.conditions);
    LookedKeeps(start, env, Ready);
    LookedKeeps(start, env, Ignition);
    LookedKeeps(start, env, Upgrading);
    LookedKeeps(start, env, HcAvailable);
    LookedKeeps(start, env, KubeConfigInjected);
    PendingIff(Looked(start, env), Missing);
  }

  /** Right after the creation there is nothing to do for ignition. */
  lemma StartupFacts(cr: Provisioner, env: Surroundings)
    requires RefFirst(cr.status) && !cr.status.hostedClusterRef && !cr.deleting && GoodSurroundings(env, cr.spec)
    ensures var f := StartupFront(cr, env);
      && f.status.hostedClusterRef && f.spec == cr.spec && f.status.phase == Pending
      && Ignition !in f.status.conditions && HcAvailable !in f.status.conditions
  {
    StartsPending(cr, env);
    var start := WithPhase(cr, Missing);
    LookedKeeps(start, env, Ignition);
    LookedKeeps(start, env, HcAvailable);
    var p := Prepared(Validated(start, env, Missing));
    MirroredAt(Referenced(p), NewHostedCluster(cr), Ignition);
    MirroredAt(Referenced(p), NewHostedCluster(cr), HcAvailable);
  }

  /** Where no validation failed before, the phase is what it was. */
  lemma LookedPhase(cr: Provisioner, env: Surroundings, read: Read)
    requires !ValidationFails(cr.status.conditions) && !ValidationFails(Looked(cr, env).status.conditions)
    ensures PhaseOf(Looked(cr, env), read) == PhaseOf(cr, read)
  {
    LookedKeeps(cr, env, Ignition);
    LookedKeeps(cr, env, HcProgressing);
    LookedKeeps(cr, env, HcDegraded);
    LookedKeeps(cr, env, Ready);
    LookedKeeps(cr, env, HcAvailable);
    LookedKeeps(cr, env, KubeConfigInjected);
    LookedKeeps(cr, env, Upgrading);
    PhaseAgrees(cr, Looked(cr, env), read);
  }

  lemma PhaseAgrees(a: Provisioner, b: Provisioner, read: Read)
    requires ValidationFails(a.status.conditions) == ValidationFails(b.status.conditions)
    requires a.deleting == b.deleting && a.spec == b.spec && a.generation == b.generation
    requires a.status.hostedClusterRef == b.status.hostedClusterRef
    requires Agree(a.status.conditions, b.status.conditions, Ignition)
    requires Agree(a.status.conditions, b.status.conditions, HcProgressing)
    requires Agree(a.status.conditions, b.status.conditions, HcDegraded)
    requires Agree(a.status.conditions, b.status.conditions, Ready)
    requires Agree(a.status.conditions, b.status.conditions, HcAvailable)
    requires Agree(a.status.conditions, b.status.conditions, KubeConfigInjected)
    requires Agree(a.status.conditions, b.status.conditions, Upgrading)
    ensures PhaseOf(a, read) == PhaseOf(b, read)
  {
  }

  lemma PreparedFacts(cr: Provisioner, read: Read)
    ensures ValidationFails(Prepared(cr).status.conditions) == ValidationFails(cr.status.conditions)
    ensures PhaseOf(Prepared(cr), read) == PhaseOf(cr, read)
    ensures RefFirst(Prepared(cr).status) == RefFirst(cr.status)
  {
    ValidationFailsIff(cr.status.conditions);
    ValidationFailsIff(Prepared(cr).status.conditions);
    PhaseAgrees(cr, Prepared(cr), read);
  }

  /** What can be assumed of a status at the start of a pass. */
  predicate Startable(cr: Provisioner, env: Surroundings, hc: HostedCluster) {
    && GoodSurroundings(env, cr.spec) && !cr.deleting && RefFirst(cr.status) && HealthyHostedCluster(hc, cr.spec.image)
    && (Is(cr.status.conditions, Upgrading, Yes) ==> Invalidated(cr.status.conditions))
    && !(Ignition in cr.status.conditions && cr.status.conditions[Ignition].reason == MachineOSMissing)
  }

  function Begun(cr: Provisioner, env: Surroundings, hc: HostedCluster): Provisioner {
    Prepared(Validated(WithPhase(cr, Found(hc)), env, Found(hc)))
  }

  lemma BegunFacts(cr: Provisioner, env: Surroundings, hc: HostedCluster)
    requires Startable(cr, env, hc)
    ensures var b := Begun(cr, env, hc);
      && !b.deleting && RefFirst(b.status) && !ValidationFails(b.status.conditions)
      && b.spec == cr.spec && b.generation == cr.generation
      && b.status.phase == PhaseOf(b, Found(hc))
      && SameIgnition(b, cr) && Agree(b.status.conditions, cr.status.conditions, Upgrading)
      && (b.spec.exposeThroughLB ==> Is(b.status.conditions, MetalLB, Yes))
      && (PhaseOf(cr, Found(hc)) in {Pending, Failed, GeneratingIgnition} ==> HasMachineOS(b))
  {
    var start := WithPhase(cr, Found(hc));
    assert PhaseOf(start, Found(hc)) == PhaseOf(cr, Found(hc)) by {
      PhaseAgrees(start, cr, Found(hc));
    }
    LookedPasses(start, env, hc);
    LookedKeeps(start, env, Ignition);
    LookedKeeps(start, env, Upgrading);
    LookedKeeps(start, env, Ready);
    LookedKeeps(start, env, HcAvailable);
    LookedKeeps(start, env, KubeConfigInjected);
    var v := Validated(start, env, Found(hc));
    PhaseAgrees(v, Looked(start, env), Found(hc));
    PreparedFacts(v, Found(hc));
  }

  /** Mirroring does not touch the validations. */
  lemma MirroringKeepsValidations(cr: Provisioner, hc: HostedCluster)
    ensures ValidationFails(Mirrored(cr, hc)) == ValidationFails(cr.status.conditions)
  {
    ValidationFailsIff(cr.status.conditions);
    ValidationFailsIff(Mirrored(cr, hc));
    MirroredAt(cr, hc, DpuClusterMissing);
    MirroredAt(cr, hc, DpuClusterInUse);
    MirroredAt(cr, hc, ClusterTypeValid);
    MirroredAt(cr, hc, SecretsValid);
    MirroredAt(cr, hc, LayerImageFound);
  }

  /** A healthy HostedCluster is reported as healthy. */
  lemma MirroringHealth(cr: Provisioner, hc: HostedCluster)
    requires HealthyHostedCluster(hc, cr.spec.image)
    ensures Is(Mirrored(cr, hc), HcAvailable, Yes) && !HostedClusterBroken(Mirrored(cr, hc))
  {
    MirroredAt(cr, hc, HcAvailable);
    MirroredAt(cr, hc, HcProgressing);
    MirroredAt(cr, hc, HcDegraded);
  }

  lemma MirroringKeeps(cr: Provisioner, hc: HostedCluster, t: ConditionType)
    requires !IsMirrored(t)
    ensures Agree(Mirrored(cr, hc), cr.status.conditions, t)
  {
    MirroredAt(cr, hc, t);
  }

  lemma InjectedFacts(c: Conditions, generation: nat)
    ensures var d := c[KubeConfigInjected := Condition(Yes, Other, generation)];
      && ValidationFails(d) == ValidationFails(c) && HostedClusterBroken(d) == HostedClusterBroken(c)
  {
    ValidationFailsIff(c);
    ValidationFailsIff(c[KubeConfigInjected := Condition(Yes, Other, generation)]);
  }

  lemma SyncedFacts(cr: Provisioner, hc: HostedCluster)
    requires HealthyHostedCluster(hc, cr.spec.image) && !ValidationFails(cr.status.conditions)
    requires !Is(cr.status.conditions, Upgrading, Yes)
    requires cr.spec.exposeThroughLB ==> Is(cr.status.conditions, MetalLB, Yes)
    ensures var s := Mark(Synced(cr, hc), KubeConfigInjected, Yes, Other);
      && FrontInOrder(s) && s.deleting == cr.deleting && s.spec == cr.spec && s.generation == cr.generation
      && SameIgnition(s, cr)
  {
    var r := Referenced(cr);
    MirroringKeepsValidations(r, hc);
    MirroringHealth(r, hc);
    MirroringKeeps(r, hc, Ignition);
    MirroringKeeps(r, hc, Upgrading);
    MirroringKeeps(r, hc, MetalLB);
    InjectedFacts(Mirrored(r, hc), r.generation);
  }

  /** When the kubeconfig is injected everything but ignition is in order. */
  lemma FrontFacts(cr: Provisioner, env: Surroundings, hc: HostedCluster)
    requires Startable(cr, env, hc)
    ensures var f := Front(cr, env, hc);
      && FrontInOrder(f) && !f.deleting && f.spec == cr.spec && f.generation == cr.generation && SameIgnition(f, cr)
  {
    BegunFacts(cr, env, hc);
    var b := Begun(cr, env, hc);
    UpgradeClosedFacts(b, hc);
    SyncedFacts(UpgradeClosed(b, Found(hc)), hc);
  }

  /** A status in order keeps its phase through the first half of a pass, and the machine OS is
      looked up when it will be needed. */
  lemma FrontPhase(cr: Provisioner, env: Surroundings, hc: HostedCluster)
    requires Startable(cr, env, hc) && FrontInOrder(cr)
    ensures var f := Front(cr, env, hc);
      && f.status.phase == PhaseOf(cr, Found(hc))
      && (f.status.phase in {Failed, GeneratingIgnition} ==> HasMachineOS(f))
  {
    BegunFacts(cr, env, hc);
    var b := Begun(cr, env, hc);
    UpgradeClosedFacts(b, hc);
    var start := WithPhase(cr, Found(hc));
    PhaseAgrees(start, cr, Found(hc));
    LookedPasses(start, env, hc);
    LookedPhase(start, env, Found(hc));
  }

  /** Ready and the phase follow ignition once the rest is in order. */
  lemma FinishedFacts(cr: Provisioner, hc: HostedCluster)
    requires FrontInOrder(cr) && !cr.deleting && HealthyHostedCluster(hc, cr.spec.image)
    ensures var f := Finished(cr, Found(hc));
      && FrontInOrder(f) && f.spec == cr.spec && f.generation == cr.generation && SameIgnition(f, cr)
      && (Is(f.status.conditions, Ready, Yes) <==> Configured(cr))
      && (Configured(cr) ==> f.status.phase == PhaseReady)
  {
    var r := WithReady(cr, Found(hc));
    ValidationFailsIff(cr.status.conditions);
    ValidationFailsIff(r.status.conditions);
  }

  /** The second half of a pass may start. */
  predicate Resumable(w: World, cr: Provisioner) {
    && Healthy(w) && FrontInOrder(cr) && w.cr == cr
    && !(Ignition in cr.status.conditions && cr.status.conditions[Ignition].reason == MachineOSMissing)
  }

  /** Ignition was withdrawn: the next pass generates. */
  lemma ClosedWithdrawn(w: World, cr: Provisioner, reason: Reason, flag: bool)
    requires Healthy(w) && FrontInOrder(cr) && cr.spec == w.cr.spec && cr.generation == w.cr.generation && !cr.deleting
    requires reason in {DeploymentChanged, ConfigMapDeleted, OperatorRestarted}
    ensures Primed(Machine(Closed(w, Mark(cr, Ignition, No, reason)), flag))
  {
    var marked := Mark(cr, Ignition, No, reason);
    ValidationFailsIff(cr.status.conditions);
    ValidationFailsIff(marked.status.conditions);
    FinishedFacts(marked, w.hc.value);
  }

  lemma GenerateFacts(w: World, cr: Provisioner, flag: bool)
    requires Resumable(w, cr) && (HasMachineOS(cr) ==> flag)
    ensures var m := Machine(Generate(w, cr), flag);
      && Healthy(m.world) && (if HasMachineOS(cr) then Stable(m) else Primed(m))
  {
    ValidationFailsIff(cr.status.conditions);
    if HasMachineOS(cr) {
      var marked := Mark(cr, Ignition, Yes, Generated);
      ValidationFailsIff(marked.status.conditions);
      FinishedFacts(marked, w.hc.value);
    } else {
      ValidationFailsIff(Mark(cr, Ignition, No, GenerationFailed).status.conditions);
    }
  }

  lemma ClosedFacts(w: World, cr: Provisioner)
    requires Resumable(w, cr) && !Due(cr)
    requires Is(cr.status.conditions, Ignition, Yes) ==> IgnitionUpToDate(w)
    ensures var m := Machine(Closed(w, cr), true);
      && Healthy(m.world) && (if Configured(cr) then Stable(m) else Primed(m))
  {
    FinishedFacts(cr, w.hc.value);
  }

  lemma IgnitionTailFacts(w: World, cr: Provisioner, flag: bool)
    requires Resumable(w, cr)
    requires Is(cr.status.conditions, Ignition, Yes) && w.cm.Some? ==> IgnitionUpToDate(w)
    ensures var m := IgnitionTail(w, cr, flag);
      && Healthy(m.world) && (Stable(m) || Primed(m))
      && ((Is(cr.status.conditions, Ignition, Yes) ==> w.cm.Some? && flag) ==>
            if Due(cr) then HasMachineOS(cr) ==> Stable(m) else Configured(cr) ==> Stable(m))
  {
    var configured := Is(cr.status.conditions, Ignition, Yes);
    if configured && w.cm.None? {
      ClosedWithdrawn(w, cr, ConfigMapDeleted, true);
    } else if configured && !flag {
      ClosedWithdrawn(w, cr, OperatorRestarted, true);
    } else if Due(cr) {
      GenerateFacts(w, cr, flag || configured || HasMachineOS(cr));
    } else {
      ClosedFacts(w, cr);
    }
  }

  /** What the second half of a pass achieves. */
  lemma TailFacts(w: World, cr: Provisioner, flag: bool)
    requires Resumable(w, cr)
    ensures var m := Tail(w, cr, flag);
      && Healthy(m.world)
      && (Stable(m) || Primed(m) || Aligned(m))
      && (Is(cr.status.conditions, Ignition, Yes) && IgnitionUpToDate(w) ==> Stable(m) || Primed(m))
      && ((Is(cr.status.conditions, Ignition, Yes) ==> IgnitionUpToDate(w) && flag) ==>
            if Due(cr) then HasMachineOS(cr) ==> Stable(m) else Configured(cr) ==> Stable(m))
  {
    var configured := Is(cr.status.conditions, Ignition, Yes);
    var d := w.env.deployment.value;
    if configured && w.cm.Some? && w.cm.value.flavor != d.flavor {
      ClosedWithdrawn(w.(cm := None), cr, DeploymentChanged, flag);
    } else if configured && w.cm.Some? && w.cm.value.bfb != d.bfb {
    } else {
      IgnitionTailFacts(w, cr, flag);
    }
  }

  /** The in-memory copy after the validations. */
  function Begin(w: World): Provisioner {
    Validated(WithPhase(w.cr, Seen(w)), w.env, Seen(w))
  }

  /** Where a pass stands after the validations, in the cases that matter. */
  lemma BeginFacts(w: World)
    requires Inv(w)
    ensures Begin(w).spec == w.cr.spec && Begin(w).generation == w.cr.generation
    ensures Sound(w) ==>
      && (Begin(w).status.phase == Pending || Begin(w).status.hostedClusterRef)
      && Front(w.cr, w.env, w.hc.value)
         == Mark(Synced(UpgradeClosed(Prepared(Begin(w)), Found(w.hc.value)), w.hc.value), KubeConfigInjected, Yes, Other)
    ensures Startup(w) ==>
      && Begin(w).status.phase == Pending && !Begin(w).status.hostedClusterRef
      && StartupFront(w.cr, w.env) == Injected(Synced(Prepared(Begin(w)), NewHostedCluster(Begin(w))), w.env)
      && WithNewHostedCluster(w, Begin(w)) == WithNewHostedCluster(w, w.cr)
    ensures MustUpgrade(w) ==> UpgradeDue(Begin(w), w)
  {
    if Sound(w) {
      ValidatedProceeds(w);
    }
    if Startup(w) {
      StartsPending(w.cr, w.env);
    }
    if MustUpgrade(w) {
      UpgradeProceeds(w);
    }
  }

  lemma UpgradeProceeds(w: World)
    requires Inv(w) && MustUpgrade(w)
    ensures UpgradeDue(Begin(w), w)
  {
    var start := WithPhase(w.cr, Seen(w));
    ValidationFailsIff(Looked(start, w.env).status.conditions);
    ValidationFailsIff(start.status.conditions);
    PhaseAgrees(start, w.cr, Seen(w));
    LookedKeeps(start, w.env, Ignition);
    LookedKeeps(start, w.env, Upgrading);
    LookedKeeps(start, w.env, Ready);
    LookedKeeps(start, w.env, HcProgressing);
    LookedKeeps(start, w.env, HcDegraded);
    LookedPasses(start, w.env, w.hc.value);
  }

  /** A validated pass in a healthy cluster works on the HostedCluster. */
  lemma ValidatedProceeds(w: World)
    requires Inv(w) && Sound(w)
    ensures var v := Validated(WithPhase(w.cr, Found(w.hc.value)), w.env, Found(w.hc.value));
      (v.status.phase == Pending || v.status.hostedClusterRef) && v.spec == w.cr.spec
  {
    var v := Validated(WithPhase(w.cr, Found(w.hc.value)), w.env, Found(w.hc.value));
    BegunFacts(w.cr, w.env, w.hc.value);
    PreparedFacts(v, Found(w.hc.value));
    PendingIff(v, Found(w.hc.value));
  }

  lemma StartableFrom(w: World)
    requires Inv(w) && Sound(w)
    ensures Startable(w.cr, w.env, w.hc.value)
    ensures var f := Front(w.cr, w.env, w.hc.value); FrontInOrder(f) && AfterFront(w).cr == f
    ensures GoodDependencies(w.env) ==> Resumable(AfterFront(w), Front(w.cr, w.env, w.hc.value))
  {
    FrontFacts(w.cr, w.env, w.hc.value);
  }

  /** Which way the second half takes from a state in order. */
  lemma FrontDecides(m: Machine)
    requires Inv(m.world) && Healthy(m.world) && FrontInOrder(m.world.cr)
    ensures var f := Front(m.world.cr, m.world.env, m.world.hc.value);
      && (Stable(m) ==> !Due(f) && Configured(f))
      && (Primed(m) ==> Due(f) && HasMachineOS(f))
  {
    var w := m.world;
    StartableFrom(w);
    FrontFacts(w.cr, w.env, w.hc.value);
    FrontPhase(w.cr, w.env, w.hc.value);
  }

  lemma FrontKeepsIgnition(w: World)
    requires Inv(w) && Healthy(w)
    ensures IgnitionUpToDate(AfterFront(w)) == IgnitionUpToDate(w)
    ensures SameIgnition(Front(w.cr, w.env, w.hc.value), w.cr)
  {
    StartableFrom(w);
    FrontFacts(w.cr, w.env, w.hc.value);
  }

  /** Every undisturbed pass in a healthy cluster brings the provisioner closer to the stable
      state, and the stable state is kept. */
  lemma PassApproaches(m: Machine)
    requires Inv(m.world) && Healthy(m.world)
    ensures Healthy(Pass(m).world)
    ensures Distance(Pass(m)) < Distance(m) || (Stable(m) && Stable(Pass(m)))
  {
    var w := m.world;
    StartableFrom(w);
    FrontKeepsIgnition(w);
    TailFacts(AfterFront(w), Front(w.cr, w.env, w.hc.value), m.ignitionReconciled);
    if FrontInOrder(w.cr) {
      FrontDecides(m);
    }
  }
}
