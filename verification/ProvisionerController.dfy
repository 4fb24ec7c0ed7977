/** The reconcile loop.

    Every API call may fail, a failing write may or may not have reached the server, and
    the environment may move between any two calls; `calm` switches both off for the
    statements about undisturbed passes.  Every persisted state, including those between
    two writes of one pass, is recorded in `log`. */
module ProvisionerController {
  import opened Text
  import opened ApiServer
  import opened ReleaseVersion
  import opened ProvisionerStatus
  import opened ProvisionerWorld
  import opened ProvisionerRecovery

  datatype Outcome = Continue | Stop | Requeue | Error

  /** What the validations of a pass, counted from the start, found. */
  datatype Verdicts = Verdicts(pass: nat, present: bool, supported: bool, exclusive: bool, secrets: bool, layer: bool)

  predicate AllGood(v: Verdicts) {
    v.present && v.supported && v.exclusive && v.secrets && v.layer
  }

  /** A later step of a pass leaves these parts of the in-memory copy alone. */
  predicate Kept(a: Provisioner, b: Provisioner) {
    && b.spec == a.spec && b.generation == a.generation && b.deleting == a.deleting
    && b.status.phase == a.status.phase
    && (a.status.hostedClusterRef ==> b.status.hostedClusterRef)
    && (Is(a.status.conditions, Upgrading, Yes) <==> Is(b.status.conditions, Upgrading, Yes))
  }

  /** Every recorded state satisfies the invariant. */
  ghost predicate AllInv(log: seq<World>, leftover: bool) {
    log == [] || (Inv(log[|log| - 1]) && log[|log| - 1].leftover == leftover && AllInv(log[..|log| - 1], leftover))
  }

  lemma {:induction false} AllInvAt(log: seq<World>, leftover: bool, k: nat)
    requires AllInv(log, leftover) && k < |log|
    ensures Inv(log[k]) && (!leftover ==> Fresh(log[k]))
  {
    if k < |log| - 1 {
      AllInvAt(log[..|log| - 1], leftover, k);
    } else if !leftover {
      FreshWithoutLeftover(log[k]);
    }
  }

  /** An upgrade to `image` is under way and nothing stale is left behind. */
  predicate UpgradeStarted(w: World, image: string) {
    && Owned(w) && w.hc.value.image == image
    && (w.np.Some? ==> w.np.value.image == image)
    && Is(w.cr.status.conditions, Upgrading, Yes)
    && Is(w.cr.status.conditions, Ignition, No)
    && w.cr.status.conditions[Ignition].reason == ReleaseImageUpdated
    && w.cr.status.layerImage == ""
    && w.cm.None?
  }

  function Invalidate(cr: Provisioner): Provisioner {
    cr.(status := Set(Set(cr.status, Upgrading, Condition(Yes, Other, cr.generation)),
                      Ignition, Condition(No, ReleaseImageUpdated, cr.generation)))
  }

  class Operator {
    ghost const leftover: bool // a predecessor's ConfigMap was there at the start
    var world: World
    var cr: Provisioner
    var ignitionReconciled: bool
    var calm: bool
    ghost var log: seq<World>
    ghost var passes: nat
    ghost var verdicts: Verdicts
    ghost var created: seq<Verdicts> // the verdicts under which HostedClusters were created

    ghost predicate Valid()
      reads this
    {
      && Inv(world)
      && log != [] && log[|log| - 1] == world
      && world.leftover == leftover && AllInv(log, leftover)
      && (Owned(world) ==> created != [])
      && forall k :: 0 <= k < |created| ==> AllGood(created[k])
    }

    /** Inside a pass: the in-memory copy is usable. */
    ghost predicate InPass()
      reads this
    {
      Valid() && Current(cr, world)
    }

    constructor (w: World)
      requires Initial(w)
      ensures Valid() && world == w && log == [w] && created == [] && !ignitionReconciled
    {
      InitialInv(w);
      leftover := w.leftover;
      world, cr, ignitionReconciled, calm := w, w.cr, false, false;
      log, created := [w], [];
      passes, verdicts := 0, Verdicts(0, false, false, false, false, false);
    }

    // ----- API calls -----

    method Commit(w: World)
      requires Valid() && Inv(w) && w.leftover == leftover && (Owned(w) ==> created != [])
      modifies `world, `log
      ensures Valid() && world == w && log == old(log) + [w]
    {
      assert (log + [w])[..|log|] == log;
      world := w;
      log := log + [w];
    }

    /** A write that, when it fails, may or may not have reached the server. */
    method Write(w: World) returns (ok: bool)
      requires Valid() && Inv(w) && w.leftover == leftover && (Owned(w) ==> created != [])
      modifies `world, `log
      ensures Valid() && (world == w || (!ok && world == old(world)))
      ensures calm ==> ok
    {
      var failed := Fails(calm);
      var applied: bool := *;
      if !failed || applied {
        Commit(w);
      }
      ok := !failed;
    }

    /** Any number of environment steps. */
    method Interfere()
      requires Valid()
      modifies `world, `log
      ensures Valid() && Drift(old(world), world)
      ensures old(Writable(cr, world)) ==> Writable(cr, world)
      ensures old(Current(cr, world)) ==> Current(cr, world)
      ensures calm ==> world == old(world) && log == old(log)
    {
      var steps: int := *;
      if calm || steps < 0 {
        steps := 0;
      }
      for i := 0 to steps
        invariant Valid() && Drift(old(world), world)
        invariant calm ==> steps == 0 && world == old(world) && log == old(log)
      {
        var w: World := *;
        if EnvironmentStep(world, w) {
          StepDrifts(world, w);
          DriftTransitive(old(world), world, w);
          DriftKeeps(world, w, cr);
          Commit(w);
        }
      }
      DriftKeeps(old(world), world, cr);
    }

    method ReadHostedCluster() returns (r: Read)
      requires Valid()
      modifies `world, `log
      ensures Valid() && Drift(old(world), world)
      ensures old(Writable(cr, world)) ==> Writable(cr, world)
      ensures old(Current(cr, world)) ==> Current(cr, world)
      ensures calm ==> world == old(world) && log == old(log) && !r.Unreadable?
      ensures r.Found? ==> world.hc == Some(r.hc)
      ensures r.Missing? ==> world.hc.None?
    {
      Interfere();
      var failed := Fails(calm);
      r := if failed then Unreadable else if world.hc.Some? then Found(world.hc.value) else Missing;
    }

    /** Time passes, and a status that fitted still fits. */
    method Settle()
      requires Valid() && Fits(cr.status, world)
      modifies `world, `log
      ensures Valid() && Fits(cr.status, world) && Drift(old(world), world)
      ensures calm ==> world == old(world)
    {
      Interfere();
      DriftKeepsFit(cr.status, old(world), world);
    }

    /** Writes the whole in-memory status. */
    method WriteStatus() returns (ok: bool)
      requires Valid() && Fits(cr.status, world)
      requires world.cr.status.hostedClusterRef ==> cr.status.hostedClusterRef
      modifies `world, `log
      ensures Valid()
      ensures ok ==> world.cr.status == cr.status
      ensures ok && old(Writable(cr, world)) ==> Current(cr, world)
      ensures old(world).cr.deleting ==> world.cr.deleting
      ensures old(Current(cr, world)) ==> Current(cr, world)
      ensures calm ==> ok && world == PutStatus(old(world), cr.status)
    {
      Interfere();
      DriftKeepsFit(cr.status, old(world), world);
      PutKeeps(world, cr.status, cr);
      ok := Write(PutStatus(world, cr.status));
    }

    /** Sets a condition that carries no claim about ignition or readiness, and persists it. */
    method Report(t: ConditionType, s: Tri) returns (ok: bool)
      requires InPass()
      requires t !in {Upgrading, Ignition, Ready, HcAvailable}
      requires t == KubeConfigInjected ==> cr.status.hostedClusterRef
      modifies `world, `log, `cr
      ensures InPass()
      ensures cr == old(cr).(status := Set(old(cr).status, t, Condition(s, Other, old(cr).generation)))
      ensures ok ==> world.cr.status == cr.status
      ensures calm ==> ok && world == PutStatus(old(world), cr.status)
    {
      cr := cr.(status := Set(cr.status, t, Condition(s, Other, cr.generation)));
      ok := WriteStatus();
    }

    // ----- Decisions -----

    method UpdatePhase() returns (ghost r: Read)
      requires Valid()
      modifies `world, `log, `cr
      ensures Valid() && Drift(old(world), world)
      ensures old(Writable(cr, world)) ==> Writable(cr, world)
      ensures old(Current(cr, world)) ==> Current(cr, world)
      ensures calm ==> world == old(world)
      ensures cr == WithPhase(old(cr), r)
      ensures r.Found? ==> world.hc == Some(r.hc)
      ensures calm ==> r == Seen(world)
    {
      var read := ReadHostedCluster();
      r := read;
      cr := WithPhase(cr, read);
    }

    /** Whenever Ready is granted, everything it promises holds at that moment. */
    method ComputeReady() returns (ghost r: Read)
      requires Valid() && Fits(cr.status, world) && !cr.deleting && !world.cleanup
      modifies `world, `log, `cr
      ensures Valid() && Drift(old(world), world)
      ensures Fits(cr.status, world)
      ensures old(Writable(cr, world)) ==> Writable(cr, world)
      ensures old(Current(cr, world)) ==> Current(cr, world)
      ensures calm ==> world == old(world)
      ensures cr == WithReady(old(cr), r)
      ensures calm && world.hc.Some? ==> r == Found(world.hc.value)
      ensures Is(cr.status.conditions, Ready, Yes) ==>
                var c := cr.status.conditions;
                && cr.status.hostedClusterRef && Owned(world)
                && ControlPlaneReady(world.hc.value.history, cr.spec.image)
                && Is(c, Ignition, Yes) && c[Ignition].generation == cr.generation
                && Is(c, KubeConfigInjected, Yes) && Is(c, HcAvailable, Yes)
                && (cr.spec.exposeThroughLB ==> Is(c, MetalLB, Yes))
                && cr.status.readyEntry.Some? && Matches(cr.status.readyEntry.value, cr.spec.image)
    {
      var read := ReadHostedCluster();
      r := read;
      DriftKeepsFit(cr.status, old(world), world);
      ReadyIff(cr, r);
      cr := WithReady(cr, read);
      if Is(cr.status.conditions, Ready, Yes) {
        assert Matches(world.hc.value.history[0], cr.spec.image);
      }
    }

    // ----- Validation -----

    /** A read inside a pass: time passes, and the call may fail. */
    method Reach() returns (failed: bool)
      requires InPass()
      modifies `world, `log
      ensures InPass()
      ensures calm ==> world == old(world) && !failed
    {
      Interfere();
      failed := Fails(calm);
    }

    /** The conditions tell no less than the verdicts of this pass. */
    static predicate ClusterReflected(c: Conditions, v: Verdicts) {
      || Is(c, DpuClusterMissing, Yes)
      || (v.present && (Is(c, ClusterTypeValid, No) || v.supported) && (Is(c, DpuClusterInUse, Yes) || v.exclusive))
    }

    method ValidateDPUCluster() returns (out: Outcome)
      requires InPass()
      modifies `world, `log, `cr, `verdicts
      ensures verdicts.pass == old(verdicts).pass
      ensures Valid()
      ensures out == Continue ==> InPass() && Kept(old(cr), cr) && cr.status.hostedClusterRef == old(cr).status.hostedClusterRef
      ensures out == Continue ==> ClusterReflected(cr.status.conditions, verdicts)
      ensures calm && old(world).env.dpuCluster == Present(false) && !old(world).env.rival ==>
                out == Continue && cr == ClusterChecked(old(cr)) && world == PutStatus(old(world), cr.status)
    {
      var failed := Reach();
      if failed {
        return Error;
      }
      if !world.env.dpuCluster.Present? {
        var ok := Report(DpuClusterMissing, Yes);
        return if ok then Continue else Error;
      }
      out := ValidateFoundCluster(world.env.dpuCluster);
      MarkedFacts(old(cr), verdicts);
    }

    static function ClusterMarked(cr: Provisioner, supported: bool, exclusive: bool): Provisioner {
      cr.(status := cr.status.(conditions := cr.status.conditions
        [ClusterTypeValid := Condition(if supported then Yes else No, Other, cr.generation)]
        [DpuClusterInUse := Condition(if exclusive then No else Yes, Other, cr.generation)]
        [DpuClusterMissing := Condition(No, Other, cr.generation)]))
    }

    static lemma MarkedFacts(cr: Provisioner, v: Verdicts)
      ensures var m := ClusterMarked(cr, v.supported, v.exclusive);
        && Kept(cr, m) && m.status.hostedClusterRef == cr.status.hostedClusterRef
        && (v.present ==> ClusterReflected(m.status.conditions, v))
      ensures ClusterMarked(cr, true, true) == ClusterChecked(cr)
    {
    }

    method ValidateFoundCluster(cluster: DpuCluster) returns (out: Outcome)
      requires InPass() && cluster.Present?
      modifies `world, `log, `cr, `verdicts
      ensures verdicts.pass == old(verdicts).pass
      ensures InPass()
      ensures out == Continue ==> verdicts.present && verdicts.supported == !cluster.kamaji
      ensures out == Continue ==> cr == ClusterMarked(old(cr), verdicts.supported, verdicts.exclusive)
      ensures calm ==> out == Continue && verdicts.exclusive == !old(world).env.rival && world == PutStatus(old(world), cr.status)
    {
      verdicts := verdicts.(present := true, supported := !cluster.kamaji);
      var ok := Report(ClusterTypeValid, if cluster.kamaji then No else Yes);
      if ok {
        ok := ValidateAvailability();
      }
      out := if ok then Continue else Error;
    }

    method ValidateAvailability() returns (ok: bool)
      requires InPass()
      modifies `world, `log, `cr, `verdicts
      ensures InPass()
      ensures verdicts == old(verdicts).(exclusive := verdicts.exclusive)
      ensures ok ==> cr == Mark(Mark(old(cr), DpuClusterInUse, if verdicts.exclusive then No else Yes, Other),
                                DpuClusterMissing, No, Other)
      ensures calm ==> ok && verdicts.exclusive == !old(world).env.rival && world == PutStatus(old(world), cr.status)
    {
      ok := ValidateExclusivity();
      if ok {
        ok := Report(DpuClusterMissing, No);
      }
    }

    method ValidateExclusivity() returns (ok: bool)
      requires InPass()
      modifies `world, `log, `cr, `verdicts
      ensures InPass()
      ensures verdicts == old(verdicts).(exclusive := verdicts.exclusive)
      ensures ok ==> cr == old(cr).(status := Set(old(cr).status, DpuClusterInUse,
                Condition(if verdicts.exclusive then No else Yes, Other, old(cr).generation)))
      ensures calm ==> ok && verdicts.exclusive == !old(world).env.rival && world == PutStatus(old(world), cr.status)
    {
      var failed := Reach();
      if failed {
        return false;
      }
      verdicts := verdicts.(exclusive := !world.env.rival);
      ok := Report(DpuClusterInUse, if world.env.rival then Yes else No);
    }

    method ValidateSecrets() returns (out: Outcome)
      requires InPass()
      modifies `world, `log, `cr, `verdicts
      ensures InPass()
      ensures verdicts == old(verdicts).(secrets := verdicts.secrets)
      ensures out == Continue ==> cr == old(cr).(status := Set(old(cr).status, SecretsValid,
                Condition(if verdicts.secrets then Yes else No, Other, old(cr).generation)))
      ensures calm ==> out == Continue && verdicts.secrets == old(world).env.secretsValid && world == PutStatus(old(world), cr.status)
    {
      var failed := Reach();
      if failed {
        return Error;
      }
      verdicts := verdicts.(secrets := world.env.secretsValid);
      var ok := Report(SecretsValid, if world.env.secretsValid then Yes else No);
      out := if ok then Continue else Error;
    }

    /** The lookup runs in the phases that need its result; a machine OS URL replaces it. */
    method LookupLayerImage() returns (out: Outcome)
      requires InPass()
      requires !cr.status.hostedClusterRef ==> cr.status.phase in {Pending, Failed}
      modifies `world, `log, `cr, `verdicts
      ensures InPass()
      ensures verdicts == old(verdicts).(layer := verdicts.layer)
      ensures out == Continue ==>
                || (cr == old(cr) && cr.status.hostedClusterRef)
                || cr == old(cr).(status := Set(old(cr).status, LayerImageFound,
                     Condition(if verdicts.layer then Yes else No, Other, old(cr).generation)).(layerImage := cr.status.layerImage))
      ensures calm && (old(cr).spec.machineOSURL != "" || old(world).env.layerImage.Some?) ==>
                out == Continue && cr == LookedUp(old(cr), old(world).env) && world == PutStatus(old(world), world.cr.status)
    {
      if cr.spec.machineOSURL != "" {
        verdicts := verdicts.(layer := true);
        var ok := Report(LayerImageFound, Yes);
        out := if ok then Continue else Error;
      } else if cr.status.phase !in {Pending, Failed, GeneratingIgnition} {
        out := Continue;
      } else {
        out := RunLookup();
      }
    }

    method SetLayerImage(image: string)
      requires InPass()
      modifies `cr
      ensures InPass() && cr == old(cr).(status := old(cr).status.(layerImage := image))
    {
      cr := cr.(status := cr.status.(layerImage := image));
    }

    method RunLookup() returns (out: Outcome)
      requires InPass()
      modifies `world, `log, `cr, `verdicts
      ensures InPass()
      ensures verdicts == old(verdicts).(layer := verdicts.layer)
      ensures out == Continue ==> cr == old(cr).(status := Set(old(cr).status, LayerImageFound,
                Condition(if verdicts.layer then Yes else No, Other, old(cr).generation)).(layerImage := cr.status.layerImage))
      ensures calm && old(world).env.layerImage.Some? ==>
                && out == Continue && verdicts.layer && cr.status.layerImage == old(world).env.layerImage.value
                && world == PutStatus(old(world), world.cr.status)
      ensures calm && old(world).env.layerImage.None? ==>
                out == Continue && !verdicts.layer && cr.status.layerImage == "" && Is(world.cr.status.conditions, LayerImageFound, No)
    {
      var failed := Reach();
      if failed {
        var _ := Report(LayerImageFound, No);
        return Error;
      }
      out := RecordLookup(world.env.layerImage);
    }

    method RecordLookup(found: Option<string>) returns (out: Outcome)
      requires InPass()
      modifies `world, `log, `cr, `verdicts
      ensures InPass()
      ensures verdicts == old(verdicts).(layer := found.Some?)
      ensures cr == old(cr).(status := Set(old(cr).status, LayerImageFound,
                Condition(if verdicts.layer then Yes else No, Other, old(cr).generation))
                .(layerImage := if found.Some? then found.value else ""))
      ensures calm ==> out == Continue && world == PutStatus(old(world), cr.status)
    {
      verdicts := verdicts.(layer := found.Some?);
      SetLayerImage(if found.Some? then found.value else "");
      var ok := Report(LayerImageFound, if found.Some? then Yes else No);
      out := if ok || found.None? then Continue else Error;
    }

    static predicate ReferencesReflected(c: Conditions, v: Verdicts) {
      ClusterReflected(c, v) && (Is(c, SecretsValid, No) || v.secrets)
    }

    method ValidateReferences() returns (out: Outcome)
      requires InPass()
      modifies `world, `log, `cr, `verdicts
      ensures verdicts.pass == old(verdicts).pass
      ensures Valid()
      ensures out == Continue ==> InPass() && Kept(old(cr), cr) && cr.status.hostedClusterRef == old(cr).status.hostedClusterRef
      ensures out == Continue ==> ReferencesReflected(cr.status.conditions, verdicts)
      ensures calm && GoodSurroundings(old(world).env, old(cr).spec) ==>
                && out == Continue && cr == Mark(ClusterChecked(old(cr)), SecretsValid, Yes, Other)
                && world == PutStatus(old(world), world.cr.status)
    {
      out := ValidateDPUCluster();
      if out == Continue {
        out := ValidateSecrets();
      }
    }

    method RunValidations() returns (out: Outcome)
      requires InPass()
      requires !cr.status.hostedClusterRef ==> cr.status.phase in {Pending, Failed}
      modifies `world, `log, `cr, `verdicts
      ensures verdicts.pass == old(verdicts).pass
      ensures Valid()
      ensures out == Continue ==> InPass() && cr.spec == old(cr).spec && cr.generation == old(cr).generation
      ensures out == Continue ==>
                && ReferencesReflected(cr.status.conditions, verdicts)
                && (cr.status.hostedClusterRef || Is(cr.status.conditions, LayerImageFound, No) || verdicts.layer)
      ensures calm && GoodSurroundings(old(world).env, old(cr).spec) ==>
                out == Continue && cr == Looked(old(cr), old(world).env) && world == PutStatus(old(world), world.cr.status)
    {
      out := ValidateReferences();
      if out == Continue {
        out := LookupLayerImage();
      }
    }

    /** The phase is Pending afterwards only if every validation of this very pass succeeded. */
    method Validate() returns (out: Outcome)
      requires InPass()
      requires !cr.status.hostedClusterRef ==> cr.status.phase in {Pending, Failed}
      modifies `world, `log, `cr, `verdicts
      ensures verdicts.pass == old(verdicts).pass
      ensures Valid()
      ensures out == Continue ==> InPass() && cr.spec == old(cr).spec && cr.generation == old(cr).generation
      ensures out == Continue && cr.status.phase == Pending ==> !cr.status.hostedClusterRef && AllGood(verdicts)
      ensures calm && GoodSurroundings(old(world).env, old(cr).spec) ==>
                && out == Continue && cr == Validated(old(cr), old(world).env, Seen(old(world)))
                && world == PutStatus(old(world), world.cr.status)
    {
      out := RunValidations();
      if out == Continue {
        ghost var before := cr;
        ghost var r := UpdatePhase();
        PendingIff(before, r);
        ValidationFailsIff(before.status.conditions);
      }
    }

    // ----- Upgrade -----

    method DeleteConfigMap() returns (ok: bool)
      requires Valid()
      modifies `world, `log
      ensures Valid() && Drift(old(world), world)
      ensures ok ==> world.cm.None?
      ensures calm ==> ok && world == old(world).(cm := None)
    {
      Interfere();
      var failed := Fails(calm);
      if failed {
        return false;
      }
      ok := true;
      if world.cm.Some? {
        DriftTransitive(old(world), world, world.(cm := None));
        DriftKeeps(world, world.(cm := None), cr);
        ok := Write(world.(cm := None));
      }
    }

    method UpdateReleaseImage() returns (ok: bool)
      requires Valid() && Fits(cr.status, world) && Owned(world) && world.cm.None?
      requires cr.generation <= world.cr.generation
      modifies `world, `log
      ensures Valid() && Fits(cr.status, world) && Owned(world) && world.cm.None?
      ensures world.cr.status == old(world).cr.status && world.cleanup == old(world).cleanup
      ensures ok ==> world.hc.value.image == cr.spec.image
      ensures calm ==> ok && world == WithImage(old(world), cr.spec.image, cr.generation)
    {
      Settle();
      ImageMoveKeeps(world, cr.spec.image, cr.generation, cr.status);
      ok := Write(WithImage(world, cr.spec.image, cr.generation));
    }

    method UpdateNodePoolImage() returns (ok: bool)
      requires Valid() && Fits(cr.status, world)
      modifies `world, `log
      ensures Valid() && Fits(cr.status, world)
      ensures world.cr.status == old(world).cr.status && world.cleanup == old(world).cleanup
      ensures calm ==> ok && world == old(world).(np := if old(world).np.Some? then Some(old(world).np.value.(image := cr.spec.image)) else None)
    {
      Settle();
      var failed := Fails(calm);
      if failed {
        return false;
      }
      ok := true;
      if world.np.Some? && world.np.value.image != cr.spec.image {
        ok := WriteNodePool(world.np.value.(image := cr.spec.image));
      }
    }

    method WriteNodePool(np: NodePool) returns (ok: bool)
      requires Valid() && Fits(cr.status, world)
      modifies `world, `log
      ensures Valid() && Fits(cr.status, world) && world == old(world).(np := world.np)
      ensures calm ==> ok && world.np == Some(np)
    {
      NodePoolKeeps(world, Some(np), cr.status);
      ok := Write(world.(np := Some(np)));
    }

    /** The only place that moves the release image. */
    method SyncImages(hc: HostedCluster) returns (ok: bool)
      requires Valid() && Fits(cr.status, world) && Owned(world) && world.cm.None?
      requires cr.generation <= world.cr.generation
      modifies `world, `log
      ensures Valid() && Fits(cr.status, world)
      ensures world.cr.status == old(world).cr.status && world.cleanup == old(world).cleanup
      ensures calm && old(world).hc == Some(hc) ==>
                && ok && Owned(world) && world.hc.value.image == cr.spec.image && world.cm.None?
                && (world.np.Some? ==> world.np.value.image == cr.spec.image)
    {
      ok := true;
      if hc.image != cr.spec.image {
        ok := UpdateReleaseImage();
      }
      if ok {
        ok := UpdateNodePoolImage();
      }
    }

    /** Ignition is withdrawn before the release image moves, and the move is persisted last. */
    method StartUpgrade(hc: HostedCluster) returns (out: Outcome)
      requires InPass() && cr.status.hostedClusterRef && world.hc == Some(hc)
      modifies `world, `log, `cr
      ensures Valid()
      ensures out == Requeue || out == Error
      ensures calm ==> out == Requeue && UpgradeStarted(world, old(cr).spec.image)
    {
      cr := Invalidate(cr);
      var ok := DeleteConfigMap();
      if !ok {
        return Error;
      }
      DriftKeepsInvalidated(old(cr), old(world), world);
      cr := cr.(status := cr.status.(layerImage := ""));
      ok := SyncImages(hc);
      if !ok {
        return Error;
      }
      out := FinishStep(Requeue);
    }

    /** Ready, and then the phase, from the conditions. */
    method Recompute() returns (ghost ready: Read, ghost phase: Read)
      requires Valid() && Fits(cr.status, world) && !cr.deleting && !world.cleanup
      modifies `world, `log, `cr
      ensures Valid() && Fits(cr.status, world) && Drift(old(world), world)
      ensures old(Writable(cr, world)) ==> Writable(cr, world)
      ensures cr == WithPhase(WithReady(old(cr), ready), phase)
      ensures calm ==> world == old(world)
      ensures calm && world.hc.Some? ==> ready == phase == Found(world.hc.value)
    {
      ready := ComputeReady();
      ghost var computed := world;
      phase := UpdatePhase();
      DriftTransitive(old(world), computed, world);
      DriftKeepsFit(cr.status, computed, world);
    }

    /** Recomputes Ready and the phase and persists the status. */
    method FinishStep(success: Outcome) returns (out: Outcome)
      requires Valid() && Fits(cr.status, world) && !cr.deleting && !world.cleanup && success != Error
      requires world.cr.status.hostedClusterRef ==> cr.status.hostedClusterRef
      modifies `world, `log, `cr
      ensures Valid()
      ensures out == success || out == Error
      ensures out == success ==> world.cr.status == cr.status
      ensures Kept(old(cr), cr.(status := cr.status.(phase := old(cr).status.phase)))
      ensures SameIgnition(cr, old(cr))
      ensures calm ==> out == success && world == PutStatus(old(world), cr.status)
      ensures calm && old(world).hc.Some? ==> cr == Finished(old(cr), Found(old(world).hc.value))
    {
      var _, _ := Recompute();
      var ok := WriteStatus();
      out := if ok then success else Error;
    }

    /** A finished rollout is recorded and the pass goes on; an unfinished one stops it. */
    method FinishUpgrade(hc: HostedCluster) returns (out: Outcome)
      requires InPass() && cr.status.hostedClusterRef && world.hc == Some(hc)
      requires Is(cr.status.conditions, Upgrading, Yes)
      modifies `world, `log, `cr
      ensures Valid()
      ensures out == Continue ==>
                && InPass() && cr.spec == old(cr).spec && cr.generation == old(cr).generation
                && !Is(cr.status.conditions, Upgrading, Yes) && cr.status.phase != Pending
                && VersionReady(hc, cr.spec.image)
      ensures calm && !VersionReady(hc, old(cr).spec.image) ==> out == Requeue && world == old(world)
      ensures calm && VersionReady(hc, old(cr).spec.image) ==>
                && out == Continue && world == PutStatus(old(world), cr.status)
                && !Is(world.cr.status.conditions, Upgrading, Yes)
                && cr == Finished(Mark(old(cr), Upgrading, No, Other), Found(hc))
    {
      if !VersionReady(hc, cr.spec.image) {
        return Requeue;
      }
      cr := cr.(status := Set(cr.status, Upgrading, Condition(No, Other, cr.generation)));
      out := FinishUpgradeStatus();
    }

    method FinishUpgradeStatus() returns (out: Outcome)
      requires Valid() && Writable(cr, world)
      requires cr.status.hostedClusterRef && Is(cr.status.conditions, Upgrading, No)
      modifies `world, `log, `cr
      ensures Valid()
      ensures out == Continue || out == Error
      ensures out == Continue ==>
                && InPass() && cr.spec == old(cr).spec && cr.generation == old(cr).generation
                && !Is(cr.status.conditions, Upgrading, Yes) && cr.status.phase != Pending
      ensures calm ==> out == Continue && world == PutStatus(old(world), cr.status)
      ensures calm && old(world).hc.Some? ==> cr == Finished(old(cr), Found(old(world).hc.value))
    {
      ghost var ready, phase := Recompute();
      PendingIff(WithReady(old(cr), ready), phase);
      var ok := WriteStatus();
      out := if ok then Continue else Error;
    }

    /** Detects, resumes and finishes release upgrades.

        A crash anywhere inside an earlier image sync leaves Ready=True persisted; the
        recorded history then proves that another version was active, and the sync is
        completed whether or not the HostedCluster already carries the new image. */
    method HandleUpgrade() returns (out: Outcome)
      requires InPass()
      modifies `world, `log, `cr
      ensures Valid()
      ensures out == Continue ==>
                && InPass() && cr.spec == old(cr).spec && cr.generation == old(cr).generation
                && (Is(cr.status.conditions, Upgrading, Yes) ==> cr.status.phase in {Pending, Failed})
                && (cr.status.phase == Pending ==> old(cr).status.phase == Pending)
      ensures !old(cr).status.hostedClusterRef || old(cr).status.phase in {Pending, Failed} ==>
                out == Continue && cr == old(cr) && world == old(world)
      ensures var c := old(cr).status;
              && calm && c.hostedClusterRef && c.phase !in {Pending, Failed} && !Is(c.conditions, Upgrading, Yes)
              ==> if old(world).hc.value.image != old(cr).spec.image || Missed(old(cr), old(world).hc.value)
                  then out == Requeue && UpgradeStarted(world, old(cr).spec.image)
                  else out == Continue && cr == old(cr) && world == old(world)
      ensures var c := old(cr).status;
              && calm && c.hostedClusterRef && c.phase == PhaseReady && Is(c.conditions, Ready, Yes)
              && !Is(c.conditions, Upgrading, Yes) && !Matches(c.readyEntry.value, old(cr).spec.image)
              && !ControlPlaneReady(old(world).hc.value.history, old(cr).spec.image)
              ==> out == Requeue && UpgradeStarted(world, old(cr).spec.image)
      ensures var c := old(cr).status;
              && calm && c.hostedClusterRef && c.phase !in {Pending, Failed} && Is(c.conditions, Upgrading, Yes)
              ==> var hc := old(world).hc.value;
                  if hc.history != [] && hc.history[0].completed && Matches(hc.history[0], old(cr).spec.image) && !hc.versionProgressing
                  then out == Continue && !Is(world.cr.status.conditions, Upgrading, Yes)
                  else out == Requeue && world == old(world)
      ensures var hc := old(world).hc;
              calm && hc.Some? && hc.value.image == old(cr).spec.image && VersionReady(hc.value, old(cr).spec.image) ==>
                out == Continue && cr == UpgradeClosed(old(cr), Found(hc.value)) && world == PutStatus(old(world), world.cr.status)
    {
      if !cr.status.hostedClusterRef || cr.status.phase in {Pending, Failed} {
        return Continue;
      }
      var read := ReadHostedCluster();
      if !read.Found? {
        return if read.Missing? then Continue else Error;
      }
      if Is(cr.status.conditions, Upgrading, Yes) {
        out := FinishUpgrade(read.hc);
        return;
      }
      if Is(cr.status.conditions, Ready, Yes) && !Matches(cr.status.readyEntry.value, cr.spec.image) {
        DifferentVersionOnRecord(read.hc.history, cr.status.readyEntry.value, cr.spec.image);
      }
      if read.hc.image == cr.spec.image {
        var different := HasCompletedDifferentVersion(read.hc.history, cr.spec.image);
        if cr.status.phase != PhaseReady || ControlPlaneReady(read.hc.history, cr.spec.image) || !different {
          return Continue;
        }
      }
      out := StartUpgrade(read.hc);
    }

    // ----- HostedCluster, NodePool, status mirror, kubeconfig -----

    /** A HostedCluster comes into being only in a pass whose validations all succeeded. */
    method CreateOrUpdateHostedCluster() returns (out: Outcome)
      requires InPass()
      requires cr.status.phase == Pending || cr.status.hostedClusterRef
      requires cr.status.phase == Pending ==> AllGood(verdicts)
      requires verdicts.pass == passes
      modifies `world, `log, `created
      ensures Valid()
      ensures out == Continue ==> InPass()
      ensures !old(Owned(world)) && Owned(world) ==> created == old(created) + [verdicts] && verdicts.pass == passes && world.hc.value.image == cr.spec.image
      ensures calm && old(world).hc.None? ==> out == Continue && world == WithNewHostedCluster(old(world), cr)
      ensures calm && old(Owned(world)) ==> out == Continue && world == old(world)
      ensures calm && old(world).hc.Some? && !old(Owned(world)) ==> out == Error && world == old(world)
    {
      var read := ReadHostedCluster();
      match read
      case Unreadable =>
        return Error;
      case Found(hc) =>
        // a secret reference that had to be moved stops the pass; see SecretCopies
        var moved := Fails(calm);
        return if !hc.owned then Error else if moved then Requeue else Continue;
      case Missing =>
        var failed := Fails(calm);
        var applied: bool := *;
        if !failed || applied {
          created := created + [verdicts];
          Commit(world.(hc := Some(HostedCluster(true, cr.spec.image, cr.generation, [], false, map[]))));
        }
        return if failed then Error else Continue;
    }

    method CreateNodePool() returns (out: Outcome)
      requires InPass()
      modifies `world, `log
      ensures InPass()
      ensures out == Continue || out == Error
      ensures calm && old(world).np.None? ==> out == Continue && world == old(world).(np := Some(NodePool(true, cr.spec.image)))
      ensures calm && old(world).np.Some? ==> world == old(world) && (out == Continue <==> world.np.value.owned)
    {
      Interfere();
      var failed := Fails(calm);
      if failed {
        return Error;
      }
      if world.np.Some? {
        return if world.np.value.owned then Continue else Error;
      }
      var ok := Write(world.(np := Some(NodePool(true, cr.spec.image))));
      out := if ok then Continue else Error;
    }

    method ReconcileHostedClusterAndNodePool() returns (out: Outcome)
      requires InPass()
      requires cr.status.phase == Pending ==> AllGood(verdicts)
      requires verdicts.pass == passes
      modifies `world, `log, `created
      ensures Valid()
      ensures out == Continue ==> InPass()
      ensures calm && old(Owned(world)) && (old(world).np.Some? ==> old(world).np.value.owned)
              && (cr.status.phase == Pending || cr.status.hostedClusterRef) ==>
                out == Continue && world == WithNodePool(old(world), cr.spec.image)
      ensures calm && old(world).hc.None? && (old(world).np.Some? ==> old(world).np.value.owned) && cr.status.phase == Pending ==>
                out == Continue && world == WithNodePool(WithNewHostedCluster(old(world), cr), cr.spec.image)
    {
      if cr.status.phase != Pending && !cr.status.hostedClusterRef {
        return Continue;
      }
      out := CreateOrUpdateHostedCluster();
      if out == Continue {
        out := CreateNodePool();
      }
    }

    method SetHostedClusterRefIfOwned()
      requires InPass()
      modifies `world, `log, `cr
      ensures InPass() && Kept(old(cr), cr)
      ensures cr == old(cr).(status := old(cr).status.(hostedClusterRef := cr.status.hostedClusterRef))
      ensures calm && Owned(world) ==> cr.status.hostedClusterRef
      ensures calm ==> world == old(world)
    {
      if !cr.status.hostedClusterRef {
        var read := ReadHostedCluster();
        if read.Found? && read.hc.owned {
          cr := cr.(status := cr.status.(hostedClusterRef := true));
        }
      }
    }

    method SyncStatus() returns (out: Outcome)
      requires InPass()
      modifies `world, `log, `cr
      ensures Valid()
      ensures out == Continue || out == Error
      ensures out == Continue ==> InPass() && Kept(old(cr), cr)
      ensures calm && old(cr).status.hostedClusterRef && old(world).hc.Some? ==>
                && out == Continue && world == old(world)
                && cr == old(cr).(status := old(cr).status.(conditions := Mirrored(old(cr), old(world).hc.value)))
    {
      if !cr.status.hostedClusterRef {
        return Continue;
      }
      var read := ReadHostedCluster();
      if read.Unreadable? {
        return Error;
      }
      if read.Found? {
        var c := MirrorConditions(cr, read.hc);
        MirroringFits(cr, read.hc, world);
        cr := cr.(status := cr.status.(conditions := c));
      }
      out := Continue;
    }

    /** Whatever the verdict, a pass goes on only after the reference has been persisted. */
    method InjectKubeconfig() returns (out: Outcome)
      requires InPass()
      modifies `world, `log, `cr
      ensures Valid()
      ensures out == Continue || out == Error
      ensures out == Continue ==> InPass() && Kept(old(cr), cr) && (cr.status.hostedClusterRef ==> world.cr.status.hostedClusterRef)
      ensures calm && old(cr).status.hostedClusterRef ==>
                var injected := old(world).env.dpuCluster.Present? && old(world).env.kubeconfig;
                && out == Continue && world == PutStatus(old(world), cr.status)
                && cr == Mark(old(cr), KubeConfigInjected, if injected then Yes else No, Other)
    {
      if !cr.status.hostedClusterRef {
        return Continue;
      }
      Interfere();
      var failed := Fails(calm);
      if failed {
        var _ := Report(KubeConfigInjected, No);
        return Error;
      }
      var injected := world.env.dpuCluster.Present? && world.env.kubeconfig;
      var ok := Report(KubeConfigInjected, if injected then Yes else No);
      out := if ok then Continue else Error;
    }

    // ----- Ignition dependencies -----

    method InvalidateForDependency() returns (out: Outcome)
      requires InPass() && cr.status.hostedClusterRef
      modifies `world, `log, `cr
      ensures Valid()
      ensures out == Stop || out == Error
      ensures calm ==> out == Stop && world.cm.None? && Is(cr.status.conditions, Ignition, No)
                       && cr.status.conditions[Ignition] == Condition(No, DependencyDeleted, old(cr).generation)
      ensures calm && !Agree(old(cr).status.conditions, cr.status.conditions, Ignition) ==> world.cr.status == cr.status
      ensures calm ==> world.cr.status == cr.status || world.cr.status == old(world).cr.status
    {
      var ok := DeleteConfigMap();
      if !ok {
        return Error;
      }
      DriftKeeps(old(world), world, cr);
      out := WithdrawForDependency();
    }

    method WithdrawForDependency() returns (out: Outcome)
      requires InPass() && cr.status.hostedClusterRef && world.cm.None?
      modifies `world, `log, `cr
      ensures Valid()
      ensures out == Stop || out == Error
      ensures calm ==> out == Stop && world.cm.None? && Ignition in cr.status.conditions
                       && cr.status.conditions[Ignition] == Condition(No, DependencyDeleted, old(cr).generation)
      ensures calm && !Agree(old(cr).status.conditions, cr.status.conditions, Ignition) ==> world.cr.status == cr.status
      ensures calm ==> world.cr.status == cr.status || world.cr.status == old(world).cr.status
    {
      var c := Condition(No, DependencyDeleted, cr.generation);
      var changed: bool := *; // a new message alone also counts as a change
      changed := changed || Ignition !in cr.status.conditions || cr.status.conditions[Ignition] != c;
      var phase := cr.status.phase;
      cr := cr.(status := Set(cr.status, Ignition, c));
      var _, _ := Recompute();
      out := Stop;
      if changed || cr.status.phase != phase {
        var ok := WriteStatus();
        out := if ok then Stop else Error;
      }
    }

    method RegenerateForFlavor() returns (out: Outcome)
      requires InPass() && Is(cr.status.conditions, Ignition, Yes)
      modifies `world, `log, `cr
      ensures Valid()
      ensures out == Requeue || out == Error
      ensures calm ==> out == Requeue && world.cm.None?
      ensures calm && old(world).hc.Some? ==>
                world == Closed(old(world).(cm := None), Mark(old(cr), Ignition, No, DeploymentChanged))
    {
      var ok := DeleteConfigMap();
      if !ok {
        return Error;
      }
      DriftKeeps(old(world), world, cr);
      cr := cr.(status := Set(cr.status, Ignition, Condition(No, DeploymentChanged, cr.generation)));
      out := FinishStep(Requeue);
    }

    method UpdateBFBAnnotation(bfb: string) returns (out: Outcome)
      requires InPass()
      modifies `world, `log
      ensures Valid()
      ensures out == Stop || out == Error
      ensures calm && old(world).cm.Some? ==> out == Stop && world == old(world).(cm := Some(old(world).cm.value.(bfb := bfb)))
    {
      Interfere();
      var failed := Fails(calm);
      if failed || world.cm.None? {
        return Error;
      }
      var ok := Write(world.(cm := Some(world.cm.value.(bfb := bfb))));
      out := if ok then Stop else Error;
    }

    /** How the comparison with an existing deployment ends. */
    static predicate DependenciesHandled(w: World, cr: Provisioner, out: Outcome, w': World)
      requires w.hc.Some? && w.env.deployment.Some?
    {
      var d := w.env.deployment.value;
      if Is(cr.status.conditions, Ignition, Yes) && w.cm.Some? && w.cm.value.flavor != d.flavor then
        out == Requeue && w' == Closed(w.(cm := None), Mark(cr, Ignition, No, DeploymentChanged))
      else if Is(cr.status.conditions, Ignition, Yes) && w.cm.Some? && w.cm.value.bfb != d.bfb then
        out == Stop && w' == w.(cm := Some(w.cm.value.(bfb := d.bfb)))
      else
        out == Continue
    }

    static predicate PrerequisitesMet(cr: Provisioner) {
      && cr.status.hostedClusterRef
      && Is(cr.status.conditions, HcAvailable, Yes)
      && Is(cr.status.conditions, KubeConfigInjected, Yes)
    }

    /** Passing this step undisturbed means that published ignition is up to date. */
    method HandleDependencyChanges() returns (out: Outcome)
      requires InPass()
      modifies `world, `log, `cr
      ensures Valid()
      ensures out == Continue ==> InPass() && cr == old(cr) && world.cr.status == old(world).cr.status
      ensures calm && out == Continue ==> world == old(world)
      ensures calm && out == Continue && Is(cr.status.conditions, Ignition, Yes) && world.cm.Some? ==> IgnitionUpToDate(world)
      ensures calm && old(world).hc.Some? && GoodDependencies(old(world).env) ==>
                DependenciesHandled(old(world), old(cr), out, world)
      ensures !Is(old(cr).status.conditions, Ignition, Yes) && !PrerequisitesMet(old(cr)) ==>
                out == Continue && world == old(world)
      ensures calm && (Is(old(cr).status.conditions, Ignition, Yes) || PrerequisitesMet(old(cr))) && DependencyLost(old(world).env) ==>
                && out == Stop && world.cm.None? && Ignition in cr.status.conditions
                && cr.status.conditions[Ignition] == Condition(No, DependencyDeleted, old(cr).generation)
                && (!Agree(old(cr).status.conditions, cr.status.conditions, Ignition) ==> world.cr.status == cr.status)
                && (world.cr.status == cr.status || world.cr.status == old(world).cr.status)
    {
      var wasConfigured := Is(cr.status.conditions, Ignition, Yes);
      if !wasConfigured && !PrerequisitesMet(cr) {
        return Continue;
      }
      Interfere();
      var failed := Fails(calm);
      if failed {
        return Continue;
      }
      if world.env.deployment.None? || world.env.deployment.value.flavor == "" {
        out := InvalidateForDependency();
        return;
      }
      var deployment := world.env.deployment.value;
      Interfere();
      failed := Fails(calm);
      if failed && !wasConfigured {
        return Error;
      }
      if !failed && deployment.flavor !in world.env.flavors {
        out := InvalidateForDependency();
        return;
      }
      if wasConfigured {
        out := CompareAnnotations(deployment);
      } else {
        out := Continue;
      }
    }

    method CompareAnnotations(deployment: Deployment) returns (out: Outcome)
      requires InPass() && Is(cr.status.conditions, Ignition, Yes)
      modifies `world, `log, `cr
      ensures Valid()
      ensures out == Continue ==> InPass() && cr == old(cr) && world.cr.status == old(world).cr.status
      ensures calm && out == Continue ==> world == old(world)
      ensures calm && out == Continue && world.cm.Some? ==>
                world.cm.value.flavor == deployment.flavor && world.cm.value.bfb == deployment.bfb
      ensures calm && old(world).hc.Some? && old(world).env.deployment == Some(deployment) ==>
                DependenciesHandled(old(world), old(cr), out, world)
    {
      Interfere();
      var failed := Fails(calm);
      if failed {
        return Error;
      }
      if world.cm.None? {
        return Continue;
      }
      if world.cm.value.flavor != deployment.flavor {
        out := RegenerateForFlavor();
      } else if world.cm.value.bfb != deployment.bfb {
        out := UpdateBFBAnnotation(deployment.bfb);
      } else {
        out := Continue;
      }
    }

    // ----- Ignition -----

    /** Builds and publishes the ignition; the inputs are read one after the other. */
    method BuildAndPublish() returns (result: Reason)
      requires InPass() && !Is(cr.status.conditions, Upgrading, Yes)
      requires world.cr.status.hostedClusterRef
      modifies `world, `log
      ensures InPass() && world.cr.status == old(world).cr.status
      ensures result in {Generated, SyncPending, GenerationFailed, MachineOSMissing}
      ensures result == Generated ==> world.cm.Some? && world.cm.value.revision == cr.generation && world.cm.value.image == cr.spec.image
                                      && world.cm.value.own
      ensures calm && result == Generated ==> IgnitionUpToDate(world)
      ensures calm ==> world == old(world).(cm := if result == Generated then world.cm else old(world).cm)
      ensures calm ==> (result == Generated <==> CanGenerate(cr, old(world).env))
      ensures calm && GoodDependencies(old(world).env) && result != Generated ==> result == MachineOSMissing
      ensures calm && old(world).env.server == OutOfSync ==> result == SyncPending
      ensures calm && old(world).env.server == Broken ==> result == GenerationFailed
    {
      Interfere();
      var failed := Fails(calm);
      if failed || world.env.server == Broken {
        return GenerationFailed;
      }
      if world.env.server == OutOfSync {
        return SyncPending;
      }
      Interfere();
      failed := Fails(calm);
      var d := world.env.deployment;
      if failed || d.None? || d.value.flavor == "" || d.value.flavor !in world.env.flavors {
        return GenerationFailed;
      }
      if cr.spec.machineOSURL == "" && cr.status.layerImage == "" {
        return MachineOSMissing;
      }
      var ok := CreateOrUpdateConfigMap();
      result := if ok then Generated else GenerationFailed;
    }

    /** Stamps the ConfigMap with the deployment as read at this moment. */
    method CreateOrUpdateConfigMap() returns (ok: bool)
      requires InPass() && !Is(cr.status.conditions, Upgrading, Yes)
      requires world.cr.status.hostedClusterRef
      modifies `world, `log
      ensures InPass() && world.cr.status == old(world).cr.status
      ensures ok ==> world.env.deployment.Some? && world.cm == Some(ConfigMap(cr.generation, cr.spec.image,
                       world.env.deployment.value.flavor, world.env.deployment.value.bfb, true))
      ensures calm ==> world == old(world).(cm := world.cm) && ok == old(world).env.deployment.Some?
      ensures calm && !ok ==> world == old(world)
    {
      Interfere();
      var failed := Fails(calm);
      if failed || world.env.deployment.None? {
        return false;
      }
      var d := world.env.deployment.value;
      ok := Write(world.(cm := Some(ConfigMap(cr.generation, cr.spec.image, d.flavor, d.bfb, true))));
    }

    /** What an undisturbed generation needs. */
    predicate CanGenerate(cr: Provisioner, env: Surroundings) {
      && env.server == Serves
      && env.deployment.Some? && env.deployment.value.flavor != "" && env.deployment.value.flavor in env.flavors
      && (cr.spec.machineOSURL != "" || cr.status.layerImage != "")
    }

    /** How an undisturbed generation ends where only the machine OS may be missing. */
    static predicate GenerationHandled(w: World, cr: Provisioner, out: Outcome, w': World, cr': Provisioner)
      requires w.hc.Some? && w.env.deployment.Some?
    {
      var d := w.env.deployment.value;
      if HasMachineOS(cr) then
        && out == Continue && cr' == Mark(cr, Ignition, Yes, Generated)
        && w' == PutStatus(w.(cm := Some(ConfigMap(cr.generation, cr.spec.image, d.flavor, d.bfb, true))), cr'.status)
      else
        out == Requeue && w' == Generate(w, cr)
    }

    /** The condition for the outcome of a generation.  A missing machine OS is first recorded as such
        and then, like every failure, as a failed generation. */
    method MarkGeneration(result: Reason)
      requires InPass() && !Is(cr.status.conditions, Upgrading, Yes) && cr.status.hostedClusterRef
      requires result in {Generated, SyncPending, GenerationFailed, MachineOSMissing}
      requires result == Generated && world.cm.Some? ==> world.cm.value.own
      modifies `cr
      ensures InPass() && Kept(old(cr), cr)
      ensures result == Generated ==> cr == Mark(old(cr), Ignition, Yes, Generated)
      ensures result in {GenerationFailed, MachineOSMissing} ==> cr == Mark(old(cr), Ignition, No, GenerationFailed)
      ensures result == SyncPending ==> cr == Mark(Mark(old(cr), Ignition, No, SyncPending), Ready, No, Other)
    {
      if result == Generated {
        cr := cr.(status := Set(cr.status, Ignition, Condition(Yes, Generated, cr.generation)));
      } else {
        if result == MachineOSMissing {
          cr := cr.(status := Set(cr.status, Ignition, Condition(No, MachineOSMissing, cr.generation)));
        }
        cr := cr.(status := Set(cr.status, Ignition, Condition(No, if result == SyncPending then SyncPending else GenerationFailed, cr.generation)));
        if result == SyncPending {
          cr := cr.(status := Set(cr.status, Ready, Condition(No, Other, cr.generation)));
        }
      }
    }

    method PersistGeneration(result: Reason) returns (out: Outcome)
      requires InPass() && !Is(cr.status.conditions, Upgrading, Yes) && cr.status.hostedClusterRef
      requires result in {Generated, SyncPending, GenerationFailed, MachineOSMissing}
      requires result == Generated && world.cm.Some? ==> world.cm.value.own
      modifies `world, `log, `cr
      ensures Valid()
      ensures out == if out == Error then Error else if result == Generated then Continue else Requeue
      ensures out != Error ==> InPass() && Kept(old(cr), cr)
      ensures calm ==> out != Error && world == PutStatus(old(world), cr.status)
      ensures result == Generated ==> cr == Mark(old(cr), Ignition, Yes, Generated)
      ensures result in {GenerationFailed, MachineOSMissing} ==> cr == Mark(old(cr), Ignition, No, GenerationFailed)
      ensures result == SyncPending ==> cr == Mark(Mark(old(cr), Ignition, No, SyncPending), Ready, No, Other)
    {
      MarkGeneration(result);
      var ok := WriteStatus();
      out := if !ok then Error else if result == Generated then Continue else Requeue;
    }

    method GenerateIgnition() returns (out: Outcome)
      requires InPass() && !Is(cr.status.conditions, Upgrading, Yes)
      requires world.cr.status.hostedClusterRef
      modifies `world, `log, `cr
      ensures Valid()
      ensures out == Continue ==> InPass() && Kept(old(cr), cr)
      ensures out == Continue ==> Is(cr.status.conditions, Ignition, Yes) && cr.status.conditions[Ignition].generation == cr.generation
      ensures calm && out == Continue ==> IgnitionUpToDate(world)
      ensures calm ==> (out == Continue <==> CanGenerate(old(cr), old(world).env))
      ensures calm && old(world).hc.Some? && GoodDependencies(old(world).env) ==>
                GenerationHandled(old(world), old(cr), out, world, cr)
      ensures calm && old(world).env.server != Serves ==>
                && out == Requeue && world.cm == old(world).cm && Ignition in world.cr.status.conditions
                && world.cr.status.conditions[Ignition] == Condition(No,
                     if old(world).env.server == OutOfSync then SyncPending else GenerationFailed, old(cr).generation)
                && (old(world).env.server == OutOfSync ==> Is(world.cr.status.conditions, Ready, No))
    {
      var result := BuildAndPublish();
      out := PersistGeneration(result);
      if out == Requeue {
        var _ := UpdatePhase();
        var ok := WriteStatus();
        out := if ok then Requeue else Error;
      }
    }

    static predicate GoodFor(w: World) {
      w.hc.Some? && GoodDependencies(w.env)
    }

    /** After a release change the ignition server still serves the old version until the control
        plane is on the target.  Only the reason tells: once another reason has replaced it, as
        after a lost ConfigMap, nothing waits. */
    static predicate Waits(w: World, cr: Provisioner)
      requires w.hc.Some?
    {
      && Ignition in cr.status.conditions && cr.status.conditions[Ignition].reason == ReleaseImageUpdated
      && !ControlPlaneReady(w.hc.value.history, cr.spec.image)
    }

    /** Generation waits for the rollout after a release change, and never runs during one. */
    method GenerateIfDue() returns (out: Outcome)
      requires InPass()
      requires cr.status.hostedClusterRef ==> world.cr.status.hostedClusterRef
      requires Is(cr.status.conditions, Upgrading, Yes) ==> cr.status.phase in {Pending, Failed}
      modifies `world, `log, `cr
      ensures Valid()
      ensures out == Continue ==> InPass() && Kept(old(cr), cr)
      ensures calm && out == Continue ==> (cr == old(cr) && world == old(world)) || IgnitionUpToDate(world)
      ensures calm && old(cr).status.hostedClusterRef && GoodFor(old(world)) ==>
                if Due(old(cr)) && !Waits(old(world), old(cr)) then GenerationHandled(old(world), old(cr), out, world, cr)
                else out == (if Due(old(cr)) then Requeue else Continue) && world == old(world) && cr == old(cr)
      ensures !Due(old(cr)) ==> out == Continue && world == old(world) && cr == old(cr)
      ensures calm && old(cr).status.hostedClusterRef && Due(old(cr)) && old(world).hc.Some? && Waits(old(world), old(cr)) ==>
                out == Requeue && world == old(world)
    {
      var c := cr.status.conditions;
      if !cr.status.hostedClusterRef {
        return Continue;
      }
      if cr.status.phase != GeneratingIgnition
         && !(Is(c, Ignition, No) && c[Ignition].reason in {GenerationFailed, OperatorRestarted, ConfigMapDeleted}) {
        return Continue;
      }
      if Ignition in c && c[Ignition].reason == ReleaseImageUpdated {
        var read := ReadHostedCluster();
        if !read.Found? {
          return if read.Missing? then Continue else Error;
        }
        if !ControlPlaneReady(read.hc.history, cr.spec.image) {
          return Requeue;
        }
      }
      out := GenerateIgnition();
    }

    /** Where nothing waits: a lost ConfigMap has replaced the reason, and ignition is published for
        a release that the control plane does not run yet. */
    method GenerateAfterLoss() returns (out: Outcome)
      requires InPass() && calm && cr.status.hostedClusterRef && world.cr.status.hostedClusterRef
      requires GoodFor(world) && HasMachineOS(cr) && !Is(cr.status.conditions, Upgrading, Yes)
      requires Is(cr.status.conditions, Ignition, No) && cr.status.conditions[Ignition].reason == ConfigMapDeleted
      requires !ControlPlaneReady(world.hc.value.history, cr.spec.image)
      modifies `world, `log, `cr
      ensures out == Continue && world.cm.Some? && world.cm.value.image == old(cr).spec.image && world.hc == old(world).hc
      ensures !ControlPlaneReady(world.hc.value.history, world.cm.value.image)
    {
      out := GenerateIfDue();
    }

    /** Clears the condition of an ignition ConfigMap that has vanished, or that an earlier operator
        process may have written. */
    method VerifyIgnitionConfigMap() returns (triggered: bool)
      requires InPass()
      modifies `world, `log, `cr, `ignitionReconciled
      ensures InPass() && world.cr.status == old(world).cr.status
      ensures !triggered ==> cr == old(cr)
      ensures triggered ==> Kept(old(cr), cr) && Is(cr.status.conditions, Ignition, No)
      ensures calm ==>
                && world == old(world)
                && ignitionReconciled == (old(ignitionReconciled) || Is(old(cr).status.conditions, Ignition, Yes))
                && (triggered <==> Unverified(old(world), old(cr), old(ignitionReconciled)))
                && (triggered ==> cr == Mark(old(cr), Ignition, No, if world.cm.None? then ConfigMapDeleted else OperatorRestarted))
    {
      if !Is(cr.status.conditions, Ignition, Yes) {
        return false;
      }
      Interfere();
      var failed := Fails(calm);
      if failed {
        return false;
      }
      triggered := world.cm.None? || !ignitionReconciled;
      ignitionReconciled := true;
      if triggered {
        cr := cr.(status := Set(cr.status, Ignition,
          Condition(No, if world.cm.None? then ConfigMapDeleted else OperatorRestarted, cr.generation)));
      }
    }

    static predicate Unverified(w: World, cr: Provisioner, flag: bool) {
      Is(cr.status.conditions, Ignition, Yes) && (w.cm.None? || !flag)
    }

    /** Published ignition is verified first, and otherwise generated if due. */
    static predicate IgnitionHandled(w: World, cr: Provisioner, flag: bool, out: Outcome, w': World, cr': Provisioner, flag': bool)
      requires GoodFor(w)
    {
      if Unverified(w, cr, flag) then
        && out == Requeue && flag'
        && w' == Closed(w, Mark(cr, Ignition, No, if w.cm.None? then ConfigMapDeleted else OperatorRestarted))
      else if Due(cr) && Waits(w, cr) then
        out == Requeue && w' == w && flag' == (flag || Is(cr.status.conditions, Ignition, Yes))
      else if Due(cr) then
        GenerationHandled(w, cr, out, w', cr') && flag' == (flag || Is(cr.status.conditions, Ignition, Yes) || out == Continue)
      else
        out == Continue && w' == w && cr' == cr && flag'
    }

    method ReconcileIgnition() returns (out: Outcome)
      requires InPass()
      requires cr.status.hostedClusterRef ==> world.cr.status.hostedClusterRef
      requires Is(cr.status.conditions, Upgrading, Yes) ==> cr.status.phase in {Pending, Failed}
      modifies `world, `log, `cr, `ignitionReconciled
      ensures Valid()
      ensures out == Continue ==> InPass() && Kept(old(cr), cr)
      ensures calm && out == Continue && Is(cr.status.conditions, Ignition, Yes)
              && (old(Is(cr.status.conditions, Ignition, Yes) && world.cm.Some?) ==> old(IgnitionUpToDate(world)))
              ==> IgnitionUpToDate(world)
      ensures calm && old(cr).status.hostedClusterRef && GoodFor(old(world)) ==>
                IgnitionHandled(old(world), old(cr), old(ignitionReconciled), out, world, cr, ignitionReconciled)
      ensures calm && !Is(old(cr).status.conditions, Ignition, Yes) && !Due(old(cr)) ==>
                out == Continue && world == old(world) && cr == old(cr)
    {
      var triggered := VerifyIgnitionConfigMap();
      if triggered {
        out := FinishStep(Requeue);
        return;
      }
      out := GenerateIfDue();
      if out == Continue {
        ignitionReconciled := true;
      }
    }

    // ----- The pass -----

    /** MetalLB, secret copies and the etcd key: they only matter here by stopping the pass. */
    method Prepare() returns (out: Outcome)
      requires InPass()
      modifies `world, `log, `cr
      ensures Valid()
      ensures out == Continue ==> InPass() && Kept(old(cr), cr)
      ensures calm && (old(cr).spec.exposeThroughLB ==> old(world).env.metalLB) ==>
                out == Continue && cr == Prepared(old(cr)) && world == PutStatus(old(world), world.cr.status)
      ensures calm && old(cr).spec.exposeThroughLB && !old(world).env.metalLB ==>
                out == Error && Is(world.cr.status.conditions, MetalLB, No)
    {
      var failed := Fails(calm);
      if cr.spec.exposeThroughLB {
        Interfere();
        failed := failed || !world.env.metalLB;
        var ok := Report(MetalLB, if failed then No else Yes);
        if failed || !ok {
          return Error;
        }
      }
      failed := Fails(calm);
      if failed && Is(cr.status.conditions, SecretsValid, Yes) {
        return Error;
      }
      failed := Fails(calm);
      out := if failed && cr.status.phase == Pending then Error else Continue;
    }

    /** Cleanup has begun, and either waits for an owned HostedCluster or has let the resource go. */
    static predicate CleanupUnderway(w: World, out: Outcome) {
      w.cleanup && if Owned(w) then out == Requeue else out == Stop && !w.cr.finalizer
    }

    /** Finalizer cleanup, as far as this state is concerned: owned objects go away, and
        the finalizer is dropped only when none is left (see Finalizer). */
    method HandleDeletion() returns (out: Outcome)
      requires Valid() && Fits(cr.status, world) && world.cr.deleting
      requires world.cr.status.hostedClusterRef ==> cr.status.hostedClusterRef
      modifies `world, `log
      ensures Valid()
      ensures calm ==> world.cr.status == cr.status && (cr.finalizer ==> CleanupUnderway(world, out))
    {
      var ok := WriteStatus();
      if !ok {
        return Error;
      }
      if !cr.finalizer {
        return Stop;
      }
      out := Cleanup();
    }

    method Cleanup() returns (out: Outcome)
      requires Valid() && world.cr.deleting
      modifies `world, `log
      ensures Valid()
      ensures !world.cr.finalizer && old(world).cr.finalizer ==> !Owned(world)
      ensures calm ==> world.cr.status == old(world).cr.status && CleanupUnderway(world, out)
    {
      Commit(world.(cleanup := true));
      Interfere();
      var gone: bool := *;
      if gone && Owned(world) {
        Commit(world.(hc := None));
      }
      if Owned(world) {
        return Requeue;
      }
      var ok := Write(world.(cr := world.cr.(finalizer := false)));
      out := if ok then Stop else Error;
    }

    /** From the read of the resource to the end of the validations. */
    method BeginPass() returns (out: Outcome)
      requires Valid()
      modifies `world, `log, `cr, `verdicts, `passes
      ensures Valid()
      ensures calm && old(world).cr.deleting ==>
                && out != Continue && world.cr.status.phase == Deleting
                && (old(world).cr.finalizer ==> CleanupUnderway(world, out))
      ensures verdicts.pass == passes == old(passes) + 1
      ensures out == Continue ==> InPass() && (cr.status.phase == Pending ==> AllGood(verdicts))
      ensures calm && Alive(old(world).cr) && GoodSurroundings(old(world).env, old(world).cr.spec) ==>
                var w := old(world);
                && out == Continue && world == PutStatus(w, world.cr.status)
                && cr == Begin(w)
      ensures calm && !old(world).cr.deleting && !old(world).cr.finalizer ==>
                out == Requeue && world == old(world).(cr := old(world).cr.(finalizer := true))
    {
      passes := passes + 1;
      verdicts := Verdicts(passes, false, false, false, false, false);
      out := Fetch();
      if out == Continue {
        out := Validate();
      }
    }

    /** Reads the resource; a pass goes on unless it is being deleted or lacks the finalizer. */
    method Fetch() returns (out: Outcome)
      requires Valid()
      modifies `world, `log, `cr
      ensures Valid()
      ensures calm && old(world).cr.deleting ==>
                && out != Continue && world.cr.status.phase == Deleting
                && (old(world).cr.finalizer ==> CleanupUnderway(world, out))
      ensures out == Continue ==> InPass() && (!cr.status.hostedClusterRef ==> cr.status.phase in {Pending, Failed})
      ensures calm && Alive(old(world).cr) ==>
                out == Continue && world == old(world) && cr == WithPhase(old(world).cr, Seen(old(world)))
      ensures calm && !old(world).cr.deleting && !old(world).cr.finalizer ==>
                out == Requeue && world == old(world).(cr := old(world).cr.(finalizer := true))
    {
      Interfere();
      var failed := Fails(calm);
      cr := world.cr;
      if failed {
        return Error;
      }
      label fetched:
      ghost var r := UpdatePhase();
      DriftKeepsFit(world.cr.status, old@fetched(world), world);
      PendingIff(old@fetched(cr), r);
      if cr.deleting {
        out := HandleDeletion();
        return if out == Continue then Stop else out;
      }
      out := Continue;
      if !cr.finalizer {
        out := AddFinalizer();
      }
    }

    method AddFinalizer() returns (out: Outcome)
      requires Valid()
      modifies `world, `log
      ensures Valid() && (out == Requeue ==> world.cr.finalizer) && out in {Requeue, Error}
      ensures calm ==> out == Requeue && world == old(world).(cr := old(world).cr.(finalizer := true))
    {
      Interfere();
      var ok := Write(world.(cr := world.cr.(finalizer := true)));
      out := if ok then Requeue else Error;
    }

    /** Why freshness needs a clean start: a new resource creates its HostedCluster beside the
        ConfigMap a predecessor left, and a crash may leave it at that. */
    method CreateBesideLeftover() returns (out: Outcome)
      requires Valid() && calm && world.hc.None? && world.cm.Some? && !world.cm.value.own
      requires Alive(world.cr) && GoodSurroundings(world.env, world.cr.spec)
      modifies `world, `log, `cr, `verdicts, `passes, `created
      ensures Valid() && Owned(world) && world.hc.value.image == old(world).cr.spec.image
      ensures world.cm == old(world).cm && !Fresh(world)
    {
      StartsPending(world.cr, world.env);
      out := BeginPass();
      out := Prepare();
      out := HandleUpgrade();
      out := CreateOrUpdateHostedCluster();
    }

    /** Preparations and upgrade handling. */
    method PrepareAndUpgrade() returns (out: Outcome)
      requires InPass()
      modifies `world, `log, `cr
      ensures Valid()
      ensures calm && GoodSurroundings(old(world).env, old(cr).spec) && UpgradeDue(old(cr), old(world)) ==>
                out == Requeue && UpgradeStarted(world, old(cr).spec.image)
      ensures out == Continue ==>
                && InPass()
                && (Is(cr.status.conditions, Upgrading, Yes) ==> cr.status.phase in {Pending, Failed})
                && (cr.status.phase == Pending ==> old(cr).status.phase == Pending)
      ensures calm && Sound(old(world)) && old(cr).spec == old(world).cr.spec ==>
                && out == Continue && world == PutStatus(old(world), world.cr.status)
                && cr == UpgradeClosed(Prepared(old(cr)), Found(old(world).hc.value))
      ensures calm && GoodSurroundings(old(world).env, old(cr).spec) && !old(cr).status.hostedClusterRef ==>
                out == Continue && world == PutStatus(old(world), world.cr.status) && cr == Prepared(old(cr))
    {
      out := Prepare();
      if out == Continue {
        out := HandleUpgrade();
      }
    }

    /** Reference, mirrored status and kubeconfig of an existing HostedCluster. */
    method Attach() returns (out: Outcome)
      requires InPass()
      modifies `world, `log, `cr
      ensures Valid()
      ensures out == Continue ==>
                InPass() && Kept(old(cr), cr) && (cr.status.hostedClusterRef ==> world.cr.status.hostedClusterRef)
      ensures calm && old(Owned(world)) ==>
                && out == Continue && world == PutStatus(old(world), cr.status)
                && cr == Injected(Synced(old(cr), old(world).hc.value), old(world).env)
    {
      SetHostedClusterRefIfOwned();
      out := SyncStatus();
      if out == Continue {
        out := InjectKubeconfig();
      }
    }

    /** From the HostedCluster to the injected kubeconfig. */
    method Establish() returns (out: Outcome)
      requires InPass() && (cr.status.phase == Pending ==> AllGood(verdicts))
      requires verdicts.pass == passes
      modifies `world, `log, `cr, `created
      ensures Valid()
      ensures out == Continue ==>
                InPass() && Kept(old(cr), cr) && (cr.status.hostedClusterRef ==> world.cr.status.hostedClusterRef)
      ensures calm && Sound(old(world)) && (old(cr).status.phase == Pending || old(cr).status.hostedClusterRef) ==>
                && out == Continue && world == PutStatus(WithNodePool(old(world), cr.spec.image), cr.status)
                && cr == Mark(Synced(old(cr), old(world).hc.value), KubeConfigInjected, Yes, Other)
      ensures calm && Unprovisioned(old(world)) && old(cr).status.phase == Pending ==>
                && out == Continue
                && world == PutStatus(WithNodePool(WithNewHostedCluster(old(world), old(cr)), old(cr).spec.image), cr.status)
                && cr == Injected(Synced(old(cr), NewHostedCluster(old(cr))), old(world).env)
    {
      out := ReconcileHostedClusterAndNodePool();
      if out == Continue {
        out := Attach();
      }
    }

    /** From the preparations to the injected kubeconfig. */
    method Provision() returns (out: Outcome)
      requires InPass() && (cr.status.phase == Pending ==> AllGood(verdicts))
      requires verdicts.pass == passes
      modifies `world, `log, `cr, `created
      ensures Valid()
      ensures calm && GoodSurroundings(old(world).env, old(cr).spec) && UpgradeDue(old(cr), old(world)) ==>
                out == Requeue && UpgradeStarted(world, old(cr).spec.image)
      ensures out == Continue ==>
                && InPass()
                && (cr.status.hostedClusterRef ==> world.cr.status.hostedClusterRef)
                && (Is(cr.status.conditions, Upgrading, Yes) ==> cr.status.phase in {Pending, Failed})
      ensures calm && Sound(old(world)) && old(cr).spec == old(world).cr.spec
              && (old(cr).status.phase == Pending || old(cr).status.hostedClusterRef) ==>
                var hc := old(world).hc.value;
                && out == Continue && world == PutStatus(WithNodePool(old(world), cr.spec.image), cr.status)
                && cr == Mark(Synced(UpgradeClosed(Prepared(old(cr)), Found(hc)), hc), KubeConfigInjected, Yes, Other)
      ensures calm && Unprovisioned(old(world)) && GoodSurroundings(old(world).env, old(cr).spec)
              && old(cr).status.phase == Pending && !old(cr).status.hostedClusterRef ==>
                && out == Continue
                && world == PutStatus(WithNodePool(WithNewHostedCluster(old(world), old(cr)), old(cr).spec.image), cr.status)
                && cr == Injected(Synced(Prepared(old(cr)), NewHostedCluster(old(cr))), old(world).env)
    {
      out := PrepareAndUpgrade();
      if out == Continue {
        out := Establish();
      }
    }

    /** From the verification of published ignition to the final Ready computation. */
    method ManageIgnition() returns (out: Outcome, reached: bool)
      requires InPass()
      requires cr.status.hostedClusterRef ==> world.cr.status.hostedClusterRef
      requires Is(cr.status.conditions, Upgrading, Yes) ==> cr.status.phase in {Pending, Failed}
      modifies `world, `log, `cr, `ignitionReconciled
      ensures Valid()
      ensures calm && reached && Is(world.cr.status.conditions, Ignition, Yes)
              && (old(Is(cr.status.conditions, Ignition, Yes) && world.cm.Some?) ==> old(IgnitionUpToDate(world)))
              ==> IgnitionUpToDate(world)
      ensures calm && old(cr).status.hostedClusterRef && GoodFor(old(world))
              && ControlPlaneReady(old(world).hc.value.history, old(cr).spec.image) ==>
                Machine(world, ignitionReconciled) == IgnitionTail(old(world), old(cr), old(ignitionReconciled))
      ensures calm && !Is(old(cr).status.conditions, Ignition, Yes) && !Due(old(cr)) && old(world).hc.Some? ==>
                reached && out == Stop && world == Closed(old(world), old(cr))
    {
      reached := false;
      out := ReconcileIgnition();
      if out == Continue {
        out := FinishStep(Stop);
        reached := true;
      }
    }

    /** From the dependency check to the final Ready computation, which `reached` reports. */
    method ConfigureIgnition() returns (out: Outcome, reached: bool)
      requires InPass()
      requires cr.status.hostedClusterRef ==> world.cr.status.hostedClusterRef
      requires Is(cr.status.conditions, Upgrading, Yes) ==> cr.status.phase in {Pending, Failed}
      modifies `world, `log, `cr, `ignitionReconciled
      ensures Valid()
      ensures calm && reached && Is(world.cr.status.conditions, Ignition, Yes) ==> IgnitionUpToDate(world)
      ensures calm && old(cr).status.hostedClusterRef && GoodFor(old(world))
              && ControlPlaneReady(old(world).hc.value.history, old(cr).spec.image) ==>
                Machine(world, ignitionReconciled) == Tail(old(world), old(cr), old(ignitionReconciled))
      ensures calm && old(world).hc.Some? && !Is(old(cr).status.conditions, Ignition, Yes)
              && !PrerequisitesMet(old(cr)) && !Due(old(cr)) ==>
                reached && out == Stop && world == Closed(old(world), old(cr))
      ensures calm && (Is(old(cr).status.conditions, Ignition, Yes) || PrerequisitesMet(old(cr)))
              && DependencyLost(old(world).env) && old(world).cr.status == old(cr).status ==>
                && out == Stop && world.cm.None? && Ignition in world.cr.status.conditions
                && world.cr.status.conditions[Ignition] == Condition(No, DependencyDeleted, old(cr).generation)
    {
      reached := false;
      out := HandleDependencyChanges();
      if out == Continue {
        out, reached := ManageIgnition();
      }
    }

    /** The pass up to the injected kubeconfig. */
    method FirstHalf() returns (out: Outcome)
      requires Valid()
      modifies `world, `log, `cr, `verdicts, `passes, `created
      ensures Valid()
      ensures calm && MustUpgrade(old(world)) ==> out == Requeue && UpgradeStarted(world, old(world).cr.spec.image)
      ensures calm && old(world).cr.deleting ==>
                && out != Continue && world.cr.status.phase == Deleting
                && (old(world).cr.finalizer ==> CleanupUnderway(world, out))
      ensures out == Continue ==>
                && InPass()
                && (cr.status.hostedClusterRef ==> world.cr.status.hostedClusterRef)
                && (Is(cr.status.conditions, Upgrading, Yes) ==> cr.status.phase in {Pending, Failed})
      ensures calm && Sound(old(world)) ==>
                && out == Continue && world == AfterFront(old(world))
                && cr == Front(old(world).cr, old(world).env, old(world).hc.value)
      ensures calm && Startup(old(world)) ==>
                out == Continue && world == AfterStartup(old(world)) && cr == StartupFront(old(world).cr, old(world).env)
      ensures calm && !old(world).cr.deleting && !old(world).cr.finalizer ==>
                out == Requeue && world == old(world).(cr := old(world).cr.(finalizer := true))
    {
      BeginFacts(world);
      out := BeginPass();
      if out == Continue {
        out := Provision();
      }
    }

    /** An undisturbed pass that gets to the final Ready computation leaves published ignition up to
        date.  In a healthy cluster it is `Pass`, without a HostedCluster it creates one, and with a
        dependency of ignition missing it withdraws ignition. */
    method Reconcile() returns (out: Outcome, reached: bool)
      requires Valid()
      modifies `world, `log, `cr, `verdicts, `passes, `created, `ignitionReconciled
      ensures Valid()
      ensures calm && MustUpgrade(old(world)) ==> out == Requeue && UpgradeStarted(world, old(world).cr.spec.image)
      ensures calm && old(world).cr.deleting ==>
                && world.cr.status.phase == Deleting
                && (old(world).cr.finalizer ==> CleanupUnderway(world, out))
      ensures calm && reached && Is(world.cr.status.conditions, Ignition, Yes) ==> IgnitionUpToDate(world)
      ensures calm && Healthy(old(world)) ==>
                Machine(world, ignitionReconciled) == Pass(Machine(old(world), old(ignitionReconciled)))
      ensures calm && Startup(old(world)) ==>
                && world.hc == Some(HostedCluster(true, old(world).cr.spec.image, old(world).cr.generation, [], false, map[]))
                && world.np == (if old(world).np.None? then Some(NodePool(true, old(world).cr.spec.image)) else old(world).np)
                && world.cr.status.hostedClusterRef
                && world == PutStatus(old(world).(hc := world.hc, np := world.np), world.cr.status)
      ensures calm && Sound(old(world)) && DependencyLost(old(world).env) ==>
                && world.cm.None? && Ignition in world.cr.status.conditions
                && world.cr.status.conditions[Ignition] == Condition(No, DependencyDeleted, old(world).cr.generation)
      ensures calm && !old(world).cr.deleting && !old(world).cr.finalizer ==>
                world == old(world).(cr := old(world).cr.(finalizer := true))
    {
      reached := false;
      if Sound(world) {
        StartableFrom(world);
      }
      if Startup(world) {
        StartupFacts(world.cr, world.env);
      }
      out := FirstHalf();
      if out == Continue {
        out, reached := ConfigureIgnition();
      }
    }

    /** A new resource in good surroundings has its HostedCluster and NodePool after two passes. */
    method Bootstrap()
      requires Valid() && calm && Initial(world)
      requires Unprovisioned(world) && GoodSurroundings(world.env, world.cr.spec)
      modifies `world, `log, `cr, `verdicts, `passes, `created, `ignitionReconciled
      ensures Valid() && world.hc == Some(HostedCluster(true, old(world).cr.spec.image, old(world).cr.generation, [], false, map[]))
      ensures world.np.Some? && world.np.value.owned && world.cr.status.hostedClusterRef
      ensures Alive(world.cr) && !world.cleanup && world.cr.spec == old(world).cr.spec && world.env == old(world).env
    {
      var _, _ := Reconcile();
      var _, _ := Reconcile();
    }

    /** HyperShift rolls the release out and reports the cluster healthy. */
    method RollOut(rollout: Entry, conditions: Conditions)
      requires Valid() && Owned(world) && world.hc.value.history == []
      modifies `world, `log
      ensures Valid()
      ensures world == old(world).(hc := Some(old(world).hc.value.(history := [rollout.(completed := true)],
                         versionProgressing := false, conditions := conditions)))
    {
      var begun := world.(hc := Some(world.hc.value.(history := [rollout.(completed := false)])));
      StepDrifts(world, begun);
      DriftKeeps(world, begun, cr);
      Commit(begun);
      var done := world.(hc := Some(world.hc.value.(history := [rollout.(completed := true)],
                                                    versionProgressing := false, conditions := conditions)));
      StepDrifts(world, done);
      DriftKeeps(world, done, cr);
      Commit(done);
    }

    /** The whole way of a new resource: two passes, HyperShift's rollout, and three more passes
        lead to Ready with ignition published. */
    method Deliver(rollout: Entry, conditions: Conditions)
      requires Valid() && calm && Initial(world) && Unprovisioned(world)
      requires GoodSurroundings(world.env, world.cr.spec) && GoodDependencies(world.env) && world.env.kubeconfig
      requires Matches(rollout, world.cr.spec.image)
      requires Is(conditions, HcAvailable, Yes) && Is(conditions, HcDegraded, No) && Is(conditions, HcProgressing, Yes)
      modifies `world, `log, `cr, `verdicts, `passes, `created, `ignitionReconciled
      ensures Valid() && Stable(Machine(world, ignitionReconciled))
    {
      Bootstrap();
      RollOut(rollout, conditions);
      Recover(0);
    }

    method Approach()
      requires Valid() && calm && Healthy(world)
      modifies `world, `log, `cr, `verdicts, `passes, `created, `ignitionReconciled
      ensures Valid() && Healthy(world)
      ensures Left() < old(Left()) || Left() == old(Left()) == 0
    {
      PassApproaches(Machine(world, ignitionReconciled));
      var _, _ := Reconcile();
    }

    /** The passes left to the stable state. */
    ghost function Left(): nat
      reads this
    {
      Distance(Machine(world, ignitionReconciled))
    }

    /** From any state an undisturbed operator in a healthy cluster is Ready after three passes, with
        ignition for the current generation published, and stays so. */
    method Recover(more: nat)
      requires Valid() && calm && Healthy(world)
      modifies `world, `log, `cr, `verdicts, `passes, `created, `ignitionReconciled
      ensures Valid() && Stable(Machine(world, ignitionReconciled))
    {
      for i := 0 to 3 + more
        invariant Valid() && Healthy(world)
        invariant Left() + i <= 3 || Left() == 0
      {
        Approach();
      }
    }

    /** Any run: passes, disturbed or not, interleaved with the environment and with
        operator restarts.  Every persisted state on the way satisfies the invariant. */
    method Run(steps: nat)
      requires Valid()
      modifies this
      ensures Valid()
      ensures forall k :: 0 <= k < |log| ==> Inv(log[k])
      ensures !leftover ==> forall k :: 0 <= k < |log| ==> Fresh(log[k])
      ensures forall k :: 0 <= k < |created| ==> AllGood(created[k])
    {
      for i := 0 to steps
        invariant Valid()
      {
        calm := *;
        var restart: bool := *;
        if restart {
          ignitionReconciled := false;
        }
        Interfere();
        var _, _ := Reconcile();
      }
      forall k | 0 <= k < |log| ensures Inv(log[k]) && (!leftover ==> Fresh(log[k])) {
        AllInvAt(log, leftover, k);
      }
    }
  }
}
