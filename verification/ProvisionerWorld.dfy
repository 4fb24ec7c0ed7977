/** The persisted cluster state the provisioner works on, what the rest of the world may
    do to it, and the invariant of every persisted state. */
module ProvisionerWorld {
  import opened Text
  import opened ReleaseVersion
  import opened ProvisionerStatus

  datatype NodePool = NodePool(owned: bool, image: string)

  /** The published ignition.  Auxiliary: `revision` is the generation it was built from, and `own`
      tells that this resource wrote it, not a predecessor for the same DPUCluster. */
  datatype ConfigMap = ConfigMap(revision: nat, image: string, flavor: string, bfb: string, own: bool)

  /** Unset optional names are empty strings. */
  datatype Deployment = Deployment(flavor: string, bfb: string)

  datatype DpuCluster = Absent | Forbidden | Present(kamaji: bool)

  datatype Server = Serves | OutOfSync | Broken

  /** What the operator reads but never writes. */
  datatype Surroundings = Surroundings(
    dpuCluster: DpuCluster, rival: bool, secretsValid: bool, layerImage: Option<string>,
    metalLB: bool, kubeconfig: bool, server: Server,
    deployment: Option<Deployment>, flavors: set<string>)

  /** Auxiliary: `cleanup` tells that finalizer cleanup has begun, and `leftover` that a predecessor's
      ConfigMap was there when this resource was created. */
  datatype World = World(
    cr: Provisioner,
    hc: Option<HostedCluster>, np: Option<NodePool>, cm: Option<ConfigMap>,
    cleanup: bool, leftover: bool, env: Surroundings)

  predicate Owned(w: World) {
    w.hc.Some? && w.hc.value.owned
  }

  /** What an undisturbed read of the HostedCluster returns. */
  function Seen(w: World): Read {
    if w.hc.Some? then Found(w.hc.value) else Missing
  }

  function PutStatus(w: World, st: Status): World {
    w.(cr := w.cr.(status := st))
  }

  // ----- The environment -----

  /** One step of the user, of HyperShift, or of the DPF operator. */
  predicate EnvironmentStep(w: World, w': World) {
    || w' == w
    // the user edits the spec, or asks for deletion
    || w' == w.(cr := w.cr.(spec := w'.cr.spec, generation := w.cr.generation + 1))
    || w' == w.(cr := w.cr.(deleting := true))
    // HyperShift reports progress
    || (&& w.hc.Some? && w'.hc.Some? && w' == w.(hc := w'.hc)
        && w'.hc.value == w.hc.value.(history := w'.hc.value.history,
                                      versionProgressing := w'.hc.value.versionProgressing,
                                      conditions := w'.hc.value.conditions)
        && HistoryStep(w.hc.value.history, w'.hc.value.history))
    // somebody else's HostedCluster of the same name appears or goes away
    || (!Owned(w) && !Owned(w') && w' == w.(hc := w'.hc))
    // the ignition ConfigMap or the NodePool is deleted by hand
    || w' == w.(cm := None)
    || w' == w.(np := None)
    // dependencies come, go and change
    || w' == w.(env := w'.env)
  }

  /** The combined effect of any number of environment steps. */
  ghost predicate Drift(w: World, w': World) {
    && w'.cr.status == w.cr.status && w'.cr.finalizer == w.cr.finalizer && w'.cleanup == w.cleanup
    && w'.leftover == w.leftover
    && w.cr.generation <= w'.cr.generation && (w.cr.deleting ==> w'.cr.deleting)
    && (w.cr.generation == w'.cr.generation ==> w.cr.spec == w'.cr.spec)
    && (Owned(w) <==> Owned(w'))
    && (Owned(w) ==>
          && w'.hc.value.image == w.hc.value.image
          && w'.hc.value.imageRevision == w.hc.value.imageRevision
          && HistoryGrows(w.hc.value.history, w'.hc.value.history))
    && (w'.cm == w.cm || w'.cm == None)
    && (w'.np == w.np || w'.np == None)
  }

  lemma StepDrifts(w: World, w': World)
    requires EnvironmentStep(w, w')
    ensures Drift(w, w')
  {
    if w.hc.Some? && w'.hc.Some? && HistoryStep(w.hc.value.history, w'.hc.value.history) {
      HistoryStepGrows(w.hc.value.history, w'.hc.value.history);
    }
  }

  lemma DriftTransitive(a: World, b: World, c: World)
    requires Drift(a, b) && Drift(b, c)
    ensures Drift(a, c)
  {
    if Owned(a) {
      forall i | 0 <= i < |a.hc.value.history| && a.hc.value.history[i].completed
        ensures a.hc.value.history[i] in c.hc.value.history
      {
        var e := a.hc.value.history[i];
        var k :| 0 <= k < |b.hc.value.history| && b.hc.value.history[k] == e;
      }
    }
  }

  // ----- The invariant -----

  /** Ignition was invalidated by a release change, or lost a dependency since. */
  predicate Invalidated(c: Conditions) {
    Is(c, Ignition, No) && (c[Ignition].reason == ReleaseImageUpdated || c[Ignition].reason == DependencyDeleted)
  }

  predicate UpgradeSafe(c: Conditions, w: World) {
    Is(c, Upgrading, Yes) ==> Invalidated(c) && w.cm.None?
  }

  /** What a status may claim about the world it is written to. */
  predicate Fits(st: Status, w: World) {
    && RefFirst(st)
    && UpgradeSafe(st.conditions, w)
    && !(Ignition in st.conditions && st.conditions[Ignition].reason == MachineOSMissing) // overwritten before any write
    && (st.hostedClusterRef && !w.cleanup ==> Owned(w))
    && (Is(st.conditions, Ignition, Yes) && w.cm.Some? ==> w.cm.value.own)
    && (Is(st.conditions, Ready, Yes) && !w.cleanup ==>
          Owned(w) && st.readyEntry.Some? && OnRecord(w.hc.value.history, st.readyEntry.value))
  }

  /** Ignition this resource published for an old release never sits beside a newer HostedCluster spec. */
  predicate IgnitionNotStale(w: World) {
    w.cm.Some? && w.cm.value.own && Owned(w) ==> w.hc.value.imageRevision <= w.cm.value.revision
  }

  /** Any ignition beside the HostedCluster is this resource's and not older than the HostedCluster's image. */
  predicate Fresh(w: World) {
    w.cm.Some? && Owned(w) ==> w.cm.value.own && w.hc.value.imageRevision <= w.cm.value.revision
  }

  /** Where no predecessor left a ConfigMap, the invariant makes every state fresh. */
  lemma FreshWithoutLeftover(w: World)
    requires Inv(w) && !w.leftover
    ensures Fresh(w)
  {
  }

  predicate Inv(w: World) {
    && Fits(w.cr.status, w)
    && IgnitionNotStale(w)
    && (Owned(w) ==> w.hc.value.imageRevision <= w.cr.generation && w.cr.finalizer)
    && (w.cm.Some? && w.cm.value.own ==> w.cm.value.revision <= w.cr.generation && w.cr.status.hostedClusterRef)
    && (w.cm.Some? && !w.cm.value.own ==> w.leftover)
    && (w.cleanup ==> w.cr.deleting)
  }

  /** The in-memory copy of a running pass, relative to the persisted state. */
  predicate Current(cr: Provisioner, w: World) {
    && Writable(cr, w)
    && (Is(cr.status.conditions, Upgrading, Yes) <==> Is(w.cr.status.conditions, Upgrading, Yes))
  }

  /** The in-memory copy may be persisted. */
  predicate Writable(cr: Provisioner, w: World) {
    && Fits(cr.status, w)
    && !cr.deleting && !w.cleanup && w.cr.finalizer
    && cr.generation <= w.cr.generation
    && (Owned(w) ==> w.hc.value.imageRevision <= cr.generation)
    && (w.cr.status.hostedClusterRef ==> cr.status.hostedClusterRef)
  }

  lemma DriftKeepsFit(st: Status, w: World, w': World)
    requires Drift(w, w') && Fits(st, w)
    ensures Fits(st, w')
  {
    if Owned(w) {
      OnRecordStays(w.hc.value.history, w'.hc.value.history);
    }
  }

  lemma DriftKeeps(w: World, w': World, cr: Provisioner)
    requires Drift(w, w')
    ensures Inv(w) ==> Inv(w')
    ensures Writable(cr, w) ==> Writable(cr, w')
    ensures Current(cr, w) ==> Current(cr, w')
  {
    if Inv(w) {
      DriftKeepsFit(w.cr.status, w, w');
    }
    if Writable(cr, w) {
      DriftKeepsFit(cr.status, w, w');
    }
  }

  /** Declaring an upgrade fits once the ignition ConfigMap is gone. */
  lemma DriftKeepsInvalidated(cr: Provisioner, w: World, w': World)
    requires Current(cr, w) && cr.status.hostedClusterRef && Drift(w, w') && w'.cm.None?
    ensures var c := cr.status.conditions[Upgrading := Condition(Yes, Other, cr.generation)]
                       [Ignition := Condition(No, ReleaseImageUpdated, cr.generation)];
            Fits(cr.status.(conditions := c, layerImage := ""), w')
  {
    DriftKeepsFit(cr.status, w, w');
  }

  /** A fitting status may be written, and the in-memory copy stays current. */
  lemma PutKeeps(w: World, st: Status, cr: Provisioner)
    requires Inv(w) && Fits(st, w) && (w.cr.status.hostedClusterRef ==> st.hostedClusterRef)
    ensures Inv(PutStatus(w, st))
    ensures Writable(cr, w) && cr.status == st ==> Current(cr, PutStatus(w, st))
  {
  }

  lemma NodePoolKeeps(w: World, np: Option<NodePool>, st: Status)
    requires Inv(w) && Fits(st, w)
    ensures Inv(w.(np := np)) && Fits(st, w.(np := np))
  {
  }

  function WithImage(w: World, image: string, revision: nat): World
    requires w.hc.Some?
  {
    w.(hc := Some(w.hc.value.(image := image, imageRevision := revision)))
  }

  /** The release image may move once no ignition is published. */
  lemma ImageMoveKeeps(w: World, image: string, revision: nat, st: Status)
    requires Inv(w) && Fits(st, w) && Owned(w) && w.cm.None? && revision <= w.cr.generation
    ensures Inv(WithImage(w, image, revision)) && Fits(st, WithImage(w, image, revision))
  {
  }

  /** Mirrored conditions claim nothing that could be wrong once the reference is set. */
  lemma MirroringFits(cr: Provisioner, hc: HostedCluster, w: World)
    requires Current(cr, w) && cr.status.hostedClusterRef
    ensures Current(cr.(status := cr.status.(conditions := Mirrored(cr, hc))), w)
    ensures Is(Mirrored(cr, hc), Upgrading, Yes) <==> Is(cr.status.conditions, Upgrading, Yes)
  {
    MirroredAt(cr, hc, Ignition);
    MirroredAt(cr, hc, Upgrading);
    MirroredAt(cr, hc, Ready);
  }

  predicate Initial(w: World) {
    && w.cr.status == Status(Pending, map[], false, "", None)
    && !w.cr.deleting && !w.cr.finalizer && !w.cleanup
    && !Owned(w)
    && (w.cm.Some? ==> !w.cm.value.own) && (w.leftover <==> w.cm.Some?)
  }

  lemma InitialInv(w: World)
    requires Initial(w)
    ensures Inv(w)
  {
  }
}
