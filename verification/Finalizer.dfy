/** Deletion of a DPFHCPProvisioner: ordered cleanup handlers under one finalizer.

    As in the reconcile loop, calls may fail, the cluster may move between calls, and
    `calm` switches both off.  Every deletion the operator requests is recorded in
    `events` together with the cluster it was requested in. */
module Finalizer {
  import opened Text
  import opened ApiServer

  /** An object with finalizers of its own first terminates, then disappears. */
  datatype Object = Object(owned: bool, terminating: bool)

  type Slot = Option<Object>

  /** `labelled`: carries the labels of this resource; `controlled`: its controller reference. */
  datatype Secret = Secret(labelled: bool, controlled: bool)

  datatype Cluster = Cluster(
    hc: Slot, np: Slot, pool: Slot, advertisement: Slot,
    secrets: map<Key, Secret>, finalizer: bool)

  datatype Target = HostedCluster | NodePool | Pool | Advertisement | OneSecret(key: Key) | TheFinalizer

  /** `seen` is the cluster in which the handler found the target. */
  datatype Event = Event(seen: Cluster, cluster: Cluster, target: Target)

  datatype Outcome = Done | Requeue | Error

  datatype Handler = KubeconfigHandler | HostedClusterHandler | MetalLBHandler

  predicate Owned(s: Slot) {
    s.Some? && s.value.owned
  }

  function Weight(s: Slot): nat {
    if Owned(s) then 1 else 0
  }

  /** The objects this resource still has to get rid of. */
  function Remaining(c: Cluster): nat {
    Weight(c.hc) + Weight(c.np) + Weight(c.pool) + Weight(c.advertisement)
  }

  /** Every deletion requested so far has run to its end. */
  function Completed(c: Cluster): Cluster {
    c.(hc := CompletedSlot(c.hc), np := CompletedSlot(c.np),
       pool := CompletedSlot(c.pool), advertisement := CompletedSlot(c.advertisement))
  }

  function CompletedSlot(s: Slot): Slot {
    if Owned(s) && s.value.terminating then None else s
  }

  // ----- The rest of the world -----

  predicate SlotStep(s: Slot, s': Slot) {
    || s' == s
    || s' == None
    || (!Owned(s) && !Owned(s'))
  }

  function Labelled(c: Cluster): set<Key> {
    set k | k in c.secrets && c.secrets[k].labelled
  }

  function Controlled(c: Cluster): set<Key> {
    set k | k in c.secrets && c.secrets[k].controlled
  }

  /** Owned objects only ever disappear; what others own may come and go. */
  predicate EnvironmentStep(c: Cluster, c': Cluster) {
    && SlotStep(c.hc, c'.hc) && SlotStep(c.np, c'.np)
    && SlotStep(c.pool, c'.pool) && SlotStep(c.advertisement, c'.advertisement)
    && Labelled(c') <= Labelled(c) && Controlled(c') <= Controlled(c)
    && c'.finalizer == c.finalizer
  }

  /** Nothing owned is added: the only direction this protocol moves in. */
  predicate Shrinks(c: Cluster, c': Cluster) {
    && (Owned(c'.hc) ==> Owned(c.hc)) && (Owned(c'.np) ==> Owned(c.np))
    && (Owned(c'.pool) ==> Owned(c.pool)) && (Owned(c'.advertisement) ==> Owned(c.advertisement))
    && Labelled(c') <= Labelled(c) && Controlled(c') <= Controlled(c)
    && c'.finalizer == c.finalizer
  }

  // ----- What the operator may delete -----

  /** The legacy copies and the etcd key; hashed copies are left to garbage collection. */
  function SecretNames(name: string): seq<string> {
    [name + "-pull-secret", name + "-ssh-key", name + "-etcd-encryption-key"]
  }

  /** The old copies and the etcd key of this resource are gone. */
  predicate NoCredentials(c: Cluster, namespace: string, name: string) {
    && Key(namespace, name + "-pull-secret") !in Controlled(c)
    && Key(namespace, name + "-ssh-key") !in Controlled(c)
    && Key(namespace, name + "-etcd-encryption-key") !in Controlled(c)
  }

  /** Nothing of this resource is left. */
  predicate AllGone(c: Cluster, namespace: string, name: string) {
    Remaining(c) == 0 && Labelled(c) == {} && NoCredentials(c, namespace, name)
  }

  /** Only owned objects, each in its turn.  That load balancer addresses go last needs a handler list
      in that order (`ordered`).  Labelled secrets are deleted as they were listed: one replaced
      under the same name since then is not looked at again. */
  predicate Allowed(e: Event, namespace: string, name: string, ordered: bool) {
    var c := e.cluster;
    && Shrinks(e.seen, c)
    && match e.target
    case HostedCluster => Owned(c.hc)
    case NodePool => Owned(c.np) && !Owned(c.hc)
    case Pool => Owned(c.pool) && (ordered ==> !Owned(c.hc) && !Owned(c.np))
    case Advertisement => Owned(c.advertisement) && !Owned(c.pool) && (ordered ==> !Owned(c.hc) && !Owned(c.np))
    case OneSecret(k) =>
      && k in c.secrets
      && (|| k in Labelled(e.seen)
          || (&& c.secrets[k].controlled && k.namespace == namespace && k.name in SecretNames(name)
              && !Owned(c.hc) && !Owned(c.np)))
    case TheFinalizer => AllGone(c, namespace, name)
  }

  // ----- Handler lists -----

  predicate Before(hs: seq<Handler>, a: Handler, b: Handler) {
    forall i :: 0 <= i < |hs| && hs[i] == b ==> exists j :: 0 <= j < i && hs[j] == a
  }

  /** Load balancer addresses go last, and no kind of cleanup is forgotten. */
  predicate WellOrdered(hs: seq<Handler>) {
    && Before(hs, HostedClusterHandler, MetalLBHandler)
    && KubeconfigHandler in hs && HostedClusterHandler in hs && MetalLBHandler in hs
  }

  /** What a completed handler has established, and keeps established. */
  predicate Cleaned(h: Handler, c: Cluster, namespace: string, name: string) {
    match h
    case KubeconfigHandler => Labelled(c) == {}
    case HostedClusterHandler => !Owned(c.hc) && !Owned(c.np) && NoCredentials(c, namespace, name)
    case MetalLBHandler => !Owned(c.pool) && !Owned(c.advertisement)
  }

  lemma CleanedStays(h: Handler, c: Cluster, c': Cluster, namespace: string, name: string)
    requires Cleaned(h, c, namespace, name) && Shrinks(c, c')
    ensures Cleaned(h, c', namespace, name)
  {
  }

  class Manager {
    const name: string
    const namespace: string
    ghost const ordered: bool // the handler list promises the order
    var cluster: Cluster
    var handlers: seq<Handler>
    var calm: bool
    ghost var events: seq<Event>

    ghost predicate Valid()
      reads this
    {
      forall k :: 0 <= k < |events| ==> Allowed(events[k], namespace, name, ordered)
    }

    constructor (namespace: string, name: string, ghost ordered: bool, c: Cluster)
      ensures Valid() && cluster == c && handlers == [] && events == []
      ensures this.name == name && this.namespace == namespace && this.ordered == ordered
    {
      this.name, this.namespace, this.ordered := name, namespace, ordered;
      cluster, handlers, calm, events := c, [], false, [];
    }

    method RegisterHandler(h: Handler)
      modifies `handlers
      ensures handlers == old(handlers) + [h]
    {
      handlers := handlers + [h];
    }

    /** The list the operator is started with. */
    method RegisterAll()
      requires handlers == []
      modifies `handlers
      ensures handlers == [KubeconfigHandler, HostedClusterHandler, MetalLBHandler] && WellOrdered(handlers)
    {
      RegisterHandler(KubeconfigHandler);
      RegisterHandler(HostedClusterHandler);
      RegisterHandler(MetalLBHandler);
      assert handlers[0] == KubeconfigHandler && handlers[1] == HostedClusterHandler && handlers[2] == MetalLBHandler;
    }

    // ----- Calls -----

    method Interfere()
      requires Valid()
      modifies `cluster
      ensures Valid() && Shrinks(old(cluster), cluster)
      ensures calm ==> cluster == old(cluster)
    {
      var steps: int := *;
      if calm || steps < 0 {
        steps := 0;
      }
      for i := 0 to steps
        invariant Valid() && Shrinks(old(cluster), cluster)
        invariant calm ==> steps == 0 && cluster == old(cluster)
      {
        var c: Cluster := *;
        if EnvironmentStep(cluster, c) {
          cluster := c;
        }
      }
    }

    /** Requests a deletion; `c` is the cluster once the server has accepted it. */
    method Request(target: Target, c: Cluster, ghost seen: Cluster) returns (ok: bool)
      requires Valid() && Allowed(Event(seen, cluster, target), namespace, name, ordered)
      modifies `cluster, `events
      ensures Valid()
      ensures cluster == c || (!ok && cluster == old(cluster))
      ensures calm ==> ok
    {
      events := events + [Event(seen, cluster, target)];
      var failed := Fails(calm);
      var applied: bool := *;
      if !failed || applied {
        cluster := c;
      }
      ok := !failed;
    }

    // ----- Kubeconfig handler -----

    /** Deletes every secret that carries the labels of this resource, and no other. */
    method CleanupKubeconfig() returns (out: Outcome)
      requires Valid()
      modifies `cluster, `events
      ensures Valid() && Shrinks(old(cluster), cluster)
      ensures out == Done || out == Error
      ensures out == Done ==> Labelled(cluster) == {}
      ensures calm ==> out == Done && cluster == old(cluster).(secrets := old(cluster).secrets - Labelled(old(cluster)))
    {
      Interfere();
      var failed := Fails(calm);
      if failed {
        return Error;
      }
      ghost var seen := cluster;
      var listed := Labelled(cluster);
      var pending := listed;
      assert cluster.secrets - (listed - pending) == cluster.secrets;
      while pending != {}
        invariant Valid() && Shrinks(old(cluster), cluster)
        invariant Shrinks(seen, cluster) && Labelled(cluster) <= pending <= listed
        invariant calm ==> listed == Labelled(old(cluster))
        invariant calm ==> cluster == old(cluster).(secrets := old(cluster).secrets - (listed - pending))
        decreases pending
      {
        var k :| k in pending;
        var ok := DeleteListed(k, seen);
        if !ok {
          return Error;
        }
        assert listed - (pending - {k}) == (listed - pending) + {k};
        pending := pending - {k};
      }
      assert listed - pending == listed;
      out := Done;
    }

    method DeleteListed(k: Key, ghost seen: Cluster) returns (ok: bool)
      requires Valid() && k in Labelled(seen) && Shrinks(seen, cluster)
      modifies `cluster, `events
      ensures Valid() && Shrinks(old(cluster), cluster) && Shrinks(seen, cluster)
      ensures ok ==> k !in cluster.secrets
      ensures calm ==> ok && cluster == old(cluster).(secrets := old(cluster).secrets - {k})
    {
      Interfere();
      ok := true;
      if k in cluster.secrets {
        ok := Request(OneSecret(k), cluster.(secrets := cluster.secrets - {k}), seen);
      }
    }

    // ----- HostedCluster handler -----

    /** A slot that is owned is asked to terminate once, then waited for. */
    method DeleteResource(target: Target) returns (out: Outcome)
      requires Valid() && (target == HostedCluster || (target == NodePool && !Owned(cluster.hc)))
      modifies `cluster, `events
      ensures Valid() && Shrinks(old(cluster), cluster)
      ensures out == Done ==> !Owned(if target == HostedCluster then cluster.hc else cluster.np)
      ensures calm ==> out != Error && (out == Done ==> cluster == old(cluster))
      ensures calm ==> cluster.secrets == old(cluster).secrets && cluster.finalizer == old(cluster).finalizer
      ensures calm && out == Requeue ==> Remaining(Completed(cluster)) < Remaining(old(cluster))
    {
      Interfere();
      var failed := Fails(calm);
      if failed {
        return Error;
      }
      var slot := if target == HostedCluster then cluster.hc else cluster.np;
      if !Owned(slot) {
        return Done;
      }
      if !slot.value.terminating {
        var left := Some(slot.value.(terminating := true));
        var ok := Request(target, if target == HostedCluster then cluster.(hc := left) else cluster.(np := left), cluster);
        if !ok {
          return Error;
        }
      }
      out := Requeue;
    }

    method DeleteSecret(secretName: string) returns (ok: bool)
      requires Valid() && secretName in SecretNames(name) && !Owned(cluster.hc) && !Owned(cluster.np)
      modifies `cluster, `events
      ensures Valid() && Shrinks(old(cluster), cluster)
      ensures ok ==> Key(namespace, secretName) !in Controlled(cluster)
      ensures calm ==> ok && cluster == old(cluster).(secrets := cluster.secrets)
      ensures calm ==> var k := Key(namespace, secretName);
                cluster.secrets == if k in old(cluster).secrets && old(cluster).secrets[k].controlled
                                   then old(cluster).secrets - {k} else old(cluster).secrets
    {
      Interfere();
      var failed := Fails(calm);
      if failed {
        return false;
      }
      var k := Key(namespace, secretName);
      ok := true;
      if k in cluster.secrets && cluster.secrets[k].controlled {
        ok := Request(OneSecret(k), cluster.(secrets := cluster.secrets - {k}), cluster);
      }
    }

    method DeleteSecrets() returns (ok: bool)
      requires Valid() && !Owned(cluster.hc) && !Owned(cluster.np)
      modifies `cluster, `events
      ensures Valid() && Shrinks(old(cluster), cluster)
      ensures ok ==> NoCredentials(cluster, namespace, name)
      ensures calm ==> ok && cluster == old(cluster).(secrets := cluster.secrets)
      ensures calm ==> forall k :: k in old(cluster).secrets ==>
                (k !in cluster.secrets <==>
                  old(cluster).secrets[k].controlled && k.namespace == namespace && k.name in SecretNames(name))
      ensures calm ==> forall k :: k in cluster.secrets ==> k in old(cluster).secrets && cluster.secrets[k] == old(cluster).secrets[k]
    {
      var names := SecretNames(name);
      for i := 0 to |names|
        invariant Valid() && Shrinks(old(cluster), cluster)
        invariant forall j :: 0 <= j < i ==> Key(namespace, names[j]) !in Controlled(cluster)
        invariant calm ==> cluster == old(cluster).(secrets := cluster.secrets)
        invariant calm ==> forall k :: k in old(cluster).secrets ==>
                    (k !in cluster.secrets <==>
                      old(cluster).secrets[k].controlled && k.namespace == namespace && k.name in names[..i])
        invariant calm ==> forall k :: k in cluster.secrets ==> k in old(cluster).secrets && cluster.secrets[k] == old(cluster).secrets[k]
      {
        assert names[..i + 1] == names[..i] + [names[i]];
        ok := DeleteSecret(names[i]);
        if !ok {
          return;
        }
      }
      assert names[..|names|] == names;
      assert Key(namespace, names[0]) !in Controlled(cluster) && Key(namespace, names[1]) !in Controlled(cluster)
             && Key(namespace, names[2]) !in Controlled(cluster);
      ok := true;
    }

    method CleanupHostedCluster() returns (out: Outcome)
      requires Valid()
      modifies `cluster, `events
      ensures Valid() && Shrinks(old(cluster), cluster)
      ensures out == Done ==> Cleaned(HostedClusterHandler, cluster, namespace, name)
      ensures calm ==> out != Error
      ensures calm && out == Done ==> cluster == old(cluster).(secrets := cluster.secrets)
      ensures calm && out == Requeue ==> Remaining(Completed(cluster)) < Remaining(old(cluster))
    {
      out := DeleteResource(HostedCluster);
      if out != Done {
        return;
      }
      out := DeleteResource(NodePool);
      if out != Done {
        return;
      }
      var ok := DeleteSecrets();
      out := if ok then Done else Error;
    }

    // ----- MetalLB handler -----

    /** Every visit that still finds an owned object asks for its deletion and waits. */
    method DeleteAddress(target: Target) returns (out: Outcome)
      requires Valid() && (target == Pool || (target == Advertisement && !Owned(cluster.pool)))
      requires ordered ==> !Owned(cluster.hc) && !Owned(cluster.np)
      modifies `cluster, `events
      ensures Valid() && Shrinks(old(cluster), cluster)
      ensures out == Done ==> !Owned(if target == Pool then cluster.pool else cluster.advertisement)
      ensures calm ==> out != Error && (out == Done ==> cluster == old(cluster))
      ensures calm && out == Requeue ==> Remaining(Completed(cluster)) < Remaining(old(cluster))
    {
      Interfere();
      var failed := Fails(calm);
      if failed {
        return Error;
      }
      var slot := if target == Pool then cluster.pool else cluster.advertisement;
      if !Owned(slot) {
        return Done;
      }
      var left := Some(slot.value.(terminating := true));
      var ok := Request(target, if target == Pool then cluster.(pool := left) else cluster.(advertisement := left), cluster);
      out := if ok then Requeue else Error;
    }

    method CleanupMetalLB() returns (out: Outcome)
      requires Valid() && (ordered ==> !Owned(cluster.hc) && !Owned(cluster.np))
      modifies `cluster, `events
      ensures Valid() && Shrinks(old(cluster), cluster)
      ensures out == Done ==> Cleaned(MetalLBHandler, cluster, namespace, name)
      ensures calm ==> out != Error
      ensures calm && out == Done ==> cluster == old(cluster)
      ensures calm && out == Requeue ==> Remaining(Completed(cluster)) < Remaining(old(cluster))
    {
      out := DeleteAddress(Pool);
      if out == Done {
        out := DeleteAddress(Advertisement);
      }
    }

    // ----- The manager -----

    method Cleanup(h: Handler) returns (out: Outcome)
      requires Valid() && (ordered && h == MetalLBHandler ==> Cleaned(HostedClusterHandler, cluster, namespace, name))
      modifies `cluster, `events
      ensures Valid() && Shrinks(old(cluster), cluster)
      ensures out == Done ==> Cleaned(h, cluster, namespace, name)
      ensures calm ==> out != Error && (out == Done ==> cluster == old(cluster).(secrets := cluster.secrets))
      ensures calm && out == Requeue ==> Remaining(Completed(cluster)) < Remaining(old(cluster))
    {
      match h
      case KubeconfigHandler => out := CleanupKubeconfig();
      case HostedClusterHandler => out := CleanupHostedCluster();
      case MetalLBHandler => out := CleanupMetalLB();
    }

    /** Runs the handlers in order until one is not done.  `ran` lists the outcomes: for
        every list, handler k runs only if all earlier ones were done in this same pass. */
    method HandleFinalizerCleanup() returns (out: Outcome, ghost ran: seq<Outcome>)
      requires Valid() && (ordered ==> Before(handlers, HostedClusterHandler, MetalLBHandler))
      modifies `cluster, `events
      ensures Valid() && Shrinks(old(cluster), cluster)
      ensures |ran| <= |handlers| && forall i :: 0 <= i < |ran| - 1 ==> ran[i] == Done
      ensures out == Done <==> |ran| == |handlers| && (ran != [] ==> ran[|ran| - 1] == Done)
      ensures out == Done ==> forall h :: h in handlers ==> Cleaned(h, cluster, namespace, name)
      ensures calm ==> out != Error
      ensures calm && out == Requeue ==> Remaining(Completed(cluster)) < Remaining(old(cluster))
    {
      ran := [];
      for i := 0 to |handlers|
        invariant Valid() && Shrinks(old(cluster), cluster)
        invariant |ran| == i && forall k :: 0 <= k < i ==> ran[k] == Done
        invariant forall k :: 0 <= k < i ==> Cleaned(handlers[k], cluster, namespace, name)
        invariant calm ==> cluster == old(cluster).(secrets := cluster.secrets)
      {
        ghost var before := cluster;
        out := Cleanup(handlers[i]);
        forall k | 0 <= k < i ensures Cleaned(handlers[k], cluster, namespace, name) {
          CleanedStays(handlers[k], before, cluster, namespace, name);
        }
        ran := ran + [out];
        if out != Done {
          return;
        }
      }
      out := Done;
    }

    /** One reconcile pass of a resource that is being deleted. */
    method HandleDeletion() returns (out: Outcome)
      requires Valid() && WellOrdered(handlers)
      modifies `cluster, `events
      ensures Valid()
      ensures old(cluster).finalizer && !cluster.finalizer ==> AllGone(cluster, namespace, name)
      ensures calm && old(cluster).finalizer ==>
                || (out == Done && !cluster.finalizer)
                || (out == Requeue && cluster.finalizer && Remaining(Completed(cluster)) < Remaining(old(cluster)))
    {
      var failed := Fails(calm);
      if failed {
        return Error;
      }
      if !cluster.finalizer {
        return Done;
      }
      ghost var ran;
      out, ran := HandleFinalizerCleanup();
      if out == Done && cluster.finalizer {
        var ok := Request(TheFinalizer, cluster.(finalizer := false), cluster);
        out := if ok then Done else Error;
      }
    }

    /** If every requested deletion completes before the next pass, the finalizer is gone
        after at most one pass more than there are owned objects. */
    method Drain() returns (passes: nat)
      requires Valid() && WellOrdered(handlers) && calm
      modifies `cluster, `events
      ensures Valid() && !cluster.finalizer
      ensures old(cluster).finalizer ==> AllGone(cluster, namespace, name)
      ensures passes <= Remaining(old(cluster)) + 1 <= 5
    {
      passes := 0;
      while cluster.finalizer
        invariant Valid()
        invariant old(cluster).finalizer && !cluster.finalizer ==> AllGone(cluster, namespace, name)
        invariant passes + Remaining(cluster) <= Remaining(old(cluster)) || (!cluster.finalizer && passes <= Remaining(old(cluster)) + 1)
        decreases cluster.finalizer, Remaining(cluster)
      {
        var out := HandleDeletion();
        passes := passes + 1;
        cluster := Completed(cluster);
      }
    }

    /** Any run of passes and environment steps: every deletion ever requested was allowed. */
    method Run(steps: nat)
      requires Valid() && WellOrdered(handlers)
      modifies this
      ensures handlers == old(handlers)
      ensures forall k :: 0 <= k < |events| ==> Allowed(events[k], namespace, name, ordered)
    {
      for i := 0 to steps
        invariant Valid() && handlers == old(handlers)
      {
        calm := *;
        Interfere();
        var _ := HandleDeletion();
      }
    }
  }
}
