/** Injection of the HostedCluster's kubeconfig into the DPUCluster's namespace. */
module KubeconfigInjection {
  import opened Text
  import opened ApiServer

  /** `labels` are the name and namespace of the provisioner the secret is labelled with. */
  datatype Secret = Secret(data: map<string, string>, labels: Option<Key>)

  datatype Reason = Injected | Pending | InjectionFailed

  datatype Status = Status(hostedClusterRef: bool, secretRef: Option<string>, condition: Option<Reason>)

  /** `reference` is the kubeconfig field of the DPUCluster, if the DPUCluster exists. */
  datatype State = State(secrets: map<Key, Secret>, reference: Option<string>, status: Status)

  datatype Site = Site(self: Key, clusterNamespace: string)

  const SOURCE_KEY: string := "kubeconfig"
  const TARGET_KEY: string := "super-admin.conf"

  function SecretName(site: Site): string {
    site.self.name + "-admin-kubeconfig"
  }

  function Source(site: Site): Key {
    Key(site.self.namespace, SecretName(site))
  }

  function Target(site: Site): Key {
    Key(site.clusterNamespace, SecretName(site))
  }

  predicate Has(s: State, k: Key, field: string) {
    k in s.secrets && field in s.secrets[k].data
  }

  predicate Referenced(s: State, site: Site) {
    s.reference == Some(SecretName(site))
  }

  // ----- One undisturbed pass -----

  function Report(s: State, r: Reason): State {
    s.(status := s.status.(condition := Some(r)))
  }

  /** The reference is set and recorded in the status. */
  function Link(s: State, site: Site): State {
    s.(reference := Some(SecretName(site)), status := s.status.(secretRef := Some(SecretName(site))))
  }

  function CopyOf(s: State, site: Site): Secret
    requires Has(s, Source(site), SOURCE_KEY)
  {
    Secret(map[TARGET_KEY := s.secrets[Source(site)].data[SOURCE_KEY]], Some(site.self))
  }

  function Copied(s: State, site: Site): State
    requires Has(s, Source(site), SOURCE_KEY)
  {
    s.(secrets := s.secrets[Target(site) := CopyOf(s, site)])
  }

  /** The copy, written out: its place, its one key, and the labels cleanup finds it by. */
  lemma CopiedIs(s: State, site: Site)
    requires Has(s, Source(site), SOURCE_KEY)
    ensures var name := site.self.name + "-admin-kubeconfig";
      var source, target := Key(site.self.namespace, name), Key(site.clusterNamespace, name);
      && source in s.secrets && "kubeconfig" in s.secrets[source].data
      && target in Copied(s, site).secrets
      && Copied(s, site).secrets[target]
         == Secret(map["super-admin.conf" := s.secrets[source].data["kubeconfig"]], Some(site.self))
  {
  }

  /** The status and the DPUCluster get the same name. */
  lemma LinkIs(s: State, site: Site)
    ensures Link(s, site).reference == Some(site.self.name + "-admin-kubeconfig") == Link(s, site).status.secretRef
  {
  }

  predicate Equal(s: State, site: Site)
    requires Has(s, Source(site), SOURCE_KEY) && Has(s, Target(site), TARGET_KEY)
  {
    s.secrets[Source(site)].data[SOURCE_KEY] == s.secrets[Target(site)].data[TARGET_KEY]
  }

  function Pass(s: State, site: Site): State {
    if !s.status.hostedClusterRef then s
    else if s.reference.None? || Source(site) !in s.secrets then Report(s, Pending)
    else if Target(site) in s.secrets && !Referenced(s, site) then Report(Link(s, site), Injected)
    else if !Has(s, Source(site), SOURCE_KEY) then Report(s, InjectionFailed)
    else if Target(site) !in s.secrets then Report(Link(Copied(s, site), site), Injected)
    else if !Has(s, Target(site), TARGET_KEY) then Report(s, InjectionFailed)
    else if Equal(s, site) then Report(s, Injected)
    else Report(Link(Copied(s, site), site), Injected)
  }

  function Passes(s: State, site: Site, n: nat): State
    decreases n
  {
    if n == 0 then s else Passes(Pass(s, site), site, n - 1)
  }

  // ----- Convergence -----

  predicate Converged(s: State, site: Site) {
    && Referenced(s, site)
    && Has(s, Source(site), SOURCE_KEY) && Has(s, Target(site), TARGET_KEY) && Equal(s, site)
    && s.status.condition == Some(Injected)
  }

  /** The DPUCluster and a well-formed source exist, and a target that is there has its key. */
  predicate Ready(s: State, site: Site) {
    && s.status.hostedClusterRef && s.reference.Some?
    && Has(s, Source(site), SOURCE_KEY)
    && (Target(site) in s.secrets ==> Has(s, Target(site), TARGET_KEY))
  }

  predicate Apart(site: Site) {
    site.self.namespace != site.clusterNamespace
  }

  /** The one state that takes a second pass: the secret exists with other data, but without a
      reference to it. */
  predicate UnlinkedDrift(s: State, site: Site) {
    && Has(s, Source(site), SOURCE_KEY) && Has(s, Target(site), TARGET_KEY) && !Equal(s, site)
    && !Referenced(s, site)
  }

  lemma OnePassSuffices(s: State, site: Site)
    requires Apart(site) && Ready(s, site)
    ensures Converged(Pass(s, site), site) <==> !UnlinkedDrift(s, site)
  {
  }

  lemma TwoPassesSuffice(s: State, site: Site)
    requires Apart(site) && Ready(s, site)
    ensures Converged(Pass(Pass(s, site), site), site)
  {
    PassKeepsReady(s, site);
    OnePassSuffices(s, site);
    OnePassSuffices(Pass(s, site), site);
  }

  /** The converged state is a fixpoint: nothing is written any more. */
  lemma ConvergedIsFixed(s: State, site: Site)
    requires Converged(s, site)
    ensures Pass(s, site) == s
  {
  }

  lemma PassKeepsReady(s: State, site: Site)
    requires Apart(site)
    ensures Ready(Pass(s, site), site) <==> Ready(s, site)
    ensures Pass(s, site).status.hostedClusterRef == s.status.hostedClusterRef
  {
  }

  lemma {:induction false} PassesKeepReady(s: State, site: Site, n: nat)
    requires Apart(site)
    ensures Ready(Passes(s, site, n), site) <==> Ready(s, site)
    ensures Passes(s, site, n).status.hostedClusterRef == s.status.hostedClusterRef
    decreases n
  {
    if n > 0 {
      PassKeepsReady(s, site);
      PassesKeepReady(Pass(s, site), site, n - 1);
    }
  }

  /** Once a HostedCluster is there, injection ever succeeds exactly from the ready states. */
  lemma {:induction false} ConvergesIffReady(s: State, site: Site)
    requires Apart(site) && s.status.hostedClusterRef
    ensures (exists n :: Converged(Passes(s, site, n), site)) <==> Ready(s, site)
  {
    if Ready(s, site) {
      TwoPassesSuffice(s, site);
      assert Passes(s, site, 2) == Pass(Pass(s, site), site) by {
        assert Passes(Pass(Pass(s, site), site), site, 0) == Pass(Pass(s, site), site);
        assert Passes(Pass(s, site), site, 1) == Passes(Pass(Pass(s, site), site), site, 0);
      }
      assert Converged(Passes(s, site, 2), site);
    }
    if n: nat :| Converged(Passes(s, site, n), site) {
      PassesKeepReady(s, site, n);
    }
  }

  // ----- One namespace -----

  /** In one namespace source and target are one secret, which must be its own copy already. */
  predicate SelfCopied(s: State, site: Site) {
    && s.reference.Some?
    && Has(s, Source(site), SOURCE_KEY) && Has(s, Target(site), TARGET_KEY) && Equal(s, site)
  }

  lemma PassKeepsSelfCopied(s: State, site: Site)
    requires !Apart(site)
    ensures SelfCopied(Pass(s, site), site) <==> SelfCopied(s, site)
    ensures SelfCopied(s, site) && s.status.hostedClusterRef ==> Converged(Pass(s, site), site)
    ensures Pass(s, site).status.hostedClusterRef == s.status.hostedClusterRef
  {
  }

  lemma {:induction false} PassesKeepSelfCopied(s: State, site: Site, n: nat)
    requires !Apart(site)
    ensures SelfCopied(Passes(s, site, n), site) <==> SelfCopied(s, site)
    decreases n
  {
    if n > 0 {
      PassKeepsSelfCopied(s, site);
      PassesKeepSelfCopied(Pass(s, site), site, n - 1);
    }
  }

  /** With one namespace for both, injection ever succeeds exactly if the DPUCluster exists and the
      one secret holds the same data under both keys from the start. */
  lemma {:induction false} SharedConvergesIff(s: State, site: Site)
    requires !Apart(site) && s.status.hostedClusterRef
    ensures (exists n :: Converged(Passes(s, site, n), site)) <==> SelfCopied(s, site)
  {
    if SelfCopied(s, site) {
      PassKeepsSelfCopied(s, site);
      assert Passes(s, site, 1) == Pass(s, site) by {
        assert Passes(Pass(s, site), site, 0) == Pass(s, site);
      }
      assert Converged(Passes(s, site, 1), site);
    }
    if n: nat :| Converged(Passes(s, site, n), site) {
      PassesKeepSelfCopied(s, site, n);
    }
  }

  /** With different data under the keys a linked pass overwrites its own source, for good. */
  lemma {:induction false} SharedSourceDestroyed(s: State, site: Site, n: nat)
    requires !Apart(site) && s.status.hostedClusterRef && Referenced(s, site)
    requires Has(s, Source(site), SOURCE_KEY) && Has(s, Target(site), TARGET_KEY) && !Equal(s, site)
    ensures !Has(Passes(s, site, n + 1), Source(site), SOURCE_KEY)
  {
    SourceStaysAway(Pass(s, site), site, n);
  }

  lemma {:induction false} SourceStaysAway(s: State, site: Site, n: nat)
    requires !Apart(site) && !Has(s, Source(site), SOURCE_KEY)
    ensures !Has(Passes(s, site, n), Source(site), SOURCE_KEY)
    decreases n
  {
    if n > 0 {
      SourceStaysAway(Pass(s, site), site, n - 1);
    }
  }

  /** A fresh secret, without the target's key, is the usual case of the failing family. */
  lemma {:induction false} SharedNamespaceNeverConverges(s: State, site: Site, n: nat)
    requires !Apart(site) && !Has(s, Target(site), TARGET_KEY) && s.status.hostedClusterRef
    ensures !Converged(Passes(s, site, n), site)
  {
    PassesKeepSelfCopied(s, site, n);
  }

  // ----- The secret's name in the status -----

  predicate Recorded(s: State, site: Site) {
    s.status.secretRef == Some(SecretName(site))
  }

  /** Nothing is left to do in the cluster. */
  predicate InPlace(s: State, site: Site) {
    && Referenced(s, site)
    && Has(s, Source(site), SOURCE_KEY) && Has(s, Target(site), TARGET_KEY) && Equal(s, site)
  }

  lemma PassRecordsIff(s: State, site: Site)
    requires Apart(site) && Ready(s, site)
    ensures Recorded(Pass(s, site), site) <==> Recorded(s, site) || !InPlace(s, site)
    ensures InPlace(s, site) ==> InPlace(Pass(s, site), site)
  {
  }

  lemma {:induction false} RecordedStays(s: State, site: Site, n: nat)
    requires Apart(site) && Ready(s, site) && Recorded(s, site)
    ensures Recorded(Passes(s, site, n), site)
    decreases n
  {
    if n > 0 {
      PassRecordsIff(s, site);
      PassKeepsReady(s, site);
      RecordedStays(Pass(s, site), site, n - 1);
    }
  }

  /** The status has the secret's name after any number of passes exactly if it had it before, or
      if the first pass found something to do in the cluster. */
  lemma {:induction false} SecretRefSetIff(s: State, site: Site, n: nat)
    requires Apart(site) && Ready(s, site) && n > 0
    ensures Recorded(Passes(s, site, n), site) <==> Recorded(s, site) || !InPlace(s, site)
    decreases n
  {
    PassRecordsIff(s, site);
    PassKeepsReady(s, site);
    if Recorded(Pass(s, site), site) {
      RecordedStays(Pass(s, site), site, n - 1);
    } else {
      SecretRefStaysUnset(s, site, n);
    }
  }

  /** Once linked without drift, a status that lacks the secret's name keeps lacking it. */
  lemma {:induction false} SecretRefStaysUnset(s: State, site: Site, n: nat)
    requires InPlace(s, site)
    ensures Passes(s, site, n).status.secretRef == s.status.secretRef
    decreases n
  {
    if n > 0 {
      SecretRefStaysUnset(Pass(s, site), site, n - 1);
    }
  }

  /** A pass writes no secret but the target. */
  lemma PassFrame(s: State, site: Site, k: Key)
    requires k != Target(site)
    ensures k in Pass(s, site).secrets <==> k in s.secrets
    ensures k in s.secrets ==> Pass(s, site).secrets[k] == s.secrets[k]
  {
  }

  // ----- The program -----

  /** What even a disturbed pass may do to the cluster. */
  predicate Allowed(s: State, s': State, site: Site) {
    && (s'.secrets == s.secrets || (Has(s, Source(site), SOURCE_KEY) && s'.secrets == Copied(s, site).secrets))
    && (s'.reference == s.reference || (s.reference.Some? && s'.reference == Some(SecretName(site))))
    && s'.status.hostedClusterRef == s.status.hostedClusterRef
  }

  lemma AllowedKeepsReady(s: State, s': State, site: Site)
    requires Apart(site) && Allowed(s, s', site) && Ready(s, site)
    ensures Ready(s', site)
  {
  }

  datatype Outcome = Done | Error

  class Injector {
    const site: Site
    var state: State

    constructor (site: Site, state: State)
      ensures this.site == site && this.state == state
    {
      this.site := site;
      this.state := state;
    }

    /** `status` is the copy in memory; it is lost unless the write succeeds. */
    method SetCondition(status: Status, reason: Reason, calm: bool) returns (ok: bool)
      modifies this
      ensures state == old(state) || state == old(state).(status := status.(condition := Some(reason)))
      ensures ok ==> state == old(state).(status := status.(condition := Some(reason)))
      ensures calm ==> ok
    {
      var failed := Fails(calm);
      var reached := *;
      if !failed || reached {
        state := state.(status := status.(condition := Some(reason)));
      }
      ok := !failed;
    }

    method CreateOrUpdateKubeconfigSecret(calm: bool) returns (ok: bool)
      modifies this
      ensures state == old(state) || (Has(old(state), Source(site), SOURCE_KEY) && state == Copied(old(state), site))
      ensures ok ==> Has(old(state), Source(site), SOURCE_KEY) && state == Copied(old(state), site)
      ensures calm ==> (ok <==> Has(old(state), Source(site), SOURCE_KEY))
    {
      var failed := Fails(calm);
      if failed || !Has(state, Source(site), SOURCE_KEY) {
        return false;
      }
      failed := Fails(calm);
      var reached := *;
      if !failed || reached {
        state := Copied(state, site);
      }
      ok := !failed;
    }

    method UpdateDPUClusterReference(calm: bool) returns (ok: bool)
      modifies this
      ensures state == old(state)
           || (old(state).reference.Some? && state == old(state).(reference := Some(SecretName(site))))
      ensures ok ==> old(state).reference.Some? && state == old(state).(reference := Some(SecretName(site)))
      ensures calm ==> (ok <==> old(state).reference.Some?)
    {
      var failed := Fails(calm);
      if failed || state.reference.None? {
        return false;
      }
      failed := Fails(calm);
      var reached := *;
      if !failed || reached {
        state := state.(reference := Some(SecretName(site)));
      }
      ok := !failed;
    }

    method CheckDrift(calm: bool) returns (failed: bool, drifted: bool)
      requires Target(site) in state.secrets
      ensures !failed ==> Has(state, Source(site), SOURCE_KEY) && Has(state, Target(site), TARGET_KEY)
                          && (drifted <==> !Equal(state, site))
      ensures calm ==> (failed <==> !Has(state, Source(site), SOURCE_KEY) || !Has(state, Target(site), TARGET_KEY))
    {
      failed := Fails(calm);
      if failed || !Has(state, Source(site), SOURCE_KEY) || !Has(state, Target(site), TARGET_KEY) {
        return true, false;
      }
      return false, !Equal(state, site);
    }

    /** Undisturbed, a pass is `Pass`.  Disturbed, it changes only the target, the reference and the
        status, and reports success only when the target is there and referenced. */
    method InjectKubeconfig(calm: bool) returns (out: Outcome)
      modifies this
      ensures Allowed(old(state), state, site)
      ensures calm ==> state == Pass(old(state), site)
      ensures out == Done && old(state).status.hostedClusterRef && state.status.condition == Some(Injected) ==>
        Referenced(state, site) && Target(site) in state.secrets
    {
      var status := state.status;
      if !status.hostedClusterRef {
        return Done;
      }
      var failed := Fails(calm);
      if failed {
        var _ := SetCondition(status, InjectionFailed, calm);
        return Error;
      }
      if state.reference.None? || Source(site) !in state.secrets {
        var ok := SetCondition(status, Pending, calm);
        return if ok then Done else Error;
      }
      var present, linked := Target(site) in state.secrets, Referenced(state, site);
      var needed := true;
      if present && linked {
        failed, needed := CheckDrift(calm);
        if failed {
          var _ := SetCondition(status, InjectionFailed, calm);
          return Error;
        }
      } else if present {
        var ok := UpdateDPUClusterReference(calm);
        if !ok {
          var _ := SetCondition(status, InjectionFailed, calm);
          return Error;
        }
        status := status.(secretRef := Some(SecretName(site)));
        needed := false;
      }
      if needed {
        out, status := Copy(status, linked, calm);
        if out == Error {
          return;
        }
      }
      var ok := SetCondition(status, Injected, calm);
      return if ok then Done else Error;
    }

    method Copy(before: Status, linked: bool, calm: bool) returns (out: Outcome, status: Status)
      requires before == state.status && state.reference.Some? && (linked <==> Referenced(state, site))
      modifies this
      ensures Allowed(old(state), state, site)
      ensures out == Done ==> Has(old(state), Source(site), SOURCE_KEY)
                              && state == Link(Copied(old(state), site), site).(status := before)
                              && status == before.(secretRef := Some(SecretName(site)))
      ensures calm ==> (out == Done <==> Has(old(state), Source(site), SOURCE_KEY))
      ensures calm && out == Error ==> state == Report(old(state), InjectionFailed)
    {
      status := before;
      var ok := CreateOrUpdateKubeconfigSecret(calm);
      if !ok {
        var _ := SetCondition(before, InjectionFailed, calm);
        return Error, before;
      }
      if !linked {
        ok := UpdateDPUClusterReference(calm);
        if !ok {
          var _ := SetCondition(before, InjectionFailed, calm);
          return Error, before;
        }
      }
      return Done, before.(secretRef := Some(SecretName(site)));
    }

    /** However many passes fail half-way, two undisturbed ones finish the job. */
    method Recover(disturbed: nat)
      requires Apart(site) && Ready(state, site)
      modifies this
      ensures Converged(state, site)
    {
      for i := 0 to disturbed
        invariant Ready(state, site)
      {
        ghost var before := state;
        var _ := InjectKubeconfig(false);
        AllowedKeepsReady(before, state, site);
      }
      TwoPassesSuffice(state, site);
      var _ := InjectKubeconfig(true);
      var _ := InjectKubeconfig(true);
    }
  }
}
