/** Copies of the pull secret and the SSH key under names that encode where they come from, and
    the HostedCluster's references to them. */
module SecretCopies {
  import opened Text
  import opened ApiServer

  /** `owned`: controlled by this provisioner; `mark`: the credential copy label, or "". */
  datatype Secret = Secret(data: map<string, string>, owned: bool, mark: string)

  /** The secrets of the provisioner's namespace by name. */
  type Store = map<string, Secret>

  const PULL: string := "pull-secret"
  const SSH: string := "ssh-key"

  /** A provisioner's name and references.  `hash` is the short digest used in names. */
  datatype Request = Request(name: string, pullRef: string, sshRef: string, hash: string -> string)

  function LegacyName(cr: Request, kind: string): string {
    cr.name + "-" + kind
  }

  function CopyName(cr: Request, kind: string, source: string): string {
    LegacyName(cr, kind) + "-" + cr.hash(source)
  }

  function PullName(cr: Request): string {
    CopyName(cr, PULL, cr.pullRef)
  }

  function SshName(cr: Request): string {
    CopyName(cr, SSH, cr.sshRef)
  }

  function EtcdName(cr: Request): string {
    cr.name + "-etcd-encryption-key"
  }

  lemma NamesDiffer(cr: Request)
    ensures PullName(cr) != SshName(cr)
    ensures PullName(cr) != LegacyName(cr, PULL) && PullName(cr) != LegacyName(cr, SSH)
    ensures SshName(cr) != LegacyName(cr, PULL) && SshName(cr) != LegacyName(cr, SSH)
    ensures EtcdName(cr) !in {PullName(cr), SshName(cr), LegacyName(cr, PULL), LegacyName(cr, SSH)}
  {
    var n := |cr.name| + 1;
    assert PullName(cr)[n] == 'p' && SshName(cr)[n] == 's' && EtcdName(cr)[n] == 'e';
    assert LegacyName(cr, PULL)[n] == 'p' && LegacyName(cr, SSH)[n] == 's';
  }

  lemma CopyNamesAre(cr: Request)
    ensures PullName(cr) == cr.name + "-pull-secret-" + cr.hash(cr.pullRef)
    ensures SshName(cr) == cr.name + "-ssh-key-" + cr.hash(cr.sshRef)
  {
    assert "-" + "pull-secret" + "-" == "-pull-secret-";
    assert "-" + "ssh-key" + "-" == "-ssh-key-";
    assert PullName(cr) == cr.name + ("-" + "pull-secret" + "-") + cr.hash(cr.pullRef);
    assert SshName(cr) == cr.name + ("-" + "ssh-key" + "-") + cr.hash(cr.sshRef);
  }

  /** A copy's name changes exactly with the digest of its own reference. */
  lemma CopyNamesFollowReferences(a: Request, b: Request)
    requires a.name == b.name && a.hash == b.hash
    ensures PullName(a) == PullName(b) <==> a.hash(a.pullRef) == a.hash(b.pullRef)
    ensures SshName(a) == SshName(b) <==> a.hash(a.sshRef) == a.hash(b.sshRef)
  {
    CopyNamesAre(a);
    CopyNamesAre(b);
    TailsAgree(a.name + "-pull-secret-", a.hash(a.pullRef), a.hash(b.pullRef));
    TailsAgree(a.name + "-ssh-key-", a.hash(a.sshRef), a.hash(b.sshRef));
  }

  lemma TailsAgree(head: string, a: string, b: string)
    ensures head + a == head + b <==> a == b
  {
    if head + a == head + b {
      assert a == (head + a)[|head|..] == (head + b)[|head|..] == b;
    }
  }

  // ----- What a run should leave -----

  /** The copies of one kind that belong to this provisioner, old naming scheme included. */
  function Copies(cr: Request, secrets: Store, kind: string): set<string> {
    set n | n in secrets && secrets[n].owned && (secrets[n].mark == kind || n == LegacyName(cr, kind))
  }

  predicate Stale(cr: Request, n: string, s: Secret) {
    && s.owned
    && (   ((s.mark == PULL || n == LegacyName(cr, PULL)) && n != PullName(cr))
        || ((s.mark == SSH || n == LegacyName(cr, SSH)) && n != SshName(cr)))
  }

  predicate CanCopy(secrets: Store, source: string, target: string) {
    source in secrets && (target in secrets ==> secrets[target].owned)
  }

  /** An existing copy is only relabelled; its data stay. */
  function Copy(secrets: Store, source: string, target: string, kind: string): Store
    requires CanCopy(secrets, source, target)
  {
    if target in secrets then secrets[target := secrets[target].(mark := kind)]
    else secrets[target := Secret(secrets[source].data, true, kind)]
  }

  function Pruned(cr: Request, secrets: Store): Store {
    map n | n in secrets && !Stale(cr, n, secrets[n]) :: secrets[n]
  }

  predicate Copyable(cr: Request, secrets: Store) {
    && CanCopy(secrets, cr.pullRef, PullName(cr))
    && CanCopy(Copy(secrets, cr.pullRef, PullName(cr), PULL), cr.sshRef, SshName(cr))
  }

  function BothCopied(cr: Request, secrets: Store): Store
    requires Copyable(cr, secrets)
  {
    Copy(Copy(secrets, cr.pullRef, PullName(cr), PULL), cr.sshRef, SshName(cr), SSH)
  }

  function Settled(cr: Request, secrets: Store): Store
    requires Copyable(cr, secrets)
  {
    Pruned(cr, BothCopied(cr, secrets))
  }

  /** One copy of each kind remains, under its current name. */
  lemma ExactlyOneCopyEach(cr: Request, secrets: Store)
    requires Copyable(cr, secrets)
    ensures Copies(cr, Settled(cr, secrets), PULL) == {PullName(cr)}
    ensures Copies(cr, Settled(cr, secrets), SSH) == {SshName(cr)}
    ensures Settled(cr, secrets)[PullName(cr)].mark == PULL && Settled(cr, secrets)[SshName(cr)].mark == SSH
  {
    NamesDiffer(cr);
    KindsDiffer();
    var t := Settled(cr, secrets);
    assert t[PullName(cr)].mark == PULL && t[SshName(cr)].mark == SSH;
  }

  lemma KindsDiffer()
    ensures PULL != SSH
  {
    assert PULL[0] != SSH[0];
  }

  /** A new copy has its source's data, and an old one the data it had. */
  lemma NewCopiesHaveSourceData(cr: Request, secrets: Store)
    requires Copyable(cr, secrets)
    ensures PullName(cr) in secrets ==> PullName(cr) in Settled(cr, secrets)
                                        && Settled(cr, secrets)[PullName(cr)].data == secrets[PullName(cr)].data
    ensures SshName(cr) in secrets ==> SshName(cr) in Settled(cr, secrets)
                                       && Settled(cr, secrets)[SshName(cr)].data == secrets[SshName(cr)].data
    ensures PullName(cr) in Settled(cr, secrets) && SshName(cr) in Settled(cr, secrets)
    ensures PullName(cr) !in secrets ==> Settled(cr, secrets)[PullName(cr)].data == secrets[cr.pullRef].data
    ensures SshName(cr) !in secrets && cr.sshRef != PullName(cr) ==>
      Settled(cr, secrets)[SshName(cr)].data == secrets[cr.sshRef].data
  {
    NamesDiffer(cr);
    KindsDiffer();
  }

  /** What the operator must leave alone: other owners' secrets, and its own that are no copies. */
  predicate Foreign(cr: Request, secrets: Store, n: string) {
    || (n in secrets && !secrets[n].owned)
    || (n in secrets && n !in {PullName(cr), SshName(cr), LegacyName(cr, PULL), LegacyName(cr, SSH)}
        && secrets[n].mark != PULL && secrets[n].mark != SSH)
  }

  ghost predicate Spared(cr: Request, before: Store, after: Store) {
    forall n :: Foreign(cr, before, n) ==> n in after && after[n] == before[n]
  }

  lemma SettledSpares(cr: Request, secrets: Store)
    requires Copyable(cr, secrets)
    ensures Spared(cr, secrets, Settled(cr, secrets))
  {
    NamesDiffer(cr);
  }

  lemma EtcdKeySpared(cr: Request, before: Store, after: Store)
    requires Spared(cr, before, after)
    requires EtcdName(cr) in before && before[EtcdName(cr)].mark == ""
    ensures EtcdName(cr) in after && after[EtcdName(cr)] == before[EtcdName(cr)]
  {
    NamesDiffer(cr);
    assert Foreign(cr, before, EtcdName(cr));
  }

  /** A secret that the run will remove. */
  predicate Doomed(cr: Request, secrets: Store, n: string) {
    n in secrets && n != PullName(cr) && n != SshName(cr) && Stale(cr, n, secrets[n])
  }

  lemma RemovedIffDoomed(cr: Request, secrets: Store, n: string)
    requires Copyable(cr, secrets) && n in secrets
    ensures n in Settled(cr, secrets) <==> !Doomed(cr, secrets, n)
  {
    NamesDiffer(cr);
    KindsDiffer();
  }

  lemma SettledIsFixed(cr: Request, secrets: Store)
    requires Copyable(cr, secrets)
    ensures var t := Settled(cr, secrets);
      && (Copyable(cr, t) <==> cr.pullRef in t && cr.sshRef in t)
      && (Copyable(cr, t) ==> Settled(cr, t) == t)
  {
    NamesDiffer(cr);
    KindsDiffer();
    var t := Settled(cr, secrets);
    assert t[PullName(cr)].owned && t[SshName(cr)].owned;
    if cr.pullRef in t && cr.sshRef in t {
      assert Copy(t, cr.pullRef, PullName(cr), PULL) == t;
      assert Copy(t, cr.sshRef, SshName(cr), SSH) == t;
      assert Pruned(cr, t) == t;
    }
  }

  /** A second run finds nothing to do exactly when neither reference names a copy that the first
      run removes; otherwise it fails for want of a source. */
  lemma SecondRunWritesNothingIff(cr: Request, secrets: Store)
    requires Copyable(cr, secrets)
    ensures var t := Settled(cr, secrets);
      (Copyable(cr, t) && Settled(cr, t) == t) <==> !Doomed(cr, secrets, cr.pullRef) && !Doomed(cr, secrets, cr.sshRef)
  {
    SettledIsFixed(cr, secrets);
    RemovedIffDoomed(cr, secrets, cr.pullRef);
    if cr.sshRef in secrets {
      RemovedIffDoomed(cr, secrets, cr.sshRef);
    } else {
      NamesDiffer(cr);
      KindsDiffer();
    }
  }

  /** A reference to the provisioner's own copy from the old naming scheme works once. */
  lemma LegacyReferenceFails(cr: Request, s: Secret, key: Secret)
    requires cr.pullRef == LegacyName(cr, PULL) && cr.sshRef == "key" && cr.name != "" && s.owned && !key.owned
    ensures var secrets := map[cr.pullRef := s, "key" := key];
      Copyable(cr, secrets) && !Copyable(cr, Settled(cr, secrets))
  {
    NamesDiffer(cr);
    assert |PullName(cr)| > 3 && |SshName(cr)| > 3 && |cr.pullRef| > 3;
    var secrets := map[cr.pullRef := s, "key" := key];
    assert Stale(cr, cr.pullRef, secrets[cr.pullRef]);
    SecondRunWritesNothingIff(cr, secrets);
    SettledIsFixed(cr, secrets);
  }

  // ----- The program -----

  datatype HostedCluster = HostedCluster(owned: bool, pullSecret: string, sshKey: string)

  datatype Outcome = Continue | Requeue | Error

  /** Some stale secrets are gone and nothing else has changed. */
  ghost predicate Thinned(cr: Request, before: Store, after: Store) {
    && (forall n :: n in after ==> n in before && after[n] == before[n])
    && (forall n :: n in before && n !in after ==> Stale(cr, n, before[n]))
  }

  lemma CopiesSpare(cr: Request, start: Store, first: Store, second: Store)
    requires CanCopy(start, cr.pullRef, PullName(cr)) && first == Copy(start, cr.pullRef, PullName(cr), PULL)
    requires second == first
          || (CanCopy(first, cr.sshRef, SshName(cr)) && second == Copy(first, cr.sshRef, SshName(cr), SSH))
    ensures Spared(cr, start, second)
    ensures start.Keys <= second.Keys
    ensures forall n :: n in second && n !in {PullName(cr), SshName(cr)} ==> n in start && second[n] == start[n]
  {
    NamesDiffer(cr);
  }

  lemma ThinnedSpares(cr: Request, start: Store, copied: Store, after: Store)
    requires Spared(cr, start, copied) && Thinned(cr, copied, after)
    ensures Spared(cr, start, after)
  {
    forall n | Foreign(cr, start, n) ensures n in after && after[n] == start[n] {
      assert !Stale(cr, n, copied[n]);
    }
  }

  lemma NoChangeNoSteps(cr: Request, secrets: Store)
    requires Copyable(cr, secrets) && Settled(cr, secrets) == secrets
    ensures Copy(secrets, cr.pullRef, PullName(cr), PULL) == secrets && BothCopied(cr, secrets) == secrets
  {
    NamesDiffer(cr);
    KindsDiffer();
    var first := Copy(secrets, cr.pullRef, PullName(cr), PULL);
    var t := Settled(cr, secrets);
    assert t[PullName(cr)] == first[PullName(cr)];
    assert first == secrets;
    assert t[SshName(cr)] == BothCopied(cr, secrets)[SshName(cr)];
  }

  class Manager {
    var secrets: Store
    var hc: Option<HostedCluster>
    ghost var writes: nat

    /** An update or a creation, which on failure may or may not have reached the server. */
    method Put(n: string, s: Secret, calm: bool) returns (ok: bool)
      modifies `secrets, `writes
      ensures secrets == old(secrets) || secrets == old(secrets)[n := s]
      ensures ok ==> secrets == old(secrets)[n := s]
      ensures calm ==> ok
      ensures writes == old(writes) + 1
    {
      var failed := Fails(calm);
      var reached := *;
      if !failed || reached {
        secrets := secrets[n := s];
      }
      writes := writes + 1;
      ok := !failed;
    }

    method CopySecret(source: string, target: string, kind: string, calm: bool) returns (ok: bool)
      modifies `secrets, `writes
      ensures secrets == old(secrets) || (CanCopy(old(secrets), source, target)
                                          && secrets == Copy(old(secrets), source, target, kind))
      ensures ok ==> CanCopy(old(secrets), source, target) && secrets == Copy(old(secrets), source, target, kind)
      ensures calm ==> (ok <==> CanCopy(old(secrets), source, target))
      ensures ok && secrets == old(secrets) ==> writes == old(writes)
    {
      var failed := Fails(calm);
      if failed || source !in secrets {
        return false;
      }
      failed := Fails(calm);
      if failed {
        return false;
      }
      if target in secrets {
        if !secrets[target].owned {
          return false;
        }
        if secrets[target].mark != kind {
          ok := Put(target, secrets[target].(mark := kind), calm);
          return;
        }
        assert secrets[target].(mark := kind) == secrets[target];
        return true;
      }
      ok := Put(target, Secret(secrets[source].data, true, kind), calm);
    }

    /** Deletes stale copies one by one. */
    method CleanupStaleSecretCopies(cr: Request, calm: bool) returns (ok: bool)
      modifies `secrets, `writes
      ensures Thinned(cr, old(secrets), secrets)
      ensures ok ==> secrets == Pruned(cr, old(secrets))
      ensures calm ==> ok
      ensures ok && secrets == old(secrets) ==> writes == old(writes)
    {
      var failed := Fails(calm);
      if failed {
        return false;
      }
      var todo := secrets.Keys;
      while todo != {}
        invariant todo <= secrets.Keys
        invariant Thinned(cr, old(secrets), secrets)
        invariant forall n :: n in secrets && n !in todo ==> !Stale(cr, n, secrets[n])
        invariant secrets == old(secrets) ==> writes == old(writes)
        decreases todo
      {
        var n :| n in todo;
        todo := todo - {n};
        if Stale(cr, n, secrets[n]) {
          failed := Fails(calm);
          var reached := *;
          if failed && !reached {
            return false;
          }
          secrets := secrets - {n};
          writes := writes + 1;
          assert n in old(secrets) && n !in secrets;
          if failed {
            return false;
          }
        }
      }
      return true;
    }

    /** The etcd key and everything else that is not a copy of this provisioner is spared in every
        case, also when the run stops half-way. */
    method CopySecrets(cr: Request, calm: bool) returns (ok: bool)
      modifies `secrets, `writes
      ensures Spared(cr, old(secrets), secrets)
      ensures ok ==> Copyable(cr, old(secrets)) && secrets == Settled(cr, old(secrets))
      ensures calm ==> (ok <==> Copyable(cr, old(secrets)))
      ensures ok && secrets == old(secrets) ==> writes == old(writes)
    {
      NamesDiffer(cr);
      ok := CopySecret(cr.pullRef, PullName(cr), PULL, calm);
      ghost var first := secrets;
      if !ok {
        return;
      }
      ok := CopySecret(cr.sshRef, SshName(cr), SSH, calm);
      ghost var second := secrets;
      CopiesSpare(cr, old(secrets), first, second);
      if !ok {
        return;
      }
      ok := CleanupStaleSecretCopies(cr, calm);
      ThinnedSpares(cr, old(secrets), second, secrets);
      if ok && secrets == old(secrets) {
        NoChangeNoSteps(cr, old(secrets));
      }
    }

    predicate Current(cr: Request)
      reads `hc
    {
      hc.Some? && hc.value == HostedCluster(true, PullName(cr), SshName(cr))
    }

    /** The HostedCluster names copies that exist. */
    predicate Backed()
      reads `hc, `secrets
    {
      && hc.Some?
      && hc.value.pullSecret in secrets && secrets[hc.value.pullSecret].owned && secrets[hc.value.pullSecret].mark == PULL
      && hc.value.sshKey in secrets && secrets[hc.value.sshKey].owned && secrets[hc.value.sshKey].mark == SSH
    }

    /** The secrets the HostedCluster names hold the data of the referenced ones, unless a copy under
        that name was there before. */
    predicate CarriesSources(cr: Request, before: Store)
      reads `hc, `secrets
    {
      && hc.Some? && hc.value.pullSecret in secrets && hc.value.sshKey in secrets
      && (cr.name + "-pull-secret-" + cr.hash(cr.pullRef) !in before && cr.pullRef in before ==>
            secrets[hc.value.pullSecret].data == before[cr.pullRef].data)
      && (cr.name + "-ssh-key-" + cr.hash(cr.sshRef) !in before && cr.sshRef in before ==>
            secrets[hc.value.sshKey].data == before[cr.sshRef].data)
    }

    /** Moves the references of an owned HostedCluster and asks for another pass, creates a missing
        one, and refuses one of another owner. */
    method CreateOrUpdateHostedCluster(cr: Request, calm: bool) returns (out: Outcome)
      modifies `hc
      ensures hc == old(hc) || (Current(cr) && (old(hc).Some? ==> old(hc).value.owned))
      ensures out == Continue ==> Current(cr) && (old(hc).Some? ==> hc == old(hc))
      ensures out == Requeue ==> Current(cr) && hc != old(hc)
      ensures calm ==> (out == Error <==> old(hc).Some? && !old(hc).value.owned)
      ensures calm && old(Current(cr)) ==> out == Continue
    {
      var failed := Fails(calm);
      if failed {
        return Error;
      }
      if hc.Some? && !hc.value.owned {
        return Error;
      }
      if hc.Some? && hc.value.pullSecret == PullName(cr) && hc.value.sshKey == SshName(cr) {
        return Continue;
      }
      failed := Fails(calm);
      var reached := *;
      out := if failed then Error else if hc.Some? then Requeue else Continue;
      if !failed || reached {
        hc := Some(HostedCluster(true, PullName(cr), SshName(cr)));
      }
    }

    /** The credential part of a pass.  When it lets the pass go on, the HostedCluster names the
        current copies and both exist. */
    method SyncCredentials(cr: Request, calm: bool) returns (out: Outcome)
      modifies this
      ensures Spared(cr, old(secrets), secrets)
      ensures out != Error ==> Current(cr) && Backed() && Copyable(cr, old(secrets)) && secrets == Settled(cr, old(secrets))
      ensures out == Continue ==> old(hc).Some? ==> hc == old(hc)
      ensures calm ==> (out == Error <==> !Copyable(cr, old(secrets)) || (old(hc).Some? && !old(hc).value.owned))
      ensures calm && old(Current(cr)) && Copyable(cr, old(secrets)) ==> out == Continue
      ensures old(Current(cr)) && out == Continue && secrets == old(secrets) ==> writes == old(writes)
      ensures out != Error ==> CarriesSources(cr, old(secrets))
    {
      var ok := CopySecrets(cr, calm);
      if !ok {
        return Error;
      }
      ExactlyOneCopyEach(cr, old(secrets));
      NewCopiesHaveSourceData(cr, old(secrets));
      assert PullName(cr) in Copies(cr, secrets, PULL) && SshName(cr) in Copies(cr, secrets, SSH);
      CopyNamesAre(cr);
      out := CreateOrUpdateHostedCluster(cr, calm);
    }

    /** After any change of the references two undisturbed passes bring the HostedCluster to the new
        copies, and a third writes nothing. */
    method Rotate(cr: Request) returns (second: Outcome, third: Outcome, ghost extra: int)
      requires hc.Some? && hc.value.owned && Copyable(cr, secrets)
      requires !Doomed(cr, secrets, cr.pullRef) && !Doomed(cr, secrets, cr.sshRef)
      modifies this
      ensures Current(cr) && Backed() && secrets == Settled(cr, old(secrets))
      ensures second == Continue && third == Continue && extra == 0
      ensures CarriesSources(cr, old(secrets))
    {
      SecondRunWritesNothingIff(cr, secrets);
      var first := SyncCredentials(cr, true);
      second := SyncCredentials(cr, true);
      ghost var before := writes;
      third := SyncCredentials(cr, true);
      extra := writes - before;
    }
  }
}
