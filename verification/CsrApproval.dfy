/** Approval of certificate signing requests in the hosted cluster. */
module CsrApproval {
  import opened Text

  const SIGNER_BOOTSTRAP: string := "kubernetes.io/kube-apiserver-client-kubelet"
  const SIGNER_SERVING: string := "kubernetes.io/kubelet-serving"
  const NODE_PREFIX: string := "system:node:"
  const BOOTSTRAPPER: string := "system:serviceaccount:openshift-machine-config-operator:node-bootstrapper"
  const BOOTSTRAP_GROUPS: set<string> := {
    "system:serviceaccounts", "system:serviceaccounts:openshift-machine-config-operator", "system:authenticated"
  }
  const NODE_GROUPS: set<string> := {"system:nodes", "system:authenticated"}
  const BOOTSTRAP_USAGES: set<string> := {"digital signature", "client auth"}
  const SERVING_USAGES: set<string> := {"digital signature", "server auth"}
  const ORGANIZATION: string := "system:nodes"
  const REQUEST_BLOCK: string := "CERTIFICATE REQUEST"

  datatype Address = NoAddress | Address(unspecified: bool, loopback: bool, multicast: bool)

  datatype Certificate = Certificate(
    commonName: string,
    organization: seq<string>,
    dnsNames: seq<string>,
    addresses: seq<Address>,
    emails: seq<string>,
    uris: seq<string>)

  /** A PEM block and the certificate request its bytes parse to, if they do. */
  datatype Block = Block(kind: string, certificate: Option<Certificate>)

  datatype Verdict = Approved | Denied | Failed

  datatype Csr = Csr(
    name: string,
    signer: string,
    username: string,
    groups: seq<string>,
    usages: seq<string>,
    request: Option<Block>,
    conditions: seq<Verdict>)

  datatype Phase = DPUClusterConfig | Ready | NodeEffectRemoval | OtherPhase

  datatype Dpu = Dpu(name: string, phase: Phase)

  /** What owner validation looks at: the DPUs of the namespace and the nodes of the hosted cluster. */
  datatype Fleet = Fleet(dpus: seq<Dpu>, nodes: seq<string>) {
    /** An API server does not hold two objects of one name. */
    ghost predicate Valid() {
      forall i, j :: 0 <= i < j < |dpus| ==> dpus[i].name != dpus[j].name
    }
  }

  // ----- Which requests should be approved -----

  ghost predicate Pending(csr: Csr) {
    Approved !in csr.conditions && Denied !in csr.conditions
  }

  ghost predicate Routable(address: Address) {
    address.Address? && !address.unspecified && !address.loopback && !address.multicast
  }

  ghost predicate NamesNode(csr: Csr, hostname: string) {
    && csr.request.Some? && csr.request.value.kind == REQUEST_BLOCK && csr.request.value.certificate.Some?
    && csr.request.value.certificate.value.organization == [ORGANIZATION]
    && csr.request.value.certificate.value.commonName == NODE_PREFIX + hostname
  }

  ghost predicate NoAlternatives(c: Certificate) {
    c.dnsNames == [] && c.addresses == [] && c.emails == [] && c.uris == []
  }

  ghost predicate BootstrapContent(csr: Csr, hostname: string) {
    && csr.username == BOOTSTRAPPER
    && BOOTSTRAP_GROUPS <= (set g | g in csr.groups)
    && (set u | u in csr.usages) == BOOTSTRAP_USAGES
    && NamesNode(csr, hostname)
    && NoAlternatives(csr.request.value.certificate.value)
  }

  ghost predicate ServingAlternatives(c: Certificate, hostname: string) {
    c.dnsNames == [hostname] && forall i :: 0 <= i < |c.addresses| ==> Routable(c.addresses[i])
  }

  ghost predicate ServingContent(csr: Csr, hostname: string) {
    && csr.username == NODE_PREFIX + hostname
    && NODE_GROUPS <= (set g | g in csr.groups)
    && (set u | u in csr.usages) == SERVING_USAGES
    && NamesNode(csr, hostname)
    && ServingAlternatives(csr.request.value.certificate.value, hostname)
  }

  ghost predicate Joining(fleet: Fleet, hostname: string) {
    Dpu(hostname, DPUClusterConfig) in fleet.dpus
  }

  ghost predicate Serving(fleet: Fleet, hostname: string) {
    && hostname in fleet.nodes
    && (Dpu(hostname, DPUClusterConfig) in fleet.dpus || Dpu(hostname, Ready) in fleet.dpus
        || Dpu(hostname, NodeEffectRemoval) in fleet.dpus)
  }

  ghost predicate Meets(csr: Csr, hostname: string, fleet: Fleet) {
    && hostname != ""
    && (|| (csr.signer == SIGNER_BOOTSTRAP && BootstrapContent(csr, hostname) && Joining(fleet, hostname))
        || (csr.signer == SIGNER_SERVING && ServingContent(csr, hostname) && Serving(fleet, hostname)))
  }

  ghost predicate Approvable(csr: Csr, fleet: Fleet) {
    Pending(csr) && exists hostname :: Meets(csr, hostname, fleet)
  }

  /** The declaration, written out. */
  lemma MeetsIff(csr: Csr, hostname: string, fleet: Fleet)
    ensures Meets(csr, hostname, fleet) <==>
      && hostname != ""
      && csr.request.Some? && csr.request.value.kind == "CERTIFICATE REQUEST" && csr.request.value.certificate.Some?
      && var c := csr.request.value.certificate.value;
      && c.organization == ["system:nodes"] && c.commonName == "system:node:" + hostname
      && (|| (&& csr.signer == "kubernetes.io/kube-apiserver-client-kubelet"
              && csr.username == "system:serviceaccount:openshift-machine-config-operator:node-bootstrapper"
              && "system:serviceaccounts" in csr.groups
              && "system:serviceaccounts:openshift-machine-config-operator" in csr.groups
              && "system:authenticated" in csr.groups
              && (set u | u in csr.usages) == {"digital signature", "client auth"}
              && c.dnsNames == [] && c.addresses == [] && c.emails == [] && c.uris == []
              && Dpu(hostname, DPUClusterConfig) in fleet.dpus)
          || (&& csr.signer == "kubernetes.io/kubelet-serving"
              && csr.username == "system:node:" + hostname
              && "system:nodes" in csr.groups && "system:authenticated" in csr.groups
              && (set u | u in csr.usages) == {"digital signature", "server auth"}
              && c.dnsNames == [hostname]
              && (forall i :: 0 <= i < |c.addresses| ==> Routable(c.addresses[i]))
              && hostname in fleet.nodes
              && exists d :: d in fleet.dpus && d.name == hostname && d.phase in {DPUClusterConfig, Ready, NodeEffectRemoval}))
  {
    BootstrapGroups(csr.groups);
    NodeGroups(csr.groups);
    if hostname in fleet.nodes && Serving(fleet, hostname) {
      assert exists d :: d in fleet.dpus && d.name == hostname && d.phase in {DPUClusterConfig, Ready, NodeEffectRemoval};
    }
    if d :| d in fleet.dpus && d.name == hostname && d.phase in {DPUClusterConfig, Ready, NodeEffectRemoval} {
      assert d == Dpu(hostname, d.phase);
    }
  }

  lemma BootstrapGroups(groups: seq<string>)
    ensures BOOTSTRAP_GROUPS <= (set g | g in groups) <==>
      && "system:serviceaccounts" in groups && "system:authenticated" in groups
      && "system:serviceaccounts:openshift-machine-config-operator" in groups
  {
    var all := set g | g in groups;
    if BOOTSTRAP_GROUPS <= all {
      assert "system:serviceaccounts" in all && "system:authenticated" in all;
      assert "system:serviceaccounts:openshift-machine-config-operator" in all;
    }
  }

  lemma NodeGroups(groups: seq<string>)
    ensures NODE_GROUPS <= (set g | g in groups) <==> "system:nodes" in groups && "system:authenticated" in groups
  {
    var all := set g | g in groups;
    if NODE_GROUPS <= all {
      assert "system:nodes" in all && "system:authenticated" in all;
    }
  }

  function Approve(csr: Csr): Csr {
    csr.(conditions := csr.conditions + [Approved])
  }

  // ----- Polling -----

  type Store = map<string, Csr>

  ghost predicate Keyed(csrs: Store) {
    forall n :: n in csrs ==> csrs[n].name == n
  }

  /** The requests after a poll that looked at those named in `seen`. */
  ghost function Polled(csrs: Store, seen: set<string>, fleet: Fleet): Store {
    map n | n in csrs :: if n in seen && Approvable(csrs[n], fleet) then Approve(csrs[n]) else csrs[n]
  }

  ghost function Poll(csrs: Store, fleet: Fleet): Store {
    Polled(csrs, csrs.Keys, fleet)
  }

  ghost function Polls(csrs: Store, fleets: seq<Fleet>): Store {
    if fleets == [] then csrs else Polls(Poll(csrs, fleets[0]), fleets[1..])
  }

  /** A decided request stays as it is, whatever the fleet does. */
  lemma {:induction false} DecidedStays(csrs: Store, fleets: seq<Fleet>, n: string)
    requires n in csrs && !Pending(csrs[n])
    ensures n in Polls(csrs, fleets) && Polls(csrs, fleets)[n] == csrs[n]
    decreases |fleets|
  {
    if fleets != [] {
      DecidedStays(Poll(csrs, fleets[0]), fleets[1..], n);
    }
  }

  /** Over any run of polls a request gains one approval or nothing, and it gains one exactly when
      some poll finds it approvable. */
  lemma {:induction false} ApprovedAtMostOnce(csrs: Store, fleets: seq<Fleet>, n: string)
    requires n in csrs
    ensures n in Polls(csrs, fleets)
    ensures Polls(csrs, fleets)[n]
         == if exists i :: 0 <= i < |fleets| && Approvable(csrs[n], fleets[i]) then Approve(csrs[n]) else csrs[n]
    decreases |fleets|
  {
    if fleets != [] {
      var next, rest := Poll(csrs, fleets[0]), fleets[1..];
      if Approvable(csrs[n], fleets[0]) {
        DecidedStays(next, rest, n);
      } else {
        ApprovedAtMostOnce(next, rest, n);
        if i :| 0 <= i < |fleets| && Approvable(csrs[n], fleets[i]) {
          assert rest[i - 1] == fleets[i];
        }
      }
    }
  }

  /** In an unchanged cluster one poll is as good as many. */
  lemma {:induction false} FurtherPollsAddNothing(csrs: Store, fleet: Fleet, fleets: seq<Fleet>)
    requires forall i :: 0 <= i < |fleets| ==> fleets[i] == fleet
    ensures Polls(Poll(csrs, fleet), fleets) == Poll(csrs, fleet)
  {
    if fleets != [] {
      assert Poll(Poll(csrs, fleet), fleet) == Poll(csrs, fleet);
      FurtherPollsAddNothing(csrs, fleet, fleets[1..]);
    }
  }

  /** The hostname a request is approved for is unique. */
  lemma HostnameUnique(csr: Csr, a: string, b: string, fleet: Fleet)
    requires Meets(csr, a, fleet) && Meets(csr, b, fleet)
    ensures a == b
  {
    assert a == (NODE_PREFIX + a)[|NODE_PREFIX|..] && b == (NODE_PREFIX + b)[|NODE_PREFIX|..];
  }

  // ----- Extracting the hostname -----

  function AfterPrefix(name: string): Option<string> {
    var hostname := TrimPrefix(name, NODE_PREFIX);
    if hostname == "" || hostname == name then None else Some(hostname)
  }

  /** Unlike validation, extraction does not look at the kind of the PEM block. */
  function ExtractHostname(csr: Csr): Option<string> {
    if csr.signer == SIGNER_BOOTSTRAP then
      if csr.request.None? || csr.request.value.certificate.None? then None
      else AfterPrefix(csr.request.value.certificate.value.commonName)
    else if csr.signer == SIGNER_SERVING then AfterPrefix(csr.username)
    else None
  }

  lemma AfterPrefixIff(name: string, hostname: string)
    ensures AfterPrefix(name) == Some(hostname) <==> hostname != "" && name == NODE_PREFIX + hostname
  {
    if name == NODE_PREFIX + hostname {
      assert name[0..|NODE_PREFIX|] == NODE_PREFIX;
      assert name[|NODE_PREFIX|..] == hostname;
    }
    if HasPrefix(name, NODE_PREFIX) {
      assert name == NODE_PREFIX + name[|NODE_PREFIX|..];
    }
  }

  /** Nothing is lost by validating only for the extracted hostname. */
  lemma ExtractionAgrees(csr: Csr, hostname: string, fleet: Fleet)
    requires Meets(csr, hostname, fleet)
    ensures ExtractHostname(csr) == Some(hostname)
  {
    AfterPrefixIff(NODE_PREFIX + hostname, hostname);
  }

  // ----- Validators -----

  method IsPending(csr: Csr) returns (r: bool)
    ensures r <==> Pending(csr)
  {
    for i := 0 to |csr.conditions|
      invariant Approved !in csr.conditions[..i] && Denied !in csr.conditions[..i]
    {
      if csr.conditions[i] == Approved || csr.conditions[i] == Denied {
        return false;
      }
    }
    assert csr.conditions[..|csr.conditions|] == csr.conditions;
    return true;
  }

  method AllFound(flags: map<string, bool>) returns (ok: bool)
    ensures ok <==> forall k :: k in flags ==> flags[k]
  {
    var todo := flags.Keys;
    while todo != {}
      invariant todo <= flags.Keys
      invariant forall k :: k in flags && k !in todo ==> flags[k]
      decreases todo
    {
      var k :| k in todo;
      if !flags[k] {
        return false;
      }
      todo := todo - {k};
    }
    return true;
  }

  /** The usages must be exactly the allowed ones, in any order and number. */
  method ValidateUsages(usages: seq<string>, allowed: map<string, bool>) returns (ok: bool)
    requires forall u :: u in allowed ==> !allowed[u]
    ensures ok <==> (set u | u in usages) == allowed.Keys
  {
    var flags := allowed;
    for i := 0 to |usages|
      invariant flags.Keys == allowed.Keys
      invariant forall u :: u in usages[..i] ==> u in flags
      invariant forall u :: u in flags ==> (flags[u] <==> u in usages[..i])
    {
      if usages[i] !in flags {
        assert usages[i] in (set u | u in usages);
        return false;
      }
      flags := flags[usages[i] := true];
    }
    assert usages[..|usages|] == usages;
    ok := AllFound(flags);
    if ok {
      assert forall u :: u in allowed.Keys ==> u in (set v | v in usages);
    }
  }

  method ValidateGroups(groups: seq<string>, required: map<string, bool>) returns (ok: bool)
    requires forall g :: g in required ==> !required[g]
    ensures ok <==> required.Keys <= (set g | g in groups)
  {
    var flags := required;
    for i := 0 to |groups|
      invariant flags.Keys == required.Keys
      invariant forall g :: g in flags ==> (flags[g] <==> g in groups[..i])
    {
      if groups[i] in flags {
        flags := flags[groups[i] := true];
      }
    }
    assert groups[..|groups|] == groups;
    ok := AllFound(flags);
  }

  method ValidateBootstrapperIdentity(csr: Csr) returns (ok: bool)
    ensures ok <==> csr.username == BOOTSTRAPPER && BOOTSTRAP_GROUPS <= (set g | g in csr.groups)
  {
    if csr.username != BOOTSTRAPPER {
      return false;
    }
    ok := ValidateGroups(csr.groups, map g | g in BOOTSTRAP_GROUPS :: false);
  }

  method ValidateNodeIdentity(csr: Csr, hostname: string) returns (ok: bool)
    ensures ok <==> csr.username == NODE_PREFIX + hostname && NODE_GROUPS <= (set g | g in csr.groups)
  {
    if csr.username != NODE_PREFIX + hostname {
      return false;
    }
    var nodes, authenticated := false, false;
    for i := 0 to |csr.groups|
      invariant nodes <==> "system:nodes" in csr.groups[..i]
      invariant authenticated <==> "system:authenticated" in csr.groups[..i]
    {
      if csr.groups[i] == "system:nodes" {
        nodes := true;
      }
      if csr.groups[i] == "system:authenticated" {
        authenticated := true;
      }
    }
    assert csr.groups[..|csr.groups|] == csr.groups;
    return nodes && authenticated;
  }

  function ParseRequest(csr: Csr): Option<Certificate> {
    if csr.request.None? || csr.request.value.kind != REQUEST_BLOCK then None
    else csr.request.value.certificate
  }

  method ValidateServingIdentities(c: Certificate, hostname: string) returns (ok: bool)
    ensures ok <==> ServingAlternatives(c, hostname)
  {
    if |c.dnsNames| != 1 || c.dnsNames[0] != hostname {
      return false;
    }
    for i := 0 to |c.addresses|
      invariant forall k :: 0 <= k < i ==> Routable(c.addresses[k])
    {
      var a := c.addresses[i];
      if a.NoAddress? || a.unspecified || a.loopback || a.multicast {
        return false;
      }
    }
    return true;
  }

  method ValidateBootstrapCSR(csr: Csr, hostname: string) returns (ok: bool)
    ensures ok <==> BootstrapContent(csr, hostname)
  {
    ok := ValidateBootstrapperIdentity(csr);
    if !ok {
      return;
    }
    ok := ValidateUsages(csr.usages, map u | u in BOOTSTRAP_USAGES :: false);
    if !ok {
      return;
    }
    var parsed := ParseRequest(csr);
    if parsed.None? {
      return false;
    }
    var c := parsed.value;
    if |c.organization| != 1 || c.organization[0] != ORGANIZATION {
      return false;
    }
    if c.commonName != NODE_PREFIX + hostname {
      return false;
    }
    return |c.dnsNames| == 0 && |c.addresses| == 0 && |c.emails| == 0 && |c.uris| == 0;
  }

  method ValidateServingCSR(csr: Csr, hostname: string) returns (ok: bool)
    ensures ok <==> ServingContent(csr, hostname)
  {
    ok := ValidateNodeIdentity(csr, hostname);
    if !ok {
      return;
    }
    ok := ValidateUsages(csr.usages, map u | u in SERVING_USAGES :: false);
    if !ok {
      return;
    }
    var parsed := ParseRequest(csr);
    if parsed.None? {
      return false;
    }
    var c := parsed.value;
    if |c.organization| != 1 || c.organization[0] != ORGANIZATION {
      return false;
    }
    if c.commonName != NODE_PREFIX + hostname {
      return false;
    }
    ok := ValidateServingIdentities(c, hostname);
  }

  method GetDPU(dpus: seq<Dpu>, hostname: string) returns (r: Option<Dpu>)
    ensures r.Some? ==> r.value in dpus && r.value.name == hostname
    ensures r.None? ==> forall d :: d in dpus ==> d.name != hostname
  {
    for i := 0 to |dpus|
      invariant forall k :: 0 <= k < i ==> dpus[k].name != hostname
    {
      if dpus[i].name == hostname {
        return Some(dpus[i]);
      }
    }
    return None;
  }

  method NodeExists(nodes: seq<string>, hostname: string) returns (r: bool)
    ensures r <==> hostname in nodes
  {
    for i := 0 to |nodes|
      invariant hostname !in nodes[..i]
    {
      if nodes[i] == hostname {
        return true;
      }
    }
    assert nodes[..|nodes|] == nodes;
    return false;
  }

  lemma OnlyDPU(fleet: Fleet, d: Dpu, e: Dpu)
    requires fleet.Valid() && d in fleet.dpus && e in fleet.dpus && d.name == e.name
    ensures d == e
  {
    var i :| 0 <= i < |fleet.dpus| && fleet.dpus[i] == d;
    var j :| 0 <= j < |fleet.dpus| && fleet.dpus[j] == e;
    assert !(i < j) && !(j < i);
  }

  /** Each lookup may fail, and then there is no verdict. */
  method ValidateCSROwner(fleet: Fleet, hostname: string, bootstrap: bool) returns (failed: bool, valid: bool)
    requires fleet.Valid()
    ensures !failed ==> (valid <==> if bootstrap then Joining(fleet, hostname) else Serving(fleet, hostname))
  {
    failed := *;
    if failed {
      return true, false;
    }
    var dpu := GetDPU(fleet.dpus, hostname);
    if dpu.None? {
      return false, false;
    }
    forall e | e in fleet.dpus && e.name == hostname ensures e == dpu.value {
      OnlyDPU(fleet, dpu.value, e);
    }
    var phase := dpu.value.phase;
    assert dpu.value == Dpu(hostname, phase);
    if bootstrap {
      return false, phase == DPUClusterConfig;
    }
    if phase != DPUClusterConfig && phase != Ready && phase != NodeEffectRemoval {
      return false, false;
    }
    failed := *;
    if failed {
      return true, false;
    }
    valid := NodeExists(fleet.nodes, hostname);
    return false, valid;
  }

  // ----- The approver -----

  predicate IsBootstrap(csr: Csr) {
    csr.signer == SIGNER_BOOTSTRAP
  }

  predicate IsServing(csr: Csr) {
    csr.signer == SIGNER_SERVING
  }

  predicate IsOther(csr: Csr) {
    !IsBootstrap(csr) && !IsServing(csr)
  }

  lemma SignersDiffer(csr: Csr)
    ensures !(IsBootstrap(csr) && IsServing(csr))
  {
    assert |SIGNER_BOOTSTRAP| != |SIGNER_SERVING|;
  }

  /** Some of the requests, in their order. */
  function Select(csrs: seq<Csr>, keep: Csr -> bool): seq<Csr> {
    if csrs == [] then []
    else
      var init, last := csrs[..|csrs| - 1], csrs[|csrs| - 1];
      Select(init, keep) + if keep(last) then [last] else []
  }

  lemma {:induction false} SelectAppend(csrs: seq<Csr>, c: Csr, keep: Csr -> bool)
    ensures Select(csrs + [c], keep) == Select(csrs, keep) + if keep(c) then [c] else []
  {
    assert (csrs + [c])[..|csrs|] == csrs;
  }

  lemma {:induction false} SelectMember(csrs: seq<Csr>, keep: Csr -> bool, c: Csr)
    ensures c in Select(csrs, keep) <==> c in csrs && keep(c)
  {
    if csrs != [] {
      var init, last := csrs[..|csrs| - 1], csrs[|csrs| - 1];
      assert csrs == init + [last];
      SelectMember(init, keep, c);
    }
  }

  lemma {:induction false} SelectDistinct(csrs: seq<Csr>, keep: Csr -> bool)
    requires Distinct(csrs)
    ensures Distinct(Select(csrs, keep))
  {
    if csrs != [] {
      var init, last := csrs[..|csrs| - 1], csrs[|csrs| - 1];
      SelectDistinct(init, keep);
      forall c | c in Select(init, keep) ensures c.name != last.name {
        SelectMember(init, keep, c);
      }
    }
  }

  /** The three kinds of signers divide the requests. */
  lemma {:induction false} SignersPartition(csrs: seq<Csr>)
    ensures multiset(Select(csrs, IsBootstrap)) + multiset(Select(csrs, IsServing)) + multiset(Select(csrs, IsOther))
         == multiset(csrs)
  {
    if csrs != [] {
      var init, last := csrs[..|csrs| - 1], csrs[|csrs| - 1];
      assert csrs == init + [last];
      SignersPartition(init);
      SignersDiffer(last);
    }
  }

  /** Every pending request lands in exactly one list, and every list keeps the order. */
  method SplitBySigner(pending: seq<Csr>) returns (bootstrap: seq<Csr>, serving: seq<Csr>, other: seq<Csr>)
    ensures multiset(bootstrap) + multiset(serving) + multiset(other) == multiset(pending)
    ensures bootstrap == Select(pending, IsBootstrap)
    ensures serving == Select(pending, IsServing)
    ensures other == Select(pending, IsOther)
  {
    bootstrap, serving, other := [], [], [];
    for i := 0 to |pending|
      invariant bootstrap == Select(pending[..i], IsBootstrap)
      invariant serving == Select(pending[..i], IsServing)
      invariant other == Select(pending[..i], IsOther)
    {
      var csr := pending[i];
      assert pending[..i + 1] == pending[..i] + [csr];
      SelectAppend(pending[..i], csr, IsBootstrap);
      SelectAppend(pending[..i], csr, IsServing);
      SelectAppend(pending[..i], csr, IsOther);
      SignersDiffer(csr);
      if csr.signer == SIGNER_BOOTSTRAP {
        bootstrap := bootstrap + [csr];
      } else if csr.signer == SIGNER_SERVING {
        serving := serving + [csr];
      } else {
        other := other + [csr];
      }
    }
    assert pending[..|pending|] == pending;
    SignersPartition(pending);
  }

  /** Every pending request of a known signer is in one of the lists. */
  ghost predicate Covered(csrs: Store, bootstrap: seq<Csr>, serving: seq<Csr>) {
    forall n :: n in csrs && Pending(csrs[n]) ==>
      && csrs[n].name == n
      && (csrs[n].signer == SIGNER_BOOTSTRAP ==> csrs[n] in bootstrap)
      && (csrs[n].signer == SIGNER_SERVING ==> csrs[n] in serving)
  }

  method FilterPending(all: seq<Csr>) returns (pending: seq<Csr>)
    requires Distinct(all)
    ensures Distinct(pending)
    ensures forall c :: c in pending <==> c in all && Pending(c)
  {
    pending := [];
    for i := 0 to |all|
      invariant Distinct(pending)
      invariant forall c :: c in pending <==> c in all[..i] && Pending(c)
    {
      var p := IsPending(all[i]);
      if p {
        forall c | c in pending ensures c.name != all[i].name {
          var k :| 0 <= k < i && all[..i][k] == c;
          assert all[k].name != all[i].name;
        }
        pending := pending + [all[i]];
      }
    }
    assert all[..|all|] == all;
  }

  /** The names of the requests that deserve approval. */
  ghost function Good(csrs: Store, fleet: Fleet): set<string> {
    set n | n in csrs && Approvable(csrs[n], fleet)
  }

  lemma PollIs(start: Store, now: Store, fleet: Fleet)
    requires Progress(start, now, Good(start, fleet))
    requires forall n :: n in start && Approvable(start[n], fleet) ==> n in now && now[n] == Approve(start[n])
    ensures now == Poll(start, fleet)
  {
  }

  lemma PollDone(start: Store, now: Store, fleet: Fleet, bootstrap: seq<Csr>, serving: seq<Csr>)
    requires Progress(start, now, Good(start, fleet)) && Covered(start, bootstrap, serving)
    requires forall k :: 0 <= k < |bootstrap| ==> Settled(bootstrap[k], now, Good(start, fleet))
    requires forall k :: 0 <= k < |serving| ==> Settled(serving[k], now, Good(start, fleet))
    ensures now == Poll(start, fleet)
  {
    forall n | n in start && Approvable(start[n], fleet) ensures n in now && now[n] == Approve(start[n]) {
      assert start[n] in bootstrap || start[n] in serving;
      assert n in Good(start, fleet);
    }
    PollIs(start, now, fleet);
  }

  ghost predicate Stored(csr: Csr, csrs: Store) {
    csr.name in csrs && csrs[csr.name] == csr
  }

  /** If the request deserves approval it has it. */
  ghost predicate Settled(csr: Csr, csrs: Store, good: set<string>) {
    csr.name in good ==> csr.name in csrs && csrs[csr.name] == Approve(csr)
  }

  ghost function Names(list: seq<Csr>): set<string> {
    set c | c in list :: c.name
  }

  ghost predicate Distinct(list: seq<Csr>) {
    forall i, j :: 0 <= i < j < |list| ==> list[i].name != list[j].name
  }

  /** Since `start` nothing has happened but approvals of requests named in `good`. */
  ghost predicate Progress(start: Store, now: Store, good: set<string>) {
    && now.Keys == start.Keys
    && forall n :: n in start ==> now[n] == start[n] || (n in good && now[n] == Approve(start[n]))
  }

  /** Processing one request of the list disturbs none of the others. */
  lemma OneProcessed(start: Store, before: Store, after: Store, list: seq<Csr>, i: nat, good: set<string>)
    requires Distinct(list) && i < |list| && Stored(list[i], start) && Progress(start, before, good)
    requires after == before || (list[i].name in good && after == before[list[i].name := Approve(list[i])])
    ensures Progress(start, after, good)
    ensures forall k :: 0 <= k < |list| && k != i && Stored(list[k], before) ==> Stored(list[k], after)
    ensures forall k :: 0 <= k < |list| && k != i && Settled(list[k], before, good) ==> Settled(list[k], after, good)
  {
  }

  class Approver {
    var csrs: Store

    /** Any call to an API server may fail.  `clean` tells that none did. */
    method ProcessCSR(csr: Csr, fleet: Fleet) returns (clean: bool)
      requires fleet.Valid() && csr.name in csrs && csrs[csr.name] == csr && Pending(csr)
      modifies this
      ensures csrs == old(csrs) || (Approvable(csr, fleet) && csrs == old(csrs)[csr.name := Approve(csr)])
      ensures clean && Approvable(csr, fleet) ==> csrs == old(csrs)[csr.name := Approve(csr)]
    {
      forall h | Meets(csr, h, fleet) ensures ExtractHostname(csr) == Some(h) {
        ExtractionAgrees(csr, h, fleet);
      }
      var extracted := ExtractHostname(csr);
      if extracted.None? {
        return true;
      }
      var hostname := extracted.value;
      var valid: bool;
      if csr.signer == SIGNER_BOOTSTRAP {
        valid := ValidateBootstrapCSR(csr, hostname);
      } else {
        valid := ValidateServingCSR(csr, hostname);
      }
      if !valid {
        return true;
      }
      var failed: bool;
      failed, valid := ValidateCSROwner(fleet, hostname, csr.signer == SIGNER_BOOTSTRAP);
      if failed {
        return false;
      }
      if !valid {
        return true;
      }
      assert Meets(csr, hostname, fleet);
      clean := ApproveCSR(csr);
    }

    /** A failed update may or may not have reached the server. */
    method ApproveCSR(csr: Csr) returns (clean: bool)
      modifies this
      ensures csrs == old(csrs) || csrs == old(csrs)[csr.name := Approve(csr)]
      ensures clean ==> csrs == old(csrs)[csr.name := Approve(csr)]
    {
      clean := *;
      var reached := *;
      if clean || reached {
        csrs := csrs[csr.name := csr.(conditions := csr.conditions + [Approved])];
      }
    }

    /** Lists the requests, in any order. */
    method List() returns (r: seq<Csr>)
      requires Keyed(csrs)
      ensures Distinct(r)
      ensures forall c :: c in r <==> c.name in csrs && csrs[c.name] == c
    {
      r := [];
      var todo := csrs.Keys;
      while todo != {}
        invariant todo <= csrs.Keys && Distinct(r)
        invariant forall c :: c in r <==> c.name in csrs && c.name !in todo && csrs[c.name] == c
        decreases todo
      {
        var n :| n in todo;
        todo := todo - {n};
        r := r + [csrs[n]];
      }
    }

    /** Leaves the requests named in `others` alone. */
    method ProcessAll(list: seq<Csr>, fleet: Fleet, ghost start: Store, ghost others: set<string>)
      returns (clean: bool)
      requires fleet.Valid() && Distinct(list) && Progress(start, csrs, Good(start, fleet))
      requires forall k :: 0 <= k < |list| ==> Stored(list[k], start) && Stored(list[k], csrs) && Pending(list[k])
      requires forall k :: 0 <= k < |list| ==> list[k].name !in others
      modifies this
      ensures Progress(start, csrs, Good(start, fleet))
      ensures forall n :: n in others && n in csrs ==> n in old(csrs) && csrs[n] == old(csrs)[n]
      ensures clean ==> forall k :: 0 <= k < |list| ==> Settled(list[k], csrs, Good(start, fleet))
    {
      clean := true;
      ghost var good := Good(start, fleet);
      for i := 0 to |list|
        invariant Progress(start, csrs, good)
        invariant forall k :: i <= k < |list| ==> Stored(list[k], csrs)
        invariant forall n :: n in others && n in csrs ==> n in old(csrs) && csrs[n] == old(csrs)[n]
        invariant clean ==> forall k :: 0 <= k < i ==> Settled(list[k], csrs, good)
      {
        ghost var before := csrs;
        var fine := ProcessKnown(list[i], fleet, start, good);
        OneProcessed(start, before, csrs, list, i, good);
        clean := clean && fine;
      }
    }

    method ProcessKnown(csr: Csr, fleet: Fleet, ghost start: Store, ghost good: set<string>) returns (clean: bool)
      requires fleet.Valid() && Stored(csr, csrs) && Stored(csr, start) && Pending(csr) && good == Good(start, fleet)
      modifies this
      ensures csrs == old(csrs) || (csr.name in good && csrs == old(csrs)[csr.name := Approve(csr)])
      ensures clean ==> Settled(csr, csrs, good)
    {
      clean := ProcessCSR(csr, fleet);
    }

    /** The pending requests of the two signers the operator serves. */
    method PendingBySigner() returns (bootstrap: seq<Csr>, serving: seq<Csr>)
      requires Keyed(csrs)
      ensures Distinct(bootstrap) && forall k :: 0 <= k < |bootstrap| ==> Stored(bootstrap[k], csrs) && Pending(bootstrap[k])
      ensures Distinct(serving) && forall k :: 0 <= k < |serving| ==> Stored(serving[k], csrs) && Pending(serving[k])
      ensures Names(bootstrap) !! Names(serving)
      ensures Covered(csrs, bootstrap, serving)
    {
      var all := List();
      var pending := FilterPending(all);
      var other;
      bootstrap, serving, other := SplitBySigner(pending);
      SelectDistinct(pending, IsBootstrap);
      SelectDistinct(pending, IsServing);
      forall c ensures (c in bootstrap <==> c in pending && IsBootstrap(c)) && (c in serving <==> c in pending && IsServing(c)) {
        SelectMember(pending, IsBootstrap, c);
        SelectMember(pending, IsServing, c);
        SignersDiffer(c);
      }
    }

    /** One poll.  Whatever fails, only approvable requests are approved; when nothing fails, all
        of them are, and every other request is as it was. */
    method ProcessPendingCSRs(fleet: Fleet) returns (clean: bool)
      requires Keyed(csrs) && fleet.Valid()
      modifies this
      ensures Keyed(csrs) && Progress(old(csrs), csrs, Good(old(csrs), fleet))
      ensures clean ==> csrs == Poll(old(csrs), fleet)
    {
      var listed := *;
      if !listed {
        return false;
      }
      var bootstrap, serving := PendingBySigner();
      var first := ProcessAll(bootstrap, fleet, old(csrs), Names(serving));
      var second := ProcessAll(serving, fleet, old(csrs), Names(bootstrap));
      clean := first && second;
      if clean {
        PollDone(old(csrs), csrs, fleet, bootstrap, serving);
      }
    }
  }
}
