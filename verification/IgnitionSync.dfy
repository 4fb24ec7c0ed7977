/** Ignition is published only when HyperShift has caught up with the current credentials.

    A generation reads one object after the other while the cluster moves on, so the cluster is a
    function of time and every statement says at which moments its parts were read. */
module IgnitionSync {
  import opened Text
  import opened ApiServer
  import SecretCopies

  const DOCKER_CONFIG: string := ".dockerconfigjson"
  const PUBLIC_KEY: string := "id_rsa.pub"
  const TOKEN_PREFIX: string := "token-"

  // ----- Keys -----

  predicate IsSpace(c: char) {
    || c == ' ' || '\t' <= c <= '\r' || c == '\U{0085}' || c == '\U{00A0}' || c == '\U{1680}'
    || '\U{2000}' <= c <= '\U{200A}' || c == '\U{2028}' || c == '\U{2029}' || c == '\U{202F}'
    || c == '\U{205F}' || c == '\U{3000}'
  }

  function TrimLeft(s: string): string {
    if s != [] && IsSpace(s[0]) then TrimLeft(s[1..]) else s
  }

  function TrimRight(s: string): string {
    if s != [] && IsSpace(s[|s| - 1]) then TrimRight(s[..|s| - 1]) else s
  }

  function TrimSpace(s: string): string {
    TrimRight(TrimLeft(s))
  }

  predicate AllSpace(s: string) {
    forall i :: 0 <= i < |s| ==> IsSpace(s[i])
  }

  lemma {:induction false} TrimLeftIs(s: string) returns (before: string)
    ensures s == before + TrimLeft(s) && AllSpace(before)
    ensures TrimLeft(s) != [] ==> !IsSpace(TrimLeft(s)[0])
  {
    before := [];
    if s != [] && IsSpace(s[0]) {
      var rest := TrimLeftIs(s[1..]);
      before := [s[0]] + rest;
    }
  }

  lemma {:induction false} TrimRightIs(s: string) returns (after: string)
    ensures s == TrimRight(s) + after && AllSpace(after)
    ensures TrimRight(s) != [] ==> !IsSpace(TrimRight(s)[|TrimRight(s)| - 1])
  {
    after := [];
    if s != [] && IsSpace(s[|s| - 1]) {
      var rest := TrimRightIs(s[..|s| - 1]);
      after := rest + [s[|s| - 1]];
    }
  }

  /** Exactly the white space around the text goes. */
  lemma TrimSpaceIs(s: string) returns (before: string, after: string)
    ensures s == before + TrimSpace(s) + after && AllSpace(before) && AllSpace(after)
    ensures TrimSpace(s) != [] ==> !IsSpace(TrimSpace(s)[0]) && !IsSpace(TrimSpace(s)[|TrimSpace(s)| - 1])
  {
    before := TrimLeftIs(s);
    after := TrimRightIs(TrimLeft(s));
    if TrimSpace(s) != [] {
      assert TrimLeft(s)[0] == TrimSpace(s)[0];
    }
  }

  datatype User = User(keys: seq<string>)

  datatype Passwd = Passwd(users: seq<User>, groups: seq<string>)

  /** Some user may log in with the key, up to surrounding white space. */
  ghost predicate Carries(p: Passwd, key: string) {
    exists i, j :: 0 <= i < |p.users| && 0 <= j < |p.users[i].keys| && TrimSpace(p.users[i].keys[j]) == TrimSpace(key)
  }

  method UserHasKey(user: User, expected: string) returns (r: bool)
    ensures r <==> exists j :: 0 <= j < |user.keys| && TrimSpace(user.keys[j]) == expected
  {
    for j := 0 to |user.keys|
      invariant forall k :: 0 <= k < j ==> TrimSpace(user.keys[k]) != expected
    {
      if TrimSpace(user.keys[j]) == expected {
        return true;
      }
    }
    return false;
  }

  method IgnitionContainsSSHKey(p: Passwd, key: string) returns (r: bool)
    ensures r <==> Carries(p, key)
  {
    var expected := TrimSpace(key);
    for i := 0 to |p.users|
      invariant forall k, j :: 0 <= k < i && 0 <= j < |p.users[k].keys| ==> TrimSpace(p.users[k].keys[j]) != expected
    {
      r := UserHasKey(p.users[i], expected);
      if r {
        return;
      }
    }
    return false;
  }

  // ----- The cluster -----

  /** A token secret of the control plane namespace. */
  datatype TokenSecret = TokenSecret(token: Option<string>, pullSecretHash: string)

  /** What the ignition server answers to a token.  A body that is not ignition has no `passwd`. */
  datatype Response = Unreachable | Rejected | Truncated | Body(passwd: Option<Passwd>)

  datatype Reason = Generated | CredentialSyncPending | GenerationFailed

  /** `nodePool` is the current config version noted on the NodePool, "" if there is none;
      `legacyTokens` are the tokens found by name prefix, newest first. */
  datatype Cluster = Cluster(
    hc: Option<SecretCopies.HostedCluster>,
    endpoint: bool,
    caCert: bool,
    secrets: SecretCopies.Store,
    nodePool: Option<string>,
    tokens: map<string, TokenSecret>,
    legacyTokens: seq<string>)

  /** The cluster at every moment, and the ignition server at every moment. */
  datatype Outside = Outside(at: nat -> Cluster, server: (nat, string) -> Response, hash: string -> string)

  /** The resource in memory: its secret references and the HostedCluster it refers to. */
  datatype Job = Job(cr: SecretCopies.Request, ref: Option<string>) {
    function Pull(): string {
      SecretCopies.PullName(cr)
    }

    function Ssh(): string {
      SecretCopies.SshName(cr)
    }

    /** Credentials are checked as soon as one reference is set. */
    predicate Strict() {
      cr.pullRef != "" || cr.sshRef != ""
    }
  }

  predicate HasData(c: Cluster, secret: string, field: string) {
    secret in c.secrets && field in c.secrets[secret].data
  }

  // ----- In sync -----

  /** When each part was read. */
  datatype Moments = Moments(hc: nat, pull: nat, pool: nat, token: nat, ssh: nat) {
    predicate Within(first: nat, last: nat) {
      first <= hc <= pull <= pool <= token <= ssh <= last
    }
  }

  function AllAt(t: nat): Moments {
    Moments(t, t, t, t, t)
  }

  predicate NamesCopies(job: Job, c: Cluster) {
    c.hc.Some? && c.hc.value.pullSecret == job.Pull() && c.hc.value.sshKey == job.Ssh()
  }

  function TokenName(ref: string, version: string): string {
    TOKEN_PREFIX + ref + "-" + version
  }

  lemma TokenNameIs(ref: string, version: string)
    ensures TokenName(ref, version) == "token-" + ref + "-" + version
  {
  }

  predicate Versioned(c: Cluster) {
    c.nodePool.Some? && c.nodePool.value != ""
  }

  /** The token of a config version exists and was made from this pull secret. */
  predicate TokenFor(c: Cluster, name: string, pullData: string, hash: string -> string) {
    name in c.tokens && c.tokens[name].token.Some? && c.tokens[name].pullSecretHash == hash(pullData)
  }

  predicate KeyUsable(job: Job, c: Cluster) {
    HasData(c, job.Ssh(), PUBLIC_KEY) && TrimSpace(c.secrets[job.Ssh()].data[PUBLIC_KEY]) != ""
  }

  /** The HostedCluster named the copies, and the token of the version the NodePool had then
      belonged to the pull secret as read, each at its moment. */
  predicate InSync(job: Job, outside: Outside, m: Moments) {
    && job.ref.Some? && job.cr.pullRef != "" && job.cr.sshRef != ""
    && NamesCopies(job, outside.at(m.hc))
    && HasData(outside.at(m.pull), job.Pull(), DOCKER_CONFIG)
    && Versioned(outside.at(m.pool))
    && TokenFor(outside.at(m.token), TokenName(job.ref.value, outside.at(m.pool).nodePool.value),
                outside.at(m.pull).secrets[job.Pull()].data[DOCKER_CONFIG], outside.hash)
    && KeyUsable(job, outside.at(m.ssh))
  }

  /** HyperShift has not caught up at moment `t`; what is there but unusable is a failure instead. */
  predicate Behind(job: Job, outside: Outside, t: nat) {
    var c := outside.at(t);
    || job.ref.None? || job.cr.pullRef == "" || job.cr.sshRef == ""
    || !NamesCopies(job, c)
    || job.Pull() !in c.secrets
    || (&& DOCKER_CONFIG in c.secrets[job.Pull()].data
        && (|| !Versioned(c)
            || !TokenFor(c, TokenName(job.ref.value, c.nodePool.value), c.secrets[job.Pull()].data[DOCKER_CONFIG], outside.hash)
            || job.Ssh() !in c.secrets))
  }

  /** The server does not serve the current key yet. */
  ghost predicate NotServing(job: Job, outside: Outside, t: nat) {
    && InSync(job, outside, AllAt(t)) && outside.at(t).endpoint
    && match outside.server(t, CurrentToken(job, outside, AllAt(t)))
       case Unreachable => true
       case Rejected => true
       case Truncated => false
       case Body(passwd) => passwd.Some? && !Carries(passwd.value, CurrentKey(job, outside.at(t)))
  }

  function CurrentToken(job: Job, outside: Outside, m: Moments): string
    requires InSync(job, outside, m)
  {
    outside.at(m.token).tokens[TokenName(job.ref.value, outside.at(m.pool).nodePool.value)].token.value
  }

  function CurrentKey(job: Job, c: Cluster): string
    requires KeyUsable(job, c)
  {
    c.secrets[job.Ssh()].data[PUBLIC_KEY]
  }

  /** At moment `t` the server served the key as read to the token as read. */
  ghost predicate Served(job: Job, outside: Outside, m: Moments, t: nat, passwd: Passwd) {
    && InSync(job, outside, m) && m.ssh <= t
    && outside.server(t, CurrentToken(job, outside, m)) == Body(Some(passwd))
    && Carries(passwd, CurrentKey(job, outside.at(m.ssh)))
  }

  /** At moment `t` the server accepted one of the tokens listed at moment `l`. */
  ghost predicate ServedLegacy(outside: Outside, l: nat, t: nat, passwd: Passwd) {
    var tokens := outside.at(l).legacyTokens;
    exists i :: 0 <= i < |tokens| && outside.server(t, tokens[i]) == Body(Some(passwd))
  }

  /** Everything is there at one moment. */
  ghost predicate Servable(job: Job, outside: Outside, t: nat) {
    outside.at(t).caCert && outside.at(t).endpoint && exists p :: Served(job, outside, AllAt(t), t, p)
  }

  /** Users are taken over from the payload, unless it has neither users nor groups. */
  function LivePasswd(p: Passwd): Passwd {
    if |p.users| > 0 || |p.groups| > 0 then p else Passwd([], [])
  }

  /** The empty payload is no exception: nothing is lost in either case. */
  lemma LiveKeepsAll(p: Passwd)
    ensures LivePasswd(p) == p
  {
  }

  lemma LiveKeepsKeys(p: Passwd, key: string)
    ensures Carries(LivePasswd(p), key) <==> Carries(p, key)
  {
  }

  // ----- The program -----

  datatype Attempt<T> = Got(value: T) | Pending | Failed

  /** Rejected tokens are passed over, and the first other answer decides. */
  ghost predicate FirstAcceptedWins(tokens: seq<string>, outside: Outside, t: nat, r: Attempt<Passwd>) {
    forall i :: 0 <= i < |tokens| && !outside.server(t, tokens[i]).Rejected?
                && (forall j :: 0 <= j < i ==> outside.server(t, tokens[j]).Rejected?) ==>
      var answer := outside.server(t, tokens[i]);
      r == if answer.Body? && answer.passwd.Some? then Got(answer.passwd.value) else Failed
  }

  class Generator {
    const outside: Outside
    var now: nat
    var published: Option<Passwd>
    var condition: Option<Reason>

    constructor (outside: Outside, published: Option<Passwd>, condition: Option<Reason>)
      ensures this.outside == outside && this.published == published && this.condition == condition
    {
      this.outside, this.now, this.published, this.condition := outside, 0, published, condition;
    }

    /** A read: time passes, and the call may fail. */
    method Get(calm: bool) returns (failed: bool, c: Cluster)
      modifies `now
      ensures now >= old(now) && c == outside.at(now)
      ensures calm ==> now == old(now) && !failed
    {
      var later: int := *;
      if !calm && later > now {
        now := later;
      }
      failed := Fails(calm);
      c := outside.at(now);
    }

    method Synchronized(job: Job, calm: bool) returns (r: Attempt<(string, string)>, ghost m: Moments)
      modifies `now
      ensures now >= old(now) && (calm ==> now == old(now))
      ensures r.Got? ==> m.Within(old(now), now) && InSync(job, outside, m)
                         && r.value == (CurrentToken(job, outside, m), CurrentKey(job, outside.at(m.ssh)))
      ensures calm ==> (r.Got? <==> InSync(job, outside, AllAt(now))) && (r.Pending? <==> Behind(job, outside, now))
    {
      m := AllAt(now);
      if job.ref.None? || job.cr.pullRef == "" || job.cr.sshRef == "" {
        return Pending, m;
      }
      var failed, c := Get(calm);
      m := m.(hc := now);
      if failed {
        return Failed, m;
      }
      if c.hc.None? || c.hc.value.pullSecret != job.Pull() || c.hc.value.sshKey != job.Ssh() {
        return Pending, m;
      }
      var pull, ssh := c.hc.value.pullSecret, c.hc.value.sshKey;
      failed, c := Get(calm);
      m := m.(pull := now);
      if failed {
        return Failed, m;
      }
      if pull !in c.secrets {
        return Pending, m;
      }
      if DOCKER_CONFIG !in c.secrets[pull].data {
        return Failed, m;
      }
      var token: Attempt<string>;
      token, m := CurrentTokenFor(job, c.secrets[pull].data[DOCKER_CONFIG], calm, m);
      if !token.Got? {
        return if token.Pending? then Pending else Failed, m;
      }
      failed, c := Get(calm);
      m := m.(ssh := now);
      if failed {
        return Failed, m;
      }
      if ssh !in c.secrets {
        return Pending, m;
      }
      if PUBLIC_KEY !in c.secrets[ssh].data || TrimSpace(c.secrets[ssh].data[PUBLIC_KEY]) == "" {
        return Failed, m;
      }
      return Got((token.value, c.secrets[ssh].data[PUBLIC_KEY])), m;
    }

    /** The token of the NodePool's config version, if it belongs to the pull secret. */
    method CurrentTokenFor(job: Job, pullData: string, calm: bool, ghost before: Moments)
      returns (r: Attempt<string>, ghost m: Moments)
      requires job.ref.Some?
      modifies `now
      ensures now >= old(now) && (calm ==> now == old(now))
      ensures m == before.(pool := m.pool, token := m.token) && old(now) <= m.pool <= m.token <= now
      ensures r.Got? ==>
        && Versioned(outside.at(m.pool))
        && var name := TokenName(job.ref.value, outside.at(m.pool).nodePool.value);
           TokenFor(outside.at(m.token), name, pullData, outside.hash) && r == Got(outside.at(m.token).tokens[name].token.value)
      ensures calm ==>
        (r.Got? <==> Versioned(outside.at(now))
                     && TokenFor(outside.at(now), TokenName(job.ref.value, outside.at(now).nodePool.value), pullData, outside.hash))
      ensures calm ==> !r.Failed?
    {
      var expected := outside.hash(pullData);
      var failed, c := Get(calm);
      m := before.(pool := now, token := now);
      if failed {
        return Failed, m;
      }
      if c.nodePool.None? || c.nodePool.value == "" {
        return Pending, m;
      }
      var name := TOKEN_PREFIX + job.ref.value + "-" + c.nodePool.value;
      failed, c := Get(calm);
      m := m.(token := now);
      if failed {
        return Failed, m;
      }
      if name !in c.tokens || c.tokens[name].token.None? || c.tokens[name].pullSecretHash != expected {
        return Pending, m;
      }
      return Got(c.tokens[name].token.value), m;
    }

    method Download(job: Job, calm: bool) returns (r: Attempt<Passwd>, ghost m: Moments, ghost t: nat)
      modifies `now
      ensures now >= old(now) && (calm ==> now == old(now))
      ensures r.Got? ==> m.Within(old(now), t) && t <= now
      ensures r.Got? && job.Strict() ==> Served(job, outside, m, t, r.value)
      ensures r.Got? && !job.Strict() ==> ServedLegacy(outside, m.token, t, r.value)
      ensures calm && job.Strict() ==> (r.Got? <==> Servable(job, outside, now))
      ensures calm && job.Strict() ==>
        (r.Pending? <==> outside.at(now).caCert && (Behind(job, outside, now) || NotServing(job, outside, now)))
      ensures calm && !job.Strict() && outside.at(now).caCert && outside.at(now).endpoint ==>
        FirstAcceptedWins(outside.at(now).legacyTokens, outside, now, r)
    {
      var failed, c := Get(calm);
      m, t := AllAt(now), now;
      if failed || !c.caCert {
        return Failed, m, t;
      }
      if job.cr.pullRef != "" || job.cr.sshRef != "" {
        r, m, t := DownloadStrict(job, calm);
      } else {
        r, m, t := DownloadLegacy(calm);
      }
    }

    /** With references, only the current token is tried and the answer must carry the current key. */
    method DownloadStrict(job: Job, calm: bool) returns (r: Attempt<Passwd>, ghost m: Moments, ghost t: nat)
      modifies `now
      ensures now >= old(now) && (calm ==> now == old(now))
      ensures r.Got? ==> m.Within(old(now), t) && t <= now && Served(job, outside, m, t, r.value)
      ensures calm ==> (r.Got? <==> outside.at(now).endpoint && exists p :: Served(job, outside, AllAt(now), now, p))
      ensures calm ==> (r.Pending? <==> Behind(job, outside, now) || NotServing(job, outside, now))
    {
      t := now;
      var sync;
      sync, m := Synchronized(job, calm);
      if !sync.Got? {
        return if sync.Pending? then Pending else Failed, m, t;
      }
      var failed, c := Get(calm);
      if failed || !c.endpoint {
        return Failed, m, t;
      }
      t := now;
      r := TryTokens([sync.value.0], sync.value.1, true);
      assert calm ==> m == AllAt(now);
      assert r.Got? ==> Served(job, outside, m, now, r.value);
    }

    /** Without references, tokens are tried until one is accepted. */
    method DownloadLegacy(calm: bool) returns (r: Attempt<Passwd>, ghost m: Moments, ghost t: nat)
      modifies `now
      ensures now >= old(now) && (calm ==> now == old(now))
      ensures r.Got? ==> m.Within(old(now), t) && t <= now && ServedLegacy(outside, m.token, t, r.value)
      ensures calm && outside.at(now).endpoint ==> FirstAcceptedWins(outside.at(now).legacyTokens, outside, now, r)
    {
      var failed, c := Get(calm);
      m, t := AllAt(now), now;
      if failed {
        return Failed, m, t;
      }
      var tokens := c.legacyTokens;
      failed, c := Get(calm);
      if failed || !c.endpoint {
        return Failed, m, t;
      }
      t := now;
      r := TryTokens(tokens, "", false);
    }

    /** The requests go out at the present moment. */
    method TryTokens(tokens: seq<string>, key: string, strict: bool) returns (r: Attempt<Passwd>)
      ensures r.Got? ==> exists i :: 0 <= i < |tokens| && outside.server(now, tokens[i]) == Body(Some(r.value))
      ensures r.Got? && strict ==> Carries(r.value, key)
      ensures strict && |tokens| == 1 ==>
        forall p :: outside.server(now, tokens[0]) == Body(Some(p)) && Carries(p, key) ==> r == Got(p)
      ensures strict && |tokens| == 1 ==>
        (r.Pending? <==> var answer := outside.server(now, tokens[0]);
           answer.Unreachable? || answer.Rejected? || (answer.Body? && answer.passwd.Some? && !Carries(answer.passwd.value, key)))
      ensures !strict ==> FirstAcceptedWins(tokens, outside, now, r)
    {
      for i := 0 to |tokens|
        invariant strict ==> i == 0
        invariant forall j :: 0 <= j < i ==> outside.server(now, tokens[j]).Rejected?
      {
        var answer := outside.server(now, tokens[i]);
        match answer {
          case Unreachable => return if strict then Pending else Failed;
          case Truncated => return Failed;
          case Rejected =>
            if strict {
              return Pending;
            }
          case Body(passwd) =>
            if passwd.None? {
              return Failed;
            }
            if strict {
              var carries := IgnitionContainsSSHKey(passwd.value, key);
              if !carries {
                return Pending;
              }
            }
            return Got(passwd.value);
        }
      }
      return Failed;
    }

    /** The ConfigMap is written only with what a synchronized server served during this generation,
        `m` and `t` telling when; `buildable` tells that the remaining inputs are there. */
    method GenerateIgnition(job: Job, buildable: bool, calm: bool) returns (done: bool, ghost m: Moments, ghost t: nat)
      modifies `now, `published, `condition
      ensures done ==> published.Some? && condition == Some(Generated)
      ensures job.Strict() && (done || published != old(published) || (condition == Some(Generated) && condition != old(condition))) ==>
        && m.Within(old(now), t) && t <= now
        && (exists p :: Served(job, outside, m, t, p) && published == Some(LivePasswd(p)))
        && Carries(published.value, CurrentKey(job, outside.at(m.ssh)))
      ensures calm ==> now == old(now)
      ensures calm && job.Strict() ==> (done <==> buildable && Servable(job, outside, now))
      ensures calm && !done ==> published == old(published)
                                && (condition == Some(CredentialSyncPending) || condition == Some(GenerationFailed))
      ensures calm && job.Strict() ==>
        (condition == Some(CredentialSyncPending) <==>
           outside.at(now).caCert && (Behind(job, outside, now) || NotServing(job, outside, now)))
    {
      var payload;
      payload, m, t := Download(job, calm);
      var reason := if payload.Pending? then CredentialSyncPending else GenerationFailed;
      if payload.Got? {
        var failed := Fails(calm);
        if !failed && buildable {
          if job.Strict() {
            LiveKeepsKeys(payload.value, CurrentKey(job, outside.at(m.ssh)));
          }
          failed := Fails(calm);
          var reached := *;
          if !failed || reached {
            published := Some(LivePasswd(payload.value));
          }
          if !failed {
            done := SetCondition(Generated, calm);
            return;
          }
        }
      }
      var _ := SetCondition(reason, calm);
      done := false;
    }

    method SetCondition(reason: Reason, calm: bool) returns (ok: bool)
      modifies `condition
      ensures condition == old(condition) || condition == Some(reason)
      ensures ok ==> condition == Some(reason)
      ensures calm ==> ok
    {
      var failed := Fails(calm);
      var reached := *;
      if !failed || reached {
        condition := Some(reason);
      }
      ok := !failed;
    }
  }
}
