/** The OVN DPUServiceTemplate: its image, its daemonset version and the note of the image they
    were derived from change together or not at all. */
module OvnTemplate {
  import opened Text
  import opened ApiServer

  // ----- Versions -----

  datatype Version = Version(major: nat, minor: nat, patch: nat) {
    predicate AtMost(v: Version) {
      || major < v.major
      || (major == v.major && minor < v.minor)
      || (major == v.major && minor == v.minor && patch <= v.patch)
    }
  }

  /** Versions are compared part by part: a total order in which a later part counts only among
      equals before it. */
  lemma VersionOrder(u: Version, v: Version, w: Version)
    ensures u.AtMost(u) && (u.AtMost(v) || v.AtMost(u))
    ensures u.AtMost(v) && v.AtMost(u) ==> u == v
    ensures u.AtMost(v) && v.AtMost(w) ==> u.AtMost(w)
    ensures u.major < v.major ==> u.AtMost(v) && u != v
    ensures u.major == v.major && u.minor < v.minor ==> u.AtMost(v) && u != v
    ensures u.major == v.major && u.minor == v.minor && u.patch < v.patch ==> u.AtMost(v) && u != v
  {
  }

  datatype TableEntry = TableEntry(minimum: Version, daemonsetVersion: string)

  type Table = seq<TableEntry>

  const DEFAULT_VERSION: string := "1.3.0"

  const TABLE: Table := [
    TableEntry(Version(4, 22, 0), "1.2.0"),
    TableEntry(Version(4, 22, 1), "1.3.0")
  ]

  predicate Sorted(table: Table) {
    forall i, j :: 0 <= i < j < |table| ==> table[i].minimum.AtMost(table[j].minimum)
  }

  /** `r` belongs to the greatest entry at or below `v`. */
  ghost predicate Greatest(table: Table, v: Version, r: string) {
    exists i :: 0 <= i < |table| && table[i].minimum.AtMost(v) && table[i].daemonsetVersion == r
      && forall j :: 0 <= j < |table| && table[j].minimum.AtMost(v) ==> j <= i && table[j].minimum.AtMost(table[i].minimum)
  }

  function Choose(table: Table, v: Version): string {
    if table == [] then DEFAULT_VERSION
    else if table[|table| - 1].minimum.AtMost(v) then table[|table| - 1].daemonsetVersion
    else Choose(table[..|table| - 1], v)
  }

  /** What an unparsable version maps to is the default. */
  function DaemonsetVersion(table: Table, version: Option<Version>): string {
    if version.None? then DEFAULT_VERSION else Choose(table, version.value)
  }

  /** `version` is the parsed OCP version without its pre-release part. */
  method OVNKDaemonsetVersionForOCP(table: Table, version: Option<Version>) returns (r: string)
    ensures r == DaemonsetVersion(table, version)
  {
    if version.None? {
      return DEFAULT_VERSION;
    }
    r := DEFAULT_VERSION;
    for i := 0 to |table|
      invariant r == Choose(table[..i], version.value)
    {
      assert table[..i + 1][..i] == table[..i];
      if table[i].minimum.AtMost(version.value) {
        r := table[i].daemonsetVersion;
      }
    }
    assert table[..|table|] == table;
  }

  lemma {:induction false} ChooseIsGreatest(table: Table, v: Version)
    requires Sorted(table)
    ensures if exists i :: 0 <= i < |table| && table[i].minimum.AtMost(v) then Greatest(table, v, Choose(table, v))
            else Choose(table, v) == DEFAULT_VERSION
  {
    if table != [] {
      var n := |table| - 1;
      if table[n].minimum.AtMost(v) {
        assert table[n].daemonsetVersion == Choose(table, v);
      } else {
        var init := table[..n];
        ChooseIsGreatest(init, v);
        if i :| 0 <= i < |table| && table[i].minimum.AtMost(v) {
          assert init[i] == table[i];
          var k :| 0 <= k < |init| && init[k].minimum.AtMost(v) && init[k].daemonsetVersion == Choose(init, v)
            && forall j :: 0 <= j < |init| && init[j].minimum.AtMost(v) ==> j <= k && init[j].minimum.AtMost(init[k].minimum);
          GreatestExtends(table, v, k);
        }
      }
    }
  }

  lemma GreatestExtends(table: Table, v: Version, k: nat)
    requires table != [] && k < |table| - 1
    requires !table[|table| - 1].minimum.AtMost(v) && table[k].minimum.AtMost(v)
    requires var init := table[..|table| - 1];
      forall j :: 0 <= j < |init| && init[j].minimum.AtMost(v) ==> j <= k && init[j].minimum.AtMost(init[k].minimum)
    ensures Greatest(table, v, table[k].daemonsetVersion)
  {
    var init := table[..|table| - 1];
    forall j | 0 <= j < |table| && table[j].minimum.AtMost(v)
      ensures j <= k && table[j].minimum.AtMost(table[k].minimum)
    {
      assert init[j] == table[j];
    }
  }

  // ----- Image references -----

  datatype Image = Image(repo: string, tag: string)

  function LastIndex(s: string, part: string, upTo: nat): Option<nat>
    decreases upTo
  {
    if OccursAt(s, part, upTo) then Some(upTo)
    else if upTo == 0 then None
    else LastIndex(s, part, upTo - 1)
  }

  lemma {:induction false} LastIndexOccurs(s: string, part: string, upTo: nat)
    requires LastIndex(s, part, upTo).Some?
    ensures OccursAt(s, part, LastIndex(s, part, upTo).value)
    decreases upTo
  {
    if !OccursAt(s, part, upTo) {
      LastIndexOccurs(s, part, upTo - 1);
    }
  }

  function SplitImage(image: string): Option<Image> {
    var digest, colon := LastIndex(image, "@sha256:", |image|), LastIndex(image, ":", |image|);
    if digest.Some? && digest.value > 0 then
      LastIndexOccurs(image, "@sha256:", |image|);
      Some(Image(image[..digest.value] + "@sha256", image[digest.value + 8..]))
    else if colon.Some? && colon.value > 0 then
      LastIndexOccurs(image, ":", |image|);
      if Contains(image[colon.value..], "/") then None
      else Some(Image(image[..colon.value], image[colon.value + 1..]))
    else None
  }

  /** The chart joins the parts with a colon and gets the image back. */
  lemma {:induction false} SplitRejoins(image: string)
    requires SplitImage(image).Some?
    ensures SplitImage(image).value.repo + ":" + SplitImage(image).value.tag == image
  {
    var digest, colon := LastIndex(image, "@sha256:", |image|), LastIndex(image, ":", |image|);
    if digest.Some? && digest.value > 0 {
      LastIndexOccurs(image, "@sha256:", |image|);
      assert image == image[..digest.value] + image[digest.value..digest.value + 8] + image[digest.value + 8..];
      assert "@sha256" + ":" == "@sha256:";
    } else {
      LastIndexOccurs(image, ":", |image|);
      assert image == image[..colon.value] + image[colon.value..colon.value + 1] + image[colon.value + 1..];
    }
  }

  /** A port of the registry is no tag. */
  lemma {:induction false} PortIsNoTag(host: string, path: string)
    requires '/' in path && ':' !in path && LastIndex(host + ":" + path, "@sha256:", |host + ":" + path|).None?
    ensures SplitImage(host + ":" + path) == None
  {
    var image := host + ":" + path;
    LastColon(host, path, |image|);
    assert image[|host|..] == ":" + path;
    var i :| 0 <= i < |path| && path[i] == '/';
    assert OccursAt(image[|host|..], "/", i + 1);
  }

  lemma {:induction false} LastColon(host: string, path: string, upTo: nat)
    requires ':' !in path && |host| <= upTo <= |host| + 1 + |path|
    ensures LastIndex(host + ":" + path, ":", upTo) == Some(|host|)
    decreases upTo
  {
    var image := host + ":" + path;
    if upTo == |host| {
      assert image[upTo..upTo + 1] == ":";
    } else {
      if upTo < |image| {
        assert image[upTo..upTo + 1] == [path[upTo - |host| - 1]];
      }
      LastColon(host, path, upTo - 1);
    }
  }

  // ----- The cluster -----

  datatype DaemonSet = DaemonSet(
    containers: seq<(string, string)>,
    generation: int, observedGeneration: int,
    updated: int, desired: int, available: int)

  predicate RolloutComplete(ds: DaemonSet) {
    ds.observedGeneration >= ds.generation && ds.updated == ds.desired && ds.available == ds.desired
  }

  const CONTROLLER: string := "ovnkube-controller"

  /** The image of the first container with the controller's name. */
  function ControllerImage(containers: seq<(string, string)>): Option<string> {
    if containers == [] then None
    else if containers[0].0 == CONTROLLER then Some(containers[0].1)
    else ControllerImage(containers[1..])
  }

  method OvnkImageFromDaemonSet(ds: DaemonSet) returns (r: Option<string>)
    ensures r == ControllerImage(ds.containers)
  {
    for i := 0 to |ds.containers|
      invariant ControllerImage(ds.containers) == ControllerImage(ds.containers[i..])
    {
      if ds.containers[i].0 == CONTROLLER {
        return Some(ds.containers[i].1);
      }
      assert ds.containers[i..][1..] == ds.containers[i + 1..];
    }
    return None;
  }

  datatype ClusterVersion = ClusterVersion(version: string, image: string)

  /** What the program learns from outside: version parsing and the image registries. */
  datatype Registry = Registry(
    parse: string -> Option<Version>,
    multiArch: string -> bool,
    component: (string, string) -> Option<string>)

  datatype Values = Values(image: Image, daemonsetVersion: string)

  /** `values` is absent when the helm values are missing or lack an image. */
  datatype Template = Template(managed: bool, deleting: bool, source: string, values: Option<Values>, chart: string)

  // ----- Resolutions -----

  /** One reading of the DaemonSet, the ClusterVersion and the registries. */
  datatype Resolution = Resolution(source: string, cv: ClusterVersion, registry: Registry)

  function ResolvedImage(r: Resolution): Option<Image> {
    if r.registry.multiArch(r.cv.image) then SplitImage(r.source)
    else
      var image := r.registry.component(r.cv.image, r.cv.version);
      if image.None? then None else SplitImage(image.value)
  }

  function ResolvedVersion(r: Resolution): string {
    DaemonsetVersion(TABLE, r.registry.parse(r.cv.version))
  }

  /** A multi-arch release keeps the running image, another one gives the registry's, unchanged when
      the chart joins its parts. */
  lemma ResolvedImageIs(r: Resolution)
    requires ResolvedImage(r).Some?
    ensures var joined := ResolvedImage(r).value.repo + ":" + ResolvedImage(r).value.tag;
      if r.registry.multiArch(r.cv.image) then joined == r.source
      else r.registry.component(r.cv.image, r.cv.version) == Some(joined)
  {
    if r.registry.multiArch(r.cv.image) {
      SplitRejoins(r.source);
    } else {
      SplitRejoins(r.registry.component(r.cv.image, r.cv.version).value);
    }
  }

  /** The versions in use: 1.2.0 for OCP 4.22.0 alone, 1.3.0 for every other. */
  lemma ResolvedVersionIs(r: Resolution)
    ensures ResolvedVersion(r) == if r.registry.parse(r.cv.version) == Some(Version(4, 22, 0)) then "1.2.0" else "1.3.0"
  {
    if r.registry.parse(r.cv.version).Some? {
      var v := r.registry.parse(r.cv.version).value;
      assert TABLE[..1] == [TableEntry(Version(4, 22, 0), "1.2.0")];
      assert TABLE[..1][..0] == [];
      assert Choose(TABLE, v) == if Version(4, 22, 1).AtMost(v) then "1.3.0" else Choose(TABLE[..1], v);
      assert Choose(TABLE[..1], v) == if Version(4, 22, 0).AtMost(v) then "1.2.0" else DEFAULT_VERSION;
    }
  }

  /** Image, version and source note of the template are those of the one resolution `r`. */
  predicate From(t: Template, r: Resolution) {
    t.source == r.source && ResolvedImage(r).Some? && t.values == Some(Values(ResolvedImage(r).value, ResolvedVersion(r)))
  }

  /** What must stay in lockstep. */
  function Triple(t: Template): (Option<Values>, string) {
    (t.values, t.source)
  }

  datatype Outcome = Done | Skipped | Error

  /** What users may do to the template between passes: they do not edit a managed one. */
  datatype Intrusion = NoIntrusion | Deleted | Terminating | Theirs(own: Template)

  /** A pass and the cluster it finds. */
  datatype Pass = Pass(
    chart: string,
    registry: Registry,
    calm: bool,
    daemonSet: Option<DaemonSet>,
    clusterVersion: Option<ClusterVersion>,
    intrusion: Intrusion)

  predicate LeavesAlone(pass: Pass, image: Option<string>) {
    && pass.intrusion == NoIntrusion
    && pass.daemonSet.Some? && ControllerImage(pass.daemonSet.value.containers) == image
  }

  class Manager {
    var template: Option<Template>
    var daemonSet: Option<DaemonSet>
    var clusterVersion: Option<ClusterVersion>
    ghost var resolution: Option<Resolution>

    /** A managed template has all three values from the latest resolution that was written. */
    ghost predicate Lockstep()
      reads this
    {
      template.Some? && template.value.managed ==> resolution.Some? && From(template.value, resolution.value)
    }

    /** The image the DaemonSet runs. */
    function Running(): Option<string>
      reads this
    {
      if daemonSet.None? then None else ControllerImage(daemonSet.value.containers)
    }

    predicate MayWrite()
      reads this
    {
      template.None? || (template.value.managed && !template.value.deleting)
    }

    predicate Unchanged()
      reads this
    {
      template.Some? && Running() == Some(template.value.source)
    }

    /** The template is live, managed and noted as derived from the running image. */
    predicate WrittenFor(chart: string)
      reads this
    {
      && template.Some? && template.value.managed && !template.value.deleting && template.value.chart == chart
      && Running() == Some(template.value.source)
    }

    /** Everything the pass needs to read is there. */
    predicate Resolvable(registry: Registry)
      reads this
    {
      && Running().Some? && clusterVersion.Some?
      && clusterVersion.value.version != "" && clusterVersion.value.image != ""
      && (template.Some? ==>
            var ds := daemonSet.value;
            ds.observedGeneration >= ds.generation && ds.updated == ds.desired && ds.available == ds.desired)
      && (if Unchanged() then
            var values := template.value.values;
            values.Some? && values.value.image.repo != "" && values.value.image.tag != ""
          else ResolvedImage(Resolution(Running().value, clusterVersion.value, registry)).Some?)
    }

    /** Which writes a pass may end in: none, or one that keeps the three values when the running
        image is the noted one and takes all three from a fresh resolution otherwise. */
    method EnsureOVNTemplate(chart: string, registry: Registry, calm: bool) returns (out: Outcome)
      requires Lockstep()
      modifies `template, `resolution
      ensures Lockstep()
      ensures template != old(template) ==> old(MayWrite()) && WrittenFor(chart) && clusterVersion.Some?
      ensures template != old(template) && old(template).Some? ==>
        var ds := daemonSet.value;
        ds.observedGeneration >= ds.generation && ds.updated == ds.desired && ds.available == ds.desired
      ensures old(Unchanged()) ==> template.Some? && Triple(template.value) == Triple(old(template).value)
      ensures template != old(template) && !old(Unchanged()) ==>
        From(template.value, Resolution(Running().value, clusterVersion.value, registry))
      ensures out == Done ==> old(MayWrite()) && WrittenFor(chart)
      ensures out == Skipped ==> template == old(template)
      ensures calm ==> (out == Done <==> old(MayWrite()) && old(Resolvable(registry)))
    {
      var failed := Fails(calm);
      if failed || daemonSet.None? {
        return Error;
      }
      var current := OvnkImageFromDaemonSet(daemonSet.value);
      if current.None? {
        return Error;
      }
      failed := Fails(calm);
      if failed {
        return Error;
      }
      var changed := template.None? || template.value.source != current.value;
      if template.Some? && !RolloutComplete(daemonSet.value) {
        return Skipped;
      }
      failed := Fails(calm);
      if failed || clusterVersion.None? || clusterVersion.value.version == "" || clusterVersion.value.image == "" {
        return Error;
      }
      var values: Values;
      ghost var latest := Resolution(current.value, clusterVersion.value, registry);
      if changed {
        var image := Resolve(current.value, clusterVersion.value, registry, calm);
        if image.None? {
          return Error;
        }
        var version := OVNKDaemonsetVersionForOCP(TABLE, registry.parse(clusterVersion.value.version));
        values := Values(image.value, version);
      } else {
        var existing := template.value.values;
        if existing.None? || existing.value.image.repo == "" || existing.value.image.tag == "" {
          return Error;
        }
        values := existing.value;
      }
      out := EnsureTemplate(chart, values, current.value, calm);
      if changed && template != old(template) {
        resolution := Some(latest);
      }
    }

    method Resolve(current: string, cv: ClusterVersion, registry: Registry, calm: bool) returns (r: Option<Image>)
      ensures calm ==> r == ResolvedImage(Resolution(current, cv, registry))
      ensures r.Some? ==> r == ResolvedImage(Resolution(current, cv, registry))
    {
      var failed := Fails(calm);
      if failed {
        return None;
      }
      if registry.multiArch(cv.image) {
        return SplitImage(current);
      }
      var image := registry.component(cv.image, cv.version);
      if image.None? {
        return None;
      }
      return SplitImage(image.value);
    }

    /** A failed write may or may not have reached the server. */
    method EnsureTemplate(chart: string, values: Values, source: string, calm: bool) returns (out: Outcome)
      modifies `template
      ensures template == old(template)
           || (old(MayWrite()) && template == Some(Template(true, false, source, Some(values), chart)))
      ensures out == Done ==> old(MayWrite()) && template == Some(Template(true, false, source, Some(values), chart))
      ensures out == Skipped ==> template == old(template)
      ensures calm ==> out == if old(MayWrite()) then Done else Skipped
    {
      var failed := Fails(calm);
      if failed {
        return Error;
      }
      if template.Some? && (!template.value.managed || template.value.deleting) {
        return Skipped;
      }
      failed := Fails(calm);
      var reached := *;
      if !failed || reached {
        template := Some(Template(true, false, source, Some(values), chart));
      }
      return if failed then Error else Done;
    }

    method Interfere(pass: Pass)
      requires Lockstep()
      modifies `template, `daemonSet, `clusterVersion
      ensures Lockstep() && daemonSet == pass.daemonSet && clusterVersion == pass.clusterVersion
      ensures pass.intrusion == NoIntrusion ==> template == old(template)
    {
      daemonSet := pass.daemonSet;
      clusterVersion := pass.clusterVersion;
      match pass.intrusion {
        case NoIntrusion =>
        case Deleted => template := None;
        case Terminating => template := if template.None? then None else Some(template.value.(deleting := true));
        case Theirs(own) => template := Some(own.(managed := false));
      }
    }

    /** Any number of passes.  The template is in lockstep throughout, and as long as the running
        image and the template are left alone no pass changes the three values, whatever the
        ClusterVersion, the rollout, the registries or the chart do. */
    method Run(passes: seq<Pass>)
      requires Lockstep()
      modifies this
      ensures Lockstep()
      ensures old(Unchanged()) && (forall i :: 0 <= i < |passes| ==> LeavesAlone(passes[i], old(Running()))) ==>
        template.Some? && Triple(template.value) == Triple(old(template).value)
    {
      ghost var quiet := Unchanged() && forall i :: 0 <= i < |passes| ==> LeavesAlone(passes[i], Running());
      for i := 0 to |passes|
        invariant Lockstep()
        invariant quiet ==> Unchanged() && Running() == old(Running()) && Triple(template.value) == Triple(old(template).value)
      {
        Interfere(passes[i]);
        var out := EnsureOVNTemplate(passes[i].chart, passes[i].registry, passes[i].calm);
      }
    }
  }
}
