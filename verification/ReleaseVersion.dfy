/** Release references and control-plane version history.

    A release image is named either by tag (`repo:4.19.0-multi`) or by digest
    (`repo@sha256:...`).  HyperShift reports both a version and an image for every
    rollout, so a reference is matched against whichever of the two it determines. */
module ReleaseVersion {
  import opened Text

  /** One entry of `status.controlPlaneVersion.history`; index 0 is the newest. */
  datatype Entry = Entry(version: string, image: string, completed: bool)

  const ARCH_SUFFIXES: seq<string> := ["-multi", "-amd64", "-arm64", "-ppc64le", "-s390x", "-x86_64"]

  /** The text after the last colon; the whole text when there is none. */
  function AfterLastColon(s: string): string
    decreases |s|
  {
    if s == [] || s[|s| - 1] == ':' then [] else AfterLastColon(s[..|s| - 1]) + [s[|s| - 1]]
  }

  function TrimAll(s: string, suffixes: seq<string>): string
    decreases |suffixes|
  {
    if suffixes == [] then s
    else TrimSuffix(TrimAll(s, suffixes[..|suffixes| - 1]), suffixes[|suffixes| - 1])
  }

  /** The version named by a tagged reference; None for digests and empty tags. */
  function TagOf(image: string): Option<string> {
    if Contains(image, ":") && !Contains(image, "@sha256:") then
      var tag := TrimAll(AfterLastColon(image), ARCH_SUFFIXES);
      if tag != "" then Some(tag) else None
    else None
  }

  lemma {:induction false} AfterColon(repo: string, tag: string)
    requires ':' !in tag
    ensures AfterLastColon(repo + ":" + tag) == tag
    decreases |tag|
  {
    var s := repo + ":" + tag;
    if tag == [] {
      assert s == repo + ":";
    } else {
      var init := tag[..|tag| - 1];
      assert s[..|s| - 1] == repo + ":" + init;
      AfterColon(repo, init);
    }
  }

  lemma {:induction false} TrimNothing(s: string, suffixes: seq<string>)
    requires forall i :: 0 <= i < |suffixes| ==> !HasSuffix(s, suffixes[i])
    ensures TrimAll(s, suffixes) == s
    decreases |suffixes|
  {
    if suffixes != [] {
      TrimNothing(s, suffixes[..|suffixes| - 1]);
    }
  }

  lemma {:induction false} TrimOne(s: string, suffixes: seq<string>, k: nat)
    requires k < |suffixes|
    requires forall i :: 0 <= i < k ==> !HasSuffix(s + suffixes[k], suffixes[i])
    requires forall i :: k < i < |suffixes| ==> !HasSuffix(s, suffixes[i])
    ensures TrimAll(s + suffixes[k], suffixes) == s
    decreases |suffixes|
  {
    var init := suffixes[..|suffixes| - 1];
    if k == |init| {
      TrimNothing(s + suffixes[k], init);
    } else {
      TrimOne(s, init, k);
    }
  }

  /** Two suffixes of one text agree on their last characters. */
  lemma SuffixesClash(s: string, a: string, b: string)
    requires HasSuffix(s, a) && HasSuffix(s, b) && |a| >= 3 && |b| >= 3
    ensures a[|a| - 1] == b[|b| - 1] && a[|a| - 3] == b[|b| - 3]
  {
    assert s[|s| - |a|..] == a && s[|s| - |b|..] == b;
    assert s[|s| - 1] == a[|a| - 1] == b[|b| - 1];
    assert s[|s| - 3] == a[|a| - 3] == b[|b| - 3];
  }

  lemma ArchSuffixesDiffer(s: string, i: nat, k: nat)
    requires i < k < |ARCH_SUFFIXES|
    ensures !HasSuffix(s + ARCH_SUFFIXES[k], ARCH_SUFFIXES[i])
  {
    var t := s + ARCH_SUFFIXES[k];
    assert t[|s|..] == ARCH_SUFFIXES[k];
    if HasSuffix(t, ARCH_SUFFIXES[i]) {
      SuffixesClash(t, ARCH_SUFFIXES[k], ARCH_SUFFIXES[i]);
    }
  }

  /** A tagged reference names the version in front of the architecture, for each of the six. */
  lemma TagNamesVersion(repo: string, version: string, suffix: string)
    requires version != "" && ':' !in version
    requires suffix in {"", "-multi", "-amd64", "-arm64", "-ppc64le", "-s390x", "-x86_64"}
    requires !HasSuffix(version, "-multi") && !HasSuffix(version, "-amd64") && !HasSuffix(version, "-arm64")
    requires !HasSuffix(version, "-ppc64le") && !HasSuffix(version, "-s390x") && !HasSuffix(version, "-x86_64")
    requires !Contains(repo + ":" + (version + suffix), "@sha256:")
    ensures TagOf(repo + ":" + (version + suffix)) == Some(version)
  {
    var image := repo + ":" + (version + suffix);
    assert OccursAt(image, ":", |repo|);
    AfterColon(repo, version + suffix);
    assert forall i :: 0 <= i < |ARCH_SUFFIXES| ==> !HasSuffix(version, ARCH_SUFFIXES[i]);
    if suffix == "" {
      assert version + suffix == version;
      TrimNothing(version, ARCH_SUFFIXES);
    } else {
      var k := SuffixAt(suffix);
      forall i | 0 <= i < k ensures !HasSuffix(version + ARCH_SUFFIXES[k], ARCH_SUFFIXES[i]) {
        ArchSuffixesDiffer(version, i, k);
      }
      TrimOne(version, ARCH_SUFFIXES, k);
    }
  }

  lemma SuffixAt(suffix: string) returns (k: nat)
    requires suffix in {"-multi", "-amd64", "-arm64", "-ppc64le", "-s390x", "-x86_64"}
    ensures k < |ARCH_SUFFIXES| && ARCH_SUFFIXES[k] == suffix && ':' !in suffix
  {
    k := if suffix == "-multi" then 0 else if suffix == "-amd64" then 1 else if suffix == "-arm64" then 2
         else if suffix == "-ppc64le" then 3 else if suffix == "-s390x" then 4 else 5;
  }

  /** Digests and untagged references are matched by image. */
  lemma DigestNamesImage(target: string, e: Entry)
    requires Contains(target, "@sha256:") || !Contains(target, ":")
    ensures Matches(e, target) <==> e.image == target
  {
  }

  predicate Matches(e: Entry, target: string) {
    match TagOf(target)
    case Some(tag) => e.version == tag
    case None => e.image == target
  }

  /** Two references that no single rollout can satisfy, decided from their text alone. */
  predicate Distinguishable(a: string, b: string) {
    match (TagOf(a), TagOf(b))
    case (Some(s), Some(t)) => s != t
    case (None, None) => a != b
    case _ => false
  }

  /** `Distinguishable` is exact: it holds if and only if no history entry matches both. */
  lemma DistinguishableIff(a: string, b: string)
    ensures Distinguishable(a, b) <==> forall e: Entry :: !(Matches(e, a) && Matches(e, b))
  {
    if !Distinguishable(a, b) {
      var version := match TagOf(a) case Some(s) => s case None => (match TagOf(b) case Some(t) => t case None => "");
      var image := if TagOf(a).None? then a else b;
      var both := Entry(version, image, true);
      assert Matches(both, a) && Matches(both, b);
    }
  }

  /** Each suffix is trimmed at most once, in list order. */
  method VersionMatchesImage(version: string, image: string, target: string) returns (matches: bool)
    ensures matches == Matches(Entry(version, image, true), target)
  {
    if Contains(target, ":") && !Contains(target, "@sha256:") {
      var tag := AfterLastColon(target);
      for i := 0 to |ARCH_SUFFIXES|
        invariant tag == TrimAll(AfterLastColon(target), ARCH_SUFFIXES[..i])
      {
        assert ARCH_SUFFIXES[..i + 1][..i] == ARCH_SUFFIXES[..i];
        tag := TrimSuffix(tag, ARCH_SUFFIXES[i]);
      }
      assert ARCH_SUFFIXES[..|ARCH_SUFFIXES|] == ARCH_SUFFIXES;
      if tag != "" {
        return version == tag;
      }
    }
    return image == target;
  }

  predicate ControlPlaneReady(history: seq<Entry>, target: string) {
    history != [] && history[0].completed && Matches(history[0], target)
  }

  predicate CompletedDifferent(history: seq<Entry>, target: string) {
    exists i :: 0 <= i < |history| && history[i].completed && !Matches(history[i], target)
  }

  method HasCompletedDifferentVersion(history: seq<Entry>, target: string) returns (found: bool)
    ensures found == CompletedDifferent(history, target)
  {
    for i := 0 to |history|
      invariant forall k :: 0 <= k < i ==> !(history[k].completed && !Matches(history[k], target))
    {
      if history[i].completed {
        var matches := VersionMatchesImage(history[i].version, history[i].image, target);
        if !matches {
          return true;
        }
      }
    }
    return false;
  }

  /** A rollout that was completed and is still in the history. */
  predicate OnRecord(history: seq<Entry>, e: Entry) {
    e.completed && e in history
  }

  /** HyperShift only adds to the history: what was completed stays on record. */
  predicate HistoryGrows(before: seq<Entry>, after: seq<Entry>) {
    forall i :: 0 <= i < |before| && before[i].completed ==> before[i] in after
  }

  /** One HyperShift status write: begin a rollout at the front, or complete the newest. */
  predicate HistoryStep(before: seq<Entry>, after: seq<Entry>) {
    || after == before
    || (|after| == |before| + 1 && after[1..] == before && !after[0].completed)
    || (before != [] && after == before[0 := before[0].(completed := true)])
  }

  lemma HistoryStepGrows(before: seq<Entry>, after: seq<Entry>)
    requires HistoryStep(before, after)
    ensures HistoryGrows(before, after)
  {
    forall i | 0 <= i < |before| && before[i].completed
      ensures before[i] in after
    {
      if after != before && |after| == |before| + 1 {
        assert after[1..][i] == after[i + 1];
      } else {
        assert after[i] == before[i];
      }
    }
  }

  lemma OnRecordStays(before: seq<Entry>, after: seq<Entry>)
    requires HistoryGrows(before, after)
    ensures forall e :: OnRecord(before, e) ==> OnRecord(after, e)
    ensures forall target :: CompletedDifferent(before, target) ==> CompletedDifferent(after, target)
  {
    forall e | OnRecord(before, e) ensures OnRecord(after, e) {
      var i :| 0 <= i < |before| && before[i] == e;
    }
  }

  /** Whatever forms the references have: the rollout that made the cluster Ready proves that
      another version was active, unless it also passes for the target. */
  lemma DifferentVersionOnRecord(history: seq<Entry>, e: Entry, target: string)
    requires OnRecord(history, e) && !Matches(e, target)
    ensures CompletedDifferent(history, target)
  {
  }

  /** Distinguishable references leave no rollout that passes for both. */
  lemma DistinguishableOnRecord(history: seq<Entry>, e: Entry, served: string, target: string)
    requires OnRecord(history, e) && Matches(e, served) && Distinguishable(served, target)
    ensures CompletedDifferent(history, target)
  {
    DistinguishableIff(served, target);
    DifferentVersionOnRecord(history, e, target);
  }

  lemma TagOfPlain()
    ensures TagOf("r:1") == Some("1")
  {
    var image := "r:1";
    assert OccursAt(image, ":", 1);
    assert AfterLastColon("r:") == [];
    assert image[..2] == "r:";
    assert AfterLastColon(image) == "1";
    TrimShort("1", ARCH_SUFFIXES);
    if Contains(image, "@sha256:") {
      assert false;
    }
  }

  lemma {:induction false} TrimShort(s: string, suffixes: seq<string>)
    requires forall i :: 0 <= i < |suffixes| ==> |suffixes[i]| > |s|
    ensures TrimAll(s, suffixes) == s
    decreases |suffixes|
  {
    if suffixes != [] {
      TrimShort(s, suffixes[..|suffixes| - 1]);
    }
  }

  lemma TagOfDigest()
    ensures TagOf("r@sha256:a") == None
  {
    assert OccursAt("r@sha256:a", "@sha256:", 1);
  }

  /** Where it fails: a cluster serves version 1 by digest, the user names the same version by tag,
      and the operator crashes after the sync.  The references differ and the new rollout is not
      finished, but the only completed rollout passes for both. */
  lemma UnnoticedUpgrade()
    ensures var served, target := "r@sha256:a", "r:1";
      var e := Entry("1", served, true);
      var history := [Entry("1", "r@sha256:b", false), e];
      && served != target && Matches(e, served) && OnRecord(history, e)
      && !ControlPlaneReady(history, target) && !CompletedDifferent(history, target)
  {
    TagOfPlain();
    TagOfDigest();
    var e := Entry("1", "r@sha256:a", true);
    var history := [Entry("1", "r@sha256:b", false), e];
    assert history[1] == e;
    assert "r@sha256:a"[1] != "r:1"[1];
  }
}
