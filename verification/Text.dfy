/** The string operations the operator uses, on sequences of characters. */
module Text {

  datatype Option<+T> = None | Some(value: T)

  predicate OccursAt(s: string, part: string, i: int) {
    0 <= i <= |s| - |part| && s[i..i + |part|] == part
  }

  predicate Contains(s: string, part: string) {
    exists i :: 0 <= i <= |s| && OccursAt(s, part, i)
  }

  predicate HasPrefix(s: string, prefix: string) {
    OccursAt(s, prefix, 0)
  }

  predicate HasSuffix(s: string, suffix: string) {
    OccursAt(s, suffix, |s| - |suffix|)
  }

  function TrimPrefix(s: string, prefix: string): string {
    if HasPrefix(s, prefix) then s[|prefix|..] else s
  }

  function TrimSuffix(s: string, suffix: string): string {
    if HasSuffix(s, suffix) then s[..|s| - |suffix|] else s
  }

  /** The first occurrence of `part` at or after `from`. */
  function IndexFrom(s: string, part: string, from: nat): Option<nat>
    decreases |s| - from
  {
    if OccursAt(s, part, from) then Some(from)
    else if from < |s| then IndexFrom(s, part, from + 1)
    else None
  }

  function Index(s: string, part: string): Option<nat> {
    IndexFrom(s, part, 0)
  }

  lemma {:induction false} IndexFromIsFirst(s: string, part: string, from: nat)
    ensures var r := IndexFrom(s, part, from);
      if r.Some? then
        from <= r.value && OccursAt(s, part, r.value) && forall i :: from <= i < r.value ==> !OccursAt(s, part, i)
      else
        forall i :: from <= i ==> !OccursAt(s, part, i)
    decreases |s| - from
  {
    if !OccursAt(s, part, from) && from < |s| {
      IndexFromIsFirst(s, part, from + 1);
    }
  }

  lemma {:induction false} IndexFound(s: string, part: string)
    requires Index(s, part).Some?
    ensures OccursAt(s, part, Index(s, part).value)
    ensures forall i :: 0 <= i < Index(s, part).value ==> !OccursAt(s, part, i)
  {
    IndexFromIsFirst(s, part, 0);
  }

  lemma {:induction false} IndexNotFound(s: string, part: string, i: int)
    requires Index(s, part).None?
    ensures !OccursAt(s, part, i)
  {
    IndexFromIsFirst(s, part, 0);
  }

  /** A first occurrence is the one `Index` finds. */
  lemma {:induction false} IndexIs(s: string, part: string, k: nat)
    requires OccursAt(s, part, k)
    requires forall i :: 0 <= i < k ==> !OccursAt(s, part, i)
    ensures Index(s, part) == Some(k)
  {
    IndexFromIsFirst(s, part, 0);
  }

  lemma {:induction false} IndexNone(s: string, part: string)
    requires forall i :: 0 <= i ==> !OccursAt(s, part, i)
    ensures Index(s, part) == None
  {
    IndexFromIsFirst(s, part, 0);
  }

  /** Replaces the first occurrence only. */
  function ReplaceFirst(s: string, part: string, replacement: string): string {
    if Index(s, part).None? then s
    else
      IndexFound(s, part);
      Splice(s, Index(s, part).value, |part|, replacement)
  }

  /** `s` with the `n` characters at `k` replaced. */
  function Splice(s: string, k: nat, n: nat, replacement: string): string
    requires k + n <= |s|
  {
    s[..k] + replacement + s[k + n..]
  }

  lemma SpliceMiddle(before: string, part: string, after: string, replacement: string)
    ensures Splice(before + part + after, |before|, |part|, replacement) == before + replacement + after
  {
  }

  lemma OccursAfterPrefix(prefix: string, s: string, part: string, i: nat)
    ensures OccursAt(prefix + s, part, |prefix| + i) <==> OccursAt(s, part, i)
  {
    if i + |part| <= |s| {
      assert (prefix + s)[|prefix| + i..|prefix| + i + |part|] == s[i..i + |part|];
    }
  }

  lemma NoneInPrefix(prefix: string, s: string, part: string, i: nat)
    requires part != [] && part[0] !in prefix && i < |prefix|
    ensures !OccursAt(prefix + s, part, i)
  {
    if i + |part| <= |prefix + s| {
      assert (prefix + s)[i..i + |part|][0] == prefix[i];
    }
  }

  /** A prefix that lacks the first character of the pattern is passed over. */
  lemma {:induction false} IndexAfterPrefix(prefix: string, s: string, part: string)
    requires part != [] && part[0] !in prefix
    ensures Index(prefix + s, part)
         == if Index(s, part).None? then None else Some(|prefix| + Index(s, part).value)
  {
    forall i: nat
      ensures OccursAt(prefix + s, part, i) <==> i >= |prefix| && OccursAt(s, part, i - |prefix|)
    {
      if i < |prefix| {
        NoneInPrefix(prefix, s, part, i);
      } else {
        OccursAfterPrefix(prefix, s, part, i - |prefix|);
      }
    }
    if Index(s, part).None? {
      forall i: nat ensures !OccursAt(s, part, i) {
        IndexNotFound(s, part, i);
      }
      IndexNone(prefix + s, part);
    } else {
      IndexFound(s, part);
      IndexIs(prefix + s, part, |prefix| + Index(s, part).value);
    }
  }

  lemma SpliceAfterPrefix(prefix: string, s: string, k: nat, n: nat, replacement: string)
    requires k + n <= |s|
    ensures Splice(prefix + s, |prefix| + k, n, replacement) == prefix + Splice(s, k, n, replacement)
  {
    assert (prefix + s)[..|prefix| + k] == prefix + s[..k];
    assert (prefix + s)[|prefix| + k + n..] == s[k + n..];
  }

  lemma {:induction false} ReplaceAfterPrefix(prefix: string, s: string, part: string, replacement: string)
    requires part != [] && part[0] !in prefix
    ensures ReplaceFirst(prefix + s, part, replacement) == prefix + ReplaceFirst(s, part, replacement)
  {
    IndexAfterPrefix(prefix, s, part);
    if Index(s, part).Some? {
      IndexFound(s, part);
      SpliceAfterPrefix(prefix, s, Index(s, part).value, |part|, replacement);
    }
  }
}
