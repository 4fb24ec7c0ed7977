/** One DPUCluster belongs to one DPFHCPProvisioner.

    Reconcile passes of different provisioners interleave in any way, users create and delete
    provisioners at any moment, and a pass may be cut short at any moment. */
module Exclusivity {
  import opened Text
  import opened ApiServer

  datatype Entry = Entry(id: Key, ref: Key)

  // ----- The check -----

  /** Another provisioner that references the same DPUCluster. */
  predicate Rival(e: Entry, self: Key, ref: Key) {
    e.id != self && e.ref == ref
  }

  /** The first rival in the list. */
  method FindConflict(list: seq<Entry>, self: Key, ref: Key) returns (r: Option<Key>)
    ensures r.Some? ==> exists i :: 0 <= i < |list| && list[i].id == r.value && Rival(list[i], self, ref)
                                    && forall j :: 0 <= j < i ==> !Rival(list[j], self, ref)
    ensures r.None? <==> forall i :: 0 <= i < |list| ==> !Rival(list[i], self, ref)
  {
    for i := 0 to |list|
      invariant forall j :: 0 <= j < i ==> !Rival(list[j], self, ref)
    {
      if list[i].id.namespace == self.namespace && list[i].id.name == self.name {
        continue;
      }
      if list[i].ref.name == ref.name && list[i].ref.namespace == ref.namespace {
        return Some(list[i].id);
      }
    }
    return None;
  }

  // ----- The system -----

  /** Where the pass of a provisioner stands.  `Cleared` means that this pass found the DPUCluster
      free, so it may create the HostedCluster. */
  datatype Stage = Idle | Started | Cleared

  datatype Provisioner = Provisioner(ref: Key, finalizer: bool, deleting: bool, stage: Stage)

  /** `owners` are the provisioners whose HostedCluster exists. */
  datatype System = System(provisioners: map<Key, Provisioner>, owners: set<Key>)

  predicate Exclusive(s: System, id: Key)
    requires id in s.provisioners
  {
    forall other :: other in s.provisioners && other != id ==> s.provisioners[other].ref != s.provisioners[id].ref
  }

  function Put(s: System, id: Key, p: Provisioner): System {
    s.(provisioners := s.provisioners[id := p])
  }

  datatype Step =
    | UserCreate(id: Key, ref: Key)
    | UserDelete(id: Key)
    | AddFinalizer(id: Key)
    | BeginPass(id: Key)
    | Check(id: Key)
    | CreateHostedCluster(id: Key)
    | EndPass(id: Key)
    | HostedClusterGone(id: Key)
    | RemoveFinalizer(id: Key)

  predicate Enabled(s: System, step: Step) {
    if step.UserCreate? then step.id !in s.provisioners
    else
      step.id in s.provisioners &&
      var p := s.provisioners[step.id];
      match step
      case UserCreate(_, _) => false
      case UserDelete(_) => true
      case AddFinalizer(_) => !p.deleting
      case BeginPass(_) => p.stage == Idle && p.finalizer && !p.deleting
      case Check(_) => p.stage == Started
      case CreateHostedCluster(_) => p.stage == Cleared
      case EndPass(_) => p.stage != Idle
      case HostedClusterGone(_) => p.deleting && p.stage == Idle
      case RemoveFinalizer(_) => p.deleting && p.stage == Idle && step.id !in s.owners
  }

  function Apply(s: System, step: Step): System
    requires Enabled(s, step)
  {
    if step.UserCreate? then Put(s, step.id, Provisioner(step.ref, false, false, Idle))
    else
      var id := step.id;
      var p := s.provisioners[id];
      match step
      case UserCreate(_, _) => s
      case UserDelete(_) => if p.finalizer then Put(s, id, p.(deleting := true)) else s.(provisioners := s.provisioners - {id})
      case AddFinalizer(_) => Put(s, id, p.(finalizer := true))
      case BeginPass(_) => Put(s, id, p.(stage := Started))
      case Check(_) => Put(s, id, p.(stage := if Exclusive(s, id) then Cleared else Idle))
      case CreateHostedCluster(_) => s.(owners := s.owners + {id})
      case EndPass(_) => Put(s, id, p.(stage := Idle))
      case HostedClusterGone(_) => s.(owners := s.owners - {id})
      case RemoveFinalizer(_) => s.(provisioners := s.provisioners - {id})
  }

  // ----- The invariant -----

  predicate Holds(s: System, id: Key) {
    id in s.owners || (id in s.provisioners && s.provisioners[id].stage == Cleared)
  }

  /** Who has a HostedCluster or is about to create one is still there, protected by its finalizer,
      and alone in holding its DPUCluster. */
  ghost predicate Inv(s: System) {
    && (forall id :: Holds(s, id) ==> id in s.provisioners && s.provisioners[id].finalizer)
    && (forall id :: id in s.provisioners && s.provisioners[id].stage != Idle ==> s.provisioners[id].finalizer)
    && (forall a, b :: Holds(s, a) && Holds(s, b) && s.provisioners[a].ref == s.provisioners[b].ref ==> a == b)
  }

  lemma StepKeepsInv(s: System, step: Step)
    requires Inv(s) && Enabled(s, step)
    ensures Inv(Apply(s, step))
  {
    var t := Apply(s, step);
    forall id | Holds(t, id) && !(step.Check? && id == step.id) ensures Holds(s, id) {
    }
  }

  predicate Run(states: seq<System>, steps: seq<Step>) {
    && |states| == |steps| + 1
    && states[0] == System(map[], {})
    && forall i :: 0 <= i < |steps| ==> Enabled(states[i], steps[i]) && states[i + 1] == Apply(states[i], steps[i])
  }

  lemma {:induction false} RunKeepsInv(states: seq<System>, steps: seq<Step>, n: nat)
    requires Run(states, steps) && n < |states|
    ensures Inv(states[n])
  {
    if n > 0 {
      RunKeepsInv(states, steps, n - 1);
      StepKeepsInv(states[n - 1], steps[n - 1]);
    }
  }

  /** In no reachable state do two provisioners of one DPUCluster own a HostedCluster. */
  lemma OneOwnerPerCluster(states: seq<System>, steps: seq<Step>, n: nat, a: Key, b: Key)
    requires Run(states, steps) && n < |states|
    requires a in states[n].owners && b in states[n].owners
    ensures a in states[n].provisioners && b in states[n].provisioners
    ensures states[n].provisioners[a].ref == states[n].provisioners[b].ref ==> a == b
  {
    RunKeepsInv(states, steps, n);
  }

  /** A HostedCluster is never created beside one of another provisioner of the DPUCluster, even if
      rivals appeared after the check. */
  lemma CreationIsFirst(states: seq<System>, steps: seq<Step>, n: nat, other: Key)
    requires Run(states, steps) && n < |steps| && steps[n].CreateHostedCluster?
    requires other in states[n].provisioners && other != steps[n].id
    requires states[n].provisioners[other].ref == states[n].provisioners[steps[n].id].ref
    ensures other !in states[n].owners && states[n].provisioners[other].stage != Cleared
  {
    RunKeepsInv(states, steps, n);
    assert Holds(states[n], steps[n].id);
    assert Holds(states[n], other) ==> false;
  }

  /** A pass gets past the check exactly if no other provisioner references the DPUCluster, and may
      then create its HostedCluster. */
  lemma ClearedIffAlone(states: seq<System>, steps: seq<Step>, n: nat)
    requires Run(states, steps) && n < |steps| && steps[n].Check?
    ensures steps[n].id in states[n + 1].provisioners
    ensures states[n + 1].provisioners[steps[n].id].stage == Cleared <==>
              forall other :: other in states[n].provisioners && other != steps[n].id ==>
                states[n].provisioners[other].ref != states[n].provisioners[steps[n].id].ref
    ensures states[n + 1].provisioners[steps[n].id].stage == Cleared ==>
              && Enabled(states[n + 1], CreateHostedCluster(steps[n].id))
              && steps[n].id in Apply(states[n + 1], CreateHostedCluster(steps[n].id)).owners
  {
  }

  /** Deletion hands the DPUCluster over: the user deletes the only rival, its HostedCluster goes, its
      finalizer is removed, and the other one's check succeeds. */
  lemma HandOver(s: System, a: Key, b: Key)
    requires a in s.provisioners && b in s.provisioners && a != b
    requires s.provisioners[a].finalizer && s.provisioners[a].stage == Idle && s.provisioners[b].stage == Started
    requires forall other :: other in s.provisioners && other != a && other != b ==> s.provisioners[other].ref != s.provisioners[b].ref
    ensures Enabled(s, UserDelete(a))
    ensures var deleted := Apply(s, UserDelete(a));
      && Enabled(deleted, HostedClusterGone(a))
      && var gone := Apply(deleted, HostedClusterGone(a));
      && Enabled(gone, RemoveFinalizer(a))
      && var free := Apply(gone, RemoveFinalizer(a));
      && a !in free.provisioners && a !in free.owners && Enabled(free, Check(b))
      && Apply(free, Check(b)).provisioners[b].stage == Cleared
  {
    var free := Apply(Apply(Apply(s, UserDelete(a)), HostedClusterGone(a)), RemoveFinalizer(a));
    assert Exclusive(free, b);
  }

  /** A latecomer blocks the owner as well: no pass of either gets past the check while both are
      there, and what the owner has it keeps. */
  lemma RivalsBlockEachOther(states: seq<System>, steps: seq<Step>, n: nat, rival: Key)
    requires Run(states, steps) && n < |steps| && steps[n].Check?
    requires rival in states[n].provisioners && rival != steps[n].id
    requires states[n].provisioners[rival].ref == states[n].provisioners[steps[n].id].ref
    ensures steps[n].id in states[n + 1].provisioners && states[n + 1].provisioners[steps[n].id].stage == Idle
    ensures states[n + 1].owners == states[n].owners
  {
    assert !Exclusive(states[n], steps[n].id);
  }

  /** The check over the listed provisioners decides exclusivity. */
  lemma ListDecides(s: System, list: seq<Entry>, id: Key)
    requires id in s.provisioners
    requires forall e :: e in list <==> e.id in s.provisioners && e.ref == s.provisioners[e.id].ref
    ensures Exclusive(s, id) <==> forall i :: 0 <= i < |list| ==> !Rival(list[i], id, s.provisioners[id].ref)
  {
    if !Exclusive(s, id) {
      var other :| other in s.provisioners && other != id && s.provisioners[other].ref == s.provisioners[id].ref;
      assert Entry(other, s.provisioners[other].ref) in list;
    }
  }
}
