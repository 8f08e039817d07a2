/**
 One operation from an arbitrary world: exactly when the persisted identity stays right and when a
 Delete that returns no error leaves nothing behind, with runs on which each goes wrong.
 */
module LifecycleExact {
  import opened Basics
  import opened Text
  import opened ProviderSpec
  import opened Catalogue
  import opened Validation
  import opened Builder
  import opened Lifecycle
  import opened LifecycleCalls
  import opened LifecycleStages
  import opened LifecycleRuns

  // ---------------------------------------------------------------- Identity after a Create

  /** Only the first patch of the operation changed the stored machine. */
  predicate HalfSaved(m: Machine, m': Machine) {
    m'.providerID != m.providerID && m'.vmUUID == m.vmUUID
  }

  /** The recorded VM is gone. */
  predicate RecordedDead(w: World) {
    w.machine.vmUUID.Some? && w.machine.vmUUID.value !in w.cloud
  }

  /** What Create leaves in memory: the snapshot, or the resolved VM's ID with or without the record. */
  ghost predicate CreateMemory(m: Memory, m': Memory, id: string) {
    && m'.base == m.base
    && (m'.providerID == m.providerID || m'.providerID == Some(Pid(id)))
    && (m'.vmUUID == m.vmUUID || (m'.vmUUID == Some(id) && m'.providerID == Some(Pid(id))))
  }

  lemma CreateResolves(w: World, m: Memory, s: Script) returns (id: string)
    requires LegalHostName(w.machine.name) && m.base.name == w.machine.name
    requires m.vmUUID.Some? ==> m.vmUUID.value in w.used
    requires Sparing(s.getRecorded.before)
    ensures var (w', m', ok) := Create(w, m, s);
      && Evolved(w, w')
      && CreateMemory(m, m', id)
      && (ok ==> m'.vmUUID == Some(id) && m'.providerID == Some(Pid(id)))
      && (m.vmUUID.Some? ==> (id == m.vmUUID.value <==> m.vmUUID.value in w.cloud))
  {
    hide CreateVm, UpdateState, Errors, Overridden, LabelOk, IsNotFound, Quiet, Sparing;
    id := if m.vmUUID.None? || m.vmUUID.value in w.cloud then m.vmUUID.GetOr("") else m.vmUUID.value + "'";
    if LabelOk(m.base.labels) && s.userData.Some?
       && Errors(s.catalogue, Overridden(m.base.spec, s.failureDomain)) == []
    {
      CreateVmStage(w, m, s);
      var (w1, r) := CreateVm(w, m, s);
      if r.Ok? {
        id := r.value;
        UpdateStateStage(w1, m, r.value, s);
      }
    }
  }

  /**
   The failure after createVM and before VmUUID is recorded, or a lost status patch, saves only
   ProviderID. The stored identity disagrees afterwards exactly when that happens while the recorded
   VM is gone. What a caller can check before the call, and what holds over runs, is in module
   LifecycleIdentity.
   */
  lemma CreateIdentityExact(w: World, s: Script)
    requires LegalHostName(w.machine.name) && Agree(w.machine)
    requires w.machine.vmUUID.Some? ==> w.machine.vmUUID.value in w.used
    requires Sparing(s.before) && Sparing(s.getRecorded.before)
    ensures var m' := Do(w, CreateOp, s).w.machine;
      Agree(m') <==> !(HalfSaved(w.machine, m') && RecordedDead(w))
  {
    hide Create, Patch, Opened, Quiet, Sparing;
    OpenedStage(w, CreateOp, s);
    var w0 := Opened(w, CreateOp, s);
    var m0 := Snapshot(w0);
    if !s.scopeFails {
      var id := CreateResolves(w0, m0, s);
      var (w1, m, _) := Create(w0, m0, s);
      PatchStage(w1, m, s);
      var m' := Patch(w1, m, s).0.machine;
      if m0.vmUUID.Some? && Pid(id) == Pid(m0.vmUUID.value) {
        PidInjective(id, m0.vmUUID.value);
      }
    }
  }

  // ---------------------------------------------------------------- The Node

  predicate NoNodeWrites(actions: seq<EnvAction>) {
    forall i :: 0 <= i < |actions| ==> !actions[i].PutNode?
  }

  /** From the labelling of the Node on, nobody else rewrites Nodes. */
  predicate NodesLeftAlone(s: Script) {
    NoNodeWrites(s.prismCentral.before) && NoNodeWrites(s.patchSpec.before) && NoNodeWrites(s.patchStatus.before)
  }

  /** Nodes may go, but those that stay keep their provider ID. */
  predicate NodeIdsKept(w: World, w': World) {
    forall n :: n in w'.nodes ==> n in w.nodes && w'.nodes[n].providerID == w.nodes[n].providerID
  }

  lemma {:induction false} ActsKeepNodeIds(w: World, actions: seq<EnvAction>)
    requires NoNodeWrites(actions)
    ensures NodeIdsKept(w, Acts(w, actions))
  {
    if actions != [] {
      var front := actions[..|actions| - 1];
      ActsKeepNodeIds(w, front);
      assert !actions[|actions| - 1].PutNode?;
    }
  }

  predicate NodeCarries(w: World, node: string, id: string) {
    node in w.nodes ==> w.nodes[node].providerID == id
  }

  lemma UpdateStateLabels(w: World, m: Memory, id: string, s: Script)
    requires NodesLeftAlone(s)
    ensures var (w', m', ok) := UpdateState(w, m, id, s);
      ok && m.base.nodeRef.Some? ==> NodeCarries(w', NodeName(m.base), Pid(id))
  {
    hide Acts, NoNodeWrites;
    var (w1, labelled) := LabelNode(w, m.base, id, s);
    if labelled && m.base.nodeRef.Some? {
      assert NodeCarries(w1, NodeName(m.base), Pid(id));
      ActsKeepNodeIds(w1, s.prismCentral.before);
    }
  }

  lemma PatchKeepsNodes(w: World, m: Memory, s: Script)
    requires NodesLeftAlone(s)
    ensures NodeIdsKept(w, Patch(w, m, s).0)
  {
    hide Acts, NoNodeWrites;
    var w1 := Acts(w, s.patchSpec.before);
    ActsKeepNodeIds(w, s.patchSpec.before);
    var w2 := w1.(machine := w1.machine.(providerID := Merged(m.base.providerID, m.providerID, w1.machine.providerID)));
    ActsKeepNodeIds(w2, s.patchStatus.before);
  }

  /**
   The Node that a non-nil NodeRef names, which for an empty name is the one called like the machine,
   carries the VM's ID if it is there.
   */
  predicate NodeMarked(w: World, base: Machine, id: string) {
    && (base.nodeRef.Some? && base.nodeRef.value != "" && base.nodeRef.value in w.nodes ==>
          w.nodes[base.nodeRef.value].providerID == "nutanix://" + id)
    && (base.nodeRef == Some("") && base.name in w.nodes ==>
          w.nodes[base.name].providerID == "nutanix://" + id)
  }

  /** The identity of VM id is stored in both fields, and on the Node if there is one. */
  ghost predicate FullyIdentified(w: World, base: Machine, id: string) {
    && w.machine.vmUUID == Some(id)
    && w.machine.providerID == Some("nutanix://" + id)
    && NodeMarked(w, base, id)
  }

  /**
   After any Create or Update that returned no error, from any world: one identity is stored in both
   fields, and the Node named by a non-nil NodeRef, if it is still there, carries it.
   */
  lemma SuccessIdentifies(w: World, op: Op, s: Script)
    requires op == CreateOp || op == UpdateOp
    requires LegalHostName(w.machine.name) && NodesLeftAlone(s)
    requires Do(w, op, s).ok
    ensures exists id :: FullyIdentified(Do(w, op, s).w, Opened(w, op, s).machine, id)
  {
    hide CreateVm, UpdateState, Lifecycle.Lookup, Patch, Opened, Errors, Overridden, LabelOk, IsNotFound, Quiet, NodesLeftAlone;
    OpenedStage(w, op, s);
    var w0 := Opened(w, op, s);
    var m0 := Snapshot(w0);
    var (w1, m, ok) := Reconcile(w0, op, m0, s);
    var (w2, r) := if op == CreateOp then CreateVm(w0, m0, s) else Lifecycle.Lookup(w0, m0, s);
    CreateVmStage(w0, m0, s);
    LookupStage(w0, m0, s);
    var id := r.value;
    var m1 := if op == CreateOp then m0 else m0.(vmUUID := Some(id));
    UpdateStateStage(w2, m1, id, s);
    UpdateStateLabels(w2, m1, id, s);
    PatchStage(w1, m, s);
    PatchKeepsNodes(w1, m, s);
    assert FullyIdentified(Patch(w1, m, s).0, w0.machine, id);
  }

  // ---------------------------------------------------------------- What a Delete leaves

  /** Every VM of the name is the recorded one. */
  predicate OnlyRecordedNamed(w: World) {
    w.machine.vmUUID.Some? ==> Named(w) <= {w.machine.vmUUID.value}
  }

  /**
   A Delete that returns no error leaves no VM of the machine's name exactly when nothing was
   recorded or only the recorded VM bears the name: by name it never gives up on a live VM, by a
   stale UUID it does.
   */
  lemma DeleteExact(w: World, s: Script)
    requires LegalHostName(w.machine.name) && QuietScript(s)
    requires Do(w, DeleteOp, s).ok
    ensures Named(Do(w, DeleteOp, s).w) == {} <==> OnlyRecordedNamed(w)
  {
    hide Lifecycle.Lookup, VolumesDetached, DeleteVm, Patch, Opened, IsNotFound, Quiet;
    OpenedStage(w, DeleteOp, s);
    var w0 := Opened(w, DeleteOp, s);
    var m0 := Snapshot(w0);
    LookupStage(w0, m0, s);
    var (w1, r) := Lifecycle.Lookup(w0, m0, s);
    if r.Ok? {
      VolumesStage(w1, m0.base, s);
      DeleteVmCalls(VolumesDetached(w1, m0.base, s).0, r.value, s.deleteVm, s.awaitDelete);
    }
    var (w2, m, _) := Delete(w0, m0, s);
    PatchStage(w2, m, s);
  }

  // ---------------------------------------------------------------- Runs on which it goes wrong

  function SmoothCall(): Call { Call([], NoFault) }

  function SmallMachine(providerID: Option<string>, vmUUID: Option<string>): Machine {
    Machine("m", map[CLUSTER_LABEL := "c"],
            SmallSpec(Identifier(KindUuid, Some("img"), None), Identifier(KindUuid, Some("net"), None)),
            providerID, None, vmUUID)
  }

  function SmoothScript(): Script {
    Script([], false, None, Some(""), NamelessCatalogue(), SmoothCall(), SmoothCall(), SmoothCall(), SmoothCall(), "new",
           SmoothCall(), SmoothCall(), SmoothCall(), SmoothCall(), SmoothCall(), SmoothCall(), SmoothCall(), SmoothCall(), SmoothCall(), SmoothCall())
  }

  /** The recorded VM u1 was removed from outside; u2 of the same name is alive. */
  function StaleWorld(): World {
    World(map["u2" := Vm("m", true, [])], {"u1", "u2"},
          SmallMachine(Some(Pid("u1")), Some("u1")), map[], [])
  }

  lemma StaleLookup()
    ensures IsNotFound(VM_NOT_FOUND)
    ensures LegalHostName("m")
    ensures Named(StaleWorld()) == {"u2"}
    ensures "u1" != "u2"
  {
    assert ToLower(VM_NOT_FOUND) == "vm_not_found";
    assert "vm_not_found"[3..12] == UNDERSCORED;
    assert OccursAt("vm_not_found", UNDERSCORED, 3);
    assert "u1"[1] != "u2"[1];
  }

  lemma StaleDelete(w: World)
    requires w.machine == StaleWorld().machine && w.cloud == StaleWorld().cloud
    ensures Delete(w, Snapshot(w), SmoothScript()) == (w, Snapshot(w), true)
  {
    hide IsNotFound, VolumesDetached, DeleteVm;
    StaleLookup();
    assert GetVm(w, "u1", SmoothCall()) == (w, Err(VM_NOT_FOUND));
  }

  lemma SmoothScriptPatch(w: World, m: Memory)
    ensures Patch(w, m, SmoothScript()).1
    ensures Patch(w, m, SmoothScript()).0.cloud == w.cloud
    ensures Patch(w, m, SmoothScript()).0.machine.name == w.machine.name
  {
  }

  /** A Delete of that machine reports success and leaves u2 behind. */
  lemma DeleteCanLeaveAnOrphan()
    ensures var r := Do(StaleWorld(), DeleteOp, SmoothScript());
      r.ok && Named(r.w) == {"u2"}
  {
    hide Delete, Patch, IsNotFound;
    StaleLookup();
    var w0 := Opened(StaleWorld(), DeleteOp, SmoothScript());
    StaleDelete(w0);
    SmoothScriptPatch(w0, Snapshot(w0));
  }

  lemma StaleGet(w: World)
    requires w.cloud == StaleWorld().cloud
    ensures GetVm(w, "u1", SmoothCall()) == (w, Err(VM_NOT_FOUND))
  {
    hide IsNotFound;
    StaleLookup();
  }

  lemma StaleFind(w: World)
    requires w.machine == StaleWorld().machine && w.cloud == StaleWorld().cloud
    ensures FindVmByName(w, SmoothCall(), SmoothCall()) == (Log(Log(w, Listed({"u2"})), Got("u2")), Ok("u2"))
  {
    hide IsNotFound, Honest, ListError, ZeroMatchesError, AmbiguousError, NilIdError, LegalHostName;
    StaleLookup();
    assert Named(w) == {"u2"};
  }

  lemma StaleAdoption(w: World, s: Script)
    requires s == SmoothScript().(patchStatus := s.patchStatus)
    requires w.machine == StaleWorld().machine && w.cloud == StaleWorld().cloud
    ensures CreateVm(w, Snapshot(w), s) == (Log(Log(w, Listed({"u2"})), Got("u2")), Ok("u2"))
  {
    hide IsNotFound, CreateNew, GetVm, FindVmByName, LegalHostName, Named;
    StaleLookup();
    StaleGet(w);
    StaleFind(w);
  }

  lemma StaleCreate(w: World, s: Script)
    requires s == SmoothScript().(patchStatus := s.patchStatus)
    requires w.machine == StaleWorld().machine && w.cloud == StaleWorld().cloud
    ensures var (w', m', ok) := Create(w, Snapshot(w), s);
      && m' == Memory(w.machine, Some(Pid("u2")), Some("u2"))
      && w'.machine == w.machine
  {
    hide CreateVm, Errors;
    StaleAdoption(w, s);
    SmallSpecValidates(Identifier(KindUuid, Some("img"), None), Identifier(KindUuid, Some("net"), None));
  }

  /** A Create of that machine whose status patch is lost persists u2's ProviderID beside u1's VmUUID. */
  lemma CreateCanSplitIdentity()
    ensures var s := SmoothScript().(patchStatus := Call([], Fail("lost")));
            var m' := Do(StaleWorld(), CreateOp, s).w.machine;
      m'.providerID == Some(Pid("u2")) && m'.vmUUID == Some("u1") && !Agree(m')
  {
    hide Create, IsNotFound;
    var s := SmoothScript().(patchStatus := Call([], Fail("lost")));
    var w0 := Opened(StaleWorld(), CreateOp, s);
    StaleCreate(w0, s);
    StaleLookup();
    PidsDiffer();
  }

  lemma PidsDiffer()
    ensures Pid("u1") != Pid("u2")
  {
    assert Pid("u1")[11] == '1' && Pid("u2")[11] == '2';
  }
}
