/**
 Without faults or interference: Create is idempotent, Exists agrees with Create and Delete, and what
 a Create leaves of the VM's power and a Delete of the stored identity.
 */
module LifecycleFaultless {
  import opened Basics
  import opened Text
  import opened ProviderSpec
  import opened Validation
  import opened Builder
  import opened Lifecycle
  import opened LifecycleCalls
  import opened LifecycleStages
  import opened LifecycleRuns
  import opened LifecycleExact

  predicate Smooth(c: Call) { c == Call([], NoFault) }

  /** Every call of the reconciler succeeds and nobody else acts meanwhile. */
  predicate SmoothCalls(s: Script) {
    && Smooth(s.getRecorded) && Smooth(s.list) && Smooth(s.getListed) && Smooth(s.create) && Smooth(s.powerOn)
    && Smooth(s.awaitPower) && Smooth(s.getCreated) && Smooth(s.getNode) && Smooth(s.setNode)
    && Smooth(s.prismCentral) && Smooth(s.deleteVm) && Smooth(s.awaitDelete)
  }

  /** So do the two patches, and the whole operation is undisturbed. */
  predicate Faultless(s: Script) {
    !s.scopeFails && s.before == [] && SmoothCalls(s) && Smooth(s.patchSpec) && Smooth(s.patchStatus)
  }

  lemma NotFoundText()
    ensures IsNotFound(VM_NOT_FOUND)
  {
    StaleLookup();
  }

  /** The stored machine apart from its identity, and everything else the controller may not change here. */
  predicate SameSettings(w: World, w': World) {
    w'.machine.(providerID := w.machine.providerID, vmUUID := w.machine.vmUUID) == w.machine
  }

  lemma SmoothGet(w: World, id: string, c: Call)
    requires Smooth(c)
    ensures GetVm(w, id, c) == if id in w.cloud then (Log(w, Got(id)), Ok(id)) else (w, Err(VM_NOT_FOUND))
  {
  }

  /** The Node that a non-nil NodeRef names, which for an empty name is the one called like the machine, exists. */
  predicate NodeThere(w: World, base: Machine) {
    && (base.nodeRef.Some? && base.nodeRef.value != "" ==> base.nodeRef.value in w.nodes)
    && (base.nodeRef == Some("") ==> base.name in w.nodes)
  }

  /** The Nodes once that one carries the ID. */
  function NodesAfter(w: World, base: Machine, id: string): map<string, Node>
    requires NodeThere(w, base)
  {
    if base.nodeRef.None? then w.nodes
    else if base.nodeRef.value == "" then w.nodes[base.name := w.nodes[base.name].(providerID := "nutanix://" + id)]
    else w.nodes[base.nodeRef.value := w.nodes[base.nodeRef.value].(providerID := "nutanix://" + id)]
  }

  /** The Node part of an operation that went through, and that another one finds already done. */
  predicate NodeReady(w: World, base: Machine, id: string) {
    NodeThere(w, base) && NodeMarked(w, base, id)
  }

  lemma SmoothUpdateState(w: World, m: Memory, id: string, s: Script)
    requires SmoothCalls(s)
    ensures var (w', m', ok) := UpdateState(w, m, id, s);
      && w'.cloud == w.cloud && w'.machine == w.machine
      && m' == m.(providerID := Some(Pid(id)))
      && (ok <==> NodeThere(w, m.base))
      && (ok ==> NodeReady(w', m.base, id) && w'.nodes == NodesAfter(w, m.base, id))
      && (!ok ==> w'.nodes == w.nodes)
  {
  }

  lemma SmoothPatch(w: World, m: Memory, s: Script)
    requires Faultless(s) && Fresh(w, m)
    ensures Patch(w, m, s) == (w.(machine := w.machine.(providerID := m.providerID, vmUUID := m.vmUUID)), true)
  {
  }

  lemma SmoothFind(w: World, s: Script)
    requires SmoothCalls(s) && LegalHostName(w.machine.name)
    ensures var (w', r) := FindVmByName(w, s.list, s.getListed);
      && w'.cloud == w.cloud && w'.machine == w.machine && w'.nodes == w.nodes
      && (r.Ok? ==> r.value in w.cloud)
      && (r.Err? && IsNotFound(r.error) <==> Named(w) == {})
  {
    hide IsNotFound;
    var ids := Named(w);
    ClassificationIsRight(w.machine.name, |ids|, "");
    if |ids| == 1 {
      SmoothGet(Log(w, Listed(ids)), TheOnly(ids), s.getListed);
    }
  }

  lemma SmoothCreateVm(w: World, m: Memory, s: Script)
    requires SmoothCalls(s)
    ensures var (w', r) := CreateVm(w, m, s);
      && w'.machine == w.machine && w'.nodes == w.nodes
      && (m.vmUUID.Some? && m.vmUUID.value in w.cloud ==> r == Ok(m.vmUUID.value) && w'.cloud == w.cloud)
  {
    hide IsNotFound, Build, ListError, ZeroMatchesError, AmbiguousError, NilIdError, GetVm, FindVmByName, CreateNew;
    var w1 := w;
    if m.vmUUID.Some? {
      SmoothGet(w, m.vmUUID.value, s.getRecorded);
      w1 := GetVm(w, m.vmUUID.value, s.getRecorded).0;
    }
    SmoothFindFrame(w1, s);
    SmoothCreateNewFrame(FindVmByName(w1, s.list, s.getListed).0, m.base, s);
  }

  lemma SmoothFindFrame(w: World, s: Script)
    requires SmoothCalls(s)
    ensures var w' := FindVmByName(w, s.list, s.getListed).0;
      w'.machine == w.machine && w'.nodes == w.nodes
  {
    hide IsNotFound, ListError, ZeroMatchesError, AmbiguousError, NilIdError;
  }

  lemma SmoothCreateNewFrame(w: World, base: Machine, s: Script)
    requires SmoothCalls(s)
    ensures var w' := CreateNew(w, base, s).0;
      w'.machine == w.machine && w'.nodes == w.nodes
  {
    hide Build;
  }

  /** Where a faultless, successful Create leaves the world. */
  ghost predicate Settled(w: World, id: string) {
    && w.machine.vmUUID == Some(id)
    && w.machine.providerID == Some(Pid(id))
    && id in w.cloud
    && NodeReady(w, w.machine, id)
  }

  /** The checks a Create makes before it talks to the cloud. */
  predicate Admitted(base: Machine, s: Script) {
    LabelOk(base.labels) && s.userData.Some? && Errors(s.catalogue, Overridden(base.spec, s.failureDomain)) == []
  }

  lemma CreateSettles(w: World, s: Script) returns (id: string)
    requires LegalHostName(w.machine.name) && Faultless(s)
    requires Do(w, CreateOp, s).ok
    ensures var w' := Do(w, CreateOp, s).w;
      Settled(w', id) && SameSettings(w, w') && Admitted(w.machine, s)
  {
    hide CreateVm, UpdateState, Patch, Errors, Overridden, LabelOk, IsNotFound, Faultless, SmoothCalls;
    OpenSmooth(w, CreateOp, s);
    var w0 := Opened(w, CreateOp, s);
    var m0 := Snapshot(w0);
    SmoothCreateVm(w0, m0, s);
    CreateVmStage(w0, m0, s);
    var (w1, r) := CreateVm(w0, m0, s);
    id := if r.Ok? then r.value else "";
    SmoothUpdateState(w1, m0, id, s);
    var (w2, m, ok) := Create(w0, m0, s);
    SmoothPatch(w2, m, s);
  }

  lemma OpenSmooth(w: World, op: Op, s: Script)
    requires Faultless(s)
    ensures Opened(w, op, s) == Log(w, Started(op, w.machine)) && !s.scopeFails && SmoothCalls(s)
  {
  }

  /**
   A second Create, on the same inputs, succeeds, leaves the cloud as it is and records the same UUID.
   */
  lemma CreateIsIdempotent(w: World, s1: Script, s2: Script)
    requires LegalHostName(w.machine.name) && Faultless(s1) && Faultless(s2)
    requires Do(w, CreateOp, s1).ok
    requires s2 == s1.(newId := s2.newId)
    ensures var r1 := Do(w, CreateOp, s1);
            var r2 := Do(r1.w, CreateOp, s2);
      && r2.ok && r2.w.cloud == r1.w.cloud && r2.w.machine == r1.w.machine && r1.w.machine.vmUUID.Some?
  {
    hide CreateVm, UpdateState, Patch, Errors, Overridden, LabelOk, IsNotFound, Faultless, SmoothCalls, NodeReady, Do;
    var id := CreateSettles(w, s1);
    SettledCreate(Do(w, CreateOp, s1).w, id, s2);
  }

  lemma SettledCreate(w: World, id: string, s: Script)
    requires Settled(w, id) && Faultless(s) && Admitted(w.machine, s)
    ensures var r := Do(w, CreateOp, s);
      r.ok && r.w.cloud == w.cloud && r.w.machine == w.machine
  {
    hide CreateVm, UpdateState, Patch, Errors, Overridden, LabelOk, IsNotFound, Faultless, SmoothCalls;
    OpenSmooth(w, CreateOp, s);
    var w0 := Opened(w, CreateOp, s);
    var m0 := Snapshot(w0);
    SmoothCreateVm(w0, m0, s);
    var (w1, r) := CreateVm(w0, m0, s);
    SmoothUpdateState(w1, m0, id, s);
    var (w2, m, ok) := Create(w0, m0, s);
    SmoothPatch(w2, m, s);
  }

  /** Exists answers yes after a successful Create. */
  lemma ExistsAfterCreate(w: World, s1: Script, s2: Script)
    requires LegalHostName(w.machine.name) && Faultless(s1) && Faultless(s2)
    requires Do(w, CreateOp, s1).ok
    ensures var r := Do(Do(w, CreateOp, s1).w, ExistsOp, s2);
      r.ok && r.found
  {
    hide GetVm, Patch, Errors, Overridden, LabelOk, IsNotFound, Faultless, SmoothCalls, ReconcileAndPatch;
    var id := CreateSettles(w, s1);
    var w1 := Do(w, CreateOp, s1).w;
    OpenSmooth(w1, ExistsOp, s2);
    SmoothScriptGet(Opened(w1, ExistsOp, s2), id, s2);
  }

  lemma SmoothScriptGet(w: World, id: string, s: Script)
    requires SmoothCalls(s)
    ensures GetVm(w, id, s.getRecorded) == if id in w.cloud then (Log(w, Got(id)), Ok(id)) else (w, Err(VM_NOT_FOUND))
  {
    SmoothGet(w, id, s.getRecorded);
  }

  /** Exists itself changes nothing but the log of what was asked, whichever of its calls fail. */
  lemma ExistsIsReadOnly(w: World, s: Script)
    requires s.before == [] && s.getRecorded.before == [] && s.list.before == [] && s.getListed.before == []
    ensures Do(w, ExistsOp, s).w.(trace := w.trace) == w
  {
    hide IsNotFound, Honest, ListError, ZeroMatchesError, AmbiguousError, NilIdError, LabelOk;
  }

  lemma SmoothDeleteVm(w: World, id: string, s: Script)
    requires SmoothCalls(s)
    ensures var (w', gone) := DeleteVm(w, id, s.deleteVm, s.awaitDelete);
      w'.cloud == w.cloud - {id} && w'.machine == w.machine
  {
    hide IsNotFound;
    assert id !in w.cloud ==> w.cloud - {id} == w.cloud;
  }

  /** Exists answers no after a successful Delete. */
  lemma ExistsAfterDelete(w: World, s1: Script, s2: Script)
    requires LegalHostName(w.machine.name) && LabelOk(w.machine.labels)
    requires Faultless(s1) && Faultless(s2)
    requires Do(w, DeleteOp, s1).ok
    ensures var r := Do(Do(w, DeleteOp, s1).w, ExistsOp, s2);
      r.ok && !r.found
  {
    hide GetVm, FindVmByName, LabelOk, IsNotFound, Faultless, SmoothCalls, ReconcileAndPatch, Lifecycle.Lookup;
    DeleteSettles(w, s1);
    var w1 := Do(w, DeleteOp, s1).w;
    OpenSmooth(w1, ExistsOp, s2);
    var w2 := Opened(w1, ExistsOp, s2);
    SettledLookup(w2, s2);
  }

  /** Where a faultless, successful Delete leaves the world: the next lookup finds nothing. */
  ghost predicate Vacated(w: World) {
    if w.machine.vmUUID.Some? then w.machine.vmUUID.value !in w.cloud else Named(w) == {}
  }

  lemma SettledLookup(w: World, s: Script)
    requires LegalHostName(w.machine.name) && SmoothCalls(s) && Vacated(w)
    ensures var (_, r) := Lifecycle.Lookup(w, Snapshot(w), s);
      r.Err? && IsNotFound(r.error)
  {
    hide GetVm, FindVmByName, IsNotFound, SmoothCalls;
    NotFoundText();
    if w.machine.vmUUID.Some? { SmoothScriptGet(w, w.machine.vmUUID.value, s); } else { SmoothFind(w, s); }
  }

  lemma DeleteSettles(w: World, s: Script)
    requires LegalHostName(w.machine.name) && Faultless(s)
    requires Do(w, DeleteOp, s).ok
    ensures var w' := Do(w, DeleteOp, s).w;
      Vacated(w') && SameSettings(w, w')
  {
    hide Lifecycle.Lookup, VolumesDetached, DeleteVm, Patch, IsNotFound, Faultless, SmoothCalls;
    OpenSmooth(w, DeleteOp, s);
    var w0 := Opened(w, DeleteOp, s);
    var m0 := Snapshot(w0);
    LookupStage(w0, m0, s);
    SmoothLookupFrame(w0, m0, s);
    var (w1, r) := Lifecycle.Lookup(w0, m0, s);
    if r.Ok? {
      SmoothVolumesFrame(w1, m0.base, s);
      var w2 := VolumesDetached(w1, m0.base, s).0;
      SmoothDeleteVm(w2, r.value, s);
    }
    var (w3, m, _) := Delete(w0, m0, s);
    SmoothPatch(w3, m, s);
  }

  lemma SmoothLookupFrame(w: World, m: Memory, s: Script)
    requires SmoothCalls(s)
    ensures Lifecycle.Lookup(w, m, s).0.machine == w.machine
  {
    hide IsNotFound, ListError, ZeroMatchesError, AmbiguousError, NilIdError;
  }

  lemma SmoothVolumesFrame(w: World, base: Machine, s: Script)
    requires SmoothCalls(s)
    ensures VolumesDetached(w, base, s).0.machine == w.machine && VolumesDetached(w, base, s).0.cloud == w.cloud
  {
  }

  // ---------------------------------------------------------------- Power and the provider ID

  /** A VM is created under the machine's name with the built categories, and is on. */
  lemma SmoothCreateNew(w: World, base: Machine, s: Script)
    requires SmoothCalls(s)
    ensures var (w', r) := CreateNew(w, base, s);
      && (r.Ok? <==> Target(base, s).Ok? && !Taken(w, s.newId))
      && (r.Ok? ==>
            && r.value == s.newId
            && w'.cloud == w.cloud[s.newId := Vm(base.name, true, Target(base, s).value.categories)])
  {
    hide Build;
    TargetName(base, s);
  }

  /** The VM a create settles on: the recorded one if it lives, else the only one of the name, else a new one. */
  function Chosen(w: World, recorded: Option<string>, s: Script): string {
    if recorded.Some? && recorded.value in w.cloud then recorded.value
    else if |Named(w)| == 1 then TheOnly(Named(w))
    else s.newId
  }

  /** There is a VM to settle on, or one can be made. */
  predicate Settles(w: World, base: Machine, recorded: Option<string>, s: Script) {
    || (recorded.Some? && recorded.value in w.cloud)
    || |Named(w)| == 1
    || (Named(w) == {} && Target(base, s).Ok? && !Taken(w, s.newId))
  }

  /** The cloud after that: unchanged, or with the new VM, which is on. */
  function CloudAfter(w: World, base: Machine, recorded: Option<string>, s: Script): map<string, Vm>
    requires Settles(w, base, recorded, s)
  {
    assert |Named(w)| == 1 ==> TheOnly(Named(w)) in Named(w);
    if Chosen(w, recorded, s) in w.cloud then w.cloud
    else w.cloud[s.newId := Vm(base.name, true, Target(base, s).value.categories)]
  }

  /** createVM, when no call fails, as a function of the world it starts in. */
  lemma SmoothCreateVmExact(w: World, m: Memory, s: Script)
    requires LegalHostName(w.machine.name) && SmoothCalls(s)
    ensures var (w', r) := CreateVm(w, m, s);
      && (r.Ok? <==> Settles(w, m.base, m.vmUUID, s))
      && (r.Ok? ==> r.value == Chosen(w, m.vmUUID, s) && w'.cloud == CloudAfter(w, m.base, m.vmUUID, s))
  {
    hide IsNotFound, GetVm, FindVmByName, CreateNew, Target, LegalHostName, SmoothCalls;
    var w1 := w;
    if m.vmUUID.Some? {
      NotFoundText();
      SmoothScriptGet(w, m.vmUUID.value, s);
      w1 := GetVm(w, m.vmUUID.value, s.getRecorded).0;
    }
    SmoothFind(w1, s);
    SmoothFindExact(w1, s);
    SmoothCreateNew(FindVmByName(w1, s.list, s.getListed).0, m.base, s);
  }

  lemma SmoothFindExact(w: World, s: Script)
    requires LegalHostName(w.machine.name) && SmoothCalls(s)
    ensures var (w', r) := FindVmByName(w, s.list, s.getListed);
      && (r.Ok? <==> |Named(w)| == 1)
      && (r.Ok? ==> r.value == TheOnly(Named(w)))
      && w'.used == w.used
  {
    hide IsNotFound, ListError, ZeroMatchesError, AmbiguousError, NilIdError, LegalHostName;
    var ids := Named(w);
    if |ids| == 1 { SmoothGet(Log(w, Listed(ids)), TheOnly(ids), s.getListed); }
  }

  lemma SmoothGetRecorded(w: World, id: string, s: Script)
    requires SmoothCalls(s)
    ensures var (w', r) := GetVm(w, id, s.getRecorded);
      w'.cloud == w.cloud && (r.Ok? ==> r.value == id && id in w.cloud)
  {
  }

  lemma SmoothFindCloud(w: World, s: Script)
    requires SmoothCalls(s)
    ensures var (w', r) := FindVmByName(w, s.list, s.getListed);
      w'.cloud == w.cloud && (r.Ok? ==> r.value in w.cloud)
  {
    hide IsNotFound, ListError, ZeroMatchesError, AmbiguousError, NilIdError;
  }

  /**
   A successful Create records the VM chosen in the world it started in: the recorded one if it lives,
   else the only one of the name, else a new one. That VM is on exactly when it is new or was on, so an
   adopted VM is not powered on, and no other VM changes.
   */
  lemma PowerAfterCreate(w: World, s: Script)
    requires LegalHostName(w.machine.name) && Faultless(s)
    requires Do(w, CreateOp, s).ok
    ensures var w', id := Do(w, CreateOp, s).w, Chosen(w, w.machine.vmUUID, s);
      && w'.machine.vmUUID == Some(id)
      && id in w'.cloud
      && (w'.cloud[id].on <==> id !in w.cloud || w.cloud[id].on)
      && w'.cloud - {id} == w.cloud - {id}
  {
    hide CreateVm, UpdateState, Patch, Errors, Overridden, LabelOk, IsNotFound, Faultless, SmoothCalls, Target, LegalHostName;
    OpenSmooth(w, CreateOp, s);
    var w0 := Opened(w, CreateOp, s);
    var m0 := Snapshot(w0);
    SmoothCreateVm(w0, m0, s);
    SmoothCreateVmExact(w0, m0, s);
    assert Named(w0) == Named(w);
    var (w1, r) := CreateVm(w0, m0, s);
    SmoothUpdateState(w1, m0, if r.Ok? then r.value else "", s);
    var (w2, m, ok) := Create(w0, m0, s);
    SmoothPatch(w2, m, s);
  }

  /** A machine whose VM exists under its name, switched off, and is not recorded. */
  function OffWorld(): World {
    World(map["u2" := Vm("m", false, [])], {"u2"}, SmallMachine(None, None), map[], [])
  }

  lemma OffCreate(w: World)
    requires w.machine == OffWorld().machine && w.cloud == OffWorld().cloud
    ensures var (w', m', ok) := Create(w, Snapshot(w), SmoothScript());
      ok && w'.cloud == w.cloud && m' == Memory(w.machine, Some(Pid("u2")), Some("u2"))
  {
    hide FindVmByName, CreateNew, Errors, IsNotFound;
    assert Named(w) == {"u2"};
    OffFind(w);
    SmallSpecValidates(Identifier(KindUuid, Some("img"), None), Identifier(KindUuid, Some("net"), None));
  }

  lemma OffFind(w: World)
    requires w.machine == OffWorld().machine && w.cloud == OffWorld().cloud && Named(w) == {"u2"}
    ensures var (w', r) := FindVmByName(w, SmoothCall(), SmoothCall());
      r == Ok("u2") && w'.cloud == w.cloud && w'.machine == w.machine
  {
    hide IsNotFound, Honest, ListError, ZeroMatchesError, AmbiguousError, NilIdError, LegalHostName;
  }

  /** Such a Create succeeds, and the VM stays off. */
  lemma CreateCanLeaveTheVmOff()
    ensures Faultless(SmoothScript())
    ensures var r := Do(OffWorld(), CreateOp, SmoothScript());
      && r.ok && r.w.machine.vmUUID == Some("u2")
      && "u2" in r.w.cloud && !r.w.cloud["u2"].on
  {
    hide Create, Patch, Faultless, SmoothCalls;
    SmoothScriptIsFaultless();
    var w0 := Opened(OffWorld(), CreateOp, SmoothScript());
    OffCreate(w0);
    var (w1, m, _) := Create(w0, Snapshot(w0), SmoothScript());
    CreateKeepsMachine(w0);
    SmoothPatch(w1, m, SmoothScript());
  }

  lemma SmoothScriptIsFaultless()
    ensures Faultless(SmoothScript())
  {
  }

  lemma CreateKeepsMachine(w: World)
    requires LegalHostName(w.machine.name)
    ensures Fresh(Create(w, Snapshot(w), SmoothScript()).0, Create(w, Snapshot(w), SmoothScript()).1)
  {
    hide Create, LegalHostName;
    ReconcileStage(w, CreateOp, Snapshot(w), SmoothScript());
  }

  /** A successful Delete clears the stored ProviderID exactly when it found a VM, and keeps VmUUID. */
  lemma DeleteClearsProviderID(w: World, s: Script)
    requires LegalHostName(w.machine.name) && Faultless(s)
    requires Do(w, DeleteOp, s).ok
    ensures var m' := Do(w, DeleteOp, s).w.machine;
      m' == w.machine.(providerID := if Vacated(w) then w.machine.providerID else None)
  {
    hide Lifecycle.Lookup, VolumesDetached, DeleteVm, Patch, IsNotFound, Faultless, SmoothCalls;
    OpenSmooth(w, DeleteOp, s);
    var w0 := Opened(w, DeleteOp, s);
    var m0 := Snapshot(w0);
    LookupStage(w0, m0, s);
    SmoothLookupFrame(w0, m0, s);
    SmoothLookupCloud(w0, m0, s);
    FaultlessIsQuiet(s);
    var (w1, r) := Lifecycle.Lookup(w0, m0, s);
    if r.Ok? {
      SmoothVolumesFrame(w1, m0.base, s);
      var w2 := VolumesDetached(w1, m0.base, s).0;
      SmoothDeleteVm(w2, r.value, s);
    }
    var (w3, m, _) := Delete(w0, m0, s);
    SmoothPatch(w3, m, s);
  }

  lemma SmoothLookupCloud(w: World, m: Memory, s: Script)
    requires SmoothCalls(s)
    ensures Lifecycle.Lookup(w, m, s).0.cloud == w.cloud
  {
    hide GetVm, FindVmByName, SmoothCalls;
    if m.vmUUID.Some? { SmoothGetRecorded(w, m.vmUUID.value, s); } else { SmoothFindCloud(w, s); }
  }

  lemma FaultlessIsQuiet(s: Script)
    requires Faultless(s)
    ensures QuietScript(s)
  {
  }
}
