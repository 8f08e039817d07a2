/** What the stages of an operation keep: looking up, creating, labelling the Node, deleting, patching. */
module LifecycleStages {
  import opened Basics
  import opened Text
  import opened ProviderSpec
  import opened Builder
  import opened Lifecycle
  import opened LifecycleCalls

  /** Nobody takes a VM of the machine's name away during the operation. */
  predicate QuietScript(s: Script) {
    && Quiet(s.before) && Quiet(s.getRecorded.before) && Quiet(s.list.before) && Quiet(s.getListed.before)
    && Quiet(s.create.before) && Quiet(s.powerOn.before) && Quiet(s.awaitPower.before) && Quiet(s.getCreated.before)
    && Quiet(s.getNode.before) && Quiet(s.setNode.before) && Quiet(s.prismCentral.before)
    && Quiet(s.deleteVm.before) && Quiet(s.awaitDelete.before)
    && Quiet(s.patchSpec.before) && Quiet(s.patchStatus.before)
  }

  /** Everything but the set of named VMs is as Kept says. */
  ghost predicate Evolved(w: World, w': World) {
    && w'.machine.name == w.machine.name
    && w'.machine.providerID == w.machine.providerID
    && w'.machine.vmUUID == w.machine.vmUUID
    && Grown(w, w')
  }

  /** At most one VM of the machine's name, or none that was not there before. */
  ghost predicate NoNewDuplicate(w: World, w': World) {
    Named(w') <= Named(w) || |Named(w')| <= 1
  }

  lemma LookupStage(w: World, m: Memory, s: Script)
    requires LegalHostName(w.machine.name)
    ensures var (w', r) := Lookup(w, m, s);
      && Calm(w, w', QuietScript(s), false)
      && (r.Ok? ==> r.value in w'.cloud)
      && (r.Ok? && m.vmUUID.Some? ==> r.value == m.vmUUID.value)
      && (r.Ok? && m.vmUUID.None? ==> r.value in Named(w) && Named(w') <= {r.value})
      && (r.Ok? && m.vmUUID.None? && QuietScript(s) ==> Named(w) == {r.value})
      && (r.Err? && IsNotFound(r.error) && m.vmUUID.None? ==> Named(w') == {})
      && (r.Err? && IsNotFound(r.error) && m.vmUUID.Some? ==> m.vmUUID.value !in w'.cloud)
  {
    hide IsNotFound, GetVm, FindVmByName, Quiet;
    if m.vmUUID.Some? {
      GetVmCalls(w, m.vmUUID.value, s.getRecorded);
    } else {
      FindVmByNameCalls(w, s.list, s.getListed);
    }
  }

  lemma CreateCallStage(w: World, vm: BuiltVm, id: string, c: Call)
    requires vm.name == w.machine.name
    ensures var (w', r) := CreateCall(w, vm, id, c);
      && Evolved(w, w')
      && Named(w') <= Named(w) + {id}
      && (r.Ok? ==> r.value == id && id !in w.used)
      && (Quiet(c.before) ==> Named(w) <= Named(w'))
      && (Quiet(c.before) && r.Ok? ==> id in Named(w'))
  {
    ActsKeep(w, c.before);
  }

  lemma FinishCreateStage(w: World, id: string, s: Script)
    ensures var (w', r) := FinishCreate(w, id, s);
      && Calm(w, w', QuietScript(s), false)
      && (r.Ok? ==> r.value == id && id in w'.cloud)
  {
    hide PowerCall, GetVm, Quiet, IsNotFound, Honest;
    PowerCalls(w, id, s.powerOn, false);
    var (w1, submitted) := PowerCall(w, id, s.powerOn, false);
    if submitted {
      PowerCalls(w1, id, s.awaitPower, true);
      var (w2, done) := PowerCall(w1, id, s.awaitPower, true);
      GetVmCalls(w2, id, s.getCreated);
    }
  }

  lemma CreateNewStage(w: World, base: Machine, s: Script)
    requires base.name == w.machine.name
    ensures var (w', r) := CreateNew(w, base, s);
      && Evolved(w, w')
      && Named(w') <= Named(w) + {s.newId}
      && (r.Ok? ==> r.value in w'.cloud && r.value == s.newId)
      && (QuietScript(s) ==> Named(w) <= Named(w'))
      && (QuietScript(s) && r.Ok? ==> r.value in Named(w'))
  {
    hide Build, CreateCall, FinishCreate, Quiet;
    var t := Target(base, s);
    if t.Ok? {
      TargetName(base, s);
      CreateCallStage(w, t.value, s.newId, s.create);
      var (w1, r) := CreateCall(w, t.value, s.newId, s.create);
      if r.Ok? { FinishCreateStage(w1, s.newId, s); }
    }
  }

  lemma TargetName(base: Machine, s: Script)
    ensures Target(base, s).Ok? ==> Target(base, s).value.name == base.name
  {
  }

  lemma AdoptOrCreateStage(w: World, base: Machine, s: Script)
    requires LegalHostName(w.machine.name) && base.name == w.machine.name
    ensures var (w', r) := AdoptOrCreate(w, base, s);
      && Evolved(w, w')
      && NoNewDuplicate(w, w')
      && (r.Ok? ==> r.value in w'.cloud)
      && (QuietScript(s) && |Named(w)| <= 1 ==>
            && |Named(w')| <= 1
            && (Named(w) != {} ==> Named(w') == Named(w))
            && (r.Ok? ==> Named(w') == {r.value}))
  {
    hide FindVmByName, CreateNew, Quiet, IsNotFound;
    FindVmByNameCalls(w, s.list, s.getListed);
    var (w1, r) := FindVmByName(w, s.list, s.getListed);
    if r.Err? && IsNotFound(r.error) {
      CreateNewStage(w1, base, s);
      var w2 := CreateNew(w1, base, s).0;
      SubsetSize(Named(w2), {s.newId});
    }
  }

  /** createVM never makes a second VM of the name, and answers with a VM that exists. */
  lemma CreateVmStage(w: World, m: Memory, s: Script)
    requires LegalHostName(w.machine.name) && m.base.name == w.machine.name
    ensures var (w', r) := CreateVm(w, m, s);
      && Evolved(w, w')
      && NoNewDuplicate(w, w')
      && (r.Ok? ==> r.value in w'.cloud)
      && (m.vmUUID.Some? && r.Ok? && m.vmUUID.value in w.cloud && Sparing(s.getRecorded.before) ==> r.value == m.vmUUID.value)
      && (QuietScript(s) && |Named(w)| <= 1 && (m.vmUUID.Some? ==> m.vmUUID.value in Named(w)) ==>
            && |Named(w')| <= 1
            && (Named(w) != {} ==> Named(w') == Named(w))
            && (r.Ok? ==> Named(w') == {r.value}))
  {
    hide GetVm, AdoptOrCreate, Quiet, Sparing, IsNotFound;
    if m.vmUUID.None? {
      AdoptOrCreateStage(w, m.base, s);
    } else {
      GetVmCalls(w, m.vmUUID.value, s.getRecorded);
      var (w1, r) := GetVm(w, m.vmUUID.value, s.getRecorded);
      if |Named(w)| <= 1 && m.vmUUID.value in Named(w) {
        OneElement(Named(w), m.vmUUID.value);
      }
      if r.Err? && IsNotFound(r.error) {
        AdoptOrCreateStage(w1, m.base, s);
        SubsetSize(Named(w1), Named(w));
      }
    }
  }

  lemma OneElement<T>(s: set<T>, x: T)
    requires |s| <= 1 && x in s
    ensures s == {x}
  {
    assert |s - {x}| == 0;
  }

  lemma LabelNodeStage(w: World, base: Machine, id: string, s: Script)
    ensures Calm(w, LabelNode(w, base, id, s).0, QuietScript(s), false)
  {
    hide GetNode, SetNodeID, Quiet;
    if base.nodeRef.Some? {
      GetNodeCalls(w, NodeName(base), s.getNode);
      var w1 := GetNode(w, NodeName(base), s.getNode).0;
      SetNodeCalls(w1, NodeName(base), Pid(id), s.setNode);
    }
  }

  lemma UpdateStateStage(w: World, m: Memory, id: string, s: Script)
    ensures var (w', m', ok) := UpdateState(w, m, id, s);
      && Calm(w, w', QuietScript(s), false)
      && m' == m.(providerID := Some(Pid(id)))
  {
    hide LabelNode, Quiet;
    LabelNodeStage(w, m.base, id, s);
    ReadCalls(LabelNode(w, m.base, id, s).0, s.prismCentral);
  }

  lemma VolumesStage(w: World, base: Machine, s: Script)
    ensures Calm(w, VolumesDetached(w, base, s).0, QuietScript(s), false)
  {
    hide GetNode, Quiet;
    if NodeLinked(base) {
      GetNodeCalls(w, base.nodeRef.value, s.getNode);
    }
  }

  /** The two patches move nothing but the identity fields, the first only the one in the spec. */
  ghost predicate Saved(w: World, w': World, m: Memory) {
    && w'.machine.name == w.machine.name
    && Grown(w, w')
    && Named(w') <= Named(w)
    && (Merged(m.base.providerID, m.providerID, w.machine.providerID) == w'.machine.providerID
        || (w'.machine.providerID == w.machine.providerID && w'.machine.vmUUID == w.machine.vmUUID))
    && (Merged(m.base.vmUUID, m.vmUUID, w.machine.vmUUID) == w'.machine.vmUUID
        || w'.machine.vmUUID == w.machine.vmUUID)
  }

  lemma PatchStage(w: World, m: Memory, s: Script)
    ensures var (w', ok) := Patch(w, m, s);
      && Saved(w, w', m)
      && (QuietScript(s) ==> Named(w') == Named(w))
      && (ok ==> w'.machine.providerID == Merged(m.base.providerID, m.providerID, w.machine.providerID))
      && (ok ==> w'.machine.vmUUID == Merged(m.base.vmUUID, m.vmUUID, w.machine.vmUUID))
  {
    hide Quiet, Acts;
    var w1 := Acts(w, s.patchSpec.before);
    ActsKeep(w, s.patchSpec.before);
    if !s.patchSpec.fault.Fail? {
      var w2 := w1.(machine := w1.machine.(providerID := Merged(m.base.providerID, m.providerID, w1.machine.providerID)));
      ActsKeep(w2, s.patchStatus.before);
      assert Named(w2) == Named(w1);
    }
  }
}
