/**
 No VM is ever changed by the controller unless it issued a delete for it, and a VM of another name that
 is not the recorded one is never changed at all.
 */
module LifecycleFrame {
  import opened Basics
  import opened Text
  import opened ProviderSpec
  import opened Validation
  import opened Builder
  import opened Lifecycle
  import opened LifecycleCalls
  import opened LifecycleStages
  import opened LifecycleRuns
  import opened LifecycleTrace

  /** The actions leave VM v alone. */
  predicate Avoids(actions: seq<EnvAction>, v: string) {
    forall i :: 0 <= i < |actions| ==> AvoidsVm(actions[i], v)
  }

  predicate AvoidsVm(a: EnvAction, v: string) {
    && !(a.RemoveVm? && a.id == v)
    && !(a.RemoveOther? && a.id == v)
    && !(a.SetPower? && a.id == v)
  }

  predicate ScriptAvoids(s: Script, v: string) {
    && Avoids(s.before, v) && Avoids(s.getRecorded.before, v) && Avoids(s.list.before, v) && Avoids(s.getListed.before, v)
    && Avoids(s.create.before, v) && Avoids(s.powerOn.before, v) && Avoids(s.awaitPower.before, v)
    && Avoids(s.getCreated.before, v) && Avoids(s.getNode.before, v) && Avoids(s.setNode.before, v)
    && Avoids(s.prismCentral.before, v) && Avoids(s.deleteVm.before, v) && Avoids(s.awaitDelete.before, v)
    && Avoids(s.patchSpec.before, v) && Avoids(s.patchStatus.before, v)
  }

  predicate StepAvoids(step: Step, v: string) {
    match step
    case Operate(_, s) => ScriptAvoids(s, v)
    case Outside(a) => AvoidsVm(a, v)
  }

  /** v is a VM of another name. */
  predicate Foreign(w: World, v: string) { v in w.cloud && w.cloud[v].name != w.machine.name }

  /** v is exactly as it was. */
  predicate Same(w: World, w': World, v: string)
    requires v in w.cloud
  {
    v in w'.cloud && w'.cloud[v] == w.cloud[v] && w'.machine.name == w.machine.name
  }

  lemma {:induction false} ActsSame(w: World, actions: seq<EnvAction>, v: string)
    requires v in w.cloud && Avoids(actions, v)
    ensures Same(w, Acts(w, actions), v)
  {
    if actions != [] {
      var front := actions[..|actions| - 1];
      ActsSame(w, front, v);
      assert AvoidsVm(actions[|actions| - 1], v);
    }
  }

  lemma GetVmSame(w: World, id: string, c: Call, v: string)
    requires v in w.cloud && Avoids(c.before, v)
    ensures Same(w, GetVm(w, id, c).0, v)
    ensures GetVm(w, id, c).1.Ok? ==> GetVm(w, id, c).1.value == id
  {
    hide IsNotFound, Honest, Avoids;
    ActsSame(w, c.before, v);
  }

  lemma FindVmSame(w: World, list: Call, get: Call, v: string)
    requires v in w.cloud && Avoids(list.before, v) && Avoids(get.before, v)
    ensures var (w', r) := FindVmByName(w, list, get);
      Same(w, w', v) && (r.Ok? && Foreign(w, v) ==> r.value != v)
  {
    hide GetVm, IsNotFound, Honest, ListError, ZeroMatchesError, AmbiguousError, NilIdError, Avoids;
    ActsSame(w, list.before, v);
    var w1 := Acts(w, list.before);
    var ids := Named(w1);
    if |ids| == 1 { GetVmSame(Log(w1, Listed(ids)), TheOnly(ids), get, v); }
  }

  lemma LookupSame(w: World, m: Memory, s: Script, v: string)
    requires v in w.cloud && ScriptAvoids(s, v)
    ensures var (w', r) := Lifecycle.Lookup(w, m, s);
      Same(w, w', v) && (r.Ok? && Foreign(w, v) && m.vmUUID != Some(v) ==> r.value != v)
  {
    hide GetVm, FindVmByName, Avoids;
    if m.vmUUID.Some? { GetVmSame(w, m.vmUUID.value, s.getRecorded, v); } else { FindVmSame(w, s.list, s.getListed, v); }
  }

  lemma PowerSame(w: World, id: string, c: Call, effective: bool, v: string)
    requires v in w.cloud && Avoids(c.before, v) && id != v
    ensures Same(w, PowerCall(w, id, c, effective).0, v)
  {
    hide Avoids, Acts;
    ActsSame(w, c.before, v);
  }

  lemma CreateNewSame(w: World, base: Machine, s: Script, v: string)
    requires v in w.cloud && ScriptAvoids(s, v)
    ensures var (w', r) := CreateNew(w, base, s);
      Same(w, w', v) && (r.Ok? ==> r.value != v)
  {
    hide Build, Acts, PowerCall, GetVm, Avoids;
    var t := Target(base, s);
    if t.Ok? {
      ActsSame(w, s.create.before, v);
      var (w1, r) := CreateCall(w, t.value, s.newId, s.create);
      if r.Ok? {
        PowerSame(w1, s.newId, s.powerOn, false, v);
        var w2 := PowerCall(w1, s.newId, s.powerOn, false).0;
        PowerSame(w2, s.newId, s.awaitPower, true, v);
        GetVmSame(PowerCall(w2, s.newId, s.awaitPower, true).0, s.newId, s.getCreated, v);
      }
    }
  }

  lemma CreateVmSame(w: World, m: Memory, s: Script, v: string)
    requires v in w.cloud && ScriptAvoids(s, v)
    ensures var (w', r) := CreateVm(w, m, s);
      Same(w, w', v) && (r.Ok? && Foreign(w, v) && m.vmUUID != Some(v) ==> r.value != v)
  {
    hide GetVm, FindVmByName, CreateNew, Avoids, IsNotFound;
    var w1 := w;
    if m.vmUUID.Some? {
      GetVmSame(w, m.vmUUID.value, s.getRecorded, v);
      w1 := GetVm(w, m.vmUUID.value, s.getRecorded).0;
    }
    FindVmSame(w1, s.list, s.getListed, v);
    CreateNewSame(FindVmByName(w1, s.list, s.getListed).0, m.base, s, v);
  }

  lemma UpdateStateSame(w: World, m: Memory, id: string, s: Script, v: string)
    requires v in w.cloud && ScriptAvoids(s, v)
    ensures Same(w, UpdateState(w, m, id, s).0, v)
  {
    hide Acts, Avoids;
    if m.base.nodeRef.Some? {
      ActsSame(w, s.getNode.before, v);
      ActsSame(GetNode(w, NodeName(m.base), s.getNode).0, s.setNode.before, v);
    }
    ActsSame(LabelNode(w, m.base, id, s).0, s.prismCentral.before, v);
  }

  /** A delete of v was issued between the two worlds. */
  ghost predicate IssuedSince(w: World, w': World, v: string) {
    exists i :: |w.trace| <= i < |w'.trace| && w'.trace[i] == DeleteIssued(v)
  }

  /** A delete changes v only by issuing a delete of it. */
  lemma DeleteSame(w: World, m: Memory, s: Script, v: string)
    requires v in w.cloud && ScriptAvoids(s, v)
    ensures var w' := Delete(w, m, s).0;
      && (Same(w, w', v) || IssuedSince(w, w', v))
      && (Foreign(w, v) && m.vmUUID != Some(v) ==> Same(w, w', v))
  {
    hide Acts, Avoids, Lifecycle.Lookup, IsNotFound, Honest, VolumesDetached, DeleteVm;
    LookupSame(w, m, s, v);
    LookupTrace(w, m, s);
    var (w1, r) := Lifecycle.Lookup(w, m, s);
    if r.Ok? {
      VolumesSame(w1, m.base, s, v);
      var _ := VolumesTrace(w1, m.base, s);
      var (w2, clear) := VolumesDetached(w1, m.base, s);
      if clear {
        DeleteVmTrace(w2, r.value, s.deleteVm, s.awaitDelete);
        if r.value != v {
          DeleteVmSame(w2, r.value, s, v);
        } else {
          assert Delete(w, m, s).0.trace[|w2.trace|] == DeleteIssued(v);
        }
      }
    }
  }

  lemma VolumesSame(w: World, base: Machine, s: Script, v: string)
    requires v in w.cloud && ScriptAvoids(s, v)
    ensures Same(w, VolumesDetached(w, base, s).0, v)
  {
    hide Acts, Avoids;
    if NodeLinked(base) { ActsSame(w, s.getNode.before, v); }
  }

  lemma DeleteVmSame(w: World, id: string, s: Script, v: string)
    requires v in w.cloud && ScriptAvoids(s, v) && id != v
    ensures Same(w, DeleteVm(w, id, s.deleteVm, s.awaitDelete).0, v)
  {
    hide Acts, Avoids, IsNotFound, Honest;
    ActsSame(w, s.deleteVm.before, v);
    var (w1, r) := DeleteCall(w, id, s.deleteVm);
    assert v in w1.cloud;
    ActsSame(w1, s.awaitDelete.before, v);
  }

  lemma PatchSame(w: World, m: Memory, s: Script, v: string)
    requires v in w.cloud && ScriptAvoids(s, v)
    ensures var w' := Patch(w, m, s).0;
      Same(w, w', v) && (m.vmUUID != Some(v) && w.machine.vmUUID != Some(v) ==> w'.machine.vmUUID != Some(v))
  {
    hide Acts, Avoids;
    ActsSame(w, s.patchSpec.before, v);
    ActsKeep(w, s.patchSpec.before);
    var w1 := Acts(w, s.patchSpec.before);
    var w2 := w1.(machine := w1.machine.(providerID := Merged(m.base.providerID, m.providerID, w1.machine.providerID)));
    ActsSame(w2, s.patchStatus.before, v);
    ActsKeep(w2, s.patchStatus.before);
  }

  /** Reconciling changes v only by issuing a delete; a foreign v is never even held in memory. */
  lemma ReconcileSame(w: World, op: Op, m: Memory, s: Script, v: string)
    requires op != ExistsOp
    requires v in w.cloud && ScriptAvoids(s, v)
    ensures var (w', m', ok) := Reconcile(w, op, m, s);
      && (Same(w, w', v) || IssuedSince(w, w', v))
      && (Foreign(w, v) && m.vmUUID != Some(v) ==> Same(w, w', v) && m'.vmUUID != Some(v))
  {
    hide CreateVm, Lifecycle.Lookup, UpdateState, Delete, LabelOk, Errors, Overridden, ScriptAvoids, IssuedSince;
    match op
    case CreateOp =>
      CreateVmSame(w, m, s, v);
      var (w1, r) := CreateVm(w, m, s);
      if r.Ok? { UpdateStateSame(w1, m, r.value, s, v); UpdateStateMemory(w1, m, r.value, s); }
    case UpdateOp =>
      LookupSame(w, m, s, v);
      var (w1, r) := Lifecycle.Lookup(w, m, s);
      if r.Ok? {
        UpdateStateSame(w1, m.(vmUUID := Some(r.value)), r.value, s, v);
        UpdateStateMemory(w1, m.(vmUUID := Some(r.value)), r.value, s);
      }
    case DeleteOp =>
      DeleteSame(w, m, s, v);
      DeleteMemory(w, m, s);
  }

  lemma UpdateStateMemory(w: World, m: Memory, id: string, s: Script)
    ensures UpdateState(w, m, id, s).1 == m.(providerID := Some(Pid(id)))
  {
    hide LabelNode;
  }

  lemma DeleteMemory(w: World, m: Memory, s: Script)
    ensures Delete(w, m, s).1.vmUUID == m.vmUUID
  {
    hide Lifecycle.Lookup, VolumesDetached, DeleteVm, IsNotFound;
  }

  lemma OpenedSame(w: World, op: Op, s: Script, v: string)
    requires v in w.cloud && ScriptAvoids(s, v)
    ensures var w0 := Opened(w, op, s);
      Same(w, w0, v) && w0.machine.vmUUID == w.machine.vmUUID && |w.trace| <= |w0.trace|
  {
    hide Avoids;
    ActsSame(w, s.before, v);
    ActsKeep(w, s.before);
  }

  /** Each step changes v only by issuing a delete of it. */
  lemma StepSpares(w: World, step: Step, v: string)
    requires v in w.cloud && StepAvoids(step, v)
    ensures Same(w, Next(w, step), v) || IssuedSince(w, Next(w, step), v)
  {
    hide Lifecycle.Lookup, Reconcile, Patch, Avoids, LabelOk, IsNotFound, Opened, ScriptAvoids;
    match step
    case Outside(a) => ActSame(w, a, v);
    case Operate(op, s) =>
      OpenedSame(w, op, s, v);
      var w0 := Opened(w, op, s);
      var m0 := Snapshot(w0);
      if op == ExistsOp {
        LookupSame(w0, m0, s, v);
      } else {
        ReconcileSame(w0, op, m0, s, v);
        var (w1, m, _) := Reconcile(w0, op, m0, s);
        PatchTrace(w1, m, s);
        if Same(w0, w1, v) {
          PatchSame(w1, m, s, v);
        } else {
          var i :| |w0.trace| <= i < |w1.trace| && w1.trace[i] == DeleteIssued(v);
          assert Patch(w1, m, s).0.trace[i] == DeleteIssued(v);
        }
      }
  }

  lemma ActSame(w: World, a: EnvAction, v: string)
    requires v in w.cloud && AvoidsVm(a, v)
    ensures Same(w, Act(w, a), v)
  {
  }

  lemma StepSame(w: World, step: Step, v: string)
    requires Foreign(w, v) && StepAvoids(step, v) && w.machine.vmUUID != Some(v)
    requires LegalHostName(w.machine.name)
    ensures var w' := Next(w, step);
      Same(w, w', v) && w'.machine.vmUUID != Some(v)
  {
    hide Lifecycle.Lookup, Reconcile, Patch, Avoids, LabelOk, IsNotFound, Quiet, LegalHostName, Opened, ScriptAvoids, IssuedSince;
    match step
    case Outside(a) =>
      ActSame(w, a, v);
      ActKeeps(w, a);
    case Operate(op, s) =>
      OpenedSame(w, op, s, v);
      var w0 := Opened(w, op, s);
      var m0 := Snapshot(w0);
      if op == ExistsOp {
        LookupSame(w0, m0, s, v);
        LookupStage(w0, m0, s);
      } else {
        ReconcileSame(w0, op, m0, s, v);
        ReconcileStage(w0, op, m0, s);
        var (w1, m, _) := Reconcile(w0, op, m0, s);
        PatchSame(w1, m, s, v);
      }
  }

  lemma {:induction false} RunExtends(w: World, steps: seq<Step>)
    ensures Extends(w, Run(w, steps))
  {
    hide Next;
    if steps != [] {
      var w1 := Run(w, steps[..|steps| - 1]);
      RunExtends(w, steps[..|steps| - 1]);
      StepSends(w1, steps[|steps| - 1]);
      assert Run(w, steps).trace[..|w1.trace|][..|w.trace|] == Run(w, steps).trace[..|w.trace|];
    }
  }

  /**
   In every run, any VM at all that nobody else touches is at the end exactly what it was at the start,
   unless the controller issued a delete for it; and deletes are issued only as RunTrace says.
   */
  lemma {:induction false} UnchangedUnlessDeleted(w: World, steps: seq<Step>, v: string)
    requires v in w.cloud
    requires forall i :: 0 <= i < |steps| ==> StepAvoids(steps[i], v)
    ensures Same(w, Run(w, steps), v) || IssuedSince(w, Run(w, steps), v)
  {
    hide Next, StepAvoids;
    if steps != [] {
      var n := |steps| - 1;
      var w1, w2 := Run(w, steps[..n]), Run(w, steps);
      UnchangedUnlessDeleted(w, steps[..n], v);
      RunExtends(w, steps[..n]);
      StepSends(w1, steps[n]);
      if Same(w, w1, v) {
        StepSpares(w1, steps[n], v);
      } else {
        var i :| |w.trace| <= i < |w1.trace| && w1.trace[i] == DeleteIssued(v);
        assert w2.trace[i] == w2.trace[..|w1.trace|][i];
      }
    }
  }

  /**
   A VM of another name that is not the recorded one, and that nobody else touches, is always left as it
   was, and never becomes the recorded one.
   */
  lemma {:induction false} OtherVmsUnchanged(w: World, steps: seq<Step>, v: string)
    requires LegalHostName(w.machine.name)
    requires Foreign(w, v) && w.machine.vmUUID != Some(v)
    requires forall i :: 0 <= i < |steps| ==> StepAvoids(steps[i], v)
    ensures Same(w, Run(w, steps), v) && Run(w, steps).machine.vmUUID != Some(v)
  {
    hide Next, StepAvoids;
    if steps != [] {
      var front := steps[..|steps| - 1];
      OtherVmsUnchanged(w, front, v);
      StepSame(Run(w, front), steps[|steps| - 1], v);
    }
  }
}
