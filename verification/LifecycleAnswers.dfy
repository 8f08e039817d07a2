/**
 What each operation answers and does, read off the world it opens in: for Exists under any script,
 for Create, Update and Delete as if-and-only-ifs when nothing fails, and what success rules out
 when something does. The Node is named by the machine's NodeRef throughout.
 */
module LifecycleAnswers {
  import opened Basics
  import opened Text
  import opened ProviderSpec
  import opened Catalogue
  import opened Validation
  import opened Builder
  import opened Lifecycle
  import opened LifecycleCalls
  import opened LifecycleStages
  import opened LifecycleRuns
  import opened LifecycleExact
  import opened LifecycleTrace
  import opened LifecycleFaultless

  // ---------------------------------------------------------------- Exists, whatever happens

  predicate Works(c: Call) { !c.fault.Fail? && !c.fault.FailAfter? }

  /** Reading VM id fails: the call fails, and is not a truthful "not found". */
  predicate ReadFails(w: World, id: string, c: Call) {
    (c.fault.Fail? || c.fault.FailAfter?) && (id in Acts(w, c.before).cloud || !IsNotFound(c.fault.msg))
  }

  lemma GetVmExact(w: World, id: string, c: Call)
    ensures var (w', r) := GetVm(w, id, c);
      && w'.cloud == Acts(w, c.before).cloud
      && (r.Ok? <==> !c.fault.Fail? && !c.fault.FailAfter? && id in w'.cloud)
      && (r.Err? && !IsNotFound(r.error) <==> ReadFails(w, id, c))
  {
    hide Acts, IsNotFound, Honest;
    HonestIsNotNotFound(c.fault);
    NotFoundText();
  }

  /** Looking up by name fails: List fails, several VMs bear the name, the listed one has no id, or reading it fails. */
  predicate FindFails(w: World, list: Call, get: Call) {
    var w1 := Acts(w, list.before);
    var ids := Named(w1);
    || list.fault.Fail? || list.fault.FailAfter?
    || |ids| > 1
    || (|ids| == 1 && (list.fault == NoId || ReadFails(Log(w1, Listed(ids)), TheOnly(ids), get)))
  }

  lemma FindVmExact(w: World, list: Call, get: Call)
    requires LegalHostName(w.machine.name)
    ensures var (w', r) := FindVmByName(w, list, get);
      && (r.Err? && !IsNotFound(r.error) <==> FindFails(w, list, get))
      && (r.Ok? ==> |Named(Acts(w, list.before))| == 1 && r.value == TheOnly(Named(Acts(w, list.before))))
  {
    hide Acts, IsNotFound, Honest, GetVm, ReadFails, ListError, ZeroMatchesError, AmbiguousError, NilIdError, LegalHostName;
    ActsKeep(w, list.before);
    var w1 := Acts(w, list.before);
    var ids := Named(w1);
    HonestIsNotNotFound(list.fault);
    ClassificationIsRight(w1.machine.name, |ids|, if Failed(list.fault) then Honest(list.fault.msg) else "");
    if |ids| == 1 {
      GetVmExact(Log(w1, Listed(ids)), TheOnly(ids), get);
      GetVmCalls(Log(w1, Listed(ids)), TheOnly(ids), get);
    }
  }

  /** Exists answers for the VM on record or, with none, for the only VM of the name. */
  predicate Present(w: World, recorded: Option<string>, id: string) {
    if recorded.Some? then recorded == Some(id) && id in w.cloud else id in w.cloud && Named(w) <= {id}
  }

  predicate Absent(w: World, recorded: Option<string>) {
    if recorded.Some? then recorded.value !in w.cloud else Named(w) == {}
  }

  /** The lookup fails although nobody said "not found" truthfully. */
  predicate LookupFails(w: World, recorded: Option<string>, s: Script) {
    if recorded.Some? then ReadFails(w, recorded.value, s.getRecorded) else FindFails(w, s.list, s.getListed)
  }

  /**
   For any world and any script: Exists says yes only of a VM that is there, no only when it is absent,
   and returns an error exactly when the scope or the label check fails or the lookup does. A failed
   read is never answered with no.
   */
  lemma ExistsExact(w: World, s: Script)
    requires LegalHostName(w.machine.name)
    ensures var w0 := Opened(w, ExistsOp, s);
            var r := Do(w, ExistsOp, s);
            var recorded := w0.machine.vmUUID;
      && (r.found ==> r.ok && exists id :: Present(r.w, recorded, id) && (recorded.None? ==> id in Named(w0)))
      && (r.ok && !r.found ==> Absent(r.w, recorded))
      && (!r.ok <==> s.scopeFails || !LabelOk(w0.machine.labels) || LookupFails(w0, recorded, s))
  {
    hide Acts, IsNotFound, GetVm, FindVmByName, LabelOk, ReadFails, FindFails, LegalHostName, Named;
    ActsKeep(w, s.before);
    var w0 := Opened(w, ExistsOp, s);
    var m := Snapshot(w0);
    if m.vmUUID.Some? {
      GetVmExact(w0, m.vmUUID.value, s.getRecorded);
      GetVmCalls(w0, m.vmUUID.value, s.getRecorded);
    } else {
      FindVmExact(w0, s.list, s.getListed);
      FindVmByNameCalls(w0, s.list, s.getListed);
    }
    var (w1, r) := Lifecycle.Lookup(w0, m, s);
    if r.Ok? { assert Present(w1, m.vmUUID, r.value); }
  }

  /** The VM that is looked up, when nothing fails: the recorded one, or the only one of the name. */
  function Findable(w: World): Option<string> {
    if w.machine.vmUUID.Some? then (if w.machine.vmUUID.value in w.cloud then w.machine.vmUUID else None)
    else if |Named(w)| == 1 then Some(TheOnly(Named(w)))
    else None
  }

  /** Several VMs bear the name and none is recorded. */
  predicate AmbiguousName(w: World) { w.machine.vmUUID.None? && |Named(w)| > 1 }

  /** Without faults Exists says yes exactly when there is such a VM, and fails only on an ambiguous name. */
  lemma ExistsFaultless(w: World, s: Script)
    requires LegalHostName(w.machine.name) && Faultless(s) && LabelOk(w.machine.labels)
    ensures var r := Do(w, ExistsOp, s);
      (r.found <==> Findable(w).Some?) && (r.ok <==> !AmbiguousName(w))
  {
    hide IsNotFound, GetVm, FindVmByName, LabelOk, LegalHostName, SmoothCalls;
    OpenSmooth(w, ExistsOp, s);
    SmoothLookupExact(Opened(w, ExistsOp, s), s);
  }

  lemma SmoothLookupExact(w: World, s: Script)
    requires LegalHostName(w.machine.name) && SmoothCalls(s)
    ensures var (w', r) := Lifecycle.Lookup(w, Snapshot(w), s);
      && w'.cloud == w.cloud && w'.machine == w.machine && w'.nodes == w.nodes
      && (Findable(w).Some? ==> Findable(w).value in w.cloud)
      && (if Findable(w).Some? then r == Ok(Findable(w).value) else r.Err? && (IsNotFound(r.error) <==> !AmbiguousName(w)))
  {
    hide IsNotFound, GetVm, FindVmByName, LegalHostName, SmoothCalls;
    NotFoundText();
    if w.machine.vmUUID.Some? {
      SmoothScriptGet(w, w.machine.vmUUID.value, s);
    } else {
      SmoothFind(w, s);
      SmoothFindExact(w, s);
      NoneOrMore(Named(w));
      var r := FindVmByName(w, s.list, s.getListed).1;
      assert r.Ok? || r.Err?;
    }
  }

  lemma NoneOrMore<T>(s: set<T>)
    ensures s == {} <==> |s| == 0
  {
  }

  // ---------------------------------------------------------------- Delete, when nothing fails

  /** No Node is linked, or the linked one is absent or has no volumes attached. */
  predicate NodeClear(w: World) {
    var ref := w.machine.nodeRef;
    ref.None? || ref.value == "" || ref.value !in w.nodes || w.nodes[ref.value].volumes == 0
  }

  /** Whether a delete of v is in the new part of the trace, for some v. */
  ghost predicate Issues(w: World, w': World) {
    exists i :: |w.trace| <= i < |w'.trace| && w'.trace[i].DeleteIssued?
  }

  /**
   Without faults a Delete succeeds exactly when there is nothing to find, or there is one VM to find
   and its Node does not stand in the way. Then that VM is gone and no other; otherwise the cloud is as
   it was and no delete was issued.
   */
  lemma DeleteFaultless(w: World, s: Script)
    requires LegalHostName(w.machine.name) && Faultless(s)
    ensures var r, target := Do(w, DeleteOp, s), Findable(w);
      && (r.ok <==> if target.Some? then NodeClear(w) else !AmbiguousName(w))
      && r.w.cloud == (if target.Some? && NodeClear(w) then w.cloud - {target.value} else w.cloud)
      && (Issues(w, r.w) <==> target.Some? && NodeClear(w))
      && r.w.nodes == w.nodes
  {
    hide IsNotFound, Lifecycle.Lookup, VolumesDetached, DeleteVm, Patch, Faultless, SmoothCalls, LegalHostName, Findable, AmbiguousName;
    OpenSmooth(w, DeleteOp, s);
    var w0 := Opened(w, DeleteOp, s);
    var m0 := Snapshot(w0);
    SameTarget(w, w0);
    SmoothLookupExact(w0, s);
    LookupTrace(w0, m0, s);
    var (w1, r) := Lifecycle.Lookup(w0, m0, s);
    var (w3, m, _) := Delete(w0, m0, s);
    if r.Ok? {
      SmoothVolumesExact(w1, m0.base, s);
      var (w2, clear) := VolumesDetached(w1, m0.base, s);
      ObservesChain(w0, w1, w2);
      if clear {
        SmoothDeleteVmExact(w2, r.value, s);
        DeleteVmTrace(w2, r.value, s.deleteVm, s.awaitDelete);
        assert w3.trace[|w2.trace|].DeleteIssued?;
      }
    }
    SmoothPatch(w3, m, s);
  }

  lemma SameTarget(w: World, w': World)
    requires w'.cloud == w.cloud && w'.machine == w.machine
    ensures Findable(w') == Findable(w) && AmbiguousName(w') == AmbiguousName(w)
  {
    assert Named(w') == Named(w);
  }

  lemma SmoothVolumesExact(w: World, base: Machine, s: Script)
    requires SmoothCalls(s)
    ensures var (w', clear) := VolumesDetached(w, base, s);
      && w'.cloud == w.cloud && w'.machine == w.machine && w'.nodes == w.nodes
      && (clear <==> NodeClear(w.(machine := base)))
      && Observes(w, w')
  {
  }

  lemma SmoothDeleteVmExact(w: World, id: string, s: Script)
    requires SmoothCalls(s) && id in w.cloud
    ensures var (w', gone) := DeleteVm(w, id, s.deleteVm, s.awaitDelete);
      gone && w'.cloud == w.cloud - {id} && w'.machine == w.machine && w'.nodes == w.nodes
  {
    hide IsNotFound;
  }

  /** Submitting the deletion says that the VM is not there: because it is not, or because it just went. */
  predicate SubmitSaysGone(w: World, id: string, c: Call) {
    if id in Acts(w, c.before).cloud then c.fault.FailAfter? && IsNotFound(c.fault.msg)
    else Works(c) || IsNotFound(c.fault.msg)
  }

  /** So does waiting for the deletion. */
  predicate WaitSaysGone(w: World, id: string, c: Call) {
    || (c.fault.FailAfter? && IsNotFound(c.fault.msg))
    || (c.fault.Fail? && IsNotFound(c.fault.msg) && id !in Acts(w, c.before).cloud)
  }

  /**
   For any world and script deleteVM reports success exactly when one of its two calls says that the VM is
   not there, or both work; a VM that vanished meanwhile counts as deleted, any other failure does not.
   */
  lemma DeleteVmExact(w: World, id: string, submit: Call, wait: Call)
    ensures var w1 := DeleteCall(w, id, submit).0;
      DeleteVm(w, id, submit, wait).1 <==>
        || SubmitSaysGone(w, id, submit)
        || (id in Acts(w, submit.before).cloud && Works(submit) && (Works(wait) || WaitSaysGone(w1, id, wait)))
  {
    hide Acts, IsNotFound, Honest;
    HonestIsNotNotFound(submit.fault);
    HonestIsNotNotFound(wait.fault);
    NotFoundText();
  }

  // ---------------------------------------------------------------- Update and Create, when nothing fails

  /**
   Without faults an Update succeeds exactly when the machine has its label, there is one VM to find and
   the Node that the NodeRef names exists. It stores that VM's identity whenever it found it, marks that
   Node and no other, and leaves the cloud as it is.
   */
  lemma UpdateFaultless(w: World, s: Script)
    requires LegalHostName(w.machine.name) && Faultless(s)
    ensures var r, target := Do(w, UpdateOp, s), Findable(w);
            var found := LabelOk(w.machine.labels) && target.Some?;
      && (r.ok <==> found && NodeThere(w, w.machine))
      && r.w.cloud == w.cloud
      && r.w.machine == (if found then w.machine.(vmUUID := target, providerID := Some("nutanix://" + target.value)) else w.machine)
      && r.w.nodes == (if r.ok then NodesAfter(w, w.machine, target.value) else w.nodes)
  {
    hide IsNotFound, Lifecycle.Lookup, UpdateState, Patch, Faultless, SmoothCalls, LegalHostName, Findable, AmbiguousName, LabelOk, NodeMarked;
    OpenSmooth(w, UpdateOp, s);
    var w0 := Opened(w, UpdateOp, s);
    var m0 := Snapshot(w0);
    SameTarget(w, w0);
    SmoothLookupExact(w0, s);
    var (w1, r) := Lifecycle.Lookup(w0, m0, s);
    if r.Ok? { SmoothUpdateState(w1, m0.(vmUUID := Some(r.value)), r.value, s); }
    var (w2, m, _) := Update(w0, m0, s);
    SmoothPatch(w2, m, s);
  }

  /**
   Without faults a Create succeeds exactly when the machine passes the checks, there is a VM to settle on
   or one can be made, and the Node that the NodeRef names exists. It then stores that VM's identity and
   marks that Node and no other. Without the Node only ProviderID is stored.
   */
  lemma CreateFaultless(w: World, s: Script)
    requires LegalHostName(w.machine.name) && Faultless(s)
    ensures var r, recorded := Do(w, CreateOp, s), w.machine.vmUUID;
            var settles := Admitted(w.machine, s) && Settles(w, w.machine, recorded, s);
            var id := Chosen(w, recorded, s);
      && (r.ok <==> settles && NodeThere(w, w.machine))
      && r.w.cloud == (if settles then CloudAfter(w, w.machine, recorded, s) else w.cloud)
      && r.w.machine == (if r.ok then w.machine.(vmUUID := Some(id), providerID := Some("nutanix://" + id))
                         else if settles then w.machine.(providerID := Some("nutanix://" + id))
                         else w.machine)
      && r.w.nodes == (if r.ok then NodesAfter(w, w.machine, id) else w.nodes)
  {
    hide IsNotFound, CreateVm, UpdateState, Patch, Faultless, SmoothCalls, LegalHostName, LabelOk, Errors, Overridden,
         NodeMarked, Target;
    OpenSmooth(w, CreateOp, s);
    var w0 := Opened(w, CreateOp, s);
    var m0 := Snapshot(w0);
    assert Named(w0) == Named(w);
    SmoothCreateVm(w0, m0, s);
    SmoothCreateVmExact(w0, m0, s);
    SmoothFailureKeepsCloud(w0, m0, s);
    var (w1, r) := CreateVm(w0, m0, s);
    if r.Ok? { SmoothUpdateState(w1, m0, r.value, s); }
    var (w2, m, _) := Create(w0, m0, s);
    SmoothPatch(w2, m, s);
  }

  /** Without faults a createVM that fails made nothing. */
  lemma SmoothFailureKeepsCloud(w: World, m: Memory, s: Script)
    requires SmoothCalls(s)
    ensures var (w', r) := CreateVm(w, m, s); r.Err? ==> w'.cloud == w.cloud
  {
    hide IsNotFound, GetVm, FindVmByName, CreateNew, Target;
    var w1 := w;
    if m.vmUUID.Some? {
      SmoothGetRecorded(w, m.vmUUID.value, s);
      w1 := GetVm(w, m.vmUUID.value, s.getRecorded).0;
    }
    SmoothFindCloud(w1, s);
    SmoothRefusal(FindVmByName(w1, s.list, s.getListed).0, m.base, s);
  }

  lemma SmoothRefusal(w: World, base: Machine, s: Script)
    requires SmoothCalls(s)
    ensures var (w', r) := CreateNew(w, base, s); r.Err? ==> w'.cloud == w.cloud
  {
    hide Build;
  }

  // ---------------------------------------------------------------- Success when something fails

  /** Nobody else acts during the operation; its calls may fail in any way. */
  predicate Alone(s: Script) {
    && s.before == [] && s.getRecorded.before == [] && s.list.before == [] && s.getListed.before == []
    && s.create.before == [] && s.powerOn.before == [] && s.awaitPower.before == [] && s.getCreated.before == []
    && s.getNode.before == [] && s.setNode.before == [] && s.prismCentral.before == []
    && s.deleteVm.before == [] && s.awaitDelete.before == [] && s.patchSpec.before == [] && s.patchStatus.before == []
  }

  /** What a successful Create, Update or Delete rules out, under any script at all. */
  lemma SuccessNeedsPatches(w: World, op: Op, s: Script)
    requires op != ExistsOp && Do(w, op, s).ok
    ensures !s.scopeFails && Works(s.patchSpec) && Works(s.patchStatus)
    ensures var m := Opened(w, op, s).machine;
      && (op == CreateOp ==> Admitted(m, s))
      && (op == UpdateOp ==> LabelOk(m.labels))
      && (op != DeleteOp ==> Works(s.prismCentral) && (m.nodeRef.Some? ==> Works(s.getNode)))
  {
    hide Acts, CreateVm, Lifecycle.Lookup, Errors, Overridden, LabelOk, VolumesDetached, DeleteVm, IsNotFound;
  }

  /** The Node step, when nobody else acts: the Node that the NodeRef names was read, and relabelled if it had to be. */
  predicate NodeStep(w: World, base: Machine, id: string, s: Script) {
    base.nodeRef.Some? ==>
      && Works(s.getNode) && NodeThere(w, base)
      && (Works(s.setNode) || NodeMarked(w, base, id))
  }

  /** None of the calls that make a VM failed. */
  predicate MadeWithoutFailure(s: Script) {
    s.create.fault == NoFault && Works(s.powerOn) && Works(s.awaitPower) && Works(s.getCreated)
  }

  lemma LabelNodeAlone(w: World, base: Machine, id: string, s: Script)
    requires Alone(s)
    ensures LabelNode(w, base, id, s).1 <==> NodeStep(w, base, id, s)
  {
  }

  /**
   When nobody else acts, a successful Create or Update means that the Node step went through, and a Create
   that made its VM that none of the calls that make it failed: no failure is taken for success.
   */
  lemma SuccessMeansNoFailure(w: World, op: Op, s: Script) returns (id: string)
    requires LegalHostName(w.machine.name) && Alone(s)
    requires op == CreateOp || op == UpdateOp
    requires Do(w, op, s).ok
    ensures Do(w, op, s).w.machine.vmUUID == Some(id)
    ensures NodeStep(w, w.machine, id, s)
    ensures id !in w.cloud ==> op == CreateOp && id == s.newId && MadeWithoutFailure(s)
    ensures id in w.cloud && w.machine.vmUUID == Some(id) ==> Works(s.getRecorded)
    ensures id in w.cloud && w.machine.vmUUID != Some(id) ==> s.list.fault == NoFault && Works(s.getListed)
  {
    hide CreateVm, LabelNode, Lifecycle.Lookup, Patch, Opened, Errors, Overridden, LabelOk, IsNotFound, Alone, Works, LegalHostName, NodeStep;
    OpenedAlone(w, op, s);
    var w0 := Opened(w, op, s);
    var m0 := Snapshot(w0);
    CreateVmAlone(w0, m0, s);
    LookupAlone(w0, m0, s);
    var (w1, r) := if op == CreateOp then CreateVm(w0, m0, s) else Lifecycle.Lookup(w0, m0, s);
    id := if r.Ok? then r.value else "";
    LabelNodeAlone(w1, m0.base, id, s);
    var (w2, m, ok) := Reconcile(w0, op, m0, s);
    PatchStage(w2, m, s);
    ReconcileStage(w0, op, m0, s);
    NodeStepSame(w, w1, w.machine, id, s);
  }

  lemma OpenedAlone(w: World, op: Op, s: Script)
    requires Alone(s)
    ensures Opened(w, op, s) == Log(w, Started(op, w.machine))
  {
  }

  lemma NodeStepSame(w: World, w': World, base: Machine, id: string, s: Script)
    requires w'.nodes == w.nodes
    ensures NodeStep(w', base, id, s) <==> NodeStep(w, base, id, s)
  {
  }

  lemma LookupAlone(w: World, m: Memory, s: Script)
    requires Alone(s)
    ensures var (w', r) := Lifecycle.Lookup(w, m, s);
      && w'.nodes == w.nodes
      && (r.Ok? ==> r.value in w.cloud && if m.vmUUID.Some? then m.vmUUID == Some(r.value) && Works(s.getRecorded)
                                          else s.list.fault == NoFault && Works(s.getListed))
  {
    hide IsNotFound, GetVm, FindVmByName;
    if m.vmUUID.Some? { GetAlone(w, m.vmUUID.value, s.getRecorded); } else { FindAlone(w, s.list, s.getListed); }
  }

  lemma GetAlone(w: World, id: string, c: Call)
    requires c.before == []
    ensures var (w', r) := GetVm(w, id, c);
      w'.nodes == w.nodes && w'.cloud == w.cloud && (r.Ok? ==> r.value == id && id in w.cloud && Works(c))
  {
  }

  lemma FindAlone(w: World, list: Call, get: Call)
    requires list.before == [] && get.before == []
    ensures var (w', r) := FindVmByName(w, list, get);
      w'.nodes == w.nodes && w'.cloud == w.cloud && (r.Ok? ==> r.value in w.cloud && list.fault == NoFault && Works(get))
  {
    hide IsNotFound, Honest, ListError, ZeroMatchesError, AmbiguousError, NilIdError;
  }

  lemma CreateVmAlone(w: World, m: Memory, s: Script)
    requires Alone(s)
    ensures var (w', r) := CreateVm(w, m, s);
      && w'.nodes == w.nodes
      && (r.Ok? && r.value !in w.cloud ==> r.value == s.newId && MadeWithoutFailure(s))
      && (r.Ok? && r.value in w.cloud ==>
            if m.vmUUID == Some(r.value) then Works(s.getRecorded) else s.list.fault == NoFault && Works(s.getListed))
  {
    hide IsNotFound, GetVm, FindVmByName, CreateNew, Works;
    var w1 := w;
    if m.vmUUID.Some? {
      GetAlone(w, m.vmUUID.value, s.getRecorded);
      w1 := GetVm(w, m.vmUUID.value, s.getRecorded).0;
      GetVmExact(w, m.vmUUID.value, s.getRecorded);
    }
    FindAlone(w1, s.list, s.getListed);
    CreateNewAlone(FindVmByName(w1, s.list, s.getListed).0, m.base, s);
  }

  lemma CreateNewAlone(w: World, base: Machine, s: Script)
    requires Alone(s)
    ensures var (w', r) := CreateNew(w, base, s);
      && w'.nodes == w.nodes
      && (r.Ok? ==> r.value == s.newId && s.newId !in w.cloud && MadeWithoutFailure(s))
  {
    hide Build;
  }

  // ---------------------------------------------------------------- A lost reply

  /** Everything works but the reply to the create is lost. */
  predicate LosesCreateReply(s: Script) {
    Alone(s) && !s.scopeFails && s.create.fault.FailAfter?
    && Smooth(s.getRecorded) && Smooth(s.list) && Smooth(s.getListed) && Smooth(s.patchSpec) && Smooth(s.patchStatus)
  }

  /**
   A first Create whose reply is lost reports an error and leaves its VM, off and unrecorded; the next one
   that finds nothing in its way adopts exactly that VM and makes no other.
   */
  lemma LostReplyIsAdopted(w: World, s1: Script, s2: Script)
    requires LegalHostName(w.machine.name) && w.machine.vmUUID.None? && Named(w) == {}
    requires LosesCreateReply(s1) && Admitted(w.machine, s1) && Target(w.machine, s1).Ok? && !Taken(w, s1.newId)
    requires Faultless(s2) && Admitted(w.machine, s2) && NodeThere(w, w.machine)
    ensures var r1 := Do(w, CreateOp, s1);
            var r2 := Do(r1.w, CreateOp, s2);
      && !r1.ok && r1.w.machine == w.machine && Named(r1.w) == {s1.newId} && !r1.w.cloud[s1.newId].on
      && r2.ok && r2.w.machine.vmUUID == Some(s1.newId) && r2.w.cloud == r1.w.cloud
  {
    hide Do, Admitted, LegalHostName, Faultless, Settles, CloudAfter;
    var r1 := Do(w, CreateOp, s1);
    LostReply(w, s1);
    assert TheOnly(Named(r1.w)) == s1.newId by { assert Named(r1.w) == {s1.newId}; }
    CreateFaultless(r1.w, s2);
    AdoptsTheOnly(r1.w, s1.newId, s2);
  }

  lemma AdoptsTheOnly(w: World, id: string, s: Script)
    requires w.machine.vmUUID.None? && Named(w) == {id}
    ensures Settles(w, w.machine, None, s) && Chosen(w, None, s) == id && CloudAfter(w, w.machine, None, s) == w.cloud
  {
    hide Target;
    assert |Named(w)| == 1 && TheOnly(Named(w)) == id;
    assert id in Named(w);
  }

  lemma LostReply(w: World, s: Script)
    requires LegalHostName(w.machine.name) && w.machine.vmUUID.None? && Named(w) == {}
    requires LosesCreateReply(s) && Admitted(w.machine, s) && Target(w.machine, s).Ok? && !Taken(w, s.newId)
    ensures var r := Do(w, CreateOp, s);
      && !r.ok && r.w.machine == w.machine && r.w.nodes == w.nodes
      && s.newId in r.w.cloud && !r.w.cloud[s.newId].on
      && Named(r.w) == {s.newId}
  {
    hide IsNotFound, FindVmByName, CreateNew, Errors, Overridden, LabelOk, Target, LegalHostName, Patch;
    OpenedAlone(w, CreateOp, s);
    var w0 := Opened(w, CreateOp, s);
    assert Named(w0) == {};
    LostFind(w0, s);
    var w1 := FindVmByName(w0, s.list, s.getListed).0;
    LostCreateNew(w1, w0.machine, s);
    var (w2, m, _) := Create(w0, Snapshot(w0), s);
    LostPatchKeeps(w2, m, s);
  }

  lemma LostFind(w: World, s: Script)
    requires LegalHostName(w.machine.name) && LosesCreateReply(s) && Named(w) == {}
    ensures var (w', r) := FindVmByName(w, s.list, s.getListed);
      r.Err? && IsNotFound(r.error) && w'.machine == w.machine && w'.cloud == w.cloud && w'.nodes == w.nodes && w'.used == w.used
  {
    hide IsNotFound, ListError, AmbiguousError, NilIdError, LegalHostName, ZeroMatchesError;
    ZeroMatchesIsNotFound(w.machine.name);
  }

  lemma LostCreateNew(w: World, base: Machine, s: Script)
    requires LosesCreateReply(s) && Target(base, s).Ok? && !Taken(w, s.newId)
    ensures var (w', r) := CreateNew(w, base, s);
      && r.Err? && w'.machine == w.machine && w'.nodes == w.nodes
      && exists categories :: w'.cloud == w.cloud[s.newId := Vm(base.name, false, categories)]
  {
    TargetName(base, s);
    hide Target;
    var vm := Target(base, s).value;
    assert CreateNew(w, base, s).0.cloud == w.cloud[s.newId := Vm(base.name, false, vm.categories)];
  }

  lemma LostPatchKeeps(w: World, m: Memory, s: Script)
    requires LosesCreateReply(s) && m == Snapshot(w)
    ensures var w' := Patch(w, m, s).0; w'.machine == w.machine && w'.cloud == w.cloud && w'.nodes == w.nodes
  {
  }

  // ---------------------------------------------------------------- Nodes

  /** Nobody else writes Nodes during the operation. */
  predicate NoForeignNodeWrites(s: Script) {
    && NoNodeWrites(s.before) && NoNodeWrites(s.getRecorded.before) && NoNodeWrites(s.list.before)
    && NoNodeWrites(s.getListed.before) && NoNodeWrites(s.create.before) && NoNodeWrites(s.powerOn.before)
    && NoNodeWrites(s.awaitPower.before) && NoNodeWrites(s.getCreated.before) && NoNodeWrites(s.getNode.before)
    && NoNodeWrites(s.setNode.before) && NoNodeWrites(s.prismCentral.before) && NoNodeWrites(s.deleteVm.before)
    && NoNodeWrites(s.awaitDelete.before) && NoNodeWrites(s.patchSpec.before) && NoNodeWrites(s.patchStatus.before)
  }

  /** The NodeRef names Node n; an empty name stands for the machine's own. */
  predicate RefersToNode(base: Machine, n: string) {
    (base.nodeRef == Some(n) && n != "") || (base.nodeRef == Some("") && n == base.name)
  }

  /** Nodes may go, but those that stay keep their provider ID, except perhaps the one the NodeRef names. */
  predicate OthersKeepIds(w: World, w': World, base: Machine) {
    forall n :: n in w'.nodes ==> n in w.nodes && (w'.nodes[n].providerID == w.nodes[n].providerID || RefersToNode(base, n))
  }

  /** A Create or an Update writes the ID of no Node but the one the NodeRef names; Delete and Exists of none. */
  lemma OnlyTheNamedNodeIsMarked(w: World, op: Op, s: Script)
    requires NoForeignNodeWrites(s)
    ensures var w', base := Do(w, op, s).w, Opened(w, op, s).machine;
      && OthersKeepIds(w, w', base)
      && (op == DeleteOp || op == ExistsOp ==> NodeIdsKept(w, w'))
  {
    hide Acts, NoNodeWrites, CreateVm, Lifecycle.Lookup, VolumesDetached, DeleteVm, LabelNode, Patch, Errors, Overridden,
         LabelOk, IsNotFound;
    ActsKeepNodeIds(w, s.before);
    var w0 := Opened(w, op, s);
    var m0 := Snapshot(w0);
    CreateVmKeepsNodeIds(w0, m0, s);
    LookupKeepsNodeIds(w0, m0, s);
    var (w1, r) := if op == CreateOp then CreateVm(w0, m0, s) else Lifecycle.Lookup(w0, m0, s);
    if op == CreateOp || op == UpdateOp {
      var m1 := if op == CreateOp then m0 else m0.(vmUUID := Some(if r.Ok? then r.value else ""));
      if r.Ok? { UpdateStateKeepsNodeIds(w1, m1, r.value, s); }
    } else if op == DeleteOp {
      if r.Ok? { DeleteKeepsNodeIds(w1, m0.base, r.value, s); }
    }
    if op != ExistsOp && !s.scopeFails {
      var (w2, m, _) := Reconcile(w0, op, m0, s);
      PatchIdsKept(w2, m, s);
    }
  }

  lemma PatchIdsKept(w: World, m: Memory, s: Script)
    requires NoForeignNodeWrites(s)
    ensures NodeIdsKept(w, Patch(w, m, s).0)
  {
    hide NoNodeWrites, Patch;
    PatchKeepsNodes(w, m, s);
  }

  lemma LookupKeepsNodeIds(w: World, m: Memory, s: Script)
    requires NoForeignNodeWrites(s)
    ensures NodeIdsKept(w, Lifecycle.Lookup(w, m, s).0)
  {
    hide Acts, NoNodeWrites, IsNotFound, Honest, ListError, ZeroMatchesError, AmbiguousError, NilIdError;
    if m.vmUUID.Some? { ActsKeepNodeIds(w, s.getRecorded.before); } else { FindKeepsNodeIds(w, s); }
  }

  lemma FindKeepsNodeIds(w: World, s: Script)
    requires NoForeignNodeWrites(s)
    ensures NodeIdsKept(w, FindVmByName(w, s.list, s.getListed).0)
  {
    hide Acts, NoNodeWrites, IsNotFound, Honest, ListError, ZeroMatchesError, AmbiguousError, NilIdError;
    ActsKeepNodeIds(w, s.list.before);
    var w1 := Acts(w, s.list.before);
    ActsKeepNodeIds(Log(w1, Listed(Named(w1))), s.getListed.before);
  }

  lemma CreateVmKeepsNodeIds(w: World, m: Memory, s: Script)
    requires NoForeignNodeWrites(s)
    ensures NodeIdsKept(w, CreateVm(w, m, s).0)
  {
    hide Acts, NoNodeWrites, FindVmByName, CreateNew, IsNotFound, Honest;
    var w1 := w;
    if m.vmUUID.Some? {
      ActsKeepNodeIds(w, s.getRecorded.before);
      w1 := GetVm(w, m.vmUUID.value, s.getRecorded).0;
    }
    FindKeepsNodeIds(w1, s);
    CreateNewKeepsNodeIds(FindVmByName(w1, s.list, s.getListed).0, m.base, s);
  }

  lemma CreateNewKeepsNodeIds(w: World, base: Machine, s: Script)
    requires NoForeignNodeWrites(s)
    ensures NodeIdsKept(w, CreateNew(w, base, s).0)
  {
    hide Acts, NoNodeWrites, Target, IsNotFound, Honest;
    if Target(base, s).Ok? {
      ActsKeepNodeIds(w, s.create.before);
      var w1 := CreateCall(w, Target(base, s).value, s.newId, s.create).0;
      ActsKeepNodeIds(w1, s.powerOn.before);
      var w2 := PowerCall(w1, s.newId, s.powerOn, false).0;
      ActsKeepNodeIds(w2, s.awaitPower.before);
      var w3 := PowerCall(w2, s.newId, s.awaitPower, true).0;
      ActsKeepNodeIds(w3, s.getCreated.before);
    }
  }

  lemma DeleteKeepsNodeIds(w: World, base: Machine, id: string, s: Script)
    requires NoForeignNodeWrites(s)
    ensures var w1 := VolumesDetached(w, base, s).0;
      NodeIdsKept(w, w1) && NodeIdsKept(w, DeleteVm(w1, id, s.deleteVm, s.awaitDelete).0)
  {
    hide Acts, NoNodeWrites, IsNotFound, Honest;
    if NodeLinked(base) { ActsKeepNodeIds(w, s.getNode.before); }
    var w1 := VolumesDetached(w, base, s).0;
    ActsKeepNodeIds(w1, s.deleteVm.before);
    ActsKeepNodeIds(DeleteCall(w1, id, s.deleteVm).0, s.awaitDelete.before);
  }

  lemma UpdateStateKeepsNodeIds(w: World, m: Memory, id: string, s: Script)
    requires NoForeignNodeWrites(s)
    ensures OthersKeepIds(w, UpdateState(w, m, id, s).0, m.base)
  {
    hide Acts, NoNodeWrites;
    if m.base.nodeRef.Some? {
      ActsKeepNodeIds(w, s.getNode.before);
      var w1 := GetNode(w, NodeName(m.base), s.getNode).0;
      ActsKeepNodeIds(w1, s.setNode.before);
    }
    ActsKeepNodeIds(LabelNode(w, m.base, id, s).0, s.prismCentral.before);
  }
}
