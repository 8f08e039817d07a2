/**
 When the persisted identity stays right, from any world and over any run: Update, Delete and Exists
 never make the two fields disagree, and a Create can do so exactly when the VM on record is gone.
 */
module LifecycleIdentity {
  import opened Basics
  import opened Text
  import opened ProviderSpec
  import opened Catalogue
  import opened Validation
  import opened Builder
  import opened Lifecycle
  import opened LifecycleCalls
  import opened LifecycleStages
  import opened LifecycleRuns
  import opened LifecycleExact
  import opened LifecycleFaultless

  // ---------------------------------------------------------------- What keeps the agreement

  /** In memory: the snapshot's identity, or one VM's, which is the recorded one if there is a record. */
  ghost predicate OneIdentity(m: Memory, m': Memory, id: string) {
    && m'.base == m.base
    && (m.vmUUID.Some? ==> m.vmUUID.value == id)
    && (m'.providerID == m.providerID || m'.providerID == None || m'.providerID == Some(Pid(id)))
    && (m'.vmUUID == m.vmUUID || (m'.vmUUID == Some(id) && m'.providerID == Some(Pid(id))))
  }

  lemma PatchAgrees(w: World, m: Memory, m': Memory, s: Script, id: string)
    requires Agree(w.machine) && Fresh(w, m) && m.providerID == m.base.providerID && m.vmUUID == m.base.vmUUID
    requires OneIdentity(m, m', id)
    ensures Agree(Patch(w, m', s).0.machine)
  {
    hide Patch;
    PatchStage(w, m', s);
  }

  lemma UpdateIdentity(w: World, m: Memory, s: Script) returns (id: string)
    requires LegalHostName(w.machine.name)
    ensures var (w', m', ok) := Update(w, m, s);
      Evolved(w, w') && OneIdentity(m, m', id)
  {
    hide Lifecycle.Lookup, UpdateState, LabelOk, IsNotFound, Quiet;
    id := m.vmUUID.GetOr("");
    if LabelOk(m.base.labels) {
      LookupStage(w, m, s);
      var (w1, r) := Lifecycle.Lookup(w, m, s);
      if r.Ok? {
        id := r.value;
        UpdateStateStage(w1, m.(vmUUID := Some(r.value)), r.value, s);
      }
    }
  }

  lemma DeleteIdentity(w: World, m: Memory, s: Script)
    requires LegalHostName(w.machine.name) && m.base.name == w.machine.name
    ensures var (w', m', ok) := Delete(w, m, s);
      Evolved(w, w') && OneIdentity(m, m', m.vmUUID.GetOr(""))
  {
    hide Lifecycle.Lookup, VolumesDetached, DeleteVm, IsNotFound;
    ReconcileStage(w, DeleteOp, m, s);
  }

  /** Nobody takes VM v away. */
  predicate SparesVm(actions: seq<EnvAction>, v: string) {
    forall i :: 0 <= i < |actions| ==> actions[i] != RemoveVm(v) && actions[i] != RemoveOther(v)
  }

  lemma {:induction false} ActsSpareVm(w: World, actions: seq<EnvAction>, v: string)
    requires v in w.cloud && SparesVm(actions, v)
    ensures v in Acts(w, actions).cloud
  {
    if actions != [] { ActsSpareVm(w, actions[..|actions| - 1], v); }
  }

  /** Nobody takes the recorded VM away before the Create has read it. */
  predicate SparesRecord(w: World, s: Script) {
    w.machine.vmUUID.Some? ==>
      SparesVm(s.before, w.machine.vmUUID.value) && SparesVm(s.getRecorded.before, w.machine.vmUUID.value)
  }

  /** The recorded VM, if there is one, lives until the Create has read it. */
  predicate RecordLives(w: World, s: Script) { !RecordedDead(w) && SparesRecord(w, s) }

  /** A recorded VM that lives is the one createVM answers with. */
  lemma LiveRecordIsChosen(w: World, m: Memory, s: Script)
    requires m.vmUUID.Some? && m.vmUUID.value in w.cloud && SparesVm(s.getRecorded.before, m.vmUUID.value)
    ensures CreateVm(w, m, s).1.Ok? ==> CreateVm(w, m, s).1.value == m.vmUUID.value
  {
    hide AdoptOrCreate, IsNotFound;
    ActsSpareVm(w, s.getRecorded.before, m.vmUUID.value);
    HonestIsNotNotFound(s.getRecorded.fault);
  }

  lemma CreateIdentity(w: World, m: Memory, s: Script) returns (id: string)
    requires LegalHostName(w.machine.name) && m.base.name == w.machine.name
    requires m.vmUUID.Some? ==> m.vmUUID.value in w.cloud && SparesVm(s.getRecorded.before, m.vmUUID.value)
    ensures var (w', m', ok) := Create(w, m, s);
      Evolved(w, w') && OneIdentity(m, m', id)
  {
    hide CreateVm, UpdateState, Errors, Overridden, LabelOk, IsNotFound, Quiet, SparesVm;
    id := m.vmUUID.GetOr("");
    if LabelOk(m.base.labels) && s.userData.Some?
       && Errors(s.catalogue, Overridden(m.base.spec, s.failureDomain)) == []
    {
      CreateVmStage(w, m, s);
      if m.vmUUID.Some? { LiveRecordIsChosen(w, m, s); }
      var (w1, r) := CreateVm(w, m, s);
      if r.Ok? {
        id := r.value;
        UpdateStateStage(w1, m, r.value, s);
      }
    }
  }

  lemma OpenedSparesVm(w: World, s: Script, v: string)
    requires v in w.cloud && SparesVm(s.before, v)
    ensures v in Opened(w, CreateOp, s).cloud
  {
    ActsSpareVm(w, s.before, v);
  }

  /** A Create that finds its recorded VM alive, or none recorded, never splits the identity. */
  lemma CreateKeepsAgreement(w: World, s: Script)
    requires LegalHostName(w.machine.name) && Agree(w.machine) && RecordLives(w, s)
    ensures Agree(Do(w, CreateOp, s).w.machine)
  {
    hide Create, Patch, Opened, Quiet, SparesVm, OneIdentity;
    OpenedStage(w, CreateOp, s);
    var w0 := Opened(w, CreateOp, s);
    var m0 := Snapshot(w0);
    if m0.vmUUID.Some? { OpenedSparesVm(w, s, m0.vmUUID.value); }
    if !s.scopeFails {
      var id := CreateIdentity(w0, m0, s);
      var (w1, m, _) := Create(w0, m0, s);
      PatchAgrees(w1, m0, m, s, id);
    }
  }

  /** Update, Delete, Exists and everybody else never split it, from any world. */
  lemma OtherStepsKeepAgreement(w: World, step: Step)
    requires LegalHostName(w.machine.name) && Agree(w.machine) && !IsOp(step, CreateOp)
    ensures Agree(Next(w, step).machine)
  {
    hide Lifecycle.Lookup, Update, Delete, Patch, Opened, LabelOk, IsNotFound, Quiet, OneIdentity;
    match step
    case Outside(a) => ActKeeps(w, a);
    case Operate(op, s) =>
      OpenedStage(w, op, s);
      var w0 := Opened(w, op, s);
      var m0 := Snapshot(w0);
      match op {
        case ExistsOp => LookupStage(w0, m0, s);
        case UpdateOp =>
          var id := UpdateIdentity(w0, m0, s);
          var (w1, m, _) := Update(w0, m0, s);
          PatchAgrees(w1, m0, m, s, id);
        case DeleteOp =>
          DeleteIdentity(w0, m0, s);
          var (w1, m, _) := Delete(w0, m0, s);
          PatchAgrees(w1, m0, m, s, m0.vmUUID.GetOr(""));
      }
  }

  /**
   Over every run, from any world whose identity agrees, with any removals, any record and Creates after
   Deletes: the identity agrees at the end if every Create met its recorded VM alive, or none recorded.
   */
  lemma {:induction false} IdentityAgreesWhileRecordLives(w: World, steps: seq<Step>)
    requires LegalHostName(w.machine.name) && Agree(w.machine)
    requires forall k :: 0 <= k < |steps| && IsOp(steps[k], CreateOp) ==> RecordLives(Run(w, steps[..k]), steps[k].script)
    ensures Agree(Run(w, steps).machine)
  {
    hide Next, RecordLives, Agree;
    if steps != [] {
      var n := |steps| - 1;
      var front := steps[..n];
      forall k | 0 <= k < n && IsOp(front[k], CreateOp) ensures RecordLives(Run(w, front[..k]), front[k].script) {
        assert front[..k] == steps[..k];
        assert IsOp(steps[k], CreateOp);
      }
      IdentityAgreesWhileRecordLives(w, front);
      RunAddsNoDuplicate(w, front);
      if IsOp(steps[n], CreateOp) {
        CreateStepKeepsAgreement(Run(w, front), steps[n]);
      } else {
        OtherStepsKeepAgreement(Run(w, front), steps[n]);
      }
    }
  }

  lemma CreateStepKeepsAgreement(w: World, step: Step)
    requires LegalHostName(w.machine.name) && Agree(w.machine) && IsOp(step, CreateOp) && RecordLives(w, step.script)
    ensures Agree(Next(w, step).machine)
  {
    hide Do;
    CreateKeepsAgreement(w, step.script);
  }

  // ---------------------------------------------------------------- What breaks it

  /** All goes well but the status patch, which is lost. */
  predicate LosesStatus(s: Script) {
    !s.scopeFails && SmoothCalls(s) && Smooth(s.patchSpec) && s.patchStatus.fault.Fail?
  }

  lemma LostPatch(w: World, m: Memory, s: Script)
    requires Smooth(s.patchSpec) && s.patchStatus.fault.Fail?
    ensures var m' := Patch(w, m, s).0.machine;
      && m'.providerID == Merged(m.base.providerID, m.providerID, w.machine.providerID)
      && m'.vmUUID == w.machine.vmUUID
  {
    var w2 := w.(machine := w.machine.(providerID := Merged(m.base.providerID, m.providerID, w.machine.providerID)));
    hide Acts;
    ActsKeep(w2, s.patchStatus.before);
    assert Acts(w, []) == w by { NoActs(w); }
  }

  lemma NoActs(w: World)
    ensures Acts(w, []) == w
  {
  }

  /**
   A Create whose status patch is lost splits the identity exactly when, as it opens, the VM on record
   is gone, the machine passes the checks a Create makes first, and there is one VM of the name or none
   and one can be made.
   */
  lemma LostStatusPatchSplits(w: World, s: Script)
    requires LegalHostName(w.machine.name) && Agree(w.machine) && LosesStatus(s)
    requires w.machine.vmUUID.Some? ==> w.machine.vmUUID.value in w.used
    ensures var w0 := Opened(w, CreateOp, s);
      !Agree(Do(w, CreateOp, s).w.machine) <==>
        (RecordedDead(w0) && Admitted(w0.machine, s) && Settles(w0, w0.machine, w0.machine.vmUUID, s))
  {
    hide Create, Patch, Opened, SmoothCalls, Settles, Admitted, LegalHostName, Quiet;
    OpenedStage(w, CreateOp, s);
    var w0 := Opened(w, CreateOp, s);
    var m0 := Snapshot(w0);
    SmoothCreateIdentity(w0, m0, s);
    var (w1, m, _) := Create(w0, m0, s);
    LostPatch(w1, m, s);
    var id := Chosen(w0, m0.vmUUID, s);
    if Admitted(w0.machine, s) && Settles(w0, w0.machine, m0.vmUUID, s) {
      ChosenIsRecorded(w0, m0.vmUUID, s);
      if m0.vmUUID.Some? && Pid(id) == Pid(m0.vmUUID.value) { PidInjective(id, m0.vmUUID.value); }
    }
  }

  lemma SmoothCreateIdentity(w: World, m: Memory, s: Script)
    requires LegalHostName(w.machine.name) && SmoothCalls(s) && m == Snapshot(w)
    ensures var (w', m', ok) := Create(w, m, s);
      && Evolved(w, w') && m'.base == m.base
      && m'.providerID == if Admitted(m.base, s) && Settles(w, m.base, m.vmUUID, s) then Some(Pid(Chosen(w, m.vmUUID, s))) else m.providerID
  {
    hide CreateVm, UpdateState, Errors, Overridden, LabelOk, IsNotFound, Settles, Chosen, SmoothCalls, LegalHostName, Quiet;
    ReconcileStage(w, CreateOp, m, s);
    SmoothCreateVmExact(w, m, s);
    var (w1, r) := CreateVm(w, m, s);
    if r.Ok? { UpdateStateStage(w1, m, r.value, s); }
  }

  lemma ChosenIsRecorded(w: World, recorded: Option<string>, s: Script)
    requires Settles(w, w.machine, recorded, s)
    requires recorded.Some? ==> recorded.value in w.used
    ensures recorded.Some? ==> (Chosen(w, recorded, s) == recorded.value <==> recorded.value in w.cloud)
  {
    hide Target;
    if |Named(w)| == 1 { assert TheOnly(Named(w)) in Named(w); }
  }

  ghost predicate Splits(w: World, s: Script) {
    SparesRecord(w, s) && !Agree(Do(w, CreateOp, s).w.machine)
  }

  /** A string longer than all of a finite set. */
  lemma LongerThanAll(used: set<string>) returns (x: string)
    ensures forall y :: y in used ==> |y| < |x|
    decreases |used|
  {
    x := "";
    if used != {} {
      var y :| y in used;
      var rest := LongerThanAll(used - {y});
      x := rest + y + "x";
    }
  }

  function Elements(ids: seq<string>): set<string> { set x | x in ids }

  function Removals(ids: seq<string>): seq<EnvAction> {
    seq(|ids|, i requires 0 <= i < |ids| => RemoveVm(ids[i]))
  }

  lemma {:induction false} AfterRemovals(w: World, first: seq<EnvAction>, ids: seq<string>)
    ensures var w1, w2 := Acts(w, first), Acts(w, first + Removals(ids));
      w2.machine == w1.machine && w2.used == w1.used && w2.cloud == w1.cloud - Elements(ids)
  {
    hide Acts;
    var acts := first + Removals(ids);
    if ids == [] {
      assert acts == first;
    } else {
      var n := |ids| - 1;
      AfterRemovals(w, first, ids[..n]);
      assert acts[..|acts| - 1] == first + Removals(ids[..n]);
      LastAct(w, acts);
      assert ids == ids[..n] + [ids[n]];
      assert Elements(ids) == Elements(ids[..n]) + {ids[n]};
    }
  }

  lemma LastAct(w: World, acts: seq<EnvAction>)
    requires acts != []
    ensures Acts(w, acts) == Act(Acts(w, acts[..|acts| - 1]), acts[|acts| - 1])
  {
  }

  lemma InOrder(ids: set<string>) returns (order: seq<string>)
    ensures Elements(order) == ids
    decreases |ids|
  {
    order := [];
    if ids != {} {
      var x :| x in ids;
      var rest := InOrder(ids - {x});
      order := rest + [x];
      assert Elements(order) == Elements(rest) + {x};
    }
  }

  /** Others give the machine a label and a small spec that validates. */
  function Prepared(): seq<EnvAction> {
    [SetLabels(map[CLUSTER_LABEL := "c"]), SetSpec(SmallMachine(None, None).spec)]
  }

  /** The losing script in which others first do that and remove the VMs listed. */
  function SplittingScript(newId: string, ids: seq<string>): Script {
    SmoothScript().(before := Prepared() + Removals(ids), newId := newId, patchStatus := Call([], Fail("lost")))
  }

  lemma SplittingStart(w: World, newId: string, ids: seq<string>)
    ensures var w0 := Opened(w, CreateOp, SplittingScript(newId, ids));
      && w0.cloud == w.cloud - Elements(ids) && w0.used == w.used
      && w0.machine == w.machine.(labels := map[CLUSTER_LABEL := "c"], spec := SmallMachine(None, None).spec)
  {
    var acts := Prepared();
    assert acts[..1] == [acts[0]] && acts[..1][..0] == [];
    assert Acts(w, acts[..1]) == w.(machine := w.machine.(labels := map[CLUSTER_LABEL := "c"]));
    AfterRemovals(w, acts, ids);
  }

  lemma SplittingAdmitted(base: Machine, newId: string, ids: seq<string>)
    requires base.labels == map[CLUSTER_LABEL := "c"] && base.spec == SmallMachine(None, None).spec
    ensures Admitted(base, SplittingScript(newId, ids)) && Target(base, SplittingScript(newId, ids)).Ok?
  {
    var image, subnet := Identifier(KindUuid, Some("img"), None), Identifier(KindUuid, Some("net"), None);
    SmallSpecValidates(image, subnet);
    ValidatorSound(NamelessCatalogue(), base.name, base.labels, base.spec, "");
  }

  lemma SplittingLoses(w: World, newId: string, ids: seq<string>)
    requires forall i :: 0 <= i < |ids| ==> Some(ids[i]) != w.machine.vmUUID
    ensures var s := SplittingScript(newId, ids);
      LosesStatus(s) && SparesRecord(w, s) && s.newId == newId
  {
  }

  /** Every machine with a dead record has a Create that splits its identity. */
  lemma DeadRecordSplits(w: World) returns (s: Script)
    requires LegalHostName(w.machine.name) && Agree(w.machine)
    requires RecordedDead(w) && w.machine.vmUUID.value in w.used
    ensures Splits(w, s)
  {
    hide Do, Agree, LegalHostName, Admitted, Opened, SplittingScript, LosesStatus, SparesRecord, Target;
    var newId := LongerThanAll(w.used + w.cloud.Keys);
    var ids := InOrder(Named(w));
    s := SplittingScript(newId, ids);
    SplittingStart(w, newId, ids);
    forall i | 0 <= i < |ids| ensures Some(ids[i]) != w.machine.vmUUID {
      assert ids[i] in Elements(ids);
      assert ids[i] in w.cloud;
    }
    SplittingLoses(w, newId, ids);
    var w0 := Opened(w, CreateOp, s);
    SplittingAdmitted(w0.machine, newId, ids);
    assert Named(w0) == {};
    assert !Taken(w0, newId);
    LostStatusPatchSplits(w, s);
  }

  /**
   The caller's condition is exact: some Create during which nobody takes the recorded VM away before it
   is read can split the identity if and only if that VM is gone before the call.
   */
  lemma SplitExactly(w: World)
    requires LegalHostName(w.machine.name) && Agree(w.machine)
    requires w.machine.vmUUID.Some? ==> w.machine.vmUUID.value in w.used
    ensures (exists s :: Splits(w, s)) <==> RecordedDead(w)
  {
    hide Do, Agree, LegalHostName, SparesRecord;
    if RecordedDead(w) {
      var s := DeadRecordSplits(w);
    } else {
      forall s | SparesRecord(w, s) ensures Agree(Do(w, CreateOp, s).w.machine) {
        CreateKeepsAgreement(w, s);
      }
    }
  }
}
