/** Properties of whole runs: no duplicate VM, no orphan, identity fields that agree. */
module LifecycleRuns {
  import opened Basics
  import opened Text
  import opened ProviderSpec
  import opened Catalogue
  import opened Validation
  import opened Builder
  import opened Lifecycle
  import opened LifecycleCalls
  import opened LifecycleStages

  // ---------------------------------------------------------------- At most one VM

  /** Reconcile keeps everything a patch does not write, and never adds a second VM of the name. */
  lemma ReconcileStage(w: World, op: Op, m: Memory, s: Script)
    requires op != ExistsOp && LegalHostName(w.machine.name) && m.base.name == w.machine.name
    ensures var (w', m', ok) := Reconcile(w, op, m, s);
      && Evolved(w, w')
      && NoNewDuplicate(w, w')
      && m'.base == m.base
  {
    hide CreateVm, UpdateState, Lifecycle.Lookup, VolumesDetached, DeleteVm, Errors, Overridden, LabelOk, IsNotFound, Quiet;
    match op
    case CreateOp =>
      CreateVmStage(w, m, s);
      var (w1, r) := CreateVm(w, m, s);
      if r.Ok? {
        UpdateStateStage(w1, m, r.value, s);
        SubsetSize(Named(UpdateState(w1, m, r.value, s).0), Named(w1));
      }
    case UpdateOp =>
      LookupStage(w, m, s);
      var (w1, r) := Lifecycle.Lookup(w, m, s);
      if r.Ok? { UpdateStateStage(w1, m.(vmUUID := Some(r.value)), r.value, s); }
    case DeleteOp =>
      LookupStage(w, m, s);
      var (w1, r) := Lifecycle.Lookup(w, m, s);
      if r.Ok? {
        VolumesStage(w1, m.base, s);
        DeleteVmCalls(VolumesDetached(w1, m.base, s).0, r.value, s.deleteVm, s.awaitDelete);
      }
  }

  lemma OpenedStage(w: World, op: Op, s: Script)
    ensures Calm(w, Opened(w, op, s), QuietScript(s), Sparing(s.before))
  {
    hide Quiet;
    ActsKeep(w, s.before);
  }

  /** A chain of two steps that add no duplicate adds none. */
  lemma NoNewDuplicateChain(w: World, w1: World, w2: World)
    requires NoNewDuplicate(w, w1) && NoNewDuplicate(w1, w2)
    ensures NoNewDuplicate(w, w2)
  {
    if Named(w2) <= Named(w1) { SubsetSize(Named(w2), Named(w1)); }
  }

  lemma StepEvolves(w: World, step: Step)
    requires LegalHostName(w.machine.name)
    ensures var w' := Next(w, step);
      w'.machine.name == w.machine.name && Grown(w, w') && NoNewDuplicate(w, w')
  {
    hide Lifecycle.Lookup, Reconcile, Patch, Opened, LabelOk, IsNotFound, Quiet;
    match step
    case Outside(a) => ActKeeps(w, a);
    case Operate(op, s) =>
      OpenedStage(w, op, s);
      var w0 := Opened(w, op, s);
      if op == ExistsOp {
        LookupStage(w0, Snapshot(w0), s);
      } else {
        ReconcileStage(w0, op, Snapshot(w0), s);
        var (w1, m, _) := Reconcile(w0, op, Snapshot(w0), s);
        PatchStage(w1, m, s);
        NoNewDuplicateChain(w, w0, w1);
        NoNewDuplicateChain(w, w1, Patch(w1, m, s).0);
      }
  }

  /**
   Over every run, whatever calls fail, replies are lost or patches are lost, and whoever removes VMs:
   the VMs of the machine's name are among those there at the start, or there is at most one.
   */
  lemma {:induction false} RunAddsNoDuplicate(w: World, steps: seq<Step>)
    requires LegalHostName(w.machine.name)
    ensures Run(w, steps).machine.name == w.machine.name
    ensures Grown(w, Run(w, steps))
    ensures NoNewDuplicate(w, Run(w, steps))
  {
    hide Next;
    if steps != [] {
      var front := steps[..|steps| - 1];
      RunAddsNoDuplicate(w, front);
      StepEvolves(Run(w, front), steps[|steps| - 1]);
      NoNewDuplicateChain(w, Run(w, front), Run(w, steps));
    }
  }

  /** So if there was at most one VM of that name, there never is a second. */
  lemma AtMostOneVm(w: World, steps: seq<Step>)
    requires LegalHostName(w.machine.name) && |Named(w)| <= 1
    ensures |Named(Run(w, steps))| <= 1
  {
    RunAddsNoDuplicate(w, steps);
    if Named(Run(w, steps)) <= Named(w) { SubsetSize(Named(Run(w, steps)), Named(w)); }
  }

  // ---------------------------------------------------------------- Lineage

  /** The persisted identity fields, where both are set, name the same VM. */
  predicate Agree(m: Machine) {
    m.vmUUID.Some? && m.providerID.Some? ==> m.providerID.value == Pid(m.vmUUID.value)
  }

  lemma PidInjective(a: string, b: string)
    requires Pid(a) == Pid(b)
    ensures a == b
  {
    assert a == Pid(a)[|"nutanix://"|..];
    assert b == Pid(b)[|"nutanix://"|..];
  }

  function SetOf(o: Option<string>): set<string> { if o.Some? then {o.value} else {} }

  /**
   origin is the one VM this machine ever had: until a delete begins it is exactly the VM of that
   name, and whatever identity is recorded is its own.
   */
  ghost predicate Lineage(w: World, origin: Option<string>, deleting: bool) {
    && Tidy(w)
    && SetOf(origin) <= w.used
    && Named(w) <= SetOf(origin)
    && (!deleting ==> Named(w) == SetOf(origin))
    && (w.machine.vmUUID.Some? ==> w.machine.vmUUID == origin)
    && Agree(w.machine)
  }

  /** The identity in memory is the snapshot's, or that of the origin. */
  ghost predicate MemoryOk(m: Memory, origin: Option<string>) {
    && (m.vmUUID == m.base.vmUUID
        || (origin.Some? && m.vmUUID == origin && m.providerID == Some(Pid(origin.value))))
    && (m.providerID == m.base.providerID || m.providerID == None
        || (origin.Some? && m.providerID == Some(Pid(origin.value))))
  }

  /** The stored identity is still what the operation started from. */
  predicate Fresh(w: World, m: Memory) {
    w.machine.providerID == m.base.providerID && w.machine.vmUUID == m.base.vmUUID && w.machine.name == m.base.name
  }

  lemma PatchLineage(w: World, m: Memory, s: Script, origin: Option<string>, deleting: bool)
    requires Lineage(w, origin, deleting) && Fresh(w, m) && MemoryOk(m, origin) && (deleting || QuietScript(s))
    ensures Lineage(Patch(w, m, s).0, origin, deleting)
  {
    hide Quiet, Patch;
    PatchStage(w, m, s);
  }

  lemma CreateLineage(w: World, m: Memory, s: Script, origin: Option<string>) returns (origin': Option<string>)
    requires LegalHostName(w.machine.name) && QuietScript(s)
    requires Lineage(w, origin, false) && m == Snapshot(w)
    ensures var (w', m', ok) := Create(w, m, s);
      Lineage(w', origin', false) && Fresh(w', m') && MemoryOk(m', origin')
  {
    hide CreateVm, UpdateState, Errors, Overridden, LabelOk, IsNotFound, Quiet;
    origin' := origin;
    if LabelOk(m.base.labels) && s.userData.Some?
       && Errors(s.catalogue, Overridden(m.base.spec, s.failureDomain)) == []
    {
      CreateVmStage(w, m, s);
      var (w1, r) := CreateVm(w, m, s);
      if origin.None? && Named(w1) != {} {
        var u :| u in Named(w1);
        OneElement(Named(w1), u);
        origin' := Some(u);
      }
      assert Lineage(w1, origin', false);
      if r.Ok? {
        UpdateStateStage(w1, m, r.value, s);
      }
    }
  }

  lemma UpdateLineage(w: World, m: Memory, s: Script, origin: Option<string>, deleting: bool)
    requires LegalHostName(w.machine.name) && (deleting || QuietScript(s))
    requires Lineage(w, origin, deleting) && m == Snapshot(w)
    ensures var (w', m', ok) := Update(w, m, s);
      Lineage(w', origin, deleting) && Fresh(w', m') && MemoryOk(m', origin)
  {
    hide Lifecycle.Lookup, UpdateState, LabelOk, IsNotFound, Quiet;
    if LabelOk(m.base.labels) {
      LookupStage(w, m, s);
      var (w1, r) := Lifecycle.Lookup(w, m, s);
      if r.Ok? {
        UpdateStateStage(w1, m.(vmUUID := Some(r.value)), r.value, s);
      }
    }
  }

  lemma DeleteLineage(w: World, m: Memory, s: Script, origin: Option<string>, deleting: bool)
    requires LegalHostName(w.machine.name)
    requires Lineage(w, origin, deleting) && m == Snapshot(w)
    ensures var (w', m', ok) := Delete(w, m, s);
      && Lineage(w', origin, true) && Fresh(w', m') && MemoryOk(m', origin)
      && (ok ==> Named(w') == {})
  {
    hide Lifecycle.Lookup, VolumesDetached, DeleteVm, IsNotFound, Quiet;
    LookupStage(w, m, s);
    var (w1, r) := Lifecycle.Lookup(w, m, s);
    if r.Ok? {
      VolumesStage(w1, m.base, s);
      DeleteVmCalls(VolumesDetached(w1, m.base, s).0, r.value, s.deleteVm, s.awaitDelete);
    }
  }

  /** A step of a run on which nobody removes the machine's VM. */
  predicate QuietStep(step: Step) {
    match step
    case Operate(_, s) => QuietScript(s)
    case Outside(a) => !a.RemoveVm?
  }

  predicate IsOp(step: Step, op: Op) { step.Operate? && step.op == op }

  lemma StepLineage(w: World, step: Step, origin: Option<string>, deleting: bool) returns (origin': Option<string>)
    requires LegalHostName(w.machine.name) && (deleting || IsOp(step, DeleteOp) || QuietStep(step))
    requires Lineage(w, origin, deleting)
    requires deleting ==> !IsOp(step, CreateOp)
    ensures Lineage(Next(w, step), origin', deleting || IsOp(step, DeleteOp))
  {
    hide Lifecycle.Lookup, Create, Update, Delete, Patch, Opened, LabelOk, IsNotFound, Quiet;
    origin' := origin;
    match step
    case Outside(a) => ActKeeps(w, a);
    case Operate(op, s) =>
      OpenedStage(w, op, s);
      var w0 := Opened(w, op, s);
      assert Lineage(w0, origin, deleting || op == DeleteOp);
      var m0 := Snapshot(w0);
      match op {
        case ExistsOp =>
          LookupStage(w0, m0, s);
        case CreateOp =>
          if !s.scopeFails {
            origin' := CreateLineage(w0, m0, s, origin);
            var (w1, m, _) := Create(w0, m0, s);
            PatchLineage(w1, m, s, origin', deleting);
          }
        case UpdateOp =>
          UpdateLineage(w0, m0, s, origin, deleting);
          var (w1, m, _) := Update(w0, m0, s);
          PatchLineage(w1, m, s, origin, deleting);
        case DeleteOp =>
          DeleteLineage(w0, m0, s, origin, true);
          var (w1, m, _) := Delete(w0, m0, s);
          PatchLineage(w1, m, s, origin, true);
      }
  }

  predicate HasDelete(steps: seq<Step>) {
    exists i :: 0 <= i < |steps| && IsOp(steps[i], DeleteOp)
  }

  /**
   The runs the machine controller makes: no Create follows a Delete, and until the first Delete nobody
   removes a VM of the name. From that Delete on everything may happen: in particular a deletion that
   was accepted may land long after waiting for it failed.
   */
  predicate CleanRun(steps: seq<Step>) {
    && (forall i :: 0 <= i < |steps| ==> HasDelete(steps[..i + 1]) || QuietStep(steps[i]))
    && (forall i, j :: 0 <= i < j < |steps| && IsOp(steps[i], DeleteOp) ==> !IsOp(steps[j], CreateOp))
  }

  /** There is at most one VM of the name, and if one is recorded it is that one, under the right ID. */
  ghost predicate WellStarted(w: World) {
    && Tidy(w) && |Named(w)| <= 1 && Agree(w.machine)
    && (w.machine.vmUUID.Some? ==> w.machine.vmUUID.value in Named(w))
  }

  lemma CleanPrefix(steps: seq<Step>)
    requires CleanRun(steps) && steps != []
    ensures CleanRun(steps[..|steps| - 1])
    ensures HasDelete(steps[..|steps| - 1]) || IsOp(steps[|steps| - 1], DeleteOp) || QuietStep(steps[|steps| - 1])
    ensures HasDelete(steps) <==> HasDelete(steps[..|steps| - 1]) || IsOp(steps[|steps| - 1], DeleteOp)
    ensures HasDelete(steps[..|steps| - 1]) ==> !IsOp(steps[|steps| - 1], CreateOp)
  {
    hide QuietStep, IsOp;
    var n := |steps| - 1;
    var front := steps[..n];
    forall i | 0 <= i < n ensures HasDelete(front[..i + 1]) || QuietStep(front[i]) {
      assert front[..i + 1] == steps[..i + 1];
      assert HasDelete(steps[..i + 1]) || QuietStep(steps[i]);
    }
    HasDeleteLast(steps);
    assert steps[..n + 1] == steps;
    assert HasDelete(steps[..n + 1]) || QuietStep(steps[n]);
    if HasDelete(front) {
      var i :| 0 <= i < n && IsOp(front[i], DeleteOp);
      assert IsOp(steps[i], DeleteOp);
    }
  }

  lemma HasDeleteLast(steps: seq<Step>)
    requires steps != []
    ensures HasDelete(steps) <==> HasDelete(steps[..|steps| - 1]) || IsOp(steps[|steps| - 1], DeleteOp)
  {
    hide IsOp;
    var n := |steps| - 1;
    if HasDelete(steps) {
      var i :| 0 <= i < |steps| && IsOp(steps[i], DeleteOp);
      assert i < n ==> IsOp(steps[..n][i], DeleteOp);
    }
  }

  lemma {:induction false} RunLineage(w: World, steps: seq<Step>) returns (origin: Option<string>)
    requires LegalHostName(w.machine.name) && CleanRun(steps) && WellStarted(w)
    ensures Lineage(Run(w, steps), origin, HasDelete(steps))
  {
    hide Next, QuietStep, CleanRun;
    if steps == [] {
      origin := None;
      if Named(w) != {} {
        var u :| u in Named(w);
        OneElement(Named(w), u);
        origin := Some(u);
      }
    } else {
      var n := |steps| - 1;
      CleanPrefix(steps);
      hide HasDelete, IsOp;
      var front := steps[..n];
      var o := RunLineage(w, front);
      RunAddsNoDuplicate(w, front);
      origin := StepLineage(Run(w, front), steps[n], o, HasDelete(front));
    }
  }

  /**
   On every clean run: whenever both identity fields are persisted they agree, even if only the first
   of the two patches of some operation landed.
   */
  lemma IdentityAgreesOnRuns(w: World, steps: seq<Step>)
    requires LegalHostName(w.machine.name) && CleanRun(steps) && WellStarted(w)
    ensures Agree(Run(w, steps).machine)
  {
    var _ := RunLineage(w, steps);
  }

  /**
   On those runs there is no orphan: a live VM of the machine's name is the only one, and is the one
   that the next update, delete or exists resolves, whatever happens around that lookup. The next create
   answers with it too, while none was deleted and nobody removes it meanwhile.
   */
  lemma NoOrphanOnRuns(w: World, steps: seq<Step>, s: Script, op: Op)
    requires LegalHostName(w.machine.name) && CleanRun(steps) && WellStarted(w)
    ensures var w1 := Opened(Run(w, steps), op, s);
            var (w2, r) := Lifecycle.Lookup(w1, Snapshot(w1), s);
            var (w3, c) := CreateVm(w1, Snapshot(w1), s);
      && (r.Ok? ==> Named(w1) <= {r.value})
      && (r.Err? && IsNotFound(r.error) ==> Named(w2) == {})
      && (c.Ok? && !HasDelete(steps) && QuietScript(s) ==> Named(w1) <= {c.value} && Named(w3) == {c.value})
  {
    hide Lifecycle.Lookup, CreateVm, Opened, IsNotFound, Quiet, CleanRun, HasDelete;
    var o := RunLineage(w, steps);
    RunAddsNoDuplicate(w, steps);
    var w0 := Run(w, steps);
    OpenedStage(w0, op, s);
    var w1 := Opened(w0, op, s);
    LookupStage(w1, Snapshot(w1), s);
    CreateVmStage(w1, Snapshot(w1), s);
  }

  /** And a Delete that returns no error, whatever happens around it, leaves no VM of that name. */
  lemma DeleteLeavesNoneOnRuns(w: World, steps: seq<Step>, s: Script)
    requires LegalHostName(w.machine.name) && CleanRun(steps) && WellStarted(w)
    ensures var r := Do(Run(w, steps), DeleteOp, s);
      r.ok ==> Named(r.w) == {}
  {
    hide Delete, Patch, Opened, Quiet, CleanRun, HasDelete;
    var o := RunLineage(w, steps);
    RunAddsNoDuplicate(w, steps);
    var w0 := Run(w, steps);
    OpenedStage(w0, DeleteOp, s);
    var w1 := Opened(w0, DeleteOp, s);
    DeleteLineage(w1, Snapshot(w1), s, o, true);
    var (w2, m, ok) := Delete(w1, Snapshot(w1), s);
    PatchStage(w2, m, s);
  }
}
