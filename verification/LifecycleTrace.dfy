/**
 What an observer of the controller's calls can rely on in every run: a VM delete is issued only on
 evidence just gathered, and every VM sent to the cloud was built by a Create of the run, on what Prism
 Central answered then, from a validated spec of a machine that carries its cluster label.
 */
module LifecycleTrace {
  import opened Basics
  import opened Text
  import opened ProviderSpec
  import opened Catalogue
  import opened Validation
  import opened Builder
  import opened Lifecycle
  import opened LifecycleCalls

  /** The trace only grows. */
  ghost predicate Extends(w: World, w': World) {
    |w.trace| <= |w'.trace| && w'.trace[..|w.trace|] == w.trace
  }

  /** The step logs observations only. */
  ghost predicate Observes(w: World, w': World) {
    && Extends(w, w')
    && forall i :: |w.trace| <= i < |w'.trace| ==>
         w'.trace[i].Listed? || w'.trace[i].Got? || w'.trace[i].SawNode?
  }

  lemma ObservesChain(w: World, w1: World, w2: World)
    requires Observes(w, w1) && Observes(w1, w2)
    ensures Observes(w, w2)
  {
    var n := |w.trace|;
    assert w2.trace[..n] == w2.trace[..|w1.trace|][..n] == w.trace;
    forall i | n <= i < |w2.trace|
      ensures w2.trace[i].Listed? || w2.trace[i].Got? || w2.trace[i].SawNode?
    {
      if i < |w1.trace| { assert w2.trace[i] == w2.trace[..|w1.trace|][i]; }
    }
  }

  // ---------------------------------------------------------------- Traces of the stages

  function Looked(m: Memory, id: string): seq<Event> {
    if m.vmUUID.Some? then [Got(id)] else [Listed({id}), Got(id)]
  }

  lemma GetVmTrace(w: World, id: string, c: Call)
    ensures var (w', r) := GetVm(w, id, c);
      w'.trace == w.trace + (if r.Ok? then [Got(id)] else [])
  {
    ActsKeep(w, c.before);
  }

  lemma LookupTrace(w: World, m: Memory, s: Script)
    ensures var (w', r) := Lifecycle.Lookup(w, m, s);
      && Observes(w, w')
      && (r.Ok? ==> w'.trace == w.trace + Looked(m, r.value))
      && (r.Ok? && m.vmUUID.Some? ==> r.value == m.vmUUID.value)
  {
    hide GetVm, IsNotFound, Honest, ListError, ZeroMatchesError, AmbiguousError, NilIdError;
    if m.vmUUID.Some? {
      GetVmTrace(w, m.vmUUID.value, s.getRecorded);
      GetVmCalls(w, m.vmUUID.value, s.getRecorded);
    } else {
      FindVmTrace(w, s.list, s.getListed);
    }
  }

  lemma FindVmTrace(w: World, list: Call, get: Call)
    ensures var (w', r) := FindVmByName(w, list, get);
      && Observes(w, w')
      && (r.Ok? ==> w'.trace == w.trace + [Listed({r.value}), Got(r.value)])
  {
    hide GetVm, IsNotFound, Honest, ListError, ZeroMatchesError, AmbiguousError, NilIdError;
    ActsKeep(w, list.before);
    var w1 := Acts(w, list.before);
    var ids := Named(w1);
    if |ids| == 1 {
      var w2 := Log(w1, Listed(ids));
      GetVmTrace(w2, TheOnly(ids), get);
      GetVmCalls(w2, TheOnly(ids), get);
    }
  }

  lemma GetNodeTrace(w: World, node: string, c: Call)
    ensures var (w', r) := GetNode(w, node, c);
      && Observes(w, w')
      && (r == Err(NodeGone) ==> w'.trace == w.trace + [SawNode(node, None)])
      && (r.Ok? ==> w'.trace == w.trace + [SawNode(node, Some(r.value.volumes))])
  {
    ActsKeep(w, c.before);
  }

  lemma UpdateStateTrace(w: World, m: Memory, id: string, s: Script)
    ensures Observes(w, UpdateState(w, m, id, s).0)
  {
    hide GetNode;
    if m.base.nodeRef.Some? {
      GetNodeTrace(w, NodeName(m.base), s.getNode);
      ActsKeep(GetNode(w, NodeName(m.base), s.getNode).0, s.setNode.before);
    }
    ActsKeep(LabelNode(w, m.base, id, s).0, s.prismCentral.before);
  }

  lemma PowerTrace(w: World, id: string, c: Call, effective: bool)
    ensures PowerCall(w, id, c, effective).0.trace == w.trace
  {
    ActsKeep(w, c.before);
  }

  lemma FinishCreateTrace(w: World, id: string, s: Script)
    ensures Observes(w, FinishCreate(w, id, s).0)
  {
    hide PowerCall, GetVm;
    PowerTrace(w, id, s.powerOn, false);
    var (w1, submitted) := PowerCall(w, id, s.powerOn, false);
    if submitted {
      PowerTrace(w1, id, s.awaitPower, true);
      GetVmTrace(PowerCall(w1, id, s.awaitPower, true).0, id, s.getCreated);
    }
  }

  lemma PatchTrace(w: World, m: Memory, s: Script)
    ensures Patch(w, m, s).0.trace == w.trace
  {
    hide Acts;
    ActsKeep(w, s.patchSpec.before);
    var w1 := Acts(w, s.patchSpec.before);
    var w2 := w1.(machine := w1.machine.(providerID := Merged(m.base.providerID, m.providerID, w1.machine.providerID)));
    ActsKeep(w2, s.patchStatus.before);
  }

  // ---------------------------------------------------------------- Guarded deletion

  /** The evidence gathered before a delete of VM id, for a machine as it was read. */
  function Evidence(m: Machine, id: string, volumes: Option<nat>): seq<Event> {
    [Started(DeleteOp, m)]
    + (if m.vmUUID.Some? then [Got(id)] else [Listed({id}), Got(id)])
    + (if NodeLinked(m) then [SawNode(m.nodeRef.value, volumes)] else [])
  }

  /** id is the recorded VM, or the only one listed under the name; the Node is gone or has no volumes. */
  ghost predicate Justifies(before: seq<Event>, id: string, earlier: seq<Event>, m: Machine, volumes: Option<nat>) {
    && before == earlier + Evidence(m, id, volumes)
    && (m.vmUUID.Some? ==> m.vmUUID.value == id)
    && (volumes == None || volumes == Some(0))
  }

  ghost predicate Justified(before: seq<Event>, id: string) {
    exists earlier, m, volumes :: Justifies(before, id, earlier, m, volumes)
  }

  /** Every delete in the trace was issued right after the evidence that justifies it. */
  ghost predicate DeletesGuarded(t: seq<Event>) {
    forall i :: 0 <= i < |t| && t[i].DeleteIssued? ==> Justified(t[..i], t[i].id)
  }

  lemma VolumesTrace(w: World, base: Machine, s: Script) returns (volumes: Option<nat>)
    ensures var (w', clear) := VolumesDetached(w, base, s);
      && Observes(w, w')
      && (clear ==> w'.trace == w.trace + (if NodeLinked(base) then [SawNode(base.nodeRef.value, volumes)] else []))
    ensures volumes == None || volumes == Some(0)
  {
    hide GetNode;
    volumes := None;
    if NodeLinked(base) {
      GetNodeTrace(w, base.nodeRef.value, s.getNode);
      var r := GetNode(w, base.nodeRef.value, s.getNode).1;
      if r.Ok? && r.value.volumes == 0 { volumes := Some(0); }
    } else {
      assert w.trace + [] == w.trace;
    }
  }

  lemma DeleteVmTrace(w: World, id: string, submit: Call, wait: Call)
    ensures DeleteVm(w, id, submit, wait).0.trace == w.trace + [DeleteIssued(id)]
  {
    hide IsNotFound, Honest;
    ActsKeep(w, submit.before);
    ActsKeep(DeleteCall(w, id, submit).0, wait.before);
  }

  /** A delete either issues nothing, or issues one delete at the end of its evidence. */
  lemma DeleteTrace(w: World, m: Memory, s: Script) returns (id: string, volumes: Option<nat>)
    requires m.vmUUID == m.base.vmUUID
    ensures var w' := Delete(w, m, s).0;
      || Observes(w, w')
      || w'.trace == w.trace + Evidence(m.base, id, volumes)[1..] + [DeleteIssued(id)]
    ensures m.vmUUID.Some? ==> m.vmUUID.value == id
    ensures volumes == None || volumes == Some(0)
  {
    hide Lifecycle.Lookup, VolumesDetached, DeleteVm, IsNotFound;
    id, volumes := m.vmUUID.GetOr(""), None;
    LookupTrace(w, m, s);
    var (w1, r) := Lifecycle.Lookup(w, m, s);
    if r.Ok? {
      id := r.value;
      volumes := VolumesTrace(w1, m.base, s);
      var (w2, clear) := VolumesDetached(w1, m.base, s);
      ObservesChain(w, w1, w2);
      DeleteVmTrace(w2, id, s.deleteVm, s.awaitDelete);
      assert Evidence(m.base, id, volumes)[1..]
          == Looked(m, id) + (if NodeLinked(m.base) then [SawNode(m.base.nodeRef.value, volumes)] else []);
    }
  }

  lemma GuardedAfterObserving(w: World, w': World)
    requires DeletesGuarded(w.trace) && Observes(w, w')
    ensures DeletesGuarded(w'.trace)
  {
    hide Justified;
    forall i | 0 <= i < |w'.trace| && w'.trace[i].DeleteIssued?
      ensures Justified(w'.trace[..i], w'.trace[i].id)
    {
      assert w'.trace[i] == w'.trace[..|w.trace|][i];
      assert w'.trace[..i] == w.trace[..i];
    }
  }

  lemma GuardedAfterLogging(t: seq<Event>, e: Event)
    requires DeletesGuarded(t)
    requires e.DeleteIssued? ==> Justified(t, e.id)
    ensures DeletesGuarded(t + [e])
  {
    hide Justified;
    var t' := t + [e];
    forall i | 0 <= i < |t'| && t'[i].DeleteIssued?
      ensures Justified(t'[..i], t'[i].id)
    {
      assert t'[..i] == t[..i];
      if i == |t| { assert t[..i] == t; }
    }
  }

  lemma DeleteGuarded(w: World, s: Script)
    requires DeletesGuarded(w.trace)
    ensures DeletesGuarded(Do(w, DeleteOp, s).w.trace)
  {
    hide Delete, Patch, DeletesGuarded, Observes;
    ActsKeep(w, s.before);
    var w0 := Opened(w, DeleteOp, s);
    GuardedAfterLogging(w.trace, Started(DeleteOp, w0.machine));
    var m0 := Snapshot(w0);
    var id, volumes := DeleteTrace(w0, m0, s);
    var (w1, m, _) := Delete(w0, m0, s);
    if Observes(w0, w1) {
      GuardedAfterObserving(w0, w1);
    } else {
      var gathered := Evidence(m0.base, id, volumes);
      var look := w0.(trace := w0.trace + gathered[1..]);
      assert Observes(w0, look) by { ObservedEvidence(w0, m0.base, id, volumes); }
      GuardedAfterObserving(w0, look);
      assert look.trace == w.trace + gathered by { assert gathered == [gathered[0]] + gathered[1..]; }
      assert Justifies(look.trace, id, w.trace, m0.base, volumes);
      GuardedAfterLogging(look.trace, DeleteIssued(id));
    }
    PatchTrace(w1, m, s);
  }

  lemma ObservedEvidence(w: World, m: Machine, id: string, volumes: Option<nat>)
    ensures Observes(w, w.(trace := w.trace + Evidence(m, id, volumes)[1..]))
  {
  }

  lemma StepGuarded(w: World, step: Step)
    requires DeletesGuarded(w.trace)
    ensures DeletesGuarded(Next(w, step).trace)
  {
    hide Lifecycle.Lookup, Create, Update, Patch, Opened, DeletesGuarded, LabelOk;
    match step
    case Outside(a) => ActKeeps(w, a);
    case Operate(op, s) =>
      if op == DeleteOp {
        DeleteGuarded(w, s);
      } else {
        OpenedGuarded(w, op, s);
        var w0 := Opened(w, op, s);
        var m0 := Snapshot(w0);
        match op {
          case ExistsOp =>
            LookupTrace(w0, m0, s);
            GuardedAfterObserving(w0, Lifecycle.Lookup(w0, m0, s).0);
          case CreateOp =>
            CreateGuarded(w0, m0, s);
            var (w1, m, _) := Create(w0, m0, s);
            PatchTrace(w1, m, s);
          case UpdateOp =>
            UpdateTrace(w0, m0, s);
            var (w1, m, _) := Update(w0, m0, s);
            GuardedAfterObserving(w0, w1);
            PatchTrace(w1, m, s);
        }
      }
  }

  lemma OpenedGuarded(w: World, op: Op, s: Script)
    requires DeletesGuarded(w.trace)
    ensures DeletesGuarded(Opened(w, op, s).trace)
  {
    ActsKeep(w, s.before);
    GuardedAfterLogging(w.trace, Started(op, Opened(w, op, s).machine));
  }

  lemma UpdateTrace(w: World, m: Memory, s: Script)
    ensures Observes(w, Update(w, m, s).0)
  {
    hide Lifecycle.Lookup, UpdateState, LabelOk;
    LookupTrace(w, m, s);
    var (w1, r) := Lifecycle.Lookup(w, m, s);
    if r.Ok? {
      UpdateStateTrace(w1, m.(vmUUID := Some(r.value)), r.value, s);
      ObservesChain(w, w1, UpdateState(w1, m.(vmUUID := Some(r.value)), r.value, s).0);
    }
  }

  /** A create issues no delete: all it logs is observations and what it sends. */
  lemma CreateGuarded(w: World, m: Memory, s: Script)
    requires DeletesGuarded(w.trace)
    ensures DeletesGuarded(Create(w, m, s).0.trace)
  {
    hide Create, DeletesGuarded, Observes;
    var before, sent, after := CreateTrace(w, m, s);
    GuardedAfterObserving(w, before);
    if sent.Some? { GuardedAfterLogging(before.trace, Sent(sent.value)); }
    assert before.trace + [] == before.trace;
    var mid := before.(trace := before.trace + SentEvents(sent));
    GuardedAfterObserving(mid, after);
  }

  /**
   In every run from an empty trace a VM delete is issued only for the recorded VM or the only VM
   listed under the machine's name, right after it was read, and only when the machine has no linked
   Node, or the Node was just found gone or without attached volumes.
   */
  lemma {:induction false} RunTrace(w: World, steps: seq<Step>)
    requires DeletesGuarded(w.trace)
    ensures DeletesGuarded(Run(w, steps).trace)
  {
    hide Next, DeletesGuarded;
    if steps != [] {
      var front := steps[..|steps| - 1];
      RunTrace(w, front);
      StepGuarded(Run(w, front), steps[|steps| - 1]);
    }
  }

  // ---------------------------------------------------------------- What is sent

  /**
   vm was built from the validated spec of machine m, which carries its cluster label, on the
   catalogue, failure domain and user data of this very operation.
   */
  ghost predicate BuiltFrom(vm: BuiltVm, m: Machine, s: Script) {
    && LabelOk(m.labels)
    && s.userData.Some?
    && Errors(s.catalogue, Overridden(m.spec, s.failureDomain)) == []
    && Build(s.catalogue, m.name, m.labels, Resolved(s.catalogue, Overridden(m.spec, s.failureDomain)), s.userData.value) == Ok(vm)
  }

  function SentEvents(sent: Option<BuiltVm>): seq<Event> { if sent.Some? then [Sent(sent.value)] else [] }

  lemma CreateNewTrace(w: World, base: Machine, s: Script) returns (sent: Option<BuiltVm>, after: World)
    requires LabelOk(base.labels) && s.userData.Some? && Errors(s.catalogue, Overridden(base.spec, s.failureDomain)) == []
    ensures Observes(w.(trace := w.trace + SentEvents(sent)), after) && after == CreateNew(w, base, s).0
    ensures sent.Some? ==> BuiltFrom(sent.value, base, s)
  {
    hide Build, Errors, Resolved, Overridden, LabelOk, FinishCreate, Acts;
    sent, after := None, CreateNew(w, base, s).0;
    assert w.trace + [] == w.trace;
    var t := Target(base, s);
    if t.Ok? {
      sent := Some(t.value);
      ActsKeep(w, s.create.before);
      var (w1, r) := CreateCall(w, t.value, s.newId, s.create);
      assert w1.trace == w.trace + [Sent(t.value)];
      if r.Ok? { FinishCreateTrace(w1, s.newId, s); }
    }
  }

  /** What createVM logs: observations, perhaps one VM sent, observations. */
  lemma CreateVmTrace(w: World, m: Memory, s: Script) returns (before: World, sent: Option<BuiltVm>, after: World)
    requires LabelOk(m.base.labels) && s.userData.Some? && Errors(s.catalogue, Overridden(m.base.spec, s.failureDomain)) == []
    ensures Observes(w, before) && Observes(before.(trace := before.trace + SentEvents(sent)), after)
    ensures after == CreateVm(w, m, s).0
    ensures sent.Some? ==> BuiltFrom(sent.value, m.base, s)
  {
    hide Errors, Overridden, LabelOk, CreateNew, GetVm, FindVmByName, IsNotFound, BuiltFrom;
    before, sent, after := w, None, CreateVm(w, m, s).0;
    if m.vmUUID.Some? {
      GetVmTrace(w, m.vmUUID.value, s.getRecorded);
      before := GetVm(w, m.vmUUID.value, s.getRecorded).0;
    }
    assert before.trace + [] == before.trace;
    var r := if m.vmUUID.Some? then GetVm(w, m.vmUUID.value, s.getRecorded).1 else Err("");
    if m.vmUUID.None? || (r.Err? && IsNotFound(r.error)) {
      var w1 := before;
      FindVmTrace(w1, s.list, s.getListed);
      before := FindVmByName(w1, s.list, s.getListed).0;
      ObservesChain(w, w1, before);
      assert before.trace + [] == before.trace;
      var found := FindVmByName(w1, s.list, s.getListed).1;
      if found.Err? && IsNotFound(found.error) {
        sent, after := CreateNewTrace(before, m.base, s);
      }
    }
  }

  lemma CreateTrace(w: World, m: Memory, s: Script) returns (before: World, sent: Option<BuiltVm>, after: World)
    ensures Observes(w, before) && Observes(before.(trace := before.trace + SentEvents(sent)), after)
    ensures after == Create(w, m, s).0
    ensures sent.Some? ==> BuiltFrom(sent.value, m.base, s)
  {
    hide Errors, Overridden, LabelOk, CreateVm, UpdateState, BuiltFrom;
    before, sent, after := w, None, Create(w, m, s).0;
    assert w.trace + [] == w.trace;
    if LabelOk(m.base.labels) && s.userData.Some? && Errors(s.catalogue, Overridden(m.base.spec, s.failureDomain)) == [] {
      var made: World;
      before, sent, made := CreateVmTrace(w, m, s);
      var r := CreateVm(w, m, s).1;
      if r.Ok? {
        UpdateStateTrace(made, m, r.value, s);
        ObservesChain(before.(trace := before.trace + SentEvents(sent)), made, UpdateState(made, m, r.value, s).0);
      }
    }
  }

  /** This step, from world w, is a Create that sends vm. */
  ghost predicate SentByStep(w: World, step: Step, vm: BuiltVm) {
    step.Operate? && step.op == CreateOp && BuiltFrom(vm, Opened(w, CreateOp, step.script).machine, step.script)
  }

  /** The trace grows, and whatever VM is sent is sent by this step. */
  ghost predicate Sends(w: World, w': World, start: World, step: Step) {
    && Extends(w, w')
    && forall i :: |w.trace| <= i < |w'.trace| && w'.trace[i].Sent? ==> SentByStep(start, step, w'.trace[i].vm)
  }

  lemma SendsChain(w: World, w1: World, w2: World, start: World, step: Step)
    requires Sends(w, w1, start, step) && Sends(w1, w2, start, step)
    ensures Sends(w, w2, start, step)
  {
    hide SentByStep;
    var n := |w.trace|;
    assert w2.trace[..n] == w2.trace[..|w1.trace|][..n] == w.trace;
    forall i | n <= i < |w2.trace| && w2.trace[i].Sent? ensures SentByStep(start, step, w2.trace[i].vm) {
      if i < |w1.trace| { assert w2.trace[i] == w2.trace[..|w1.trace|][i]; }
    }
  }

  lemma OpenedSends(w: World, step: Step)
    requires step.Operate?
    ensures Sends(w, Opened(w, step.op, step.script), w, step)
  {
    ActsKeep(w, step.script.before);
  }

  lemma DeleteSends(w: World, m: Memory, s: Script, start: World, step: Step)
    requires m.vmUUID == m.base.vmUUID
    ensures Sends(w, Delete(w, m, s).0, start, step)
  {
    hide Delete, SentByStep;
    var id, volumes := DeleteTrace(w, m, s);
    var w' := Delete(w, m, s).0;
    if !Observes(w, w') {
      var look := w.(trace := w.trace + Evidence(m.base, id, volumes)[1..]);
      ObservedEvidence(w, m.base, id, volumes);
      assert w'.trace == look.trace + [DeleteIssued(id)];
      assert Sends(look, w', start, step);
      SendsChain(w, look, w', start, step);
    }
  }

  lemma CreateSends(w: World, step: Step)
    requires step.Operate? && step.op == CreateOp
    ensures var w0 := Opened(w, CreateOp, step.script);
      Sends(w0, Create(w0, Snapshot(w0), step.script).0, w, step)
  {
    hide Create, Opened, BuiltFrom;
    var w0 := Opened(w, CreateOp, step.script);
    var before, sent, after := CreateTrace(w0, Snapshot(w0), step.script);
    var mid := before.(trace := before.trace + SentEvents(sent));
    assert Sends(w0, before, w, step);
    assert Sends(before, mid, w, step);
    assert Sends(mid, after, w, step);
    SendsChain(w0, before, mid, w, step);
    SendsChain(w0, mid, after, w, step);
  }

  lemma StepSends(w: World, step: Step)
    ensures Sends(w, Next(w, step), w, step)
  {
    hide Lifecycle.Lookup, Create, Update, Delete, Patch, Opened, LabelOk, SentByStep;
    match step
    case Outside(a) => ActKeeps(w, a);
    case Operate(op, s) =>
      OpenedSends(w, step);
      var w0 := Opened(w, op, s);
      var m0 := Snapshot(w0);
      match op {
        case ExistsOp =>
          LookupTrace(w0, m0, s);
          SendsChain(w, w0, Lifecycle.Lookup(w0, m0, s).0, w, step);
        case CreateOp =>
          CreateSends(w, step);
          var (w1, m, _) := Create(w0, m0, s);
          SendsChain(w, w0, w1, w, step);
          PatchTrace(w1, m, s);
        case UpdateOp =>
          UpdateTrace(w0, m0, s);
          var (w1, m, _) := Update(w0, m0, s);
          SendsChain(w, w0, w1, w, step);
          PatchTrace(w1, m, s);
        case DeleteOp =>
          DeleteSends(w0, m0, s, w, step);
          var (w1, m, _) := Delete(w0, m0, s);
          SendsChain(w, w0, w1, w, step);
          PatchTrace(w1, m, s);
      }
  }

  /**
   In every run, each VM sent since the start was sent by a step that is a Create, built from that
   step's own catalogue, failure domain and user data and the validated spec of the labelled machine
   as that step read it.
   */
  lemma {:induction false} RunSends(w: World, steps: seq<Step>, i: nat) returns (k: nat)
    requires |w.trace| <= i < |Run(w, steps).trace| && Run(w, steps).trace[i].Sent?
    ensures k < |steps| && SentByStep(Run(w, steps[..k]), steps[k], Run(w, steps).trace[i].vm)
    decreases |steps|
  {
    hide Next, SentByStep;
    var n := |steps| - 1;
    var front := steps[..n];
    var w1 := Run(w, front);
    StepSends(w1, steps[n]);
    if i < |w1.trace| {
      assert w1.trace[i] == Run(w, steps).trace[..|w1.trace|][i];
      k := RunSends(w, front, i);
      assert front[..k] == steps[..k];
    } else {
      k := n;
    }
  }

  /** vm says what the spec of m says, on what Prism Central answered to this operation. */
  ghost predicate SaysItsSpec(vm: BuiltVm, m: Machine, s: Script)
    requires LabelOk(m.labels)
  {
    var cat, spec := s.catalogue, Overridden(m.spec, s.failureDomain);
    && vm.name == m.name
    && KeepsMeaning(cat, spec, vm)
    && (NicsKeepMeaning(cat, spec, vm) <==> forall i :: 0 <= i < |spec.subnets| ==> !Nameless(cat, SubnetPlace, spec.subnets[i]))
    && (SourcesKeepMeaning(cat, spec, vm) <==> forall i :: 0 <= i < |spec.dataDisks| ==> !NamelessSource(cat, spec.dataDisks[i]))
    && (ProjectKeepsMeaning(cat, spec, vm) <==> !NamelessProject(cat, spec.project))
    && (CategoriesKeepMeaning(cat, m.labels, m.spec.categories, vm) <==> CategoriesHaveIds(cat, m.labels, m.spec.categories))
  }

  /**
   Every VM ever sent says what its machine's spec says, but for what was listed without an ExtId. Its category list is one reference per user
   category in order and then the ownership category of the machine's cluster label, exactly when
   Prism Central listed each of these with an ExtId to the Create that sent it.
   */
  lemma EverySentVmIsOwned(w: World, steps: seq<Step>, i: nat) returns (k: nat)
    requires |w.trace| <= i < |Run(w, steps).trace| && Run(w, steps).trace[i].Sent?
    ensures k < |steps| && SentByStep(Run(w, steps[..k]), steps[k], Run(w, steps).trace[i].vm)
    ensures var m := Opened(Run(w, steps[..k]), CreateOp, steps[k].script).machine;
      SaysItsSpec(Run(w, steps).trace[i].vm, m, steps[k].script)
  {
    hide Run, Errors, Build, Resolved, LabelOk, Opened, KeepsMeaning, CategoriesKeepMeaning, CategoriesHaveIds,
         NicsKeepMeaning, SourcesKeepMeaning, ProjectKeepsMeaning, Nameless, NamelessSource, NamelessProject;
    k := RunSends(w, steps, i);
    var vm, s := Run(w, steps).trace[i].vm, steps[k].script;
    var m := Opened(Run(w, steps[..k]), CreateOp, s).machine;
    MeaningPreserved(s.catalogue, m.name, m.labels, Overridden(m.spec, s.failureDomain), s.userData.value, vm);
    OverriddenKeepsCategories(m.spec, s.failureDomain);
  }

  lemma OverriddenKeepsCategories(s: Spec, fd: Option<FailureDomain>)
    ensures Overridden(s, fd).categories == s.categories
  {
  }
}
