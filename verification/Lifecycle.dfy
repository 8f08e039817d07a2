/**
 The machine lifecycle against an unreliable cloud: Actuator.Create/Update/Delete/Exists
 (pkg/actuators/machine/actuator.go) driving the reconciler (pkg/actuators/machine/reconciler.go)
 over createVM, findVMByName and deleteVM (pkg/actuators/machine/vm.go:453-848), and persisting
 the result in two patches (pkg/actuators/machine/machine_scope.go:206-235).

 Every external call is a step that other parties may precede with actions of their own, and that
 may fail, or take effect and still report failure. A Script fixes what happens at each call of one
 operation, so an operation is a function of the world and a script, and "for every script" is
 "whatever the cloud, the API server and everybody else do".

 What is assumed of the cloud is built into its calls: it says "not found" only of an absent VM,
 List agrees with Get, Get by UUID returns the VM of that UUID, a new VM gets a UUID never used
 before, and nobody else creates a VM with the machine's name.
 */
module Lifecycle {
  import opened Basics
  import opened Text
  import opened ProviderSpec
  import opened Catalogue
  import opened Validation
  import opened Builder

  // ---------------------------------------------------------------- The world

  datatype Vm = Vm(name: string, on: bool, categories: seq<string>)

  datatype Node = Node(providerID: string, volumes: nat)

  /** The stored Machine: what is read at the start of an operation and written by the patches. */
  datatype Machine = Machine(
    name: string,
    labels: map<string, string>,
    spec: Spec,
    providerID: Option<string>,
    nodeRef: Option<string>,
    vmUUID: Option<string>)

  datatype Op = CreateOp | UpdateOp | DeleteOp | ExistsOp

  /** What an observer of the controller's calls would see. */
  datatype Event =
    | Started(op: Op, machine: Machine)
    | Listed(ids: set<string>)
    | Got(id: string)
    | SawNode(node: string, volumes: Option<nat>)
    | Sent(vm: BuiltVm)
    | DeleteIssued(id: string)

  datatype World = World(
    cloud: map<string, Vm>,
    used: set<string>,
    machine: Machine,
    nodes: map<string, Node>,
    trace: seq<Event>)

  /** The VMs that carry the machine's name. */
  function Named(w: World): set<string> {
    set u | u in w.cloud && w.cloud[u].name == w.machine.name
  }

  /** The identifier is, or once was, a VM's. */
  predicate Taken(w: World, id: string) { id in w.used || id in w.cloud }

  function Log(w: World, e: Event): World { w.(trace := w.trace + [e]) }

  // ---------------------------------------------------------------- Everybody else

  datatype EnvAction =
    | RemoveVm(id: string)
    | RemoveOther(id: string)
    | AddOther(id: string, vm: Vm)
    | SetPower(id: string, on: bool)
    | PutNode(node: string, value: Node)
    | SetVolumes(node: string, volumes: nat)
    | RemoveNode(node: string)
    | SetNodeRef(ref: Option<string>)
    | SetLabels(labels: map<string, string>)
    | SetSpec(spec: Spec)

  function Act(w: World, a: EnvAction): World {
    match a
    case RemoveVm(id) => w.(cloud := w.cloud - {id})
    case RemoveOther(id) => if id in Named(w) then w else w.(cloud := w.cloud - {id})
    case AddOther(id, vm) =>
      if Taken(w, id) || vm.name == w.machine.name then w
      else w.(cloud := w.cloud[id := vm], used := w.used + {id})
    case SetPower(id, on) =>
      if id in w.cloud then w.(cloud := w.cloud[id := w.cloud[id].(on := on)]) else w
    case PutNode(node, value) => w.(nodes := w.nodes[node := value])
    case SetVolumes(node, volumes) =>
      if node in w.nodes then w.(nodes := w.nodes[node := w.nodes[node].(volumes := volumes)]) else w
    case RemoveNode(node) => w.(nodes := w.nodes - {node})
    case SetNodeRef(ref) => w.(machine := w.machine.(nodeRef := ref))
    case SetLabels(labels) => w.(machine := w.machine.(labels := labels))
    case SetSpec(spec) => w.(machine := w.machine.(spec := spec))
  }

  function Acts(w: World, actions: seq<EnvAction>): World {
    if actions == [] then w else Act(Acts(w, actions[..|actions| - 1]), actions[|actions| - 1])
  }

  // ---------------------------------------------------------------- Calls

  /** NoId: the call succeeds but the reply carries no ExtId. */
  datatype Fault = NoFault | Fail(msg: string) | FailAfter(msg: string) | NoId

  datatype Call = Call(before: seq<EnvAction>, fault: Fault)

  predicate Failed(f: Fault) { f.Fail? || f.FailAfter? }

  const VM_NOT_FOUND := "VM_NOT_FOUND"

  /** A failure about something that exists is never worded as "not found". */
  function Honest(msg: string): string { if IsNotFound(msg) then "request failed" else msg }

  function GetVm(w: World, id: string, c: Call): (World, Result<string, string>) {
    var w1 := Acts(w, c.before);
    if id in w1.cloud then
      if Failed(c.fault) then (w1, Err(Honest(c.fault.msg))) else (Log(w1, Got(id)), Ok(id))
    else
      (w1, Err(if Failed(c.fault) then c.fault.msg else VM_NOT_FOUND))
  }

  function FindVmByName(w: World, list: Call, get: Call): (World, Result<string, string>) {
    var w1 := Acts(w, list.before);
    var name, ids := w1.machine.name, Named(w1);
    if Failed(list.fault) then (w1, Err(ListError(name, Honest(list.fault.msg))))
    else
      var w2 := Log(w1, Listed(ids));
      if |ids| == 0 then (w2, Err(ZeroMatchesError(name)))
      else if |ids| > 1 then (w2, Err(AmbiguousError(|ids|, name)))
      else if list.fault == NoId then (w2, Err(NilIdError(name)))
      else GetVm(w2, TheOnly(ids), get)
  }

  function CreateCall(w: World, vm: BuiltVm, id: string, c: Call): (World, Result<string, string>) {
    var w1 := Log(Acts(w, c.before), Sent(vm));
    if c.fault.Fail? || Taken(w1, id) then (w1, Err("create failed"))
    else
      var w2 := w1.(cloud := w1.cloud[id := Vm(vm.name, false, vm.categories)], used := w1.used + {id});
      if c.fault == NoFault then (w2, Ok(id)) else (w2, Err("create reported a failure"))
  }

  function SwitchOn(w: World, id: string): World { Act(w, SetPower(id, true)) }

  /** Submitting the power-on, or waiting for it; either may already have taken effect when it fails. */
  function PowerCall(w: World, id: string, c: Call, effective: bool): (World, bool) {
    var w1 := Acts(w, c.before);
    if c.fault.Fail? || id !in w1.cloud then (w1, false)
    else if c.fault.FailAfter? then (SwitchOn(w1, id), false)
    else (if effective then SwitchOn(w1, id) else w1, true)
  }

  datatype NodeError = NodeGone | NodeUnreadable

  function GetNode(w: World, node: string, c: Call): (World, Result<Node, NodeError>) {
    var w1 := Acts(w, c.before);
    if Failed(c.fault) then (w1, Err(NodeUnreadable))
    else if node !in w1.nodes then (Log(w1, SawNode(node, None)), Err(NodeGone))
    else (Log(w1, SawNode(node, Some(w1.nodes[node].volumes))), Ok(w1.nodes[node]))
  }

  function SetNodeID(w: World, node: string, id: string, c: Call): (World, bool) {
    var w1 := Acts(w, c.before);
    if c.fault.Fail? || node !in w1.nodes then (w1, false)
    else
      var w2 := w1.(nodes := w1.nodes[node := w1.nodes[node].(providerID := id)]);
      (w2, !c.fault.FailAfter?)
  }

  /** A call that only reads and whose answer does not matter here. */
  function ReadCall(w: World, c: Call): (World, bool) { (Acts(w, c.before), !Failed(c.fault)) }

  function Removed(w: World, id: string): World { w.(cloud := w.cloud - {id}) }

  /** DeleteAsync: accepted, refused, or done although it reported a failure. */
  function DeleteCall(w: World, id: string, c: Call): (World, Result<(), string>) {
    var w1 := Log(Acts(w, c.before), DeleteIssued(id));
    if id !in w1.cloud then (w1, Err(if Failed(c.fault) then c.fault.msg else VM_NOT_FOUND))
    else
      match c.fault
      case Fail(msg) => (w1, Err(Honest(msg)))
      case FailAfter(msg) => (Removed(w1, id), Err(msg))
      case _ => (w1, Ok(()))
  }

  /** Waiting for the deletion task. */
  function AwaitDelete(w: World, id: string, c: Call): (World, Result<(), string>) {
    var w1 := Acts(w, c.before);
    match c.fault
    case Fail(msg) => (w1, Err(if id in w1.cloud then Honest(msg) else msg))
    case FailAfter(msg) => (Removed(w1, id), Err(msg))
    case _ => (Removed(w1, id), Ok(()))
  }

  /** deleteVM: "not found" from either call counts as deleted. */
  function DeleteVm(w: World, id: string, submit: Call, wait: Call): (World, bool) {
    var (w1, r1) := DeleteCall(w, id, submit);
    if r1.Err? then (w1, IsNotFound(r1.error))
    else
      var (w2, r2) := AwaitDelete(w1, id, wait);
      (w2, r2.Ok? || IsNotFound(r2.error))
  }

  // ---------------------------------------------------------------- One operation

  /** What happens at each point of one operation. */
  datatype Script = Script(
    before: seq<EnvAction>,
    scopeFails: bool,
    failureDomain: Option<FailureDomain>,
    userData: Option<string>,
    catalogue: Catalogue,
    getRecorded: Call,
    list: Call,
    getListed: Call,
    create: Call,
    newId: string,
    powerOn: Call,
    awaitPower: Call,
    getCreated: Call,
    getNode: Call,
    setNode: Call,
    prismCentral: Call,
    deleteVm: Call,
    awaitDelete: Call,
    patchSpec: Call,
    patchStatus: Call)

  /** The machine in memory: a snapshot and the two identity fields an operation may change. */
  datatype Memory = Memory(base: Machine, providerID: Option<string>, vmUUID: Option<string>)

  function Pid(id: string): string { "nutanix://" + id }

  /** Powers a new VM on and reads it back. */
  function FinishCreate(w: World, id: string, s: Script): (World, Result<string, string>) {
    var (w1, submitted) := PowerCall(w, id, s.powerOn, false);
    if !submitted then (w1, Err("power on VM"))
    else
      var (w2, done) := PowerCall(w1, id, s.awaitPower, true);
      if !done then (w2, Err("wait for power on")) else GetVm(w2, id, s.getCreated)
  }

  /** The VM that would be sent for this machine, if it can be built. */
  function Target(base: Machine, s: Script): Result<BuiltVm, BuildError> {
    Build(s.catalogue, base.name, base.labels,
          Resolved(s.catalogue, Overridden(base.spec, s.failureDomain)), s.userData.GetOr(""))
  }

  function CreateNew(w: World, base: Machine, s: Script): (World, Result<string, string>) {
    match Target(base, s)
    case Err(_) => (w, Err("building v4 VM spec"))
    case Ok(vm) =>
      var (w1, created) := CreateCall(w, vm, s.newId, s.create);
      if created.Err? then (w1, created) else FinishCreate(w1, created.value, s)
  }

  function AdoptOrCreate(w: World, base: Machine, s: Script): (World, Result<string, string>) {
    var (w1, r) := FindVmByName(w, s.list, s.getListed);
    if r.Ok? || !IsNotFound(r.error) then (w1, r) else CreateNew(w1, base, s)
  }

  /** createVM. */
  function CreateVm(w: World, m: Memory, s: Script): (World, Result<string, string>) {
    if m.vmUUID.None? then AdoptOrCreate(w, m.base, s)
    else
      var (w1, r) := GetVm(w, m.vmUUID.value, s.getRecorded);
      if r.Ok? || !IsNotFound(r.error) then (w1, r) else AdoptOrCreate(w1, m.base, s)
  }

  /** The lookup that update, delete and exists share. */
  function Lookup(w: World, m: Memory, s: Script): (World, Result<string, string>) {
    if m.vmUUID.Some? then GetVm(w, m.vmUUID.value, s.getRecorded) else FindVmByName(w, s.list, s.getListed)
  }

  function NodeName(base: Machine): string
    requires base.nodeRef.Some?
  {
    if base.nodeRef.value == "" then base.name else base.nodeRef.value
  }

  /** The part of setProviderID about the Node. */
  function LabelNode(w: World, base: Machine, id: string, s: Script): (World, bool) {
    if base.nodeRef.None? then (w, true)
    else
      var (w1, node) := GetNode(w, NodeName(base), s.getNode);
      if node.Err? then (w1, false)
      else if node.value.providerID == Pid(id) then (w1, true)
      else SetNodeID(w1, NodeName(base), Pid(id), s.setNode)
  }

  /** updateMachineWithVMState. */
  function UpdateState(w: World, m: Memory, id: string, s: Script): (World, Memory, bool) {
    var m1 := m.(providerID := Some(Pid(id)));
    var (w1, labelled) := LabelNode(w, m.base, id, s);
    if !labelled then (w1, m1, false)
    else
      var (w2, ok) := ReadCall(w1, s.prismCentral);
      (w2, m1, ok)
  }

  /** Reconciler.create. */
  function Create(w: World, m: Memory, s: Script): (World, Memory, bool) {
    if !LabelOk(m.base.labels) || s.userData.None?
       || Errors(s.catalogue, Overridden(m.base.spec, s.failureDomain)) != []
    then (w, m, false)
    else
      var (w1, r) := CreateVm(w, m, s);
      if r.Err? then (w1, m, false)
      else
        var (w2, m2, ok) := UpdateState(w1, m, r.value, s);
        if !ok then (w2, m2, false) else (w2, m2.(vmUUID := Some(r.value)), true)
  }

  /** Reconciler.update. */
  function Update(w: World, m: Memory, s: Script): (World, Memory, bool) {
    if !LabelOk(m.base.labels) then (w, m, false)
    else
      var (w1, r) := Lookup(w, m, s);
      if r.Err? then (w1, m, false)
      else
        var (w2, m2, ok) := UpdateState(w1, m.(vmUUID := Some(r.value)), r.value, s);
        (w2, m2, ok)
  }

  predicate NodeLinked(base: Machine) { base.nodeRef.Some? && base.nodeRef.value != "" }

  /** The volume check before a delete: true when nothing stands in the way. */
  function VolumesDetached(w: World, base: Machine, s: Script): (World, bool) {
    if !NodeLinked(base) then (w, true)
    else
      var (w1, node) := GetNode(w, base.nodeRef.value, s.getNode);
      match node
      case Err(NodeGone) => (w1, true)
      case Err(NodeUnreadable) => (w1, false)
      case Ok(n) => (w1, n.volumes == 0)
  }

  /** Reconciler.delete. */
  function Delete(w: World, m: Memory, s: Script): (World, Memory, bool) {
    var (w1, r) := Lookup(w, m, s);
    if r.Err? then (w1, m, IsNotFound(r.error))
    else
      var (w2, clear) := VolumesDetached(w1, m.base, s);
      if !clear then (w2, m, false)
      else
        var (w3, gone) := DeleteVm(w2, r.value, s.deleteVm, s.awaitDelete);
        if !gone then (w3, m, false) else (w3, m.(providerID := None), true)
  }

  /** What a merge patch leaves in one field: the new value if this operation changed it. */
  function Merged<T(==)>(base: T, mine: T, stored: T): T { if mine == base then stored else mine }

  /** patchMachine: the spec patch, and only after it the status patch. */
  function Patch(w: World, m: Memory, s: Script): (World, bool) {
    var w1 := Acts(w, s.patchSpec.before);
    if s.patchSpec.fault.Fail? then (w1, false)
    else
      var w2 := w1.(machine := w1.machine.(providerID := Merged(m.base.providerID, m.providerID, w1.machine.providerID)));
      if s.patchSpec.fault.FailAfter? then (w2, false)
      else
        var w3 := Acts(w2, s.patchStatus.before);
        if s.patchStatus.fault.Fail? then (w3, false)
        else
          (w3.(machine := w3.machine.(vmUUID := Merged(m.base.vmUUID, m.vmUUID, w3.machine.vmUUID))),
           !s.patchStatus.fault.FailAfter?)
  }

  /** The result of an operation: the world it leaves, whether it returned no error, and Exists' answer. */
  datatype Reply = Reply(w: World, ok: bool, found: bool)

  function Opened(w: World, op: Op, s: Script): World {
    var w1 := Acts(w, s.before);
    Log(w1, Started(op, w1.machine))
  }

  function Snapshot(w: World): Memory { Memory(w.machine, w.machine.providerID, w.machine.vmUUID) }

  function Reconcile(w: World, op: Op, m: Memory, s: Script): (World, Memory, bool)
    requires op != ExistsOp
  {
    match op
    case CreateOp => Create(w, m, s)
    case UpdateOp => Update(w, m, s)
    case DeleteOp => Delete(w, m, s)
  }

  /** Actuator.Create, Update and Delete: reconcile, then patch whatever the outcome. */
  function ReconcileAndPatch(w: World, op: Op, s: Script): Reply
    requires op != ExistsOp
  {
    var w0 := Opened(w, op, s);
    if s.scopeFails then Reply(w0, false, false)
    else
      var (w1, m, ok) := Reconcile(w0, op, Snapshot(w0), s);
      var (w2, saved) := Patch(w1, m, s);
      Reply(w2, saved && ok, false)
  }

  /** Actuator.Exists. */
  function Exists(w: World, s: Script): Reply {
    var w0 := Opened(w, ExistsOp, s);
    if s.scopeFails || !LabelOk(w0.machine.labels) then Reply(w0, false, false)
    else
      var (w1, r) := Lookup(w0, Snapshot(w0), s);
      if r.Ok? then Reply(w1, true, true) else Reply(w1, IsNotFound(r.error), false)
  }

  function Do(w: World, op: Op, s: Script): Reply {
    if op == ExistsOp then Exists(w, s) else ReconcileAndPatch(w, op, s)
  }

  // ---------------------------------------------------------------- Runs

  /** One step of a run: an operation of the controller, or an action of somebody else. */
  datatype Step = Operate(op: Op, script: Script) | Outside(action: EnvAction)

  function Next(w: World, step: Step): World {
    match step
    case Operate(op, s) => Do(w, op, s).w
    case Outside(a) => Act(w, a)
  }

  function Run(w: World, steps: seq<Step>): World {
    if steps == [] then w else Next(Run(w, steps[..|steps| - 1]), steps[|steps| - 1])
  }
}
