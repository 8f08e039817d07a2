/**
 The reconciler and the actuator as objects whose methods change the machine in memory and the world
 step by step, with the source's early returns. Each method is proved to do what the value-level
 function of module Lifecycle says, so everything proved about runs holds of it.
 */
module Actuator {
  import opened Basics
  import opened Text
  import opened ProviderSpec
  import opened Validation
  import opened Builder
  import opened Lifecycle

  /** Reconciler with its embedded machineScope. world is what the clients talk to. */
  class Reconciler {
    var world: World
    const base: Machine
    var providerID: Option<string>
    var vmUUID: Option<string>

    /** newMachineScope: a snapshot of the machine and its decoded status. */
    constructor (w: World)
      ensures world == w && Mem() == Snapshot(w)
    {
      world, base := w, w.machine;
      providerID, vmUUID := w.machine.providerID, w.machine.vmUUID;
    }

    function Mem(): Memory
      reads this
    {
      Memory(base, providerID, vmUUID)
    }

    /** createVM: by recorded UUID, then by name, then a new VM. */
    method CreateVM(s: Script) returns (r: Result<string, string>)
      modifies this`world
      ensures (world, r) == CreateVm(old(world), Mem(), s)
    {
      hide IsNotFound, Build, GetVm, FindVmByName, CreateCall, FinishCreate;
      if vmUUID.Some? {
        var (w, found) := GetVm(world, vmUUID.value, s.getRecorded);
        world := w;
        if found.Ok? || !IsNotFound(found.error) { return found; }
      }
      var (w, found) := FindVmByName(world, s.list, s.getListed);
      world := w;
      if found.Ok? || !IsNotFound(found.error) { return found; }
      var vm := Target(base, s);
      if vm.Err? { return Err("building v4 VM spec"); }
      var (w1, created) := CreateCall(world, vm.value, s.newId, s.create);
      world := w1;
      if created.Err? { return created; }
      var (w2, finished) := FinishCreate(world, created.value, s);
      world := w2;
      return finished;
    }

    /** setProviderID: first the machine in memory, then the Node. */
    method SetProviderID(id: string, s: Script) returns (ok: bool)
      modifies this`world, this`providerID
      ensures (world, ok) == LabelNode(old(world), base, id, s)
      ensures providerID == Some(Pid(id))
    {
      hide GetNode, SetNodeID;
      if providerID != Some(Pid(id)) { providerID := Some(Pid(id)); }
      if base.nodeRef.None? { return true; }
      var (w, node) := GetNode(world, NodeName(base), s.getNode);
      world := w;
      if node.Err? { return false; }
      if node.value.providerID == Pid(id) { return true; }
      var (w1, updated) := SetNodeID(world, NodeName(base), Pid(id), s.setNode);
      world := w1;
      return updated;
    }

    method UpdateMachineWithVMState(id: string, s: Script) returns (ok: bool)
      modifies this`world, this`providerID
      ensures (world, Mem(), ok) == UpdateState(old(world), old(Mem()), id, s)
      ensures vmUUID == old(vmUUID)
    {
      hide LabelNode;
      ok := SetProviderID(id, s);
      if !ok { return; }
      var (w, read) := ReadCall(world, s.prismCentral);
      world := w;
      return read;
    }

    /** create. VmUUID is recorded only after the machine's state was updated. */
    method CreateMachine(s: Script) returns (ok: bool)
      modifies this
      ensures (world, Mem(), ok) == Create(old(world), old(Mem()), s)
    {
      hide CreateVm, UpdateState, Errors, Overridden, LabelOk;
      if !LabelOk(base.labels) { return false; }
      if s.userData.None? { return false; }
      if Errors(s.catalogue, Overridden(base.spec, s.failureDomain)) != [] { return false; }
      var vm := CreateVM(s);
      if vm.Err? { return false; }
      ok := UpdateMachineWithVMState(vm.value, s);
      if !ok { return false; }
      vmUUID := Some(vm.value);
      return true;
    }

    method FindMachineVM(s: Script) returns (r: Result<string, string>)
      modifies this`world
      ensures (world, r) == Lifecycle.Lookup(old(world), Mem(), s)
    {
      hide GetVm, FindVmByName;
      if vmUUID.Some? {
        var (w, found) := GetVm(world, vmUUID.value, s.getRecorded);
        world := w;
        return found;
      }
      var (w, found) := FindVmByName(world, s.list, s.getListed);
      world := w;
      return found;
    }

    /** update. */
    method UpdateMachine(s: Script) returns (ok: bool)
      modifies this
      ensures (world, Mem(), ok) == Update(old(world), old(Mem()), s)
    {
      hide Lifecycle.Lookup, UpdateState, LabelOk;
      if !LabelOk(base.labels) { return false; }
      var vm := FindMachineVM(s);
      if vm.Err? { return false; }
      vmUUID := Some(vm.value);
      ok := UpdateMachineWithVMState(vm.value, s);
    }

    /** delete: a linked Node must be gone or free of volumes. */
    method DeleteMachine(s: Script) returns (ok: bool)
      modifies this
      ensures (world, Mem(), ok) == Delete(old(world), old(Mem()), s)
    {
      hide Lifecycle.Lookup, DeleteVm, GetNode, IsNotFound;
      var vm := FindMachineVM(s);
      if vm.Err? { return IsNotFound(vm.error); }
      if NodeLinked(base) {
        var (w, node) := GetNode(world, base.nodeRef.value, s.getNode);
        world := w;
        if node == Err(NodeUnreadable) { return false; }
        if node.Ok? && node.value.volumes != 0 { return false; }
      }
      var (w, gone) := DeleteVm(world, vm.value, s.deleteVm, s.awaitDelete);
      world := w;
      if !gone { return false; }
      providerID := None;
      return true;
    }

    /** exists. */
    method MachineExists(s: Script) returns (ok: bool, found: bool)
      modifies this`world
      ensures !LabelOk(base.labels) ==> world == old(world) && !ok && !found
      ensures LabelOk(base.labels) ==>
        var (w, r) := Lifecycle.Lookup(old(world), Mem(), s);
        world == w && found == r.Ok? && ok == (r.Ok? || IsNotFound(r.error))
    {
      hide Lifecycle.Lookup, LabelOk, IsNotFound;
      if !LabelOk(base.labels) { return false, false; }
      var vm := FindMachineVM(s);
      if vm.Err? { return IsNotFound(vm.error), false; }
      return true, true;
    }

    /** patchMachine: the spec, then the status. */
    method PatchMachine(s: Script) returns (ok: bool)
      modifies this`world
      ensures (world, ok) == Patch(old(world), Mem(), s)
    {
      hide Acts;
      world := Acts(world, s.patchSpec.before);
      if s.patchSpec.fault.Fail? { return false; }
      world := world.(machine := world.machine.(providerID := Merged(base.providerID, providerID, world.machine.providerID)));
      if s.patchSpec.fault.FailAfter? { return false; }
      world := Acts(world, s.patchStatus.before);
      if s.patchStatus.fault.Fail? { return false; }
      world := world.(machine := world.machine.(vmUUID := Merged(base.vmUUID, vmUUID, world.machine.vmUUID)));
      return !s.patchStatus.fault.FailAfter?;
    }
  }

  /** Actuator: each operation opens a scope, reconciles, and patches whatever the outcome. */
  class MachineActuator {
    var world: World

    constructor (w: World)
      ensures world == w
    {
      world := w;
    }

    method Perform(op: Op, s: Script) returns (ok: bool)
      requires op != ExistsOp
      modifies this
      ensures Reply(world, ok, false) == Do(old(world), op, s)
    {
      hide Lifecycle.Create, Lifecycle.Update, Lifecycle.Delete, Patch, Opened;
      world := Opened(world, op, s);
      if s.scopeFails { return false; }
      var r := new Reconciler(world);
      match op {
        case CreateOp => ok := r.CreateMachine(s);
        case UpdateOp => ok := r.UpdateMachine(s);
        case DeleteOp => ok := r.DeleteMachine(s);
      }
      var saved := r.PatchMachine(s);
      world := r.world;
      return saved && ok;
    }

    method Exists(s: Script) returns (ok: bool, found: bool)
      modifies this
      ensures Reply(world, ok, found) == Do(old(world), ExistsOp, s)
    {
      hide Lifecycle.Lookup, Opened, LabelOk, IsNotFound;
      world := Opened(world, ExistsOp, s);
      if s.scopeFails { return false, false; }
      var r := new Reconciler(world);
      ok, found := r.MachineExists(s);
      world := r.world;
    }

    /** A whole run, one step at a time. */
    method Operate(steps: seq<Step>)
      modifies this
      ensures world == Run(old(world), steps)
    {
      ghost var start := world;
      for i := 0 to |steps|
        invariant world == Run(start, steps[..i])
      {
        assert steps[..i + 1][..i] == steps[..i];
        match steps[i] {
          case Outside(a) => world := Act(world, a);
          case Operate(op, s) =>
            if op == ExistsOp {
              var _, _ := Exists(s);
            } else {
              var _ := Perform(op, s);
            }
        }
      }
      assert steps[..|steps|] == steps;
    }
  }
}
