# Machine API provider for Nutanix: a verified model

The provider reconciles an OpenShift `Machine` with a VM in Nutanix Prism Central. This project models
the parts of it where something can go wrong between two systems, and proves what they keep:

- **The lifecycle** (`Lifecycle*.dfy`, `Actuator.dfy`). `Actuator.Create/Update/Delete/Exists` against a
  cloud, a set of Nodes and a stored Machine. Each external call is a step that other parties may precede
  with any actions of their own, and that may fail, or take effect and still report failure, or reply
  without an id. A `Script` fixes what happens at every call of one operation; a run is any list of
  operations, each with its script, and outside actions. Statements hold for every script and every run.
  `Lifecycle.dfy` has the operations as functions of the world; the classes in `Actuator.dfy` do the same
  step by step, with the source's early returns, and are proved equal to them.
- **Validate, resolve, build** (`ProviderSpec`, `Catalogue`, `Validation`, `ValidationScope`, `Builder`).
  The validator as it runs, on a heap of objects with pointers that are written through; its error list
  against one declarative predicate; the builder; and the meaning the two passes preserve together. The
  catalogue is an arbitrary response to every query, failed calls included.
- **Error classification** (`Text`), **conditions** (`Conditions`), **node addresses** (`IpText`,
  `Addresses`), **the two patches** (`MergePatch`, `MachinePatch`) and **capacity annotations**
  (`MachineSet`, `Decimal`).

`dafny verify dfyconfig.toml` checks everything.

## Assumptions

The lifecycle builds these into its calls; nothing else is assumed of the cloud or of other parties.

- A call says "not found" only of a VM that is absent (`Lifecycle.Honest`). List agrees with Get, and Get
  by UUID answers with the VM of that UUID.
- A create takes effect, if it does, before its call returns; a deletion or a power change may land at any
  later time. A new VM's UUID was never used before.
- Nobody else creates a VM with the machine's name, or writes the two identity fields of the Machine. One
  machine is reconciled serially. Labels, spec, NodeRef, Nodes, power and all VMs may be changed by
  anybody at any call.
- An operation starts from the Machine as it is stored then, not from an older cached copy.
- Where a statement is about names, the machine's name is a legal host name (section 2.1 of RFC 1123).
- The API server applies merge patches as section 2 of RFC 7396 says, ignores the status in a patch of the
  resource and everything else in a patch of the status, and refuses a patch that carries a resource
  version other than the stored one.

## Where the code and its stated intent differ

- `pkg/actuators/machine/utils.go:282` returns its argument, not the merge that the comment at 264-269
  promises. The merge is modelled and its meaning over any history proved; `ReturnedIsTheMerge` says for
  which types the two agree, `LostOverRuns` what is lost over a run.
- `pkg/actuators/machine/vm.go:885`, `:901` and `:919` answer without an error for a listed item that has
  no id. The builder then fails for the image (549-553), drops the NIC (535-537), makes a data disk blank
  (570) and leaves the project out (656); categories without an ExtId are skipped (724, 741), the ownership
  category among them. `ValidatorSound`, `MeaningPreserved` and `OwnershipIsLast` say exactly when each
  happens, and there is a lemma with an input for each.
- A failure at `pkg/actuators/machine/reconciler.go:73-75` returns before the VM's UUID is recorded at 77.
  The stored identity can then disagree, and the same after a lost status patch, if and only if the VM on
  record was gone before the call (`SplitExactly`, `LostStatusPatchSplits`, `CreateCanSplitIdentity`); over
  runs it agrees as long as every Create meets its recorded VM alive (`IdentityAgreesWhileRecordLives`).
- A delete looks only for the recorded UUID when there is one, so a stale record makes it report success
  beside a live VM of the same name (`DeleteExact`, `DeleteCanLeaveAnOrphan`).
- A successful create need not leave the VM powered on: a retry after a failed power-on adopts the VM by
  name (`pkg/actuators/machine/vm.go:469-471`). `PowerAfterCreate` says exactly when it does,
  `CreateCanLeaveTheVmOff` gives a create that does not.
- An ambiguous name or a nil ExtId is misread as "not found" exactly when the machine's name itself says
  so, which a legal host name cannot (`AmbiguousIsNotFound`, `NilIdIsNotFound`).
- `pkg/actuators/machineset/controller.go:117` multiplies before widening, so the CPU annotation is right
  exactly when the product fits an int32 (`CpuTextExact`, `CpuTextCanWrap`).

## Model

| member | source | states |
|---|---|---|
| LifecycleRuns.AtMostOneVm | pkg/actuators/machine/vm.go:454-510 | over every run, with any failed call, lost reply, lost patch or removal, a machine that has at most one VM of its name never gets a second |
| LifecycleRuns.RunAddsNoDuplicate | pkg/actuators/machine/actuator.go:72-206 | the same from any start: the VMs of the name are among the initial ones or there is at most one, and a used UUID that is dead stays dead |
| LifecycleRuns.RunLineage | pkg/actuators/machine/reconciler.go:41-205 | on every run in which no Create follows a Delete and nobody removes the VM before the first Delete, anything being allowed from that Delete on, there is one origin: the only VM of the name, the only one ever recorded, and alive until a Delete begins |
| LifecycleRuns.IdentityAgreesOnRuns | pkg/actuators/machine/machine_scope.go:207-235 | on those runs, whenever ProviderID and VmUUID are both stored, ProviderID is "nutanix://" followed by VmUUID, even if only the first patch landed |
| LifecycleRuns.NoOrphanOnRuns | pkg/actuators/machine/reconciler.go:150-205 | on those runs the next update, delete or exists, whatever happens around it, resolves to the only live VM of the name or truthfully finds none, and an undisturbed create before any delete answers with it |
| LifecycleRuns.DeleteLeavesNoneOnRuns | pkg/actuators/machine/reconciler.go:150-205 | on those runs a Delete that returns no error, whatever happens around it, leaves no VM of the name |
| LifecycleRuns.StepLineage | pkg/actuators/machine/actuator.go:72-206 | each single step keeps the one-origin invariant; a step at or after a Delete may be disturbed in any way, so an accepted deletion may land late |
| LifecycleRuns.CreateLineage | pkg/actuators/machine/reconciler.go:41-80 | create keeps it through a lost reply: a VM whose create reported failure becomes the origin that the next create adopts |
| LifecycleRuns.UpdateLineage | pkg/actuators/machine/reconciler.go:83-147 | update keeps it and holds in memory only the snapshot's identity or the origin's |
| LifecycleRuns.DeleteLineage | pkg/actuators/machine/reconciler.go:150-205 | delete keeps it, and when it returns no error no VM of the name is left |
| LifecycleRuns.PatchLineage | pkg/actuators/machine/machine_scope.go:207-235 | the two patches keep it wherever they stop |
| LifecycleRuns.ReconcileStage | pkg/actuators/machine/reconciler.go:41-205 | create, update and delete never add a second VM of the name and leave the stored identity to the patches |
| LifecycleExact.SuccessIdentifies | pkg/actuators/machine/reconciler.go:267-313 | after any Create or Update without an error, from any world, one identity "nutanix://" + id is in both stored fields and on the Node of NodeRef's name, or of the machine's name where that is empty |
| LifecycleIdentity.IdentityAgreesWhileRecordLives | pkg/actuators/machine/reconciler.go:41-205 | over every run, from any world whose identity agrees, with any removals and Creates after Deletes, the stored identity agrees if every Create met its recorded VM alive or none recorded |
| LifecycleIdentity.SplitExactly | pkg/actuators/machine/reconciler.go:65-77 | some Create during which nobody removes the recorded VM before it is read can split the stored identity if and only if that VM is gone before the call |
| LifecycleIdentity.LostStatusPatchSplits | pkg/actuators/machine/machine_scope.go:219-232 | a Create that loses only its status patch splits the identity if and only if, as it opens, the VM on record is gone, the machine passes the first checks, and there is one VM of the name or none and one can be made |
| LifecycleIdentity.DeadRecordSplits | pkg/actuators/machine/reconciler.go:65-77 | every machine with a dead record has such a Create |
| LifecycleIdentity.CreateKeepsAgreement | pkg/actuators/machine/vm.go:458-474 | a Create that meets its recorded VM alive, or none recorded, keeps the identity whatever fails |
| LifecycleIdentity.OtherStepsKeepAgreement | pkg/actuators/machine/reconciler.go:83-242 | Update, Delete, Exists and everybody else keep it from any world |
| LifecycleExact.CreateIdentityExact | pkg/actuators/machine/reconciler.go:65-77 | for one Create: the stored identity disagrees afterwards if and only if the VM on record was gone and only the first patch changed the machine |
| LifecycleExact.CreateCanSplitIdentity | pkg/actuators/machine/reconciler.go:65-77 | a Create on which that happens |
| LifecycleExact.DeleteExact | pkg/actuators/machine/reconciler.go:156-205 | a Delete without an error leaves no VM of the name if and only if nothing was recorded or only the recorded VM bears the name |
| LifecycleExact.DeleteCanLeaveAnOrphan | pkg/actuators/machine/reconciler.go:156-172 | a Delete with a stale record that succeeds beside a live VM of the name |
| LifecycleTrace.RunTrace | pkg/actuators/machine/reconciler.go:150-197 | in every run a VM delete is issued only for the recorded VM or the only one listed under the name, just read, and only with no linked Node, or one just found gone or free of volumes |
| LifecycleTrace.RunSends | pkg/actuators/machine/reconciler.go:47-65 | in every run each VM sent was sent by a step that is a Create, built on that step's own catalogue, failure domain and user data from the validated spec of the labelled machine as that step read it |
| LifecycleTrace.DeleteGuarded | pkg/actuators/machine/machine_scope.go:449-493 | one Delete, whatever happens around it, issues no unjustified delete |
| LifecycleTrace.DeleteTrace | pkg/actuators/machine/vm.go:828-848 | a delete either issues nothing or ends its evidence with one delete of the VM it looked up |
| LifecycleTrace.CreateVmTrace | pkg/actuators/machine/vm.go:454-510 | createVM logs lookups, then sends at most one VM, which it built from this operation's catalogue and the machine's validated spec |
| LifecycleTrace.StepSends | pkg/actuators/machine/actuator.go:72-206 | no other step sends a VM, and the trace only grows |
| LifecycleTrace.EverySentVmIsOwned | pkg/actuators/machine/vm.go:715-748 | every VM ever sent says what the spec of its machine says on the catalogue of the Create that sent it; its categories are one reference per user category in order and then the ownership category of the cluster label exactly when each was listed with an ExtId |
| LifecycleFrame.UnchangedUnlessDeleted | pkg/actuators/machine/vm.go:828-848 | in every run any VM at all that nobody else touches is unchanged unless a delete was issued for it |
| LifecycleFrame.OtherVmsUnchanged | pkg/actuators/machine/vm.go:828-848 | in every run a VM of another name, not the recorded one and not touched by others, is unchanged, and never becomes the recorded one |
| LifecycleFrame.StepSpares | pkg/actuators/machine/reconciler.go:41-205 | each step changes such a VM only by issuing a delete for it |
| LifecycleFrame.StepSame | pkg/actuators/machine/reconciler.go:41-205 | each step leaves a VM of another name alone |
| LifecycleFaultless.CreateIsIdempotent | pkg/actuators/machine/vm.go:458-474 | without faults a second Create succeeds, leaves the cloud unchanged and records the same UUID |
| LifecycleFaultless.PowerAfterCreate | pkg/actuators/machine/vm.go:458-509 | a faultless successful Create records the recorded VM if it lives, else the only one of the name, else a new one; that VM is on if and only if it is new or was on, and no other VM changed |
| LifecycleFaultless.SmoothCreateVmExact | pkg/actuators/machine/vm.go:454-510 | createVM without faults, as a function of the world it starts in: when it succeeds, which VM it answers with, and the cloud it leaves |
| LifecycleFaultless.CreateCanLeaveTheVmOff | pkg/actuators/machine/vm.go:469-471 | a Create that adopts a VM by name, succeeds and leaves it off |
| LifecycleFaultless.SmoothCreateNew | pkg/actuators/machine/vm.go:476-509 | a new VM is made exactly when one can be built and its id is free; it carries the machine's name and the built categories and is on, and nothing else changes |
| LifecycleFaultless.DeleteClearsProviderID | pkg/actuators/machine/reconciler.go:165-204 | a faultless successful Delete clears ProviderID exactly when it found a VM, and keeps VmUUID and the rest |
| LifecycleFaultless.ExistsAfterCreate | pkg/actuators/machine/reconciler.go:208-242 | Exists answers yes after a successful Create and its patch |
| LifecycleFaultless.ExistsAfterDelete | pkg/actuators/machine/reconciler.go:208-242 | Exists answers no after a successful Delete |
| LifecycleFaultless.ExistsIsReadOnly | pkg/actuators/machine/actuator.go:109-121 | Exists changes nothing, whichever of its calls fail |
| LifecycleAnswers.ExistsExact | pkg/actuators/machine/reconciler.go:208-242 | for any world and script: Exists says yes only of the recorded VM, or with none recorded the only one of the name, while it is there; no only when it is absent; and an error exactly when the scope, the label check or the lookup fails, so a failed read is never a no |
| LifecycleAnswers.ExistsFaultless | pkg/actuators/machine/reconciler.go:208-242 | without faults Exists says yes exactly when the recorded VM lives, or none is recorded and exactly one VM bears the name, and fails only on an ambiguous name |
| LifecycleAnswers.DeleteFaultless | pkg/actuators/machine/reconciler.go:150-205 | without faults a Delete succeeds exactly when there is nothing to find, or one VM to find and no linked Node, an absent one or one without volumes; then that VM alone is gone; otherwise no delete is issued and nothing changes in the cloud |
| LifecycleAnswers.UpdateFaultless | pkg/actuators/machine/reconciler.go:83-147 | without faults an Update succeeds exactly when the label is set, there is one VM to find and the Node that NodeRef names exists; what it stores and which Node it marks, also when it fails |
| LifecycleAnswers.CreateFaultless | pkg/actuators/machine/reconciler.go:41-80 | without faults a Create succeeds exactly when the checks pass, there is a VM to settle on or one can be made, and the Node that NodeRef names exists; the cloud, the stored machine and the Nodes it leaves, also when it fails |
| LifecycleAnswers.SuccessNeedsPatches | pkg/actuators/machine/actuator.go:72-206 | under any script a success means both patches, the Prism Central read and the Node read worked and the checks passed |
| LifecycleAnswers.SuccessMeansNoFailure | pkg/actuators/machine/vm.go:454-510 | when nobody else acts, a successful Create or Update took no failed call for success: none of the lookups it relied on, of the calls that made its VM, or of the Node step |
| LifecycleAnswers.LostReplyIsAdopted | pkg/actuators/machine/vm.go:469-491 | a first Create whose reply is lost reports an error and leaves its VM unrecorded and off; the next one adopts exactly that VM |
| LifecycleAnswers.OnlyTheNamedNodeIsMarked | pkg/actuators/machine/reconciler.go:282-310 | with no foreign Node writes, a Create or Update changes the provider ID of no Node but the one NodeRef names, a Delete or Exists of none |
| LifecycleAnswers.FindVmExact | pkg/actuators/machine/vm.go:809-825 | looking up by name fails with an error that is not "not found" exactly when List fails, several VMs bear the name, the listed one has no id, or reading it fails |
| LifecycleAnswers.DeleteVmExact | pkg/actuators/machine/vm.go:828-848 | for any world and script deleteVM reports success exactly when both its calls work or one says the VM is not there |
| LifecycleCalls.FindVmByNameCalls | pkg/actuators/machine/vm.go:809-825 | looking up by name answers with the only VM of that name and is classified as "not found" only when there is none |
| LifecycleCalls.GetVmCalls | pkg/actuators/machine/vm.go:798-806 | looking up by UUID answers with that VM, and is "not found" only when it is absent |
| LifecycleCalls.DeleteVmCalls | pkg/actuators/machine/vm.go:828-848 | deleteVM without an error means the VM is gone, and no other VM of the name went |
| LifecycleStages.CreateVmStage | pkg/actuators/machine/vm.go:454-510 | createVM makes no second VM of the name, answers with a live VM, and with the recorded one while that lives |
| LifecycleStages.LookupStage | pkg/actuators/machine/reconciler.go:160-172 | the lookup shared by update, delete and exists |
| LifecycleStages.PatchStage | pkg/actuators/machine/machine_scope.go:207-235 | the stored identity moves by three-way merge, VmUUID only after ProviderID landed, both when the patch succeeds |
| Actuator.Reconciler.CreateVM | pkg/actuators/machine/vm.go:454-510 | the method does what the lifecycle function says: recorded UUID first, then the name, then a new VM |
| Actuator.Reconciler.SetProviderID | pkg/actuators/machine/reconciler.go:267-313 | the machine in memory gets the ID, then the Node if there is one |
| Actuator.Reconciler.UpdateMachineWithVMState | pkg/actuators/machine/reconciler.go:315-375 | ProviderID is set and the Prism Central read must succeed |
| Actuator.Reconciler.CreateMachine | pkg/actuators/machine/reconciler.go:41-80 | create, with VmUUID recorded last |
| Actuator.Reconciler.UpdateMachine | pkg/actuators/machine/reconciler.go:83-147 | update, with VmUUID recorded before the state is updated |
| Actuator.Reconciler.DeleteMachine | pkg/actuators/machine/reconciler.go:150-205 | delete, with the volume check between lookup and deletion |
| Actuator.Reconciler.MachineExists | pkg/actuators/machine/reconciler.go:208-242 | exists |
| Actuator.Reconciler.PatchMachine | pkg/actuators/machine/machine_scope.go:207-235 | the two patches on the identity fields |
| Actuator.MachineActuator.Perform | pkg/actuators/machine/actuator.go:72-206 | Create, Update and Delete: reconcile, then patch whatever the outcome |
| Actuator.MachineActuator.Exists | pkg/actuators/machine/actuator.go:109-121 | Exists never patches |
| Actuator.MachineActuator.Operate | pkg/actuators/machine/actuator.go:72-206 | a whole run of the object is a run of the model, so every statement about runs is about it |
| Text.ClassificationIsRight | pkg/actuators/machine/utils.go:144-150 | for a legal host name, of the errors findVMByName words itself only the zero-match one is "not found", and a failed List keeps its cause's class |
| Text.AmbiguousIsNotFound | pkg/actuators/machine/vm.go:818-820 | the ambiguity error is misread if and only if the name says "not found" |
| Text.NilIdIsNotFound | pkg/actuators/machine/vm.go:821-823 | so is the nil-ExtId error |
| Text.ZeroMatchesIsNotFound | pkg/actuators/machine/vm.go:815-817 | the zero-match error is "not found" for every name |
| Text.ListErrorIsNotFound | pkg/actuators/machine/vm.go:812-814 | a failed List is misread if and only if the name or the cause says so |
| Text.HostNameIsNotNotFound | pkg/actuators/machine/utils.go:144-150 | no legal host name says "not found" |
| Text.AmbiguityCanBeMisread | pkg/actuators/machine/utils.go:144-150 | two VMs named "not found" are misread |
| Validation.ValidationExact | pkg/actuators/machine/vm.go:25-131 | the error list is empty if and only if the spec is well formed: references that denote one entity, 1 to 32 subnets, sizes, boot type, categories, GPUs and disks, over lists of any length |
| Validation.ErrorsBlame | pkg/actuators/machine/vm.go:25-131 | an error is in the list if and only if the spec deserves it: every field error, with its kind and place, says exactly what is wrong |
| Validation.IdErrorsBlame | pkg/actuators/machine/vm.go:281-439 | an identifier has at most one error: name or UUID missing, not found, wrong type, or no client |
| Validation.FirstMatchOfProfiles | pkg/actuators/machine/utils.go:106-141 | the device matched is the first configured profile that is the GPU asked for, with its name and its id narrowed to 32 bits |
| Validation.IdExact | pkg/actuators/machine/vm.go:281-439 | an identifier gives no error exactly when it refers to something, and is then resolved to that |
| Validation.SubnetsExact | pkg/actuators/machine/vm.go:355-392 | 1 to 32 subnets, each referring to one |
| Validation.GpusExact | pkg/actuators/machine/vm.go:231-279 | every GPU is named by one of its two keys and matches a configured profile of the cluster |
| Validation.DisksExact | pkg/actuators/machine/vm.go:133-229 | every data disk meets the size, adapter, storage and source rules |
| Validation.CategoriesExact | pkg/actuators/machine/vm.go:441-451 | every category key and value denotes exactly one category |
| Validation.ResolutionComplete | pkg/actuators/machine/vm.go:281-439 | with no error every identifier of the validated copy is UUID-typed and is what the original referred to, and every other field is the original's |
| Validation.FailureDomainNonInterference | pkg/actuators/machine/vm.go:35-41 | under a failure domain, specs that differ only in Cluster and Subnets give the same errors and the same validated spec |
| ValidationScope.Scope.ValidateVMConfig | pkg/actuators/machine/vm.go:25-131 | of the objects that existed before only the scope's pointer to the copy changes; the stored spec and the failure domain view as before; errors and copy are the value-level ones |
| ValidationScope.Scope.CopyAndOverride | pkg/actuators/machine/vm.go:31-41 | the copy is entirely fresh and views as the overridden spec |
| ValidationScope.SpecObject.DeepCopy | pkg/actuators/machine/vm.go:31-33 | a deep copy shares no object with the original and no source between two disks |
| ValidationScope.SpecObject.ValidateInPlace | pkg/actuators/machine/vm.go:43-131 | all validators in place, on unshared disks, leave the resolved spec and give the error list |
| ValidationScope.SpecObject.ValidateFields | pkg/actuators/machine/vm.go:45-120 | the validators in their order; the GPU check sees the resolved cluster |
| ValidationScope.ValidateDataDisks | pkg/actuators/machine/vm.go:133-229 | the loop that rewrites sources through their pointers changes nothing else |
| ValidationScope.ValidateDisk | pkg/actuators/machine/vm.go:139-226 | one disk |
| ValidationScope.ValidateSubnets | pkg/actuators/machine/vm.go:355-392 | the loop that rewrites the subnets in place |
| ValidationScope.ValidateIdentifier | pkg/actuators/machine/vm.go:281-439 | cluster, image, subnet, project and data source identifiers |
| ValidationScope.ValidateGpus | pkg/actuators/machine/vm.go:231-279 | the loop over the GPUs |
| ValidationScope.ValidateCategories | pkg/actuators/machine/vm.go:441-451 | the loop over the categories |
| ValidationScope.SelectFailureDomain | pkg/actuators/machine/machine_scope.go:143-160 | the first failure domain of that name, and none exactly when no name matches |
| Catalogue.FindClusterId | pkg/actuators/machine/vm.go:851-870 | the answer is u exactly when the last cluster of that name carries u and no earlier one carried an id |
| Catalogue.ScanMeaning | pkg/actuators/machine/vm.go:851-870 | the meaning of the scan that the loop performs |
| Catalogue.CollectDevices | pkg/actuators/machine/utils.go:106-128 | the loop that collects the configured GPU profiles |
| Catalogue.FirstMatch | pkg/actuators/machine/utils.go:131-141 | the first device that matches the GPU and no later one, and none exactly when no device does |
| Builder.ValidatorSound | pkg/actuators/machine/vm.go:513-748 | after a clean validation on the same catalogue the builder fails in exactly two ways: the image was listed without an ExtId, or the ownership category cannot be found |
| Builder.BuildErrorsExact | pkg/actuators/machine/vm.go:513-748 | on any spec, validated or not, the builder fails at the first missing thing of cluster, image, GPUs, user categories and ownership category, with its own error, and otherwise builds |
| Builder.ValidatorUnsoundForNamelessImage | pkg/actuators/machine/vm.go:873-886 | a spec that validates and cannot be built |
| Builder.NicLostForNamelessSubnet | pkg/actuators/machine/vm.go:534-545 | a spec that validates and whose only NIC is dropped |
| Builder.MeaningPreserved | pkg/actuators/machine/vm.go:513-683 | the VM built from the resolved copy says, item by item, what the original spec says; NICs, data-disk sources, project and categories exactly when none of theirs was listed without an id |
| Builder.NamelessExact | pkg/actuators/machine/vm.go:873-920 | an accepted identifier is resolved to no id exactly when it is a name listed without one |
| Builder.SourceLostForNamelessImage | pkg/actuators/machine/vm.go:213-219 | a spec that validates and whose data disk is built blank although it has a source |
| Builder.ProjectLostForNamelessListing | pkg/actuators/machine/vm.go:656-660 | a spec that validates and whose project is left out |
| Builder.CategoriesLostForNamelessListing | pkg/actuators/machine/vm.go:715-748 | a spec that validates and whose category and ownership category are left out |
| Builder.DataDisksPreserved | pkg/actuators/machine/vm.go:547-608 | one system disk and every data disk, none lost or invented, each at its place; all sources kept exactly when none was listed without an ExtId |
| Builder.DataDiskPreserved | pkg/actuators/machine/vm.go:555-605 | data disk i is at the place its kind and order give it, with its size, container, flash mode, bus and index, and with its source exactly when that has an id |
| Builder.DiskMeaning | pkg/actuators/machine/vm.go:750-776 | a validated disk keeps its backing, its source exactly when that has an id, and never reaches a default arm of the bus maps |
| Builder.DiskCounts | pkg/actuators/machine/vm.go:547-608 | every data disk becomes a disk or a CD-ROM |
| Builder.NicsMeaning | pkg/actuators/machine/vm.go:534-545 | no NIC is lost and NIC i is on subnet i exactly when every subnet has an id |
| Builder.SizesAndPlacesPreserved | pkg/actuators/machine/vm.go:513-683 | memory, CPU, cluster, image and boot are the spec's, memory at least 2 GiB; the system disk has its size, at least 20 GiB, its image and nothing else; the project too, exactly when it was not listed with no or an empty UUID |
| Builder.SizesSetWhenPositive | pkg/actuators/machine/vm.go:778-782 | on any spec a disk's size is set, to exactly the bytes asked for, if and only if that is positive |
| Builder.GpusPreserved | pkg/actuators/machine/vm.go:686-712 | GPU i of the VM is described by the first configured profile of the VM's cluster that is GPU i of the spec |
| Builder.OwnershipIsLast | pkg/actuators/machine/vm.go:715-748 | the category list is one reference per user category in order and then the ownership category's if and only if each of these was listed with an ExtId |
| Builder.OwnershipText | pkg/actuators/machine/utils.go:92-97 | the ownership category is kubernetes-io-cluster- and the cluster label's value, valued owned |
| Builder.LabelText | pkg/actuators/machine/utils.go:379-394 | which labels pass the check, and which one names the cluster |
| Builder.DomainMeaning | pkg/actuators/machine/vm.go:35-41 | under a failure domain the VM is on what the domain's cluster identifier refers to, with one NIC per domain subnet in order exactly when none was listed without an ExtId; everything else is the spec's own |
| ProviderSpec.Overridden | pkg/actuators/machine/vm.go:35-41 | cluster and subnets are the domain's, converted one by one in order, and every other field the spec's; without a domain the spec is unchanged |
| ProviderSpec.FromFailureDomain | pkg/actuators/machine/utils.go:407-419 | UUID and name kinds are kept, any other becomes unset |
| Builder.FailureDomainFixesVm | pkg/actuators/machine/vm.go:524-545 | under a failure domain the built VM does not depend on the spec's own Cluster and Subnets |
| Builder.BuildVm | pkg/actuators/machine/vm.go:513-683 | the method builds what the function says |
| Builder.BuildNics | pkg/actuators/machine/vm.go:534-545 | the loop over the subnets |
| Builder.BuildDisks | pkg/actuators/machine/vm.go:547-608 | the loop over the data disks, appending to two lists |
| Builder.BuildGpuList | pkg/actuators/machine/vm.go:686-712 | the loop over the GPUs stops at the first without a match |
| Builder.BuildUserCategories | pkg/actuators/machine/vm.go:715-729 | the loop over the user's categories |
| Builder.BuildCategoryRefs | pkg/actuators/machine/vm.go:715-748 | user categories, then ownership |
| Conditions.MergeMeaning | pkg/actuators/machine/utils.go:264-305 | for the promised merge, over any history: one entry per type, unmentioned types kept, each entry as last set, its transition time that of the most recent step that changed its status |
| Conditions.SetOneMeaning | pkg/actuators/machine/utils.go:270-305 | one setting touches its own type only |
| Conditions.EntryAfterSetting | pkg/actuators/machine/utils.go:294-305 | a setting moves the transition time exactly when the status changes |
| Conditions.EntryAfterOther | pkg/actuators/machine/utils.go:285-292 | setting another type changes nothing about this one |
| Conditions.SetNutanixProviderConditions | pkg/actuators/machine/utils.go:270-283 | the loop merges in place and returns its argument |
| Conditions.Find | pkg/actuators/machine/utils.go:285-292 | the first condition of the type |
| Conditions.ReturnedIsTheMerge | pkg/actuators/machine/utils.go:282 | for each type, what is returned is what the merge promises if and only if the type is in neither list or is set with the time the merge gives it |
| Conditions.LostOverRuns | pkg/actuators/machine/actuator.go:87-101 | over any run exactly the types that were there or were set, and that the last operation does not set, are lost against the promised merge, and no transition time is stored |
| Conditions.StoredReports | pkg/actuators/machine/actuator.go:85-205 | after any run the two stored conditions say how the last operation went, with its reason and message, and whether the instance is ready, not ready or unknown |
| Conditions.PromisedHas | pkg/actuators/machine/utils.go:264-269 | the promised list has every type that was there or was set |
| Conditions.UpdateForgetsCreation | pkg/actuators/machine/actuator.go:152-154 | an update drops the creation record that the merge would keep |
| Addresses.OrderDoesNotMatter | pkg/actuators/machine/machine_scope.go:327-447 | permuting the embedded NICs, the listed NICs and the learned IPs within each NIC gives the identical address list |
| Addresses.AddressesExact | pkg/actuators/machine/machine_scope.go:327-360 | internal IPs first, sorted, none empty or link-local, exactly those some NIC of the list that counts contributes; then the VM's name twice if it has one |
| Addresses.NicIpsExact | pkg/actuators/machine/machine_scope.go:384-432 | which information counts, by the NIC's kind; a NIC with a usable static IP contributes only that, any other its usable learned IPs |
| Addresses.NoIps | pkg/actuators/machine/machine_scope.go:331-341 | the fallback listing is used exactly when no embedded NIC contributes |
| Addresses.SortSorts | pkg/actuators/machine/machine_scope.go:343 | the sort gives a sorted permutation |
| Addresses.SortedOnce | pkg/actuators/machine/machine_scope.go:343 | which is unique, so any correct sort gives it |
| Addresses.BuildNodeAddresses | pkg/actuators/machine/machine_scope.go:327-360 | the method with its fallback and its loop |
| Addresses.GetIPsFromNics | pkg/actuators/machine/machine_scope.go:371-377 | the loop over the NICs |
| Addresses.GetIPsFromNic | pkg/actuators/machine/machine_scope.go:384-417 | one NIC, by the kind of its network information |
| Addresses.GetIPsFromIpv4Info | pkg/actuators/machine/machine_scope.go:420-432 | the loop over the learned IPs |
| IpText.DottedLinkLocal | pkg/actuators/machine/machine_scope.go:435-447 | among dotted texts exactly 169.254.0.0/16 is link-local |
| IpText.LinkLocalIsDotted | pkg/actuators/machine/machine_scope.go:435-447 | and no other text with a dot first is |
| IpText.ColonLinkLocal | pkg/actuators/machine/machine_scope.go:434-447 | text with a colon first is link-local exactly when it parses to such an address of 4 bytes or mapped into 16 |
| IpText.OtherTextIsNotLinkLocal | pkg/actuators/machine/machine_scope.go:434-440 | text with a zone first, or with no separator, is not |
| IpText.ParseV4Exact | pkg/actuators/machine/machine_scope.go:436-439 | dotted parsing accepts the canonical text of four bytes and nothing else |
| Decimal.FormatParseNat | pkg/actuators/machine/machine_scope.go:436-439 | digits without a leading zero are the only such text of their value |
| MergePatch.RoundTrip | pkg/actuators/machine/machine_scope.go:90 | patching the document the change was computed from gives the changed one if and only if the change sets no null |
| MergePatch.PatchedAt | pkg/actuators/machine/machine_scope.go:219-228 | patching any stored document is a three-way merge, path by path |
| MergePatch.MergedAt | pkg/actuators/machine/machine_scope.go:219-228 | the same for any member, by induction on the path |
| MergePatch.DiffEmpty | pkg/actuators/machine/machine_scope.go:90 | the patch is empty exactly when nothing changed |
| MachinePatch.MachineScope.PatchMachine | pkg/actuators/machine/machine_scope.go:207-235 | the method: the status set aside, the first patch, its reply over the machine, the status back, the second patch |
| MachinePatch.ApiServer.Patch | pkg/actuators/machine/machine_scope.go:219 | a patch of the resource leaves the status alone |
| MachinePatch.ApiServer.PatchStatus | pkg/actuators/machine/machine_scope.go:228 | a patch of the status leaves the rest alone |
| MachinePatch.SuccessSavesBoth | pkg/actuators/machine/machine_scope.go:207-235 | on success all changes to metadata, spec and status are stored, the status being the computed one, and every untouched field keeps other writers' values |
| MachinePatch.ProviderStatusSaved | pkg/actuators/machine/machine_scope.go:210-232 | on success the stored provider status is the computed one merged with what others wrote, and with no foreign write exactly the computed one; every other status member is that of the machine in memory |
| MachinePatch.PatchSucceedsExactly | pkg/actuators/machine/machine_scope.go:218-234 | patchMachine succeeds exactly when both patches work and no write in between is refused |
| MachinePatch.WithProviderStatus | pkg/actuators/machine/machine_scope.go:210-216 | the computed provider status is put into the machine and nothing else changes |
| MachinePatch.AloneSavesAll | pkg/actuators/machine/machine_scope.go:207-235 | with no other writer, what is stored is the machine in memory if and only if no change sets a null |
| MachinePatch.FailureMovesMainOnly | pkg/actuators/machine/machine_scope.go:219-232 | a failure moves at most metadata and spec, unless the status patch was applied and its reply lost |
| MachinePatch.StatusPatchGuarded | pkg/actuators/machine/machine_scope.go:225-228 | a write between the patches makes the second fail, except exactly when the first changed nothing on an object unmoved since the read |
| MachinePatch.FieldIsMerged | pkg/actuators/machine/machine_scope.go:207-235 | for a single-valued field the merge patch is the one that the lifecycle's runs use |
| MachineSet.Controller.Reconcile | pkg/actuators/machineset/controller.go:55-94 | the patch is sent whatever reconcile returned; its failure is returned, an invalid configuration is not |
| MachineSet.MachineSetObject.Reconcile | pkg/actuators/machineset/controller.go:106-121 | both annotations are set over the existing ones, or nothing changes |
| MachineSet.ErrorsOnlyFromTheServer | pkg/actuators/machineset/controller.go:60-93 | an error comes back exactly when reading or patching failed; a missing, unreadable or deleted set, an undecodable spec and a refused patch change nothing |
| MachineSet.AnnotationsSaved | pkg/actuators/machineset/controller.go:75-86 | whatever others wrote since the read, the capacity keys get their values if new and every other key keeps its own |
| MachineSet.CapacityAgreesWithVm | pkg/actuators/machineset/controller.go:116-118 | the annotations, read back, are the built VM's cores times sockets exactly when that fits an int32, and its whole mebibytes, at least 2048 |
| MachineSet.CpuTextExact | pkg/actuators/machineset/controller.go:117 | the CPU annotation reads back as the product if and only if it fits an int32 |
| MachineSet.CpuTextCanWrap | pkg/actuators/machineset/controller.go:117 | 65536 cores on 65536 sockets are announced as none |
| MachineSet.NilSpecAnnouncesNothing | pkg/actuators/machineset/controller.go:106-121 | without a provider spec both annotations say none |
| MachineSet.MemoryTextExact | pkg/actuators/machine/utils.go:397-399 | the memory annotation reads back as the truncated number of mebibytes |
| Decimal.ParseFormatInt | pkg/actuators/machineset/controller.go:117-118 | base-ten text of any integer reads back as that integer |

## Left out

- Lifecycle runs carry the two identity fields, labels, spec and NodeRef of the stored Machine; addresses and conditions are in modules of their own and not part of the runs.
- Actuator.Reconciler.UpdateMachineWithVMState: does not model the region, zone and instance-type labels and the state annotations it writes, because no branch of the lifecycle reads them.
- Actuator.Reconciler.CreateMachine: does not model addresses, conditions and those labels; `Addresses` and `Conditions` have what is computed for them.
- Actuator.Reconciler.UpdateMachine: the same as CreateMachine.
- Actuator.Reconciler.DeleteMachine: does not model that the addresses are cleared.
- Actuator.Reconciler.PatchMachine: patches the two identity fields only; `MachinePatch.MachineScope.PatchMachine` has the whole object and the refusal of a stale version.
- Actuator.MachineActuator.Perform: does not model the conditions set between reconciling and patching; `Conditions.LostOverRuns` has their run.
- LifecycleStages.PatchStage: lets the second patch succeed after a foreign write in between, which the API server may refuse; runs therefore cover more than can happen. `StatusPatchGuarded` has the refusal.
- A create that takes effect only after its call returned: excluded by the assumption that List agrees with Get; with it a second VM of the name is possible.
- A catalogue that changes between validation and building within one create: both passes see one catalogue.
- Two disks of a stored spec sharing one source object: decoding never produces it; the deep copy is proved unshared whatever the original.
- updateMachineWithVMState beyond the provider ID and the Prism Central read: the region, zone and instance-type labels and annotations it writes, and the search of getPrismCentralCluster (pkg/actuators/machine/vm.go:964-996).
- Escaping in the quoted name of the zero-match and nil-ExtId errors: the quotes are modelled, names with characters that need escaping are not.
- IPv6 text: the parser for text with a colon first is a parameter; what is proved holds for any parser.
- JSON encoding and decoding, base64, data URLs, Ignition and the content of user data: user data is an opaque string, a provider spec is decoded, absent or malformed.
- Quantity parsing and rounding: sizes are byte counts. The text of field errors: they are tagged by kind and field.
- The Prism SDK's wrappers (discriminators, backing and boot setters): plain datatypes.
- pkg/client, credentials and secrets, cmd/manager, pkg/version, configuration and manifests, logging, metrics, events, contexts: a timeout is a failed call.
- isMaster and vmPowerStateName: single branches.
- Kubernetes' generation and managed-field metadata; of the server's own fields only the resource version is modelled.
