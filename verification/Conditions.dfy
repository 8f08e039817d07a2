/**
 Provider conditions (pkg/actuators/machine/utils.go:264-375). The comment above
 setNutanixProviderConditions promises a merge into the current conditions; the function computes
 that merge but returns its first argument. Both are modelled: the merge with its meaning over any
 history, and what the returned list keeps of it.
 */
module Conditions {
  import opened Basics

  datatype Status = IsTrue | IsFalse | IsUnknown

  datatype Condition = Condition(kind: string, status: Status, reason: string, message: string, at: int)

  /** The index findProviderCondition points to: the first condition of that type. */
  function Find(cs: seq<Condition>, kind: string): (r: Option<nat>)
    ensures r.Some? ==> r.value < |cs| && cs[r.value].kind == kind && forall j :: 0 <= j < r.value ==> cs[j].kind != kind
    ensures r.None? ==> forall j :: 0 <= j < |cs| ==> cs[j].kind != kind
  {
    if cs == [] then None
    else if cs[0].kind == kind then Some(0)
    else
      match Find(cs[1..], kind)
      case None => None
      case Some(i) => Some(i + 1)
  }

  /** updateExistingCondition. */
  function Updated(c: Condition, old': Condition, now: int): Condition {
    if c.status == old'.status && c.reason == old'.reason && c.message == old'.message then old'
    else Condition(old'.kind, c.status, c.reason, c.message, if c.status != old'.status then now else old'.at)
  }

  /** A condition set at a time. */
  datatype Setting = Setting(cond: Condition, now: int)

  /** One iteration of the merge. */
  function SetOne(cs: seq<Condition>, s: Setting): seq<Condition> {
    match Find(cs, s.cond.kind)
    case None => cs + [s.cond.(at := s.now)]
    case Some(i) => cs[i := Updated(s.cond, cs[i], s.now)]
  }

  /** The merge of a whole history. */
  function Merge(cs: seq<Condition>, h: seq<Setting>): seq<Condition> {
    if h == [] then cs else SetOne(Merge(cs, h[..|h| - 1]), h[|h| - 1])
  }

  /** What setNutanixProviderConditions hands back, whatever it merged. */
  function Returned(conditions: seq<Condition>, current: seq<Condition>): seq<Condition> {
    conditions
  }

  /**
   setNutanixProviderConditions: current is merged in place, but what is returned is the argument.
   clock is the time read at each iteration.
   */
  method SetNutanixProviderConditions(conditions: seq<Condition>, current: seq<Condition>, clock: seq<int>)
    returns (returned: seq<Condition>, merged: seq<Condition>)
    requires |clock| == |conditions|
    ensures returned == Returned(conditions, current)
    ensures merged == Merge(current, seq(|conditions|, i requires 0 <= i < |conditions| => Setting(conditions[i], clock[i])))
  {
    ghost var h := seq(|conditions|, i requires 0 <= i < |conditions| => Setting(conditions[i], clock[i]));
    merged := current;
    for i := 0 to |conditions|
      invariant merged == Merge(current, h[..i])
    {
      assert h[..i + 1][..i] == h[..i];
      var existing := Find(merged, conditions[i].kind);
      if existing.None? {
        merged := merged + [conditions[i].(at := clock[i])];
      } else {
        merged := merged[existing.value := Updated(conditions[i], merged[existing.value], clock[i])];
      }
    }
    assert h[..|conditions|] == h;
    returned := conditions;
  }

  // ---------------------------------------------------------------- What the merge means

  ghost predicate OnePerKind(cs: seq<Condition>) {
    forall i, j :: 0 <= i < j < |cs| ==> cs[i].kind != cs[j].kind
  }

  /** The condition of a type, if there is one. */
  function Entry(cs: seq<Condition>, kind: string): Option<Condition> {
    match Find(cs, kind)
    case None => None
    case Some(i) => Some(cs[i])
  }

  /** Step i of the history is the last that sets kind. */
  predicate LastSets(h: seq<Setting>, kind: string, i: int) {
    0 <= i < |h| && h[i].cond.kind == kind && forall j :: i < j < |h| ==> h[j].cond.kind != kind
  }

  predicate NeverSets(h: seq<Setting>, kind: string) {
    forall j :: 0 <= j < |h| ==> h[j].cond.kind != kind
  }

  /** The status of kind just before step i: that of the latest earlier step that sets it, or the initial one. */
  ghost predicate StatusBefore(start: Option<Condition>, h: seq<Setting>, kind: string, i: nat, status: Option<Status>)
    requires i <= |h|
  {
    if NeverSets(h[..i], kind) then status == (if start.Some? then Some(start.value.status) else None)
    else exists j :: LastSets(h[..i], kind, j) && status == Some(h[j].cond.status)
  }

  /** Step i changes the status of kind, or sets it for the first time. */
  ghost predicate Changes(start: Option<Condition>, h: seq<Setting>, kind: string, i: int) {
    0 <= i < |h| && h[i].cond.kind == kind && !StatusBefore(start, h, kind, i, Some(h[i].cond.status))
  }

  /** t is the time of the most recent step that changed the status, or the initial one if none did. */
  ghost predicate TransitionTime(start: Option<Condition>, h: seq<Setting>, kind: string, t: int) {
    if forall i :: 0 <= i < |h| ==> !Changes(start, h, kind, i) then start.Some? && t == start.value.at
    else exists i :: LastChanges(start, h, kind, i) && t == h[i].now
  }

  ghost predicate LastChanges(start: Option<Condition>, h: seq<Setting>, kind: string, i: int) {
    Changes(start, h, kind, i) && forall j :: i < j < |h| ==> !Changes(start, h, kind, j)
  }

  /** What the entry of a type must be after a history that started with start. */
  ghost predicate EntryAfter(start: Option<Condition>, h: seq<Setting>, kind: string, e: Option<Condition>) {
    if NeverSets(h, kind) then e == start
    else
      && e.Some? && e.value.kind == kind
      && (exists i :: LastSets(h, kind, i) && e.value == h[i].cond.(at := e.value.at))
      && TransitionTime(start, h, kind, e.value.at)
  }

  lemma SetOneMeaning(cs: seq<Condition>, s: Setting, kind: string)
    requires OnePerKind(cs)
    ensures OnePerKind(SetOne(cs, s))
    ensures kind != s.cond.kind ==> Entry(SetOne(cs, s), kind) == Entry(cs, kind)
    ensures Entry(SetOne(cs, s), s.cond.kind)
         == Some(if Entry(cs, s.cond.kind).None? then s.cond.(at := s.now)
                 else Updated(s.cond, Entry(cs, s.cond.kind).value, s.now))
  {
    var after := SetOne(cs, s);
    FindUnique(after, s.cond.kind);
    FindUnique(cs, kind);
    FindUnique(after, kind);
    if Find(cs, s.cond.kind).None? {
      assert after[|cs|].kind == s.cond.kind;
    }
  }

  /** With one entry per type, the first index of a type is the only one. */
  lemma FindUnique(cs: seq<Condition>, kind: string)
    ensures OnePerKind(cs) ==> forall i :: 0 <= i < |cs| && cs[i].kind == kind ==> Find(cs, kind) == Some(i)
  {
  }

  /** Looking at a history one step shorter changes no earlier fact. */
  lemma ChangesPrefix(start: Option<Condition>, h: seq<Setting>, kind: string, i: nat)
    requires h != [] && i < |h| - 1
    ensures Changes(start, h[..|h| - 1], kind, i) <==> Changes(start, h, kind, i)
  {
    assert h[..|h| - 1][..i] == h[..i];
  }

  lemma LastSetsOnce(h: seq<Setting>, kind: string, i: int, j: int)
    requires LastSets(h, kind, i) && LastSets(h, kind, j)
    ensures i == j
  {
  }

  /** After a history the status last set is the entry's. */
  lemma EntryStatus(start: Option<Condition>, h: seq<Setting>, kind: string, e: Option<Condition>, status: Status)
    requires EntryAfter(start, h, kind, e)
    ensures StatusBefore(start, h, kind, |h|, Some(status)) <==> e.Some? && e.value.status == status
  {
    hide TransitionTime;
    assert h[..|h|] == h;
    if !NeverSets(h, kind) {
      var i :| LastSets(h, kind, i) && e.value == h[i].cond.(at := e.value.at);
      if StatusBefore(start, h, kind, |h|, Some(status)) {
        var j :| LastSets(h[..|h|], kind, j) && Some(status) == Some(h[j].cond.status);
        LastSetsOnce(h, kind, i, j);
      }
    }
  }

  /** The step that sets kind: the entry becomes what EntryAfter asks of the longer history. */
  lemma EntryAfterSetting(start: Option<Condition>, h: seq<Setting>, e: Option<Condition>)
    requires h != []
    requires var last := h[|h| - 1]; EntryAfter(start, h[..|h| - 1], last.cond.kind, e)
    requires e.Some? ==> e.value.kind == h[|h| - 1].cond.kind
    ensures var last := h[|h| - 1];
      EntryAfter(start, h, last.cond.kind,
                 Some(if e.None? then last.cond.(at := last.now) else Updated(last.cond, e.value, last.now)))
  {
    var n := |h| - 1;
    var last, front := h[n], h[..n];
    var kind := last.cond.kind;
    var e' := if e.None? then last.cond.(at := last.now) else Updated(last.cond, e.value, last.now);
    assert LastSets(h, kind, n);
    EntryStatus(start, front, kind, e, last.cond.status);
    assert StatusBefore(start, front, kind, n, Some(last.cond.status)) == StatusBefore(start, h, kind, n, Some(last.cond.status)) by {
      assert front[..n] == front == h[..n];
    }
    forall i | 0 <= i < n ensures Changes(start, front, kind, i) <==> Changes(start, h, kind, i) {
      ChangesPrefix(start, h, kind, i);
    }
    if Changes(start, h, kind, n) {
      assert LastChanges(start, h, kind, n);
      assert e'.at == last.now;
    } else {
      assert e.Some? && e.value.status == last.cond.status;
      assert e'.at == e.value.at;
      TransitionFrom(start, h, kind, e.value.at);
    }
  }

  lemma TransitionFrom(start: Option<Condition>, h: seq<Setting>, kind: string, t: int)
    requires h != [] && !Changes(start, h, kind, |h| - 1)
    requires forall i :: 0 <= i < |h| - 1 ==> (Changes(start, h[..|h| - 1], kind, i) <==> Changes(start, h, kind, i))
    requires TransitionTime(start, h[..|h| - 1], kind, t) || (NeverSets(h[..|h| - 1], kind) && start.Some? && t == start.value.at)
    ensures TransitionTime(start, h, kind, t)
  {
    hide StatusBefore;
    var n := |h| - 1;
    var front := h[..n];
    if i :| 0 <= i < n && Changes(start, front, kind, i) {
      assert !NeverSets(front, kind) by { assert front[i].cond.kind == kind; }
      var k :| LastChanges(start, front, kind, k) && t == front[k].now;
      assert Changes(start, h, kind, k) && h[k] == front[k];
      forall j | k < j < |h| ensures !Changes(start, h, kind, j) {
        if j < n { assert !Changes(start, front, kind, j); }
      }
      assert LastChanges(start, h, kind, k);
    } else {
      assert forall i :: 0 <= i < |h| ==> !Changes(start, h, kind, i);
    }
  }

  lemma NeverSetsPrefix(h: seq<Setting>, kind: string)
    requires h != [] && h[|h| - 1].cond.kind != kind
    ensures NeverSets(h[..|h| - 1], kind) <==> NeverSets(h, kind)
    ensures forall i :: LastSets(h[..|h| - 1], kind, i) ==> LastSets(h, kind, i)
  {
    assert forall j :: 0 <= j < |h| - 1 ==> h[..|h| - 1][j] == h[j];
  }

  /** Setting another type leaves what is asked of this one unchanged. */
  lemma EntryAfterOther(start: Option<Condition>, h: seq<Setting>, kind: string, e: Option<Condition>)
    requires h != [] && h[|h| - 1].cond.kind != kind
    requires EntryAfter(start, h[..|h| - 1], kind, e)
    ensures EntryAfter(start, h, kind, e)
  {
    hide StatusBefore, TransitionTime, NeverSets;
    var front := h[..|h| - 1];
    NeverSetsPrefix(h, kind);
    if !NeverSets(h, kind) {
      var i :| LastSets(front, kind, i) && e.value == front[i].cond.(at := e.value.at);
      assert 0 <= i < |front| && front[i] == h[i];
      forall i | 0 <= i < |front| ensures Changes(start, front, kind, i) <==> Changes(start, h, kind, i) {
        ChangesPrefix(start, h, kind, i);
      }
      TransitionFrom(start, h, kind, e.value.at);
    }
  }

  /**
   Over any history, from any list with one entry per type: there stays one entry per type; a type
   that is never set keeps its entry; one that is set is as last set, and its transition time is that
   of the most recent step at which its status changed.
   */
  lemma {:induction false} MergeMeaning(cs: seq<Condition>, h: seq<Setting>, kind: string)
    requires OnePerKind(cs)
    ensures OnePerKind(Merge(cs, h))
    ensures EntryAfter(Entry(cs, kind), h, kind, Entry(Merge(cs, h), kind))
  {
    if h != [] {
      var n := |h| - 1;
      MergeMeaning(cs, h[..n], kind);
      var before := Merge(cs, h[..n]);
      SetOneMeaning(before, h[n], kind);
      if h[n].cond.kind == kind {
        EntryAfterSetting(Entry(cs, kind), h, Entry(before, kind));
      } else {
        EntryAfterOther(Entry(cs, kind), h, kind, Entry(before, kind));
      }
    }
  }

  // ---------------------------------------------------------------- What the code keeps of it

  const CREATION := "MachineCreation"
  const UPDATE := "MachineUpdate"
  const DELETION := "MachineDeletion"
  const READY := "MachineInstanceReady"

  function Success(kind: string): Condition {
    Condition(kind, IsTrue,
      if kind == CREATION then "MachineCreationSucceeded"
      else if kind == UPDATE then "MachineUpdateSucceeded"
      else if kind == DELETION then "MachineDeletionSucceeded"
      else kind + " succeeded",
      kind + " succeeded", 0)
  }

  function Failure(kind: string, message: string): Condition {
    Condition(kind, IsFalse,
      if kind == CREATION then "MachineCreationFailed"
      else if kind == UPDATE then "MachineUpdateFailed"
      else if kind == DELETION then "MachineDeletionFailed"
      else kind + " failed",
      message, 0)
  }

  function Ready(status: Status): Condition {
    var text := match status
      case IsTrue => "Machine instance is ready"
      case IsFalse => "Machine instance is not ready"
      case IsUnknown => "Unknown machine instance ready or not";
    Condition(READY, status, text, text, 0)
  }

  /** The two conditions an operation of the actuator sets last: its own, and the instance's readiness. */
  function OperationConditions(kind: string, ok: bool, message: string): seq<Condition> {
    if ok then [Success(kind), Ready(if kind == DELETION then IsFalse else IsTrue)]
    else [Failure(kind, message), Ready(if kind == CREATION then IsFalse else IsUnknown)]
  }

  predicate Mentions(conditions: seq<Condition>, kind: string) {
    exists i :: 0 <= i < |conditions| && conditions[i].kind == kind
  }

  /**
   For each type, the returned list has the entry the promised merge gives exactly when the type is
   absent from both lists, or is mentioned again with the transition time the merge would give it.
   In particular every current type that is not mentioned is lost.
   */
  lemma ReturnedIsTheMerge(conditions: seq<Condition>, current: seq<Condition>, now: int, kind: string)
    requires OnePerKind(conditions) && OnePerKind(current)
    ensures Entry(conditions, kind) == Entry(Merge(current, At(conditions, now)), kind) <==>
      match Entry(conditions, kind)
      case None => Entry(current, kind).None?
      case Some(c) => c.at == MergedTime(Entry(current, kind), c, now)
    ensures Entry(conditions, kind).Some? <==> Mentions(conditions, kind)
  {
    hide Merge, OnePerKind;
    MergeOfDistinct(conditions, current, now, kind);
  }

  /** The conditions set one after the other at one time. */
  function At(conditions: seq<Condition>, now: int): seq<Setting> {
    seq(|conditions|, i requires 0 <= i < |conditions| => Setting(conditions[i], now))
  }

  /** The transition time the merge gives a condition that meets this current entry. */
  function MergedTime(current: Option<Condition>, c: Condition, now: int): int {
    if current.Some? && current.value.status == c.status then current.value.at else now
  }

  function MergedOnce(current: Option<Condition>, c: Condition, now: int): Condition {
    if current.None? then c.(at := now) else Updated(c, current.value, now)
  }

  lemma {:induction false} MergeOfDistinct(conditions: seq<Condition>, current: seq<Condition>, now: int, kind: string)
    requires OnePerKind(conditions) && OnePerKind(current)
    ensures OnePerKind(Merge(current, At(conditions, now)))
    ensures Entry(Merge(current, At(conditions, now)), kind) ==
      if Entry(conditions, kind).None? then Entry(current, kind)
      else Some(MergedOnce(Entry(current, kind), Entry(conditions, kind).value, now))
  {
    if conditions == [] {
      assert At(conditions, now) == [];
    } else {
      hide SetOne, Updated, Entry;
      var n := |conditions| - 1;
      var front, last := conditions[..n], conditions[n];
      assert OnePerKind(front);
      MergeOfDistinct(front, current, now, kind);
      MergeAtLast(conditions, current, now);
      hide Merge, OnePerKind, At;
      SetOneMeaning(Merge(current, At(front, now)), Setting(last, now), kind);
      EntryOfLast(conditions, kind);
    }
  }

  lemma MergeAtLast(conditions: seq<Condition>, current: seq<Condition>, now: int)
    requires conditions != []
    ensures var n := |conditions| - 1;
      Merge(current, At(conditions, now)) == SetOne(Merge(current, At(conditions[..n], now)), Setting(conditions[n], now))
  {
    hide SetOne;
    var n := |conditions| - 1;
    assert At(conditions, now)[..n] == At(conditions[..n], now);
  }

  /** With one entry per type, the last one is its type's entry, and the others do not see it. */
  lemma EntryOfLast(conditions: seq<Condition>, kind: string)
    requires OnePerKind(conditions) && conditions != []
    ensures var n := |conditions| - 1;
      if conditions[n].kind == kind
      then Entry(conditions[..n], kind).None? && Entry(conditions, kind) == Some(conditions[n])
      else Entry(conditions, kind) == Entry(conditions[..n], kind)
  {
    FindUnique(conditions, kind);
    var front := conditions[..|conditions| - 1];
    FindUnique(front, kind);
    if Find(front, kind).Some? {
      assert conditions[Find(front, kind).value].kind == kind;
    }
  }

  datatype Operation = Operation(kind: string, ok: bool, message: string)

  /** What is stored after a run of operations, each of which overwrites the list with what the call returned. */
  function StoredAfter(current: seq<Condition>, ops: seq<Operation>): seq<Condition> {
    if ops == [] then current
    else
      var op := ops[|ops| - 1];
      Returned(OperationConditions(op.kind, op.ok, op.message), StoredAfter(current, ops[..|ops| - 1]))
  }

  /** The three operations that set conditions. */
  predicate IsOperation(kind: string) {
    kind == "MachineCreation" || kind == "MachineUpdate" || kind == "MachineDeletion"
  }

  /** The condition of operation kind: true when it succeeded, false with the error's text when it failed. */
  predicate Reports(c: Condition, kind: string, ok: bool, message: string) {
    && c.kind == kind
    && c.status == (if ok then IsTrue else IsFalse)
    && c.reason == kind + (if ok then "Succeeded" else "Failed")
    && c.message == (if ok then kind + " succeeded" else message)
  }

  /**
   The instance is ready after a creation or an update that succeeded, not ready after a deletion that
   succeeded or a creation that failed, and unknown after an update or a deletion that failed.
   */
  predicate ReportsReady(c: Condition, kind: string, ok: bool) {
    && c.kind == "MachineInstanceReady"
    && (c.status == IsTrue <==> ok && kind != "MachineDeletion")
    && (c.status == IsUnknown <==> !ok && kind != "MachineCreation")
    && c.reason == c.message
    && c.message == (if c.status == IsTrue then "Machine instance is ready"
                     else if c.status == IsFalse then "Machine instance is not ready"
                     else "Unknown machine instance ready or not")
  }

  /** After any run the two stored conditions say how the last operation went and whether the instance is ready. */
  lemma StoredReports(current: seq<Condition>, ops: seq<Operation>)
    requires ops != [] && IsOperation(ops[|ops| - 1].kind)
    ensures var op, stored := ops[|ops| - 1], StoredAfter(current, ops);
      && |stored| == 2
      && Entry(stored, op.kind) == Some(stored[0]) && Reports(stored[0], op.kind, op.ok, op.message)
      && Entry(stored, "MachineInstanceReady") == Some(stored[1]) && ReportsReady(stored[1], op.kind, op.ok)
  {
    var op := ops[|ops| - 1];
    var stored := StoredAfter(current, ops);
    assert stored == Set(op);
    SetReports(op);
    KindsDiffer();
    hide Entry, Find, Set, Reports, ReportsReady;
    FirstIsFound(stored, op.kind);
    SecondIsFound(stored, READY);
  }

  lemma SetReports(op: Operation)
    requires IsOperation(op.kind)
    ensures var cs := Set(op);
      && |cs| == 2 && cs[0].kind == op.kind && cs[1].kind == READY
      && Reports(cs[0], op.kind, op.ok, op.message) && ReportsReady(cs[1], op.kind, op.ok)
  {
    hide Reports, Success, Failure, ReportsReady, Ready;
    ReportTexts(op.kind, op.message);
    ReadyTexts(op.kind, op.ok);
  }

  lemma ReadyTexts(kind: string, ok: bool)
    requires IsOperation(kind)
    ensures ReportsReady(Ready(if ok then (if kind == DELETION then IsFalse else IsTrue)
                               else (if kind == CREATION then IsFalse else IsUnknown)), kind, ok)
    ensures Ready(if ok then (if kind == DELETION then IsFalse else IsTrue)
                  else (if kind == CREATION then IsFalse else IsUnknown)).kind == READY
  {
  }

  lemma FirstIsFound(cs: seq<Condition>, kind: string)
    requires cs != [] && cs[0].kind == kind
    ensures Entry(cs, kind) == Some(cs[0])
  {
  }

  lemma SecondIsFound(cs: seq<Condition>, kind: string)
    requires |cs| >= 2 && cs[0].kind != kind && cs[1].kind == kind
    ensures Entry(cs, kind) == Some(cs[1])
  {
    FirstIsFound(cs[1..], kind);
  }

  lemma ReportTexts(kind: string, message: string)
    requires IsOperation(kind)
    ensures Reports(Success(kind), kind, true, message) && Reports(Failure(kind, message), kind, false, message)
    ensures Success(kind).kind == kind && Failure(kind, message).kind == kind
  {
    KindsDiffer();
    assert "MachineCreation" + "Succeeded" == "MachineCreationSucceeded" && "MachineCreation" + "Failed" == "MachineCreationFailed";
    assert "MachineUpdate" + "Succeeded" == "MachineUpdateSucceeded" && "MachineUpdate" + "Failed" == "MachineUpdateFailed";
    assert "MachineDeletion" + "Succeeded" == "MachineDeletionSucceeded" && "MachineDeletion" + "Failed" == "MachineDeletionFailed";
  }

  /** What the promised merge would store after the same run, operation k setting its conditions at clock[k]. */
  function PromisedAfter(current: seq<Condition>, ops: seq<Operation>, clock: seq<int>): seq<Condition>
    requires |clock| == |ops|
  {
    if ops == [] then current
    else
      var n := |ops| - 1;
      Merge(PromisedAfter(current, ops[..n], clock[..n]), At(Set(ops[n]), clock[n]))
  }

  function Set(op: Operation): seq<Condition> { OperationConditions(op.kind, op.ok, op.message) }

  predicate SetsKind(op: Operation, kind: string) { kind == op.kind || kind == READY }

  /** An operation mentions its own type and the readiness type, and gives no transition time. */
  lemma Sets(op: Operation, kind: string)
    ensures var e := Entry(Set(op), kind);
      (e.Some? <==> SetsKind(op, kind)) && (e.Some? ==> e.value.at == 0)
  {
    var cs := Set(op);
    assert cs[0].kind == op.kind && cs[1].kind == READY && cs[0].at == cs[1].at == 0;
  }

  /** The promised list has every type that was there or that some operation set. */
  lemma {:induction false} PromisedHas(current: seq<Condition>, ops: seq<Operation>, clock: seq<int>, kind: string)
    requires |clock| == |ops| && OnePerKind(current)
    ensures OnePerKind(PromisedAfter(current, ops, clock))
    ensures Entry(PromisedAfter(current, ops, clock), kind).Some? <==>
      Entry(current, kind).Some? || exists k :: 0 <= k < |ops| && SetsKind(ops[k], kind)
  {
    hide Merge, Entry, SetsKind, OnePerKind, Set;
    if ops != [] {
      var n := |ops| - 1;
      var front := PromisedAfter(current, ops[..n], clock[..n]);
      PromisedHas(current, ops[..n], clock[..n], kind);
      assert forall k :: 0 <= k < n ==> ops[..n][k] == ops[k];
      Sets(ops[n], kind);
      MergeHas(front, Set(ops[n]), clock[n], kind);
    }
  }

  lemma MergeHas(current: seq<Condition>, conditions: seq<Condition>, now: int, kind: string)
    requires OnePerKind(current)
    ensures OnePerKind(Merge(current, At(conditions, now)))
    ensures Entry(Merge(current, At(conditions, now)), kind).Some? <==>
      Entry(current, kind).Some? || Entry(conditions, kind).Some?
  {
    hide Merge, TransitionTime, OnePerKind;
    MergeMeaning(current, At(conditions, now), kind);
    if Find(conditions, kind).Some? { assert At(conditions, now)[Find(conditions, kind).value].cond.kind == kind; }
  }

  /**
   Over any run, exactly the types that were there or were set, and that the last operation does not
   set, are lost: the promised merge would have them and the stored list does not. What is stored has no
   transition time.
   */
  lemma LostOverRuns(current: seq<Condition>, ops: seq<Operation>, clock: seq<int>, kind: string)
    requires |clock| == |ops| && ops != [] && OnePerKind(current)
    ensures var stored, promised := Entry(StoredAfter(current, ops), kind), Entry(PromisedAfter(current, ops, clock), kind);
      && ((promised.Some? && stored.None?) <==>
            (!SetsKind(ops[|ops| - 1], kind)
             && (Entry(current, kind).Some? || exists k :: 0 <= k < |ops| - 1 && SetsKind(ops[k], kind))))
      && (stored.Some? ==> promised.Some? && stored.value.at == 0)
  {
    hide Entry, SetsKind, OnePerKind, PromisedAfter;
    PromisedHas(current, ops, clock, kind);
    Sets(ops[|ops| - 1], kind);
    assert StoredAfter(current, ops) == Set(ops[|ops| - 1]);
  }

  /** An update drops the record of the creation, which the merge would keep. */
  lemma UpdateForgetsCreation(now: int)
    ensures var current := OperationConditions(CREATION, true, "");
            var set' := OperationConditions(UPDATE, true, "");
      && Entry(set', CREATION).None?
      && Entry(Merge(current, At(set', now)), CREATION) == Some(Success(CREATION))
  {
    var current, set' := OperationConditions(CREATION, true, ""), OperationConditions(UPDATE, true, "");
    KindsDiffer();
    MergeOfDistinct(set', current, now, CREATION);
  }

  lemma KindsDiffer()
    ensures CREATION != UPDATE && CREATION != READY && UPDATE != READY && DELETION != READY
    ensures CREATION != DELETION && UPDATE != DELETION
  {
    assert CREATION[7] != UPDATE[7];
  }
}
