/** What each single call of the lifecycle keeps, whatever everybody else does around it. */
module LifecycleCalls {
  import opened Basics
  import opened Text
  import opened Lifecycle

  /** The cloud's bookkeeping of identifiers is consistent. */
  predicate Tidy(w: World) { w.cloud.Keys <= w.used }

  /** A step that neither adds a VM of the machine's name nor touches the stored identity. */
  ghost predicate Kept(w: World, w': World) {
    && w'.machine.name == w.machine.name
    && w'.machine.providerID == w.machine.providerID
    && w'.machine.vmUUID == w.machine.vmUUID
    && Grown(w, w')
    && Named(w') <= Named(w)
  }

  /** Identifiers are never reused: one that is dead stays dead. */
  ghost predicate Grown(w: World, w': World) {
    && w.used <= w'.used
    && (Tidy(w) ==> Tidy(w'))
    && (forall x :: x in w.used && x !in w.cloud ==> x !in w'.cloud)
  }

  /** Nobody takes a VM of the machine's name away. */
  predicate Quiet(actions: seq<EnvAction>) {
    forall i :: 0 <= i < |actions| ==> !actions[i].RemoveVm?
  }

  /** Nobody takes any VM away. */
  predicate Sparing(actions: seq<EnvAction>) {
    forall i :: 0 <= i < |actions| ==> !actions[i].RemoveVm? && !actions[i].RemoveOther?
  }

  lemma ActKeeps(w: World, a: EnvAction)
    ensures Kept(w, Act(w, a))
    ensures Act(w, a).trace == w.trace
    ensures !a.RemoveVm? ==> Named(Act(w, a)) == Named(w)
    ensures !a.RemoveVm? && !a.RemoveOther? ==> w.cloud.Keys <= Act(w, a).cloud.Keys
  {
  }

  lemma {:induction false} ActsKeep(w: World, actions: seq<EnvAction>)
    ensures Kept(w, Acts(w, actions))
    ensures Acts(w, actions).trace == w.trace
    ensures Quiet(actions) ==> Named(Acts(w, actions)) == Named(w)
    ensures Sparing(actions) ==> w.cloud.Keys <= Acts(w, actions).cloud.Keys
  {
    if actions != [] {
      var front := actions[..|actions| - 1];
      ActsKeep(w, front);
      ActKeeps(Acts(w, front), actions[|actions| - 1]);
    }
  }

  /** A step built of one round of foreign actions and, perhaps, a log entry or a power change. */
  ghost predicate Calm(w: World, w': World, quiet: bool, sparing: bool) {
    && Kept(w, w')
    && (quiet ==> Named(w') == Named(w))
    && (sparing ==> w.cloud.Keys <= w'.cloud.Keys)
  }

  lemma GetVmCalls(w: World, id: string, c: Call)
    ensures var (w', r) := GetVm(w, id, c);
      && Calm(w, w', Quiet(c.before), Sparing(c.before))
      && (r.Ok? ==> r.value == id && id in w'.cloud)
      && (r.Err? && IsNotFound(r.error) ==> id !in w'.cloud)
  {
    ActsKeep(w, c.before);
    HonestIsNotNotFound(c.fault);
  }

  lemma HonestIsNotNotFound(f: Fault)
    ensures Failed(f) ==> !IsNotFound(Honest(f.msg))
  {
    RequestFailedText();
  }

  lemma RequestFailedText()
    ensures !IsNotFound("request failed")
  {
    NotFoundShort("iled");
    NotFoundSplit("r", 'e', "quest f" + ['a'] + "iled");
    NotFoundShort("r");
    NotFoundShort("quest f");
    NotFoundSplit("quest f", 'a', "iled");
    assert "request failed" == "r" + ['e'] + ("quest f" + ['a'] + "iled");
  }

  /**
   findVMByName on a legal host name: it answers with the only VM of that name, and classifies its
   failure as "not found" only when there is none.
   */
  lemma FindVmByNameCalls(w: World, list: Call, get: Call)
    requires LegalHostName(w.machine.name)
    ensures var (w', r) := FindVmByName(w, list, get);
      && Calm(w, w', Quiet(list.before) && Quiet(get.before), Sparing(list.before) && Sparing(get.before))
      && (r.Ok? ==> r.value in w'.cloud && r.value in Named(w) && Named(w') <= {r.value}
                    && (Quiet(list.before) ==> Named(w) == {r.value}))
      && (r.Err? && IsNotFound(r.error) ==> Named(w') == {})
  {
    var w1 := Acts(w, list.before);
    ActsKeep(w, list.before);
    var name, ids := w1.machine.name, Named(w1);
    if Failed(list.fault) {
      HonestIsNotNotFound(list.fault);
      ClassificationIsRight(name, 0, Honest(list.fault.msg));
    } else {
      ClassificationIsRight(name, |ids|, "");
      if |ids| == 1 && list.fault != NoId {
        GetVmCalls(Log(w1, Listed(ids)), TheOnly(ids), get);
      }
    }
  }

  lemma PowerCalls(w: World, id: string, c: Call, effective: bool)
    ensures Calm(w, PowerCall(w, id, c, effective).0, Quiet(c.before), Sparing(c.before))
  {
    ActsKeep(w, c.before);
    ActKeeps(Acts(w, c.before), SetPower(id, true));
  }

  lemma GetNodeCalls(w: World, node: string, c: Call)
    ensures Calm(w, GetNode(w, node, c).0, Quiet(c.before), Sparing(c.before))
  {
    ActsKeep(w, c.before);
  }

  lemma SetNodeCalls(w: World, node: string, id: string, c: Call)
    ensures Calm(w, SetNodeID(w, node, id, c).0, Quiet(c.before), Sparing(c.before))
  {
    ActsKeep(w, c.before);
  }

  lemma ReadCalls(w: World, c: Call)
    ensures Calm(w, ReadCall(w, c).0, Quiet(c.before), Sparing(c.before))
  {
    ActsKeep(w, c.before);
  }

  /** A step of a delete of id: as calm as any, except that id may be gone. */
  ghost predicate Deleting(w: World, w': World, id: string, quiet: bool) {
    && Kept(w, w')
    && (quiet ==> Named(w) - {id} <= Named(w'))
  }

  lemma DeleteCallCalls(w: World, id: string, c: Call)
    ensures var (w', r) := DeleteCall(w, id, c);
      && Deleting(w, w', id, Quiet(c.before))
      && (r.Err? && IsNotFound(r.error) ==> id !in w'.cloud)
  {
    hide IsNotFound, Honest;
    ActsKeep(w, c.before);
    HonestIsNotNotFound(c.fault);
  }

  lemma AwaitDeleteCalls(w: World, id: string, c: Call)
    ensures var (w', r) := AwaitDelete(w, id, c);
      && Deleting(w, w', id, Quiet(c.before))
      && (r.Ok? || IsNotFound(r.error) ==> id !in w'.cloud)
  {
    hide IsNotFound, Honest;
    ActsKeep(w, c.before);
    HonestIsNotNotFound(c.fault);
  }

  lemma DeleteVmCalls(w: World, id: string, submit: Call, wait: Call)
    ensures var (w', gone) := DeleteVm(w, id, submit, wait);
      && Deleting(w, w', id, Quiet(submit.before) && Quiet(wait.before))
      && (gone ==> id !in w'.cloud)
  {
    hide IsNotFound, DeleteCall, AwaitDelete, Quiet;
    DeleteCallCalls(w, id, submit);
    var (w1, r) := DeleteCall(w, id, submit);
    if r.Ok? {
      AwaitDeleteCalls(w1, id, wait);
    }
  }
}
