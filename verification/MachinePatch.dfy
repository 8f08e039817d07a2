/**
 patchMachine (pkg/actuators/machine/machine_scope.go:206-235): the computed status is set aside, the
 machine is patched, the reply overwrites it in memory, the status is put back, and the status is
 patched. Both patches are taken from the machine as it was read.

 The API server keeps a resource version; a patch that carries one is refused unless it is the stored
 one. A patch carries it exactly when the machine in memory has another version than the one read, which
 is so for the second patch whenever the first one's reply had a new version.
 */
module MachinePatch {
  import opened Basics
  import opened MergePatch
  import Lifecycle

  type Doc = j: Json | j.Obj? witness EMPTY

  /** A Machine. main is its metadata, without the resource version, and its spec. */
  datatype Object = Object(version: int, main: Doc, status: Doc)

  /** ReplyLost: the patch is applied but reported as failed. */
  datatype Fault = Works | Refused | ReplyLost

  /** What everybody else does between the two patches. */
  datatype Others = Quiet | Wrote(main: Doc, status: Doc)

  // ---------------------------------------------------------------- The API server

  /** A write that changes nothing keeps the version. */
  function Written(old': Object, main: Doc, status: Doc): Object {
    if main == old'.main && status == old'.status then old' else Object(old'.version + 1, main, status)
  }

  predicate Conflicts(stored: Object, base: Object, mine: Object) {
    mine.version != base.version && mine.version != stored.version
  }

  /** A patch of the resource: its status part is ignored. */
  function MainPatch(stored: Object, base: Object, mine: Object, f: Fault): (Object, Option<Object>) {
    if f.Refused? || Conflicts(stored, base, mine) then (stored, None)
    else
      var after := Written(stored, Patched(base.main, mine.main, stored.main), stored.status);
      (after, if f.ReplyLost? then None else Some(after))
  }

  /** A patch of the status: everything else in it is ignored. */
  function StatusPatch(stored: Object, base: Object, mine: Object, f: Fault): (Object, Option<Object>) {
    if f.Refused? || Conflicts(stored, base, mine) then (stored, None)
    else
      var after := Written(stored, stored.main, Patched(base.status, mine.status, stored.status));
      (after, if f.ReplyLost? then None else Some(after))
  }

  function Interfered(stored: Object, others: Others): Object {
    match others
    case Quiet => stored
    case Wrote(main, status) => Written(stored, main, status)
  }

  class ApiServer {
    var stored: Object

    constructor (o: Object)
      ensures stored == o
    {
      stored := o;
    }

    method Patch(base: Object, mine: Object, f: Fault) returns (reply: Option<Object>)
      modifies this
      ensures (stored, reply) == MainPatch(old(stored), base, mine, f)
    {
      if f.Refused? || Conflicts(stored, base, mine) { return None; }
      stored := Written(stored, Patched(base.main, mine.main, stored.main), stored.status);
      return if f.ReplyLost? then None else Some(stored);
    }

    method PatchStatus(base: Object, mine: Object, f: Fault) returns (reply: Option<Object>)
      modifies this
      ensures (stored, reply) == StatusPatch(old(stored), base, mine, f)
    {
      if f.Refused? || Conflicts(stored, base, mine) { return None; }
      stored := Written(stored, stored.main, Patched(base.status, mine.status, stored.status));
      return if f.ReplyLost? then None else Some(stored);
    }

    method Interfere(others: Others)
      modifies this
      ensures stored == Interfered(old(stored), others)
    {
      if others.Wrote? { stored := Written(stored, others.main, others.status); }
    }
  }

  // ---------------------------------------------------------------- patchMachine

  const PROVIDER_STATUS := "providerStatus"

  /** Every member of b is a's, but for this one, which is v. */
  ghost predicate Sets(a: Doc, b: Doc, key: string, v: Json) {
    && Get(Some(b), key) == Some(v)
    && forall other :: other != key ==> Get(Some(b), other) == Get(Some(a), other)
  }

  function WithProviderStatus(o: Object, providerStatus: Json): (r: Object)
    ensures r.version == o.version && r.main == o.main
    ensures Sets(o.status, r.status, "providerStatus", providerStatus)
  {
    o.(status := Obj(o.status.fields[PROVIDER_STATUS := providerStatus]))
  }

  /** Both patches, of a machine whose provider status has been set. */
  function PatchBoth(stored: Object, base: Object, mine: Object, f1: Fault, others: Others, f2: Fault): (Object, bool) {
    var (s1, reply) := MainPatch(stored, base, mine, f1);
    match reply
    case None => (s1, false)
    case Some(seen) =>
      var (s2, reply2) := StatusPatch(Interfered(s1, others), base, seen.(status := mine.status), f2);
      (s2, reply2.Some?)
  }

  class MachineScope {
    var machine: Object
    const base: Object

    constructor (read: Object)
      ensures machine == base == read
    {
      machine, base := read, read;
    }

    method PatchMachine(api: ApiServer, providerStatus: Json, f1: Fault, others: Others, f2: Fault) returns (ok: bool)
      modifies this`machine, api
      ensures (api.stored, ok) ==
        PatchBoth(old(api.stored), base, WithProviderStatus(old(machine), providerStatus), f1, others, f2)
      ensures ok ==> machine == api.stored
    {
      hide Patched, Written, Conflicts;
      machine := WithProviderStatus(machine, providerStatus);
      var statusCopy := machine.status;
      var reply := api.Patch(base, machine, f1);
      if reply.None? { return false; }
      machine := reply.value;
      machine := machine.(status := statusCopy);
      api.Interfere(others);
      reply := api.PatchStatus(base, machine, f2);
      if reply.None? { return false; }
      machine := reply.value;
      return true;
    }
  }

  // ---------------------------------------------------------------- What is saved

  ghost predicate SavedAt(o: Doc, m: Doc, before: Doc, after: Doc, path: seq<string>) {
    match EffectAt(Some(o), Some(m), path)
    case Keeps => At(Some(after), path) == At(Some(before), path)
    case Puts => At(Some(after), path) == At(Some(m), path)
    case Inside => At(Some(after), path).Some? && At(Some(after), path).value.Obj?
  }

  /** after is before with the change from o to m merged in, path by path. */
  ghost predicate Saved(o: Doc, m: Doc, before: Doc, after: Doc) {
    forall path :: SavedAt(o, m, before, after, path)
  }

  lemma PatchedSaves(o: Doc, m: Doc, before: Doc)
    requires Sayable(Some(o), m)
    ensures Saved(o, m, before, Patched(o, m, before))
  {
    hide Patched, EffectAt, At, Sayable;
    forall path ensures SavedAt(o, m, before, Patched(o, m, before), path) {
      PatchedAt(o, m, before, path);
    }
  }

  /**
   On success everything this reconcile changed in metadata, spec and status is stored, and every field
   it did not change keeps the value other writers gave it, at the time of the respective patch. The
   status saved is the computed one, although the first reply replaced it in memory.
   */
  lemma SuccessSavesBoth(stored: Object, base: Object, mine: Object, f1: Fault, others: Others, f2: Fault)
    requires Sayable(Some(base.main), mine.main) && Sayable(Some(base.status), mine.status)
    requires PatchBoth(stored, base, mine, f1, others, f2).1
    ensures var final := PatchBoth(stored, base, mine, f1, others, f2).0;
      && (others.Quiet? ==> Saved(base.main, mine.main, stored.main, final.main))
      && (others.Wrote? ==> final.main == others.main)
      && Saved(base.status, mine.status, if others.Wrote? then others.status else stored.status, final.status)
  {
    hide Patched, Saved, Sayable;
    PatchedSaves(base.main, mine.main, stored.main);
    PatchedSaves(base.status, mine.status, if others.Wrote? then others.status else stored.status);
  }

  /** If nobody else wrote since the read, what is stored in the end is the machine in memory. */
  lemma AloneSavesAll(base: Object, mine: Object, f1: Fault, f2: Fault)
    requires mine.version == base.version
    requires PatchBoth(base, base, mine, f1, Quiet, f2).1
    ensures var final := PatchBoth(base, base, mine, f1, Quiet, f2).0;
      (final.main == mine.main && final.status == mine.status) <==>
        (Sayable(Some(base.main), mine.main) && Sayable(Some(base.status), mine.status))
  {
    hide Patched, Sayable;
    RoundTrip(base.main, mine.main);
    RoundTrip(base.status, mine.status);
  }

  /**
   A failure never moves the status, unless the status patch itself was applied and its reply lost; and
   a failed first patch leaves at most its own change.
   */
  lemma FailureMovesMainOnly(stored: Object, base: Object, mine: Object, f1: Fault, others: Others, f2: Fault)
    requires !PatchBoth(stored, base, mine, f1, others, f2).1
    ensures var final := PatchBoth(stored, base, mine, f1, others, f2).0;
      if !f1.Works? || Conflicts(stored, base, mine)
      then final.status == stored.status && (final == stored || final.main == Patched(base.main, mine.main, stored.main))
      else
        && (f2 != ReplyLost ==> final.status == if others.Wrote? then others.status else stored.status)
        && final.main == if others.Wrote? then others.main else Patched(base.main, mine.main, stored.main)
  {
    hide Patched;
  }

  /** Somebody's write between the two patches that changes something. */
  predicate Moved(o: Object, others: Others) {
    others.Wrote? && (others.main != o.main || others.status != o.status)
  }

  /**
   The status patch is refused for a write in between exactly when the first patch changed something
   or found the machine already changed since it was read: then it carries a version. The patch is
   unguarded only when the machine had not moved at all since the read.
   */
  lemma StatusPatchGuarded(stored: Object, base: Object, mine: Object, others: Others)
    requires mine.version == base.version <= stored.version
    requires Moved(MainPatch(stored, base, mine, Works).0, others)
    ensures PatchBoth(stored, base, mine, Works, others, Works).1 <==>
      stored.version == base.version && Patched(base.main, mine.main, stored.main) == stored.main
    ensures !PatchBoth(stored, base, mine, Works, others, Works).1 ==>
      PatchBoth(stored, base, mine, Works, others, Works).0.status == others.status
  {
    hide Patched;
  }

  /**
   patchMachine saves the provider status it was given, beside the machine in memory. On success the
   stored status is, member by member, the merge of what was read, what is in memory and what others
   wrote, and its provider status is that merge of the computed one. If nobody wrote, and nothing is set
   to null, the stored machine is the one in memory with exactly the computed provider status.
   */
  lemma ProviderStatusSaved(stored: Object, base: Object, machine: Object, providerStatus: Json,
                            f1: Fault, others: Others, f2: Fault)
    requires PatchBoth(stored, base, WithProviderStatus(machine, providerStatus), f1, others, f2).1
    ensures var final := PatchBoth(stored, base, WithProviderStatus(machine, providerStatus), f1, others, f2).0;
            var before := if others.Wrote? then others.status else stored.status;
      && Get(Some(final.status), "providerStatus")
           == Merged3(Get(Some(base.status), "providerStatus"), Some(providerStatus), Get(Some(before), "providerStatus"))
      && (forall key | key != "providerStatus" ::
            Get(Some(final.status), key)
              == Merged3(Get(Some(base.status), key), Get(Some(machine.status), key), Get(Some(before), key)))
      && (others.Quiet? && stored == base && Sayable(Some(base.main), machine.main) ==> final.main == machine.main)
      && (before == base.status && Sayable(Get(Some(base.status), "providerStatus"), providerStatus) ==>
            Get(Some(final.status), "providerStatus") == Some(providerStatus))
      && (before == base.status && Sayable(Some(base.status), machine.status) ==>
            forall key :: key != "providerStatus" ==> Get(Some(final.status), key) == Get(Some(machine.status), key))
  {
    hide Patched, Sayable, Merged3;
    var mine := WithProviderStatus(machine, providerStatus);
    var before := if others.Wrote? then others.status else stored.status;
    var final := PatchBoth(stored, base, mine, f1, others, f2).0;
    assert final.status == Patched(base.status, mine.status, before);
    forall key ensures Get(Some(final.status), key) == Merged3(Get(Some(base.status), key), Get(Some(mine.status), key), Get(Some(before), key)) {
      GetPatched(base.status, mine.status, before, key);
    }
    RoundTrip(base.main, machine.main);
    if before == base.status {
      MergedIntoItself(Get(Some(base.status), "providerStatus"), providerStatus);
      if Sayable(Some(base.status), machine.status) {
        forall key | key != "providerStatus" ensures Get(Some(final.status), key) == Get(Some(machine.status), key) {
          MemberIntoItself(base.status, machine.status, key);
        }
      }
    }
  }

  lemma MemberIntoItself(o: Doc, m: Doc, key: string)
    requires Sayable(Some(o), m)
    ensures Merged3(Get(Some(o), key), Get(Some(m), key), Get(Some(o), key)) == Get(Some(m), key)
  {
    GetPatched(o, m, o, key);
    RoundTrip(o, m);
  }

  /**
   patchMachine succeeds exactly when both patches work and nobody wrote in between, or somebody did but
   the machine had not moved since the read and the first patch changed nothing.
   */
  lemma PatchSucceedsExactly(stored: Object, base: Object, mine: Object, f1: Fault, others: Others, f2: Fault)
    requires mine.version == base.version <= stored.version
    ensures PatchBoth(stored, base, mine, f1, others, f2).1 <==>
      && f1.Works? && f2.Works?
      && (Moved(MainPatch(stored, base, mine, Works).0, others) ==>
            stored.version == base.version && Patched(base.main, mine.main, stored.main) == stored.main)
  {
    hide Patched;
  }

  // ---------------------------------------------------------------- One field of it

  /** Every member the path goes through is an object. */
  predicate Reaches(m: Option<Json>, path: seq<string>)
    decreases |path|
  {
    path == [] || (m.Some? && m.value.Obj? && Reaches(Get(m, path[0]), path[1..]))
  }

  predicate Scalar(j: Option<Json>) { j.Some? ==> !j.value.Obj? }

  lemma {:induction false} ScalarEffect(o: Option<Json>, m: Option<Json>, path: seq<string>)
    requires Reaches(m, path) && Scalar(At(m, path))
    ensures At(o, path) == At(m, path) <==> EffectAt(o, m, path) == Keeps
    ensures EffectAt(o, m, path) != Inside
    decreases |path|
  {
    if path != [] {
      var k := path[0];
      ScalarEffect(Get(o, k), Get(m, k), path[1..]);
      if o == m { SamePath(o, m, path); }
    }
  }

  lemma SamePath(o: Option<Json>, m: Option<Json>, path: seq<string>)
    requires o == m
    ensures At(o, path) == At(m, path)
  {
  }

  /** For a single-valued field, the merge patch is the one the lifecycle's runs use. */
  lemma FieldIsMerged(o: Doc, m: Doc, t: Doc, path: seq<string>)
    requires Sayable(Some(o), m) && Reaches(Some(m), path) && Scalar(At(Some(m), path))
    ensures At(Some(Patched(o, m, t)), path)
         == Lifecycle.Merged(At(Some(o), path), At(Some(m), path), At(Some(t), path))
  {
    hide Patched, EffectAt, At, Sayable, Reaches;
    PatchedAt(o, m, t, path);
    ScalarEffect(Some(o), Some(m), path);
  }
}
