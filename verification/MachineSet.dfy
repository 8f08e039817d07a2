/**
 The MachineSet controller (pkg/actuators/machineset/controller.go:55-121): the capacity annotations
 the autoscaler reads when it scales from zero, how they are saved, and which errors come back.
 */
module MachineSet {
  import opened Basics
  import opened Decimal
  import opened ProviderSpec
  import opened Catalogue
  import opened Validation
  import opened Builder
  import opened MergePatch
  import opened MachinePatch

  const CPU_KEY := "machine.openshift.io/vCPU"
  const MEMORY_KEY := "machine.openshift.io/memoryMb"

  /** The part of the provider spec that counts. The CPU fields are int32. */
  datatype Compute = Compute(vcpusPerSocket: int, sockets: int, memoryBytes: int) {
    predicate Valid() { InInt32(vcpusPerSocket) && InInt32(sockets) }
  }

  predicate InInt32(n: int) { -TWO31 <= n < TWO31 }

  /** The raw provider spec: nil, not decodable, or decoded. */
  datatype RawSpec = Nil | Malformed | Decoded(compute: Compute)

  datatype Reason = InvalidConfiguration | OtherReason
  datatype Error = MachineError(reason: Reason) | PlainError

  function Decode(raw: RawSpec): Result<Compute, Error> {
    match raw
    case Nil => Ok(Compute(0, 0, 0))
    case Malformed => Err(MachineError(InvalidConfiguration))
    case Decoded(c) => Ok(c)
  }

  /** isInvalidConfigurationError. */
  predicate IsInvalidConfiguration(e: Option<Error>) { e == Some(MachineError(InvalidConfiguration)) }

  /** The product is computed in int32 and only then widened. */
  function CpuText(c: Compute): string { FormatInt(ToInt32(c.vcpusPerSocket * c.sockets)) }

  function MemoryText(c: Compute): string { FormatInt(Mib(c.memoryBytes)) }

  type Annotations = map<string, string>

  function Annotated(a: Option<Annotations>, c: Compute): Option<Annotations> {
    Some(a.GetOr(map[])[CPU_KEY := CpuText(c)][MEMORY_KEY := MemoryText(c)])
  }

  /** The metadata as the patch sees it; an empty annotation map is left out. */
  function ToDoc(a: Option<Annotations>): Doc {
    if a.None? || a.value == map[] then EMPTY
    else Obj(map["annotations" := Obj(map k | k in a.value :: Leaf(a.value[k]))])
  }

  class MachineSetObject {
    var annotations: Option<Annotations>
    const raw: RawSpec

    constructor (a: Option<Annotations>, r: RawSpec)
      ensures annotations == a && raw == r
    {
      annotations, raw := a, r;
    }

    /** reconcile. */
    method Reconcile() returns (err: Option<Error>)
      modifies this
      ensures Decode(raw).Err? ==> err == Some(Decode(raw).error) && annotations == old(annotations)
      ensures Decode(raw).Ok? ==> err == None && annotations == Annotated(old(annotations), Decode(raw).value)
    {
      var config := Decode(raw);
      if config.Err? { return Some(config.error); }
      if annotations.None? { annotations := Some(map[]); }
      annotations := Some(annotations.value[CPU_KEY := CpuText(config.value)]);
      annotations := Some(annotations.value[MEMORY_KEY := MemoryText(config.value)]);
      return None;
    }
  }

  /** How reading the MachineSet goes. */
  datatype Fetched = Missing | Unreadable(error: Error) | Deleting | Live(annotations: Option<Annotations>, raw: RawSpec)

  /** What Reconcile leaves stored and what it returns, when the stored metadata at the patch is stored. */
  function Outcome(fetched: Fetched, stored: Doc, f: Fault): (Doc, Option<Error>) {
    match fetched
    case Missing => (stored, None)
    case Unreadable(e) => (stored, Some(e))
    case Deleting => (stored, None)
    case Live(a, raw) =>
      var after := match Decode(raw)
        case Ok(c) => Patched(ToDoc(a), ToDoc(Annotated(a, c)), stored)
        case Err(_) => Patched(ToDoc(a), ToDoc(a), stored);
      (if f.Refused? then stored else after, if f.Works? then None else Some(PlainError))
  }

  class Controller {
    var stored: Doc

    constructor (d: Doc)
      ensures stored == d
    {
      stored := d;
    }

    method Patch(base: Doc, mine: Doc, f: Fault) returns (err: Option<Error>)
      modifies this
      ensures stored == if f.Refused? then old(stored) else Patched(base, mine, old(stored))
      ensures err == if f.Works? then None else Some(PlainError)
    {
      if f.Refused? { return Some(PlainError); }
      stored := Patched(base, mine, stored);
      return if f.ReplyLost? then Some(PlainError) else None;
    }

    /**
     Reconcile: the patch is sent whatever reconcile returned; a failed patch is returned; an invalid
     configuration is not, because trying again would not help.
     */
    method Reconcile(fetched: Fetched, f: Fault) returns (err: Option<Error>)
      modifies this
      ensures (stored, err) == Outcome(fetched, old(stored), f)
    {
      hide Patched, Annotated, ToDoc;
      match fetched {
        case Missing => return None;
        case Unreadable(e) => return Some(e);
        case Deleting => return None;
        case Live(a, raw) =>
          var ms := new MachineSetObject(a, raw);
          var base := ToDoc(ms.annotations);
          err := ms.Reconcile();
          var patchErr := Patch(base, ToDoc(ms.annotations), f);
          if patchErr.Some? { return patchErr; }
          if IsInvalidConfiguration(err) { return None; }
      }
    }
  }

  // ---------------------------------------------------------------- What it comes to

  /** An error comes back only from reading or patching; a provider spec that cannot be decoded changes nothing. */
  lemma ErrorsOnlyFromTheServer(fetched: Fetched, stored: Doc, f: Fault)
    ensures Outcome(fetched, stored, f).1.Some? <==> fetched.Unreadable? || (fetched.Live? && !f.Works?)
    ensures fetched.Unreadable? ==> Outcome(fetched, stored, f).1 == Some(fetched.error)
    ensures !fetched.Live? || fetched.raw.Malformed? || f.Refused? ==> Outcome(fetched, stored, f).0 == stored
  {
    if fetched.Live? {
      hide Apply;
      var d := ToDoc(fetched.annotations);
      DiffEmpty(d, d);
      ApplyNothing(stored);
    }
  }

  lemma ApplyNothing(t: Doc)
    ensures Apply(t, Obj(map[])) == t
  {
  }

  function Annotation(d: Doc, key: string): Option<Json> { At(Some(d), ["annotations", key]) }

  lemma AnnotationOf(a: Option<Annotations>, key: string)
    ensures Annotation(ToDoc(a), key) == if a.Some? && key in a.value then Some(Leaf(a.value[key])) else None
  {
    var d := Some(ToDoc(a));
    assert At(d, ["annotations", key]) == At(Get(d, "annotations"), [key]) by {
      assert ["annotations", key][1..] == [key];
    }
    assert At(Get(d, "annotations"), [key]) == At(Get(Get(d, "annotations"), key), []) by {
      assert [key][1..] == [];
    }
  }

  /** What reconcile wants a key to hold. */
  function Wanted(a: Option<Annotations>, c: Compute, key: string): Option<Json> {
    if key == "machine.openshift.io/vCPU" then Some(Leaf(CpuText(c)))
    else if key == "machine.openshift.io/memoryMb" then Some(Leaf(MemoryText(c)))
    else Annotation(ToDoc(a), key)
  }

  lemma AnnotatedWants(a: Option<Annotations>, c: Compute, key: string)
    ensures var a' := Annotated(a, c); a'.Some? && a'.value != map[] && Annotation(ToDoc(a'), key) == Wanted(a, c, key)
  {
    hide CpuText, MemoryText, ToDoc, Annotation;
    var a' := Annotated(a, c);
    assert CPU_KEY != MEMORY_KEY by { assert CPU_KEY[21] != MEMORY_KEY[21]; }
    assert MEMORY_KEY in a'.value;
    AnnotationOf(a, key);
    AnnotationOf(a', key);
  }

  /**
   After a successful reconcile each annotation is, for any interference since the read, the one a
   merge of this single field gives: the two capacity keys take the computed values if those are new,
   and every other key keeps its stored value.
   */
  lemma AnnotationsSaved(a: Option<Annotations>, c: Compute, stored: Doc, key: string)
    ensures Annotation(Outcome(Live(a, Decoded(c)), stored, Works).0, key) ==
      if Wanted(a, c, key) == Annotation(ToDoc(a), key) then Annotation(stored, key) else Wanted(a, c, key)
  {
    hide CpuText, MemoryText, Patched, Annotated, Wanted, ToDoc, Sayable, Reaches;
    var a' := Annotated(a, c);
    AnnotatedWants(a, c, key);
    AnnotationOf(a', key);
    SayableAnnotations(a, a');
    ReachesAnnotation(a', key);
    FieldIsMerged(ToDoc(a), ToDoc(a'), stored, ["annotations", key]);
  }

  lemma ReachesAnnotation(a: Option<Annotations>, key: string)
    requires a.Some? && a.value != map[]
    ensures Reaches(Some(ToDoc(a)), ["annotations", key])
  {
    assert ["annotations", key][1..] == [key] && [key][1..] == [];
    var inner := Get(Some(ToDoc(a)), "annotations");
    assert Reaches(Get(inner, key), []);
    assert Reaches(inner, [key]);
  }

  lemma SayableAnnotations(a: Option<Annotations>, b: Option<Annotations>)
    ensures Sayable(Some(ToDoc(a)), ToDoc(b))
  {
    if b.Some? && b.value != map[] {
      var m := ToDoc(b).fields["annotations"];
      assert Sayable(Get(Some(ToDoc(a)), "annotations"), m);
    }
  }

  /** The CPU annotation reads back as cores times sockets exactly when that product fits an int32. */
  lemma CpuTextExact(c: Compute)
    ensures ParseInt(CpuText(c)) == Some(c.vcpusPerSocket * c.sockets) <==> InInt32(c.vcpusPerSocket * c.sockets)
  {
    ParseFormatInt(ToInt32(c.vcpusPerSocket * c.sockets));
  }

  /** Two int32 fields whose product does not fit: the annotation says no CPU at all. */
  lemma CpuTextCanWrap()
    ensures var c := Compute(65536, 65536, 0); c.Valid() && ParseInt(CpuText(c)) == Some(0)
  {
    hide FormatInt, ParseInt, ToInt32;
    assert ToInt32(65536 * 65536) == 0 by { WrapsToZero(); }
    ParseFormatInt(0);
  }

  lemma WrapsToZero()
    ensures ToInt32(65536 * 65536) == 0
  {
  }

  /** A machine set without a provider spec announces nothing. */
  lemma NilSpecAnnouncesNothing(a: Option<Annotations>, stored: Doc, f: Fault)
    ensures Outcome(Live(a, Nil), stored, f) == Outcome(Live(a, Decoded(Compute(0, 0, 0))), stored, f)
    ensures ParseInt(CpuText(Compute(0, 0, 0))) == Some(0) && ParseInt(MemoryText(Compute(0, 0, 0))) == Some(0)
  {
    hide FormatInt, ParseInt, Patched;
    ParseFormatInt(0);
  }

  lemma MemoryTextExact(c: Compute)
    ensures ParseInt(MemoryText(c)) == Some(Mib(c.memoryBytes))
  {
    ParseFormatInt(Mib(c.memoryBytes));
  }

  /**
   The annotations agree with the VM that is built from the same spec: CPU with its cores times sockets,
   whenever that fits, and memory with its whole mebibytes, of which there are at least 2048.
   */
  lemma CapacityAgreesWithVm(cat: Catalogue, name: string, labels: map<string, string>, s: Spec, userData: string, vm: BuiltVm)
    requires Errors(cat, s) == []
    requires Build(cat, name, labels, Resolved(cat, s), userData) == Ok(vm)
    ensures var c := Compute(s.vcpusPerSocket, s.vcpuSockets, s.memoryBytes);
      && (ParseInt(CpuText(c)) == Some(vm.coresPerSocket * vm.sockets) <==> vm.coresPerSocket * vm.sockets < TWO31)
      && exists mb :: ParseInt(MemoryText(c)) == Some(mb) && mb >= 2048 && MIB * mb <= vm.memoryBytes < MIB * (mb + 1)
  {
    hide Errors, Build, Resolved, KeepsDataDisks, KeepsGpus, NicsKeepMeaning, RefersTo, FormatInt, ParseInt, WellFormed;
    var c := Compute(s.vcpusPerSocket, s.vcpuSockets, s.memoryBytes);
    MeaningPreserved(cat, name, labels, s, userData, vm);
    CpuTextExact(c);
    MemoryTextExact(c);
    PositiveCpus(cat, s);
    ProductPositive(s.vcpusPerSocket, s.vcpuSockets);
    assert ParseInt(MemoryText(c)) == Some(Mib(s.memoryBytes));
  }

  lemma PositiveCpus(cat: Catalogue, s: Spec)
    requires Errors(cat, s) == []
    ensures s.vcpusPerSocket >= 1 && s.vcpuSockets >= 1
  {
    hide Errors;
    ValidationExact(cat, s);
  }

  lemma ProductPositive(a: int, b: int)
    requires a >= 1 && b >= 1
    ensures a * b >= 1
  {
  }
}
