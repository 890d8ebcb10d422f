/**
 * The shadow of every interleaving as an actual document: each accepted write is a patch, and the result can be read.
 */
module Documents {
  import opened Common
  import opened Controller
  import opened Snapshots
  import opened Json
  import opened ShadowRecord
  import opened Programs
  import opened World
  import opened Safety
  import opened ProtocolTheorems

  /** What one answer writes to the shadow. */
  datatype Write = NoWrite | RecordWrite(s: Snapshot, now: int, verifiedAt: int) | SampleWrite

  predicate Lands(w: World, s: Snapshot, now: int, verifiedAt: int, choice: Reply) {
    PatchOk(s, now, verifiedAt) && s.version == w.shadow.version
      && (choice == Saved(true) || (choice.Raise? && choice.applied))
  }

  function WriteOf(w: World, q: Request, choice: Reply, now: int): Write {
    match q
    case Save(s, at, verifiedAt) => if Lands(w, s, at, verifiedAt, choice) then RecordWrite(s, at, verifiedAt)
        else NoWrite
    case SaveNow(s) => if Lands(w, s, now, s.verifiedAt, choice) then RecordWrite(s, now, s.verifiedAt) else NoWrite
    case Touch(version) => if choice == Saved(true) && version == w.shadow.version then SampleWrite else NoWrite
    case _ => NoWrite
  }

  function Written(before: Snapshot, write: Write): Snapshot {
    match write
    case NoWrite => before
    case RecordWrite(s, now, verifiedAt) => Stored(before, s, now, verifiedAt)
    case SampleWrite => before.(version := before.version + 1)
  }

  lemma HandleWrites(w: World, q: Request, choice: Reply, now: int)
    ensures Handle(w, q, choice, now).0.shadow == Written(w.shadow, WriteOf(w, q, choice, now))
    ensures match WriteOf(w, q, choice, now)
            case RecordWrite(s, at, verifiedAt) => PatchOk(s, at, verifiedAt) && s.version == w.shadow.version
            case _ => true
  {
    hide Stored, PatchOk;
  }

  /** The patches of a write: the record's, or the sample's with what it reports, at the version that was read. */
  function PatchesOf(write: Write, version: int, endpoint: string, runtime: Fields): seq<Json> {
    match write
    case NoWrite => []
    case RecordWrite(s, now, verifiedAt) => [Patch(s, now, verifiedAt)]
    case SampleWrite => [SamplePatch(version, endpoint, runtime)]
  }

  /** A write as the writers make it: its patch can be built, at the shadow's version, from a well-formed record. */
  predicate Writable(before: Snapshot, write: Write) {
    write.RecordWrite? ==>
      PatchOk(write.s, write.now, write.verifiedAt) && write.s.version == before.version && ReadableState(write.s.state)
  }

  /** The document accepts the patch of a write that lands, and then reads as the world's shadow. */
  lemma WriteIsPatch(doc: Json, before: Snapshot, write: Write, endpoint: string, runtime: Fields)
    requires Parse(doc) == Value(before) && Writable(before, write)
    ensures var after := Applied(doc, PatchesOf(write, before.version, endpoint, runtime));
            after.Some? && Parse(after.value) == Value(Written(before, write))
  {
    hide Parse, Patch, SamplePatch, Update, Stored, PatchOk, ReadableState;
    match write
    case NoWrite =>
    case RecordWrite(s, now, verifiedAt) =>
      SaveReadsBack(doc, s, now, verifiedAt);
      AppliedOnce(doc, Patch(s, now, verifiedAt));
    case SampleWrite =>
      SampleLeavesRecord(doc, endpoint, runtime);
      AppliedOnce(doc, SamplePatch(before.version, endpoint, runtime));
  }

  /** The document after conditional updates, each of which was accepted. */
  function Applied(doc: Json, patches: seq<Json>): Option<Json> {
    if patches == [] then Some(doc)
    else
      match Applied(doc, patches[..|patches| - 1])
      case None => None
      case Some(before) => Update(before, patches[|patches| - 1])
  }

  lemma AppliedOnce(doc: Json, patch: Json)
    ensures Applied(doc, [patch]) == Update(doc, patch)
  {
    hide Update;
    assert [patch][..0] == [];
  }

  lemma {:induction false} AppliedJoins(doc: Json, a: seq<Json>, b: seq<Json>, middle: Json)
    requires Applied(doc, a) == Some(middle)
    ensures Applied(doc, a + b) == Applied(middle, b)
    decreases |b|
  {
    hide Update;
    if b == [] {
      assert a + b == a;
    } else {
      assert (a + b)[..|a + b| - 1] == a + b[..|b| - 1];
      AppliedJoins(doc, a, b[..|b| - 1], middle);
    }
  }

  /** What a step of the world writes. */
  function StepWrite(w: World, e: Event): Write {
    if e.Turn? && e.id in w.passes then WriteOf(w, Demand(w.passes[e.id]), e.choice, e.now) else NoWrite
  }

  lemma StepWrites(w: World, e: Event)
    requires Inv(w)
    ensures Step(w, e).shadow == Written(w.shadow, StepWrite(w, e))
    ensures Writable(w.shadow, StepWrite(w, e))
  {
    StepSound(w, e);
    assert ReadableState(Step(w, e).shadow.state);
    hide Inv, Grows, WriteOf, Demand, Advance, PatchOk, ReadableState;
    if e.Turn? && e.id in w.passes { HandleWrites(w, Demand(w.passes[e.id]), e.choice, e.now); }
    hide Handle;
  }

  /** The patches of the writes of a run, in order; `report` is what a runtime sample written by an event says. */
  function Patches(w: World, events: seq<Event>, report: nat -> (string, Fields)): seq<Json> {
    if events == [] then []
    else
      var before, e := events[..|events| - 1], events[|events| - 1];
      var x, (endpoint, runtime) := Exec(w, before), report(|before|);
      Patches(w, before, report) + PatchesOf(StepWrite(x, e), x.shadow.version, endpoint, runtime)
  }

  /**
   * In every interleaving the shadow is a readable document: starting from any document that reads as the initial
   * record, the document accepts the patches of the run's own writes one after another, whatever the samples report,
   * and the result parses to exactly the record the world holds.
   */
  lemma {:induction false} ReachableDocumentParses(w: World, events: seq<Event>, doc: Json,
                                                   report: nat -> (string, Fields))
    requires Fresh(w) && Parse(doc) == Value(w.shadow)
    ensures var after := Applied(doc, Patches(w, events, report));
            after.Some? && Parse(after.value) == Value(Exec(w, events).shadow)
  {
    hide Parse, Step, Fresh;
    if events != [] {
      var before, e := events[..|events| - 1], events[|events| - 1];
      var x, earlier := Exec(w, before), Patches(w, before, report);
      ReachableDocumentParses(w, before, doc, report);
      var middle := Applied(doc, earlier).value;
      ExecSound(w, before);
      StepWrites(x, e);
      hide Inv, StepWrite, Written, Writable, PatchesOf, Applied;
      WriteIsPatch(middle, x.shadow, StepWrite(x, e), report(|before|).0, report(|before|).1);
      var (attributes, fields) := report(|before|);
      AppliedJoins(doc, earlier, PatchesOf(StepWrite(x, e), x.shadow.version, attributes, fields), middle);
    }
  }
}
