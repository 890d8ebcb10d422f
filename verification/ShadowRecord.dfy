/** The controller's record as a shadow document (agent/src/controller_shadow.cpp). */
module ShadowRecord {
  import opened Common
  import opened Activations
  import opened Controller
  import opened Snapshots
  import opened Json

  /** A value read from a document, or the exception the reader throws. */
  datatype Read<+T> = Value(v: T) | Invalid {
    predicate IsFailure() { Invalid? }
    function PropagateFailure<U>(): Read<U> requires Invalid? { Invalid }
    function Extract(): T requires Value? { v }
  }

  // ---------------------------------------------------------------- reading

  predicate Exists(m: Fields, k: Key) { k in m && m[k] != JNull }

  function Text(m: Fields, k: Key): Read<string> {
    if Exists(m, k) && m[k].JStr? && m[k].s != "" then Value(m[k].s) else Invalid
  }

  function Number(m: Fields, k: Key): Read<int> {
    if Exists(m, k) && m[k].JInt? && m[k].n >= 0 then Value(m[k].n) else Invalid
  }

  function OptionalNumber(m: Fields, k: Key): Read<int> { if Exists(m, k) then Number(m, k) else Value(0) }

  function Flag(m: Fields, k: Key): Read<bool> {
    if Exists(m, k) && m[k].JBool? then Value(m[k].b) else Invalid
  }

  predicate IsObject(m: Fields, k: Key) { Exists(m, k) && m[k].JObj? }

  function Object(m: Fields, k: Key): Read<Fields> { if IsObject(m, k) then Value(m[k].fields) else Invalid }

  const RESERVED := "reserved"
  const RUNNING := "running"
  const STOPPING := "stopping"

  function PhaseOf(name: string): Read<Phase> {
    if name == RESERVED then Value(Reserved) else if name == RUNNING then Value(Running)
    else if name == STOPPING then Value(Stopping) else Invalid
  }

  function PhaseName(p: Phase): string {
    match p case Reserved => RESERVED case Running => RUNNING case Stopping => STOPPING
  }

  function ParseWindow(c: Fields): Read<ActivationState> {
    var version :- Number(c, ProjectionVersion);
    var source :- Number(c, SourceTimestampMs);
    var inactive :- Number(c, InactiveObservedAt);
    var observed :- Flag(c, ObservedFlag);
    var active :- Flag(c, ActiveFlag);
    if observed != (version > 0) || observed != (source > 0) || (!observed && (active || inactive != 0))
       || (observed && !active && inactive == 0) then Invalid
    else Value(ActivationState(version, source, inactive, observed, active, None))
  }

  function ParseActivation(m: Fields, observed: bool): Read<Activation> {
    var id :- Text(m, Id);
    var started :- Number(m, StartedAt);
    var deadline :- Number(m, Deadline);
    if !observed || deadline <= started || deadline - started > MAX_BUDGET then Invalid
        else Value(Activation(id, started, deadline))
  }

  function ParseRun(m: Fields, c: Fields): Read<Run> {
    var id :- Text(m, Id);
    var release :- Text(m, Release);
    var activationId :- Text(c, RunActivationId);
    var request :- Text(c, LaunchRequest);
    var name :- Text(c, RunPhase);
    var phase :- PhaseOf(name);
    if |request| > MAX_REQUEST then Invalid
    else
      var vm :- (if Exists(m, MicrovmId) then Text(m, MicrovmId) else Value(""));
      if phase == Running && vm == "" then Invalid else Value(Run(id, activationId, release, request, vm, phase))
  }

  function ParseState(reported: Fields, c: Fields): Read<State> {
    var window :- ParseWindow(c);
    var activation :- (if IsObject(reported, ActivationKey)
                       then (match ParseActivation(reported[ActivationKey].fields, window.observed)
                             case Value(a) => Value(Option.Some(a)) case Invalid => Invalid)
                       else Value(Option.None));
    var full := window.(activation := activation);
    if IsObject(reported, RunKey) then
      if activation.None? then Invalid
      else
        var run :- ParseRun(reported[RunKey].fields, c);
        Value(State(full, Some(run)))
    else if Exists(c, RunActivationId) || Exists(c, RunPhase) || Exists(c, LaunchRequest) then Invalid
    else Value(State(full, None))
  }

  function ErrorText(m: Fields): Read<string> { if Exists(m, LastError) then Text(m, LastError) else Value("") }

  function ParseReported(version: int, reported: Fields): Read<Snapshot> {
    var lifecycle :- Object(reported, LifecycleKey);
    var verifiedAt :- OptionalNumber(lifecycle, VerifiedAt);
    var lastError :- ErrorText(reported);
    if !Exists(reported, ControllerKey) then
      if IsObject(reported, ActivationKey) || IsObject(reported, RunKey) then Invalid
      else Value(Snapshot(version, verifiedAt, 0, 0, lastError, State(UNSEEN, None)))
    else
      var c :- Object(reported, ControllerKey);
      var unverifiedSince :- OptionalNumber(c, UnverifiedSince);
      var stopRequestedAt :- OptionalNumber(c, StopRequestedAt);
      var state :- ParseState(reported, c);
      Value(Snapshot(version, verifiedAt, unverifiedSince, stopRequestedAt, lastError, state))
  }

  function Parse(doc: Json): Read<Snapshot> {
    if !doc.JObj? then Invalid
    else
      var version :- Number(doc.fields, Version);
      var state :- Object(doc.fields, Document);
      var reported :- Object(state, Reported);
      ParseReported(version, reported)
  }

  // ---------------------------------------------------------------- writing

  function TextOrNull(s: string): Json { if s == "" then JNull else JStr(s) }

  function RunMetadata(s: Snapshot, now: int): Fields {
    if s.state.run.Some? then
      var r := s.state.run.value;
      var stopAt := if s.stopRequestedAt != 0 then s.stopRequestedAt else now;
      map[StopRequestedAt := if r.phase == Stopping then JInt(stopAt) else JNull,
          RunActivationId := JStr(r.activationId), RunPhase := JStr(PhaseName(r.phase)),
          LaunchRequest := JStr(r.request)]
    else map[StopRequestedAt := JNull, RunActivationId := JNull, RunPhase := JNull, LaunchRequest := JNull]
  }

  function ControllerPatch(s: Snapshot, now: int): Fields {
    var a := s.state.activation;
    map[ProjectionVersion := JInt(a.projectionVersion), SourceTimestampMs := JInt(a.sourceTimestampMs),
        InactiveObservedAt := JInt(a.inactiveObservedAt), UnverifiedSince := JInt(s.unverifiedSince),
        ObservedFlag := JBool(a.observed), ActiveFlag := JBool(a.active)] + RunMetadata(s, now)
  }

  function ActivationPatch(a: Activation): Fields {
    map[Id := JStr(a.id), StartedAt := JInt(a.startedAt), Deadline := JInt(a.deadline)]
  }

  function RunPatch(r: Run): Fields {
    map[Id := JStr(r.id), Release := JStr(r.release), MicrovmId := TextOrNull(r.vm)]
  }

  function LifecyclePatch(s: Snapshot, now: int, verifiedAt: int): Fields {
    var a := s.state.activation;
    var name :=
      if s.state.run.Some? then
        match s.state.run.value.phase {
          case Reserved => "starting"
          case Running => RUNNING
          case Stopping => STOPPING
        }
      else if a.activation.Some? && now >= a.activation.value.deadline && a.active then "expired"
      else "stopped";
    if LiveRun(s.state) then map[Document := JStr(name), VerifiedAt := JInt(verifiedAt)]
    else map[Document := JStr(name)]
  }

  function ReportedPatch(s: Snapshot, now: int, verifiedAt: int): Fields {
    map[LastError := TextOrNull(s.lastError),
        ActivationKey := if s.state.activation.activation.Some?
          then JObj(ActivationPatch(s.state.activation.activation.value)) else JNull,
        RunKey := if s.state.run.Some? then JObj(RunPatch(s.state.run.value)) else JNull,
        ControllerKey := JObj(ControllerPatch(s, now)),
        LifecycleKey := JObj(LifecyclePatch(s, now, verifiedAt))]
    + (if s.state.run.Some? && s.state.run.value.phase == Running then map[]
       else map[Endpoint := JNull, Runtime := JNull])
  }

  function Patch(s: Snapshot, now: int, verifiedAt: int): Json {
    JObj(map[Version := JInt(s.version), Document := JObj(map[Reported := JObj(ReportedPatch(s, now, verifiedAt))])])
  }

  /** A version-conditional update of the stored document; None is the conflict response. */
  function Update(doc: Json, patch: Json): Option<Json> {
    if !doc.JObj? || !patch.JObj? || Member(doc.fields, Version) != Member(patch.fields, Version)
        || !Member(doc.fields, Version).JInt? then None
    else Some(JObj(doc.fields[Version := JInt(doc.fields[Version].n + 1)]
                             [Document := MergePatch(Member(doc.fields, Document), Member(patch.fields, Document))]))
  }

  // ---------------------------------------------------------------- a save reads back

  /** The object holds every member of the patch; a null member is absent. */
  ghost predicate Carries(m: Fields, p: Fields) { forall k :: k in p ==> Member(m, k) == p[k] }

  predicate Flat(p: Fields) { forall k :: k in p ==> !p[k].JObj? }

  lemma FlatMerge(target: Json, p: Fields)
    requires Flat(p)
    ensures Carries(MergePatch(target, JObj(p)).fields, p)
  {
    forall k | k in p ensures Member(MergePatch(target, JObj(p)).fields, k) == p[k] { MergedMember(target, p, k); }
  }

  /** The members of the controller object that the window is read from. */
  lemma WindowMembers(c: Fields, s: Snapshot, now: int)
    requires Carries(c, ControllerPatch(s, now))
    ensures var a := s.state.activation;
            && Member(c, ProjectionVersion) == JInt(a.projectionVersion)
            && Member(c, SourceTimestampMs) == JInt(a.sourceTimestampMs)
            && Member(c, InactiveObservedAt) == JInt(a.inactiveObservedAt)
            && Member(c, ObservedFlag) == JBool(a.observed) && Member(c, ActiveFlag) == JBool(a.active)
  {
    hide Member;
    var p := ControllerPatch(s, now);
    assert ProjectionVersion in p && SourceTimestampMs in p && InactiveObservedAt in p && ObservedFlag in p
           && ActiveFlag in p;
  }

  lemma WindowReadsBack(c: Fields, s: Snapshot, now: int)
    requires Carries(c, ControllerPatch(s, now))
    ensures var a := s.state.activation.(activation := None);
            ParseWindow(c) == if ReadableActivation(a) then Value(a) else Invalid
  {
    hide Carries, ControllerPatch;
    WindowMembers(c, s, now);
  }

  lemma ActivationReadsBack(m: Fields, a: Activation, observed: bool)
    requires Carries(m, ActivationPatch(a))
    ensures ParseActivation(m, observed)
            == if observed && a.id != "" && 0 <= a.startedAt < a.deadline <= a.startedAt + MAX_BUDGET then Value(a)
              else Invalid
  {
    var p := ActivationPatch(a);
    assert Id in p && StartedAt in p && Deadline in p;
  }

  lemma PhaseNames(p: Phase)
    ensures PhaseOf(PhaseName(p)) == Value(p) && PhaseName(p) != ""
  {
  }

  /** The members of the run and controller objects that the run is read from. */
  lemma RunMembers(m: Fields, c: Fields, s: Snapshot, now: int)
    requires s.state.run.Some?
    requires Carries(m, RunPatch(s.state.run.value)) && Carries(c, ControllerPatch(s, now))
    ensures var r := s.state.run.value;
            && Member(m, Id) == JStr(r.id) && Member(m, Release) == JStr(r.release)
            && Member(m, MicrovmId) == TextOrNull(r.vm)
            && Member(c, RunActivationId) == JStr(r.activationId) && Member(c, RunPhase) == JStr(PhaseName(r.phase))
            && Member(c, LaunchRequest) == JStr(r.request)
  {
    hide Member, PhaseName, TextOrNull;
    var p := RunPatch(s.state.run.value);
    assert Id in p && Release in p && MicrovmId in p;
    var q := ControllerPatch(s, now);
    assert RunActivationId in q && RunPhase in q && LaunchRequest in q;
  }

  lemma RunReadsBack(m: Fields, c: Fields, s: Snapshot, now: int)
    requires s.state.run.Some? && 0 < |s.state.run.value.request| <= MAX_REQUEST
    requires Carries(m, RunPatch(s.state.run.value)) && Carries(c, ControllerPatch(s, now))
    ensures ParseRun(m, c) == if ReadableRun(s.state.run.value) then Value(s.state.run.value) else Invalid
  {
    hide Carries, ControllerPatch, RunPatch, PhaseOf, PhaseName;
    RunMembers(m, c, s, now);
    PhaseNames(s.state.run.value.phase);
  }

  function Merged(before: Fields, s: Snapshot, now: int, verifiedAt: int): Fields {
    MergePatch(JObj(before), JObj(ReportedPatch(s, now, verifiedAt))).fields
  }

  /** A flat object merged under a name is carried there. */
  lemma ObjectMerges(before: Fields, p: Fields, k: Key, q: Fields)
    requires k in p && p[k] == JObj(q) && Flat(q)
    ensures var m := MergePatch(JObj(before), JObj(p)).fields; IsObject(m, k) && Carries(m[k].fields, q)
  {
    MergedMember(JObj(before), p, k);
    FlatMerge(Member(before, k), q);
  }

  /** A null member is gone after the merge. */
  lemma NullMerges(before: Fields, p: Fields, k: Key)
    requires k in p && p[k] == JNull
    ensures k !in MergePatch(JObj(before), JObj(p)).fields
  {
    MergedMember(JObj(before), p, k);
  }

  lemma ControllerIsFlat(s: Snapshot, now: int)
    ensures Flat(ControllerPatch(s, now))
  {
    var q := RunMetadata(s, now);
    assert Flat(q);
  }

  lemma ControllerMerges(before: Fields, s: Snapshot, now: int, verifiedAt: int)
    ensures var m := Merged(before, s, now, verifiedAt);
            IsObject(m, ControllerKey) && Carries(m[ControllerKey].fields, ControllerPatch(s, now))
  {
    ControllerIsFlat(s, now);
    var p := ReportedPatch(s, now, verifiedAt);
    assert p[ControllerKey] == JObj(ControllerPatch(s, now));
    hide ReportedPatch, ControllerPatch, MergePatch, Carries;
    ObjectMerges(before, p, ControllerKey, ControllerPatch(s, now));
  }

  lemma ActivationMerges(before: Fields, s: Snapshot, now: int, verifiedAt: int)
    ensures var m := Merged(before, s, now, verifiedAt);
            if s.state.activation.activation.Some?
            then IsObject(m, ActivationKey)
              && Carries(m[ActivationKey].fields, ActivationPatch(s.state.activation.activation.value))
            else !IsObject(m, ActivationKey)
  {
    var p := ReportedPatch(s, now, verifiedAt);
    var a := s.state.activation.activation;
    assert p[ActivationKey] == if a.Some? then JObj(ActivationPatch(a.value)) else JNull;
    hide ReportedPatch, MergePatch, Carries;
    if a.Some? { ObjectMerges(before, p, ActivationKey, ActivationPatch(a.value)); }
        else { NullMerges(before, p, ActivationKey); }
  }

  lemma RunMerges(before: Fields, s: Snapshot, now: int, verifiedAt: int)
    ensures var m := Merged(before, s, now, verifiedAt);
            if s.state.run.Some? then IsObject(m, RunKey) && Carries(m[RunKey].fields, RunPatch(s.state.run.value))
                else !IsObject(m, RunKey)
  {
    var p := ReportedPatch(s, now, verifiedAt);
    assert p[RunKey] == if s.state.run.Some? then JObj(RunPatch(s.state.run.value)) else JNull;
    hide ReportedPatch, MergePatch, Carries;
    if s.state.run.Some? { ObjectMerges(before, p, RunKey, RunPatch(s.state.run.value)); }
        else { NullMerges(before, p, RunKey); }
  }

  lemma NoRunMetadata(c: Fields, s: Snapshot, now: int)
    requires s.state.run.None? && Carries(c, ControllerPatch(s, now))
    ensures !Exists(c, RunActivationId) && !Exists(c, RunPhase) && !Exists(c, LaunchRequest)
  {
    var q := ControllerPatch(s, now);
    assert RunActivationId in q && RunPhase in q && LaunchRequest in q;
  }

  /** The merged record's state: exactly the saved one, and unreadable exactly when the saved one is not well formed. */
  lemma StateReadsBack(before: Fields, s: Snapshot, now: int, verifiedAt: int)
    requires PatchOk(s, now, verifiedAt)
    ensures var m := Merged(before, s, now, verifiedAt);
            && IsObject(m, ControllerKey)
            && ParseState(m, m[ControllerKey].fields) == if ReadableState(s.state) then Value(s.state) else Invalid
  {
    var m := Merged(before, s, now, verifiedAt);
    ControllerMerges(before, s, now, verifiedAt);
    ActivationMerges(before, s, now, verifiedAt);
    RunMerges(before, s, now, verifiedAt);
    hide Merged, Carries, ControllerPatch, ActivationPatch, RunPatch, ParseWindow, ParseActivation, ParseRun;
    var c := m[ControllerKey].fields;
    WindowReadsBack(c, s, now);
    var a := s.state.activation;
    if a.activation.Some? { ActivationReadsBack(m[ActivationKey].fields, a.activation.value, a.observed); }
    if s.state.run.Some? { RunReadsBack(m[RunKey].fields, c, s, now); } else { NoRunMetadata(c, s, now); }
  }

  lemma ErrorReadsBack(before: Fields, s: Snapshot, now: int, verifiedAt: int)
    ensures ErrorText(Merged(before, s, now, verifiedAt)) == Value(s.lastError)
  {
    var p := ReportedPatch(s, now, verifiedAt);
    assert p[LastError] == TextOrNull(s.lastError);
    MergedMember(JObj(before), p, LastError);
  }

  /** The verification time is the saved one for a live run and otherwise keeps its old value. */
  lemma VerifiedReadsBack(before: Fields, s: Snapshot, now: int, verifiedAt: int)
    requires PatchOk(s, now, verifiedAt) && IsObject(before, LifecycleKey)
    ensures var m := Merged(before, s, now, verifiedAt);
            && IsObject(m, LifecycleKey)
            && OptionalNumber(m[LifecycleKey].fields, VerifiedAt)
               == if LiveRun(s.state) then Value(verifiedAt)
                 else OptionalNumber(before[LifecycleKey].fields, VerifiedAt)
  {
    var p, l := ReportedPatch(s, now, verifiedAt), LifecyclePatch(s, now, verifiedAt);
    assert p[LifecycleKey] == JObj(l);
    assert VerifiedAt in l <==> LiveRun(s.state);
    assert VerifiedAt in l ==> l[VerifiedAt] == JInt(verifiedAt);
    hide ReportedPatch, LifecyclePatch;
    MergedMember(JObj(before), p, LifecycleKey);
    MergedMember(before[LifecycleKey], l, VerifiedAt);
  }

  lemma StopTimeReadsBack(c: Fields, s: Snapshot, now: int, verifiedAt: int)
    requires PatchOk(s, now, verifiedAt) && Carries(c, ControllerPatch(s, now))
    ensures OptionalNumber(c, UnverifiedSince) == Value(s.unverifiedSince)
    ensures OptionalNumber(c, StopRequestedAt) == Value(StopTime(s, now))
  {
    var q := ControllerPatch(s, now);
    assert UnverifiedSince in q && StopRequestedAt in q;
  }

  /** The merged `reported` object reads as the stored record. */
  lemma ReportedReadsBack(before: Fields, s: Snapshot, now: int, verifiedAt: int, version: int)
    requires PatchOk(s, now, verifiedAt) && ParseReported(version, before).Value?
    ensures ParseReported(version + 1, Merged(before, s, now, verifiedAt))
            == if ReadableState(s.state) then Value(Stored(ParseReported(version, before).v, s, now, verifiedAt))
              else Invalid
  {
    hide Merged, ControllerPatch, ParseState, Carries, ReadableState, OptionalNumber, StopTime, LiveRun, PatchOk,
      ParseReported, ErrorText;
    var m := Merged(before, s, now, verifiedAt);
    ReadableParts(version, before);
    StateReadsBack(before, s, now, verifiedAt);
    ErrorReadsBack(before, s, now, verifiedAt);
    VerifiedReadsBack(before, s, now, verifiedAt);
    ControllerMerges(before, s, now, verifiedAt);
    StopTimeReadsBack(m[ControllerKey].fields, s, now, verifiedAt);
    JoinedParts(version + 1, m);
  }

  /** What a readable `reported` object contains. */
  lemma ReadableParts(version: int, m: Fields)
    requires ParseReported(version, m).Value?
    ensures IsObject(m, LifecycleKey)
            && OptionalNumber(m[LifecycleKey].fields, VerifiedAt) == Value(ParseReported(version, m).v.verifiedAt)
    ensures ParseReported(version, m).v.version == version
  {
    hide ParseState, Text;
  }

  /** Reading a `reported` object is reading its parts. */
  lemma JoinedParts(version: int, m: Fields)
    requires IsObject(m, LifecycleKey) && IsObject(m, ControllerKey)
    requires OptionalNumber(m[LifecycleKey].fields, VerifiedAt).Value? && ErrorText(m).Value?
    requires OptionalNumber(m[ControllerKey].fields, UnverifiedSince).Value?
             && OptionalNumber(m[ControllerKey].fields, StopRequestedAt).Value?
    ensures var c := m[ControllerKey].fields;
            ParseReported(version, m)
            == match ParseState(m, c)
               case Invalid => Invalid
               case Value(state) =>
                 Value(Snapshot(version, OptionalNumber(m[LifecycleKey].fields, VerifiedAt).v,
                                OptionalNumber(c, UnverifiedSince).v,
                                OptionalNumber(c, StopRequestedAt).v, ErrorText(m).v, state))
  {
    hide ParseState, OptionalNumber, Text;
  }

  /**
   * Saving a snapshot over any readable document of the version it was read at and reading the result back yields
   * the stored record `Stored(before, ...)` if the snapshot is well formed, and an unreadable document otherwise.
   */
  lemma SaveReadsBack(doc: Json, s: Snapshot, now: int, verifiedAt: int)
    requires Parse(doc).Value? && Parse(doc).v.version == s.version && PatchOk(s, now, verifiedAt)
    ensures match Update(doc, Patch(s, now, verifiedAt))
            case None => false
            case Some(after) =>
              Parse(after) == if ReadableState(s.state) then Value(Stored(Parse(doc).v, s, now, verifiedAt))
                else Invalid
  {
    hide Parse, ReportedPatch, ParseState, ReadableState, PatchOk, ParseReported, Update, MergePatch;
    ParsedParts(doc);
    var reported := doc.fields[Document].fields[Reported].fields;
    ReportedReadsBack(reported, s, now, verifiedAt, s.version);
    UpdatedDocument(doc, s.version, ReportedPatch(s, now, verifiedAt));
  }

  lemma ParsedParts(doc: Json)
    requires Parse(doc).Value?
    ensures doc.JObj? && IsObject(doc.fields, Document) && IsObject(doc.fields[Document].fields, Reported)
    ensures Parse(doc).v.version >= 0 && Member(doc.fields, Version) == JInt(Parse(doc).v.version)
    ensures Parse(doc) == ParseReported(Parse(doc).v.version, doc.fields[Document].fields[Reported].fields)
  {
    ReadableParts(doc.fields[Version].n, doc.fields[Document].fields[Reported].fields);
    hide ParseReported;
  }

  /** Where an update of the `reported` object leaves it. */
  lemma UpdatedDocument(doc: Json, version: int, p: Fields)
    requires doc.JObj? && IsObject(doc.fields, Document) && IsObject(doc.fields[Document].fields, Reported)
    requires Member(doc.fields, Version) == JInt(version) && version >= 0
    ensures var after := Update(doc, JObj(map[Version := JInt(version), Document := JObj(map[Reported := JObj(p)])]));
            && after.Some?
            && Parse(after.value) == ParseReported(version + 1,
                                                   MergePatch(doc.fields[Document].fields[Reported], JObj(p)).fields)
  {
    MergedMember(doc.fields[Document], map[Reported := JObj(p)], Reported);
    hide MergePatch, ParseReported;
  }

  // ---------------------------------------------------------------- a runtime sample leaves the record alone

  /**
   * What a healthy runtime sample writes: the endpoint and the runtime's own status, nothing the record is read from.
   */
  function SamplePatch(version: int, endpoint: string, runtime: Fields): Json {
    JObj(map[Version := JInt(version),
             Document := JObj(map[Reported := JObj(map[Endpoint := JStr(endpoint), Runtime := JObj(runtime)])])])
  }

  /** Two `reported` objects with the same members under the names the record is read from. */
  predicate SameRecord(m: Fields, n: Fields) {
    && Member(m, LifecycleKey) == Member(n, LifecycleKey) && Member(m, LastError) == Member(n, LastError)
    && Member(m, ControllerKey) == Member(n, ControllerKey) && Member(m, ActivationKey) == Member(n, ActivationKey)
    && Member(m, RunKey) == Member(n, RunKey)
  }

  lemma SameState(m: Fields, n: Fields, c: Fields)
    requires SameRecord(m, n)
    ensures ParseState(m, c) == ParseState(n, c)
  {
    hide ParseWindow, ParseActivation, ParseRun;
  }

  lemma SameReading(m: Fields, n: Fields, version: int)
    requires SameRecord(m, n) && ParseReported(version, m).Value?
    ensures ParseReported(version + 1, n) == Value(ParseReported(version, m).v.(version := version + 1))
  {
    if Exists(m, ControllerKey) && m[ControllerKey].JObj? { SameState(m, n, m[ControllerKey].fields); }
    hide ParseState, OptionalNumber;
  }

  /** After a runtime sample is written, the record reads as before, one version on. */
  lemma SampleLeavesRecord(doc: Json, endpoint: string, runtime: Fields)
    requires Parse(doc).Value?
    ensures match Update(doc, SamplePatch(Parse(doc).v.version, endpoint, runtime))
            case None => false
            case Some(after) => Parse(after) == Value(Parse(doc).v.(version := Parse(doc).v.version + 1))
  {
    hide Parse, ParseReported, Update;
    ParsedParts(doc);
    var reported := doc.fields[Document].fields[Reported];
    var p: Fields := map[Endpoint := JStr(endpoint), Runtime := JObj(runtime)];
    assert MergePatch(reported, JObj(p)).JObj?;
    hide MergePatch;
    UpdatedDocument(doc, Parse(doc).v.version, p);
    MergedMember(reported, p, LifecycleKey);
    MergedMember(reported, p, LastError);
    MergedMember(reported, p, ControllerKey);
    MergedMember(reported, p, ActivationKey);
    MergedMember(reported, p, RunKey);
    SameReading(reported.fields, MergePatch(reported, JObj(p)).fields, Parse(doc).v.version);
  }
}
