/** The persisted run reservation and its transitions (agent/src/controller.cpp, agent/src/microvm.cpp). */
module Controller {
  import opened Common
  import opened Activations

  datatype Phase = Reserved | Running | Stopping

  datatype Run = Run(id: string, activationId: string, release: string, request: string, vm: string, phase: Phase)

  datatype State = State(activation: ActivationState, run: Option<Run>)

  datatype Lifecycle = LifecycleActive | LifecycleInactive | LifecycleUnavailable

  datatype LaunchResult = Accepted | AlreadyKnown | PendingVerification | StopUnassigned

  datatype ReserveResult = ReservedRun(next: State) | NotReserved | InvalidReservation

  const MAX_REQUEST := 2048

  function IndexOfDot(value: string): (i: nat)
    ensures i <= |value|
  {
    if value == "" || value[0] == '.' then 0 else 1 + IndexOfDot(value[1..])
  }

  predicate NumericPart(part: string) {
    part != "" && (|part| > 1 ==> part[0] != '0') && forall i :: 0 <= i < |part| ==> '0' <= part[i] <= '9'
  }

  /** The remaining text after `parts` parts completes a three-part numeric release. */
  predicate CompletesRelease(value: string, parts: nat)
    decreases |value|
  {
    if value == "" then false
    else
      var end := IndexOfDot(value);
      && NumericPart(value[..end])
      && if end == |value| then parts + 1 == 3 else CompletesRelease(value[end + 1..], parts + 1)
  }

  predicate ValidRelease(value: string) { CompletesRelease(value, 0) }

  /** The library search for the next dot, or the end. */
  method FindDot(value: string, start: nat) returns (end: nat)
    requires start <= |value|
    ensures end == start + IndexOfDot(value[start..]) && start <= end <= |value|
  {
    end := start;
    while end < |value| && value[end] != '.'
      invariant start <= end <= |value|
      invariant IndexOfDot(value[start..]) == end - start + IndexOfDot(value[end..])
    {
      assert value[end..][1..] == value[end + 1..];
      end := end + 1;
    }
  }

  /** The source's loop over the parts. */
  method CheckRelease(value: string) returns (valid: bool)
    ensures valid == ValidRelease(value)
  {
    hide IndexOfDot, NumericPart;
    var parts, start := 0, 0;
    while start < |value|
      invariant start <= |value|
      invariant ValidRelease(value) == CompletesRelease(value[start..], parts)
    {
      var end := FindDot(value, start);
      assert value[start..][..end - start] == value[start..end];
      if !NumericPart(value[start..end]) { return false; }
      parts := parts + 1;
      if end == |value| { return parts == 3; }
      assert value[start..][end - start + 1..] == value[end + 1..];
      start := end + 1;
    }
    return false;
  }

  predicate ThreeParts(value: string, a: string, b: string, c: string) {
    NumericPart(a) && NumericPart(b) && NumericPart(c) && value == a + "." + b + "." + c
  }

  lemma {:induction false} FirstPart(part: string, rest: string)
    requires '.' !in part && (rest == "" || rest[0] == '.')
    ensures IndexOfDot(part + rest) == |part|
  {
    if part == "" {
      assert part + rest == rest;
    } else {
      assert (part + rest)[1..] == part[1..] + rest;
      FirstPart(part[1..], rest);
    }
  }

  lemma {:induction false} DotIsFirst(value: string)
    ensures IndexOfDot(value) < |value| ==> value[IndexOfDot(value)] == '.'
  {
    if value != "" && value[0] != '.' { DotIsFirst(value[1..]); }
  }

  /** A part and what follows its dot. */
  lemma PartCompletes(part: string, rest: string, parts: nat)
    requires NumericPart(part)
    ensures CompletesRelease(part + "." + rest, parts) == CompletesRelease(rest, parts + 1)
    ensures CompletesRelease(part, parts) == (parts == 2)
  {
    FirstPart(part, "." + rest);
    assert part + ("." + rest) == part + "." + rest;
    assert (part + "." + rest)[..|part|] == part && (part + "." + rest)[|part| + 1..] == rest;
    FirstPart(part, "");
    assert part + "" == part && part[..|part|] == part;
  }

  lemma {:induction false} NoFourth(value: string, parts: nat)
    requires parts >= 3
    ensures !CompletesRelease(value, parts)
    decreases |value|
  {
    var end := IndexOfDot(value);
    if end < |value| { NoFourth(value[end + 1..], parts + 1); }
  }

  /** The first part of a text that completes a release, before its third part. */
  lemma Peel(value: string, parts: nat) returns (part: string, rest: string)
    requires CompletesRelease(value, parts) && parts < 2
    ensures NumericPart(part) && value == part + "." + rest && CompletesRelease(rest, parts + 1)
  {
    var i := IndexOfDot(value);
    DotIsFirst(value);
    part, rest := value[..i], value[i + 1..];
  }

  lemma LastPart(value: string)
    requires CompletesRelease(value, 2)
    ensures NumericPart(value)
  {
    var i := IndexOfDot(value);
    if i < |value| { NoFourth(value[i + 1..], 3); }
    assert value[..|value|] == value;
  }

  /** Valid releases are exactly three numbers without leading zeros, joined by dots. */
  lemma ReleasesAreThreeNumbers(value: string)
    ensures ValidRelease(value) <==> exists a, b, c :: ThreeParts(value, a, b, c)
  {
    hide CompletesRelease, NumericPart;
    if exists a, b, c :: ThreeParts(value, a, b, c) {
      var a, b, c :| ThreeParts(value, a, b, c);
      assert value == a + "." + (b + "." + c);
      PartCompletes(a, b + "." + c, 0);
      PartCompletes(b, c, 1);
      PartCompletes(c, "", 2);
    }
    if ValidRelease(value) {
      var a, rest := Peel(value, 0);
      var b, c := Peel(rest, 1);
      LastPart(c);
      assert value == a + "." + b + "." + c;
      assert ThreeParts(value, a, b, c);
    }
  }

  /** The run belongs to the activation on record, and that activation is unexpired. */
  predicate OwnActivationAuthorized(s: State, now: int) {
    && s.run.Some? && Authorized(s.activation, now)
    && s.run.value.activationId == s.activation.activation.value.id
  }

  function Stop(s: State): State {
    if s.run.None? then s else s.(run := Some(s.run.value.(phase := Stopping)))
  }

  function Reserve(s: State, current: Lifecycle, now: int, runId: string, release: string,
                   request: string): ReserveResult {
    if s.run.Some? || current != LifecycleActive || !Authorized(s.activation, now) then NotReserved
    else if !ValidIdentity(runId) || !ValidRelease(release) || request == ""
        || |request| > MAX_REQUEST then InvalidReservation
    else ReservedRun(s.(run := Some(Run(runId, s.activation.activation.value.id, release, request, "", Reserved))))
  }

  /** The launched VM does not belong to the reservation on record. */
  predicate Foreign(s: State, runId: string, vm: string) {
    s.run.None? || s.run.value.id != runId || (s.run.value.vm != "" && s.run.value.vm != vm)
  }

  function AcceptLaunch(s: State, runId: string, vm: string, hostRunning: bool, current: Lifecycle, now: int): (State,
      LaunchResult) {
    if Foreign(s, runId, vm) then (s, StopUnassigned)
    else
      var bound := s.(run := Some(s.run.value.(vm := vm)));
      if current == LifecycleInactive || !OwnActivationAuthorized(bound, now) || bound.run.value.phase == Stopping then
        (Stop(bound), StopUnassigned)
      else if current == LifecycleUnavailable || !hostRunning then (bound, PendingVerification)
      else if s.run.value.vm == vm && s.run.value.phase == Running then (bound, AlreadyKnown)
      else (bound.(run := Some(bound.run.value.(phase := Running))), Accepted)
  }

  function Fence(s: State, current: Lifecycle, now: int): State {
    if s.run.Some? && (current == LifecycleInactive || !OwnActivationAuthorized(s, now)) then Stop(s) else s
  }

  /** The record once the run is confirmed stopped; None when it is not the named stopping run. */
  function ConfirmStopped(s: State, runId: string, vm: string): Option<State> {
    if s.run.None? || s.run.value.id != runId || s.run.value.phase != Stopping || s.run.value.vm == ""
        || s.run.value.vm != vm
    then None else Some(s.(run := None))
  }

  // ---------------------------------------------------------------- the runtime's reading of the record

  datatype Assignment = Assignment(id: string, runId: string, activationId: string, deadline: int)

  datatype RuntimeLifecycle = Born(redcon: int) | NotBorn | AssignmentPending | StaleProjection

  function AssignedLifecycle(run: Assignment, o: Observation, s: State): RuntimeLifecycle {
    if s.run.None? || s.run.value.id != run.runId || s.activation.activation.None?
       || s.activation.activation.value.id != run.activationId || s.activation.activation.value.deadline != run.deadline
       || s.run.value.activationId != run.activationId || s.run.value.phase == Stopping then NotBorn
    else if s.run.value.phase == Reserved && (s.run.value.vm == "" || s.run.value.vm == run.id) then AssignmentPending
    else if s.run.value.phase != Running || s.run.value.vm != run.id then NotBorn
    else if o.active != Some(true) || o.redcon < 1 || o.redcon > 2 then NotBorn
    else if !MatchesActive(s.activation, o) then StaleProjection
    else Born(o.redcon)
  }

  // ---------------------------------------------------------------- update in place

  datatype Throwing<T> = Returned(value: T) | Raised

  /** The record the source passes by reference; each method updates its fields in place. */
  class ControllerCell {
    var projectionVersion: nat
    var sourceTimestampMs: int
    var inactiveObservedAt: int
    var observed: bool
    var active: bool
    var activation: Option<Activation>
    var run: Option<Run>

    function Window(): ActivationState
      reads this
    {
      ActivationState(projectionVersion, sourceTimestampMs, inactiveObservedAt, observed, active, activation)
    }

    function Record(): State
      reads this
    {
      State(Window(), run)
    }

    constructor (s: State)
      ensures Record() == s
    {
      projectionVersion, sourceTimestampMs := s.activation.projectionVersion, s.activation.sourceTimestampMs;
      inactiveObservedAt, observed := s.activation.inactiveObservedAt, s.activation.observed;
      active, activation, run := s.activation.active, s.activation.activation, s.run;
    }

    method ObserveActivation(o: Observation, now: int, budget: int, newId: Option<string>) returns (r: Throwing<Change>)
      modifies this
      ensures run == old(run)
      ensures match Observe(old(Window()), o, now, budget, newId)
              case Threw => r.Raised? && Window() == old(Window())
              case Observed(next, change) => r == Returned(change) && Window() == next
    {
      if o.active.None? || o.version == 0 || o.sourceTimestampMs <= 0 || now < 0 { return Returned(Unverified); }
      if observed && o.version <= projectionVersion {
        if o.version != projectionVersion || o.active.value != active || o.sourceTimestampMs != sourceTimestampMs {
          return Returned(Stale);
        }
        if !active && now > inactiveObservedAt { inactiveObservedAt := now; }
        return Returned(Unchanged);
      }
      if observed && o.sourceTimestampMs <= sourceTimestampMs { return Returned(Stale); }
      var isActive := o.active.value;
      var next := None;
      if isActive && observed && !active {
        var started := inactiveObservedAt;
        if started <= 0 || started > now || budget <= 0 || budget > MAX_BUDGET || started > INT64_MAX - budget
            || newId.None? {
          return Raised;
        }
        var id := newId.value;
        if !ValidIdentity(id) || (activation.Some? && id == activation.value.id) { return Raised; }
        next := Some(Activation(id, started, started + budget));
      }
      projectionVersion := o.version;
      sourceTimestampMs := o.sourceTimestampMs;
      observed := true;
      active := isActive;
      if !isActive { inactiveObservedAt := now; }
      if next.Some? {
        activation := next;
        return Returned(Activated);
      }
      return Returned(if isActive then Unchanged else Inactive);
    }

    method ReserveRun(current: Lifecycle, now: int, runId: string, release: string, request: string)
      returns (r: Throwing<bool>)
      modifies this`run
      ensures match Reserve(old(Record()), current, now, runId, release, request)
              case ReservedRun(next) => r == Returned(true) && Record() == next
              case NotReserved => r == Returned(false) && Record() == old(Record())
              case InvalidReservation => r.Raised? && Record() == old(Record())
    {
      if run.Some? || current != LifecycleActive || !Authorized(Window(), now) { return Returned(false); }
      var releaseOk := CheckRelease(release);
      if !ValidIdentity(runId) || !releaseOk || request == "" || |request| > MAX_REQUEST { return Raised; }
      run := Some(Run(runId, activation.value.id, release, request, "", Reserved));
      return Returned(true);
    }

    method AcceptLaunched(runId: string, vm: string, hostRunning: bool, current: Lifecycle, now: int)
      returns (r: Throwing<LaunchResult>)
      modifies this`run
      ensures if vm == "" then r.Raised? && Record() == old(Record())
              else && r.Returned?
                   && (Record(), r.value) == AcceptLaunch(old(Record()), runId, vm, hostRunning, current, now)
    {
      if vm == "" { return Raised; }
      if run.None? || run.value.id != runId
          || (run.value.vm != "" && run.value.vm != vm) { return Returned(StopUnassigned); }
      var alreadyKnown := run.value.vm == vm;
      run := Some(run.value.(vm := vm));
      if current == LifecycleInactive || !Authorized(Window(), now) || run.value.activationId != activation.value.id
         || run.value.phase == Stopping {
        run := Some(run.value.(phase := Stopping));
        return Returned(StopUnassigned);
      }
      if current == LifecycleUnavailable || !hostRunning { return Returned(PendingVerification); }
      if alreadyKnown && run.value.phase == Running { return Returned(AlreadyKnown); }
      run := Some(run.value.(phase := Running));
      return Returned(Accepted);
    }

    method FenceRun(current: Lifecycle, now: int)
      modifies this`run
      ensures Record() == Fence(old(Record()), current, now)
    {
      if run.Some? && (current == LifecycleInactive || !Authorized(Window(), now)
                       || run.value.activationId != activation.value.id) {
        run := Some(run.value.(phase := Stopping));
      }
    }

    method ConfirmRunStopped(runId: string, vm: string) returns (cleared: bool)
      modifies this`run
      ensures var next := ConfirmStopped(old(Record()), runId, vm);
              cleared == next.Some? && Record() == if cleared then next.value else old(Record())
    {
      if run.None? || run.value.id != runId || run.value.phase != Stopping || run.value.vm == ""
          || run.value.vm != vm { return false; }
      run := None;
      return true;
    }
  }
}
