/**
 * Every writer of the controller shadow as a small-step program: between two backend calls a program only computes,
 * so its program counter names the call it is about to make together with the locals that survive the call.
 * (agent/src/reconcile.cpp `reconcile`, `orphan_action`, `bind_stopping_orphan`; agent/src/controller_handler.cpp.)
 */
module Programs {
  import opened Common
  import opened Activations
  import opened Controller
  import opened Snapshots
  import opened PassClock

  datatype Host = Pending | HostRunning | Suspending | Suspended | Terminating | Terminated | OtherHost

  predicate LiveHost(h: Host) { h.Pending? || h.HostRunning? || h.Suspending? || h.Suspended? }

  datatype Result = Settled | Again | Conflict

  /** The authenticated status document of a runtime, reduced to the fields that are compared. */
  datatype Report = Report(stopped: bool, ownThing: bool, runId: string, vm: string, activationId: string)

  /** The pass's edited snapshot on its way to the main save; `vouched`: the runtime was verified in this pass. */
  datatype Draft = Draft(s: Snapshot, current: Lifecycle, at: int, vouched: bool)

  datatype Config = Config(now: int, release: string, budget: int)

  datatype Request =
    | Nothing
    | Read
    | AskSupported
    | AskProjection
    | AskVerified
    | NewIdentity
    | MakeRequest(runId: string, at: int)
    | Save(s: Snapshot, now: int, verifiedAt: int)
    | SaveNow(s: Snapshot)
    | Touch(version: int)
    | Launch(run: Run)
    | GetHost(vm: string)
    | Status(vm: string)
    | Terminate(vm: string)
    | ReadClock

  datatype Reply =
    | Snap(s: Snapshot)
    | Flag(flag: Option<bool>)
    | Projection(o: Option<Observation>)
    | Identity(id: string)
    | Text(text: string)
    | Saved(ok: bool)
    | Vm(vm: string)
    | HostIs(vm: string, host: Host)
    | StatusIs(report: Report)
    | Done
    | Time(sampled: int, steady: int)
    | Raise(applied: bool)

  /** `reconcile` reading the registry and the lifecycle. */
  datatype GatherPc =
    | AtRead
    | AtSupported(s: Snapshot)
    | AtProjection(s: Snapshot)
    | AtActivationId(s: Snapshot, o: Observation)

  /** `reconcile` timing an unverifiable lifecycle. */
  datatype TimingPc =
    | AtDecisionClock(s: Snapshot)
    | AtVouch(s: Snapshot)
    | AtDeferClock(s: Snapshot, mayDefer: bool)

  /** `reconcile` reserving a run and saving. */
  datatype ReservePc =
    | AtRunId(d: Draft)
    | AtRequest(d: Draft, id: string)
    | AtMainSave(d: Draft)

  /** `reconcile` launching a stored reservation and recording the VM. */
  datatype LaunchPc =
    | AtLaunchClock(d: Draft, run: Run)
    | AtExpiredRead(run: Run, t: int)
    | AtExpiredSave(s: Snapshot, t: int)
    | AtLaunch(d: Draft, run: Run, t: int)
    | AtRecordRead(run: Run, vm: string, attempt: nat)
    | AtRecordClock(run: Run, vm: string, attempt: nat, s: Snapshot)
    | AtRecordSave(run: Run, vm: string, attempt: nat, s: Snapshot, t: int, result: LaunchResult)

  /** `reconcile` following the state of a recorded VM. */
  datatype HostPc =
    | AtGet(d: Draft, run: Run)
    | AtTerminalRead(run: Run)
    | AtTerminalSave(s: Snapshot)
    | AtHostRead(run: Run, host: Host)
    | AtHostSave(run: Run, host: Host, s: Snapshot)

  /** `reconcile` promoting a reserved run to running. */
  datatype AssignPc =
    | AtConfirmSupported(d: Draft, run: Run)
    | AtConfirmProjection(d: Draft, run: Run, supported: Option<bool>)
    | AtVerifyClock(d: Draft, run: Run)
    | AtAssignRead(d: Draft, run: Run, verifiedAt: int)
    | AtAssignClock(d: Draft, run: Run, verifiedAt: int, s: Snapshot)
    | AtAssignSave(run: Run, s: Snapshot, t: int, verifiedAt: int, result: LaunchResult)

  /** Runtime samples, diagnostics and disabled-mode fencing. */
  datatype SamplePc =
    | AtSampleRead
    | AtSampleGet(run: Run)
    | AtSampleStatus(run: Run)
    | AtSampleReread(run: Run, report: Report)
    | AtSamplePatch(version: int)
    | AtNoteRead(onlyRunning: bool, text: string)
    | AtFenceRead(text: string)
    | AtKnownRead(text: string)
    | AtKnownDescribe(s: Snapshot, run: Run)

  datatype OrphanPc =
    | AtOrphanGet(vm: string)
    | AtOrphanStatus(vm: string)
    | AtOrphanSupported(vm: string, report: Report)
    | AtOrphanRead(vm: string, report: Report, supported: Option<bool>)
    | AtOrphanClock(vm: string, report: Report, supported: Option<bool>, s: Snapshot)
    | AtOrphanProjection(vm: string, report: Report, supported: Option<bool>, s: Snapshot, t: int)

  datatype Pc =
    | Gathering(g: GatherPc)
    | Timing(t: TimingPc)
    | Reserving(r: ReservePc)
    | Launching(l: LaunchPc)
    | Hosting(h: HostPc)
    | Assigning(a: AssignPc)
    | Sampling(m: SamplePc)
    | Orphaning(o: OrphanPc)
    | AtTerminate(vm: string)
    | AtHandlerSave(s: Snapshot, thenStop: string)
    | Finished(outcome: Result)
    | Failed

  /** One invocation: its parameters, its clock, where it is, and the VM its launch returned, if any. */
  datatype Pass = Pass(cfg: Config, clock: Clock, pc: Pc, launched: string)

  const UNVERIFIABLE := "registry or lifecycle verification unavailable or stale"
  const UNDECLARED := "agent capability is not declared"

  function Start(cfg: Config): Pc {
    if cfg.now <= 0 || cfg.release == "" || cfg.budget < 1 || cfg.budget > MAX_BUDGET then Failed else Gathering(AtRead)
  }

  function GatherDemand(pc: GatherPc): Request {
    match pc
    case AtRead => Read
    case AtSupported(_) => AskSupported
    case AtProjection(_) => AskProjection
    case AtActivationId(_, _) => NewIdentity
  }

  function ReserveDemand(pc: ReservePc): Request {
    match pc
    case AtRunId(_) => NewIdentity
    case AtRequest(d, id) => MakeRequest(id, d.at)
    case AtMainSave(d) => Save(d.s, d.at, d.s.verifiedAt)
  }

  function LaunchDemand(pc: LaunchPc): Request {
    match pc
    case AtLaunchClock(_, _) => ReadClock
    case AtExpiredRead(_, _) => Read
    case AtExpiredSave(s, t) => Save(s, t, s.verifiedAt)
    case AtLaunch(_, run, _) => Launch(run)
    case AtRecordRead(_, _, _) => Read
    case AtRecordClock(_, _, _, _) => ReadClock
    case AtRecordSave(_, _, _, s, t, _) => Save(s, t, s.verifiedAt)
  }

  function HostDemand(cfg: Config, pc: HostPc): Request {
    match pc
    case AtGet(_, run) => GetHost(run.vm)
    case AtTerminalRead(_) => Read
    case AtTerminalSave(s) => Save(s, cfg.now, s.verifiedAt)
    case AtHostRead(_, _) => Read
    case AtHostSave(_, _, s) => Save(s, cfg.now, s.verifiedAt)
  }

  function AssignDemand(pc: AssignPc): Request {
    match pc
    case AtConfirmSupported(_, _) => AskSupported
    case AtConfirmProjection(_, _, _) => AskProjection
    case AtVerifyClock(_, _) => ReadClock
    case AtAssignRead(_, _, _) => Read
    case AtAssignClock(_, _, _, _) => ReadClock
    case AtAssignSave(_, s, t, verifiedAt, _) => Save(s, t, verifiedAt)
  }

  function SampleDemand(pc: SamplePc): Request {
    match pc
    case AtSampleRead => Read
    case AtSampleGet(run) => GetHost(run.vm)
    case AtSampleStatus(run) => Status(run.vm)
    case AtSampleReread(_, _) => Read
    case AtSamplePatch(version) => Touch(version)
    case AtNoteRead(_, _) => Read
    case AtFenceRead(_) => Read
    case AtKnownRead(_) => Read
    case AtKnownDescribe(_, run) => GetHost(run.vm)
  }

  function OrphanDemand(pc: OrphanPc): Request {
    match pc
    case AtOrphanGet(vm) => GetHost(vm)
    case AtOrphanStatus(vm) => Status(vm)
    case AtOrphanSupported(_, _) => AskSupported
    case AtOrphanRead(_, _, _) => Read
    case AtOrphanClock(_, _, _, _) => ReadClock
    case AtOrphanProjection(_, _, _, _, _) => AskProjection
  }

  /** The backend call the program is about to make. */
  function Demand(p: Pass): Request {
    match p.pc
    case Gathering(g) => GatherDemand(g)
    case Timing(t) => if t.AtVouch? then AskVerified else ReadClock
    case Reserving(r) => ReserveDemand(r)
    case Launching(l) => LaunchDemand(l)
    case Hosting(h) => HostDemand(p.cfg, h)
    case Assigning(a) => AssignDemand(a)
    case Sampling(m) => SampleDemand(m)
    case Orphaning(o) => OrphanDemand(o)
    case AtTerminate(vm) => Terminate(vm)
    case AtHandlerSave(s, _) => SaveNow(s)
    case Finished(_) => Nothing
    case Failed => Nothing
  }

  // ---------------------------------------------------------------- reconcile, up to its main save

  function StopRun(s: Snapshot): Snapshot { s.(state := Stop(s.state)) }

  /** Lines 38-57: the recorded diagnosis, and whether the unverifiable interval has to be timed. */
  function Judge(cfg: Config, s: Snapshot, supported: Option<bool>, current: Lifecycle): Pc {
    var noted := s.(lastError := if current == LifecycleUnavailable then UNVERIFIABLE
                                 else if supported == Some(false) then UNDECLARED else "");
    if current == LifecycleUnavailable && noted.state.run.Some? then Timing(AtDecisionClock(noted))
    else Settle(cfg, Draft(noted.(unverifiedSince := 0), current, cfg.now, false))
  }

  function AfterObserve(cfg: Config, s: Snapshot, o: Observation, r: ObserveResult): Pc {
    if r.Threw? then Failed
    else
      var seen := s.(state := s.state.(activation := r.next));
      if r.change == Unverified || r.change == Stale then Judge(cfg, seen, Some(true), LifecycleUnavailable)
      else Judge(cfg, seen.(verifiedAt := cfg.now), Some(true),
                 if o.active == Some(true) then LifecycleActive else LifecycleInactive)
  }

  /** A stopping run without a VM is superseded by a directly observed newer activation. */
  predicate Superseded(s: State, current: Lifecycle, at: int) {
    && s.run.Some? && s.run.value.phase == Stopping && s.run.value.vm == ""
    && current == LifecycleActive && Authorized(s.activation, at)
    && s.run.value.activationId != s.activation.activation.value.id
  }

  /** Lines 58-62: distrust a verification from the future, then fence. */
  function Fenced(d: Draft): Draft {
    var s := if d.s.verifiedAt > d.at then StopRun(d.s).(verifiedAt := 0) else d.s;
    d.(s := s.(state := Fence(s.state, d.current, d.at)))
  }

  /** Lines 63-73. */
  function Cleared(d: Draft): Draft {
    if Superseded(d.s.state, d.current, d.at)
    then d.(s := d.s.(state := d.s.state.(run := None), stopRequestedAt := 0)) else d
  }

  /** No run is on record and one may be launched. */
  predicate ReservationDue(d: Draft) {
    d.s.state.run.None? && d.current == LifecycleActive && Authorized(d.s.state.activation, d.at)
  }

  function Settle(cfg: Config, d: Draft): Pc {
    var e := Cleared(Fenced(d));
    Reserving(if ReservationDue(e) then AtRunId(e) else AtMainSave(e))
  }

  function AdvanceObservation(cfg: Config, pc: GatherPc, reply: Reply): Pc {
    match (pc, reply)
    case (AtRead, Snap(s)) => Gathering(AtSupported(s))
    case (AtSupported(s), Flag(f)) =>
      if f == Some(true) then Gathering(AtProjection(s))
      else Judge(cfg, s, f, if f == Some(false) then LifecycleInactive else LifecycleUnavailable)
    case (AtProjection(s), Projection(o)) =>
      if o.None? || o.value.active.None? then Judge(cfg, s, Some(true), LifecycleUnavailable)
      else if NeedsIdentity(s.state.activation, o.value, cfg.now, cfg.budget) then Gathering(AtActivationId(s, o.value))
      else AfterObserve(cfg, s, o.value, Observe(s.state.activation, o.value, cfg.now, cfg.budget, None))
    case (AtActivationId(s, o), Identity(id)) =>
      AfterObserve(cfg, s, o, Observe(s.state.activation, o, cfg.now, cfg.budget, Some(id)))
    case _ => Failed
  }

  /** Lines 42-56, at the instant `t` of the pass clock. */
  function Decide(cfg: Config, pc: TimingPc, t: int): Pc {
    match pc
    case AtDecisionClock(s) =>
      if s.unverifiedSince == 0 then Settle(cfg, Draft(s.(unverifiedSince := t), LifecycleUnavailable, t, false))
      else if t < s.unverifiedSince then Settle(cfg, Draft(StopRun(s), LifecycleUnavailable, t, false))
      else if t - s.unverifiedSince >= 15 then
        if s.state.run.Some? && s.state.run.value.phase == Running && Authorized(s.state.activation, t)
        then Timing(AtVouch(s)) else Timing(AtDeferClock(s, false))
      else Settle(cfg, Draft(s, LifecycleUnavailable, t, false))
    case AtDeferClock(s, mayDefer) =>
      Settle(cfg, Draft(if mayDefer then s else StopRun(s), LifecycleUnavailable, t, mayDefer))
    case _ => Failed
  }

  function AdvanceReservation(cfg: Config, pc: ReservePc, reply: Reply): Pc {
    match (pc, reply)
    case (AtRunId(d), Identity(id)) => Reserving(AtRequest(d, id))
    case (AtRequest(d, id), Text(request)) =>
      (match Reserve(d.s.state, d.current, d.at, id, cfg.release, request)
       case ReservedRun(next) => Reserving(AtMainSave(d.(s := d.s.(state := next))))
       case NotReserved => Reserving(AtMainSave(d))
       case InvalidReservation => Failed)
    case (AtMainSave(d), Saved(ok)) => if ok then AfterMainSave(d) else Finished(Conflict)
    case _ => Failed
  }

  // ---------------------------------------------------------------- reconcile, after its main save

  function AfterMainSave(d: Draft): Pc {
    if d.s.state.run.None? then Finished(Settled)
    else
      var run := d.s.state.run.value;
      if run.vm != "" then Hosting(AtGet(d, run))
      else if run.phase == Stopping || d.current != LifecycleActive then Finished(Settled)
      else Launching(AtLaunchClock(d, run))
  }

  predicate Names(s: State, run: Run) { s.run.Some? && s.run.value.id == run.id }

  predicate NamesWithVm(s: State, run: Run) { Names(s, run) && s.run.value.vm == run.vm }

  /** Lines 104-112: record the launched VM against whatever the shadow now holds. */
  function Record(run: Run, vm: string, attempt: nat, s: Snapshot, t: int): Pc {
    var (next, result) := AcceptLaunch(s.state, run.id, vm, false, LifecycleUnavailable, t);
    if result == StopUnassigned && next.run.Some? && next.run.value.id != run.id && next.run.value.vm == vm
    then Finished(Again)
    else Launching(AtRecordSave(run, vm, attempt, s.(state := next), t, result))
  }

  function AdvanceLaunch(pc: LaunchPc, reply: Reply): Pc {
    match (pc, reply)
    case (AtExpiredRead(run, t), Snap(s)) =>
      if Names(s.state, run) then Launching(AtExpiredSave(StopRun(s), t)) else Finished(Again)
    case (AtExpiredSave(_, _), Saved(ok)) => Finished(if ok then Again else Conflict)
    case (AtLaunch(_, run, _), Vm(vm)) => if vm == "" then Failed else Launching(AtRecordRead(run, vm, 0))
    case (AtRecordRead(run, vm, attempt), Snap(s)) => Launching(AtRecordClock(run, vm, attempt, s))
    case (AtRecordSave(run, vm, attempt, s, _, result), Saved(ok)) =>
      if !ok then (if attempt + 1 < 3 then Launching(AtRecordRead(run, vm, attempt + 1)) else Finished(Conflict))
      else if result == StopUnassigned then AtTerminate(vm) else Finished(Again)
    case _ => Failed
  }

  function AfterHost(d: Draft, run: Run, host: Host): Pc {
    if host.Terminated? then Hosting(AtTerminalRead(run))
    else if run.phase != Stopping && (host.Suspended? || host.Suspending? || host.Terminating?)
        then Hosting(AtHostRead(run, host))
    else if run.phase == Stopping then (if host.Terminating? then Finished(Again) else AtTerminate(run.vm))
    else if run.phase == Reserved && host.HostRunning?
        && d.current == LifecycleActive then Assigning(AtConfirmSupported(d, run))
    else Finished(if run.phase == Reserved then Again else Settled)
  }

  function AdvanceHost(pc: HostPc, reply: Reply): Pc {
    match (pc, reply)
    case (AtGet(d, run), HostIs(vm, host)) => if vm != run.vm then Failed else AfterHost(d, run, host)
    case (AtTerminalRead(run), Snap(s)) =>
      if NamesWithVm(s.state, run) then
        var cleared := ConfirmStopped(Stop(s.state), run.id, run.vm);
        Hosting(AtTerminalSave(if cleared.Some? then s.(state := cleared.value) else StopRun(s)))
      else Finished(Again)
    case (AtTerminalSave(_), Saved(ok)) => Finished(if ok then Again else Conflict)
    case (AtHostRead(run, host), Snap(s)) =>
      if NamesWithVm(s.state, run) then Hosting(AtHostSave(run, host, StopRun(s))) else Finished(Again)
    case (AtHostSave(run, host, _), Saved(ok)) =>
      if !ok then Finished(Conflict) else if host.Terminating? then Finished(Again) else AtTerminate(run.vm)
    case _ => Failed
  }

  /** The fresh projection is the very observation the pass recorded. */
  predicate SameObservation(a: ActivationState, o: Option<Observation>) {
    && o.Some? && o.value.active == Some(true)
    && o.value.version == a.projectionVersion && o.value.sourceTimestampMs == a.sourceTimestampMs
  }

  function Assign(d: Draft, run: Run, verifiedAt: int, s: Snapshot, t: int): Pc {
    if t - verifiedAt >= 15 && Authorized(s.state.activation, t) then Finished(Again)
    else
      var (next, result) := AcceptLaunch(s.state, run.id, run.vm, true, d.current, t);
      Assigning(AtAssignSave(run, s.(state := next), t, verifiedAt, result))
  }

  function AdvanceAssignment(pc: AssignPc, reply: Reply): Pc {
    match (pc, reply)
    case (AtConfirmSupported(d, run), Flag(f)) => Assigning(AtConfirmProjection(d, run, f))
    case (AtConfirmProjection(d, run, supported), Projection(o)) =>
      if supported == Some(true) && SameObservation(d.s.state.activation, o) then Assigning(AtVerifyClock(d, run))
          else Finished(Again)
    case (AtAssignRead(d, run, verifiedAt), Snap(s)) =>
      if Names(s.state, run) && s.state.activation.projectionVersion == d.s.state.activation.projectionVersion
      then Assigning(AtAssignClock(d, run, verifiedAt, s)) else Finished(Again)
    case (AtAssignSave(run, _, _, _, result), Saved(ok)) =>
      if !ok then Finished(Conflict) else if result == StopUnassigned then AtTerminate(run.vm) else Finished(Again)
    case _ => Failed
  }

  // ---------------------------------------------------------------- the other writers

  predicate RunningAs(s: State, run: Run) { NamesWithVm(s, run) && s.run.value.phase == Running }

  predicate StoppedFor(s: State, r: Report) {
    && s.run.Some? && s.run.value.phase == Running && s.run.value.vm != ""
    && r.stopped && r.ownThing && r.runId == s.run.value.id && r.vm == s.run.value.vm
    && r.activationId == s.run.value.activationId
  }

  function AdvanceSample(pc: SamplePc, reply: Reply): Pc {
    match (pc, reply)
    case (AtSampleRead, Snap(s)) =>
      if s.state.run.Some? && s.state.run.value.phase == Running then Sampling(AtSampleGet(s.state.run.value))
          else Finished(Settled)
    case (AtSampleGet(run), HostIs(vm, host)) => if vm == run.vm
        && host.HostRunning? then Sampling(AtSampleStatus(run)) else Finished(Settled)
    case (AtSampleStatus(run), StatusIs(report)) => Sampling(AtSampleReread(run, report))
    case (AtSampleReread(run, report), Snap(s)) =>
      if !RunningAs(s.state, run) then Finished(Settled)
      else if StoppedFor(s.state, report) then AtHandlerSave(StopRun(s), run.vm)
      else Sampling(AtSamplePatch(s.version))
    case (AtSamplePatch(_), Saved(_)) => Finished(Settled)
    case (AtNoteRead(onlyRunning, text), Snap(s)) =>
      if onlyRunning && !(s.state.run.Some? && s.state.run.value.phase == Running) then Finished(Settled)
      else AtHandlerSave(s.(lastError := text), "")
    case (AtFenceRead(text), Snap(s)) =>
      if LiveRun(s.state) then AtHandlerSave(StopRun(s).(lastError := text), "") else Finished(Settled)
    case (AtKnownRead(text), Snap(s)) =>
      if s.state.run.Some? && s.state.run.value.vm != ""
          then Sampling(AtKnownDescribe(s.(lastError := text), s.state.run.value)) else Finished(Settled)
    case (AtKnownDescribe(s, run), HostIs(vm, host)) =>
      if vm != run.vm then Finished(Settled) else AtHandlerSave(StopRun(s), if LiveHost(host) then run.vm else "")
    case _ => Failed
  }

  datatype OrphanAction = Defer | Retain | TerminateNow | FenceThenTerminate

  predicate AssignedTo(s: State, runId: string, vm: string) {
    s.run.Some? && s.run.value.id == runId && (s.run.value.vm == "" || s.run.value.vm == vm)
  }

  function DecideOrphan(supported: Option<bool>, shadow: Option<State>, missing: bool, runId: string, vm: string,
                        stopped: bool, now: int): OrphanAction {
    if supported.None? || runId == "" || vm == "" || now <= 0 || (shadow.None? && !missing) then Defer
    else if shadow.Some? && AssignedTo(shadow.value, runId, vm) then
      if !supported.value || stopped || shadow.value.run.value.phase == Stopping
          || !OwnActivationAuthorized(shadow.value, now)
      then FenceThenTerminate else Retain
    else TerminateNow
  }

  /** Accept only a verified inactive observation; it never grants an activation. */
  function ObserveOrphanInactive(s: Snapshot, o: Observation, now: int): Snapshot {
    if s.state.run.None? || o.active != Some(false) || now <= 0 then s
    else
      match Observe(s.state.activation, o, now, MAX_BUDGET, None)
      case Threw => s
      case Observed(next, change) =>
        if change == Unverified || change == Stale then s
        else s.(state := s.state.(activation := next), verifiedAt := now)
  }

  function BindStopping(s: State, runId: string, vm: string): Option<State> {
    if runId == "" || vm == "" || !AssignedTo(s, runId, vm) then None
    else Some(s.(run := Some(s.run.value.(vm := vm, phase := Stopping))))
  }

  function ActOnOrphan(vm: string, report: Report, supported: Option<bool>, s: Snapshot, t: int): Pc {
    match DecideOrphan(supported, Some(s.state), false, report.runId, vm, report.stopped, t)
    case Defer => Finished(Settled)
    case Retain => Finished(Settled)
    case TerminateNow => AtTerminate(vm)
    case FenceThenTerminate =>
      var bound := BindStopping(s.state, report.runId, vm);
      if bound.None? then Finished(Settled) else AtHandlerSave(s.(state := bound.value), vm)
  }

  function AdvanceOrphan(pc: OrphanPc, reply: Reply): Pc {
    match (pc, reply)
    case (AtOrphanGet(vm), HostIs(id, host)) => if id == vm && host.HostRunning? then Orphaning(AtOrphanStatus(vm))
        else Finished(Settled)
    case (AtOrphanStatus(vm), StatusIs(report)) =>
      if report.vm != vm || !report.ownThing || !(0 < |report.runId| <= 128) then Finished(Settled)
          else Orphaning(AtOrphanSupported(vm, report))
    case (AtOrphanSupported(vm, report), Flag(f)) => Orphaning(AtOrphanRead(vm, report, f))
    case (AtOrphanRead(vm, report, supported), Snap(s)) => Orphaning(AtOrphanClock(vm, report, supported, s))
    case (AtOrphanClock(vm, report, supported, s), Time(sampled, _)) =>
      if supported == Some(true) && AssignedTo(s.state, report.runId, vm)
          then Orphaning(AtOrphanProjection(vm, report, supported, s, sampled))
      else ActOnOrphan(vm, report, supported, s, sampled)
    case (AtOrphanProjection(vm, report, supported, s, t), Projection(o)) =>
      ActOnOrphan(vm, report, supported, if o.Some? then ObserveOrphanInactive(s, o.value, t) else s, t)
    case (AtOrphanProjection(vm, report, supported, s, t), Raise(_)) => ActOnOrphan(vm, report, supported, s, t)
    case _ => Failed
  }

  // ---------------------------------------------------------------- one step

  /** The clock-driven program points, at pass time `t`. */
  function AtInstant(cfg: Config, pc: Pc, t: int): Pc {
    match pc
    case Timing(m) => Decide(cfg, m, t)
    case Launching(AtLaunchClock(d, run)) =>
      if Authorized(d.s.state.activation, t) then Launching(AtLaunch(d, run, t)) else Launching(AtExpiredRead(run, t))
    case Launching(AtRecordClock(run, vm, attempt, s)) => Record(run, vm, attempt, s, t)
    case Assigning(AtVerifyClock(d, run)) => Assigning(AtAssignRead(d, run, t))
    case Assigning(AtAssignClock(d, run, verifiedAt, s)) => Assign(d, run, verifiedAt, s, t)
    case _ => Failed
  }

  predicate OnPassClock(pc: Pc) {
    || (pc.Timing? && !pc.t.AtVouch?)
    || (pc.Launching? && (pc.l.AtLaunchClock? || pc.l.AtRecordClock?))
    || (pc.Assigning? && (pc.a.AtVerifyClock? || pc.a.AtAssignClock?))
  }

  function Next(cfg: Config, pc: Pc, reply: Reply): Pc {
    match pc
    case Gathering(g) => AdvanceObservation(cfg, g, reply)
    case Timing(t) => if t.AtVouch? && reply.Flag? then Timing(AtDeferClock(t.s, reply.flag == Some(true))) else Failed
    case Reserving(r) => AdvanceReservation(cfg, r, reply)
    case Launching(l) => AdvanceLaunch(l, reply)
    case Hosting(h) => AdvanceHost(h, reply)
    case Assigning(a) => AdvanceAssignment(a, reply)
    case Sampling(m) => AdvanceSample(m, reply)
    case Orphaning(o) => AdvanceOrphan(o, reply)
    case AtTerminate(_) => if reply.Done? then Finished(Again) else Failed
    case AtHandlerSave(_, thenStop) =>
      if !reply.Saved? then Failed else if reply.ok && thenStop != "" then AtTerminate(thenStop) else Finished(Settled)
    case Finished(_) => pc
    case Failed => pc
  }

  function Advance(p: Pass, reply: Reply): Pass {
    if OnPassClock(p.pc) then
      if !reply.Time? then p.(pc := Failed)
      else
        match Sample(p.clock, reply.sampled, reply.steady)
        case ClockThrew => p.(pc := Failed)
        case Instant(at, clock) => p.(pc := AtInstant(p.cfg, p.pc, at), clock := clock)
    else
      p.(pc := Next(p.cfg, p.pc, reply),
         launched := if p.pc.Launching? && p.pc.l.AtLaunch? && reply.Vm? then reply.vm else p.launched)
  }

  /** The program after a series of answers. */
  function Follow(p: Pass, replies: seq<Reply>): Pass {
    if replies == [] then p else Advance(Follow(p, replies[..|replies| - 1]), replies[|replies| - 1])
  }
}
