/** What every interleaving of the shadow's writers keeps. */
module Safety {
  import opened Common
  import opened Activations
  import opened Controller
  import opened Snapshots
  import opened PassClock
  import opened Programs
  import opened World

  // ---------------------------------------------------------------- predicates

  /** The run was stored once and is not a live assignment now. */
  predicate Dead(w: World, runId: string) {
    runId in w.stored && !(LiveRun(w.shadow.state) && w.shadow.state.run.value.id == runId)
  }

  predicate Owned(w: World, vm: string, runId: string) { vm in w.vms && w.vms[vm] == runId }

  predicate Known(w: World, r: Run) {
    && r.id in w.stored && w.stored[r.id] == CoreOf(r)
    && (r.vm != "" ==> r.id in w.bound && w.bound[r.id] == r.vm && Owned(w, r.vm, r.id))
  }

  predicate Times(s: Snapshot) { s.version >= 0 && s.verifiedAt >= 0 && s.unverifiedSince >= 0
                                && s.stopRequestedAt >= 0 }

  ghost predicate ShadowInv(w: World) {
    && Times(w.shadow) && ReadableState(w.shadow.state)
    && (w.shadow.state.run.Some? ==> Known(w, w.shadow.state.run.value))
    && (w.shadow.state.run.Some? && w.shadow.state.run.value.vm == "" ==> w.shadow.state.run.value.id !in w.bound)
    && w.stored.Keys <= w.used && w.requested <= w.stored.Keys && w.bound.Keys <= w.stored.Keys
  }

  /** One VM per launched run, one run per VM, and only for runs whose launch was requested. */
  ghost predicate CloudInv(w: World) {
    && (forall v :: v in w.vms ==> v != "" && w.vms[v] in w.requested)
    && (forall u, v :: u in w.vms && v in w.vms && w.vms[u] == w.vms[v] ==> u == v)
  }

  /** A recorded VM is the one its run was launched as; it leaves the shadow only after it was reported terminated. */
  ghost predicate BindingInv(w: World) {
    && (forall r :: r in w.bound ==> Owned(w, w.bound[r], r))
    && (forall r :: r in w.bound ==>
          w.bound[r] in w.ended || (w.shadow.state.run.Some? && w.shadow.state.run.value.id == r))
  }

  ghost predicate WorldInv(w: World) { ShadowInv(w) && CloudInv(w) && BindingInv(w) }

  const IDLE := World(Snapshot(0, 0, 0, 0, "", State(UNSEEN, None)), {}, map[], map[], {}, map[], {}, {}, map[])

  /** Worlds in which the invariant holds. */
  type SoundWorld = w: World | WorldInv(w) ghost witness IDLE

  /** There is no run, or one for which no VM was ever recorded: only then may a new run take its place. */
  predicate Vacant(s: State) { s.run.None? || s.run.value.vm == "" }

  /** The record `st` may replace the shadow's record. */
  predicate Allowed(w: World, st: State) {
    var cur := w.shadow.state;
    && ReadableState(st)
    && match st.run
       case None => Vacant(cur) || cur.run.value.vm in w.ended
       case Some(r) =>
         if cur.run.Some? && cur.run.value.id == r.id then
           && CoreOf(r) == CoreOf(cur.run.value)
           && (r.vm == cur.run.value.vm || (cur.run.value.vm == "" && Owned(w, r.vm, r.id)))
           && (cur.run.value.phase == Stopping ==> r.phase == Stopping)
         else Vacant(cur) && r.id !in w.stored && r.id in w.used && r.vm == "" && r.phase == Reserved
  }

  /** A snapshot some pass read earlier and has not edited. */
  predicate Copy(w: World, s: Snapshot) {
    && Times(s) && ReadableState(s.state) && s.version <= w.shadow.version
    && (s.state.run.Some? ==> Known(w, s.state.run.value))
    && (s.version == w.shadow.version ==> s.state == w.shadow.state)
  }

  /** An edited snapshot: if the shadow has not moved since it was read, writing it is allowed. */
  predicate Savable(w: World, s: Snapshot) {
    && Times(s) && ReadableState(s.state) && s.version <= w.shadow.version
    && (s.version == w.shadow.version ==> Allowed(w, s.state))
  }

  /** Before the main save, the run is the one that was read, at most moved to stopping. */
  predicate Edited(w: World, s: Snapshot) {
    && Times(s) && ReadableState(s.state) && s.version <= w.shadow.version
    && (s.version == w.shadow.version ==>
          s.state.run == w.shadow.state.run || s.state.run == Stop(w.shadow.state).run)
  }

  /** Once `st` is the shadow's record, it does not hold `vm` for the run as a live assignment. */
  predicate Unheld(st: State, runId: string, vm: string) {
    st.run.None? || st.run.value.id != runId || st.run.value.phase == Stopping
      || (st.run.value.vm != "" && st.run.value.vm != vm)
  }

  /** A live run about to be stored rests on its own unexpired activation and on a current enough verification. */
  predicate MainSaveOk(d: Draft) {
    LiveRun(d.s.state) ==>
      && OwnActivationAuthorized(d.s.state, d.at) && d.current != LifecycleInactive
      && (d.current == LifecycleUnavailable ==> d.vouched || 0 <= d.at - d.s.unverifiedSince < 15)
  }

  predicate LaunchOk(d: Draft, run: Run) {
    d.current == LifecycleActive && d.s.state.run == Some(run) && run.phase != Stopping
      && OwnActivationAuthorized(d.s.state, d.at)
  }

  predicate Tracked(w: World, vm: string) {
    vm in w.stops || (vm in w.vms && w.vms[vm] in w.bound && w.bound[w.vms[vm]] == vm)
  }

  predicate Reported(w: World, vm: string, report: Report) { Owned(w, vm, report.runId) && report.runId in w.stored }

  predicate GatherInv(w: World, pc: GatherPc) {
    match pc
    case AtRead => true
    case AtSupported(s) => Copy(w, s)
    case AtProjection(s) => Copy(w, s)
    case AtActivationId(s, _) => Copy(w, s)
  }

  /** A reservation is possible, and if the shadow has not moved its run may be replaced. */
  predicate ReadyToReserve(w: World, d: Draft) {
    && Savable(w, d.s) && d.s.state.run.None? && d.current == LifecycleActive && Authorized(d.s.state.activation, d.at)
    && (d.s.version == w.shadow.version ==> Vacant(w.shadow.state))
  }

  predicate ReserveInv(w: World, pc: ReservePc) {
    match pc
    case AtRunId(d) => ReadyToReserve(w, d)
    case AtRequest(d, id) => ReadyToReserve(w, d) && id in w.used
        && (d.s.version == w.shadow.version ==> id !in w.stored)
    case AtMainSave(d) => Savable(w, d.s) && MainSaveOk(d)
  }

  predicate Launched(w: World, run: Run, vm: string) { Owned(w, vm, run.id) && run.id in w.stored }

  predicate LaunchPcInv(w: World, pc: LaunchPc) {
    match pc
    case AtLaunchClock(d, run) => Known(w, run) && LaunchOk(d, run)
    case AtExpiredRead(run, _) => Known(w, run)
    case AtExpiredSave(s, _) => Savable(w, s)
    case AtLaunch(d, run, t) => Known(w, run) && LaunchOk(d, run) && Authorized(d.s.state.activation, t)
    case AtRecordRead(run, vm, _) => Launched(w, run, vm)
    case AtRecordClock(run, vm, _, s) => Launched(w, run, vm) && Copy(w, s)
    case AtRecordSave(run, vm, _, s, _, result) =>
      && Launched(w, run, vm) && Savable(w, s)
      && (if result == StopUnassigned then Unheld(s.state, run.id, vm)
          else s.state.run.Some? && s.state.run.value.id == run.id && s.state.run.value.vm == vm)
  }

  predicate Recorded(w: World, run: Run) { Known(w, run) && run.vm != "" }

  predicate HostInv(w: World, pc: HostPc) {
    match pc
    case AtGet(_, run) => Recorded(w, run) && (run.phase == Stopping ==> Dead(w, run.id))
    case AtTerminalRead(run) => Recorded(w, run) && run.vm in w.ended
    case AtTerminalSave(s) => Savable(w, s)
    case AtHostRead(run, _) => Recorded(w, run)
    case AtHostSave(run, _, s) => Recorded(w, run) && Savable(w, s) && Unheld(s.state, run.id, run.vm)
  }

  predicate AssignInv(w: World, pc: AssignPc) {
    && Recorded(w, pc.run)
    && match pc
       case AtAssignClock(_, _, _, s) => Copy(w, s)
       case AtAssignSave(run, s, _, _, result) => Savable(w, s)
           && (result == StopUnassigned ==> Unheld(s.state, run.id, run.vm))
       case _ => true
  }

  predicate SampleInv(w: World, pc: SamplePc) {
    match pc
    case AtSampleGet(run) => Recorded(w, run)
    case AtSampleStatus(run) => Recorded(w, run)
    case AtSampleReread(run, _) => Recorded(w, run)
    case AtKnownDescribe(s, run) => Copy(w, s) && s.state.run == Some(run) && run.vm != ""
    case _ => true
  }

  predicate OrphanInv(w: World, pc: OrphanPc) {
    match pc
    case AtOrphanGet(_) => true
    case AtOrphanStatus(_) => true
    case AtOrphanSupported(vm, report) => Reported(w, vm, report)
    case AtOrphanRead(vm, report, _) => Reported(w, vm, report)
    case AtOrphanClock(vm, report, _, s) =>
      Reported(w, vm, report) && Copy(w, s) && (!AssignedTo(s.state, report.runId, vm) ==> Dead(w, report.runId))
    case AtOrphanProjection(vm, report, _, s, _) =>
      Reported(w, vm, report) && Copy(w, s) && AssignedTo(s.state, report.runId, vm)
  }

  predicate PcInv(w: World, pc: Pc) {
    match pc
    case Gathering(g) => GatherInv(w, g)
    case Timing(t) => Edited(w, t.s) && t.s.state.run.Some?
    case Reserving(r) => ReserveInv(w, r)
    case Launching(l) => LaunchPcInv(w, l)
    case Hosting(h) => HostInv(w, h)
    case Assigning(a) => AssignInv(w, a)
    case Sampling(m) => SampleInv(w, m)
    case Orphaning(o) => OrphanInv(w, o)
    case AtTerminate(vm) => vm in w.vms && Dead(w, w.vms[vm])
    case AtHandlerSave(s, stop) =>
      Savable(w, s) && (stop != "" ==> stop in w.vms && w.vms[stop] in w.stored && Unheld(s.state, w.vms[stop], stop))
    case Finished(_) => true
    case Failed => true
  }

  /** Where the VM returned by this pass's own launch is. */
  predicate LaunchInv(w: World, p: Pass) {
    match p.pc
    case Launching(AtRecordRead(_, vm, _)) => p.launched == vm
    case Launching(AtRecordClock(_, vm, _, _)) => p.launched == vm
    case Launching(AtRecordSave(_, vm, _, _, _, _)) => p.launched == vm
    case AtTerminate(vm) => p.launched != "" ==> p.launched == vm
    case Finished(outcome) => p.launched != "" && outcome == Again ==> Tracked(w, p.launched)
    case Failed => true
    case _ => p.launched == ""
  }

  predicate PassInv(w: World, p: Pass) {
    ValidConfig(p.cfg) && p.clock.anchorWall > 0 && PcInv(w, p.pc) && LaunchInv(w, p)
  }

  ghost predicate Inv(w: World) {
    WorldInv(w) && forall id :: id in w.passes ==> PassInv(w, w.passes[id])
  }

  // ---------------------------------------------------------------- what only grows

  ghost predicate Grows(w: World, x: World) {
    && w.shadow.version <= x.shadow.version
    && (w.shadow.version == x.shadow.version ==> w.shadow == x.shadow && w.stored == x.stored && w.bound == x.bound)
    && w.used <= x.used && w.requested <= x.requested && w.ended <= x.ended && w.stops <= x.stops
    && (forall r :: r in w.stored ==> r in x.stored && x.stored[r] == w.stored[r])
    && (forall r :: r in w.bound ==> r in x.bound && x.bound[r] == w.bound[r])
    && (forall v :: v in w.vms ==> v in x.vms && x.vms[v] == w.vms[v])
    && (forall r :: Dead(w, r) ==> Dead(x, r))
  }

  /** One answer of the environment: the invariant is kept and nothing that was settled is unsettled. */
  ghost predicate Sound(w: World, x: World) { WorldInv(x) && Grows(w, x) && x.passes == w.passes }

  /** Two worlds, the second a later one. */
  datatype Span = Span(w: World, x: World)

  type Growth = g: Span | Grows(g.w, g.x) ghost witness Span(IDLE, IDLE)

  lemma LaunchStable(g: Growth, pc: LaunchPc)
    requires LaunchPcInv(g.w, pc)
    ensures LaunchPcInv(g.x, pc)
  {
  }

  lemma HostStable(g: Growth, pc: HostPc)
    requires HostInv(g.w, pc)
    ensures HostInv(g.x, pc)
  {
  }

  lemma AssignStable(g: Growth, pc: AssignPc)
    requires AssignInv(g.w, pc)
    ensures AssignInv(g.x, pc)
  {
  }

  lemma SampleStable(g: Growth, pc: SamplePc)
    requires SampleInv(g.w, pc)
    ensures SampleInv(g.x, pc)
  {
  }

  lemma OrphanStable(g: Growth, pc: OrphanPc)
    requires OrphanInv(g.w, pc)
    ensures OrphanInv(g.x, pc)
  {
  }

  lemma ReserveStable(g: Growth, pc: ReservePc)
    requires ReserveInv(g.w, pc)
    ensures ReserveInv(g.x, pc)
  {
  }

  lemma PcStable(g: Growth, pc: Pc)
    requires PcInv(g.w, pc)
    ensures PcInv(g.x, pc)
  {
    match pc
    case Reserving(r) => ReserveStable(g, r);
    case Launching(l) => LaunchStable(g, l);
    case Hosting(h) => HostStable(g, h);
    case Assigning(a) => AssignStable(g, a);
    case Sampling(m) => SampleStable(g, m);
    case Orphaning(o) => OrphanStable(g, o);
    case _ =>
  }

  lemma PassStable(g: Growth, p: Pass)
    requires PassInv(g.w, p)
    ensures PassInv(g.x, p)
  {
    PcStable(g, p.pc);
  }

  lemma AllStable(g: Growth)
    requires forall id :: id in g.w.passes ==> PassInv(g.w, g.w.passes[id])
    ensures forall id :: id in g.w.passes ==> PassInv(g.x, g.w.passes[id])
  {
    forall id | id in g.w.passes ensures PassInv(g.x, g.w.passes[id]) { PassStable(g, g.w.passes[id]); }
  }

  // ---------------------------------------------------------------- the environment's answers

  lemma CommitGrows(w: SoundWorld, s: Snapshot, now: int, verifiedAt: int)
    requires PatchOk(s, now, verifiedAt) && s.version == w.shadow.version && Allowed(w, s.state)
    ensures Grows(w, Commit(w, s, now, verifiedAt))
  {
    var x := Commit(w, s, now, verifiedAt);
    forall r | Dead(w, r) ensures Dead(x, r) {}
  }

  lemma CommitInv(w: SoundWorld, s: Snapshot, now: int, verifiedAt: int)
    requires PatchOk(s, now, verifiedAt) && s.version == w.shadow.version && Allowed(w, s.state)
    ensures WorldInv(Commit(w, s, now, verifiedAt))
  {
  }

  lemma SaveOk(w: SoundWorld, s: Snapshot, now: int, verifiedAt: int, choice: Reply)
    requires Savable(w, s)
    ensures var (x, reply) := HandleSave(w, s, now, verifiedAt, choice);
            && Sound(w, x)
            && (reply == Saved(true) ==> x.shadow.state == s.state && x == Commit(w, s, now, verifiedAt))
  {
    if s.version == w.shadow.version && PatchOk(s, now, verifiedAt) {
      CommitGrows(w, s, now, verifiedAt);
      CommitInv(w, s, now, verifiedAt);
    }
  }

  /** An effect outside the shadow. */
  lemma GrowsBeside(w: World, x: World)
    requires w.shadow == x.shadow && w.stored == x.stored && w.bound == x.bound
    requires w.used <= x.used && w.requested <= x.requested && w.ended <= x.ended && w.stops <= x.stops
    requires forall v :: v in w.vms ==> v in x.vms && x.vms[v] == w.vms[v]
    ensures Grows(w, x)
    ensures ShadowInv(w) && x.requested <= w.stored.Keys ==> ShadowInv(x)
    ensures BindingInv(w) ==> BindingInv(x)
  {
  }

  lemma NewVmOk(w: World, runId: string, vm: string)
    requires CloudInv(w) && vm != "" && vm !in w.vms && !HasVm(w, runId) && runId in w.requested
    ensures CloudInv(w.(vms := w.vms[vm := runId]))
  {
  }

  lemma LaunchedOk(w: SoundWorld, runId: string, choice: Reply)
    requires runId in w.stored
    ensures var (x, reply) := HandleLaunch(w, runId, choice);
            && Sound(w, x)
            && (reply.Raise? || (reply.Vm? && Owned(x, reply.vm, runId)))
  {
    var asked := w.(requested := w.requested + {runId});
    GrowsBeside(w, asked);
    assert CloudInv(asked);
    if choice.Vm? && MayServe(w, choice.vm, runId) {
      if choice.vm !in w.vms { NewVmOk(asked, runId, choice.vm); }
      else { assert w.vms[choice.vm := runId] == w.vms; }
      GrowsBeside(w, asked.(vms := w.vms[choice.vm := runId]));
    }
  }

  /** The snapshot a save request carries is one the pass may save. */
  lemma DemandOk(w: World, p: Pass)
    requires PassInv(w, p)
    ensures var q := Demand(p);
            && (q.Save? ==> Savable(w, q.s)) && (q.SaveNow? ==> Savable(w, q.s))
            && (q.Launch? ==> Known(w, q.run))
  {
  }

  lemma TouchOk(w: SoundWorld, version: int, choice: Reply)
    ensures var x := Handle(w, Touch(version), choice, 0).0; Sound(w, x)
  {
  }

  /** Calls that neither write the shadow nor create a VM. */
  lemma BesideOk(w: SoundWorld, q: Request, choice: Reply, now: int)
    requires !q.Save? && !q.SaveNow? && !q.Launch? && !q.Touch?
    ensures var x := Handle(w, q, choice, now).0; Sound(w, x)
  {
    var x := Handle(w, q, choice, now).0;
    assert x == w.(used := x.used, ended := x.ended, stops := x.stops);
    GrowsBeside(w, x);
  }

  lemma HandleOk(w: SoundWorld, q: Request, choice: Reply, now: int)
    requires (q.Save? ==> Savable(w, q.s)) && (q.SaveNow? ==> Savable(w, q.s)) && (q.Launch? ==> Known(w, q.run))
    ensures var x := Handle(w, q, choice, now).0;
            Sound(w, x)
  {
    hide Savable, Commit, HandleSave, HandleLaunch;
    if q.Save? { SaveOk(w, q.s, q.now, q.verifiedAt, choice); }
    else if q.SaveNow? { SaveOk(w, q.s, now, q.s.verifiedAt, choice); }
    else if q.Launch? { LaunchedOk(w, q.run.id, choice); }
    else if q.Touch? { TouchOk(w, q.version, choice); }
    else { BesideOk(w, q, choice, now); }
  }

  // ---------------------------------------------------------------- reconcile, up to its main save

  lemma ObserveReadable(a: ActivationState, o: Observation, now: int, budget: int, newId: Option<string>)
    requires ReadableActivation(a) && now > 0
    ensures var r := Observe(a, o, now, budget, newId);
            r.Observed? ==> ReadableActivation(r.next) && (a.activation.Some? ==> r.next.activation.Some?)
  {
  }

  lemma EditedIsSavable(w: World, s: Snapshot)
    requires Edited(w, s) && (w.shadow.state.run.None? ==> s.version == w.shadow.version ==> s.state.run.None?)
    ensures Savable(w, s)
  {
  }

  /** Fencing leaves only live runs with their own unexpired activation. */
  lemma FencedOk(w: World, d: Draft)
    requires Edited(w, d.s)
    requires d.current == LifecycleUnavailable && LiveRun(d.s.state)
             ==> d.vouched || 0 <= d.at - d.s.unverifiedSince < 15
    ensures Edited(w, Fenced(d).s) && MainSaveOk(Fenced(d))
  {
  }

  lemma SettleOk(w: World, cfg: Config, d: Draft)
    requires Edited(w, d.s)
    requires d.current == LifecycleUnavailable && LiveRun(d.s.state)
             ==> d.vouched || 0 <= d.at - d.s.unverifiedSince < 15
    ensures Settle(cfg, d).Reserving? && ReserveInv(w, Settle(cfg, d).r)
  {
    FencedOk(w, d);
    var e := Fenced(d);
    EditedIsSavable(w, e.s);
    var f := Cleared(e);
    if Superseded(e.s.state, e.current, e.at) {
      assert Savable(w, f.s);
    }
  }

  lemma JudgeOk(w: World, cfg: Config, s: Snapshot, supported: Option<bool>, current: Lifecycle)
    requires Edited(w, s)
    ensures PcInv(w, Judge(cfg, s, supported, current))
  {
    var noted := s.(lastError := if current == LifecycleUnavailable then UNVERIFIABLE
                                 else if supported == Some(false) then UNDECLARED else "");
    if !(current == LifecycleUnavailable && noted.state.run.Some?) {
      SettleOk(w, cfg, Draft(noted.(unverifiedSince := 0), current, cfg.now, false));
    }
  }

  lemma AfterObserveOk(w: World, cfg: Config, s: Snapshot, o: Observation, newId: Option<string>)
    requires Copy(w, s) && ValidConfig(cfg)
    ensures PcInv(w, AfterObserve(cfg, s, o, Observe(s.state.activation, o, cfg.now, cfg.budget, newId)))
  {
    var r := Observe(s.state.activation, o, cfg.now, cfg.budget, newId);
    if r.Observed? {
      ObserveReadable(s.state.activation, o, cfg.now, cfg.budget, newId);
      var seen := s.(state := s.state.(activation := r.next));
      assert Edited(w, seen);
      if r.change == Unverified || r.change == Stale {
        JudgeOk(w, cfg, seen, Some(true), LifecycleUnavailable);
      } else {
        JudgeOk(w, cfg, seen.(verifiedAt := cfg.now), Some(true), if o.active == Some(true) then LifecycleActive
                else LifecycleInactive);
      }
    }
  }

  lemma SupportedOk(w: World, cfg: Config, s: Snapshot, reply: Reply)
    requires Copy(w, s)
    ensures PcInv(w, AdvanceObservation(cfg, AtSupported(s), reply))
  {
    if reply.Flag? && reply.flag != Some(true) {
      JudgeOk(w, cfg, s, reply.flag, if reply.flag == Some(false) then LifecycleInactive else LifecycleUnavailable);
    }
  }

  lemma ProjectionOk(w: World, cfg: Config, s: Snapshot, reply: Reply)
    requires ValidConfig(cfg) && Copy(w, s)
    ensures PcInv(w, AdvanceObservation(cfg, AtProjection(s), reply))
  {
    if reply.Projection? {
      if reply.o.None? || reply.o.value.active.None? { JudgeOk(w, cfg, s, Some(true), LifecycleUnavailable); }
      else { AfterObserveOk(w, cfg, s, reply.o.value, None); }
    }
  }

  lemma ObservationOk(w: World, cfg: Config, pc: GatherPc, reply: Reply)
    requires ValidConfig(cfg) && GatherInv(w, pc)
    requires pc.AtRead? && reply.Snap? ==> Copy(w, reply.s)
    ensures PcInv(w, AdvanceObservation(cfg, pc, reply))
  {
    match pc
    case AtRead =>
    case AtSupported(s) => SupportedOk(w, cfg, s, reply);
    case AtProjection(s) => ProjectionOk(w, cfg, s, reply);
    case AtActivationId(s, o) => if reply.Identity? { AfterObserveOk(w, cfg, s, o, Some(reply.id)); }
  }

  lemma DecideOk(w: World, cfg: Config, pc: TimingPc, t: int)
    requires Edited(w, pc.s) && pc.s.state.run.Some? && t > 0
    ensures PcInv(w, Decide(cfg, pc, t))
  {
    match pc
    case AtDecisionClock(s) =>
      if s.unverifiedSince == 0 { SettleOk(w, cfg, Draft(s.(unverifiedSince := t), LifecycleUnavailable, t, false)); }
      else if t < s.unverifiedSince { SettleOk(w, cfg, Draft(StopRun(s), LifecycleUnavailable, t, false)); }
      else if t - s.unverifiedSince < 15 { SettleOk(w, cfg, Draft(s, LifecycleUnavailable, t, false)); }
    case AtDeferClock(s, mayDefer) =>
      SettleOk(w, cfg, Draft(if mayDefer then s else StopRun(s), LifecycleUnavailable, t, mayDefer));
    case AtVouch(_) =>
  }

  // ---------------------------------------------------------------- what an answer tells the pass

  /** The facts about the world `x` that the answer `reply` to the call `q` establishes. */
  ghost predicate Answers(x: World, q: Request, reply: Reply) {
    && (q.Read? && reply.Snap? ==> reply.s == x.shadow)
    && (q.NewIdentity? && reply.Identity? ==> reply.id in x.used && reply.id !in x.stored)
    && (q.Save? && reply == Saved(true) ==> x.shadow.state == q.s.state)
    && (q.SaveNow? && reply == Saved(true) ==> x.shadow.state == q.s.state)
    && (q.Launch? && reply.Vm? ==> Owned(x, reply.vm, q.run.id) && reply.vm != "")
    && (q.GetHost? && reply.HostIs? && reply.vm == q.vm && reply.host.Terminated? ==> q.vm in x.ended)
    && (q.Status? && reply.StatusIs? && reply.report.vm == q.vm ==> Owned(x, q.vm, reply.report.runId))
    && (q.Terminate? ==> q.vm in x.stops)
  }

  lemma HandleAnswers(w: SoundWorld, q: Request, choice: Reply, now: int)
    requires (q.Save? ==> Savable(w, q.s)) && (q.SaveNow? ==> Savable(w, q.s)) && (q.Launch? ==> Known(w, q.run))
    ensures var (x, reply) := Handle(w, q, choice, now); Answers(x, q, reply)
  {
    if q.Save? { SaveOk(w, q.s, q.now, q.verifiedAt, choice); }
    else if q.SaveNow? { SaveOk(w, q.s, now, q.s.verifiedAt, choice); }
    else if q.Launch? { LaunchedOk(w, q.run.id, choice); }
  }

  lemma ReadIsCopy(x: World)
    requires ShadowInv(x)
    ensures Copy(x, x.shadow)
  {
  }

  /** A record that does not hold the VM, once it is the shadow's, leaves the VM's run dead. */
  lemma UnheldIsDead(x: SoundWorld, runId: string, vm: string)
    requires Owned(x, vm, runId) && runId in x.stored && Unheld(x.shadow.state, runId, vm)
    ensures Dead(x, runId)
  {
  }

  // ---------------------------------------------------------------- the remaining program points

  lemma ReservedOk(x: World, cfg: Config, d: Draft, id: string, request: string)
    requires ReadyToReserve(x, d) && id in x.used && (d.s.version == x.shadow.version ==> id !in x.stored)
    requires ShadowInv(x)
    ensures PcInv(x, AdvanceReservation(cfg, AtRequest(d, id), Text(request)))
  {
    var r := Reserve(d.s.state, d.current, d.at, id, cfg.release, request);
    if r.ReservedRun? {
      assert ReadableState(r.next);
      assert Savable(x, d.s.(state := r.next));
    }
  }

  lemma AfterMainSaveOk(x: SoundWorld, d: Draft)
    requires x.shadow.state == d.s.state && MainSaveOk(d)
    ensures PcInv(x, AfterMainSave(d))
  {
  }

  lemma ReservationOk(x: SoundWorld, cfg: Config, pc: ReservePc, reply: Reply)
    requires ReserveInv(x, pc) && Answers(x, ReserveDemand(pc), reply)
    ensures PcInv(x, AdvanceReservation(cfg, pc, reply))
  {
    hide GatherInv, LaunchPcInv, HostInv, AssignInv, SampleInv, OrphanInv, AdvanceObservation, AdvanceLaunch,
      AdvanceHost, AdvanceAssignment, AdvanceSample, AdvanceOrphan, Reserve, AfterMainSave, Observe, Settle,
      AcceptLaunch, CloudInv, BindingInv;
    match pc
    case AtRunId(d) =>
    case AtRequest(d, id) => if reply.Text? { ReservedOk(x, cfg, d, id, reply.text); }
    case AtMainSave(d) => if reply == Saved(true) { AfterMainSaveOk(x, d); }
  }

  /** Recording a launched VM, or promoting its run, is an allowed write and says truly whether the VM is held. */
  lemma AcceptOk(x: World, s: Snapshot, runId: string, vm: string, hostRunning: bool, current: Lifecycle, t: int)
    requires Copy(x, s) && Owned(x, vm, runId) && vm != ""
    ensures var (next, result) := AcceptLaunch(s.state, runId, vm, hostRunning, current, t);
            && Savable(x, s.(state := next))
            && (if result == StopUnassigned then Unheld(next, runId, vm)
                else next.run.Some? && next.run.value.id == runId && next.run.value.vm == vm)
  {
    var (next, result) := AcceptLaunch(s.state, runId, vm, hostRunning, current, t);
    assert ReadableState(next);
  }

  lemma StopIsSavable(x: World, s: Snapshot)
    requires Copy(x, s)
    ensures Savable(x, StopRun(s))
  {
  }

  lemma RecordOk(x: SoundWorld, run: Run, vm: string, attempt: nat, s: Snapshot, t: int)
    requires Launched(x, run, vm) && Copy(x, s)
    ensures PcInv(x, Record(run, vm, attempt, s, t))
    ensures Record(run, vm, attempt, s, t).Finished? ==> Tracked(x, vm)
  {
    AcceptOk(x, s, run.id, vm, false, LifecycleUnavailable, t);
  }

  lemma LaunchReadOk(x: World, pc: LaunchPc, reply: Reply)
    requires Copy(x, x.shadow) && LaunchPcInv(x, pc) && Answers(x, LaunchDemand(pc), reply) && !pc.AtRecordSave?
    ensures PcInv(x, AdvanceLaunch(pc, reply))
  {
    hide GatherInv, ReserveInv, HostInv, AssignInv, SampleInv, OrphanInv, AdvanceObservation,
      AdvanceReservation, AdvanceHost, AdvanceAssignment, AdvanceSample, AdvanceOrphan, Observe, Settle,
      AcceptLaunch, Savable, Allowed;
    if pc.AtExpiredRead? && reply.Snap? { StopIsSavable(x, reply.s); }
  }

  lemma RecordSavedOk(x: SoundWorld, pc: LaunchPc, reply: Reply)
    requires LaunchPcInv(x, pc) && Answers(x, LaunchDemand(pc), reply) && pc.AtRecordSave?
    ensures PcInv(x, AdvanceLaunch(pc, reply))
  {
    if reply == Saved(true) && pc.result == StopUnassigned { UnheldIsDead(x, pc.run.id, pc.vm); }
  }

  lemma TerminalOk(x: World, run: Run, s: Snapshot)
    requires Recorded(x, run) && run.vm in x.ended && Copy(x, s)
    ensures PcInv(x, AdvanceHost(AtTerminalRead(run), Snap(s)))
  {
  }

  lemma HostReadOk(x: World, cfg: Config, pc: HostPc, reply: Reply)
    requires Copy(x, x.shadow) && HostInv(x, pc) && Answers(x, HostDemand(cfg, pc), reply) && !pc.AtHostSave?
    ensures PcInv(x, AdvanceHost(pc, reply))
  {
    hide GatherInv, ReserveInv, LaunchPcInv, SampleInv, OrphanInv, AdvanceObservation, AdvanceReservation,
      AdvanceLaunch, AdvanceAssignment, AdvanceSample, AdvanceOrphan, Observe, Settle, AcceptLaunch, Authorized;
    if pc.AtTerminalRead? && reply.Snap? { TerminalOk(x, pc.run, reply.s); }
    if pc.AtHostRead? && reply.Snap? { StopIsSavable(x, reply.s); }
  }

  lemma HostSavedOk(x: SoundWorld, cfg: Config, pc: HostPc, reply: Reply)
    requires HostInv(x, pc) && Answers(x, HostDemand(cfg, pc), reply) && pc.AtHostSave?
    ensures PcInv(x, AdvanceHost(pc, reply))
  {
    hide GatherInv, ReserveInv, LaunchPcInv, AssignInv, SampleInv, OrphanInv, AdvanceObservation,
      AdvanceReservation, AdvanceLaunch, AdvanceAssignment, AdvanceSample, AdvanceOrphan, Observe, Settle,
      AcceptLaunch, Authorized, Savable, CloudInv, BindingInv;
    if reply == Saved(true) { UnheldIsDead(x, pc.run.id, pc.run.vm); }
  }

  lemma AssignReadOk(x: World, pc: AssignPc, reply: Reply)
    requires Copy(x, x.shadow) && AssignInv(x, pc) && Answers(x, AssignDemand(pc), reply) && !pc.AtAssignSave?
    ensures PcInv(x, AdvanceAssignment(pc, reply))
  {
  }

  lemma AssignSavedOk(x: SoundWorld, pc: AssignPc, reply: Reply)
    requires AssignInv(x, pc) && Answers(x, AssignDemand(pc), reply) && pc.AtAssignSave?
    ensures PcInv(x, AdvanceAssignment(pc, reply))
  {
    if reply == Saved(true) && pc.result == StopUnassigned { UnheldIsDead(x, pc.run.id, pc.run.vm); }
  }

  lemma AssignOk(x: World, d: Draft, run: Run, verifiedAt: int, s: Snapshot, t: int)
    requires Recorded(x, run) && Copy(x, s)
    ensures PcInv(x, Assign(d, run, verifiedAt, s, t))
  {
    AcceptOk(x, s, run.id, run.vm, true, d.current, t);
  }

  lemma SampleReadOk(x: World, pc: SamplePc, reply: Reply)
    requires Copy(x, x.shadow) && SampleInv(x, pc) && Answers(x, SampleDemand(pc), reply)
    requires pc.AtSampleRead? || pc.AtSampleGet? || pc.AtSampleStatus? || pc.AtSamplePatch? || pc.AtNoteRead?
    ensures PcInv(x, AdvanceSample(pc, reply))
  {
  }

  lemma SampleStopOk(x: World, pc: SamplePc, reply: Reply)
    requires Copy(x, x.shadow) && SampleInv(x, pc) && Answers(x, SampleDemand(pc), reply)
    requires pc.AtSampleReread? || pc.AtFenceRead? || pc.AtKnownRead? || pc.AtKnownDescribe?
    ensures PcInv(x, AdvanceSample(pc, reply))
  {
    hide AdvanceObservation, AdvanceReservation, AdvanceLaunch, AdvanceHost, AdvanceAssignment, AdvanceOrphan,
      GatherInv, ReserveInv, LaunchPcInv, HostInv, AssignInv, OrphanInv, Authorized, ReadableActivation,
      ReadableRun;
    if pc.AtKnownDescribe? { StopIsSavable(x, pc.s); }
    else if reply.Snap? { StopIsSavable(x, reply.s); }
  }

  lemma BindOk(x: World, s: Snapshot, runId: string, vm: string)
    requires Times(s) && ReadableState(s.state) && s.version <= x.shadow.version && Owned(x, vm, runId) && vm != ""
    requires s.version == x.shadow.version ==> s.state.run == x.shadow.state.run
    requires BindStopping(s.state, runId, vm).Some?
    ensures Savable(x, s.(state := BindStopping(s.state, runId, vm).value))
  {
    assert ReadableState(BindStopping(s.state, runId, vm).value);
  }

  lemma ActOk(x: World, vm: string, report: Report, supported: Option<bool>, s: Snapshot, t: int)
    requires Reported(x, vm, report) && vm != ""
    requires Times(s) && ReadableState(s.state) && s.version <= x.shadow.version
    requires s.version == x.shadow.version ==> s.state.run == x.shadow.state.run
    requires !AssignedTo(s.state, report.runId, vm) ==> Dead(x, report.runId)
    ensures PcInv(x, ActOnOrphan(vm, report, supported, s, t))
  {
    if BindStopping(s.state, report.runId, vm).Some? { BindOk(x, s, report.runId, vm); }
  }

  lemma OrphanReadOk(x: SoundWorld, pc: OrphanPc, reply: Reply)
    requires OrphanInv(x, pc) && Answers(x, OrphanDemand(pc), reply) && (pc.AtOrphanStatus? || pc.AtOrphanRead?)
    ensures PcInv(x, AdvanceOrphan(pc, reply))
  {
    ReadIsCopy(x);
    if pc.AtOrphanRead? && reply.Snap? && !AssignedTo(reply.s.state, pc.report.runId, pc.vm) {
      UnheldIsDead(x, pc.report.runId, pc.vm);
    }
  }

  lemma OrphanActOk(x: World, pc: OrphanPc, reply: Reply)
    requires OrphanInv(x, pc) && (pc.AtOrphanGet? || pc.AtOrphanSupported? || pc.AtOrphanClock?
                                  || pc.AtOrphanProjection?)
    requires pc.AtOrphanClock? || pc.AtOrphanProjection? ==> pc.vm != ""
    ensures PcInv(x, AdvanceOrphan(pc, reply))
  {
    hide AdvanceObservation, AdvanceReservation, AdvanceLaunch, AdvanceHost, AdvanceAssignment, AdvanceSample,
      GatherInv, ReserveInv, LaunchPcInv, HostInv, AssignInv, SampleInv, Observe, ActOnOrphan;
    match pc
    case AtOrphanClock(vm, report, supported, s) =>
      if reply.Time? { ActOk(x, vm, report, supported, s, reply.sampled); }
    case AtOrphanProjection(vm, report, supported, s, t) =>
      ActOk(x, vm, report, supported, s, t);
      if reply.Projection? && reply.o.Some? {
        if t > 0 { ObserveReadable(s.state.activation, reply.o.value, t, MAX_BUDGET, None); }
        ActOk(x, vm, report, supported, ObserveOrphanInactive(s, reply.o.value, t), t);
      }
    case _ =>
  }

  // ---------------------------------------------------------------- one turn of one pass

  /** A pass, the answer it just got, and the world it got it from. */
  datatype Encounter = Encounter(x: World, p: Pass, reply: Reply)

  ghost predicate Answered(t: Encounter) { WorldInv(t.x) && PassInv(t.x, t.p) && Answers(t.x, Demand(t.p), t.reply) }

  type AnsweredTurn = t: Encounter | Answered(t)
    ghost witness Encounter(IDLE, Pass(Config(1, "1.0.0", 1), Clock(1, 0), Failed, ""), Done)

  lemma GatherTurn(t: AnsweredTurn)
    requires t.p.pc.Gathering?
    ensures PassInv(t.x, Advance(t.p, t.reply))
  {
    hide AdvanceReservation, AdvanceLaunch, AdvanceHost, AdvanceAssignment, AdvanceSample, AdvanceOrphan,
      ReserveInv, LaunchPcInv, HostInv, AssignInv, SampleInv, OrphanInv, ShadowInv, CloudInv, BindingInv,
      Savable, Copy, Observe, AcceptLaunch, Authorized;
    ReadIsCopy(t.x);
    ObservationOk(t.x, t.p.cfg, t.p.pc.g, t.reply);
  }

  lemma TimingTurn(t: AnsweredTurn)
    requires t.p.pc.Timing?
    ensures PassInv(t.x, Advance(t.p, t.reply))
  {
    hide AdvanceObservation, AdvanceReservation, AdvanceLaunch, AdvanceHost, AdvanceAssignment, AdvanceSample,
      AdvanceOrphan, GatherInv, ReserveInv, LaunchPcInv, HostInv, AssignInv, SampleInv, OrphanInv, ShadowInv,
      CloudInv, BindingInv, Savable, Copy, Observe, AcceptLaunch, Authorized;
    if OnPassClock(t.p.pc) && t.reply.Time? {
      var i := Sample(t.p.clock, t.reply.sampled, t.reply.steady);
      if i.Instant? { DecideOk(t.x, t.p.cfg, t.p.pc.t, i.at); }
    }
  }

  lemma ReserveTurn(t: AnsweredTurn)
    requires t.p.pc.Reserving?
    ensures PassInv(t.x, Advance(t.p, t.reply))
  {
    hide AdvanceObservation, AdvanceLaunch, AdvanceHost, AdvanceAssignment, AdvanceSample, AdvanceOrphan,
      GatherInv, LaunchPcInv, HostInv, AssignInv, SampleInv, OrphanInv, ShadowInv, CloudInv, BindingInv,
      Savable, Copy, Observe, Settle, AcceptLaunch, Authorized;
    ReservationOk(t.x, t.p.cfg, t.p.pc.r, t.reply);
  }

  lemma LaunchTurn(t: AnsweredTurn)
    requires t.p.pc.Launching? && !t.p.pc.l.AtRecordSave? && !t.p.pc.l.AtRecordClock?
    ensures PassInv(t.x, Advance(t.p, t.reply))
  {
    hide AdvanceObservation, AdvanceReservation, AdvanceHost, AdvanceAssignment, AdvanceSample, AdvanceOrphan,
      GatherInv, ReserveInv, HostInv, AssignInv, SampleInv, OrphanInv, ShadowInv, CloudInv, BindingInv,
      Savable, Copy, Observe, Settle, AcceptLaunch, Authorized;
    ReadIsCopy(t.x);
    LaunchReadOk(t.x, t.p.pc.l, t.reply);
  }

  lemma RecordTurn(t: AnsweredTurn)
    requires t.p.pc.Launching? && (t.p.pc.l.AtRecordSave? || t.p.pc.l.AtRecordClock?)
    ensures PassInv(t.x, Advance(t.p, t.reply))
  {
    hide AdvanceObservation, AdvanceReservation, AdvanceHost, AdvanceAssignment, AdvanceSample, AdvanceOrphan,
      GatherInv, ReserveInv, HostInv, AssignInv, SampleInv, OrphanInv, CloudInv, BindingInv, Savable, Copy,
      Observe, Settle, AcceptLaunch, Authorized;
    if t.p.pc.l.AtRecordSave? { RecordSavedOk(t.x, t.p.pc.l, t.reply); }
    else if t.reply.Time? {
      var i := Sample(t.p.clock, t.reply.sampled, t.reply.steady);
      if i.Instant? { RecordOk(t.x, t.p.pc.l.run, t.p.pc.l.vm, t.p.pc.l.attempt, t.p.pc.l.s, i.at); }
    }
  }

  lemma HostTurn(t: AnsweredTurn)
    requires t.p.pc.Hosting?
    ensures PassInv(t.x, Advance(t.p, t.reply))
  {
    hide AdvanceObservation, AdvanceReservation, AdvanceLaunch, AdvanceAssignment, AdvanceSample,
      AdvanceOrphan, GatherInv, ReserveInv, LaunchPcInv, AssignInv, SampleInv, OrphanInv, ShadowInv, CloudInv,
      BindingInv, Savable, Copy, Observe, Settle, AcceptLaunch, Authorized;
    ReadIsCopy(t.x);
    if t.p.pc.h.AtHostSave? { HostSavedOk(t.x, t.p.cfg, t.p.pc.h, t.reply); }
        else { HostReadOk(t.x, t.p.cfg, t.p.pc.h, t.reply); }
  }

  lemma AssignTurn(t: AnsweredTurn)
    requires t.p.pc.Assigning?
    ensures PassInv(t.x, Advance(t.p, t.reply))
  {
    hide AdvanceObservation, AdvanceReservation, AdvanceLaunch, AdvanceHost, AdvanceSample, AdvanceOrphan,
      GatherInv, ReserveInv, LaunchPcInv, HostInv, SampleInv, OrphanInv, ShadowInv, CloudInv, BindingInv,
      Savable, Copy, Observe, Settle, AcceptLaunch, Authorized;
    ReadIsCopy(t.x);
    if t.p.pc.a.AtAssignSave? { AssignSavedOk(t.x, t.p.pc.a, t.reply); }
    else if t.p.pc.a.AtAssignClock? && t.reply.Time? {
      var i := Sample(t.p.clock, t.reply.sampled, t.reply.steady);
      if i.Instant? { AssignOk(t.x, t.p.pc.a.d, t.p.pc.a.run, t.p.pc.a.verifiedAt, t.p.pc.a.s, i.at); }
    } else { AssignReadOk(t.x, t.p.pc.a, t.reply); }
  }

  lemma SampleTurn(t: AnsweredTurn)
    requires t.p.pc.Sampling?
    ensures PassInv(t.x, Advance(t.p, t.reply))
  {
    hide AdvanceObservation, AdvanceReservation, AdvanceLaunch, AdvanceHost, AdvanceAssignment, AdvanceOrphan,
      GatherInv, ReserveInv, LaunchPcInv, HostInv, AssignInv, OrphanInv, ShadowInv, CloudInv, BindingInv,
      Savable, Copy, Observe, Settle, AcceptLaunch, Authorized;
    ReadIsCopy(t.x);
    var m := t.p.pc.m;
    if m.AtSampleReread? || m.AtFenceRead? || m.AtKnownRead? || m.AtKnownDescribe? { SampleStopOk(t.x, m, t.reply); }
    else { SampleReadOk(t.x, m, t.reply); }
  }

  lemma OrphanTurn(t: AnsweredTurn)
    requires t.p.pc.Orphaning?
    ensures PassInv(t.x, Advance(t.p, t.reply))
  {
    hide AdvanceObservation, AdvanceReservation, AdvanceLaunch, AdvanceHost, AdvanceAssignment, AdvanceSample,
      GatherInv, ReserveInv, LaunchPcInv, HostInv, AssignInv, SampleInv, ShadowInv, BindingInv, Savable, Copy,
      Observe, Settle, AcceptLaunch, Authorized;
    var o := t.p.pc.o;
    if o.AtOrphanStatus? || o.AtOrphanRead? { OrphanReadOk(t.x, o, t.reply); } else { OrphanActOk(t.x, o, t.reply); }
  }

  lemma FinalTurn(t: AnsweredTurn)
    requires (t.p.pc.AtTerminate? || t.p.pc.AtHandlerSave? || t.p.pc.Finished? || t.p.pc.Failed?)
    ensures PassInv(t.x, Advance(t.p, t.reply))
  {
    hide AdvanceObservation, AdvanceReservation, AdvanceLaunch, AdvanceHost, AdvanceAssignment, AdvanceSample,
      AdvanceOrphan, GatherInv, ReserveInv, LaunchPcInv, HostInv, AssignInv, SampleInv, OrphanInv, Observe,
      Settle, AcceptLaunch, Authorized, Savable, Copy, ShadowInv, BindingInv;
    if t.p.pc.AtHandlerSave? && t.reply == Saved(true) && t.p.pc.thenStop != "" {
      UnheldIsDead(t.x, t.x.vms[t.p.pc.thenStop], t.p.pc.thenStop);
    }
  }

  lemma AdvanceOk(t: AnsweredTurn)
    ensures PassInv(t.x, Advance(t.p, t.reply))
  {
    match t.p.pc
    case Gathering(_) => GatherTurn(t);
    case Timing(_) => TimingTurn(t);
    case Reserving(_) => ReserveTurn(t);
    case Launching(l) => if l.AtRecordSave? || l.AtRecordClock? { RecordTurn(t); } else { LaunchTurn(t); }
    case Hosting(_) => HostTurn(t);
    case Assigning(_) => AssignTurn(t);
    case Sampling(_) => SampleTurn(t);
    case Orphaning(_) => OrphanTurn(t);
    case _ => FinalTurn(t);
  }
}
