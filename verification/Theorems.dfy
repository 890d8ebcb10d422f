/** Safety of the controller protocol over every interleaving of its writers. */
module ProtocolTheorems {
  import opened Common
  import opened Activations
  import opened Controller
  import opened Snapshots
  import opened Programs
  import opened World
  import opened Safety
  import opened Evidence

  // ---------------------------------------------------------------- induction over interleavings

  lemma GrowsTransitive(u: World, v: World, w: World)
    requires Grows(u, v) && Grows(v, w)
    ensures Grows(u, w)
  {
  }

  lemma BesidePasses(x: SoundWorld, y: World)
    requires y == x.(passes := y.passes)
    ensures WorldInv(y) && Grows(x, y)
  {
    GrowsBeside(x, y);
  }

  /** What one answer and the pass's own computation leave behind. */
  lemma PassTurn(w: World, p: Pass, choice: Reply, now: int)
    requires WorldInv(w) && PassInv(w, p)
    ensures var (x, reply) := Handle(w, Demand(p), choice, now); Sound(w, x) && PassInv(x, Advance(p, reply))
  {
    hide PcInv, LaunchInv, Handle, Advance, Demand, Grows, ShadowInv, CloudInv, BindingInv, Answers;
    var q := Demand(p);
    DemandOk(w, p);
    HandleOk(w, q, choice, now);
    HandleAnswers(w, q, choice, now);
    var (x, reply) := Handle(w, q, choice, now);
    PassStable(Span(w, x), p);
    AdvanceOk(Encounter(x, p, reply));
  }

  lemma TurnSound(w: World, id: nat, choice: Reply, now: int)
    requires Inv(w) && id in w.passes
    ensures Inv(Step(w, Turn(id, choice, now))) && Grows(w, Step(w, Turn(id, choice, now)))
  {
    hide PassInv, WorldInv, Handle, Advance, Demand, Entry;
    var p := w.passes[id];
    PassTurn(w, p, choice, now);
    var (x, reply) := Handle(w, Demand(p), choice, now);
    var y := Step(w, Turn(id, choice, now));
    BesidePasses(x, y);
    GrowsTransitive(w, x, y);
    AllStable(Span(w, y));
    PassStable(Span(x, y), Advance(p, reply));
  }

  lemma SpawnSound(w: World, id: nat, p: Pass)
    requires Inv(w)
    ensures Inv(Step(w, Spawn(id, p))) && Grows(w, Step(w, Spawn(id, p)))
  {
    var y := Step(w, Spawn(id, p));
    BesidePasses(w, y);
    AllStable(Span(w, y));
    if y != w { EntryInv(y, p); }
  }

  lemma EntryInv(w: World, p: Pass)
    requires Entry(p)
    ensures PassInv(w, p)
  {
  }

  lemma AppearSound(w: World, runId: string, vm: string)
    requires Inv(w)
    ensures Inv(Step(w, Appear(runId, vm))) && Grows(w, Step(w, Appear(runId, vm)))
  {
    hide PassInv, Handle, Advance, Demand, Entry;
    var y := Step(w, Appear(runId, vm));
    GrowsBeside(w, y);
    if y != w { NewVmOk(w, runId, vm); }
    AllStable(Span(w, y));
  }

  lemma StepSound(w: World, e: Event)
    requires Inv(w)
    ensures Inv(Step(w, e)) && Grows(w, Step(w, e))
  {
    match e
    case Spawn(id, p) => SpawnSound(w, id, p);
    case Turn(id, choice, now) => if id in w.passes { TurnSound(w, id, choice, now); } else { GrowsBeside(w, w); }
    case Appear(runId, vm) => AppearSound(w, runId, vm);
  }

  lemma {:induction false} ExecSound(w: World, events: seq<Event>)
    requires Fresh(w)
    ensures Inv(Exec(w, events))
  {
    if events != [] {
      ExecSound(w, events[..|events| - 1]);
      StepSound(Exec(w, events[..|events| - 1]), events[|events| - 1]);
    }
  }

  lemma {:induction false} ExecGrows(w: World, events: seq<Event>, more: seq<Event>)
    requires Fresh(w)
    ensures Grows(Exec(w, events), Exec(w, events + more))
  {
    if more == [] {
      assert events + more == events;
      var x := Exec(w, events);
      GrowsBeside(x, x);
    } else {
      var shorter := events + more[..|more| - 1];
      assert (events + more)[..|events + more| - 1] == shorter;
      ExecGrows(w, events, more[..|more| - 1]);
      ExecSound(w, shorter);
      StepSound(Exec(w, shorter), more[|more| - 1]);
      GrowsTransitive(Exec(w, events), Exec(w, shorter), Exec(w, events + more));
    }
  }

  // ---------------------------------------------------------------- the theorems

  /** The shadow names the VM as a reserved or running assignment. */
  predicate HoldsLive(s: State, vm: string) { LiveRun(s) && s.run.value.vm == vm }

  /** The shadow holds the run that was launched as this VM as a reserved or running one, its VM recorded or not. */
  predicate HoldsRunOf(w: World, vm: string) {
    LiveRun(w.shadow.state) && vm in w.vms && w.shadow.state.run.value.id == w.vms[vm]
  }

  /**
   * A `terminate` is issued only for a VM that the shadow does not hold as a live assignment at that moment, nor at any
   * later moment of any continuation: it neither names the VM nor holds the run whose launch made it, even while that
   * run's VM id is still unrecorded.
   */
  lemma TerminatesOnlyUnassigned(w: World, events: seq<Event>, more: seq<Event>, id: nat)
    requires Fresh(w) && id in Exec(w, events).passes && Demand(Exec(w, events).passes[id]).Terminate?
    ensures var x, y := Exec(w, events), Exec(w, events + more);
            var vm := Demand(x.passes[id]).vm;
            && vm in x.vms && vm in y.vms && y.vms[vm] == x.vms[vm]
            && !HoldsLive(x.shadow.state, vm) && !HoldsRunOf(x, vm)
            && !HoldsLive(y.shadow.state, vm) && !HoldsRunOf(y, vm)
  {
    var x, y := Exec(w, events), Exec(w, events + more);
    ExecSound(w, events);
    ExecSound(w, events + more);
    ExecGrows(w, events, more);
    var vm := Demand(x.passes[id]).vm;
    assert PassInv(x, x.passes[id]);
    TerminateIsFinal(x.passes[id], vm);
    assert Dead(x, x.vms[vm]) && Dead(y, x.vms[vm]) && y.vms[vm] == x.vms[vm];
    DeadVmIsUnheld(x, vm);
    DeadVmIsUnheld(y, vm);
  }

  lemma TerminateIsFinal(p: Pass, vm: string)
    requires Demand(p) == Terminate(vm)
    ensures p.pc == AtTerminate(vm)
  {
  }

  lemma DeadVmIsUnheld(w: World, vm: string)
    requires WorldInv(w) && vm in w.vms && Dead(w, w.vms[vm])
    ensures !HoldsLive(w.shadow.state, vm)
  {
  }

  /**
   * Once a stored run is stopping or gone from the shadow, no later shadow and no projection gives its runtime
   * a born lifecycle again.
   */
  lemma RevocationIsPermanent(w: World, events: seq<Event>, more: seq<Event>, run: Assignment, o: Observation)
    requires Fresh(w) && run.runId in Exec(w, events).stored
    requires var s := Exec(w, events).shadow.state;
             s.run.None? || s.run.value.id != run.runId || s.run.value.phase == Stopping
    ensures !AssignedLifecycle(run, o, Exec(w, events + more).shadow.state).Born?
  {
    ExecGrows(w, events, more);
    assert Dead(Exec(w, events), run.runId);
  }

  /**
   * A run keeps its activation, release and request; its VM id is written at most once; stopping is absorbing.
   */
  lemma RunIdentityIsFixed(w: World, events: seq<Event>, more: seq<Event>)
    requires Fresh(w)
    requires Exec(w, events).shadow.state.run.Some? && Exec(w, events + more).shadow.state.run.Some?
    requires Exec(w, events).shadow.state.run.value.id == Exec(w, events + more).shadow.state.run.value.id
    ensures var a, b := Exec(w, events).shadow.state.run.value, Exec(w, events + more).shadow.state.run.value;
            && CoreOf(a) == CoreOf(b) && (a.vm != "" ==> b.vm == a.vm) && (a.phase == Stopping ==> b.phase == Stopping)
  {
    var x, y := Exec(w, events), Exec(w, events + more);
    ExecSound(w, events);
    ExecSound(w, events + more);
    ExecGrows(w, events, more);
    var a, b := x.shadow.state.run.value, y.shadow.state.run.value;
    assert Known(x, a) && Known(y, b);
    if a.phase == Stopping { assert Dead(x, a.id) && Dead(y, a.id); }
  }

  /**
   * Every launch uses a reservation an earlier conditional write stored, unchanged, for the run's own activation,
   * unexpired at the pass clock, in a pass that verified the lifecycle active: in earlier turns of its own it was told
   * that the capability is declared and was answered the active projection its record carries.
   */
  lemma LaunchesAreStored(w: World, events: seq<Event>, id: nat)
    requires Fresh(w) && id in Exec(w, events).passes && Demand(Exec(w, events).passes[id]).Launch?
    ensures var x := Exec(w, events);
            var run := Demand(x.passes[id]).run;
            && run.id in x.stored && x.stored[run.id] == CoreOf(run)
            && exists d, t :: && x.passes[id].pc == Launching(AtLaunch(d, run, t)) && ToldActive(w, events, id, d)
                              && d.s.state.run == Some(run) && run.phase != Stopping
                              && OwnActivationAuthorized(d.s.state, t) && OwnActivationAuthorized(d.s.state, d.at)
  {
    var x := Exec(w, events);
    ExecSound(w, events);
    assert PassInv(x, x.passes[id]);
    LaunchPoint(x.passes[id]);
    var l := x.passes[id].pc.l;
    assert LaunchPcInv(x, l);
    assert x.passes[id].pc == Launching(AtLaunch(l.d, l.run, l.t));
    hide Exec, WasAnswered;
    ClaimsWereAnswered(w, events, id, l.d);
  }

  /**
   * In turns of its own the pass was told that the capability is declared and answered the draft's active projection.
   */
  ghost predicate ToldActive(w: World, events: seq<Event>, id: nat, d: Draft) {
    && WasAnswered(w, events, id, AskSupported, Flag(Some(true)))
    && exists o :: && WasAnswered(w, events, id, AskProjection, Projection(Some(o)))
                   && RecordsActive(d.s.state.activation, o)
  }

  lemma LaunchPoint(p: Pass)
    requires Demand(p).Launch?
    ensures p.pc.Launching? && p.pc.l.AtLaunch? && Demand(p) == Launch(p.pc.l.run)
  {
  }

  /**
   * The main save stores a live run only if its own activation is unexpired at the decision time and the lifecycle is
   * not inactive. A lifecycle taken as active was answered so in a turn of this pass; when it cannot be verified, the
   * first failure is under 15 seconds old or the runtime itself was verified in a turn of this pass.
   */
  lemma MainSaveRespectsLimits(w: World, events: seq<Event>, id: nat, d: Draft)
    requires Fresh(w) && id in Exec(w, events).passes
    requires Exec(w, events).passes[id].pc == Reserving(AtMainSave(d)) && LiveRun(d.s.state)
    ensures OwnActivationAuthorized(d.s.state, d.at) && d.current != LifecycleInactive
    ensures d.current == LifecycleActive ==> ToldActive(w, events, id, d)
    ensures d.current == LifecycleUnavailable ==>
              WasAnswered(w, events, id, AskVerified, Flag(Some(true))) || 0 <= d.at - d.s.unverifiedSince < 15
  {
    ExecSound(w, events);
    assert PassInv(Exec(w, events), Exec(w, events).passes[id]);
    hide Exec, WasAnswered;
    ClaimsWereAnswered(w, events, id, d);
  }

  /**
   * The VM returned by a launch is not lost by a pass that ends with `again`: in every later world it was passed to
   * `terminate`, or the shadow names it, or the cloud has reported it terminated.
   */
  lemma LaunchedVmIsTracked(w: World, events: seq<Event>, more: seq<Event>, id: nat)
    requires Fresh(w) && id in Exec(w, events).passes
    requires Exec(w, events).passes[id].pc == Finished(Again) && Exec(w, events).passes[id].launched != ""
    ensures var vm, y := Exec(w, events).passes[id].launched, Exec(w, events + more);
            vm in y.stops || vm in y.ended || (y.shadow.state.run.Some? && y.shadow.state.run.value.vm == vm)
  {
    var x, y := Exec(w, events), Exec(w, events + more);
    ExecSound(w, events);
    ExecSound(w, events + more);
    ExecGrows(w, events, more);
    var p := x.passes[id];
    assert PassInv(x, p) && Tracked(x, p.launched);
    if p.launched !in x.stops {
      assert y.bound[x.vms[p.launched]] == p.launched;
    }
  }

  /**
   * At the moment such a pass ends, the VM its launch returned has been passed to `terminate` or is the one the shadow
   * names.
   */
  lemma LaunchEndsNamedOrStopped(w: World, events: seq<Event>, id: nat, choice: Reply, now: int)
    requires Fresh(w) && id in Exec(w, events).passes && !Exec(w, events).passes[id].pc.Finished?
    requires var p := Step(Exec(w, events), Turn(id, choice, now)).passes[id];
             p.pc == Finished(Again) && p.launched != ""
    ensures var y := Step(Exec(w, events), Turn(id, choice, now));
            var vm := y.passes[id].launched;
            vm in y.stops || (y.shadow.state.run.Some? && y.shadow.state.run.value.vm == vm)
  {
    var x := Exec(w, events);
    ExecSound(w, events);
    var p := x.passes[id];
    assert PassInv(x, p);
    var reply := Handle(x, Demand(p), choice, now).1;
    hide Exec, Inv, Advance, Handle, PcInv, LaunchInv, Demand;
    EndsFromFew(p, reply);
    LaunchPlaces(x, p);
    if p.pc.AtTerminate? { StopIsRecorded(x, p.launched, choice, now); TerminateDemand(p); }
    else if p.pc.l.AtRecordClock? { RecordClockGoesOn(x, p, reply); }
    else { RecordNamesVm(x, p, choice, now); }
  }

  lemma TerminateDemand(p: Pass)
    requires p.pc.AtTerminate?
    ensures Demand(p) == Terminate(p.pc.vm)
  {
  }

  lemma StopIsRecorded(w: World, vm: string, choice: Reply, now: int)
    ensures vm in Handle(w, Terminate(vm), choice, now).0.stops
  {
  }

  /** Timing a launched VM never ends the pass: no other run's record can name the VM just launched. */
  lemma RecordClockGoesOn(w: World, p: Pass, reply: Reply)
    requires p.pc.Launching? && p.pc.l.AtRecordClock? && p.pc.l.vm != "" && PcInv(w, p.pc)
    ensures Advance(p, reply).pc != Finished(Again)
  {
    var l := p.pc.l;
    NoForeignHolder(w, l);
    hide Authorized;
  }

  /** A recorded launch that ends the pass is in the shadow at once. */
  lemma RecordNamesVm(w: World, p: Pass, choice: Reply, now: int)
    requires p.pc.Launching? && p.pc.l.AtRecordSave? && PcInv(w, p.pc)
    requires Advance(p, Handle(w, Demand(p), choice, now).1).pc == Finished(Again)
    ensures var s := Handle(w, Demand(p), choice, now).0.shadow.state; s.run.Some? && s.run.value.vm == p.pc.l.vm
  {
  }

  /** The points from which an answer ends a pass with `again`. */
  predicate MayEnd(pc: Pc) {
    || pc.AtTerminate? || (pc.Launching?
                           && (pc.l.AtRecordClock? || pc.l.AtRecordSave? || pc.l.AtExpiredRead? || pc.l.AtExpiredSave?))
    || pc.Hosting? || pc.Assigning?
  }

  lemma EndsFromFew(p: Pass, reply: Reply)
    requires !p.pc.Finished? && Advance(p, reply).pc == Finished(Again)
    ensures MayEnd(p.pc) && Advance(p, reply).launched == p.launched
  {
    hide AcceptLaunch, Observe, Authorized, Fenced, Cleared, DecideOrphan, ObserveOrphanInactive, BindStopping, Reserve;
  }

  lemma LaunchPlaces(w: World, p: Pass)
    requires LaunchInv(w, p) && MayEnd(p.pc) && p.launched != ""
    ensures p.pc == AtTerminate(p.launched)
            || (p.pc.Launching? && (p.pc.l.AtRecordClock? || p.pc.l.AtRecordSave?) && p.pc.l.vm == p.launched)
  {
  }

  /** A VM is never recorded under two runs, so no other run's record can name the VM just launched. */
  lemma NoForeignHolder(w: World, l: LaunchPc)
    requires LaunchPcInv(w, l) && l.AtRecordClock? && l.vm != ""
    ensures !(l.s.state.run.Some? && l.s.state.run.value.id != l.run.id && l.s.state.run.value.vm == l.vm)
  {
  }

  /** Every shadow state any interleaving reaches is one the controller can read back. */
  lemma ReachableIsReadable(w: World, events: seq<Event>)
    requires Fresh(w)
    ensures ReadableState(Exec(w, events).shadow.state)
  {
    ExecSound(w, events);
  }
}
