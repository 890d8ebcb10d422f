/**
 * `reconcile` in its own imperative form (agent/src/reconcile.cpp), run against an arbitrary backend. The backend
 * object carries the small-step program whose interleavings are proved safe; each call must be the one that program
 * demands, so the method is proved to make exactly its calls, with its arguments, in its order, and to end with its
 * result.
 */
module Reconcile {
  import opened Common
  import opened Activations
  import opened Controller
  import opened Snapshots
  import opened PassClock
  import opened Programs

  class Backend {
    /** The answers of the environment, in the order of the calls; every such function is possible. */
    const env: nat -> Reply
    const entry: Pass
    var replies: seq<Reply>
    var pass: Pass

    ghost predicate Valid()
      reads this
    {
      pass == Follow(entry, replies)
    }

    constructor (env: nat -> Reply, p: Pass)
      ensures Valid() && pass == p && entry == p && this.env == env && replies == []
    {
      this.env, entry, replies, pass := env, p, [], p;
    }

    method Call(q: Request) returns (reply: Reply)
      requires Valid() && Demand(pass) == q
      modifies this
      ensures Valid() && pass == Advance(old(pass), reply) && replies == old(replies) + [reply]
    {
      reply := env(|replies|);
      pass := Advance(pass, reply);
      ghost var longer := replies + [reply];
      assert longer[..|longer| - 1] == replies;
      replies := replies + [reply];
    }

    /** `current_time`: the sampled wall time, unless the steady clock has moved further since the anchor. */
    method CurrentTime(anchorWall: int, anchorSteady: int) returns (t: Throwing<int>, wall: int, steady: int)
      requires Valid() && OnPassClock(pass.pc) && pass.clock == Clock(anchorWall, anchorSteady)
      modifies this
      ensures Valid() && pass.cfg == old(pass.cfg) && pass.launched == old(pass.launched)
      ensures t.Raised? ==> pass.pc == Failed
      ensures t.Returned? ==> pass.pc == AtInstant(pass.cfg, old(pass.pc), t.value) && pass.clock == Clock(wall, steady)
    {
      hide Follow, AtInstant, Next;
      wall, steady := anchorWall, anchorSteady;
      var reply := Call(ReadClock);
      if !reply.Time? || reply.sampled <= 0 { return Raised, wall, steady; }
      var elapsed := Seconds(reply.steady - anchorSteady);
      if elapsed < 0 || anchorWall > INT64_MAX - elapsed { return Raised, wall, steady; }
      var projected := anchorWall + elapsed;
      if reply.sampled > projected {
        wall, steady := reply.sampled, reply.steady;
        return Returned(reply.sampled), wall, steady;
      }
      return Returned(projected), wall, steady;
    }
  }

  method ReadLifecycle(io: Backend, now: int, budget: int)
    returns (ok: bool, snapshot: Snapshot, supported: Option<bool>, current: Lifecycle)
    requires io.Valid() && io.pass.pc == Gathering(AtRead) && io.pass.cfg.now == now && io.pass.cfg.budget == budget
    modifies io
    ensures io.Valid() && io.pass.cfg == old(io.pass.cfg) && io.pass.clock == old(io.pass.clock)
    ensures if ok then io.pass.pc == Judge(io.pass.cfg, snapshot, supported, current) else io.pass.pc == Failed
  {
    hide Follow;
    snapshot, supported, current := Snapshot(0, 0, 0, 0, "", State(UNSEEN, None)), None, LifecycleUnavailable;
    var reply := io.Call(Read);
    if !reply.Snap? { return false, snapshot, supported, current; }
    snapshot := reply.s;
    reply := io.Call(AskSupported);
    if !reply.Flag? { return false, snapshot, supported, current; }
    supported := reply.flag;
    if supported == Some(false) { current := LifecycleInactive; }
    if supported == Some(true) {
      reply := io.Call(AskProjection);
      if !reply.Projection? { return false, snapshot, supported, current; }
      if reply.o.Some? && reply.o.value.active.Some? {
        var o := reply.o.value;
        var newId := None;
        if NeedsIdentity(snapshot.state.activation, o, now, budget) {
          reply := io.Call(NewIdentity);
          if !reply.Identity? { return false, snapshot, supported, current; }
          newId := Some(reply.id);
        }
        var observed := Observe(snapshot.state.activation, o, now, budget, newId);
        if observed.Threw? { return false, snapshot, supported, current; }
        snapshot := snapshot.(state := snapshot.state.(activation := observed.next));
        if observed.change != Unverified && observed.change != Stale {
          current := if o.active.value then LifecycleActive else LifecycleInactive;
          snapshot := snapshot.(verifiedAt := now);
        }
      }
    }
    ok := true;
  }

  method DecideTime(io: Backend, now: int, before: Snapshot, supported: Option<bool>, current: Lifecycle, wall0: int,
                    steady0: int)
    returns (ok: bool, snapshot: Snapshot, decisionTime: int, vouched: bool, wall: int, steady: int)
    requires io.Valid() && io.pass.pc == Judge(io.pass.cfg, before, supported, current) && io.pass.cfg.now == now
    requires io.pass.clock == Clock(wall0, steady0)
    modifies io
    ensures io.Valid() && io.pass.cfg == old(io.pass.cfg)
    ensures if ok then io.pass.pc == Settle(io.pass.cfg, Draft(snapshot, current, decisionTime, vouched))
            && io.pass.clock == Clock(wall, steady)
            else io.pass.pc == Failed
  {
    hide Follow;
    snapshot, decisionTime, vouched, wall, steady := before, now, false, wall0, steady0;
    if current == LifecycleUnavailable { snapshot := snapshot.(lastError := UNVERIFIABLE); }
    else if supported == Some(false) { snapshot := snapshot.(lastError := UNDECLARED); }
    else { snapshot := snapshot.(lastError := ""); }
    if current == LifecycleUnavailable && snapshot.state.run.Some? {
      var t;
      t, wall, steady := io.CurrentTime(wall, steady);
      if t.Raised? { return false, snapshot, decisionTime, vouched, wall, steady; }
      decisionTime := t.value;
      if snapshot.unverifiedSince == 0 { snapshot := snapshot.(unverifiedSince := decisionTime); }
      else if decisionTime < snapshot.unverifiedSince { snapshot := StopRun(snapshot); }
      else if decisionTime - snapshot.unverifiedSince >= 15 {
        var mayDefer := snapshot.state.run.value.phase == Running
            && Authorized(snapshot.state.activation, decisionTime);
        if mayDefer {
          var reply := io.Call(AskVerified);
          if !reply.Flag? { return false, snapshot, decisionTime, vouched, wall, steady; }
          mayDefer := reply.flag == Some(true);
        }
        t, wall, steady := io.CurrentTime(wall, steady);
        if t.Raised? { return false, snapshot, decisionTime, vouched, wall, steady; }
        decisionTime, vouched := t.value, mayDefer;
        if !mayDefer { snapshot := StopRun(snapshot); }
      }
    } else { snapshot := snapshot.(unverifiedSince := 0); }
    ok := true;
  }

  /** Lines 74-79: reserve a run where there is none and one is due, and save. */
  method SaveDraft(io: Backend, release: string, d: Draft) returns (done: Option<Throwing<Result>>, saved: Draft)
    requires io.Valid() && io.pass.cfg.release == release
    requires io.pass.pc == Reserving(if ReservationDue(d) then AtRunId(d) else AtMainSave(d))
    modifies io
    ensures io.Valid() && io.pass.cfg == old(io.pass.cfg) && io.pass.clock == old(io.pass.clock)
    ensures match done
            case None => io.pass.pc == AfterMainSave(saved) && saved.current == d.current
            case Some(Raised) => io.pass.pc == Failed
            case Some(Returned(r)) => io.pass.pc == Finished(r)
  {
    hide Follow, Reserve, ReservationDue, AfterMainSave, AtInstant, Sample;
    hide AdvanceObservation, AdvanceLaunch, AdvanceHost, AdvanceAssignment, AdvanceSample, AdvanceOrphan;
    saved := d;
    if ReservationDue(d) {
      var reply := io.Call(NewIdentity);
      if !reply.Identity? { return Some(Raised), saved; }
      var runId := reply.id;
      reply := io.Call(MakeRequest(runId, d.at));
      if !reply.Text? { return Some(Raised), saved; }
      match Reserve(d.s.state, d.current, d.at, runId, release, reply.text)
      case InvalidReservation => return Some(Raised), saved;
      case NotReserved =>
      case ReservedRun(next) => saved := d.(s := d.s.(state := next));
    }
    var answer := io.Call(Save(saved.s, d.at, saved.s.verifiedAt));
    if !answer.Saved? { return Some(Raised), saved; }
    if !answer.ok { return Some(Returned(Conflict)), saved; }
    done := None;
  }

  /** Lines 58-79: distrust a verification from the future, fence, clear a superseded run, reserve and save. */
  method ReserveAndSave(io: Backend, release: string, d: Draft) returns (done: Option<Throwing<Result>>, saved: Draft)
    requires io.Valid() && io.pass.pc == Settle(io.pass.cfg, d) && io.pass.cfg.release == release
    modifies io
    ensures io.Valid() && io.pass.cfg == old(io.pass.cfg) && io.pass.clock == old(io.pass.clock)
    ensures match done
            case None => io.pass.pc == AfterMainSave(saved) && saved.current == d.current
            case Some(Raised) => io.pass.pc == Failed
            case Some(Returned(r)) => io.pass.pc == Finished(r)
  {
    hide Follow, Fence, Authorized, AfterMainSave;
    var snapshot := d.s;
    if snapshot.verifiedAt > d.at {
      snapshot := StopRun(snapshot).(verifiedAt := 0);
    }
    snapshot := snapshot.(state := Fence(snapshot.state, d.current, d.at));
    if Superseded(snapshot.state, d.current, d.at) {
      snapshot := snapshot.(state := snapshot.state.(run := None), stopRequestedAt := 0);
    }
    assert d.(s := snapshot) == Cleared(Fenced(d));
    hide Cleared, Fenced, StopRun, Superseded;
    done, saved := SaveDraft(io, release, d.(s := snapshot));
  }

  /** One attempt to record the launched VM; None when the save met a conflict. */
  method TryRecord(io: Backend, run: Run, vm: string, attempt: nat, wall0: int, steady0: int)
    returns (done: Option<Throwing<Result>>, wall: int, steady: int)
    requires io.Valid() && io.pass.pc == Launching(AtRecordRead(run, vm, attempt))
             && io.pass.clock == Clock(wall0, steady0)
    modifies io
    ensures io.Valid()
    ensures match done
            case None => && io.pass.clock == Clock(wall, steady)
                         && io.pass.pc == if attempt + 1 < 3 then Launching(AtRecordRead(run, vm, attempt + 1))
                            else Finished(Conflict)
            case Some(Raised) => io.pass.pc == Failed
            case Some(Returned(r)) => io.pass.pc == Finished(r)
  {
    hide Follow, Decide, Assign, AcceptLaunch, Sample, AdvanceObservation, AdvanceReservation, AdvanceHost,
      AdvanceAssignment, AdvanceSample, AdvanceOrphan;
    wall, steady := wall0, steady0;
    var reply := io.Call(Read);
    if !reply.Snap? { return Some(Raised), wall, steady; }
    var latest := reply.s;
    var t;
    t, wall, steady := io.CurrentTime(wall, steady);
    if t.Raised? { return Some(Raised), wall, steady; }
    var afterLaunch := t.value;
    var (next, result) := AcceptLaunch(latest.state, run.id, vm, false, LifecycleUnavailable, afterLaunch);
    latest := latest.(state := next);
    if result == StopUnassigned && latest.state.run.Some? && latest.state.run.value.id != run.id
        && latest.state.run.value.vm == vm {
      return Some(Returned(Again)), wall, steady;
    }
    reply := io.Call(Save(latest, afterLaunch, latest.verifiedAt));
    if !reply.Saved? { return Some(Raised), wall, steady; }
    if !reply.ok { return None, wall, steady; }
    if result == StopUnassigned {
      reply := io.Call(Terminate(vm));
      if !reply.Done? { return Some(Raised), wall, steady; }
    }
    return Some(Returned(Again)), wall, steady;
  }

  /** Lines 100-114: at most three attempts to record the launched VM. */
  method RecordLaunch(io: Backend, run: Run, vm: string, wall0: int, steady0: int) returns (r: Throwing<Result>)
    requires io.Valid() && io.pass.pc == Launching(AtRecordRead(run, vm, 0)) && io.pass.clock == Clock(wall0, steady0)
    modifies io
    ensures io.Valid() && (r.Raised? ==> io.pass.pc == Failed) && (r.Returned? ==> io.pass.pc == Finished(r.value))
  {
    hide Follow;
    var attempt, wall, steady := 0, wall0, steady0;
    while attempt < 3
      invariant io.Valid() && attempt <= 3 && io.pass.clock == Clock(wall, steady)
      invariant io.pass.pc == if attempt < 3 then Launching(AtRecordRead(run, vm, attempt)) else Finished(Conflict)
    {
      var done;
      done, wall, steady := TryRecord(io, run, vm, attempt, wall, steady);
      if done.Some? { return done.value; }
      attempt := attempt + 1;
    }
    return Returned(Conflict);
  }

  method LaunchReserved(io: Backend, d: Draft, run: Run, wall0: int, steady0: int) returns (r: Throwing<Result>)
    requires io.Valid() && io.pass.pc == Launching(AtLaunchClock(d, run)) && io.pass.clock == Clock(wall0, steady0)
    modifies io
    ensures io.Valid() && (r.Raised? ==> io.pass.pc == Failed) && (r.Returned? ==> io.pass.pc == Finished(r.value))
  {
    hide Follow;
    var t, wall, steady := io.CurrentTime(wall0, steady0);
    if t.Raised? { return Raised; }
    var beforeLaunch := t.value;
    if !Authorized(d.s.state.activation, beforeLaunch) {
      var reply := io.Call(Read);
      if !reply.Snap? { return Raised; }
      var latest := reply.s;
      if latest.state.run.None? || latest.state.run.value.id != run.id { return Returned(Again); }
      latest := StopRun(latest);
      reply := io.Call(Save(latest, beforeLaunch, latest.verifiedAt));
      if !reply.Saved? { return Raised; }
      return Returned(if reply.ok then Again else Conflict);
    }
    var launched := io.Call(Launch(run));
    if !launched.Vm? || launched.vm == "" { return Raised; }
    r := RecordLaunch(io, run, launched.vm, wall, steady);
  }

  /** Lines 119-132: the recorded VM has ended; clear its run unless the shadow has moved on. */
  method ClearTerminated(io: Backend, now: int, run: Run) returns (r: Throwing<Result>)
    requires io.Valid() && io.pass.pc == Hosting(AtTerminalRead(run)) && io.pass.cfg.now == now
    modifies io
    ensures io.Valid() && (r.Raised? ==> io.pass.pc == Failed) && (r.Returned? ==> io.pass.pc == Finished(r.value))
  {
    hide Follow;
    var reply := io.Call(Read);
    if !reply.Snap? { return Raised; }
    var latest := reply.s;
    if !NamesWithVm(latest.state, run) { return Returned(Again); }
    latest := StopRun(latest);
    var cleared := ConfirmStopped(latest.state, run.id, run.vm);
    if cleared.Some? { latest := latest.(state := cleared.value); }
    reply := io.Call(Save(latest, now, latest.verifiedAt));
    if !reply.Saved? { return Raised; }
    return Returned(if reply.ok then Again else Conflict);
  }

  /** Lines 133-142: the host of a live run is suspended or going away; fence before stopping it. */
  method StopSuspended(io: Backend, now: int, run: Run, host: Host) returns (r: Throwing<Result>)
    requires io.Valid() && io.pass.pc == Hosting(AtHostRead(run, host)) && io.pass.cfg.now == now
    modifies io
    ensures io.Valid() && (r.Raised? ==> io.pass.pc == Failed) && (r.Returned? ==> io.pass.pc == Finished(r.value))
  {
    hide Follow;
    var reply := io.Call(Read);
    if !reply.Snap? { return Raised; }
    var latest := reply.s;
    if !NamesWithVm(latest.state, run) { return Returned(Again); }
    latest := StopRun(latest);
    reply := io.Call(Save(latest, now, latest.verifiedAt));
    if !reply.Saved? { return Raised; }
    if !reply.ok { return Returned(Conflict); }
    if !host.Terminating? {
      reply := io.Call(Terminate(run.vm));
      if !reply.Done? { return Raised; }
    }
    return Returned(Again);
  }

  /** Lines 117-146 and 170: follow the state of the recorded VM; None asks for the promotion of its reserved run. */
  method FollowHost(io: Backend, now: int, d: Draft, run: Run) returns (done: Option<Throwing<Result>>)
    requires io.Valid() && io.pass.pc == Hosting(AtGet(d, run)) && io.pass.cfg.now == now
    modifies io
    ensures io.Valid()
    ensures match done
            case None => io.pass.pc == Assigning(AtConfirmSupported(d, run)) && io.pass.clock == old(io.pass.clock)
            case Some(Raised) => io.pass.pc == Failed
            case Some(Returned(r)) => io.pass.pc == Finished(r)
  {
    hide Follow;
    var reply := io.Call(GetHost(run.vm));
    if !reply.HostIs? || reply.vm != run.vm { return Some(Raised); }
    var host := reply.host;
    if host.Terminated? {
      var r := ClearTerminated(io, now, run);
      return Some(r);
    }
    if run.phase != Stopping && (host.Suspended? || host.Suspending? || host.Terminating?) {
      var r := StopSuspended(io, now, run, host);
      return Some(r);
    }
    if run.phase == Stopping {
      if !host.Terminating? {
        reply := io.Call(Terminate(run.vm));
        if !reply.Done? { return Some(Raised); }
      }
      return Some(Returned(Again));
    }
    if run.phase == Reserved && host.HostRunning? && d.current == LifecycleActive { return None; }
    return Some(Returned(if run.phase == Reserved then Again else Settled));
  }

  /** Lines 159-168: re-time and store the promotion, and stop the VM of a run that lost its authorization. */
  method StorePromotion(io: Backend, d: Draft, run: Run, confirmed: Snapshot, verifiedAt: int, wall0: int, steady0: int)
    returns (r: Throwing<Result>)
    requires io.Valid() && io.pass.pc == Assigning(AtAssignClock(d, run, verifiedAt, confirmed))
             && io.pass.clock == Clock(wall0, steady0)
    modifies io
    ensures io.Valid() && (r.Raised? ==> io.pass.pc == Failed) && (r.Returned? ==> io.pass.pc == Finished(r.value))
  {
    hide Follow, Decide, Record, AdvanceLaunch, AdvanceHost, AdvanceSample, AdvanceOrphan, Sample, AcceptLaunch,
      Authorized, Names;
    var latest := confirmed;
    var t, wall, steady := io.CurrentTime(wall0, steady0);
    if t.Raised? { return Raised; }
    var assignedAt := t.value;
    if assignedAt - verifiedAt >= 15 && Authorized(latest.state.activation, assignedAt) { return Returned(Again); }
    var (next, result) := AcceptLaunch(latest.state, run.id, run.vm, true, d.current, assignedAt);
    latest := latest.(state := next);
    var reply := io.Call(Save(latest, assignedAt, verifiedAt));
    if !reply.Saved? { return Raised; }
    if !reply.ok { return Returned(Conflict); }
    if result == StopUnassigned {
      reply := io.Call(Terminate(run.vm));
      if !reply.Done? { return Raised; }
    }
    return Returned(Again);
  }

  /** Lines 154-168: re-read, re-time and promote the run, or stop its VM. */
  method PromoteRun(io: Backend, d: Draft, run: Run, wall0: int, steady0: int) returns (r: Throwing<Result>)
    requires io.Valid() && io.pass.pc == Assigning(AtVerifyClock(d, run)) && io.pass.clock == Clock(wall0, steady0)
    modifies io
    ensures io.Valid() && (r.Raised? ==> io.pass.pc == Failed) && (r.Returned? ==> io.pass.pc == Finished(r.value))
  {
    hide Follow, Decide, Record, AdvanceLaunch, AdvanceHost, AdvanceSample, AdvanceOrphan, Sample, AcceptLaunch,
      Authorized, Names;
    var t, wall, steady := io.CurrentTime(wall0, steady0);
    if t.Raised? { return Raised; }
    var verifiedAt := t.value;
    var reply := io.Call(Read);
    if !reply.Snap? { return Raised; }
    var latest := reply.s;
    if !Names(latest.state, run)
       || latest.state.activation.projectionVersion != d.s.state.activation.projectionVersion {
      return Returned(Again);
    }
    r := StorePromotion(io, d, run, latest, verifiedAt, wall, steady);
  }

  /** Lines 147-169: promote a reserved run whose observation is still the current one. */
  method AssignRun(io: Backend, d: Draft, run: Run, wall0: int, steady0: int) returns (r: Throwing<Result>)
    requires io.Valid() && io.pass.pc == Assigning(AtConfirmSupported(d, run)) && io.pass.clock == Clock(wall0, steady0)
    modifies io
    ensures io.Valid() && (r.Raised? ==> io.pass.pc == Failed) && (r.Returned? ==> io.pass.pc == Finished(r.value))
  {
    hide Follow;
    var reply := io.Call(AskSupported);
    if !reply.Flag? { return Raised; }
    var stillSupported := reply.flag;
    reply := io.Call(AskProjection);
    if !reply.Projection? { return Raised; }
    if stillSupported != Some(true) || !SameObservation(d.s.state.activation, reply.o) { return Returned(Again); }
    r := PromoteRun(io, d, run, wall0, steady0);
  }

  /**
   * One bounded pass. Its calls and answers are a run of the small-step program from its entry, and its result is the
   * one that program finishes with; an exception ends it exactly where the program fails.
   */
  method ReconcilePass(io: Backend, now: int, release: string, budget: int, anchorSteady: int)
    returns (r: Throwing<Result>)
    requires io.Valid() && io.pass
             == Pass(Config(now, release, budget), Clock(now, anchorSteady), Start(Config(now, release, budget)), "")
    modifies io
    ensures io.Valid()
    ensures r.Raised? ==> io.pass.pc == Failed
    ensures r.Returned? ==> io.pass.pc == Finished(r.value)
  {
    hide Follow;
    if now <= 0 || release == "" || budget < 1 || budget > MAX_BUDGET { return Raised; }
    var anchorWall, steady := now, anchorSteady;
    var ok, snapshot, supported, current := ReadLifecycle(io, now, budget);
    if !ok { return Raised; }
    var decided, decisionTime, vouched;
    ok, decided, decisionTime, vouched, anchorWall, steady :=
      DecideTime(io, now, snapshot, supported, current, anchorWall, steady);
    if !ok { return Raised; }
    var done, saved := ReserveAndSave(io, release, Draft(decided, current, decisionTime, vouched));
    if done.Some? { return done.value; }
    if saved.s.state.run.None? { return Returned(Settled); }
    var run := saved.s.state.run.value;
    if run.vm == "" {
      if run.phase == Stopping || saved.current != LifecycleActive { return Returned(Settled); }
      r := LaunchReserved(io, saved, run, anchorWall, steady);
      return;
    }
    done := FollowHost(io, now, saved, run);
    if done.Some? { return done.value; }
    r := AssignRun(io, saved, run, anchorWall, steady);
  }
}
