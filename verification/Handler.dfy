/**
 * The other writers of the shadow in their own imperative form (agent/src/controller_handler.cpp), run against the same
 * backend object as `reconcile`: every call is the one the interleaved program demands, so the safety theorems about
 * that program are about these methods.
 */
module Handler {
  import opened Common
  import opened Activations
  import opened Controller
  import opened Snapshots
  import opened Programs
  import opened Reconcile

  /**
   * A runtime sample. `publish` stands for the checks that guard the healthy report; without them the sample ends
   * before its last write.
   */
  method SampleThing(io: Backend, publish: bool) returns (r: Throwing<()>)
    requires io.Valid() && io.pass.pc == Sampling(AtSampleRead)
    modifies io
    ensures io.Valid() && (r.Raised? ==> io.pass.pc == Failed)
    ensures r.Returned? ==> io.pass.pc.Finished? || (!publish && io.pass.pc.Sampling? && io.pass.pc.m.AtSamplePatch?)
  {
    hide Follow, Stop;
    var reply := io.Call(Read);
    if !reply.Snap? { return Raised; }
    if reply.s.state.run.None? || reply.s.state.run.value.phase != Running { return Returned(()); }
    var run := reply.s.state.run.value;
    reply := io.Call(GetHost(run.vm));
    if !reply.HostIs? { return Raised; }
    if reply.vm != run.vm || !reply.host.HostRunning? { return Returned(()); }
    reply := io.Call(Status(run.vm));
    if !reply.StatusIs? { return Raised; }
    r := ActOnSample(io, run, reply.report, publish);
  }

  /** The second half of a sample: the run is read again and fenced before its VM is stopped. */
  method ActOnSample(io: Backend, run: Run, report: Report, publish: bool) returns (r: Throwing<()>)
    requires io.Valid() && io.pass.pc == Sampling(AtSampleReread(run, report))
    modifies io
    ensures io.Valid() && (r.Raised? ==> io.pass.pc == Failed)
    ensures r.Returned? ==> io.pass.pc.Finished? || (!publish && io.pass.pc.Sampling? && io.pass.pc.m.AtSamplePatch?)
  {
    hide Follow, Stop;
    var reply := io.Call(Read);
    if !reply.Snap? { return Raised; }
    var latest := reply.s;
    if latest.state.run.None? || latest.state.run.value.id != run.id || latest.state.run.value.vm != run.vm
       || latest.state.run.value.phase != Running {
      return Returned(());
    }
    if StoppedFor(latest.state, report) {
      var saved := SaveThenStop(io, StopRun(latest), run.vm);
      return if saved.Raised? then Raised else Returned(());
    }
    if !publish { return Returned(()); }
    reply := io.Call(Touch(latest.version));
    if !reply.Saved? { return Raised; }
    return Returned(());
  }

  /** A conditional write and, only if it was accepted and names a VM to stop, the stop; the result is the write's. */
  method SaveThenStop(io: Backend, s: Snapshot, vm: string) returns (r: Throwing<bool>)
    requires io.Valid() && io.pass.pc == AtHandlerSave(s, vm)
    modifies io
    ensures io.Valid() && (r.Raised? ==> io.pass.pc == Failed) && (r.Returned? ==> io.pass.pc.Finished?)
    ensures old(io.replies) <= io.replies
    ensures r.Returned? ==> |io.replies| > |old(io.replies)| && io.replies[|old(io.replies)|] == Saved(r.value)
  {
    hide Follow;
    var reply := io.Call(SaveNow(s));
    if !reply.Saved? { return Raised; }
    var ok := reply.ok;
    if ok && vm != "" {
      reply := io.Call(Terminate(vm));
      if !reply.Done? { return Raised; }
    }
    return Returned(ok);
  }

  /** The diagnostic of a failed sample (only for a running run) and of a failed reconciliation (for any record). */
  method NoteError(io: Backend, onlyRunning: bool, text: string) returns (r: Throwing<()>)
    requires io.Valid() && io.pass.pc == Sampling(AtNoteRead(onlyRunning, text))
    modifies io
    ensures io.Valid() && (r.Raised? ==> io.pass.pc == Failed) && (r.Returned? ==> io.pass.pc.Finished?)
  {
    hide Follow;
    var reply := io.Call(Read);
    if !reply.Snap? { return Raised; }
    if onlyRunning && (reply.s.state.run.None? || reply.s.state.run.value.phase != Running) { return Returned(()); }
    var saved := SaveThenStop(io, reply.s.(lastError := text), "");
    r := if saved.Raised? then Raised else Returned(());
  }

  /**
   * Disabled-mode fencing of one Thing. `sameImage`: the run's saved launch request names the image being drained. A
   * Thing counts as fenced when it has no run, or a stopping one of that image, or the stop was accepted; a run of
   * another image is left alone.
   */
  method FenceThing(io: Backend, text: string, sameImage: bool) returns (r: Throwing<bool>)
    requires io.Valid() && io.pass.pc == Sampling(AtFenceRead(text))
    modifies io
    ensures io.Valid() && (r.Raised? ==> io.pass.pc == Failed)
    ensures r.Returned? ==> io.pass.pc.Finished? || (!sameImage && io.pass.pc.AtHandlerSave?)
    ensures var n := |old(io.replies)|;
            r.Returned? ==>
              && |io.replies| > n && io.replies[n].Snap?
              && var run := io.replies[n].s.state.run;
                 if run.None? then r.value
                 else if !sameImage then !r.value && |io.replies| == n + 1
                 else if run.value.phase == Stopping then r.value
                 else |io.replies| > n + 1 && io.replies[n + 1] == Saved(r.value)
  {
    hide Follow;
    var reply := io.Call(Read);
    if !reply.Snap? { return Raised; }
    if reply.s.state.run.None? { return Returned(true); }
    if !sameImage { return Returned(false); }
    if reply.s.state.run.value.phase == Stopping { return Returned(true); }
    var stopping := reply.s.state.run.value.(phase := Stopping);
    r := SaveThenStop(io, reply.s.(state := reply.s.state.(run := Some(stopping)), lastError := text), "");
  }

  /**
   * Disabled-mode draining of a recorded VM: if it runs the image its launch request names (`sameImage`), it is fenced
   * first and then, if still alive, stopped; otherwise it is left alone.
   */
  method FenceKnown(io: Backend, text: string, sameImage: bool) returns (r: Throwing<()>)
    requires io.Valid() && io.pass.pc == Sampling(AtKnownRead(text))
    modifies io
    ensures io.Valid() && (r.Raised? ==> io.pass.pc == Failed)
    ensures r.Returned? ==> io.pass.pc.Finished? || (!sameImage && io.pass.pc.AtHandlerSave?)
  {
    hide Follow, Stop;
    var reply := io.Call(Read);
    if !reply.Snap? { return Raised; }
    var snapshot := reply.s.(lastError := text);
    if snapshot.state.run.None? || snapshot.state.run.value.vm == "" { return Returned(()); }
    var run := snapshot.state.run.value;
    reply := io.Call(GetHost(run.vm));
    if !reply.HostIs? { return Raised; }
    if reply.vm != run.vm || !sameImage { return Returned(()); }
    var saved := SaveThenStop(io, StopRun(snapshot), if LiveHost(reply.host) then run.vm else "");
    r := if saved.Raised? then Raised else Returned(());
  }

  /** The check of one orphan candidate: it is stopped only on the runtime's own report and the shadow's. */
  method TerminateConfirmedOrphan(io: Backend, vm: string) returns (r: Throwing<()>)
    requires io.Valid() && io.pass.pc == Orphaning(AtOrphanGet(vm))
    modifies io
    ensures io.Valid() && (r.Raised? ==> io.pass.pc == Failed) && (r.Returned? ==> io.pass.pc.Finished?)
  {
    hide Follow, ActOnOrphan;
    var reply := io.Call(GetHost(vm));
    if !reply.HostIs? { return Raised; }
    if reply.vm != vm || !reply.host.HostRunning? { return Returned(()); }
    reply := io.Call(Status(vm));
    if !reply.StatusIs? { return Raised; }
    var report := reply.report;
    if report.vm != vm || !report.ownThing || report.runId == "" || |report.runId| > 128 { return Returned(()); }
    reply := io.Call(AskSupported);
    if !reply.Flag? { return Raised; }
    r := JudgeOrphan(io, vm, report, reply.flag);
  }

  /** With the candidate identified: read the shadow, look once more for inactivity, and act. */
  method JudgeOrphan(io: Backend, vm: string, report: Report, supported: Option<bool>) returns (r: Throwing<()>)
    requires io.Valid() && io.pass.pc == Orphaning(AtOrphanRead(vm, report, supported))
    modifies io
    ensures io.Valid() && (r.Raised? ==> io.pass.pc == Failed) && (r.Returned? ==> io.pass.pc.Finished?)
  {
    hide Follow, ActOnOrphan, ObserveOrphanInactive;
    var reply := io.Call(Read);
    if !reply.Snap? { return Raised; }
    var snapshot := reply.s;
    reply := io.Call(ReadClock);
    if !reply.Time? { return Raised; }
    var now := reply.sampled;
    if supported == Some(true) && AssignedTo(snapshot.state, report.runId, vm) {
      reply := io.Call(AskProjection);
      if reply.Projection? {
        if reply.o.Some? { snapshot := ObserveOrphanInactive(snapshot, reply.o.value, now); }
      } else if !reply.Raise? {
        return Raised;
      }
    }
    r := CarryOut(io, vm, report, supported, snapshot, now);
  }

  method CarryOut(io: Backend, vm: string, report: Report, supported: Option<bool>, snapshot: Snapshot, now: int)
    returns (r: Throwing<()>)
    requires io.Valid() && io.pass.pc == ActOnOrphan(vm, report, supported, snapshot, now)
    modifies io
    ensures io.Valid() && (r.Raised? ==> io.pass.pc == Failed) && (r.Returned? ==> io.pass.pc.Finished?)
  {
    hide Follow, DecideOrphan;
    var action := DecideOrphan(supported, Some(snapshot.state), false, report.runId, vm, report.stopped, now);
    if action == FenceThenTerminate {
      var bound := BindStopping(snapshot.state, report.runId, vm);
      if bound.None? { return Returned(()); }
      hide BindStopping;
      var saved := SaveThenStop(io, snapshot.(state := bound.value), vm);
      return if saved.Raised? then Raised else Returned(());
    }
    if action == TerminateNow {
      var reply := io.Call(Terminate(vm));
      if !reply.Done? { return Raised; }
    }
    return Returned(());
  }
}
