/**
 * All writers of one Thing's shadow running together. The shadow accepts a save only at the version it was read at;
 * `launch` is idempotent per run id, distinct run ids get distinct VMs, identities are fresh, and a VM reports the
 * run id it was launched with. Every other reply of the environment is arbitrary, and any call may raise, with its
 * effect applied or not.
 */
module World {
  import opened Common
  import opened Activations
  import opened Controller
  import opened Snapshots
  import opened Programs

  /** What is fixed about a run when it is first stored. */
  datatype Core = Core(activationId: string, release: string, request: string)

  datatype World = World(
    shadow: Snapshot,
    used: set<string>,              // identities handed out so far
    stored: map<string, Core>,      // run ids the shadow has ever held
    bound: map<string, string>,     // run id -> VM id the shadow has ever held for it
    requested: set<string>,         // run ids ever passed to launch
    vms: map<string, string>,       // VM id -> the run id it was launched with
    ended: set<string>,             // VMs the cloud has reported TERMINATED
    stops: set<string>,             // VMs passed to terminate
    passes: map<nat, Pass>)

  function CoreOf(r: Run): Core { Core(r.activationId, r.release, r.request) }

  function Commit(w: World, s: Snapshot, now: int, verifiedAt: int): World {
    w.(shadow := Stored(w.shadow, s, now, verifiedAt),
       stored := if s.state.run.Some? then w.stored[s.state.run.value.id := CoreOf(s.state.run.value)] else w.stored,
       bound := if s.state.run.Some? && s.state.run.value.vm != ""
                then w.bound[s.state.run.value.id := s.state.run.value.vm] else w.bound)
  }

  function HandleSave(w: World, s: Snapshot, now: int, verifiedAt: int, choice: Reply): (World, Reply) {
    if !PatchOk(s, now, verifiedAt) then (w, Raise(false))
    else if choice.Raise? then
      (if choice.applied && s.version == w.shadow.version then Commit(w, s, now, verifiedAt) else w, choice)
    else if choice == Saved(true) && s.version == w.shadow.version then (Commit(w, s, now, verifiedAt), choice)
    else (w, Saved(false))
  }

  predicate HasVm(w: World, runId: string) { exists v :: v in w.vms && w.vms[v] == runId }

  /** `v` may answer a launch of `runId`: the VM that run already has, or a new one if it has none. */
  predicate MayServe(w: World, v: string, runId: string) {
    if v in w.vms then w.vms[v] == runId else v != "" && !HasVm(w, runId)
  }

  function HandleLaunch(w: World, runId: string, choice: Reply): (World, Reply) {
    var asked := w.(requested := w.requested + {runId});
    if choice.Vm? && MayServe(w, choice.vm, runId) then (asked.(vms := w.vms[choice.vm := runId]), choice)
    else (asked, Raise(false))
  }

  function HandleStatus(w: World, vm: string, choice: Reply): Reply {
    if !choice.StatusIs? then Raise(false)
    else if choice.report.vm != vm then choice
    else if vm in w.vms then StatusIs(choice.report.(runId := w.vms[vm]))
    else Raise(false)
  }

  /** The environment's answer to one call; `choice` and `now` resolve what it is free to decide. */
  function Handle(w: World, q: Request, choice: Reply, now: int): (World, Reply) {
    match q
    case Read => (w, if choice.Raise? then choice else Snap(w.shadow))
    case NewIdentity =>
      if choice.Identity? && choice.id !in w.used && choice.id != "" then (w.(used := w.used + {choice.id}), choice)
      else (w, Raise(false))
    case Save(s, at, verifiedAt) => HandleSave(w, s, at, verifiedAt, choice)
    case SaveNow(s) => HandleSave(w, s, now, s.verifiedAt, choice)
    case Touch(version) =>
      if choice == Saved(true) && version == w.shadow.version
      then (w.(shadow := w.shadow.(version := version + 1)), choice) else (w, Saved(false))
    case Launch(run) => HandleLaunch(w, run.id, choice)
    case GetHost(vm) =>
      (if choice.HostIs? && choice.vm == vm && choice.host.Terminated? then w.(ended := w.ended + {vm}) else w, choice)
    case Status(vm) => (w, HandleStatus(w, vm, choice))
    case Terminate(vm) => (w.(stops := w.stops + {vm}), choice)
    case _ => (w, choice)
  }

  datatype Event =
    | Spawn(id: nat, pass: Pass)
    | Turn(id: nat, choice: Reply, now: int)
    | Appear(runId: string, vm: string)

  predicate ValidConfig(cfg: Config) { cfg.now > 0 && cfg.release != "" && 1 <= cfg.budget <= MAX_BUDGET }

  /** The writers an invocation can start. */
  predicate Entry(p: Pass) {
    && ValidConfig(p.cfg) && p.clock.anchorWall == p.cfg.now && p.launched == ""
    && (|| p.pc == Gathering(AtRead)
        || (p.pc.Sampling? && (p.pc.m.AtSampleRead? || p.pc.m.AtNoteRead? || p.pc.m.AtFenceRead?
                               || p.pc.m.AtKnownRead?))
        || (p.pc.Orphaning? && p.pc.o.AtOrphanGet?))
  }

  function Step(w: World, e: Event): World {
    match e
    case Spawn(id, p) => if id !in w.passes && Entry(p) then w.(passes := w.passes[id := p]) else w
    case Turn(id, choice, now) =>
      if id !in w.passes then w
      else
        var p := w.passes[id];
        var (next, reply) := Handle(w, Demand(p), choice, now);
        next.(passes := w.passes[id := Advance(p, reply)])
    case Appear(runId, vm) =>
      // The VM of an earlier launch whose response was lost.
      if runId in w.requested && vm != "" && vm !in w.vms && !HasVm(w, runId) then w.(vms := w.vms[vm := runId]) else w
  }

  /** Before any invocation: a readable shadow without a run. */
  predicate Fresh(w: World) {
    && w.shadow.version >= 0 && w.shadow.verifiedAt >= 0 && w.shadow.unverifiedSince >= 0
    && w.shadow.stopRequestedAt >= 0
    && ReadableState(w.shadow.state) && w.shadow.state.run.None?
    && w.stored == map[] && w.bound == map[] && w.requested == {} && w.vms == map[] && w.passes == map[]
  }

  /** The world after an interleaving of events. */
  function Exec(w: World, events: seq<Event>): World {
    if events == [] then w else Step(Exec(w, events[..|events| - 1]), events[|events| - 1])
  }
}
