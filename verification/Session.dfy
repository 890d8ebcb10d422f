/**
 * The control-lease session as a machine of atomic steps (agent/src/core.cpp, `Session`). The hosting thread runs
 * `tick` section by section; callers on other threads load the authorized generation in one step and enqueue in
 * another; transports deliver replies at any moment. Times are steady-clock nanoseconds.
 */
module Sessions {
  import opened Common
  import opened Bits
  import opened Datagram

  const SECOND: int := 1_000_000_000
  const LEASE: int := 5 * SECOND
  const VERIFICATION: int := 15 * SECOND
  const REQUEST_TIMEOUT: int := 3 * SECOND
  const NEGOTIATION: int := 20 * SECOND
  const MAX_COMMANDS := 64

  datatype Connection = Stopped | Connecting | Connected | Failed

  datatype Lifecycle = Lifecycle(born: bool, redcon: int)

  /** Request identities: none, the session's own numbered ones, and every other text a peer may send. */
  datatype RequestId = NoId | AgentId(n: nat) | ForeignId(text: string)

  datatype RequestKind = NoRequest | Activate | Renew

  datatype Command = Activity | Release | Acquire(actor: string) | Send(bytes: Bytes, generation: nat)

  datatype Owner = Owner(sessionId: string, epoch: nat)

  /** The lease state of a reply: absent, malformed, or an epoch with the owner that is in control, if there is one. */
  datatype LeaseView = NoState | BadLease | Lease(epoch: nat, active: Option<Owner>)

  /** A control reply as far as it is understood. */
  datatype Reply = Garbled | Untyped | Typed(kind: string, requestId: Option<RequestId>, lease: LeaseView)

  datatype Link = Link(
    live: bool, retiring: bool, receivedCount: nat, previous: Connection,
    attempted: int, retryAt: int, lastReceived: int, backoff: int)

  /** What the session hands to the telemetry transport. */
  datatype Output =
    | Uplink(bytes: Bytes, generation: nat, at: int)
    | Ask(kind: RequestKind, id: RequestId, epoch: nat)
    | GiveUp(epoch: nat)

  /** What the operator is told. */
  datatype Notice = Control(held: bool) | LinkChanged(telemetry: bool, state: Connection)

  /** The verified lifecycle the session runs under. */
  datatype Licence = Licence(lifecycle: Lifecycle, hasVerification: bool, lastVerified: int, stopped: bool)

  /** Control: the grant and the request under way. */
  datatype Authority = Authority(
    held: bool, authorized: nat, controlGeneration: nat, epoch: nat, sessionId: string,
    sequence: nat, pendingId: RequestId, pendingKind: RequestKind,
    requestAt: int, lastClient: int, lastRenewed: int, nextRenew: int)

  datatype Session = Session(
    telemetry: Link, video: Link, licence: Licence, auth: Authority,
    replies: seq<Reply>, overflow: bool, commands: seq<Command>, notices: seq<Notice>, outputs: seq<Output>)

  /** What the environment decides during one section: states, send results, counters. */
  datatype Input = Input(
    state: Connection, received: nat, finished: bool, starts: bool, started: Connection, sendOk: bool, releaseOk: bool)

  // ---------------------------------------------------------------- authority

  /** The authority that is left when control is lost. */
  function Dropped(a: Authority, releaseLease: bool): Authority {
    a.(authorized := 0, sequence := if a.held && releaseLease then a.sequence + 1 else a.sequence,
       held := false, pendingId := NoId, pendingKind := NoRequest, sessionId := "")
  }

  /** `lose`: authority ends here; `ok` says whether the release text reached the transport. */
  function Lose(s: Session, releaseLease: bool, ok: bool): Session {
    s.(auth := Dropped(s.auth, releaseLease),
       outputs := if s.auth.held && releaseLease && s.telemetry.live && ok then s.outputs + [GiveUp(s.auth.epoch)]
         else s.outputs,
       notices := if s.auth.held || s.auth.pendingId != NoId then s.notices + [Control(false)] else s.notices)
  }

  function Asking(a: Authority, kind: RequestKind, now: int): Authority {
    a.(pendingKind := kind, pendingId := AgentId(a.sequence + 1), sequence := a.sequence + 1, requestAt := now)
  }

  /** `request`: one numbered request is outstanding from here on, unless it could not be sent. */
  function Request(s: Session, kind: RequestKind, now: int, i: Input): Session {
    var asked := s.(auth := Asking(s.auth, kind, now));
    if s.telemetry.live && i.sendOk
    then asked.(outputs := s.outputs + [Ask(kind, AgentId(s.auth.sequence + 1), if kind == Renew then s.auth.epoch
                                            else 0)])
    else Lose(asked, true, i.releaseOk)
  }

  predicate ValidOwner(epoch: nat, active: Option<Owner>) {
    active.Some? && active.value.sessionId != "" && active.value.epoch == epoch
  }

  function Granted(a: Authority, owner: Owner, now: int): Authority {
    a.(sessionId := owner.sessionId, epoch := owner.epoch, held := true, lastRenewed := now, nextRenew := now + SECOND,
       controlGeneration := a.controlGeneration + 1, authorized := a.controlGeneration + 1, pendingId := NoId,
         pendingKind := NoRequest)
  }

  function Renewed(a: Authority, now: int): Authority {
    a.(lastRenewed := now, nextRenew := now + SECOND, pendingId := NoId, pendingKind := NoRequest)
  }

  function RespondLease(s: Session, kind: string, matching: bool, epoch: nat, active: Option<Owner>, now: int,
                        ok: bool): Session {
    var valid := ValidOwner(epoch, active);
    if s.auth.held && (!valid || active.value.sessionId != s.auth.sessionId || active.value.epoch != s.auth.epoch)
        then Lose(s, false, ok)
    else if !matching then s
    else if s.auth.pendingKind == Activate && kind == "control.activated" && valid
    then s.(auth := Granted(s.auth, active.value, now), notices := s.notices + [Control(true)])
    else if s.auth.pendingKind == Renew && kind == "control.renewed"
        && s.auth.held then s.(auth := Renewed(s.auth, now))
    else Lose(s, true, ok)
  }

  function Respond(s: Session, r: Reply, now: int, ok: bool): Session {
    match r
    case Garbled => Lose(s, true, ok)
    case Untyped => s
    case Typed(kind, id, lease) =>
      var matching := id == Some(s.auth.pendingId);
      if kind == "control.error" then (if matching then Lose(s, true, ok) else s)
      else match lease
        case NoState => s
        case BadLease => Lose(s, true, ok)
        case Lease(epoch, active) => RespondLease(s, kind, matching, epoch, active, now, ok)
  }

  // ---------------------------------------------------------------- links

  function Min(a: int, b: int): int { if a < b then a else b }

  datatype LinkStep = LinkStep(link: Link, lost: bool, state: Connection)

  function Retire(l: Link): Link { l.(live := false, retiring := true) }

  function BackOff(l: Link, now: int): Link {
    l.(retryAt := now + l.backoff * SECOND, backoff := Min(10, l.backoff * 2))
  }

  /** Lines 176-193: a finished transport is dropped, an unwanted one retired, and telemetry receipt is timed. */
  function Observed(l: Link, telemetry: bool, wanted: bool, now: int, i: Input): LinkStep {
    var settled := if l.retiring && i.finished then l.(retiring := false) else l;
    var kept := if !wanted && settled.live then Retire(settled).(backoff := 1) else settled;
    var state := if kept.live then i.state else Stopped;
    var timed := if telemetry && state == Connected && (kept.previous != Connected || i.received != kept.receivedCount)
                 then kept.(lastReceived := now, receivedCount := i.received) else kept;
    LinkStep(timed, settled.live && !kept.live, state)
  }

  /** Lines 194-206: a failed, silent or stuck transport is retired and the next attempt backed off. */
  function Judged(step: LinkStep, telemetry: bool, now: int): LinkStep {
    var l := step.link;
    var silent := telemetry && step.state == Connected && now - l.lastReceived >= VERIFICATION;
    if l.live && (step.state == Failed || silent || (step.state == Connecting && now - l.attempted >= NEGOTIATION))
    then LinkStep(BackOff(Retire(l), now), true, Failed) else step
  }

  /** Lines 207-241: a new transport, if one is wanted and none is live or still retiring. */
  function Started(step: LinkStep, wanted: bool, now: int, i: Input): LinkStep {
    var l := step.link;
    if wanted && !l.live && !l.retiring && now >= l.retryAt then
      var created := l.(live := true, attempted := now, receivedCount := 0, lastReceived := now);
      if i.starts then step.(link := created, state := i.started)
          else step.(link := BackOff(Retire(created), now), state := Failed)
    else step
  }

  function LinkNext(l: Link, telemetry: bool, wanted: bool, now: int, i: Input): LinkStep {
    var step := Started(Judged(Observed(l, telemetry, wanted, now, i), telemetry, now), wanted, now, i);
    step.(link := step.link.(backoff := if step.state == Connected then 1
                             else step.link.backoff, previous := step.state))
  }

  function Noticed(s: Session, telemetry: bool, before: Connection, state: Connection): seq<Notice> {
    if state != before then s.notices + [LinkChanged(telemetry, state)] else s.notices
  }

  function UpdateTelemetry(s: Session, now: int, i: Input): Session {
    var step := LinkNext(s.telemetry, true, s.licence.hasVerification, now, i);
    var t := if step.lost then Lose(s, true, i.releaseOk) else s;
    t.(telemetry := step.link, notices := Noticed(t, true, s.telemetry.previous, step.state))
  }

  function UpdateVideo(s: Session, now: int, i: Input): Session {
    var step := LinkNext(s.video, false, s.licence.hasVerification && s.licence.lifecycle.redcon == 1, now, i);
    s.(video := step.link, notices := Noticed(s, false, s.video.previous, step.state))
  }

  // ---------------------------------------------------------------- tick

  /** Where the hosting thread is inside `tick`. */
  datatype TickPc =
    | Idle
    | AtTelemetry(now: int)
    | AtVideo(now: int)
    | AtOverflow(now: int)
    | AtReplies(now: int)
    | AtLease(now: int)
    | AtSwap(now: int)
    | AtCommands(now: int, rest: seq<Command>)
    | AtRenew(now: int)

  predicate Active(l: Lifecycle) { l.born && 1 <= l.redcon <= 2 }

  function StopLink(l: Link): Link { if l.live then Retire(l) else l }

  function Shutdown(s: Session, ok: bool): Session {
    if s.licence.stopped then s
    else
      var lost := Lose(s.(licence := s.licence.(stopped := true)), true, ok);
      lost.(telemetry := StopLink(lost.telemetry), video := StopLink(lost.video))
  }

  function Begin(s: Session, now: int, i: Input): (Session, TickPc) {
    if s.licence.stopped then (s, Idle)
    else if now - s.licence.lastVerified >= VERIFICATION
        || (s.licence.hasVerification && !Active(s.licence.lifecycle)) then (Shutdown(s, i.releaseOk), Idle)
    else (s, AtTelemetry(now))
  }

  function CheckLease(s: Session, now: int, ok: bool): Session {
    var t := if s.auth.held && (now - s.auth.lastClient >= LEASE || now - s.auth.lastRenewed >= LEASE)
        then Lose(s, true, ok) else s;
    if t.auth.pendingId != NoId && now - t.auth.requestAt >= REQUEST_TIMEOUT then Lose(t, true, ok) else t
  }

  function Heard(s: Session, now: int): Session { s.(auth := s.auth.(lastClient := now)) }

  function RunCommand(s: Session, c: Command, now: int, i: Input): Session {
    match c
    case Activity => Heard(s, now)
    case Release => Lose(s, true, i.releaseOk)
    case Acquire(_) =>
      if s.auth.held then s
      else if s.auth.pendingId == NoId && s.telemetry.live
          && i.state == Connected then Request(Heard(s, now), Activate, now, i)
      else s.(notices := s.notices + [Control(false)])
    case Send(bytes, generation) =>
      if !s.auth.held || generation != s.auth.authorized then s
      else
        var given := if s.telemetry.live then s.(outputs := s.outputs + [Uplink(bytes, generation, now)]) else s;
        if s.telemetry.live && i.sendOk then Heard(given, now) else Lose(given, true, i.releaseOk)
  }

  function RenewIfDue(s: Session, now: int, i: Input): Session {
    if s.auth.held && s.auth.pendingId == NoId && now >= s.auth.nextRenew then Request(s, Renew, now, i) else s
  }

  /** The next section of `tick`. */
  function TickStep(s: Session, pc: TickPc, i: Input): (Session, TickPc) {
    match pc
    case Idle => (s, Idle)
    case AtTelemetry(now) => (UpdateTelemetry(s, now, i), AtVideo(now))
    case AtVideo(now) => (UpdateVideo(s, now, i), AtOverflow(now))
    case AtOverflow(now) => (if s.overflow then Lose(s.(overflow := false), true, i.releaseOk) else s, AtReplies(now))
    case AtReplies(now) =>
      if s.replies == [] then (s, AtLease(now))
      else (Respond(s.(replies := s.replies[1..]), s.replies[0], now, i.releaseOk), pc)
    case AtLease(now) => (CheckLease(s, now, i.releaseOk), AtSwap(now))
    case AtSwap(now) => (s.(commands := []), AtCommands(now, s.commands))
    case AtCommands(now, rest) =>
      if rest == [] then (s, AtRenew(now)) else (RunCommand(s, rest[0], now, i), AtCommands(now, rest[1..]))
    case AtRenew(now) => (RenewIfDue(s, now, i), Idle)
  }

  // ---------------------------------------------------------------- everyone together

  /** The session, the hosting thread, and the callers that have loaded a generation but not yet enqueued. */
  datatype World = World(s: Session, pc: TickPc, loaded: map<nat, Command>)

  datatype Event =
    | Load(caller: nat, bytes: Bytes)
    | Enqueue(caller: nat)
    | Call(command: Command)
    | Deliver(reply: Reply, short: bool)
    | Overload
    | Verified(lifecycle: Lifecycle, at: int)
    | Stop(ok: bool)
    | Tick(now: int, i: Input)
    | Section(i: Input)

  function Enqueued(s: Session, c: Command): Session {
    if |s.commands| == MAX_COMMANDS then s else s.(commands := s.commands + [c])
  }

  /** `acquire`, `release` and `client_activity`. */
  function Called(s: Session, c: Command): Session {
    match c
    case Send(_, _) => s
    case Acquire(actor) => if 0 < |actor| <= 256 then Enqueued(s, c) else s
    case _ => if |s.commands| == MAX_COMMANDS then s.(overflow := true) else Enqueued(s, c)
  }

  const MAX_REPLIES := 64

  /** A text from the transport; one over 4096 bytes is not queued, and a full queue drops its oldest. */
  function Delivered(s: Session, r: Reply, short: bool): Session {
    if !short then s.(overflow := true)
    else if |s.replies| >= MAX_REPLIES then s.(replies := s.replies[1..] + [r], overflow := true)
    else s.(replies := s.replies + [r])
  }

  function Step(w: World, e: Event): World {
    match e
    case Load(caller, bytes) =>
      if ValidMavlink2(bytes) && w.s.auth.authorized != 0
          && caller !in w.loaded then w.(loaded := w.loaded[caller := Send(bytes, w.s.auth.authorized)]) else w
    case Enqueue(caller) =>
      if caller in w.loaded then w.(s := Enqueued(w.s, w.loaded[caller]), loaded := w.loaded - {caller}) else w
    case Call(c) => w.(s := Called(w.s, c))
    case Deliver(r, short) => w.(s := Delivered(w.s, r, short))
    case Overload => w.(s := w.s.(overflow := true))
    case Verified(l, at) =>
      if w.pc.Idle? && !w.s.licence.stopped then w.(s := w.s.(licence := Licence(l, true, at, false))) else w
    case Stop(ok) => if w.pc.Idle? then w.(s := Shutdown(w.s, ok)) else w
    case Tick(now, i) => if w.pc.Idle? then (var (s, pc) := Begin(w.s, now, i); w.(s := s, pc := pc)) else w
    case Section(i) => var (s, pc) := TickStep(w.s, w.pc, i); w.(s := s, pc := pc)
  }

  const NO_LINK := Link(false, false, 0, Stopped, 0, 0, 0, 1)

  const NO_AUTHORITY := Authority(false, 0, 0, 0, "", 0, NoId, NoRequest, 0, 0, 0, 0)

  /** A session just constructed at `now`. */
  function New(now: int): World {
    var licence := Licence(Lifecycle(false, 4), false, now, false);
    World(Session(NO_LINK, NO_LINK, licence, NO_AUTHORITY, [], false, [], [], []), Idle, map[])
  }

  function Exec(start: int, events: seq<Event>): World {
    if events == [] then New(start) else Step(Exec(start, events[..|events| - 1]), events[|events| - 1])
  }
}
