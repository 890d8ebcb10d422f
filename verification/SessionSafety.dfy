/** What holds of the control-lease session in every interleaving of its callers, its transports and its ticks. */
module SessionSafety {
  import opened Common
  import opened Bits
  import opened Datagram
  import opened Sessions

  // ---------------------------------------------------------------- invariants

  /** What the operator was last told about control; nothing at all counts as not held. */
  function LastTold(notices: seq<Notice>): bool {
    if notices == [] then false
    else if notices[|notices| - 1].Control? then notices[|notices| - 1].held
    else LastTold(notices[..|notices| - 1])
  }

  predicate LinkInv(l: Link) { !(l.live && l.retiring) && 1 <= l.backoff <= 10 }

  predicate Consistent(s: Session) {
    && (s.auth.held <==> s.auth.authorized != 0) && (s.auth.held ==> s.auth.authorized == s.auth.controlGeneration)
    && (s.auth.pendingId == NoId <==> s.auth.pendingKind == NoRequest)
    && (s.auth.pendingId != NoId ==> s.auth.pendingId.AgentId? && s.auth.pendingId.n <= s.auth.sequence)
    && (s.auth.pendingKind == Activate ==> !s.auth.held) && (s.auth.pendingKind == Renew ==> s.auth.held)
    && (s.auth.held ==> s.auth.sessionId != "")
    && LastTold(s.notices) == s.auth.held
  }

  predicate Grounded(s: Session) {
    && LinkInv(s.telemetry) && LinkInv(s.video)
    && (s.auth.held || s.auth.pendingId != NoId ==> s.telemetry.live)
    && (s.telemetry.live ==> s.licence.hasVerification)
    && (s.licence.stopped ==> !s.auth.held && s.auth.pendingId == NoId && !s.telemetry.live && !s.video.live)
    && |s.replies| <= MAX_REPLIES && |s.commands| <= MAX_COMMANDS
  }

  /** A tick that has passed its opening tests runs on a verified, active lifecycle. */
  predicate Licensed(s: Session, now: int) {
    !s.licence.stopped && now - s.licence.lastVerified < VERIFICATION
      && (s.licence.hasVerification ==> Active(s.licence.lifecycle))
  }

  predicate Fresh(s: Session, now: int) {
    s.auth.held ==> now - s.auth.lastRenewed < LEASE && now - s.auth.lastClient < LEASE
  }

  predicate PcInv(s: Session, pc: TickPc) {
    && (!pc.Idle? ==> Licensed(s, pc.now))
    && (pc.AtSwap? || pc.AtCommands? || pc.AtRenew? ==> Fresh(s, pc.now))
  }

  predicate Sound(s: Session) { Consistent(s) && Grounded(s) }

  predicate Inv(w: World) { Sound(w.s) && PcInv(w.s, w.pc) }

  // ---------------------------------------------------------------- every operation keeps them

  lemma ToldControl(notices: seq<Notice>, n: Notice)
    ensures LastTold(notices + [n]) == if n.Control? then n.held else LastTold(notices)
  {
    assert (notices + [n])[..|notices|] == notices;
  }

  lemma LoseKeeps(s: Session, releaseLease: bool, ok: bool)
    requires Sound(s)
    ensures Sound(Lose(s, releaseLease, ok)) && !Lose(s, releaseLease, ok).auth.held
            && Lose(s, releaseLease, ok).auth.pendingId == NoId
    ensures var t := Lose(s, releaseLease, ok);
            t.telemetry == s.telemetry && t.video == s.video && t.licence.hasVerification == s.licence.hasVerification
              && t.licence.stopped == s.licence.stopped
  {
    ToldControl(s.notices, Control(false));
  }

  lemma RequestKeeps(s: Session, kind: RequestKind, now: int, i: Input)
    requires Sound(s) && s.auth.pendingId == NoId && s.telemetry.live
             && ((kind == Activate && !s.auth.held) || (kind == Renew && s.auth.held))
    ensures Sound(Request(s, kind, now, i))
  {
    var asked := s.(auth := Asking(s.auth, kind, now));
    LoseKeeps(asked, true, i.releaseOk);
  }

  lemma RespondKeeps(s: Session, r: Reply, now: int, ok: bool)
    requires Sound(s)
    ensures Sound(Respond(s, r, now, ok))
  {
    LoseKeeps(s, true, ok);
    LoseKeeps(s, false, ok);
    ToldControl(s.notices, Control(true));
    hide Lose, LastTold;
  }

  lemma LinkKeeps(l: Link, telemetry: bool, wanted: bool, now: int, i: Input)
    requires LinkInv(l)
    ensures var step := LinkNext(l, telemetry, wanted, now, i);
            LinkInv(step.link) && (step.link.live ==> wanted) && (l.live && !step.link.live ==> step.lost)
  {
  }

  lemma UpdateTelemetryKeeps(s: Session, now: int, i: Input)
    requires Sound(s) && !s.licence.stopped
    ensures Sound(UpdateTelemetry(s, now, i))
  {
    var step := LinkNext(s.telemetry, true, s.licence.hasVerification, now, i);
    LinkKeeps(s.telemetry, true, s.licence.hasVerification, now, i);
    LoseKeeps(s, true, i.releaseOk);
    var t := if step.lost then Lose(s, true, i.releaseOk) else s;
    ToldControl(t.notices, LinkChanged(true, step.state));
    hide LinkNext, LastTold, Lose, LinkInv;
  }

  lemma UpdateVideoKeeps(s: Session, now: int, i: Input)
    requires Sound(s) && !s.licence.stopped
    ensures Sound(UpdateVideo(s, now, i))
  {
    var wanted := s.licence.hasVerification && s.licence.lifecycle.redcon == 1;
    LinkKeeps(s.video, false, wanted, now, i);
    ToldControl(s.notices, LinkChanged(false, LinkNext(s.video, false, wanted, now, i).state));
    hide LinkNext, LastTold;
  }

  lemma ShutdownKeeps(s: Session, ok: bool)
    requires Sound(s)
    ensures Sound(Shutdown(s, ok)) && Shutdown(s, ok).licence.stopped
  {
    ToldControl(s.notices, Control(false));
    hide LastTold;
  }

  lemma RunCommandKeeps(s: Session, c: Command, now: int, i: Input)
    requires Sound(s)
    ensures Sound(RunCommand(s, c, now, i))
  {
    LoseKeeps(s, true, i.releaseOk);
    match c
    case Acquire(_) =>
      ToldControl(s.notices, Control(false));
      if !s.auth.held && s.auth.pendingId == NoId && s.telemetry.live { RequestKeeps(Heard(s, now), Activate, now, i); }
    case Send(bytes, generation) =>
      LoseKeeps(s.(outputs := s.outputs + [Uplink(bytes, generation, now)]), true, i.releaseOk);
    case _ =>
  }

  // ---------------------------------------------------------------- what an operation may change

  /** `tick` leaves the licence it started with alone. */
  predicate SameLicence(s: Session, t: Session) {
    t.licence.stopped == s.licence.stopped && t.licence.lastVerified == s.licence.lastVerified
      && t.licence.hasVerification == s.licence.hasVerification && t.licence.lifecycle == s.licence.lifecycle
  }

  /**
   * Time passed from `s` to `t`: generations and request numbers only grow, and a generation that was lost is not
   * authorized again.
   */
  predicate Later(s: Session, t: Session) {
    && s.auth.controlGeneration <= t.auth.controlGeneration && s.auth.sequence <= t.auth.sequence
    && (t.auth.authorized == 0 || t.auth.authorized == t.auth.controlGeneration)
    && (t.auth.controlGeneration == s.auth.controlGeneration
        ==> t.auth.authorized == 0 || t.auth.authorized == s.auth.authorized)
  }

  /** The first thing handed to the transport between `s` and `t`, if anything was. */
  predicate Hands(s: Session, t: Session) { |s.outputs| < |t.outputs| }

  function Handed(s: Session, t: Session): Output
    requires Hands(s, t)
  {
    t.outputs[|s.outputs|]
  }

  predicate Tame(s: Session, t: Session) { SameLicence(s, t) && t.commands == s.commands && Later(s, t) }

  /** No request and no frame goes out, and authority is not gained. */
  predicate Passive(s: Session, t: Session) {
    Tame(s, t) && (Hands(s, t) ==> Handed(s, t).GiveUp?) && (t.auth.held ==> s.auth.held)
  }

  lemma LosePassive(s: Session, releaseLease: bool, ok: bool)
    ensures Passive(s, Lose(s, releaseLease, ok))
  {
  }

  lemma RequestTame(s: Session, kind: RequestKind, now: int, i: Input)
    requires Consistent(s)
    ensures var t := Request(s, kind, now, i);
            && Tame(s, t) && (t.auth.held ==> s.auth.held)
            && (Hands(s, t) && !Handed(s, t).GiveUp? ==>
                  Handed(s, t) == Ask(kind, AgentId(s.auth.sequence + 1), if kind == Renew then s.auth.epoch else 0)
                    && t.auth.pendingId == AgentId(s.auth.sequence + 1))
  {
  }

  /** A reply grants control only to the outstanding activate request. */
  lemma RespondTame(s: Session, r: Reply, now: int, ok: bool)
    requires Consistent(s)
    ensures var t := Respond(s, r, now, ok);
            && Tame(s, t) && (Hands(s, t) ==> Handed(s, t).GiveUp?)
            && (t.auth.held && !s.auth.held ==>
                  && s.auth.pendingKind == Activate && r.Typed? && r.kind == "control.activated"
                  && r.requestId == Some(s.auth.pendingId)
                  && r.lease.Lease? && ValidOwner(r.lease.epoch, r.lease.active)
                  && t.auth.sessionId == r.lease.active.value.sessionId && t.auth.epoch == r.lease.epoch
                  && t.auth.authorized == s.auth.controlGeneration + 1)
  {
    LosePassive(s, true, ok);
    LosePassive(s, false, ok);
    assert !Lose(s, true, ok).auth.held && !Lose(s, false, ok).auth.held;
    hide Lose, LastTold;
  }

  lemma UpdatesPassive(s: Session, now: int, i: Input)
    requires Consistent(s)
    ensures Passive(s, UpdateTelemetry(s, now, i)) && Passive(s, UpdateVideo(s, now, i))
  {
    LosePassive(s, true, i.releaseOk);
    hide LinkNext, LastTold, Lose;
  }

  lemma CheckLeasePassive(s: Session, now: int, ok: bool)
    requires Consistent(s)
    ensures Passive(s, CheckLease(s, now, ok))
  {
    LosePassive(s, true, ok);
    assert Lose(s, true, ok).auth.pendingId == NoId;
    hide Lose, LastTold;
  }

  lemma RunCommandTame(s: Session, c: Command, now: int, i: Input)
    requires Consistent(s)
    ensures var t := RunCommand(s, c, now, i);
            && Tame(s, t) && (t.auth.held ==> s.auth.held)
            && (Hands(s, t) ==>
                  match Handed(s, t)
                  case GiveUp(_) => true
                  case Ask(kind, id, _) => c.Acquire? && kind == Activate && s.auth.pendingId == NoId
                      && id == AgentId(s.auth.sequence + 1) && t.auth.pendingId == id
                  case Uplink(bytes, generation, at) =>
                    c == Send(bytes, generation) && at == now && s.auth.held && generation == s.auth.authorized
                      && s.telemetry.live)
  {
    hide Lose, LastTold, Request;
    match c
    case Acquire(_) => RequestTame(Heard(s, now), Activate, now, i);
    case Release => LosePassive(s, true, i.releaseOk);
    case Send(bytes, generation) =>
      SendOutputs(s, bytes, generation, now, i);
      LosePassive(s.(outputs := s.outputs + [Uplink(bytes, generation, now)]), true, i.releaseOk);
      LosePassive(s, true, i.releaseOk);
    case Activity =>
  }

  lemma SendOutputs(s: Session, bytes: Bytes, generation: nat, now: int, i: Input)
    ensures var t := RunCommand(s, Send(bytes, generation), now, i);
            Hands(s, t) ==>
              || Handed(s, t).GiveUp?
              || (Handed(s, t) == Uplink(bytes, generation, now) && s.auth.held && generation == s.auth.authorized
                  && s.telemetry.live)
  {
  }

  lemma SectionSound(s: Session, pc: TickPc, i: Input)
    requires Sound(s) && PcInv(s, pc)
    ensures Sound(TickStep(s, pc, i).0)
  {
    hide Lose, Respond, UpdateTelemetry, UpdateVideo, RunCommand, Request;
    match pc
    case AtTelemetry(now) => UpdateTelemetryKeeps(s, now, i);
    case AtVideo(now) => UpdateVideoKeeps(s, now, i);
    case AtOverflow(_) => LoseKeeps(s.(overflow := false), true, i.releaseOk);
    case AtReplies(now) => if s.replies != [] {
        RespondKeeps(s.(replies := s.replies[1..]), s.replies[0], now, i.releaseOk);
      }
    case AtLease(now) => LoseKeeps(s, true, i.releaseOk); LoseKeeps(Lose(s, true, i.releaseOk), true, i.releaseOk);
    case AtCommands(now, rest) => if rest != [] { RunCommandKeeps(s, rest[0], now, i); }
    case AtRenew(now) => if s.auth.held && s.auth.pendingId == NoId { RequestKeeps(s, Renew, now, i); }
    case _ =>
  }

  /** Only replies grant control, and only commands and renewals hand requests or frames to the transport. */
  lemma SectionTame(s: Session, pc: TickPc, i: Input)
    requires Consistent(s)
    ensures var t := TickStep(s, pc, i).0;
            && SameLicence(s, t) && Later(s, t)
            && (!pc.AtReplies? ==> (t.auth.held ==> s.auth.held))
            && (!pc.AtCommands? && !pc.AtRenew? ==> (Hands(s, t) ==> Handed(s, t).GiveUp?))
            && (!pc.AtSwap? ==> t.commands == s.commands)
  {
    hide Lose, Respond, UpdateTelemetry, UpdateVideo, RunCommand, Request, CheckLease, LastTold;
    match pc
    case AtTelemetry(now) => UpdatesPassive(s, now, i);
    case AtVideo(now) => UpdatesPassive(s, now, i);
    case AtOverflow(_) => LosePassive(s.(overflow := false), true, i.releaseOk);
    case AtReplies(now) => if s.replies != [] {
        RespondTame(s.(replies := s.replies[1..]), s.replies[0], now, i.releaseOk);
      }
    case AtLease(now) => CheckLeasePassive(s, now, i.releaseOk);
    case AtCommands(now, rest) => if rest != [] { RunCommandTame(s, rest[0], now, i); }
    case AtRenew(now) => RequestTame(s, Renew, now, i);
    case _ =>
  }

  lemma SectionFresh(s: Session, pc: TickPc, i: Input)
    requires Sound(s) && PcInv(s, pc)
    ensures PcInv(TickStep(s, pc, i).0, TickStep(s, pc, i).1)
  {
    SectionTame(s, pc, i);
    hide LinkNext, UpdateTelemetry, UpdateVideo, Respond;
  }

  lemma SectionKeeps(s: Session, pc: TickPc, i: Input)
    requires Sound(s) && PcInv(s, pc)
    ensures Sound(TickStep(s, pc, i).0) && PcInv(TickStep(s, pc, i).0, TickStep(s, pc, i).1)
  {
    SectionSound(s, pc, i);
    SectionFresh(s, pc, i);
  }

  lemma StepKeeps(w: World, e: Event)
    requires Inv(w)
    ensures Inv(Step(w, e))
  {
    hide LastTold, Lose, TickStep, LinkInv;
    match e
    case Stop(ok) => ShutdownKeeps(w.s, ok); hide Shutdown;
    case Tick(now, i) => ShutdownKeeps(w.s, i.releaseOk); hide Shutdown;
    case Section(i) => SectionKeeps(w.s, w.pc, i);
    case _ =>
  }

  /** In every reachable state of every interleaving the session's authority is consistent. */
  lemma {:induction false} AuthorityInvariant(start: int, events: seq<Event>)
    ensures Inv(Exec(start, events))
  {
    if events != [] {
      AuthorityInvariant(start, events[..|events| - 1]);
      StepKeeps(Exec(start, events[..|events| - 1]), events[|events| - 1]);
    }
  }

  // ---------------------------------------------------------------- grants never return

  lemma StepLater(w: World, e: Event)
    requires Inv(w)
    ensures Later(w.s, Step(w, e).s)
  {
    if e.Section? { SectionTame(w.s, w.pc, e.i); }
    hide TickStep, LastTold;
  }

  lemma {:induction false} ExecLater(start: int, events: seq<Event>, m: nat)
    requires m <= |events|
    ensures Later(Exec(start, events[..m]).s, Exec(start, events).s)
  {
    AuthorityInvariant(start, events);
    if m == |events| {
      assert events[..m] == events;
    } else {
      var before := events[..|events| - 1];
      assert before[..m] == events[..m];
      ExecLater(start, before, m);
      AuthorityInvariant(start, before);
      StepLater(Exec(start, before), events[|events| - 1]);
    }
  }

  /** A generation authorized at two moments was authorized at every moment between them. */
  lemma GrantIsUnbroken(start: int, events: seq<Event>, i: nat, k: nat)
    requires i <= k <= |events|
    requires Exec(start, events).s.auth.authorized != 0
             && Exec(start, events[..i]).s.auth.authorized == Exec(start, events).s.auth.authorized
    ensures Exec(start, events[..k]).s.auth.authorized == Exec(start, events).s.auth.authorized
  {
    var middle := events[..k];
    assert middle[..i] == events[..i];
    ExecLater(start, middle, i);
    ExecLater(start, events, k);
    AuthorityInvariant(start, events[..i]);
    AuthorityInvariant(start, events);
  }

  // ---------------------------------------------------------------- where a queued frame comes from

  /** At event `i` a caller of `send` loaded the generation with this frame. */
  predicate LoadedAt(start: int, events: seq<Event>, i: nat, c: Command)
    requires c.Send?
  {
    && i < |events| && events[i].Load? && events[i].bytes == c.bytes
    && ValidMavlink2(c.bytes) && c.generation != 0 && Exec(start, events[..i]).s.auth.authorized == c.generation
  }

  ghost predicate HasOrigin(start: int, events: seq<Event>, c: Command) {
    c.Send? ==> exists i: nat :: LoadedAt(start, events, i, c)
  }

  ghost predicate AllFrom(start: int, events: seq<Event>, cs: seq<Command>) {
    forall c :: c in cs ==> HasOrigin(start, events, c)
  }

  ghost predicate OriginInv(start: int, events: seq<Event>, w: World) {
    && AllFrom(start, events, w.s.commands)
    && (w.pc.AtCommands? ==> AllFrom(start, events, w.pc.rest))
    && (forall caller :: caller in w.loaded ==> HasOrigin(start, events, w.loaded[caller]))
  }

  lemma OriginStays(start: int, events: seq<Event>, e: Event, c: Command)
    requires HasOrigin(start, events, c)
    ensures HasOrigin(start, events + [e], c)
  {
    if c.Send? {
      var i: nat :| LoadedAt(start, events, i, c);
      assert (events + [e])[..i] == events[..i];
      assert LoadedAt(start, events + [e], i, c);
    }
  }

  lemma OriginsStay(start: int, events: seq<Event>, e: Event, w: World)
    requires OriginInv(start, events, w)
    ensures OriginInv(start, events + [e], w)
  {
    hide HasOrigin;
    forall c | HasOrigin(start, events, c) ensures HasOrigin(start, events + [e], c) {
      OriginStays(start, events, e, c);
    }
  }

  /** What a section does to the commands under way. */
  lemma SectionCommands(s: Session, pc: TickPc, i: Input)
    requires Consistent(s)
    ensures var (t, next) := TickStep(s, pc, i);
            && (t.commands == s.commands || (pc.AtSwap? && t.commands == []))
            && (next.AtCommands? ==>
                  || (pc.AtSwap? && next.rest == s.commands)
                  || (pc.AtCommands? && pc.rest != [] && next.rest == pc.rest[1..]))
  {
    SectionTame(s, pc, i);
    hide LinkNext, Lose, Respond, UpdateTelemetry, UpdateVideo, RunCommand, Request, CheckLease;
  }

  lemma LoadHasOrigin(start: int, events: seq<Event>, caller: nat, bytes: Bytes)
    requires ValidMavlink2(bytes) && Exec(start, events).s.auth.authorized != 0
    ensures HasOrigin(start, events + [Load(caller, bytes)], Send(bytes, Exec(start, events).s.auth.authorized))
  {
    var more := events + [Load(caller, bytes)];
    assert more[..|events|] == events;
    assert LoadedAt(start, more, |events|, Send(bytes, Exec(start, events).s.auth.authorized));
  }

  lemma SectionOrigins(start: int, events: seq<Event>, w: World, i: Input)
    requires OriginInv(start, events, w) && Consistent(w.s)
    ensures OriginInv(start, events, Step(w, Section(i)))
  {
    SectionCommands(w.s, w.pc, i);
    hide HasOrigin, TickStep, Consistent, LastTold;
  }

  lemma OtherOrigins(start: int, events: seq<Event>, w: World, e: Event)
    requires OriginInv(start, events, w) && !e.Section?
    requires e.Load? && ValidMavlink2(e.bytes) && w.s.auth.authorized != 0
             ==> HasOrigin(start, events, Send(e.bytes, w.s.auth.authorized))
    ensures OriginInv(start, events, Step(w, e))
  {
    hide TickStep, ValidMavlink2, Exec, LoadedAt;
  }

  lemma StepOrigins(start: int, events: seq<Event>, e: Event)
    requires OriginInv(start, events, Exec(start, events)) && Consistent(Exec(start, events).s)
    ensures OriginInv(start, events + [e], Step(Exec(start, events), e))
  {
    var w := Exec(start, events);
    hide OriginInv, Step, HasOrigin, Exec, Consistent, LastTold;
    OriginsStay(start, events, e, w);
    if e.Section? {
      SectionOrigins(start, events + [e], w, e.i);
    } else {
      if e.Load? && ValidMavlink2(e.bytes)
          && w.s.auth.authorized != 0 { LoadHasOrigin(start, events, e.caller, e.bytes); }
      OtherOrigins(start, events + [e], w, e);
    }
  }

  lemma {:induction false} FramesHaveOrigins(start: int, events: seq<Event>)
    ensures OriginInv(start, events, Exec(start, events))
  {
    if events != [] {
      var before := events[..|events| - 1];
      FramesHaveOrigins(start, before);
      AuthorityInvariant(start, before);
      assert before + [events[|events| - 1]] == events;
      StepOrigins(start, before, events[|events| - 1]);
    }
  }

  // ---------------------------------------------------------------- what goes out, and under which ids

  /** Outputs are only added, and behind the first of a step there are only releases. */
  predicate Quietly(s: Session, t: Session) {
    s.outputs <= t.outputs && forall k :: |s.outputs| < k < |t.outputs| ==> t.outputs[k].GiveUp?
  }

  lemma LoseQuiet(s: Session, releaseLease: bool, ok: bool)
    ensures var t := Lose(s, releaseLease, ok);
            && !t.auth.held && Quietly(s, t)
            && (t.outputs == s.outputs || (s.auth.held && t.outputs == s.outputs + [GiveUp(s.auth.epoch)]))
  {
  }

  lemma RequestQuiet(s: Session, kind: RequestKind, now: int, i: Input)
    ensures Quietly(s, Request(s, kind, now, i))
  {
    LoseQuiet(s.(auth := Asking(s.auth, kind, now)), true, i.releaseOk);
    hide Lose;
  }

  lemma RunCommandQuiet(s: Session, c: Command, now: int, i: Input)
    ensures Quietly(s, RunCommand(s, c, now, i))
  {
    match c
    case Activity =>
    case Release => LoseQuiet(s, true, i.releaseOk);
    case Acquire(_) => RequestQuiet(Heard(s, now), Activate, now, i);
    case Send(bytes, generation) =>
      LoseQuiet(s, true, i.releaseOk);
      LoseQuiet(s.(outputs := s.outputs + [Uplink(bytes, generation, now)]), true, i.releaseOk);
      hide Lose;
  }

  lemma RespondQuiet(s: Session, r: Reply, now: int, ok: bool)
    ensures Quietly(s, Respond(s, r, now, ok))
  {
    LoseQuiet(s, true, ok);
    LoseQuiet(s, false, ok);
    hide Lose;
  }

  lemma CheckLeaseQuiet(s: Session, now: int, ok: bool)
    ensures Quietly(s, CheckLease(s, now, ok))
  {
    LoseQuiet(s, true, ok);
    LoseQuiet(Lose(s, true, ok), true, ok);
    hide Lose;
  }

  lemma SectionQuiet(s: Session, pc: TickPc, i: Input)
    ensures Quietly(s, TickStep(s, pc, i).0)
  {
    hide Lose, Respond, LinkNext, RunCommand, Request, CheckLease;
    match pc
    case AtTelemetry(_) => LoseQuiet(s, true, i.releaseOk);
    case AtOverflow(_) => LoseQuiet(s.(overflow := false), true, i.releaseOk);
    case AtReplies(now) =>
      if s.replies != [] { RespondQuiet(s.(replies := s.replies[1..]), s.replies[0], now, i.releaseOk); }
    case AtLease(now) => CheckLeaseQuiet(s, now, i.releaseOk);
    case AtCommands(now, rest) => if rest != [] { RunCommandQuiet(s, rest[0], now, i); }
    case AtRenew(now) => RequestQuiet(s, Renew, now, i);
    case _ =>
  }

  lemma ShutdownQuiet(s: Session, ok: bool)
    ensures Quietly(s, Shutdown(s, ok))
  {
    LoseQuiet(s.(licence := s.licence.(stopped := true)), true, ok);
    hide Lose;
  }

  /** A step hands over at most one frame or request, first; whatever follows it is a release. */
  lemma StepQuiet(w: World, e: Event)
    ensures Quietly(w.s, Step(w, e).s)
  {
    match e
    case Stop(ok) => ShutdownQuiet(w.s, ok);
    case Tick(_, i) => ShutdownQuiet(w.s, i.releaseOk);
    case Section(i) => SectionQuiet(w.s, w.pc, i);
    case _ =>
    hide Shutdown, TickStep, Quietly;
  }

  /** Every request that went out carries a number already used. */
  predicate UsedIds(s: Session) {
    forall k :: 0 <= k < |s.outputs| && s.outputs[k].Ask?
      ==> s.outputs[k].id.AgentId? && s.outputs[k].id.n <= s.auth.sequence
  }

  /** The request a step hands over is the next number, and it is the one then outstanding. */
  lemma NextId(w: World, e: Event)
    requires Inv(w)
    ensures var s, t := w.s, Step(w, e).s;
            Hands(s, t) && Handed(s, t).Ask? ==>
              && s.auth.pendingId == NoId && Handed(s, t).id == AgentId(s.auth.sequence + 1)
              && t.auth.pendingId == Handed(s, t).id
              && (Handed(s, t).kind == Renew ==> s.auth.held && Handed(s, t).epoch == s.auth.epoch)
  {
    hide RunCommand, Request, LastTold;
    if !e.Section? { OutsideTick(w, e); }
    else {
      SectionTame(w.s, w.pc, e.i);
      if w.pc.AtCommands? && w.pc.rest != [] { RunCommandTame(w.s, w.pc.rest[0], w.pc.now, e.i); }
      if w.pc.AtRenew? { RequestTame(w.s, Renew, w.pc.now, e.i); }
    }
  }

  lemma StepIds(w: World, e: Event)
    requires Inv(w) && UsedIds(w.s)
    ensures UsedIds(Step(w, e).s)
  {
    var t := Step(w, e).s;
    NextId(w, e);
    StepQuiet(w, e);
    StepKeeps(w, e);
    StepLater(w, e);
    hide Step, LastTold, Grounded, PcInv;
    forall k | 0 <= k < |t.outputs| && t.outputs[k].Ask? ensures t.outputs[k].id.AgentId?
      && t.outputs[k].id.n <= t.auth.sequence {
      if k < |w.s.outputs| { assert t.outputs[k] == w.s.outputs[k]; } else { assert k == |w.s.outputs|; }
    }
  }

  lemma {:induction false} RequestIdsAreUsed(start: int, events: seq<Event>)
    ensures UsedIds(Exec(start, events).s)
  {
    if events != [] {
      RequestIdsAreUsed(start, events[..|events| - 1]);
      AuthorityInvariant(start, events[..|events| - 1]);
      StepIds(Exec(start, events[..|events| - 1]), events[|events| - 1]);
    }
  }

  // ---------------------------------------------------------------- the theorems

  /** The step from `w` by `e` hands this frame to the telemetry transport, as any of its outputs. */
  predicate HandsOver(w: World, e: Event, frame: Output) {
    frame.Uplink? && |w.s.outputs| <= |Step(w, e).s.outputs| && frame in Step(w, e).s.outputs[|w.s.outputs|..]
  }

  /** A frame or request among the outputs of a step is the first of them. */
  lemma HandedFirst(w: World, e: Event, o: Output)
    requires |w.s.outputs| <= |Step(w, e).s.outputs| && o in Step(w, e).s.outputs[|w.s.outputs|..] && !o.GiveUp?
    ensures Hands(w.s, Step(w, e).s) && Handed(w.s, Step(w, e).s) == o
  {
    StepQuiet(w, e);
    hide Step;
  }

  lemma ShutdownPassive(s: Session, ok: bool)
    ensures var t := Shutdown(s, ok);
            (Hands(s, t) ==> Handed(s, t).GiveUp?)
            && (t.auth.held ==> s.auth.held && s.licence.stopped)
  {
  }

  /** Outside the sections of `tick` only a release can go out. */
  lemma OutsideTick(w: World, e: Event)
    requires Inv(w) && !e.Section?
    ensures var t := Step(w, e).s; (Hands(w.s, t) ==> Handed(w.s, t).GiveUp?) && (t.auth.held ==> w.s.auth.held)
  {
    if e.Stop? { ShutdownPassive(w.s, e.ok); }
    if e.Tick? { ShutdownPassive(w.s, e.i.releaseOk); }
    hide Shutdown, TickStep, LastTold;
  }

  lemma HandsOverOnlyCommands(w: World, e: Event, frame: Output)
    requires Inv(w) && HandsOver(w, e, frame)
    ensures e.Section? && w.pc.AtCommands? && w.pc.rest != []
    ensures var c := w.pc.rest[0];
            && c == Send(frame.bytes, frame.generation) && frame.at == w.pc.now
            && w.s.auth.held && frame.generation == w.s.auth.authorized && w.s.telemetry.live
  {
    HandedFirst(w, e, frame);
    hide RunCommand, Request, LastTold;
    if !e.Section? { OutsideTick(w, e); }
    else {
      SectionTame(w.s, w.pc, e.i);
      if w.pc.AtCommands? && w.pc.rest != [] { RunCommandTame(w.s, w.pc.rest[0], w.pc.now, e.i); }
      if w.pc.AtRenew? { RequestTame(w.s, Renew, w.pc.now, e.i); }
    }
  }

  /**
   * A frame handed to the transport at time `t` was loaded by a caller under the very grant still held at `t`, and that
   * grant was held at every moment in between; at `t` the lease confirmation and the client's last activity are each
   * under 5 seconds old and an active lifecycle (REDCON 1 or 2) was verified under 15 seconds ago.
   */
  lemma FrameUnderOneGrant(start: int, events: seq<Event>, e: Event, frame: Output)
    requires HandsOver(Exec(start, events), e, frame)
    ensures var s := Exec(start, events).s;
            && s.auth.held && s.auth.authorized == frame.generation && ValidMavlink2(frame.bytes)
            && frame.at - s.auth.lastRenewed < LEASE && frame.at - s.auth.lastClient < LEASE
            && s.licence.hasVerification && Active(s.licence.lifecycle)
            && frame.at - s.licence.lastVerified < VERIFICATION
    ensures exists i: nat :: && LoadedAt(start, events, i, Send(frame.bytes, frame.generation))
                             && forall k :: i <= k <= |events| ==>
                                  Exec(start, events[..k]).s.auth.authorized == frame.generation
  {
    var w := Exec(start, events);
    AuthorityInvariant(start, events);
    HandsOverOnlyCommands(w, e, frame);
    FramesHaveOrigins(start, events);
    var c := Send(frame.bytes, frame.generation);
    assert c in w.pc.rest;
    assert HasOrigin(start, events, c);
    var i: nat :| LoadedAt(start, events, i, c);
    forall k | i <= k <= |events| ensures Exec(start, events[..k]).s.auth.authorized == frame.generation {
      assert events[..i] == events[..k][..i];
      GrantIsUnbroken(start, events, i, k);
    }
  }

  /** Authority is gained only by a reply that carries the outstanding activate request's id and names a valid owner. */
  lemma GainNeedsReply(start: int, events: seq<Event>, e: Event)
    requires !Exec(start, events).s.auth.held && Step(Exec(start, events), e).s.auth.held
    ensures var w := Exec(start, events); var s := w.s;
            && e.Section? && w.pc.AtReplies? && s.replies != [] && s.auth.pendingKind == Activate
            && s.auth.pendingId.AgentId?
            && var r := s.replies[0];
               && r.Typed? && r.kind == "control.activated" && r.requestId == Some(s.auth.pendingId) && r.lease.Lease?
               && ValidOwner(r.lease.epoch, r.lease.active)
               && Step(w, e).s.auth.sessionId == r.lease.active.value.sessionId
               && Step(w, e).s.auth.epoch == r.lease.epoch
               && Step(w, e).s.auth.authorized == s.auth.controlGeneration + 1
  {
    var w := Exec(start, events);
    AuthorityInvariant(start, events);
    hide Exec, Respond, LastTold;
    if e.Section? {
      SectionTame(w.s, w.pc, e.i);
      if w.pc.AtReplies? && w.s.replies != [] {
        RespondTame(w.s.(replies := w.s.replies[1..]), w.s.replies[0], w.pc.now, e.i.releaseOk);
      }
    } else {
      OutsideTick(w, e);
    }
  }

  /**
   * A request is handed to the transport only when none is outstanding, under an id that no request before it carried,
   * and it is then the one outstanding.
   */
  lemma OneRequestAtATime(start: int, events: seq<Event>, e: Event, ask: Output)
    requires var s, t := Exec(start, events).s, Step(Exec(start, events), e).s;
             ask.Ask? && |s.outputs| <= |t.outputs| && ask in t.outputs[|s.outputs|..]
    ensures var s, t := Exec(start, events).s, Step(Exec(start, events), e).s;
            && s.auth.pendingId == NoId && ask.id == AgentId(s.auth.sequence + 1) && t.auth.pendingId == ask.id
            && (ask.kind == Renew ==> s.auth.held && ask.epoch == s.auth.epoch)
            && (forall earlier :: earlier in s.outputs && earlier.Ask? ==> earlier.id != ask.id)
  {
    var w := Exec(start, events);
    AuthorityInvariant(start, events);
    RequestIdsAreUsed(start, events);
    HandedFirst(w, e, ask);
    NextId(w, e);
    hide Exec, Step, LastTold;
  }

  lemma StoppedStep(w: World, e: Event)
    requires Inv(w) && w.s.licence.stopped
    ensures Step(w, e).s.licence.stopped && Step(w, e).s.outputs == w.s.outputs
  {
    hide LinkNext, LastTold;
  }

  /** A stopped session stays stopped, without authority, and hands nothing more to its transport. */
  lemma {:induction false} StoppedIsSilent(start: int, events: seq<Event>, m: nat)
    requires m <= |events| && Exec(start, events[..m]).s.licence.stopped
    ensures Exec(start, events).s.licence.stopped && !Exec(start, events).s.auth.held
    ensures Exec(start, events).s.outputs == Exec(start, events[..m]).s.outputs
  {
    AuthorityInvariant(start, events);
    if m == |events| {
      assert events[..m] == events;
    } else {
      var before := events[..|events| - 1];
      assert before[..m] == events[..m];
      StoppedIsSilent(start, before, m);
      AuthorityInvariant(start, before);
      StoppedStep(Exec(start, before), events[|events| - 1]);
    }
  }
}
