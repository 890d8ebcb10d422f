/**
 * The session in its own form: fields updated in place, a tick that loops over replies and commands while other
 * threads interfere between any two of its sections (agent/src/core.cpp). Every method is proved against the step
 * functions, so that a whole tick is a run of the interleaving machine.
 */
module SessionCell {
  import opened Common
  import opened Datagram
  import opened Sessions

  /** The control fields. */
  class ControlCell {
    var held: bool
    var authorized: nat
    var controlGeneration: nat
    var epoch: nat
    var sessionId: string
    var sequence: nat
    var pendingId: RequestId
    var pendingKind: RequestKind
    var requestAt: int
    var lastClient: int
    var lastRenewed: int
    var nextRenew: int

    function View(): Authority
      reads this
    {
      Authority(held, authorized, controlGeneration, epoch, sessionId, sequence, pendingId, pendingKind, requestAt,
                lastClient, lastRenewed, nextRenew)
    }

    constructor ()
      ensures View() == NO_AUTHORITY
    {
      held, authorized, controlGeneration, epoch, sessionId := false, 0, 0, 0, "";
      sequence, pendingId, pendingKind := 0, NoId, NoRequest;
      requestAt, lastClient, lastRenewed, nextRenew := 0, 0, 0, 0;
    }

    method Drop(releaseLease: bool)
      modifies this
      ensures View() == Dropped(old(View()), releaseLease)
    {
      authorized := 0;
      if held && releaseLease { sequence := sequence + 1; }
      held, pendingId, pendingKind, sessionId := false, NoId, NoRequest, "";
    }

    method AskFor(kind: RequestKind, now: int)
      modifies this
      ensures View() == Asking(old(View()), kind, now)
    {
      sequence := sequence + 1;
      pendingKind, pendingId, requestAt := kind, AgentId(sequence), now;
    }

    method Accept(owner: Owner, now: int)
      modifies this
      ensures View() == Granted(old(View()), owner, now)
    {
      sessionId, epoch := owner.sessionId, owner.epoch;
      held, lastRenewed, nextRenew := true, now, now + SECOND;
      controlGeneration := controlGeneration + 1;
      authorized := controlGeneration;
      pendingId, pendingKind := NoId, NoRequest;
    }

    method Confirm(now: int)
      modifies this
      ensures View() == Renewed(old(View()), now)
    {
      lastRenewed, nextRenew, pendingId, pendingKind := now, now + SECOND, NoId, NoRequest;
    }
  }

  class Cell {
    var telemetry: Link
    var video: Link
    var licence: Licence
    const auth: ControlCell
    var replies: seq<Reply>
    var overflow: bool
    var commands: seq<Command>
    var notices: seq<Notice>
    var outputs: seq<Output>

    function View(): Session
      reads this, auth
    {
      Session(telemetry, video, licence, auth.View(), replies, overflow, commands, notices, outputs)
    }

    constructor (now: int)
      ensures View() == New(now).s && fresh(auth)
    {
      telemetry, video := NO_LINK, NO_LINK;
      licence := Licence(Lifecycle(false, 4), false, now, false);
      auth := new ControlCell();
      replies, overflow, commands, notices, outputs := [], false, [], [], [];
    }

    method DoLose(releaseLease: bool, ok: bool)
      modifies this, auth
      ensures View() == Lose(old(View()), releaseLease, ok)
    {
      var wasAuthorized := auth.held || auth.pendingId != NoId;
      if auth.held && releaseLease && telemetry.live && ok { outputs := outputs + [GiveUp(auth.epoch)]; }
      auth.Drop(releaseLease);
      if wasAuthorized { notices := notices + [Control(false)]; }
    }

    method DoRequest(kind: RequestKind, now: int, i: Input)
      modifies this, auth
      ensures View() == Request(old(View()), kind, now, i)
    {
      hide Lose;
      auth.AskFor(kind, now);
      if telemetry.live && i.sendOk { outputs := outputs + [Ask(kind, auth.pendingId, if kind == Renew then auth.epoch
                                                                else 0)]; }
      else { DoLose(true, i.releaseOk); }
    }

    method RespondToLease(r: Reply, matching: bool, now: int, ok: bool)
      requires r.Typed? && r.lease.Lease?
      modifies this, auth
      ensures View() == RespondLease(old(View()), r.kind, matching, r.lease.epoch, r.lease.active, now, ok)
    {
      hide Lose, Granted, Renewed;
      var active := r.lease.active;
      var valid := ValidOwner(r.lease.epoch, active);
      if auth.held && (!valid || active.value.sessionId != auth.sessionId || active.value.epoch != auth.epoch) {
        DoLose(false, ok); return;
      }
      if !matching { return; }
      if auth.pendingKind == Activate && r.kind == "control.activated" && valid {
        auth.Accept(active.value, now);
        notices := notices + [Control(true)];
      } else if auth.pendingKind == Renew && r.kind == "control.renewed" && auth.held {
        auth.Confirm(now);
      } else { DoLose(true, ok); }
    }

    method DoRespond(r: Reply, now: int, ok: bool)
      modifies this, auth
      ensures View() == Respond(old(View()), r, now, ok)
    {
      hide Lose, RespondLease;
      if r.Garbled? { DoLose(true, ok); return; }
      if r.Untyped? { return; }
      var matching := r.requestId == Some(auth.pendingId);
      if r.kind == "control.error" {
        if matching { DoLose(true, ok); }
        return;
      }
      if r.lease.NoState? { return; }
      if r.lease.BadLease? { DoLose(true, ok); return; }
      RespondToLease(r, matching, now, ok);
    }

    method DoShutdown(ok: bool)
      modifies this, auth
      ensures View() == Shutdown(old(View()), ok)
    {
      hide Lose;
      if licence.stopped { return; }
      licence := licence.(stopped := true);
      DoLose(true, ok);
      if telemetry.live { telemetry := Retire(telemetry); }
      if video.live { video := Retire(video); }
    }

    /** `update` of the telemetry link; authority is lost before its transport stops. */
    method DoUpdateTelemetry(now: int, i: Input)
      modifies this, auth
      ensures View() == UpdateTelemetry(old(View()), now, i)
    {
      hide Lose, LinkNext;
      var link, state, lost := UpdateLink(telemetry, true, licence.hasVerification, now, i);
      var before := telemetry.previous;
      if lost { DoLose(true, i.releaseOk); }
      if state != before { notices := notices + [LinkChanged(true, state)]; }
      telemetry := link;
    }

    method DoUpdateVideo(now: int, i: Input)
      modifies this
      ensures View() == UpdateVideo(old(View()), now, i)
    {
      hide LinkNext;
      var link, state, lost := UpdateLink(video, false, licence.hasVerification
                                          && licence.lifecycle.redcon == 1, now, i);
      if state != video.previous { notices := notices + [LinkChanged(false, state)]; }
      video := link;
    }

    /** `tick`, lines 264-265. */
    method DoCheckLease(now: int, ok: bool)
      modifies this, auth
      ensures View() == CheckLease(old(View()), now, ok)
    {
      hide Lose;
      if auth.held && (now - auth.lastClient >= LEASE || now - auth.lastRenewed >= LEASE) { DoLose(true, ok); }
      if auth.pendingId != NoId && now - auth.requestAt >= REQUEST_TIMEOUT { DoLose(true, ok); }
    }

    method DoRunCommand(c: Command, now: int, i: Input)
      modifies this, auth
      ensures View() == RunCommand(old(View()), c, now, i)
    {
      hide Lose, Request;
      match c
      case Activity => auth.lastClient := now;
      case Release => DoLose(true, i.releaseOk);
      case Acquire(_) =>
        if auth.held { return; }
        if auth.pendingId == NoId && telemetry.live && i.state == Connected {
          auth.lastClient := now;
          DoRequest(Activate, now, i);
        } else { notices := notices + [Control(false)]; }
      case Send(bytes, generation) =>
        if !auth.held || generation != auth.authorized { return; }
        var sent := false;
        if telemetry.live {
          outputs := outputs + [Uplink(bytes, generation, now)];
          sent := i.sendOk;
        }
        if sent { auth.lastClient := now; } else { DoLose(true, i.releaseOk); }
    }

    method DoRenew(now: int, i: Input)
      modifies this, auth
      ensures View() == RenewIfDue(old(View()), now, i)
    {
      hide Request;
      if auth.held && auth.pendingId == NoId && now >= auth.nextRenew { DoRequest(Renew, now, i); }
    }
  }

  /** `update` on one link: the link afterwards, the state it reports, and whether its transport was given up. */
  method UpdateLink(link: Link, isTelemetry: bool, wanted: bool, now: int, i: Input)
    returns (l: Link, state: Connection, lost: bool)
    ensures LinkStep(l, lost, state) == LinkNext(link, isTelemetry, wanted, now, i)
  {
    l, lost := link, false;
    if l.retiring && i.finished { l := l.(retiring := false); }
    if !wanted && l.live {
      l := l.(live := false, retiring := true, backoff := 1);
      lost := true;
    }
    state := if l.live then i.state else Stopped;
    var silent := false;
    if isTelemetry && state == Connected {
      if l.previous != Connected || i.received != l.receivedCount {
        l := l.(lastReceived := now, receivedCount := i.received);
      }
      silent := now - l.lastReceived >= VERIFICATION;
    }
    if l.live && (state == Failed || silent || (state == Connecting && now - l.attempted >= NEGOTIATION)) {
      l := l.(live := false, retiring := true, retryAt := now + l.backoff * SECOND, backoff := Min(10, l.backoff * 2));
      state, lost := Failed, true;
    }
    if wanted && !l.live && !l.retiring && now >= l.retryAt {
      l := l.(live := true, attempted := now, receivedCount := 0, lastReceived := now);
      if i.starts { state := i.started; }
      else {
        l := l.(live := false, retiring := true, retryAt := now + l.backoff * SECOND,
                backoff := Min(10, l.backoff * 2));
        state := Failed;
      }
    }
    if state == Connected { l := l.(backoff := 1); }
    l := l.(previous := state);
  }
}
