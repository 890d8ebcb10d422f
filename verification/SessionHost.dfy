/**
 * The hosting thread and its environment. Between two sections of `tick` other threads do what a script says: callers
 * load and enqueue, transports deliver. Every finite script is possible. `Valid` ties the fields to the interleaving
 * machine, so each tick is one of the runs the session's theorems speak about.
 */
module SessionHost {
  import opened Bits
  import opened Datagram
  import opened Sessions
  import opened SessionCell

  /** Sections that ask the environment nothing. */
  const IDLE_INPUT := Input(Stopped, 0, false, false, Stopped, false, false)

  lemma ExecSnoc(start: int, events: seq<Event>, e: Event)
    ensures Exec(start, events + [e]) == Step(Exec(start, events), e)
  {
    assert (events + [e])[..|events|] == events;
  }

  class Host {
    const cell: Cell
    const inputs: nat -> Input
    var used: nat
    var script: seq<seq<Event>>
    var loaded: map<nat, Command>
    ghost const start: int
    ghost var events: seq<Event>
    ghost var pc: TickPc

    ghost predicate Valid()
      reads this, cell, cell.auth
    {
      World(cell.View(), pc, loaded) == Exec(start, events)
    }

    constructor (now: int, inputs: nat -> Input, script: seq<seq<Event>>)
      ensures Valid() && pc.Idle? && events == [] && fresh(cell) && fresh(cell.auth)
    {
      cell := new Cell(now);
      this.inputs, used, this.script, loaded := inputs, 0, script, map[];
      start, events, pc := now, [], Idle;
    }

    method NextInput() returns (i: Input)
      modifies this`used
    {
      i := inputs(used);
      used := used + 1;
    }

    /** First half of `send`. */
    method LoadFrame(caller: nat, bytes: Bytes)
      requires Valid()
      modifies this`loaded, this`events
      ensures Valid() && events == old(events) + [Load(caller, bytes)]
    {
      hide ValidMavlink2, TickStep, Begin, Called, Delivered, Shutdown, Enqueued;
      ExecSnoc(start, events, Load(caller, bytes));
      hide Exec;
      if ValidMavlink2(bytes) && cell.auth.authorized != 0 && caller !in loaded {
        loaded := loaded[caller := Send(bytes, cell.auth.authorized)];
      }
      events := events + [Load(caller, bytes)];
    }

    /** Second half of `send`: `enqueue`, which refuses at 64 waiting commands. */
    method EnqueueFrame(caller: nat)
      requires Valid()
      modifies this`loaded, this`events, cell`commands
      ensures Valid() && events == old(events) + [Enqueue(caller)]
    {
      hide TickStep, Begin, Called, Delivered;
      ExecSnoc(start, events, Enqueue(caller));
      if caller in loaded {
        if |cell.commands| != MAX_COMMANDS { cell.commands := cell.commands + [loaded[caller]]; }
        loaded := loaded - {caller};
      }
      events := events + [Enqueue(caller)];
    }

    /** `acquire`, `release`, `client_activity`. */
    method CallSession(c: Command)
      requires Valid()
      modifies this`events, cell`commands, cell`overflow
      ensures Valid() && events == old(events) + [Call(c)]
    {
      hide TickStep, Begin, Delivered;
      ExecSnoc(start, events, Call(c));
      if c.Acquire? {
        if 0 < |c.actor| <= 256 && |cell.commands| != MAX_COMMANDS { cell.commands := cell.commands + [c]; }
      } else if !c.Send? {
        if |cell.commands| == MAX_COMMANDS { cell.overflow := true; } else { cell.commands := cell.commands + [c]; }
      }
      events := events + [Call(c)];
    }

    /** The transport's text callback. */
    method DeliverText(r: Reply, short: bool)
      requires Valid()
      modifies this`events, cell`replies, cell`overflow
      ensures Valid() && events == old(events) + [Deliver(r, short)]
    {
      hide TickStep, Begin, Called;
      ExecSnoc(start, events, Deliver(r, short));
      if !short { cell.overflow := true; }
      else if |cell.replies| >= MAX_REPLIES { cell.replies, cell.overflow := cell.replies[1..] + [r], true; }
      else { cell.replies := cell.replies + [r]; }
      events := events + [Deliver(r, short)];
    }

    method OverloadSession()
      requires Valid()
      modifies this`events, cell`overflow
      ensures Valid() && events == old(events) + [Overload]
    {
      hide TickStep, Begin, Called, Delivered;
      ExecSnoc(start, events, Overload);
      cell.overflow := true;
      events := events + [Overload];
    }

    method OtherThread(e: Event)
      requires Valid()
      modifies this`loaded, this`events, cell`commands, cell`replies, cell`overflow
      ensures Valid() && old(events) <= events
    {
      match e
      case Load(caller, bytes) => LoadFrame(caller, bytes);
      case Enqueue(caller) => EnqueueFrame(caller);
      case Call(c) => CallSession(c);
      case Deliver(r, short) => DeliverText(r, short);
      case Overload => OverloadSession();
      case _ =>
    }

    /** What other threads do before the hosting thread goes on. */
    method Interfere()
      requires Valid()
      modifies this`script, this`loaded, this`events, cell`commands, cell`replies, cell`overflow
      ensures Valid() && old(events) <= events
      ensures if old(script) == [] then script == [] && cell.replies == old(cell.replies)
              else script == old(script)[1..]
    {
      if script == [] { return; }
      var batch := script[0];
      script := script[1..];
      for k := 0 to |batch|
        invariant Valid() && old(events) <= events && script == old(script)[1..]
      {
        OtherThread(batch[k]);
      }
    }

    /** The hosting thread has done the section whose step this is; the others follow. */
    method Record(i: Input, ghost s: Session)
      requires World(s, pc, loaded) == Exec(start, events) && cell.View() == TickStep(s, pc, i).0
      modifies this`events, this`pc, this`script, this`loaded, cell`commands, cell`replies, cell`overflow
      ensures Valid() && pc == TickStep(s, old(pc), i).1 && old(events) <= events
      ensures if old(script) == [] then script == [] && cell.replies == old(cell.replies)
              else script == old(script)[1..]
    {
      hide TickStep;
      ExecSnoc(start, events, Section(i));
      pc := TickStep(s, pc, i).1;
      events := events + [Section(i)];
      assert Valid();
      Interfere();
    }

    method TelemetrySection(now: int)
      requires Valid() && pc == AtTelemetry(now)
      modifies this, cell, cell.auth
      ensures Valid() && pc == AtVideo(now) && old(events) <= events
    {
      hide UpdateTelemetry, Exec;
      ghost var s := cell.View();
      var i := NextInput();
      cell.DoUpdateTelemetry(now, i);
      Record(i, s);
    }

    method VideoSection(now: int)
      requires Valid() && pc == AtVideo(now)
      modifies this, cell, cell.auth
      ensures Valid() && pc == AtOverflow(now) && old(events) <= events
    {
      hide UpdateVideo, Exec;
      ghost var s := cell.View();
      var i := NextInput();
      cell.DoUpdateVideo(now, i);
      Record(i, s);
    }

    method OverflowSection(now: int)
      requires Valid() && pc == AtOverflow(now)
      modifies this, cell, cell.auth
      ensures Valid() && pc == AtReplies(now) && old(events) <= events
    {
      hide Lose, Exec;
      ghost var s := cell.View();
      var i := NextInput();
      if cell.overflow {
        cell.overflow := false;
        cell.DoLose(true, i.releaseOk);
      }
      Record(i, s);
    }

    /** One pop from the reply queue. */
    method ReplySection(now: int)
      requires Valid() && pc == AtReplies(now) && cell.replies != []
      modifies this, cell, cell.auth
      ensures Valid() && pc == AtReplies(now) && old(events) <= events
      ensures if old(script) == [] then script == [] && |cell.replies| < |old(cell.replies)|
              else |script| < |old(script)|
    {
      hide Respond, Exec;
      ghost var s := cell.View();
      var i := NextInput();
      var reply := cell.replies[0];
      cell.replies := cell.replies[1..];
      RespondKeepsQueue(cell.View(), reply, now, i.releaseOk);
      cell.DoRespond(reply, now, i.releaseOk);
      Record(i, s);
    }

    method ProcessReplies(now: int)
      requires Valid() && pc == AtReplies(now)
      modifies this, cell, cell.auth
      ensures Valid() && pc == AtLease(now) && old(events) <= events
    {
      hide Respond, Exec;
      while cell.replies != []
        invariant Valid() && pc == AtReplies(now) && old(events) <= events
        decreases |script|, |cell.replies|
      {
        ReplySection(now);
      }
      Record(IDLE_INPUT, cell.View());
    }

    method LeaseSection(now: int)
      requires Valid() && pc == AtLease(now)
      modifies this, cell, cell.auth
      ensures Valid() && pc == AtSwap(now) && old(events) <= events
    {
      hide CheckLease, Exec;
      ghost var s := cell.View();
      var i := NextInput();
      cell.DoCheckLease(now, i.releaseOk);
      Record(i, s);
    }

    method SwapSection(now: int) returns (rest: seq<Command>)
      requires Valid() && pc == AtSwap(now)
      modifies this, cell
      ensures Valid() && pc == AtCommands(now, rest) && old(events) <= events
    {
      hide Exec;
      ghost var s := cell.View();
      rest := cell.commands;
      cell.commands := [];
      Record(IDLE_INPUT, s);
    }

    method CommandSection(now: int, ghost rest: seq<Command>, c: Command)
      requires Valid() && pc == AtCommands(now, rest) && rest != [] && rest[0] == c
      modifies this, cell, cell.auth
      ensures Valid() && pc == AtCommands(now, rest[1..]) && old(events) <= events
    {
      hide RunCommand, Exec;
      ghost var s := cell.View();
      var i := NextInput();
      cell.DoRunCommand(c, now, i);
      Record(i, s);
    }

    method RunCommands(now: int, commands: seq<Command>)
      requires Valid() && pc == AtCommands(now, commands)
      modifies this, cell, cell.auth
      ensures Valid() && pc == AtRenew(now) && old(events) <= events
    {
      hide RunCommand, Exec;
      for k := 0 to |commands|
        invariant Valid() && pc == AtCommands(now, commands[k..]) && old(events) <= events
      {
        CommandSection(now, commands[k..], commands[k]);
        assert commands[k..][1..] == commands[k + 1..];
      }
      assert commands[|commands|..] == [];
      Record(IDLE_INPUT, cell.View());
    }

    method RenewSection(now: int)
      requires Valid() && pc == AtRenew(now)
      modifies this, cell, cell.auth
      ensures Valid() && pc.Idle? && old(events) <= events
    {
      hide RenewIfDue, Exec;
      ghost var s := cell.View();
      var i := NextInput();
      cell.DoRenew(now, i);
      Record(i, s);
    }

    /** The opening tests of `tick`; false where it ends at once. */
    method Open(now: int) returns (going: bool)
      requires Valid() && pc.Idle?
      modifies this, cell, cell.auth
      ensures Valid() && pc == (if going then AtTelemetry(now) else Idle) && old(events) <= events
      ensures !going ==> cell.licence.stopped
    {
      hide Shutdown, TickStep, Exec;
      ghost var s := cell.View();
      var i := NextInput();
      going := false;
      ShutdownStops(s, i.releaseOk);
      if cell.licence.stopped {
      } else if now - cell.licence.lastVerified >= VERIFICATION
          || (cell.licence.hasVerification && !Active(cell.licence.lifecycle)) {
        cell.DoShutdown(i.releaseOk);
      } else { going := true; }
      ExecSnoc(start, events, Event.Tick(now, i));
      assert cell.View() == Begin(s, now, i).0;
      events, pc := events + [Event.Tick(now, i)], Begin(s, now, i).1;
      assert Valid();
      hide Begin;
      if going { Interfere(); }
    }

    /**
     * One tick. Whatever the other threads do meanwhile, it is a run of the interleaving machine from one idle moment
     * to the next; it returns false only with the session stopped.
     */
    method Tick(now: int) returns (going: bool)
      requires Valid() && pc.Idle?
      modifies this, cell, cell.auth
      ensures Valid() && pc.Idle? && old(events) <= events
      ensures !going ==> cell.licence.stopped
    {
      hide Exec;
      going := Open(now);
      if !going { return; }
      TelemetrySection(now);
      VideoSection(now);
      OverflowSection(now);
      ProcessReplies(now);
      LeaseSection(now);
      var rest := SwapSection(now);
      RunCommands(now, rest);
      RenewSection(now);
    }

    method VerifyLifecycle(l: Lifecycle, at: int)
      requires Valid() && pc.Idle?
      modifies this, cell
      ensures Valid() && pc.Idle? && events == old(events) + [Verified(l, at)]
    {
      hide TickStep, Begin, Called, Delivered;
      ExecSnoc(start, events, Verified(l, at));
      if !cell.licence.stopped { cell.licence := Licence(l, true, at, false); }
      events := events + [Verified(l, at)];
    }

    method ShutDown(ok: bool)
      requires Valid() && pc.Idle?
      modifies this, cell, cell.auth
      ensures Valid() && pc.Idle? && events == old(events) + [Stop(ok)]
    {
      hide TickStep, Begin, Called, Delivered, Shutdown;
      ExecSnoc(start, events, Stop(ok));
      cell.DoShutdown(ok);
      events := events + [Stop(ok)];
    }
  }

  lemma ShutdownStops(s: Session, ok: bool)
    ensures Shutdown(s, ok).licence.stopped
  {
  }

  lemma RespondKeepsQueue(s: Session, r: Reply, now: int, ok: bool)
    ensures Respond(s, r, now, ok).replies == s.replies
  {
  }
}
