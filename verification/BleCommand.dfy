/**
 * One device session of the rig's BLE daemon: the command handler with its connect, write and confirm loops, and the
 * session loop around it. Everything the radio, the clock and the advertisement queue decide is read from a stream of
 * answers, so a contract holds for every device, every timing and every failure.
 */
module BleCommands {
  import opened Common

  const WRITE_ATTEMPTS: nat := 2
  const CONFIRM_ATTEMPTS: nat := 8
  const REDCON_IDLE: nat := 4

  datatype Status = Accepted | Rejected | Failed | Succeeded

  /** What a session does that others can see: results it publishes and operations on its connection. */
  datatype Action =
    | Publish(status: Status)
    | Write(level: nat, ok: bool)
    | StateRead(level: nat)
    | Opened
    | Closed

  /** One answer of the outside world; each question uses the parts it needs. */
  datatype Answer = Answer(yes: bool, retryable: bool, level: nat, patience: nat)

  /** An error value: whether its text is one of the retryable ones, and whether it is a confirmation mismatch. */
  datatype Fault = Fault(retryable: bool, mismatch: bool)

  datatype Outcome = Connected | DeferredNoCapacity

  datatype Input = Advertisement | Command(redcon: nat) | StaleTick | NotificationTick | HeartbeatTick

  predicate IsTerminal(a: Action) { a.Publish? && !a.status.Accepted? }

  /** The level a command asks the device for, or nothing when the level is not supported. */
  function Normalize(redcon: nat): (n: Option<nat>)
    ensures n.Some? <==> 1 <= redcon <= 4
    ensures n.Some? ==> n.value in {3, 4} && (n.value == REDCON_IDLE <==> redcon == REDCON_IDLE)
  {
    if redcon == 1 || redcon == 2 then Some(3) else if redcon == 3 || redcon == 4 then Some(redcon) else None
  }

  datatype Tally = Tally(terminal: nat, accepted: nat, writes: nat, opens: nat, closes: nat)

  function Tallied(log: seq<Action>): Tally {
    if log == [] then Tally(0, 0, 0, 0, 0) else
    var t := Tallied(log[..|log| - 1]);
    match log[|log| - 1]
    case Publish(s) => if s.Accepted? then t.(accepted := t.accepted + 1) else t.(terminal := t.terminal + 1)
    case Write(_, _) => t.(writes := t.writes + 1)
    case StateRead(_) => t
    case Opened => t.(opens := t.opens + 1)
    case Closed => t.(closes := t.closes + 1)
  }

  function Commands(script: seq<Input>): nat {
    if script == [] then 0
    else Commands(script[..|script| - 1]) + if script[|script| - 1].Command? then 1 else 0
  }

  /** From position n on the log holds nothing but connection events and reads: no result and no write. */
  ghost predicate QuietFrom(log: seq<Action>, n: nat) {
    forall i :: n <= i < |log| ==> !log[i].Publish? && !log[i].Write?
  }

  /** The last entries of the log: a successful write of n, then only state reads, the last of which returned n. */
  ghost predicate ConfirmedSince(log: seq<Action>, start: nat, n: nat) {
    && start < |log| && log[|log| - 1] == StateRead(n)
    && exists w :: start <= w < |log| - 1 && log[w] == Write(n, true)
                   && forall j :: w < j < |log| ==> log[j].StateRead?
  }

  /** The checks a command must pass before it is accepted. */
  predicate Admitted(redcon: nat, weather: bool, expired: bool) {
    !expired && (weather ==> redcon == REDCON_IDLE) && Normalize(redcon).Some?
  }

  /**
   * What handling one command adds to the log after position start. A command that is not admitted gets one failure
   * or rejection and nothing else. An admitted one gets its acceptance first, one failure or success last and no
   * other result between, writes only its normalized level, and succeeds only on a confirmed write.
   */
  ghost predicate Handled(log: seq<Action>, start: nat, redcon: nat, weather: bool, expired: bool) {
    && start < |log| && IsTerminal(log[|log| - 1])
    && (if Admitted(redcon, weather, expired) then
          var n := Normalize(redcon).value;
          && start + 1 < |log| && log[start] == Publish(Accepted) && !log[|log| - 1].status.Rejected?
          && (forall i :: start < i < |log| - 1 ==> !log[i].Publish?)
          && (forall i :: start < i < |log| - 1 && log[i].Write? ==> log[i].level == n)
          && (log[|log| - 1].status.Succeeded? ==> ConfirmedSince(log[..|log| - 1], start, n))
        else
          && |log| == start + 1
          && log[start] == Publish(if expired then Failed else Rejected))
  }

  class DeviceSession {
    const weather: bool
    const answers: nat -> Answer
    var used: nat
    var connected: bool
    var lastRedcon: Option<nat>
    var guardedRedcon: Option<nat>
    var connectFailures: nat
    var log: seq<Action>

    constructor (weather: bool, answers: nat -> Answer)
      ensures Valid() && log == [] && !connected && this.weather == weather && this.answers == answers
    {
      this.weather, this.answers := weather, answers;
      used, connected, lastRedcon, guardedRedcon, connectFailures, log := 0, false, None, None, 0, [];
    }

    /** Every connection the session opened has been closed once, except the one it still holds. */
    ghost predicate Valid()
      reads this
    {
      Tallied(log).opens == Tallied(log).closes + if connected then 1 else 0
    }

    method Ask() returns (a: Answer)
      modifies `used
      ensures a == answers(old(used)) && used == old(used) + 1
    {
      a := answers(used);
      used := used + 1;
    }

    /** Only results and writes go through here, so Valid is kept. */
    method Note(a: Action)
      requires Valid() && (a.Publish? || a.Write? || a.StateRead?)
      modifies `log
      ensures Valid() && log == old(log) + [a]
      ensures Tallied(log).terminal == Tallied(old(log)).terminal + (if IsTerminal(a) then 1 else 0)
      ensures Tallied(log).accepted == Tallied(old(log)).accepted + (if a == Publish(Accepted) then 1 else 0)
      ensures Tallied(log).writes == Tallied(old(log)).writes + (if a.Write? then 1 else 0)
    {
      log := log + [a];
      assert log[..|log| - 1] == old(log);
    }

    /** The state after some quiet stretch of work: nothing published, nothing written. */
    twostate predicate Quiet()
      reads this
    {
      && Valid() && old(log) <= log && QuietFrom(log, |old(log)|)
      && Tallied(log).terminal == Tallied(old(log)).terminal && Tallied(log).writes == Tallied(old(log)).writes
      && Tallied(log).accepted == Tallied(old(log)).accepted
    }

    method Disconnect()
      requires Valid()
      modifies `connected, `log
      ensures Quiet() && !connected
      ensures log == if old(connected) then old(log) + [Closed] else old(log)
    {
      if connected {
        log, connected := log + [Closed], false;
        assert log[..|log| - 1] == old(log);
      }
    }

    method Open()
      requires Valid() && !connected
      modifies `connected, `log
      ensures Quiet() && connected
    {
      log, connected := log + [Opened], true;
      assert log[..|log| - 1] == old(log);
    }

    /** The offline sample forgets the last level; it may be put off while the device can still recover. */
    method PublishUnavailable(certain: bool)
      modifies `lastRedcon, `used
    {
      var a := Ask();
      if certain || a.yes { lastRedcon := None; }
    }

    /**
     * The stale check of a session without a connection: unless something still vouches for the device, it is
     * offline.
     */
    method CheckOffline()
      modifies `lastRedcon, `connectFailures, `used
    {
      var silent := Ask();
      if silent.yes { lastRedcon, connectFailures := None, 0; }
    }

    /**
     * Success with a connection held means exactly one state read was made and its value stored; without one it means
     * nothing was read at all. A connection found gone is closed and reported by an error that is not retryable.
     */
    method RefreshConnectedState() returns (err: Option<Fault>)
      requires Valid()
      modifies this
      ensures Quiet() && (connected ==> old(connected)) && guardedRedcon == old(guardedRedcon)
      ensures err.None? && old(connected) ==>
                connected && exists v: nat :: log == old(log) + [StateRead(v)] && lastRedcon == Some(v)
      ensures err.None? && !old(connected) ==> log == old(log) && lastRedcon == old(lastRedcon)
      ensures err.Some? && connected ==> log == old(log)
      ensures err.Some? && !connected ==> !err.value.retryable
      ensures err.Some? ==> !err.value.mismatch
    {
      hide Tallied;
      if !connected { return None; }
      var alive := Ask();
      if !alive.yes {
        Disconnect();
        CheckOffline();
        return Some(Fault(false, false));
      }
      var state := Ask();
      if !state.yes { return Some(Fault(state.retryable, false)); }
      lastRedcon := Some(state.level);
      Note(StateRead(state.level));
      err := None;
    }

    /** A wait that an advertisement, a timer or the end of the context ends; it never touches the connection. */
    method Wait() returns (ok: bool)
      modifies `used
    {
      var a := Ask();
      ok := a.yes;
    }

    method Connect(waitForCapacity: bool) returns (outcome: Outcome, err: Option<Fault>)
      requires Valid()
      modifies this
      ensures Quiet() && guardedRedcon == old(guardedRedcon)
      ensures err.None? && outcome.Connected? ==> connected
      ensures err.Some? || outcome.DeferredNoCapacity? ==> !connected
    {
      hide Tallied;
      outcome, err := Connected, None;
      if connected {
        var alive := Ask();
        if alive.yes {
          if waitForCapacity {
            err := RefreshConnectedState();
            if err.Some? { Disconnect(); }
          }
          return;
        }
      }
      Disconnect();
      var seen := Ask();
      if !seen.yes { return Connected, Some(Fault(true, false)); }
      var dial := Ask();
      if !dial.yes { return Connected, Some(Fault(dial.retryable, false)); }
      if dial.level > 0 { return DeferredNoCapacity, None; }
      Open();
      err := RefreshConnectedState();
      if err.Some? { Disconnect(); }
    }

    /** patience is the number of further attempts the command deadline leaves time for. */
    method ConnectForCommand() returns (err: Option<Fault>)
      requires Valid()
      modifies this
      ensures Quiet() && guardedRedcon == old(guardedRedcon) && (err.None? ==> connected)
    {
      hide Tallied;
      var world := Ask();
      var patience := world.patience;
      while true
        invariant Quiet() && guardedRedcon == old(guardedRedcon)
        decreases patience
      {
        var outcome, fault := Connect(true);
        if fault.None? {
          if outcome.Connected? { return None; }
          return Some(Fault(false, false));
        }
        var stopped := Ask();
        if stopped.yes || !fault.value.retryable || patience == 0 { return fault; }
        patience := patience - 1;
        var resumed := Wait();
        if !resumed { return Some(Fault(false, false)); }
      }
    }

    /**
     * Waits for the written level to be read back: success means the read made last, on the same connection, returned
     * it.
     */
    method ConfirmCommandState(target: nat) returns (err: Option<Fault>)
      requires Valid() && connected
      modifies this
      ensures Quiet() && guardedRedcon == old(guardedRedcon)
      ensures err.None? ==> connected && |log| > |old(log)| && log[|log| - 1] == StateRead(target)
                            && forall j :: |old(log)| <= j < |log| ==> log[j].StateRead?
      ensures err.Some? && err.value.mismatch ==> connected
    {
      hide Tallied;
      var lastErr: Option<Fault> := None;
      var attempt := 1;
      while attempt <= CONFIRM_ATTEMPTS
        invariant Quiet() && connected && guardedRedcon == old(guardedRedcon)
        invariant forall j :: |old(log)| <= j < |log| ==> log[j].StateRead?
        invariant lastErr.Some? ==> !lastErr.value.mismatch
      {
        lastErr := RefreshConnectedState();
        var clock := Ask();
        if lastErr.Some? {
          if attempt >= CONFIRM_ATTEMPTS || !lastErr.value.retryable || !clock.yes { return lastErr; }
        } else {
          if lastRedcon == Some(target) { return None; }
          if attempt == CONFIRM_ATTEMPTS || !clock.yes { break; }
        }
        var resumed := Wait();
        if !resumed { return Some(Fault(false, false)); }
        attempt := attempt + 1;
      }
      if lastErr.Some? { return lastErr; }
      err := Some(Fault(false, true));
    }

    method Finish(status: Status)
      requires Valid() && !status.Accepted?
      modifies `log
      ensures Valid() && log == old(log) + [Publish(status)]
      ensures Tallied(log).terminal == Tallied(old(log)).terminal + 1
      ensures Tallied(log).writes == Tallied(old(log)).writes && Tallied(log).accepted == Tallied(old(log)).accepted
    {
      Note(Publish(status));
    }

    /**
     * The write attempts of an accepted command: at most two writes, of the normalized level, the last one alone
     * successful.
     */
    method WriteCommand(n: nat) returns (written: bool)
      requires Valid()
      modifies this
      ensures Valid() && old(log) <= log && guardedRedcon == old(guardedRedcon)
      ensures forall i :: |old(log)| <= i < |log| ==> !log[i].Publish? && (log[i].Write? ==> log[i].level == n)
      ensures Tallied(log).terminal == Tallied(old(log)).terminal && Tallied(log).accepted == Tallied(old(log)).accepted
      ensures Tallied(log).writes <= Tallied(old(log)).writes + WRITE_ATTEMPTS
      ensures written ==> connected && |log| > |old(log)| && log[|log| - 1] == Write(n, true)
    {
      hide Tallied;
      var attempt := 1;
      written := false;
      while attempt <= WRITE_ATTEMPTS
        invariant 1 <= attempt <= WRITE_ATTEMPTS + 1
        invariant Valid() && old(log) <= log && guardedRedcon == old(guardedRedcon)
        invariant forall i :: |old(log)| <= i < |log| ==> !log[i].Publish? && (log[i].Write? ==> log[i].level == n)
        invariant Tallied(log).terminal == Tallied(old(log)).terminal
                  && Tallied(log).accepted == Tallied(old(log)).accepted
        invariant Tallied(log).writes <= Tallied(old(log)).writes + attempt - 1
      {
        var fault := ConnectForCommand();
        if fault.Some? {
          connectFailures := connectFailures + 1;
          PublishUnavailable(true);
          return false;
        }
        var expired := Ask();
        if expired.yes || !connected { return false; }
        var write := Ask();
        Note(Write(n, write.yes));
        if write.yes { return true; }
        Disconnect();
        var again := Ask();
        if attempt >= WRITE_ATTEMPTS || !again.yes {
          connectFailures := connectFailures + 1;
          PublishUnavailable(true);
          return false;
        }
        attempt := attempt + 1;
      }
    }

    /** Confirmation and the final result, for a command whose write went through. */
    method ConcludeCommand(n: nat)
      requires Valid() && connected && |log| > 0 && log[|log| - 1] == Write(n, true)
      modifies this
      ensures Valid() && old(log) <= log && |log| > |old(log)|
      ensures IsTerminal(log[|log| - 1]) && !log[|log| - 1].status.Rejected?
      ensures QuietFrom(log[..|log| - 1], |old(log)|)
      ensures Tallied(log).terminal == Tallied(old(log)).terminal + 1
              && Tallied(log).accepted == Tallied(old(log)).accepted
      ensures Tallied(log).writes == Tallied(old(log)).writes
      ensures log[|log| - 1].status.Succeeded? ==> ConfirmedSince(log[..|log| - 1], |old(log)| - 1, n)
      ensures log[|log| - 1].status.Succeeded? ==> connected && guardedRedcon == Some(n) && connectFailures == 0
    {
      hide Tallied;
      ghost var w := |log| - 1;
      var fault := ConfirmCommandState(n);
      if fault.Some? {
        if !fault.value.mismatch {
          Disconnect();
          PublishUnavailable(true);
        }
        ghost var before := log;
        Finish(Failed);
        assert log[..|log| - 1] == before;
        return;
      }
      connectFailures := 0;
      guardedRedcon := Some(n);
      ghost var before := log;
      assert before[w] == Write(n, true);
      Finish(Succeeded);
      assert log[..|log| - 1] == before;
    }

    /** The command handler, for every command and every behaviour of the device. */
    method HandleCommand(redcon: nat)
      requires Valid()
      modifies this
      ensures Valid() && old(log) <= log
      ensures Handled(log, |old(log)|, redcon, weather, answers(old(used)).yes)
      ensures Tallied(log).terminal == Tallied(old(log)).terminal + 1
      ensures Tallied(log).accepted <= Tallied(old(log)).accepted + 1
      ensures Tallied(log).writes <= Tallied(old(log)).writes + WRITE_ATTEMPTS
      ensures log[|log| - 1].status.Succeeded? ==>
                guardedRedcon == Normalize(redcon) && connectFailures == 0 && connected
    {
      hide Tallied;
      ghost var start := |log|;
      var expired := Ask();
      if expired.yes {
        Finish(Failed);
        return;
      }
      if weather && redcon != REDCON_IDLE {
        Finish(Rejected);
        return;
      }
      var normalized := Normalize(redcon);
      if normalized.None? {
        Finish(Rejected);
        return;
      }
      var n := normalized.value;
      Note(Publish(Accepted));
      var written := WriteCommand(n);
      ghost var middle := log;
      assert middle[start] == Publish(Accepted);
      if !written {
        Finish(Failed);
        return;
      }
      ConcludeCommand(n);
      ghost var w := |middle| - 1;
      assert log[start] == middle[start];
      assert forall i :: start < i < |middle| ==> log[i] == middle[i];
      assert forall i :: |middle| <= i < |log| - 1 ==> log[i] == log[..|log| - 1][i];
    }

    /** One turn of the session loop other than a command; it publishes no command result and writes nothing. */
    method Background(input: Input)
      requires Valid() && !input.Command?
      modifies this
      ensures Quiet()
    {
      hide Tallied;
      match input
      case Advertisement =>
        var matched := Ask();
        if !matched.yes { return; }
        if connected {
          var alive := Ask();
          if alive.yes { return; }
        }
        var holding := Ask();
        if holding.yes { return; }
        var outcome, err := Connect(false);
        if err.None? {
          if outcome.Connected? { connectFailures := 0; }
        } else {
          PublishUnavailable(false);
          connectFailures := connectFailures + 1;
        }
      case StaleTick =>
        if connected { LoseDeadConnection(); } else { CheckOffline(); }
      case NotificationTick =>
        if connected { LoseDeadConnection(); }
        if connected {
          var holdOver := Ask();
          if holdOver.yes { guardedRedcon := None; }
          var note := Ask();
          if note.yes && (guardedRedcon.None? || note.level == guardedRedcon.value) { lastRedcon := Some(note.level); }
        }
      case HeartbeatTick =>
        if connected {
          var alive := Ask();
          if alive.yes {
            var err := RefreshConnectedState();
            if err.Some? {
              Disconnect();
              PublishUnavailable(false);
            }
          }
        }
    }

    method LoseDeadConnection()
      requires Valid() && connected
      modifies this
      ensures Quiet()
    {
      hide Tallied;
      var alive := Ask();
      if !alive.yes {
        Disconnect();
        PublishUnavailable(false);
      }
    }

    /**
     * A whole session, from its first input until it is cancelled: every command it took got exactly one terminal
     * result and at most one acceptance, there were at most two writes per command, and every connection it ever
     * opened has been closed exactly once.
     */
    method Run(script: seq<Input>)
      requires log == [] && !connected && Valid()
      modifies this
      ensures Tallied(log).terminal == Commands(script)
      ensures Tallied(log).accepted <= Commands(script)
      ensures Tallied(log).writes <= WRITE_ATTEMPTS * Commands(script)
      ensures Tallied(log).opens == Tallied(log).closes && !connected
    {
      for i := 0 to |script|
        invariant Valid()
        invariant Tallied(log).terminal == Commands(script[..i]) && Tallied(log).accepted <= Commands(script[..i])
        invariant Tallied(log).writes <= WRITE_ATTEMPTS * Commands(script[..i])
      {
        assert script[..i + 1][..i] == script[..i];
        match script[i] {
          case Command(redcon) => HandleCommand(redcon);
          case _ => Background(script[i]);
        }
      }
      assert script[..|script|] == script;
      Disconnect();
    }

    /** A daemon that may not use the radio: every command fails at once, and nothing is opened or written. */
    method RunWithoutRadio(script: seq<Input>)
      requires log == [] && !connected && Valid()
      modifies `log, `lastRedcon, `used
      ensures Tallied(log).terminal == Commands(script) && Tallied(log).accepted == 0
      ensures forall i :: 0 <= i < |log| ==> log[i] == Publish(Failed)
    {
      PublishUnavailable(true);
      for i := 0 to |script|
        invariant Valid() && Tallied(log).terminal == Commands(script[..i]) && Tallied(log).accepted == 0
        invariant forall k :: 0 <= k < |log| ==> log[k] == Publish(Failed)
      {
        assert script[..i + 1][..i] == script[..i];
        if script[i].Command? { Finish(Failed); }
      }
      assert script[..|script|] == script;
    }
  }
}
