/**
 * The daemon's shared connection state as it is updated in place, one locked section or channel operation per method,
 * and ConnectBLE itself written over those sections while other sessions run between any two of them.
 */
module BleConnects {
  import opened Common
  import opened BleSlots

  datatype Outcome = Connected | DeferredNoCapacity | Failed

  /** What the radio does for one connect: the steps behind the slot, each of which may fail. */
  datatype Radio = Radio(address: bool, prepared: bool, connected: bool, discovered: bool) {
    predicate Works() { address && prepared && connected && discovered }
  }

  /** A call that never had a slot and made no connection. */
  predicate Untouched(a: Account) { a.started && !a.live && a.taken == a.returned == 0 }

  /** What each section does to the account of the call it belongs to. */
  lemma BeginResult(d: Daemon, c: nat, thing: string)
    requires c !in d.started && c !in d.calls
    ensures AccountOf(Step(d, Start(c, thing)), c) == AccountOf(d, c).(started := true, stage := Some(Asking))
  {}

  lemma LookResult(d: Daemon, c: nat)
    requires StageOf(d, c) == Some(Asking)
    ensures var a := AccountOf(Step(d, LookUp(c)), c);
            a == AccountOf(d, c).(stage := a.stage) && a.stage.Some?
              && (a.stage.value.Waiting? || a.stage.value.Holding?)
  {}

  lemma WakeResult(d: Daemon, c: nat)
    requires StageOf(d, c).Some? && StageOf(d, c).value.Waiting?
    ensures var a := AccountOf(Step(d, Wake(c)), c);
            a == AccountOf(d, c).(stage := a.stage) && a.stage.Some?
              && (a.stage.value.Waiting? || a.stage.value.Asking?)
  {}

  lemma CancelResult(d: Daemon, c: nat)
    requires StageOf(d, c).Some? && (StageOf(d, c).value.Waiting? || StageOf(d, c).value.Holding?)
    ensures AccountOf(Step(d, GiveUp(c)), c) ==
            AccountOf(d, c).(stage := if d.calls[c].stage.Waiting? then None else Some(Leaving(d.calls[c].stage.done)))
    ensures Step(d, GiveUp(c)).tokens == d.tokens
  {}

  lemma TakeResult(d: Daemon, c: nat, done: nat)
    requires StageOf(d, c) == Some(Holding(done)) && (d.capacity.Some? ==> d.tokens <= d.capacity.value)
    ensures var d', a := Step(d, TakeSlot(c)), AccountOf(d, c);
            AccountOf(d', c) == if d.capacity.None? then a.(stage := Some(Dialing(done)))
                                else if d.tokens < d.capacity.value
                                    then a.(stage := Some(Dialing(done)), taken := a.taken + 1)
                                else a
    ensures d.capacity == Some(d.tokens) ==> Step(d, TakeSlot(c)) == d
  {}

  lemma DeferResult(d: Daemon, c: nat, done: nat)
    requires StageOf(d, c) == Some(Holding(done)) && d.capacity == Some(d.tokens)
    ensures AccountOf(Step(d, Defer(c)), c) == AccountOf(d, c).(stage := Some(Leaving(done)))
    ensures Step(d, Defer(c)).tokens == d.tokens
  {}

  lemma DialResult(d: Daemon, c: nat, done: nat)
    requires StageOf(d, c) == Some(Dialing(done)) && (d.capacity.Some? ==> d.tokens > 0)
    ensures AccountOf(Step(d, Open(c)), c) == AccountOf(d, c).(stage := Some(Leaving(done)), live := true)
    ensures AccountOf(Step(d, Fail(c)), c) ==
            AccountOf(d, c).(stage := Some(Leaving(done)), returned := d.returned[c] + if d.capacity.Some? then 1
                             else 0)
  {}

  lemma LeaveResult(d: Daemon, c: nat)
    requires StageOf(d, c).Some? && StageOf(d, c).value.Leaving?
    ensures AccountOf(Step(d, ReleaseDevice(c)), c) == AccountOf(d, c).(stage := None)
  {}

  class Runtime {
    const capacity: Option<nat>
    var tokens: nat
    var active: map<string, nat>
    var signalled: set<nat>
    var nextDone: nat
    var calls: map<nat, Call>
    var started: set<nat>
    var live: set<nat>
    var taken: multiset<nat>
    var returned: multiset<nat>
    ghost var events: seq<Event>

    ghost function View(): Daemon
      reads this
    {
      Daemon(capacity, tokens, active, signalled, nextDone, calls, started, live, taken, returned)
    }

    ghost predicate Valid()
      reads this
    {
      View() == Exec(capacity, events)
    }

    constructor (capacity: Option<nat>)
      ensures Valid() && events == [] && this.capacity == capacity
    {
      this.capacity := capacity;
      tokens, active, signalled, nextDone := 0, map[], {}, 0;
      calls, started, live, taken, returned, events := map[], {}, {}, multiset{}, multiset{}, [];
    }

    /** The section just run is the step named by the event. */
    twostate predicate Ran(e: Event)
      reads this
    {
      events == old(events) + [e] && View() == Step(old(View()), e)
    }

    ghost method Record(e: Event)
      requires Valid()
      modifies `events
      ensures events == old(events) + [e] && Exec(capacity, events) == Step(old(View()), e)
    {
      hide Step;
      events := events + [e];
      assert events[..|events| - 1] == old(events);
    }

    method Begin(c: nat, thing: string)
      requires Valid()
      modifies this
      ensures Valid() && Ran(Start(c, thing))
    {
      hide Exec;
      Record(Start(c, thing));
      if c !in started {
        started := started + {c};
        calls := calls[c := Call(thing, Asking)];
      }
    }

    method LookUpDevice(c: nat)
      requires Valid()
      modifies this
      ensures Valid() && Ran(LookUp(c))
    {
      hide Exec;
      Record(LookUp(c));
      if c !in calls || !calls[c].stage.Asking? { return; }
      var thing := calls[c].thing;
      if thing in active {
        calls := calls[c := Call(thing, Waiting(active[thing]))];
        return;
      }
      active := active[thing := nextDone];
      calls := calls[c := Call(thing, Holding(nextDone))];
      nextDone := nextDone + 1;
    }

    method WakeUp(c: nat)
      requires Valid()
      modifies this
      ensures Valid() && Ran(Wake(c))
    {
      hide Exec;
      Record(Wake(c));
      if c in calls && calls[c].stage.Waiting? && calls[c].stage.done in signalled {
        calls := calls[c := Call(calls[c].thing, Asking)];
      }
    }

    method Cancel(c: nat)
      requires Valid()
      modifies this
      ensures Valid() && Ran(GiveUp(c))
    {
      hide Exec;
      Record(GiveUp(c));
      if c !in calls { return; }
      if calls[c].stage.Waiting? {
        calls := calls - {c};
      } else if calls[c].stage.Holding? {
        calls := calls[c := Call(calls[c].thing, Leaving(calls[c].stage.done))];
      }
    }

    method SendToken(c: nat)
      requires Valid()
      modifies this
      ensures Valid() && Ran(TakeSlot(c))
    {
      hide Exec;
      Record(TakeSlot(c));
      if c !in calls || !calls[c].stage.Holding? { return; }
      if capacity.Some? {
        if tokens >= capacity.value { return; }
        tokens, taken := tokens + 1, taken + multiset{c};
      }
      calls := calls[c := Call(calls[c].thing, Dialing(calls[c].stage.done))];
    }

    method DeferForCapacity(c: nat)
      requires Valid()
      modifies this
      ensures Valid() && Ran(Defer(c))
    {
      hide Exec;
      Record(Defer(c));
      if c in calls && calls[c].stage.Holding? && capacity == Some(tokens) {
        calls := calls[c := Call(calls[c].thing, Leaving(calls[c].stage.done))];
      }
    }

    method FailConnect(c: nat)
      requires Valid()
      modifies this
      ensures Valid() && Ran(Fail(c))
    {
      hide Exec;
      Record(Fail(c));
      if c !in calls || !calls[c].stage.Dialing? { return; }
      if capacity.Some? && tokens > 0 { tokens, returned := tokens - 1, returned + multiset{c}; }
      calls := calls[c := Call(calls[c].thing, Leaving(calls[c].stage.done))];
    }

    method HandOver(c: nat)
      requires Valid()
      modifies this
      ensures Valid() && Ran(Open(c))
    {
      hide Exec;
      Record(Open(c));
      if c !in calls || !calls[c].stage.Dialing? { return; }
      live := live + {c};
      calls := calls[c := Call(calls[c].thing, Leaving(calls[c].stage.done))];
    }

    method Leave(c: nat)
      requires Valid()
      modifies this
      ensures Valid() && Ran(ReleaseDevice(c))
    {
      hide Exec;
      Record(ReleaseDevice(c));
      if c !in calls || !calls[c].stage.Leaving? { return; }
      var Call(thing, stage) := calls[c];
      if thing in active && active[thing] == stage.done {
        active := active - {thing};
        signalled := signalled + {stage.done};
      }
      calls := calls - {c};
    }

    /** Closing a connection; the once-guard makes every call after the first do nothing. */
    method CloseConnection(c: nat)
      requires Valid()
      modifies this
      ensures Valid() && Ran(Disconnect(c))
    {
      hide Exec;
      Record(Disconnect(c));
      if c !in live { return; }
      live := live - {c};
      if capacity.Some? && tokens > 0 { tokens, returned := tokens - 1, returned + multiset{c}; }
    }

    method RunSection(e: Event)
      requires Valid()
      modifies this
      ensures Valid() && Ran(e)
    {
      hide Step;
      match e
      case Start(c, thing) => Begin(c, thing);
      case LookUp(c) => LookUpDevice(c);
      case Wake(c) => WakeUp(c);
      case GiveUp(c) => Cancel(c);
      case TakeSlot(c) => SendToken(c);
      case Defer(c) => DeferForCapacity(c);
      case Fail(c) => FailConnect(c);
      case Open(c) => HandOver(c);
      case ReleaseDevice(c) => Leave(c);
      case Disconnect(c) => CloseConnection(c);
    }

    /** Other sessions run; they hold no reference to this call or to the connection it is making. */
    method Interfere(others: seq<Event>, c: nat)
      requires Valid()
      modifies this
      ensures Valid() && old(events) <= events && AccountOf(View(), c) == old(AccountOf(View(), c))
    {
      hide Step, AccountOf, Exec;
      for i := 0 to |others|
        invariant Valid() && old(events) <= events && AccountOf(View(), c) == old(AccountOf(View(), c))
      {
        if others[i].call != c {
          OtherAccountsStand(View(), others[i], c);
          RunSection(others[i]);
        }
      }
    }

    /**
     * acquireDeviceConnect: wait for the device's entry, however often it is taken away again, until the context
     * ends.
     */
    method AcquireDevice(c: nat, script: seq<seq<Event>>) returns (rest: seq<seq<Event>>)
      requires Valid() && AccountOf(View(), c) == Account(true, Some(Asking), false, 0, 0)
      modifies this
      ensures Valid() && old(events) <= events
      ensures var a := AccountOf(View(), c); Untouched(a) && (a.stage.Some? ==> a.stage.value.Holding?)
    {
      hide Step, Exec;
      rest := script;
      while c in calls && !calls[c].stage.Holding?
        invariant Valid() && old(events) <= events
        invariant var a := AccountOf(View(), c);
                  && Untouched(a)
                  && (a.stage.Some? ==> a.stage.value.Asking? || a.stage.value.Waiting? || a.stage.value.Holding?)
        decreases |rest|, if c in calls && calls[c].stage.Asking? then 1 else 0
      {
        var idle := rest == [];
        if !idle {
          Interfere(rest[0], c);
          rest := rest[1..];
        }
        if calls[c].stage.Asking? {
          LookResult(View(), c);
          LookUpDevice(c);
        } else if idle {
          CancelResult(View(), c);
          Cancel(c);
          return;
        } else {
          WakeResult(View(), c);
          WakeUp(c);
        }
      }
    }

    /**
     * acquireConnectSlotForSession: a session that may wait does so until the context ends; the others are deferred
     * when all slots are out. When a slot is free as the context ends, `ended` says that the select takes the
     * context's end.
     */
    method AcquireSlot(c: nat, wait: bool, script: seq<seq<Event>>, ended: bool) returns (outcome: Outcome)
      requires Valid() && Untouched(AccountOf(View(), c)) && StageOf(View(), c).Some? && calls[c].stage.Holding?
      modifies this
      ensures Valid() && old(events) <= events
      ensures outcome.Connected? ==>
                && Dials(StageOf(View(), c)) && c !in live
                && taken[c] == (if capacity.Some? then 1 else 0) && returned[c] == 0
      ensures !outcome.Connected? ==>
                Untouched(AccountOf(View(), c)) && StageOf(View(), c).Some? && calls[c].stage.Leaving?
      ensures outcome.DeferredNoCapacity? ==> !wait && capacity == Some(tokens)
      ensures outcome.Failed? ==> wait && capacity.Some? && (ended || capacity == Some(tokens))
      ensures capacity.None? ==> outcome.Connected?
    {
      hide Step, Exec;
      var rest := script;
      while true
        invariant Valid() && old(events) <= events
        invariant Untouched(AccountOf(View(), c)) && StageOf(View(), c).Some? && calls[c].stage.Holding?
        decreases |rest|
      {
        var idle := rest == [];
        if !idle {
          Interfere(rest[0], c);
          rest := rest[1..];
        }
        WithinCapacity();
        if !idle || !wait || !ended || capacity.None? {
          TakeResult(View(), c, calls[c].stage.done);
          SendToken(c);
          if calls[c].stage.Dialing? { return Connected; }
        }
        if !wait {
          DeferResult(View(), c, calls[c].stage.done);
          DeferForCapacity(c);
          return DeferredNoCapacity;
        }
        if idle {
          CancelResult(View(), c);
          Cancel(c);
          return Failed;
        }
      }
    }

    /** A call on its way out: its slot is back, unless it is with the connection the call made. */
    ghost predicate Settled(c: nat, connected: bool)
      reads this
    {
      var a := AccountOf(View(), c);
      a.live == connected && a.taken == a.returned + (if capacity.Some? && connected then 1 else 0) && a.taken <= 1
    }

    /** A connect that failed past its slot gives the slot back. */
    method GiveBack(c: nat)
      requires Valid() && Dials(StageOf(View(), c)) && c !in live
      requires taken[c] == (if capacity.Some? then 1 else 0) && returned[c] == 0
      modifies this
      ensures Valid() && old(events) <= events && Settled(c, false)
      ensures StageOf(View(), c).Some? && calls[c].stage.Leaving?
    {
      hide Step, Exec;
      TokenIsOut(c);
      DialResult(View(), c, calls[c].stage.done);
      FailConnect(c);
    }

    /** Address, preparation, connection and discovery, others running before each: any failure gives the slot back. */
    method Dial(c: nat, radio: Radio, others: (seq<Event>, seq<Event>, seq<Event>, seq<Event>))
      returns (outcome: Outcome)
      requires Valid() && Dials(StageOf(View(), c)) && c !in live
      requires taken[c] == (if capacity.Some? then 1 else 0) && returned[c] == 0
      modifies this
      ensures Valid() && old(events) <= events
      ensures StageOf(View(), c).Some? && calls[c].stage.Leaving?
      ensures outcome == (if radio.Works() then Connected else Failed) && Settled(c, radio.Works())
    {
      hide Step, Exec;
      Interfere(others.0, c);
      if !radio.address { GiveBack(c); return Failed; }
      Interfere(others.1, c);
      if !radio.prepared { GiveBack(c); return Failed; }
      Interfere(others.2, c);
      if !radio.connected { GiveBack(c); return Failed; }
      Interfere(others.3, c);
      if !radio.discovered { GiveBack(c); return Failed; }
      TokenIsOut(c);
      DialResult(View(), c, calls[c].stage.done);
      HandOver(c);
      outcome := Connected;
    }

    method Depart(c: nat, ghost connected: bool, others: seq<Event>)
      requires Valid() && StageOf(View(), c).Some? && calls[c].stage.Leaving? && Settled(c, connected)
      modifies this
      ensures Valid() && old(events) <= events && c !in calls && Settled(c, connected)
    {
      hide Step, Exec;
      Interfere(others, c);
      LeaveResult(View(), c);
      Leave(c);
    }

    /**
     * The whole call. However other sessions interleave, and on every path, it ends owning no device entry, its slot
     * is with the connection it returns or has been given back exactly once, and it returns a connection exactly when
     * that connection is live.
     */
    method ConnectBLE(c: nat, thing: string, wait: bool, radio: Radio, script: seq<seq<Event>>, ended: bool,
                      whileDialing: (seq<Event>, seq<Event>, seq<Event>, seq<Event>), whileLeaving: seq<Event>)
      returns (outcome: Outcome)
      requires Valid() && c !in started
      modifies this
      ensures Valid() && old(events) <= events && c !in calls
      ensures c in live <==> outcome.Connected?
      ensures taken[c] == returned[c] + (if capacity.Some? && outcome.Connected? then 1 else 0) && taken[c] <= 1
      ensures outcome.DeferredNoCapacity? ==> !wait && capacity.Some?
    {
      hide Step, Exec;
      NewCallIsUnknown(c);
      BeginResult(View(), c, thing);
      Begin(c, thing);
      var rest := AcquireDevice(c, script);
      if c !in calls { return Failed; }
      outcome := AcquireSlot(c, wait, rest, ended);
      if outcome.Connected? { outcome := Dial(c, radio, whileDialing); }
      Depart(c, outcome.Connected?, whileLeaving);
    }

    lemma WithinCapacity()
      requires Valid()
      ensures capacity.Some? ==> tokens <= capacity.value
    {
      InvariantHolds(capacity, events);
    }

    lemma NewCallIsUnknown(c: nat)
      requires Valid() && c !in started
      ensures AccountOf(View(), c) == Account(false, None, false, 0, 0)
    {
      InvariantHolds(capacity, events);
      assert Balanced(AccountOf(View(), c), capacity.Some?);
    }

    lemma TokenIsOut(c: nat)
      requires Valid() && Dials(StageOf(View(), c))
      ensures capacity.Some? ==> tokens > 0
    {
      InvariantHolds(capacity, events);
      if capacity.Some? { SlotIsThereToReturn(View(), c); }
    }
  }
}
