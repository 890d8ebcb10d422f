/**
 * The connection capacity of the rig's BLE daemon, shared by every device session: a buffered channel whose tokens are
 * connection slots, and a table with the one connect in progress per device. Any number of ConnectBLE calls and of
 * connections interleave, one locked section or channel operation at a time.
 */
module BleSlots {
  import opened Common

  /** Where one ConnectBLE call stands; done is the channel it waits on or will close. */
  datatype Stage =
    | Asking
    | Waiting(done: nat)
    | Holding(done: nat)
    | Dialing(done: nat)
    | Leaving(done: nat)

  datatype Call = Call(thing: string, stage: Stage)

  /** Call identities are never reused, and a connection carries the identity of the call that made it. */
  datatype Event =
    | Start(call: nat, thing: string)
    | LookUp(call: nat)
    | Wake(call: nat)
    | GiveUp(call: nat)
    | TakeSlot(call: nat)
    | Defer(call: nat)
    | Fail(call: nat)
    | Open(call: nat)
    | ReleaseDevice(call: nat)
    | Disconnect(call: nat)

  /** A daemon without a connection limit has no slot channel. */
  datatype Daemon = Daemon(
    capacity: Option<nat>,
    tokens: nat,
    active: map<string, nat>,
    signalled: set<nat>,
    nextDone: nat,
    calls: map<nat, Call>,
    started: set<nat>,
    live: set<nat>,
    taken: multiset<nat>,
    returned: multiset<nat>)

  function NewDaemon(capacity: Option<nat>): Daemon {
    Daemon(capacity, 0, map[], {}, 0, map[], {}, {}, multiset{}, multiset{})
  }

  function StageOf(d: Daemon, c: nat): Option<Stage> { if c in d.calls then Some(d.calls[c].stage) else None }

  predicate Dials(stage: Option<Stage>) { stage.Some? && stage.value.Dialing? }

  /** The stages in which a call owns its device's entry of the table. */
  predicate Owns(stage: Option<Stage>) {
    stage.Some? && (stage.value.Holding? || stage.value.Dialing? || stage.value.Leaving?)
  }

  function Moved(d: Daemon, c: nat, stage: Stage): Daemon
    requires c in d.calls
  {
    d.(calls := d.calls[c := Call(d.calls[c].thing, stage)])
  }

  /** A receive from the slot channel. On an empty channel it would block; SlotIsThereToReturn shows it never does. */
  function Returned(d: Daemon, c: nat): Daemon {
    if d.capacity.None? || d.tokens == 0 then d
    else d.(tokens := d.tokens - 1, returned := d.returned + multiset{c})
  }

  function Take(d: Daemon, c: nat, done: nat): Daemon
    requires c in d.calls
  {
    if d.capacity.None? then Moved(d, c, Dialing(done))
    else if d.tokens < d.capacity.value then
      Moved(d, c, Dialing(done)).(tokens := d.tokens + 1, taken := d.taken + multiset{c})
    else d
  }

  function Look(d: Daemon, c: nat): Daemon
    requires c in d.calls
  {
    var thing := d.calls[c].thing;
    if thing in d.active then Moved(d, c, Waiting(d.active[thing]))
    else Moved(d, c, Holding(d.nextDone)).(active := d.active[thing := d.nextDone], nextDone := d.nextDone + 1)
  }

  /** The deferred release: it removes the device's entry only while that entry is its own. */
  function Release(d: Daemon, c: nat, done: nat): Daemon
    requires c in d.calls
  {
    var thing := d.calls[c].thing;
    var rest := d.(calls := d.calls - {c});
    if Entry(d, thing, done) then rest.(active := d.active - {thing}, signalled := d.signalled + {done}) else rest
  }

  predicate Entry(d: Daemon, thing: string, done: nat) { thing in d.active && d.active[thing] == done }

  /** One step; an event that is not enabled changes nothing. */
  function Step(d: Daemon, e: Event): Daemon {
    var c := e.call;
    match (e, StageOf(d, c))
    case (Start(_, thing), _) =>
      if c in d.started then d else d.(started := d.started + {c}, calls := d.calls[c := Call(thing, Asking)])
    case (LookUp(_), Some(Asking)) => Look(d, c)
    case (Wake(_), Some(Waiting(done))) => if done in d.signalled then Moved(d, c, Asking) else d
    case (GiveUp(_), Some(Waiting(_))) => d.(calls := d.calls - {c})
    case (GiveUp(_), Some(Holding(done))) => Moved(d, c, Leaving(done))
    case (TakeSlot(_), Some(Holding(done))) => Take(d, c, done)
    case (Defer(_), Some(Holding(done))) => if d.capacity == Some(d.tokens) then Moved(d, c, Leaving(done)) else d
    case (Fail(_), Some(Dialing(done))) => Moved(Returned(d, c), c, Leaving(done))
    case (Open(_), Some(Dialing(done))) => Moved(d, c, Leaving(done)).(live := d.live + {c})
    case (ReleaseDevice(_), Some(Leaving(done))) => Release(d, c, done)
    case (Disconnect(_), _) => if c in d.live then Returned(d, c).(live := d.live - {c}) else d
    case _ => d
  }

  function Exec(capacity: Option<nat>, events: seq<Event>): Daemon {
    if events == [] then NewDaemon(capacity) else Step(Exec(capacity, events[..|events| - 1]), events[|events| - 1])
  }

  function Dialers(d: Daemon): set<nat> { set c | c in d.calls && d.calls[c].stage.Dialing? }

  /** Everybody who answers for a slot: connects past the slot and connections not yet disconnected. */
  function SlotHolders(d: Daemon): set<nat> { Dialers(d) + d.live }

  /** All that the slot books say about one call and the connection it may have made. */
  datatype Account = Account(started: bool, stage: Option<Stage>, live: bool, taken: nat, returned: nat)

  function AccountOf(d: Daemon, c: nat): Account {
    Account(c in d.started, StageOf(d, c), c in d.live, d.taken[c], d.returned[c])
  }

  predicate Holds(v: Account) { v.live || Dials(v.stage) }

  /**
   * One account in order: a slot is out exactly while it is held, it was taken once at most and returned once at
   * most.
   */
  predicate Balanced(v: Account, limited: bool) {
    && (v.stage.Some? || v.live ==> v.started)
    && (v.live && v.stage.Some? ==> v.stage.value.Leaving?)
    && v.returned <= v.taken <= 1
    && (v.taken > v.returned <==> limited && Holds(v))
    && (v.taken > 0 ==> v.started && (v.stage.Some? ==> v.stage.value.Dialing? || v.stage.value.Leaving?))
  }

  ghost predicate SlotsMatch(d: Daemon) {
    && (forall c :: Balanced(AccountOf(d, c), d.capacity.Some?))
    && d.tokens == (if d.capacity.Some? then |SlotHolders(d)| else 0)
    && (d.capacity.Some? ==> d.tokens <= d.capacity.value)
  }

  lemma HoldersAreSeen(d: Daemon, c: nat)
    ensures c in SlotHolders(d) <==> Holds(AccountOf(d, c))
  {}

  /** A slot holder always finds a token in the channel: returning a slot never blocks. */
  lemma SlotIsThereToReturn(d: Daemon, c: nat)
    requires SlotsMatch(d) && Holds(AccountOf(d, c)) && d.capacity.Some?
    ensures d.tokens > 0 && d.taken[c] == 1 && d.returned[c] == 0
  {
    hide Dials;
    HoldersAreSeen(d, c);
    assert Balanced(AccountOf(d, c), d.capacity.Some?);
  }

  /** A step concerns one call: every other account is as before. */
  lemma OtherAccountsStand(d: Daemon, e: Event, b: nat)
    requires b != e.call
    ensures AccountOf(Step(d, e), b) == AccountOf(d, b)
  {}

  lemma OwnAccountStaysBalanced(d: Daemon, e: Event)
    requires Balanced(AccountOf(d, e.call), d.capacity.Some?)
    requires d.capacity.Some? && Holds(AccountOf(d, e.call)) ==> d.tokens > 0
    ensures Step(d, e).capacity == d.capacity
    ensures Balanced(AccountOf(Step(d, e), e.call), d.capacity.Some?)
  {}

  /** The channel moves with the one account that changes. */
  lemma TokensFollowTheAccount(d: Daemon, e: Event)
    requires Balanced(AccountOf(d, e.call), d.capacity.Some?)
    requires d.capacity.Some? ==> d.tokens <= d.capacity.value && (Holds(AccountOf(d, e.call)) ==> d.tokens > 0)
    ensures var was, now := Holds(AccountOf(d, e.call)), Holds(AccountOf(Step(d, e), e.call));
            Step(d, e).tokens == if d.capacity.None? || was == now then d.tokens else if now then d.tokens + 1
              else d.tokens - 1
    ensures d.capacity.Some? ==> Step(d, e).tokens <= d.capacity.value
  {}

  /** Two states that agree on every account but one have holders that differ in that one at most. */
  lemma HoldersMove(d: Daemon, d': Daemon, c: nat)
    requires forall b :: b != c ==> AccountOf(d', b) == AccountOf(d, b)
    ensures var was, now := Holds(AccountOf(d, c)), Holds(AccountOf(d', c));
            |SlotHolders(d')| == if was == now then |SlotHolders(d)| else if now then |SlotHolders(d)| + 1
              else |SlotHolders(d)| - 1
  {
    hide AccountOf, Holds, SlotHolders;
    forall b ensures b in SlotHolders(d') <==> Holds(AccountOf(d', b)) { HoldersAreSeen(d', b); }
    forall b ensures b in SlotHolders(d) <==> Holds(AccountOf(d, b)) { HoldersAreSeen(d, b); }
    assert forall b :: b != c ==> (Holds(AccountOf(d', b)) <==> Holds(AccountOf(d, b)));
    if Holds(AccountOf(d, c)) == Holds(AccountOf(d', c)) {
      assert SlotHolders(d') == SlotHolders(d);
    } else if Holds(AccountOf(d', c)) {
      assert SlotHolders(d') == SlotHolders(d) + {c};
    } else {
      assert SlotHolders(d') == SlotHolders(d) - {c};
    }
  }

  lemma SlotStep(d: Daemon, e: Event)
    requires SlotsMatch(d)
    ensures SlotsMatch(Step(d, e)) && Step(d, e).capacity == d.capacity
  {
    hide Step, Balanced, Holds, AccountOf, SlotHolders;
    var d', c := Step(d, e), e.call;
    forall b | b != c ensures AccountOf(d', b) == AccountOf(d, b) { OtherAccountsStand(d, e, b); }
    if d.capacity.Some? && Holds(AccountOf(d, c)) { SlotIsThereToReturn(d, c); }
    OwnAccountStaysBalanced(d, e);
    TokensFollowTheAccount(d, e);
    HoldersMove(d, d', c);
  }

  /** What one call may rely on: as an owner its entry stands, as a waiter the entry stands or the channel is closed. */
  predicate Placed(d: Daemon, c: nat) {
    match StageOf(d, c)
    case None => true
    case Some(Asking) => true
    case Some(Waiting(done)) => done in d.signalled || Entry(d, d.calls[c].thing, done)
    case Some(owner) => Entry(d, d.calls[c].thing, owner.done)
  }

  predicate OwnsEntry(d: Daemon, c: nat, thing: string) {
    Owns(StageOf(d, c)) && d.calls[c].thing == thing && Entry(d, thing, d.calls[c].stage.done)
  }

  /** Every entry of the table has one owner, and every call is placed. */
  ghost predicate DevicesMatch(d: Daemon) {
    && (forall c :: Placed(d, c))
    && (forall thing :: thing in d.active ==> d.active[thing] < d.nextDone && exists c :: OwnsEntry(d, c, thing))
    && (forall c, b, thing :: OwnsEntry(d, c, thing) && OwnsEntry(d, b, thing) ==> c == b)
    && (forall s, t :: s in d.active && t in d.active && d.active[s] == d.active[t] ==> s == t)
  }

  /** Steps that leave the table alone change no ownership and displace nobody. */
  lemma OwnershipKept(d: Daemon, e: Event, c: nat, thing: string)
    requires e.call in d.calls ==> e.call in d.started
    requires !e.LookUp? && !e.ReleaseDevice?
    ensures OwnsEntry(Step(d, e), c, thing) <==> OwnsEntry(d, c, thing)
  {}

  lemma PlacementKept(d: Daemon, e: Event, c: nat)
    requires Placed(d, c) && !e.LookUp? && !e.ReleaseDevice?
    ensures Placed(Step(d, e), c)
  {}

  lemma TableUntouched(d: Daemon, e: Event)
    requires DevicesMatch(d) && (e.call in d.calls ==> e.call in d.started)
    requires !e.LookUp? && !e.ReleaseDevice?
    ensures DevicesMatch(Step(d, e))
  {
    var d' := Step(d, e);
    assert d'.active == d.active && d'.nextDone == d.nextDone;
    hide Step, Placed, OwnsEntry;
    forall c, thing ensures OwnsEntry(d', c, thing) <==> OwnsEntry(d, c, thing) { OwnershipKept(d, e, c, thing); }
    forall c ensures Placed(d', c) { PlacementKept(d, e, c); }
  }

  lemma LookMatches(d: Daemon, c: nat)
    requires DevicesMatch(d) && StageOf(d, c) == Some(Asking)
    ensures DevicesMatch(Look(d, c))
  {
    var d', mine := Look(d, c), d.calls[c].thing;
    forall b, thing | thing in d.active ensures OwnsEntry(d', b, thing) <==> OwnsEntry(d, b, thing) {}
    forall b ensures Placed(d', b) { assert Placed(d, b); }
    if mine !in d.active { assert OwnsEntry(d', c, mine); }
    forall b | OwnsEntry(d', b, mine) && mine !in d.active ensures b == c { assert Placed(d, b); }
  }

  /** A release always finds its own entry, and removes that one entry. */
  lemma ReleaseIsOwn(d: Daemon, c: nat, done: nat)
    requires DevicesMatch(d) && StageOf(d, c) == Some(Leaving(done))
    ensures OwnsEntry(d, c, d.calls[c].thing) && done == d.active[d.calls[c].thing]
    ensures Release(d, c, done).active == d.active - {d.calls[c].thing}
    ensures forall other :: other in d.active && other != d.calls[c].thing ==> d.active[other] != done
  {
    assert Placed(d, c);
  }

  lemma ReleaseMatches(d: Daemon, c: nat, done: nat)
    requires DevicesMatch(d) && StageOf(d, c) == Some(Leaving(done))
    ensures DevicesMatch(Release(d, c, done))
  {
    ReleaseIsOwn(d, c, done);
    var d', mine := Release(d, c, done), d.calls[c].thing;
    forall b, thing | thing != mine ensures OwnsEntry(d', b, thing) <==> OwnsEntry(d, b, thing) {}
    forall b ensures Placed(d', b) {
      assert Placed(d, b);
      if b != c && b in d.calls && d.calls[b].thing == mine && Owns(StageOf(d, b)) { assert OwnsEntry(d, b, mine); }
    }
  }

  lemma DeviceStep(d: Daemon, e: Event)
    requires DevicesMatch(d) && SlotsMatch(d)
    ensures DevicesMatch(Step(d, e))
  {
    hide DevicesMatch;
    assert Balanced(AccountOf(d, e.call), d.capacity.Some?);
    match e
    case LookUp(c) => if StageOf(d, c) == Some(Asking) { LookMatches(d, c); }
    case ReleaseDevice(c) => if StageOf(d, c).Some?
        && StageOf(d, c).value.Leaving? { ReleaseMatches(d, c, d.calls[c].stage.done); }
    case _ => TableUntouched(d, e);
  }

  /** Both sides hold in every state the daemon can reach, whatever interleaves. */
  lemma {:induction false} InvariantHolds(capacity: Option<nat>, events: seq<Event>)
    ensures SlotsMatch(Exec(capacity, events)) && DevicesMatch(Exec(capacity, events))
    ensures Exec(capacity, events).capacity == capacity
  {
    hide Step;
    if events == [] {
      assert SlotHolders(NewDaemon(capacity)) == {};
    } else {
      hide SlotsMatch, DevicesMatch;
      InvariantHolds(capacity, events[..|events| - 1]);
      SlotStep(Exec(capacity, events[..|events| - 1]), events[|events| - 1]);
      DeviceStep(Exec(capacity, events[..|events| - 1]), events[|events| - 1]);
    }
  }

  /**
   * Slot conservation: the tokens in use are the connects in progress past the slot plus the live connections, never
   * above the configured maximum, and every slot is returned at most once, by its own holder and nobody else.
   */
  lemma SlotsAreConserved(maximum: nat, events: seq<Event>)
    ensures var d := Exec(Some(maximum), events);
            && d.tokens == |Dialers(d)| + |d.live| <= maximum
            && (forall c :: d.returned[c] <= d.taken[c] <= 1)
            && (forall c :: d.taken[c] == d.returned[c] + 1 <==> c in Dialers(d) || c in d.live)
  {
    hide Step, Exec;
    InvariantHolds(Some(maximum), events);
    var d := Exec(Some(maximum), events);
    forall c ensures Balanced(AccountOf(d, c), true)
      && (c in SlotHolders(d) <==> Holds(AccountOf(d, c))) { HoldersAreSeen(d, c); }
    assert Dialers(d) !! d.live by {
      forall c | c in d.live ensures c !in Dialers(d) { assert Balanced(AccountOf(d, c), true); }
    }
    forall c ensures d.returned[c] <= d.taken[c] <= 1
      && (d.taken[c] == d.returned[c] + 1 <==> c in Dialers(d) || c in d.live) {
      assert Balanced(AccountOf(d, c), true);
    }
  }

  /** Once no connect is in progress and every connection is disconnected, every slot is back and the table is empty. */
  lemma QuietDaemonHoldsNothing(capacity: Option<nat>, events: seq<Event>)
    requires Exec(capacity, events).calls == map[] && Exec(capacity, events).live == {}
    ensures var d := Exec(capacity, events); d.tokens == 0 && d.active == map[] && d.taken == d.returned
  {
    hide Step, Exec;
    InvariantHolds(capacity, events);
    var d := Exec(capacity, events);
    assert SlotHolders(d) == {};
    forall c ensures d.taken[c] == d.returned[c] { assert Balanced(AccountOf(d, c), d.capacity.Some?); }
    assert forall c, thing :: !OwnsEntry(d, c, thing);
  }

  /** At most one connect per device past the table, in every reachable state. */
  lemma OneConnectPerDevice(capacity: Option<nat>, events: seq<Event>, c: nat, b: nat)
    requires var d := Exec(capacity, events);
             Owns(StageOf(d, c)) && Owns(StageOf(d, b)) && d.calls[c].thing == d.calls[b].thing
    ensures c == b
  {
    hide Step, Exec;
    InvariantHolds(capacity, events);
    var d := Exec(capacity, events);
    assert Placed(d, c) && Placed(d, b);
    assert OwnsEntry(d, c, d.calls[c].thing) && OwnsEntry(d, b, d.calls[c].thing);
  }

  /** No waiter is stranded: its channel is closed already, or a call that will close it still owns the device. */
  lemma WaitersAreNotStranded(capacity: Option<nat>, events: seq<Event>, c: nat, done: nat)
    requires StageOf(Exec(capacity, events), c) == Some(Waiting(done))
    ensures var d := Exec(capacity, events);
            done in d.signalled || exists b :: Owns(StageOf(d, b)) && d.calls[b].stage.done == done
  {
    hide Step, Exec;
    InvariantHolds(capacity, events);
    var d := Exec(capacity, events);
    assert Placed(d, c);
    if done !in d.signalled {
      var b :| OwnsEntry(d, b, d.calls[c].thing);
    }
  }
}
