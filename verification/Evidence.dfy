/** What a pass was told before it acts: the answers behind its own account of the lifecycle and of the runtime. */
module Evidence {
  import opened Common
  import opened Activations
  import opened Controller
  import opened Snapshots
  import opened PassClock
  import opened Programs
  import opened World

  /** The answers of one pass that matter: the capability, the runtime's own verification, the projections. */
  datatype Facts = Facts(supported: bool, vouched: bool, seen: set<Observation>)

  function Noted(f: Facts, q: Request, reply: Reply): Facts {
    match (q, reply)
    case (AskSupported, Flag(flag)) => f.(supported := f.supported || flag == Some(true))
    case (AskVerified, Flag(flag)) => f.(vouched := f.vouched || flag == Some(true))
    case (AskProjection, Projection(Some(o))) => f.(seen := f.seen + {o})
    case _ => f
  }

  /** The record carries this projection, and it is an active one. */
  predicate RecordsActive(a: ActivationState, o: Observation) {
    && o.active == Some(true) && a.observed && a.active
    && a.projectionVersion == o.version && a.sourceTimestampMs == o.sourceTimestampMs
  }

  ghost predicate SawActive(f: Facts, a: ActivationState) { exists o :: o in f.seen && RecordsActive(a, o) }

  function DraftOf(pc: Pc): Option<Draft> {
    match pc
    case Reserving(r) => Some(r.d)
    case Launching(AtLaunchClock(d, _)) => Some(d)
    case Launching(AtLaunch(d, _, _)) => Some(d)
    case Hosting(AtGet(d, _)) => Some(d)
    case Assigning(a) => if a.AtAssignSave? then None else Some(a.d)
    case _ => None
  }

  /** A draft claims no more than its pass was told. */
  ghost predicate Backed(d: Draft, f: Facts) {
    && (d.vouched ==> f.vouched)
    && (d.current == LifecycleActive ==> f.supported && SawActive(f, d.s.state.activation))
  }

  ghost predicate PcBacked(pc: Pc, f: Facts) {
    && (DraftOf(pc).Some? ==> Backed(DraftOf(pc).value, f))
    && (pc.Gathering? && pc.g.AtProjection? ==> f.supported)
    && (pc.Gathering? && pc.g.AtActivationId? ==> f.supported && pc.g.o in f.seen)
    && (pc.Timing? && pc.t.AtDeferClock? && pc.t.mayDefer ==> f.vouched)
  }

  lemma NotedGrows(f: Facts, q: Request, reply: Reply, d: Draft)
    requires Backed(d, f)
    ensures Backed(d, Noted(f, q, reply))
  {
  }

  lemma SettleBacked(cfg: Config, d: Draft, f: Facts)
    requires Backed(d, f)
    ensures PcBacked(Settle(cfg, d), f)
  {
    var e := Cleared(Fenced(d));
    assert e.vouched == d.vouched && e.current == d.current && e.s.state.activation == d.s.state.activation;
    hide Authorized, Superseded, Fenced, Cleared;
  }

  lemma JudgeBacked(cfg: Config, s: Snapshot, supported: Option<bool>, current: Lifecycle, f: Facts)
    requires current == LifecycleActive ==> f.supported && SawActive(f, s.state.activation)
    ensures PcBacked(Judge(cfg, s, supported, current), f)
  {
    var noted := s.(lastError := if current == LifecycleUnavailable then UNVERIFIABLE
                                 else if supported == Some(false) then UNDECLARED else "");
    SettleBacked(cfg, Draft(noted.(unverifiedSince := 0), current, cfg.now, false), f);
    hide Settle;
  }

  lemma ObserveBacked(cfg: Config, s: Snapshot, o: Observation, r: ObserveResult, f: Facts)
    requires exists id :: r == Observe(s.state.activation, o, cfg.now, cfg.budget, id)
    requires f.supported && o in f.seen
    ensures PcBacked(AfterObserve(cfg, s, o, r), f)
  {
    if r.Observed? {
      var seen := s.(state := s.state.(activation := r.next));
      if r.change == Unverified || r.change == Stale {
        JudgeBacked(cfg, seen, Some(true), LifecycleUnavailable, f);
      } else {
        if o.active == Some(true) { assert RecordsActive(r.next, o); }
        hide Observe;
        JudgeBacked(cfg, seen.(verifiedAt := cfg.now), Some(true),
                    if o.active == Some(true) then LifecycleActive else LifecycleInactive, f);
      }
      hide Judge;
    }
  }

  lemma GatherBacked(cfg: Config, pc: GatherPc, reply: Reply, f: Facts)
    requires PcBacked(Gathering(pc), f)
    ensures PcBacked(AdvanceObservation(cfg, pc, reply), Noted(f, GatherDemand(pc), reply))
  {
    var g := Noted(f, GatherDemand(pc), reply);
    hide Judge, AfterObserve, Observe, NeedsIdentity;
    match (pc, reply)
    case (AtSupported(s), Flag(flag)) =>
      JudgeBacked(cfg, s, flag, if flag == Some(false) then LifecycleInactive else LifecycleUnavailable, g);
    case (AtProjection(s), Projection(o)) =>
      JudgeBacked(cfg, s, Some(true), LifecycleUnavailable, g);
      if o.Some? {
        ObserveBacked(cfg, s, o.value, Observe(s.state.activation, o.value, cfg.now, cfg.budget, None), g);
      }
    case (AtActivationId(s, o), Identity(id)) =>
      ObserveBacked(cfg, s, o, Observe(s.state.activation, o, cfg.now, cfg.budget, Some(id)), g);
    case _ =>
  }

  lemma DecideBacked(cfg: Config, pc: TimingPc, t: int, f: Facts)
    requires PcBacked(Timing(pc), f)
    ensures PcBacked(Decide(cfg, pc, t), f)
  {
    hide Settle, Authorized;
    match pc
    case AtDecisionClock(s) =>
      SettleBacked(cfg, Draft(s.(unverifiedSince := t), LifecycleUnavailable, t, false), f);
      SettleBacked(cfg, Draft(StopRun(s), LifecycleUnavailable, t, false), f);
      SettleBacked(cfg, Draft(s, LifecycleUnavailable, t, false), f);
    case AtDeferClock(s, mayDefer) =>
      SettleBacked(cfg, Draft(if mayDefer then s else StopRun(s), LifecycleUnavailable, t, mayDefer), f);
    case _ =>
  }

  lemma ReserveBacked(cfg: Config, pc: ReservePc, reply: Reply, f: Facts)
    requires PcBacked(Reserving(pc), f)
    ensures PcBacked(AdvanceReservation(cfg, pc, reply), f)
  {
    hide Authorized, ValidRelease;
  }

  /** The clock-driven points keep the draft they have. */
  lemma InstantBacked(p: Pass, t: int, f: Facts)
    requires PcBacked(p.pc, f) && OnPassClock(p.pc)
    ensures PcBacked(AtInstant(p.cfg, p.pc, t), f)
  {
    if p.pc.Timing? { DecideBacked(p.cfg, p.pc.t, t, f); }
    hide Decide, AcceptLaunch, Authorized, SawActive;
  }

  lemma LaterBacked(cfg: Config, pc: Pc, reply: Reply, f: Facts)
    requires PcBacked(pc, f) && (pc.Launching? || pc.Hosting? || pc.Assigning?)
    ensures PcBacked(Next(cfg, pc, reply), f)
  {
    hide AcceptLaunch, Authorized, SawActive;
  }

  lemma OtherBacked(cfg: Config, pc: Pc, reply: Reply, f: Facts)
    requires pc.Sampling? || pc.Orphaning? || pc.AtTerminate? || pc.AtHandlerSave? || pc.Finished? || pc.Failed?
    ensures PcBacked(Next(cfg, pc, reply), f)
  {
    hide DecideOrphan, ObserveOrphanInactive, BindStopping, StoppedFor, SawActive;
  }

  lemma PcNoted(pc: Pc, f: Facts, q: Request, reply: Reply)
    requires PcBacked(pc, f)
    ensures PcBacked(pc, Noted(f, q, reply))
  {
    if DraftOf(pc).Some? { NotedGrows(f, q, reply, DraftOf(pc).value); }
    hide DraftOf, Backed;
  }

  /** One answer keeps every pass within what it was told. */
  lemma AdvanceBacked(p: Pass, reply: Reply, f: Facts)
    requires PcBacked(p.pc, f)
    ensures PcBacked(Advance(p, reply).pc, Noted(f, Demand(p), reply))
  {
    var g := Noted(f, Demand(p), reply);
    PcNoted(p.pc, f, Demand(p), reply);
    if OnPassClock(p.pc) {
      hide AtInstant, Noted;
      if reply.Time? {
        match Sample(p.clock, reply.sampled, reply.steady)
        case Instant(t, _) => InstantBacked(p, t, g);
        case ClockThrew =>
      }
    } else {
      match p.pc
      case Gathering(pc) => GatherBacked(p.cfg, pc, reply, f);
      case Timing(_) =>
      case Reserving(pc) => ReserveBacked(p.cfg, pc, reply, g);
      case Launching(_) => LaterBacked(p.cfg, p.pc, reply, g);
      case Hosting(_) => LaterBacked(p.cfg, p.pc, reply, g);
      case Assigning(_) => LaterBacked(p.cfg, p.pc, reply, g);
      case _ => OtherBacked(p.cfg, p.pc, reply, g);
      hide AdvanceObservation, AdvanceReservation, AdvanceLaunch, AdvanceHost, AdvanceAssignment, AdvanceSample,
        AdvanceOrphan;
    }
  }

  // ---------------------------------------------------------------- over whole runs

  /** What the pass has been told by the end of the events. */
  function FactsOf(w: World, events: seq<Event>, id: nat): Facts {
    if events == [] then Facts(false, false, {})
    else
      var before, e := events[..|events| - 1], events[|events| - 1];
      var x, f := Exec(w, before), FactsOf(w, before, id);
      if e.Turn? && e.id == id && id in x.passes then
        Noted(f, Demand(x.passes[id]), Handle(x, Demand(x.passes[id]), e.choice, e.now).1)
      else f
  }

  /** Event `k` is the turn in which the pass asked `q` and was answered `reply`. */
  predicate AnsweredAt(w: World, events: seq<Event>, k: nat, id: nat, q: Request, reply: Reply) {
    && k < |events| && events[k].Turn? && events[k].id == id
    && var x := Exec(w, events[..k]);
       id in x.passes && Demand(x.passes[id]) == q && Handle(x, q, events[k].choice, events[k].now).1 == reply
  }

  ghost predicate WasAnswered(w: World, events: seq<Event>, id: nat, q: Request, reply: Reply) {
    exists k: nat :: AnsweredAt(w, events, k, id, q, reply)
  }

  lemma AnswerStays(w: World, events: seq<Event>, id: nat, q: Request, reply: Reply)
    requires events != [] && WasAnswered(w, events[..|events| - 1], id, q, reply)
    ensures WasAnswered(w, events, id, q, reply)
  {
    var before := events[..|events| - 1];
    var k: nat :| AnsweredAt(w, before, k, id, q, reply);
    assert before[..k] == events[..k];
    assert AnsweredAt(w, events, k, id, q, reply);
  }

  /** Every fact is an answer the pass received in a turn of its own. */
  ghost predicate AllAnswered(w: World, events: seq<Event>, id: nat, f: Facts) {
    && (f.supported ==> WasAnswered(w, events, id, AskSupported, Flag(Some(true))))
    && (f.vouched ==> WasAnswered(w, events, id, AskVerified, Flag(Some(true))))
    && (forall o :: o in f.seen ==> WasAnswered(w, events, id, AskProjection, Projection(Some(o))))
  }

  lemma AnswersStay(w: World, events: seq<Event>, id: nat, f: Facts)
    requires events != [] && AllAnswered(w, events[..|events| - 1], id, f)
    ensures AllAnswered(w, events, id, f)
  {
    hide WasAnswered;
    if f.supported { AnswerStays(w, events, id, AskSupported, Flag(Some(true))); }
    if f.vouched { AnswerStays(w, events, id, AskVerified, Flag(Some(true))); }
    forall o | o in f.seen ensures WasAnswered(w, events, id, AskProjection, Projection(Some(o))) {
      AnswerStays(w, events, id, AskProjection, Projection(Some(o)));
    }
  }

  lemma AnswerIsNoted(w: World, events: seq<Event>, id: nat, f: Facts, q: Request, reply: Reply)
    requires AllAnswered(w, events, id, f) && WasAnswered(w, events, id, q, reply)
    ensures AllAnswered(w, events, id, Noted(f, q, reply))
  {
    hide WasAnswered;
  }

  lemma LastTurnAnswers(w: World, events: seq<Event>, id: nat)
    requires events != [] && events[|events| - 1].Turn? && events[|events| - 1].id == id
    requires id in Exec(w, events[..|events| - 1]).passes
    ensures var x, e := Exec(w, events[..|events| - 1]), events[|events| - 1];
            var q := Demand(x.passes[id]);
            WasAnswered(w, events, id, q, Handle(x, q, e.choice, e.now).1)
  {
    hide Demand, Handle, Exec;
    var x, e := Exec(w, events[..|events| - 1]), events[|events| - 1];
    var q := Demand(x.passes[id]);
    assert AnsweredAt(w, events, |events| - 1, id, q, Handle(x, q, e.choice, e.now).1);
  }

  lemma {:induction false} FactsAreAnswers(w: World, events: seq<Event>, id: nat)
    ensures AllAnswered(w, events, id, FactsOf(w, events, id))
  {
    hide WasAnswered, Demand, Handle, Exec, Noted, AllAnswered;
    if events == [] {
      NothingIsAnswered(w, id);
    } else {
      var before, e := events[..|events| - 1], events[|events| - 1];
      var x, f := Exec(w, before), FactsOf(w, before, id);
      FactsAreAnswers(w, before, id);
      AnswersStay(w, events, id, f);
      if e.Turn? && e.id == id && id in x.passes {
        var q := Demand(x.passes[id]);
        LastTurnAnswers(w, events, id);
        AnswerIsNoted(w, events, id, f, q, Handle(x, q, e.choice, e.now).1);
      }
    }
  }

  lemma NothingIsAnswered(w: World, id: nat)
    ensures AllAnswered(w, [], id, Facts(false, false, {}))
  {
  }

  lemma {:induction false} DraftsAreBacked(w: World, events: seq<Event>, id: nat)
    requires w.passes == map[] && id in Exec(w, events).passes
    ensures PcBacked(Exec(w, events).passes[id].pc, FactsOf(w, events, id))
  {
    var before, e := events[..|events| - 1], events[|events| - 1];
    var x := Exec(w, before);
    hide PcBacked, Handle, Advance, Demand;
    if id in x.passes {
      DraftsAreBacked(w, before, id);
      if e.Turn? && e.id == id {
        AdvanceBacked(x.passes[id], Handle(x, Demand(x.passes[id]), e.choice, e.now).1, FactsOf(w, before, id));
      }
    } else {
      EntryBacked(e.pass, FactsOf(w, events, id));
    }
  }

  lemma EntryBacked(p: Pass, f: Facts)
    requires Entry(p)
    ensures PcBacked(p.pc, f)
  {
  }

  /** A pass that claims an active lifecycle, or a verified runtime, was told so in a turn of its own. */
  lemma ClaimsWereAnswered(w: World, events: seq<Event>, id: nat, d: Draft)
    requires w.passes == map[] && id in Exec(w, events).passes && DraftOf(Exec(w, events).passes[id].pc) == Some(d)
    ensures d.vouched ==> WasAnswered(w, events, id, AskVerified, Flag(Some(true)))
    ensures d.current == LifecycleActive ==>
              && WasAnswered(w, events, id, AskSupported, Flag(Some(true)))
              && exists o :: && WasAnswered(w, events, id, AskProjection, Projection(Some(o)))
                             && RecordsActive(d.s.state.activation, o)
  {
    DraftsAreBacked(w, events, id);
    FactsAreAnswers(w, events, id);
    hide Exec, FactsOf, WasAnswered, RecordsActive;
  }

  // ---------------------------------------------------------------- a pass of the world is a run of its program

  /** The answers a pass has received, in order. */
  function RepliesTo(w: World, events: seq<Event>, id: nat): seq<Reply> {
    if events == [] then []
    else
      var before, e := events[..|events| - 1], events[|events| - 1];
      var x := Exec(w, before);
      if e.Turn? && e.id == id && id in x.passes
      then RepliesTo(w, before, id) + [Handle(x, Demand(x.passes[id]), e.choice, e.now).1]
      else RepliesTo(w, before, id)
  }

  /**
   * Whatever interleaves, a pass of the world is the run of its program from the entry it was spawned with, on the
   * answers it received: the same runs as those the imperative methods are proved to make.
   */
  lemma {:induction false} PassIsRun(w: World, events: seq<Event>, id: nat)
    returns (k: nat, entry: Pass)
    requires w.passes == map[] && id in Exec(w, events).passes
    ensures k < |events| && events[k] == Spawn(id, entry) && id !in Exec(w, events[..k]).passes
    ensures Entry(entry) && Exec(w, events).passes[id] == Follow(entry, RepliesTo(w, events, id))
  {
    var before, e := events[..|events| - 1], events[|events| - 1];
    var x := Exec(w, before);
    hide Handle, Advance, Demand, Entry;
    if id in x.passes {
      k, entry := PassIsRun(w, before, id);
      assert before[..k] == events[..k];
      var replies := RepliesTo(w, events, id);
      if e.Turn? && e.id == id { assert replies[..|replies| - 1] == RepliesTo(w, before, id); }
    } else {
      k, entry := |before|, e.pass;
      NoRepliesYet(w, before, id);
      assert RepliesTo(w, events, id) == [];
    }
  }

  lemma {:induction false} NoRepliesYet(w: World, events: seq<Event>, id: nat)
    requires id !in Exec(w, events).passes
    ensures RepliesTo(w, events, id) == []
  {
    hide Handle, Advance, Demand, Entry;
    if events != [] { NoRepliesYet(w, events[..|events| - 1], id); }
  }
}
