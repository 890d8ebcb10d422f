/** Activation windows derived from lifecycle projections (agent/src/activation.cpp). */
module Activations {
  import opened Common

  const MAX_BUDGET := 3000

  datatype Activation = Activation(id: string, startedAt: int, deadline: int)

  datatype ActivationState = ActivationState(
    projectionVersion: nat,
    sourceTimestampMs: int,
    inactiveObservedAt: int,
    observed: bool,
    active: bool,
    activation: Option<Activation>)

  const UNSEEN := ActivationState(0, 0, 0, false, false, None)

  /** One verified-or-not read of the lifecycle projection. `active` is None when it could not be verified. */
  datatype Observation = Observation(version: nat, active: Option<bool>, sourceTimestampMs: int, redcon: int)

  datatype Change = Unverified | Stale | Unchanged | Inactive | Activated

  /** `Threw` stands for the exception; the caller's state is then untouched. */
  datatype ObserveResult = Observed(next: ActivationState, change: Change) | Threw

  predicate Verifiable(o: Observation, now: int) {
    o.active.Some? && o.version != 0 && o.sourceTimestampMs > 0 && now >= 0
  }

  /** Strictly newer than everything recorded so far, in version and in source time. */
  predicate Newer(s: ActivationState, o: Observation) {
    s.observed ==> o.version > s.projectionVersion && o.sourceTimestampMs > s.sourceTimestampMs
  }

  /** An observed inactive-to-active edge. */
  predicate IsEdge(s: ActivationState, o: Observation, now: int) {
    Verifiable(o, now) && Newer(s, o) && o.active.value && s.observed && !s.active
  }

  predicate WindowOk(s: ActivationState, now: int, budget: int) {
    0 < s.inactiveObservedAt <= now && 0 < budget <= MAX_BUDGET && s.inactiveObservedAt <= INT64_MAX - budget
  }

  /** The edge reaches the point where the source asks for a new identity. */
  predicate NeedsIdentity(s: ActivationState, o: Observation, now: int, budget: int) {
    IsEdge(s, o, now) && WindowOk(s, now, budget)
  }

  predicate UsableIdentity(s: ActivationState, newId: Option<string>) {
    newId.Some? && ValidIdentity(newId.value) && !(s.activation.Some? && s.activation.value.id == newId.value)
  }

  function Observe(s: ActivationState, o: Observation, now: int, budget: int, newId: Option<string>): ObserveResult {
    if !Verifiable(o, now) then Observed(s, Unverified)
    else if s.observed && o.version <= s.projectionVersion then
      if o.version != s.projectionVersion || o.active.value != s.active || o.sourceTimestampMs != s.sourceTimestampMs
      then Observed(s, Stale)
      else Observed(if !s.active && now > s.inactiveObservedAt then s.(inactiveObservedAt := now) else s, Unchanged)
    else if s.observed && o.sourceTimestampMs <= s.sourceTimestampMs then Observed(s, Stale)
    else if IsEdge(s, o, now) then
      if !WindowOk(s, now, budget) || !UsableIdentity(s, newId) then Threw
      else
        var granted := Activation(newId.value, s.inactiveObservedAt, s.inactiveObservedAt + budget);
        Observed(ActivationState(o.version, o.sourceTimestampMs, s.inactiveObservedAt, true, true, Some(granted)),
                 Activated)
    else
      Observed(
        ActivationState(o.version, o.sourceTimestampMs, if o.active.value then s.inactiveObservedAt else now,
                        true, o.active.value, s.activation),
        if o.active.value then Unchanged else Inactive)
  }

  predicate Authorized(s: ActivationState, now: int) {
    s.observed && s.active && s.activation.Some? && s.activation.value.startedAt <= now < s.activation.value.deadline
  }

  predicate MatchesActive(s: ActivationState, o: Observation) {
    && s.observed && s.active && s.activation.Some?
    && o.active == Some(true) && o.version != 0 && o.sourceTimestampMs > 0
    && if o.version == s.projectionVersion then o.sourceTimestampMs == s.sourceTimestampMs
       else o.version > s.projectionVersion && o.sourceTimestampMs > s.sourceTimestampMs
  }

  // ---------------------------------------------------------------- whole histories

  /** One call of the observer, with the time, the budget and the identity source of that call. */
  datatype Call = Call(o: Observation, now: int, budget: int, newId: Option<string>)

  function Outcome(s: ActivationState, c: Call): ObserveResult {
    Observe(s, c.o, c.now, c.budget, c.newId)
  }

  /** The record after a history of calls; a throwing call leaves it as it was. */
  function Replay(calls: seq<Call>): ActivationState {
    if calls == [] then UNSEEN
    else
      var before := Replay(calls[..|calls| - 1]);
      var r := Outcome(before, calls[|calls| - 1]);
      if r.Threw? then before else r.next
  }

  function OutcomeAt(calls: seq<Call>, i: nat): ObserveResult
    requires i < |calls|
  {
    Outcome(Replay(calls[..i]), calls[i])
  }

  /** Call `i` accepted an inactive projection and recorded its own time as the time of inactivity. */
  predicate RecordsInactivity(calls: seq<Call>, i: nat)
    requires i < |calls|
  {
    var r := OutcomeAt(calls, i);
    && r.Observed? && (r.change == Inactive || r.change == Unchanged)
    && calls[i].o.active == Some(false) && r.next.inactiveObservedAt == calls[i].now
  }

  /** Call `i` took the projection: the record now carries its version and its activity. */
  predicate Takes(calls: seq<Call>, i: nat, active: bool)
    requires i < |calls|
  {
    var r := OutcomeAt(calls, i);
    && r.Observed? && r.change != Unverified && r.change != Stale
    && calls[i].o.active == Some(active)
  }

  predicate QuietBetween(calls: seq<Call>, lo: nat, hi: nat)
    requires hi <= |calls|
  {
    forall k :: lo <= k < hi ==>
      var r := OutcomeAt(calls, k);
      r.Observed? ==> r.next.inactiveObservedAt == Replay(calls[..k]).inactiveObservedAt
  }

  /** Nothing after call `j` replaced the activation granted there. */
  predicate KeptSince(calls: seq<Call>, j: nat)
    requires j < |calls|
  {
    forall k :: j < k <= |calls| ==> Replay(calls[..k]).activation == Replay(calls).activation
  }

  /** What a call did depends on the calls before it alone. */
  lemma SameBefore(calls: seq<Call>, n: nat, i: nat)
    requires i < n <= |calls|
    ensures OutcomeAt(calls[..n], i) == OutcomeAt(calls, i) && calls[..n][i] == calls[i]
    ensures Replay(calls[..n][..i]) == Replay(calls[..i])
  {
    assert calls[..n][..i] == calls[..i];
  }

  lemma QuietBefore(calls: seq<Call>, n: nat, lo: nat, hi: nat)
    requires hi <= n <= |calls| && QuietBetween(calls[..n], lo, hi)
    ensures QuietBetween(calls, lo, hi)
  {
    hide Outcome, Replay;
    forall k | lo <= k < hi
      ensures var r := OutcomeAt(calls, k);
              r.Observed? ==> r.next.inactiveObservedAt == Replay(calls[..k]).inactiveObservedAt
    {
      SameBefore(calls, n, k);
    }
  }

  /** Where the recorded time of inactivity comes from. */
  lemma {:induction false} InactivitySource(calls: seq<Call>) returns (i: nat)
    requires Replay(calls).inactiveObservedAt > 0
    ensures i < |calls| && RecordsInactivity(calls, i)
    ensures calls[i].now == Replay(calls).inactiveObservedAt
    ensures QuietBetween(calls, i + 1, |calls|)
  {
    var n := |calls| - 1;
    var before := calls[..n];
    assert calls[..|calls|] == calls;
    var r := OutcomeAt(calls, n);
    if r.Observed? && r.next.inactiveObservedAt != Replay(before).inactiveObservedAt {
      i := n;
    } else {
      i := InactivitySource(before);
      SameBefore(calls, n, i);
      QuietBefore(calls, n, i + 1, n);
    }
  }

  /** A call grants an activation, with the window that starts at the recorded inactivity, or leaves it as it is. */
  lemma GrantOrKeep(s: ActivationState, c: Call)
    requires Outcome(s, c).Observed?
    ensures var next := Outcome(s, c).next;
            if Outcome(s, c).change == Activated then
              && 0 < s.inactiveObservedAt <= c.now && 0 < c.budget <= MAX_BUDGET && c.newId.Some?
              && next.activation
                 == Some(Activation(c.newId.value, s.inactiveObservedAt, s.inactiveObservedAt + c.budget))
            else next.activation == s.activation
  {}

  /**
   * Every activation on record was granted by one inactive-to-active edge `j`; its window starts at the
   * last recorded inactivity `i` before that edge, is as long as the budget of that call (at most 3000 s),
   * and nothing since has replaced or extended it.
   */
  lemma {:induction false} WindowOrigin(calls: seq<Call>) returns (i: nat, j: nat)
    requires Replay(calls).activation.Some?
    ensures i < j < |calls|
    ensures var a := Replay(calls).activation.value;
            && RecordsInactivity(calls, i) && calls[i].now == a.startedAt && QuietBetween(calls, i + 1, j)
            && OutcomeAt(calls, j).Observed? && OutcomeAt(calls, j).change == Activated
            && calls[j].newId == Some(a.id) && a.startedAt <= calls[j].now
            && a.deadline == a.startedAt + calls[j].budget && 0 < calls[j].budget <= MAX_BUDGET
    ensures KeptSince(calls, j)
  {
    var n := |calls| - 1;
    var before := calls[..n];
    assert calls[..|calls|] == calls;
    var r := OutcomeAt(calls, n);
    if r.Observed? { GrantOrKeep(Replay(before), calls[n]); }
    hide Outcome;
    if r.Observed? && r.change == Activated {
      j := n;
      i := InactivitySource(before);
      QuietBefore(calls, n, i + 1, n);
      SameBefore(calls, n, i);
    } else {
      i, j := WindowOrigin(before);
      SameBefore(calls, n, i);
      SameBefore(calls, n, j);
      QuietBefore(calls, n, i + 1, j);
      forall k | j < k <= |calls| ensures Replay(calls[..k]).activation == Replay(calls).activation {
        if k <= n { assert before[..k] == calls[..k]; }
      }
    }
  }

  /**
   * An authorized instant lies inside one window of at most 3000 s that opened when inactivity was last
   * recorded; in particular the device was seen inactive before the edge that granted the window.
   */
  lemma AuthorizedOnlyInWindow(calls: seq<Call>, t: int)
    requires Authorized(Replay(calls), t)
    ensures exists i: nat, j: nat ::
              && i < j < |calls| && RecordsInactivity(calls, i) && Takes(calls, j, true)
              && calls[i].now <= t < calls[i].now + calls[j].budget && calls[j].budget <= MAX_BUDGET
  {
    var i, j := WindowOrigin(calls);
    assert IsEdge(Replay(calls[..j]), calls[j].o, calls[j].now);
    assert Takes(calls, j, true);
  }

  /**
   * A device that has only ever been seen active has no activation: holding one takes an earlier inactive projection.
   */
  lemma ActivationNeedsInactivity(calls: seq<Call>)
    requires Replay(calls).activation.Some?
    ensures exists i: nat :: i < |calls| && Takes(calls, i, false)
  {
    var i, j := WindowOrigin(calls);
    assert Takes(calls, i, false);
  }

  /** Versions and source times on record only grow, and an activation once granted leaves only for another one. */
  lemma {:induction false} RecordGrows(calls: seq<Call>, m: nat)
    requires m <= |calls|
    ensures var a, b := Replay(calls[..m]), Replay(calls);
            && (a.observed ==> b.observed) && a.projectionVersion <= b.projectionVersion
            && a.sourceTimestampMs <= b.sourceTimestampMs && (a.activation.Some? ==> b.activation.Some?)
    ensures var b := Replay(calls); b.observed || b == UNSEEN
    decreases |calls|
  {
    assert calls[..|calls|] == calls;
    if m < |calls| {
      var before := calls[..|calls| - 1];
      assert before[..m] == calls[..m];
      RecordGrows(before, m);
    } else if calls != [] {
      RecordGrows(calls[..|calls| - 1], 0);
    }
  }

  /** Losing the active flag takes an inactive projection newer than all before it. */
  lemma {:induction false} DeactivatedBetween(calls: seq<Call>, m: nat) returns (i: nat)
    requires m <= |calls| && Replay(calls[..m]).active && !Replay(calls).active
    ensures m <= i < |calls| && Takes(calls, i, false) && Newer(Replay(calls[..i]), calls[i].o)
  {
    assert calls[..|calls|] == calls;
    var n := |calls| - 1;
    var before := calls[..n];
    forall k | 0 <= k <= n ensures calls[..k] == before[..k] {}
    if Replay(before).active {
      i := n;
    } else {
      i := DeactivatedBetween(before, m);
      assert OutcomeAt(calls, i) == OutcomeAt(before, i);
    }
  }

  /** Call `j` is the inactive-to-active edge that granted the activation on record after all calls. */
  predicate Grants(calls: seq<Call>, j: nat)
    requires j < |calls|
  {
    var r := OutcomeAt(calls, j);
    && IsEdge(Replay(calls[..j]), calls[j].o, calls[j].now)
    && r.Observed? && r.change == Activated && r.next.activation == Replay(calls).activation
  }

  /** The projection of `b` is newer than that of `a`, in version and in source time. */
  predicate After(a: Observation, b: Observation) {
    a.version < b.version && a.sourceTimestampMs < b.sourceTimestampMs
  }

  /**
   * Only strictly newer projections replace an activation. If the record was active after m calls and holds a different
   * activation after all of them, a later call took an inactive projection newer than everything on record at m, and a
   * still later call, with a projection newer than that, is the edge that granted the activation now on record.
   */
  lemma ReplacementNeedsInactivity(calls: seq<Call>, m: nat)
    requires m <= |calls| && Replay(calls[..m]).active
    requires Replay(calls[..m]).activation != Replay(calls).activation
    ensures exists i: nat, j: nat ::
              && m <= i < j < |calls| && Takes(calls, i, false) && Grants(calls, j)
              && Newer(Replay(calls[..m]), calls[i].o) && After(calls[i].o, calls[j].o)
  {
    hide Observe, Replay, QuietBetween, RecordsInactivity, Takes;
    RecordGrows(calls, m);
    var _, j := WindowOrigin(calls);
    EdgeGrants(calls, j);
    assert m <= j;
    hide OutcomeAt, KeptSince;
    var i := InactiveBetween(calls, m, j);
  }

  /** Between two moments, the first active and the second not, a newer inactive projection was taken and recorded. */
  lemma InactiveBetween(calls: seq<Call>, m: nat, j: nat) returns (i: nat)
    requires m <= j <= |calls| && Replay(calls[..m]).active && !Replay(calls[..j]).active
    ensures m <= i < j && Takes(calls, i, false) && Newer(Replay(calls[..m]), calls[i].o)
    ensures var s := Replay(calls[..j]);
            s.observed && calls[i].o.version <= s.projectionVersion
              && calls[i].o.sourceTimestampMs <= s.sourceTimestampMs
  {
    var before := calls[..j];
    assert before[..m] == calls[..m];
    i := DeactivatedBetween(before, m);
    assert before[..i] == calls[..i] && before[..i + 1] == calls[..i + 1] && calls[..i][..m] == calls[..m];
    assert OutcomeAt(before, i) == OutcomeAt(calls, i);
    hide Replay, Observe, Outcome;
    RecordGrows(calls[..i], m);
    TakenIsRecorded(calls, i);
    RecordGrows(before, i + 1);
  }

  lemma EdgeGrants(calls: seq<Call>, j: nat)
    requires j < |calls| && OutcomeAt(calls, j).Observed? && OutcomeAt(calls, j).change == Activated
             && KeptSince(calls, j)
    ensures Grants(calls, j)
  {
    assert calls[..j + 1][..j] == calls[..j];
    assert Replay(calls[..j + 1]).activation == Replay(calls).activation;
  }

  lemma TakenIsRecorded(calls: seq<Call>, i: nat)
    requires i < |calls| && Takes(calls, i, false) && Newer(Replay(calls[..i]), calls[i].o)
    ensures var s := Replay(calls[..i + 1]);
            s.observed && s.projectionVersion == calls[i].o.version
              && s.sourceTimestampMs == calls[i].o.sourceTimestampMs
  {
    assert calls[..i + 1][..i] == calls[..i];
  }
}
