/** The controller's view of its shadow document, and what a version-conditional save leaves behind. */
module Snapshots {
  import opened Common
  import opened Activations
  import opened Controller

  datatype Snapshot = Snapshot(
    version: int,
    verifiedAt: int,
    unverifiedSince: int,
    stopRequestedAt: int,
    lastError: string,
    state: State)

  /** The cases in which building the patch throws instead of producing a document. */
  predicate PatchOk(s: Snapshot, now: int, verifiedAt: int) {
    && s.version >= 0 && s.unverifiedSince >= 0 && s.stopRequestedAt >= 0
    && 0 <= verifiedAt <= now
    && s.state.activation.projectionVersion <= INT64_MAX
    && (s.state.run.Some? ==> 0 < |s.state.run.value.request| <= MAX_REQUEST)
  }

  predicate LiveRun(s: State) { s.run.Some? && s.run.value.phase != Stopping }

  /** The time a stop was first requested, if the run is stopping. */
  function StopTime(s: Snapshot, now: int): int {
    if s.state.run.Some? && s.state.run.value.phase == Stopping
        then (if s.stopRequestedAt != 0 then s.stopRequestedAt else now) else 0
  }

  /** What a later read returns once `s`, saved at `now`, has replaced the record `before`. */
  function Stored(before: Snapshot, s: Snapshot, now: int, verifiedAt: int): Snapshot {
    Snapshot(
      before.version + 1,
      if LiveRun(s.state) then verifiedAt else before.verifiedAt,
      s.unverifiedSince,
      StopTime(s, now),
      s.lastError,
      s.state)
  }

  predicate ReadableActivation(a: ActivationState) {
    && (a.observed <==> a.projectionVersion > 0)
    && (a.observed <==> a.sourceTimestampMs > 0)
    && a.sourceTimestampMs >= 0 && a.inactiveObservedAt >= 0
    && (!a.observed ==> !a.active && a.inactiveObservedAt == 0)
    && (a.observed && !a.active ==> a.inactiveObservedAt > 0)
    && (a.activation.Some? ==>
          var w := a.activation.value;
          a.observed && w.id != "" && 0 <= w.startedAt < w.deadline <= w.startedAt + MAX_BUDGET)
  }

  predicate ReadableRun(r: Run) {
    && r.id != "" && r.release != "" && r.activationId != "" && 0 < |r.request| <= MAX_REQUEST
    && (r.phase == Running ==> r.vm != "")
  }

  /** Exactly the records that survive being written and read back. */
  predicate ReadableState(s: State) {
    && ReadableActivation(s.activation)
    && (s.run.Some? ==> s.activation.activation.Some? && ReadableRun(s.run.value))
  }
}
