/** Draining a disabled controller, and the candidates of an orphan sweep (agent/src/reconcile.cpp). */
module Drain {
  import opened Common
  import opened Programs

  datatype CloudRun = CloudRun(id: string, state: Host)

  datatype FenceResult = Fenced | NotFenced | FenceThrew

  /** The ids of the live runs in order of first appearance, each once. */
  function LiveIds(runs: seq<CloudRun>, except: set<string>): seq<string> {
    if runs == [] then []
    else
      var ids, r := LiveIds(runs[..|runs| - 1], except), runs[|runs| - 1];
      if r.id != "" && r.id !in except && LiveHost(r.state) && r.id !in ids then ids + [r.id] else ids
  }

  predicate Distinct(ids: seq<string>) { forall i, j :: 0 <= i < j < |ids| ==> ids[i] != ids[j] }

  predicate LivesIn(id: string, runs: seq<CloudRun>) {
    exists i :: 0 <= i < |runs| && runs[i].id == id && LiveHost(runs[i].state)
  }

  lemma {:induction false} LiveIdsExactly(runs: seq<CloudRun>, except: set<string>)
    ensures Distinct(LiveIds(runs, except))
    ensures forall id :: id in LiveIds(runs, except) <==> id != "" && id !in except && LivesIn(id, runs)
  {
    if runs != [] {
      var n := |runs| - 1;
      var before := runs[..n];
      LiveIdsExactly(before, except);
      forall id ensures LivesIn(id, runs) <==> LivesIn(id, before) || (runs[n].id == id && LiveHost(runs[n].state)) {
        if LivesIn(id, before) {
          var i :| 0 <= i < |before| && before[i].id == id && LiveHost(before[i].state);
          assert runs[i] == before[i];
        }
        if LivesIn(id, runs) {
          var i :| 0 <= i < |runs| && runs[i].id == id && LiveHost(runs[i].state);
          assert i < n ==> before[i] == runs[i];
        }
      }
    }
  }

  /** The live hosts no assignment names, each once, in inventory order. */
  method OrphanCandidates(inventory: seq<CloudRun>, excluded: set<string>) returns (orphans: seq<string>)
    ensures Distinct(orphans)
    ensures forall id :: id in orphans <==> id != "" && id !in excluded && LivesIn(id, inventory)
    ensures orphans == LiveIds(inventory, excluded)
  {
    orphans := [];
    var seen := {};
    for k := 0 to |inventory|
      invariant orphans == LiveIds(inventory[..k], excluded) && seen == set id | id in orphans
    {
      assert inventory[..k + 1][..k] == inventory[..k];
      var run := inventory[k];
      if run.id == "" || run.id in excluded { continue; }
      if LiveHost(run.state) && run.id !in seen {
        seen := seen + {run.id};
        orphans := orphans + [run.id];
      }
    }
    assert inventory[..|inventory|] == inventory;
    LiveIdsExactly(inventory, excluded);
  }

  // ---------------------------------------------------------------- drain

  /** What the cloud and the registry will answer, and the calls made to them. */
  class DrainBackend {
    const pages: seq<seq<CloudRun>>
    const listed: bool              // false: the inventory throws after these pages
    const things: Option<seq<string>>
    const fences: nat -> FenceResult
    var terminated: seq<string>     // terminate attempts, whether they throw or not
    var fenced: seq<string>         // fence attempts

    constructor (pages: seq<seq<CloudRun>>, listed: bool, things: Option<seq<string>>, fences: nat -> FenceResult)
      ensures this.pages == pages && this.listed == listed && this.things == things && this.fences == fences
      ensures terminated == [] && fenced == []
    {
      this.pages, this.listed, this.things, this.fences := pages, listed, things, fences;
      terminated, fenced := [], [];
    }
  }

  function Flatten(pages: seq<seq<CloudRun>>): seq<CloudRun> {
    if pages == [] then [] else Flatten(pages[..|pages| - 1]) + pages[|pages| - 1]
  }

  predicate Gone(r: CloudRun) { r.id != "" && r.state.Terminated? }

  predicate AllGone(runs: seq<CloudRun>) { forall i :: 0 <= i < |runs| ==> Gone(runs[i]) }

  /** One inventory entry: at most one terminate attempt per live id, and the drain is complete only if it is gone. */
  method VisitRun(io: DrainBackend, run: CloudRun, ghost before: seq<CloudRun>, seen: set<string>, complete: bool)
    returns (seen': set<string>, complete': bool)
    requires io.terminated == LiveIds(before, {}) && seen == (set id | id in io.terminated)
             && complete == AllGone(before)
    modifies io`terminated
    ensures io.terminated == LiveIds(before + [run], {}) && seen' == (set id | id in io.terminated)
            && complete' == AllGone(before + [run])
  {
    assert (before + [run])[..|before|] == before;
    seen', complete' := seen, complete;
    assert AllGone(before + [run]) <==> AllGone(before) && Gone(run) by {
      assert forall i :: 0 <= i < |before| ==> (before + [run])[i] == before[i];
      assert (before + [run])[|before|] == run;
    }
    if run.id == "" { return seen, false; }
    if run.state.Terminated? { return; }
    complete' := false;
    if !LiveHost(run.state) || run.id in seen { return; }
    seen' := seen + {run.id};
    io.terminated := io.terminated + [run.id];
  }

  /** Lines 216-233: every page that is listed, whatever terminate does. */
  method DrainInventory(io: DrainBackend) returns (complete: bool)
    requires io.terminated == []
    modifies io`terminated
    ensures io.terminated == LiveIds(Flatten(io.pages), {})
    ensures complete <==> io.listed && AllGone(Flatten(io.pages))
  {
    complete := true;
    var seen := {};
    for p := 0 to |io.pages|
      invariant var before := Flatten(io.pages[..p]);
                io.terminated == LiveIds(before, {}) && seen == (set id | id in io.terminated)
                  && complete == AllGone(before)
    {
      var page := io.pages[p];
      ghost var before := Flatten(io.pages[..p]);
      assert before + page[..0] == before;
      for k := 0 to |page|
        invariant var visited := before + page[..k];
                  io.terminated == LiveIds(visited, {}) && seen == (set id | id in io.terminated)
                    && complete == AllGone(visited)
      {
        assert before + page[..k] + [page[k]] == before + page[..k + 1];
        seen, complete := VisitRun(io, page[k], before + page[..k], seen, complete);
      }
      assert io.pages[..p + 1][..p] == io.pages[..p];
      assert page[..|page|] == page;
    }
    assert io.pages[..|io.pages|] == io.pages;
    if !io.listed { complete := false; }
  }

  /** Lines 234-239: every listed Thing gets one fence attempt. */
  method FenceThings(io: DrainBackend) returns (complete: bool)
    requires io.fenced == []
    modifies io`fenced
    ensures io.fenced == if io.things.Some? then io.things.value else []
    ensures complete <==> io.things.Some? && forall k :: 0 <= k < |io.things.value| ==> io.fences(k).Fenced?
  {
    complete := true;
    if io.things.None? { return false; }
    var things := io.things.value;
    for k := 0 to |things|
      invariant io.fenced == things[..k]
      invariant complete <==> forall j :: 0 <= j < k ==> io.fences(j).Fenced?
    {
      assert things[..k + 1] == things[..k] + [things[k]];
      io.fenced := io.fenced + [things[k]];
      if !io.fences(k).Fenced? { complete := false; }
    }
    assert things[..|things|] == things;
  }

  /**
   * The drain reports completion exactly when the whole inventory was listed with every entry identified and
   * TERMINATED, and every Thing was listed and fenced. Whatever calls fail, each distinct live id it visited gets
   * exactly one terminate attempt and each listed Thing one fence attempt.
   */
  method DrainDisabled(io: DrainBackend) returns (complete: bool)
    requires io.terminated == [] && io.fenced == []
    modifies io`terminated, io`fenced
    ensures complete <==> && io.listed && AllGone(Flatten(io.pages))
                          && io.things.Some? && forall k :: 0 <= k < |io.things.value| ==> io.fences(k).Fenced?
    ensures Distinct(io.terminated) && forall id :: id in io.terminated <==> id != "" && LivesIn(id, Flatten(io.pages))
    ensures io.fenced == if io.things.Some? then io.things.value else []
  {
    var drained := DrainInventory(io);
    LiveIdsExactly(Flatten(io.pages), {});
    var fencedAll := FenceThings(io);
    complete := drained && fencedAll;
  }
}
