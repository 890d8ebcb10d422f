/**
 * A loop over a buffer that moves an offset: it ends when the offset is at or behind the end, when a turn throws, or
 * not at all. The next offset depends on the offset alone and may lie before it.
 */
module Loops {

  /** What one turn does with the locals at an offset; `Hangs` where the turn itself does not finish. */
  datatype Turn<+T> = Go(acc: T, offset: int) | Throws | Hangs

  datatype State<+T> = Running(offset: int, acc: T) | Returned(value: T) | Raised | Hung {
    predicate Ended() { Returned? || Raised? }
  }

  /** No turn leads further back than this. */
  const FLOOR: int := -0x8000_0000

  /** Arriving at an offset: the loop's own test. */
  function Arrive<T>(size: nat, offset: int, acc: T): State<T> {
    if offset >= size then Returned(acc) else Running(offset, acc)
  }

  function Step<T>(turn: (int, T) -> Turn<T>, size: nat, s: State<T>): State<T> {
    if !s.Running? then s
    else
      match turn(s.offset, s.acc)
      case Go(acc, offset) => Arrive(size, offset, acc)
      case Throws => Raised
      case Hangs => Hung
  }

  /** The state after k turns. */
  function Steps<T>(turn: (int, T) -> Turn<T>, size: nat, s: State<T>, k: nat): State<T> {
    if k == 0 then s else Step(turn, size, Steps(turn, size, s, k - 1))
  }

  /** The locals do not decide where a turn goes. */
  predicate SameMove<T>(a: Turn<T>, b: Turn<T>) {
    match a
    case Go(_, offset) => b.Go? && b.offset == offset
    case Throws => b.Throws?
    case Hangs => b.Hangs?
  }

  /** The turns depend on the offset alone and stay above the floor. */
  ghost predicate Regular<T(!new)>(turn: (int, T) -> Turn<T>, size: nat) {
    && (forall o, a, b :: SameMove(turn(o, a), turn(o, b)))
    && (forall o, a :: FLOOR <= o < size && turn(o, a).Go? ==> turn(o, a).offset >= FLOOR)
  }

  predicate Alike<T>(a: State<T>, b: State<T>) {
    match a
    case Running(offset, _) => b.Running? && b.offset == offset
    case Returned(_) => b.Returned?
    case Raised => b.Raised?
    case Hung => b.Hung?
  }

  lemma StepAlike<T(!new)>(turn: (int, T) -> Turn<T>, size: nat, s: State<T>, t: State<T>)
    requires Regular(turn, size) && Alike(s, t)
    ensures Alike(Step(turn, size, s), Step(turn, size, t))
  {
    if s.Running? { assert SameMove(turn(s.offset, s.acc), turn(t.offset, t.acc)); }
  }

  /** Once the loop is over, or hangs, it stays so. */
  lemma {:induction false} Settled<T>(turn: (int, T) -> Turn<T>, size: nat, s: State<T>, k: nat, m: nat)
    requires k <= m && !Steps(turn, size, s, k).Running?
    ensures Steps(turn, size, s, m) == Steps(turn, size, s, k)
    decreases m
  {
    if k < m { Settled(turn, size, s, k, m - 1); }
  }

  lemma {:induction false} FutureAlike<T(!new)>(
      turn: (int, T) -> Turn<T>, size: nat, s: State<T>, i: nat, j: nat, m: nat)
    requires Regular(turn, size) && Alike(Steps(turn, size, s, i), Steps(turn, size, s, j))
    ensures Alike(Steps(turn, size, s, i + m), Steps(turn, size, s, j + m))
  {
    hide Step;
    if m > 0 {
      FutureAlike(turn, size, s, i, j, m - 1);
      StepAlike(turn, size, Steps(turn, size, s, i + m - 1), Steps(turn, size, s, j + m - 1));
    }
  }

  /** The loop stands at one offset before two different turns. */
  predicate Meets<T>(turn: (int, T) -> Turn<T>, size: nat, s: State<T>, i: nat, j: nat) {
    && i < j && Steps(turn, size, s, i).Running? && Steps(turn, size, s, j).Running?
    && Steps(turn, size, s, i).offset == Steps(turn, size, s, j).offset
  }

  ghost predicate MeetsTwice<T>(turn: (int, T) -> Turn<T>, size: nat, s: State<T>) {
    exists i: nat, j: nat :: Meets(turn, size, s, i, j)
  }

  /** A loop that comes back to an offset goes round for ever. */
  lemma {:induction false} GoesRound<T(!new)>(turn: (int, T) -> Turn<T>, size: nat, s: State<T>, i: nat, j: nat, k: nat)
    requires Regular(turn, size) && Meets(turn, size, s, i, j)
    ensures Steps(turn, size, s, k).Running?
    decreases k
  {
    hide Step;
    if k <= j {
      if !Steps(turn, size, s, k).Running? { Settled(turn, size, s, k, j); }
    } else {
      GoesRound(turn, size, s, i, j, k - (j - i));
      FutureAlike(turn, size, s, i, j, k - j);
      assert i + (k - j) == k - (j - i) && j + (k - j) == k;
    }
  }

  // ---------------------------------------------------------------- as many turns as there are offsets

  lemma {:induction false} InRange<T(!new)>(turn: (int, T) -> Turn<T>, size: nat, s: State<T>, k: nat)
    requires Regular(turn, size) && (s.Running? ==> FLOOR <= s.offset < size)
    ensures var t := Steps(turn, size, s, k); t.Running? ==> FLOOR <= t.offset < size
  {
    if k > 0 {
      InRange(turn, size, s, k - 1);
      var t := Steps(turn, size, s, k - 1);
      if t.Running? && turn(t.offset, t.acc).Go? { assert turn(t.offset, t.acc).offset >= FLOOR; }
    }
  }

  function Interval(lo: int, hi: int): (r: set<int>)
    ensures forall x :: x in r <==> lo <= x < hi
    ensures lo <= hi ==> |r| == hi - lo
    decreases hi - lo
  {
    if hi <= lo then {} else Interval(lo, hi - 1) + {hi - 1}
  }

  function Elements(f: seq<int>): set<int> { set x | x in f }

  lemma {:induction false} DistinctSize(f: seq<int>)
    requires forall i, j :: 0 <= i < j < |f| ==> f[i] != f[j]
    ensures |Elements(f)| == |f|
  {
    if f != [] {
      var before, last := f[..|f| - 1], f[|f| - 1];
      DistinctSize(before);
      assert Elements(f) == Elements(before) + {last} && last !in Elements(before);
    }
  }

  lemma SmallerSet(a: set<int>, b: set<int>)
    requires a <= b
    ensures |a| <= |b|
  {
    assert b == a + (b - a);
  }

  /** More values than places: two of them share one. */
  lemma Pigeonhole(f: seq<int>, lo: int, hi: int)
    requires lo <= hi && |f| > hi - lo && forall i :: 0 <= i < |f| ==> lo <= f[i] < hi
    ensures exists i, j :: 0 <= i < j < |f| && f[i] == f[j]
  {
    if forall i, j :: 0 <= i < j < |f| ==> f[i] != f[j] {
      DistinctSize(f);
      assert Elements(f) <= Interval(lo, hi);
      SmallerSet(Elements(f), Interval(lo, hi));
    }
  }

  /** The number of offsets the loop can stand at. */
  function Limit(size: nat): nat { size - FLOOR }

  /** A loop still under way after that many turns has come back to an offset. */
  lemma ComesBack<T(!new)>(turn: (int, T) -> Turn<T>, size: nat, s: State<T>)
    requires Regular(turn, size) && (s.Running? ==> FLOOR <= s.offset < size)
    requires Steps(turn, size, s, Limit(size)).Running?
    ensures MeetsTwice(turn, size, s)
  {
    var n := Limit(size);
    forall k: nat | k <= n ensures Steps(turn, size, s, k).Running? && FLOOR <= Steps(turn, size, s, k).offset < size {
      if !Steps(turn, size, s, k).Running? { Settled(turn, size, s, k, n); }
      InRange(turn, size, s, k);
    }
    var f := seq(n + 1, k requires 0 <= k <= n => Steps(turn, size, s, k).offset);
    Pigeonhole(f, FLOOR, size);
    var i, j :| 0 <= i < j < |f| && f[i] == f[j];
    hide Steps;
    assert Meets(turn, size, s, i, j);
  }

  /** The loop never ends. */
  ghost predicate Endless<T>(turn: (int, T) -> Turn<T>, size: nat, s: State<T>) {
    forall k: nat :: !Steps(turn, size, s, k).Ended()
  }

  /** Some turn does not finish. */
  ghost predicate HangsSomewhere<T>(turn: (int, T) -> Turn<T>, size: nat, s: State<T>) {
    exists k: nat :: Steps(turn, size, s, k).Hung?
  }

  /** It never ends exactly when it comes back to an offset or hangs in a turn. */
  lemma EndlessExactly<T(!new)>(turn: (int, T) -> Turn<T>, size: nat, s: State<T>)
    requires Regular(turn, size) && (s.Running? ==> FLOOR <= s.offset < size)
    ensures Endless(turn, size, s) <==> MeetsTwice(turn, size, s) || HangsSomewhere(turn, size, s)
    ensures Endless(turn, size, s) <==> !Steps(turn, size, s, Limit(size)).Ended()
  {
    hide Steps, Regular, Limit, Meets;
    var n := Limit(size);
    match Steps(turn, size, s, n)
    case Running(_, _) =>
      ComesBack(turn, size, s);
      var i: nat, j: nat :| Meets(turn, size, s, i, j);
      forall k: nat ensures !Steps(turn, size, s, k).Ended() { GoesRound(turn, size, s, i, j, k); }
    case Hung =>
      forall k: nat ensures !Steps(turn, size, s, k).Ended() { HungStays(turn, size, s, n, k); }
    case _ =>
      assert Steps(turn, size, s, n).Ended();
      forall i: nat, j: nat ensures !Meets(turn, size, s, i, j) {
        if Meets(turn, size, s, i, j) { GoesRound(turn, size, s, i, j, n); }
      }
      forall k: nat ensures !Steps(turn, size, s, k).Hung? {
        if Steps(turn, size, s, k).Hung? { HungStays(turn, size, s, k, n); }
      }
  }

  lemma HungStays<T>(turn: (int, T) -> Turn<T>, size: nat, s: State<T>, k: nat, m: nat)
    requires Steps(turn, size, s, k).Hung?
    ensures !Steps(turn, size, s, m).Ended()
  {
    hide Steps;
    if k <= m { Settled(turn, size, s, k, m); }
    else if Steps(turn, size, s, m).Ended() { Settled(turn, size, s, m, k); }
  }

  /** A loop whose every turn moves forward is over after as many turns as there are bytes. */
  lemma {:induction false} ForwardEnds<T>(turn: (int, T) -> Turn<T>, size: nat, s: State<T>, k: nat)
    requires s.Running? ==> 0 <= s.offset
    requires forall m: nat :: m < k && Steps(turn, size, s, m).Running? ==>
               var t := Steps(turn, size, s, m); turn(t.offset, t.acc).Go? ==> turn(t.offset, t.acc).offset > t.offset
    ensures Steps(turn, size, s, k).Running? ==> Steps(turn, size, s, k).offset >= k
  {
    if k > 0 { ForwardEnds(turn, size, s, k - 1); }
  }

  lemma {:induction false} StepsAdd<T>(turn: (int, T) -> Turn<T>, size: nat, s: State<T>, a: nat, b: nat)
    ensures Steps(turn, size, s, a + b) == Steps(turn, size, Steps(turn, size, s, a), b)
  {
    hide Step;
    if b > 0 { StepsAdd(turn, size, s, a, b - 1); }
  }
}
