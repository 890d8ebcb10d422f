/** The queue bounded by item count and by bytes (agent/include/agent/core.hpp, `Queue`). */
module BoundedQueue {
  import opened Common

  /** A queued item with the size it was pushed with. */
  datatype Entry<T> = Entry(item: T, bytes: nat)

  datatype Limits = Limits(count: nat, bytes: nat)

  datatype State<T> = State(items: seq<Entry<T>>, size: int, dropped: nat, closed: bool)

  function Total<T>(items: seq<Entry<T>>): nat {
    if items == [] then 0 else items[0].bytes + Total(items[1..])
  }

  /** Another entry of `bytes` bytes fits beside `items`. */
  predicate Fits<T>(l: Limits, items: seq<Entry<T>>, bytes: nat) {
    |items| < l.count && Total(items) + bytes <= l.bytes
  }

  /** How many of the oldest entries have to go before an entry of `bytes` bytes is appended. */
  function Evicted<T>(l: Limits, items: seq<Entry<T>>, bytes: nat): (k: nat)
    ensures k <= |items|
  {
    if items == [] || Fits(l, items, bytes) then 0 else 1 + Evicted(l, items[1..], bytes)
  }

  predicate Accepts<T>(l: Limits, s: State<T>, bytes: nat) { !s.closed && bytes <= l.bytes }

  function Pushed<T>(l: Limits, s: State<T>, item: T, bytes: nat): State<T> {
    if !Accepts(l, s, bytes) then s.(dropped := s.dropped + 1)
    else
      var k := Evicted(l, s.items, bytes);
      var kept := s.items[k..] + [Entry(item, bytes)];
      s.(items := kept, size := Total(kept), dropped := s.dropped + k)
  }

  function Popped<T>(s: State<T>): State<T> {
    if s.items == [] then s else s.(items := s.items[1..], size := Total(s.items[1..]))
  }

  // ---------------------------------------------------------------- in place

  lemma {:induction false} TotalSplit<T>(a: seq<Entry<T>>, b: seq<Entry<T>>)
    ensures Total(a + b) == Total(a) + Total(b)
  {
    if a == [] {
      assert a + b == b;
    } else {
      TotalSplit(a[1..], b);
      assert (a + b)[1..] == a[1..] + b;
    }
  }

  class Queue<T> {
    const limits: Limits
    var items: seq<Entry<T>>
    var size: int
    var dropped: nat
    var closed: bool

    ghost predicate Valid()
      reads this
    {
      size == Total(items)
    }

    function View(): State<T>
      reads this
    {
      State(items, size, dropped, closed)
    }

    constructor (count: nat, bytes: nat)
      ensures Valid() && limits == Limits(count, bytes) && View() == State([], 0, 0, false)
    {
      limits, items, size, dropped, closed := Limits(count, bytes), [], 0, 0, false;
    }

    method Push(item: T, bytes: nat) returns (accepted: bool)
      requires Valid()
      modifies this
      ensures Valid() && View() == Pushed(limits, old(View()), item, bytes)
              && accepted == Accepts(limits, old(View()), bytes)
    {
      if closed || bytes > limits.bytes {
        dropped := dropped + 1;
        return false;
      }
      while items != [] && (|items| >= limits.count || size + bytes > limits.bytes)
        invariant Valid() && closed == old(closed)
        invariant old(dropped) <= dropped && dropped - old(dropped) <= |old(items)|
                  && items == old(items)[dropped - old(dropped)..]
        invariant Evicted(limits, old(items), bytes) == dropped - old(dropped) + Evicted(limits, items, bytes)
        decreases |items|
      {
        size := size - items[0].bytes;
        items := items[1..];
        dropped := dropped + 1;
      }
      TotalSplit(items, [Entry(item, bytes)]);
      size := size + bytes;
      items := items + [Entry(item, bytes)];
      return true;
    }

    method Pop() returns (item: Option<T>)
      requires Valid()
      modifies this
      ensures Valid() && View() == Popped(old(View()))
      ensures item == if old(items) == [] then None else Some(old(items)[0].item)
    {
      if items == [] { return None; }
      item := Some(items[0].item);
      size := size - items[0].bytes;
      items := items[1..];
    }

    method Close()
      requires Valid()
      modifies this
      ensures Valid() && View() == old(View()).(closed := true)
    {
      closed := true;
    }
  }

  // ---------------------------------------------------------------- histories

  datatype Operation<T> = Push(item: T, bytes: nat) | Pop | Close

  /**
   * The queue with its whole history: what was accepted, how many entries left by `pop`, how many were evicted or
   * refused.
   */
  datatype Ledger<T> = Ledger(s: State<T>, accepted: seq<Entry<T>>, taken: seq<T>, evicted: nat, refused: nat,
                              pushes: nat)

  function Apply<T>(l: Limits, h: Ledger<T>, op: Operation<T>): Ledger<T> {
    match op
    case Close => h.(s := h.s.(closed := true))
    case Pop => if h.s.items == [] then h else h.(s := Popped(h.s), taken := h.taken + [h.s.items[0].item])
    case Push(item, bytes) =>
      var next := h.(s := Pushed(l, h.s, item, bytes), pushes := h.pushes + 1);
      if Accepts(l, h.s, bytes)
      then next.(accepted := h.accepted + [Entry(item, bytes)], evicted := h.evicted + Evicted(l, h.s.items, bytes))
      else next.(refused := h.refused + 1)
  }

  function History<T>(l: Limits, ops: seq<Operation<T>>): Ledger<T> {
    if ops == [] then Ledger(State([], 0, 0, false), [], [], 0, 0, 0)
    else Apply(l, History(l, ops[..|ops| - 1]), ops[|ops| - 1])
  }

  /** Everything pushed is popped, dropped or still queued; what is queued are the newest accepted entries in order. */
  ghost predicate Balanced<T>(h: Ledger<T>) {
    var gone := |h.taken| + h.evicted;
    && h.pushes == |h.taken| + h.s.dropped + |h.s.items|
    && h.s.dropped == h.evicted + h.refused
    && gone <= |h.accepted| && h.s.items == h.accepted[gone..]
    && h.s.size == Total(h.s.items)
  }

  lemma PushBalanced<T>(l: Limits, h: Ledger<T>, item: T, bytes: nat)
    requires Balanced(h)
    ensures Balanced(Apply(l, h, Push(item, bytes)))
  {
    if Accepts(l, h.s, bytes) {
      var gone, k := |h.taken| + h.evicted, Evicted(l, h.s.items, bytes);
      assert (h.accepted + [Entry(item, bytes)])[gone + k..] == h.accepted[gone..][k..] + [Entry(item, bytes)];
    }
  }

  lemma PopBalanced<T>(l: Limits, h: Ledger<T>)
    requires Balanced(h)
    ensures Balanced(Apply(l, h, Pop))
  {
    var gone := |h.taken| + h.evicted;
    if h.s.items != [] { assert h.accepted[gone..][1..] == h.accepted[gone + 1..]; }
  }

  lemma {:induction false} QueueConserves<T>(l: Limits, ops: seq<Operation<T>>)
    ensures Balanced(History(l, ops))
  {
    if ops != [] {
      var before := ops[..|ops| - 1];
      QueueConserves(l, before);
      hide Balanced, Apply;
      match ops[|ops| - 1]
      case Push(item, bytes) => PushBalanced(l, History(l, before), item, bytes);
      case Pop => PopBalanced(l, History(l, before));
      case Close => CloseBalanced(l, History(l, before));
    }
  }

  lemma CloseBalanced<T>(l: Limits, h: Ledger<T>)
    requires Balanced(h)
    ensures Balanced(Apply(l, h, Close))
  {
  }

  /** Eviction removes no more than it has to: what is kept fits, and keeping one entry more would not. */
  lemma {:induction false} EvictionIsMinimal<T>(l: Limits, items: seq<Entry<T>>, bytes: nat)
    ensures var k := Evicted(l, items, bytes);
            && (k == |items| || Fits(l, items[k..], bytes))
            && forall j :: 0 <= j < k ==> !Fits(l, items[j..], bytes)
  {
    var k := Evicted(l, items, bytes);
    if items == [] || Fits(l, items, bytes) {
      assert items[0..] == items;
    } else {
      EvictionIsMinimal(l, items[1..], bytes);
      assert items[1..][k - 1..] == items[k..];
      forall j | 0 <= j < k ensures !Fits(l, items[j..], bytes) {
        if j == 0 { assert items[0..] == items; } else { assert items[j..] == items[1..][j - 1..]; }
      }
    }
  }

  /** The entries taken out are, in order, accepted ones. */
  ghost predicate Subsequence<T>(taken: seq<T>, accepted: seq<Entry<T>>)
    decreases |accepted|
  {
    taken == [] || (accepted != [] &&
      (Subsequence(taken, accepted[..|accepted| - 1])
       || (taken[|taken| - 1] == accepted[|accepted| - 1].item
           && Subsequence(taken[..|taken| - 1], accepted[..|accepted| - 1]))))
  }

  lemma {:induction false} SubsequenceGrows<T>(taken: seq<T>, accepted: seq<Entry<T>>, k: nat)
    requires k <= |accepted| && Subsequence(taken, accepted[..k])
    ensures Subsequence(taken, accepted)
    decreases |accepted|
  {
    if k == |accepted| {
      assert accepted[..k] == accepted;
    } else {
      var shorter := accepted[..|accepted| - 1];
      assert shorter[..k] == accepted[..k];
      SubsequenceGrows(taken, shorter, k);
    }
  }

  ghost predicate InOrder<T>(h: Ledger<T>) {
    |h.taken| + h.evicted <= |h.accepted| && Subsequence(h.taken, h.accepted[..|h.taken| + h.evicted])
  }

  lemma StepInOrder<T>(l: Limits, h: Ledger<T>, op: Operation<T>)
    requires InOrder(h) && Balanced(h) && Balanced(Apply(l, h, op))
    ensures InOrder(Apply(l, h, op))
  {
    var next := Apply(l, h, op);
    var gone, after := |h.taken| + h.evicted, |next.taken| + next.evicted;
    var base := next.accepted[..after];
    assert base[..gone] == h.accepted[..gone];
    if op.Pop? && h.s.items != [] {
      assert base[..|base| - 1] == h.accepted[..gone];
      assert next.taken[..|next.taken| - 1] == h.taken;
    } else {
      SubsequenceGrows(h.taken, base, gone);
    }
  }

  /** Entries leave in the order in which they were accepted, and always before any entry still queued. */
  lemma {:induction false} PopsAreFifo<T>(l: Limits, ops: seq<Operation<T>>)
    ensures InOrder(History(l, ops))
  {
    if ops != [] {
      var before := ops[..|ops| - 1];
      QueueConserves(l, ops);
      QueueConserves(l, before);
      PopsAreFifo(l, before);
      hide InOrder, Balanced, Apply;
      StepInOrder(l, History(l, before), ops[|ops| - 1]);
    }
  }

  predicate Within<T>(l: Limits, items: seq<Entry<T>>) { |items| <= l.count && Total(items) <= l.bytes }

  lemma {:induction false} WithinLimits<T>(l: Limits, ops: seq<Operation<T>>)
    requires l.count >= 1
    ensures Within(l, History(l, ops).s.items)
  {
    if ops != [] {
      var before := ops[..|ops| - 1];
      WithinLimits(l, before);
      QueueConserves(l, before);
      var h := History(l, before);
      match ops[|ops| - 1]
      case Push(item, bytes) =>
        var k := Evicted(l, h.s.items, bytes);
        EvictionIsMinimal(l, h.s.items, bytes);
        TotalSplit(h.s.items[k..], [Entry(item, bytes)]);
      case Pop =>
      case Close =>
    }
  }

  /**
   * Both limits hold in every history exactly when the count limit is at least one: a queue built with a count limit
   * of zero still keeps the newest accepted entry.
   */
  lemma LimitsHoldExactly(l: Limits)
    ensures (forall ops: seq<Operation<int>> :: Within(l, History(l, ops).s.items)) <==> l.count >= 1
  {
    if l.count >= 1 {
      forall ops: seq<Operation<int>> ensures Within(l, History(l, ops).s.items) { WithinLimits(l, ops); }
    } else {
      var ops: seq<Operation<int>> := [Push(7, 0)];
      assert ops[..0] == [];
      assert History(l, ops[..0]).s.items == [];
      assert |History(l, ops).s.items| == 1;
      assert !Within(l, History(l, ops).s.items);
    }
  }
}
