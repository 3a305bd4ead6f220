/**
 * The element storage of `coro::ring_buffer`: an array of optional slots and two `size_t`
 * counters that are only ever incremented and are reduced modulo the capacity at each use
 * (include/coro/ring_buffer.hpp:94-102, 158-166, 403-409). The counters wrap at 2^64.
 */
module RingStorage {
  import opened Prelude

  const COUNTER_RANGE: nat := 0x1_0000_0000_0000_0000

  /** `i` places after place `p` on a ring of `n` places. */
  function Around(p: nat, i: nat, n: nat): (k: nat)
    requires p < n && i <= n
    ensures k < n
  {
    if p + i < n then p + i else p + i - n
  }

  datatype Buf<T> = Buf(slots: seq<Option<T>>, front: nat, back: nat, used: nat) {
    ghost predicate Shaped() {
      0 < |slots| < COUNTER_RANGE && front < COUNTER_RANGE && back < COUNTER_RANGE && used <= |slots|
    }
  }

  function Empty<T>(n: nat): (b: Buf<T>) {
    Buf(seq(n, _ => None), 0, 0, 0)
  }

  function Store<T>(b: Buf<T>, e: T): (r: Buf<T>)
    requires b.Shaped() && b.used < |b.slots|
  {
    Buf(b.slots[b.front % |b.slots| := Some(e)], Around(b.front, 1, COUNTER_RANGE), b.back, b.used + 1)
  }

  function Oldest<T>(b: Buf<T>): (x: Option<T>)
    requires b.Shaped()
  {
    b.slots[b.back % |b.slots|]
  }

  function Take<T>(b: Buf<T>): (r: Buf<T>)
    requires b.Shaped() && b.used > 0
  {
    Buf(b.slots[b.back % |b.slots| := None], b.front, Around(b.back, 1, COUNTER_RANGE), b.used - 1)
  }

  // ----- the bounded FIFO it stands for -----

  /** Exactly the `used` slots from slot `p` on are filled. */
  ghost predicate Filled<T>(slots: seq<Option<T>>, p: nat, used: nat) {
    && p < |slots| && used <= |slots|
    && forall i :: 0 <= i < |slots| ==> (slots[Around(p, i, |slots|)].Some? <==> i < used)
  }

  ghost function Listed<T>(slots: seq<Option<T>>, p: nat, used: nat): (s: seq<T>)
    requires Filled(slots, p, used)
    ensures |s| == used
  {
    seq(used, i requires 0 <= i < used => slots[Around(p, i, |slots|)].value)
  }

  /** The counters are `used` apart, and so are the slots they lead to; only the slots between are filled. */
  ghost predicate Holds<T>(b: Buf<T>) {
    && b.Shaped()
    && b.front == Around(b.back, b.used, COUNTER_RANGE)
    && b.front % |b.slots| == Around(b.back % |b.slots|, b.used, |b.slots|)
    && Filled(b.slots, b.back % |b.slots|, b.used)
  }

  ghost function Contents<T>(b: Buf<T>): (s: seq<T>)
    requires Holds(b)
    ensures |s| == b.used
  {
    Listed(b.slots, b.back % |b.slots|, b.used)
  }

  lemma FillNext<T>(slots: seq<Option<T>>, p: nat, used: nat, e: T)
    requires Filled(slots, p, used) && used < |slots|
    ensures var r := slots[Around(p, used, |slots|) := Some(e)];
      Filled(r, p, used + 1) && Listed(r, p, used + 1) == Listed(slots, p, used) + [e]
  {
  }

  lemma ClearOldest<T>(slots: seq<Option<T>>, p: nat, used: nat)
    requires Filled(slots, p, used) && used > 0
    ensures slots[p] == Some(Listed(slots, p, used)[0])
    ensures var r := slots[p := None];
      Filled(r, Around(p, 1, |slots|), used - 1)
      && Listed(r, Around(p, 1, |slots|), used - 1) == Listed(slots, p, used)[1..]
  {
    var n := |slots|;
    assert Around(p, 0, n) == p;
    var r, p' := slots[p := None], Around(p, 1, n);
    forall i | 0 <= i < n
      ensures r[Around(p', i, n)].Some? <==> i < used - 1
    {
      assert Around(p', i, n) == if i + 1 < n then Around(p, i + 1, n) else p;
    }
    assert forall i :: 0 <= i < used - 1 ==> Around(p', i, n) == Around(p, i + 1, n);
  }

  // ----- a wrapping counter walks round the slots -----

  lemma MulAtLeast(n: nat, d: nat)
    requires d >= 1
    ensures n * d >= n
  {
    assert n * d == n + n * (d - 1);
  }

  lemma ModUnique(x: nat, n: nat, q: nat, r: nat)
    requires n > 0 && r < n && x == n * q + r
    ensures x % n == r
  {
    var p := x / n;
    assert x == n * p + x % n;
    if q > p {
      assert n * (q - p) == n * q - n * p;
      MulAtLeast(n, q - p);
    } else if q < p {
      assert n * (p - q) == n * p - n * q;
      MulAtLeast(n, p - q);
    }
  }

  lemma PlainStep(x: nat, n: nat)
    requires 0 < n
    ensures (x + 1) % n == Around(x % n, 1, n)
  {
    var q, r := x / n, x % n;
    assert x == n * q + r;
    if r + 1 < n {
      ModUnique(x + 1, n, q, r + 1);
    } else {
      assert n * (q + 1) == n * q + n;
      ModUnique(x + 1, n, q + 1, 0);
    }
  }

  /** At the wrap the step round the slots is right exactly when the slots divide the counter's range. */
  lemma WrapStep(n: nat, range: nat)
    requires 0 < n && 0 < range
    ensures Around((range - 1) % n, 1, n) == 0 <==> range % n == 0
  {
    PlainStep(range - 1, n);
  }

  lemma CounterStep(x: nat, n: nat, range: nat)
    requires 0 < n && x < range && (range % n == 0 || x + 1 < range)
    ensures Around(x, 1, range) % n == Around(x % n, 1, n)
  {
    PlainStep(x, n);
    if x + 1 == range {
      WrapStep(n, range);
      ModUnique(0, n, 0, 0);
    }
  }

  // ----- stores append, takes remove the oldest -----

  lemma StoreAppends<T>(b: Buf<T>, e: T)
    requires Holds(b) && b.used < |b.slots| && (COUNTER_RANGE % |b.slots| == 0 || b.front + 1 < COUNTER_RANGE)
    ensures Holds(Store(b, e)) && Contents(Store(b, e)) == Contents(b) + [e]
  {
    CounterStep(b.front, |b.slots|, COUNTER_RANGE);
    FillNext(b.slots, b.back % |b.slots|, b.used, e);
  }

  lemma TakeRemovesOldest<T>(b: Buf<T>)
    requires Holds(b) && b.used > 0 && (COUNTER_RANGE % |b.slots| == 0 || b.back + 1 < COUNTER_RANGE)
    ensures Oldest(b) == Some(Contents(b)[0])
    ensures Holds(Take(b)) && Contents(Take(b)) == Contents(b)[1..]
  {
    CounterStep(b.back, |b.slots|, COUNTER_RANGE);
    ClearOldest(b.slots, b.back % |b.slots|, b.used);
  }

  /** With this many stores to come, no counter wraps, or wrapping does no harm. */
  ghost predicate Clear<T>(b: Buf<T>, stores: nat)
    requires b.Shaped()
  {
    COUNTER_RANGE % |b.slots| == 0 || (b.front == b.back + b.used && b.front + stores < COUNTER_RANGE)
  }

  // ----- whole histories of stores and takes -----

  datatype Op<T> = Put(e: T) | Get

  /** The operations the ring buffer lets through: no store when full, no take when empty. */
  predicate Enabled<T>(n: nat, used: nat, op: Op<T>) {
    if op.Put? then used < n else used > 0
  }

  ghost predicate Fits<T>(n: nat, used: nat, ops: seq<Op<T>>)
    decreases |ops|
  {
    ops == [] || (Enabled(n, used, ops[0]) && Fits(n, if ops[0].Put? then used + 1 else used - 1, ops[1..]))
  }

  function Apply<T>(b: Buf<T>, op: Op<T>): (r: Buf<T>)
    requires b.Shaped() && Enabled(|b.slots|, b.used, op)
    ensures r.Shaped() && |r.slots| == |b.slots| && r.used == (if op.Put? then b.used + 1 else b.used - 1)
  {
    match op
    case Put(e) => Store(b, e)
    case Get => Take(b)
  }

  function Final<T>(b: Buf<T>, ops: seq<Op<T>>): (r: Buf<T>)
    requires b.Shaped() && Fits(|b.slots|, b.used, ops)
    ensures r.Shaped() && |r.slots| == |b.slots|
    decreases |ops|
  {
    if ops == [] then b else Final(Apply(b, ops[0]), ops[1..])
  }

  /** What the takes of a history return, read from the slots. */
  function Outputs<T>(b: Buf<T>, ops: seq<Op<T>>): (out: seq<Option<T>>)
    requires b.Shaped() && Fits(|b.slots|, b.used, ops)
    decreases |ops|
  {
    if ops == [] then []
    else (if ops[0].Get? then [Oldest(b)] else []) + Outputs(Apply(b, ops[0]), ops[1..])
  }

  /** The same history on a first-in-first-out queue. */
  function QueueApply<T>(q: seq<T>, op: Op<T>): (r: seq<T>) {
    match op
    case Put(e) => q + [e]
    case Get => if q == [] then [] else q[1..]
  }

  function QueueFinal<T>(q: seq<T>, ops: seq<Op<T>>): (r: seq<T>)
    decreases |ops|
  {
    if ops == [] then q else QueueFinal(QueueApply(q, ops[0]), ops[1..])
  }

  function QueueOutputs<T>(q: seq<T>, ops: seq<Op<T>>): (out: seq<Option<T>>)
    decreases |ops|
  {
    if ops == [] then []
    else
      (if ops[0].Get? then [if q == [] then None else Some(q[0])] else []) + QueueOutputs(QueueApply(q, ops[0]), ops[1..])
  }

  function PutsIn<T>(ops: seq<Op<T>>): (k: nat) {
    if ops == [] then 0 else One(ops[0].Put?) + PutsIn(ops[1..])
  }

  lemma ApplyMatches<T>(b: Buf<T>, op: Op<T>, later: nat)
    requires Holds(b) && Enabled(|b.slots|, b.used, op) && Clear(b, One(op.Put?) + later)
    ensures Clear(Apply(b, op), later)
    ensures Holds(Apply(b, op)) && Contents(Apply(b, op)) == QueueApply(Contents(b), op)
    ensures op.Get? ==> Oldest(b) == Some(Contents(b)[0])
  {
    match op
    case Put(e) => StoreAppends(b, e);
    case Get => TakeRemovesOldest(b);
  }

  /** Every history yields what a queue yields, if no counter wraps or the capacity divides 2^64. */
  lemma {:induction false} HistoriesAreFifo<T>(b: Buf<T>, ops: seq<Op<T>>)
    requires Holds(b) && Fits(|b.slots|, b.used, ops) && Clear(b, PutsIn(ops))
    ensures Outputs(b, ops) == QueueOutputs(Contents(b), ops)
    ensures Holds(Final(b, ops)) && Contents(Final(b, ops)) == QueueFinal(Contents(b), ops)
    decreases |ops|
  {
    if ops != [] {
      ApplyMatches(b, ops[0], PutsIn(ops[1..]));
      HistoriesAreFifo(Apply(b, ops[0]), ops[1..]);
    }
  }

  lemma EmptyHolds<T>(n: nat)
    requires 0 < n < COUNTER_RANGE
    ensures Holds(Empty<T>(n)) && Contents(Empty<T>(n)) == []
  {
    ModUnique(0, n, 0, 0);
  }

  // ----- a capacity that does not divide 2^64 loses an element at the wrap -----

  lemma {:induction false} Concatenates<T>(b: Buf<T>, xs: seq<Op<T>>, ys: seq<Op<T>>)
    requires b.Shaped() && Fits(|b.slots|, b.used, xs) && Fits(|b.slots|, Final(b, xs).used, ys)
    ensures Fits(|b.slots|, b.used, xs + ys)
    ensures Final(b, xs + ys) == Final(Final(b, xs), ys)
    ensures Outputs(b, xs + ys) == Outputs(b, xs) + Outputs(Final(b, xs), ys)
    decreases |xs|
  {
    if xs == [] {
      assert xs + ys == ys;
    } else {
      assert (xs + ys)[0] == xs[0] && (xs + ys)[1..] == xs[1..] + ys;
      Concatenates(Apply(b, xs[0]), xs[1..], ys);
    }
  }

  lemma {:induction false} QueueConcatenates<T>(q: seq<T>, xs: seq<Op<T>>, ys: seq<Op<T>>)
    ensures QueueFinal(q, xs + ys) == QueueFinal(QueueFinal(q, xs), ys)
    ensures QueueOutputs(q, xs + ys) == QueueOutputs(q, xs) + QueueOutputs(QueueFinal(q, xs), ys)
    decreases |xs|
  {
    if xs == [] {
      assert xs + ys == ys;
    } else {
      assert (xs + ys)[0] == xs[0] && (xs + ys)[1..] == xs[1..] + ys;
      QueueConcatenates(QueueApply(q, xs[0]), xs[1..], ys);
    }
  }

  /** `k` stores, each taken out at once. */
  function Cycles(k: nat): (ops: seq<Op<nat>>) {
    if k == 0 then [] else Cycles(k - 1) + [Put(0), Get]
  }

  /** Stores of 1 up to `k`. */
  function Puts(k: nat): (ops: seq<Op<nat>>) {
    if k == 0 then [] else Puts(k - 1) + [Put(k)]
  }

  function EmptyAt(n: nat, counter: nat): (b: Buf<nat>) {
    Buf(seq(n, _ => None), counter, counter, 0)
  }

  lemma OneCycle(n: nat, c: nat)
    requires 0 < n < COUNTER_RANGE && c + 1 < COUNTER_RANGE
    ensures Fits(n, 0, [Put(0), Get]) && Final(EmptyAt(n, c), [Put(0), Get]) == EmptyAt(n, c + 1)
    ensures QueueFinal<nat>([], [Put(0), Get]) == []
  {
    var b, tail := EmptyAt(n, c), [Put(0), Get];
    assert tail[1..] == [Get] && tail[1..][1..] == [];
    var full := Store(b, 0);
    assert full.slots[c % n := None] == b.slots;
    assert Fits(n, 1, tail[1..]);
    assert Final(full, tail[1..]) == Take(full);
  }

  lemma {:induction false} CyclesAdvance(n: nat, k: nat)
    requires 0 < n < COUNTER_RANGE && k < COUNTER_RANGE
    ensures Fits(n, 0, Cycles(k)) && Final(Empty<nat>(n), Cycles(k)) == EmptyAt(n, k)
    ensures QueueFinal<nat>([], Cycles(k)) == []
  {
    if k > 0 {
      CyclesAdvance(n, k - 1);
      OneCycle(n, k - 1);
      Concatenates(Empty<nat>(n), Cycles(k - 1), [Put(0), Get]);
      QueueConcatenates([], Cycles(k - 1), [Put(0), Get]);
    }
  }

  /** Stores from the last counter value on: the second store lands in slot 0, whatever the first one's slot was. */
  lemma {:induction false} PutsAcrossWrap(n: nat, k: nat)
    requires 1 <= k <= n < COUNTER_RANGE
    ensures var b, last := EmptyAt(n, COUNTER_RANGE - 1), (COUNTER_RANGE - 1) % n;
      && Fits(n, 0, Puts(k))
      && Final(b, Puts(k)).used == k
      && Final(b, Puts(k)).front == k - 1
      && Final(b, Puts(k)).back == COUNTER_RANGE - 1
      && Final(b, Puts(k)).slots[last] == Some(if last < k - 1 then last + 2 else 1)
      && QueueFinal<nat>([], Puts(k)) == seq(k, i => i + 1)
  {
    var b := EmptyAt(n, COUNTER_RANGE - 1);
    if k == 1 {
      assert Puts(1) == [Put(1)] && [Put(1)][1..] == [];
    } else {
      PutsAcrossWrap(n, k - 1);
      Concatenates(b, Puts(k - 1), [Put(k)]);
      QueueConcatenates([], Puts(k - 1), [Put(k)]);
      assert [Put(k)][1..] == [];
      var c := Final(b, Puts(k - 1));
      assert Final(c, [Put(k)]) == Store(c, k);
      ModUnique(k - 2, n, 0, k - 2);
    }
  }

  /** The history that breaks: wear the counters up to their last value, fill the buffer, take once. */
  function Breaking(n: nat): (ops: seq<Op<nat>>) {
    Cycles(COUNTER_RANGE - 1) + (Puts(n) + [Get])
  }

  lemma WrapLosesElement(n: nat)
    requires 0 < n < COUNTER_RANGE && COUNTER_RANGE % n != 0
    ensures Fits(n, 0, Breaking(n))
    ensures Outputs(Empty<nat>(n), Breaking(n)) != QueueOutputs([], Breaking(n))
  {
    var b, c := Empty<nat>(n), EmptyAt(n, COUNTER_RANGE - 1);
    CyclesAdvance(n, COUNTER_RANGE - 1);
    PutsAcrossWrap(n, n);
    var one: seq<Op<nat>> := [Get];
    assert one[1..] == [];
    Concatenates(c, Puts(n), [Get]);
    QueueConcatenates([], Puts(n), [Get]);
    Concatenates(b, Cycles(COUNTER_RANGE - 1), Puts(n) + [Get]);
    QueueConcatenates([], Cycles(COUNTER_RANGE - 1), Puts(n) + [Get]);
    WrapStep(n, COUNTER_RANGE);
    var got, due := Outputs(b, Breaking(n)), QueueOutputs([], Breaking(n));
    assert got[|got| - 1] == Oldest(Final(c, Puts(n)));
    assert due[|due| - 1] == Some(1);
  }

  /** First-in-first-out over every history, from the first element on. */
  ghost predicate AlwaysFifo(n: nat)
    requires 0 < n < COUNTER_RANGE
  {
    forall ops: seq<Op<nat>> :: Fits(n, 0, ops) ==> Outputs(Empty<nat>(n), ops) == QueueOutputs([], ops)
  }

  /** The ring buffer is first-in-first-out over every history exactly when its capacity divides 2^64. */
  lemma FifoIffCapacityDivides(n: nat)
    requires 0 < n < COUNTER_RANGE
    ensures AlwaysFifo(n) <==> COUNTER_RANGE % n == 0
  {
    if COUNTER_RANGE % n == 0 {
      EmptyHolds<nat>(n);
      forall ops: seq<Op<nat>> | Fits(n, 0, ops)
        ensures Outputs(Empty<nat>(n), ops) == QueueOutputs([], ops)
      {
        HistoriesAreFifo(Empty<nat>(n), ops);
      }
    } else {
      WrapLosesElement(n);
    }
  }
}

/** The same storage updated in place, as the four store and take sites of the source do. */
module RingSlots {
  import opened Prelude
  import opened RingStorage

  class Slots<T> {
    const elements: array<Option<T>>
    var front: nat
    var back: nat
    var used: nat

    ghost function Value(): (b: Buf<T>)
      reads this, elements
    {
      Buf(elements[..], front, back, used)
    }

    ghost predicate Valid()
      reads this, elements
    {
      Value().Shaped()
    }

    constructor (capacity: nat)
      requires 0 < capacity < COUNTER_RANGE
      ensures Valid() && fresh(elements) && Value() == Empty<T>(capacity)
      ensures Holds(Value()) && Contents(Value()) == []
    {
      elements := new Option<T>[capacity](_ => None);
      front, back, used := 0, 0, 0;
      new;
      assert elements[..] == seq(capacity, _ => None);
      EmptyHolds<T>(capacity);
    }

    /** Stores behind the newest element unless every slot is used. */
    method TryStore(e: T) returns (stored: bool)
      requires Valid()
      modifies this, elements
      ensures Valid() && stored == (old(used) < elements.Length)
      ensures Value() == if stored then Store(old(Value()), e) else old(Value())
      ensures (COUNTER_RANGE % elements.Length == 0 || old(front) + 1 < COUNTER_RANGE) && Holds(old(Value())) ==>
        Holds(Value()) && Contents(Value()) == old(Contents(Value())) + if stored then [e] else []
    {
      stored := used < elements.Length;
      if stored {
        var slot := front % elements.Length;
        front := if front + 1 < COUNTER_RANGE then front + 1 else 0;
        elements[slot] := Some(e);
        used := used + 1;
        if (COUNTER_RANGE % elements.Length == 0 || old(front) + 1 < COUNTER_RANGE) && Holds(old(Value())) {
          StoreAppends(old(Value()), e);
        }
      }
    }

    /** Takes the oldest element and empties its slot. */
    method TryTake() returns (taken: Option<T>)
      requires Valid()
      modifies this, elements
      ensures Valid()
      ensures Value() == if old(used) > 0 then Take(old(Value())) else old(Value())
      ensures taken == if old(used) > 0 then Oldest(old(Value())) else None
      ensures (COUNTER_RANGE % elements.Length == 0 || old(back) + 1 < COUNTER_RANGE) && Holds(old(Value())) ==>
        Holds(Value()) && old(Contents(Value())) == (if taken.Some? then [taken.value] else []) + Contents(Value())
    {
      taken := None;
      if used > 0 {
        var slot := back % elements.Length;
        back := if back + 1 < COUNTER_RANGE then back + 1 else 0;
        taken := elements[slot];
        elements[slot] := None;
        used := used - 1;
        if (COUNTER_RANGE % elements.Length == 0 || old(back) + 1 < COUNTER_RANGE) && Holds(old(Value())) {
          TakeRemovesOldest(old(Value()));
        }
      }
    }
  }
}
