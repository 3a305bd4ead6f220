/**
 * `coro::shared_mutex` (include/coro/shared_mutex.hpp): the lock as a value, what every
 * operation keeps, and strict first-come-first-served order over every run. Each operation
 * runs under the internal mutex, so it is one step.
 */
module SharedMutex {
  import opened Prelude

  datatype Req = Req(id: nat, exclusive: bool)

  datatype Mode = Unlocked | LockedShared | LockedExclusive

  /** `m_state`, `m_shared_users`, `m_exclusive_waiters` and the waiter list, oldest first. */
  datatype Lock = Lock(mode: Mode, users: int, exclusiveWaiters: int, queue: seq<Req>)

  const FREE := Lock(Unlocked, 0, 0, [])

  function TryLockShared(l: Lock): (r: (Lock, bool)) {
    if l.mode.Unlocked? then (l.(mode := LockedShared, users := l.users + 1), true)
    else if l.mode.LockedShared? && l.exclusiveWaiters == 0 then (l.(users := l.users + 1), true)
    else (l, false)
  }

  function TryLock(l: Lock): (r: (Lock, bool)) {
    if l.mode.Unlocked? then (l.(mode := LockedExclusive), true) else (l, false)
  }

  function Try(l: Lock, q: Req): (r: (Lock, bool)) {
    if q.exclusive then TryLock(l) else TryLockShared(l)
  }

  function Enqueue(l: Lock, q: Req): (r: Lock) {
    l.(queue := l.queue + [q], exclusiveWaiters := l.exclusiveWaiters + One(q.exclusive))
  }

  /** How many requests at the front of the queue are shared. */
  function SharedFront(q: seq<Req>): (n: nat)
    ensures n <= |q|
    ensures forall k :: 0 <= k < n ==> !q[k].exclusive
    ensures n < |q| ==> q[n].exclusive
  {
    if q == [] || q[0].exclusive then 0 else 1 + SharedFront(q[1..])
  }

  /** How many requests a wake-up takes off the queue. */
  function Woken(q: seq<Req>): (n: nat)
    ensures n <= |q|
    ensures q != [] ==> n > 0
  {
    if q == [] then 0 else if q[0].exclusive then 1 else SharedFront(q)
  }

  function WakeWaiters(l: Lock): (r: Lock)
    requires l.queue != []
  {
    var n := Woken(l.queue);
    if l.queue[0].exclusive
    then Lock(LockedExclusive, l.users, l.exclusiveWaiters - 1, l.queue[n..])
    else Lock(LockedShared, l.users + n, l.exclusiveWaiters, l.queue[n..])
  }

  function UnlockShared(l: Lock): (r: Lock) {
    var m := l.(users := l.users - 1);
    if l.users != 1 then m else if m.queue != [] then WakeWaiters(m) else m.(mode := Unlocked)
  }

  function Unlock(l: Lock): (r: Lock) {
    if l.queue != [] then WakeWaiters(l) else l.(mode := Unlocked)
  }

  // ----- the lock and those who hold it -----

  /** `owners`: requests granted and not yet released. */
  datatype State = State(lock: Lock, owners: seq<Req>)

  datatype Op =
    | Ask(q: Req)        // lock, lock_shared: granted now or queued
    | Attempt(q: Req)    // try_lock, try_lock_shared, once they hold the internal mutex
    | Miss(q: Req)       // the same when the internal mutex is taken
    | Release(k: nat)    // unlock or unlock_shared, by the k-th owner

  ghost predicate Enabled(s: State, op: Op) {
    op.Release? ==> op.k < |s.owners|
  }

  function Next(s: State, op: Op): (t: State)
    requires Enabled(s, op)
  {
    match op
    case Ask(q) =>
      var (l, ok) := Try(s.lock, q);
      if ok then State(l, s.owners + [q]) else s.(lock := Enqueue(l, q))
    case Attempt(q) =>
      var (l, ok) := Try(s.lock, q);
      if ok then State(l, s.owners + [q]) else s
    case Miss(_) => s
    case Release(k) =>
      var l := if s.owners[k].exclusive then Unlock(s.lock) else UnlockShared(s.lock);
      State(l, Without(s.owners, k) + Granted(s, op))
  }

  /** Requests the step admits: granted at once, or queued. */
  function Admitted(s: State, op: Op): (qs: seq<Req>) {
    match op
    case Ask(q) => [q]
    case Attempt(q) => if Try(s.lock, q).1 then [q] else []
    case _ => []
  }

  /** A release that leaves the lock without holders. */
  predicate IsFinal(s: State, op: Op) {
    op.Release? && |s.owners| == 1
  }

  function Granted(s: State, op: Op): (qs: seq<Req>)
    requires Enabled(s, op)
  {
    match op
    case Ask(q) => if Try(s.lock, q).1 then [q] else []
    case Attempt(q) => if Try(s.lock, q).1 then [q] else []
    case Miss(_) => []
    case Release(k) =>
      if s.owners[k].exclusive || s.lock.users == 1 then s.lock.queue[..Woken(s.lock.queue)] else []
  }

  function Exclusives(q: seq<Req>): (n: nat)
  {
    if q == [] then 0 else One(q[0].exclusive) + Exclusives(q[1..])
  }

  /** The lock's own fields agree with each other. */
  ghost predicate Consistent(l: Lock) {
    && l.exclusiveWaiters == Exclusives(l.queue)
    && match l.mode
       case Unlocked => l.users == 0 && l.queue == []
       case LockedShared => l.users > 0 && (l.queue == [] || l.queue[0].exclusive)
       case LockedExclusive => l.users == 0
  }

  /** And with who holds it: readers together, or one writer alone. */
  ghost predicate Inv(s: State) {
    && Consistent(s.lock)
    && match s.lock.mode
       case Unlocked => s.owners == []
       case LockedShared => |s.owners| == s.lock.users && forall k :: 0 <= k < |s.owners| ==> !s.owners[k].exclusive
       case LockedExclusive => |s.owners| == 1 && s.owners[0].exclusive
  }

  lemma {:induction false} ExclusivesAdd(p: seq<Req>, q: seq<Req>)
    ensures Exclusives(p + q) == Exclusives(p) + Exclusives(q)
  {
    if p == [] {
      assert p + q == q;
    } else {
      assert (p + q)[1..] == p[1..] + q;
      ExclusivesAdd(p[1..], q);
    }
  }

  lemma {:induction false} SharedCountsNone(q: seq<Req>)
    ensures Exclusives(q[..SharedFront(q)]) == 0
  {
    var n := SharedFront(q);
    if n > 0 {
      SharedCountsNone(q[1..]);
      assert q[..n][1..] == q[1..][..n - 1];
    }
  }

  /**
   * What an attempt means: a reader gets in exactly if no writer is in and nobody queues, a writer
   * exactly if nobody is in; and the fields still agree.
   */
  lemma AttemptMeans(l: Lock, q: Req)
    requires Consistent(l)
    ensures Try(l, q).1 <==> l.queue == [] && (if q.exclusive then l.users == 0 && !l.mode.LockedExclusive? else !l.mode.LockedExclusive?)
    ensures Consistent(Try(l, q).0) && Try(l, q).0.queue == l.queue
    ensures !Try(l, q).1 ==> Try(l, q).0 == l
  {
  }

  /** Nobody passes a queue, not even a reader joining readers. */
  lemma NoBarging(l: Lock, q: Req)
    requires Consistent(l) && l.queue != []
    ensures !Try(l, q).1 && Try(l, q).0 == l
  {
  }

  lemma WakeConsistent(l: Lock)
    requires l.queue != [] && l.users == 0 && l.exclusiveWaiters == Exclusives(l.queue)
    ensures Consistent(WakeWaiters(l))
  {
    var n := Woken(l.queue);
    assert l.queue == l.queue[..n] + l.queue[n..];
    ExclusivesAdd(l.queue[..n], l.queue[n..]);
    if !l.queue[0].exclusive { SharedCountsNone(l.queue); }
    else { assert l.queue[..1] == [l.queue[0]]; assert [l.queue[0]][1..] == []; }
  }

  lemma ReleaseKeepsInv(s: State, k: nat)
    requires Inv(s) && Enabled(s, Release(k))
    ensures Inv(Next(s, Release(k)))
  {
    var l := s.lock.(users := if s.owners[k].exclusive then s.lock.users else s.lock.users - 1);
    if (s.owners[k].exclusive || s.lock.users == 1) && l.queue != [] { WakeConsistent(l); }
  }

  lemma AskKeepsInv(s: State, q: Req)
    requires Inv(s)
    ensures Inv(Next(s, Ask(q)))
  {
    ExclusivesAdd(s.lock.queue, [q]);
    assert [q][1..] == [];
  }

  /** Every operation keeps the invariant, whoever calls it correctly. */
  lemma NextKeepsInv(s: State, op: Op)
    requires Inv(s) && Enabled(s, op)
    ensures Inv(Next(s, op))
  {
    match op
    case Ask(q) => AskKeepsInv(s, q);
    case Attempt(q) =>
    case Miss(_) =>
    case Release(k) => ReleaseKeepsInv(s, k);
  }

  /** Nobody is queued and nobody is in who would keep the request out. */
  ghost predicate Admits(s: State, q: Req) {
    s.lock.queue == [] && if q.exclusive then s.owners == [] else forall k :: 0 <= k < |s.owners| ==> !s.owners[k].exclusive
  }

  /**
   * What the operations do for those who hold the lock and those who wait: a request that finds the
   * lock open to it holds it at once, otherwise it is queued last or, for a try, turned away with
   * nothing changed; a release lets go of that hold only, and lets waiters in only if it was the last.
   */
  lemma OperationMeans(s: State, op: Op)
    requires Inv(s) && Enabled(s, op)
    ensures
      var t := Next(s, op);
      match op
      case Ask(q) =>
        if Admits(s, q) then t.owners == s.owners + [q] && t.lock.queue == s.lock.queue
        else t.owners == s.owners && t.lock.queue == s.lock.queue + [q]
      case Attempt(q) => if Admits(s, q) then t.owners == s.owners + [q] && t.lock.queue == s.lock.queue else t == s
      case Miss(_) => t == s
      case Release(k) =>
        if |s.owners| > 1 then t.owners == Without(s.owners, k) && t.lock.queue == s.lock.queue
        else t.owners + t.lock.queue == s.lock.queue && (s.lock.queue != [] ==> t.owners != [])
  {
    match op
    case Ask(q) => AttemptAdmits(s, q);
    case Attempt(q) => AttemptAdmits(s, q);
    case Miss(_) =>
    case Release(k) => ReleaseMeans(s, k);
  }

  lemma AttemptAdmits(s: State, q: Req)
    requires Inv(s)
    ensures Try(s.lock, q).1 <==> Admits(s, q)
    ensures Try(s.lock, q).0.queue == s.lock.queue && (!Try(s.lock, q).1 ==> Try(s.lock, q).0 == s.lock)
  {
    AttemptMeans(s.lock, q);
  }

  lemma ReleaseMeans(s: State, k: nat)
    requires Inv(s) && k < |s.owners|
    ensures
      var t := Next(s, Release(k));
      if |s.owners| > 1 then t.owners == Without(s.owners, k) && t.lock.queue == s.lock.queue
      else t.owners + t.lock.queue == s.lock.queue && (s.lock.queue != [] ==> t.owners != [])
  {
    var q := s.lock.queue;
    if |s.owners| > 1 {
      assert Without(s.owners, k) + [] == Without(s.owners, k);
    } else {
      EmptyFront(Without(s.owners, k), q[..Woken(q)]);
      assert q[..Woken(q)] + q[Woken(q)..] == q;
    }
  }

  // ----- first come, first served -----

  /** One step: what was queued plus what is admitted is what is granted plus what stays queued. */
  lemma StepIsFifo(s: State, op: Op)
    requires Inv(s) && Enabled(s, op)
    ensures s.lock.queue + Admitted(s, op) == Granted(s, op) + Next(s, op).lock.queue
    ensures s.lock.queue != [] ==> !op.Release? ==> Granted(s, op) == []
    ensures IsFinal(s, op) ==> |Granted(s, op)| == Woken(s.lock.queue)
    ensures op.Release? && !IsFinal(s, op) ==> Granted(s, op) == []
  {
    if s.lock.queue != [] && !op.Release? { NoBarging(s.lock, op.q); }
  }

  ghost predicate Legal(s: State, ops: seq<Op>)
    decreases |ops|
  {
    ops == [] || (Enabled(s, ops[0]) && Legal(Next(s, ops[0]), ops[1..]))
  }

  function Exec(s: State, ops: seq<Op>): (t: State)
    requires Legal(s, ops)
    decreases |ops|
  {
    if ops == [] then s else Exec(Next(s, ops[0]), ops[1..])
  }

  function AllAdmitted(s: State, ops: seq<Op>): (qs: seq<Req>)
    requires Legal(s, ops)
    decreases |ops|
  {
    if ops == [] then [] else Admitted(s, ops[0]) + AllAdmitted(Next(s, ops[0]), ops[1..])
  }

  function AllGranted(s: State, ops: seq<Op>): (qs: seq<Req>)
    requires Legal(s, ops)
    decreases |ops|
  {
    if ops == [] then [] else Granted(s, ops[0]) + AllGranted(Next(s, ops[0]), ops[1..])
  }

  function FinalReleases(s: State, ops: seq<Op>): (n: nat)
    requires Legal(s, ops)
    decreases |ops|
  {
    if ops == [] then 0 else One(IsFinal(s, ops[0])) + FinalReleases(Next(s, ops[0]), ops[1..])
  }

  lemma {:induction false} RunIsFifo(s: State, ops: seq<Op>)
    requires Inv(s) && Legal(s, ops)
    ensures Inv(Exec(s, ops))
    ensures s.lock.queue + AllAdmitted(s, ops) == AllGranted(s, ops) + Exec(s, ops).lock.queue
    decreases |ops|
  {
    if ops != [] {
      var t := Next(s, ops[0]);
      NextKeepsInv(s, ops[0]);
      StepIsFifo(s, ops[0]);
      RunIsFifo(t, ops[1..]);
      Chained(s.lock.queue, Admitted(s, ops[0]), Granted(s, ops[0]), t.lock.queue,
              AllAdmitted(t, ops[1..]), AllGranted(t, ops[1..]), Exec(s, ops).lock.queue);
    }
  }

  const START := State(FREE, [])

  /**
   * Over every run: readers share or one writer is alone, the fields agree, and requests are
   * granted exactly in the order they were admitted.
   */
  lemma GrantedInOrder(ops: seq<Op>)
    requires Legal(START, ops)
    ensures Inv(Exec(START, ops))
    ensures AllAdmitted(START, ops) == AllGranted(START, ops) + Exec(START, ops).lock.queue
  {
    RunIsFifo(START, ops);
  }

  /** `k` releases that leave the lock without holders grant the first `k` of the queue, at least. */
  lemma {:induction false} FinalReleasesGrant(s: State, ops: seq<Op>, k: nat)
    requires Inv(s) && Legal(s, ops) && k <= |s.lock.queue| && FinalReleases(s, ops) >= k
    ensures |AllGranted(s, ops)| >= k
    decreases |ops|
  {
    if ops != [] {
      var t, granted := Next(s, ops[0]), |Granted(s, ops[0])|;
      NextKeepsInv(s, ops[0]);
      StepIsFifo(s, ops[0]);
      assert |t.lock.queue| == |s.lock.queue| + |Admitted(s, ops[0])| - granted;
      if granted < k {
        FinalReleasesGrant(t, ops[1..], k - granted);
      }
    }
  }

  /** A request waiting at position `p` is granted by the (p+1)-th release that leaves the lock without holders. */
  lemma WaiterIsGranted(before: seq<Op>, after: seq<Op>, p: nat)
    requires Legal(START, before) && Legal(Exec(START, before), after)
    requires p < |Exec(START, before).lock.queue| && FinalReleases(Exec(START, before), after) > p
    ensures var q, granted := Exec(START, before).lock.queue, AllGranted(Exec(START, before), after);
      |granted| > p && granted[p] == q[p]
  {
    RunIsFifo(START, before);
    var s := Exec(START, before);
    RunIsFifo(s, after);
    FinalReleasesGrant(s, after, p + 1);
    assert (s.lock.queue + AllAdmitted(s, after))[p] == (AllGranted(s, after) + Exec(s, after).lock.queue)[p];
  }
}

/**
 * The same lock in place: counters, a state and an intrusive list with head and tail pointers,
 * updated by the code of include/coro/shared_mutex.hpp and proved to do what the value does.
 */
module SharedMutexList {
  import opened Prelude
  import opened SharedMutex

  class Waiter {
    const request: Req
    var next: Waiter?

    constructor (request: Req)
      ensures this.request == request && next == null
    {
      this.request := request;
      next := null;
    }
  }

  function Requests(nodes: seq<Waiter>): (qs: seq<Req>) {
    seq(|nodes|, k requires 0 <= k < |nodes| => nodes[k].request)
  }

  lemma RequestsSplit(a: seq<Waiter>, b: seq<Waiter>)
    ensures Requests(a + b)[|a|..] == Requests(b)
  {
  }

  lemma {:induction false} FrontIs(q: seq<Req>, n: nat)
    requires n <= |q| && (forall k :: 0 <= k < n ==> !q[k].exclusive) && (n < |q| ==> q[n].exclusive)
    ensures SharedFront(q) == n
  {
    if n > 0 { FrontIs(q[1..], n - 1); }
  }

  ghost function NodeAt(nodes: seq<Waiter>, k: nat): (w: Waiter?) {
    if k < |nodes| then nodes[k] else null
  }

  class QueuedLock {
    var mode: Mode
    var users: int
    var exclusiveWaiters: int
    var head: Waiter?
    var tail: Waiter?
    ghost var nodes: seq<Waiter>

    ghost predicate Valid()
      reads this, nodes
    {
      && Distinct(nodes)
      && (nodes == [] ==> head == null && tail == null)
      && (nodes != [] ==> head == nodes[0] && tail == nodes[|nodes| - 1])
      && (forall k {:trigger nodes[k]} :: 0 <= k < |nodes| ==> nodes[k].next == NodeAt(nodes, k + 1))
    }

    ghost function Model(): (l: Lock)
      reads this
    {
      Lock(mode, users, exclusiveWaiters, Requests(nodes))
    }

    constructor ()
      ensures Valid() && Model() == FREE && nodes == []
    {
      mode, users, exclusiveWaiters := Unlocked, 0, 0;
      head, tail := null, null;
      nodes := [];
    }

    method TryLockSharedLocked() returns (ok: bool)
      requires Valid()
      modifies this
      ensures Valid() && nodes == old(nodes)
      ensures (Model(), ok) == TryLockShared(old(Model()))
      ensures Consistent(old(Model())) ==> Consistent(Model()) && (ok <==> old(head) == null && old(mode) != LockedExclusive)
      ensures if ok then mode == LockedShared && users == old(users) + 1 else Model() == old(Model())
    {
      if Consistent(Model()) { AttemptMeans(Model(), Req(0, false)); }
      if mode == Unlocked {
        mode := LockedShared;
        users := users + 1;
        return true;
      } else if mode == LockedShared && exclusiveWaiters == 0 {
        users := users + 1;
        return true;
      }
      return false;
    }

    method TryLockLocked() returns (ok: bool)
      requires Valid()
      modifies this
      ensures Valid() && nodes == old(nodes)
      ensures (Model(), ok) == TryLock(old(Model()))
      ensures Consistent(old(Model())) ==>
        Consistent(Model()) && (ok <==> old(head) == null && old(users) == 0 && old(mode) != LockedExclusive)
      ensures if ok then mode == LockedExclusive else Model() == old(Model())
    {
      if Consistent(Model()) { AttemptMeans(Model(), Req(0, true)); }
      if mode == Unlocked {
        mode := LockedExclusive;
        return true;
      }
      return false;
    }

    /** await_suspend: link the operation behind the tail. */
    method Suspend(w: Waiter)
      requires Valid() && w !in nodes && w.next == null
      modifies this, nodes
      ensures Valid() && nodes == old(nodes) + [w]
      ensures Model() == Enqueue(old(Model()), w.request)
    {
      if tail == null {
        head := w;
        tail := w;
      } else {
        tail.next := w;
        tail := w;
      }
      if w.request.exclusive {
        exclusiveWaiters := exclusiveWaiters + 1;
      }
      nodes := nodes + [w];
      assert Requests(nodes) == Requests(old(nodes)) + [w.request];
    }

    /** Unlink the head: common to both branches of wake_waiters. */
    method AdvanceHead() returns (w: Waiter)
      requires Valid() && head != null
      modifies this`head, this`tail, this`nodes
      ensures Valid() && old(nodes) != [] && w == old(nodes)[0] && nodes == old(nodes)[1..]
    {
      w := head;
      if w.next == null {
        head := null;
        tail := null;
      } else {
        head := w.next;
      }
      nodes := nodes[1..];
    }

    /** The scan of wake_waiters when the head is a reader: every reader up to the first writer. */
    method WakeReaders() returns (resumed: seq<Waiter>)
      requires Valid()
      modifies this
      ensures Valid() && old(nodes) == resumed + nodes
      ensures |resumed| == SharedFront(Requests(old(nodes)))
      ensures mode == LockedShared && users == old(users) + |resumed| && exclusiveWaiters == old(exclusiveWaiters)
    {
      ghost var was := nodes;
      mode := LockedShared;
      resumed := [];
      while head != null && !head.request.exclusive
        invariant Valid() && |resumed| <= |was| && resumed == was[..|resumed|] && nodes == was[|resumed|..]
        invariant mode == LockedShared && exclusiveWaiters == old(exclusiveWaiters) && users == old(users) + |resumed|
        invariant forall k :: 0 <= k < |resumed| ==> !was[k].request.exclusive
        decreases |nodes|
      {
        var w := AdvanceHead();
        users := users + 1;
        resumed := resumed + [w];
      }
      FrontIs(Requests(was), |resumed|);
    }

    method Wake() returns (resumed: seq<Waiter>)
      requires Valid() && head != null
      modifies this
      ensures Valid() && old(nodes) == resumed + nodes
      ensures old(Model().queue) != [] && Model() == WakeWaiters(old(Model()))
      ensures |resumed| == Woken(old(Model().queue))
    {
      if head.request.exclusive {
        mode := LockedExclusive;
        var w := AdvanceHead();
        exclusiveWaiters := exclusiveWaiters - 1;
        resumed := [w];
      } else {
        resumed := WakeReaders();
      }
      RequestsSplit(resumed, nodes);
    }

    method ReleaseShared() returns (resumed: seq<Waiter>)
      requires Valid()
      modifies this
      ensures Valid() && old(nodes) == resumed + nodes
      ensures Model() == UnlockShared(old(Model()))
    {
      users := users - 1;
      resumed := [];
      if users == 0 {
        if head != null {
          resumed := Wake();
        } else {
          mode := Unlocked;
        }
      }
    }

    method ReleaseExclusive() returns (resumed: seq<Waiter>)
      requires Valid()
      modifies this
      ensures Valid() && old(nodes) == resumed + nodes
      ensures Model() == Unlock(old(Model()))
    {
      resumed := [];
      if head != null {
        resumed := Wake();
      } else {
        mode := Unlocked;
      }
    }
  }
}
