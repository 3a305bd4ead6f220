/**
 * `coro::mutex` as a step machine: one step per atomic access of src/mutex.cpp and of the
 * list pop it calls, any number of tasks, every interleaving, every spurious failure of a
 * weak compare-exchange.
 *
 * Task `i` always uses lock operation `i`, so a node that has been popped is pushed again
 * later with another successor: the situation in which a compare-exchange on a list head
 * could be fooled by a recycled address.
 */
module MutexMachine {
  import opened Prelude

  type Id = nat

  /** `m_state`, and every pointer copied from it: the unlocked value, nullptr, or a node. */
  datatype Word = Unlocked | Null | At(op: Id)

  /** Where a task stands between two atomic accesses. */
  datatype Pc =
    | Idle
    | SuspendLoad                          // await_suspend, before its load
    | Suspend(current: Word)               // head of the do loop in await_suspend
    | Link(current: Word)                  // m_next written, before the pushing exchange
    | Waiting                              // enlisted
    | Owner                                // inside the critical section
    | Unlock(current: Word)                // head of the do loop in unlock
    | PopLoad                              // waiters seen, before the load of the list pop
    | Pop(waiter: Word)                    // head of the do loop in the list pop
    | PopExchange(popped: Id, successor: Word) // m_next read, before the popping exchange
    | Resume(granted: Id)                  // node popped, before its coroutine is resumed
    | Granted                              // popped by the previous owner, not yet running
    | Crashed                              // threw, or dereferenced a pointer to no node

  datatype State = State(word: Word, next: seq<Word>, pc: seq<Pc>)

  /**
   * One scheduler decision: task `id` performs its next access. `alt` makes a weak
   * compare-exchange fail spuriously; for an idle task it picks `try_lock` over `lock`.
   */
  datatype Move = Move(id: Id, alt: bool)

  /** What the outside can observe of a move. */
  datatype Event = Acquired(id: Id) | Enlisted(id: Id) | Handed(id: Id) | Released | Silent

  ghost predicate Init(s: State) {
    && s.word == Unlocked
    && |s.next| == |s.pc|
    && forall i :: 0 <= i < |s.pc| ==> s.pc[i] == Idle
  }

  function Goto(s: State, i: Id, pc: Pc): (t: State)
    requires i < |s.pc|
  {
    s.(pc := s.pc[i := pc])
  }

  function Step(s: State, m: Move): (t: State)
    requires m.id < |s.pc| && |s.next| == |s.pc|
  {
    var i := m.id;
    match s.pc[i]
    case Idle =>
      if s.word.Unlocked? then Goto(s.(word := Null), i, Owner)
      else if m.alt then s
      else Goto(s, i, SuspendLoad)
    case SuspendLoad => Goto(s, i, Suspend(s.word))
    case Suspend(current) =>
      if !current.Unlocked? then Goto(s.(next := s.next[i := current]), i, Link(current))
      else if s.word == current && !m.alt then Goto(s.(word := Null), i, Owner)
      else Goto(s, i, Suspend(s.word))
    case Link(current) =>
      if s.word == current && !m.alt then Goto(s.(word := At(i)), i, Waiting)
      else Goto(s, i, Suspend(s.word))
    case Waiting => s
    case Owner => Goto(s, i, Unlock(s.word))
    case Unlock(current) =>
      if current.Unlocked? then Goto(s, i, Crashed)
      else if current.At? then Goto(s, i, PopLoad)
      else if s.word == current && !m.alt then Goto(s.(word := Unlocked), i, Idle)
      else Goto(s, i, Unlock(s.word))
    case PopLoad => Goto(s, i, Pop(s.word))
    case Pop(waiter) =>
      if waiter.At? && waiter.op < |s.next| then Goto(s, i, PopExchange(waiter.op, s.next[waiter.op]))
      else Goto(s, i, Crashed)
    case PopExchange(w, successor) =>
      if w >= |s.pc| then Goto(s, i, Crashed)
      else if s.word == At(w) && !m.alt then Goto(Goto(s.(word := successor), i, Resume(w)), w, Granted)
      else Goto(s, i, Pop(s.word))
    case Resume(w) =>
      if w >= |s.pc| then Goto(s, i, Crashed)
      else Goto(Goto(s, i, Idle), w, Owner)
    case Granted => s
    case Crashed => s
  }

  function EventOf(s: State, m: Move): (e: Event)
    requires m.id < |s.pc| && |s.next| == |s.pc|
  {
    match s.pc[m.id]
    case Idle => if s.word.Unlocked? then Acquired(m.id) else Silent
    case Suspend(current) => if current.Unlocked? && s.word == current && !m.alt then Acquired(m.id) else Silent
    case Link(current) => if s.word == current && !m.alt then Enlisted(m.id) else Silent
    case Unlock(current) => if current.Null? && s.word == current && !m.alt then Released else Silent
    case PopExchange(w, _) => if w < |s.pc| && s.word == At(w) && !m.alt then Handed(w) else Silent
    case _ => Silent
  }

  // ----- the lock, as its users see it -----

  datatype Lock = Lock(owner: Option<Id>, waiters: seq<Id>)

  const FREE := Lock(None, [])

  /** The sequential lock: which events it allows, and what each one does. */
  ghost predicate Allows(v: Lock, e: Event) {
    match e
    case Acquired(_) => v.owner.None?
    case Enlisted(i) => v.owner.Some? && i !in v.waiters
    case Handed(w) => v.owner.Some? && v.waiters != [] && v.waiters[0] == w
    case Released => v.owner.Some? && v.waiters == []
    case Silent => true
  }

  function Advance(v: Lock, e: Event): (r: Lock) {
    match e
    case Acquired(i) => v.(owner := Some(i))
    case Enlisted(i) => v.(waiters := [i] + v.waiters)
    case Handed(w) => Lock(Some(w), if v.waiters == [] then [] else v.waiters[1..])
    case Released => v.(owner := None)
    case Silent => v
  }

  ghost predicate Accepts(v: Lock, es: seq<Event>)
    decreases |es|
  {
    es == [] || (Allows(v, es[0]) && Accepts(Advance(v, es[0]), es[1..]))
  }

  function Replay(v: Lock, es: seq<Event>): (r: Lock)
    decreases |es|
  {
    if es == [] then v else Replay(Advance(v, es[0]), es[1..])
  }

  // ----- the machine simulates it -----

  /** Task states that own the lock: an enlisted task owns it from the moment it is popped. */
  predicate Holds(pc: Pc) {
    pc.Owner? || pc.Unlock? || pc.PopLoad? || pc.Pop? || pc.PopExchange? || pc.Granted?
  }

  /** The pointer that leads to position `k` of `l`: nullptr at the end. */
  function PointerTo(l: seq<Id>, k: nat): (w: Word) {
    if k < |l| then At(l[k]) else Null
  }

  /** `l` is what following `m_next` from the word visits, front to back. */
  ghost predicate Chain(s: State, l: seq<Id>) {
    && s.word == (if s.word.Unlocked? && l == [] then Unlocked else PointerTo(l, 0))
    && (forall k :: 0 <= k < |l| ==> l[k] < |s.next|)
    && (forall k :: 0 <= k < |l| ==> s.next[l[k]] == PointerTo(l, k + 1))
    && Distinct(l)
  }

  ghost predicate Ownership(s: State, v: Lock) {
    && (s.word.Unlocked? <==> v.owner.None?)
    && (forall i :: 0 <= i < |s.pc| ==> (Holds(s.pc[i]) <==> v.owner == Some(i)))
    && (v.owner.Some? ==> v.owner.value < |s.pc|)
  }

  ghost predicate Enlistment(s: State, v: Lock) {
    forall i :: 0 <= i < |s.pc| ==> (s.pc[i].Waiting? <==> i in v.waiters)
  }

  /** `courier` is the one task, if any, that has popped the owner and must still resume it. */
  ghost predicate Delivery(s: State, v: Lock, courier: Option<Id>) {
    && (forall i :: 0 <= i < |s.pc| ==> (s.pc[i].Resume? <==> courier == Some(i)))
    && (forall i :: 0 <= i < |s.pc| ==> (s.pc[i].Granted? <==> courier.Some? && v.owner == Some(i)))
    && (courier.Some? ==> courier.value < |s.pc| && v.owner == Some(s.pc[courier.value].granted))
  }

  /** What a task's program counter remembers correctly about the list. */
  ghost predicate Knows(s: State, l: seq<Id>, i: Id)
    requires i < |s.pc| == |s.next|
  {
    match s.pc[i]
    case Link(current) => s.next[i] == current && !current.Unlocked?
    case Unlock(current) => !current.Unlocked? && (current.At? ==> l != [])
    case PopLoad => l != []
    case Pop(waiter) => waiter.At? && waiter.op in l && waiter.op < |s.next|
    case PopExchange(w, successor) => w in l && w < |s.next| && successor == s.next[w] && !successor.Unlocked?
    case Crashed => false
    case _ => true
  }

  ghost predicate Inv(s: State, v: Lock, courier: Option<Id>) {
    && |s.next| == |s.pc|
    && Chain(s, v.waiters)
    && Ownership(s, v)
    && Enlistment(s, v)
    && Delivery(s, v, courier)
    && (forall i :: 0 <= i < |s.pc| ==> Knows(s, v.waiters, i))
  }

  function CourierAfter(s: State, m: Move, courier: Option<Id>): (r: Option<Id>)
    requires m.id < |s.pc| && |s.next| == |s.pc|
  {
    if EventOf(s, m).Handed? then Some(m.id)
    else if s.pc[m.id].Resume? then None
    else courier
  }

  lemma StepAllowed(s: State, m: Move, v: Lock)
    requires m.id < |s.pc| == |s.next| && Chain(s, v.waiters) && Ownership(s, v) && Enlistment(s, v)
    requires Knows(s, v.waiters, m.id)
    ensures Allows(v, EventOf(s, m))
  {
  }

  lemma StepKeepsChain(s: State, m: Move, v: Lock)
    requires m.id < |s.pc| == |s.next| && Chain(s, v.waiters) && Enlistment(s, v) && Knows(s, v.waiters, m.id)
    requires Allows(v, EventOf(s, m))
    ensures Chain(Step(s, m), Advance(v, EventOf(s, m)).waiters)
  {
    match EventOf(s, m)
    case Enlisted(_) => PushKeepsChain(s, m, v);
    case Handed(_) => PopKeepsChain(s, m, v);
    case _ =>
  }

  lemma PushKeepsChain(s: State, m: Move, v: Lock)
    requires m.id < |s.pc| == |s.next| && Chain(s, v.waiters) && Enlistment(s, v) && Knows(s, v.waiters, m.id)
    requires EventOf(s, m).Enlisted? && Allows(v, EventOf(s, m))
    ensures Chain(Step(s, m), Advance(v, EventOf(s, m)).waiters)
  {
    var l, r := v.waiters, Advance(v, EventOf(s, m)).waiters;
    assert r[0] == m.id && forall k :: 0 < k < |r| ==> r[k] == l[k - 1];
  }

  lemma PopKeepsChain(s: State, m: Move, v: Lock)
    requires m.id < |s.pc| == |s.next| && Chain(s, v.waiters) && Enlistment(s, v) && Knows(s, v.waiters, m.id)
    requires EventOf(s, m).Handed? && Allows(v, EventOf(s, m))
    ensures Chain(Step(s, m), Advance(v, EventOf(s, m)).waiters)
  {
    var l, r := v.waiters, Advance(v, EventOf(s, m)).waiters;
    assert forall k :: 0 <= k < |r| ==> r[k] == l[k + 1];
  }

  lemma StepKeepsOwnership(s: State, m: Move, v: Lock, courier: Option<Id>)
    requires m.id < |s.pc| == |s.next| && Ownership(s, v) && Enlistment(s, v) && Delivery(s, v, courier)
    requires Knows(s, v.waiters, m.id)
    ensures Ownership(Step(s, m), Advance(v, EventOf(s, m)))
  {
    match s.pc[m.id]
    case PopExchange(w, _) => assert s.pc[w].Waiting?;
    case _ =>
  }

  lemma StepKeepsDelivery(s: State, m: Move, v: Lock, courier: Option<Id>)
    requires m.id < |s.pc| == |s.next| && Ownership(s, v) && Enlistment(s, v) && Delivery(s, v, courier)
    requires Knows(s, v.waiters, m.id)
    ensures Delivery(Step(s, m), Advance(v, EventOf(s, m)), CourierAfter(s, m, courier))
  {
    match s.pc[m.id]
    case PopExchange(w, _) => assert s.pc[w].Waiting?;
    case _ =>
  }

  lemma StepKeepsEnlistment(s: State, m: Move, v: Lock, courier: Option<Id>)
    requires m.id < |s.pc| == |s.next| && Ownership(s, v) && Enlistment(s, v) && Delivery(s, v, courier)
    requires Distinct(v.waiters) && Knows(s, v.waiters, m.id) && Allows(v, EventOf(s, m))
    ensures Enlistment(Step(s, m), Advance(v, EventOf(s, m)))
  {
    match EventOf(s, m)
    case Enlisted(_) =>
    case Handed(w) => TailMembers(v.waiters);
    case _ => assert forall i :: 0 <= i < |s.pc| ==> s.pc[i].Waiting? == Step(s, m).pc[i].Waiting?;
  }

  lemma StepTeaches(s: State, m: Move, v: Lock, courier: Option<Id>)
    requires m.id < |s.pc| == |s.next| && Chain(s, v.waiters) && Ownership(s, v) && Enlistment(s, v)
    requires Delivery(s, v, courier) && Knows(s, v.waiters, m.id)
    ensures Knows(Step(s, m), Advance(v, EventOf(s, m)).waiters, m.id)
  {
    match s.pc[m.id]
    case PopExchange(w, _) => assert s.pc[w].Waiting?;
    case _ =>
  }

  lemma OthersStillKnow(s: State, m: Move, v: Lock, courier: Option<Id>, i: Id)
    requires m.id < |s.pc| == |s.next| && i < |s.pc| && i != m.id && Chain(s, v.waiters) && Ownership(s, v)
    requires Enlistment(s, v) && Delivery(s, v, courier) && Knows(s, v.waiters, m.id) && Knows(s, v.waiters, i)
    ensures Knows(Step(s, m), Advance(v, EventOf(s, m)).waiters, i)
  {
    if EventOf(s, m).Handed? {
      assert !Holds(s.pc[i]);
    }
  }

  lemma StepSimulates(s: State, m: Move, v: Lock, courier: Option<Id>)
    requires Inv(s, v, courier) && m.id < |s.pc|
    ensures Allows(v, EventOf(s, m))
    ensures Inv(Step(s, m), Advance(v, EventOf(s, m)), CourierAfter(s, m, courier))
  {
    assert Knows(s, v.waiters, m.id);
    StepAllowed(s, m, v);
    StepKeepsChain(s, m, v);
    StepKeepsOwnership(s, m, v, courier);
    StepKeepsDelivery(s, m, v, courier);
    StepKeepsEnlistment(s, m, v, courier);
    forall i | 0 <= i < |s.pc|
      ensures Knows(Step(s, m), Advance(v, EventOf(s, m)).waiters, i)
    {
      assert Knows(s, v.waiters, i);
      if i == m.id { StepTeaches(s, m, v, courier); } else { OthersStillKnow(s, m, v, courier, i); }
    }
  }

  // ----- whole runs -----

  ghost predicate Legal(s: State, ms: seq<Move>) {
    |s.next| == |s.pc| && forall k :: 0 <= k < |ms| ==> ms[k].id < |s.pc|
  }

  function Exec(s: State, ms: seq<Move>): (t: State)
    requires Legal(s, ms)
    ensures |t.pc| == |s.pc| && |t.next| == |s.next|
    decreases |ms|
  {
    if ms == [] then s else Exec(Step(s, ms[0]), ms[1..])
  }

  function Trace(s: State, ms: seq<Move>): (es: seq<Event>)
    requires Legal(s, ms)
    decreases |ms|
  {
    if ms == [] then [] else [EventOf(s, ms[0])] + Trace(Step(s, ms[0]), ms[1..])
  }

  lemma {:induction false} RunSimulates(s: State, ms: seq<Move>, v: Lock, courier: Option<Id>) returns (last: Option<Id>)
    requires Legal(s, ms) && Inv(s, v, courier)
    ensures Accepts(v, Trace(s, ms))
    ensures Inv(Exec(s, ms), Replay(v, Trace(s, ms)), last)
    decreases |ms|
  {
    last := courier;
    if ms != [] {
      StepSimulates(s, ms[0], v, courier);
      last := RunSimulates(Step(s, ms[0]), ms[1..], Advance(v, EventOf(s, ms[0])), CourierAfter(s, ms[0], courier));
      assert Trace(s, ms)[1..] == Trace(Step(s, ms[0]), ms[1..]);
    }
  }

  lemma Reached(s: State, ms: seq<Move>) returns (v: Lock, courier: Option<Id>)
    requires Init(s) && Legal(s, ms)
    ensures v == Replay(FREE, Trace(s, ms)) && Inv(Exec(s, ms), v, courier)
  {
    v := Replay(FREE, Trace(s, ms));
    courier := RunSimulates(s, ms, FREE, None);
  }

  /** Every interleaving is a history of the sequential lock with its newest-first waiters. */
  lemma RunsAreLockHistories(s: State, ms: seq<Move>)
    requires Init(s) && Legal(s, ms)
    ensures Accepts(FREE, Trace(s, ms))
  {
    var _ := RunSimulates(s, ms, FREE, None);
  }

  /**
   * Safety over every run: one owner at most, the word says unlocked exactly when nobody
   * owns the lock, no task ever throws or follows a bad pointer, and the pointers always
   * form one finite list of exactly the suspended tasks.
   */
  lemma MutualExclusion(s: State, ms: seq<Move>)
    requires Init(s) && Legal(s, ms)
    ensures var t := Exec(s, ms);
      && (forall i, j :: 0 <= i < |t.pc| && 0 <= j < |t.pc| && Holds(t.pc[i]) && Holds(t.pc[j]) ==> i == j)
      && (t.word.Unlocked? <==> forall i :: 0 <= i < |t.pc| ==> !Holds(t.pc[i]))
      && (forall i :: 0 <= i < |t.pc| ==> !t.pc[i].Crashed?)
      && (exists l :: Chain(t, l) && forall i :: 0 <= i < |t.pc| ==> (t.pc[i].Waiting? <==> i in l))
  {
    var v, courier := Reached(s, ms);
    var t := Exec(s, ms);
    assert Chain(t, v.waiters);
    forall i | 0 <= i < |t.pc|
      ensures !t.pc[i].Crashed?
    {
      assert Knows(t, v.waiters, i);
    }
    assert v.owner.Some? ==> Holds(t.pc[v.owner.value]);
  }

  /** Ownership changes hands at the exchanges that say so, and at no other access. */
  lemma OwnershipPasses(s: State, ms: seq<Move>, m: Move, i: Id)
    requires Init(s) && Legal(s, ms) && m.id < |s.pc| && i < |s.pc|
    ensures var t := Exec(s, ms);
      Holds(Step(t, m).pc[i]) <==>
        match EventOf(t, m)
        case Acquired(j) => i == j
        case Handed(w) => i == w
        case Released => false
        case _ => Holds(t.pc[i])
  {
    var v, courier := Reached(s, ms);
    StepSimulates(Exec(s, ms), m, v, courier);
  }

  // ----- the list is immune to recycled nodes -----

  lemma {:induction false} ChainUnique(s: State, l: seq<Id>, r: seq<Id>, k: nat)
    requires Chain(s, l) && Chain(s, r) && k <= |l|
    ensures k <= |r| && l[..k] == r[..k] && PointerTo(l, k) == PointerTo(r, k)
  {
    if k > 0 {
      ChainUnique(s, l, r, k - 1);
      assert l[..k] == l[..k - 1] + [l[k - 1]] && r[..k] == r[..k - 1] + [r[k - 1]];
    }
  }

  lemma ReachedList(s: State, ms: seq<Move>, l: seq<Id>) returns (v: Lock, courier: Option<Id>)
    requires Init(s) && Legal(s, ms) && Chain(Exec(s, ms), l)
    ensures v.waiters == l && Inv(Exec(s, ms), v, courier)
  {
    v, courier := Reached(s, ms);
    ChainUnique(Exec(s, ms), l, v.waiters, |l|);
  }

  /**
   * A successful pop installs the popped node's true successor and a successful push links
   * to the true head, even though nodes are reused: read as a list, every move pushes its
   * own node, pops the front node, or changes nothing.
   */
  lemma ListMoves(s: State, ms: seq<Move>, m: Move, l: seq<Id>)
    requires Init(s) && Legal(s, ms) && m.id < |s.pc| && Chain(Exec(s, ms), l)
    ensures var t := Exec(s, ms);
      match EventOf(t, m)
      case Enlisted(i) => i !in l && Chain(Step(t, m), [i] + l)
      case Handed(w) => l != [] && l[0] == w && Chain(Step(t, m), l[1..])
      case Released => l == [] && Chain(Step(t, m), [])
      case _ => Chain(Step(t, m), l)
  {
    var v, courier := ReachedList(s, ms, l);
    StepSimulates(Exec(s, ms), m, v, courier);
  }

  // ----- every enlisted task is granted exactly once -----

  lemma {:induction false} HistoryBalances(v: Lock, es: seq<Event>, i: Id)
    requires Accepts(v, es) && Distinct(v.waiters)
    ensures One(i in v.waiters) + Count(es, Enlisted(i)) == Count(es, Handed(i)) + One(i in Replay(v, es).waiters)
    decreases |es|
  {
    if es != [] {
      if v.waiters != [] { TailMembers(v.waiters); }
      HistoryBalances(Advance(v, es[0]), es[1..], i);
    }
  }

  /** Over every run a task is handed the lock once per enlistment, less the one pending. */
  lemma GrantedExactlyOnce(s: State, ms: seq<Move>, i: Id)
    requires Init(s) && Legal(s, ms) && i < |s.pc|
    ensures Count(Trace(s, ms), Enlisted(i)) == Count(Trace(s, ms), Handed(i)) + One(Exec(s, ms).pc[i].Waiting?)
  {
    RunsAreLockHistories(s, ms);
    HistoryBalances(FREE, Trace(s, ms), i);
    var v, courier := Reached(s, ms);
  }

  function Handovers(es: seq<Event>): (ids: seq<Id>) {
    if es == [] then []
    else (if es[0].Handed? then [es[0].id] else []) + Handovers(es[1..])
  }

  /** Completed calls of unlock: each either hands the lock on or releases it. */
  function Unlocks(es: seq<Event>): (n: nat) {
    if es == [] then 0
    else One(es[0].Handed? || es[0].Released?) + Unlocks(es[1..])
  }

  ghost predicate NoArrival(es: seq<Event>) {
    forall k :: 0 <= k < |es| ==> !es[k].Enlisted?
  }

  lemma {:induction false} WaitersDrain(v: Lock, es: seq<Event>)
    requires Accepts(v, es) && NoArrival(es)
    ensures Handovers(es) + Replay(v, es).waiters == v.waiters
    ensures Unlocks(es) >= |v.waiters| ==> Replay(v, es).waiters == []
    decreases |es|
  {
    if es != [] {
      assert !es[0].Enlisted?;
      WaitersDrain(Advance(v, es[0]), es[1..]);
    }
  }

  /**
   * With `|l|` tasks waiting and none arriving, `|l|` completed unlocks hand the lock to
   * every one of them, once each, in list order (newest first).
   */
  lemma AllGrantedWithinK(s: State, before: seq<Move>, after: seq<Move>, l: seq<Id>)
    requires Init(s) && Legal(s, before) && Legal(s, after) && Chain(Exec(s, before), l)
    requires NoArrival(Trace(Exec(s, before), after)) && Unlocks(Trace(Exec(s, before), after)) >= |l|
    ensures Handovers(Trace(Exec(s, before), after)) == l
  {
    var v, courier := ReachedList(s, before, l);
    var _ := RunSimulates(Exec(s, before), after, v, courier);
    WaitersDrain(v, Trace(Exec(s, before), after));
  }
}
