/**
 * The coroutines around a `coro::ring_buffer` (include/coro/ring_buffer.hpp): where each one
 * stands, and which waiter list holds it while it is suspended.
 */
module RingCrowd {
  import opened Prelude

  type Id = nat

  datatype Run = Running | Draining | Stopped

  datatype Produce = Produced | ProduceNotified | ProduceStopped
  datatype Consume = ConsumeNotified | ConsumeStopped

  /** Why a walk over a taken waiter list resumes its coroutines. */
  datatype Cause = Notified | Stopping | DrainBegun

  datatype Pc<T> =
    | Idle
    | ProducerWaits(e: T, stored: bool)                    // suspended in produce
    | ConsumerWaits(got: Option<T>)                        // suspended in consume
    | WakeConsumers(produce: Produce)                      // head of the loop in try_resume_consumers
    | HandConsumer(consumer: Id, produce: Produce)         // it popped a consumer, before resuming it
    | WakeProducers(got: Option<T>, consume: Consume)      // head of the loop in try_resume_producers
    | HandProducer(producer: Id, got: Option<T>, consume: Consume)
    | NotifyProducers                                      // state checked, before the lock
    | NotifyConsumers
    | Walk(todo: seq<Id>, cause: Cause)                    // resuming a taken list
    | StopLoad                                             // shutdown, before its load
    | StopExchange(expected: Run)                          // shutdown, before its first section
    | Sweep                                                // shutdown, before its second section
    | DrainEmpty                                           // drain loop, before empty()
    | DrainState                                           // drain loop, before the state load

  /** Which list a suspended coroutine is on: one of the buffer's two, or the one task `t` is resuming. */
  datatype Place = Nowhere | InProducers | InConsumers | With(t: Id)

  /** The two waiter lists, newest first. `place` is bookkeeping for the proofs: no step depends on it. */
  datatype Crowd<T> = Crowd(producers: seq<Id>, consumers: seq<Id>, pc: seq<Pc<T>>, place: seq<Place>)

  predicate Suspended<T>(pc: Pc<T>) {
    pc.ProducerWaits? || pc.ConsumerWaits?
  }

  /** Suspended with nothing done for it yet. */
  predicate Unserved<T>(pc: Pc<T>) {
    (pc.ProducerWaits? && !pc.stored) || (pc.ConsumerWaits? && pc.got.None?)
  }

  /** The tasks a task has taken off a list and not yet resumed. */
  function Held<T>(pc: Pc<T>): (ids: seq<Id>) {
    match pc
    case HandConsumer(c, _) => [c]
    case HandProducer(p, _, _) => [p]
    case Walk(todo, _) => todo
    case _ => []
  }

  // ----- the invariant -----

  /** `ids` names, once each, exactly the tasks that `place` puts at `p`. */
  ghost predicate Roster(ids: seq<Id>, place: seq<Place>, p: Place) {
    && Distinct(ids)
    && (forall k :: 0 <= k < |ids| ==> ids[k] < |place|)
    && (forall i :: 0 <= i < |place| ==> (i in ids <==> place[i] == p))
  }

  ghost predicate Kind<T>(pc: Pc<T>, place: Place) {
    match place
    case Nowhere => !Suspended(pc)
    case InProducers => pc.ProducerWaits? && !pc.stored
    case InConsumers => pc.ConsumerWaits? && pc.got.None?
    case With(_) => Suspended(pc)
  }

  ghost predicate Kinds<T>(c: Crowd<T>) {
    |c.place| == |c.pc| && forall i :: 0 <= i < |c.pc| ==> Kind(c.pc[i], c.place[i])
  }

  /** What a task that holds others has done for them. */
  ghost predicate Served<T>(all: seq<Pc<T>>, pc: Pc<T>) {
    match pc
    case HandConsumer(i, _) => i < |all| && all[i].ConsumerWaits?
    case HandProducer(i, _, _) => i < |all| && all[i].ProducerWaits? && all[i].stored
    case Walk(todo, cause) =>
      forall k :: 0 <= k < |todo| ==>
        todo[k] < |all| && Unserved(all[todo[k]]) && (cause.DrainBegun? ==> all[todo[k]].ProducerWaits?)
    case _ => true
  }

  ghost predicate Holder<T>(c: Crowd<T>, t: Id)
    requires t < |c.pc|
  {
    Roster(Held(c.pc[t]), c.place, With(t)) && Served(c.pc, c.pc[t])
  }

  ghost predicate Ordered<T>(c: Crowd<T>) {
    && Roster(c.producers, c.place, InProducers)
    && Roster(c.consumers, c.place, InConsumers)
    && Kinds(c)
    && (forall t :: 0 <= t < |c.pc| ==> Holder(c, t))
  }

  // ----- the ways a step moves coroutines about -----

  /** Task `i` goes on by itself. */
  function Proceed<T>(c: Crowd<T>, i: Id, pc: Pc<T>): (r: Crowd<T>)
    requires i < |c.pc|
  {
    c.(pc := c.pc[i := pc])
  }

  function SuspendProducer<T>(c: Crowd<T>, i: Id, e: T): (r: Crowd<T>)
    requires i < |c.pc| == |c.place|
  {
    Crowd([i] + c.producers, c.consumers, c.pc[i := ProducerWaits(e, false)], c.place[i := InProducers])
  }

  function SuspendConsumer<T>(c: Crowd<T>, i: Id): (r: Crowd<T>)
    requires i < |c.pc| == |c.place|
  {
    Crowd(c.producers, [i] + c.consumers, c.pc[i := ConsumerWaits(None)], c.place[i := InConsumers])
  }

  /** Task `i` pops the newest waiting consumer and puts `got` into its operation. */
  function PopConsumer<T>(c: Crowd<T>, i: Id, got: Option<T>, r: Produce): (d: Crowd<T>)
    requires i < |c.pc| == |c.place| && c.consumers != [] && c.consumers[0] < |c.pc|
  {
    var w := c.consumers[0];
    Crowd(c.producers, c.consumers[1..], c.pc[w := ConsumerWaits(got)][i := HandConsumer(w, r)], c.place[w := With(i)])
  }

  /** Task `i` pops the newest waiting producer, whose element `e` has been stored. */
  function PopProducer<T>(c: Crowd<T>, i: Id, e: T, got: Option<T>, r: Consume): (d: Crowd<T>)
    requires i < |c.pc| == |c.place| && c.producers != [] && c.producers[0] < |c.pc|
  {
    var w := c.producers[0];
    Crowd(c.producers[1..], c.consumers, c.pc[w := ProducerWaits(e, true)][i := HandProducer(w, got, r)], c.place[w := With(i)])
  }

  /** Task `i` resumes the first task it holds, `w`, and goes on itself. */
  function Resume<T>(c: Crowd<T>, i: Id, w: Id, woken: Pc<T>, pc: Pc<T>): (d: Crowd<T>)
    requires i < |c.pc| == |c.place| && w < |c.pc|
  {
    c.(pc := c.pc[w := woken][i := pc], place := c.place[w := Nowhere])
  }

  function Claim(place: seq<Place>, ids: seq<Id>, t: Id): (r: seq<Place>)
    ensures |r| == |place|
    ensures forall i :: 0 <= i < |place| ==> r[i] == if i in ids then With(t) else place[i]
  {
    seq(|place|, i requires 0 <= i < |place| => if i in ids then With(t) else place[i])
  }

  function TakeProducers<T>(c: Crowd<T>, i: Id, cause: Cause): (d: Crowd<T>)
    requires i < |c.pc|
  {
    Crowd([], c.consumers, c.pc[i := Walk(c.producers, cause)], Claim(c.place, c.producers, i))
  }

  function TakeConsumers<T>(c: Crowd<T>, i: Id, cause: Cause): (d: Crowd<T>)
    requires i < |c.pc|
  {
    Crowd(c.producers, [], c.pc[i := Walk(c.consumers, cause)], Claim(c.place, c.consumers, i))
  }

  function TakeAll<T>(c: Crowd<T>, i: Id, cause: Cause): (d: Crowd<T>)
    requires i < |c.pc|
  {
    Crowd([], [], c.pc[i := Walk(c.producers + c.consumers, cause)], Claim(c.place, c.producers + c.consumers, i))
  }

  // ----- each of them keeps the invariant -----

  lemma HolderKept<T>(c: Crowd<T>, d: Crowd<T>, t: Id)
    requires t < |c.pc| == |d.pc| && Holder(c, t) && c.pc[t] == d.pc[t] && |c.place| == |d.place| == |c.pc|
    requires forall k :: 0 <= k < |c.pc| ==> (c.place[k] == With(t) <==> d.place[k] == With(t))
    requires forall k :: 0 <= k < |c.pc| && c.place[k] == With(t) ==> c.pc[k] == d.pc[k]
    ensures Holder(d, t)
  {
    var ids := Held(c.pc[t]);
    assert forall k :: 0 <= k < |ids| ==> c.place[ids[k]] == With(t);
    match c.pc[t]
    case HandConsumer(i, _) => assert ids[0] == i;
    case HandProducer(i, _, _) => assert ids[0] == i;
    case _ =>
  }

  /** Everyone but `i` keeps holding whom it held. */
  lemma OthersKept<T>(c: Crowd<T>, d: Crowd<T>, i: Id)
    requires i < |c.pc| == |d.pc| && |c.place| == |d.place| == |c.pc|
    requires forall t :: 0 <= t < |c.pc| && t != i ==> Holder(c, t)
    requires forall k :: 0 <= k < |c.pc| ==>
      && (c.place[k] == d.place[k] || ((!c.place[k].With? || c.place[k] == With(i)) && (!d.place[k].With? || d.place[k] == With(i))))
      && (c.place[k].With? && c.place[k] != With(i) ==> c.pc[k] == d.pc[k])
    requires forall k :: 0 <= k < |c.pc| && k != i && c.pc[k] != d.pc[k] ==> Held(c.pc[k]) == [] && Held(d.pc[k]) == []
    requires forall k :: 0 <= k < |c.pc| && k != i && c.pc[k] != d.pc[k] ==> Served(d.pc, d.pc[k])
    ensures forall t :: 0 <= t < |c.pc| && t != i ==> Holder(d, t)
  {
    forall t | 0 <= t < |c.pc| && t != i
      ensures Holder(d, t)
    {
      assert Holder(c, t);
      if c.pc[t] == d.pc[t] {
        HolderKept(c, d, t);
      } else {
        assert forall k :: 0 <= k < |c.pc| ==> (k in Held(c.pc[t]) <==> c.place[k] == With(t));
      }
    }
  }

  lemma ProceedOrdered<T>(c: Crowd<T>, i: Id, pc: Pc<T>)
    requires Ordered(c) && i < |c.pc| && !Suspended(c.pc[i]) && !Suspended(pc)
    requires Held(c.pc[i]) == [] == Held(pc)
    ensures Ordered(Proceed(c, i, pc))
  {
    assert Holder(c, i);
    assert Served(c.pc, pc);
    OthersKept(c, Proceed(c, i, pc), i);
  }

  lemma SuspendProducerOrdered<T>(c: Crowd<T>, i: Id, e: T)
    requires Ordered(c) && i < |c.pc| && !Suspended(c.pc[i]) && Held(c.pc[i]) == []
    ensures Ordered(SuspendProducer(c, i, e))
  {
    assert Holder(c, i);
    OthersKept(c, SuspendProducer(c, i, e), i);
  }

  lemma SuspendConsumerOrdered<T>(c: Crowd<T>, i: Id)
    requires Ordered(c) && i < |c.pc| && !Suspended(c.pc[i]) && Held(c.pc[i]) == []
    ensures Ordered(SuspendConsumer(c, i))
  {
    assert Holder(c, i);
    OthersKept(c, SuspendConsumer(c, i), i);
  }

  lemma PopConsumerOrdered<T>(c: Crowd<T>, i: Id, got: Option<T>, r: Produce)
    requires Ordered(c) && i < |c.pc| && !Suspended(c.pc[i]) && Held(c.pc[i]) == [] && c.consumers != []
    ensures c.consumers[0] < |c.pc| && c.consumers[0] != i && Ordered(PopConsumer(c, i, got, r))
  {
    var w := c.consumers[0];
    assert c.place[w] == InConsumers;
    TailMembers(c.consumers);
    assert Holder(c, i) && Holder(c, w);
    var d := PopConsumer(c, i, got, r);
    OthersKept(c, d, i);
    assert Roster([w], d.place, With(i));
    assert Holder(d, i);
  }

  lemma PopProducerOrdered<T>(c: Crowd<T>, i: Id, e: T, got: Option<T>, r: Consume)
    requires Ordered(c) && i < |c.pc| && !Suspended(c.pc[i]) && Held(c.pc[i]) == [] && c.producers != []
    ensures c.producers[0] < |c.pc| && c.producers[0] != i && Ordered(PopProducer(c, i, e, got, r))
    ensures c.pc[c.producers[0]].ProducerWaits?
  {
    var w := c.producers[0];
    assert c.place[w] == InProducers;
    TailMembers(c.producers);
    assert Holder(c, i) && Holder(c, w);
    var d := PopProducer(c, i, e, got, r);
    OthersKept(c, d, i);
    assert Holder(d, i) by { assert Roster([w], d.place, With(i)); }
  }

  lemma HeldSuspended<T>(c: Crowd<T>, i: Id)
    requires Ordered(c) && i < |c.pc| && Held(c.pc[i]) != []
    ensures var w := Held(c.pc[i])[0]; w < |c.pc| && w != i && c.place[w] == With(i) && Suspended(c.pc[w])
    ensures Served(c.pc, c.pc[i]) && !Suspended(c.pc[i])
  {
    assert Holder(c, i);
    assert Held(c.pc[i])[0] in Held(c.pc[i]);
  }

  lemma ResumeOrdered<T>(c: Crowd<T>, i: Id, woken: Pc<T>, pc: Pc<T>)
    requires Ordered(c) && i < |c.pc| && Held(c.pc[i]) != [] && Held(pc) == Held(c.pc[i])[1..]
    requires !Suspended(woken) && Held(woken) == [] && !Suspended(pc)
    requires c.pc[i].Walk? ==> pc.Walk? && pc.cause == c.pc[i].cause
    requires !c.pc[i].Walk? ==> Held(pc) == [] && !pc.Walk?
    ensures var w := Held(c.pc[i])[0]; w < |c.pc| && w != i && Ordered(Resume(c, i, w, woken, pc))
  {
    var ids := Held(c.pc[i]);
    var w := ids[0];
    HeldSuspended(c, i);
    TailMembers(ids);
    assert Holder(c, w) && Holder(c, i);
    var d := Resume(c, i, w, woken, pc);
    OthersKept(c, d, i);
    assert Holder(d, i) by {
      forall k | 0 <= k < |ids[1..]|
        ensures ids[1..][k] == ids[k + 1] && ids[1..][k] != w && ids[1..][k] != i
      {
        assert ids[k + 1] in ids;
      }
    }
  }

  lemma TakeOrdered<T>(c: Crowd<T>, i: Id, cause: Cause, ids: seq<Id>, d: Crowd<T>)
    requires Ordered(c) && i < |c.pc| && !Suspended(c.pc[i]) && Held(c.pc[i]) == []
    requires d.pc == c.pc[i := Walk(ids, cause)] && d.place == Claim(c.place, ids, i)
    requires Distinct(ids) && forall k :: 0 <= k < |ids| ==> ids[k] < |c.pc| && (c.place[ids[k]].InProducers? || c.place[ids[k]].InConsumers?)
    requires cause.DrainBegun? ==> forall k :: 0 <= k < |ids| ==> c.place[ids[k]].InProducers?
    requires Roster(d.producers, d.place, InProducers) && Roster(d.consumers, d.place, InConsumers)
    ensures Ordered(d)
  {
    assert Holder(c, i);
    assert forall k :: 0 <= k < |c.pc| ==> (k in Held(c.pc[i]) <==> c.place[k] == With(i));
    OthersKept(c, d, i);
    assert Holder(d, i);
  }

  lemma TakeProducersOrdered<T>(c: Crowd<T>, i: Id, cause: Cause)
    requires Ordered(c) && i < |c.pc| && !Suspended(c.pc[i]) && Held(c.pc[i]) == []
    ensures Ordered(TakeProducers(c, i, cause))
  {
    assert forall k :: 0 <= k < |c.producers| ==> c.producers[k] in c.producers;
    TakeOrdered(c, i, cause, c.producers, TakeProducers(c, i, cause));
  }

  lemma TakeConsumersOrdered<T>(c: Crowd<T>, i: Id, cause: Cause)
    requires Ordered(c) && i < |c.pc| && !Suspended(c.pc[i]) && Held(c.pc[i]) == [] && !cause.DrainBegun?
    ensures Ordered(TakeConsumers(c, i, cause))
  {
    assert forall k :: 0 <= k < |c.consumers| ==> c.consumers[k] in c.consumers;
    TakeOrdered(c, i, cause, c.consumers, TakeConsumers(c, i, cause));
  }

  lemma TakeAllOrdered<T>(c: Crowd<T>, i: Id, cause: Cause)
    requires Ordered(c) && i < |c.pc| && !Suspended(c.pc[i]) && Held(c.pc[i]) == [] && !cause.DrainBegun?
    ensures Ordered(TakeAll(c, i, cause))
  {
    var ids := c.producers + c.consumers;
    assert forall k :: 0 <= k < |c.producers| ==> c.producers[k] in c.producers && c.place[c.producers[k]] == InProducers;
    assert forall k :: 0 <= k < |c.consumers| ==> c.consumers[k] in c.consumers && c.place[c.consumers[k]] == InConsumers;
    assert forall x :: x in ids <==> x in c.producers || x in c.consumers;
    TakeOrdered(c, i, cause, ids, TakeAll(c, i, cause));
  }
}

/**
 * `coro::ring_buffer` as a step machine over any number of coroutines. A section guarded by
 * the internal mutex is one step, an unguarded load is one step, and so is each iteration
 * of a wake-up loop. Resuming a coroutine makes it runnable: what it still has to do
 * afterwards interleaves with everyone.
 */
module RingProtocol {
  import opened Prelude
  import opened RingStorage
  import opened RingCrowd

  /** `calls`: what each task called last. */
  datatype State<T> = State(buf: Buf<T>, run: Run, crowd: Crowd<T>, calls: seq<Call<T>>)

  /** What an idle task calls next. */
  datatype Call<T> =
    DoProduce(e: T) | DoConsume | DoNotifyProducers | DoNotifyConsumers | DoShutdown | DoShutdownDrain

  datatype Move<T> = Move(id: Id, call: Call<T>)

  /** What happened in one step. */
  datatype Event<T> = Event(
    stored: Option<(Id, T)>,              // an element of this producer entered the buffer
    taken: Option<(Id, Option<T>)>,       // a slot was emptied for this consumer
    enlisted: Option<Id>,
    resumed: Option<(Id, Option<Cause>)>, // by a walk with a cause, or handed over
    produced: Option<(Id, Produce)>,      // produce returned
    consumed: Option<(Id, Option<T>, Consume)>, // consume returned: an element, or this code
    halted: bool,                         // this step moved the state to stopped
    swept: bool,                          // second section of that shutdown
    emptied: bool)                        // a drain loop saw the buffer empty

  function Quiet<T>(): (e: Event<T>) {
    Event(None, None, None, None, None, None, false, false, false)
  }

  ghost predicate Init<T>(s: State<T>, n: nat) {
    && 0 < n < COUNTER_RANGE
    && s.buf == Empty<T>(n) && s.run == Running
    && s.crowd.producers == [] && s.crowd.consumers == []
    && |s.crowd.place| == |s.crowd.pc| == |s.calls|
    && forall i :: 0 <= i < |s.crowd.pc| ==> s.crowd.pc[i] == Idle && s.crowd.place[i] == Nowhere
  }

  ghost predicate Inv<T>(s: State<T>) {
    s.buf.Shaped() && Ordered(s.crowd) && |s.calls| == |s.crowd.pc|
  }

  /** Where a coroutine goes on when a walk with this cause resumes it. */
  function Woken<T>(pc: Pc<T>, cause: Cause): (r: Pc<T>)
    ensures !Suspended(r)
    ensures Suspended(pc) ==> Held(r) == []
  {
    match pc
    case ProducerWaits(_, _) =>
      WakeConsumers(match cause case Notified => ProduceNotified case Stopping => ProduceStopped case DrainBegun => Produced)
    case ConsumerWaits(got) => WakeProducers(got, if cause.Notified? then ConsumeNotified else ConsumeStopped)
    case _ => pc
  }

  /** And when a wake-up loop hands it a slot or an element. */
  function Handed<T>(pc: Pc<T>): (r: Pc<T>)
    ensures !Suspended(r)
    ensures Suspended(pc) ==> Held(r) == []
  {
    match pc
    case ProducerWaits(_, _) => WakeConsumers(Produced)
    case ConsumerWaits(got) => WakeProducers(got, ConsumeStopped)
    case _ => pc
  }

  function Called<T>(s: State<T>, i: Id, call: Call<T>): (r: (State<T>, Event<T>))
    requires Inv(s) && i < |s.crowd.pc|
  {
    var c := s.crowd;
    match call
    case DoProduce(e) =>
      if !s.run.Running? then (s.(crowd := Proceed(c, i, WakeConsumers(ProduceStopped))), Quiet())
      else if s.buf.used < |s.buf.slots| then
        (s.(buf := Store(s.buf, e), crowd := Proceed(c, i, WakeConsumers(Produced))), Quiet().(stored := Some((i, e))))
      else (s.(crowd := SuspendProducer(c, i, e)), Quiet().(enlisted := Some(i)))
    case DoConsume =>
      if s.run.Stopped? then (s.(crowd := Proceed(c, i, WakeProducers(None, ConsumeStopped))), Quiet())
      else if s.buf.used > 0 then
        (s.(buf := Take(s.buf), crowd := Proceed(c, i, WakeProducers(Oldest(s.buf), ConsumeStopped))),
         Quiet().(taken := Some((i, Oldest(s.buf)))))
      else (s.(crowd := SuspendConsumer(c, i)), Quiet().(enlisted := Some(i)))
    case DoNotifyProducers => (if s.run.Stopped? then s else s.(crowd := Proceed(c, i, NotifyProducers)), Quiet())
    case DoNotifyConsumers => (if s.run.Stopped? then s else s.(crowd := Proceed(c, i, NotifyConsumers)), Quiet())
    case DoShutdown => (s.(crowd := Proceed(c, i, StopLoad)), Quiet())
    case DoShutdownDrain =>
      (if s.run.Running? then s.(run := Draining, crowd := TakeProducers(c, i, DrainBegun)) else s, Quiet())
  }

  /** One step of task `m.id`. */
  function Next<T>(s: State<T>, m: Move<T>): (r: (State<T>, Event<T>))
    requires Inv(s) && m.id < |s.crowd.pc|
  {
    var i, c := m.id, s.crowd;
    match c.pc[i]
    case Idle => Called(s.(calls := s.calls[i := m.call]), i, m.call)
    case ProducerWaits(_, _) => (s, Quiet())
    case ConsumerWaits(_) => (s, Quiet())
    case WakeConsumers(r) =>
      if s.buf.used > 0 && c.consumers != [] then
        var x := Oldest(s.buf);
        (s.(buf := Take(s.buf), crowd := PopConsumer(c, i, x, r)), Quiet().(taken := Some((c.consumers[0], x))))
      else (s.(crowd := Proceed(c, i, Idle)), Quiet().(produced := Some((i, r))))
    case HandConsumer(w, r) =>
      HeldSuspended(c, i);
      (s.(crowd := Resume(c, i, w, Handed(c.pc[w]), WakeConsumers(r))), Quiet().(resumed := Some((w, None))))
    case WakeProducers(got, r) =>
      if s.buf.used < |s.buf.slots| && c.producers != [] then
        var w := c.producers[0];
        assert c.place[w] == InProducers;
        var e := c.pc[w].e;
        (s.(buf := Store(s.buf, e), crowd := PopProducer(c, i, e, got, r)), Quiet().(stored := Some((w, e))))
      else (s.(crowd := Proceed(c, i, Idle)), Quiet().(consumed := Some((i, got, r))))
    case HandProducer(w, got, r) =>
      HeldSuspended(c, i);
      (s.(crowd := Resume(c, i, w, Handed(c.pc[w]), WakeProducers(got, r))), Quiet().(resumed := Some((w, None))))
    case NotifyProducers => (s.(crowd := TakeProducers(c, i, Notified)), Quiet())
    case NotifyConsumers => (s.(crowd := TakeConsumers(c, i, Notified)), Quiet())
    case Walk(todo, cause) =>
      if todo == [] then (s.(crowd := Proceed(c, i, if cause.DrainBegun? then DrainEmpty else Idle)), Quiet())
      else
        HeldSuspended(c, i);
        var w := todo[0];
        (s.(crowd := Resume(c, i, w, Woken(c.pc[w], cause), Walk(todo[1..], cause))), Quiet().(resumed := Some((w, Some(cause)))))
    case StopLoad => (s.(crowd := Proceed(c, i, if s.run.Stopped? then Idle else StopExchange(s.run))), Quiet())
    case StopExchange(expected) =>
      if s.run == expected then (s.(run := Stopped, crowd := Proceed(c, i, Sweep)), Quiet().(halted := true))
      else (s.(crowd := Proceed(c, i, Idle)), Quiet())
    case Sweep => (s.(crowd := TakeAll(c, i, Stopping)), Quiet().(swept := true))
    case DrainEmpty =>
      if s.buf.used == 0 then (s.(crowd := Proceed(c, i, StopLoad)), Quiet().(emptied := true))
      else (s.(crowd := Proceed(c, i, DrainState)), Quiet())
    case DrainState => (s.(crowd := Proceed(c, i, if s.run.Draining? then DrainEmpty else StopLoad)), Quiet())
  }

  lemma CalledKeepsInv<T>(s: State<T>, i: Id, call: Call<T>)
    requires Inv(s) && i < |s.crowd.pc| && s.crowd.pc[i] == Idle
    ensures Inv(Called(s, i, call).0)
  {
    var c := s.crowd;
    match call
    case DoProduce(e) =>
      SuspendProducerOrdered(c, i, e);
      ProceedOrdered(c, i, WakeConsumers(ProduceStopped));
      ProceedOrdered(c, i, WakeConsumers(Produced));
    case DoConsume =>
      if !s.run.Stopped? && s.buf.used == 0 {
        SuspendConsumerOrdered(c, i);
      } else {
        ProceedOrdered(c, i, Called(s, i, call).0.crowd.pc[i]);
      }
    case DoNotifyProducers => ProceedOrdered(c, i, NotifyProducers);
    case DoNotifyConsumers => ProceedOrdered(c, i, NotifyConsumers);
    case DoShutdown => ProceedOrdered(c, i, StopLoad);
    case DoShutdownDrain => TakeProducersOrdered(c, i, DrainBegun);
  }

  /** The two wake-up loops. */
  lemma PassKeepsInv<T>(s: State<T>, m: Move<T>)
    requires Inv(s) && m.id < |s.crowd.pc| && (s.crowd.pc[m.id].WakeConsumers? || s.crowd.pc[m.id].WakeProducers?)
    ensures Inv(Next(s, m).0)
  {
    var i, c := m.id, s.crowd;
    ProceedOrdered(c, i, Idle);
    match c.pc[i]
    case WakeConsumers(r) =>
      if c.consumers != [] { PopConsumerOrdered(c, i, Oldest(s.buf), r); }
    case WakeProducers(got, r) =>
      if c.producers != [] {
        assert c.place[c.producers[0]] == InProducers;
        PopProducerOrdered(c, i, c.pc[c.producers[0]].e, got, r);
      }
  }

  lemma HandKeepsInv<T>(s: State<T>, m: Move<T>)
    requires Inv(s) && m.id < |s.crowd.pc| && Held(s.crowd.pc[m.id]) != []
    ensures Inv(Next(s, m).0)
  {
    var i, c := m.id, s.crowd;
    HeldSuspended(c, i);
    match c.pc[i]
    case HandConsumer(w, r) => ResumeOrdered(c, i, Handed(c.pc[w]), WakeConsumers(r));
    case HandProducer(w, got, r) => ResumeOrdered(c, i, Handed(c.pc[w]), WakeProducers(got, r));
    case Walk(todo, cause) => ResumeOrdered(c, i, Woken(c.pc[todo[0]], cause), Walk(todo[1..], cause));
  }

  lemma NextKeepsSizes<T>(s: State<T>, m: Move<T>)
    requires Inv(s) && m.id < |s.crowd.pc|
    ensures |Next(s, m).0.crowd.pc| == |s.crowd.pc| && |Next(s, m).0.buf.slots| == |s.buf.slots|
  {
    if Held(s.crowd.pc[m.id]) != [] { HeldSuspended(s.crowd, m.id); }
  }

  lemma NextKeepsInv<T>(s: State<T>, m: Move<T>)
    requires Inv(s) && m.id < |s.crowd.pc|
    ensures Inv(Next(s, m).0)
    ensures |Next(s, m).0.crowd.pc| == |s.crowd.pc| && |Next(s, m).0.buf.slots| == |s.buf.slots|
  {
    NextKeepsSizes(s, m);
    var i, c := m.id, s.crowd;
    match c.pc[i]
    case Idle => CalledKeepsInv(s.(calls := s.calls[i := m.call]), i, m.call);
    case ProducerWaits(_, _) =>
    case ConsumerWaits(_) =>
    case WakeConsumers(_) => PassKeepsInv(s, m);
    case WakeProducers(_, _) => PassKeepsInv(s, m);
    case NotifyProducers => TakeProducersOrdered(c, i, Notified);
    case NotifyConsumers => TakeConsumersOrdered(c, i, Notified);
    case Sweep => TakeAllOrdered(c, i, Stopping);
    case HandConsumer(_, _) => HandKeepsInv(s, m);
    case HandProducer(_, _, _) => HandKeepsInv(s, m);
    case Walk(todo, cause) =>
      if todo != [] { HandKeepsInv(s, m); } else { ProceedOrdered(c, i, Next(s, m).0.crowd.pc[i]); }
    case _ => ProceedOrdered(c, i, Next(s, m).0.crowd.pc[i]);
  }

  // ----- whole runs -----

  ghost predicate Legal<T>(s: State<T>, ms: seq<Move<T>>) {
    Inv(s) && forall k :: 0 <= k < |ms| ==> ms[k].id < |s.crowd.pc|
  }

  function Exec<T>(s: State<T>, ms: seq<Move<T>>): (t: State<T>)
    requires Legal(s, ms)
    ensures Inv(t) && |t.crowd.pc| == |s.crowd.pc| && |t.buf.slots| == |s.buf.slots|
    decreases |ms|
  {
    if ms == [] then s else NextKeepsInv(s, ms[0]); Exec(Next(s, ms[0]).0, ms[1..])
  }

  function Trace<T>(s: State<T>, ms: seq<Move<T>>): (es: seq<Event<T>>)
    requires Legal(s, ms)
    ensures |es| == |ms|
    decreases |ms|
  {
    if ms == [] then [] else NextKeepsInv(s, ms[0]); [Next(s, ms[0]).1] + Trace(Next(s, ms[0]).0, ms[1..])
  }

  lemma InitInv<T>(s: State<T>, n: nat)
    requires Init(s, n)
    ensures Inv(s)
  {
  }

  // ----- no lost wake-up -----

  /** Task `t` will still run a pass of try_resume_consumers. */
  ghost predicate OwesConsumers<T>(c: Crowd<T>, t: Id) {
    t < |c.pc| == |c.place| && (c.pc[t].WakeConsumers? || c.pc[t].HandConsumer? || (c.pc[t].ProducerWaits? && c.place[t].With?))
  }

  /** Task `t` will still run a pass of try_resume_producers. */
  ghost predicate OwesProducers<T>(c: Crowd<T>, t: Id) {
    t < |c.pc| == |c.place| && (c.pc[t].WakeProducers? || c.pc[t].HandProducer? || (c.pc[t].ConsumerWaits? && c.place[t].With?))
  }

  ghost predicate ConsumersLooked<T>(s: State<T>) {
    s.buf.used > 0 && s.crowd.consumers != [] ==> exists t :: OwesConsumers(s.crowd, t)
  }

  ghost predicate ProducersLooked<T>(s: State<T>) {
    s.buf.used < |s.buf.slots| && s.crowd.producers != [] ==> exists t :: OwesProducers(s.crowd, t)
  }

  /** The task at work on a pass goes on owing it until it finds nothing to do. */
  lemma OwnConsumersPass<T>(s: State<T>, m: Move<T>)
    requires Inv(s) && m.id < |s.crowd.pc| && OwesConsumers(s.crowd, m.id)
    ensures var n := Next(s, m).0; OwesConsumers(n.crowd, m.id) || n.buf.used == 0 || n.crowd.consumers == []
  {
    if s.crowd.pc[m.id].HandConsumer? { HeldSuspended(s.crowd, m.id); }
    if s.crowd.consumers != [] { assert s.crowd.place[s.crowd.consumers[0]] == InConsumers; }
  }

  lemma OwnProducersPass<T>(s: State<T>, m: Move<T>)
    requires Inv(s) && m.id < |s.crowd.pc| && OwesProducers(s.crowd, m.id)
    ensures var n := Next(s, m).0; OwesProducers(n.crowd, m.id) || n.buf.used == |n.buf.slots| || n.crowd.producers == []
  {
    if s.crowd.pc[m.id].HandProducer? { HeldSuspended(s.crowd, m.id); }
    if s.crowd.producers != [] { assert s.crowd.place[s.crowd.producers[0]] == InProducers; }
  }

  /** The task is where it was, on whichever list, or was resumed into its own pass. */
  ghost predicate StillDue<T>(c: Crowd<T>, c': Crowd<T>, t: Id) {
    && t < |c.pc| == |c.place| && |c'.pc| == |c.pc| == |c'.place|
    && (!Suspended(c.pc[t]) ==> c'.pc[t] == c.pc[t])
    && (c.pc[t].ProducerWaits? ==> c'.pc[t].WakeConsumers? || (c'.pc[t].ProducerWaits? && (c.place[t].With? ==> c'.place[t].With?)))
    && (c.pc[t].ConsumerWaits? ==> c'.pc[t].WakeProducers? || (c'.pc[t].ConsumerWaits? && (c.place[t].With? ==> c'.place[t].With?)))
  }

  lemma CallerLeavesDue<T>(s: State<T>, i: Id, call: Call<T>, t: Id)
    requires Inv(s) && i < |s.crowd.pc| && t < |s.crowd.pc| && t != i
    ensures StillDue(s.crowd, Called(s, i, call).0.crowd, t)
  {
  }

  lemma ResumerLeavesDue<T>(s: State<T>, m: Move<T>, t: Id)
    requires Inv(s) && m.id < |s.crowd.pc| && t < |s.crowd.pc| && t != m.id && Held(s.crowd.pc[m.id]) != []
    ensures StillDue(s.crowd, Next(s, m).0.crowd, t)
  {
    HeldSuspended(s.crowd, m.id);
  }

  lemma OthersPass<T>(s: State<T>, m: Move<T>, t: Id)
    requires Inv(s) && m.id < |s.crowd.pc| && t < |s.crowd.pc| && t != m.id
    ensures StillDue(s.crowd, Next(s, m).0.crowd, t)
  {
    var c := s.crowd;
    if c.pc[m.id].Idle? {
      CallerLeavesDue(s.(calls := s.calls[m.id := m.call]), m.id, m.call, t);
    } else if Held(c.pc[m.id]) != [] {
      ResumerLeavesDue(s, m, t);
    } else if c.pc[m.id].WakeConsumers? || c.pc[m.id].WakeProducers? {
      PassLeavesDue(s, m, t);
    }
  }

  lemma PassLeavesDue<T>(s: State<T>, m: Move<T>, t: Id)
    requires Inv(s) && m.id < |s.crowd.pc| && t < |s.crowd.pc| && t != m.id
    requires s.crowd.pc[m.id].WakeConsumers? || s.crowd.pc[m.id].WakeProducers?
    ensures StillDue(s.crowd, Next(s, m).0.crowd, t)
  {
    var c := s.crowd;
    if c.consumers != [] { assert c.place[c.consumers[0]] == InConsumers; }
    if c.producers != [] { assert c.place[c.producers[0]] == InProducers; }
  }

  /** A task stops owing a pass only by finding nothing to do. */
  lemma ConsumersPassKept<T>(s: State<T>, m: Move<T>, t: Id)
    requires Inv(s) && m.id < |s.crowd.pc| && OwesConsumers(s.crowd, t)
    ensures var n := Next(s, m).0; OwesConsumers(n.crowd, t) || n.buf.used == 0 || n.crowd.consumers == []
  {
    if t == m.id { OwnConsumersPass(s, m); } else { OthersPass(s, m, t); }
  }

  lemma ProducersPassKept<T>(s: State<T>, m: Move<T>, t: Id)
    requires Inv(s) && m.id < |s.crowd.pc| && OwesProducers(s.crowd, t)
    ensures var n := Next(s, m).0; OwesProducers(n.crowd, t) || n.buf.used == |n.buf.slots| || n.crowd.producers == []
  {
    if t == m.id { OwnProducersPass(s, m); } else { OthersPass(s, m, t); }
  }

  /** A mismatch between elements and suspended consumers arises only with someone owing a pass. */
  lemma ConsumersPassOwed<T>(s: State<T>, m: Move<T>) returns (t: Id)
    requires Inv(s) && m.id < |s.crowd.pc| && (s.buf.used == 0 || s.crowd.consumers == [])
    ensures var n := Next(s, m).0; OwesConsumers(n.crowd, t) || n.buf.used == 0 || n.crowd.consumers == []
  {
    t := if s.crowd.pc[m.id].WakeProducers? && s.crowd.producers != [] then s.crowd.producers[0] else m.id;
  }

  lemma ProducersPassOwed<T>(s: State<T>, m: Move<T>) returns (t: Id)
    requires Inv(s) && m.id < |s.crowd.pc| && (s.buf.used == |s.buf.slots| || s.crowd.producers == [])
    ensures var n := Next(s, m).0; OwesProducers(n.crowd, t) || n.buf.used == |n.buf.slots| || n.crowd.producers == []
  {
    t := if s.crowd.pc[m.id].WakeConsumers? && s.crowd.consumers != [] then s.crowd.consumers[0] else m.id;
  }

  lemma NextKeepsLooked<T>(s: State<T>, m: Move<T>)
    requires Inv(s) && m.id < |s.crowd.pc| && ConsumersLooked(s) && ProducersLooked(s)
    ensures ConsumersLooked(Next(s, m).0) && ProducersLooked(Next(s, m).0)
  {
    if s.buf.used > 0 && s.crowd.consumers != [] {
      var t :| OwesConsumers(s.crowd, t);
      ConsumersPassKept(s, m, t);
    } else {
      var t := ConsumersPassOwed(s, m);
    }
    if s.buf.used < |s.buf.slots| && s.crowd.producers != [] {
      var t :| OwesProducers(s.crowd, t);
      ProducersPassKept(s, m, t);
    } else {
      var t := ProducersPassOwed(s, m);
    }
  }

  lemma {:induction false} RunKeepsLooked<T>(s: State<T>, ms: seq<Move<T>>)
    requires Legal(s, ms) && ConsumersLooked(s) && ProducersLooked(s)
    ensures ConsumersLooked(Exec(s, ms)) && ProducersLooked(Exec(s, ms))
    decreases |ms|
  {
    if ms != [] {
      NextKeepsInv(s, ms[0]);
      NextKeepsLooked(s, ms[0]);
      RunKeepsLooked(Next(s, ms[0]).0, ms[1..]);
    }
  }

  /** Nobody has anything left to do: every task is idle or suspended on one of the two lists. */
  ghost predicate Quiescent<T>(c: Crowd<T>) {
    forall i :: 0 <= i < |c.pc| ==> c.pc[i].Idle? || (Suspended(c.pc[i]) && (i in c.producers || i in c.consumers))
  }

  /**
   * Over every run: with elements stored and consumers suspended, or slots free and producers
   * suspended, some task still owes the pass that will match them up; so once everyone has
   * come to rest, neither mismatch exists.
   */
  lemma NoLostWakeUp<T>(s: State<T>, n: nat, ms: seq<Move<T>>)
    requires Init(s, n) && Legal(s, ms)
    ensures var t := Exec(s, ms);
      && (t.buf.used > 0 && t.crowd.consumers != [] ==> exists i :: OwesConsumers(t.crowd, i))
      && (t.buf.used < n && t.crowd.producers != [] ==> exists i :: OwesProducers(t.crowd, i))
      && (Quiescent(t.crowd) ==> t.buf.used == 0 || t.crowd.consumers == [])
      && (Quiescent(t.crowd) ==> t.buf.used == n || t.crowd.producers == [])
  {
    RunKeepsLooked(s, ms);
    var t := Exec(s, ms);
    if Quiescent(t.crowd) {
      assert forall i :: 0 <= i < |t.crowd.pc| ==> !t.crowd.place[i].With?;
      assert forall i :: !OwesConsumers(t.crowd, i) && !OwesProducers(t.crowd, i);
    }
  }

  // ----- first in, first out -----

  function StoredNow<T>(e: Event<T>): (xs: seq<T>) {
    if e.stored.Some? then [e.stored.value.1] else []
  }

  function TakenNow<T>(e: Event<T>): (xs: seq<Option<T>>) {
    if e.taken.Some? then [e.taken.value.1] else []
  }

  function StoredElements<T>(es: seq<Event<T>>): (xs: seq<T>) {
    if es == [] then []
    else StoredNow(es[0]) + StoredElements(es[1..])
  }

  /** What left the buffer, as read from the slots. */
  function TakenElements<T>(es: seq<Event<T>>): (xs: seq<Option<T>>) {
    if es == [] then []
    else TakenNow(es[0]) + TakenElements(es[1..])
  }

  function Somes<T>(xs: seq<T>): (r: seq<Option<T>>) {
    seq(|xs|, i requires 0 <= i < |xs| => Some(xs[i]))
  }

  /** The buffer changes only by a store or a take that the step reports. */
  lemma NextStoresOrTakes<T>(s: State<T>, m: Move<T>)
    requires Inv(s) && m.id < |s.crowd.pc|
    ensures var (n, e) := Next(s, m);
      if e.stored.Some? then s.buf.used < |s.buf.slots| && n.buf == Store(s.buf, e.stored.value.1) && e.taken.None?
      else if e.taken.Some? then s.buf.used > 0 && n.buf == Take(s.buf) && e.taken.value.1 == Oldest(s.buf)
      else n.buf == s.buf
  {
  }

  lemma NextIsFifo<T>(s: State<T>, m: Move<T>, later: nat)
    requires Inv(s) && m.id < |s.crowd.pc| && Holds(s.buf) && Clear(s.buf, |StoredNow(Next(s, m).1)| + later)
    ensures var (n, e) := Next(s, m);
      Holds(n.buf) && Clear(n.buf, later) && Somes(Contents(s.buf) + StoredNow(e)) == TakenNow(e) + Somes(Contents(n.buf))
  {
    var (n, e) := Next(s, m);
    NextStoresOrTakes(s, m);
    if e.stored.Some? {
      StoreAppends(s.buf, e.stored.value.1);
    } else if e.taken.Some? {
      TakeRemovesOldest(s.buf);
    }
  }

  lemma SomesAdd<T>(xs: seq<T>, ys: seq<T>)
    ensures Somes(xs + ys) == Somes(xs) + Somes(ys)
  {
  }

  lemma {:induction false} RunIsFifo<T>(s: State<T>, ms: seq<Move<T>>)
    requires Legal(s, ms) && Holds(s.buf) && Clear(s.buf, |StoredElements(Trace(s, ms))|)
    ensures Holds(Exec(s, ms).buf) && Clear(Exec(s, ms).buf, 0)
    ensures Somes(Contents(s.buf)) + Somes(StoredElements(Trace(s, ms)))
         == TakenElements(Trace(s, ms)) + Somes(Contents(Exec(s, ms).buf))
    decreases |ms|
  {
    if ms != [] {
      NextKeepsInv(s, ms[0]);
      var (t, e) := Next(s, ms[0]);
      var es := Trace(s, ms);
      assert es[0] == e && es[1..] == Trace(t, ms[1..]);
      NextIsFifo(s, ms[0], |StoredElements(es[1..])|);
      RunIsFifo(t, ms[1..]);
      SomesAdd(Contents(s.buf), StoredNow(e));
      SomesAdd(StoredNow(e), StoredElements(es[1..]));
      Chained(Somes(Contents(s.buf)), Somes(StoredNow(e)), TakenNow(e), Somes(Contents(t.buf)),
              Somes(StoredElements(es[1..])), TakenElements(es[1..]), Somes(Contents(Exec(s, ms).buf)));
    }
  }

  /** The run stores fewer than 2^64 elements, or the capacity divides 2^64. */
  ghost predicate NoHarmfulWrap<T>(n: nat, es: seq<Event<T>>)
    requires n > 0
  {
    |StoredElements(es)| < COUNTER_RANGE || COUNTER_RANGE % n == 0
  }

  /** Over every such run, all elements ever stored are, in order, those taken out followed by those still in. */
  lemma EveryRunIsFifo<T>(s: State<T>, n: nat, ms: seq<Move<T>>)
    requires Init(s, n) && Legal(s, ms) && NoHarmfulWrap(n, Trace(s, ms))
    ensures Holds(Exec(s, ms).buf) && Clear(Exec(s, ms).buf, 0)
    ensures Somes(StoredElements(Trace(s, ms))) == TakenElements(Trace(s, ms)) + Somes(Contents(Exec(s, ms).buf))
  {
    EmptyHolds<T>(n);
    RunIsFifo(s, ms);
    assert Somes(Contents(s.buf)) == [];
  }
}
