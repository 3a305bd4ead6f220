/**
 * How the calls of `coro::ring_buffer` that wake the waiters end when no other task moves: the whole
 * state after notify_producers, notify_consumers, shutdown and shutdown_drain
 * (include/coro/ring_buffer.hpp:266-389). `Inv` holds in every state of every run.
 */
module RingAlone {
  import opened Prelude
  import opened RingStorage
  import opened RingCrowd
  import opened RingProtocol

  /** One task keeps moving and nobody else moves. */
  ghost predicate Only<T>(ms: seq<Move<T>>, i: Id, call: Call<T>) {
    forall k :: 0 <= k < |ms| ==> ms[k] == Move(i, call)
  }

  lemma Before<T>(s: State<T>, t: State<T>, i: Id, call: Call<T>, ms: seq<Move<T>>) returns (ns: seq<Move<T>>)
    requires Inv(s) && i < |s.crowd.pc| && Next(s, Move(i, call)).0 == t && Legal(t, ms) && Only(ms, i, call)
    ensures Legal(s, ns) && Only(ns, i, call) && Exec(s, ns) == Exec(t, ms) && |ns| == |ms| + 1
  {
    var m := Move(i, call);
    NextKeepsInv(s, m);
    ns := [m] + ms;
    assert ns[0] == m && ns[1..] == ms;
  }

  lemma AfterNext<T>(s: State<T>, i: Id, call: Call<T>) returns (t: State<T>)
    requires Inv(s) && i < |s.crowd.pc|
    ensures t == Next(s, Move(i, call)).0 && Inv(t) && |t.crowd.pc| == |s.crowd.pc|
  {
    t := Next(s, Move(i, call)).0;
    NextKeepsInv(s, Move(i, call));
  }

  // ----- waking a taken list -----

  /** What a waiter is told: a producer the code for this cause, a consumer the code, unless it has an element. */
  function Told<T>(pc: Pc<T>, p: Produce, c: Consume): (r: Pc<T>) {
    match pc
    case ProducerWaits(_, _) => WakeConsumers(p)
    case ConsumerWaits(got) => WakeProducers(got, c)
    case _ => pc
  }

  /** Everyone of `ws` running again. */
  function AllTold<T>(pc: seq<Pc<T>>, ws: seq<Id>, p: Produce, c: Consume): (r: seq<Pc<T>>)
    ensures |r| == |pc|
    ensures forall k :: 0 <= k < |pc| ==> r[k] == if k in ws then Told(pc[k], p, c) else pc[k]
  {
    seq(|pc|, k requires 0 <= k < |pc| => if k in ws then Told(pc[k], p, c) else pc[k])
  }

  function Freed(place: seq<Place>, ws: seq<Id>): (r: seq<Place>)
    ensures |r| == |place|
    ensures forall k :: 0 <= k < |place| ==> r[k] == if k in ws then Nowhere else place[k]
  {
    seq(|place|, k requires 0 <= k < |place| => if k in ws then Nowhere else place[k])
  }

  predicate Fits(cause: Cause, p: Produce, c: Consume) {
    match cause
    case Notified => p == ProduceNotified && c == ConsumeNotified
    case Stopping => p == ProduceStopped && c == ConsumeStopped
    case DrainBegun => p == Produced && c == ConsumeStopped
  }

  lemma TellMore<T>(pc: seq<Pc<T>>, i: Id, ws: seq<Id>, q: Pc<T>, p: Produce, c: Consume, end: Pc<T>)
    requires i < |pc| && ws != [] && Distinct(ws) && i !in ws && ws[0] < |pc|
    ensures AllTold(pc[ws[0] := Told(pc[ws[0]], p, c)][i := q], ws[1..], p, c)[i := end] == AllTold(pc, ws, p, c)[i := end]
  {
    TailMembers(ws);
  }

  lemma FreeMore(place: seq<Place>, ws: seq<Id>)
    requires ws != [] && Distinct(ws) && ws[0] < |place|
    ensures Freed(place[ws[0] := Nowhere], ws[1..]) == Freed(place, ws)
  {
    TailMembers(ws);
  }

  lemma OwnWalk<T>(s: State<T>, i: Id)
    requires Inv(s) && i < |s.crowd.pc| && s.crowd.pc[i].Walk?
    ensures |s.crowd.place| == |s.crowd.pc|
    ensures Distinct(s.crowd.pc[i].todo) && i !in s.crowd.pc[i].todo
  {
    assert Holder(s.crowd, i);
  }

  lemma WalkStep<T>(s: State<T>, i: Id, call: Call<T>, p: Produce, c: Consume)
    requires Inv(s) && i < |s.crowd.pc| && s.crowd.pc[i].Walk? && s.crowd.pc[i].todo != [] && Fits(s.crowd.pc[i].cause, p, c)
    ensures |s.crowd.place| == |s.crowd.pc| && s.crowd.pc[i].todo[0] < |s.crowd.pc| && s.crowd.pc[i].todo[0] != i
    ensures
      var d, w, cause := s.crowd, s.crowd.pc[i].todo[0], s.crowd.pc[i].cause;
      Next(s, Move(i, call)).0 == s.(crowd := d.(place := d.place[w := Nowhere],
        pc := d.pc[w := Told(d.pc[w], p, c)][i := Walk(d.pc[i].todo[1..], cause)]))
  {
    HeldSuspended(s.crowd, i);
  }

  /** A walk wakes everyone it took, with the answer for its cause. */
  lemma {:induction false} WalkAlone<T>(s: State<T>, i: Id, call: Call<T>, ws: seq<Id>, cause: Cause, p: Produce, c: Consume)
    returns (ms: seq<Move<T>>)
    requires Inv(s) && i < |s.crowd.pc| && s.crowd.pc[i] == Walk(ws, cause) && Fits(cause, p, c)
    ensures |s.crowd.place| == |s.crowd.pc| && Legal(s, ms) && Only(ms, i, call)
    ensures
      var end := if cause == DrainBegun then DrainEmpty else Idle;
      Exec(s, ms) == s.(crowd := s.crowd.(place := Freed(s.crowd.place, ws), pc := AllTold(s.crowd.pc, ws, p, c)[i := end]))
    decreases |ws|
  {
    var d, end := s.crowd, if cause == DrainBegun then DrainEmpty else Idle;
    OwnWalk(s, i);
    var a := AfterNext(s, i, call);
    if ws == [] {
      assert AllTold(d.pc, ws, p, c) == d.pc && Freed(d.place, ws) == d.place;
      ms := [];
    } else {
      WalkStep(s, i, call, p, c);
      ms := WalkAlone(a, i, call, ws[1..], cause, p, c);
      TellMore(d.pc, i, ws, Walk(ws[1..], cause), p, c, end);
      FreeMore(d.place, ws);
    }
    ms := Before(s, a, i, call, ms);
  }

  // ----- notify -----

  lemma Unclaimed<T>(d: Crowd<T>, i: Id, ws: seq<Id>, q: Pc<T>, p: Produce, c: Consume, end: Pc<T>)
    requires i < |d.pc|
    ensures Freed(Claim(d.place, ws, i), ws) == Freed(d.place, ws)
    ensures i !in ws ==> AllTold(d.pc[i := q], ws, p, c)[i := end] == AllTold(d.pc, ws, p, c)[i := end]
  {
  }

  lemma NotWaiting<T>(s: State<T>, i: Id)
    requires Inv(s) && i < |s.crowd.pc| && !Suspended(s.crowd.pc[i])
    ensures |s.crowd.place| == |s.crowd.pc| && i !in s.crowd.producers && i !in s.crowd.consumers
  {
    assert Kind(s.crowd.pc[i], s.crowd.place[i]);
  }

  lemma BackToIdle<T>(pc: seq<Pc<T>>, i: Id, ws: seq<Id>, p: Produce, c: Consume)
    requires i < |pc| && pc[i] == Idle && i !in ws
    ensures AllTold(pc, ws, p, c)[i := Idle] == AllTold(pc, ws, p, c)
  {
  }

  /** notify_producers, unless the buffer is stopped, wakes every waiting producer with the answer notified, and nothing else. */
  lemma NotifyProducersAlone<T>(s: State<T>, i: Id) returns (ms: seq<Move<T>>)
    requires Inv(s) && i < |s.crowd.pc| && s.crowd.pc[i] == Idle
    ensures |s.calls| == |s.crowd.pc| && Legal(s, ms) && Only(ms, i, DoNotifyProducers)
    ensures
      var d := s.crowd;
      Exec(s, ms) == s.(calls := s.calls[i := DoNotifyProducers],
        crowd := if s.run == Stopped then d
                 else d.(producers := [], place := Freed(d.place, d.producers),
                         pc := AllTold(d.pc, d.producers, ProduceNotified, ConsumeNotified)))
  {
    var call, d, ws := DoNotifyProducers, s.crowd, s.crowd.producers;
    var a := AfterNext(s, i, call);
    ms := [];
    if s.run != Stopped {
      NotWaiting(s, i);
      var b := AfterNext(a, i, call);
      assert b.crowd.pc == d.pc[i := Walk(ws, Notified)];
      ms := WalkAlone(b, i, call, ws, Notified, ProduceNotified, ConsumeNotified);
      Unclaimed(d, i, ws, Walk(ws, Notified), ProduceNotified, ConsumeNotified, Idle);
      BackToIdle(d.pc, i, ws, ProduceNotified, ConsumeNotified);
      ms := Before(a, b, i, call, ms);
    }
    ms := Before(s, a, i, call, ms);
  }

  /** notify_consumers likewise. */
  lemma NotifyConsumersAlone<T>(s: State<T>, i: Id) returns (ms: seq<Move<T>>)
    requires Inv(s) && i < |s.crowd.pc| && s.crowd.pc[i] == Idle
    ensures |s.calls| == |s.crowd.pc| && Legal(s, ms) && Only(ms, i, DoNotifyConsumers)
    ensures
      var d := s.crowd;
      Exec(s, ms) == s.(calls := s.calls[i := DoNotifyConsumers],
        crowd := if s.run == Stopped then d
                 else d.(consumers := [], place := Freed(d.place, d.consumers),
                         pc := AllTold(d.pc, d.consumers, ProduceNotified, ConsumeNotified)))
  {
    var call, d, ws := DoNotifyConsumers, s.crowd, s.crowd.consumers;
    var a := AfterNext(s, i, call);
    ms := [];
    if s.run != Stopped {
      NotWaiting(s, i);
      var b := AfterNext(a, i, call);
      assert b.crowd.pc == d.pc[i := Walk(ws, Notified)];
      ms := WalkAlone(b, i, call, ws, Notified, ProduceNotified, ConsumeNotified);
      Unclaimed(d, i, ws, Walk(ws, Notified), ProduceNotified, ConsumeNotified, Idle);
      BackToIdle(d.pc, i, ws, ProduceNotified, ConsumeNotified);
      ms := Before(a, b, i, call, ms);
    }
    ms := Before(s, a, i, call, ms);
  }

  // ----- shutdown -----

  /** The state with the buffer stopped, both lists empty and every waiter told stopped. */
  function AllStopped<T>(s: State<T>): (t: State<T>) {
    var d, ws := s.crowd, s.crowd.producers + s.crowd.consumers;
    s.(run := Stopped, crowd := Crowd([], [], AllTold(d.pc, ws, ProduceStopped, ConsumeStopped), Freed(d.place, ws)))
  }

  lemma SweepAlone<T>(s: State<T>, i: Id, call: Call<T>) returns (ms: seq<Move<T>>)
    requires Inv(s) && i < |s.crowd.pc| && s.crowd.pc[i] == Sweep && s.run == Stopped
    ensures Legal(s, ms) && Only(ms, i, call)
    ensures Exec(s, ms) == s.(crowd := AllStopped(s).crowd.(pc := AllStopped(s).crowd.pc[i := Idle]))
  {
    var d, ws := s.crowd, s.crowd.producers + s.crowd.consumers;
    NotWaiting(s, i);
    var a := AfterNext(s, i, call);
    assert a.crowd == Crowd([], [], d.pc[i := Walk(ws, Stopping)], Claim(d.place, ws, i));
    ms := WalkAlone(a, i, call, ws, Stopping, ProduceStopped, ConsumeStopped);
    Unclaimed(d, i, ws, Walk(ws, Stopping), ProduceStopped, ConsumeStopped, Idle);
    ms := Before(s, a, i, call, ms);
  }

  /** Moving task `i` about changes nothing for the waiters. */
  lemma SameWaiters<T>(s: State<T>, i: Id, q: Pc<T>)
    requires Inv(s) && i < |s.crowd.pc| && !Suspended(s.crowd.pc[i])
    ensures
      var t := s.(run := Stopped, crowd := s.crowd.(pc := s.crowd.pc[i := q]));
      t.(crowd := AllStopped(t).crowd.(pc := AllStopped(t).crowd.pc[i := Idle])) ==
        AllStopped(s).(crowd := AllStopped(s).crowd.(pc := AllStopped(s).crowd.pc[i := Idle]))
  {
    var ws := s.crowd.producers + s.crowd.consumers;
    NotWaiting(s, i);
    Unclaimed(s.crowd, i, ws, q, ProduceStopped, ConsumeStopped, Idle);
  }

  /** From the load of the run state on: a stopped buffer is left alone; otherwise everyone waiting is told stopped. */
  lemma StopAlone<T>(s: State<T>, i: Id, call: Call<T>) returns (ms: seq<Move<T>>)
    requires Inv(s) && i < |s.crowd.pc| && s.crowd.pc[i] == StopLoad
    ensures Legal(s, ms) && Only(ms, i, call)
    ensures
      var t := if s.run == Stopped then s else AllStopped(s);
      Exec(s, ms) == t.(crowd := t.crowd.(pc := t.crowd.pc[i := Idle]))
  {
    var a := AfterNext(s, i, call);
    ms := [];
    if s.run != Stopped {
      var b := AfterNext(a, i, call);
      assert b == s.(run := Stopped, crowd := s.crowd.(pc := b.crowd.pc));
      assert b.crowd.pc == s.crowd.pc[i := Sweep];
      ms := SweepAlone(b, i, call);
      SameWaiters(s, i, Sweep);
      ms := Before(a, b, i, call, ms);
    }
    ms := Before(s, a, i, call, ms);
  }

  /** shutdown stops the buffer and tells every waiting producer and consumer so; what is stored stays stored. */
  lemma ShutdownAlone<T>(s: State<T>, i: Id) returns (ms: seq<Move<T>>)
    requires Inv(s) && i < |s.crowd.pc| && s.crowd.pc[i] == Idle
    ensures |s.calls| == |s.crowd.pc| && Legal(s, ms) && Only(ms, i, DoShutdown)
    ensures Exec(s, ms) == (if s.run == Stopped then s else AllStopped(s)).(calls := s.calls[i := DoShutdown])
  {
    var a := AfterNext(s, i, DoShutdown);
    ms := StopAlone(a, i, DoShutdown);
    NotWaiting(s, i);
    var ws := s.crowd.producers + s.crowd.consumers;
    Unclaimed(s.crowd, i, ws, StopLoad, ProduceStopped, ConsumeStopped, Idle);
    BackToIdle(s.crowd.pc, i, ws, ProduceStopped, ConsumeStopped);
    assert a.crowd.pc[i := Idle] == s.crowd.pc;
    ms := Before(s, a, i, DoShutdown, ms);
  }

  /** A shutdown overtaken between its load and its exchange returns, having done nothing. */
  lemma ShutdownOvertaken<T>(s: State<T>, m: Move<T>)
    requires Inv(s) && m.id < |s.crowd.pc| && s.crowd.pc[m.id].StopExchange? && s.crowd.pc[m.id].expected != s.run
    ensures Next(s, m).0 == s.(crowd := s.crowd.(pc := s.crowd.pc[m.id := Idle]))
  {
  }

  // ----- shutdown_drain -----

  /** A drain of a running buffer wakes every waiting producer first, and goes on to wait for the consumers. */
  lemma DrainBegins<T>(s: State<T>, i: Id) returns (ms: seq<Move<T>>)
    requires Inv(s) && i < |s.crowd.pc| && s.crowd.pc[i] == Idle
    ensures |s.calls| == |s.crowd.pc| && Legal(s, ms) && Only(ms, i, DoShutdownDrain)
    ensures
      var d := s.crowd;
      Exec(s, ms) == (if s.run != Running then s
        else s.(run := Draining, crowd := d.(producers := [], place := Freed(d.place, d.producers),
                pc := AllTold(d.pc, d.producers, Produced, ConsumeStopped)[i := DrainEmpty]))).(calls := s.calls[i := DoShutdownDrain])
  {
    var call, d, ws := DoShutdownDrain, s.crowd, s.crowd.producers;
    var a := AfterNext(s, i, call);
    ms := [];
    if s.run == Running {
      NotWaiting(s, i);
      assert a.crowd.pc == d.pc[i := Walk(ws, DrainBegun)];
      ms := WalkAlone(a, i, call, ws, DrainBegun, Produced, ConsumeStopped);
      Unclaimed(d, i, ws, Walk(ws, DrainBegun), Produced, ConsumeStopped, DrainEmpty);
    }
    ms := Before(s, a, i, call, ms);
  }

  /** While the buffer is draining and holds elements the drain loop goes round, changing nothing. */
  lemma DrainWaits<T>(s: State<T>, i: Id, call: Call<T>) returns (ms: seq<Move<T>>)
    requires Inv(s) && i < |s.crowd.pc| && s.crowd.pc[i] == DrainEmpty && s.buf.used > 0 && s.run == Draining
    ensures Legal(s, ms) && Only(ms, i, call) && |ms| > 0 && Exec(s, ms) == s
  {
    var a := AfterNext(s, i, call);
    var b := AfterNext(a, i, call);
    assert b.crowd.pc == s.crowd.pc;
    ms := Before(a, b, i, call, []);
    ms := Before(s, a, i, call, ms);
  }

  lemma StopsFrom<T>(s: State<T>, b: State<T>, i: Id, call: Call<T>) returns (ms: seq<Move<T>>)
    requires Inv(s) && Inv(b) && i < |s.crowd.pc| && !Suspended(s.crowd.pc[i])
    requires b == s.(crowd := s.crowd.(pc := s.crowd.pc[i := StopLoad]))
    ensures Legal(b, ms) && Only(ms, i, call)
    ensures
      var t := if s.run == Stopped then s else AllStopped(s);
      Exec(b, ms) == t.(crowd := t.crowd.(pc := t.crowd.pc[i := Idle]))
  {
    NotWaiting(s, i);
    var ws := s.crowd.producers + s.crowd.consumers;
    Unclaimed(s.crowd, i, ws, StopLoad, ProduceStopped, ConsumeStopped, Idle);
    ms := StopAlone(b, i, call);
    assert b.crowd.pc[i := Idle] == s.crowd.pc[i := Idle];
  }

  /** Once it is empty, or no longer draining, the drain ends like a shutdown. */
  lemma DrainEnds<T>(s: State<T>, i: Id, call: Call<T>) returns (ms: seq<Move<T>>)
    requires Inv(s) && i < |s.crowd.pc| && s.crowd.pc[i] == DrainEmpty && (s.buf.used == 0 || s.run != Draining)
    ensures Legal(s, ms) && Only(ms, i, call)
    ensures
      var t := if s.run == Stopped then s else AllStopped(s);
      Exec(s, ms) == t.(crowd := t.crowd.(pc := t.crowd.pc[i := Idle]))
  {
    var a := AfterNext(s, i, call);
    if s.buf.used == 0 {
      ms := StopsFrom(s, a, i, call);
    } else {
      var b := AfterNext(a, i, call);
      assert b.crowd.pc == s.crowd.pc[i := StopLoad];
      ms := StopsFrom(s, b, i, call);
      ms := Before(a, b, i, call, ms);
    }
    ms := Before(s, a, i, call, ms);
  }
}
