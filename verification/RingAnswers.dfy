/**
 * What `produce` and `consume` of `coro::ring_buffer` answer, and why
 * (include/coro/ring_buffer.hpp:82-206, 266-389). Reasons are read off the calls the tasks made and
 * the states before and after a step.
 */
module RingAnswers {
  import opened Prelude
  import opened RingStorage
  import opened RingCrowd
  import opened RingProtocol
  import opened RingShutdown

  // ----- every task is where its call takes it -----

  predicate IsStop<T>(call: Call<T>) {
    call.DoShutdown? || call.DoShutdownDrain?
  }

  /** A task's place fits the call it made and the run state. */
  ghost predicate Motive<T>(pc: Pc<T>, call: Call<T>, run: Run) {
    match pc
    case Idle => true
    case ProducerWaits(e, _) => call == DoProduce(e)
    case WakeConsumers(_) => call.DoProduce?
    case HandConsumer(_, _) => call.DoProduce?
    case ConsumerWaits(_) => call.DoConsume?
    case WakeProducers(_, _) => call.DoConsume?
    case HandProducer(_, _, _) => call.DoConsume?
    case NotifyProducers => call.DoNotifyProducers?
    case NotifyConsumers => call.DoNotifyConsumers?
    case Walk(_, cause) =>
      (match cause
       case Notified => call.DoNotifyProducers? || call.DoNotifyConsumers?
       case Stopping => IsStop(call) && run.Stopped?
       case DrainBegun => call.DoShutdownDrain? && !run.Running?)
    case StopLoad => IsStop(call)
    case StopExchange(_) => IsStop(call)
    case Sweep => IsStop(call) && run.Stopped?
    case DrainEmpty => call.DoShutdownDrain? && !run.Running?
    case DrainState => call.DoShutdownDrain? && !run.Running?
  }

  ghost predicate Motives<T>(s: State<T>)
    requires |s.calls| == |s.crowd.pc|
  {
    forall i :: 0 <= i < |s.crowd.pc| ==> Motive(s.crowd.pc[i], s.calls[i], s.run)
  }

  /** Only the mover's call changes, and only when it makes one; the run state never goes back. */
  lemma NextCalls<T>(s: State<T>, m: Move<T>)
    requires Inv(s) && m.id < |s.crowd.pc|
    ensures Next(s, m).0.calls == (if s.crowd.pc[m.id].Idle? then s.calls[m.id := m.call] else s.calls)
    ensures (s.run.Stopped? ==> Next(s, m).0.run.Stopped?) && (!s.run.Running? ==> !Next(s, m).0.run.Running?)
  {
  }

  lemma OwnMotive<T>(s: State<T>, m: Move<T>)
    requires Inv(s) && m.id < |s.crowd.pc| == |Next(s, m).0.crowd.pc| == |Next(s, m).0.calls|
    requires Motive(s.crowd.pc[m.id], s.calls[m.id], s.run)
    ensures Motive(Next(s, m).0.crowd.pc[m.id], Next(s, m).0.calls[m.id], Next(s, m).0.run)
  {
    if Held(s.crowd.pc[m.id]) != [] { HeldSuspended(s.crowd, m.id); }
    if s.crowd.pc[m.id].WakeConsumers? && s.crowd.consumers != [] { assert s.crowd.place[s.crowd.consumers[0]] == InConsumers; }
    if s.crowd.pc[m.id].WakeProducers? && s.crowd.producers != [] { assert s.crowd.place[s.crowd.producers[0]] == InProducers; }
  }

  lemma PartnerMotive<T>(s: State<T>, m: Move<T>, w: Id)
    requires Inv(s) && m.id < |s.crowd.pc| == |Next(s, m).0.crowd.pc| && w < |s.crowd.pc| && w != m.id && Partner(s, m.id) == Some(w)
    requires Motive(s.crowd.pc[w], s.calls[w], s.run)
    ensures Motive(Next(s, m).0.crowd.pc[w], s.calls[w], Next(s, m).0.run)
  {
    PartnerGoesOn(s, m, w);
  }

  lemma NextMotives<T>(s: State<T>, m: Move<T>)
    requires Inv(s) && m.id < |s.crowd.pc| && Motives(s)
    ensures |Next(s, m).0.calls| == |Next(s, m).0.crowd.pc| == |s.crowd.pc| && Motives(Next(s, m).0)
  {
    NextKeepsSizes(s, m);
    NextCalls(s, m);
    forall i | 0 <= i < |s.crowd.pc|
      ensures Motive(Next(s, m).0.crowd.pc[i], Next(s, m).0.calls[i], Next(s, m).0.run)
    {
      Touched(s, m, i);
      if i == m.id { OwnMotive(s, m); } else if Partner(s, m.id) == Some(i) { PartnerMotive(s, m, i); }
    }
  }

  // ----- the answers without an element -----

  datatype Side = Producer | Consumer
  datatype Reply = SaysNotified | SaysStopped

  function ProduceCode(r: Reply): (p: Produce) {
    if r.SaysNotified? then ProduceNotified else ProduceStopped
  }

  function ConsumeCode(r: Reply): (c: Consume) {
    if r.SaysNotified? then ConsumeNotified else ConsumeStopped
  }

  /** The task will return this answer. */
  predicate Owes<T>(pc: Pc<T>, side: Side, r: Reply) {
    if side.Producer? then (pc.WakeConsumers? || pc.HandConsumer?) && pc.produce == ProduceCode(r)
    else (pc.WakeProducers? || pc.HandProducer?) && pc.got.None? && pc.consume == ConsumeCode(r)
  }

  /** It returns it in this step. */
  predicate Says<T>(s: State<T>, m: Move<T>, i: Id, side: Side, r: Reply)
    requires Inv(s) && m.id < |s.crowd.pc| == |Next(s, m).0.crowd.pc| && i < |s.crowd.pc|
  {
    var e := Next(s, m).1;
    if side.Producer? then e.produced.Some? && e.produced.value.0 == i && e.produced.value.1 == ProduceCode(r)
    else e.consumed.Some? && e.consumed.value.0 == i && e.consumed.value.1.None? && e.consumed.value.2 == ConsumeCode(r)
  }

  /** A call that finds the buffer closed to it. */
  predicate Refused<T>(s: State<T>, m: Move<T>, i: Id, side: Side, r: Reply)
    requires i < |s.crowd.pc|
  {
    r.SaysStopped? && m.id == i && s.crowd.pc[i].Idle?
    && (if side.Producer? then m.call.DoProduce? && !s.run.Running? else m.call.DoConsume? && s.run.Stopped?)
  }

  /** A suspended call that a notify of its side, or a stop, ends. */
  predicate Interrupted<T>(s: State<T>, m: Move<T>, i: Id, side: Side, r: Reply)
    requires |s.calls| == |s.crowd.pc| && m.id < |s.crowd.pc| && i < |s.crowd.pc|
  {
    var taker := s.crowd.pc[m.id];
    && (if side.Producer? then s.crowd.pc[i].ProducerWaits? else s.crowd.pc[i].ConsumerWaits?)
    && taker.Walk? && taker.todo != [] && taker.todo[0] == i
    && (if r.SaysStopped? then taker.cause.Stopping?
        else if side.Producer? then s.calls[m.id].DoNotifyProducers? else s.calls[m.id].DoNotifyConsumers?)
  }

  /** A consume for which an empty slot was emptied: only a harmful wrap of the counters brings that about. */
  predicate Blank<T>(s: State<T>, m: Move<T>, i: Id, side: Side, r: Reply)
    requires Inv(s) && m.id < |s.crowd.pc| && i < |s.crowd.pc|
  {
    && side.Consumer? && r.SaysStopped?
    && (if m.id == i then s.crowd.pc[i].Idle? && m.call.DoConsume? && !s.run.Stopped? && s.buf.used > 0 && Oldest(s.buf).None?
        else s.crowd.pc[m.id].HandConsumer? && s.crowd.pc[m.id].consumer == i && s.crowd.pc[i] == ConsumerWaits(None))
  }

  ghost predicate Accounted<T>(s: State<T>, m: Move<T>, i: Id, side: Side, r: Reply)
    requires Inv(s) && m.id < |s.crowd.pc| == |Next(s, m).0.crowd.pc| && i < |s.crowd.pc|
  {
    One(Owes(s.crowd.pc[i], side, r)) + One(Refused(s, m, i, side, r)) + One(Interrupted(s, m, i, side, r)) + One(Blank(s, m, i, side, r))
    == One(Says(s, m, i, side, r)) + One(Owes(Next(s, m).0.crowd.pc[i], side, r))
  }

  lemma CallAccounted<T>(s: State<T>, m: Move<T>, side: Side, r: Reply)
    requires Inv(s) && m.id < |s.crowd.pc| == |Next(s, m).0.crowd.pc| && s.crowd.pc[m.id].Idle?
    ensures Accounted(s, m, m.id, side, r)
  {
  }

  lemma OwnAccounted<T>(s: State<T>, m: Move<T>, side: Side, r: Reply)
    requires Inv(s) && m.id < |s.crowd.pc| == |Next(s, m).0.crowd.pc| && Partner(s, m.id) != Some(m.id)
    ensures Accounted(s, m, m.id, side, r)
  {
    if s.crowd.pc[m.id].Idle? {
      CallAccounted(s, m, side, r);
    } else if s.crowd.pc[m.id].WakeConsumers? || s.crowd.pc[m.id].WakeProducers? {
      PassAccounted(s, m, side, r);
    } else if Held(s.crowd.pc[m.id]) != [] {
      HeldSuspended(s.crowd, m.id);
    }
  }

  lemma PassAccounted<T>(s: State<T>, m: Move<T>, side: Side, r: Reply)
    requires Inv(s) && m.id < |s.crowd.pc| == |Next(s, m).0.crowd.pc| && Partner(s, m.id) != Some(m.id)
    requires s.crowd.pc[m.id].WakeConsumers? || s.crowd.pc[m.id].WakeProducers?
    ensures Accounted(s, m, m.id, side, r)
  {
  }

  /** A notify walks over one side only: over those whose call is of that side. */
  ghost predicate OneSided<T>(s: State<T>, t: Id)
    requires |s.calls| == |s.crowd.pc| && t < |s.crowd.pc|
  {
    var pc := s.crowd.pc[t];
    pc.Walk? && pc.cause.Notified? ==>
      forall k :: 0 <= k < |pc.todo| ==>
        pc.todo[k] < |s.calls| && (s.calls[t].DoNotifyProducers? <==> s.calls[pc.todo[k]].DoProduce?)
  }

  lemma PartnerAccounted<T>(s: State<T>, m: Move<T>, w: Id, side: Side, r: Reply)
    requires Inv(s) && m.id < |s.crowd.pc| == |Next(s, m).0.crowd.pc| && w < |s.crowd.pc| && w != m.id && Partner(s, m.id) == Some(w)
    requires Motives(s) && OneSided(s, m.id)
    ensures Accounted(s, m, w, side, r)
  {
    PartnerGoesOn(s, m, w);
    assert Motive(s.crowd.pc[w], s.calls[w], s.run) && Motive(s.crowd.pc[m.id], s.calls[m.id], s.run);
    if s.crowd.pc[m.id].Walk? { assert s.crowd.pc[m.id].todo[0] == w; }
  }

  lemma BystanderAccounted<T>(s: State<T>, m: Move<T>, i: Id, side: Side, r: Reply)
    requires Inv(s) && m.id < |s.crowd.pc| == |Next(s, m).0.crowd.pc| && i < |s.crowd.pc| && i != m.id
    requires Partner(s, m.id) != Some(i) && Next(s, m).0.crowd.pc[i] == s.crowd.pc[i]
    ensures Accounted(s, m, i, side, r)
  {
  }

  /** Whoever is on a list made the call that list is for. */
  lemma ListedCalls<T>(s: State<T>, k: nat)
    requires Inv(s) && Motives(s)
    ensures k < |s.crowd.producers| ==> s.crowd.producers[k] < |s.calls| && s.calls[s.crowd.producers[k]].DoProduce?
    ensures k < |s.crowd.consumers| ==> s.crowd.consumers[k] < |s.calls| && s.calls[s.crowd.consumers[k]].DoConsume?
  {
    var c := s.crowd;
    if k < |c.producers| { assert c.producers[k] in c.producers; assert c.place[c.producers[k]] == InProducers; }
    if k < |c.consumers| { assert c.consumers[k] in c.consumers; assert c.place[c.consumers[k]] == InConsumers; }
  }

  lemma NotifyIsOneSided<T>(s: State<T>, m: Move<T>)
    requires Inv(s) && m.id < |s.crowd.pc| && Motives(s) && (s.crowd.pc[m.id].NotifyProducers? || s.crowd.pc[m.id].NotifyConsumers?)
    ensures |Next(s, m).0.calls| == |Next(s, m).0.crowd.pc| == |s.crowd.pc| && OneSided(Next(s, m).0, m.id)
  {
    NextKeepsSizes(s, m);
    assert Motive(s.crowd.pc[m.id], s.calls[m.id], s.run);
    var todo := if s.crowd.pc[m.id].NotifyProducers? then s.crowd.producers else s.crowd.consumers;
    forall k | 0 <= k < |todo|
      ensures todo[k] < |s.calls| && (s.calls[m.id].DoNotifyProducers? <==> s.calls[todo[k]].DoProduce?)
    {
      ListedCalls(s, k);
    }
  }

  lemma WalkStaysOneSided<T>(s: State<T>, m: Move<T>, t: Id)
    requires Inv(s) && m.id < |s.crowd.pc| && t < |s.crowd.pc| && OneSided(s, t) && s.crowd.pc[t].Walk?
    ensures |Next(s, m).0.calls| == |Next(s, m).0.crowd.pc| == |s.crowd.pc| && OneSided(Next(s, m).0, t)
  {
    NextKeepsSizes(s, m);
    NextCalls(s, m);
    Touched(s, m, t);
    var todo := s.crowd.pc[t].todo;
    assert Holder(s.crowd, t);
    if t == m.id {
      if todo != [] {
        HeldSuspended(s.crowd, t);
        assert forall k :: 0 <= k < |todo[1..]| ==> todo[1..][k] == todo[k + 1];
      }
    } else {
      assert Next(s, m).0.crowd.pc[t] == s.crowd.pc[t];
      if s.crowd.pc[m.id].Idle? {
        assert forall k :: 0 <= k < |todo| ==> todo[k] != m.id;
      }
    }
  }

  lemma NextOneSided<T>(s: State<T>, m: Move<T>, t: Id)
    requires Inv(s) && m.id < |s.crowd.pc| && Motives(s) && t < |s.crowd.pc| && OneSided(s, t)
    ensures |Next(s, m).0.calls| == |Next(s, m).0.crowd.pc| == |s.crowd.pc| && OneSided(Next(s, m).0, t)
  {
    NextKeepsSizes(s, m);
    if s.crowd.pc[t].Walk? {
      WalkStaysOneSided(s, m, t);
    } else if t == m.id && (s.crowd.pc[t].NotifyProducers? || s.crowd.pc[t].NotifyConsumers?) {
      NotifyIsOneSided(s, m);
    } else {
      NoNotifyBegins(s, m, t);
    }
  }

  lemma NoNotifyBegins<T>(s: State<T>, m: Move<T>, t: Id)
    requires Inv(s) && m.id < |s.crowd.pc| == |Next(s, m).0.crowd.pc| && t < |s.crowd.pc| && !s.crowd.pc[t].Walk?
    requires t == m.id ==> !s.crowd.pc[t].NotifyProducers? && !s.crowd.pc[t].NotifyConsumers?
    ensures var pc := Next(s, m).0.crowd.pc[t]; pc.Walk? ==> !pc.cause.Notified?
  {
    Touched(s, m, t);
    if Partner(s, m.id) == Some(t) { PartnerGoesOn(s, m, t); }
    if t == m.id && Held(s.crowd.pc[t]) != [] { HeldSuspended(s.crowd, t); }
  }

  ghost predicate Reasoned<T>(s: State<T>) {
    Inv(s) && Motives(s) && forall t :: 0 <= t < |s.crowd.pc| ==> OneSided(s, t)
  }

  lemma NextReasoned<T>(s: State<T>, m: Move<T>)
    requires Reasoned(s) && m.id < |s.crowd.pc|
    ensures Reasoned(Next(s, m).0) && |Next(s, m).0.crowd.pc| == |s.crowd.pc|
  {
    NextKeepsInv(s, m);
    NextMotives(s, m);
    forall t | 0 <= t < |s.crowd.pc|
      ensures OneSided(Next(s, m).0, t)
    {
      NextOneSided(s, m, t);
    }
  }

  lemma StepAccounted<T>(s: State<T>, m: Move<T>, i: Id, side: Side, r: Reply)
    requires Reasoned(s) && m.id < |s.crowd.pc| && i < |s.crowd.pc|
    ensures |Next(s, m).0.crowd.pc| == |s.crowd.pc| && Accounted(s, m, i, side, r)
  {
    Touched(s, m, i);
    if i == m.id { OwnAccounted(s, m, side, r); }
    else if Partner(s, m.id) == Some(i) { PartnerAccounted(s, m, i, side, r); }
    else { BystanderAccounted(s, m, i, side, r); }
  }

  // ----- whole runs -----

  /** How often each reason arose for task `i`, and how often it gave the answer. */
  datatype Tally = Tally(refused: nat, interrupted: nat, blank: nat, said: nat)

  function Tallied<T>(s: State<T>, ms: seq<Move<T>>, i: Id, side: Side, r: Reply): (c: Tally)
    requires Legal(s, ms) && i < |s.crowd.pc|
    decreases |ms|
  {
    if ms == [] then Tally(0, 0, 0, 0)
    else
      NextKeepsInv(s, ms[0]);
      var later := Tallied(Next(s, ms[0]).0, ms[1..], i, side, r);
      Tally(One(Refused(s, ms[0], i, side, r)) + later.refused, One(Interrupted(s, ms[0], i, side, r)) + later.interrupted,
            One(Blank(s, ms[0], i, side, r)) + later.blank, One(Says(s, ms[0], i, side, r)) + later.said)
  }

  lemma {:induction false} RunAccounted<T>(s: State<T>, ms: seq<Move<T>>, i: Id, side: Side, r: Reply)
    requires Legal(s, ms) && Reasoned(s) && i < |s.crowd.pc|
    ensures var c := Tallied(s, ms, i, side, r);
      One(Owes(s.crowd.pc[i], side, r)) + c.refused + c.interrupted + c.blank == c.said + One(Owes(Exec(s, ms).crowd.pc[i], side, r))
    decreases |ms|
  {
    if ms != [] {
      NextKeepsInv(s, ms[0]);
      NextReasoned(s, ms[0]);
      StepAccounted(s, ms[0], i, side, r);
      RunAccounted(Next(s, ms[0]).0, ms[1..], i, side, r);
    }
  }

  /** A consumer that has been handed something has been handed an element. */
  ghost predicate HandsFull<T>(s: State<T>) {
    forall t :: 0 <= t < |s.crowd.pc| && s.crowd.pc[t].HandConsumer? ==>
      var w := s.crowd.pc[t].consumer; w < |s.crowd.pc| && s.crowd.pc[w].ConsumerWaits? && s.crowd.pc[w].got.Some?
  }

  lemma NextHandsFull<T>(s: State<T>, m: Move<T>)
    requires Inv(s) && m.id < |s.crowd.pc| && Holds(s.buf) && HandsFull(s)
    ensures HandsFull(Next(s, m).0)
  {
    NextKeepsSizes(s, m);
    forall t | 0 <= t < |s.crowd.pc| && Next(s, m).0.crowd.pc[t].HandConsumer?
      ensures var c, w := Next(s, m).0.crowd, Next(s, m).0.crowd.pc[t].consumer;
        w < |c.pc| && c.pc[w].ConsumerWaits? && c.pc[w].got.Some?
    {
      if t == m.id { PopHandsFull(s, m); } else { OtherHandsFull(s, m, t); }
    }
  }

  lemma OldestThere<T>(b: Buf<T>)
    requires Holds(b) && b.used > 0
    ensures Oldest(b).Some?
  {
    assert Around(b.back % |b.slots|, 0, |b.slots|) == b.back % |b.slots|;
  }

  lemma PopHandsFull<T>(s: State<T>, m: Move<T>)
    requires Inv(s) && m.id < |s.crowd.pc| == |Next(s, m).0.crowd.pc| && Holds(s.buf) && Next(s, m).0.crowd.pc[m.id].HandConsumer?
    ensures var c, w := Next(s, m).0.crowd, Next(s, m).0.crowd.pc[m.id].consumer;
      w < |c.pc| && c.pc[w].ConsumerWaits? && c.pc[w].got.Some?
  {
    if Held(s.crowd.pc[m.id]) != [] { HeldSuspended(s.crowd, m.id); }
    if s.crowd.producers != [] { assert s.crowd.place[s.crowd.producers[0]] == InProducers; }
    if s.crowd.consumers != [] { assert s.crowd.place[s.crowd.consumers[0]] == InConsumers; }
    if s.buf.used > 0 { OldestThere(s.buf); }
  }

  lemma OtherHandsFull<T>(s: State<T>, m: Move<T>, t: Id)
    requires Inv(s) && m.id < |s.crowd.pc| == |Next(s, m).0.crowd.pc| && HandsFull(s) && t < |s.crowd.pc| && t != m.id
    requires Next(s, m).0.crowd.pc[t].HandConsumer?
    ensures var c, w := Next(s, m).0.crowd, Next(s, m).0.crowd.pc[t].consumer;
      w < |c.pc| && c.pc[w].ConsumerWaits? && c.pc[w].got.Some?
  {
    Touched(s, m, t);
    if Partner(s, m.id) == Some(t) { PartnerGoesOn(s, m, t); }
    var w := s.crowd.pc[t].consumer;
    HeldSuspended(s.crowd, t);
    Touched(s, m, w);
    if Partner(s, m.id) == Some(w) { NotTwiceHeld(s, m.id, t, w); }
  }

  lemma NotTwiceHeld<T>(s: State<T>, i: Id, t: Id, w: Id)
    requires Inv(s) && i < |s.crowd.pc| && t < |s.crowd.pc| && i != t && w < |s.crowd.pc| && s.crowd.place[w] == With(t)
    ensures Partner(s, i) != Some(w)
  {
    var c := s.crowd;
    if Held(c.pc[i]) != [] { HeldSuspended(c, i); }
    if c.consumers != [] { assert c.place[c.consumers[0]] == InConsumers; }
    if c.producers != [] { assert c.place[c.producers[0]] == InProducers; }
  }

  lemma {:induction false} NeverBlank<T>(s: State<T>, ms: seq<Move<T>>, i: Id, side: Side, r: Reply)
    requires Legal(s, ms) && i < |s.crowd.pc| && Holds(s.buf) && HandsFull(s) && Clear(s.buf, |StoredElements(Trace(s, ms))|)
    ensures Tallied(s, ms, i, side, r).blank == 0
    decreases |ms|
  {
    if ms != [] {
      NextKeepsInv(s, ms[0]);
      var (t, e) := Next(s, ms[0]);
      var es := Trace(s, ms);
      assert es[0] == e && es[1..] == Trace(t, ms[1..]);
      NextIsFifo(s, ms[0], |StoredElements(es[1..])|);
      NextHandsFull(s, ms[0]);
      if s.buf.used > 0 { OldestThere(s.buf); }
      assert !Blank(s, ms[0], i, side, r);
      NeverBlank(t, ms[1..], i, side, r);
    }
  }

  /**
   * Over every run without a harmful wrap, and for every task: an answer without an element is given
   * exactly as often as there was a reason for it. Notified: a notify of the task's own side woke it.
   * Stopped: the call found the buffer closed to it, or a stop woke it.
   */
  lemma EveryAnswerHasItsReason<T>(s: State<T>, n: nat, ms: seq<Move<T>>, i: Id, side: Side, r: Reply)
    requires Init(s, n) && Legal(s, ms) && i < |s.crowd.pc| && NoHarmfulWrap(n, Trace(s, ms))
    ensures var c := Tallied(s, ms, i, side, r);
      c.refused + c.interrupted == c.said + One(Owes(Exec(s, ms).crowd.pc[i], side, r))
  {
    EmptyHolds<T>(n);
    assert Reasoned(s);
    RunAccounted(s, ms, i, side, r);
    NeverBlank(s, ms, i, side, r);
  }

  // ----- what a call does in its first section -----

  /**
   * Produce stores if the buffer is running and has room, suspends if it is running and full, and is
   * refused otherwise; consume takes the oldest element if there is one and the buffer is not stopped,
   * suspends if there is none, and is refused if it is stopped.
   */
  lemma CallMeans<T>(s: State<T>, m: Move<T>)
    requires Inv(s) && m.id < |s.crowd.pc| && s.crowd.pc[m.id].Idle? && Holds(s.buf)
    requires Clear(s.buf, 1) && (m.call.DoProduce? || m.call.DoConsume?)
    ensures var t := Next(s, m).0;
      && |t.crowd.pc| == |s.crowd.pc| && Holds(t.buf)
      && (m.call.DoProduce? && s.run.Running? && s.buf.used < |s.buf.slots| ==>
            Contents(t.buf) == Contents(s.buf) + [m.call.e] && t.crowd.pc[m.id] == WakeConsumers(Produced))
      && (m.call.DoProduce? && s.run.Running? && s.buf.used == |s.buf.slots| ==>
            t.buf == s.buf && t.crowd.producers == [m.id] + s.crowd.producers && t.crowd.pc[m.id] == ProducerWaits(m.call.e, false))
      && (m.call.DoConsume? && !s.run.Stopped? && s.buf.used > 0 ==>
            Contents(s.buf) == [Contents(s.buf)[0]] + Contents(t.buf)
            && t.crowd.pc[m.id].WakeProducers? && t.crowd.pc[m.id].got == Some(Contents(s.buf)[0]))
      && (m.call.DoConsume? && !s.run.Stopped? && s.buf.used == 0 ==>
            t.buf == s.buf && t.crowd.consumers == [m.id] + s.crowd.consumers && t.crowd.pc[m.id] == ConsumerWaits(None))
      && ((if m.call.DoProduce? then !s.run.Running? else s.run.Stopped?) ==>
            t.buf == s.buf && Owes(t.crowd.pc[m.id], if m.call.DoProduce? then Producer else Consumer, SaysStopped))
  {
    if m.call.DoProduce? {
      if s.run.Running? && s.buf.used < |s.buf.slots| { StoreAppends(s.buf, m.call.e); }
    } else if !s.run.Stopped? && s.buf.used > 0 {
      TakeRemovesOldest(s.buf);
    }
  }
}
