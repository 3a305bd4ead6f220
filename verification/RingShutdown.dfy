/**
 * What every run of the ring buffer keeps across draining and shutdown, and that no coroutine,
 * element or result is lost or duplicated on the way (include/coro/ring_buffer.hpp).
 */
module RingShutdown {
  import opened Prelude
  import opened RingStorage
  import opened RingCrowd
  import opened RingProtocol

  // ----- once production is closed it stays closed -----

  ghost predicate Closed<T>(s: State<T>) {
    !s.run.Running? && s.crowd.producers == []
  }

  function Phase(run: Run): (n: nat) {
    match run case Running => 0 case Draining => 1 case Stopped => 2
  }

  lemma NextKeepsClosed<T>(s: State<T>, m: Move<T>)
    requires Inv(s) && m.id < |s.crowd.pc| && Closed(s)
    ensures var (n, e) := Next(s, m); Closed(n) && e.stored.None? && n.buf.used <= s.buf.used
  {
  }

  lemma {:induction false} ClosedForever<T>(s: State<T>, ms: seq<Move<T>>)
    requires Legal(s, ms) && Closed(s)
    ensures Closed(Exec(s, ms)) && StoredElements(Trace(s, ms)) == [] && Exec(s, ms).buf.used <= s.buf.used
    decreases |ms|
  {
    if ms != [] {
      NextKeepsInv(s, ms[0]);
      NextKeepsClosed(s, ms[0]);
      ClosedForever(Next(s, ms[0]).0, ms[1..]);
      assert Trace(s, ms)[1..] == Trace(Next(s, ms[0]).0, ms[1..]);
    }
  }

  predicate Drains<T>(pc: Pc<T>) {
    (pc.Walk? && pc.cause.DrainBegun?) || pc.DrainEmpty? || pc.DrainState?
  }

  /** A drainer at work means closed, and only a stopped buffer gets swept. */
  ghost predicate Timely<T>(s: State<T>, pc: Pc<T>) {
    && (Drains(pc) ==> Closed(s))
    && (pc.Sweep? ==> s.run.Stopped?)
    && (pc.StopExchange? ==> !pc.expected.Stopped?)
  }

  ghost predicate Phased<T>(s: State<T>) {
    && (s.run.Draining? ==> s.crowd.producers == [])
    && (forall t :: 0 <= t < |s.crowd.pc| ==> Timely(s, s.crowd.pc[t]))
  }

  /** The other task, if any, whose operation a step of task `i` touches. */
  function Partner<T>(s: State<T>, i: Id): (w: Option<Id>)
    requires Inv(s) && i < |s.crowd.pc|
  {
    var pc := s.crowd.pc[i];
    if Held(pc) != [] then Some(Held(pc)[0])
    else if pc.WakeConsumers? && s.buf.used > 0 && s.crowd.consumers != [] then Some(s.crowd.consumers[0])
    else if pc.WakeProducers? && s.buf.used < |s.buf.slots| && s.crowd.producers != [] then Some(s.crowd.producers[0])
    else None
  }

  /** The partner is suspended, and nothing happens to anyone else. */
  lemma Touched<T>(s: State<T>, m: Move<T>, i: Id)
    requires Inv(s) && m.id < |s.crowd.pc| && i < |s.crowd.pc|
    ensures |Next(s, m).0.crowd.pc| == |s.crowd.pc|
    ensures Partner(s, m.id) == Some(i) ==> i != m.id && Suspended(s.crowd.pc[i]) && !Suspended(s.crowd.pc[m.id])
    ensures i != m.id && Partner(s, m.id) != Some(i) ==> Next(s, m).0.crowd.pc[i] == s.crowd.pc[i]
  {
    NextKeepsSizes(s, m);
    var c := s.crowd;
    if Held(c.pc[m.id]) != [] { HeldSuspended(c, m.id); }
    if c.consumers != [] { assert c.place[c.consumers[0]] == InConsumers; }
    if c.producers != [] { assert c.place[c.producers[0]] == InProducers; }
  }

  /** What a step leaves its partner with. */
  lemma PartnerGoesOn<T>(s: State<T>, m: Move<T>, w: Id)
    requires Inv(s) && m.id < |s.crowd.pc| && w < |s.crowd.pc| && Partner(s, m.id) == Some(w)
    requires |Next(s, m).0.crowd.pc| == |s.crowd.pc| && w != m.id
    ensures var pc, pc' := s.crowd.pc[w], Next(s, m).0.crowd.pc[w];
      match s.crowd.pc[m.id]
      case WakeConsumers(_) => pc == ConsumerWaits(None) && pc' == ConsumerWaits(Oldest(s.buf))
      case WakeProducers(_, _) => pc.ProducerWaits? && !pc.stored && pc' == ProducerWaits(pc.e, true)
      case HandConsumer(_, _) => pc.ConsumerWaits? && pc' == WakeProducers(pc.got, ConsumeStopped)
      case HandProducer(_, _, _) => pc.ProducerWaits? && pc.stored && pc' == WakeConsumers(Produced)
      case Walk(_, cause) => Unserved(pc) && pc' == Woken(pc, cause) && (cause.DrainBegun? ==> pc.ProducerWaits?)
      case _ => false
  {
    var c := s.crowd;
    if Held(c.pc[m.id]) != [] { HeldSuspended(c, m.id); }
    if c.consumers != [] { assert c.place[c.consumers[0]] == InConsumers; }
    if c.producers != [] { assert c.place[c.producers[0]] == InProducers; }
  }

  lemma NextKeepsTimely<T>(s: State<T>, m: Move<T>, t: Id)
    requires Inv(s) && m.id < |s.crowd.pc| && t < |s.crowd.pc| && Timely(s, s.crowd.pc[m.id]) && Timely(s, s.crowd.pc[t])
    requires |Next(s, m).0.crowd.pc| == |s.crowd.pc|
    ensures Timely(Next(s, m).0, Next(s, m).0.crowd.pc[t])
  {
    Touched(s, m, t);
    if t == m.id {
      TimelyStep(s, m);
    } else {
      if Partner(s, m.id) == Some(t) { PartnerGoesOn(s, m, t); }
      if Closed(s) { NextKeepsClosed(s, m); }
    }
  }

  lemma TimelyStep<T>(s: State<T>, m: Move<T>)
    requires Inv(s) && m.id < |s.crowd.pc| && Timely(s, s.crowd.pc[m.id]) && |Next(s, m).0.crowd.pc| == |s.crowd.pc|
    ensures Timely(Next(s, m).0, Next(s, m).0.crowd.pc[m.id])
  {
    match s.crowd.pc[m.id]
    case Walk(todo, _) => if todo != [] { HeldSuspended(s.crowd, m.id); }
    case HandConsumer(_, _) => HeldSuspended(s.crowd, m.id);
    case HandProducer(_, _, _) => HeldSuspended(s.crowd, m.id);
    case Idle => TimelyCall(s, m);
    case _ =>
  }

  lemma TimelyCall<T>(s: State<T>, m: Move<T>)
    requires Inv(s) && m.id < |s.crowd.pc| && s.crowd.pc[m.id].Idle? && |Next(s, m).0.crowd.pc| == |s.crowd.pc|
    ensures Timely(Next(s, m).0, Next(s, m).0.crowd.pc[m.id])
  {
  }

  lemma NextKeepsPhase<T>(s: State<T>, m: Move<T>)
    requires Inv(s) && m.id < |s.crowd.pc| && Phased(s)
    ensures Phased(Next(s, m).0)
    ensures Phase(s.run) <= Phase(Next(s, m).0.run)
    ensures Next(s, m).1.halted <==> !s.run.Stopped? && Next(s, m).0.run.Stopped?
    ensures Next(s, m).1.emptied ==> Closed(s) && s.buf.used == 0
    ensures Next(s, m).1.swept ==> s.run.Stopped? && Next(s, m).0.crowd.producers == [] == Next(s, m).0.crowd.consumers
    ensures Next(s, m).1.enlisted.Some? ==> !s.run.Stopped?
  {
    NextKeepsSizes(s, m);
    assert Timely(s, s.crowd.pc[m.id]);
    forall t | 0 <= t < |s.crowd.pc|
      ensures Timely(Next(s, m).0, Next(s, m).0.crowd.pc[t])
    {
      assert Timely(s, s.crowd.pc[t]);
      NextKeepsTimely(s, m, t);
    }
  }

  function Halts<T>(es: seq<Event<T>>): (n: nat) {
    if es == [] then 0 else One(es[0].halted) + Halts(es[1..])
  }

  lemma {:induction false} RunKeepsPhase<T>(s: State<T>, ms: seq<Move<T>>)
    requires Legal(s, ms) && Phased(s)
    ensures Phased(Exec(s, ms)) && Phase(s.run) <= Phase(Exec(s, ms).run)
    ensures One(s.run.Stopped?) + Halts(Trace(s, ms)) == One(Exec(s, ms).run.Stopped?)
    decreases |ms|
  {
    if ms != [] {
      NextKeepsInv(s, ms[0]);
      NextKeepsPhase(s, ms[0]);
      RunKeepsPhase(Next(s, ms[0]).0, ms[1..]);
      assert Trace(s, ms)[1..] == Trace(Next(s, ms[0]).0, ms[1..]);
    }
  }

  /**
   * The state only moves running, draining, stopped; exactly one call makes the last move if it
   * is made at all; and nobody is suspended on a stopped buffer any more.
   */
  lemma StateMovesForward<T>(s: State<T>, n: nat, before: seq<Move<T>>, after: seq<Move<T>>, m: Move<T>)
    requires Init(s, n) && Legal(s, before) && Legal(Exec(s, before), after) && m.id < |s.crowd.pc|
    ensures Phase(Exec(s, before).run) <= Phase(Exec(Exec(s, before), after).run)
    ensures Halts(Trace(s, before)) == One(Exec(s, before).run.Stopped?)
    ensures Exec(s, before).run.Stopped? ==> Next(Exec(s, before), m).1.enlisted.None?
  {
    RunKeepsPhase(s, before);
    RunKeepsPhase(Exec(s, before), after);
    NextKeepsPhase(Exec(s, before), m);
  }

  /** Once draining, nothing enters, no producer waits and the buffer never grows. */
  lemma DrainingIsClosed<T>(s: State<T>, n: nat, before: seq<Move<T>>, after: seq<Move<T>>)
    requires Init(s, n) && Legal(s, before) && Legal(Exec(s, before), after) && Exec(s, before).run.Draining?
    ensures var t := Exec(Exec(s, before), after);
      t.crowd.producers == [] && t.buf.used <= Exec(s, before).buf.used
    ensures StoredElements(Trace(Exec(s, before), after)) == []
  {
    RunKeepsPhase(s, before);
    ClosedForever(Exec(s, before), after);
  }

  /**
   * When a drain loop ends because it saw the buffer empty, every element ever stored has been
   * taken out, once and in order; and that remains so however the run goes on.
   */
  lemma DrainDeliversEverything<T>(s: State<T>, n: nat, before: seq<Move<T>>, m: Move<T>, after: seq<Move<T>>)
    requires Init(s, n) && Legal(s, before) && NoHarmfulWrap(n, Trace(s, before)) && m.id < |s.crowd.pc|
    requires Next(Exec(s, before), m).1.emptied && Legal(Exec(s, before), after)
    ensures Somes(StoredElements(Trace(s, before))) == TakenElements(Trace(s, before))
    ensures StoredElements(Trace(Exec(s, before), after)) == [] && TakenElements(Trace(Exec(s, before), after)) == []
  {
    var t := Exec(s, before);
    RunKeepsPhase(s, before);
    NextKeepsPhase(t, m);
    EveryRunIsFifo(s, n, before);
    assert Somes(Contents(t.buf)) == [];
    ClosedForever(t, after);
    RunIsFifo(t, after);
  }

  ghost predicate Over<T>(s: State<T>) {
    s.run.Stopped? && s.crowd.producers == [] == s.crowd.consumers
  }

  lemma {:induction false} OverForever<T>(s: State<T>, ms: seq<Move<T>>)
    requires Legal(s, ms) && Over(s)
    ensures Over(Exec(s, ms))
    decreases |ms|
  {
    if ms != [] {
      NextKeepsInv(s, ms[0]);
      OverForever(Next(s, ms[0]).0, ms[1..]);
    }
  }

  /** After the second section of the shutdown both waiter lists are empty, for good. */
  lemma SweptForGood<T>(s: State<T>, n: nat, before: seq<Move<T>>, m: Move<T>, after: seq<Move<T>>)
    requires Init(s, n) && Legal(s, before) && m.id < |s.crowd.pc| && Next(Exec(s, before), m).1.swept
    requires Legal(Next(Exec(s, before), m).0, after)
    ensures Over(Exec(Next(Exec(s, before), m).0, after))
  {
    RunKeepsPhase(s, before);
    NextKeepsPhase(Exec(s, before), m);
    OverForever(Next(Exec(s, before), m).0, after);
  }

  // ----- nobody is resumed twice, dropped, or told the wrong thing -----

  /** What one step means for task `i`. */
  datatype Deed<T> = Deed(
    enlisted: bool, resumed: bool, drained: bool, stored: bool, saidProduced: bool,
    taken: seq<T>, returned: seq<T>)

  function Got<T>(x: Option<T>): (xs: seq<T>) {
    if x.Some? then [x.value] else []
  }

  function DeedOf<T>(e: Event<T>, i: Id): (d: Deed<T>) {
    Deed(e.enlisted.Some? && e.enlisted.value == i,
         e.resumed.Some? && e.resumed.value.0 == i,
         e.resumed.Some? && e.resumed.value.0 == i && e.resumed.value.1 == Some(DrainBegun),
         e.stored.Some? && e.stored.value.0 == i,
         e.produced.Some? && e.produced.value.0 == i && e.produced.value.1.Produced?,
         if e.taken.Some? && e.taken.value.0 == i then Got(e.taken.value.1) else [],
         if e.consumed.Some? && e.consumed.value.0 == i then Got(e.consumed.value.1) else [])
  }

  /** A producer on its way to returning `produced`. */
  predicate WillSayProduced<T>(pc: Pc<T>) {
    match pc
    case ProducerWaits(_, stored) => stored
    case WakeConsumers(r) => r.Produced?
    case HandConsumer(_, r) => r.Produced?
    case _ => false
  }

  /** The element a consumer on its way to returning carries. */
  function InHand<T>(pc: Pc<T>): (xs: seq<T>) {
    match pc
    case ConsumerWaits(got) => Got(got)
    case WakeProducers(got, _) => Got(got)
    case HandProducer(_, got, _) => Got(got)
    case _ => []
  }

  /** The books of one task over one step: suspensions, results of produce, elements consumed. */
  ghost predicate Balanced<T>(pc: Pc<T>, d: Deed<T>, pc': Pc<T>) {
    && One(Suspended(pc)) + One(d.enlisted) == One(d.resumed) + One(Suspended(pc'))
    && One(WillSayProduced(pc)) + One(d.stored) + One(d.drained)
       == One(d.saidProduced) + One(WillSayProduced(pc'))
    && InHand(pc) + d.taken == d.returned + InHand(pc')
  }

  /** A task that enters no wake-up loop and leaves none does nothing that is booked. */
  lemma QuietBooks<T>(pc: Pc<T>, i: Id, pc': Pc<T>)
    requires !Suspended(pc) && !Suspended(pc') && !WillSayProduced(pc) && !WillSayProduced(pc')
    requires InHand(pc) == [] == InHand(pc')
    ensures Balanced(pc, DeedOf(Quiet<T>(), i), pc')
  {
  }

  lemma CallBooks<T>(s: State<T>, m: Move<T>)
    requires Inv(s) && m.id < |s.crowd.pc| && s.crowd.pc[m.id].Idle?
    ensures Balanced(s.crowd.pc[m.id], DeedOf(Next(s, m).1, m.id), Next(s, m).0.crowd.pc[m.id])
  {
    var e := Next(s, m).1;
    match m.call
    case DoProduce(_) => assert e.taken.None? && e.consumed.None?;
    case DoConsume =>
    case _ =>
  }

  lemma PassBooks<T>(s: State<T>, m: Move<T>)
    requires Inv(s) && m.id < |s.crowd.pc| && (s.crowd.pc[m.id].WakeConsumers? || s.crowd.pc[m.id].WakeProducers?)
    requires Partner(s, m.id) != Some(m.id)
    ensures Balanced(s.crowd.pc[m.id], DeedOf(Next(s, m).1, m.id), Next(s, m).0.crowd.pc[m.id])
  {
    if s.crowd.pc[m.id].WakeConsumers? { ConsumersPassBooks(s, m); } else { ProducersPassBooks(s, m); }
  }

  lemma ConsumersPassBooks<T>(s: State<T>, m: Move<T>)
    requires Inv(s) && m.id < |s.crowd.pc| && s.crowd.pc[m.id].WakeConsumers? && Partner(s, m.id) != Some(m.id)
    ensures Balanced(s.crowd.pc[m.id], DeedOf(Next(s, m).1, m.id), Next(s, m).0.crowd.pc[m.id])
  {
    var pc, pc' := s.crowd.pc[m.id], Next(s, m).0.crowd.pc[m.id];
    assert pc'.HandConsumer? || pc'.Idle?;
    assert InHand(pc) == [] == InHand(pc');
  }

  lemma ProducersPassBooks<T>(s: State<T>, m: Move<T>)
    requires Inv(s) && m.id < |s.crowd.pc| && s.crowd.pc[m.id].WakeProducers? && Partner(s, m.id) != Some(m.id)
    ensures Balanced(s.crowd.pc[m.id], DeedOf(Next(s, m).1, m.id), Next(s, m).0.crowd.pc[m.id])
  {
    var pc, pc' := s.crowd.pc[m.id], Next(s, m).0.crowd.pc[m.id];
    assert pc'.HandProducer? || pc'.Idle?;
  }

  lemma HandBooks<T>(s: State<T>, m: Move<T>)
    requires Inv(s) && m.id < |s.crowd.pc| == |Next(s, m).0.crowd.pc| && Held(s.crowd.pc[m.id]) != []
    ensures Balanced(s.crowd.pc[m.id], DeedOf(Next(s, m).1, m.id), Next(s, m).0.crowd.pc[m.id])
  {
    HeldSuspended(s.crowd, m.id);
  }

  lemma OwnBooks<T>(s: State<T>, m: Move<T>)
    requires Inv(s) && m.id < |s.crowd.pc| == |Next(s, m).0.crowd.pc| && Partner(s, m.id) != Some(m.id)
    ensures Balanced(s.crowd.pc[m.id], DeedOf(Next(s, m).1, m.id), Next(s, m).0.crowd.pc[m.id])
  {
    match s.crowd.pc[m.id]
    case Idle => CallBooks(s, m);
    case ProducerWaits(_, _) =>
    case ConsumerWaits(_) =>
    case WakeConsumers(_) => PassBooks(s, m);
    case WakeProducers(_, _) => PassBooks(s, m);
    case HandConsumer(_, _) => HandBooks(s, m);
    case HandProducer(_, _, _) => HandBooks(s, m);
    case Walk(todo, _) => if todo != [] { HandBooks(s, m); } else { ControlBooks(s, m); }
    case _ => ControlBooks(s, m);
  }

  /** Steps of notify, shutdown and drain themselves. */
  lemma ControlBooks<T>(s: State<T>, m: Move<T>)
    requires Inv(s) && m.id < |s.crowd.pc| == |Next(s, m).0.crowd.pc| && Held(s.crowd.pc[m.id]) == [] && !Suspended(s.crowd.pc[m.id])
    requires !s.crowd.pc[m.id].Idle? && !s.crowd.pc[m.id].WakeConsumers? && !s.crowd.pc[m.id].WakeProducers?
    ensures Balanced(s.crowd.pc[m.id], DeedOf(Next(s, m).1, m.id), Next(s, m).0.crowd.pc[m.id])
  {
    QuietBooks(s.crowd.pc[m.id], m.id, Next(s, m).0.crowd.pc[m.id]);
  }

  lemma PartnerBooks<T>(s: State<T>, m: Move<T>, w: Id)
    requires Inv(s) && m.id < |s.crowd.pc| == |Next(s, m).0.crowd.pc| && w < |s.crowd.pc| && w != m.id
    requires Partner(s, m.id) == Some(w)
    ensures Balanced(s.crowd.pc[w], DeedOf(Next(s, m).1, w), Next(s, m).0.crowd.pc[w])
  {
    if Held(s.crowd.pc[m.id]) == [] { PassedBooks(s, m, w); } else { ResumedBooks(s, m, w); }
  }

  /** A pass stores a producer's element, or takes one out for a consumer. */
  lemma PassedBooks<T>(s: State<T>, m: Move<T>, w: Id)
    requires Inv(s) && m.id < |s.crowd.pc| == |Next(s, m).0.crowd.pc| && w < |s.crowd.pc| && w != m.id
    requires Partner(s, m.id) == Some(w) && Held(s.crowd.pc[m.id]) == []
    ensures Balanced(s.crowd.pc[w], DeedOf(Next(s, m).1, w), Next(s, m).0.crowd.pc[w])
  {
    PartnerGoesOn(s, m, w);
  }

  lemma ResumedBooks<T>(s: State<T>, m: Move<T>, w: Id)
    requires Inv(s) && m.id < |s.crowd.pc| == |Next(s, m).0.crowd.pc| && w < |s.crowd.pc| && w != m.id
    requires Partner(s, m.id) == Some(w) && Held(s.crowd.pc[m.id]) != []
    ensures Balanced(s.crowd.pc[w], DeedOf(Next(s, m).1, w), Next(s, m).0.crowd.pc[w])
  {
    PartnerGoesOn(s, m, w);
  }

  lemma BystanderBooks<T>(s: State<T>, m: Move<T>, i: Id)
    requires Inv(s) && m.id < |s.crowd.pc| == |Next(s, m).0.crowd.pc| && i < |s.crowd.pc| && i != m.id
    requires Partner(s, m.id) != Some(i) && Next(s, m).0.crowd.pc[i] == s.crowd.pc[i]
    ensures Balanced(s.crowd.pc[i], DeedOf(Next(s, m).1, i), Next(s, m).0.crowd.pc[i])
  {
    assert DeedOf(Next(s, m).1, i) == Deed(false, false, false, false, false, [], []);
  }

  lemma StepBooks<T>(s: State<T>, m: Move<T>, i: Id)
    requires Inv(s) && m.id < |s.crowd.pc| && i < |s.crowd.pc|
    ensures |Next(s, m).0.crowd.pc| == |s.crowd.pc|
    ensures Balanced(s.crowd.pc[i], DeedOf(Next(s, m).1, i), Next(s, m).0.crowd.pc[i])
  {
    Touched(s, m, i);
    if i == m.id { OwnBooks(s, m); }
    else if Partner(s, m.id) == Some(i) { PartnerBooks(s, m, i); }
    else { BystanderBooks(s, m, i); }
  }

  function Deeds<T>(es: seq<Event<T>>, i: Id): (ds: seq<Deed<T>>) {
    seq(|es|, k requires 0 <= k < |es| => DeedOf(es[k], i))
  }

  function Enlistments<T>(ds: seq<Deed<T>>): (n: nat) { if ds == [] then 0 else One(ds[0].enlisted) + Enlistments(ds[1..]) }
  function Resumptions<T>(ds: seq<Deed<T>>): (n: nat) { if ds == [] then 0 else One(ds[0].resumed) + Resumptions(ds[1..]) }
  function Stores<T>(ds: seq<Deed<T>>): (n: nat) { if ds == [] then 0 else One(ds[0].stored) + Stores(ds[1..]) }
  function Saids<T>(ds: seq<Deed<T>>): (n: nat) { if ds == [] then 0 else One(ds[0].saidProduced) + Saids(ds[1..]) }
  function AllTaken<T>(ds: seq<Deed<T>>): (xs: seq<T>) { if ds == [] then [] else ds[0].taken + AllTaken(ds[1..]) }
  function AllReturned<T>(ds: seq<Deed<T>>): (xs: seq<T>) { if ds == [] then [] else ds[0].returned + AllReturned(ds[1..]) }

  function Drainings<T>(ds: seq<Deed<T>>): (n: nat) { if ds == [] then 0 else One(ds[0].drained) + Drainings(ds[1..]) }

  lemma {:induction false} RunBooks<T>(s: State<T>, ms: seq<Move<T>>, i: Id)
    requires Legal(s, ms) && i < |s.crowd.pc|
    ensures var ds, pc, pc' := Deeds(Trace(s, ms), i), s.crowd.pc[i], Exec(s, ms).crowd.pc[i];
      && One(Suspended(pc)) + Enlistments(ds) == Resumptions(ds) + One(Suspended(pc'))
      && One(WillSayProduced(pc)) + Stores(ds) + Drainings(ds) == Saids(ds) + One(WillSayProduced(pc'))
      && InHand(pc) + AllTaken(ds) == AllReturned(ds) + InHand(pc')
    decreases |ms|
  {
    if ms != [] {
      NextKeepsInv(s, ms[0]);
      StepBooks(s, ms[0], i);
      var t := Next(s, ms[0]).0;
      RunBooks(t, ms[1..], i);
      var es, ds := Trace(s, ms), Deeds(Trace(s, ms), i);
      assert es[0] == Next(s, ms[0]).1 && es[1..] == Trace(t, ms[1..]);
      assert ds[0] == DeedOf(es[0], i) && ds[1..] == Deeds(es[1..], i);
      Chained(InHand(s.crowd.pc[i]), ds[0].taken, ds[0].returned, InHand(t.crowd.pc[i]),
              AllTaken(ds[1..]), AllReturned(ds[1..]), InHand(Exec(s, ms).crowd.pc[i]));
    }
  }

  /**
   * Over every run and for every task: each suspension is ended at most once, whoever ends it;
   * `produced` is returned exactly for the elements stored and the producers a drain woke; and
   * consume returns exactly the elements taken out for it, in order.
   */
  lemma EveryTaskIsServed<T>(s: State<T>, n: nat, ms: seq<Move<T>>, i: Id)
    requires Init(s, n) && Legal(s, ms) && i < |s.crowd.pc|
    ensures var ds, pc := Deeds(Trace(s, ms), i), Exec(s, ms).crowd.pc[i];
      && Enlistments(ds) == Resumptions(ds) + One(Suspended(pc))
      && Stores(ds) + Drainings(ds) == Saids(ds) + One(WillSayProduced(pc))
      && AllTaken(ds) == AllReturned(ds) + InHand(pc)
  {
    RunBooks(s, ms, i);
  }

  // ----- `produced` does not mean stored for a producer that a drain woke -----

  lemma TraceStep<T>(s: State<T>, ms: seq<Move<T>>, i: Id)
    requires Legal(s, ms) && ms != []
    ensures Inv(Next(s, ms[0]).0) && Legal(Next(s, ms[0]).0, ms[1..])
    ensures var ds, d := Deeds(Trace(s, ms), i), DeedOf(Next(s, ms[0]).1, i);
      var later := Deeds(Trace(Next(s, ms[0]).0, ms[1..]), i);
      Saids(ds) == One(d.saidProduced) + Saids(later) && Stores(ds) == One(d.stored) + Stores(later)
  {
    NextKeepsInv(s, ms[0]);
    var es := Trace(s, ms);
    assert es[1..] == Trace(Next(s, ms[0]).0, ms[1..]);
    assert Deeds(es, i)[1..] == Deeds(es[1..], i);
  }

  /** Task 0 fills the only slot, task 1 suspends with the second element, task 2 drains and wakes it. */
  function DrainedRun(): (ms: seq<Move<nat>>) {
    [Move(0, DoProduce(7)), Move(1, DoProduce(8)), Move(2, DoShutdownDrain), Move(2, DoConsume), Move(1, DoConsume)]
  }

  lemma FirstStep(s: State<nat>)
    requires Init(s, 1) && |s.crowd.pc| == 3
    ensures var t := Next(s, Move(0, DoProduce(7))).0;
      && Inv(t) && t.run.Running? && t.buf.used == |t.buf.slots|
      && t.crowd.pc == [WakeConsumers(Produced), Idle, Idle] && t.crowd.consumers == [] && t.crowd.producers == []
  {
    NextKeepsInv(s, Move(0, DoProduce(7)));
  }

  lemma FirstStores(s: State<nat>) returns (t: State<nat>)
    requires Init(s, 1) && |s.crowd.pc| == 3
    ensures Legal(s, DrainedRun()) && Legal(t, DrainedRun()[1..]) && t.run.Running? && t.buf.used == |t.buf.slots|
    ensures t.crowd.pc == [WakeConsumers(Produced), Idle, Idle] && t.crowd.consumers == [] && t.crowd.producers == []
    ensures var ds, later := Deeds(Trace(s, DrainedRun()), 1), Deeds(Trace(t, DrainedRun()[1..]), 1);
      Saids(ds) == Saids(later) && Stores(ds) == Stores(later)
  {
    FirstStep(s);
    TraceStep(s, DrainedRun(), 1);
    t := Next(s, DrainedRun()[0]).0;
  }

  lemma SecondSuspends(s: State<nat>) returns (t: State<nat>)
    requires Legal(s, DrainedRun()[1..]) && s.run.Running? && s.buf.used == |s.buf.slots|
    requires s.crowd.pc == [WakeConsumers(Produced), Idle, Idle] && s.crowd.consumers == [] && s.crowd.producers == []
    ensures Legal(t, DrainedRun()[2..]) && t.run.Running?
    ensures t.crowd.pc == [WakeConsumers(Produced), ProducerWaits(8, false), Idle]
    ensures t.crowd.consumers == [] && t.crowd.producers == [1]
    ensures var ds, later := Deeds(Trace(s, DrainedRun()[1..]), 1), Deeds(Trace(t, DrainedRun()[2..]), 1);
      Saids(ds) == Saids(later) && Stores(ds) == Stores(later)
  {
    var ms := DrainedRun()[1..];
    TraceStep(s, ms, 1);
    assert ms[1..] == DrainedRun()[2..];
    t := Next(s, ms[0]).0;
    assert t.crowd.producers == [1] + [];
  }

  lemma WokenReturns(t: State<nat>, ms: seq<Move<nat>>)
    requires Legal(t, ms) && |ms| == 1 && ms[0].id == 1 < |t.crowd.pc| && t.crowd.pc[1] == WakeConsumers(Produced)
    requires t.crowd.consumers == []
    ensures var ds := Deeds(Trace(t, ms), 1); Saids(ds) == 1 && Stores(ds) == 0
  {
    TraceStep(t, ms, 1);
    assert ms[1..] == [];
  }

  lemma DrainWakes(t: State<nat>, ms: seq<Move<nat>>)
    requires Legal(t, ms) && |ms| == 2 && ms[0].id == 2 && ms[1].id == 1 && t.crowd.consumers == []
    requires t.crowd.pc == [WakeConsumers(Produced), ProducerWaits(8, false), Walk([1], DrainBegun)]
    ensures var ds := Deeds(Trace(t, ms), 1); Saids(ds) == 1 && Stores(ds) == 0
  {
    TraceStep(t, ms, 1);
    WokenReturns(Next(t, ms[0]).0, ms[1..]);
  }

  lemma DrainBegins(t: State<nat>, ms: seq<Move<nat>>)
    requires Legal(t, ms) && ms == DrainedRun()[2..] && t.run.Running? && t.crowd.consumers == [] && t.crowd.producers == [1]
    requires t.crowd.pc == [WakeConsumers(Produced), ProducerWaits(8, false), Idle]
    ensures var ds := Deeds(Trace(t, ms), 1); Saids(ds) == 1 && Stores(ds) == 0
  {
    TraceStep(t, ms, 1);
    DrainWakes(Next(t, ms[0]).0, ms[1..]);
  }

  lemma DrainedProducerIsTold(s: State<nat>)
    requires Init(s, 1) && |s.crowd.pc| == 3
    ensures Legal(s, DrainedRun())
    ensures var ds := Deeds(Trace(s, DrainedRun()), 1); Saids(ds) == 1 && Stores(ds) == 0
  {
    var ms := DrainedRun();
    var t := FirstStores(s);
    t := SecondSuspends(t);
    DrainBegins(t, ms[2..]);
  }

  // ----- a notify, drain or stop has resumed exactly those it took -----

  function MovesOf<T>(ms: seq<Move<T>>, i: Id): (n: nat) {
    if ms == [] then 0 else One(ms[0].id == i) + MovesOf(ms[1..], i)
  }

  function WokenNow<T>(e: Event<T>): (ids: seq<Id>) {
    if e.resumed.Some? then [e.resumed.value.0] else []
  }

  /** Those resumed by steps of task `i`, in order. */
  function WokenBy<T>(s: State<T>, ms: seq<Move<T>>, i: Id): (ids: seq<Id>)
    requires Legal(s, ms)
    decreases |ms|
  {
    if ms == [] then []
    else
      NextKeepsInv(s, ms[0]);
      (if ms[0].id == i then WokenNow(Next(s, ms[0]).1) else []) + WokenBy(Next(s, ms[0]).0, ms[1..], i)
  }

  lemma WalkStep<T>(s: State<T>, m: Move<T>, i: Id)
    requires Inv(s) && m.id < |s.crowd.pc| && i < |s.crowd.pc| && s.crowd.pc[i].Walk? && (m.id == i ==> s.crowd.pc[i].todo != [])
    ensures i < |Next(s, m).0.crowd.pc|
    ensures var pc, pc' := s.crowd.pc[i], Next(s, m).0.crowd.pc[i];
      if m.id == i then WokenNow(Next(s, m).1) == [pc.todo[0]] && pc' == Walk(pc.todo[1..], pc.cause) else pc' == pc
  {
    Touched(s, m, i);
    if m.id == i { HeldSuspended(s.crowd, i); }
  }

  lemma {:induction false} WalkInOrder<T>(s: State<T>, ms: seq<Move<T>>, i: Id)
    requires Legal(s, ms) && i < |s.crowd.pc| && s.crowd.pc[i].Walk? && MovesOf(ms, i) <= |s.crowd.pc[i].todo|
    ensures var n, pc := MovesOf(ms, i), s.crowd.pc[i];
      WokenBy(s, ms, i) == pc.todo[..n] && Exec(s, ms).crowd.pc[i] == Walk(pc.todo[n..], pc.cause)
    decreases |ms|
  {
    if ms != [] {
      var todo := s.crowd.pc[i].todo;
      NextKeepsInv(s, ms[0]);
      WalkStep(s, ms[0], i);
      WalkInOrder(Next(s, ms[0]).0, ms[1..], i);
      if ms[0].id == i { TakeMore(todo, MovesOf(ms[1..], i)); }
    }
  }

  /** The lists a call takes: one for notify and drain, both for the second section of a stop. */
  function Takes<T>(s: State<T>, m: Move<T>): (ids: Option<seq<Id>>)
    requires m.id < |s.crowd.pc|
  {
    var pc := s.crowd.pc[m.id];
    if pc.NotifyProducers? || (pc.Idle? && m.call.DoShutdownDrain? && s.run.Running?) then Some(s.crowd.producers)
    else if pc.NotifyConsumers? then Some(s.crowd.consumers)
    else if pc.Sweep? then Some(s.crowd.producers + s.crowd.consumers)
    else None
  }

  /**
   * A notify, drain or stop that takes its list, followed through any run until it has made a move
   * for each task it took: it has resumed exactly those, once each, in list order.
   */
  lemma TakerResumesExactly<T>(s: State<T>, m: Move<T>, ms: seq<Move<T>>)
    requires Inv(s) && m.id < |s.crowd.pc| && Takes(s, m).Some?
    requires Legal(Next(s, m).0, ms) && MovesOf(ms, m.id) == |Takes(s, m).value|
    ensures m.id < |Next(s, m).0.crowd.pc| && WokenBy(Next(s, m).0, ms, m.id) == Takes(s, m).value
    ensures Exec(Next(s, m).0, ms).crowd.pc[m.id].Walk? && Exec(Next(s, m).0, ms).crowd.pc[m.id].todo == []
  {
    var t, ids := Next(s, m).0, Takes(s, m).value;
    assert t.crowd.pc[m.id].Walk? && t.crowd.pc[m.id].todo == ids;
    WalkInOrder(t, ms, m.id);
    assert ids[..|ids|] == ids;
  }
}
