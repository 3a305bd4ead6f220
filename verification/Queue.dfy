/**
 * `coro::queue` as a step machine (include/coro/queue.hpp): one step per critical section of the
 * internal mutex, per access outside it, and per resume. A push that finds a suspended popper
 * unlocks before it writes the element and resumes the popper, so both come as later steps.
 */
module Queue {
  import opened Prelude
  import opened Rosters

  datatype RunState = IsRunning | IsDraining | IsStopped

  datatype Outcome<T> = Got(value: T) | Stopped | TryLockFailure | Empty

  datatype Pc<T> =
    | Idle
    | PushLock(e: T)
    | Hand(w: Id, e: T)                     // popper unlinked, before its element is written
    | Wake(w: Id)                           // before the popper is resumed
    | Pushed(produced: bool)
    | PopLock
    | TryLock
    | Waiting(slot: Option<T>)              // suspended popper and its m_element
    | Report(res: Outcome<T>)
    | ShutLoad
    | ShutLock(seen: RunState)
    | ShutWalk(todo: seq<Id>)
    | DrainLock
    | DrainEmpty                            // drain loop, before it looks at the elements
    | DrainState                            // and before it looks at the run state

  /**
   * `accepted` are the elements pushes took, in the order of their critical sections, `delivered`
   * those given to poppers, with the popper, `got[i]` those task `i` has returned, and `told`
   * counts the pushes that have returned produced.
   */
  datatype State<T> = State(
    elements: seq<T>, waiters: seq<Id>, run: RunState, pc: seq<Pc<T>>, place: seq<Place>,
    accepted: seq<T>, delivered: seq<Delivery<T>>, got: seq<seq<T>>, told: nat)

  datatype Delivery<T> = Delivery(to: Id, value: T)

  datatype Call<T> = DoPush(e: T) | DoPop | DoTryPop | DoShutdown | DoDrain

  /** `busy` makes a try_lock fail. */
  datatype Move<T> = Move(id: Id, call: Call<T>, busy: bool)

  function Goto<T>(s: State<T>, i: Id, pc: Pc<T>): (t: State<T>)
    requires i < |s.pc|
  {
    s.(pc := s.pc[i := pc])
  }

  function Start<T>(call: Call<T>): (pc: Pc<T>) {
    match call
    case DoPush(e) => PushLock(e)
    case DoPop => PopLock
    case DoTryPop => TryLock
    case DoShutdown => ShutLoad
    case DoDrain => DrainLock
  }

  /** await_resume: an element if one was written, else stopped. */
  function Outcomes<T>(slot: Option<T>): (r: Outcome<T>) {
    if slot.Some? then Got(slot.value) else Stopped
  }

  function Written<T>(pc: Pc<T>, e: T): (r: Pc<T>) {
    if pc.Waiting? then Waiting(Some(e)) else pc
  }

  function Resumed<T>(pc: Pc<T>): (r: Pc<T>) {
    if pc.Waiting? then Report(Outcomes(pc.slot)) else pc
  }

  function Held<T>(pc: Pc<T>): (ids: seq<Id>) {
    match pc
    case Hand(w, _) => [w]
    case Wake(w) => [w]
    case ShutWalk(todo) => todo
    case _ => []
  }

  function HeldBy<T>(pc: seq<Pc<T>>): (held: seq<seq<Id>>) {
    seq(|pc|, t requires 0 <= t < |pc| => Held(pc[t]))
  }

  // ----- the invariant -----

  function Values<T>(ds: seq<Delivery<T>>): (r: seq<T>) {
    seq(|ds|, k requires 0 <= k < |ds| => ds[k].value)
  }

  /** Poppers and elements never wait at once, nobody enlists on a stopped queue, first in is first out. */
  ghost predicate Sound<T>(s: State<T>) {
    && (s.waiters != [] ==> s.elements == [] && !s.run.IsStopped?)
    && s.accepted == Values(s.delivered) + s.elements
  }

  ghost predicate Kind<T>(pc: Pc<T>, place: Place) {
    match place
    case Nowhere => !pc.Waiting?
    case InList => pc == Waiting(None)
    case With(_) => pc.Waiting?
  }

  ghost predicate Served<T>(all: seq<Pc<T>>, pc: Pc<T>) {
    forall k :: 0 <= k < |Held(pc)| ==>
      Held(pc)[k] < |all| && all[Held(pc)[k]].Waiting? && (all[Held(pc)[k]].slot.Some? <==> pc.Wake?)
  }

  ghost predicate Knows<T>(s: State<T>, pc: Pc<T>) {
    match pc
    case ShutWalk(_) => s.run.IsStopped?
    case DrainEmpty => !s.run.IsRunning?
    case DrainState => !s.run.IsRunning?
    case ShutLock(seen) => !seen.IsStopped?
    case _ => true
  }

  ghost predicate Task<T>(s: State<T>, i: Id)
    requires i < |s.pc| == |s.place|
  {
    Kind(s.pc[i], s.place[i]) && Served(s.pc, s.pc[i]) && Knows(s, s.pc[i])
  }

  ghost predicate Inv<T>(s: State<T>) {
    && |s.pc| == |s.place| == |s.got|
    && Sound(s)
    && Tidy(s.waiters, HeldBy(s.pc), s.place)
    && (forall i :: 0 <= i < |s.pc| ==> Task(s, i))
  }

  // ----- the machine -----

  /** The suspended popper a step touches. */
  function Partner<T>(s: State<T>, i: Id): (w: Option<Id>)
    requires i < |s.pc|
  {
    match s.pc[i]
    case PushLock(_) => if s.run.IsRunning? && s.waiters != [] then Some(s.waiters[0]) else None
    case Hand(w, _) => Some(w)
    case Wake(w) => Some(w)
    case ShutWalk(todo) => if todo == [] then None else Some(todo[0])
    case _ => None
  }

  lemma PartnerWaits<T>(s: State<T>, i: Id)
    requires Inv(s) && i < |s.pc| && Partner(s, i).Some?
    ensures var w := Partner(s, i).value;
      && w < |s.pc| && w != i && s.pc[w].Waiting? && (s.pc[w].slot.Some? <==> s.pc[i].Wake?)
      && s.place[w] == (if s.pc[i].PushLock? then InList else With(i))
  {
    var w := Partner(s, i).value;
    assert Task(s, i);
    if s.pc[i].PushLock? {
      assert w in s.waiters;
      assert Task(s, w);
    } else {
      assert HeldBy(s.pc)[i] == Held(s.pc[i]);
      assert Names(HeldBy(s.pc)[i], s.place, With(i));
      assert Held(s.pc[i])[0] == w;
      assert w in Held(s.pc[i]);
    }
  }

  lemma PartnerInRange<T>(s: State<T>, i: Id)
    requires Inv(s) && i < |s.pc|
    ensures Partner(s, i).Some? ==> Partner(s, i).value < |s.pc| && Partner(s, i).value != i
  {
    if Partner(s, i).Some? { PartnerWaits(s, i); }
  }

  function PushNext<T>(s: State<T>, i: Id, e: T): (t: State<T>)
    requires i < |s.pc| == |s.place| && (Partner(s, i).Some? ==> Partner(s, i).value < |s.pc|) && s.pc[i] == PushLock(e)
  {
    if !s.run.IsRunning? then Goto(s, i, Pushed(false))
    else if s.waiters == [] then Goto(s.(elements := s.elements + [e], accepted := s.accepted + [e]), i, Pushed(true))
    else
      var w := s.waiters[0];
      s.(waiters := s.waiters[1..], place := s.place[w := With(i)], pc := s.pc[i := Hand(w, e)],
         accepted := s.accepted + [e], delivered := s.delivered + [Delivery(w, e)])
  }

  /** A popper takes the front element, if there is one to take. */
  function Take<T>(s: State<T>, i: Id): (t: State<T>)
    requires i < |s.pc| && s.elements != []
  {
    Goto(s.(elements := s.elements[1..], delivered := s.delivered + [Delivery(i, s.elements[0])]), i, Report(Got(s.elements[0])))
  }

  function PopNext<T>(s: State<T>, i: Id): (t: State<T>)
    requires i < |s.pc| == |s.place|
  {
    if s.run.IsStopped? then Goto(s, i, Report(Stopped))
    else if s.elements != [] then Take(s, i)
    else s.(waiters := [i] + s.waiters, place := s.place[i := InList], pc := s.pc[i := Waiting(None)])
  }

  function TryPopNext<T>(s: State<T>, i: Id, busy: bool): (t: State<T>)
    requires i < |s.pc|
  {
    if busy then Goto(s, i, Report(TryLockFailure))
    else if s.run.IsStopped? then Goto(s, i, Report(Stopped))
    else if s.elements == [] then Goto(s, i, Report(Empty))
    else Take(s, i)
  }

  function Gained<T>(res: Outcome<T>): (r: seq<T>) {
    if res.Got? then [res.value] else []
  }

  function Next<T>(s: State<T>, m: Move<T>): (t: State<T>)
    requires Inv(s) && m.id < |s.pc|
  {
    PartnerInRange(s, m.id);
    var i := m.id;
    match s.pc[i]
    case Idle => Goto(s, i, Start(m.call))
    case PushLock(e) => PushNext(s, i, e)
    case Hand(w, e) => s.(pc := s.pc[w := Written(s.pc[w], e)][i := Wake(w)])
    case Wake(w) => s.(place := s.place[w := Nowhere], pc := s.pc[w := Resumed(s.pc[w])][i := Pushed(true)])
    case Pushed(produced) => Goto(s.(told := s.told + One(produced)), i, Idle)
    case PopLock => PopNext(s, i)
    case TryLock => TryPopNext(s, i, m.busy)
    case Waiting(_) => s
    case Report(res) => Goto(s.(got := s.got[i := s.got[i] + Gained(res)]), i, Idle)
    case ShutLoad => Goto(s, i, if s.run.IsStopped? then Idle else ShutLock(s.run))
    case ShutLock(seen) =>
      if s.run != seen then Goto(s, i, Idle)
      else s.(run := IsStopped, waiters := [], place := Claim(s.place, s.waiters, i), pc := s.pc[i := ShutWalk(s.waiters)])
    case ShutWalk(todo) =>
      if todo == [] then Goto(s, i, Idle)
      else s.(place := s.place[todo[0] := Nowhere], pc := s.pc[todo[0] := Resumed(s.pc[todo[0]])][i := ShutWalk(todo[1..])])
    case DrainLock => if s.run.IsRunning? then Goto(s.(run := IsDraining), i, DrainEmpty) else Goto(s, i, Idle)
    case DrainEmpty => Goto(s, i, if s.elements == [] then ShutLoad else DrainState)
    case DrainState => Goto(s, i, if s.run.IsDraining? then DrainEmpty else ShutLoad)
  }

  // ----- each step keeps it -----

  lemma NextSizes<T>(s: State<T>, m: Move<T>)
    requires Inv(s) && m.id < |s.pc|
    ensures |Next(s, m).pc| == |s.pc| == |Next(s, m).place| == |Next(s, m).got|
  {
    PartnerInRange(s, m.id);
  }

  lemma NextLeaves<T>(s: State<T>, m: Move<T>, i: Id)
    requires Inv(s) && m.id < |s.pc| && i < |s.pc| && i != m.id && Partner(s, m.id) != Some(i)
    requires |Next(s, m).pc| == |s.pc| == |Next(s, m).place|
    ensures Next(s, m).pc[i] == s.pc[i] && (Next(s, m).place[i] == s.place[i] || (s.place[i].InList? && s.pc[m.id].ShutLock?))
  {
    if MovesNodes(s.pc[m.id]) || s.pc[m.id].Hand? { MoverLeaves(s, m, i); }
  }

  lemma MoverLeaves<T>(s: State<T>, m: Move<T>, i: Id)
    requires Inv(s) && m.id < |s.pc| && i < |s.pc| && i != m.id && Partner(s, m.id) != Some(i) && (MovesNodes(s.pc[m.id]) || s.pc[m.id].Hand?)
    requires |Next(s, m).pc| == |s.pc| == |Next(s, m).place|
    ensures Next(s, m).pc[i] == s.pc[i] && (Next(s, m).place[i] == s.place[i] || (s.place[i].InList? && s.pc[m.id].ShutLock?))
  {
    PartnerInRange(s, m.id);
  }

  lemma NextFrames<T>(s: State<T>, m: Move<T>)
    requires Inv(s) && m.id < |s.pc|
    ensures |Next(s, m).pc| == |s.pc| == |Next(s, m).place| == |Next(s, m).got|
    ensures forall i :: 0 <= i < |s.pc| && i != m.id && Partner(s, m.id) != Some(i) ==>
      Next(s, m).pc[i] == s.pc[i] && (Next(s, m).place[i] == s.place[i] || (s.place[i].InList? && s.pc[m.id].ShutLock?))
  {
    NextSizes(s, m);
    forall i | 0 <= i < |s.pc| && i != m.id && Partner(s, m.id) != Some(i)
      ensures Next(s, m).pc[i] == s.pc[i] && (Next(s, m).place[i] == s.place[i] || (s.place[i].InList? && s.pc[m.id].ShutLock?))
    {
      NextLeaves(s, m, i);
    }
  }

  /** The run state only moves forward, and once it is not running nothing is accepted. */
  lemma NextForward<T>(s: State<T>, m: Move<T>)
    requires Inv(s) && m.id < |s.pc|
    ensures var t := Next(s, m);
      && (s.run.IsStopped? ==> t.run.IsStopped? && (s.waiters == [] ==> t.waiters == []))
      && (!s.run.IsRunning? ==> !t.run.IsRunning? && t.accepted == s.accepted)
  {
  }

  lemma TakenInOrder<T>(accepted: seq<T>, ds: seq<Delivery<T>>, elements: seq<T>, i: Id)
    requires accepted == Values(ds) + elements && elements != []
    ensures accepted == Values(ds + [Delivery(i, elements[0])]) + elements[1..]
  {
    assert Values(ds + [Delivery(i, elements[0])]) == Values(ds) + [elements[0]];
    assert elements == [elements[0]] + elements[1..];
  }

  lemma NextSound<T>(s: State<T>, m: Move<T>)
    requires Inv(s) && m.id < |s.pc|
    ensures Sound(Next(s, m))
  {
    var t := Next(s, m);
    if s.elements != [] { TakenInOrder(s.accepted, s.delivered, s.elements, m.id); }
    if s.pc[m.id].PushLock? && s.waiters != [] {
      var e := s.pc[m.id].e;
      assert Values(s.delivered + [Delivery(s.waiters[0], e)]) == Values(s.delivered) + [e];
    }
  }

  /** What a step leaves its partner with. */
  lemma PartnerGoesOn<T>(s: State<T>, m: Move<T>)
    requires Inv(s) && m.id < |s.pc| && Partner(s, m.id).Some?
    ensures var w, t := Partner(s, m.id).value, Next(s, m);
      && w < |s.pc| == |t.pc| == |t.place| && w != m.id && s.pc[w].Waiting?
      && (if s.pc[m.id].PushLock? then t.pc[w] == s.pc[w] == Waiting(None) && t.place[w] == With(m.id)
          else if s.pc[m.id].Hand? then t.pc[w] == Waiting(Some(s.pc[m.id].e)) && t.place[w] == s.place[w] == With(m.id)
          else t.pc[w] == Report(Outcomes(s.pc[w].slot)) && t.place[w] == Nowhere)
  {
    PartnerWaits(s, m.id);
  }

  lemma HeldBySame<T>(pc: seq<Pc<T>>, pc': seq<Pc<T>>, i: Id)
    requires i < |pc| == |pc'| && forall k :: 0 <= k < |pc| && k != i ==> Held(pc[k]) == Held(pc'[k])
    ensures HeldBy(pc') == HeldBy(pc)[i := Held(pc'[i])]
  {
  }

  lemma HeldAfter<T>(s: State<T>, m: Move<T>)
    requires Inv(s) && m.id < |s.pc|
    ensures m.id < |Next(s, m).pc| && HeldBy(Next(s, m).pc) == HeldBy(s.pc)[m.id := Held(Next(s, m).pc[m.id])]
  {
    NextFrames(s, m);
    if Partner(s, m.id).Some? { PartnerGoesOn(s, m); }
    HeldBySame(s.pc, Next(s, m).pc, m.id);
  }

  predicate MovesNodes<T>(pc: Pc<T>) {
    pc.PushLock? || pc.PopLock? || pc.Wake? || pc.ShutLock? || pc.ShutWalk?
  }

  lemma QuietStep<T>(s: State<T>, m: Move<T>)
    requires Inv(s) && m.id < |s.pc| && !MovesNodes(s.pc[m.id])
    ensures var t := Next(s, m);
      m.id < |t.pc| && t.waiters == s.waiters && t.place == s.place && Held(t.pc[m.id]) == Held(s.pc[m.id])
  {
    PartnerInRange(s, m.id);
  }

  /** Waking the first of those a task holds. */
  lemma ResumerKeepsTidy<T>(s: State<T>, m: Move<T>)
    requires Inv(s) && m.id < |s.pc| == |Next(s, m).pc| && (s.pc[m.id].Wake? || s.pc[m.id].ShutWalk?)
    ensures var t := Next(s, m); Tidy(t.waiters, HeldBy(s.pc)[m.id := Held(t.pc[m.id])], t.place)
  {
    var i, held, t := m.id, HeldBy(s.pc), Next(s, m);
    PartnerInRange(s, i);
    assert held[i] == Held(s.pc[i]);
    assert t.waiters == s.waiters;
    if held[i] == [] {
      assert held[i := []] == held;
    } else {
      var w := held[i][0];
      assert w < |s.pc| && w != i && t.place == s.place[w := Nowhere];
      assert Held(t.pc[i]) == held[i][1..];
      DropTidy(s.waiters, held, s.place, i);
    }
  }

  lemma NodesKeepTidy<T>(s: State<T>, m: Move<T>)
    requires Inv(s) && m.id < |s.pc| == |Next(s, m).pc| && MovesNodes(s.pc[m.id])
    ensures var t := Next(s, m); Tidy(t.waiters, HeldBy(s.pc)[m.id := Held(t.pc[m.id])], t.place)
  {
    var i, held := m.id, HeldBy(s.pc);
    assert held[i] == Held(s.pc[i]) && held[i := held[i]] == held;
    assert Kind(s.pc[i], s.place[i]) by { assert Task(s, i); }
    match s.pc[i]
    case PushLock(_) => if s.run.IsRunning? && s.waiters != [] { PopTidy(s.waiters, held, s.place, i); }
    case PopLock => if !s.run.IsStopped? && s.elements == [] { PushTidy(s.waiters, held, s.place, i); }
    case ShutLock(seen) => if s.run == seen { TakeTidy(s.waiters, held, s.place, i); }
    case _ => ResumerKeepsTidy(s, m);
  }

  lemma NextKeepsTidy<T>(s: State<T>, m: Move<T>)
    requires Inv(s) && m.id < |s.pc|
    ensures var t := Next(s, m); Tidy(t.waiters, HeldBy(t.pc), t.place)
  {
    HeldAfter(s, m);
    if MovesNodes(s.pc[m.id]) {
      NodesKeepTidy(s, m);
    } else {
      QuietStep(s, m);
      assert HeldBy(s.pc)[m.id := HeldBy(s.pc)[m.id]] == HeldBy(s.pc);
    }
  }

  lemma OwnKind<T>(s: State<T>, m: Move<T>)
    requires Inv(s) && m.id < |s.pc|
    ensures m.id < |Next(s, m).pc| == |Next(s, m).place|
    ensures Kind(Next(s, m).pc[m.id], Next(s, m).place[m.id]) && Knows(Next(s, m), Next(s, m).pc[m.id])
  {
    PartnerInRange(s, m.id);
    assert Kind(s.pc[m.id], s.place[m.id]) && Knows(s, s.pc[m.id]) by { assert Task(s, m.id); }
    if s.pc[m.id].ShutLock? { assert m.id !in s.waiters; }
  }

  lemma EnlistedWait<T>(s: State<T>, k: nat)
    requires Inv(s) && k < |s.waiters|
    ensures s.waiters[k] < |s.pc| && s.pc[s.waiters[k]] == Waiting(None)
  {
    assert s.waiters[k] in s.waiters;
    assert Task(s, s.waiters[k]);
  }

  lemma TakenAreServed<T>(s: State<T>, m: Move<T>)
    requires Inv(s) && m.id < |s.pc| && s.pc[m.id].ShutLock? && s.run == s.pc[m.id].seen
    ensures m.id < |Next(s, m).pc| && Served(Next(s, m).pc, Next(s, m).pc[m.id])
  {
    forall k | 0 <= k < |s.waiters|
      ensures s.waiters[k] < |s.pc| && s.waiters[k] != m.id && Next(s, m).pc[s.waiters[k]] == Waiting(None)
    {
      EnlistedWait(s, k);
    }
  }

  lemma RestIsServed<T>(s: State<T>, m: Move<T>)
    requires Inv(s) && m.id < |s.pc| && s.pc[m.id].ShutWalk? && s.pc[m.id].todo != []
    ensures m.id < |Next(s, m).pc| && Served(Next(s, m).pc, Next(s, m).pc[m.id])
  {
    var i, todo := m.id, s.pc[m.id].todo;
    NextFrames(s, m);
    PartnerInRange(s, i);
    assert Served(s.pc, s.pc[i]) && Kind(s.pc[i], s.place[i]) by { assert Task(s, i); }
    assert Names(todo, s.place, With(i)) by { assert HeldBy(s.pc)[i] == todo; }
    forall k | 0 <= k < |todo[1..]|
      ensures todo[1..][k] < |s.pc| && Next(s, m).pc[todo[1..][k]] == s.pc[todo[k + 1]] == Waiting(None)
    {
      assert todo[k + 1] == Held(s.pc[i])[k + 1];
    }
  }

  predicate GoesOnHolding<T>(pc: Pc<T>) {
    pc.PushLock? || pc.Hand? || pc.ShutLock? || pc.ShutWalk?
  }

  lemma HoldsNothing<T>(s: State<T>, m: Move<T>)
    requires Inv(s) && m.id < |s.pc| && !GoesOnHolding(s.pc[m.id])
    ensures m.id < |Next(s, m).pc| && Held(Next(s, m).pc[m.id]) == []
  {
    PartnerInRange(s, m.id);
  }

  lemma HolderServes<T>(s: State<T>, m: Move<T>)
    requires Inv(s) && m.id < |s.pc| && GoesOnHolding(s.pc[m.id])
    ensures m.id < |Next(s, m).pc| && Served(Next(s, m).pc, Next(s, m).pc[m.id])
  {
    match s.pc[m.id]
    case PushLock(_) => if Partner(s, m.id).Some? { PartnerGoesOn(s, m); }
    case Hand(_, _) => PartnerGoesOn(s, m);
    case ShutLock(seen) => if s.run == seen { TakenAreServed(s, m); }
    case ShutWalk(todo) => if todo != [] { RestIsServed(s, m); }
  }

  lemma OwnServed<T>(s: State<T>, m: Move<T>)
    requires Inv(s) && m.id < |s.pc|
    ensures m.id < |Next(s, m).pc| && Served(Next(s, m).pc, Next(s, m).pc[m.id])
  {
    if GoesOnHolding(s.pc[m.id]) { HolderServes(s, m); } else { HoldsNothing(s, m); }
  }

  lemma OthersStillServed<T>(s: State<T>, m: Move<T>, i: Id)
    requires Inv(s) && m.id < |s.pc| && i < |s.pc| && i != m.id && Partner(s, m.id) != Some(i)
    ensures i < |Next(s, m).pc| && Served(Next(s, m).pc, s.pc[i])
  {
    NextFrames(s, m);
    if Partner(s, m.id).Some? { PartnerWaits(s, m.id); }
    assert Task(s, i) && Task(s, m.id);
    var ids := HeldBy(s.pc)[i];
    assert Names(ids, s.place, With(i));
    forall k | 0 <= k < |ids|
      ensures ids[k] < |s.pc| && Next(s, m).pc[ids[k]] == s.pc[ids[k]]
    {
      assert ids[k] in ids;
    }
  }

  lemma NextKeepsTask<T>(s: State<T>, m: Move<T>, i: Id)
    requires Inv(s) && m.id < |s.pc| && i < |s.pc|
    ensures |Next(s, m).pc| == |s.pc| == |Next(s, m).place| && Task(Next(s, m), i)
  {
    NextFrames(s, m);
    if i == m.id {
      OwnKind(s, m);
      OwnServed(s, m);
    } else if Partner(s, m.id) == Some(i) {
      PartnerGoesOn(s, m);
    } else {
      assert Task(s, i);
      NextForward(s, m);
      OthersStillServed(s, m, i);
    }
  }

  lemma NextKeepsInv<T>(s: State<T>, m: Move<T>)
    requires Inv(s) && m.id < |s.pc|
    ensures Inv(Next(s, m)) && |Next(s, m).pc| == |s.pc|
  {
    NextFrames(s, m);
    NextSound(s, m);
    NextKeepsTidy(s, m);
    forall i | 0 <= i < |s.pc|
      ensures Task(Next(s, m), i)
    {
      NextKeepsTask(s, m, i);
    }
  }

  // ----- every popper gets what was delivered to it -----

  /** The elements delivered to one task, in order. */
  function For<T>(ds: seq<Delivery<T>>, w: Id): (r: seq<T>) {
    if ds == [] then []
    else
      var d := ds[|ds| - 1];
      For(ds[..|ds| - 1], w) + if d.to == w then [d.value] else []
  }

  lemma ForMore<T>(ds: seq<Delivery<T>>, d: Delivery<T>, w: Id)
    ensures For(ds + [d], w) == For(ds, w) + if d.to == w then [d.value] else []
  {
    assert (ds + [d])[..|ds|] == ds;
  }

  /** The element a task has been given and not yet returned. */
  function Pending<T>(pc: seq<Pc<T>>, place: seq<Place>, w: Id): (r: seq<T>)
    requires w < |pc| == |place|
  {
    match pc[w]
    case Report(res) => Gained(res)
    case Waiting(slot) =>
      if slot.Some? then [slot.value]
      else if place[w].With? && place[w].t < |pc| && pc[place[w].t].Hand? then [pc[place[w].t].e]
      else []
    case _ => []
  }

  ghost predicate Booked<T>(s: State<T>, w: Id)
    requires w < |s.pc| == |s.place| == |s.got|
  {
    For(s.delivered, w) == s.got[w] + Pending(s.pc, s.place, w)
  }

  /** What a step delivers, if anything, and to whom. */
  function Delivers<T>(s: State<T>, m: Move<T>): (d: Option<Delivery<T>>)
    requires m.id < |s.pc|
  {
    match s.pc[m.id]
    case PushLock(e) => if s.run.IsRunning? && s.waiters != [] then Some(Delivery(s.waiters[0], e)) else None
    case PopLock => if !s.run.IsStopped? && s.elements != [] then Some(Delivery(m.id, s.elements[0])) else None
    case TryLock => if !m.busy && !s.run.IsStopped? && s.elements != [] then Some(Delivery(m.id, s.elements[0])) else None
    case _ => None
  }

  lemma NextDelivers<T>(s: State<T>, m: Move<T>)
    requires Inv(s) && m.id < |s.pc|
    ensures Next(s, m).delivered == s.delivered + if Delivers(s, m).Some? then [Delivers(s, m).value] else []
  {
  }

  lemma OthersGot<T>(s: State<T>, m: Move<T>, j: Id)
    requires Inv(s) && m.id < |s.pc| && j < |s.pc| && j != m.id
    ensures |Next(s, m).got| == |s.got| && Next(s, m).got[j] == s.got[j]
  {
  }

  lemma ForNext<T>(s: State<T>, m: Move<T>, w: Id)
    requires Inv(s) && m.id < |s.pc|
    ensures For(Next(s, m).delivered, w) == For(s.delivered, w)
      + if Delivers(s, m).Some? && Delivers(s, m).value.to == w then [Delivers(s, m).value.value] else []
  {
    NextDelivers(s, m);
    if Delivers(s, m).Some? {
      ForMore(s.delivered, Delivers(s, m).value, w);
    } else {
      assert For(s.delivered, w) + [] == For(s.delivered, w);
    }
  }

  /** Neither returning, nor popping, nor suspended: nothing is given to the task or taken from it. */
  predicate Unconcerned<T>(pc: Pc<T>) {
    !pc.Report? && !pc.PopLock? && !pc.TryLock? && !pc.Waiting?
  }

  lemma QuietBooked<T>(s: State<T>, m: Move<T>)
    requires Inv(s) && m.id < |s.pc| && Unconcerned(s.pc[m.id])
    ensures var t := Next(s, m); m.id < |t.pc| && !t.pc[m.id].Report? && !t.pc[m.id].Waiting? && t.got == s.got
    ensures Delivers(s, m).Some? ==> Delivers(s, m).value.to != m.id
  {
    PartnerInRange(s, m.id);
  }

  lemma PopperBooked<T>(s: State<T>, m: Move<T>)
    requires Inv(s) && m.id < |s.pc| && !Unconcerned(s.pc[m.id])
    ensures var t := Next(s, m);
      && |t.pc| == |t.place| == |t.got| == |s.pc|
      && t.got[m.id] + Pending(t.pc, t.place, m.id)
         == s.got[m.id] + Pending(s.pc, s.place, m.id) + if Delivers(s, m).Some? then [Delivers(s, m).value.value] else []
    ensures Delivers(s, m).Some? ==> Delivers(s, m).value.to == m.id
  {
    assert s.got[m.id] + [] == s.got[m.id];
    if s.pc[m.id].Waiting? { assert s.got[m.id] + Pending(s.pc, s.place, m.id) + [] == s.got[m.id] + Pending(s.pc, s.place, m.id); }
  }

  lemma OwnBooked<T>(s: State<T>, m: Move<T>)
    requires Inv(s) && m.id < |s.pc| && Booked(s, m.id)
    ensures |Next(s, m).pc| == |Next(s, m).place| == |Next(s, m).got| == |s.pc| && Booked(Next(s, m), m.id)
  {
    NextFrames(s, m);
    ForNext(s, m, m.id);
    if Unconcerned(s.pc[m.id]) {
      QuietBooked(s, m);
      assert Pending(s.pc, s.place, m.id) == [] == Pending(Next(s, m).pc, Next(s, m).place, m.id);
    } else {
      PopperBooked(s, m);
    }
  }

  /** What a step gives its partner becomes pending, and stays so until the partner returns it. */
  lemma PartnerPending<T>(s: State<T>, m: Move<T>, w: Id)
    requires Inv(s) && m.id < |s.pc| && Partner(s, m.id) == Some(w) && w < |s.pc|
    requires |Next(s, m).pc| == |Next(s, m).place| == |s.pc|
    ensures Pending(Next(s, m).pc, Next(s, m).place, w)
      == Pending(s.pc, s.place, w) + if s.pc[m.id].PushLock? then [s.pc[m.id].e] else []
  {
    PartnerWaits(s, m.id);
    PartnerGoesOn(s, m);
    if s.pc[m.id].PushLock? { assert Next(s, m).pc[m.id] == Hand(w, s.pc[m.id].e); }
  }

  lemma PartnerBooked<T>(s: State<T>, m: Move<T>, w: Id)
    requires Inv(s) && m.id < |s.pc| && Partner(s, m.id) == Some(w) && w < |s.pc| && Booked(s, w)
    ensures |Next(s, m).pc| == |Next(s, m).place| == |Next(s, m).got| == |s.pc| && Booked(Next(s, m), w)
  {
    NextFrames(s, m);
    PartnerInRange(s, m.id);
    OthersGot(s, m, w);
    ForNext(s, m, w);
    PartnerPending(s, m, w);
    assert Pending(s.pc, s.place, w) + [] == Pending(s.pc, s.place, w);
  }

  /** A holder stays at its hand-over, or is at none, for those it goes on holding. */
  lemma HandsOnlyItsOwn<T>(s: State<T>, m: Move<T>, h: Id, j: Id)
    requires Inv(s) && m.id < |s.pc| && h < |s.pc| && j in Held(s.pc[h]) && j != m.id && Partner(s, m.id) != Some(j)
    ensures h < |Next(s, m).pc| && Next(s, m).pc[h].Hand? == s.pc[h].Hand? && (s.pc[h].Hand? ==> Next(s, m).pc[h] == s.pc[h])
  {
    NextFrames(s, m);
    if Partner(s, m.id).Some? { PartnerWaits(s, m.id); }
  }

  /** A task that nobody touches has the same element pending. */
  lemma SamePending<T>(s: State<T>, m: Move<T>, j: Id)
    requires Inv(s) && m.id < |s.pc| && j < |s.pc| && j != m.id && Partner(s, m.id) != Some(j)
    ensures |Next(s, m).pc| == |Next(s, m).place| == |s.pc| && Pending(Next(s, m).pc, Next(s, m).place, j) == Pending(s.pc, s.place, j)
  {
    NextFrames(s, m);
    if s.place[j].With? {
      var h := s.place[j].t;
      assert Names(HeldBy(s.pc)[h], s.place, With(h));
      HandsOnlyItsOwn(s, m, h, j);
    } else if s.place[j].InList? && s.pc[m.id].ShutLock? {
      assert !Next(s, m).pc[m.id].Hand?;
    }
  }

  lemma NextBooked<T>(s: State<T>, m: Move<T>, j: Id)
    requires Inv(s) && m.id < |s.pc| && j < |s.pc| && Booked(s, j)
    ensures |Next(s, m).pc| == |Next(s, m).place| == |Next(s, m).got| == |s.pc| && Booked(Next(s, m), j)
  {
    if j == m.id {
      OwnBooked(s, m);
    } else if Partner(s, m.id) == Some(j) {
      PartnerBooked(s, m, j);
    } else {
      SamePending(s, m, j);
      NextFrames(s, m);
      OthersGot(s, m, j);
      ForNext(s, m, j);
      assert For(s.delivered, j) + [] == For(s.delivered, j);
    }
  }

  // ----- a push returns produced exactly if its element was accepted -----

  /** A push whose element was accepted, before it has said so. */
  function Owed<T>(pc: Pc<T>): (n: nat) {
    One(pc.Hand? || pc.Wake? || (pc.Pushed? && pc.produced))
  }

  ghost predicate Tallied<T>(s: State<T>) {
    |s.accepted| == s.told + Total(s.pc, Owed)
  }

  predicate IsPush<T>(pc: Pc<T>) {
    pc.PushLock? || pc.Hand? || pc.Wake? || pc.Pushed?
  }

  lemma PushTally<T>(s: State<T>, m: Move<T>)
    requires Inv(s) && m.id < |s.pc| && IsPush(s.pc[m.id])
    ensures var t := Next(s, m); m.id < |t.pc| && |t.accepted| - |s.accepted| == t.told - s.told + Owed(t.pc[m.id]) - Owed(s.pc[m.id])
  {
    PartnerInRange(s, m.id);
  }

  lemma NoPushTally<T>(s: State<T>, m: Move<T>)
    requires Inv(s) && m.id < |s.pc| && !IsPush(s.pc[m.id])
    ensures var t := Next(s, m); m.id < |t.pc| && t.accepted == s.accepted && t.told == s.told && Owed(t.pc[m.id]) == 0 == Owed(s.pc[m.id])
  {
    PartnerInRange(s, m.id);
  }

  lemma NextTallied<T>(s: State<T>, m: Move<T>)
    requires Inv(s) && m.id < |s.pc| && Tallied(s)
    ensures Tallied(Next(s, m))
  {
    var i, t := m.id, Next(s, m);
    NextFrames(s, m);
    if IsPush(s.pc[i]) { PushTally(s, m); } else { NoPushTally(s, m); }
    if Partner(s, i).Some? { PartnerGoesOn(s, m); }
    TotalUpdate(s.pc, i, t.pc[i], Owed);
    TotalSame(s.pc[i := t.pc[i]], t.pc, Owed);
  }

  // ----- whole runs -----

  ghost predicate Init<T>(s: State<T>) {
    && s.elements == [] && s.waiters == [] && s.run.IsRunning? && s.accepted == [] && s.delivered == [] && s.told == 0
    && |s.place| == |s.pc| == |s.got|
    && forall i :: 0 <= i < |s.pc| ==> s.pc[i] == Idle && s.place[i] == Nowhere && s.got[i] == []
  }

  lemma InitInv<T>(s: State<T>)
    requires Init(s)
    ensures Inv(s) && forall i :: 0 <= i < |s.pc| ==> Booked(s, i)
  {
    var held := HeldBy(s.pc);
    forall t | 0 <= t < |held|
      ensures Names(held[t], s.place, With(t))
    {
      assert s.pc[t] == Idle;
    }
  }

  ghost predicate Legal<T>(s: State<T>, ms: seq<Move<T>>) {
    Inv(s) && forall k :: 0 <= k < |ms| ==> ms[k].id < |s.pc|
  }

  function Exec<T>(s: State<T>, ms: seq<Move<T>>): (t: State<T>)
    requires Legal(s, ms)
    ensures Inv(t) && |t.pc| == |s.pc|
    decreases |ms|
  {
    if ms == [] then s else NextKeepsInv(s, ms[0]); Exec(Next(s, ms[0]), ms[1..])
  }

  lemma {:induction false} RunBooked<T>(s: State<T>, ms: seq<Move<T>>, j: Id)
    requires Legal(s, ms) && j < |s.pc| && Booked(s, j)
    ensures Booked(Exec(s, ms), j)
    decreases |ms|
  {
    if ms != [] {
      NextKeepsInv(s, ms[0]);
      NextBooked(s, ms[0], j);
      RunBooked(Next(s, ms[0]), ms[1..], j);
    }
  }

  /**
   * In every state of every run poppers and elements do not wait at once, the accepted elements
   * are those delivered followed by those stored, and a task has returned exactly the elements
   * delivered to it, in order, but for one it may be about to return.
   */
  lemma EveryRunIsFifo<T>(s: State<T>, ms: seq<Move<T>>, j: Id)
    requires Init(s) && Legal(s, ms) && j < |s.pc|
    ensures var t := Exec(s, ms);
      && (t.waiters == [] || t.elements == [])
      && t.accepted == Values(t.delivered) + t.elements
      && For(t.delivered, j) == t.got[j] + Pending(t.pc, t.place, j)
  {
    InitInv(s);
    RunBooked(s, ms, j);
  }

  lemma {:induction false} RunTallied<T>(s: State<T>, ms: seq<Move<T>>)
    requires Legal(s, ms) && Tallied(s)
    ensures Tallied(Exec(s, ms))
    decreases |ms|
  {
    if ms != [] {
      NextKeepsInv(s, ms[0]);
      NextTallied(s, ms[0]);
      RunTallied(Next(s, ms[0]), ms[1..]);
    }
  }

  /** The accepted elements are as many as the pushes that have returned, or will return, produced. */
  lemma ProducedMeansAccepted<T>(s: State<T>, ms: seq<Move<T>>)
    requires Init(s) && Legal(s, ms)
    ensures var t := Exec(s, ms); |t.accepted| == t.told + Total(t.pc, Owed)
  {
    TotalZero(s.pc, Owed);
    RunTallied(s, ms);
  }

  /** Whoever resumes a popper finds it suspended, holds it alone, and makes it return what it was given or stopped. */
  lemma PopperResumedOnce<T>(s: State<T>, ms: seq<Move<T>>, m: Move<T>)
    requires Init(s) && Legal(s, ms) && m.id < |s.pc|
    requires var pc := Exec(s, ms).pc[m.id]; pc.Wake? || (pc.ShutWalk? && pc.todo != [])
    ensures var t := Exec(s, ms);
      var w := Held(t.pc[m.id])[0];
      && w < |t.pc| == |Next(t, m).pc| && t.pc[w].Waiting? && w !in t.waiters
      && (t.pc[m.id].ShutWalk? ==> t.run.IsStopped? && Next(t, m).pc[w] == Report(Stopped))
      && (t.pc[m.id].Wake? ==> t.pc[w].slot.Some? && Next(t, m).pc[w] == Report(Got(t.pc[w].slot.value)))
      && forall j :: 0 <= j < |t.pc| && j != m.id ==> w !in Held(t.pc[j])
  {
    HolderResumes(Exec(s, ms), m);
  }

  lemma HolderResumes<T>(t: State<T>, m: Move<T>)
    requires Inv(t) && m.id < |t.pc| && (t.pc[m.id].Wake? || (t.pc[m.id].ShutWalk? && t.pc[m.id].todo != []))
    ensures var w := Held(t.pc[m.id])[0];
      && w < |t.pc| == |Next(t, m).pc| && t.pc[w].Waiting? && w !in t.waiters
      && (t.pc[m.id].ShutWalk? ==> t.run.IsStopped? && Next(t, m).pc[w] == Report(Stopped))
      && (t.pc[m.id].Wake? ==> t.pc[w].slot.Some? && Next(t, m).pc[w] == Report(Got(t.pc[w].slot.value)))
      && forall j :: 0 <= j < |t.pc| && j != m.id ==> w !in Held(t.pc[j])
  {
    PartnerWaits(t, m.id);
    PartnerGoesOn(t, m);
    assert Task(t, m.id);
    var w := Held(t.pc[m.id])[0];
    forall j | 0 <= j < |t.pc| && j != m.id
      ensures w !in Held(t.pc[j])
    {
      assert Names(HeldBy(t.pc)[j], t.place, With(j));
    }
  }

  lemma {:induction false} RunForward<T>(s: State<T>, ms: seq<Move<T>>)
    requires Legal(s, ms)
    ensures var t := Exec(s, ms);
      && (s.run.IsStopped? ==> t.run.IsStopped? && (s.waiters == [] ==> t.waiters == []))
      && (!s.run.IsRunning? ==> !t.run.IsRunning? && t.accepted == s.accepted)
      && Values(s.delivered) <= Values(t.delivered)
    decreases |ms|
  {
    if ms != [] {
      NextKeepsInv(s, ms[0]);
      NextForward(s, ms[0]);
      NextDelivers(s, ms[0]);
      RunForward(Next(s, ms[0]), ms[1..]);
    }
  }

  /** The shutdown that wins takes every suspended popper, and nobody suspends again. */
  lemma ShutdownTakesAll<T>(s: State<T>, m: Move<T>, later: seq<Move<T>>)
    requires Inv(s) && m.id < |s.pc| && s.pc[m.id] == ShutLock(s.run) && Legal(Next(s, m), later)
    ensures m.id < |Next(s, m).pc| && Next(s, m).pc[m.id] == ShutWalk(s.waiters)
    ensures var u := Exec(Next(s, m), later); u.run.IsStopped? && u.waiters == []
  {
    var t := Next(s, m);
    assert t.run.IsStopped? && t.waiters == [];
    RunForward(t, later);
  }

  /**
   * A drain loop that finds the queue empty has seen every accepted element delivered, and no
   * element is accepted or delivered after that.
   */
  lemma DrainDeliversAll<T>(s: State<T>, ms: seq<Move<T>>, i: Id, later: seq<Move<T>>)
    requires Init(s) && Legal(s, ms) && i < |s.pc| && Exec(s, ms).pc[i].DrainEmpty? && Exec(s, ms).elements == []
    requires Legal(Exec(s, ms), later)
    ensures var t, u := Exec(s, ms), Exec(Exec(s, ms), later);
      Values(t.delivered) == t.accepted == u.accepted == Values(u.delivered) && u.elements == []
  {
    var t := Exec(s, ms);
    assert Task(t, i);
    RunForward(t, later);
    var u := Exec(t, later);
    assert Values(t.delivered) + [] == Values(t.delivered);
    assert |Values(u.delivered)| == |t.accepted|;
  }

  // ----- a shutdown that returns has resumed exactly those it took -----

  function MovesOf<T>(ms: seq<Move<T>>, i: Id): (n: nat) {
    if ms == [] then 0 else One(ms[0].id == i) + MovesOf(ms[1..], i)
  }

  /** The task, if any, that goes from suspended to returning in this step. */
  function Woken<T>(s: State<T>, m: Move<T>): (ids: seq<Id>)
    requires Inv(s) && m.id < |s.pc|
  {
    var w := Partner(s, m.id);
    if w.Some? && w.value < |s.pc| && w.value < |Next(s, m).pc| && s.pc[w.value].Waiting? && Next(s, m).pc[w.value].Report?
    then [w.value] else []
  }

  /** Those woken by steps of task `i`, in order. */
  function WokenBy<T>(s: State<T>, ms: seq<Move<T>>, i: Id): (ids: seq<Id>)
    requires Legal(s, ms)
    decreases |ms|
  {
    if ms == [] then []
    else
      NextKeepsInv(s, ms[0]);
      (if ms[0].id == i then Woken(s, ms[0]) else []) + WokenBy(Next(s, ms[0]), ms[1..], i)
  }

  lemma WalkStep<T>(s: State<T>, m: Move<T>, i: Id)
    requires Inv(s) && m.id < |s.pc| && i < |s.pc| && s.pc[i].ShutWalk? && (m.id == i ==> s.pc[i].todo != [])
    ensures i < |Next(s, m).pc|
    ensures if m.id == i then Woken(s, m) == [s.pc[i].todo[0]] && Next(s, m).pc[i] == ShutWalk(s.pc[i].todo[1..])
      else Next(s, m).pc[i] == s.pc[i]
  {
    NextFrames(s, m);
    if Partner(s, m.id).Some? { PartnerGoesOn(s, m); }
  }

  lemma {:induction false} WalkInOrder<T>(s: State<T>, ms: seq<Move<T>>, i: Id)
    requires Legal(s, ms) && i < |s.pc| && s.pc[i].ShutWalk? && MovesOf(ms, i) <= |s.pc[i].todo|
    ensures var n := MovesOf(ms, i);
      WokenBy(s, ms, i) == s.pc[i].todo[..n] && Exec(s, ms).pc[i] == ShutWalk(s.pc[i].todo[n..])
    decreases |ms|
  {
    if ms != [] {
      var todo := s.pc[i].todo;
      NextKeepsInv(s, ms[0]);
      WalkStep(s, ms[0], i);
      WalkInOrder(Next(s, ms[0]), ms[1..], i);
      if ms[0].id == i { TakeMore(todo, MovesOf(ms[1..], i)); }
    }
  }

  /**
   * The shutdown that wins, followed through any run until it has made a move for each popper it
   * took: it has woken exactly those, once each, newest first, and will return with its next move.
   */
  lemma ShutdownResumesExactly<T>(s: State<T>, m: Move<T>, ms: seq<Move<T>>)
    requires Inv(s) && m.id < |s.pc| && s.pc[m.id] == ShutLock(s.run) && Legal(Next(s, m), ms) && MovesOf(ms, m.id) == |s.waiters|
    ensures WokenBy(Next(s, m), ms, m.id) == s.waiters && Distinct(s.waiters)
    ensures m.id < |Next(s, m).pc| && Exec(Next(s, m), ms).pc[m.id] == ShutWalk([])
  {
    var t := Next(s, m);
    assert t.pc[m.id] == ShutWalk(s.waiters);
    WalkInOrder(t, ms, m.id);
    assert s.waiters[..|s.waiters|] == s.waiters;
  }
}
