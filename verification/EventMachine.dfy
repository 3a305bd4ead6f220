/**
 * `coro::event` as a step machine: concurrent `set`, `reset` and `co_await`, one step per
 * atomic access and one per iteration of the reversing and resuming loops (src/event.cpp,
 * include/coro/detail/awaiter_list.hpp). Any number of tasks; awaiter `i` belongs to task `i`
 * and is reused as soon as it has been resumed.
 */
module EventMachine {
  import opened Prelude

  type Id = nat

  /** `m_state`: the event itself, nullptr, or the newest awaiter. */
  datatype Word = Set | Null | At(awaiter: Id)

  datatype Policy = Lifo | Fifo

  datatype Pc =
    | Idle
    | AwaitLoad                         // await_suspend, before its load
    | Await(seen: Word)                  // head of the do loop in await_suspend
    | AwaitLink(seen: Word)              // m_next written, before the exchange
    | Waiting
    | Reversing(prev: Word, curr: Word) // head of the loop in awaiter_list_reverse
    | Walk(curr: Word)                  // head of the resuming loop in set
    | WalkResume(node: Id, succ: Word)  // m_next read, before the coroutine is resumed

  datatype State = State(word: Word, next: seq<Word>, pc: seq<Pc>)

  /** What an idle task does next; `Fail` makes a weak compare-exchange fail spuriously. */
  datatype Choice = DoAwait | DoSet(policy: Policy) | DoReset | Fail

  datatype Move = Move(id: Id, choice: Choice)

  datatype Event =
    | Enlisted(id: Id)
    | Took(setter: Id, policy: Policy)
    | Resumed(setter: Id, id: Id)
    | Finished(setter: Id)
    | Reset
    | Silent

  ghost predicate Init(s: State) {
    && !s.word.At?
    && |s.next| == |s.pc|
    && forall i :: 0 <= i < |s.pc| ==> s.pc[i] == Idle
  }

  function Goto(s: State, i: Id, pc: Pc): (t: State)
    requires i < |s.pc|
  {
    s.(pc := s.pc[i := pc])
  }

  /** Whether `p` designates a node. */
  predicate Node(s: State, p: Word) {
    p.At? && p.awaiter < |s.next|
  }

  function Step(s: State, m: Move): (t: State)
    requires m.id < |s.pc| && |s.next| == |s.pc|
  {
    var i := m.id;
    match s.pc[i]
    case Idle =>
      (match m.choice
       case DoAwait => if s.word.Set? then s else Goto(s, i, AwaitLoad)
       case DoSet(policy) =>
         if s.word.Set? then s
         else if policy.Fifo? && Node(s, s.word) && s.next[s.word.awaiter] != Null
         then Goto(s.(word := Set), i, Reversing(Null, s.word))
         else Goto(s.(word := Set), i, Walk(s.word))
       case DoReset => if s.word.Set? then s.(word := Null) else s
       case Fail => s)
    case AwaitLoad => Goto(s, i, Await(s.word))
    case Await(seen) =>
      if seen.Set? then Goto(s, i, Idle) else Goto(s.(next := s.next[i := seen]), i, AwaitLink(seen))
    case AwaitLink(seen) =>
      if s.word == seen && !m.choice.Fail? then Goto(s.(word := At(i)), i, Waiting) else Goto(s, i, Await(s.word))
    case Waiting => s
    case Reversing(prev, curr) =>
      if Node(s, curr)
      then Goto(s.(next := s.next[curr.awaiter := prev]), i, Reversing(curr, s.next[curr.awaiter]))
      else Goto(s, i, Walk(prev))
    case Walk(curr) =>
      if Node(s, curr) then Goto(s, i, WalkResume(curr.awaiter, s.next[curr.awaiter])) else Goto(s, i, Idle)
    case WalkResume(c, succ) =>
      if c < |s.pc| then Goto(Goto(s, i, Walk(succ)), c, Idle) else s
  }

  function EventOf(s: State, m: Move): (e: Event)
    requires m.id < |s.pc| && |s.next| == |s.pc|
  {
    match s.pc[m.id]
    case Idle =>
      if m.choice.DoSet? && !s.word.Set? then Took(m.id, m.choice.policy)
      else if m.choice.DoReset? && s.word.Set? then Reset
      else Silent
    case AwaitLink(seen) => if s.word == seen && !m.choice.Fail? then Enlisted(m.id) else Silent
    case Walk(curr) => if Node(s, curr) then Silent else Finished(m.id)
    case WalkResume(c, _) => Resumed(m.id, c)
    case _ => Silent
  }

  // ----- the event, as its users see it -----

  /** `waiting`: tasks enlisted since the list was last taken, oldest first. `todo[t]`: tasks setter `t` still has to resume, in order. */
  datatype View = View(on: bool, waiting: seq<Id>, todo: seq<seq<Id>>)

  function Order(policy: Policy, arrivals: seq<Id>): (order: seq<Id>) {
    if policy.Fifo? then arrivals else Rev(arrivals)
  }

  ghost predicate Allows(v: View, e: Event) {
    match e
    case Enlisted(i) => !v.on && i !in v.waiting
    case Took(t, _) => !v.on && t < |v.todo| && v.todo[t] == []
    case Resumed(t, i) => t < |v.todo| && v.todo[t] != [] && v.todo[t][0] == i
    case Finished(t) => t < |v.todo| && v.todo[t] == []
    case Reset => v.on && v.waiting == []
    case Silent => true
  }

  function Advance(v: View, e: Event): (r: View) {
    match e
    case Enlisted(i) => v.(waiting := v.waiting + [i])
    case Took(t, policy) =>
      if t < |v.todo| then View(true, [], v.todo[t := Order(policy, v.waiting)]) else v
    case Resumed(t, _) =>
      if t < |v.todo| && v.todo[t] != [] then v.(todo := v.todo[t := v.todo[t][1..]]) else v
    case Finished(_) => v
    case Reset => v.(on := false)
    case Silent => v
  }

  // ----- the machine simulates it -----

  function PointerTo(l: seq<Id>, k: nat): (w: Word) {
    if k < |l| then At(l[k]) else Null
  }

  /** Following `m_next` from `w` visits exactly `l`. */
  ghost predicate Path(next: seq<Word>, w: Word, l: seq<Id>) {
    && w == PointerTo(l, 0)
    && (forall k :: 0 <= k < |l| ==> l[k] < |next| && next[l[k]] == PointerTo(l, k + 1))
  }

  /** Which list a suspended task is on. */
  datatype Place = Nowhere | InEvent | With(setter: Id)

  /** `left[t]`: how many nodes setter `t` has yet to turn around. */
  datatype Aux = Aux(place: seq<Place>, left: seq<nat>)

  ghost predicate Sized(s: State, v: View, a: Aux) {
    |s.next| == |s.pc| == |v.todo| == |a.place| == |a.left|
  }

  ghost predicate WordOk(s: State, v: View) {
    && (s.word.Set? <==> v.on)
    && (v.on ==> v.waiting == [])
    && (!v.on ==> Path(s.next, s.word, Rev(v.waiting)))
  }

  ghost predicate Placed(s: State, v: View, a: Aux)
    requires Sized(s, v, a)
  {
    && Distinct(v.waiting)
    && (forall i :: i in v.waiting ==> i < |s.pc|)
    && (forall i :: 0 <= i < |s.pc| ==> (s.pc[i].Waiting? <==> a.place[i] != Nowhere))
    && (forall i :: 0 <= i < |s.pc| ==> (i in v.waiting <==> a.place[i] == InEvent))
  }

  ghost predicate PlacedAt(s: State, v: View, a: Aux, i: Id)
    requires Sized(s, v, a) && i < |s.pc|
  {
    && (s.pc[i].Waiting? <==> a.place[i] != Nowhere)
    && (i in v.waiting <==> a.place[i] == InEvent)
  }

  ghost predicate Mine(v: View, a: Aux, t: Id)
    requires t < |v.todo|
  {
    && Distinct(v.todo[t])
    && (forall i :: i in v.todo[t] ==> i < |a.place|)
    && (forall i :: 0 <= i < |a.place| ==> (i in v.todo[t] <==> a.place[i] == With(t)))
  }

  ghost predicate Job(s: State, v: View, a: Aux, t: Id)
    requires Sized(s, v, a) && t < |s.pc|
  {
    match s.pc[t]
    case AwaitLink(seen) => !seen.Set? && s.next[t] == seen && v.todo[t] == []
    case Reversing(prev, curr) =>
      && a.left[t] <= |v.todo[t]|
      && Path(s.next, prev, v.todo[t][a.left[t]..])
      && Path(s.next, curr, Rev(v.todo[t][..a.left[t]]))
    case Walk(curr) => Path(s.next, curr, v.todo[t])
    case WalkResume(c, succ) => Path(s.next, At(c), v.todo[t]) && succ == PointerTo(v.todo[t], 1)
    case _ => v.todo[t] == []
  }

  ghost predicate Inv(s: State, v: View, a: Aux) {
    && Sized(s, v, a)
    && WordOk(s, v)
    && Placed(s, v, a)
    && (forall t :: 0 <= t < |s.pc| ==> Mine(v, a, t))
    && (forall t :: 0 <= t < |s.pc| ==> Job(s, v, a, t))
  }

  function AuxAfter(s: State, m: Move, v: View, a: Aux): (r: Aux)
    requires m.id < |s.pc| && |s.next| == |s.pc| == |a.place| == |a.left|
    ensures |r.place| == |a.place| && |r.left| == |a.left|
  {
    match EventOf(s, m)
    case Enlisted(i) => a.(place := a.place[i := InEvent])
    case Took(t, _) =>
      Aux(seq(|a.place|, i requires 0 <= i < |a.place| => if a.place[i] == InEvent then With(t) else a.place[i]),
          a.left[t := |v.waiting|])
    case Resumed(t, c) => if c < |a.place| then a.(place := a.place[c := Nowhere]) else a
    case _ =>
      if s.pc[m.id].Reversing? && a.left[m.id] > 0 then a.(left := a.left[m.id := a.left[m.id] - 1]) else a
  }

  lemma PathFrame(next: seq<Word>, i: Id, x: Word, w: Word, l: seq<Id>)
    requires Path(next, w, l) && i < |next| && i !in l
    ensures Path(next[i := x], w, l)
  {
  }

  lemma StepAllowed(s: State, m: Move, v: View, a: Aux)
    requires Sized(s, v, a) && m.id < |s.pc| && WordOk(s, v) && Placed(s, v, a) && Job(s, v, a, m.id)
    ensures Allows(v, EventOf(s, m))
  {
  }

  lemma PathPush(next: seq<Word>, i: Id, w: Word, l: seq<Id>)
    requires Path(next, w, l) && i < |next| && next[i] == w
    ensures Path(next, At(i), [i] + l)
  {
    var r := [i] + l;
    assert forall k :: 0 < k < |r| ==> r[k] == l[k - 1];
  }

  /** One turn of the reversing loop moves the front of one list onto the other. */
  lemma PathTurn(next: seq<Word>, prev: Word, curr: Word, order: seq<Id>, left: nat)
    requires 0 < left <= |order| && Distinct(order)
    requires Path(next, prev, order[left..]) && Path(next, curr, Rev(order[..left]))
    ensures curr.At? && curr.awaiter < |next| && curr.awaiter in order
    ensures var n := next[curr.awaiter := prev];
      Path(n, curr, order[left - 1..]) && Path(n, next[curr.awaiter], Rev(order[..left - 1]))
  {
    var i := order[left - 1];
    var todo, rest, done := Rev(order[..left]), Rev(order[..left - 1]), order[left..];
    assert todo[0] == i && forall k :: 0 <= k < |rest| ==> rest[k] == todo[k + 1];
    assert Path(next, next[i], rest);
    RevMembers(order[..left - 1]);
    assert i !in rest && i !in done;
    PathFrame(next, i, prev, next[i], rest);
    PathFrame(next, i, prev, prev, done);
    PathPush(next[i := prev], i, prev, done);
    assert [i] + done == order[left - 1..];
  }

  lemma ReversingNode(s: State, v: View, a: Aux, t: Id)
    requires Sized(s, v, a) && t < |s.pc| && Job(s, v, a, t) && s.pc[t].Reversing? && Mine(v, a, t)
    ensures Node(s, s.pc[t].curr) <==> a.left[t] > 0
    ensures a.left[t] > 0 ==> a.place[s.pc[t].curr.awaiter] == With(t)
  {
    if a.left[t] > 0 { PathTurn(s.next, s.pc[t].prev, s.pc[t].curr, v.todo[t], a.left[t]); }
  }

  lemma StepKeepsWord(s: State, m: Move, v: View, a: Aux)
    requires Sized(s, v, a) && m.id < |s.pc| && WordOk(s, v) && Placed(s, v, a) && Job(s, v, a, m.id) && Mine(v, a, m.id)
    ensures WordOk(Step(s, m), Advance(v, EventOf(s, m)))
  {
    var i := m.id;
    RevMembers(v.waiting);
    match s.pc[i]
    case Await(seen) =>
      if !seen.Set? && !v.on { PathFrame(s.next, i, seen, s.word, Rev(v.waiting)); }
    case AwaitLink(seen) =>
      RevPush(v.waiting, i);
      if EventOf(s, m).Enlisted? { PathPush(s.next, i, seen, Rev(v.waiting)); }
    case Reversing(prev, curr) =>
      ReversingNode(s, v, a, i);
      if Node(s, curr) && !v.on { PathFrame(s.next, curr.awaiter, prev, s.word, Rev(v.waiting)); }
    case _ =>
  }

  lemma StepKeepsPlace(s: State, m: Move, v: View, a: Aux, i: Id)
    requires Sized(s, v, a) && m.id < |s.pc| && i < |s.pc| && PlacedAt(s, v, a, m.id) && PlacedAt(s, v, a, i)
    requires EventOf(s, m).Resumed? ==> var c := EventOf(s, m).id; c < |s.pc| && a.place[c] == With(m.id)
    ensures PlacedAt(Step(s, m), Advance(v, EventOf(s, m)), AuxAfter(s, m, v, a), i)
  {
  }

  lemma StepKeepsPlaces(s: State, m: Move, v: View, a: Aux)
    requires Sized(s, v, a) && m.id < |s.pc| && Placed(s, v, a)
    requires EventOf(s, m).Resumed? ==> var c := EventOf(s, m).id; c < |s.pc| && a.place[c] == With(m.id)
    ensures Placed(Step(s, m), Advance(v, EventOf(s, m)), AuxAfter(s, m, v, a))
  {
    var s', v', a' := Step(s, m), Advance(v, EventOf(s, m)), AuxAfter(s, m, v, a);
    forall i | 0 <= i < |s.pc|
      ensures s'.pc[i].Waiting? <==> a'.place[i] != Nowhere
      ensures i in v'.waiting <==> a'.place[i] == InEvent
    {
      StepKeepsPlace(s, m, v, a, i);
    }
  }

  lemma StepKeepsMine(s: State, m: Move, v: View, a: Aux, t: Id)
    requires Sized(s, v, a) && m.id < |s.pc| && t < |s.pc| && Placed(s, v, a)
    requires Job(s, v, a, m.id) && Mine(v, a, m.id) && Mine(v, a, t)
    ensures Mine(Advance(v, EventOf(s, m)), AuxAfter(s, m, v, a), t)
  {
    match EventOf(s, m)
    case Took(i, policy) => RevMembers(v.waiting);
    case Resumed(i, c) => TailMembers(v.todo[i]);
    case _ =>
  }

  lemma PathTail(next: seq<Word>, i: Id, l: seq<Id>)
    requires Path(next, At(i), l)
    ensures l != [] && l[0] == i && next[i] == PointerTo(l, 1) && Path(next, PointerTo(l, 1), l[1..])
  {
    var r := l[1..];
    assert forall k :: 0 <= k < |r| ==> r[k] == l[k + 1];
  }

  /** Taking the list: nothing to turn around unless it has two nodes and the oldest goes first. */
  lemma TakeStartsJob(s: State, v: View, policy: Policy)
    requires WordOk(s, v) && !v.on
    ensures var l := v.waiting;
      if policy.Fifo? && Node(s, s.word) && s.next[s.word.awaiter] != Null
      then Path(s.next, Null, l[|l|..]) && Path(s.next, s.word, Rev(l[..|l|]))
      else Path(s.next, s.word, Order(policy, l))
  {
    var l := v.waiting;
    assert l[..|l|] == l;
    if |l| <= 1 { assert Rev(l) == l; }
  }

  lemma TurnKeepsJob(s: State, m: Move, v: View, a: Aux)
    requires Sized(s, v, a) && m.id < |s.pc| && Placed(s, v, a) && WordOk(s, v) && s.pc[m.id].Reversing?
    requires Job(s, v, a, m.id) && Mine(v, a, m.id)
    ensures Job(Step(s, m), Advance(v, EventOf(s, m)), AuxAfter(s, m, v, a), m.id)
  {
    var t := m.id;
    var prev, curr := s.pc[t].prev, s.pc[t].curr;
    ReversingNode(s, v, a, t);
    if a.left[t] > 0 {
      PathTurn(s.next, prev, curr, v.todo[t], a.left[t]);
    } else {
      assert v.todo[t][0..] == v.todo[t];
    }
  }

  lemma StepKeepsOwnJob(s: State, m: Move, v: View, a: Aux)
    requires Sized(s, v, a) && m.id < |s.pc| && Placed(s, v, a) && WordOk(s, v)
    requires Job(s, v, a, m.id) && Mine(v, a, m.id)
    ensures Job(Step(s, m), Advance(v, EventOf(s, m)), AuxAfter(s, m, v, a), m.id)
  {
    var t := m.id;
    match s.pc[t]
    case Idle =>
      if EventOf(s, m).Took? { TakeStartsJob(s, v, m.choice.policy); }
    case Reversing(_, _) => TurnKeepsJob(s, m, v, a);
    case Walk(curr) =>
      if Node(s, curr) { PathTail(s.next, curr.awaiter, v.todo[t]); }
    case WalkResume(c, succ) => PathTail(s.next, c, v.todo[t]);
    case _ =>
  }

  /** A task's job survives any write to a node that is not its own or on its list. */
  lemma JobFrame(s: State, v: View, a: Aux, s': State, v': View, a': Aux, t: Id, x: Id)
    requires Sized(s, v, a) && Sized(s', v', a') && t < |s.pc| == |s'.pc| && Job(s, v, a, t)
    requires x < |s.next| && x != t && x !in v.todo[t] && s'.next == s.next[x := s'.next[x]]
    requires s.pc[t] == s'.pc[t] && v.todo[t] == v'.todo[t] && a.left[t] == a'.left[t]
    ensures Job(s', v', a', t)
  {
    if s.pc[t].Reversing? { RevMembers(v.todo[t][..a.left[t]]); }
  }

  lemma OthersKeepJobQuietly(s: State, m: Move, v: View, a: Aux, t: Id)
    requires Sized(s, v, a) && m.id < |s.pc| && t < |s.pc| && t != m.id
    requires !s.pc[m.id].Reversing? && !s.pc[m.id].WalkResume? && m.id !in v.todo[t] && Job(s, v, a, t)
    ensures Job(Step(s, m), Advance(v, EventOf(s, m)), AuxAfter(s, m, v, a), t)
  {
    JobFrame(s, v, a, Step(s, m), Advance(v, EventOf(s, m)), AuxAfter(s, m, v, a), t, m.id);
  }

  lemma OthersKeepJob(s: State, m: Move, v: View, a: Aux, t: Id)
    requires Sized(s, v, a) && m.id < |s.pc| && t < |s.pc| && t != m.id && Placed(s, v, a)
    requires Job(s, v, a, m.id) && Mine(v, a, m.id) && Mine(v, a, t) && Job(s, v, a, t)
    ensures Job(Step(s, m), Advance(v, EventOf(s, m)), AuxAfter(s, m, v, a), t)
  {
    var s', v', a' := Step(s, m), Advance(v, EventOf(s, m)), AuxAfter(s, m, v, a);
    match s.pc[m.id]
    case Reversing(prev, curr) =>
      ReversingNode(s, v, a, m.id);
      if Node(s, curr) && curr.awaiter != t { JobFrame(s, v, a, s', v', a', t, curr.awaiter); }
    case WalkResume(c, _) =>
      PathTail(s.next, c, v.todo[m.id]);
    case Waiting => assert s' == s && v' == v && a' == a;
    case _ =>
      assert a.place[m.id] == Nowhere;
      OthersKeepJobQuietly(s, m, v, a, t);
  }

  lemma StepKeepsTask(s: State, m: Move, v: View, a: Aux, t: Id)
    requires Inv(s, v, a) && m.id < |s.pc| && t < |s.pc|
    ensures Mine(Advance(v, EventOf(s, m)), AuxAfter(s, m, v, a), t)
    ensures Job(Step(s, m), Advance(v, EventOf(s, m)), AuxAfter(s, m, v, a), t)
  {
    assert Job(s, v, a, m.id) && Mine(v, a, m.id) && Job(s, v, a, t) && Mine(v, a, t);
    StepKeepsMine(s, m, v, a, t);
    if t == m.id { StepKeepsOwnJob(s, m, v, a); } else { OthersKeepJob(s, m, v, a, t); }
  }

  lemma StepSimulates(s: State, m: Move, v: View, a: Aux)
    requires Inv(s, v, a) && m.id < |s.pc|
    ensures Allows(v, EventOf(s, m))
    ensures Inv(Step(s, m), Advance(v, EventOf(s, m)), AuxAfter(s, m, v, a))
  {
    assert Job(s, v, a, m.id) && Mine(v, a, m.id);
    StepAllowed(s, m, v, a);
    if s.pc[m.id].WalkResume? { PathTail(s.next, s.pc[m.id].node, v.todo[m.id]); }
    StepKeepsWord(s, m, v, a);
    StepKeepsPlaces(s, m, v, a);
    forall t | 0 <= t < |s.pc|
      ensures Mine(Advance(v, EventOf(s, m)), AuxAfter(s, m, v, a), t)
      ensures Job(Step(s, m), Advance(v, EventOf(s, m)), AuxAfter(s, m, v, a), t)
    {
      StepKeepsTask(s, m, v, a, t);
    }
  }

  // ----- whole runs -----

  ghost predicate Legal(s: State, ms: seq<Move>) {
    |s.next| == |s.pc| && forall k :: 0 <= k < |ms| ==> ms[k].id < |s.pc|
  }

  function Exec(s: State, ms: seq<Move>): (t: State)
    requires Legal(s, ms)
    ensures |t.pc| == |s.pc| && |t.next| == |s.next|
    decreases |ms|
  {
    if ms == [] then s else Exec(Step(s, ms[0]), ms[1..])
  }

  function Trace(s: State, ms: seq<Move>): (es: seq<Event>)
    requires Legal(s, ms)
    decreases |ms|
  {
    if ms == [] then [] else [EventOf(s, ms[0])] + Trace(Step(s, ms[0]), ms[1..])
  }

  ghost predicate Accepts(v: View, es: seq<Event>)
    decreases |es|
  {
    es == [] || (Allows(v, es[0]) && Accepts(Advance(v, es[0]), es[1..]))
  }

  function Replay(v: View, es: seq<Event>): (r: View)
    decreases |es|
  {
    if es == [] then v else Replay(Advance(v, es[0]), es[1..])
  }

  lemma {:induction false} RunSimulates(s: State, ms: seq<Move>, v: View, a: Aux) returns (last: Aux)
    requires Legal(s, ms) && Inv(s, v, a)
    ensures Accepts(v, Trace(s, ms))
    ensures Inv(Exec(s, ms), Replay(v, Trace(s, ms)), last)
    decreases |ms|
  {
    last := a;
    if ms != [] {
      StepSimulates(s, ms[0], v, a);
      last := RunSimulates(Step(s, ms[0]), ms[1..], Advance(v, EventOf(s, ms[0])), AuxAfter(s, ms[0], v, a));
      assert Trace(s, ms)[1..] == Trace(Step(s, ms[0]), ms[1..]);
    }
  }

  function Fresh(s: State): (v: View) {
    View(s.word.Set?, [], seq(|s.pc|, _ => []))
  }

  lemma FreshIsInv(s: State) returns (a: Aux)
    requires Init(s)
    ensures Inv(s, Fresh(s), a)
  {
    a := Aux(seq(|s.pc|, _ => Nowhere), seq(|s.pc|, _ => 0));
  }

  /** Every interleaving is a history of the sequential event, and no waiter is ever dropped. */
  lemma RunsAreEventHistories(s: State, ms: seq<Move>) returns (last: Aux)
    requires Init(s) && Legal(s, ms)
    ensures Accepts(Fresh(s), Trace(s, ms))
    ensures Inv(Exec(s, ms), Replay(Fresh(s), Trace(s, ms)), last)
  {
    var a := FreshIsInv(s);
    last := RunSimulates(s, ms, Fresh(s), a);
  }

  /** No task is suspended on a set event, and reset changes nothing but the set flag. */
  lemma NobodyEnlistsOnSetEvent(s: State, ms: seq<Move>, m: Move)
    requires Init(s) && Legal(s, ms) && m.id < |s.pc|
    ensures var t := Exec(s, ms);
      && (EventOf(t, m).Enlisted? ==> !t.word.Set?)
      && (EventOf(t, m).Reset? ==> Step(t, m) == t.(word := Null) && t.word.Set?)
      && (t.word.Set? ==> Replay(Fresh(s), Trace(s, ms)).waiting == [])
  {
    var a := RunsAreEventHistories(s, ms);
    StepSimulates(Exec(s, ms), m, Replay(Fresh(s), Trace(s, ms)), a);
  }

  // ----- what one set resumes -----

  /** Tasks enlisted after the list was last taken, oldest first. */
  function SinceTaken(es: seq<Event>): (ids: seq<Id>) {
    if es == [] then []
    else
      var e, before := es[|es| - 1], SinceTaken(es[..|es| - 1]);
      if e.Took? then [] else if e.Enlisted? then before + [e.id] else before
  }

  /** Tasks resumed by setter `t`, in order. */
  function ResumedBy(es: seq<Event>, t: Id): (ids: seq<Id>) {
    if es == [] then []
    else (if es[0].Resumed? && es[0].setter == t then [es[0].id] else []) + ResumedBy(es[1..], t)
  }

  lemma {:induction false} AcceptsSplit(v: View, es: seq<Event>, fs: seq<Event>)
    requires Accepts(v, es + fs)
    ensures Accepts(v, es) && Accepts(Replay(v, es), fs) && Replay(v, es + fs) == Replay(Replay(v, es), fs)
    decreases |es|
  {
    if es == [] {
      assert es + fs == fs;
    } else {
      assert (es + fs)[1..] == es[1..] + fs && (es + fs)[0] == es[0];
      AcceptsSplit(Advance(v, es[0]), es[1..], fs);
    }
  }

  lemma {:induction false} WaitingSinceTaken(v: View, es: seq<Event>)
    requires v.waiting == [] && Accepts(v, es)
    ensures Replay(v, es).waiting == SinceTaken(es)
  {
    if es != [] {
      var front, e := es[..|es| - 1], es[|es| - 1];
      assert es == front + [e];
      AcceptsSplit(v, front, [e]);
      WaitingSinceTaken(v, front);
    }
  }

  ghost predicate NoTakeBy(es: seq<Event>, t: Id) {
    forall k :: 0 <= k < |es| ==> !(es[k].Took? && es[k].setter == t)
  }

  lemma {:induction false} SetterWorksOff(v: View, es: seq<Event>, t: Id)
    requires Accepts(v, es) && t < |v.todo| && NoTakeBy(es, t)
    ensures |Replay(v, es).todo| == |v.todo|
    ensures ResumedBy(es, t) + Replay(v, es).todo[t] == v.todo[t]
    decreases |es|
  {
    if es != [] {
      assert NoTakeBy(es[1..], t);
      assert !(es[0].Took? && es[0].setter == t);
      SetterWorksOff(Advance(v, es[0]), es[1..], t);
    }
  }

  /**
   * A set that takes the list and finishes has resumed exactly the tasks enlisted since the
   * list was last taken, once each: oldest first under fifo, newest first under lifo.
   */
  lemma SetResumesExactly(s: State, ms: seq<Move>, before: seq<Event>, during: seq<Event>, t: Id, policy: Policy)
    requires Init(s) && Legal(s, ms) && t < |s.pc|
    requires Trace(s, ms) == before + [Took(t, policy)] + during + [Finished(t)]
    requires NoTakeBy(during, t)
    ensures ResumedBy(during, t) == Order(policy, SinceTaken(before))
  {
    var v, end := Fresh(s), [Finished(t)];
    var _ := RunsAreEventHistories(s, ms);
    AcceptsSplit(v, before + [Took(t, policy)] + during, end);
    AcceptsSplit(v, before + [Took(t, policy)], during);
    AcceptsSplit(v, before, [Took(t, policy)]);
    WaitingSinceTaken(v, before);
    var taken := Advance(Replay(v, before), Took(t, policy));
    SetterWorksOff(taken, during, t);
  }

  // ----- exactly once -----

  function Resumptions(es: seq<Event>, i: Id): (n: nat) {
    if es == [] then 0 else One(es[0].Resumed? && es[0].id == i) + Resumptions(es[1..], i)
  }

  lemma StepBalances(s: State, m: Move, v: View, a: Aux, i: Id)
    requires Inv(s, v, a) && m.id < |s.pc| && i < |s.pc|
    ensures var e := EventOf(s, m);
      One(s.pc[i].Waiting?) + One(e == Enlisted(i)) == One(e.Resumed? && e.id == i) + One(Step(s, m).pc[i].Waiting?)
  {
    assert Job(s, v, a, m.id) && Mine(v, a, m.id);
    if s.pc[m.id].WalkResume? { PathTail(s.next, s.pc[m.id].node, v.todo[m.id]); }
  }

  lemma {:induction false} RunBalances(s: State, ms: seq<Move>, v: View, a: Aux, i: Id)
    requires Legal(s, ms) && Inv(s, v, a) && i < |s.pc|
    ensures One(s.pc[i].Waiting?) + Count(Trace(s, ms), Enlisted(i))
         == Resumptions(Trace(s, ms), i) + One(Exec(s, ms).pc[i].Waiting?)
    decreases |ms|
  {
    if ms != [] {
      StepBalances(s, ms[0], v, a, i);
      StepSimulates(s, ms[0], v, a);
      RunBalances(Step(s, ms[0]), ms[1..], Advance(v, EventOf(s, ms[0])), AuxAfter(s, ms[0], v, a), i);
      assert Trace(s, ms)[1..] == Trace(Step(s, ms[0]), ms[1..]);
    }
  }

  /** Over every run a task is resumed once per suspension, less the one pending. */
  lemma ResumedExactlyOnce(s: State, ms: seq<Move>, i: Id)
    requires Init(s) && Legal(s, ms) && i < |s.pc|
    ensures Count(Trace(s, ms), Enlisted(i)) == Resumptions(Trace(s, ms), i) + One(Exec(s, ms).pc[i].Waiting?)
  {
    var a := FreshIsInv(s);
    RunBalances(s, ms, Fresh(s), a, i);
  }
}
