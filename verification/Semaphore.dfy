/**
 * `coro::semaphore` as a step machine (include/coro/semaphore.hpp): acquire, release and
 * shutdown run under the internal mutex, but one atomic access at a time, because the lock-free
 * `try_acquire` may change the counter between any two of them.
 */
module Semaphore {
  import opened Prelude
  import opened Rosters

  datatype Pc =
    | Idle
    | TryLoad                               // try_acquire called by the user
    | TryExchange(seen: int)
    | TryDone(token: bool)
    | AcquireLock                           // before the internal mutex
    | AcquireFlag(again: bool)              // await_ready, from itself or again from await_suspend
    | AcquireLoad(again: bool)
    | AcquireExchange(again: bool, seen: int)
    | AcquirePush
    | AcquireUnlock(token: bool)            // going on without suspending
    | SuspendUnlock                         // enlisted, before the unlock
    | Waiting(token: bool)                  // suspended; `token`: a release has passed one on
    | Report(token: bool)                   // await_resume, before the shutdown load
    | ReleaseLock
    | ReleaseValue
    | ReleasePop
    | ReleaseAdd
    | ReleaseUnlock
    | PassUnlock(w: Id)                     // popped, before the unlock
    | PassOn(w: Id)                         // before the waiter is resumed
    | ShutFlag
    | ShutLock
    | ShutExchange
    | ShutMissed                            // lost the exchange, before the unlock
    | ShutTake
    | ShutUnlock(todo: seq<Id>)
    | ShutWalk(todo: seq<Id>)

  /**
   * Over the whole run, `taken` and `given` count the tokens that left the counter or were passed
   * on and the releases accepted, `told` the calls that reported a token to their caller and
   * `lost` the tokens of acquires that reported shutdown.
   */
  datatype State = State(
    max: int, start: int,
    counter: int, waiters: seq<Id>, owner: Option<Id>, shut: bool, pc: seq<Pc>, place: seq<Place>,
    taken: nat, given: nat, told: nat, lost: nat)

  datatype Call = DoTry | DoAcquire | DoRelease | DoShutdown

  /** `fail` makes a weak compare-exchange fail spuriously. */
  datatype Move = Move(id: Id, call: Call, fail: bool)

  function Goto(s: State, i: Id, pc: Pc): (t: State)
    requires i < |s.pc|
  {
    s.(pc := s.pc[i := pc])
  }

  /** After a look at the counter: nothing to take, or try to take one. */
  function Attempted(s: State, again: bool): (pc: Pc) {
    if s.counter > 0 then AcquireExchange(again, s.counter) else if again then AcquirePush else AcquireFlag(true)
  }

  function Woken(pc: Pc): (r: Pc) {
    if pc.Waiting? then Report(pc.token) else pc
  }

  function Held(pc: Pc): (ids: seq<Id>) {
    match pc
    case PassUnlock(w) => [w]
    case PassOn(w) => [w]
    case ShutUnlock(todo) => todo
    case ShutWalk(todo) => todo
    case _ => []
  }

  function HeldBy(pc: seq<Pc>): (held: seq<seq<Id>>) {
    seq(|pc|, t requires 0 <= t < |pc| => Held(pc[t]))
  }

  // ----- the invariant -----

  /** Between lock and unlock of the internal mutex. */
  predicate InSection(pc: Pc) {
    pc.AcquireFlag? || pc.AcquireLoad? || pc.AcquireExchange? || pc.AcquirePush? || pc.AcquireUnlock? || pc.SuspendUnlock?
    || pc.ReleaseValue? || pc.ReleasePop? || pc.ReleaseAdd? || pc.ReleaseUnlock? || pc.PassUnlock?
    || pc.ShutExchange? || pc.ShutMissed? || pc.ShutTake? || pc.ShutUnlock?
  }

  /** The counter is in range, counts every token, and is zero while anyone waits. */
  ghost predicate Conserved(s: State) {
    && 0 <= s.start <= s.max && 1 <= s.max
    && 0 <= s.counter <= s.max
    && s.counter == s.start - s.taken + s.given
    && (s.waiters != [] ==> s.counter == 0)
  }

  ghost predicate Locked(s: State) {
    && (forall i :: 0 <= i < |s.pc| ==> (InSection(s.pc[i]) <==> s.owner == Some(i)))
    && (s.owner.Some? ==> s.owner.value < |s.pc|)
  }

  /** What a task inside the mutex, or between load and exchange, may rely on. */
  ghost predicate Knows(s: State, pc: Pc) {
    match pc
    case TryExchange(seen) => seen > 0
    case AcquireLoad(_) => !s.shut
    case AcquireExchange(_, seen) => seen > 0 && !s.shut
    case AcquirePush => s.counter == 0 && !s.shut
    case ReleasePop => s.counter < s.max
    case ReleaseAdd => s.counter < s.max && s.waiters == []
    case AcquireUnlock(token) => token || s.shut
    case Report(token) => token || s.shut
    case ShutTake => s.shut
    case ShutUnlock(_) => s.shut
    case ShutWalk(_) => s.shut
    case _ => true
  }

  ghost predicate Kind(pc: Pc, place: Place) {
    match place
    case Nowhere => !pc.Waiting? && !pc.SuspendUnlock?
    case InList => pc == Waiting(false) || pc.SuspendUnlock?
    case With(_) => pc.Waiting?
  }

  ghost predicate Served(all: seq<Pc>, pc: Pc) {
    forall k :: 0 <= k < |Held(pc)| ==>
      Held(pc)[k] < |all| && all[Held(pc)[k]] == Waiting(pc.PassUnlock? || pc.PassOn?)
  }

  ghost predicate Task(s: State, i: Id)
    requires i < |s.pc| == |s.place|
  {
    Knows(s, s.pc[i]) && Kind(s.pc[i], s.place[i]) && Served(s.pc, s.pc[i])
  }

  /** After shutdown nobody waits, but for those the shutdown is about to take. */
  ghost predicate Swept(s: State) {
    s.shut && s.waiters != [] ==> s.owner.Some? && s.owner.value < |s.pc| && s.pc[s.owner.value].ShutTake?
  }

  ghost predicate Inv(s: State) {
    && |s.pc| == |s.place|
    && Conserved(s) && Locked(s) && Swept(s)
    && Tidy(s.waiters, HeldBy(s.pc), s.place)
    && (forall i :: 0 <= i < |s.pc| ==> Task(s, i))
  }

  /** The other task whose operation a step touches. */
  function Partner(s: State, i: Id): (w: Option<Id>)
    requires i < |s.pc|
  {
    match s.pc[i]
    case ReleasePop => if s.waiters == [] then None else Some(s.waiters[0])
    case PassOn(w) => Some(w)
    case ShutWalk(todo) => if todo == [] then None else Some(todo[0])
    case _ => None
  }

  lemma PartnerWaits(s: State, i: Id)
    requires Inv(s) && i < |s.pc| && Partner(s, i).Some?
    ensures var w := Partner(s, i).value;
      w < |s.pc| && w != i && s.pc[w] == Waiting(s.pc[i].PassOn?) && s.place[w] == (if s.pc[i].ReleasePop? then InList else With(i))
  {
    var w := Partner(s, i).value;
    assert Task(s, i);
    if s.pc[i].ReleasePop? {
      assert w in s.waiters;
      assert Task(s, w);
      assert InSection(s.pc[i]);
    } else {
      assert HeldBy(s.pc)[i] == Held(s.pc[i]);
      assert Names(HeldBy(s.pc)[i], s.place, With(i));
      assert Held(s.pc[i])[0] == w;
      assert w in Held(s.pc[i]);
      assert Kind(s.pc[i], s.place[i]);
    }
  }

  lemma PartnerInRange(s: State, i: Id)
    requires Inv(s) && i < |s.pc|
    ensures Partner(s, i).Some? ==> Partner(s, i).value < |s.pc| && Partner(s, i).value != i
  {
    if Partner(s, i).Some? { PartnerWaits(s, i); }
  }

  /** One atomic access of task `m.id`. */
  function Next(s: State, m: Move): (t: State)
    requires Inv(s) && m.id < |s.pc|
  {
    PartnerInRange(s, m.id);
    var i := m.id;
    match s.pc[i]
    case Idle =>
      Goto(s, i, match m.call case DoTry => TryLoad case DoAcquire => AcquireLock case DoRelease => ReleaseLock case DoShutdown => ShutFlag)
    case TryLoad => Goto(s, i, if s.counter <= 0 then TryDone(false) else TryExchange(s.counter))
    case TryExchange(seen) =>
      if s.counter == seen && !m.fail then Goto(s.(counter := seen - 1, taken := s.taken + 1), i, TryDone(true))
      else Goto(s, i, if s.counter <= 0 then TryDone(false) else TryExchange(s.counter))
    case TryDone(token) => Goto(s.(told := s.told + One(token)), i, Idle)
    case AcquireLock => if s.owner.None? then Goto(s.(owner := Some(i)), i, AcquireFlag(false)) else s
    case AcquireFlag(again) => Goto(s, i, if s.shut then AcquireUnlock(false) else AcquireLoad(again))
    case AcquireLoad(again) => Goto(s, i, Attempted(s, again))
    case AcquireExchange(again, seen) =>
      if s.counter == seen && !m.fail then Goto(s.(counter := seen - 1, taken := s.taken + 1), i, AcquireUnlock(true))
      else Goto(s, i, Attempted(s, again))
    case AcquirePush =>
      s.(waiters := [i] + s.waiters, place := s.place[i := InList], pc := s.pc[i := SuspendUnlock])
    case AcquireUnlock(token) => Goto(s.(owner := None), i, Report(token))
    case SuspendUnlock => Goto(s.(owner := None), i, Waiting(false))
    case Waiting(_) => s
    case Report(token) => Goto(if s.shut then s.(lost := s.lost + One(token)) else s.(told := s.told + 1), i, Idle)
    case ReleaseLock => if s.owner.None? then Goto(s.(owner := Some(i)), i, ReleaseValue) else s
    case ReleaseValue => Goto(s, i, if s.counter == s.max then ReleaseUnlock else ReleasePop)
    case ReleasePop =>
      if s.waiters == [] then Goto(s, i, ReleaseAdd)
      else
        var w := s.waiters[0];
        s.(waiters := s.waiters[1..], place := s.place[w := With(i)], pc := s.pc[w := Waiting(true)][i := PassUnlock(w)],
           taken := s.taken + 1, given := s.given + 1)
    case ReleaseAdd => Goto(s.(counter := s.counter + 1, given := s.given + 1), i, ReleaseUnlock)
    case ReleaseUnlock => Goto(s.(owner := None), i, Idle)
    case PassUnlock(w) => Goto(s.(owner := None), i, PassOn(w))
    case PassOn(w) => s.(place := s.place[w := Nowhere], pc := s.pc[w := Woken(s.pc[w])][i := Idle])
    case ShutFlag => Goto(s, i, if s.shut then Idle else ShutLock)
    case ShutLock => if s.owner.None? then Goto(s.(owner := Some(i)), i, ShutExchange) else s
    case ShutExchange => Goto(s.(shut := true), i, if s.shut then ShutMissed else ShutTake)
    case ShutMissed => Goto(s.(owner := None), i, Idle)
    case ShutTake => s.(waiters := [], place := Claim(s.place, s.waiters, i), pc := s.pc[i := ShutUnlock(s.waiters)])
    case ShutUnlock(todo) => Goto(s.(owner := None), i, ShutWalk(todo))
    case ShutWalk(todo) =>
      if todo == [] then Goto(s, i, Idle)
      else s.(place := s.place[todo[0] := Nowhere], pc := s.pc[todo[0] := Woken(s.pc[todo[0]])][i := ShutWalk(todo[1..])])
  }


  // ----- each step keeps it -----

  /** Steps of acquire before it suspends or goes on, but for the push. */
  predicate InAcquire(pc: Pc) {
    pc.AcquireLock? || pc.AcquireFlag? || pc.AcquireLoad? || pc.AcquireExchange? || pc.AcquireUnlock? || pc.SuspendUnlock?
  }

  /** Steps that put a task on a list or take one off. */
  predicate MovesNodes(pc: Pc) {
    pc.AcquirePush? || pc.ReleasePop? || pc.PassOn? || pc.ShutTake? || pc.ShutWalk?
  }

  lemma NextSizes(s: State, m: Move)
    requires Inv(s) && m.id < |s.pc|
    ensures var t := Next(s, m); |t.pc| == |s.pc| == |t.place|
  {
    PartnerInRange(s, m.id);
  }

  lemma NextConstants(s: State, m: Move)
    requires Inv(s) && m.id < |s.pc|
    ensures var t := Next(s, m); t.max == s.max && t.start == s.start && (s.shut ==> t.shut)
  {
  }

  lemma NextLeaves(s: State, m: Move, i: Id)
    requires Inv(s) && m.id < |s.pc| && i < |s.pc| && i != m.id && Partner(s, m.id) != Some(i)
    requires |Next(s, m).pc| == |s.pc| == |Next(s, m).place|
    ensures Next(s, m).pc[i] == s.pc[i] && (Next(s, m).place[i] == s.place[i] || (s.place[i].InList? && s.pc[m.id].ShutTake?))
  {
    if MovesNodes(s.pc[m.id]) { MoverLeaves(s, m, i); }
  }

  lemma MoverLeaves(s: State, m: Move, i: Id)
    requires Inv(s) && m.id < |s.pc| && i < |s.pc| && i != m.id && Partner(s, m.id) != Some(i) && MovesNodes(s.pc[m.id])
    requires |Next(s, m).pc| == |s.pc| == |Next(s, m).place|
    ensures Next(s, m).pc[i] == s.pc[i] && (Next(s, m).place[i] == s.place[i] || (s.place[i].InList? && s.pc[m.id].ShutTake?))
  {
    PartnerInRange(s, m.id);
  }

  lemma NextFrames(s: State, m: Move)
    requires Inv(s) && m.id < |s.pc|
    ensures var t := Next(s, m); |t.pc| == |s.pc| == |t.place| && t.max == s.max && t.start == s.start && (s.shut ==> t.shut)
    ensures forall i :: 0 <= i < |s.pc| && i != m.id && Partner(s, m.id) != Some(i) ==>
      Next(s, m).pc[i] == s.pc[i] && (Next(s, m).place[i] == s.place[i] || (s.place[i].InList? && s.pc[m.id].ShutTake?))
  {
    NextSizes(s, m);
    NextConstants(s, m);
    forall i | 0 <= i < |s.pc| && i != m.id && Partner(s, m.id) != Some(i)
      ensures Next(s, m).pc[i] == s.pc[i] && (Next(s, m).place[i] == s.place[i] || (s.place[i].InList? && s.pc[m.id].ShutTake?))
    {
      NextLeaves(s, m, i);
    }
  }

  lemma NextConserves(s: State, m: Move)
    requires Inv(s) && m.id < |s.pc|
    ensures Conserved(Next(s, m))
  {
    assert Knows(s, s.pc[m.id]) by { assert Task(s, m.id); }
    if MovesNodes(s.pc[m.id]) { MoverConserves(s, m); } else if InAcquire(s.pc[m.id]) { AcquireConserves(s, m); }
  }

  lemma AcquireConserves(s: State, m: Move)
    requires Inv(s) && m.id < |s.pc| && Knows(s, s.pc[m.id]) && InAcquire(s.pc[m.id])
    ensures Conserved(Next(s, m))
  {
  }

  lemma MoverConserves(s: State, m: Move)
    requires Inv(s) && m.id < |s.pc| && Knows(s, s.pc[m.id]) && MovesNodes(s.pc[m.id])
    ensures Conserved(Next(s, m))
  {
  }

  /** What a step leaves its partner with: a token, or on its way to report. */
  lemma PartnerGoesOn(s: State, m: Move)
    requires Inv(s) && m.id < |s.pc| && Partner(s, m.id).Some?
    ensures var w, t := Partner(s, m.id).value, Next(s, m);
      && w < |s.pc| == |t.pc| == |t.place| && w != m.id
      && (if s.pc[m.id].ReleasePop? then t.pc[w] == Waiting(true) && t.place[w] == With(m.id)
          else t.pc[w] == Report(s.pc[m.id].PassOn?) && t.place[w] == Nowhere)
  {
    PartnerWaits(s, m.id);
  }

  /** A task's own step takes the internal mutex, lets it go, or leaves it, as its place says. */
  ghost predicate SectionOk(s: State, t: State, i: Id) {
    && i < |t.pc| && (InSection(t.pc[i]) <==> t.owner == Some(i))
    && (t.owner == s.owner || (t.owner.None? && s.owner == Some(i)) || (s.owner.None? && t.owner == Some(i)))
  }

  lemma OwnSection(s: State, m: Move)
    requires Inv(s) && m.id < |s.pc|
    ensures SectionOk(s, Next(s, m), m.id)
  {
    assert InSection(s.pc[m.id]) <==> s.owner == Some(m.id);
    if MovesNodes(s.pc[m.id]) { MoverSection(s, m); } else if InAcquire(s.pc[m.id]) { AcquireSection(s, m); }
  }

  lemma MoverSection(s: State, m: Move)
    requires Inv(s) && m.id < |s.pc| && MovesNodes(s.pc[m.id]) && (InSection(s.pc[m.id]) <==> s.owner == Some(m.id))
    ensures SectionOk(s, Next(s, m), m.id)
  {
    PartnerInRange(s, m.id);
  }

  lemma AcquireSection(s: State, m: Move)
    requires Inv(s) && m.id < |s.pc| && InAcquire(s.pc[m.id]) && (InSection(s.pc[m.id]) <==> s.owner == Some(m.id))
    ensures SectionOk(s, Next(s, m), m.id)
  {
  }

  lemma NextKeepsLocked(s: State, m: Move)
    requires Inv(s) && m.id < |s.pc|
    ensures Locked(Next(s, m))
  {
    OwnSection(s, m);
    NextFrames(s, m);
    if Partner(s, m.id).Some? { PartnerWaits(s, m.id); PartnerGoesOn(s, m); }
    forall i | 0 <= i < |s.pc|
      ensures InSection(Next(s, m).pc[i]) <==> Next(s, m).owner == Some(i)
    {
      assert InSection(s.pc[i]) <==> s.owner == Some(i);
    }
  }

  lemma HeldBySame(pc: seq<Pc>, pc': seq<Pc>, i: Id)
    requires i < |pc| == |pc'| && forall k :: 0 <= k < |pc| && k != i ==> Held(pc[k]) == Held(pc'[k])
    ensures HeldBy(pc') == HeldBy(pc)[i := Held(pc'[i])]
  {
  }

  lemma QuietStep(s: State, m: Move)
    requires Inv(s) && m.id < |s.pc| && !MovesNodes(s.pc[m.id])
    ensures var t := Next(s, m);
      m.id < |t.pc| && t.waiters == s.waiters && t.place == s.place && Held(t.pc[m.id]) == Held(s.pc[m.id])
  {
  }

  lemma HeldAfter(s: State, m: Move)
    requires Inv(s) && m.id < |s.pc|
    ensures m.id < |Next(s, m).pc| && HeldBy(Next(s, m).pc) == HeldBy(s.pc)[m.id := Held(Next(s, m).pc[m.id])]
  {
    NextFrames(s, m);
    if Partner(s, m.id).Some? { PartnerWaits(s, m.id); PartnerGoesOn(s, m); }
    HeldBySame(s.pc, Next(s, m).pc, m.id);
  }

  lemma ResumerKeepsTidy(s: State, m: Move)
    requires Inv(s) && m.id < |s.pc| == |Next(s, m).pc| && (s.pc[m.id].PassOn? || s.pc[m.id].ShutWalk?)
    ensures var t := Next(s, m); Tidy(t.waiters, HeldBy(s.pc)[m.id := Held(t.pc[m.id])], t.place)
  {
    var i, held := m.id, HeldBy(s.pc);
    PartnerInRange(s, i);
    assert held[i] == Held(s.pc[i]);
    var t := Next(s, m);
    assert t.waiters == s.waiters;
    if held[i] == [] {
      assert held[i := []] == held;
    } else {
      var w := held[i][0];
      assert w < |s.pc| && w != i && t.place == s.place[w := Nowhere];
      assert Held(t.pc[i]) == held[i][1..];
      DropTidy(s.waiters, held, s.place, i);
    }
  }

  lemma NodesKeepTidy(s: State, m: Move)
    requires Inv(s) && m.id < |s.pc| == |Next(s, m).pc| && MovesNodes(s.pc[m.id])
    ensures var t := Next(s, m); Tidy(t.waiters, HeldBy(s.pc)[m.id := Held(t.pc[m.id])], t.place)
  {
    var i, held := m.id, HeldBy(s.pc);
    PartnerInRange(s, i);
    assert held[i] == Held(s.pc[i]) && held[i := held[i]] == held;
    assert Kind(s.pc[i], s.place[i]) by { assert Task(s, i); }
    match s.pc[i]
    case AcquirePush => PushTidy(s.waiters, held, s.place, i);
    case ReleasePop => if s.waiters != [] { PopTidy(s.waiters, held, s.place, i); }
    case ShutTake => TakeTidy(s.waiters, held, s.place, i);
    case _ => ResumerKeepsTidy(s, m);
  }

  lemma NextKeepsTidy(s: State, m: Move)
    requires Inv(s) && m.id < |s.pc|
    ensures var t := Next(s, m); Tidy(t.waiters, HeldBy(t.pc), t.place)
  {
    HeldAfter(s, m);
    if MovesNodes(s.pc[m.id]) {
      NodesKeepTidy(s, m);
    } else {
      QuietStep(s, m);
      assert HeldBy(s.pc)[m.id := HeldBy(s.pc)[m.id]] == HeldBy(s.pc);
    }
  }

  /** What a task knows after its own step, if the step is about the counter or the flag. */
  lemma OwnKnows(s: State, m: Move)
    requires Inv(s) && m.id < |s.pc|
    ensures m.id < |Next(s, m).pc| && Knows(Next(s, m), Next(s, m).pc[m.id])
  {
    assert Knows(s, s.pc[m.id]) by { assert Task(s, m.id); }
    assert Conserved(s);
    if MovesNodes(s.pc[m.id]) { NodeMoverKnows(s, m); } else if InAcquire(s.pc[m.id]) { AcquireKnows(s, m); }
  }

  lemma NodeMoverKnows(s: State, m: Move)
    requires Inv(s) && m.id < |s.pc| && MovesNodes(s.pc[m.id])
    ensures m.id < |Next(s, m).pc| && Knows(Next(s, m), Next(s, m).pc[m.id])
  {
    PartnerInRange(s, m.id);
    assert Knows(s, s.pc[m.id]) by { assert Task(s, m.id); }
  }

  lemma AcquireKnows(s: State, m: Move)
    requires Inv(s) && m.id < |s.pc| && InAcquire(s.pc[m.id])
    ensures m.id < |Next(s, m).pc| && Knows(Next(s, m), Next(s, m).pc[m.id])
  {
    assert Knows(s, s.pc[m.id]) by { assert Task(s, m.id); }
  }

  lemma OwnKind(s: State, m: Move)
    requires Inv(s) && m.id < |s.pc|
    ensures m.id < |Next(s, m).pc| == |Next(s, m).place| && Kind(Next(s, m).pc[m.id], Next(s, m).place[m.id])
  {
    assert Kind(s.pc[m.id], s.place[m.id]) by { assert Task(s, m.id); }
    if MovesNodes(s.pc[m.id]) { NodeMoverKind(s, m); } else { QuietStep(s, m); }
  }

  lemma NodeMoverKind(s: State, m: Move)
    requires Inv(s) && m.id < |s.pc| && MovesNodes(s.pc[m.id])
    ensures m.id < |Next(s, m).pc| == |Next(s, m).place| && Kind(Next(s, m).pc[m.id], Next(s, m).place[m.id])
  {
    PartnerInRange(s, m.id);
    assert Kind(s.pc[m.id], s.place[m.id]) by { assert Task(s, m.id); }
    if s.pc[m.id].ShutTake? { assert m.id !in s.waiters; }
  }

  /** A task that holds others still has done for them what it had. */
  lemma OthersStillServed(s: State, m: Move, i: Id)
    requires Inv(s) && m.id < |s.pc| && i < |s.pc| && i != m.id && Partner(s, m.id) != Some(i)
    ensures i < |Next(s, m).pc| && Served(Next(s, m).pc, s.pc[i])
  {
    NextFrames(s, m);
    if Partner(s, m.id).Some? { PartnerWaits(s, m.id); }
    assert Task(s, i) && Task(s, m.id);
    var ids := HeldBy(s.pc)[i];
    assert Names(ids, s.place, With(i));
    forall k | 0 <= k < |ids|
      ensures ids[k] < |s.pc| && Next(s, m).pc[ids[k]] == s.pc[ids[k]]
    {
      assert ids[k] in ids;
    }
  }

  lemma EnlistedWait(s: State, i: Id, k: nat)
    requires Inv(s) && s.owner == Some(i) && i < |s.pc| && !s.pc[i].SuspendUnlock? && k < |s.waiters|
    ensures s.waiters[k] < |s.pc| && s.waiters[k] != i && s.pc[s.waiters[k]] == Waiting(false)
  {
    var w := s.waiters[k];
    assert w in s.waiters;
    assert Task(s, w) && Task(s, i);
    assert InSection(s.pc[w]) <==> s.owner == Some(w);
  }

  lemma TakenAreServed(s: State, m: Move)
    requires Inv(s) && m.id < |s.pc| && s.pc[m.id].ShutTake?
    ensures m.id < |Next(s, m).pc| && Served(Next(s, m).pc, ShutUnlock(s.waiters))
  {
    assert InSection(s.pc[m.id]);
    forall k | 0 <= k < |s.waiters|
      ensures s.waiters[k] < |s.pc| && s.pc[m.id := ShutUnlock(s.waiters)][s.waiters[k]] == Waiting(false)
    {
      EnlistedWait(s, m.id, k);
    }
  }

  /** Unlocking or walking on, a task goes on holding the rest of what it held. */
  lemma RestIsServed(s: State, m: Move, rest: seq<Id>)
    requires Inv(s) && m.id < |s.pc| && Held(s.pc[m.id]) != []
    requires rest == Held(s.pc[m.id]) || rest == Held(s.pc[m.id])[1..]
    requires rest == Held(s.pc[m.id]) ==> Partner(s, m.id).None?
    ensures forall k :: 0 <= k < |rest| ==>
      rest[k] < |Next(s, m).pc| && Next(s, m).pc[rest[k]] == Waiting(s.pc[m.id].PassUnlock? || s.pc[m.id].PassOn?)
  {
    var i, held := m.id, Held(s.pc[m.id]);
    NextFrames(s, m);
    assert Served(s.pc, s.pc[i]) && Kind(s.pc[i], s.place[i]) by { assert Task(s, i); }
    assert Names(held, s.place, With(i)) by { assert HeldBy(s.pc)[i] == held; }
    var d := if rest == held then 0 else 1;
    forall k | 0 <= k < |rest|
      ensures rest[k] < |s.pc| && Next(s, m).pc[rest[k]] == s.pc[rest[k]] == Waiting(s.pc[i].PassUnlock? || s.pc[i].PassOn?)
    {
      assert rest[k] == held[k + d];
    }
  }

  predicate GoesOnHolding(pc: Pc) {
    pc.ReleasePop? || pc.PassUnlock? || pc.ShutTake? || pc.ShutUnlock? || pc.ShutWalk?
  }

  lemma HoldsNothing(s: State, m: Move)
    requires Inv(s) && m.id < |s.pc| && !GoesOnHolding(s.pc[m.id])
    ensures m.id < |Next(s, m).pc| && Held(Next(s, m).pc[m.id]) == []
  {
    PartnerInRange(s, m.id);
  }

  lemma HolderServes(s: State, m: Move)
    requires Inv(s) && m.id < |s.pc| && GoesOnHolding(s.pc[m.id])
    ensures m.id < |Next(s, m).pc| && Served(Next(s, m).pc, Next(s, m).pc[m.id])
  {
    match s.pc[m.id]
    case ReleasePop => if s.waiters != [] { PartnerGoesOn(s, m); }
    case PassUnlock(w) => RestIsServed(s, m, [w]);
    case ShutTake => TakenAreServed(s, m);
    case ShutUnlock(todo) => if todo != [] { RestIsServed(s, m, todo); }
    case ShutWalk(_) => WalkerServes(s, m);
  }

  lemma WalkerServes(s: State, m: Move)
    requires Inv(s) && m.id < |s.pc| && s.pc[m.id].ShutWalk?
    ensures m.id < |Next(s, m).pc| && Served(Next(s, m).pc, Next(s, m).pc[m.id])
  {
    if s.pc[m.id].todo != [] {
      PartnerGoesOn(s, m);
      RestIsServed(s, m, s.pc[m.id].todo[1..]);
    }
  }

  lemma OwnServed(s: State, m: Move)
    requires Inv(s) && m.id < |s.pc|
    ensures m.id < |Next(s, m).pc| && Served(Next(s, m).pc, Next(s, m).pc[m.id])
  {
    if GoesOnHolding(s.pc[m.id]) { HolderServes(s, m); } else { HoldsNothing(s, m); }
  }

  lemma NextKeepsKnows(s: State, m: Move, i: Id)
    requires Inv(s) && m.id < |s.pc| && i < |s.pc| && i != m.id && Partner(s, m.id) != Some(i)
    ensures Knows(Next(s, m), s.pc[i])
  {
    assert Task(s, i) && Task(s, m.id);
    assert InSection(s.pc[i]) ==> !InSection(s.pc[m.id]);
  }

  lemma NextKeepsTask(s: State, m: Move, i: Id)
    requires Inv(s) && m.id < |s.pc| && i < |s.pc|
    ensures |Next(s, m).pc| == |s.pc| == |Next(s, m).place| && Task(Next(s, m), i)
  {
    NextFrames(s, m);
    if i == m.id {
      OwnKnows(s, m);
      OwnKind(s, m);
      OwnServed(s, m);
    } else if Partner(s, m.id) == Some(i) {
      PartnerGoesOn(s, m);
      assert Task(s, m.id);
    } else {
      assert Task(s, i);
      NextKeepsKnows(s, m, i);
      OthersStillServed(s, m, i);
      if s.pc[m.id].ShutTake? && s.place[i].InList? { assert InSection(s.pc[i]) <==> s.owner == Some(i); }
    }
  }

  lemma NextKeepsSwept(s: State, m: Move)
    requires Inv(s) && m.id < |s.pc|
    ensures Swept(Next(s, m))
  {
    var t := Next(s, m);
    OwnSection(s, m);
    NextFrames(s, m);
    assert Knows(s, s.pc[m.id]) by { assert Task(s, m.id); }
    assert InSection(s.pc[m.id]) <==> s.owner == Some(m.id);
    if s.owner.Some? && Partner(s, m.id).Some? { PartnerWaits(s, m.id); assert InSection(s.pc[s.owner.value]); }
    SweepStep(s, m);
  }

  /** The list grows only before shutdown, and only the task that shuts down raises the flag. */
  lemma SweepStep(s: State, m: Move)
    requires Inv(s) && m.id < |s.pc| && Knows(s, s.pc[m.id])
    ensures var t := Next(s, m);
      && (t.shut && t.waiters != [] ==>
            if s.shut then s.waiters != [] && !s.pc[m.id].ShutTake? else m.id < |t.pc| && t.pc[m.id].ShutTake? && InSection(s.pc[m.id]))
      && (s.pc[m.id].ShutTake? ==> t.waiters == [])
  {
    if MovesNodes(s.pc[m.id]) { PartnerInRange(s, m.id); }
  }

  lemma NextKeepsInv(s: State, m: Move)
    requires Inv(s) && m.id < |s.pc|
    ensures Inv(Next(s, m)) && |Next(s, m).pc| == |s.pc|
  {
    NextFrames(s, m);
    NextConserves(s, m);
    NextKeepsLocked(s, m);
    NextKeepsSwept(s, m);
    NextKeepsTidy(s, m);
    forall i | 0 <= i < |s.pc|
      ensures Task(Next(s, m), i)
    {
      NextKeepsTask(s, m, i);
    }
  }

  // ----- every token is somewhere -----

  /** A task that has its token and has not yet reported it. */
  function Carries(pc: Pc): (n: nat) {
    One((pc.TryDone? || pc.AcquireUnlock? || pc.Waiting? || pc.Report?) && pc.token)
  }

  ghost predicate Settled(s: State) {
    s.taken == s.told + s.lost + Total(s.pc, Carries) && (s.lost > 0 ==> s.shut)
  }

  /** Steps that take a token, carry it on or report it. */
  predicate HandlesToken(pc: Pc) {
    pc.TryExchange? || pc.TryDone? || pc.AcquireExchange? || pc.AcquireUnlock? || pc.Report?
  }

  lemma TokenSettles(s: State, m: Move)
    requires Inv(s) && m.id < |s.pc| && HandlesToken(s.pc[m.id])
    ensures var t := Next(s, m);
      && m.id < |t.pc| && t.taken - s.taken == t.told - s.told + t.lost - s.lost + Carries(t.pc[m.id]) - Carries(s.pc[m.id])
      && (t.lost > s.lost ==> s.shut)
  {
    assert Knows(s, s.pc[m.id]) by { assert Task(s, m.id); }
  }

  lemma OtherSettles(s: State, m: Move)
    requires Inv(s) && m.id < |s.pc| && !s.pc[m.id].ReleasePop? && !HandlesToken(s.pc[m.id])
    ensures var t := Next(s, m);
      m.id < |t.pc| && t.taken == s.taken && t.told == s.told && t.lost == s.lost && Carries(t.pc[m.id]) == Carries(s.pc[m.id])
  {
    if MovesNodes(s.pc[m.id]) { MoverSettles(s, m); }
  }

  lemma MoverSettles(s: State, m: Move)
    requires Inv(s) && m.id < |s.pc| && !s.pc[m.id].ReleasePop? && MovesNodes(s.pc[m.id])
    ensures var t := Next(s, m);
      m.id < |t.pc| && t.taken == s.taken && t.told == s.told && t.lost == s.lost && Carries(t.pc[m.id]) == Carries(s.pc[m.id])
  {
    PartnerInRange(s, m.id);
  }

  lemma PopSettles(s: State, m: Move)
    requires Inv(s) && m.id < |s.pc| && s.pc[m.id].ReleasePop? && Settled(s)
    ensures Settled(Next(s, m))
  {
    var i, t := m.id, Next(s, m);
    if s.waiters == [] {
      TotalUpdate(s.pc, i, t.pc[i], Carries);
    } else {
      var w := s.waiters[0];
      PartnerWaits(s, i);
      TotalUpdate(s.pc, w, Waiting(true), Carries);
      TotalUpdate(s.pc[w := Waiting(true)], i, t.pc[i], Carries);
    }
  }

  lemma NextSettles(s: State, m: Move)
    requires Inv(s) && m.id < |s.pc| && Settled(s)
    ensures Settled(Next(s, m))
  {
    var i, t := m.id, Next(s, m);
    if s.pc[i].ReleasePop? {
      PopSettles(s, m);
    } else {
      NextFrames(s, m);
      if HandlesToken(s.pc[i]) { TokenSettles(s, m); } else { OtherSettles(s, m); }
      if Partner(s, i).Some? { PartnerWaits(s, i); PartnerGoesOn(s, m); }
      TotalUpdate(s.pc, i, t.pc[i], Carries);
      TotalSame(s.pc[i := t.pc[i]], t.pc, Carries);
    }
  }

  // ----- whole runs -----

  ghost predicate Init(s: State) {
    && 0 <= s.start <= s.max && 1 <= s.max && s.counter == s.start
    && s.waiters == [] && s.owner.None? && !s.shut && s.taken == s.given == s.told == s.lost == 0
    && |s.place| == |s.pc|
    && forall i :: 0 <= i < |s.pc| ==> s.pc[i] == Idle && s.place[i] == Nowhere
  }

  lemma InitInv(s: State)
    requires Init(s)
    ensures Inv(s)
  {
    var held := HeldBy(s.pc);
    forall t | 0 <= t < |held|
      ensures Names(held[t], s.place, With(t))
    {
      assert s.pc[t] == Idle;
    }
  }

  ghost predicate Legal(s: State, ms: seq<Move>) {
    Inv(s) && forall k :: 0 <= k < |ms| ==> ms[k].id < |s.pc|
  }

  function Exec(s: State, ms: seq<Move>): (t: State)
    requires Legal(s, ms)
    ensures Inv(t) && |t.pc| == |s.pc|
    decreases |ms|
  {
    if ms == [] then s else NextKeepsInv(s, ms[0]); Exec(Next(s, ms[0]), ms[1..])
  }

  lemma {:induction false} RunSettles(s: State, ms: seq<Move>)
    requires Legal(s, ms) && Settled(s)
    ensures Settled(Exec(s, ms)) && Exec(s, ms).max == s.max && Exec(s, ms).start == s.start
    decreases |ms|
  {
    if ms != [] {
      NextKeepsInv(s, ms[0]);
      NextConstants(s, ms[0]);
      NextSettles(s, ms[0]);
      RunSettles(Next(s, ms[0]), ms[1..]);
    }
  }

  /**
   * Over every run, with `try_acquire` at any point: the counter stays in range, nobody waits while
   * a token is free, and the starting tokens plus the releases accepted are those in the counter,
   * those reported to callers, those on their way to a caller, and, only after shutdown, those of
   * acquires that reported shutdown instead.
   */
  lemma TokensAreConserved(s: State, ms: seq<Move>)
    requires Init(s) && Legal(s, ms)
    ensures var t := Exec(s, ms);
      && 0 <= t.counter <= s.max
      && (t.waiters != [] ==> t.counter == 0)
      && s.start + t.given == t.counter + t.told + Total(t.pc, Carries) + t.lost
      && (!t.shut ==> t.lost == 0)
  {
    TotalZero(s.pc, Carries);
    RunSettles(s, ms);
  }

  /** Until shutdown, an acquire that is about to return has its token. */
  lemma AcquiredMeansToken(s: State, ms: seq<Move>, i: Id)
    requires Init(s) && Legal(s, ms) && i < |s.pc| && Exec(s, ms).pc[i].Report? && !Exec(s, ms).shut
    ensures Exec(s, ms).pc[i].token
  {
    assert Task(Exec(s, ms), i);
  }

  /** Whoever resumes a waiter finds it suspended, with a token exactly if a release passed one on. */
  lemma WaiterResumedOnce(s: State, ms: seq<Move>, m: Move)
    requires Init(s) && Legal(s, ms) && m.id < |s.pc|
    requires var pc := Exec(s, ms).pc[m.id]; pc.PassOn? || (pc.ShutWalk? && pc.todo != [])
    ensures var t := Exec(s, ms);
      var w := Held(t.pc[m.id])[0];
      w < |t.pc| && t.pc[w] == Waiting(t.pc[m.id].PassOn?) && w !in t.waiters
      && w < |Next(t, m).pc| && Next(t, m).pc[w] == Report(t.pc[m.id].PassOn?)
      && forall j :: 0 <= j < |t.pc| && j != m.id ==> w !in Held(t.pc[j])
  {
    HolderResumes(Exec(s, ms), m);
  }

  lemma HolderResumes(t: State, m: Move)
    requires Inv(t) && m.id < |t.pc| && (t.pc[m.id].PassOn? || (t.pc[m.id].ShutWalk? && t.pc[m.id].todo != []))
    ensures var w := Held(t.pc[m.id])[0];
      w < |t.pc| && t.pc[w] == Waiting(t.pc[m.id].PassOn?) && w !in t.waiters
      && w < |Next(t, m).pc| && Next(t, m).pc[w] == Report(t.pc[m.id].PassOn?)
      && forall j :: 0 <= j < |t.pc| && j != m.id ==> w !in Held(t.pc[j])
  {
    PartnerWaits(t, m.id);
    PartnerGoesOn(t, m);
    var w := Held(t.pc[m.id])[0];
    forall j | 0 <= j < |t.pc| && j != m.id
      ensures w !in Held(t.pc[j])
    {
      assert Names(HeldBy(t.pc)[j], t.place, With(j));
    }
  }

  // ----- a shutdown that returns has resumed exactly those it took -----

  function MovesOf(ms: seq<Move>, i: Id): (n: nat) {
    if ms == [] then 0 else One(ms[0].id == i) + MovesOf(ms[1..], i)
  }

  /** The task, if any, that goes from suspended to returning in this step. */
  function Roused(s: State, m: Move): (ids: seq<Id>)
    requires Inv(s) && m.id < |s.pc|
  {
    var w := Partner(s, m.id);
    if w.Some? && w.value < |s.pc| && w.value < |Next(s, m).pc| && s.pc[w.value].Waiting? && Next(s, m).pc[w.value].Report?
    then [w.value] else []
  }

  /** Those woken by steps of task `i`, in order. */
  function RousedBy(s: State, ms: seq<Move>, i: Id): (ids: seq<Id>)
    requires Legal(s, ms)
    decreases |ms|
  {
    if ms == [] then []
    else
      NextKeepsInv(s, ms[0]);
      (if ms[0].id == i then Roused(s, ms[0]) else []) + RousedBy(Next(s, ms[0]), ms[1..], i)
  }

  lemma WalkStep(s: State, m: Move, i: Id)
    requires Inv(s) && m.id < |s.pc| && i < |s.pc| && s.pc[i].ShutWalk? && (m.id == i ==> s.pc[i].todo != [])
    ensures i < |Next(s, m).pc|
    ensures if m.id == i then Roused(s, m) == [s.pc[i].todo[0]] && Next(s, m).pc[i] == ShutWalk(s.pc[i].todo[1..])
      else Next(s, m).pc[i] == s.pc[i]
  {
    if m.id == i {
      PartnerWaits(s, i);
      PartnerGoesOn(s, m);
    } else {
      NextFrames(s, m);
      if Partner(s, m.id).Some? { PartnerWaits(s, m.id); }
    }
  }

  lemma {:induction false} WalkInOrder(s: State, ms: seq<Move>, i: Id)
    requires Legal(s, ms) && i < |s.pc| && s.pc[i].ShutWalk? && MovesOf(ms, i) <= |s.pc[i].todo|
    ensures var n := MovesOf(ms, i);
      RousedBy(s, ms, i) == s.pc[i].todo[..n] && Exec(s, ms).pc[i] == ShutWalk(s.pc[i].todo[n..])
    decreases |ms|
  {
    if ms != [] {
      var todo := s.pc[i].todo;
      NextKeepsInv(s, ms[0]);
      WalkStep(s, ms[0], i);
      var t := Next(s, ms[0]);
      WalkInOrder(t, ms[1..], i);
      assert RousedBy(s, ms, i) == (if ms[0].id == i then [todo[0]] else []) + RousedBy(t, ms[1..], i);
      assert Exec(s, ms) == Exec(t, ms[1..]);
      if ms[0].id == i { TakeMore(todo, MovesOf(ms[1..], i)); }
    }
  }

  /** What a shutdown has taken does not change while it waits to unlock. */
  lemma {:induction false} TakenStays(s: State, ms: seq<Move>, i: Id)
    requires Legal(s, ms) && i < |s.pc| && s.pc[i].ShutUnlock? && MovesOf(ms, i) == 0
    ensures Exec(s, ms).pc[i] == s.pc[i]
    decreases |ms|
  {
    if ms != [] {
      NextKeepsInv(s, ms[0]);
      NextFrames(s, ms[0]);
      if Partner(s, ms[0].id).Some? { PartnerWaits(s, ms[0].id); }
      TakenStays(Next(s, ms[0]), ms[1..], i);
    }
  }

  /**
   * The shutdown that wins takes every waiter. Followed through any run, past its unlock, until it
   * has made a move for each, it has woken exactly those, once each, newest first.
   */
  lemma ShutdownResumesExactly(s: State, m: Move, before: seq<Move>, ms: seq<Move>)
    requires Inv(s) && m.id < |s.pc| && s.pc[m.id].ShutTake? && Legal(Next(s, m), before) && MovesOf(before, m.id) == 0
    requires Legal(Next(Exec(Next(s, m), before), m), ms) && MovesOf(ms, m.id) == |s.waiters|
    ensures var u := Next(Exec(Next(s, m), before), m);
      && m.id < |u.pc| && RousedBy(u, ms, m.id) == s.waiters && Distinct(s.waiters)
      && Exec(u, ms).pc[m.id] == ShutWalk([])
  {
    var t := Next(s, m);
    TakeThenUnlock(s, m);
    TakenStays(t, before, m.id);
    TakeThenUnlock(Exec(t, before), m);
    WalkInOrder(Next(Exec(t, before), m), ms, m.id);
    assert s.waiters[..|s.waiters|] == s.waiters;
  }

  lemma TakeThenUnlock(s: State, m: Move)
    requires Inv(s) && m.id < |s.pc| && (s.pc[m.id].ShutTake? || s.pc[m.id].ShutUnlock?)
    ensures m.id < |Next(s, m).pc|
    ensures Next(s, m).pc[m.id] == if s.pc[m.id].ShutTake? then ShutUnlock(s.waiters) else ShutWalk(s.pc[m.id].todo)
  {
  }
}
