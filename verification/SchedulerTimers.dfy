/**
 * Polls, timers and event batches of `coro::scheduler` (src/scheduler.cpp:267-325, 385-519).
 * A poll may be finished by its file descriptor or by its timer; both may turn up in the same
 * batch, in either order. The notifier is the set of watched polls and one armed deadline.
 */
module SchedulerTimers {
  import opened Prelude

  type Id = nat

  datatype Status = Read | Write | Error | Closed | Timeout

  /** `detail::poll_info`. A yield has a deadline, no descriptor and no timer position. */
  datatype Poll = Poll(hasFd: bool, deadline: Option<int>, timerPos: bool, processed: bool, status: Status)

  /** An entry of the `m_timed_events` multimap. */
  datatype Timer = Timer(at: int, id: Id)

  datatype Handle = OfPoll(id: Id) | OfOp(op: nat)

  datatype Loop = Loop(
    polls: map<Id, Poll>,
    timed: seq<Timer>,      // m_timed_events in iteration order
    armed: Option<int>,     // the deadline the timer is set to
    watched: set<Id>,
    handles: seq<Handle>,   // m_handles_to_resume
    resumed: seq<Handle>)   // everything resumed so far

  datatype Event = OnFd(id: Id, status: Status) | OnTimer(now: int) | OnSchedule(ops: seq<nat>) | OnShutdown

  // ----- the operations -----

  function FirstDeadline(timed: seq<Timer>): (d: Option<int>) {
    if timed == [] then None else Some(timed[0].at)
  }

  /** `emplace` puts an entry behind those with the same key. */
  function Insert(timed: seq<Timer>, x: Timer): (r: seq<Timer>) {
    if timed == [] || x.at < timed[0].at then [x] + timed else [timed[0]] + Insert(timed[1..], x)
  }

  function AddTimer(l: Loop, x: Timer): (r: Loop) {
    var m := l.(timed := Insert(l.timed, x));
    if l.timed == [] || x.at < l.timed[0].at then m.(armed := FirstDeadline(m.timed)) else m
  }

  function RemoveTimer(l: Loop, k: nat): (r: Loop)
    requires k < |l.timed|
  {
    var m := l.(timed := Without(l.timed, k));
    if k == 0 then m.(armed := FirstDeadline(m.timed)) else m
  }

  /** Where the entry of a poll is. */
  function Position(timed: seq<Timer>, x: Timer): (k: nat)
    ensures k <= |timed|
    ensures k < |timed| ==> timed[k] == x
    ensures x in timed ==> k < |timed|
  {
    if timed == [] || timed[0] == x then 0 else 1 + Position(timed[1..], x)
  }

  /** Finish a poll, unless it has been finished before. */
  function Finish(l: Loop, id: Id, status: Status): (r: Loop) {
    if id !in l.polls || l.polls[id].processed then l
    else l.(polls := l.polls[id := l.polls[id].(processed := true, status := status)],
            watched := l.watched - {id},
            handles := l.handles + [OfPoll(id)])
  }

  function ProcessEvent(l: Loop, id: Id, status: Status): (r: Loop) {
    if id !in l.polls || l.polls[id].processed then l
    else
      var p := l.polls[id];
      var k := if p.deadline.Some? then Position(l.timed, Timer(p.deadline.value, id)) else |l.timed|;
      Finish(if p.timerPos && k < |l.timed| then RemoveTimer(l, k) else l, id, status)
  }

  function FinishAll(l: Loop, due: seq<Timer>): (r: Loop)
    decreases |due|
  {
    if due == [] then l else FinishAll(Finish(l, due[0].id, Timeout), due[1..])
  }

  /** How many entries at the front have come due. */
  function Due(timed: seq<Timer>, now: int): (n: nat)
    ensures n <= |timed|
    ensures forall k :: 0 <= k < n ==> timed[k].at <= now
    ensures n < |timed| ==> timed[n].at > now
  {
    if timed == [] || timed[0].at > now then 0 else 1 + Due(timed[1..], now)
  }

  function ProcessTimeout(l: Loop, now: int): (r: Loop) {
    var n := Due(l.timed, now);
    var m := FinishAll(l.(timed := l.timed[n..]), l.timed[..n]);
    m.(armed := FirstDeadline(m.timed))
  }

  function OpHandles(ops: seq<nat>): (hs: seq<Handle>) {
    seq(|ops|, k requires 0 <= k < |ops| => OfOp(ops[k]))
  }

  function Process(l: Loop, e: Event): (r: Loop) {
    match e
    case OnFd(id, status) => ProcessEvent(l, id, status)
    case OnTimer(now) => ProcessTimeout(l, now)
    case OnSchedule(ops) => l.(handles := l.handles + OpHandles(ops))
    case OnShutdown => l
  }

  function Scan(l: Loop, batch: seq<Event>): (r: Loop)
    decreases |batch|
  {
    if batch == [] then l else Scan(Process(l, batch[0]), batch[1..])
  }

  function ResumeAll(l: Loop): (r: Loop) {
    l.(handles := [], resumed := l.resumed + l.handles)
  }

  /** One turn of the loop: scan the whole batch, then resume. */
  function Execute(l: Loop, batch: seq<Event>): (r: Loop) {
    ResumeAll(Scan(l, batch))
  }

  /** A poll or yield registers itself; `id` stands for a new `poll_info`. */
  function Register(l: Loop, id: Id, hasFd: bool, deadline: Option<int>): (r: Loop) {
    var m := l.(polls := l.polls[id := Poll(hasFd, deadline, hasFd && deadline.Some?, false, Error)],
                watched := if hasFd then l.watched + {id} else l.watched);
    if deadline.Some? then AddTimer(m, Timer(deadline.value, id)) else m
  }

  // ----- the invariant -----

  ghost predicate Sorted(timed: seq<Timer>) {
    forall i, j :: 0 <= i < j < |timed| ==> timed[i].at <= timed[j].at
  }

  ghost predicate Waits(l: Loop, x: Timer) {
    x.id in l.polls && !l.polls[x.id].processed && l.polls[x.id].deadline == Some(x.at)
  }

  /**
   * The timer map is sorted and holds exactly the unfinished polls with a deadline, but for the
   * entries `due` that have been taken out and are about to be finished.
   */
  ghost predicate MapOk(l: Loop, due: seq<Timer>) {
    && Sorted(l.timed) && Distinct(l.timed)
    && (forall x :: x in l.timed <==> Waits(l, x) && x !in due)
  }

  ghost predicate DueOk(l: Loop, due: seq<Timer>) {
    Distinct(due) && forall k :: 0 <= k < |due| ==> Waits(l, due[k])
  }

  ghost predicate PollsOk(l: Loop) {
    && l.watched <= l.polls.Keys
    && forall id :: id in l.polls ==>
         && (l.polls[id].timerPos <==> l.polls[id].hasFd && l.polls[id].deadline.Some?)
         && (id in l.watched <==> l.polls[id].hasFd && !l.polls[id].processed)
  }

  /** Each poll has been queued once if it is finished, else not at all. */
  ghost predicate QueuedOk(l: Loop) {
    forall id :: Count(l.resumed + l.handles, OfPoll(id)) == One(id in l.polls && l.polls[id].processed)
  }

  ghost predicate Inv(l: Loop) {
    MapOk(l, []) && PollsOk(l) && QueuedOk(l) && l.armed == FirstDeadline(l.timed)
  }

  lemma {:induction false} InsertMembers(timed: seq<Timer>, x: Timer)
    ensures forall y :: y in Insert(timed, x) <==> y == x || y in timed
  {
    if timed != [] && !(x.at < timed[0].at) {
      InsertMembers(timed[1..], x);
      assert timed == [timed[0]] + timed[1..];
    }
  }

  lemma {:induction false} InsertSorted(timed: seq<Timer>, x: Timer)
    requires Sorted(timed)
    ensures Sorted(Insert(timed, x))
  {
    if timed != [] && !(x.at < timed[0].at) {
      var rest := Insert(timed[1..], x);
      InsertSorted(timed[1..], x);
      InsertMembers(timed[1..], x);
      forall j | 0 <= j < |rest|
        ensures timed[0].at <= rest[j].at
      {
        assert rest[j] in rest;
      }
    }
  }

  lemma {:induction false} InsertDistinct(timed: seq<Timer>, x: Timer)
    requires x !in timed && Distinct(timed)
    ensures Distinct(Insert(timed, x))
  {
    if timed != [] && !(x.at < timed[0].at) {
      var rest := Insert(timed[1..], x);
      TailMembers(timed);
      InsertDistinct(timed[1..], x);
      InsertMembers(timed[1..], x);
      assert timed[0] !in rest;
    }
  }

  lemma InsertFirst(timed: seq<Timer>, x: Timer)
    ensures FirstDeadline(Insert(timed, x)) == (if timed == [] || x.at < timed[0].at then Some(x.at) else FirstDeadline(timed))
  {
  }

  lemma WithoutMembers(timed: seq<Timer>, k: nat)
    requires k < |timed| && Sorted(timed) && Distinct(timed)
    ensures Sorted(Without(timed, k)) && Distinct(Without(timed, k))
    ensures forall y :: y in Without(timed, k) <==> y in timed && y != timed[k]
  {
    var r := Without(timed, k);
    assert forall i :: 0 <= i < |r| ==> r[i] == timed[if i < k then i else i + 1];
    forall y | y in timed && y != timed[k]
      ensures y in r
    {
      var i :| 0 <= i < |timed| && timed[i] == y;
      assert r[if i < k then i else i - 1] == y;
    }
  }

  lemma QueueOne(hs: seq<Handle>, id: Id)
    ensures forall j :: Count(hs + [OfPoll(id)], OfPoll(j)) == Count(hs, OfPoll(j)) + One(j == id)
  {
    forall j
      ensures Count(hs + [OfPoll(id)], OfPoll(j)) == Count(hs, OfPoll(j)) + One(j == id)
    {
      CountAdd(hs, [OfPoll(id)], OfPoll(j));
      assert [OfPoll(id)][1..] == [];
    }
  }

  lemma FinishQueues(l: Loop, id: Id, status: Status)
    requires PollsOk(l) && QueuedOk(l)
    ensures PollsOk(Finish(l, id, status)) && QueuedOk(Finish(l, id, status))
  {
    if id in l.polls && !l.polls[id].processed {
      var hs := l.resumed + l.handles;
      QueueOne(hs, id);
      assert l.resumed + (l.handles + [OfPoll(id)]) == hs + [OfPoll(id)];
    }
  }

  lemma RemoveKeepsMap(l: Loop, x: Timer, r: Loop)
    requires MapOk(l, []) && x in l.timed && r.timed == Without(l.timed, Position(l.timed, x))
    requires forall y :: Waits(r, y) <==> Waits(l, y) && y != x
    ensures MapOk(r, [])
  {
    WithoutMembers(l.timed, Position(l.timed, x));
  }

  lemma EventKeepsMap(l: Loop, id: Id, status: Status)
    requires MapOk(l, []) && id in l.polls && (l.polls[id].timerPos <==> l.polls[id].deadline.Some?)
    ensures MapOk(ProcessEvent(l, id, status), [])
  {
    var p, r := l.polls[id], ProcessEvent(l, id, status);
    if !p.processed {
      if p.deadline.Some? {
        var x := Timer(p.deadline.value, id);
        assert Waits(l, x);
        RemoveKeepsMap(l, x, r);
      } else {
        assert forall y :: Waits(r, y) <==> Waits(l, y);
      }
    }
  }

  /** The event of this poll takes the first entry out of the timer map, and so sets the timer. */
  predicate TakesFirst(l: Loop, id: Id) {
    && id in l.polls && !l.polls[id].processed && l.polls[id].timerPos && l.polls[id].deadline.Some?
    && l.timed != [] && l.timed[0] == Timer(l.polls[id].deadline.value, id)
  }

  lemma EventSetsTimer(l: Loop, id: Id, status: Status)
    ensures var r := ProcessEvent(l, id, status);
      if TakesFirst(l, id) then r.armed == FirstDeadline(r.timed)
      else r.armed == l.armed && FirstDeadline(r.timed) == FirstDeadline(l.timed)
  {
  }

  /** Apart from the timers, an event just finishes its poll. */
  lemma EventFinishes(l: Loop, id: Id, status: Status)
    ensures var r := ProcessEvent(l, id, status);
      r == Finish(l, id, status).(timed := r.timed, armed := r.armed)
  {
  }

  lemma EventQueues(l: Loop, id: Id, status: Status)
    requires PollsOk(l) && QueuedOk(l)
    ensures PollsOk(ProcessEvent(l, id, status)) && QueuedOk(ProcessEvent(l, id, status))
  {
    EventFinishes(l, id, status);
    FinishQueues(l, id, status);
  }

  /** Taking the due entries out of the map. */
  lemma TakeKeepsMap(l: Loop, n: nat)
    requires MapOk(l, []) && n <= |l.timed|
    ensures MapOk(l.(timed := l.timed[n..]), l.timed[..n]) && DueOk(l.(timed := l.timed[n..]), l.timed[..n])
  {
    var r, due := l.(timed := l.timed[n..]), l.timed[..n];
    SuffixMembers(l.timed, n);
    forall x
      ensures Waits(r, x) <==> Waits(l, x)
    {
    }
    forall k | 0 <= k < |due|
      ensures Waits(r, due[k])
    {
      assert due[k] in l.timed;
    }
  }

  lemma SuffixMembers(timed: seq<Timer>, n: nat)
    requires n <= |timed| && Sorted(timed) && Distinct(timed)
    ensures Sorted(timed[n..]) && Distinct(timed[n..])
    ensures forall y :: y in timed[n..] <==> y in timed && y !in timed[..n]
  {
    assert timed == timed[..n] + timed[n..];
    assert forall i :: 0 <= i < |timed| - n ==> timed[n..][i] == timed[n + i];
  }

  /** And finishing the first of them. */
  lemma FinishKeepsMap(l: Loop, due: seq<Timer>)
    requires MapOk(l, due) && DueOk(l, due) && due != []
    ensures var r := Finish(l, due[0].id, Timeout); MapOk(r, due[1..]) && DueOk(r, due[1..])
  {
    var r, x, rest := Finish(l, due[0].id, Timeout), due[0], due[1..];
    TailMembers(due);
    forall y
      ensures Waits(r, y) <==> Waits(l, y) && y != x
    {
    }
    forall k | 0 <= k < |rest|
      ensures Waits(r, rest[k])
    {
      assert rest[k] == due[k + 1];
    }
  }

  lemma {:induction false} FinishAllKeeps(l: Loop, due: seq<Timer>)
    requires MapOk(l, due) && DueOk(l, due) && PollsOk(l) && QueuedOk(l)
    ensures var r := FinishAll(l, due); MapOk(r, []) && PollsOk(r) && QueuedOk(r)
    decreases |due|
  {
    if due != [] {
      FinishKeepsMap(l, due);
      FinishQueues(l, due[0].id, Timeout);
      FinishAllKeeps(Finish(l, due[0].id, Timeout), due[1..]);
    }
  }

  /** Setting the timer touches nothing else. */
  lemma ArmKeeps(l: Loop, d: Option<int>, due: seq<Timer>)
    ensures var r := l.(armed := d);
      && (MapOk(l, due) ==> MapOk(r, due)) && (DueOk(l, due) ==> DueOk(r, due))
      && (PollsOk(l) ==> PollsOk(r)) && (QueuedOk(l) ==> QueuedOk(r))
  {
    assert forall x :: Waits(l.(armed := d), x) <==> Waits(l, x);
  }

  lemma RegisterKeepsMap(l: Loop, due: seq<Timer>, id: Id, hasFd: bool, deadline: Option<int>)
    requires MapOk(l, due) && DueOk(l, due) && id !in l.polls
    ensures MapOk(Register(l, id, hasFd, deadline), due) && DueOk(Register(l, id, hasFd, deadline), due)
  {
    var r := Register(l, id, hasFd, deadline);
    if deadline.Some? {
      var x := Timer(deadline.value, id);
      InsertSorted(l.timed, x);
      InsertMembers(l.timed, x);
      assert !Waits(l, x);
      InsertDistinct(l.timed, x);
      assert forall y :: Waits(r, y) <==> Waits(l, y) || y == x;
    } else {
      assert forall y :: Waits(r, y) <==> Waits(l, y);
    }
  }

  lemma RegisterQueues(l: Loop, id: Id, hasFd: bool, deadline: Option<int>)
    requires PollsOk(l) && QueuedOk(l) && id !in l.polls
    ensures PollsOk(Register(l, id, hasFd, deadline)) && QueuedOk(Register(l, id, hasFd, deadline))
  {
    var r := Register(l, id, hasFd, deadline);
    assert r.resumed + r.handles == l.resumed + l.handles;
    assert r.polls == l.polls[id := Poll(hasFd, deadline, hasFd && deadline.Some?, false, Error)];
    forall j
      ensures (j in r.polls && r.polls[j].processed) == (j in l.polls && l.polls[j].processed)
    {
    }
  }

  /** A registration sets the timer exactly if its deadline comes before all others. */
  predicate ComesFirst(l: Loop, deadline: Option<int>) {
    deadline.Some? && (l.timed == [] || deadline.value < l.timed[0].at)
  }

  lemma RegisterSetsTimer(l: Loop, id: Id, hasFd: bool, deadline: Option<int>)
    ensures var r := Register(l, id, hasFd, deadline);
      if ComesFirst(l, deadline) then r.armed == FirstDeadline(r.timed) == deadline
      else r.armed == l.armed && FirstDeadline(r.timed) == FirstDeadline(l.timed)
  {
    if deadline.Some? { InsertFirst(l.timed, Timer(deadline.value, id)); }
  }

  lemma ScheduleQueues(l: Loop, ops: seq<nat>)
    requires PollsOk(l) && QueuedOk(l)
    ensures PollsOk(Process(l, OnSchedule(ops))) && QueuedOk(Process(l, OnSchedule(ops)))
  {
    var r := Process(l, OnSchedule(ops));
    forall id
      ensures Count(r.resumed + r.handles, OfPoll(id)) == Count(l.resumed + l.handles, OfPoll(id))
    {
      assert l.resumed + (l.handles + OpHandles(ops)) == (l.resumed + l.handles) + OpHandles(ops);
      CountAdd(l.resumed + l.handles, OpHandles(ops), OfPoll(id));
      NoPollAmongOps(ops, id);
    }
  }

  /** Queueing and resuming handles leaves polls and map alone. */
  lemma SameMap(l: Loop, r: Loop, due: seq<Timer>)
    requires MapOk(l, due) && r.polls == l.polls && r.timed == l.timed
    ensures MapOk(r, due)
  {
    assert forall y :: Waits(r, y) <==> Waits(l, y);
  }

  lemma {:induction false} NoPollAmongOps(ops: seq<nat>, id: Id)
    ensures Count(OpHandles(ops), OfPoll(id)) == 0
  {
    if ops != [] {
      assert OpHandles(ops)[1..] == OpHandles(ops[1..]);
      NoPollAmongOps(ops[1..], id);
    }
  }

  /** The notifier reports descriptors only for polls that registered one. */
  ghost predicate Reportable(l: Loop, e: Event) {
    e.OnFd? ==> e.id in l.polls && l.polls[e.id].hasFd
  }

  ghost predicate LegalBatch(l: Loop, batch: seq<Event>) {
    forall k :: 0 <= k < |batch| ==> Reportable(l, batch[k])
  }

  /** Processing an event neither adds nor forgets polls, nor changes what they wait for. */
  ghost predicate SamePolls(l: Loop, r: Loop) {
    && l.polls.Keys == r.polls.Keys
    && forall id :: id in l.polls ==> r.polls[id].hasFd == l.polls[id].hasFd && r.polls[id].deadline == l.polls[id].deadline
  }

  lemma {:induction false} FinishAllSame(l: Loop, due: seq<Timer>)
    ensures SamePolls(l, FinishAll(l, due)) && FinishAll(l, due).resumed == l.resumed
    decreases |due|
  {
    if due != [] { FinishAllSame(Finish(l, due[0].id, Timeout), due[1..]); }
  }

  // ----- what the loop does when no other thread registers meanwhile -----

  lemma EventKeepsInv(l: Loop, id: Id, status: Status)
    requires Inv(l) && id in l.polls && l.polls[id].hasFd
    ensures Inv(ProcessEvent(l, id, status))
  {
    EventKeepsMap(l, id, status);
    EventSetsTimer(l, id, status);
    EventQueues(l, id, status);
  }

  lemma TimeoutKeepsInv(l: Loop, now: int)
    requires Inv(l)
    ensures Inv(ProcessTimeout(l, now))
  {
    var n := Due(l.timed, now);
    var m := l.(timed := l.timed[n..]);
    TakeKeepsMap(l, n);
    FinishAllKeeps(m, l.timed[..n]);
    ArmKeeps(FinishAll(m, l.timed[..n]), ProcessTimeout(l, now).armed, []);
  }

  lemma ProcessKeepsInv(l: Loop, e: Event)
    requires Inv(l) && Reportable(l, e)
    ensures Inv(Process(l, e)) && SamePolls(l, Process(l, e)) && Process(l, e).resumed == l.resumed
  {
    match e
    case OnFd(id, status) => EventKeepsInv(l, id, status); EventFinishes(l, id, status);
    case OnTimer(now) =>
      TimeoutKeepsInv(l, now);
      var n := Due(l.timed, now);
      FinishAllSame(l.(timed := l.timed[n..]), l.timed[..n]);
    case OnSchedule(ops) => ScheduleQueues(l, ops); SameMap(l, Process(l, e), []);
    case OnShutdown =>
  }

  const START := Loop(map[], [], None, {}, [], [])

  // ----- what is queued is resumed, in the order it was queued -----

  /** The scheduled operations among handles, in order. */
  function OpsOf(hs: seq<Handle>): (ops: seq<nat>) {
    if hs == [] then [] else OpOf(hs[0]) + OpsOf(hs[1..])
  }

  function OpOf(h: Handle): (ops: seq<nat>) {
    if h.OfOp? then [h.op] else []
  }

  /** The operations that the events of a batch bring, in order. */
  function Scheduled(batch: seq<Event>): (ops: seq<nat>) {
    if batch == [] then [] else Brings(batch[0]) + Scheduled(batch[1..])
  }

  function Brings(e: Event): (ops: seq<nat>) {
    if e.OnSchedule? then e.ops else []
  }

  lemma {:induction false} OpsAdd(a: seq<Handle>, b: seq<Handle>)
    ensures OpsOf(a + b) == OpsOf(a) + OpsOf(b)
  {
    if a == [] {
      assert a + b == b;
    } else {
      assert (a + b)[0] == a[0] && (a + b)[1..] == a[1..] + b;
      OpsAdd(a[1..], b);
      Assoc(OpOf(a[0]), OpsOf(a[1..]), OpsOf(b));
    }
  }

  lemma {:induction false} ScheduledAdd(a: seq<Event>, b: seq<Event>)
    ensures Scheduled(a + b) == Scheduled(a) + Scheduled(b)
  {
    if a == [] {
      assert a + b == b;
    } else {
      assert (a + b)[0] == a[0] && (a + b)[1..] == a[1..] + b;
      ScheduledAdd(a[1..], b);
      Assoc(Brings(a[0]), Scheduled(a[1..]), Scheduled(b));
    }
  }

  lemma {:induction false} OpsOfHandles(ops: seq<nat>)
    ensures OpsOf(OpHandles(ops)) == ops
  {
    if ops != [] {
      assert OpHandles(ops)[1..] == OpHandles(ops[1..]);
      OpsOfHandles(ops[1..]);
      assert ops == [ops[0]] + ops[1..];
    }
  }

  /** The handles of these entries' polls, in order. */
  function PollHandles(due: seq<Timer>): (hs: seq<Handle>) {
    seq(|due|, k requires 0 <= k < |due| => OfPoll(due[k].id))
  }

  lemma {:induction false} NoOpAmongPolls(due: seq<Timer>)
    ensures OpsOf(PollHandles(due)) == []
  {
    if due != [] {
      assert PollHandles(due)[1..] == PollHandles(due[1..]);
      NoOpAmongPolls(due[1..]);
    }
  }

  lemma {:induction false} FinishAllAppends(l: Loop, due: seq<Timer>)
    requires MapOk(l, due) && DueOk(l, due)
    ensures FinishAll(l, due).handles == l.handles + PollHandles(due)
    decreases |due|
  {
    if due != [] {
      assert Waits(l, due[0]);
      FinishKeepsMap(l, due);
      FinishAllAppends(Finish(l, due[0].id, Timeout), due[1..]);
      assert PollHandles(due) == [OfPoll(due[0].id)] + PollHandles(due[1..]);
    }
  }

  /**
   * What an event adds behind everything queued before: an operation event its operations in order, a
   * descriptor event its poll if unfinished, a timer event the polls due, earliest deadline first.
   */
  lemma EventAppends(l: Loop, e: Event)
    requires Inv(l) && Reportable(l, e)
    ensures Process(l, e).handles == l.handles +
      match e
      case OnSchedule(ops) => OpHandles(ops)
      case OnFd(id, _) => if l.polls[id].processed then [] else [OfPoll(id)]
      case OnTimer(now) => PollHandles(l.timed[..Due(l.timed, now)])
      case OnShutdown => []
  {
    match e
    case OnFd(id, status) => EventFinishes(l, id, status);
    case OnTimer(now) =>
      var n := Due(l.timed, now);
      TakeKeepsMap(l, n);
      FinishAllAppends(l.(timed := l.timed[n..]), l.timed[..n]);
    case _ =>
  }

  lemma EventOps(l: Loop, e: Event)
    requires Inv(l) && Reportable(l, e)
    ensures l.handles <= Process(l, e).handles && OpsOf(Process(l, e).handles) == OpsOf(l.handles) + Brings(e)
  {
    EventAppends(l, e);
    match e
    case OnSchedule(ops) => OpsAdd(l.handles, OpHandles(ops)); OpsOfHandles(ops);
    case OnFd(id, _) => OpsAdd(l.handles, [OfPoll(id)]); assert [OfPoll(id)][1..] == [];
    case OnTimer(now) =>
      var due := l.timed[..Due(l.timed, now)];
      OpsAdd(l.handles, PollHandles(due));
      NoOpAmongPolls(due);
    case OnShutdown =>
  }

  lemma {:induction false} ScanOps(l: Loop, batch: seq<Event>)
    requires Inv(l) && LegalBatch(l, batch)
    ensures var r := Scan(l, batch);
      Inv(r) && r.resumed == l.resumed && l.handles <= r.handles && OpsOf(r.handles) == OpsOf(l.handles) + Scheduled(batch)
    decreases |batch|
  {
    if batch != [] {
      assert Reportable(l, batch[0]);
      ProcessKeepsInv(l, batch[0]);
      EventOps(l, batch[0]);
      var m, rest := Process(l, batch[0]), batch[1..];
      assert forall k :: 0 <= k < |rest| ==> rest[k] == batch[k + 1];
      assert LegalBatch(m, rest);
      ScanOps(m, rest);
      assert l.handles <= m.handles <= Scan(m, rest).handles;
      Assoc(OpsOf(l.handles), Brings(batch[0]), Scheduled(rest));
    }
  }

  /**
   * One turn of the loop resumes everything queued, in the order queued: what was queued before, then
   * what the batch adds; and the operations among that are the earlier ones followed by those of the
   * batch, each as often and in the order its events bring them.
   */
  lemma ExecuteResumesInOrder(l: Loop, batch: seq<Event>)
    requires Inv(l) && LegalBatch(l, batch)
    ensures var r := Execute(l, batch);
      && r.handles == [] && r.resumed == l.resumed + Scan(l, batch).handles && l.resumed + l.handles <= r.resumed
      && OpsOf(r.resumed) == OpsOf(l.resumed + l.handles) + Scheduled(batch)
  {
    ScanOps(l, batch);
    var scanned := Scan(l, batch);
    OpsAdd(l.resumed, scanned.handles);
    OpsAdd(l.resumed, l.handles);
    Assoc(OpsOf(l.resumed), OpsOf(l.handles), Scheduled(batch));
    PrefixUnder(l.resumed, l.handles, scanned.handles);
  }
}

/**
 * The same loop in place: the fields of the scheduler, updated by the loops of
 * src/scheduler.cpp:267-519 and proved to do what the value does.
 */
module SchedulerBatch {
  import opened Prelude
  import opened SchedulerTimers

  class EventLoop {
    var polls: map<Id, Poll>
    var timed: seq<Timer>
    var armed: Option<int>
    var watched: set<Id>
    var handles: seq<Handle>
    var resumed: seq<Handle>

    ghost function Model(): (l: Loop)
      reads this
    {
      Loop(polls, timed, armed, watched, handles, resumed)
    }

    constructor ()
      ensures Model() == START
    {
      polls, timed, armed, watched, handles, resumed := map[], [], None, {}, [], [];
    }

    /** Sets the timer to the least deadline in the map, or to none when the map is empty. */
    method UpdateTimeout()
      modifies this`armed
      ensures armed == FirstDeadline(timed)
      ensures armed.Some? <==> timed != []
      ensures Sorted(timed) ==> forall x :: x in timed ==> armed.value <= x.at
      ensures armed.Some? ==> exists x :: x in timed && x.at == armed.value
    {
      if timed != [] {
        armed := Some(timed[0].at);
        assert timed[0] in timed;
      } else {
        armed := None;
      }
    }

    /** Where `emplace` puts the entry: behind all that are not later. */
    method Place(x: Timer) returns (pos: nat)
      ensures pos <= |timed| && Insert(timed, x) == timed[..pos] + [x] + timed[pos..]
      ensures pos == 0 <==> timed == [] || x.at < timed[0].at
    {
      pos := 0;
      while pos < |timed| && timed[pos].at <= x.at
        invariant 0 <= pos <= |timed|
        invariant timed[..pos] + Insert(timed[pos..], x) == Insert(timed, x)
        invariant pos > 0 ==> timed[0].at <= x.at
      {
        assert timed[pos..][1..] == timed[pos + 1..];
        assert timed[..pos + 1] == timed[..pos] + [timed[pos]];
        pos := pos + 1;
      }
      assert Insert(timed[pos..], x) == [x] + timed[pos..];
    }

    method AddTimerToken(x: Timer)
      modifies this`timed, this`armed
      ensures Model() == AddTimer(old(Model()), x)
    {
      var pos := Place(x);
      timed := timed[..pos] + [x] + timed[pos..];
      if pos == 0 {
        UpdateTimeout();
      }
    }

    /** Takes exactly one entry out, and keeps the map sorted and the timer on its least deadline. */
    method RemoveTimerToken(pos: nat)
      requires pos < |timed|
      modifies this`timed, this`armed
      ensures Model() == RemoveTimer(old(Model()), pos)
      ensures multiset(old(timed)) == multiset(timed) + multiset{old(timed)[pos]}
      ensures Sorted(old(timed)) ==> Sorted(timed)
      ensures old(armed) == FirstDeadline(old(timed)) ==> armed == FirstDeadline(timed)
    {
      ghost var was := timed;
      var isFirst := pos == 0;
      timed := timed[..pos] + timed[pos + 1..];
      assert was == was[..pos] + [was[pos]] + was[pos + 1..];
      assert forall i :: 0 <= i < |timed| ==> timed[i] == was[if i < pos then i else i + 1];
      if isFirst {
        UpdateTimeout();
      }
    }

    /** Mark a poll processed, stop watching its descriptor and queue its handle. */
    method Settle(id: Id, status: Status)
      requires id in polls && !polls[id].processed
      modifies this`polls, this`watched, this`handles
      ensures Model() == Finish(old(Model()), id, status)
    {
      polls := polls[id := polls[id].(processed := true, status := status)];
      watched := watched - {id};
      handles := handles + [OfPoll(id)];
    }

    method ProcessEventExecute(id: Id, status: Status)
      requires Inv(Model()) && Reportable(Model(), OnFd(id, status))
      modifies this
      ensures Model() == ProcessEvent(old(Model()), id, status) && Inv(Model())
    {
      EventKeepsInv(Model(), id, status);
      if !polls[id].processed {
        if polls[id].timerPos {
          // The stored iterator is valid: the entry is in the map because the poll is unfinished.
          var x := Timer(polls[id].deadline.value, id);
          assert Waits(Model(), x);
          var pos := Position(timed, x);
          RemoveTimerToken(pos);
        }
        Settle(id, status);
      }
    }

    /** The locked section: takes the due entries off the front of the map. */
    method TakeDue(now: int) returns (due: seq<Timer>)
      modifies this`timed
      ensures due == old(timed)[..Due(old(timed), now)] && timed == old(timed)[Due(old(timed), now)..]
    {
      due := [];
      while timed != [] && timed[0].at <= now
        invariant |due| <= |old(timed)| && due == old(timed)[..|due|] && timed == old(timed)[|due|..]
        invariant Due(old(timed), now) == |due| + Due(timed, now)
        decreases |timed|
      {
        due := due + [timed[0]];
        timed := timed[1..];
      }
    }

    method FinishDue(due: seq<Timer>)
      modifies this`polls, this`watched, this`handles
      ensures Model() == FinishAll(old(Model()), due)
    {
      var k := 0;
      while k < |due|
        invariant 0 <= k <= |due|
        invariant FinishAll(Model(), due[k..]) == FinishAll(old(Model()), due)
      {
        assert due[k..][1..] == due[k + 1..];
        if due[k].id in polls && !polls[due[k].id].processed {
          Settle(due[k].id, Timeout);
        }
        k := k + 1;
      }
    }

    method ProcessTimeoutExecute(now: int)
      requires Inv(Model())
      modifies this
      ensures Model() == ProcessTimeout(old(Model()), now) && Inv(Model())
    {
      TimeoutKeepsInv(Model(), now);
      var due := TakeDue(now);
      FinishDue(due);
      UpdateTimeout();
    }

    method ProcessEventsExecute(batch: seq<Event>)
      requires Inv(Model()) && LegalBatch(Model(), batch)
      modifies this
      ensures Model() == Execute(old(Model()), batch) && Inv(Model()) && handles == []
      ensures old(resumed) + old(handles) <= resumed && OpsOf(resumed) == OpsOf(old(resumed) + old(handles)) + Scheduled(batch)
    {
      ExecuteResumesInOrder(Model(), batch);
      var k := 0;
      while k < |batch|
        invariant 0 <= k <= |batch| && Inv(Model()) && LegalBatch(Model(), batch[k..])
        invariant Scan(Model(), batch[k..]) == Scan(old(Model()), batch)
      {
        ghost var l := Model();
        assert batch[k..][0] == batch[k] && batch[k..][1..] == batch[k + 1..];
        assert Reportable(l, batch[k..][0]);
        ProcessKeepsInv(l, batch[k]);
        match batch[k] {
          case OnTimer(now) => ProcessTimeoutExecute(now);
          case OnSchedule(ops) => handles := handles + OpHandles(ops);
          case OnShutdown =>
          case OnFd(id, status) => ProcessEventExecute(id, status);
        }
        LegalRest(l, Model(), batch[k..]);
        k := k + 1;
      }
      ghost var scanned := Model();
      resumed := resumed + handles;
      handles := [];
      SameMap(scanned, Model(), []);
      assert resumed + handles == scanned.resumed + scanned.handles;
    }
  }

  lemma LegalRest(l: Loop, r: Loop, batch: seq<Event>)
    requires batch != [] && LegalBatch(l, batch) && SamePolls(l, r)
    ensures LegalBatch(r, batch[1..])
  {
    var rest := batch[1..];
    assert forall k :: 0 <= k < |rest| ==> rest[k] == batch[k + 1];
  }
}
