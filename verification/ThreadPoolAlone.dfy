/**
 * How a call to `coro::thread_pool`, and a turn of one of its workers, ends when nobody else moves
 * and the lock is free: the whole state after it (src/thread_pool.cpp:51-184,
 * include/coro/thread_pool.hpp:178-219).
 */
module ThreadPoolAlone {
  import opened Prelude
  import opened ThreadPool

  // ----- calls -----

  /** One caller keeps moving and nobody else moves; each notify_one may pick another sleeper. */
  ghost predicate OnlyCalls(ms: seq<Move>, i: Id, ask: Request) {
    forall k :: 0 <= k < |ms| ==> ms[k].CallStep? && ms[k].id == i && ms[k].ask == ask
  }

  lemma Before(s: State, t: State, i: Id, ask: Request, wake: Id, ms: seq<Move>) returns (ns: seq<Move>)
    requires Enabled(s, CallStep(i, ask, wake)) && CallNext(s, i, ask, wake) == t && Legal(t, ms) && OnlyCalls(ms, i, ask)
    ensures Legal(s, ns) && OnlyCalls(ns, i, ask) && Exec(s, ns) == Exec(t, ms)
  {
    ns := [CallStep(i, ask, wake)] + ms;
    assert ns[0] == CallStep(i, ask, wake) && ns[1..] == ms;
  }

  /** The state with the call of agent `i` at `c`. */
  function At(s: State, i: Id, c: Call): (t: State)
    requires i < |s.agents|
  {
    s.(agents := s.agents[i := Agent(s.agents[i].work, c)])
  }

  predicate MayCall(a: Agent) {
    a.work.Outside? || a.work.Running?
  }

  /** One sleeper on its way back to the queue, if anybody slept. */
  function OneUp(agents: seq<Agent>, wake: Id): (r: seq<Agent>)
    ensures |r| == |agents|
  {
    if wake < |agents| && agents[wake].work == Asleep then agents[wake := Agent(LoopLock, agents[wake].call)] else agents
  }

  /** The state with `h` queued behind the others and one sleeper woken. */
  function Queued(s: State, h: Handle, wake: Id): (t: State) {
    s.(queue := s.queue + [h], entered := s.entered + [h], times := s.times + [0], agents := OneUp(s.agents, wake))
  }

  /** Only sleepers matter to a notify_one, and a caller is awake. */
  lemma StillPicks(s: State, i: Id, c: Call, wake: Id)
    requires i < |s.agents| && MayCall(s.agents[i]) && Picks(s, wake)
    ensures Picks(At(s, i, c), wake)
  {
    var a := At(s, i, c);
    if SomeAsleep(a.agents) {
      var k :| 0 <= k < |a.agents| && a.agents[k].work.Asleep?;
      assert s.agents[k].work.Asleep?;
    }
  }

  lemma EnqueueAlone(s: State, i: Id, ask: Request, wake: Id, h: Handle) returns (ms: seq<Move>)
    requires i < |s.agents| && s.agents[i].call == NoCall && MayCall(s.agents[i]) && s.owner.None? && Picks(s, wake)
    ensures Legal(At(s, i, Enqueue(h)), ms) && OnlyCalls(ms, i, ask)
    ensures Exec(At(s, i, Enqueue(h)), ms) == Queued(s, h, wake)
  {
    var a := At(s, i, Enqueue(h));
    StillPicks(s, i, Enqueue(h), wake);
    var b := CallNext(a, i, ask, wake);
    assert seq(1, _ => 0) == [0];
    assert a.agents[i := Agent(s.agents[i].work, NoCall)] == s.agents;
    assert b.agents == OneUp(s.agents, wake) by {
      if wake < |s.agents| && !s.agents[wake].work.Asleep? { assert s.agents[wake := s.agents[wake]] == s.agents; }
    }
    ms := Before(a, b, i, ask, wake, []);
  }

  /** A quiet step of a call, from one place to the next. */
  lemma Quietly(s: State, u: State, i: Id, ask: Request, wake: Id, c: Call, d: Call, ms: seq<Move>) returns (ns: seq<Move>)
    requires i < |s.agents| && u.agents == s.agents && MayCall(s.agents[i]) && Picks(s, wake) && Picks(u, wake)
    requires CallNext(At(s, i, c), i, ask, wake) == At(u, i, d) && Legal(At(u, i, d), ms) && OnlyCalls(ms, i, ask)
    ensures Legal(At(s, i, c), ns) && OnlyCalls(ns, i, ask) && Exec(At(s, i, c), ns) == Exec(At(u, i, d), ms)
  {
    StillPicks(s, i, c, wake);
    ns := Before(At(s, i, c), At(u, i, d), i, ask, wake, ms);
  }

  lemma AtRest(s: State, i: Id)
    requires i < |s.agents| && s.agents[i].call == NoCall
    ensures At(s, i, NoCall) == s
  {
    assert s.agents[i := s.agents[i]] == s.agents;
  }

  /** `schedule` and `resume`: refused after shutdown with nothing changed, otherwise counted and queued, and a sleeper woken. */
  lemma ScheduleAlone(s: State, i: Id, ask: Request, wake: Id, h: Handle) returns (ms: seq<Move>)
    requires i < |s.agents| && s.agents[i].call == NoCall && MayCall(s.agents[i]) && Picks(s, wake) && (s.shut || s.owner.None?)
    requires ask == AskSchedule(h) || ask == AskResume(Some(h))
    ensures Legal(s, ms) && OnlyCalls(ms, i, ask)
    ensures Exec(s, ms) == if s.shut then s else Queued(s, h, wake).(size := s.size + 1)
  {
    AtRest(s, i);
    var first := if ask.AskSchedule? then ScheduleFlag(h) else ResumeFlag(h);
    var u := s.(size := s.size + 1);
    if s.shut {
      ms := Quietly(u, s, i, ask, wake, Refused, NoCall, []);
      ms := Quietly(u, u, i, ask, wake, first, Refused, ms);
    } else {
      ms := EnqueueAlone(u, i, ask, wake, h);
      ms := Quietly(u, u, i, ask, wake, first, Enqueue(h), ms);
    }
    ms := Quietly(s, u, i, ask, wake, NoCall, first, ms);
  }

  /** `resume` of nothing, and a second `shutdown`, change nothing. */
  lemma NothingToDo(s: State, i: Id, ask: Request, wake: Id)
    requires Enabled(s, CallStep(i, ask, wake)) && s.agents[i].call == NoCall
    requires ask == AskResume(None) || (ask == AskShutdown && s.shut)
    ensures Next(s, CallStep(i, ask, wake)) == s
  {
  }

  /** `spawn_detached` after shutdown is refused and leaves one count behind. */
  lemma SpawnRefusedAlone(s: State, i: Id, wake: Id, h: Handle) returns (ms: seq<Move>)
    requires i < |s.agents| && s.agents[i].call == NoCall && MayCall(s.agents[i]) && Picks(s, wake) && s.shut
    ensures Legal(s, ms) && OnlyCalls(ms, i, AskSpawn(h))
    ensures Exec(s, ms) == s.(size := s.size + 1, leaked := s.leaked + 1)
  {
    AtRest(s, i);
    var ask, u, v, w := AskSpawn(h), s.(size := s.size + 1), s.(size := s.size + 2), s.(size := s.size + 1, leaked := s.leaked + 1);
    AtRest(w, i);
    ms := Quietly(v, w, i, ask, wake, SpawnRefused, NoCall, []);
    ms := Quietly(v, v, i, ask, wake, SpawnFlag(h), SpawnRefused, ms);
    ms := Quietly(u, v, i, ask, wake, SpawnCount(h), SpawnFlag(h), ms);
    ms := Quietly(s, u, i, ask, wake, NoCall, SpawnCount(h), ms);
  }

  /** `spawn_detached` before shutdown counts the task and its handle, and queues the handle. */
  lemma SpawnAlone(s: State, i: Id, wake: Id, h: Handle) returns (ms: seq<Move>)
    requires i < |s.agents| && s.agents[i].call == NoCall && MayCall(s.agents[i]) && Picks(s, wake) && !s.shut && s.owner.None?
    ensures Legal(s, ms) && OnlyCalls(ms, i, AskSpawn(h))
    ensures Exec(s, ms) == Queued(s, h, wake).(size := s.size + 2, live := s.live + 1)
  {
    AtRest(s, i);
    var ask, u, v, w := AskSpawn(h), s.(size := s.size + 1), s.(size := s.size + 2), s.(size := s.size + 2, live := s.live + 1);
    ms := EnqueueAlone(w, i, ask, wake, h);
    ms := Quietly(v, w, i, ask, wake, SpawnFlag(h), Enqueue(h), ms);
    ms := Quietly(u, v, i, ask, wake, SpawnCount(h), SpawnFlag(h), ms);
    ms := Quietly(s, u, i, ask, wake, NoCall, SpawnCount(h), ms);
  }

  // ----- a range -----

  function Sleeping(a: Agent): (n: nat) {
    One(a.work.Asleep?)
  }

  function AllUp(agents: seq<Agent>): (r: seq<Agent>)
    ensures |r| == |agents|
    ensures forall k :: 0 <= k < |agents| ==> r[k] == if agents[k].work == Asleep then Agent(LoopLock, agents[k].call) else agents[k]
  {
    seq(|agents|, k requires 0 <= k < |agents| => if agents[k].work == Asleep then Agent(LoopLock, agents[k].call) else agents[k])
  }

  lemma PickOne(s: State) returns (wake: Id)
    ensures Picks(s, wake)
  {
    if SomeAsleep(s.agents) {
      wake :| 0 <= wake < |s.agents| && s.agents[wake].work.Asleep?;
    } else {
      wake := 0;
    }
  }

  lemma {:induction false} AwakeThen(agents: seq<Agent>)
    requires !SomeAsleep(agents)
    ensures Total(agents, Sleeping) == 0
  {
    TotalZero(agents, Sleeping);
  }

  /** One notify_one of a range: one sleeper fewer, if there is one. */
  lemma NotifyStep(s: State, i: Id, ask: Request, wake: Id, total: nat, left: nat)
    requires i < |s.agents| && s.agents[i].call == RangeNotify(total, left) && MayCall(s.agents[i]) && Picks(s, wake)
    requires 0 < left && total < Workers(s.agents)
    ensures
      var t := CallNext(s, i, ask, wake);
      && t == s.(agents := t.agents) && i < |t.agents| == |s.agents|
      && t.agents[i] == Agent(s.agents[i].work, RangeNotify(total, left - 1))
      && (forall k :: 0 <= k < |s.agents| && k != i ==>
            t.agents[k] == s.agents[k] || (s.agents[k].work == Asleep && t.agents[k] == Agent(LoopLock, s.agents[k].call)))
      && Total(t.agents, Sleeping) == (if Total(s.agents, Sleeping) == 0 then 0 else Total(s.agents, Sleeping) - 1)
  {
    var c := Agent(s.agents[i].work, RangeNotify(total, left - 1));
    var t := CallNext(s, i, ask, wake);
    TotalUpdate(s.agents, i, c, Sleeping);
    TotalZero(s.agents, Sleeping);
    if wake < |s.agents| {
      var mid := s.agents[i := c];
      TotalUpdate(mid, wake, Roused(mid[wake]), Sleeping);
      assert t.agents == mid[wake := Roused(mid[wake])];
      if !SomeAsleep(s.agents) { AwakeThen(s.agents); }
    } else {
      AwakeThen(s.agents);
    }
  }

  lemma {:induction false} WorkersKept(a: seq<Agent>, b: seq<Agent>)
    requires |a| == |b| && forall k :: 0 <= k < |a| ==> IsWorker(a[k]) == IsWorker(b[k])
    ensures Workers(a) == Workers(b)
    decreases |a|
  {
    if a != [] {
      WorkersKept(a[1..], b[1..]);
    }
  }

  /** Task `i` back from its call, and the others as they were but for sleepers woken, as many as `woken` of them if there are. */
  ghost predicate Returned(s: State, t: State, i: Id, woken: nat)
    requires i < |s.agents|
  {
    && t == s.(agents := t.agents)
    && |t.agents| == |s.agents|
    && t.agents[i] == Agent(s.agents[i].work, NoCall)
    && (forall k :: 0 <= k < |s.agents| && k != i ==>
          t.agents[k] == s.agents[k] || (s.agents[k].work == Asleep && t.agents[k] == Agent(LoopLock, s.agents[k].call)))
    && Total(t.agents, Sleeping) == (if Total(s.agents, Sleeping) <= woken then 0 else Total(s.agents, Sleeping) - woken)
  }

  /** The notifications of a range smaller than the pool wake one sleeper each. */
  lemma {:induction false} NotifiesEach(s: State, i: Id, ask: Request, total: nat, left: nat) returns (ms: seq<Move>)
    requires i < |s.agents| && s.agents[i].call == RangeNotify(total, left) && MayCall(s.agents[i]) && total < Workers(s.agents)
    ensures Legal(s, ms) && OnlyCalls(ms, i, ask) && Returned(s, Exec(s, ms), i, left)
    decreases left
  {
    var wake := PickOne(s);
    var t := CallNext(s, i, ask, wake);
    if left == 0 {
      TotalUpdate(s.agents, i, Agent(s.agents[i].work, NoCall), Sleeping);
      ms := [];
    } else {
      NotifyStep(s, i, ask, wake, total, left);
      WorkersKept(s.agents, t.agents);
      ms := NotifiesEach(t, i, ask, total, left - 1);
    }
    ms := Before(s, t, i, ask, wake, ms);
  }

  /** Those of a range at least as big as the pool wake everybody. */
  lemma NotifiesAll(s: State, i: Id, ask: Request, total: nat, left: nat) returns (ms: seq<Move>)
    requires i < |s.agents| && s.agents[i].call == RangeNotify(total, left) && MayCall(s.agents[i]) && total >= Workers(s.agents)
    ensures Legal(s, ms) && OnlyCalls(ms, i, ask)
    ensures Exec(s, ms) == s.(agents := AllUp(s.agents)[i := Agent(s.agents[i].work, NoCall)])
  {
    var wake := PickOne(s);
    var t := CallNext(s, i, ask, wake);
    assert t.agents == AllUp(s.agents)[i := Agent(s.agents[i].work, NoCall)];
    ms := Before(s, t, i, ask, wake, []);
  }

  /** The state with the handles `ps` queued, in order, behind the others. */
  function Behind(s: State, ps: seq<Handle>): (t: State)
    ensures t == s.(queue := s.queue + ps, entered := s.entered + ps, times := t.times)
    ensures |t.times| == |s.times| + |ps|
    ensures forall k :: 0 <= k < |t.times| ==> t.times[k] == if k < |s.times| then s.times[k] else 0
  {
    s.(queue := s.queue + ps, entered := s.entered + ps, times := s.times + seq(|ps|, _ => 0))
  }

  lemma QueueRange(s: State, i: Id, ask: Request, wake: Id, hs: seq<Option<Handle>>)
    requires i < |s.agents| && s.owner.None?
    ensures
      var ps := Present(hs);
      CallNext(At(s, i, RangeEnqueue(hs)), i, ask, wake) ==
        At(Behind(s, ps), i, if |ps| < |hs| then RangeNulls(|hs| - |ps|, |ps|) else RangeNotify(|ps|, |ps|))
  {
    assert Behind(s, Present(hs)).times == Push(s, Present(hs)).times;
  }

  lemma RangeSection(s: State, i: Id, ask: Request, wake: Id, hs: seq<Option<Handle>>) returns (ms: seq<Move>)
    requires i < |s.agents| && MayCall(s.agents[i]) && Picks(s, wake) && s.owner.None?
    ensures Legal(At(s, i, RangeEnqueue(hs)), ms) && OnlyCalls(ms, i, ask)
    ensures
      var n := |Present(hs)|;
      Exec(At(s, i, RangeEnqueue(hs)), ms) == At(Behind(s, Present(hs)).(size := s.size - |hs| + n), i, RangeNotify(n, n))
  {
    var ps := Present(hs);
    var v := Behind(s, ps);
    QueueRange(s, i, ask, wake, hs);
    ms := [];
    if |ps| < |hs| {
      ms := Quietly(v, v.(size := s.size - |hs| + |ps|), i, ask, wake, RangeNulls(|hs| - |ps|, |ps|), RangeNotify(|ps|, |ps|), ms);
      ms := Quietly(s, v, i, ask, wake, RangeEnqueue(hs), RangeNulls(|hs| - |ps|, |ps|), ms);
    } else {
      ms := Quietly(s, v, i, ask, wake, RangeEnqueue(hs), RangeNotify(|ps|, |ps|), ms);
    }
  }

  /** The handles of a range are queued in one go, in order; only they are counted, and the caller goes on to notify for each. */
  lemma RangeAlone(s: State, i: Id, wake: Id, hs: seq<Option<Handle>>) returns (ms: seq<Move>)
    requires i < |s.agents| && s.agents[i].call == NoCall && MayCall(s.agents[i]) && Picks(s, wake) && s.owner.None?
    ensures Legal(s, ms) && OnlyCalls(ms, i, AskRange(hs))
    ensures
      var n := |Present(hs)|;
      Exec(s, ms) == At(Behind(s, Present(hs)).(size := s.size + n), i, RangeNotify(n, n))
  {
    AtRest(s, i);
    var u := s.(size := s.size + |hs|);
    assert Behind(u, Present(hs)).times == Behind(s, Present(hs)).times;
    ms := RangeSection(u, i, AskRange(hs), wake, hs);
    ms := Quietly(s, u, i, AskRange(hs), wake, NoCall, RangeEnqueue(hs), ms);
  }

  // ----- shutdown -----

  /** `shutdown` raises the flag and wakes every sleeper; it is then back exactly when every worker has exited. */
  lemma ShutdownAlone(s: State, i: Id, wake: Id) returns (ms: seq<Move>)
    requires i < |s.agents| && s.agents[i].call == NoCall && MayCall(s.agents[i]) && Picks(s, wake) && !s.shut && s.owner.None?
    ensures Legal(s, ms) && OnlyCalls(ms, i, AskShutdown)
    ensures Exec(s, ms) == s.(shut := true, agents := AllUp(s.agents)[i := Agent(s.agents[i].work, ShutJoin)])
  {
    AtRest(s, i);
    var u := s.(shut := true);
    var a := At(u, i, ShutLock);
    StillPicks(u, i, ShutLock, wake);
    var b := CallNext(a, i, AskShutdown, wake);
    assert b.agents == AllUp(s.agents)[i := Agent(s.agents[i].work, ShutJoin)];
    ms := Before(a, b, i, AskShutdown, wake, []);
    ms := Quietly(s, u, i, AskShutdown, wake, NoCall, ShutLock, ms);
  }

  // ----- workers -----

  /** One worker keeps moving and nobody else moves. */
  ghost predicate OnlyWork(ms: seq<Move>, i: Id) {
    forall k :: 0 <= k < |ms| ==> ms[k] == WorkStep(i)
  }

  function Working(s: State, i: Id, w: Work): (t: State)
    requires i < |s.agents|
  {
    s.(agents := s.agents[i := Agent(w, s.agents[i].call)])
  }

  lemma Onward(s: State, u: State, i: Id, w: Work, x: Work, ms: seq<Move>) returns (ns: seq<Move>)
    requires i < |s.agents| && s.agents[i].call == NoCall && u.agents == s.agents
    requires WorkNext(Working(s, i, w), i) == Working(u, i, x) && Legal(Working(u, i, x), ms) && OnlyWork(ms, i)
    ensures Legal(Working(s, i, w), ns) && OnlyWork(ns, i) && Exec(Working(s, i, w), ns) == Exec(Working(u, i, x), ms) && |ns| == |ms| + 1
  {
    ns := [WorkStep(i)] + ms;
    assert ns[0] == WorkStep(i) && ns[1..] == ms;
  }

  lemma AtWork(s: State, i: Id)
    requires i < |s.agents|
    ensures Working(s, i, s.agents[i].work) == s
  {
    assert s.agents[i := s.agents[i]] == s.agents;
  }

  /** The front handle taken by worker `i` and resumed once. */
  function Served(s: State, i: Id): (t: State)
    requires s.queue != [] && |s.left| < |s.times|
  {
    s.(queue := s.queue[1..], left := s.left + [s.queue[0]], popper := s.popper + [i],
       times := s.times[|s.left| := s.times[|s.left|] + 1], size := s.size - 1)
  }

  /** From the pop on: the handle is resumed once, uncounted, and the worker is back at the head of its loop. */
  lemma RunsAlone(s: State, i: Id, ticket: nat, last: bool) returns (ms: seq<Move>)
    requires i < |s.agents| && s.agents[i].call == NoCall && ticket < |s.times|
    ensures Legal(Working(s, i, Popped(ticket, last)), ms) && OnlyWork(ms, i)
    ensures Exec(Working(s, i, Popped(ticket, last)), ms) ==
      Working(s.(times := s.times[ticket := s.times[ticket] + 1], size := s.size - 1), i, if last then DrainSize else LoopFlag)
  {
    var u := s.(times := s.times[ticket := s.times[ticket] + 1]);
    var v := u.(size := s.size - 1);
    ms := Onward(u, v, i, Ran(last), if last then DrainSize else LoopFlag, []);
    ms := Onward(u, u, i, Running(last), Ran(last), ms);
    ms := Onward(s, u, i, Popped(ticket, last), Running(last), ms);
  }

  /** Before shutdown, a worker at the head of its loop, or woken, takes the front handle and runs it. */
  lemma WorkerServes(s: State, i: Id) returns (ms: seq<Move>)
    requires i < |s.agents| && s.agents[i].call == NoCall && s.owner.None? && s.queue != [] && |s.left| < |s.times|
    requires (s.agents[i].work == LoopFlag && !s.shut) || s.agents[i].work == LoopLock || s.agents[i].work == Asleep
    ensures Legal(s, ms) && OnlyWork(ms, i)
    ensures Exec(s, ms) == Working(Served(s, i), i, LoopFlag)
  {
    AtWork(s, i);
    var u := s.(owner := Some(i));
    var v := s.(queue := s.queue[1..], left := s.left + [s.queue[0]], popper := s.popper + [i]);
    ms := RunsAlone(v, i, |s.left|, false);
    ms := Onward(u, v, i, LoopTest, Popped(|s.left|, false), ms);
    ms := Onward(s, u, i, LoopLock, LoopTest, ms);
    if s.agents[i].work != LoopLock {
      ms := Onward(s, s, i, s.agents[i].work, LoopLock, ms);
    }
  }

  /** With nothing queued it goes to sleep and leaves everything as it was. */
  lemma WorkerSleeps(s: State, i: Id) returns (ms: seq<Move>)
    requires i < |s.agents| && s.agents[i].call == NoCall && s.owner.None? && s.queue == [] && !s.shut
    requires s.agents[i].work == LoopFlag || s.agents[i].work == LoopLock || s.agents[i].work == Asleep
    ensures Legal(s, ms) && OnlyWork(ms, i) && |ms| > 0
    ensures Exec(s, ms) == Working(s, i, Asleep)
  {
    AtWork(s, i);
    var u := s.(owner := Some(i));
    ms := Onward(u, s, i, LoopSleep, Asleep, []);
    ms := Onward(u, u, i, LoopTest, LoopSleep, ms);
    ms := Onward(s, u, i, LoopLock, LoopTest, ms);
    if s.agents[i].work != LoopLock {
      ms := Onward(s, s, i, s.agents[i].work, LoopLock, ms);
    }
  }

  /** After shutdown a worker runs what is queued, handle by handle. */
  lemma WorkerDrains(s: State, i: Id) returns (ms: seq<Move>)
    requires i < |s.agents| && s.agents[i].call == NoCall && s.owner.None? && s.queue != [] && |s.left| < |s.times| && s.size > 0
    requires (s.agents[i].work == LoopFlag && s.shut) || s.agents[i].work == DrainSize
    ensures Legal(s, ms) && OnlyWork(ms, i)
    ensures Exec(s, ms) == Working(Served(s, i), i, DrainSize)
  {
    AtWork(s, i);
    var v := s.(queue := s.queue[1..], left := s.left + [s.queue[0]], popper := s.popper + [i]);
    ms := RunsAlone(v, i, |s.left|, true);
    ms := Onward(s, v, i, DrainLock, Popped(|s.left|, true), ms);
    ms := Onward(s, s, i, DrainSize, DrainLock, ms);
    if s.agents[i].work == LoopFlag {
      ms := Onward(s, s, i, LoopFlag, DrainSize, ms);
    }
  }

  /** And exits once nothing is queued, without taking the lock if nothing is counted. */
  lemma WorkerLeaves(s: State, i: Id) returns (ms: seq<Move>)
    requires i < |s.agents| && s.agents[i].call == NoCall && s.shut && s.agents[i].work == LoopFlag
    requires s.size <= 0 || (s.owner.None? && s.queue == [])
    ensures Legal(s, ms) && OnlyWork(ms, i) && |ms| == (if s.size > 0 then 3 else 2)
    ensures Exec(s, ms) == Working(s, i, Exited)
  {
    AtWork(s, i);
    ms := [];
    if s.size > 0 {
      ms := Onward(s, s, i, DrainLock, Exited, ms);
      ms := Onward(s, s, i, DrainSize, DrainLock, ms);
    } else {
      ms := Onward(s, s, i, DrainSize, Exited, ms);
    }
    ms := Onward(s, s, i, LoopFlag, DrainSize, ms);
  }

  /** A worker woken by shutdown with nothing queued goes to the head of its loop, where it sees the flag. */
  lemma WorkerNotices(s: State, i: Id) returns (ms: seq<Move>)
    requires i < |s.agents| && s.agents[i].call == NoCall && s.shut && s.owner.None? && s.queue == [] && s.agents[i].work == LoopLock
    ensures Legal(s, ms) && OnlyWork(ms, i)
    ensures Exec(s, ms) == Working(s, i, LoopFlag)
  {
    AtWork(s, i);
    var u := s.(owner := Some(i));
    ms := Onward(u, s, i, LoopTest, LoopFlag, []);
    ms := Onward(s, u, i, LoopLock, LoopTest, ms);
  }
}
