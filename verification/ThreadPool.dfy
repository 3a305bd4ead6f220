/**
 * `coro::thread_pool` as a step machine (src/thread_pool.cpp, include/coro/thread_pool.hpp:178-219):
 * any number of workers and of outside threads, one step per atomic access or critical section.
 * Only the worker's wait holds the lock over several steps, because the shutdown flag may rise
 * between the test of the wait condition and the moment the worker sleeps.
 */
module ThreadPool {
  import opened Prelude

  type Id = nat
  type Handle = nat

  /** Where a thread is in `executor`; `last`: in its second loop. */
  datatype Work =
    | Outside                               // not one of the pool's threads
    | LoopFlag
    | LoopLock                              // first loop, before the lock; a woken sleeper comes back here
    | LoopTest                              // holds the lock, before the wait condition
    | LoopSleep                             // holds the lock, condition false, not yet asleep
    | Asleep
    | Popped(ticket: nat, last: bool)
    | Running(last: bool)
    | Ran(last: bool)                       // before the size goes down
    | DrainSize
    | DrainLock
    | Exited

  /** Where a thread is in a call to the pool. */
  datatype Call =
    | NoCall
    | ScheduleFlag(h: Handle)               // schedule: counted, before the shutdown load
    | ResumeFlag(h: Handle)                 // resume: the same
    | Refused
    | Enqueue(h: Handle)                    // before the section of schedule_impl
    | SpawnCount(h: Handle)                 // spawn_detached: counted once, before resume counts
    | SpawnFlag(h: Handle)
    | SpawnRefused
    | RangeEnqueue(hs: seq<Option<Handle>>) // resume of a range: counted, before the section
    | RangeNulls(nulls: nat, total: nat)
    | RangeNotify(total: nat, left: nat)
    | ShutLock                              // shutdown: flag raised, before the section that notifies
    | ShutJoin

  datatype Agent = Agent(work: Work, call: Call)

  /**
   * `entered` and `left` are all handles ever put on and taken off the queue; an entry's place in
   * `entered` is its ticket. `times` counts resumes and `popper` names the taker, by ticket.
   */
  datatype State = State(
    queue: seq<Handle>, size: int, shut: bool, owner: Option<Id>, agents: seq<Agent>,
    live: nat,            // detached tasks not yet finished
    leaked: nat,          // spawns refused after having been counted
    entered: seq<Handle>, left: seq<Handle>, times: seq<nat>, popper: seq<Id>)

  datatype Request = AskSchedule(h: Handle) | AskResume(maybe: Option<Handle>) | AskSpawn(h: Handle) | AskRange(hs: seq<Option<Handle>>) | AskShutdown

  /** `wake` is the sleeper a notify_one picks. */
  datatype Move = CallStep(id: Id, ask: Request, wake: Id) | WorkStep(id: Id) | DetachedEnds

  // ----- the machine -----

  predicate IsWorker(a: Agent) {
    !a.work.Outside?
  }

  function Workers(agents: seq<Agent>): (n: nat) {
    Total(agents, (a: Agent) => One(IsWorker(a)))
  }

  /** The handles of a range that are not null, in order. */
  function Present(hs: seq<Option<Handle>>): (r: seq<Handle>)
    ensures |r| <= |hs|
  {
    if hs == [] then [] else (if hs[0].Some? then [hs[0].value] else []) + Present(hs[1..])
  }

  function SetCall(s: State, i: Id, c: Call): (t: State)
    requires i < |s.agents|
  {
    s.(agents := s.agents[i := s.agents[i].(call := c)])
  }

  function SetWork(s: State, i: Id, w: Work): (t: State)
    requires i < |s.agents|
  {
    s.(agents := s.agents[i := s.agents[i].(work := w)])
  }

  function Push(s: State, hs: seq<Handle>): (t: State) {
    s.(queue := s.queue + hs, entered := s.entered + hs, times := s.times + seq(|hs|, _ => 0))
  }

  function Roused(a: Agent): (r: Agent) {
    if a.work.Asleep? then a.(work := LoopLock) else a
  }

  ghost predicate SomeAsleep(agents: seq<Agent>) {
    exists k :: 0 <= k < |agents| && agents[k].work.Asleep?
  }

  /** A notify_one wakes somebody if anybody sleeps. */
  ghost predicate Picks(s: State, wake: Id) {
    SomeAsleep(s.agents) ==> wake < |s.agents| && s.agents[wake].work.Asleep?
  }

  ghost predicate Enabled(s: State, m: Move) {
    match m
    case CallStep(i, _, wake) => i < |s.agents| && (s.agents[i].work.Outside? || s.agents[i].work.Running?) && Picks(s, wake)
    case WorkStep(i) => i < |s.agents| && (s.agents[i].work.Running? ==> s.agents[i].call.NoCall?)
    case DetachedEnds => s.live > 0
  }

  function Begin(s: State, i: Id, ask: Request): (t: State)
    requires i < |s.agents|
  {
    match ask
    case AskSchedule(h) => SetCall(s.(size := s.size + 1), i, ScheduleFlag(h))
    case AskResume(h) => if h.None? then s else SetCall(s.(size := s.size + 1), i, ResumeFlag(h.value))
    case AskSpawn(h) => SetCall(s.(size := s.size + 1), i, SpawnCount(h))
    case AskRange(hs) => SetCall(s.(size := s.size + |hs|), i, RangeEnqueue(hs))
    case AskShutdown => if s.shut then s else SetCall(s.(shut := true), i, ShutLock)
  }

  ghost predicate AllExited(agents: seq<Agent>) {
    forall k :: 0 <= k < |agents| && IsWorker(agents[k]) ==> agents[k].work.Exited?
  }

  /** A call's step before anyone is notified: only the caller's own place changes. */
  ghost function CallCore(s: State, i: Id, ask: Request): (t: State)
    requires i < |s.agents|
  {
    match s.agents[i].call
    case NoCall => Begin(s, i, ask)
    case ScheduleFlag(h) => SetCall(s, i, if s.shut then Refused else Enqueue(h))
    case ResumeFlag(h) => SetCall(s, i, if s.shut then Refused else Enqueue(h))
    case Refused => SetCall(s.(size := s.size - 1), i, NoCall)
    case Enqueue(h) => if s.owner.Some? then s else SetCall(Push(s, [h]), i, NoCall)
    case SpawnCount(h) => SetCall(s.(size := s.size + 1), i, SpawnFlag(h))
    case SpawnFlag(h) =>
      if s.shut then SetCall(s, i, SpawnRefused) else SetCall(s.(live := s.live + 1), i, Enqueue(h))
    case SpawnRefused => SetCall(s.(size := s.size - 1, leaked := s.leaked + 1), i, NoCall)
    case RangeEnqueue(hs) => if s.owner.Some? then s else SetCall(Push(s, Present(hs)), i, AfterRange(hs))
    case RangeNulls(nulls, total) => SetCall(s.(size := s.size - nulls), i, RangeNotify(total, total))
    case RangeNotify(total, left) =>
      SetCall(s, i, if total >= Workers(s.agents) || left == 0 then NoCall else RangeNotify(total, left - 1))
    case ShutLock => if s.owner.Some? then s else SetCall(s, i, ShutJoin)
    case ShutJoin => if AllExited(s.agents) then SetCall(s, i, NoCall) else s
  }

  function AfterRange(hs: seq<Option<Handle>>): (c: Call) {
    var total := |Present(hs)|;
    if total < |hs| then RangeNulls(|hs| - total, total) else RangeNotify(total, total)
  }

  datatype Notice = Nobody | OneSleeper | AllSleepers

  /** Whom a call's step notifies. */
  function NoticeOf(s: State, i: Id): (n: Notice)
    requires i < |s.agents|
  {
    match s.agents[i].call
    case Enqueue(_) => if s.owner.Some? then Nobody else OneSleeper
    case RangeNotify(total, left) =>
      if total >= Workers(s.agents) then AllSleepers else if left == 0 then Nobody else OneSleeper
    case ShutLock => if s.owner.Some? then Nobody else AllSleepers
    case _ => Nobody
  }

  function Notify(s: State, n: Notice, wake: Id): (t: State) {
    match n
    case Nobody => s
    case OneSleeper => if wake < |s.agents| then s.(agents := s.agents[wake := Roused(s.agents[wake])]) else s
    case AllSleepers => s.(agents := seq(|s.agents|, k requires 0 <= k < |s.agents| => Roused(s.agents[k])))
  }

  ghost function CallNext(s: State, i: Id, ask: Request, wake: Id): (t: State)
    requires i < |s.agents|
  {
    Notify(CallCore(s, i, ask), NoticeOf(s, i), wake)
  }

  function Pop(s: State, i: Id, last: bool): (t: State)
    requires i < |s.agents| && s.queue != []
  {
    SetWork(s.(queue := s.queue[1..], left := s.left + [s.queue[0]], popper := s.popper + [i], owner := None), i, Popped(|s.left|, last))
  }

  /** The worker's own steps; starting to resume a popped handle is what `times` counts. */
  function WorkNext(s: State, i: Id): (t: State)
    requires i < |s.agents|
  {
    match s.agents[i].work
    case Outside => s
    case LoopFlag => SetWork(s, i, if s.shut then DrainSize else LoopLock)
    case LoopLock => if s.owner.Some? then s else SetWork(s.(owner := Some(i)), i, LoopTest)
    case LoopTest =>
      if s.queue != [] then Pop(s, i, false)
      else if s.shut then SetWork(s.(owner := None), i, LoopFlag)
      else SetWork(s, i, LoopSleep)
    case LoopSleep => SetWork(s.(owner := None), i, Asleep)
    case Asleep => SetWork(s, i, LoopLock)  // a spurious wake-up
    case Popped(k, last) =>
      SetWork(if k < |s.times| then s.(times := s.times[k := s.times[k] + 1]) else s, i, Running(last))
    case Running(last) => SetWork(s, i, Ran(last))
    case Ran(last) => SetWork(s.(size := s.size - 1), i, if last then DrainSize else LoopFlag)
    case DrainSize => SetWork(s, i, if s.size > 0 then DrainLock else Exited)
    case DrainLock =>
      if s.owner.Some? then s
      else if s.queue == [] then SetWork(s, i, Exited)
      else Pop(s, i, true)
    case Exited => s
  }

  ghost function Next(s: State, m: Move): (t: State)
    requires Enabled(s, m)
  {
    match m
    case CallStep(i, ask, wake) => CallNext(s, i, ask, wake)
    case WorkStep(i) => WorkNext(s, i)
    case DetachedEnds => s.(live := s.live - 1, size := s.size - 1)
  }

  ghost predicate Init(s: State) {
    && s.queue == [] && s.size == 0 && !s.shut && s.owner.None? && s.live == s.leaked == 0
    && s.entered == [] && s.left == [] && s.times == [] && s.popper == []
    && forall k :: 0 <= k < |s.agents| ==> (s.agents[k].work.Outside? || s.agents[k].work.LoopFlag?) && s.agents[k].call.NoCall?
  }

  // ----- the size counts everything outstanding -----

  /** A worker counts its handle until it has run. */
  predicate Executing(w: Work) {
    w.Popped? || w.Running? || w.Ran?
  }

  /** What a caller has counted and not yet queued or given back. */
  function CallWeight(c: Call): (n: nat) {
    match c
    case ScheduleFlag(_) => 1
    case ResumeFlag(_) => 1
    case Refused => 1
    case Enqueue(_) => 1
    case SpawnCount(_) => 1
    case SpawnFlag(_) => 2
    case SpawnRefused => 2
    case RangeEnqueue(hs) => |hs|
    case RangeNulls(nulls, _) => nulls
    case _ => 0
  }

  function Weight(a: Agent): (n: nat) {
    One(Executing(a.work)) + CallWeight(a.call)
  }

  ghost predicate Counted(s: State) {
    s.size == |s.queue| + Total(s.agents, Weight) + s.live + s.leaked
  }

  lemma Reweighed(s: State, i: Id, a: Agent)
    requires i < |s.agents|
    ensures Total(s.agents[i := a], Weight) == Total(s.agents, Weight) - Weight(s.agents[i]) + Weight(a)
  {
    TotalUpdate(s.agents, i, a, Weight);
  }

  lemma {:induction false} NotifyWeighs(s: State, n: Notice, wake: Id)
    ensures Total(Notify(s, n, wake).agents, Weight) == Total(s.agents, Weight)
  {
    TotalSame(s.agents, Notify(s, n, wake).agents, Weight);
  }

  lemma OnlyCaller(s: State, i: Id, ask: Request)
    requires i < |s.agents|
    ensures var t := CallCore(s, i, ask);
      t.agents == s.agents[i := t.agents[i]] && t.agents[i].work == s.agents[i].work && t.owner == s.owner && t.left == s.left && t.popper == s.popper
  {
    assert s.agents[i := s.agents[i]] == s.agents;
  }

  /** A call's step moves the size exactly as it moves what the caller and the others owe. */
  lemma CallTally(s: State, i: Id, ask: Request)
    requires i < |s.agents|
    ensures var t := CallCore(s, i, ask);
      && |t.agents| == |s.agents|
      && t.size - s.size == |t.queue| - |s.queue| + t.live - s.live + t.leaked - s.leaked
                            + CallWeight(t.agents[i].call) - CallWeight(s.agents[i].call)
  {
    match s.agents[i].call
    case RangeEnqueue(hs) =>
    case _ =>
  }

  lemma WorkTally(s: State, i: Id)
    requires i < |s.agents|
    ensures var t := WorkNext(s, i);
      && t.agents == s.agents[i := t.agents[i]] && t.live == s.live && t.leaked == s.leaked
      && t.size - s.size == |t.queue| - |s.queue| + Weight(t.agents[i]) - Weight(s.agents[i])
  {
    assert s.agents[i := s.agents[i]] == s.agents;
  }

  lemma NextCounts(s: State, m: Move)
    requires Enabled(s, m) && Counted(s)
    ensures Counted(Next(s, m))
  {
    match m
    case CallStep(i, ask, wake) =>
      OnlyCaller(s, i, ask);
      CallTally(s, i, ask);
      Reweighed(s, i, CallCore(s, i, ask).agents[i]);
      NotifyWeighs(CallCore(s, i, ask), NoticeOf(s, i), wake);
    case WorkStep(i) =>
      WorkTally(s, i);
      Reweighed(s, i, WorkNext(s, i).agents[i]);
    case DetachedEnds =>
  }

  // ----- the lock, the flag and the sleepers -----

  predicate InLock(w: Work) {
    w.LoopTest? || w.LoopSleep?
  }

  predicate PastFlag(w: Work) {
    w.DrainSize? || w.DrainLock? || w.Exited? || ((w.Popped? || w.Running? || w.Ran?) && w.last)
  }

  predicate Sleepy(w: Work) {
    w.Asleep? || w.LoopSleep?
  }

  /** A worker that is awake and not executing a handle: it will look at the queue again. */
  predicate OnDuty(w: Work) {
    !w.Outside? && !w.Exited? && !Sleepy(w) && !w.Popped? && !w.Running?
  }

  ghost predicate Fits(s: State, i: Id)
    requires i < |s.agents|
  {
    var a := s.agents[i];
    && (a.call.NoCall? || a.work.Outside? || a.work.Running?)
    && (PastFlag(a.work) ==> s.shut)
    && (InLock(a.work) <==> s.owner == Some(i))
    && (a.work.LoopSleep? ==> s.queue == [])
  }

  ghost predicate Orderly(s: State) {
    && (forall i :: 0 <= i < |s.agents| ==> Fits(s, i))
    && (s.owner.Some? ==> s.owner.value < |s.agents|)
  }

  /** What a step does to an agent that does not take it: it may be woken. */
  lemma Bystander(s: State, m: Move, j: Id)
    requires Enabled(s, m) && j < |s.agents| && (m.DetachedEnds? || m.id != j)
    ensures |Next(s, m).agents| == |s.agents|
    ensures Next(s, m).agents[j] == s.agents[j] || (s.agents[j].work.Asleep? && Next(s, m).agents[j] == Roused(s.agents[j]))
  {
    match m
    case CallStep(i, ask, wake) => OnlyCaller(s, i, ask);
    case WorkStep(i) => WorkTally(s, i);
    case DetachedEnds =>
  }

  /** The queue and the owner change only in the lock's sections. */
  lemma Sections(s: State, m: Move)
    requires Enabled(s, m) && Orderly(s)
    ensures var t := Next(s, m);
      && (s.shut ==> t.shut)
      && (t.queue == s.queue || s.owner.None? || (m.WorkStep? && s.owner == Some(m.id)))
      && (t.owner == s.owner || (m.WorkStep? && (if s.owner.None? then t.owner == Some(m.id) else s.owner == Some(m.id) && t.owner.None?)))
  {
    match m
    case CallStep(i, ask, wake) => OnlyCaller(s, i, ask);
    case WorkStep(i) => assert Fits(s, i);
    case DetachedEnds =>
  }

  lemma CallerFits(s: State, i: Id, ask: Request, wake: Id)
    requires Enabled(s, CallStep(i, ask, wake)) && Orderly(s)
    ensures i < |CallNext(s, i, ask, wake).agents| && Fits(CallNext(s, i, ask, wake), i)
  {
    assert Fits(s, i);
    OnlyCaller(s, i, ask);
    Sections(s, CallStep(i, ask, wake));
  }

  lemma WorkerFits(s: State, i: Id)
    requires Enabled(s, WorkStep(i)) && Orderly(s)
    ensures i < |WorkNext(s, i).agents| && Fits(WorkNext(s, i), i)
  {
    assert Fits(s, i);
  }

  lemma OthersFit(s: State, m: Move, j: Id)
    requires Enabled(s, m) && Orderly(s) && j < |s.agents| && (m.DetachedEnds? || m.id != j)
    ensures |Next(s, m).agents| == |s.agents| && Fits(Next(s, m), j)
  {
    assert Fits(s, j);
    Sections(s, m);
    Bystander(s, m, j);
  }

  lemma NextOrderly(s: State, m: Move)
    requires Enabled(s, m) && Orderly(s)
    ensures Orderly(Next(s, m)) && |Next(s, m).agents| == |s.agents|
  {
    Sections(s, m);
    match m {
      case CallStep(i, ask, wake) => CallerFits(s, i, ask, wake); Bystanders(s, m);
      case WorkStep(i) => WorkerFits(s, i); Bystanders(s, m);
      case DetachedEnds => Bystanders(s, m);
    }
  }

  lemma Bystanders(s: State, m: Move)
    requires Enabled(s, m) && Orderly(s)
    ensures |Next(s, m).agents| == |s.agents|
    ensures forall j :: 0 <= j < |s.agents| && (m.DetachedEnds? || j != m.id) ==> Fits(Next(s, m), j)
  {
    if m.CallStep? { OnlyCaller(s, m.id, m.ask); } else if m.WorkStep? { WorkTally(s, m.id); }
    forall j | 0 <= j < |s.agents| && (m.DetachedEnds? || j != m.id)
      ensures Fits(Next(s, m), j)
    {
      OthersFit(s, m, j);
    }
  }

  // ----- no lost wake-up -----

  /** A shutdown that has raised the flag has still to notify everyone. */
  ghost predicate Reaching(agents: seq<Agent>) {
    exists k :: 0 <= k < |agents| && agents[k].call.ShutLock?
  }

  /** Notifications a call has still to make for the handles it has queued. */
  function NoticesDue(c: Call): (n: nat) {
    match c
    case RangeNulls(_, total) => total
    case RangeNotify(_, left) => left
    case _ => 0
  }

  function Ready(a: Agent): (n: nat) {
    One(OnDuty(a.work)) + NoticesDue(a.call)
  }

  /** While a worker sleeps there is, for every queued handle, a worker on duty or a notification due. */
  ghost predicate Attended(s: State) {
    SomeAsleep(s.agents) ==> |s.queue| <= Total(s.agents, Ready)
  }

  /** Nobody sleeps through a shutdown. */
  ghost predicate Heard(s: State) {
    s.shut ==> Reaching(s.agents) || forall k :: 0 <= k < |s.agents| ==> !Sleepy(s.agents[k].work)
  }

  lemma StillReaching(s: State, m: Move)
    requires Enabled(s, m) && Reaching(s.agents) && (m.DetachedEnds? || !s.agents[m.id].call.ShutLock?)
    ensures Reaching(Next(s, m).agents)
  {
    var k :| 0 <= k < |s.agents| && s.agents[k].call.ShutLock?;
    Bystander(s, m, k);
    assert Next(s, m).agents[k].call.ShutLock?;
  }

  /** A call puts nobody to sleep, and notifying everyone leaves nobody asleep. */
  lemma NoticeRouses(s: State, i: Id, ask: Request, wake: Id)
    requires i < |s.agents|
    ensures var t := CallNext(s, i, ask, wake);
      && |t.agents| == |s.agents|
      && (NoticeOf(s, i).AllSleepers? ==> !SomeAsleep(t.agents))
      && (SomeAsleep(t.agents) ==> SomeAsleep(s.agents))
  {
    OnlyCaller(s, i, ask);
    var t := CallNext(s, i, ask, wake);
    if SomeAsleep(t.agents) {
      var k :| 0 <= k < |t.agents| && t.agents[k].work.Asleep?;
      assert s.agents[k].work.Asleep?;
    }
  }

  /** What a call's step does to the queue and to the notifications due, before it notifies. */
  lemma CallReady(s: State, i: Id, ask: Request)
    requires i < |s.agents|
    ensures var t := CallCore(s, i, ask);
      && |t.agents| == |s.agents|
      && (NoticeOf(s, i).Nobody? ==> |t.queue| - |s.queue| <= NoticesDue(t.agents[i].call) - NoticesDue(s.agents[i].call))
      && (NoticeOf(s, i).OneSleeper? ==> |t.queue| - |s.queue| == NoticesDue(t.agents[i].call) - NoticesDue(s.agents[i].call) + 1)
  {
    match s.agents[i].call
    case Enqueue(_) =>
    case RangeEnqueue(_) =>
    case RangeNulls(_, _) =>
    case RangeNotify(_, _) =>
    case _ =>
  }

  /** The sleeper a notify_one picks comes on duty. */
  lemma OneRoused(s: State, wake: Id)
    requires wake < |s.agents| && s.agents[wake].work.Asleep?
    ensures Total(Notify(s, OneSleeper, wake).agents, Ready) == Total(s.agents, Ready) + 1
  {
    TotalUpdate(s.agents, wake, Roused(s.agents[wake]), Ready);
  }

  lemma CallAttended(s: State, i: Id, ask: Request, wake: Id)
    requires Enabled(s, CallStep(i, ask, wake)) && Attended(s)
    ensures Attended(CallNext(s, i, ask, wake))
  {
    var u := CallCore(s, i, ask);
    NoticeRouses(s, i, ask, wake);
    OnlyCaller(s, i, ask);
    CallReady(s, i, ask);
    TotalUpdate(s.agents, i, u.agents[i], Ready);
    if NoticeOf(s, i).OneSleeper? && SomeAsleep(s.agents) { OneRoused(u, wake); }
  }

  lemma CallHeard(s: State, i: Id, ask: Request, wake: Id)
    requires Enabled(s, CallStep(i, ask, wake)) && Orderly(s) && Heard(s)
    ensures Heard(CallNext(s, i, ask, wake))
  {
    var m, t := CallStep(i, ask, wake), CallNext(s, i, ask, wake);
    OnlyCaller(s, i, ask);
    NoticeRouses(s, i, ask, wake);
    if !s.shut {
      if t.shut { assert t.agents[i].call.ShutLock?; }
    } else if s.agents[i].call.ShutLock? {
      if s.owner.Some? { assert t.agents[i].call.ShutLock?; }
      forall k | 0 <= k < |t.agents| && s.owner.None?
        ensures !Sleepy(t.agents[k].work)
      {
        assert Fits(s, k);
        assert !t.agents[k].work.Asleep?;
      }
    } else if Reaching(s.agents) {
      StillReaching(s, m);
    }
  }

  /** A worker goes to sleep, or exits, only over an empty queue, and sleeps only before the flag. */
  lemma RestsOnEmpty(s: State, i: Id)
    requires i < |s.agents| && Orderly(s) && Counted(s)
    ensures var t := WorkNext(s, i);
      && |t.agents| == |s.agents| && t.shut == s.shut
      && (t.agents[i].work.Exited? && t.queue != [] ==> s.agents[i].work.Exited?)
      && (Sleepy(t.agents[i].work) && t.shut ==> Sleepy(s.agents[i].work))
      && (t.queue != [] ==> s.queue != [])
      && t.agents[i].call == s.agents[i].call
  {
    assert Fits(s, i);
  }

  /** A worker's step takes no more on duty away than it takes handles, unless the queue is empty. */
  lemma WorkReady(s: State, i: Id)
    requires i < |s.agents| && Orderly(s) && Counted(s)
    ensures var t := WorkNext(s, i);
      && |t.agents| == |s.agents|
      && (t.queue == [] || |t.queue| - |s.queue| <= Ready(t.agents[i]) - Ready(s.agents[i]))
      && (t.agents[i].work.Asleep? ==> t.queue == [] || s.agents[i].work.Asleep?)
  {
    assert Fits(s, i);
  }

  lemma WorkAttended(s: State, i: Id)
    requires i < |s.agents| && Orderly(s) && Counted(s) && Attended(s)
    ensures Attended(WorkNext(s, i))
  {
    var t := WorkNext(s, i);
    WorkTally(s, i);
    WorkReady(s, i);
    TotalUpdate(s.agents, i, t.agents[i], Ready);
    if SomeAsleep(t.agents) && t.queue != [] {
      var k :| 0 <= k < |t.agents| && t.agents[k].work.Asleep?;
      assert s.agents[k].work.Asleep?;
    }
  }

  lemma WorkHeard(s: State, i: Id)
    requires Enabled(s, WorkStep(i)) && Orderly(s) && Counted(s) && Heard(s)
    ensures Heard(WorkNext(s, i))
  {
    var t := WorkNext(s, i);
    WorkTally(s, i);
    RestsOnEmpty(s, i);
    if Reaching(s.agents) {
      if s.agents[i].call.ShutLock? { assert t.agents[i].call.ShutLock?; } else { StillReaching(s, WorkStep(i)); }
    }
  }

  // ----- tickets: first in, first out, each resumed once -----

  ghost predicate TicketHeld(s: State, i: Id)
    requires i < |s.agents|
  {
    s.agents[i].work.Popped? ==>
      var k := s.agents[i].work.ticket;
      k < |s.left| == |s.popper| && |s.left| <= |s.times| && s.popper[k] == i && s.times[k] == 0
  }

  ghost predicate TicketSpent(s: State, k: nat)
    requires k < |s.left| == |s.popper| && |s.left| <= |s.times|
  {
    s.times[k] == 1
    || (s.times[k] == 0 && s.popper[k] < |s.agents| && s.agents[s.popper[k]].work.Popped? && s.agents[s.popper[k]].work.ticket == k)
  }

  ghost predicate Ticketed(s: State) {
    && s.entered == s.left + s.queue
    && |s.popper| == |s.left| && |s.times| == |s.entered|
    && (forall i :: 0 <= i < |s.agents| ==> TicketHeld(s, i))
    && (forall k :: 0 <= k < |s.left| ==> TicketSpent(s, k))
    && (forall k :: |s.left| <= k < |s.times| ==> s.times[k] == 0)
  }

  lemma PushTicketed(s: State, hs: seq<Handle>)
    requires Ticketed(s)
    ensures Ticketed(Push(s, hs))
  {
    var t := Push(s, hs);
    forall i | 0 <= i < |t.agents|
      ensures TicketHeld(t, i)
    {
      assert TicketHeld(s, i);
    }
    forall k | 0 <= k < |t.left|
      ensures TicketSpent(t, k)
    {
      assert TicketSpent(s, k);
    }
  }

  /** Waking workers and moving callers on leaves every ticket where it is. */
  lemma SameTickets(s: State, t: State)
    requires Ticketed(s) && |t.agents| == |s.agents|
    requires t.queue == s.queue && t.entered == s.entered && t.left == s.left && t.times == s.times && t.popper == s.popper
    requires forall i :: 0 <= i < |s.agents| && (s.agents[i].work.Popped? || t.agents[i].work.Popped?) ==> t.agents[i].work == s.agents[i].work
    ensures Ticketed(t)
  {
    forall i | 0 <= i < |t.agents|
      ensures TicketHeld(t, i)
    {
      assert TicketHeld(s, i);
    }
    forall k | 0 <= k < |t.left|
      ensures TicketSpent(t, k)
    {
      assert TicketSpent(s, k);
    }
  }

  function Pushed(s: State, i: Id): (hs: seq<Handle>)
    requires i < |s.agents|
  {
    if s.owner.Some? then []
    else match s.agents[i].call
      case Enqueue(h) => [h]
      case RangeEnqueue(hs) => Present(hs)
      case _ => []
  }

  lemma CallPushes(s: State, i: Id, ask: Request, wake: Id)
    requires i < |s.agents|
    ensures var t, p := CallNext(s, i, ask, wake), Push(s, Pushed(s, i));
      t.queue == p.queue && t.entered == p.entered && t.left == s.left && t.times == p.times && t.popper == s.popper
  {
  }

  lemma PopTicketed(s: State, i: Id, last: bool)
    requires Ticketed(s) && i < |s.agents| && s.queue != [] && !s.agents[i].work.Popped?
    ensures Ticketed(Pop(s, i, last))
  {
    var t := Pop(s, i, last);
    assert t.left + t.queue == s.left + ([s.queue[0]] + s.queue[1..]);
    forall j | 0 <= j < |t.agents|
      ensures TicketHeld(t, j)
    {
      assert TicketHeld(s, j);
    }
    forall k | 0 <= k < |t.left|
      ensures TicketSpent(t, k)
    {
      if k < |s.left| { assert TicketSpent(s, k); }
    }
  }

  lemma ResumeTicketed(s: State, i: Id)
    requires Ticketed(s) && i < |s.agents| && s.agents[i].work.Popped?
    ensures Ticketed(WorkNext(s, i)) && s.agents[i].work.ticket < |s.times| && s.times[s.agents[i].work.ticket] == 0
  {
    var t, k := WorkNext(s, i), s.agents[i].work.ticket;
    assert TicketHeld(s, i);
    forall j | 0 <= j < |t.agents|
      ensures TicketHeld(t, j)
    {
      assert TicketHeld(s, j);
    }
    forall h | 0 <= h < |t.left|
      ensures TicketSpent(t, h)
    {
      assert TicketSpent(s, h);
    }
  }

  lemma WorkTicketed(s: State, i: Id)
    requires i < |s.agents| && Ticketed(s)
    ensures Ticketed(WorkNext(s, i))
  {
    var t := WorkNext(s, i);
    if s.agents[i].work.Popped? {
      ResumeTicketed(s, i);
    } else if t.queue != s.queue {
      PopTicketed(s, i, s.agents[i].work.DrainLock?);
    } else {
      WorkTally(s, i);
      SameTickets(s, t);
    }
  }

  lemma NextTicketed(s: State, m: Move)
    requires Enabled(s, m) && Ticketed(s)
    ensures Ticketed(Next(s, m))
  {
    var t := Next(s, m);
    match m
    case CallStep(i, ask, wake) =>
      OnlyCaller(s, i, ask);
      CallPushes(s, i, ask, wake);
      PushTicketed(s, Pushed(s, i));
      SameTickets(Push(s, Pushed(s, i)), t);
    case WorkStep(i) => WorkTicketed(s, i);
    case DetachedEnds => SameTickets(s, t);
  }

  // ----- whole runs -----

  ghost predicate Inv(s: State) {
    Counted(s) && Orderly(s) && Attended(s) && Heard(s) && Ticketed(s)
  }

  lemma InitInv(s: State)
    requires Init(s)
    ensures Inv(s)
  {
    TotalZero(s.agents, Weight);
  }

  lemma NextKeepsInv(s: State, m: Move)
    requires Inv(s) && Enabled(s, m)
    ensures Inv(Next(s, m))
  {
    NextCounts(s, m);
    NextOrderly(s, m);
    NextTicketed(s, m);
    match m
    case CallStep(i, ask, wake) => CallHeard(s, i, ask, wake); CallAttended(s, i, ask, wake);
    case WorkStep(i) => WorkHeard(s, i); WorkAttended(s, i);
    case DetachedEnds =>
  }

  ghost predicate Legal(s: State, ms: seq<Move>)
    decreases |ms|
  {
    ms != [] ==> Enabled(s, ms[0]) && Legal(Next(s, ms[0]), ms[1..])
  }

  ghost function Exec(s: State, ms: seq<Move>): (t: State)
    requires Legal(s, ms)
    decreases |ms|
  {
    if ms == [] then s else Exec(Next(s, ms[0]), ms[1..])
  }

  lemma {:induction false} RunKeepsInv(s: State, ms: seq<Move>)
    requires Inv(s) && Legal(s, ms)
    ensures Inv(Exec(s, ms))
    decreases |ms|
  {
    if ms != [] {
      NextKeepsInv(s, ms[0]);
      RunKeepsInv(Next(s, ms[0]), ms[1..]);
    }
  }

  function ExecutingNow(agents: seq<Agent>): (n: nat) {
    Total(agents, (a: Agent) => One(Executing(a.work)))
  }

  /** In every state of every run, queued and executing handles are within the size. */
  lemma SizeCoversWork(s: State, ms: seq<Move>)
    requires Init(s) && Legal(s, ms)
    ensures var t := Exec(s, ms); |t.queue| + ExecutingNow(t.agents) + t.live <= t.size
  {
    InitInv(s);
    RunKeepsInv(s, ms);
    TotalAtMost(Exec(s, ms).agents, (a: Agent) => One(Executing(a.work)), Weight);
  }

  /** Handles leave the queue in the order they entered; each was resumed once, or is about to be. */
  lemma HandlesAreFifo(s: State, ms: seq<Move>, k: nat)
    requires Init(s) && Legal(s, ms)
    ensures var t := Exec(s, ms);
      && t.entered == t.left + t.queue && |t.times| == |t.entered| && |t.popper| == |t.left|
      && (|t.left| <= k < |t.entered| ==> t.times[k] == 0)
      && (k < |t.left| ==> TicketSpent(t, k))
  {
    InitInv(s);
    RunKeepsInv(s, ms);
  }

  /**
   * While a worker sleeps, every queued handle has a worker awake that is not executing another, or
   * a notification still due; and once shutdown has notified nobody sleeps.
   */
  lemma NoLostWakeUp(s: State, ms: seq<Move>)
    requires Init(s) && Legal(s, ms)
    ensures var t := Exec(s, ms);
      && (SomeAsleep(t.agents) ==> |t.queue| <= Total(t.agents, Ready))
      && (t.shut && !Reaching(t.agents) ==> !SomeAsleep(t.agents))
  {
    InitInv(s);
    RunKeepsInv(s, ms);
  }

  // ----- drain -----

  /** The step queues a handle when no worker is left to take it. */
  ghost predicate Late(s: State, m: Move)
    requires Enabled(s, m)
  {
    m.CallStep? && AllExited(s.agents) && Pushed(s, m.id) != []
  }

  ghost predicate RunOnTime(s: State, ms: seq<Move>)
    requires Legal(s, ms)
    decreases |ms|
  {
    ms != [] ==> !Late(s, ms[0]) && RunOnTime(Next(s, ms[0]), ms[1..])
  }

  /** Once shutdown is requested, only workers put handles on the queue. */
  ghost predicate WorkersOnly(s: State, m: Move)
    requires Enabled(s, m)
  {
    m.CallStep? && s.shut && !IsWorker(s.agents[m.id]) ==> Pushed(s, m.id) == []
  }

  ghost predicate RunWorkersOnly(s: State, ms: seq<Move>)
    requires Legal(s, ms)
    decreases |ms|
  {
    ms != [] ==> WorkersOnly(s, ms[0]) && RunWorkersOnly(Next(s, ms[0]), ms[1..])
  }

  ghost predicate HasWorker(agents: seq<Agent>) {
    exists k :: 0 <= k < |agents| && IsWorker(agents[k])
  }

  ghost predicate Drained(s: State) {
    AllExited(s.agents) ==> s.queue == []
  }

  /** Nobody joins or leaves the pool's threads, and an exited worker stays so. */
  lemma SameWorkers(s: State, m: Move, j: Id)
    requires Enabled(s, m) && j < |s.agents|
    ensures |Next(s, m).agents| == |s.agents|
    ensures IsWorker(Next(s, m).agents[j]) == IsWorker(s.agents[j])
    ensures s.agents[j].work.Exited? ==> Next(s, m).agents[j].work.Exited?
    ensures Next(s, m).agents[j].work.Exited? && !s.agents[j].work.Exited? ==> m == WorkStep(j)
  {
    if m.DetachedEnds? || m.id != j { Bystander(s, m, j); } else if m.CallStep? { OnlyCaller(s, m.id, m.ask); }
  }

  lemma StillExited(s: State, m: Move)
    requires Enabled(s, m) && AllExited(Next(s, m).agents) && !m.WorkStep?
    ensures AllExited(s.agents)
  {
    forall k | 0 <= k < |s.agents| && IsWorker(s.agents[k])
      ensures s.agents[k].work.Exited?
    {
      SameWorkers(s, m, k);
    }
  }

  lemma CallDrained(s: State, i: Id, ask: Request, wake: Id)
    requires Enabled(s, CallStep(i, ask, wake)) && Drained(s) && !Late(s, CallStep(i, ask, wake))
    ensures Drained(CallNext(s, i, ask, wake))
  {
    CallPushes(s, i, ask, wake);
    if AllExited(CallNext(s, i, ask, wake).agents) { StillExited(s, CallStep(i, ask, wake)); }
  }

  lemma WorkDrained(s: State, i: Id)
    requires Enabled(s, WorkStep(i)) && Orderly(s) && Counted(s) && Drained(s)
    ensures Drained(WorkNext(s, i))
  {
    var t := WorkNext(s, i);
    RestsOnEmpty(s, i);
    if AllExited(t.agents) && t.queue != [] {
      forall k | 0 <= k < |s.agents| && IsWorker(s.agents[k])
        ensures s.agents[k].work.Exited?
      {
        SameWorkers(s, WorkStep(i), k);
      }
    }
  }

  lemma {:induction false} RunDrained(s: State, ms: seq<Move>)
    requires Inv(s) && Drained(s) && Legal(s, ms) && RunOnTime(s, ms)
    ensures Drained(Exec(s, ms))
    decreases |ms|
  {
    if ms != [] {
      NextKeepsInv(s, ms[0]);
      match ms[0] {
        case CallStep(i, ask, wake) => CallDrained(s, i, ask, wake);
        case WorkStep(i) => WorkDrained(s, i);
        case DetachedEnds =>
      }
      RunDrained(Next(s, ms[0]), ms[1..]);
    }
  }

  /** With every worker gone the queue only grows. */
  lemma ExitedForGood(s: State, m: Move)
    requires Enabled(s, m) && AllExited(s.agents)
    ensures AllExited(Next(s, m).agents) && s.queue <= Next(s, m).queue
  {
    forall k | 0 <= k < |s.agents|
      ensures |Next(s, m).agents| == |s.agents| && (IsWorker(Next(s, m).agents[k]) ==> Next(s, m).agents[k].work.Exited?)
    {
      SameWorkers(s, m, k);
    }
    if m.CallStep? { CallPushes(s, m.id, m.ask, m.wake); }
    if m.WorkStep? { assert s.agents[m.id].work.Exited? || s.agents[m.id].work.Outside?; }
  }

  lemma {:induction false} StrandedForGood(s: State, ms: seq<Move>)
    requires Legal(s, ms) && AllExited(s.agents) && s.queue != []
    ensures Exec(s, ms).queue != []
    decreases |ms|
  {
    if ms != [] {
      ExitedForGood(s, ms[0]);
      StrandedForGood(Next(s, ms[0]), ms[1..]);
    }
  }

  lemma {:induction false} LateIsStranded(s: State, ms: seq<Move>)
    requires Legal(s, ms) && !RunOnTime(s, ms)
    ensures Exec(s, ms).queue != []
    decreases |ms|
  {
    if Late(s, ms[0]) {
      ExitedForGood(s, ms[0]);
      CallPushes(s, ms[0].id, ms[0].ask, ms[0].wake);
      StrandedForGood(Next(s, ms[0]), ms[1..]);
    } else {
      LateIsStranded(Next(s, ms[0]), ms[1..]);
    }
  }

  /**
   * When the last worker has exited the queue is empty exactly if no handle was queued after that;
   * and then every handle ever queued was resumed exactly once.
   */
  lemma DrainedIffOnTime(s: State, ms: seq<Move>, k: nat)
    requires Init(s) && Legal(s, ms) && AllExited(Exec(s, ms).agents)
    ensures var t := Exec(s, ms);
      && (t.queue == [] <==> RunOnTime(s, ms))
      && (t.queue == [] ==> t.left == t.entered && |t.times| == |t.entered| && (k < |t.entered| ==> t.times[k] == 1))
  {
    InitInv(s);
    RunKeepsInv(s, ms);
    if RunOnTime(s, ms) { RunDrained(s, ms); } else { LateIsStranded(s, ms); }
    if k < |Exec(s, ms).left| { assert TicketSpent(Exec(s, ms), k); }
  }

  lemma {:induction false} WorkersOnlyIsOnTime(s: State, ms: seq<Move>)
    requires Inv(s) && HasWorker(s.agents) && Legal(s, ms) && RunWorkersOnly(s, ms)
    ensures RunOnTime(s, ms)
    decreases |ms|
  {
    if ms != [] {
      var m := ms[0];
      var j :| 0 <= j < |s.agents| && IsWorker(s.agents[j]);
      assert Fits(s, j);
      if m.CallStep? { assert Fits(s, m.id); }
      NextKeepsInv(s, m);
      SameWorkers(s, m, j);
      assert HasWorker(Next(s, m).agents);
      WorkersOnlyIsOnTime(Next(s, m), ms[1..]);
    }
  }

  /** So if only workers queue handles once shutdown is requested, the last exit leaves nothing. */
  lemma DrainedAtExit(s: State, ms: seq<Move>)
    requires Init(s) && HasWorker(s.agents) && Legal(s, ms) && RunWorkersOnly(s, ms)
    requires AllExited(Exec(s, ms).agents)
    ensures Exec(s, ms).queue == []
  {
    InitInv(s);
    WorkersOnlyIsOnTime(s, ms);
    DrainedIffOnTime(s, ms, 0);
  }

  lemma ThenRun(s: State, ms: seq<Move>, m: Move)
    requires Enabled(s, m) && Legal(Next(s, m), ms)
    ensures Legal(s, [m] + ms) && Exec(s, [m] + ms) == Exec(Next(s, m), ms)
  {
    assert ([m] + ms)[1..] == ms;
  }

  /** A worker at its last look at the queue exits, and only then the outsider queues. */
  lemma ExitsThenLate(s: State)
    requires s.agents == [Agent(DrainLock, NoCall), Agent(Outside, Enqueue(7)), Agent(Outside, ShutLock)] && s.queue == [] && s.owner.None? && s.shut
    ensures var ms := [WorkStep(0), CallStep(1, AskShutdown, 0)];
      Legal(s, ms) && AllExited(Exec(s, ms).agents) && Exec(s, ms).queue == [7]
  {
    var exit, late := WorkStep(0), CallStep(1, AskShutdown, 0);
    var gone := Next(s, exit);
    assert gone.agents == [Agent(Exited, NoCall), Agent(Outside, Enqueue(7)), Agent(Outside, ShutLock)];
    var end := Next(gone, late);
    assert [late] + [] == [late];
    assert end.queue == [7];
    assert end.agents == [Agent(Exited, NoCall), Agent(Outside, NoCall), Agent(Outside, ShutLock)];
    ThenRun(gone, [], late);
    ThenRun(s, [late], exit);
    assert [exit] + [late] == [exit, late];
  }

  /** The condition can fail: an outsider past its shutdown check queues after the last exit. */
  lemma LateHandleHappens() returns (s: State, ms: seq<Move>)
    ensures Init(s) && HasWorker(s.agents) && Legal(s, ms)
    ensures AllExited(Exec(s, ms).agents) && Exec(s, ms).queue == [7]
  {
    s := State([], 0, false, None, [Agent(LoopFlag, NoCall), Agent(Outside, NoCall), Agent(Outside, NoCall)], 0, 0, [], [], [], []);
    assert IsWorker(s.agents[0]);
    var first, second, work := CallStep(1, AskResume(Some(7)), 0), CallStep(2, AskShutdown, 0), WorkStep(0);
    var s1 := Next(s, first);
    var s2 := Next(s1, first);
    var s3 := Next(s2, second);
    var s4 := Next(s3, work);
    var s5 := Next(s4, work);
    assert s2.agents == [Agent(LoopFlag, NoCall), Agent(Outside, Enqueue(7)), Agent(Outside, NoCall)] && s2.size == 1;
    assert s5.agents == [Agent(DrainLock, NoCall), Agent(Outside, Enqueue(7)), Agent(Outside, ShutLock)];
    ExitsThenLate(s5);
    ms := [work, CallStep(1, AskShutdown, 0)];
    ThenRun(s4, ms, work);
    ms := [work] + ms;
    ThenRun(s3, ms, work);
    ms := [work] + ms;
    ThenRun(s2, ms, second);
    ms := [second] + ms;
    ThenRun(s1, ms, first);
    ms := [first] + ms;
    ThenRun(s, ms, first);
    ms := [first] + ms;
  }
}
