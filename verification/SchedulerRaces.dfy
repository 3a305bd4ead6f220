/**
 * The event loop of src/scheduler.cpp:267-325, 385-519 with other threads registering polls and
 * timers between any two of its steps. Each event of a batch is a step; a timer event is the
 * locked section that takes the due entries, one step for each of them, and, after the lock has
 * been released, the look at the first entry and the setting of the timer, as two steps.
 * Registering is one step.
 */
module SchedulerRaces {
  import opened Prelude
  import opened SchedulerTimers

  datatype Phase =
    | Waiting                                           // for the next batch
    | Scanning(batch: seq<Event>)                       // these events are still to be handled
    | Expiring(due: seq<Timer>, batch: seq<Event>)      // taken from the map, still to be finished
    | Rearm(batch: seq<Event>)                          // before the look at the first entry
    | Arm(first: Option<int>, batch: seq<Event>)        // before the timer is set to what was seen

  /**
   * `early`: since that look a deadline before the one seen has been registered. `late`: the timer
   * was last set although that was so.
   */
  datatype State = State(l: Loop, phase: Phase, early: bool, late: bool)

  datatype Act = DoRegister(id: Id, hasFd: bool, deadline: Option<int>) | Fetch(batch: seq<Event>) | Turn

  function DueOf(phase: Phase): (due: seq<Timer>) {
    if phase.Expiring? then phase.due else []
  }

  function RestOf(phase: Phase): (batch: seq<Event>) {
    if phase.Waiting? then [] else phase.batch
  }

  ghost predicate Allowed(s: State, a: Act) {
    match a
    case DoRegister(id, _, _) => id !in s.l.polls
    case Fetch(batch) => s.phase.Waiting? && LegalBatch(s.l, batch)
    case Turn => true
  }

  /** The deadline comes before the one the loop has seen. */
  predicate Undercuts(deadline: Option<int>, first: Option<int>) {
    deadline.Some? && (first.None? || deadline.value < first.value)
  }

  function RegisterNext(s: State, id: Id, hasFd: bool, deadline: Option<int>): (t: State) {
    s.(l := Register(s.l, id, hasFd, deadline),
       early := s.early || (s.phase.Arm? && Undercuts(deadline, s.phase.first)),
       late := s.late && !ComesFirst(s.l, deadline))
  }

  /** The loop handles one event, or begins to if it is the timer's. */
  function ScanNext(s: State, e: Event, rest: seq<Event>): (t: State) {
    match e
    case OnTimer(now) =>
      var n := Due(s.l.timed, now);
      s.(l := s.l.(timed := s.l.timed[n..]), phase := Expiring(s.l.timed[..n], rest))
    case OnFd(id, status) =>
      s.(l := ProcessEvent(s.l, id, status), phase := Scanning(rest), late := s.late && !TakesFirst(s.l, id))
    case _ => s.(l := Process(s.l, e), phase := Scanning(rest))
  }

  function TurnNext(s: State): (t: State) {
    match s.phase
    case Waiting => s
    case Scanning(batch) =>
      if batch == [] then s.(l := ResumeAll(s.l), phase := Waiting) else ScanNext(s, batch[0], batch[1..])
    case Expiring(due, batch) =>
      if due == [] then s.(phase := Rearm(batch))
      else s.(l := Finish(s.l, due[0].id, Timeout), phase := Expiring(due[1..], batch))
    case Rearm(batch) => s.(phase := Arm(FirstDeadline(s.l.timed), batch), early := false)
    case Arm(first, batch) => s.(l := s.l.(armed := first), phase := Scanning(batch), early := false, late := s.early)
  }

  function Next(s: State, a: Act): (t: State) {
    match a
    case DoRegister(id, hasFd, deadline) => RegisterNext(s, id, hasFd, deadline)
    case Fetch(batch) => s.(phase := Scanning(batch))
    case Turn => TurnNext(s)
  }

  // ----- the invariant -----

  /** The timer is set past the first deadline, or not set at all. */
  predicate TooLate(armed: Option<int>, timed: seq<Timer>) {
    timed != [] && (armed.None? || timed[0].at < armed.value)
  }

  /** Set to exactly the first deadline, unless it is late. */
  ghost predicate Set(armed: Option<int>, timed: seq<Timer>, late: bool) {
    if late then TooLate(armed, timed) else armed == FirstDeadline(timed)
  }

  ghost predicate ArmedOk(s: State) {
    match s.phase
    case Waiting => Set(s.l.armed, s.l.timed, s.late)
    case Scanning(_) => Set(s.l.armed, s.l.timed, s.late)
    case Arm(first, _) => Set(first, s.l.timed, s.early)
    case _ => true
  }

  ghost predicate Books(s: State) {
    && MapOk(s.l, DueOf(s.phase)) && DueOk(s.l, DueOf(s.phase)) && PollsOk(s.l) && QueuedOk(s.l)
    && (s.phase.Waiting? ==> s.l.handles == [])
  }

  ghost predicate Inv(s: State) {
    Books(s) && ArmedOk(s) && LegalBatch(s.l, RestOf(s.phase))
  }

  lemma RegisterArms(s: State, id: Id, hasFd: bool, deadline: Option<int>)
    requires ArmedOk(s)
    ensures ArmedOk(RegisterNext(s, id, hasFd, deadline))
  {
    RegisterSetsTimer(s.l, id, hasFd, deadline);
  }

  lemma RegisterKeepsInv(s: State, id: Id, hasFd: bool, deadline: Option<int>)
    requires Inv(s) && id !in s.l.polls
    ensures Inv(RegisterNext(s, id, hasFd, deadline))
  {
    RegisterArms(s, id, hasFd, deadline);
    RegisterKeepsMap(s.l, DueOf(s.phase), id, hasFd, deadline);
    RegisterQueues(s.l, id, hasFd, deadline);
    StillLegal(s.l, Register(s.l, id, hasFd, deadline), RestOf(s.phase));
  }

  /** What was reportable stays so: polls are not forgotten and keep their descriptor. */
  lemma StillLegal(l: Loop, r: Loop, batch: seq<Event>)
    requires LegalBatch(l, batch) && forall id :: id in l.polls ==> id in r.polls && r.polls[id].hasFd == l.polls[id].hasFd
    ensures LegalBatch(r, batch)
  {
  }

  lemma LegalTail(l: Loop, batch: seq<Event>)
    requires LegalBatch(l, batch) && batch != []
    ensures Reportable(l, batch[0]) && LegalBatch(l, batch[1..])
  {
    var rest := batch[1..];
    assert forall k :: 0 <= k < |rest| ==> rest[k] == batch[k + 1];
  }

  lemma EventKeepsAll(s: State, id: Id, status: Status, rest: seq<Event>)
    requires Inv(s) && s.phase.Scanning? && id in s.l.polls && s.l.polls[id].hasFd && LegalBatch(s.l, rest)
    ensures Inv(ScanNext(s, OnFd(id, status), rest))
  {
    EventKeepsMap(s.l, id, status);
    EventSetsTimer(s.l, id, status);
    EventQueues(s.l, id, status);
    EventFinishes(s.l, id, status);
    StillLegal(s.l, ProcessEvent(s.l, id, status), rest);
  }

  lemma ScanKeepsInv(s: State, e: Event, rest: seq<Event>)
    requires Inv(s) && s.phase.Scanning? && Reportable(s.l, e) && LegalBatch(s.l, rest)
    ensures Inv(ScanNext(s, e, rest))
  {
    var t := ScanNext(s, e, rest);
    match e
    case OnTimer(now) =>
      TakeKeepsMap(s.l, Due(s.l.timed, now));
      StillLegal(s.l, t.l, rest);
    case OnFd(id, status) => EventKeepsAll(s, id, status, rest);
    case OnSchedule(ops) =>
      ScheduleQueues(s.l, ops);
      SameMap(s.l, t.l, []);
    case OnShutdown =>
  }

  lemma TurnKeepsInv(s: State)
    requires Inv(s)
    ensures Inv(TurnNext(s))
  {
    match s.phase
    case Waiting =>
    case Scanning(batch) =>
      if batch == [] {
        SameMap(s.l, ResumeAll(s.l), []);
        assert ResumeAll(s.l).resumed + ResumeAll(s.l).handles == s.l.resumed + s.l.handles;
      } else {
        LegalTail(s.l, batch);
        ScanKeepsInv(s, batch[0], batch[1..]);
      }
    case Expiring(due, batch) =>
      if due != [] {
        FinishKeepsMap(s.l, due);
        FinishQueues(s.l, due[0].id, Timeout);
        StillLegal(s.l, Finish(s.l, due[0].id, Timeout), batch);
      }
    case Rearm(_) =>
    case Arm(first, batch) =>
      ArmKeeps(s.l, first, []);
      StillLegal(s.l, s.l.(armed := first), batch);
  }

  lemma NextKeepsInv(s: State, a: Act)
    requires Inv(s) && Allowed(s, a)
    ensures Inv(Next(s, a))
  {
    match a
    case DoRegister(id, hasFd, deadline) => RegisterKeepsInv(s, id, hasFd, deadline);
    case Fetch(_) =>
    case Turn => TurnKeepsInv(s);
  }

  // ----- whole runs -----

  const FRESH := State(START, Waiting, false, false)

  ghost predicate Legal(s: State, acts: seq<Act>)
    decreases |acts|
  {
    acts == [] || (Allowed(s, acts[0]) && Legal(Next(s, acts[0]), acts[1..]))
  }

  function Run(s: State, acts: seq<Act>): (t: State)
    decreases |acts|
  {
    if acts == [] then s else Run(Next(s, acts[0]), acts[1..])
  }

  lemma {:induction false} RunKeepsInv(s: State, acts: seq<Act>)
    requires Inv(s) && Legal(s, acts)
    ensures Inv(Run(s, acts))
    decreases |acts|
  {
    if acts != [] {
      NextKeepsInv(s, acts[0]);
      RunKeepsInv(Next(s, acts[0]), acts[1..]);
    }
  }

  /**
   * Over every run, with registrations at any point: a poll has been queued once if it has been
   * finished and not at all otherwise; it is in the timer map, or taken out to be finished, exactly
   * while it is unfinished and has a deadline; and it is watched exactly while it is unfinished and
   * has a descriptor. Between batches everything queued has been resumed.
   */
  lemma EveryPollResumedOnce(acts: seq<Act>, id: Id, at: int)
    requires Legal(FRESH, acts)
    ensures var s := Run(FRESH, acts);
      && Count(s.l.resumed + s.l.handles, OfPoll(id)) == One(id in s.l.polls && s.l.polls[id].processed)
      && (Timer(at, id) in s.l.timed <==> Waits(s.l, Timer(at, id)) && Timer(at, id) !in DueOf(s.phase))
      && Distinct(s.l.timed)
      && (id in s.l.watched <==> id in s.l.polls && s.l.polls[id].hasFd && !s.l.polls[id].processed)
      && (s.phase.Waiting? ==> s.l.handles == [])
  {
    FreshInv();
    RunKeepsInv(FRESH, acts);
    assert MapOk(Run(FRESH, acts).l, DueOf(Run(FRESH, acts).phase));
  }

  /**
   * Whenever the loop is not in the middle of a timer event, the timer is set to the least deadline
   * in the map exactly if it is not late; if it is late, the first deadline will pass unnoticed.
   */
  lemma ArmedIffNotLate(acts: seq<Act>)
    requires Legal(FRESH, acts) && (Run(FRESH, acts).phase.Waiting? || Run(FRESH, acts).phase.Scanning?)
    ensures var s := Run(FRESH, acts);
      && (s.l.armed == FirstDeadline(s.l.timed) <==> !s.late)
      && (!s.late ==> forall x :: x in s.l.timed ==> s.l.armed.Some? && s.l.armed.value <= x.at)
      && (s.late ==> TooLate(s.l.armed, s.l.timed))
  {
    FreshInv();
    RunKeepsInv(FRESH, acts);
    FirstIsLeast(Run(FRESH, acts).l.timed);
  }

  lemma FirstIsLeast(timed: seq<Timer>)
    ensures Sorted(timed) ==> forall x :: x in timed ==> FirstDeadline(timed).Some? && FirstDeadline(timed).value <= x.at
  {
  }

  lemma FreshInv()
    ensures Inv(FRESH)
  {
  }

  // ----- what makes the timer late -----

  ghost predicate OnlyRegisters(acts: seq<Act>) {
    forall k :: 0 <= k < |acts| ==> acts[k].DoRegister?
  }

  ghost predicate SomeUndercuts(acts: seq<Act>, first: Option<int>) {
    exists k :: 0 <= k < |acts| && acts[k].DoRegister? && Undercuts(acts[k].deadline, first)
  }

  lemma {:induction false} WindowRecords(s: State, regs: seq<Act>)
    requires s.phase.Arm? && OnlyRegisters(regs)
    ensures Run(s, regs).phase == s.phase && (Run(s, regs).early <==> s.early || SomeUndercuts(regs, s.phase.first))
    decreases |regs|
  {
    if regs != [] {
      var rest := regs[1..];
      assert regs[0].DoRegister?;
      assert forall k :: 0 <= k < |rest| ==> rest[k] == regs[k + 1];
      WindowRecords(Next(s, regs[0]), rest);
      if SomeUndercuts(regs, s.phase.first) && !Undercuts(regs[0].deadline, s.phase.first) {
        var k :| 0 <= k < |regs| && Undercuts(regs[k].deadline, s.phase.first);
        assert rest[k - 1] == regs[k];
      }
    }
  }

  /**
   * A timer event looks at the first entry, any registrations follow, then it sets the timer: the
   * timer is right exactly if none of them came before the entry it saw.
   */
  lemma RearmIsRightIff(s: State, regs: seq<Act>)
    requires Inv(s) && s.phase.Rearm? && OnlyRegisters(regs) && Legal(Next(s, Turn), regs)
    ensures var t := Next(Run(Next(s, Turn), regs), Turn);
      && t.phase == Scanning(s.phase.batch)
      && (t.l.armed == FirstDeadline(t.l.timed) <==> !SomeUndercuts(regs, FirstDeadline(s.l.timed)))
  {
    var u := Next(s, Turn);
    WindowRecords(u, regs);
    NextKeepsInv(s, Turn);
    RunKeepsInv(u, regs);
    NextKeepsInv(Run(u, regs), Turn);
  }

  /** Polls 0 and 1 are due at 10 and 30; while the loop sets the timer for 30, poll 2 asks for 20. */
  function LateRun(): (acts: seq<Act>) {
    [DoRegister(0, false, Some(10)), DoRegister(1, false, Some(30)), Fetch([OnTimer(10)]), Turn, Turn, Turn, Turn,
     DoRegister(2, false, Some(20)), Turn, Turn]
  }

  /** Two entries, one due: the loop takes and finishes it and looks at the other. */
  lemma LateRunLooks(s: State)
    requires s.phase == Scanning([OnTimer(10)]) && s.l.timed == [Timer(10, 0), Timer(30, 1)] && s.l.polls.Keys == {0, 1}
    requires 0 in s.l.polls && !s.l.polls[0].processed
    ensures var t := Next(Next(Next(Next(s, Turn), Turn), Turn), Turn);
      t.phase == Arm(Some(30), []) && t.l.timed == [Timer(30, 1)] && t.l.polls.Keys == {0, 1}
  {
    var timed := s.l.timed;
    assert timed[1..] == [Timer(30, 1)];
    assert Due(timed, 10) == 1;
    var s1 := Next(s, Turn);
    assert s1.phase == Expiring([Timer(10, 0)], []) && s1.l.timed == [Timer(30, 1)];
    var s2 := Next(s1, Turn);
    assert s2.phase == Expiring([], []);
  }

  lemma ThenRun(s: State, a: Act, acts: seq<Act>)
    requires acts != [] && acts[0] == a && Allowed(s, a)
    ensures Run(s, acts) == Run(Next(s, a), acts[1..])
    ensures Legal(s, acts) <==> Legal(Next(s, a), acts[1..])
  {
  }

  lemma LateRunRegisters()
    ensures var acts := LateRun();
      var s := Next(Next(Next(FRESH, acts[0]), acts[1]), acts[2]);
      && 1 !in Next(FRESH, acts[0]).l.polls && Next(Next(FRESH, acts[0]), acts[1]).phase.Waiting?
      && s.phase == Scanning([OnTimer(10)]) && s.l.timed == [Timer(10, 0), Timer(30, 1)] && s.l.polls.Keys == {0, 1}
      && 0 in s.l.polls && !s.l.polls[0].processed
  {
    var acts := LateRun();
    var s1 := Next(FRESH, acts[0]);
    assert s1.l.timed == [Timer(10, 0)] && s1.l.polls.Keys == {0};
    var s2 := Next(s1, acts[1]);
    assert Insert([Timer(10, 0)], Timer(30, 1)) == [Timer(10, 0)] + Insert([], Timer(30, 1));
    assert s2.l.polls.Keys == {0, 1};
  }

  lemma LateRunSets(s: State)
    requires s.phase == Arm(Some(30), []) && s.l.timed == [Timer(30, 1)]
    ensures var t := Next(Next(Next(s, DoRegister(2, false, Some(20))), Turn), Turn);
      t.phase.Waiting? && t.late && t.l.armed == Some(30) && t.l.timed == [Timer(20, 2), Timer(30, 1)]
  {
    var u := Next(s, DoRegister(2, false, Some(20)));
    assert u.early && u.phase == Arm(Some(30), []);
    assert u.l.timed == [Timer(20, 2)] + [Timer(30, 1)];
  }

  /** The failing run: deadline 20 is in the map and the timer is set to 30. */
  lemma LateTimerHappens()
    ensures Legal(FRESH, LateRun())
    ensures var s := Run(FRESH, LateRun());
      s.phase.Waiting? && s.late && s.l.armed == Some(30) && s.l.timed == [Timer(20, 2), Timer(30, 1)]
  {
    var acts := LateRun();
    var s1 := Next(FRESH, acts[0]);
    var s2 := Next(s1, acts[1]);
    var s3 := Next(s2, acts[2]);
    LateRunRegisters();
    LateRunLooks(s3);
    var s7 := Next(Next(Next(Next(s3, Turn), Turn), Turn), Turn);
    LateRunSets(s7);
    var s8 := Next(s7, acts[7]);
    LateRunSteps(s8, Next(Next(s8, Turn), Turn), acts);
    LateRunStart(s1, s2, s3, s7, s8, acts);
  }

  lemma LateRunSteps(s8: State, s10: State, acts: seq<Act>)
    requires acts == LateRun() && s10 == Next(Next(s8, Turn), Turn)
    ensures Legal(s8, acts[8..]) && Run(s8, acts[8..]) == s10
  {
    assert acts[8..] == [Turn, Turn];
    assert [Turn, Turn][1..] == [Turn] && [Turn][1..] == [];
    ThenRun(s8, Turn, acts[8..]);
    ThenRun(Next(s8, Turn), Turn, [Turn]);
  }

  lemma LateRunStart(s1: State, s2: State, s3: State, s7: State, s8: State, acts: seq<Act>)
    requires acts == LateRun() && s1 == Next(FRESH, acts[0]) && s2 == Next(s1, acts[1]) && s3 == Next(s2, acts[2])
    requires s7 == Next(Next(Next(Next(s3, Turn), Turn), Turn), Turn) && s8 == Next(s7, acts[7])
    requires 1 !in s1.l.polls && s2.phase.Waiting? && 2 !in s7.l.polls && Legal(s8, acts[8..])
    ensures Legal(FRESH, acts) && Run(FRESH, acts) == Run(s8, acts[8..])
  {
    ThenRun(s7, acts[7], acts[7..]);
    assert acts[7..][1..] == acts[8..];
    var s4 := Next(s3, Turn);
    var s5 := Next(s4, Turn);
    var s6 := Next(s5, Turn);
    ThenRun(s6, Turn, acts[6..]);
    assert acts[6..][1..] == acts[7..];
    ThenRun(s5, Turn, acts[5..]);
    assert acts[5..][1..] == acts[6..];
    ThenRun(s4, Turn, acts[4..]);
    assert acts[4..][1..] == acts[5..];
    ThenRun(s3, Turn, acts[3..]);
    assert acts[3..][1..] == acts[4..];
    ThenRun(s2, acts[2], acts[2..]);
    assert acts[2..][1..] == acts[3..];
    ThenRun(s1, acts[1], acts[1..]);
    assert acts[1..][1..] == acts[2..];
    ThenRun(FRESH, acts[0], acts);
  }

  // ----- the first source to be handled wins, and only it -----

  /** The status the first event of the batch that concerns this poll gives it. */
  function FirstSource(id: Id, deadline: Option<int>, batch: seq<Event>): (s: Option<Status>) {
    if batch == [] then None
    else
      match batch[0]
      case OnFd(i, status) => if i == id then Some(status) else FirstSource(id, deadline, batch[1..])
      case OnTimer(now) =>
        if deadline.Some? && deadline.value <= now then Some(Timeout) else FirstSource(id, deadline, batch[1..])
      case _ => FirstSource(id, deadline, batch[1..])
  }

  /** How a poll will stand when the batch at hand has been handled: finished with a status, or not. */
  function Fate(s: State, id: Id): (f: Option<Status>)
    requires id in s.l.polls
  {
    var p := s.l.polls[id];
    if p.processed then Some(p.status)
    else if p.deadline.Some? && Timer(p.deadline.value, id) in DueOf(s.phase) then Some(Timeout)
    else FirstSource(id, p.deadline, RestOf(s.phase))
  }

  lemma TimerFate(s: State, now: int, rest: seq<Event>, id: Id)
    requires Inv(s) && s.phase == Scanning([OnTimer(now)] + rest) && id in s.l.polls
    ensures id in ScanNext(s, OnTimer(now), rest).l.polls && Fate(ScanNext(s, OnTimer(now), rest), id) == Fate(s, id)
  {
    var p, n := s.l.polls[id], Due(s.l.timed, now);
    assert ([OnTimer(now)] + rest)[1..] == rest;
    if !p.processed && p.deadline.Some? {
      var x := Timer(p.deadline.value, id);
      assert Waits(s.l, x);
      var k :| 0 <= k < |s.l.timed| && s.l.timed[k] == x;
      if x.at <= now { assert s.l.timed[..n][k] == x; }
    }
  }

  lemma EventFate(s: State, e: Event, rest: seq<Event>, id: Id)
    requires Inv(s) && s.phase == Scanning([e] + rest) && !e.OnTimer? && id in s.l.polls
    ensures id in ScanNext(s, e, rest).l.polls && Fate(ScanNext(s, e, rest), id) == Fate(s, id)
  {
    assert ([e] + rest)[1..] == rest;
    if e.OnFd? { EventFinishes(s.l, e.id, e.status); }
  }

  lemma ExpireFate(s: State, id: Id)
    requires Inv(s) && s.phase.Expiring? && s.phase.due != [] && id in s.l.polls
    ensures id in TurnNext(s).l.polls && Fate(TurnNext(s), id) == Fate(s, id)
  {
    var due, p := s.phase.due, s.l.polls[id];
    TailMembers(due);
    assert Waits(s.l, due[0]);
  }

  /** No step of the loop within a batch, and no registration, changes what a poll has coming. */
  lemma FateKept(s: State, a: Act, id: Id)
    requires Inv(s) && Allowed(s, a) && !a.Fetch? && id in s.l.polls
    ensures id in Next(s, a).l.polls && Fate(Next(s, a), id) == Fate(s, id)
  {
    if a.Turn? && s.phase.Scanning? && s.phase.batch != [] {
      var batch := s.phase.batch;
      assert batch == [batch[0]] + batch[1..];
      if batch[0].OnTimer? { TimerFate(s, batch[0].now, batch[1..], id); } else { EventFate(s, batch[0], batch[1..], id); }
    } else if a.Turn? && s.phase.Expiring? && s.phase.due != [] {
      ExpireFate(s, id);
    }
  }

  ghost predicate NoFetch(acts: seq<Act>) {
    forall k :: 0 <= k < |acts| ==> !acts[k].Fetch?
  }

  lemma NextResumes(s: State, a: Act)
    requires !a.Fetch?
    ensures s.phase.Waiting? ==> Next(s, a).phase.Waiting?
    ensures !Next(s, a).phase.Waiting? ==> Next(s, a).l.resumed == s.l.resumed
  {
    if a.Turn? && s.phase.Scanning? && s.phase.batch != [] && s.phase.batch[0].OnFd? {
      EventFinishes(s.l, s.phase.batch[0].id, s.phase.batch[0].status);
    }
  }

  lemma {:induction false} RunKeepsFate(s: State, acts: seq<Act>, id: Id)
    requires Inv(s) && Legal(s, acts) && NoFetch(acts) && id in s.l.polls
    ensures var t := Run(s, acts);
      && id in t.l.polls && Fate(t, id) == Fate(s, id)
      && (s.phase.Waiting? ==> t.phase.Waiting?) && (!t.phase.Waiting? ==> t.l.resumed == s.l.resumed)
    decreases |acts|
  {
    if acts != [] {
      assert !acts[0].Fetch?;
      NextKeepsInv(s, acts[0]);
      FateKept(s, acts[0], id);
      NextResumes(s, acts[0]);
      assert NoFetch(acts[1..]);
      RunKeepsFate(Next(s, acts[0]), acts[1..], id);
    }
  }

  /**
   * For any batch, in any order, with other threads registering at any point: a poll that the
   * batch finds unfinished is queued exactly once if some event concerns it, with the status of the
   * first such event, and not at all otherwise; and nothing is resumed before the whole batch has
   * been handled.
   */
  lemma BatchServesEach(s: State, batch: seq<Event>, acts: seq<Act>, id: Id)
    requires Inv(s) && s.phase == Scanning(batch) && Legal(s, acts) && NoFetch(acts) && Run(s, acts).phase == Scanning([])
    requires id in s.l.polls && !s.l.polls[id].processed
    ensures var t, won := Run(s, acts), FirstSource(id, s.l.polls[id].deadline, batch);
      && t.l.resumed == s.l.resumed
      && id in t.l.polls && t.l.polls[id].processed == won.Some? && (won.Some? ==> t.l.polls[id].status == won.value)
      && Count(t.l.resumed + t.l.handles, OfPoll(id)) == Count(s.l.resumed + s.l.handles, OfPoll(id)) + One(won.Some?)
  {
    RunKeepsFate(s, acts, id);
    RunKeepsInv(s, acts);
  }

  // ----- with no registrations in between, the steps of a batch are the value form -----

  function Turns(n: nat): (acts: seq<Act>) {
    seq(n, _ => Turn)
  }

  lemma OneTurn(s: State, n: nat)
    requires n > 0
    ensures Run(s, Turns(n)) == Run(TurnNext(s), Turns(n - 1))
  {
    assert Turns(n)[1..] == Turns(n - 1);
  }

  lemma {:induction false} MoreTurns(s: State, m: nat, n: nat)
    ensures Run(s, Turns(m + n)) == Run(Run(s, Turns(m)), Turns(n))
    decreases m
  {
    if m > 0 {
      OneTurn(s, m + n);
      OneTurn(s, m);
      MoreTurns(TurnNext(s), m - 1, n);
    }
  }

  lemma {:induction false} ExpireAlone(s: State, due: seq<Timer>, batch: seq<Event>)
    requires s.phase == Expiring(due, batch)
    ensures var t, f := Run(s, Turns(|due| + 3)), FinishAll(s.l, due);
      t.phase == Scanning(batch) && t.l == f.(armed := FirstDeadline(f.timed))
    decreases |due|
  {
    OneTurn(s, |due| + 3);
    if due == [] {
      OneTurn(TurnNext(s), 2);
      OneTurn(TurnNext(TurnNext(s)), 1);
    } else {
      ExpireAlone(TurnNext(s), due[1..], batch);
    }
  }

  lemma {:induction false} BatchAlone(s: State, batch: seq<Event>) returns (n: nat)
    requires s.phase == Scanning(batch)
    ensures Run(s, Turns(n)).phase == Scanning([]) && Run(s, Turns(n)).l == Scan(s.l, batch)
    decreases |batch|
  {
    n := 0;
    if batch != [] {
      var first := 1;
      OneTurn(s, 1);
      if batch[0].OnTimer? {
        var due := s.l.timed[..Due(s.l.timed, batch[0].now)];
        first := |due| + 4;
        OneTurn(s, first);
        ExpireAlone(TurnNext(s), due, batch[1..]);
      }
      var t := Run(s, Turns(first));
      assert t.phase == Scanning(batch[1..]) && t.l == Process(s.l, batch[0]);
      var m := BatchAlone(t, batch[1..]);
      n := first + m;
      MoreTurns(s, first, m);
    }
  }

  // ----- scheduled operations are resumed once each, in order -----

  function Queued(s: State): (hs: seq<Handle>) {
    s.l.resumed + s.l.handles
  }

  /** Operations queued so far, and those the events still to be handled will bring. */
  function OpsKnown(s: State): (ops: seq<nat>) {
    OpsOf(Queued(s)) + Scheduled(RestOf(s.phase))
  }

  lemma AppendKeepsOps(l: Loop, r: Loop, more: seq<Handle>)
    requires r.resumed == l.resumed && r.handles == l.handles + more
    ensures l.resumed + l.handles <= r.resumed + r.handles && OpsOf(r.resumed + r.handles) == OpsOf(l.resumed + l.handles) + OpsOf(more)
  {
    assert r.resumed + r.handles == (l.resumed + l.handles) + more;
    OpsAdd(l.resumed + l.handles, more);
  }

  lemma FdOps(s: State, id: Id, status: Status, rest: seq<Event>)
    ensures var t := ScanNext(s, OnFd(id, status), rest); Queued(s) <= Queued(t) && OpsOf(Queued(t)) == OpsOf(Queued(s))
  {
    EventFinishes(s.l, id, status);
    var more := if id in s.l.polls && !s.l.polls[id].processed then [OfPoll(id)] else [];
    AppendKeepsOps(s.l, ScanNext(s, OnFd(id, status), rest).l, more);
    assert [OfPoll(id)][1..] == [];
  }

  lemma ScheduleOps(s: State, ops: seq<nat>, rest: seq<Event>)
    ensures var t := ScanNext(s, OnSchedule(ops), rest); Queued(s) <= Queued(t) && OpsOf(Queued(t)) == OpsOf(Queued(s)) + ops
  {
    AppendKeepsOps(s.l, ScanNext(s, OnSchedule(ops), rest).l, OpHandles(ops));
    OpsOfHandles(ops);
  }

  lemma ScanOps(s: State, e: Event, rest: seq<Event>)
    requires s.phase == Scanning([e] + rest)
    ensures Queued(s) <= Queued(ScanNext(s, e, rest)) && OpsKnown(ScanNext(s, e, rest)) == OpsKnown(s)
  {
    assert ([e] + rest)[1..] == rest;
    match e
    case OnFd(id, status) => FdOps(s, id, status, rest);
    case OnSchedule(ops) => ScheduleOps(s, ops, rest); Assoc(OpsOf(Queued(s)), ops, Scheduled(rest));
    case _ =>
  }

  lemma NextOps(s: State, a: Act)
    requires Inv(s) && Allowed(s, a)
    ensures Queued(s) <= Queued(Next(s, a)) && OpsKnown(Next(s, a)) == OpsKnown(s) + if a.Fetch? then Scheduled(a.batch) else []
  {
    if a.Turn? && s.phase.Scanning? && s.phase.batch != [] {
      var batch := s.phase.batch;
      assert batch == [batch[0]] + batch[1..];
      ScanOps(s, batch[0], batch[1..]);
    } else if a.Turn? && s.phase.Scanning? {
      assert Queued(Next(s, a)) == Queued(s);
    } else if a.Turn? && s.phase.Expiring? && s.phase.due != [] {
      var due := s.phase.due;
      assert Waits(s.l, due[0]);
      AppendKeepsOps(s.l, Next(s, a).l, [OfPoll(due[0].id)]);
      assert [OfPoll(due[0].id)][1..] == [];
    } else {
      assert Queued(Next(s, a)) == Queued(s);
    }
  }

  /** All the events the loop has fetched. */
  function Fetched(acts: seq<Act>): (batch: seq<Event>) {
    if acts == [] then [] else (if acts[0].Fetch? then acts[0].batch else []) + Fetched(acts[1..])
  }

  lemma {:induction false} RunOps(s: State, acts: seq<Act>)
    requires Inv(s) && Legal(s, acts)
    ensures Queued(s) <= Queued(Run(s, acts)) && OpsKnown(Run(s, acts)) == OpsKnown(s) + Scheduled(Fetched(acts))
    decreases |acts|
  {
    if acts == [] {
      assert OpsKnown(s) + [] == OpsKnown(s);
    } else {
      NextKeepsInv(s, acts[0]);
      NextOps(s, acts[0]);
      RunOps(Next(s, acts[0]), acts[1..]);
      var first, rest := if acts[0].Fetch? then acts[0].batch else [], Fetched(acts[1..]);
      ScheduledAdd(first, rest);
      Assoc(OpsKnown(s), Scheduled(first), Scheduled(rest));
    }
  }

  /**
   * Over every run, with registrations at any point: the operations that the fetched events brought
   * are, each as often and in that order, those queued and those of events still to be handled; what
   * has been queued stays so, in that order; and between batches all of it has been resumed.
   */
  lemma ScheduledResumedInOrder(acts: seq<Act>, later: seq<Act>)
    requires Legal(FRESH, acts) && Legal(Run(FRESH, acts), later)
    ensures var s, t := Run(FRESH, acts), Run(Run(FRESH, acts), later);
      && OpsOf(s.l.resumed + s.l.handles) + Scheduled(RestOf(s.phase)) == Scheduled(Fetched(acts))
      && (s.phase.Waiting? ==> OpsOf(s.l.resumed) == Scheduled(Fetched(acts)))
      && s.l.resumed + s.l.handles <= t.l.resumed + t.l.handles
  {
    FreshInv();
    RunOps(FRESH, acts);
    RunKeepsInv(FRESH, acts);
    RunOps(Run(FRESH, acts), later);
    var s := Run(FRESH, acts);
    assert s.phase.Waiting? ==> s.l.resumed + s.l.handles == s.l.resumed;
  }
}
