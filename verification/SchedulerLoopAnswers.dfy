/**
 * What the calls of `coro::scheduler` and the turns of its event loop do when nothing interferes,
 * read from the states before and after alone, and when the dedicated loop exits
 * (src/scheduler.cpp:85-159, 161-210, 246-364).
 */
module SchedulerLoopAnswers {
  import opened Prelude
  import opened SchedulerLoop

  // ----- the dedicated loop exits only after shutdown -----

  /** The loop has seen the shutdown request. */
  ghost predicate SeesShutdown(s: State) {
    s.loop.HeadSize? || s.loop.Exited? ==> s.shutdown
  }

  lemma NextSees(s: State, m: Move)
    requires Enabled(s, m) && SeesShutdown(s)
    ensures SeesShutdown(Next(s, m)) && (s.shutdown ==> Next(s, m).shutdown)
  {
    if m.Thread? { ThreadLeavesLoop(s, m.id, m.call, m.fail); }
  }

  lemma ThreadLeavesLoop(s: State, i: nat, call: Call, fail: bool)
    requires i < |s.pc|
    ensures ThreadStep(s, i, call, fail).loop == s.loop && (s.shutdown ==> ThreadStep(s, i, call, fail).shutdown)
  {
    OnlySelf(s, i, call, fail);
    if s.pc[i].Idle? { CallerOnly(s, i, call, fail); }
  }

  lemma {:induction false} RunSees(s: State, ms: seq<Move>)
    requires Legal(s, ms) && SeesShutdown(s)
    ensures SeesShutdown(Exec(s, ms)) && (s.shutdown ==> Exec(s, ms).shutdown)
    decreases |ms|
  {
    if ms == [] {
    } else {
      NextSees(s, ms[0]);
      RunSees(Next(s, ms[0]), ms[1..]);
    }
  }

  /** Over every run the dedicated loop has exited only if shutdown was requested. */
  lemma ExitMeansShutdown(s: State, ms: seq<Move>)
    requires Init(s) && Legal(s, ms)
    ensures Exec(s, ms).loop.Exited? ==> Exec(s, ms).shutdown
  {
    RunSees(s, ms);
  }

  /** A loop at its head, left alone, exits exactly if shutdown was requested and nothing is live; otherwise it fetches a batch. */
  lemma ExitsExactlyIf(s: State, m: Move) returns (ms: seq<Move>)
    requires s.loop.Head? && m.LoopStep?
    ensures Legal(s, ms) && forall k :: 0 <= k < |ms| ==> ms[k] == m
    ensures Exec(s, ms) == s.(loop := if s.shutdown && s.size <= 0 then Exited else Fetch)
  {
    ms := [];
    if s.shutdown {
      ThenRun(Next(s, m), ms, m);
      ms := [m] + ms;
    }
    ThenRun(s, ms, m);
    ms := [m] + ms;
  }

  // ----- a call left alone -----

  /** One thread keeps moving, nobody else moves, and no exchange fails for no reason. */
  ghost predicate Only(ms: seq<Move>, i: nat, call: Call) {
    forall k :: 0 <= k < |ms| ==> ms[k] == Thread(i, call, false)
  }

  lemma Before(s: State, t: State, i: nat, call: Call, ms: seq<Move>) returns (ns: seq<Move>)
    requires i < |s.pc| && ThreadStep(s, i, call, false) == t && Legal(t, ms) && Only(ms, i, call)
    ensures Legal(s, ns) && Only(ns, i, call) && Exec(s, ns) == Exec(t, ms)
  {
    ns := [Thread(i, call, false)] + ms;
    ThenRun(s, ms, Thread(i, call, false));
  }

  /** The state with `op` scheduled: listed in front, and the loop signalled unless it already was. */
  function Listed(s: State, op: Op): (t: State) {
    if s.flag then s.(list := [op] + s.list)
    else s.(list := [op] + s.list, flag := true, pipe := s.pipe + 1, ready := true)
  }

  lemma SignalAlone(s: State, i: nat, call: Call) returns (ms: seq<Move>)
    requires i < |s.pc| && s.pc[i] == FlagExchange
    ensures Legal(s, ms) && Only(ms, i, call)
    ensures Exec(s, ms) == (if s.flag then s else s.(flag := true, pipe := s.pipe + 1, ready := true)).(pc := s.pc[i := Idle])
  {
    var a := ThreadStep(s, i, call, false);
    ms := [];
    if !s.flag {
      var b := ThreadStep(a, i, call, false);
      assert b.pc == s.pc[i := Idle];
      ms := Before(a, b, i, call, ms);
    }
    ms := Before(s, a, i, call, ms);
  }

  lemma PushAlone(s: State, i: nat, call: Call, op: Op) returns (ms: seq<Move>)
    requires i < |s.pc| && s.pc[i] == PushLoad(op)
    ensures Legal(s, ms) && Only(ms, i, call)
    ensures Exec(s, ms) == Listed(s, op).(pc := s.pc[i := Idle])
  {
    var a := s.(pc := s.pc[i := PushExchange(op, First(s.list))]);
    var b := s.(list := [op] + s.list, pc := s.pc[i := FlagExchange]);
    assert a.pc[i := FlagExchange] == b.pc;
    ms := SignalAlone(b, i, call);
    assert b.pc[i := Idle] == s.pc[i := Idle];
    ms := Before(a, b, i, call, ms);
    ms := Before(s, a, i, call, ms);
  }

  /** `schedule` counts itself and lists its operation, whatever the shutdown flag says. */
  lemma ScheduleAlone(s: State, i: nat, op: Op) returns (ms: seq<Move>)
    requires i < |s.pc| && s.pc[i] == Idle
    ensures Legal(s, ms) && Only(ms, i, DoSchedule(op))
    ensures Exec(s, ms) == Listed(s, op).(size := s.size + 1)
  {
    var a := s.(size := s.size + 1, pc := s.pc[i := PushLoad(op)]);
    ms := PushAlone(a, i, DoSchedule(op), op);
    assert a.pc[i := Idle] == s.pc;
    ms := Before(s, a, i, DoSchedule(op), ms);
  }

  /** `spawn_detached` after shutdown is refused, and its count stays behind. */
  lemma SpawnRefused(s: State, i: nat, op: Op) returns (ms: seq<Move>)
    requires i < |s.pc| && s.pc[i] == Idle && s.shutdown
    ensures Legal(s, ms) && Only(ms, i, DoSpawn(op))
    ensures Exec(s, ms) == s.(size := s.size + 1, leaked := s.leaked + 1)
  {
    var a := s.(size := s.size + 1, pc := s.pc[i := SpawnCheck(op)]);
    var b := s.(size := s.size + 1, leaked := s.leaked + 1);
    assert a.pc[i := Idle] == s.pc;
    ms := Before(a, b, i, DoSpawn(op), []);
    ms := Before(s, a, i, DoSpawn(op), ms);
  }

  /** `spawn_detached` before shutdown adds a live task, counts it and its schedule operation, and lists the operation. */
  lemma SpawnAlone(s: State, i: nat, op: Op) returns (ms: seq<Move>)
    requires i < |s.pc| && s.pc[i] == Idle && !s.shutdown
    ensures Legal(s, ms) && Only(ms, i, DoSpawn(op))
    ensures Exec(s, ms) == Listed(s, op).(size := s.size + 2, detached := s.detached + 1)
  {
    var a := s.(size := s.size + 1, pc := s.pc[i := SpawnCheck(op)]);
    var b := s.(size := s.size + 1, detached := s.detached + 1, pc := s.pc[i := SpawnCount(op)]);
    var c := s.(size := s.size + 2, detached := s.detached + 1, pc := s.pc[i := PushLoad(op)]);
    assert a.pc[i := SpawnCount(op)] == b.pc && b.pc[i := PushLoad(op)] == c.pc && c.pc[i := Idle] == s.pc;
    ms := PushAlone(c, i, DoSpawn(op), op);
    ms := Before(b, c, i, DoSpawn(op), ms);
    ms := Before(a, b, i, DoSpawn(op), ms);
    ms := Before(s, a, i, DoSpawn(op), ms);
  }

  /** A poll or a timed yield is counted and registered. */
  lemma PollAlone(s: State, i: nat) returns (ms: seq<Move>)
    requires i < |s.pc| && s.pc[i] == Idle
    ensures Legal(s, ms) && Only(ms, i, DoPoll)
    ensures Exec(s, ms) == s.(size := s.size + 1, polls := s.polls + 1)
  {
    var a := s.(size := s.size + 1, pc := s.pc[i := PollRegister]);
    var b := s.(size := s.size + 1, polls := s.polls + 1);
    assert a.pc[i := Idle] == s.pc;
    ms := Before(a, b, i, DoPoll, []);
    ms := Before(s, a, i, DoPoll, ms);
  }

  // ----- a turn of the loop left alone -----

  ghost predicate LoopOnly(ms: seq<Move>) {
    forall k :: 0 <= k < |ms| ==> ms[k].LoopStep? && !ms[k].fail
  }

  const ON_SCHEDULE := LoopStep(OnSchedule, false)
  const ON_POLL := LoopStep(OnPoll, false)
  const BATCH_DONE := LoopStep(BatchDone, false)

  lemma PopsAlone(s: State) returns (ms: seq<Move>)
    requires s.loop.FlagReset?
    ensures Legal(s, ms) && LoopOnly(ms)
    ensures Exec(s, ms) == s.(flag := false, list := [], handles := s.handles + |s.list|, loop := Scan)
  {
    ms := [];
    var a := Next(s, BATCH_DONE);
    var b := Next(a, BATCH_DONE);
    if s.list != [] {
      ThenRun(b, ms, BATCH_DONE);
      ms := [BATCH_DONE] + ms;
    }
    ThenRun(a, ms, BATCH_DONE);
    ms := [BATCH_DONE] + ms;
    ThenRun(s, ms, BATCH_DONE);
    ms := [BATCH_DONE] + ms;
  }

  /** Draining the pipe, however much is in it, and taking the list. */
  lemma {:induction false} ReadsAlone(s: State) returns (ms: seq<Move>)
    requires s.loop.Read?
    ensures Legal(s, ms) && LoopOnly(ms)
    ensures Exec(s, ms) == s.(pipe := 0, flag := false, list := [], handles := s.handles + |s.list|, loop := Scan)
    decreases s.pipe
  {
    var a := Next(s, BATCH_DONE);
    if s.pipe >= READ_COUNT {
      ms := ReadsAlone(a);
    } else {
      ms := PopsAlone(a);
    }
    ThenRun(s, ms, BATCH_DONE);
    ms := [BATCH_DONE] + ms;
  }

  /**
   * A loop whose pipe has been written since the last report, left alone for one turn, drains the
   * pipe, lowers the flag and resumes every listed operation, and nothing else.
   */
  lemma WakeUpServed(s: State) returns (ms: seq<Move>)
    requires s.loop.Fetch? && s.ready && s.pipe > 0
    ensures Legal(s, ms) && LoopOnly(ms)
    ensures Exec(s, ms) == s.(ready := false, reported := false, pipe := 0, flag := false, list := [], handles := 0,
                              size := s.size - s.handles - |s.list|, loop := Head)
  {
    var a := Next(s, ON_SCHEDULE);
    var b := Next(a, ON_SCHEDULE);
    var drain := ReadsAlone(b);
    var c := Exec(b, drain);
    var rest := ResumesAlone(c);
    ms := drain + rest;
    Joined(b, drain, rest);
    ThenRun(a, ms, ON_SCHEDULE);
    ms := [ON_SCHEDULE] + ms;
    ThenRun(s, ms, ON_SCHEDULE);
    ms := [ON_SCHEDULE] + ms;
  }

  lemma ResumesAlone(s: State) returns (ms: seq<Move>)
    requires s.loop.Scan? && !s.reported
    ensures Legal(s, ms) && LoopOnly(ms)
    ensures Exec(s, ms) == s.(handles := 0, size := s.size - s.handles, loop := Head)
  {
    var a := Next(s, BATCH_DONE);
    ms := [];
    ThenRun(a, ms, BATCH_DONE);
    ms := [BATCH_DONE] + ms;
    ThenRun(s, ms, BATCH_DONE);
    ms := [BATCH_DONE] + ms;
  }

  lemma {:induction false} Joined(s: State, ms: seq<Move>, ns: seq<Move>)
    requires Legal(s, ms) && Legal(Exec(s, ms), ns)
    ensures Legal(s, ms + ns) && Exec(s, ms + ns) == Exec(Exec(s, ms), ns)
    decreases |ms|
  {
    if ms == [] {
      assert ms + ns == ns;
    } else {
      var t, rest := Next(s, ms[0]), ms[1..];
      Joined(t, rest, ns);
      assert ms + ns == [ms[0]] + (rest + ns);
      ThenRun(s, rest + ns, ms[0]);
    }
  }

  /** A registered poll or timer whose event comes up is resumed in the same turn, and uncounted. */
  lemma PollServed(s: State) returns (ms: seq<Move>)
    requires s.loop.Fetch? && s.polls > 0
    ensures Legal(s, ms) && LoopOnly(ms)
    ensures Exec(s, ms) == s.(ready := s.ready && s.pipe > 0, reported := false, polls := s.polls - 1, handles := 0,
                              size := s.size - s.handles - 1, loop := Head)
  {
    var a := Next(s, BATCH_DONE);
    var b := Next(a, ON_POLL);
    ms := ResumesAlone(b);
    ThenRun(a, ms, ON_POLL);
    ms := [ON_POLL] + ms;
    ThenRun(s, ms, BATCH_DONE);
    ms := [BATCH_DONE] + ms;
  }
}
