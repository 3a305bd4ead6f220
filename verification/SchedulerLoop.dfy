/**
 * The inline event loop of `coro::scheduler` and everyone who feeds it, as a step machine: the
 * wake-up protocol over the scheduled list, the flag and the pipe
 * (include/coro/scheduler.hpp:147-169, src/scheduler.cpp:327-364) and the live-task count
 * (src/scheduler.cpp:85-159, 161-184, 212-325). One step per atomic access or system call, any
 * number of threads. The pipe is watched edge-triggered: an event is reported for a write since
 * the last report, if there are bytes to read at that moment, and never again for bytes left
 * unread.
 */
module SchedulerLoop {
  import opened Prelude

  type Op = nat

  /** A thread inside one of the scheduler's calls. */
  datatype Pc =
    | Idle
    | PushLoad(op: Op)                      // counted, before the load of the list push
    | PushExchange(op: Op, seen: Option<Op>)
    | FlagExchange                          // pushed, before the exchange on the trigger flag
    | PipeWrite                             // flag won, before the write
    | SpawnCheck(op: Op)                    // spawn_detached: counted, before resume looks at the shutdown flag
    | SpawnCount(op: Op)                    // resume goes on to a schedule operation, not yet counted
    | PollRegister                          // poll or yield: counted, before it is registered

  datatype Loop =
    | Head                                  // dedicated loop, before the shutdown load
    | HeadSize                              // shutdown seen, before the size load
    | Fetch                                 // before the notifier is asked for a batch
    | Scan                                  // events of one batch being handled
    | Read                                  // schedule event: draining the pipe
    | FlagReset
    | PopLoad                               // before the load of the list pop
    | PopExchange(seen: Option<Op>)
    | Resume                                // batch scanned, handles being resumed
    | Exited

  datatype State = State(
    list: seq<Op>,        // m_scheduled_ops, newest first
    flag: bool,           // m_schedule_pipe_triggered
    pipe: nat,            // ints in the pipe
    ready: bool,          // written since the notifier last reported the pipe
    reported: bool,       // the batch being scanned has the pipe's event, not yet handled
    size: int,            // m_size
    polls: nat,           // registered polls and timers not yet processed
    detached: nat,        // live detached tasks
    leaked: nat,          // spawns refused after having been counted
    handles: nat,         // m_handles_to_resume
    shutdown: bool,
    loop: Loop,
    pc: seq<Pc>)

  datatype Call = DoSchedule(op: Op) | DoSpawn(op: Op) | DoPoll | DoShutdown

  datatype Move =
    | Thread(id: nat, call: Call, fail: bool)  // `fail`: a weak compare-exchange fails spuriously
    | DetachedEnds                             // a detached task reaches its final suspend
    | LoopStep(pick: Pick, fail: bool)

  /** What a batch contains, and what the loop does next while it scans it. */
  datatype Pick = OnSchedule | OnPoll | BatchDone

  ghost predicate Init(s: State) {
    && s.list == [] && !s.flag && s.pipe == 0 && !s.ready && !s.reported
    && s.size == 0 && s.polls == s.detached == s.leaked == s.handles == 0
    && !s.shutdown && s.loop == Head
    && forall i :: 0 <= i < |s.pc| ==> s.pc[i] == Idle
  }

  ghost predicate Enabled(s: State, m: Move) {
    match m
    case Thread(id, _, _) => id < |s.pc|
    case DetachedEnds => s.detached > 0
    case LoopStep(pick, _) =>
      && (s.loop.Fetch? ==> (pick.OnSchedule? ==> s.ready && s.pipe > 0))
      && (s.loop.Scan? ==> (pick.OnSchedule? ==> s.reported) && (pick.OnPoll? ==> s.polls > 0) && (pick.BatchDone? ==> !s.reported))
  }

  function First(l: seq<Op>): (p: Option<Op>) {
    if l == [] then None else Some(l[0])
  }

  function Goto(s: State, i: nat, pc: Pc): (t: State)
    requires i < |s.pc|
  {
    s.(pc := s.pc[i := pc])
  }

  function ThreadStep(s: State, i: nat, call: Call, fail: bool): (t: State)
    requires i < |s.pc|
  {
    match s.pc[i]
    case Idle =>
      (match call
       case DoSchedule(op) => Goto(s.(size := s.size + 1), i, PushLoad(op))
       case DoSpawn(op) => Goto(s.(size := s.size + 1), i, SpawnCheck(op))
       case DoPoll => Goto(s.(size := s.size + 1), i, PollRegister)
       case DoShutdown => s.(shutdown := true))
    case PushLoad(op) => Goto(s, i, PushExchange(op, First(s.list)))
    case PushExchange(op, seen) =>
      if First(s.list) == seen && !fail then Goto(s.(list := [op] + s.list), i, FlagExchange)
      else Goto(s, i, PushExchange(op, First(s.list)))
    case FlagExchange => if s.flag then Goto(s, i, Idle) else Goto(s.(flag := true), i, PipeWrite)
    case PipeWrite => Goto(s.(pipe := s.pipe + 1, ready := true), i, Idle)
    case SpawnCheck(op) =>
      if s.shutdown then Goto(s.(leaked := s.leaked + 1), i, Idle)
      else Goto(s.(detached := s.detached + 1), i, SpawnCount(op))
    case SpawnCount(op) => Goto(s.(size := s.size + 1), i, PushLoad(op))
    case PollRegister => Goto(s.(polls := s.polls + 1), i, Idle)
  }

  const READ_COUNT := 4

  function LoopNext(s: State, pick: Pick, fail: bool): (t: State)
    requires Enabled(s, LoopStep(pick, fail))
  {
    match s.loop
    case Head => s.(loop := if s.shutdown then HeadSize else Fetch)
    case HeadSize => s.(loop := if s.size > 0 then Fetch else Exited)
    case Fetch => s.(ready := s.ready && s.pipe > 0 && !pick.OnSchedule?, reported := pick.OnSchedule?, loop := Scan)
    case Scan =>
      (match pick
       case OnSchedule => s.(reported := false, loop := Read)
       case OnPoll => s.(polls := s.polls - 1, handles := s.handles + 1)
       case BatchDone => s.(loop := Resume))
    case Read =>
      if s.pipe >= READ_COUNT then s.(pipe := s.pipe - READ_COUNT) else s.(pipe := 0, loop := FlagReset)
    case FlagReset => s.(flag := false, loop := PopLoad)
    case PopLoad => s.(loop := if s.list == [] then Scan else PopExchange(First(s.list)))
    case PopExchange(seen) =>
      if First(s.list) == seen && !fail then s.(list := [], handles := s.handles + |s.list|, loop := Scan)
      else if s.list == [] then s.(loop := Scan)
      else s.(loop := PopExchange(First(s.list)))
    case Resume => s.(size := s.size - s.handles, handles := 0, loop := Head)
    case Exited => s
  }

  function Next(s: State, m: Move): (t: State)
    requires Enabled(s, m)
  {
    match m
    case Thread(i, call, fail) => ThreadStep(s, i, call, fail)
    case DetachedEnds => s.(detached := s.detached - 1, size := s.size - 1)
    case LoopStep(pick, fail) => LoopNext(s, pick, fail)
  }

  // ----- no lost wake-up -----

  function AtFlag(pc: Pc): (n: nat) {
    One(pc.FlagExchange?)
  }

  function AtPipe(pc: Pc): (n: nat) {
    One(pc.PipeWrite?)
  }

  /** The flag is a token: while it is up exactly one party is bringing the loop to the list. */
  ghost predicate FlagKept(s: State) {
    Total(s.pc, AtPipe) + One(s.ready) + One(s.reported) + One(s.loop.Read? || s.loop.FlagReset?) == One(s.flag)
  }

  /** What is in the pipe has been or will be reported, and a report finds something there. */
  ghost predicate PipeKept(s: State) {
    && (s.ready || s.reported ==> s.pipe > 0)
    && (s.pipe > 0 ==> s.ready || s.reported || s.loop.Read?)
    && (s.reported ==> s.loop.Scan?)
  }

  /** An operation is listed only with a producer before its flag exchange, the flag up, or the loop about to take the list. */
  ghost predicate ListKept(s: State) {
    s.list != [] ==> Total(s.pc, AtFlag) > 0 || s.flag || s.loop.PopLoad? || s.loop.PopExchange?
  }

  ghost predicate Kept(s: State) {
    FlagKept(s) && ListKept(s) && PipeKept(s)
  }

  lemma OnlySelf(s: State, i: nat, call: Call, fail: bool)
    requires i < |s.pc|
    ensures var t := ThreadStep(s, i, call, fail);
      |t.pc| == |s.pc| && t.pc == s.pc[i := t.pc[i]] && t.loop == s.loop && t.reported == s.reported
  {
    if s.pc[i].Idle? { CallerOnly(s, i, call, fail); }
  }

  /** Beginning a call touches only the caller, the size and the shutdown flag. */
  lemma CallerOnly(s: State, i: nat, call: Call, fail: bool)
    requires i < |s.pc| && s.pc[i].Idle?
    ensures var t := ThreadStep(s, i, call, fail);
      && t == s.(pc := t.pc, size := t.size, shutdown := t.shutdown)
      && |t.pc| == |s.pc| && t.pc == s.pc[i := t.pc[i]] && !t.pc[i].FlagExchange? && !t.pc[i].PipeWrite?
  {
    assert s.pc[i := s.pc[i]] == s.pc;
  }

  /** A producer's step, by what it does to the flag, the pipe and the list. */
  lemma ThreadSignals(s: State, i: nat, call: Call, fail: bool)
    requires i < |s.pc|
    ensures var t := ThreadStep(s, i, call, fail);
      && |t.pc| == |s.pc|
      && One(t.flag) - One(s.flag) == AtPipe(t.pc[i]) - AtPipe(s.pc[i]) + (if s.pc[i].PipeWrite? then 1 else 0)
      && t.pipe == s.pipe + AtPipe(s.pc[i]) && t.ready == (s.ready || s.pc[i].PipeWrite?)
      && (t.list != s.list ==> t.pc[i].FlagExchange?)
      && (s.pc[i].FlagExchange? ==> t.flag) && (s.flag ==> t.flag)
  {
    if s.pc[i].Idle? {
      CallerOnly(s, i, call, fail);
    } else if s.pc[i].FlagExchange? || s.pc[i].PipeWrite? {
      SignalSignals(s, i, call, fail);
    } else {
      MidCallSignals(s, i, call, fail);
    }
  }

  /** Between pushing and signalling nothing happens to the flag or the pipe. */
  lemma MidCallSignals(s: State, i: nat, call: Call, fail: bool)
    requires i < |s.pc| && !s.pc[i].Idle? && !s.pc[i].FlagExchange? && !s.pc[i].PipeWrite?
    ensures var t := ThreadStep(s, i, call, fail);
      && |t.pc| == |s.pc| && !t.pc[i].PipeWrite? && t.flag == s.flag && t.pipe == s.pipe && t.ready == s.ready
      && (t.list != s.list ==> t.pc[i].FlagExchange?)
  {
    if s.pc[i].PushLoad? || s.pc[i].PushExchange? { PushSignals(s, i, call, fail); }
  }

  lemma PushSignals(s: State, i: nat, call: Call, fail: bool)
    requires i < |s.pc| && (s.pc[i].PushLoad? || s.pc[i].PushExchange?)
    ensures var t := ThreadStep(s, i, call, fail);
      t == s.(pc := t.pc, list := t.list) && |t.pc| == |s.pc| && !t.pc[i].PipeWrite? && (t.list != s.list ==> t.pc[i].FlagExchange?)
  {
  }

  lemma SignalSignals(s: State, i: nat, call: Call, fail: bool)
    requires i < |s.pc| && (s.pc[i].FlagExchange? || s.pc[i].PipeWrite?)
    ensures var t := ThreadStep(s, i, call, fail);
      && |t.pc| == |s.pc| && t.list == s.list
      && One(t.flag) - One(s.flag) == AtPipe(t.pc[i]) - AtPipe(s.pc[i]) + (if s.pc[i].PipeWrite? then 1 else 0)
      && t.pipe == s.pipe + AtPipe(s.pc[i]) && t.ready == (s.ready || s.pc[i].PipeWrite?)
      && (s.pc[i].FlagExchange? ==> t.flag) && (s.flag ==> t.flag)
  {
  }

  lemma ThreadKeeps(s: State, i: nat, call: Call, fail: bool)
    requires i < |s.pc| && Kept(s)
    ensures Kept(ThreadStep(s, i, call, fail))
  {
    var t := ThreadStep(s, i, call, fail);
    OnlySelf(s, i, call, fail);
    ThreadSignals(s, i, call, fail);
    TotalUpdate(s.pc, i, t.pc[i], AtPipe);
    TotalUpdate(s.pc, i, t.pc[i], AtFlag);
  }

  lemma LoopKeeps(s: State, pick: Pick, fail: bool)
    requires Enabled(s, LoopStep(pick, fail)) && Kept(s)
    ensures Kept(LoopNext(s, pick, fail))
  {
    if s.loop.Fetch? || s.loop.Scan? || s.loop.Read? || s.loop.FlagReset? {
      HandlerKeeps(s, pick, fail);
    } else {
      PlainTurn(s, pick, fail);
    }
  }

  /** Fetching a batch, coming to the pipe's event, draining the pipe, lowering the flag. */
  lemma HandlerKeeps(s: State, pick: Pick, fail: bool)
    requires Enabled(s, LoopStep(pick, fail)) && Kept(s) && (s.loop.Fetch? || s.loop.Scan? || s.loop.Read? || s.loop.FlagReset?)
    ensures Kept(LoopNext(s, pick, fail))
  {
  }

  lemma PlainTurn(s: State, pick: Pick, fail: bool)
    requires Enabled(s, LoopStep(pick, fail)) && !(s.loop.Fetch? || s.loop.Scan? || s.loop.Read? || s.loop.FlagReset?)
    ensures var t := LoopNext(s, pick, fail);
      && t == s.(list := t.list, handles := t.handles, size := t.size, loop := t.loop)
      && !t.loop.Read? && !t.loop.FlagReset? && (t.loop.Scan? ==> !s.loop.Scan?)
      && (t.list == [] || (t.list == s.list && (s.loop.PopLoad? || s.loop.PopExchange? ==> t.loop.PopExchange?)))
  {
  }

  lemma NextKeeps(s: State, m: Move)
    requires Enabled(s, m) && Kept(s)
    ensures Kept(Next(s, m))
  {
    match m
    case Thread(i, call, fail) => ThreadKeeps(s, i, call, fail);
    case DetachedEnds =>
    case LoopStep(pick, fail) => LoopKeeps(s, pick, fail);
  }

  // ----- live-task accounting -----

  /** What a thread has counted and not yet handed on. */
  function Weight(pc: Pc): (n: nat) {
    match pc
    case PushLoad(_) => 1
    case PushExchange(_, _) => 1
    case SpawnCheck(_) => 1
    case PollRegister => 1
    case _ => 0
  }

  function InFlight(pc: seq<Pc>): (n: nat) {
    Total(pc, Weight)
  }

  /** Everything handed on that is still to be run, resumed or finished. */
  function HandedOn(s: State): (n: nat) {
    |s.list| + s.polls + s.detached + s.handles
  }

  function Outstanding(s: State): (n: nat) {
    HandedOn(s) + InFlight(s.pc)
  }

  lemma ThreadTally(s: State, i: nat, call: Call, fail: bool)
    requires i < |s.pc|
    ensures var t := ThreadStep(s, i, call, fail);
      t.size - s.size == HandedOn(t) - HandedOn(s) + t.leaked - s.leaked + Weight(t.pc[i]) - Weight(s.pc[i])
  {
    if s.pc[i].Idle? {
      BeginTally(s, i, call, fail);
    } else if s.pc[i].PushLoad? || s.pc[i].PushExchange? {
      PushTally(s, i, call, fail);
    } else {
      LaterTally(s, i, call, fail);
    }
  }

  lemma PushTally(s: State, i: nat, call: Call, fail: bool)
    requires i < |s.pc| && (s.pc[i].PushLoad? || s.pc[i].PushExchange?)
    ensures var t := ThreadStep(s, i, call, fail);
      t.size == s.size && t.leaked == s.leaked && HandedOn(t) + Weight(t.pc[i]) == HandedOn(s) + Weight(s.pc[i])
  {
  }

  lemma LaterTally(s: State, i: nat, call: Call, fail: bool)
    requires i < |s.pc| && !s.pc[i].Idle? && !s.pc[i].PushLoad? && !s.pc[i].PushExchange?
    ensures var t := ThreadStep(s, i, call, fail);
      t.size - s.size == HandedOn(t) - HandedOn(s) + t.leaked - s.leaked + Weight(t.pc[i]) - Weight(s.pc[i])
  {
  }

  lemma BeginTally(s: State, i: nat, call: Call, fail: bool)
    requires i < |s.pc| && s.pc[i].Idle?
    ensures var t := ThreadStep(s, i, call, fail);
      t.size - s.size == Weight(t.pc[i]) && HandedOn(t) == HandedOn(s) && t.leaked == s.leaked
  {
  }

  lemma LoopTally(s: State, pick: Pick, fail: bool)
    requires Enabled(s, LoopStep(pick, fail))
    ensures var t := LoopNext(s, pick, fail);
      t.pc == s.pc && t.leaked == s.leaked && t.size - s.size == HandedOn(t) - HandedOn(s)
  {
    if s.loop.Scan? || s.loop.PopExchange? || s.loop.Resume? { LoopCollects(s, pick, fail); } else { LoopTurns(s, pick, fail); }
  }

  lemma LoopCollects(s: State, pick: Pick, fail: bool)
    requires Enabled(s, LoopStep(pick, fail)) && (s.loop.Scan? || s.loop.PopExchange? || s.loop.Resume?)
    ensures var t := LoopNext(s, pick, fail);
      t.pc == s.pc && t.leaked == s.leaked && t.size - s.size == HandedOn(t) - HandedOn(s)
  {
  }

  /** Steps that only look, read or signal. */
  lemma LoopTurns(s: State, pick: Pick, fail: bool)
    requires Enabled(s, LoopStep(pick, fail)) && !s.loop.Scan? && !s.loop.PopExchange? && !s.loop.Resume?
    ensures var t := LoopNext(s, pick, fail);
      t == s.(flag := t.flag, pipe := t.pipe, ready := t.ready, reported := t.reported, loop := t.loop)
  {
  }

  lemma NextCounts(s: State, m: Move)
    requires Enabled(s, m) && s.size == Outstanding(s) + s.leaked
    ensures Next(s, m).size == Outstanding(Next(s, m)) + Next(s, m).leaked
  {
    match m
    case Thread(i, call, fail) =>
      ThreadTally(s, i, call, fail);
      OnlySelf(s, i, call, fail);
      TotalUpdate(s.pc, i, Next(s, m).pc[i], Weight);
    case DetachedEnds =>
    case LoopStep(pick, fail) => LoopTally(s, pick, fail);
  }

  // ----- whole runs -----

  ghost predicate Legal(s: State, ms: seq<Move>)
    decreases |ms|
  {
    ms == [] || (Enabled(s, ms[0]) && Legal(Next(s, ms[0]), ms[1..]))
  }

  function Exec(s: State, ms: seq<Move>): (t: State)
    requires Legal(s, ms)
    decreases |ms|
  {
    if ms == [] then s else Exec(Next(s, ms[0]), ms[1..])
  }

  lemma {:induction false} RunKeeps(s: State, ms: seq<Move>)
    requires Legal(s, ms) && Kept(s) && s.size == Outstanding(s) + s.leaked
    ensures var t := Exec(s, ms); Kept(t) && t.size == Outstanding(t) + t.leaked
    decreases |ms|
  {
    if ms != [] {
      NextKeeps(s, ms[0]);
      NextCounts(s, ms[0]);
      RunKeeps(Next(s, ms[0]), ms[1..]);
    }
  }

  /** A producer has pushed and has still to try the flag or to write the pipe. */
  ghost predicate ProducerDue(pc: seq<Pc>) {
    exists i :: 0 <= i < |pc| && (pc[i].FlagExchange? || pc[i].PipeWrite?)
  }

  lemma {:induction false} SomeoneDue(pc: seq<Pc>)
    requires Total(pc, AtFlag) > 0 || Total(pc, AtPipe) > 0
    ensures ProducerDue(pc)
  {
    TotalZero(pc, AtFlag);
    TotalZero(pc, AtPipe);
    var i :| 0 <= i < |pc| && (AtFlag(pc[i]) != 0 || AtPipe(pc[i]) != 0);
  }

  lemma RunFromInit(s: State, ms: seq<Move>)
    requires Init(s) && Legal(s, ms)
    ensures var t := Exec(s, ms); Kept(t) && t.size == Outstanding(t) + t.leaked
  {
    TotalZero(s.pc, Weight);
    TotalZero(s.pc, AtFlag);
    TotalZero(s.pc, AtPipe);
    RunKeeps(s, ms);
  }

  /**
   * Over every run: with the list non-empty a producer is before its flag exchange or pipe write,
   * or the pipe holds data, or the loop is between draining the pipe and taking the list. Data in
   * the pipe is always still to be reported, reported, or being read. So with nobody about, an
   * empty pipe and the loop not at the list, the list is empty and the flag is down.
   */
  lemma NoLostWakeUp(s: State, ms: seq<Move>)
    requires Init(s) && Legal(s, ms)
    ensures var t := Exec(s, ms);
      && (t.list != [] ==>
            ProducerDue(t.pc) || t.pipe > 0 || t.loop.Read? || t.loop.FlagReset? || t.loop.PopLoad? || t.loop.PopExchange?)
      && (t.pipe > 0 ==> t.ready || t.reported || t.loop.Read?)
      && (!ProducerDue(t.pc) && t.pipe == 0 && !(t.loop.Read? || t.loop.FlagReset? || t.loop.PopLoad? || t.loop.PopExchange?)
          ==> t.list == [] && !t.flag)
  {
    RunFromInit(s, ms);
    var t := Exec(s, ms);
    if Total(t.pc, AtFlag) > 0 || Total(t.pc, AtPipe) > 0 { SomeoneDue(t.pc); }
  }

  /**
   * Over every run the size counts exactly what is outstanding plus what refused spawns left
   * behind; so the dedicated loop exits only when nothing is outstanding, and never after a
   * refused spawn.
   */
  lemma ExitMeansDone(s: State, ms: seq<Move>, pick: Pick, fail: bool)
    requires Init(s) && Legal(s, ms)
    ensures Exec(s, ms).size == Outstanding(Exec(s, ms)) + Exec(s, ms).leaked
    ensures var t := Exec(s, ms);
      t.loop.HeadSize? && LoopNext(t, pick, fail).loop.Exited?
      ==> t.list == [] && t.polls == t.detached == t.handles == t.leaked == 0 && forall i :: 0 <= i < |t.pc| ==> Weight(t.pc[i]) == 0
  {
    RunFromInit(s, ms);
    TotalZero(Exec(s, ms).pc, Weight);
  }

  // ----- operations are resumed in the order they were scheduled -----

  function Pushed(s: State, m: Move): (ops: seq<Op>)
    requires Enabled(s, m)
  {
    if m.Thread? && s.pc[m.id].PushExchange? && First(s.list) == s.pc[m.id].seen && !m.fail then [s.pc[m.id].op] else []
  }

  /** What the loop takes and turns around. */
  function Collected(s: State, m: Move): (ops: seq<Op>)
    requires Enabled(s, m)
  {
    if m.LoopStep? && s.loop.PopExchange? && First(s.list) == s.loop.seen && !m.fail then Rev(s.list) else []
  }

  function AllPushed(s: State, ms: seq<Move>): (ops: seq<Op>)
    requires Legal(s, ms)
    decreases |ms|
  {
    if ms == [] then [] else Pushed(s, ms[0]) + AllPushed(Next(s, ms[0]), ms[1..])
  }

  function AllCollected(s: State, ms: seq<Move>): (ops: seq<Op>)
    requires Legal(s, ms)
    decreases |ms|
  {
    if ms == [] then [] else Collected(s, ms[0]) + AllCollected(Next(s, ms[0]), ms[1..])
  }

  lemma RevPushFront(op: Op, l: seq<Op>)
    ensures Rev([op] + l) == Rev(l) + [op]
  {
  }

  lemma ThreadOrder(s: State, i: nat, call: Call, fail: bool)
    requires i < |s.pc|
    ensures Rev(s.list) + Pushed(s, Thread(i, call, fail)) == Rev(ThreadStep(s, i, call, fail).list)
  {
    if Pushed(s, Thread(i, call, fail)) != [] {
      RevPushFront(s.pc[i].op, s.list);
    } else {
      ListUntouched(s, i, call, fail);
    }
  }

  lemma ListUntouched(s: State, i: nat, call: Call, fail: bool)
    requires i < |s.pc| && Pushed(s, Thread(i, call, fail)) == []
    ensures ThreadStep(s, i, call, fail).list == s.list
  {
  }

  lemma NextOrder(s: State, m: Move)
    requires Enabled(s, m)
    ensures Rev(s.list) + Pushed(s, m) == Collected(s, m) + Rev(Next(s, m).list)
  {
    match m
    case Thread(i, call, fail) => ThreadOrder(s, i, call, fail);
    case DetachedEnds =>
    case LoopStep(pick, fail) => LoopOrder(s, pick, fail);
  }

  lemma LoopOrder(s: State, pick: Pick, fail: bool)
    requires Enabled(s, LoopStep(pick, fail))
    ensures Rev(s.list) == Collected(s, LoopStep(pick, fail)) + Rev(LoopNext(s, pick, fail).list)
  {
    if Collected(s, LoopStep(pick, fail)) == [] { assert LoopNext(s, pick, fail).list == s.list; }
  }

  lemma {:induction false} RunOrder(s: State, ms: seq<Move>)
    requires Legal(s, ms)
    ensures Rev(s.list) + AllPushed(s, ms) == AllCollected(s, ms) + Rev(Exec(s, ms).list)
    decreases |ms|
  {
    if ms != [] {
      NextOrder(s, ms[0]);
      var t := Next(s, ms[0]);
      RunOrder(t, ms[1..]);
      Chained(Rev(s.list), Pushed(s, ms[0]), Collected(s, ms[0]), Rev(t.list), AllPushed(t, ms[1..]), AllCollected(t, ms[1..]),
              Rev(Exec(s, ms).list));
    }
  }

  /** Over every run the loop collects the scheduled operations once each, oldest first. */
  lemma ScheduledInOrder(s: State, ms: seq<Move>)
    requires Init(s) && Legal(s, ms)
    ensures AllPushed(s, ms) == AllCollected(s, ms) + Rev(Exec(s, ms).list)
  {
    RunOrder(s, ms);
    EmptyFront(Rev(s.list), AllPushed(s, ms));
  }

  // ----- after the loop has exited nobody looks at the list -----

  /** An operation is pushed when the loop is no longer there to take it. */
  ghost predicate Late(s: State, m: Move)
    requires Enabled(s, m)
  {
    s.loop.Exited? && Pushed(s, m) != []
  }

  ghost predicate RunOnTime(s: State, ms: seq<Move>)
    requires Legal(s, ms)
    decreases |ms|
  {
    ms != [] ==> !Late(s, ms[0]) && RunOnTime(Next(s, ms[0]), ms[1..])
  }

  lemma ExitedForGood(s: State, m: Move)
    requires Enabled(s, m) && s.loop.Exited?
    ensures Next(s, m).loop.Exited? && |Next(s, m).list| == |s.list| + |Pushed(s, m)|
  {
    if m.Thread? { OnlySelf(s, m.id, m.call, m.fail); }
  }

  /** The loop exits only over an empty list. */
  lemma ExitsOverEmpty(s: State, m: Move)
    requires Enabled(s, m) && s.size == Outstanding(s) + s.leaked && !s.loop.Exited? && Next(s, m).loop.Exited?
    ensures Next(s, m).list == []
  {
    if m.Thread? { OnlySelf(s, m.id, m.call, m.fail); }
  }

  lemma {:induction false} ListAfterExit(s: State, ms: seq<Move>)
    requires Legal(s, ms) && s.size == Outstanding(s) + s.leaked && (s.loop.Exited? ==> s.list == []) && Exec(s, ms).loop.Exited?
    ensures Exec(s, ms).list == [] <==> RunOnTime(s, ms)
    decreases |ms|
  {
    if ms != [] {
      NextCounts(s, ms[0]);
      if s.loop.Exited? { ExitedForGood(s, ms[0]); }
      if Late(s, ms[0]) {
        StrandedForGood(Next(s, ms[0]), ms[1..]);
      } else {
        if !s.loop.Exited? && Next(s, ms[0]).loop.Exited? { ExitsOverEmpty(s, ms[0]); }
        ListAfterExit(Next(s, ms[0]), ms[1..]);
      }
    }
  }

  lemma {:induction false} StrandedForGood(s: State, ms: seq<Move>)
    requires Legal(s, ms) && s.loop.Exited? && s.list != []
    ensures Exec(s, ms).list != []
    decreases |ms|
  {
    if ms != [] {
      ExitedForGood(s, ms[0]);
      StrandedForGood(Next(s, ms[0]), ms[1..]);
    }
  }

  /**
   * Scheduling does not look at the shutdown flag. Once the dedicated loop has exited, the list is
   * empty exactly if nothing was pushed after the exit.
   */
  lemma DoneIffOnTime(s: State, ms: seq<Move>)
    requires Init(s) && Legal(s, ms) && Exec(s, ms).loop.Exited?
    ensures Exec(s, ms).list == [] <==> RunOnTime(s, ms)
  {
    TotalZero(s.pc, Weight);
    ListAfterExit(s, ms);
  }

  lemma ThenRun(s: State, ms: seq<Move>, m: Move)
    requires Enabled(s, m) && Legal(Next(s, m), ms)
    ensures Legal(s, [m] + ms) && Exec(s, [m] + ms) == Exec(Next(s, m), ms)
  {
    assert ([m] + ms)[1..] == ms;
  }

  /** A call to schedule from start to end, with nobody interfering. */
  lemma SchedulesAlone(s: State) returns (ms: seq<Move>)
    requires s.pc == [Idle] && s.list == [] && !s.flag && s.loop.Exited?
    ensures Legal(s, ms) && Exec(s, ms).list == [7] && Exec(s, ms).pc == [Idle] && Exec(s, ms).loop.Exited?
  {
    var go := Thread(0, DoSchedule(7), false);
    var s1 := Next(s, go);
    var s2 := Next(s1, go);
    var s3 := Next(s2, go);
    var s4 := Next(s3, go);
    var s5 := Next(s4, go);
    assert s1.pc == [PushLoad(7)] && s2.pc == [PushExchange(7, None)] && s3.pc == [FlagExchange] && s4.pc == [PipeWrite] && s5.pc == [Idle];
    assert s5.list == [7] + [];
    ms := [];
    ThenRun(s4, ms, go);
    ms := [go] + ms;
    ThenRun(s3, ms, go);
    ms := [go] + ms;
    ThenRun(s2, ms, go);
    ms := [go] + ms;
    ThenRun(s1, ms, go);
    ms := [go] + ms;
    ThenRun(s, ms, go);
    ms := [go] + ms;
  }

  /** The condition can fail: an operation scheduled after the loop's exit stays listed with every thread idle. */
  lemma LateOpHappens() returns (s: State, ms: seq<Move>)
    ensures Init(s) && Legal(s, ms)
    ensures Exec(s, ms).loop.Exited? && Exec(s, ms).list == [7] && Exec(s, ms).pc == [Idle]
  {
    s := State([], false, 0, false, false, 0, 0, 0, 0, 0, false, Head, [Idle]);
    var stop, turn := Thread(0, DoShutdown, false), LoopStep(BatchDone, false);
    var s1 := Next(s, stop);
    var s2 := Next(s1, turn);
    var s3 := Next(s2, turn);
    ms := SchedulesAlone(s3);
    ThenRun(s2, ms, turn);
    ms := [turn] + ms;
    ThenRun(s1, ms, turn);
    ms := [turn] + ms;
    ThenRun(s, ms, stop);
    ms := [stop] + ms;
  }
}
