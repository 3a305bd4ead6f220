/**
 * Which handles `coro::thread_pool` queues for its callers (src/thread_pool.cpp:51-95, 172-184,
 * include/coro/thread_pool.hpp:178-219), and when its workers and its shutdown are done.
 */
module ThreadPoolAnswers {
  import opened Prelude
  import opened ThreadPool

  // ----- the handles of a range -----

  /** `Present` drops the nulls and keeps the rest in order: these three laws leave no other choice. */
  lemma {:induction false} PresentAdd(a: seq<Option<Handle>>, b: seq<Option<Handle>>)
    ensures Present(a + b) == Present(a) + Present(b)
  {
    if a == [] {
      assert a + b == b;
    } else {
      assert (a + b)[0] == a[0] && (a + b)[1..] == a[1..] + b;
      PresentAdd(a[1..], b);
    }
  }

  lemma PresentOne(x: Option<Handle>)
    ensures Present([x]) == if x.Some? then [x.value] else []
  {
    assert [x][1..] == [];
  }

  /** The k-th handle of a range enters at the place given by the handles before it. */
  lemma PresentAt(hs: seq<Option<Handle>>, k: nat)
    requires k < |hs| && hs[k].Some?
    ensures |Present(hs[..k])| < |Present(hs)| && Present(hs)[|Present(hs[..k])|] == hs[k].value
  {
    assert hs == hs[..k] + ([hs[k]] + hs[k + 1..]);
    PresentAdd(hs[..k], [hs[k]] + hs[k + 1..]);
    PresentAdd([hs[k]], hs[k + 1..]);
    PresentOne(hs[k]);
  }

  // ----- what a call asks to be queued, and what comes of it -----

  /** Handles a caller asks for by beginning a call in this step. */
  function Asked(s: State, m: Move, i: Id): (hs: seq<Handle>)
    requires i < |s.agents|
  {
    if !m.CallStep? || m.id != i || !s.agents[i].call.NoCall? then []
    else
      match m.ask
      case AskSchedule(h) => [h]
      case AskResume(h) => if h.Some? then [h.value] else []
      case AskSpawn(h) => [h]
      case AskRange(hs) => Present(hs)
      case AskShutdown => []
  }

  /** Handles of a call that is not yet decided. */
  function Carried(c: Call): (hs: seq<Handle>) {
    match c
    case ScheduleFlag(h) => [h]
    case ResumeFlag(h) => [h]
    case SpawnCount(h) => [h]
    case SpawnFlag(h) => [h]
    case Enqueue(h) => [h]
    case RangeEnqueue(hs) => Present(hs)
    case _ => []
  }

  /** What the step puts behind the queue. */
  ghost function Entered(s: State, m: Move): (hs: seq<Handle>)
    requires Enabled(s, m)
  {
    var q := Next(s, m).queue;
    if |s.queue| <= |q| && s.queue <= q then q[|s.queue|..] else []
  }

  /** A call that sees the shutdown flag before it has queued its handle. */
  function Turned(s: State, m: Move, i: Id): (hs: seq<Handle>)
    requires i < |s.agents|
  {
    if !m.CallStep? || m.id != i || !s.shut then []
    else
      match s.agents[i].call
      case ScheduleFlag(h) => [h]
      case ResumeFlag(h) => [h]
      case SpawnFlag(h) => [h]
      case _ => []
  }

  datatype Fate = In(h: Handle) | Out(h: Handle)

  function Ins(hs: seq<Handle>): (fs: seq<Fate>) {
    seq(|hs|, k requires 0 <= k < |hs| => In(hs[k]))
  }

  function Outs(hs: seq<Handle>): (fs: seq<Fate>) {
    seq(|hs|, k requires 0 <= k < |hs| => Out(hs[k]))
  }

  /** What happens in this step to handles asked for by task `i`: queued, or turned away by the flag. */
  ghost function Fates(s: State, m: Move, i: Id): (fs: seq<Fate>)
    requires Enabled(s, m) && i < |s.agents|
  {
    (if m.CallStep? && m.id == i then Ins(Entered(s, m)) else []) + Outs(Turned(s, m, i))
  }

  function Handles(fs: seq<Fate>): (hs: seq<Handle>) {
    seq(|fs|, k requires 0 <= k < |fs| => fs[k].h)
  }

  /** The queue grows at its end by a caller's handles and shrinks at its front by a worker's pop; `entered` records the former. */
  lemma QueueMoves(s: State, m: Move)
    requires Enabled(s, m)
    ensures Next(s, m).entered == s.entered + Entered(s, m)
    ensures m.CallStep? ==> Entered(s, m) == Pushed(s, m.id)
  {
    match m
    case CallStep(i, ask, wake) =>
      CallPushes(s, i, ask, wake);
      assert (s.queue + Pushed(s, i))[|s.queue|..] == Pushed(s, i);
    case WorkStep(i) =>
      WorkQueue(s, i);
    case DetachedEnds =>
      assert s.queue[|s.queue|..] == [];
  }

  lemma WorkQueue(s: State, i: Id)
    requires i < |s.agents|
    ensures var t := WorkNext(s, i); t.entered == s.entered && (t.queue == s.queue || (s.queue != [] && t.queue == s.queue[1..]))
  {
  }

  lemma BeginFates(s: State, i: Id, ask: Request, wake: Id)
    requires i < |s.agents| && s.agents[i].call.NoCall?
    ensures i < |CallCore(s, i, ask).agents| && Carried(CallCore(s, i, ask).agents[i].call) == Asked(s, CallStep(i, ask, wake), i)
  {
  }

  lemma FlagFates(s: State, i: Id, ask: Request, wake: Id)
    requires i < |s.agents| && !s.agents[i].call.NoCall? && !s.agents[i].call.Enqueue? && !s.agents[i].call.RangeEnqueue?
    ensures var t, out := CallCore(s, i, ask), Turned(s, CallStep(i, ask, wake), i);
      i < |t.agents| && (if out == [] then Carried(t.agents[i].call) == Carried(s.agents[i].call)
        else out == Carried(s.agents[i].call) && Carried(t.agents[i].call) == [])
  {
  }

  lemma SectionFates(s: State, i: Id, ask: Request)
    requires i < |s.agents| && (s.agents[i].call.Enqueue? || s.agents[i].call.RangeEnqueue?)
    ensures var t := CallCore(s, i, ask);
      i < |t.agents| && (if s.owner.Some? then Carried(t.agents[i].call) == Carried(s.agents[i].call) && Pushed(s, i) == []
        else Pushed(s, i) == Carried(s.agents[i].call) && Carried(t.agents[i].call) == [])
  {
  }

  lemma OwnFates(s: State, i: Id, ask: Request, wake: Id)
    requires Enabled(s, CallStep(i, ask, wake))
    ensures var m, t := CallStep(i, ask, wake), CallCore(s, i, ask);
      i < |t.agents| && Carried(s.agents[i].call) + Asked(s, m, i) == Pushed(s, i) + Turned(s, m, i) + Carried(t.agents[i].call)
  {
    var c := s.agents[i].call;
    if c.NoCall? {
      BeginFates(s, i, ask, wake);
    } else if c.Enqueue? || c.RangeEnqueue? {
      SectionFates(s, i, ask);
    } else {
      FlagFates(s, i, ask, wake);
    }
  }

  lemma StepFates(s: State, m: Move, i: Id)
    requires Enabled(s, m) && i < |s.agents|
    ensures i < |Next(s, m).agents|
    ensures Carried(s.agents[i].call) + Asked(s, m, i) == Handles(Fates(s, m, i)) + Carried(Next(s, m).agents[i].call)
  {
    QueueMoves(s, m);
    if m.CallStep? && m.id == i {
      OnlyCaller(s, i, m.ask);
      OwnFates(s, i, m.ask, m.wake);
      assert Next(s, m).agents[i].call == CallCore(s, i, m.ask).agents[i].call;
      assert Handles(Fates(s, m, i)) == Pushed(s, i) + Turned(s, m, i);
    } else {
      if m.WorkStep? && m.id == i { WorkKeepsCall(s, i); } else { Bystander(s, m, i); }
      assert Fates(s, m, i) == [];
    }
  }

  lemma WorkKeepsCall(s: State, i: Id)
    requires i < |s.agents|
    ensures |WorkNext(s, i).agents| == |s.agents| && WorkNext(s, i).agents[i].call == s.agents[i].call
  {
  }

  // ----- whole runs -----

  /** All that task `i` asked for in a run, and what came of it, in order. */
  ghost function AllAsked(s: State, ms: seq<Move>, i: Id): (hs: seq<Handle>)
    requires Legal(s, ms) && i < |s.agents|
    decreases |ms|
  {
    if ms == [] then [] else StepFates(s, ms[0], i); Asked(s, ms[0], i) + AllAsked(Next(s, ms[0]), ms[1..], i)
  }

  ghost function AllFates(s: State, ms: seq<Move>, i: Id): (fs: seq<Fate>)
    requires Legal(s, ms) && i < |s.agents|
    decreases |ms|
  {
    if ms == [] then [] else StepFates(s, ms[0], i); Fates(s, ms[0], i) + AllFates(Next(s, ms[0]), ms[1..], i)
  }

  ghost function AllEntered(s: State, ms: seq<Move>): (hs: seq<Handle>)
    requires Legal(s, ms)
    decreases |ms|
  {
    if ms == [] then [] else Entered(s, ms[0]) + AllEntered(Next(s, ms[0]), ms[1..])
  }

  lemma HandlesAdd(a: seq<Fate>, b: seq<Fate>)
    ensures Handles(a + b) == Handles(a) + Handles(b)
  {
  }

  lemma {:induction false} RunFates(s: State, ms: seq<Move>, i: Id)
    requires Legal(s, ms) && i < |s.agents|
    ensures i < |Exec(s, ms).agents|
    ensures Carried(s.agents[i].call) + AllAsked(s, ms, i) == Handles(AllFates(s, ms, i)) + Carried(Exec(s, ms).agents[i].call)
    decreases |ms|
  {
    if ms == [] {
      assert Carried(s.agents[i].call) + [] == [] + Carried(s.agents[i].call);
    } else {
      var t := Next(s, ms[0]);
      StepFates(s, ms[0], i);
      RunFates(t, ms[1..], i);
      HandlesAdd(Fates(s, ms[0], i), AllFates(t, ms[1..], i));
      Chained(Carried(s.agents[i].call), Asked(s, ms[0], i), Handles(Fates(s, ms[0], i)), Carried(t.agents[i].call),
              AllAsked(t, ms[1..], i), Handles(AllFates(t, ms[1..], i)), Carried(Exec(s, ms).agents[i].call));
    }
  }

  lemma {:induction false} RunEntered(s: State, ms: seq<Move>)
    requires Legal(s, ms)
    ensures Exec(s, ms).entered == s.entered + AllEntered(s, ms)
    decreases |ms|
  {
    if ms == [] {
      assert s.entered + [] == s.entered;
    } else {
      QueueMoves(s, ms[0]);
      RunEntered(Next(s, ms[0]), ms[1..]);
      Assoc(s.entered, Entered(s, ms[0]), AllEntered(Next(s, ms[0]), ms[1..]));
    }
  }

  /**
   * Over every run: the handles that entered are, in the order of their sections, those put behind
   * the queue; and every handle a task asked for, in the order asked, was put there or turned away by
   * the shutdown flag, but for those of the call it is in. Of a range all handles but the nulls are
   * asked for, in order.
   */
  lemma HandlesAskedAreQueued(s: State, ms: seq<Move>, i: Id)
    requires Init(s) && Legal(s, ms) && i < |s.agents|
    ensures i < |Exec(s, ms).agents| && Exec(s, ms).entered == AllEntered(s, ms)
    ensures AllAsked(s, ms, i) == Handles(AllFates(s, ms, i)) + Carried(Exec(s, ms).agents[i].call)
  {
    RunFates(s, ms, i);
    RunEntered(s, ms);
    assert s.agents[i].call.NoCall?;
    EmptyFront(s.entered, AllEntered(s, ms));
    EmptyFront(Carried(s.agents[i].call), AllAsked(s, ms, i));
  }

  // ----- leaving -----

  /** Shutdown returns only when every worker has exited; a second call returns at once. */
  lemma ShutdownReturns(s: State, i: Id, ask: Request, wake: Id)
    requires Enabled(s, CallStep(i, ask, wake)) && i < |CallNext(s, i, ask, wake).agents|
    ensures s.agents[i].call.ShutJoin? ==> (CallNext(s, i, ask, wake).agents[i].call.NoCall? <==> AllExited(s.agents))
    ensures s.agents[i].call.NoCall? && ask.AskShutdown? ==>
      CallNext(s, i, ask, wake).shut && (s.shut ==> CallNext(s, i, ask, wake).agents[i].call.NoCall?)
  {
    OnlyCaller(s, i, ask);
  }
}
