/**
 * What notifying a `coro::condition_variable` brings about (src/condition_variable.cpp:38-251,
 * include/coro/condition_variable.hpp:223-287): a wait that is told ready comes back, one that is not
 * goes back on the list, and a notify returns only when it has done what it is for.
 */
module ConditionVariableAnswers {
  import opened Prelude
  import opened Rosters
  import opened ConditionVariable

  // ----- told ready means decided, and decided means resumed -----

  /** The converse of `DecidedByAsking`. */
  lemma AskedReadyDecides(s: State, m: Move, w: Id, c: Cause)
    requires Inv(s) && Possible(s, m) && w < |s.wait| && AsksReady(s, m, w, c)
    ensures Sized(Next(s, m)) && |Next(s, m).wait| == |s.wait| && Decided(Next(s, m), w, c)
  {
    HolderKnows(s, m.n);
  }

  /** A notifier at work on wait `w` asks whether it is ready. */
  predicate Asks(s: State, m: Move, w: Id) {
    m.NotifierStep? && m.n < |s.notifier| && s.notifier[m.n].On? && s.notifier[m.n].w == w && s.notifier[m.n].stage.Ask?
  }

  /** Notifier `n` has found wait `w` not ready and is on its way to putting it back. */
  predicate Rejected(s: State, n: Id, w: Id) {
    n < |s.notifier| && s.notifier[n].On? && s.notifier[n].w == w
    && (s.notifier[n].stage.NotReady? || s.notifier[n].stage.ReleaseEvent? || s.notifier[n].stage.PushBack?)
  }

  /** And one that is told ready for no cause decides nothing. */
  lemma AskedNotReady(s: State, m: Move, w: Id)
    requires Inv(s) && Possible(s, m) && w < |s.wait| && Asks(s, m, w) && forall c :: !AsksReady(s, m, w, c)
    ensures Sized(Next(s, m)) && |Next(s, m).wait| == |s.wait| && (forall c :: !Decided(Next(s, m), w, c))
    ensures Rejected(Next(s, m), m.n, w)
  {
    HolderKnows(s, m.n);
    assert !AsksReady(s, m, w, NoPredicate) && !AsksReady(s, m, w, PredicateTrue) && !AsksReady(s, m, w, StopRequested);
  }

  /** Steps still to be made before a decided or timed-out wait is back. */
  function Left(s: State, w: Id): (n: nat)
    requires |s.kind| == |s.wait| == |s.hook| == |s.place| && w < |s.wait|
  {
    var h := s.hook[w];
    if IsBack(s.wait[w]) then 0
    else if h.timedOut then (if h.timer.Claimed? then 3 else if h.timer.WantsMutex? then 2 else 1)
    else if s.place[w].With? && s.place[w].t < |s.notifier| && s.notifier[s.place[w].t].On? then
      var stage := s.notifier[s.place[w].t].stage;
      if stage.ClaimedIt? then 3 else if stage.Signal? then 2 else 1
    else 1
  }

  /** A step of whoever has to make the next one; the timeout task needs the mutex to be free for its second. */
  predicate Drives(s: State, m: Move, w: Id)
    requires |s.kind| == |s.wait| == |s.hook| == |s.place| && w < |s.wait|
  {
    var h := s.hook[w];
    if IsBack(s.wait[w]) then false
    else if h.timedOut then m.TimerStep? && m.w == w && (h.timer.WantsMutex? ==> s.owner.Free?)
    else if s.place[w].With? then m.NotifierStep? && m.n == s.place[w].t
    else m.CallbackStep? && m.w == w
  }

  /** The wait is back, or a notification or its timeout has settled that it will be. */
  ghost predicate Returning(s: State, w: Id)
    requires Sized(s) && w < |s.wait|
  {
    if IsBack(s.wait[w]) then true
    else if s.kind[w].timed then s.wait[w].Suspended? && s.hook[w].completed
    else
      && s.place[w].With? && s.place[w].t < |s.notifier|
      && var p := s.notifier[s.place[w].t]; p.On? && p.w == w && p.stage.Go?
  }

  /** What a step does to a wait that is on its way back. */
  ghost predicate Advances(s: State, m: Move, t: State, w: Id)
    requires Sized(s) && w < |s.wait|
  {
    Sized(t) && |t.wait| == |s.wait| && Returning(t, w) && Left(t, w) == Left(s, w) - One(Drives(s, m, w))
  }

  lemma OnAdvances(s: State, n: Id, holds: bool, stop: bool)
    requires Sized(s) && n < |s.notifier| && s.notifier[n].On? && s.notifier[n].w < |s.wait| && Sized(OnNext(s, n, holds, stop))
    requires var w := s.notifier[n].w;
      && s.place[w] == With(n) && StageOk(s, n, w, s.notifier[n].stage) && HookOk(s, w) && NodeOk(s, w) && Returning(s, w)
    ensures Advances(s, NotifierStep(n, false, holds, stop), OnNext(s, n, holds, stop), s.notifier[n].w)
  {
  }

  /** Steps of notifiers that are not at work on this wait. */
  lemma OnLeavesReturning(s: State, n: Id, holds: bool, stop: bool, v: Id)
    requires Sized(s) && n < |s.notifier| && s.notifier[n].On? && s.notifier[n].w < |s.wait| && Sized(OnNext(s, n, holds, stop))
    requires v < |s.wait| && v != s.notifier[n].w && HookOk(s, v) && NodeOk(s, v) && Returning(s, v)
    ensures Advances(s, NotifierStep(n, false, holds, stop), OnNext(s, n, holds, stop), v)
  {
  }

  lemma IdleLeavesReturning(s: State, n: Id, all: bool, holds: bool, stop: bool, v: Id)
    requires Inv(s) && n < |s.notifier| && !s.notifier[n].On? && v < |s.wait| && Sized(NotifierNext(s, n, all, holds, stop))
    requires HookOk(s, v) && NodeOk(s, v) && Returning(s, v)
    ensures Advances(s, NotifierStep(n, all, holds, stop), NotifierNext(s, n, all, holds, stop), v)
  {
  }

  lemma NotifierAdvances(s: State, n: Id, all: bool, holds: bool, stop: bool, w: Id)
    requires Inv(s) && n < |s.notifier| && w < |s.wait| && Returning(s, w) && Sized(NotifierNext(s, n, all, holds, stop))
    ensures Advances(s, NotifierStep(n, all, holds, stop), NotifierNext(s, n, all, holds, stop), w)
  {
    assert HookOk(s, w) && NodeOk(s, w);
    if !s.notifier[n].On? {
      IdleLeavesReturning(s, n, all, holds, stop, w);
    } else {
      HolderKnows(s, n);
      if w == s.notifier[n].w { OnAdvances(s, n, holds, stop); } else { OnLeavesReturning(s, n, holds, stop, w); }
    }
  }

  lemma WaitAdvances(s: State, v: Id, holds: bool, w: Id)
    requires Sized(s) && v < |s.wait| && w < |s.wait| && HookOk(s, v) && HookOk(s, w) && NodeOk(s, w) && Returning(s, w)
    ensures Advances(s, WaitStep(v, holds), WaitNext(s, v, holds), w)
  {
  }

  lemma TimerAdvances(s: State, v: Id, holds: bool, w: Id)
    requires Sized(s) && v < |s.wait| && w < |s.wait| && HookOk(s, v) && HookOk(s, w) && NodeOk(s, w) && Returning(s, w)
    ensures Advances(s, TimerStep(v, holds), TimerNext(s, v, holds), w)
  {
  }

  lemma CallbackAdvances(s: State, v: Id, w: Id)
    requires Inv(s) && v < |s.wait| && w < |s.wait| && Returning(s, w)
    ensures Advances(s, CallbackStep(v), CallbackNext(s, v), w)
  {
    assert HookOk(s, v) && HookOk(s, w) && NodeOk(s, w);
    if s.place[w].With? && s.place[w].t < |s.notifier| && s.notifier[s.place[w].t].On? { HolderKnows(s, s.place[w].t); }
  }

  lemma NextAdvances(s: State, m: Move, w: Id)
    requires Inv(s) && Possible(s, m) && w < |s.wait| && Returning(s, w)
    ensures Advances(s, m, Next(s, m), w)
  {
    NextKeepsInv(s, m);
    assert HookOk(s, w) && NodeOk(s, w);
    match m
    case WaitStep(v, holds) => assert HookOk(s, v); WaitAdvances(s, v, holds, w);
    case TimerStep(v, holds) => assert HookOk(s, v); TimerAdvances(s, v, holds, w);
    case CallbackStep(v) => CallbackAdvances(s, v, w);
    case NotifierStep(n, all, holds, stop) => NotifierAdvances(s, n, all, holds, stop, w);
    case OtherStep =>
  }

  /** How many of the moves of a run bring the wait nearer. */
  function Driven(s: State, ms: seq<Move>, w: Id): (n: nat)
    requires Legal(s, ms) && w < |s.wait|
    decreases |ms|
  {
    if ms == [] then 0
    else
      NextKeepsInv(s, ms[0]); NextSizes(s, ms[0]);
      One(Drives(s, ms[0], w)) + Driven(Next(s, ms[0]), ms[1..], w)
  }

  lemma {:induction false} RunAdvances(s: State, ms: seq<Move>, w: Id)
    requires Legal(s, ms) && w < |s.wait| && Returning(s, w)
    ensures Returning(Exec(s, ms), w) && Left(Exec(s, ms), w) == Left(s, w) - Driven(s, ms, w)
    decreases |ms|
  {
    if ms != [] {
      NextKeepsInv(s, ms[0]);
      NextSizes(s, ms[0]);
      NextAdvances(s, ms[0], w);
      RunAdvances(Next(s, ms[0]), ms[1..], w);
    }
  }

  lemma LeftMeansBack(s: State, w: Id)
    requires Inv(s) && w < |s.wait| && Returning(s, w)
    ensures Left(s, w) <= 3 && (Left(s, w) == 0 <==> IsBack(s.wait[w]))
  {
  }

  /**
   * A wait that is told ready is resumed: whatever else happens, at most three moves of those who
   * have to make them, the notifier and for a timed wait the callback task, bring it back, and no
   * other move delays it.
   */
  lemma ReadyIsResumed(s: State, ms: seq<Move>, m: Move, later: seq<Move>, w: Id, c: Cause)
    requires Init(s) && Legal(s, ms) && w < |s.wait| && Possible(Exec(s, ms), m) && AsksReady(Exec(s, ms), m, w, c)
    requires Legal(Next(Exec(s, ms), m), later)
    ensures var t := Next(Exec(s, ms), m);
      w < |t.wait| && Left(t, w) <= 3 && (Driven(t, later, w) == Left(t, w) <==> IsBack(Exec(t, later).wait[w]))
  {
    var t := Next(Exec(s, ms), m);
    AskedReadyDecides(Exec(s, ms), m, w, c);
    RunAdvances(t, later, w);
    LeftMeansBack(t, w);
    LeftMeansBack(Exec(t, later), w);
  }

  /** A timeout that has claimed a wait brings it back likewise, once it gets the mutex. */
  lemma TimeoutIsResumed(s: State, ms: seq<Move>, m: Move, later: seq<Move>, w: Id)
    requires Init(s) && Legal(s, ms) && w < |s.wait| && Possible(Exec(s, ms), m) && TimerClaims(Exec(s, ms), m, w)
    requires Legal(Next(Exec(s, ms), m), later)
    ensures var t := Next(Exec(s, ms), m);
      w < |t.wait| && Left(t, w) == 3 && (Driven(t, later, w) == 3 <==> IsBack(Exec(t, later).wait[w]))
  {
    var u, t := Exec(s, ms), Next(Exec(s, ms), m);
    NextKeepsInv(u, m);
    assert HookOk(u, w);
    assert Returning(t, w) && Left(t, w) == 3;
    RunAdvances(t, later, w);
    LeftMeansBack(t, w);
    LeftMeansBack(Exec(t, later), w);
  }

  // ----- told not ready means back on the list -----

  /** Moves the notifier needs to put the wait back: unlock, release the event mutex of a timed wait, push. */
  function ToPutBack(stage: Stage, timed: bool): (k: nat) {
    match stage
    case NotReady => if timed then 3 else 2
    case ReleaseEvent => 2
    case _ => 1
  }

  /** A notifier that has rejected a wait keeps it, and comes by its own moves alone to putting it back. */
  lemma RejectedStep(s: State, m: Move, n: Id, w: Id)
    requires Inv(s) && Possible(s, m) && w < |s.wait| && Rejected(s, n, w)
    ensures n < |Next(s, m).notifier|
    ensures !(m.NotifierStep? && m.n == n) ==> Next(s, m).notifier[n] == s.notifier[n]
    ensures m.NotifierStep? && m.n == n && ToPutBack(s.notifier[n].stage, s.kind[w].timed) > 1 ==>
      Rejected(Next(s, m), n, w)
      && ToPutBack(Next(s, m).notifier[n].stage, s.kind[w].timed) == ToPutBack(s.notifier[n].stage, s.kind[w].timed) - 1
    ensures m.NotifierStep? && m.n == n && ToPutBack(s.notifier[n].stage, s.kind[w].timed) == 1 ==> Next(s, m).list == [w] + s.list
    ensures m.NotifierStep? && m.n == n && s.notifier[n].stage.NotReady? ==> Next(s, m).owner.Free?
  {
    HolderKnows(s, n);
    if m.NotifierStep? && s.notifier[m.n].On? { HolderKnows(s, m.n); }
  }

  function MovesOf(ms: seq<Move>, n: Id): (k: nat) {
    if ms == [] then 0 else One(ms[0].NotifierStep? && ms[0].n == n) + MovesOf(ms[1..], n)
  }

  lemma {:induction false} RejectedRun(s: State, ms: seq<Move>, n: Id, w: Id)
    requires Legal(s, ms) && w < |s.wait| && Rejected(s, n, w) && MovesOf(ms, n) < ToPutBack(s.notifier[n].stage, s.kind[w].timed)
    ensures Rejected(Exec(s, ms), n, w)
    ensures ToPutBack(Exec(s, ms).notifier[n].stage, s.kind[w].timed) == ToPutBack(s.notifier[n].stage, s.kind[w].timed) - MovesOf(ms, n)
    decreases |ms|
  {
    if ms != [] {
      NextKeepsInv(s, ms[0]);
      NextSizes(s, ms[0]);
      RejectedStep(s, ms[0], n, w);
      RejectedRun(Next(s, ms[0]), ms[1..], n, w);
    }
  }

  /**
   * A wait that is told ready for no cause goes back: whatever else happens, the notifier that asked
   * lets the mutex go with its next move and puts the wait at the head of the list with its second
   * move, or its third if the wait is timed.
   */
  lemma NotReadyGoesBack(s: State, ms: seq<Move>, m: Move, later: seq<Move>, last: Move, w: Id)
    requires Init(s) && Legal(s, ms) && w < |s.wait| && Possible(Exec(s, ms), m) && Asks(Exec(s, ms), m, w)
    requires (forall c :: !AsksReady(Exec(s, ms), m, w, c)) && Legal(Next(Exec(s, ms), m), later)
    requires MovesOf(later, m.n) == (if s.kind[w].timed then 2 else 1) && last.NotifierStep? && last.n == m.n
    requires Possible(Exec(Next(Exec(s, ms), m), later), last)
    ensures var t := Exec(Next(Exec(s, ms), m), later); Next(t, last).list == [w] + t.list
  {
    var u := Exec(s, ms);
    AskedNotReady(u, m, w);
    HolderKnows(u, m.n);
    var t := Next(u, m);
    RejectedRun(t, later, m.n, w);
    RejectedStep(Exec(t, later), last, m.n, w);
  }

  // ----- when a notify returns -----

  /**
   * A notify_one returns only when the list was empty, when it has settled that a wait comes back, or
   * when it has put one back; a wait that timed out does not use the notification up.
   */
  lemma NotifyOneReturns(s: State, m: Move)
    requires Inv(s) && Possible(s, m) && m.NotifierStep? && !s.notifier[m.n].Idle? && !(s.notifier[m.n].Walk?)
    requires m.n < |Next(s, m).notifier| && Next(s, m).notifier[m.n].Idle?
    ensures (s.notifier[m.n].Single? && s.list == [])
      || (s.notifier[m.n].On? && var w := s.notifier[m.n].w;
          w < |s.wait| && ((Returning(s, w) && !s.hook[w].timedOut) || Next(s, m).list == [w] + s.list))
  {
    if s.notifier[m.n].On? { HolderKnows(s, m.n); }
  }

  /** A notify_all begins with the whole list and returns only when it has dealt with all of it. */
  lemma NotifyAllReturns(s: State, m: Move)
    requires Inv(s) && Possible(s, m) && m.NotifierStep? && m.n < |Next(s, m).notifier|
    ensures s.notifier[m.n].Idle? && m.all ==> Held(Next(s, m).notifier[m.n]) == s.list && Next(s, m).list == []
    ensures s.notifier[m.n].Walk? && Next(s, m).notifier[m.n].Idle? ==> s.notifier[m.n].rest == []
    ensures s.notifier[m.n].On? && s.notifier[m.n].all ==>
      var h, h' := Held(s.notifier[m.n]), Held(Next(s, m).notifier[m.n]); !Next(s, m).notifier[m.n].Idle? && (h' == h || h' == h[1..])
  {
    if s.notifier[m.n].On? { HolderKnows(s, m.n); }
  }
}
