/**
 * How a wait, a timeout and a notification of `coro::condition_variable` go when nobody else moves
 * and the mutex is free: the whole state after them (src/condition_variable.cpp:38-251,
 * include/coro/condition_variable.hpp:223-287). `Inv` holds in every state of every run.
 */
module ConditionVariableAlone {
  import opened Prelude
  import opened Rosters
  import opened ConditionVariable

  /** The same move, again and again. */
  ghost predicate Only(ms: seq<Move>, m: Move) {
    forall k :: 0 <= k < |ms| ==> ms[k] == m
  }

  lemma Before(s: State, t: State, m: Move, ms: seq<Move>) returns (ns: seq<Move>)
    requires Inv(s) && Possible(s, m) && Next(s, m) == t && Legal(t, ms) && Only(ms, m)
    ensures Legal(s, ns) && Only(ns, m) && Exec(s, ns) == Exec(t, ms)
  {
    NextKeepsInv(s, m);
    NextSizes(s, m);
    ns := [m] + ms;
    assert ns[0] == m && ns[1..] == ms;
  }

  lemma AfterNext(s: State, m: Move) returns (t: State)
    requires Inv(s) && Possible(s, m)
    ensures t == Next(s, m) && Inv(t) && Possible(t, m) && Sized(t) && |t.wait| == |s.wait| && |t.notifier| == |s.notifier|
  {
    t := Next(s, m);
    NextKeepsInv(s, m);
    NextSizes(s, m);
  }

  // ----- waits and timeouts -----

  /** A wait whose predicate holds goes through; any other suspends as the newest waiter, and the mutex is free again. */
  lemma WaitAlone(s: State, w: Id, holds: bool) returns (ms: seq<Move>)
    requires Inv(s) && w < |s.wait| && s.wait[w] == Absent && s.owner == Free
    ensures Sized(s) && Legal(s, ms) && Only(ms, WaitStep(w, holds))
    ensures Exec(s, ms) ==
      if s.kind[w].hasPredicate && holds then s.(wait := s.wait[w := Skipped])
      else s.(list := [w] + s.list, place := s.place[w := InList], wait := s.wait[w := Suspended])
  {
    var m := WaitStep(w, holds);
    var a := AfterNext(s, m);
    var b := AfterNext(a, m);
    var c := AfterNext(b, m);
    assert c.wait == s.wait[w := c.wait[w]];
    ms := Before(b, c, m, []);
    ms := Before(a, b, m, ms);
    ms := Before(s, a, m, ms);
  }

  /** A wait that is back returns to its caller, who lets the mutex go. */
  lemma WaitReturns(s: State, w: Id, holds: bool)
    requires Inv(s) && w < |s.wait| && s.wait[w].Resumed?
    ensures Next(s, WaitStep(w, holds)) == s.(owner := Free, wait := s.wait[w := Done])
  {
  }

  /** A timeout that finds the wait not completed claims it and resumes it with the mutex held. */
  lemma TimeoutAlone(s: State, w: Id, holds: bool) returns (ms: seq<Move>)
    requires Inv(s) && w < |s.wait| && s.kind[w].timed && s.wait[w] == Suspended && s.owner == Free
    requires !s.hook[w].completed && s.hook[w].event == EvFree && s.hook[w].timer == Asleep
    ensures Sized(s) && Legal(s, ms) && Only(ms, TimerStep(w, holds))
    ensures Exec(s, ms) == s.(owner := For(w, ByUser), wait := s.wait[w := Resumed(TimedOut, holds || !s.kind[w].hasPredicate)],
      hook := s.hook[w := s.hook[w].(completed := true, timedOut := true, cause := TimedOut, timer := Over)])
  {
    var m, h := TimerStep(w, holds), s.hook[w];
    var a := AfterNext(s, m);
    assert a == s.(hook := s.hook[w := h.(event := EvTimer, timer := EventLocked)]);
    var b := AfterNext(a, m);
    assert b == s.(hook := s.hook[w := h.(completed := true, timedOut := true, cause := TimedOut, event := EvTimer, timer := Claimed)]);
    ms := ClaimedAlone(b, w, holds);
    assert b.hook[w := b.hook[w].(event := EvFree, timer := Over)] ==
      s.hook[w := h.(completed := true, timedOut := true, cause := TimedOut, timer := Over)];
    ms := Before(a, b, m, ms);
    ms := Before(s, a, m, ms);
  }

  lemma ClaimedAlone(s: State, w: Id, holds: bool) returns (ms: seq<Move>)
    requires Inv(s) && w < |s.wait| && s.kind[w].timed && s.wait[w] == Suspended && s.owner == Free && s.hook[w].timer == Claimed
    ensures Sized(s) && Legal(s, ms) && Only(ms, TimerStep(w, holds))
    ensures Exec(s, ms) == s.(owner := For(w, ByUser), wait := s.wait[w := Resumed(TimedOut, holds || !s.kind[w].hasPredicate)],
      hook := s.hook[w := s.hook[w].(event := EvFree, timer := Over)])
  {
    var m, h := TimerStep(w, holds), s.hook[w];
    var a := AfterNext(s, m);
    assert a == s.(hook := s.hook[w := h.(event := EvFree, timer := WantsMutex)]);
    var b := AfterNext(a, m);
    assert b == s.(owner := For(w, ByTimer), hook := s.hook[w := h.(event := EvFree, timer := Locked)]);
    var c := AfterNext(b, m);
    assert c.hook == s.hook[w := h.(event := EvFree, timer := Over)];
    ms := Before(b, c, m, []);
    ms := Before(a, b, m, ms);
    ms := Before(s, a, m, ms);
  }

  /** A timeout that comes after the wait was completed does nothing but end. */
  lemma LateTimeout(s: State, w: Id, holds: bool) returns (ms: seq<Move>)
    requires Inv(s) && w < |s.wait| && s.kind[w].timed && Started(s.wait[w])
    requires s.hook[w].completed && s.hook[w].event == EvFree && s.hook[w].timer == Asleep
    ensures Sized(s) && Legal(s, ms) && Only(ms, TimerStep(w, holds))
    ensures Exec(s, ms) == s.(hook := s.hook[w := s.hook[w].(timer := Over)])
  {
    var m, h := TimerStep(w, holds), s.hook[w];
    var a := AfterNext(s, m);
    assert a == s.(hook := s.hook[w := h.(event := EvTimer, timer := EventLocked)]);
    var b := AfterNext(a, m);
    assert b.hook == s.hook[w := h.(timer := Over)];
    ms := Before(a, b, m, []);
    ms := Before(s, a, m, ms);
  }

  // ----- one notifier at work on one wait -----

  /** What a wait of this kind is resumed for, given what its predicate and stop token say. */
  predicate ReadyFor(k: Kind, holds: bool, stop: bool, c: Cause) {
    match c
    case NoPredicate => !k.hasPredicate
    case PredicateTrue => k.hasPredicate && holds
    case StopRequested => k.hasPredicate && !holds && k.hasStop && stop
    case TimedOut => false
  }

  predicate NotReadyYet(k: Kind, holds: bool, stop: bool) {
    k.hasPredicate && !holds && !(k.hasStop && stop)
  }

  function Moving(s: State, n: Id, p: Notifier): (t: State)
    requires n < |s.notifier|
  {
    s.(notifier := s.notifier[n := p])
  }

  /** The notifier begins with wait `w`, which has suspended; for a timed wait nobody is at its hook. */
  ghost predicate Begins(s: State, n: Id, w: Id) {
    && Inv(s) && n < |s.notifier| && w < |s.wait| == |s.kind| == |s.hook| == |s.place|
    && s.notifier[n].On? && s.notifier[n].w == w && s.notifier[n].stage == Start
    && s.owner == Free && (s.kind[w].timed ==> s.hook[w].event == EvFree)
  }

  /** A wait without a time limit that is ready is resumed with the mutex, and the notifier goes on. */
  lemma PlainReady(s: State, n: Id, m: Move, w: Id, c: Cause) returns (ms: seq<Move>)
    requires Begins(s, n, w) && m.NotifierStep? && m.n == n && !s.kind[w].timed && ReadyFor(s.kind[w], m.holds, m.stop, c)
    ensures Legal(s, ms) && Only(ms, m)
    ensures
      var p := s.notifier[n];
      Exec(s, ms) == Moving(s.(owner := For(w, ByUser), wait := s.wait[w := Resumed(c, c != StopRequested)], place := s.place[w := Nowhere]),
                            n, if p.all then Walk(p.rest) else Idle)
  {
    var p := s.notifier[n];
    var a := AfterNext(s, m);
    assert a == Moving(s.(owner := For(w, ByNotifier(n))), n, p.(stage := Ask));
    var b := AfterNext(a, m);
    assert b.notifier == s.notifier[n := p.(stage := Go(c))];
    var d := AfterNext(b, m);
    assert d.notifier == s.notifier[n := if p.all then Walk(p.rest) else Idle];
    ms := Before(b, d, m, []);
    ms := Before(a, b, m, ms);
    ms := Before(s, a, m, ms);
  }

  /** One that is not ready goes back to the head of the list, and the mutex is free again. */
  lemma PlainNotReady(s: State, n: Id, m: Move, w: Id) returns (ms: seq<Move>)
    requires Begins(s, n, w) && m.NotifierStep? && m.n == n && !s.kind[w].timed && NotReadyYet(s.kind[w], m.holds, m.stop)
    ensures Legal(s, ms) && Only(ms, m)
    ensures
      var p := s.notifier[n];
      Exec(s, ms) == Moving(s.(list := [w] + s.list, place := s.place[w := InList]), n, if p.all then Walk(p.rest) else Idle)
  {
    var p := s.notifier[n];
    var a := AfterNext(s, m);
    assert a == Moving(s.(owner := For(w, ByNotifier(n))), n, p.(stage := Ask));
    var b := AfterNext(a, m);
    assert b == Moving(s.(owner := For(w, ByNotifier(n))), n, p.(stage := NotReady));
    var c := AfterNext(b, m);
    assert c == Moving(s, n, p.(stage := PushBack));
    var d := AfterNext(c, m);
    assert d.notifier == s.notifier[n := if p.all then Walk(p.rest) else Idle];
    ms := Before(c, d, m, []);
    ms := Before(b, c, m, ms);
    ms := Before(a, b, m, ms);
    ms := Before(s, a, m, ms);
  }

  lemma {:induction false} Joined(s: State, ms: seq<Move>, ns: seq<Move>, m: Move) returns (all: seq<Move>)
    requires Legal(s, ms) && Only(ms, m) && Legal(Exec(s, ms), ns) && Only(ns, m)
    ensures Legal(s, all) && Only(all, m) && Exec(s, all) == Exec(Exec(s, ms), ns)
    decreases |ms|
  {
    if ms == [] {
      all := ns;
    } else {
      NextKeepsInv(s, ms[0]);
      NextSizes(s, ms[0]);
      all := Joined(Next(s, ms[0]), ms[1..], ns, m);
      all := Before(s, Next(s, ms[0]), m, all);
    }
  }

  /** At a timed wait not yet completed, the notifier takes its event mutex, sees that, and takes the mutex. */
  lemma ReachesAsk(s: State, n: Id, m: Move, w: Id) returns (ms: seq<Move>)
    requires Begins(s, n, w) && m.NotifierStep? && m.n == n && s.kind[w].timed && !s.hook[w].completed
    ensures Legal(s, ms) && Only(ms, m)
    ensures Exec(s, ms) ==
      Moving(s.(owner := For(w, ByNotifier(n)), hook := s.hook[w := s.hook[w].(event := EvNotifier(n))]), n, s.notifier[n].(stage := Ask))
  {
    var p, h := s.notifier[n], s.hook[w];
    var a := AfterNext(s, m);
    assert a == Moving(s.(hook := s.hook[w := h.(event := EvNotifier(n))]), n, p.(stage := AskCompleted));
    var b := AfterNext(a, m);
    assert b == Moving(s.(hook := s.hook[w := h.(event := EvNotifier(n))]), n, p.(stage := WantMutex));
    var c := AfterNext(b, m);
    assert c == Moving(s.(owner := For(w, ByNotifier(n)), hook := s.hook[w := h.(event := EvNotifier(n))]), n, p.(stage := Ask));
    ms := Before(b, c, m, []);
    ms := Before(a, b, m, ms);
    ms := Before(s, a, m, ms);
  }

  /** The notifier has both mutexes of a timed wait that is not completed. */
  ghost predicate Asking(s: State, n: Id, w: Id) {
    && Inv(s) && n < |s.notifier| && w < |s.wait| == |s.kind| == |s.hook| == |s.place|
    && s.notifier[n].On? && s.notifier[n].w == w && s.notifier[n].stage == Ask && s.kind[w].timed
  }

  lemma SignalsAlone(s: State, n: Id, m: Move, w: Id) returns (ms: seq<Move>)
    requires Inv(s) && n < |s.notifier| && w < |s.wait| && m.NotifierStep? && m.n == n
    requires s.notifier[n].On? && s.notifier[n].w == w && s.notifier[n].stage == Signal(true)
    ensures Sized(s) && Legal(s, ms) && Only(ms, m)
    ensures
      var p, h := s.notifier[n], s.hook[w];
      Exec(s, ms) == Moving(s.(owner := For(w, ByCallback), place := s.place[w := Nowhere], hook := s.hook[w := h.(signalled := true)]),
                            n, if p.all then Walk(p.rest) else Idle)
  {
    var a := AfterNext(s, m);
    ms := Before(s, a, m, []);
  }

  lemma ReadyStep(s: State, n: Id, m: Move, w: Id, c: Cause)
    requires Asking(s, n, w) && m.NotifierStep? && m.n == n && ReadyFor(s.kind[w], m.holds, m.stop, c)
    ensures Next(s, m) == Moving(s.(hook := s.hook[w := s.hook[w].(completed := true, cause := c)]), n, s.notifier[n].(stage := ClaimedIt))
  {
    HolderKnows(s, n);
  }

  lemma ReleasesHook(s: State, n: Id, m: Move, w: Id) returns (ms: seq<Move>)
    requires Inv(s) && n < |s.notifier| && w < |s.wait| && m.NotifierStep? && m.n == n
    requires s.notifier[n].On? && s.notifier[n].w == w && s.notifier[n].stage == ClaimedIt
    ensures Sized(s) && Legal(s, ms) && Only(ms, m)
    ensures
      var p, h := s.notifier[n], s.hook[w];
      Exec(s, ms) == Moving(s.(owner := For(w, ByCallback), place := s.place[w := Nowhere],
        hook := s.hook[w := h.(signalled := true, event := EvFree)]), n, if p.all then Walk(p.rest) else Idle)
  {
    var p, h := s.notifier[n], s.hook[w];
    var a := AfterNext(s, m);
    assert a == Moving(s.(hook := s.hook[w := h.(event := EvFree)]), n, p.(stage := Signal(true)));
    ms := SignalsAlone(a, n, m, w);
    assert a.hook[w := a.hook[w].(signalled := true)] == s.hook[w := h.(signalled := true, event := EvFree)];
    assert a.notifier[n := if p.all then Walk(p.rest) else Idle] == s.notifier[n := if p.all then Walk(p.rest) else Idle];
    ms := Before(s, a, m, ms);
  }

  lemma TimedClaims(s: State, n: Id, m: Move, w: Id, c: Cause) returns (ms: seq<Move>)
    requires Asking(s, n, w) && m.NotifierStep? && m.n == n && ReadyFor(s.kind[w], m.holds, m.stop, c)
    ensures Legal(s, ms) && Only(ms, m)
    ensures
      var p, h := s.notifier[n], s.hook[w];
      Exec(s, ms) == Moving(s.(owner := For(w, ByCallback), place := s.place[w := Nowhere],
        hook := s.hook[w := h.(completed := true, cause := c, signalled := true, event := EvFree)]), n, if p.all then Walk(p.rest) else Idle)
  {
    var p, h := s.notifier[n], s.hook[w];
    ReadyStep(s, n, m, w, c);
    var a := AfterNext(s, m);
    ms := ReleasesHook(a, n, m, w);
    assert a.hook[w := a.hook[w].(signalled := true, event := EvFree)] ==
      s.hook[w := h.(completed := true, cause := c, signalled := true, event := EvFree)];
    assert a.notifier[n := if p.all then Walk(p.rest) else Idle] == s.notifier[n := if p.all then Walk(p.rest) else Idle];
    ms := Before(s, a, m, ms);
  }

  /** A timed wait that is ready is claimed and its callback signalled, with the mutex held for it. */
  lemma TimedReady(s: State, n: Id, m: Move, w: Id, c: Cause) returns (ms: seq<Move>)
    requires Begins(s, n, w) && m.NotifierStep? && m.n == n && s.kind[w].timed && !s.hook[w].completed
    requires ReadyFor(s.kind[w], m.holds, m.stop, c)
    ensures Legal(s, ms) && Only(ms, m)
    ensures
      var p, h := s.notifier[n], s.hook[w];
      Exec(s, ms) == Moving(s.(owner := For(w, ByCallback), place := s.place[w := Nowhere],
        hook := s.hook[w := h.(completed := true, cause := c, signalled := true)]), n, if p.all then Walk(p.rest) else Idle)
  {
    ms := ReachesAsk(s, n, m, w);
    var t := Exec(s, ms);
    var ns := TimedClaims(t, n, m, w, c);
    ms := Joined(s, ms, ns, m);
    var h, h' := s.hook[w], s.hook[w].(completed := true, cause := c, signalled := true);
    assert t.hook[w := h'] == s.hook[w := h'];
    assert t.notifier[n := if s.notifier[n].all then Walk(s.notifier[n].rest) else Idle] ==
      s.notifier[n := if s.notifier[n].all then Walk(s.notifier[n].rest) else Idle];
  }

  /** And its callback task resumes it for that cause. */
  lemma CallbackAlone(s: State, w: Id)
    requires Inv(s) && w < |s.wait| && s.hook[w].signalled && !s.hook[w].callbackDone
    ensures Next(s, CallbackStep(w)) ==
      if s.hook[w].timedOut then s.(hook := s.hook[w := s.hook[w].(callbackDone := true)])
      else s.(owner := For(w, ByUser), wait := s.wait[w := Resumed(s.hook[w].cause, s.hook[w].cause != StopRequested)],
              hook := s.hook[w := s.hook[w].(callbackDone := true)])
  {
  }

  lemma TimedRejects(s: State, n: Id, m: Move, w: Id) returns (ms: seq<Move>)
    requires Asking(s, n, w) && m.NotifierStep? && m.n == n && NotReadyYet(s.kind[w], m.holds, m.stop)
    ensures Legal(s, ms) && Only(ms, m)
    ensures
      var p, h := s.notifier[n], s.hook[w];
      Exec(s, ms) == Moving(s.(owner := Free, list := [w] + s.list, place := s.place[w := InList],
        hook := s.hook[w := h.(event := EvFree)]), n, if p.all then Walk(p.rest) else Idle)
  {
    var p, h := s.notifier[n], s.hook[w];
    var a := AfterNext(s, m);
    assert a == Moving(s, n, p.(stage := NotReady));
    var b := AfterNext(a, m);
    assert b == Moving(s.(owner := Free), n, p.(stage := ReleaseEvent));
    var c := AfterNext(b, m);
    assert c == Moving(s.(owner := Free, hook := s.hook[w := h.(event := EvFree)]), n, p.(stage := PushBack));
    var d := AfterNext(c, m);
    assert d.notifier == s.notifier[n := if p.all then Walk(p.rest) else Idle];
    ms := Before(c, d, m, []);
    ms := Before(b, c, m, ms);
    ms := Before(a, b, m, ms);
    ms := Before(s, a, m, ms);
  }

  /** Timed or not, a wait that is not ready goes back to the head of the list and everything else is as it was. */
  lemma NotReadyAlone(s: State, n: Id, m: Move, w: Id) returns (ms: seq<Move>)
    requires Begins(s, n, w) && m.NotifierStep? && m.n == n && NotReadyYet(s.kind[w], m.holds, m.stop)
    requires s.kind[w].timed ==> !s.hook[w].completed
    ensures Legal(s, ms) && Only(ms, m)
    ensures
      var p := s.notifier[n];
      Exec(s, ms) == Moving(s.(list := [w] + s.list, place := s.place[w := InList]), n, if p.all then Walk(p.rest) else Idle)
  {
    if !s.kind[w].timed {
      ms := PlainNotReady(s, n, m, w);
    } else {
      ms := ReachesAsk(s, n, m, w);
      var t := Exec(s, ms);
      var ns := TimedRejects(t, n, m, w);
      ms := Joined(s, ms, ns, m);
      assert t.hook[w := s.hook[w]] == s.hook;
      assert t.notifier[n := if s.notifier[n].all then Walk(s.notifier[n].rest) else Idle] ==
        s.notifier[n := if s.notifier[n].all then Walk(s.notifier[n].rest) else Idle];
    }
  }

  /** A timed wait that is already completed is dropped, and a notify_one turns to the next. */
  lemma CompletedAlone(s: State, n: Id, m: Move, w: Id) returns (ms: seq<Move>)
    requires Begins(s, n, w) && m.NotifierStep? && m.n == n && s.kind[w].timed && s.hook[w].completed
    ensures Legal(s, ms) && Only(ms, m)
    ensures
      var p := s.notifier[n];
      Exec(s, ms) == Moving(s.(place := s.place[w := Nowhere], hook := s.hook[w := s.hook[w].(signalled := true)]),
                            n, if p.all then Walk(p.rest) else Single)
  {
    var p, h := s.notifier[n], s.hook[w];
    var a := AfterNext(s, m);
    assert a == Moving(s.(hook := s.hook[w := h.(event := EvNotifier(n))]), n, p.(stage := AskCompleted));
    var b := AfterNext(a, m);
    assert b.notifier == s.notifier[n := p.(stage := Signal(false))];
    assert b.hook == s.hook[w := h];
    var c := AfterNext(b, m);
    assert c.notifier == s.notifier[n := if p.all then Walk(p.rest) else Single];
    assert c.hook == s.hook[w := h.(signalled := true)];
    ms := Before(b, c, m, []);
    ms := Before(a, b, m, ms);
    ms := Before(s, a, m, ms);
  }

  // ----- whole notifications -----

  /** notify_one with nobody waiting returns and changes nothing. */
  lemma NotifyOneOfNone(s: State, n: Id, m: Move) returns (ms: seq<Move>)
    requires Inv(s) && n < |s.notifier| && s.notifier[n] == Idle && s.list == [] && m.NotifierStep? && m.n == n && !m.all
    ensures Legal(s, ms) && Only(ms, m) && Exec(s, ms) == s
  {
    var a := AfterNext(s, m);
    var b := AfterNext(a, m);
    assert b.notifier == s.notifier;
    ms := Before(a, b, m, []);
    ms := Before(s, a, m, ms);
  }

  /** notify_one takes the newest waiter and begins with it. */
  lemma NotifyOneTakes(s: State, n: Id, m: Move) returns (ms: seq<Move>)
    requires Inv(s) && n < |s.notifier| && s.notifier[n] == Idle && s.list != [] && m.NotifierStep? && m.n == n && !m.all
    ensures s.list[0] < |s.place| && Legal(s, ms) && Only(ms, m)
    ensures Exec(s, ms) ==
      Moving(s.(list := s.list[1..], place := s.place[s.list[0] := With(n)]), n, On(s.list[0], [], false, Start))
  {
    var a := AfterNext(s, m);
    var b := AfterNext(a, m);
    assert b.notifier == s.notifier[n := On(s.list[0], [], false, Start)];
    ms := Before(a, b, m, []);
    ms := Before(s, a, m, ms);
  }

  /** notify_all takes the whole list and goes through it, newest first. */
  lemma NotifyAllTakes(s: State, n: Id, m: Move) returns (ms: seq<Move>)
    requires Inv(s) && n < |s.notifier| && s.notifier[n] == Idle && m.NotifierStep? && m.n == n && m.all
    ensures Legal(s, ms) && Only(ms, m)
    ensures
      var t := s.(list := [], place := Claim(s.place, s.list, n));
      Exec(s, ms) == if s.list == [] then t else Moving(t, n, On(s.list[0], s.list[1..], true, Start))
  {
    var a := AfterNext(s, m);
    var b := AfterNext(a, m);
    assert s.list == [] ==> b.notifier == s.notifier;
    assert s.list != [] ==> b.notifier == s.notifier[n := On(s.list[0], s.list[1..], true, Start)];
    ms := Before(a, b, m, []);
    ms := Before(s, a, m, ms);
  }

  // ----- notify_all with nobody ready -----

  function Listed(place: seq<Place>, ws: seq<Id>): (r: seq<Place>)
    ensures |r| == |place|
    ensures forall k :: 0 <= k < |place| ==> r[k] == if k in ws then InList else place[k]
  {
    seq(|place|, k requires 0 <= k < |place| => if k in ws then InList else place[k])
  }

  /** Nobody of `ws` is ready, completed, or being looked at by its timeout. */
  ghost predicate NoneReady(s: State, ws: seq<Id>, holds: bool, stop: bool) {
    forall k :: 0 <= k < |ws| ==>
      && ws[k] < |s.kind| == |s.hook| && NotReadyYet(s.kind[ws[k]], holds, stop)
      && (s.kind[ws[k]].timed ==> !s.hook[ws[k]].completed && s.hook[ws[k]].event == EvFree)
  }

  lemma PushesBack(list: seq<Id>, rest: seq<Id>, place: seq<Place>)
    requires rest != []
    ensures Rev(rest[1..]) + ([rest[0]] + list) == Rev(rest) + list
    ensures rest[0] < |place| ==> Listed(place[rest[0] := InList], rest[1..]) == Listed(place, rest)
  {
    assert rest == [rest[0]] + rest[1..];
    RevPush(rest[1..], rest[0]);
    assert Rev(rest[1..]) + ([rest[0]] + list) == Rev(rest[1..]) + [rest[0]] + list;
  }

  /** The first of a taken list is looked at and put back. */
  lemma RejectsFirst(s: State, n: Id, m: Move, rest: seq<Id>) returns (ms: seq<Move>)
    requires Inv(s) && n < |s.notifier| && s.notifier[n] == Walk(rest) && s.owner == Free && m.NotifierStep? && m.n == n
    requires rest != [] && NoneReady(s, rest, m.holds, m.stop)
    ensures rest[0] < |s.place| && Legal(s, ms) && Only(ms, m)
    ensures Exec(s, ms) == Moving(s.(list := [rest[0]] + s.list, place := s.place[rest[0] := InList]), n, Walk(rest[1..]))
  {
    var w := rest[0];
    var a := AfterNext(s, m);
    assert a == Moving(s, n, On(w, rest[1..], true, Start));
    ms := NotReadyAlone(a, n, m, w);
    assert a.notifier[n := Walk(rest[1..])] == s.notifier[n := Walk(rest[1..])];
    ms := Before(s, a, m, ms);
  }

  lemma {:induction false} WalkRejects(s: State, n: Id, m: Move, rest: seq<Id>) returns (ms: seq<Move>)
    requires Inv(s) && n < |s.notifier| && s.notifier[n] == Walk(rest) && s.owner == Free && m.NotifierStep? && m.n == n
    requires NoneReady(s, rest, m.holds, m.stop)
    ensures Legal(s, ms) && Only(ms, m)
    ensures Exec(s, ms) == Moving(s.(list := Rev(rest) + s.list, place := Listed(s.place, rest)), n, Idle)
    decreases |rest|
  {
    if rest == [] {
      assert Rev(rest) + s.list == s.list && Listed(s.place, rest) == s.place;
      var a := AfterNext(s, m);
      ms := Before(s, a, m, []);
    } else {
      ms := RejectsFirst(s, n, m, rest);
      var b := Exec(s, ms);
      var ns := WalkRejects(b, n, m, rest[1..]);
      PushesBack(s.list, rest, s.place);
      assert b.notifier[n := Idle] == s.notifier[n := Idle];
      ms := Joined(s, ms, ns, m);
    }
  }

  /** notify_all with nobody ready puts everybody back, in the opposite order. */
  lemma NotifyAllOfNoneReady(s: State, n: Id, m: Move) returns (ms: seq<Move>)
    requires Inv(s) && n < |s.notifier| && s.notifier[n] == Idle && s.owner == Free && m.NotifierStep? && m.n == n && m.all
    requires NoneReady(s, s.list, m.holds, m.stop)
    ensures Legal(s, ms) && Only(ms, m) && Exec(s, ms) == s.(list := Rev(s.list))
  {
    var a := AfterNext(s, m);
    assert a == Moving(s.(list := [], place := Claim(s.place, s.list, n)), n, Walk(s.list));
    ms := WalkRejects(a, n, m, s.list);
    assert Rev(s.list) + [] == Rev(s.list);
    assert Listed(Claim(s.place, s.list, n), s.list) == s.place;
    assert a.notifier[n := Idle] == s.notifier;
    ms := Before(s, a, m, ms);
  }
}
