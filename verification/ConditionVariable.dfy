/**
 * `coro::condition_variable` as a step machine (src/condition_variable.cpp,
 * include/coro/condition_variable.hpp): any number of waits of every kind, any number of
 * notifiers, the timeout and callback tasks of each timed wait. Pushes and pops of the waiter
 * list are one step each. Locking is a step that is possible while the mutex is free. The value
 * of a predicate or stop token is whatever the move says at the moment it is asked for.
 */
module ConditionVariable {
  import opened Prelude
  import opened Rosters

  /** What a wait was given: a time limit, a predicate, a stop token. */
  datatype Kind = Kind(timed: bool, hasPredicate: bool, hasStop: bool)

  datatype Cause = NoPredicate | PredicateTrue | StopRequested | TimedOut

  /** The user's mutex: held for the sake of wait `w`, by one of the tasks concerned with it, or by someone else. */
  datatype By = ByUser | ByNotifier(n: Id) | ByCallback | ByTimer
  datatype Owner = Free | For(w: Id, via: By) | Other

  /**
   * A wait that finds its predicate true goes through without suspending. `result` is what the
   * predicate last said, which is what the wait returns where it returns a bool.
   */
  datatype Wait =
    Absent | Holding | Through | Skipped | Pushed | Suspended | Resumed(cause: Cause, result: bool) | Done

  /** The wait has suspended, so its timeout and callback tasks run. */
  predicate Started(w: Wait) {
    w.Suspended? || w.Resumed? || w.Done?
  }

  /** The timeout task of a timed wait. */
  datatype TimerPc = Asleep | EventLocked | Claimed | WantsMutex | Locked | Over

  datatype EventOwner = EvFree | EvNotifier(n: Id) | EvTimer

  /** `controller_data` and `m_status`; it outlives the wait itself. */
  datatype Hook = Hook(
    completed: bool, timedOut: bool, cause: Cause, // m_awaiter_completed and what was written with it
    signalled: bool, callbackDone: bool,                 // m_notify_callback, and its task
    event: EventOwner,                             // m_event_mutex
    timer: TimerPc)

  const NEW := Hook(false, false, NoPredicate, false, false, EvFree, Asleep)

  datatype Stage =
    | Start                        // on_notify entered
    | AskCompleted                 // hook: event mutex held
    | WantMutex                    // hook: not completed
    | Ask                          // mutex held, before the predicate
    | Go(cause: Cause)             // plain kinds: ready, before the resume
    | ClaimedIt                    // hook: completed and status written
    | Signal(ready: bool)          // hook: event mutex released, before the callback is set
    | NotReady                     // before the mutex is released
    | ReleaseEvent                 // hook: before the event mutex is released
    | PushBack

  datatype Notifier =
    | Idle
    | Single                       // head of the loop in notify_one
    | Walk(rest: seq<Id>)          // head of the loop in notify_all
    | On(w: Id, rest: seq<Id>, all: bool, stage: Stage)

  datatype State = State(
    kind: seq<Kind>, list: seq<Id>, owner: Owner,
    wait: seq<Wait>, hook: seq<Hook>, notifier: seq<Notifier>, place: seq<Place>)

  datatype Move =
    | WaitStep(w: Id, holds: bool)
    | TimerStep(w: Id, holds: bool)
    | CallbackStep(w: Id)
    | NotifierStep(n: Id, all: bool, holds: bool, stop: bool)
    | OtherStep

  function Held(n: Notifier): (ids: seq<Id>) {
    match n
    case Walk(rest) => rest
    case On(w, rest, _, _) => [w] + rest
    case _ => []
  }

  function HeldBy(ns: seq<Notifier>): (held: seq<seq<Id>>) {
    seq(|ns|, t requires 0 <= t < |ns| => Held(ns[t]))
  }

  ghost predicate Sized(s: State) {
    |s.kind| == |s.wait| == |s.hook| == |s.place|
  }

  ghost predicate Init(s: State) {
    && Sized(s) && s.list == [] && s.owner == Free
    && (forall w :: 0 <= w < |s.wait| ==> s.wait[w] == Absent && s.hook[w] == NEW && s.place[w] == Nowhere)
    && (forall n :: 0 <= n < |s.notifier| ==> s.notifier[n] == Idle)
  }

  ghost predicate Possible(s: State, m: Move) {
    match m
    case WaitStep(w, _) => w < |s.wait|
    case TimerStep(w, _) => w < |s.wait|
    case CallbackStep(w) => w < |s.wait|
    case NotifierStep(n, _, _, _) => n < |s.notifier|
    case OtherStep => true
  }

  function WaitNext(s: State, w: Id, holds: bool): (t: State)
    requires Sized(s) && w < |s.wait|
  {
    match s.wait[w]
    case Absent => if s.owner.Free? then s.(owner := For(w, ByUser), wait := s.wait[w := Holding]) else s
    case Holding =>
      if s.kind[w].hasPredicate && holds then s.(wait := s.wait[w := Through])
      else s.(list := [w] + s.list, wait := s.wait[w := Pushed], place := s.place[w := InList])
    case Through => s.(owner := Free, wait := s.wait[w := Skipped])
    case Skipped => s
    case Pushed => s.(owner := Free, wait := s.wait[w := Suspended])
    case Suspended => s
    case Resumed(_, _) => s.(owner := Free, wait := s.wait[w := Done])
    case Done => s
  }

  function TimerNext(s: State, w: Id, holds: bool): (t: State)
    requires Sized(s) && w < |s.wait|
  {
    var h := s.hook[w];
    if !s.kind[w].timed || !Started(s.wait[w]) then s
    else
      match h.timer
      case Asleep => if h.event.EvFree? then s.(hook := s.hook[w := h.(event := EvTimer, timer := EventLocked)]) else s
      case EventLocked =>
        if h.completed then s.(hook := s.hook[w := h.(event := EvFree, timer := Over)])
        else s.(hook := s.hook[w := h.(completed := true, timedOut := true, cause := TimedOut, timer := Claimed)])
      case Claimed => s.(hook := s.hook[w := h.(event := EvFree, timer := WantsMutex)])
      case WantsMutex =>
        if s.owner.Free? then s.(owner := For(w, ByTimer), hook := s.hook[w := h.(timer := Locked)]) else s
      case Locked =>
        s.(owner := For(w, ByUser), wait := s.wait[w := Resumed(TimedOut, holds || !s.kind[w].hasPredicate)], hook := s.hook[w := h.(timer := Over)])
      case Over => s
  }

  function CallbackNext(s: State, w: Id): (t: State)
    requires Sized(s) && w < |s.wait|
  {
    var h := s.hook[w];
    if !h.signalled || h.callbackDone then s
    else if h.timedOut then s.(hook := s.hook[w := h.(callbackDone := true)])
    else s.(owner := For(w, ByUser), wait := s.wait[w := Resumed(h.cause, !h.cause.StopRequested?)], hook := s.hook[w := h.(callbackDone := true)])
  }

  /** The outcome of asking: ready with a cause, or not. */
  function Verdict(k: Kind, holds: bool, stop: bool): (c: Option<Cause>) {
    if !k.hasPredicate then Some(NoPredicate)
    else if holds then Some(PredicateTrue)
    else if k.hasStop && stop then Some(StopRequested)
    else None
  }

  function After(n: Notifier): (r: Notifier)
    requires n.On?
  {
    if n.all then Walk(n.rest) else Idle
  }

  function At(s: State, n: Id, stage: Stage): (t: State)
    requires n < |s.notifier| && s.notifier[n].On?
  {
    s.(notifier := s.notifier[n := s.notifier[n].(stage := stage)])
  }

  function OnNext(s: State, n: Id, holds: bool, stop: bool): (t: State)
    requires Sized(s) && n < |s.notifier| && s.notifier[n].On? && s.notifier[n].w < |s.wait|
  {
    var p := s.notifier[n];
    var w := p.w;
    var k, h := s.kind[w], s.hook[w];
    match p.stage
    case Start =>
      if k.timed then
        if h.event.EvFree? then At(s.(hook := s.hook[w := h.(event := EvNotifier(n))]), n, AskCompleted) else s
      else if s.owner.Free? then At(s.(owner := For(w, ByNotifier(n))), n, Ask) else s
    case AskCompleted =>
      if h.completed then At(s.(hook := s.hook[w := h.(event := EvFree)]), n, Signal(false)) else At(s, n, WantMutex)
    case WantMutex => if s.owner.Free? then At(s.(owner := For(w, ByNotifier(n))), n, Ask) else s
    case Ask =>
      var v := Verdict(k, holds, stop);
      if v.None? then At(s, n, NotReady)
      else if k.timed then At(s.(hook := s.hook[w := h.(completed := true, cause := v.value)]), n, ClaimedIt)
      else At(s, n, Go(v.value))
    case Go(cause) =>
      s.(owner := For(w, ByUser), wait := s.wait[w := Resumed(cause, !cause.StopRequested?)], place := s.place[w := Nowhere],
         notifier := s.notifier[n := After(p)])
    case ClaimedIt => At(s.(hook := s.hook[w := h.(event := EvFree)]), n, Signal(true))
    case Signal(ready) =>
      s.(owner := if ready then For(w, ByCallback) else s.owner, hook := s.hook[w := h.(signalled := true)],
         place := s.place[w := Nowhere], notifier := s.notifier[n := if ready || p.all then After(p) else Single])
    case NotReady => At(s.(owner := Free), n, if k.timed then ReleaseEvent else PushBack)
    case ReleaseEvent => At(s.(hook := s.hook[w := h.(event := EvFree)]), n, PushBack)
    case PushBack =>
      s.(list := [w] + s.list, place := s.place[w := InList], notifier := s.notifier[n := After(p)])
  }

  function NotifierNext(s: State, n: Id, all: bool, holds: bool, stop: bool): (t: State)
    requires Inv(s) && n < |s.notifier|
  {
    match s.notifier[n]
    case Idle =>
      if all then s.(list := [], place := Claim(s.place, s.list, n), notifier := s.notifier[n := Walk(s.list)])
      else s.(notifier := s.notifier[n := Single])
    case Single =>
      if s.list == [] then s.(notifier := s.notifier[n := Idle])
      else s.(list := s.list[1..], place := s.place[s.list[0] := With(n)],
              notifier := s.notifier[n := On(s.list[0], [], false, Start)])
    case Walk(rest) =>
      s.(notifier := s.notifier[n := if rest == [] then Idle else On(rest[0], rest[1..], true, Start)])
    case On(_, _, _, _) => HolderKnows(s, n); OnNext(s, n, holds, stop)
  }

  function Next(s: State, m: Move): (t: State)
    requires Inv(s) && Possible(s, m)
  {
    match m
    case WaitStep(w, holds) => WaitNext(s, w, holds)
    case TimerStep(w, holds) => TimerNext(s, w, holds)
    case CallbackStep(w) => CallbackNext(s, w)
    case NotifierStep(n, all, holds, stop) => NotifierNext(s, n, all, holds, stop)
    case OtherStep => if s.owner.Free? then s.(owner := Other) else if s.owner.Other? then s.(owner := Free) else s
  }

  // ----- the invariant -----

  /** A cause that a wait of this kind may be resumed for. */
  predicate Fits(k: Kind, c: Cause) {
    match c
    case NoPredicate => !k.hasPredicate
    case PredicateTrue => k.hasPredicate
    case StopRequested => k.hasPredicate && k.hasStop
    case TimedOut => k.timed
  }

  /** A wait, its hook and its node agree. */
  ghost predicate WaitOk(k: Kind, w: Wait, h: Hook, mine: bool, placed: bool) {
    && (!k.timed ==> h == NEW)
    && (h.timer.EventLocked? || h.timer.Claimed? <==> h.event.EvTimer?)
    && (h.callbackDone ==> h.signalled) && (h.signalled ==> h.completed) && (h.timedOut ==> h.completed)
    && (h.completed ==> Fits(k, h.cause) && k.timed && (h.timedOut <==> h.cause.TimedOut?))
    && (h.timer.Claimed? || h.timer.WantsMutex? || h.timer.Locked? ==> h.timedOut)
    && match w
       case Absent => h == NEW && !placed
       case Holding => h == NEW && !placed && mine
       case Through => h == NEW && !placed && mine
       case Skipped => h == NEW && !placed
       case Pushed => !h.completed && h.timer.Asleep? && placed && mine
       case Suspended =>
         && !mine
         && (!h.completed ==> placed && !h.timer.Over?)
         && (h.timedOut ==> h.timer.Claimed? || h.timer.WantsMutex? || h.timer.Locked?)
         && !(h.callbackDone && !h.timedOut)
       case Resumed(c, _) => mine && Fits(k, c) && (if k.timed then Settled(h) && c == h.cause else !placed)
       case Done => if k.timed then Settled(h) else !placed
  }

  /** A timed wait whose one claimant has resumed it. */
  ghost predicate Settled(h: Hook) {
    h.completed && (if h.timedOut then h.timer.Over? else h.callbackDone)
  }

  /** A task other than the user holds the mutex for a suspended wait. */
  ghost predicate HeldFor(s: State, w: Id, via: By)
    requires Sized(s) && w < |s.wait|
  {
    s.owner == For(w, via) && s.wait[w].Suspended?
  }

  ghost predicate HookOk(s: State, w: Id)
    requires Sized(s) && w < |s.wait|
  {
    && WaitOk(s.kind[w], s.wait[w], s.hook[w], s.owner == For(w, ByUser), s.place[w] != Nowhere)
    && (s.hook[w].timer.Locked? ==> HeldFor(s, w, ByTimer))
    && (s.hook[w].signalled && !s.hook[w].timedOut && !s.hook[w].callbackDone ==> HeldFor(s, w, ByCallback))
  }

  /** What a notifier at work on a wait knows. */
  ghost predicate StageOk(s: State, n: Id, w: Id, stage: Stage)
    requires Sized(s) && w < |s.wait|
  {
    var k, h := s.kind[w], s.hook[w];
    match stage
    case Start => true
    case AskCompleted => k.timed && h.event == EvNotifier(n)
    case WantMutex => k.timed && h.event == EvNotifier(n) && !h.completed
    case Ask => HeldFor(s, w, ByNotifier(n)) && (k.timed ==> h.event == EvNotifier(n) && !h.completed)
    case Go(c) => !k.timed && HeldFor(s, w, ByNotifier(n)) && Fits(k, c) && !c.TimedOut?
    case ClaimedIt => HeldFor(s, w, ByNotifier(n)) && h.event == EvNotifier(n) && h.completed && !h.timedOut && !h.signalled
    case Signal(ready) =>
      h.completed && (if ready then HeldFor(s, w, ByNotifier(n)) && !h.timedOut && !h.signalled else h.timedOut)
    case NotReady => HeldFor(s, w, ByNotifier(n)) && (k.timed ==> h.event == EvNotifier(n) && !h.completed)
    case ReleaseEvent => k.timed && h.event == EvNotifier(n) && !h.completed
    case PushBack => true
  }

  /** A wait claimed by a notification leaves its node with the notifier until the callback is set. */
  ghost predicate NodeOk(s: State, w: Id)
    requires Sized(s) && w < |s.wait|
  {
    s.hook[w].completed && !s.hook[w].timedOut ==>
      match s.place[w]
      case Nowhere => s.hook[w].signalled
      case InList => false
      case With(n) => n < |s.notifier| && s.notifier[n].On? && s.notifier[n].w == w
                      && (s.notifier[n].stage.ClaimedIt? || s.notifier[n].stage == Signal(true))
  }

  ghost predicate NotifierOk(s: State, n: Id)
    requires Sized(s) && n < |s.notifier|
  {
    s.notifier[n].On? ==>
      && s.notifier[n].w < |s.wait|
      && StageOk(s, n, s.notifier[n].w, s.notifier[n].stage)
      && (s.notifier[n].all || s.notifier[n].rest == [])
  }

  ghost predicate Inv(s: State) {
    && Sized(s)
    && Tidy(s.list, HeldBy(s.notifier), s.place)
    && (forall w :: 0 <= w < |s.wait| ==> HookOk(s, w))
    && (forall w :: 0 <= w < |s.wait| ==> NodeOk(s, w))
    && (forall n :: 0 <= n < |s.notifier| ==> NotifierOk(s, n))
  }

  lemma HolderKnows(s: State, n: Id)
    requires Inv(s) && n < |s.notifier| && s.notifier[n].On?
    ensures var w := s.notifier[n].w;
      w < |s.wait| && s.place[w] == With(n) && StageOk(s, n, w, s.notifier[n].stage) && HookOk(s, w) && NodeOk(s, w)
  {
    assert NotifierOk(s, n);
    var w := s.notifier[n].w;
    assert HeldBy(s.notifier)[n] == [w] + s.notifier[n].rest;
    assert Names(HeldBy(s.notifier)[n], s.place, With(n));
    assert w in HeldBy(s.notifier)[n];
    assert HookOk(s, w) && NodeOk(s, w);
  }

  // ----- each step keeps it -----

  /** The mutex is not held for any wait but `w`. */
  predicate AboutOnly(o: Owner, w: Id) {
    o.For? ==> o.w == w
  }

  /** A step that concerns wait `w` alone. */
  ghost predicate Concerns(s: State, t: State, w: Id) {
    && Sized(s) && Sized(t) && |s.wait| == |t.wait| && s.kind == t.kind && |s.notifier| == |t.notifier|
    && (forall v :: 0 <= v < |s.wait| && v != w ==>
          s.wait[v] == t.wait[v] && s.hook[v] == t.hook[v] && (s.place[v] == t.place[v] || (s.place[v].InList? && t.place[v].With?)))
    && (s.owner == t.owner || (AboutOnly(s.owner, w) && AboutOnly(t.owner, w)))
    && (forall m :: 0 <= m < |s.notifier| && s.notifier[m] != t.notifier[m] ==> (s.notifier[m].On? ==> s.notifier[m].w == w))
  }

  lemma OthersKept(s: State, t: State, w: Id)
    requires Inv(s) && Concerns(s, t, w)
    ensures forall v :: 0 <= v < |s.wait| && v != w ==> HookOk(t, v) && NodeOk(t, v)
    ensures forall m :: 0 <= m < |s.notifier| && s.notifier[m] == t.notifier[m] && (s.notifier[m].On? ==> s.notifier[m].w != w) ==> NotifierOk(t, m)
  {
    forall v | 0 <= v < |s.wait| && v != w
      ensures HookOk(t, v) && NodeOk(t, v)
    {
      assert HookOk(s, v) && NodeOk(s, v);
    }
    forall m | 0 <= m < |s.notifier| && s.notifier[m] == t.notifier[m] && (s.notifier[m].On? ==> s.notifier[m].w != w)
      ensures NotifierOk(t, m)
    {
      assert NotifierOk(s, m);
    }
  }

  /** Two notifiers never work on the same wait. */
  lemma OneAtWork(s: State, n: Id, m: Id)
    requires Inv(s) && n < |s.notifier| && m < |s.notifier| && s.notifier[n].On? && s.notifier[m].On? && s.notifier[n].w == s.notifier[m].w
    ensures n == m
  {
    HolderKnows(s, n);
    HolderKnows(s, m);
  }

  lemma HeldByUpdate(ns: seq<Notifier>, n: Id, p: Notifier)
    requires n < |ns|
    ensures HeldBy(ns[n := p]) == HeldBy(ns)[n := Held(p)]
  {
  }

  lemma OtherKeepsInv(s: State)
    requires Inv(s)
    ensures Inv(Next(s, OtherStep))
  {
    OthersKept(s, Next(s, OtherStep), |s.wait|);
    forall n | 0 <= n < |s.notifier|
      ensures NotifierOk(Next(s, OtherStep), n)
    {
      assert NotifierOk(s, n);
    }
  }

  lemma WaitKeepsInv(s: State, w: Id, holds: bool)
    requires Inv(s) && w < |s.wait|
    ensures Inv(WaitNext(s, w, holds))
  {
    var t := WaitNext(s, w, holds);
    assert HookOk(s, w) && NodeOk(s, w);
    OthersKept(s, t, w);
    if s.wait[w].Holding? { PushTidy(s.list, HeldBy(s.notifier), s.place, w); }
    forall n | 0 <= n < |s.notifier|
      ensures NotifierOk(t, n)
    {
      WaitKeepsNotifier(s, w, holds, n);
    }
  }

  lemma WaitKeepsNotifier(s: State, w: Id, holds: bool, n: Id)
    requires Inv(s) && w < |s.wait| && n < |s.notifier|
    ensures Sized(WaitNext(s, w, holds)) && NotifierOk(WaitNext(s, w, holds), n)
  {
    assert HookOk(s, w) && NotifierOk(s, n);
    if s.notifier[n].On? { HolderKnows(s, n); }
  }

  lemma TimerKeepsStage(s: State, w: Id, holds: bool, n: Id, stage: Stage)
    requires Sized(s) && w < |s.wait| && HookOk(s, w) && StageOk(s, n, w, stage)
    ensures StageOk(TimerNext(s, w, holds), n, w, stage)
  {
  }

  lemma TimerKeepsHook(s: State, w: Id, holds: bool)
    requires Sized(s) && w < |s.wait| && HookOk(s, w)
    ensures HookOk(TimerNext(s, w, holds), w) && (NodeOk(s, w) ==> NodeOk(TimerNext(s, w, holds), w))
  {
  }

  lemma TimerKeepsInv(s: State, w: Id, holds: bool)
    requires Inv(s) && w < |s.wait|
    ensures Inv(TimerNext(s, w, holds))
  {
    var t := TimerNext(s, w, holds);
    assert HookOk(s, w) && NodeOk(s, w);
    TimerKeepsHook(s, w, holds);
    OthersKept(s, t, w);
    forall n | 0 <= n < |s.notifier|
      ensures NotifierOk(t, n)
    {
      assert NotifierOk(s, n);
      if s.notifier[n].On? && s.notifier[n].w == w { TimerKeepsStage(s, w, holds, n, s.notifier[n].stage); }
    }
  }

  lemma CallbackKeepsInv(s: State, w: Id)
    requires Inv(s) && w < |s.wait|
    ensures Inv(CallbackNext(s, w))
  {
    var t := CallbackNext(s, w);
    CallbackKeepsWait(s, w);
    OthersKept(s, t, w);
    forall n | 0 <= n < |s.notifier|
      ensures NotifierOk(t, n)
    {
      CallbackKeepsNotifier(s, w, n);
    }
  }

  lemma CallbackKeepsWait(s: State, w: Id)
    requires Inv(s) && w < |s.wait|
    ensures var t := CallbackNext(s, w); Sized(t) && Concerns(s, t, w) && HookOk(t, w) && NodeOk(t, w)
  {
    assert HookOk(s, w) && NodeOk(s, w);
  }

  lemma CallbackKeepsNotifier(s: State, w: Id, n: Id)
    requires Inv(s) && w < |s.wait| && n < |s.notifier|
    ensures Sized(CallbackNext(s, w)) && NotifierOk(CallbackNext(s, w), n)
  {
    assert HookOk(s, w) && NodeOk(s, w) && NotifierOk(s, n);
    if s.notifier[n].On? { HolderKnows(s, n); }
  }

  /** The wait a notifier works on, after its step. */
  lemma OnKeepsHook(s: State, n: Id, holds: bool, stop: bool)
    requires Sized(s) && n < |s.notifier| && s.notifier[n].On? && s.notifier[n].w < |s.wait|
    requires var w := s.notifier[n].w; s.place[w] == With(n) && HookOk(s, w) && StageOk(s, n, w, s.notifier[n].stage)
    ensures HookOk(OnNext(s, n, holds, stop), s.notifier[n].w)
  {
  }

  lemma OnKeepsNode(s: State, n: Id, holds: bool, stop: bool)
    requires Sized(s) && n < |s.notifier| && s.notifier[n].On? && s.notifier[n].w < |s.wait|
    requires var w := s.notifier[n].w;
      s.place[w] == With(n) && HookOk(s, w) && NodeOk(s, w) && StageOk(s, n, w, s.notifier[n].stage)
    ensures NodeOk(OnNext(s, n, holds, stop), s.notifier[n].w)
  {
  }

  lemma OnKeepsStage(s: State, n: Id, holds: bool, stop: bool)
    requires Sized(s) && n < |s.notifier| && s.notifier[n].On? && s.notifier[n].w < |s.wait|
    requires var w := s.notifier[n].w;
      s.place[w] == With(n) && HookOk(s, w) && NodeOk(s, w) && StageOk(s, n, w, s.notifier[n].stage)
    requires s.notifier[n].all || s.notifier[n].rest == []
    ensures NotifierOk(OnNext(s, n, holds, stop), n)
  {
  }

  lemma OnKeepsTidy(s: State, n: Id, holds: bool, stop: bool)
    requires Inv(s) && n < |s.notifier| && s.notifier[n].On? && s.notifier[n].w < |s.wait|
    ensures var t := OnNext(s, n, holds, stop); Tidy(t.list, HeldBy(t.notifier), t.place)
  {
    var p, t, held := s.notifier[n], OnNext(s, n, holds, stop), HeldBy(s.notifier);
    assert NotifierOk(s, n);
    HeldByUpdate(s.notifier, n, t.notifier[n]);
    assert t.notifier == s.notifier[n := t.notifier[n]];
    assert held[n] == [p.w] + p.rest && held[n][1..] == p.rest;
    DropTidy(s.list, held, s.place, n);
    if p.stage.Go? || p.stage.Signal? {
      assert HeldBy(t.notifier) == held[n := Held(t.notifier[n])];
    } else if p.stage.PushBack? {
      PushTidy(s.list, held[n := p.rest], s.place[p.w := Nowhere], p.w);
      assert s.place[p.w := Nowhere][p.w := InList] == s.place[p.w := InList];
    } else {
      assert held[n := held[n]] == held;
    }
  }

  lemma OnConcerns(s: State, n: Id, holds: bool, stop: bool)
    requires Sized(s) && n < |s.notifier| && s.notifier[n].On? && s.notifier[n].w < |s.wait|
    requires StageOk(s, n, s.notifier[n].w, s.notifier[n].stage)
    ensures Concerns(s, OnNext(s, n, holds, stop), s.notifier[n].w)
    ensures forall m :: 0 <= m < |s.notifier| && m != n ==> OnNext(s, n, holds, stop).notifier[m] == s.notifier[m]
  {
  }

  lemma OnKeepsInv(s: State, n: Id, holds: bool, stop: bool)
    requires Inv(s) && n < |s.notifier| && s.notifier[n].On?
    ensures Inv(NotifierNext(s, n, false, holds, stop))
  {
    HolderKnows(s, n);
    var w, t := s.notifier[n].w, OnNext(s, n, holds, stop);
    assert NotifierOk(s, n);
    OnKeepsHook(s, n, holds, stop);
    OnKeepsNode(s, n, holds, stop);
    OnKeepsStage(s, n, holds, stop);
    OnKeepsTidy(s, n, holds, stop);
    OnConcerns(s, n, holds, stop);
    OthersKept(s, t, w);
    forall m | 0 <= m < |s.notifier|
      ensures NotifierOk(t, m)
    {
      if m != n && s.notifier[m].On? && s.notifier[m].w == w { OneAtWork(s, n, m); }
    }
  }

  lemma IdleKeepsTidy(s: State, n: Id, all: bool, holds: bool, stop: bool)
    requires Inv(s) && n < |s.notifier| && !s.notifier[n].On?
    ensures var t := NotifierNext(s, n, all, holds, stop); Tidy(t.list, HeldBy(t.notifier), t.place)
  {
    var t, held := NotifierNext(s, n, all, holds, stop), HeldBy(s.notifier);
    HeldByUpdate(s.notifier, n, t.notifier[n]);
    assert held[n := held[n]] == held;
    match s.notifier[n]
    case Idle => if all { TakeTidy(s.list, held, s.place, n); }
    case Single => if s.list != [] { PopTidy(s.list, held, s.place, n); }
    case Walk(rest) => if rest != [] { assert [rest[0]] + rest[1..] == rest; }
  }

  lemma IdleKeepsInv(s: State, n: Id, all: bool, holds: bool, stop: bool)
    requires Inv(s) && n < |s.notifier| && !s.notifier[n].On?
    ensures Inv(NotifierNext(s, n, all, holds, stop))
  {
    var t := NotifierNext(s, n, all, holds, stop);
    IdleKeepsTidy(s, n, all, holds, stop);
    assert Names(HeldBy(t.notifier)[n], t.place, With(n));
    OthersKept(s, t, |s.wait|);
    forall m | 0 <= m < |s.notifier|
      ensures NotifierOk(t, m)
    {
      assert NotifierOk(s, m);
      if m == n && t.notifier[n].On? { assert HeldBy(t.notifier)[n][0] == t.notifier[n].w; }
    }
  }

  lemma NotifierKeepsInv(s: State, n: Id, all: bool, holds: bool, stop: bool)
    requires Inv(s) && n < |s.notifier|
    ensures Inv(NotifierNext(s, n, all, holds, stop))
  {
    if s.notifier[n].On? { OnKeepsInv(s, n, holds, stop); } else { IdleKeepsInv(s, n, all, holds, stop); }
  }

  lemma NextSizes(s: State, m: Move)
    requires Inv(s) && Possible(s, m)
    ensures var t := Next(s, m);
      t.kind == s.kind && |t.wait| == |s.wait| && |t.hook| == |s.hook| && |t.notifier| == |s.notifier|
  {
    if m.NotifierStep? && s.notifier[m.n].On? { HolderKnows(s, m.n); }
  }

  lemma NextKeepsInv(s: State, m: Move)
    requires Inv(s) && Possible(s, m)
    ensures Inv(Next(s, m))
  {
    match m
    case WaitStep(w, holds) => WaitKeepsInv(s, w, holds);
    case TimerStep(w, holds) => TimerKeepsInv(s, w, holds);
    case CallbackStep(w) => CallbackKeepsInv(s, w);
    case NotifierStep(n, all, holds, stop) => NotifierKeepsInv(s, n, all, holds, stop);
    case OtherStep => OtherKeepsInv(s);
  }

  // ----- claimed once, resumed once, holding the mutex -----

  /** The coroutine of wait `w` is resumed: by a notifier, by its callback task or by its timeout task. */
  predicate IsResume(s: State, m: Move, w: Id)
    requires |s.kind| == |s.wait| == |s.hook| && w < |s.wait|
  {
    match m
    case WaitStep(_, _) => false
    case OtherStep => false
    case TimerStep(v, _) => v == w && s.kind[w].timed && s.hook[w].timer.Locked? && Started(s.wait[w])
    case CallbackStep(v) => v == w && s.hook[w].signalled && !s.hook[w].callbackDone && !s.hook[w].timedOut
    case NotifierStep(n, _, _, _) => n < |s.notifier| && s.notifier[n].On? && s.notifier[n].w == w && s.notifier[n].stage.Go?
  }

  /** Every call that resumes a wait finds it suspended and hands it the mutex and a fitting cause. */
  lemma ResumeIsSound(s: State, m: Move, w: Id)
    requires Inv(s) && Possible(s, m) && w < |s.wait| && IsResume(s, m, w)
    ensures s.wait[w].Suspended? && s.owner.For? && s.owner.w == w
    ensures var t := Next(s, m);
      && |t.wait| == |s.wait| && t.owner == For(w, ByUser) && t.wait[w].Resumed? && Fits(s.kind[w], t.wait[w].cause)
      && (t.wait[w].cause.TimedOut? ==> s.hook[w].timedOut)
      && (s.kind[w].timed && !t.wait[w].cause.TimedOut? ==> s.hook[w].completed && !s.hook[w].timedOut)
  {
    assert HookOk(s, w);
    if m.NotifierStep? { HolderKnows(s, m.n); }
  }

  predicate IsBack(w: Wait) {
    w.Resumed? || w.Done?
  }

  /** Nothing but such a call brings a wait back. */
  lemma OnlyResumesResume(s: State, m: Move, w: Id)
    requires Inv(s) && Possible(s, m) && w < |s.wait| && !IsResume(s, m, w)
    ensures w < |Next(s, m).wait| && (IsBack(Next(s, m).wait[w]) <==> IsBack(s.wait[w]))
  {
    assert HookOk(s, w);
    match m
    case NotifierStep(n, all, holds, stop) => NotifierResumes(s, n, all, holds, stop, w);
    case _ =>
  }

  lemma NotifierResumes(s: State, n: Id, all: bool, holds: bool, stop: bool, w: Id)
    requires Inv(s) && n < |s.notifier| && w < |s.wait| && !IsResume(s, NotifierStep(n, all, holds, stop), w)
    ensures w < |NotifierNext(s, n, all, holds, stop).wait|
    ensures IsBack(NotifierNext(s, n, all, holds, stop).wait[w]) <==> IsBack(s.wait[w])
  {
    assert HookOk(s, w);
    if s.notifier[n].On? { HolderKnows(s, n); }
  }

  /** A notifier is told, in this very step, that wait `w` is ready for cause `c`. */
  predicate AsksReady(s: State, m: Move, w: Id, c: Cause)
    requires w < |s.kind|
  {
    && m.NotifierStep? && m.n < |s.notifier| && s.notifier[m.n].On? && s.notifier[m.n].w == w && s.notifier[m.n].stage.Ask?
    && match c
       case NoPredicate => !s.kind[w].hasPredicate
       case PredicateTrue => s.kind[w].hasPredicate && m.holds
       case StopRequested => s.kind[w].hasPredicate && !m.holds && s.kind[w].hasStop && m.stop
       case TimedOut => false
  }

  /** A step in which the notifier, or the timer, claims timed wait `w`. */
  predicate NotifyClaims(s: State, m: Move, w: Id)
    requires |s.kind| == |s.hook| && w < |s.hook|
  {
    s.kind[w].timed && (AsksReady(s, m, w, NoPredicate) || AsksReady(s, m, w, PredicateTrue) || AsksReady(s, m, w, StopRequested))
  }

  predicate TimerClaims(s: State, m: Move, w: Id)
    requires |s.kind| == |s.wait| == |s.hook| && w < |s.hook|
  {
    m.TimerStep? && m.w == w && s.kind[w].timed && s.hook[w].timer.EventLocked? && !s.hook[w].completed
    && Started(s.wait[w])
  }

  lemma NotifierClaimIsFirst(s: State, n: Id, holds: bool, stop: bool, w: Id)
    requires Inv(s) && n < |s.notifier| && w < |s.wait| && s.notifier[n].On?
    ensures var t, claims := NotifierNext(s, n, false, holds, stop), NotifyClaims(s, NotifierStep(n, false, holds, stop), w);
      w < |t.hook| && (claims ==> !s.hook[w].completed) && (t.hook[w].completed <==> s.hook[w].completed || claims)
  {
    HolderKnows(s, n);
  }

  lemma ClaimIsFirst(s: State, m: Move, w: Id)
    requires Inv(s) && Possible(s, m) && w < |s.wait|
    ensures w < |Next(s, m).hook|
    ensures NotifyClaims(s, m, w) || TimerClaims(s, m, w) ==> !s.hook[w].completed
    ensures var h, h' := s.hook[w], Next(s, m).hook[w];
      h'.completed <==> h.completed || NotifyClaims(s, m, w) || TimerClaims(s, m, w)
  {
    match m
    case NotifierStep(n, _, holds, stop) => if s.notifier[n].On? { NotifierClaimIsFirst(s, n, holds, stop, w); }
    case _ =>
  }

  // ----- whole runs -----

  ghost predicate Legal(s: State, ms: seq<Move>) {
    Inv(s) && forall k :: 0 <= k < |ms| ==> Possible(s, ms[k])
  }

  function Exec(s: State, ms: seq<Move>): (t: State)
    requires Legal(s, ms)
    ensures Inv(t) && |t.wait| == |s.wait| && t.kind == s.kind
    decreases |ms|
  {
    if ms == [] then s else NextKeepsInv(s, ms[0]); NextSizes(s, ms[0]); Exec(Next(s, ms[0]), ms[1..])
  }

  /** How often wait `w` is resumed, claimed by a notification, claimed by its timeout. */
  function Resumes(s: State, ms: seq<Move>, w: Id): (n: nat)
    requires Legal(s, ms) && w < |s.wait|
    decreases |ms|
  {
    if ms == [] then 0
    else
      NextKeepsInv(s, ms[0]); NextSizes(s, ms[0]);
      One(IsResume(s, ms[0], w)) + Resumes(Next(s, ms[0]), ms[1..], w)
  }

  function Claims(s: State, ms: seq<Move>, w: Id): (n: nat)
    requires Legal(s, ms) && w < |s.wait|
    decreases |ms|
  {
    if ms == [] then 0
    else
      NextKeepsInv(s, ms[0]); NextSizes(s, ms[0]);
      One(NotifyClaims(s, ms[0], w)) + One(TimerClaims(s, ms[0], w)) + Claims(Next(s, ms[0]), ms[1..], w)
  }

  lemma {:induction false} RunCounts(s: State, ms: seq<Move>, w: Id)
    requires Legal(s, ms) && w < |s.wait|
    ensures One(IsBack(s.wait[w])) + Resumes(s, ms, w) == One(IsBack(Exec(s, ms).wait[w]))
    ensures One(s.hook[w].completed) + Claims(s, ms, w) == One(Exec(s, ms).hook[w].completed)
    decreases |ms|
  {
    if ms != [] {
      NextKeepsInv(s, ms[0]);
      NextSizes(s, ms[0]);
      if IsResume(s, ms[0], w) { ResumeIsSound(s, ms[0], w); } else { OnlyResumesResume(s, ms[0], w); }
      ClaimIsFirst(s, ms[0], w);
      RunCounts(Next(s, ms[0]), ms[1..], w);
    }
  }

  lemma InitInv(s: State)
    requires Init(s)
    ensures Inv(s)
  {
    var held := HeldBy(s.notifier);
    forall t | 0 <= t < |held|
      ensures Names(held[t], s.place, With(t))
    {
      assert s.notifier[t] == Idle;
    }
  }

  /**
   * Over every run: a timed wait is claimed at most once, by a notification or by its timeout
   * and never both; a wait of any kind is resumed at most once.
   */
  lemma ClaimedAndResumedOnce(s: State, ms: seq<Move>, w: Id)
    requires Init(s) && Legal(s, ms) && w < |s.wait|
    ensures Claims(s, ms, w) == One(Exec(s, ms).hook[w].completed) <= 1
    ensures Resumes(s, ms, w) == One(IsBack(Exec(s, ms).wait[w])) <= 1
  {
    RunCounts(s, ms, w);
  }

  // ----- resumed for a reason seen while the mutex was held -----

  lemma {:induction false} ExecLast(s: State, ms: seq<Move>)
    requires Legal(s, ms) && ms != []
    ensures var front, last := ms[..|ms| - 1], ms[|ms| - 1];
      Possible(Exec(s, front), last) && Exec(s, ms) == Next(Exec(s, front), last)
    decreases |ms|
  {
    NextKeepsInv(s, ms[0]);
    NextSizes(s, ms[0]);
    var u, front := Next(s, ms[0]), ms[..|ms| - 1];
    if |ms| == 1 {
      assert front == [] && Exec(u, ms[1..]) == u;
    } else {
      ExecLast(u, ms[1..]);
      assert ms[1..][..|ms| - 2] == front[1..];
      assert Exec(s, front) == Exec(u, front[1..]);
    }
  }

  /** A notification has found wait `w` ready for cause `c` and has not yet resumed it. */
  ghost predicate Decided(s: State, w: Id, c: Cause)
    requires Sized(s) && w < |s.wait|
  {
    if s.kind[w].timed then s.wait[w].Suspended? && s.hook[w].completed && !s.hook[w].timedOut && s.hook[w].cause == c
    else
      && s.place[w].With? && s.place[w].t < |s.notifier|
      && var p := s.notifier[s.place[w].t]; p.On? && p.w == w && p.stage == Go(c)
  }

  lemma DecidedHolds(s: State, w: Id, c: Cause)
    requires Inv(s) && w < |s.wait| && Decided(s, w, c)
    ensures s.owner.For? && s.owner.w == w
  {
    assert HookOk(s, w) && NodeOk(s, w);
    if s.place[w].With? { HolderKnows(s, s.place[w].t); }
  }

  /** The wait a notifier is at work on. */
  lemma OnDecides(s: State, n: Id, holds: bool, stop: bool, c: Cause)
    requires Sized(s) && n < |s.notifier| && s.notifier[n].On? && s.notifier[n].w < |s.wait|
    requires var w := s.notifier[n].w; s.place[w] == With(n) && StageOk(s, n, w, s.notifier[n].stage)
    requires Sized(OnNext(s, n, holds, stop)) && Decided(OnNext(s, n, holds, stop), s.notifier[n].w, c)
    ensures Decided(s, s.notifier[n].w, c) || AsksReady(s, NotifierStep(n, false, holds, stop), s.notifier[n].w, c)
  {
  }

  /** Any other wait. */
  lemma OnLeavesDecided(s: State, n: Id, holds: bool, stop: bool, v: Id, c: Cause)
    requires Sized(s) && n < |s.notifier| && s.notifier[n].On? && s.notifier[n].w < |s.wait| && v < |s.wait| && v != s.notifier[n].w
    requires Sized(OnNext(s, n, holds, stop)) && Decided(OnNext(s, n, holds, stop), v, c)
    ensures Decided(s, v, c)
  {
  }

  lemma IdleLeavesDecided(s: State, n: Id, all: bool, holds: bool, stop: bool, v: Id, c: Cause)
    requires Inv(s) && n < |s.notifier| && !s.notifier[n].On? && v < |s.wait|
    requires Sized(NotifierNext(s, n, all, holds, stop)) && Decided(NotifierNext(s, n, all, holds, stop), v, c)
    ensures Decided(s, v, c)
  {
  }

  lemma DecidedByNotifier(s: State, n: Id, all: bool, holds: bool, stop: bool, w: Id, c: Cause)
    requires Inv(s) && n < |s.notifier| && w < |s.wait| && Sized(NotifierNext(s, n, all, holds, stop))
    requires Decided(NotifierNext(s, n, all, holds, stop), w, c)
    ensures Decided(s, w, c) || AsksReady(s, NotifierStep(n, all, holds, stop), w, c)
  {
    if !s.notifier[n].On? {
      IdleLeavesDecided(s, n, all, holds, stop, w, c);
    } else {
      HolderKnows(s, n);
      if w == s.notifier[n].w { OnDecides(s, n, holds, stop, c); } else { OnLeavesDecided(s, n, holds, stop, w, c); }
    }
  }

  lemma WaitLeavesDecided(s: State, v: Id, holds: bool, w: Id, c: Cause)
    requires Sized(s) && v < |s.wait| && w < |s.wait| && HookOk(s, v) && Decided(WaitNext(s, v, holds), w, c)
    ensures Decided(s, w, c)
  {
  }

  lemma TasksLeaveDecided(s: State, v: Id, holds: bool, w: Id, c: Cause)
    requires Sized(s) && v < |s.wait| && w < |s.wait| && HookOk(s, v)
    requires Decided(TimerNext(s, v, holds), w, c) || Decided(CallbackNext(s, v), w, c)
    ensures Decided(s, w, c)
  {
  }

  /** Nothing but asking, with that answer, makes a wait ready. */
  lemma DecidedByAsking(s: State, m: Move, w: Id, c: Cause)
    requires Inv(s) && Possible(s, m) && w < |s.wait| && Sized(Next(s, m)) && |Next(s, m).wait| == |s.wait| && Decided(Next(s, m), w, c)
    ensures Decided(s, w, c) || AsksReady(s, m, w, c)
  {
    match m
    case WaitStep(v, holds) => assert HookOk(s, v); WaitLeavesDecided(s, v, holds, w, c);
    case TimerStep(v, holds) => assert HookOk(s, v); TasksLeaveDecided(s, v, holds, w, c);
    case CallbackStep(v) => assert HookOk(s, v); TasksLeaveDecided(s, v, false, w, c);
    case NotifierStep(n, all, holds, stop) => DecidedByNotifier(s, n, all, holds, stop, w, c);
    case OtherStep =>
  }

  /** Move `k` asked and was told ready for `c`; since then the mutex has been held for `w`. */
  ghost predicate SeenReady(s: State, ms: seq<Move>, k: nat, w: Id, c: Cause)
    requires Legal(s, ms) && w < |s.wait|
  {
    && k < |ms| && AsksReady(Exec(s, ms[..k]), ms[k], w, c)
    && forall j :: k < j <= |ms| ==> Exec(s, ms[..j]).owner.For? && Exec(s, ms[..j]).owner.w == w
  }

  /** What holds at every prefix of a run and at its end holds at every prefix of the whole. */
  lemma Prefixes(ms: seq<Move>, j: nat)
    requires ms != [] && j <= |ms|
    ensures if j < |ms| then ms[..|ms| - 1][..j] == ms[..j] else ms[..j] == ms
  {
  }

  lemma SeenExtends(s: State, ms: seq<Move>, k: nat, w: Id, c: Cause)
    requires Legal(s, ms) && ms != [] && w < |s.wait| && SeenReady(s, ms[..|ms| - 1], k, w, c)
    requires Exec(s, ms).owner.For? && Exec(s, ms).owner.w == w
    ensures SeenReady(s, ms, k, w, c)
  {
    Prefixes(ms, k);
    forall j | k < j <= |ms|
      ensures Exec(s, ms[..j]).owner.For? && Exec(s, ms[..j]).owner.w == w
    {
      Prefixes(ms, j);
    }
  }

  lemma SeenNow(s: State, ms: seq<Move>, w: Id, c: Cause)
    requires Legal(s, ms) && ms != [] && w < |s.wait| && AsksReady(Exec(s, ms[..|ms| - 1]), ms[|ms| - 1], w, c)
    requires Exec(s, ms).owner.For? && Exec(s, ms).owner.w == w
    ensures SeenReady(s, ms, |ms| - 1, w, c)
  {
    Prefixes(ms, |ms|);
  }

  lemma {:induction false} DecisionWasSeen(s: State, ms: seq<Move>, w: Id, c: Cause) returns (k: nat)
    requires Init(s) && Legal(s, ms) && w < |s.wait| && Decided(Exec(s, ms), w, c)
    ensures SeenReady(s, ms, k, w, c)
    decreases |ms|
  {
    assert ms != [];
    var last := |ms| - 1;
    ExecLast(s, ms);
    DecidedHolds(Exec(s, ms), w, c);
    DecidedByAsking(Exec(s, ms[..last]), ms[last], w, c);
    if Decided(Exec(s, ms[..last]), w, c) {
      k := DecisionWasSeen(s, ms[..last], w, c);
      SeenExtends(s, ms, k, w, c);
    } else {
      k := last;
      SeenNow(s, ms, w, c);
    }
  }

  lemma {:induction false} TimeoutWasClaimed(s: State, ms: seq<Move>, w: Id) returns (k: nat)
    requires Init(s) && Legal(s, ms) && w < |s.wait| && Exec(s, ms).hook[w].timedOut
    ensures k < |ms| && TimerClaims(Exec(s, ms[..k]), ms[k], w)
    decreases |ms|
  {
    var front, last := ms[..|ms| - 1], ms[|ms| - 1];
    ExecLast(s, ms);
    if Exec(s, front).hook[w].timedOut {
      k := TimeoutWasClaimed(s, front, w);
      assert front[..k] == ms[..k];
    } else {
      k := |ms| - 1;
      OnlyTimersTimeOut(Exec(s, front), last, w);
    }
  }

  lemma OnlyTimersTimeOut(s: State, m: Move, w: Id)
    requires Inv(s) && Possible(s, m) && w < |s.wait| && w < |Next(s, m).hook| && Next(s, m).hook[w].timedOut && !s.hook[w].timedOut
    ensures TimerClaims(s, m, w)
  {
    if m.NotifierStep? && s.notifier[m.n].On? { HolderKnows(s, m.n); }
  }

  lemma ResumeDecided(s: State, m: Move, w: Id)
    requires Inv(s) && Possible(s, m) && w < |s.wait| && IsResume(s, m, w)
    ensures w < |Next(s, m).wait| && Next(s, m).wait[w].Resumed?
    ensures var r := Next(s, m).wait[w];
      if m.TimerStep? then r.cause.TimedOut? && r.result == (m.holds || !s.kind[w].hasPredicate) && s.hook[w].timedOut
      else Decided(s, w, r.cause) && r.result == !r.cause.StopRequested?
  {
    assert HookOk(s, w);
    if m.NotifierStep? { HolderKnows(s, m.n); }
  }

  /**
   * Over every run, whoever resumes a wait holds the user's mutex for it and passes it on, and the
   * reason is real. A notification found, at some earlier step since which the mutex has been held
   * for this wait, that there is no predicate, or the predicate true, or it false and a stop
   * requested; or the timeout claimed the wait, and the predicate is asked as the wait is resumed.
   * The result is what the predicate said.
   */
  lemma ResumedForItsCause(s: State, ms: seq<Move>, m: Move, w: Id)
    requires Init(s) && Legal(s, ms) && w < |s.wait|
    requires Possible(Exec(s, ms), m) && IsResume(Exec(s, ms), m, w)
    ensures var t := Exec(s, ms);
      && t.wait[w].Suspended? && t.owner.For? && t.owner.w == w && Next(t, m).owner == For(w, ByUser)
      && w < |Next(t, m).wait| && Next(t, m).wait[w].Resumed?
    ensures var r := Next(Exec(s, ms), m).wait[w];
      if m.TimerStep?
      then
        && (exists k :: 0 <= k < |ms| && TimerClaims(Exec(s, ms[..k]), ms[k], w))
        && r.cause.TimedOut? && r.result == (m.holds || !s.kind[w].hasPredicate)
      else (exists k :: SeenReady(s, ms, k, w, r.cause)) && r.result == !r.cause.StopRequested?
  {
    var t := Exec(s, ms);
    ResumeIsSound(t, m, w);
    ResumeDecided(t, m, w);
    if m.TimerStep? {
      var k := TimeoutWasClaimed(s, ms, w);
    } else {
      var k := DecisionWasSeen(s, ms, w, Next(t, m).wait[w].cause);
    }
  }

  lemma ThroughByPredicate(s: State, m: Move, w: Id)
    requires Inv(s) && Possible(s, m) && w < |s.wait| && w < |Next(s, m).wait| && Next(s, m).wait[w].Through?
    ensures s.owner == For(w, ByUser)
    ensures s.wait[w].Through? || (m == WaitStep(w, true) && s.kind[w].hasPredicate)
  {
    assert HookOk(s, w);
    if m.NotifierStep? && s.notifier[m.n].On? { HolderKnows(s, m.n); }
  }

  /** Move `k` found the predicate true, and the mutex has been the user's since before it. */
  ghost predicate SeenTrue(s: State, ms: seq<Move>, k: nat, w: Id)
    requires Legal(s, ms) && w < |s.wait|
  {
    && k < |ms| && ms[k] == WaitStep(w, true) && s.kind[w].hasPredicate
    && forall j :: k <= j <= |ms| ==> Exec(s, ms[..j]).owner == For(w, ByUser)
  }

  /** A wait that went through without suspending saw its predicate true and has held the mutex since. */
  lemma {:induction false} ThroughMeansTrue(s: State, ms: seq<Move>, w: Id) returns (k: nat)
    requires Init(s) && Legal(s, ms) && w < |s.wait| && Exec(s, ms).wait[w].Through?
    ensures SeenTrue(s, ms, k, w)
    decreases |ms|
  {
    assert ms != [];
    var last := |ms| - 1;
    ExecLast(s, ms);
    ThroughByPredicate(Exec(s, ms[..last]), ms[last], w);
    assert Exec(s, ms).owner == For(w, ByUser) by { assert HookOk(Exec(s, ms), w); }
    if Exec(s, ms[..last]).wait[w].Through? {
      k := ThroughMeansTrue(s, ms[..last], w);
      TrueExtends(s, ms, ms[..last], k, w);
    } else {
      k := last;
      assert ms[..last][..last] == ms[..last];
      TrueExtends(s, ms, ms[..last], k, w);
    }
  }

  lemma TrueExtends(s: State, ms: seq<Move>, front: seq<Move>, k: nat, w: Id)
    requires Legal(s, ms) && w < |s.wait| && k < |ms| && ms[k] == WaitStep(w, true) && s.kind[w].hasPredicate
    requires Legal(s, front) && front == ms[..|ms| - 1] && forall j :: k <= j < |ms| ==> Exec(s, front[..j]).owner == For(w, ByUser)
    requires Exec(s, ms).owner == For(w, ByUser)
    ensures SeenTrue(s, ms, k, w)
  {
    forall j | k <= j <= |ms|
      ensures Exec(s, ms[..j]).owner == For(w, ByUser)
    {
      Prefixes(ms, j);
    }
  }
}
