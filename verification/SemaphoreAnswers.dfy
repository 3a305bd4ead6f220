/**
 * What calls on `coro::semaphore` come to (include/coro/semaphore.hpp:42-75, 114-155): every call
 * begun is decided once, for a reason read off the counter, the list and the flag before and after
 * the step, and returns once.
 */
module SemaphoreAnswers {
  import opened Prelude
  import opened Rosters
  import opened Semaphore

  datatype Kind = Trying | Acquiring | Releasing

  predicate Begins(s: State, m: Move, i: Id, k: Kind)
    requires i < |s.pc|
  {
    m.id == i && s.pc[i].Idle? && (match k case Trying => m.call.DoTry? case Acquiring => m.call.DoAcquire? case Releasing => m.call.DoRelease?)
  }

  /** Begun and not yet decided. */
  predicate Under(pc: Pc, k: Kind) {
    match k
    case Trying => pc.TryLoad? || pc.TryExchange?
    case Acquiring => pc.AcquireLock? || pc.AcquireFlag? || pc.AcquireLoad? || pc.AcquireExchange? || pc.AcquirePush?
    case Releasing => pc.ReleaseLock? || pc.ReleaseValue? || pc.ReleasePop? || pc.ReleaseAdd?
  }

  /** Decided and not yet back with its caller. */
  predicate After(pc: Pc, k: Kind) {
    match k
    case Trying => pc.TryDone?
    case Acquiring => pc.AcquireUnlock? || pc.SuspendUnlock? || pc.Waiting? || pc.Report?
    case Releasing => pc.ReleaseUnlock? || pc.PassUnlock? || pc.PassOn?
  }

  predicate Returns(s: State, m: Move, i: Id, k: Kind)
    requires Inv(s) && m.id < |s.pc| == |Next(s, m).pc| && i < |s.pc|
  {
    After(s.pc[i], k) && Next(s, m).pc[i].Idle?
  }

  // ----- the reasons -----

  /** One token leaves the counter. */
  predicate Took(s: State, m: Move)
    requires Inv(s) && m.id < |s.pc|
  {
    Next(s, m).counter == s.counter - 1
  }

  /** The newest waiter leaves the list with a token. */
  predicate Passed(s: State, m: Move)
    requires Inv(s) && m.id < |s.pc|
  {
    var t := Next(s, m);
    && s.waiters != [] && t.waiters == s.waiters[1..] && s.waiters[0] < |s.pc| == |t.pc|
    && s.pc[s.waiters[0]] == Waiting(false) && t.pc[s.waiters[0]] == Waiting(true)
  }

  /** One token more in the counter, or one passed on. */
  predicate Gave(s: State, m: Move)
    requires Inv(s) && m.id < |s.pc|
  {
    Next(s, m).counter == s.counter + 1 || Passed(s, m)
  }

  predicate Enlisted(s: State, m: Move)
    requires Inv(s) && m.id < |s.pc|
  {
    Next(s, m).waiters == [m.id] + s.waiters
  }

  /** The call gets its token, or gives one. */
  predicate Granted(s: State, m: Move, i: Id, k: Kind)
    requires Inv(s) && m.id < |s.pc| && i < |s.pc|
  {
    m.id == i && Under(s.pc[i], k) && if k.Releasing? then Gave(s, m) else Took(s, m)
  }

  /** It sees that there is nothing to take, that the semaphore is shut down, or that it is full. */
  predicate Declined(s: State, m: Move, i: Id, k: Kind)
    requires i < |s.pc|
  {
    m.id == i && Under(s.pc[i], k) &&
    match k
    case Trying => s.counter == 0
    case Acquiring => s.pc[i].AcquireFlag? && s.shut
    case Releasing => s.pc[i].ReleaseValue? && s.counter == s.max
  }

  /** It joins the list, with nothing to take and the semaphore not shut down. */
  predicate Joins(s: State, m: Move, i: Id, k: Kind)
    requires Inv(s) && m.id < |s.pc| && i < |s.pc|
  {
    m.id == i && k.Acquiring? && Under(s.pc[i], k) && Enlisted(s, m) && s.counter == 0 && !s.shut
  }

  function Reasons(s: State, m: Move, i: Id, k: Kind): (n: nat)
    requires Inv(s) && m.id < |s.pc| && i < |s.pc|
  {
    One(Granted(s, m, i, k)) + One(Declined(s, m, i, k)) + One(Joins(s, m, i, k))
  }

  ghost predicate Decided(s: State, m: Move, i: Id, k: Kind)
    requires Inv(s) && m.id < |s.pc| == |Next(s, m).pc| && i < |s.pc|
  {
    var pc, pc' := s.pc[i], Next(s, m).pc[i];
    && One(Under(pc, k)) + One(Begins(s, m, i, k)) == Reasons(s, m, i, k) + One(Under(pc', k))
    && One(After(pc, k)) + Reasons(s, m, i, k) == One(Returns(s, m, i, k)) + One(After(pc', k))
  }

  /** A step that is about tokens changes the counter by at most one, and the list by its own node or the first. */
  lemma TryDecided(s: State, m: Move)
    requires Inv(s) && m.id < |s.pc| == |Next(s, m).pc| && (s.pc[m.id].TryLoad? || s.pc[m.id].TryExchange? || s.pc[m.id].TryDone?)
    ensures forall k :: Decided(s, m, m.id, k)
  {
    assert Knows(s, s.pc[m.id]) by { assert Task(s, m.id); }
    forall k
      ensures Decided(s, m, m.id, k)
    {
    }
  }

  lemma AcquireDecided(s: State, m: Move, k: Kind)
    requires Inv(s) && m.id < |s.pc| == |Next(s, m).pc| && (Under(s.pc[m.id], Acquiring) || After(s.pc[m.id], Acquiring))
    ensures Decided(s, m, m.id, k)
  {
    if Under(s.pc[m.id], Acquiring) { AcquireIsDecided(s, m, k); } else { AcquireReturns(s, m, k); }
  }

  lemma AcquireIsDecided(s: State, m: Move, k: Kind)
    requires Inv(s) && m.id < |s.pc| == |Next(s, m).pc| && Under(s.pc[m.id], Acquiring)
    ensures Decided(s, m, m.id, k)
  {
    assert Knows(s, s.pc[m.id]) by { assert Task(s, m.id); }
    if !s.pc[m.id].AcquirePush? { assert |[m.id] + s.waiters| != |s.waiters|; }
  }

  lemma AcquireReturns(s: State, m: Move, k: Kind)
    requires Inv(s) && m.id < |s.pc| == |Next(s, m).pc| && After(s.pc[m.id], Acquiring)
    ensures Decided(s, m, m.id, k)
  {
  }

  lemma ReleaseDecided(s: State, m: Move, k: Kind)
    requires Inv(s) && m.id < |s.pc| == |Next(s, m).pc| && (Under(s.pc[m.id], Releasing) || After(s.pc[m.id], Releasing))
    ensures Decided(s, m, m.id, k)
  {
    assert Knows(s, s.pc[m.id]) by { assert Task(s, m.id); }
    if s.pc[m.id].ReleasePop? {
      PopDecided(s, m, k);
    } else if Under(s.pc[m.id], Releasing) {
      if s.waiters != [] { NotPassed(s, m); }
    } else {
      ReleaseReturns(s, m, k);
    }
  }

  lemma ReleaseReturns(s: State, m: Move, k: Kind)
    requires Inv(s) && m.id < |s.pc| == |Next(s, m).pc| && After(s.pc[m.id], Releasing)
    ensures Decided(s, m, m.id, k)
  {
    if Partner(s, m.id).Some? { PartnerWaits(s, m.id); }
  }

  lemma PopDecided(s: State, m: Move, k: Kind)
    requires Inv(s) && m.id < |s.pc| == |Next(s, m).pc| && s.pc[m.id].ReleasePop?
    ensures Decided(s, m, m.id, k)
  {
    if s.waiters != [] { PartnerWaits(s, m.id); PartnerGoesOn(s, m); }
    assert |[m.id] + s.waiters| > |s.waiters|;
  }

  lemma RestDecided(s: State, m: Move, k: Kind)
    requires Inv(s) && m.id < |s.pc| == |Next(s, m).pc|
    requires s.pc[m.id].Idle? || s.pc[m.id].ShutFlag? || s.pc[m.id].ShutLock? || s.pc[m.id].ShutExchange? || s.pc[m.id].ShutMissed?
      || s.pc[m.id].ShutTake? || s.pc[m.id].ShutUnlock? || s.pc[m.id].ShutWalk?
    ensures Decided(s, m, m.id, k)
  {
    if !s.pc[m.id].Idle? { ShutdownDecides(s, m, k); }
  }

  lemma ShutdownDecides(s: State, m: Move, k: Kind)
    requires Inv(s) && m.id < |s.pc| == |Next(s, m).pc|
    requires s.pc[m.id].ShutFlag? || s.pc[m.id].ShutLock? || s.pc[m.id].ShutExchange? || s.pc[m.id].ShutMissed?
      || s.pc[m.id].ShutTake? || s.pc[m.id].ShutUnlock? || s.pc[m.id].ShutWalk?
    ensures !Under(Next(s, m).pc[m.id], k) && !After(Next(s, m).pc[m.id], k)
  {
    PartnerInRange(s, m.id);
  }

  lemma OthersDecided(s: State, m: Move, i: Id, k: Kind)
    requires Inv(s) && m.id < |s.pc| == |Next(s, m).pc| && i < |s.pc| && i != m.id
    ensures Decided(s, m, i, k)
  {
    NextFrames(s, m);
    if Partner(s, m.id) == Some(i) { PartnerWaits(s, m.id); PartnerGoesOn(s, m); }
  }

  lemma StepDecided(s: State, m: Move, i: Id, k: Kind)
    requires Inv(s) && m.id < |s.pc| && i < |s.pc|
    ensures |Next(s, m).pc| == |s.pc| && Decided(s, m, i, k)
  {
    NextSizes(s, m);
    var pc := s.pc[m.id];
    if i != m.id { OthersDecided(s, m, i, k); }
    else if Under(pc, Trying) || After(pc, Trying) { TryDecided(s, m); }
    else if Under(pc, Acquiring) || After(pc, Acquiring) { AcquireDecided(s, m, k); }
    else if Under(pc, Releasing) || After(pc, Releasing) { ReleaseDecided(s, m, k); }
    else { RestDecided(s, m, k); }
  }

  /** The releases accepted are exactly the steps that gave a token. */
  lemma GivenMeansGave(s: State, m: Move)
    requires Inv(s) && m.id < |s.pc|
    ensures Next(s, m).given - s.given == One(Gave(s, m))
  {
    assert Knows(s, s.pc[m.id]) by { assert Task(s, m.id); }
    NextSizes(s, m);
    if s.pc[m.id].ReleasePop? && s.waiters != [] { PartnerWaits(s, m.id); PartnerGoesOn(s, m); }
    if s.waiters != [] && !s.pc[m.id].ReleasePop? { NotPassed(s, m); }
  }

  lemma NotPassed(s: State, m: Move)
    requires Inv(s) && m.id < |s.pc| && s.waiters != [] && !s.pc[m.id].ReleasePop?
    ensures !Passed(s, m)
  {
    assert |s.waiters[1..]| != |s.waiters|;
    if s.pc[m.id].ShutTake? { EnlistedWait(s, m.id, 0); }
  }

  // ----- whole runs -----

  datatype Tally = Tally(begun: nat, granted: nat, declined: nat, joined: nat, returned: nat)

  function Tallied(s: State, ms: seq<Move>, i: Id, k: Kind): (c: Tally)
    requires Legal(s, ms) && i < |s.pc|
    decreases |ms|
  {
    if ms == [] then Tally(0, 0, 0, 0, 0)
    else
      NextKeepsInv(s, ms[0]);
      var c := Tallied(Next(s, ms[0]), ms[1..], i, k);
      Tally(One(Begins(s, ms[0], i, k)) + c.begun, One(Granted(s, ms[0], i, k)) + c.granted, One(Declined(s, ms[0], i, k)) + c.declined,
            One(Joins(s, ms[0], i, k)) + c.joined, One(Returns(s, ms[0], i, k)) + c.returned)
  }

  lemma {:induction false} RunDecided(s: State, ms: seq<Move>, i: Id, k: Kind)
    requires Legal(s, ms) && i < |s.pc|
    ensures var c, pc, pc' := Tallied(s, ms, i, k), s.pc[i], Exec(s, ms).pc[i];
      && One(Under(pc, k)) + c.begun == c.granted + c.declined + c.joined + One(Under(pc', k))
      && One(After(pc, k)) + c.granted + c.declined + c.joined == c.returned + One(After(pc', k))
    decreases |ms|
  {
    if ms != [] {
      NextKeepsInv(s, ms[0]);
      StepDecided(s, ms[0], i, k);
      RunDecided(Next(s, ms[0]), ms[1..], i, k);
    }
  }

  /**
   * Over every run and for every task, each call begun is decided once and returns once, but for the
   * one it may be in. A try takes a token exactly unless it sees none; an acquire takes one, or finds
   * the semaphore shut down, or joins the list with none to take; a release gives one, to the counter
   * or to the newest waiter, exactly unless it sees the counter at its maximum.
   */
  lemma EveryCallIsAnswered(s: State, ms: seq<Move>, i: Id, k: Kind)
    requires Init(s) && Legal(s, ms) && i < |s.pc|
    ensures var c, pc := Tallied(s, ms, i, k), Exec(s, ms).pc[i];
      && c.begun == c.granted + c.declined + c.joined + One(Under(pc, k))
      && c.granted + c.declined + c.joined == c.returned + One(After(pc, k))
      && (!k.Acquiring? ==> c.joined == 0)
  {
    RunDecided(s, ms, i, k);
    OnlyAcquiresJoin(s, ms, i, k);
  }

  lemma {:induction false} OnlyAcquiresJoin(s: State, ms: seq<Move>, i: Id, k: Kind)
    requires Legal(s, ms) && i < |s.pc|
    ensures !k.Acquiring? ==> Tallied(s, ms, i, k).joined == 0
    decreases |ms|
  {
    if ms != [] {
      NextKeepsInv(s, ms[0]);
      OnlyAcquiresJoin(Next(s, ms[0]), ms[1..], i, k);
    }
  }

  /** A try says it has a token exactly if it took one; an acquire says acquired exactly before shutdown. */
  lemma SaysWhatItGot(s: State, m: Move)
    requires Inv(s) && m.id < |s.pc|
    ensures var pc, t := s.pc[m.id], Next(s, m);
      && m.id < |t.pc|
      && (Under(pc, Trying) && After(t.pc[m.id], Trying) ==> (t.pc[m.id].token <==> Took(s, m)))
      && (pc.TryDone? ==> t.told == s.told + One(pc.token))
      && (pc.Report? ==> t.told == s.told + One(!s.shut))
      && (!pc.TryDone? && !pc.Report? ==> t.told == s.told)
  {
    NextSizes(s, m);
    assert Knows(s, s.pc[m.id]) by { assert Task(s, m.id); }
    if !(Under(s.pc[m.id], Trying) || s.pc[m.id].TryDone? || s.pc[m.id].Report?) { SilentStep(s, m); }
  }

  lemma SilentStep(s: State, m: Move)
    requires Inv(s) && m.id < |s.pc| && !s.pc[m.id].TryDone? && !s.pc[m.id].Report?
    ensures Next(s, m).told == s.told
  {
  }

  /** A release that has passed its token on wakes that waiter, token in hand, by its second move. */
  lemma {:induction false} PassWakes(s: State, ms: seq<Move>, i: Id)
    requires Legal(s, ms) && i < |s.pc| && (s.pc[i].PassUnlock? || s.pc[i].PassOn?)
    requires MovesOf(ms, i) == (if s.pc[i].PassUnlock? then 2 else 1)
    ensures RousedBy(s, ms, i) == [s.pc[i].w] && Exec(s, ms).pc[i].Idle?
    decreases |ms|
  {
    NextKeepsInv(s, ms[0]);
    PassStep(s, ms[0], i);
    if ms[0].id == i && s.pc[i].PassOn? {
      StaysIdle(Next(s, ms[0]), ms[1..], i);
    } else {
      PassWakes(Next(s, ms[0]), ms[1..], i);
    }
  }

  lemma PassStep(s: State, m: Move, i: Id)
    requires Inv(s) && m.id < |s.pc| && i < |s.pc| && (s.pc[i].PassUnlock? || s.pc[i].PassOn?)
    ensures i < |Next(s, m).pc|
    ensures if m.id != i then Next(s, m).pc[i] == s.pc[i]
      else if s.pc[i].PassUnlock? then Next(s, m).pc[i] == PassOn(s.pc[i].w) && Roused(s, m) == []
      else Next(s, m).pc[i].Idle? && Roused(s, m) == [s.pc[i].w] && Next(s, m).pc[s.pc[i].w] == Report(true)
  {
    NextFrames(s, m);
    if Partner(s, m.id).Some? { PartnerWaits(s, m.id); PartnerGoesOn(s, m); }
  }

  lemma {:induction false} StaysIdle(s: State, ms: seq<Move>, i: Id)
    requires Legal(s, ms) && i < |s.pc| && s.pc[i].Idle? && MovesOf(ms, i) == 0
    ensures Exec(s, ms).pc[i].Idle? && RousedBy(s, ms, i) == []
    decreases |ms|
  {
    if ms != [] {
      NextKeepsInv(s, ms[0]);
      NextFrames(s, ms[0]);
      if Partner(s, ms[0].id).Some? { PartnerWaits(s, ms[0].id); }
      StaysIdle(Next(s, ms[0]), ms[1..], i);
    }
  }

  /** Once the shutdown has taken the list, nobody waits on it again. */
  lemma NobodyWaitsAfterShutdown(s: State, ms: seq<Move>)
    requires Init(s) && Legal(s, ms) && Exec(s, ms).shut && Exec(s, ms).waiters != []
    ensures exists i :: 0 <= i < |s.pc| && Exec(s, ms).pc[i].ShutTake?
  {
    var t := Exec(s, ms);
    assert t.pc[t.owner.value].ShutTake?;
  }
}
