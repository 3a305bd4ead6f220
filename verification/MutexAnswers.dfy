/**
 * What the calls of `coro::mutex` answer, read from the states before and after alone: which
 * ways a call can end, and how it does end when no other task moves and no compare-exchange
 * fails for no reason (src/mutex.cpp:13-45, 64-113).
 */
module MutexAnswers {
  import opened Prelude
  import opened MutexMachine

  /** A `lock` that has not got the lock at once and is not enlisted yet. */
  predicate Locking(pc: Pc) {
    pc.SuspendLoad? || pc.Suspend? || pc.Link?
  }

  /** Task `i` took the free lock. */
  predicate Takes(s: State, t: State, i: Id)
    requires i < |t.pc|
  {
    s.word == Unlocked && t.word == Null && t.pc[i] == Owner
  }

  /** Task `i` became the newest waiter of a lock that was held. */
  predicate Enlists(s: State, t: State, i: Id)
    requires i < |t.pc| && i < |t.next|
  {
    s.word != Unlocked && t.word == At(i) && t.next[i] == s.word && t.pc[i] == Waiting
  }

  /**
   * `try_lock` gets the lock exactly if it is free and otherwise changes nothing; a `lock`
   * that starts takes a free lock and goes on trying on a held one.
   */
  lemma CallMeans(s: State, m: Move)
    requires m.id < |s.pc| == |s.next| && s.pc[m.id] == Idle
    ensures s.word == Unlocked ==> Takes(s, Step(s, m), m.id)
    ensures s.word != Unlocked && m.alt ==> Step(s, m) == s
    ensures s.word != Unlocked && !m.alt ==> Locking(Step(s, m).pc[m.id]) && Step(s, m).word == s.word
  {
  }

  /** In every run: a `lock` that goes on trying ends only by owning the lock or by being enlisted, and only on its own move. */
  lemma LockEnds(s: State, ms: seq<Move>, m: Move, i: Id)
    requires Init(s) && Legal(s, ms) && m.id < |s.pc| && i < |s.pc|
    ensures |Exec(s, ms).pc| == |Exec(s, ms).next| == |s.pc|
    ensures
      var t := Exec(s, ms);
      var u := Step(t, m);
      Locking(t.pc[i]) ==> Locking(u.pc[i]) || (m.id == i && (Takes(t, u, i) || Enlists(t, u, i)))
  {
    var v, courier := Reached(s, ms);
    var t := Exec(s, ms);
    assert Knows(t, v.waiters, i);
    assert Knows(t, v.waiters, m.id);
  }

  // ----- a call left alone -----

  /** Task `i` makes `n` moves, nobody else makes any, and no exchange fails for no reason. */
  function Alone(s: State, i: Id, n: nat): (t: State)
    requires i < |s.pc| == |s.next|
    ensures |t.pc| == |s.pc| && |t.next| == |s.next|
    decreases n
  {
    if n == 0 then s else Alone(Step(s, Move(i, false)), i, n - 1)
  }

  /** `lock` on a held lock becomes its newest waiter, and nothing else changes. */
  lemma LockAlone(s: State, i: Id)
    requires i < |s.pc| == |s.next| && s.pc[i] == Idle && s.word != Unlocked
    ensures Alone(s, i, 4) == s.(word := At(i), next := s.next[i := s.word], pc := s.pc[i := Waiting])
  {
    var a := Step(s, Move(i, false));
    var b := Step(a, Move(i, false));
    var c := Step(b, Move(i, false));
    var d := Step(c, Move(i, false));
    assert Alone(s, i, 4) == Alone(a, i, 3) == Alone(b, i, 2) == Alone(c, i, 1) == d;
    assert d.pc == s.pc[i := Waiting];
  }

  /** A `lock` that finds the lock given back while it was getting ready to wait takes it. */
  lemma LockAfterRelease(s: State, i: Id)
    requires i < |s.pc| == |s.next| && s.pc[i] == SuspendLoad && s.word == Unlocked
    ensures Alone(s, i, 2) == s.(word := Null, pc := s.pc[i := Owner])
  {
    var a := Step(s, Move(i, false));
    var b := Step(a, Move(i, false));
    assert Alone(s, i, 2) == Alone(a, i, 1) == b;
    assert b.pc == s.pc[i := Owner];
  }

  /** `unlock` with nobody waiting frees the lock. */
  lemma UnlockAlone(s: State, i: Id)
    requires i < |s.pc| == |s.next| && s.pc[i] == Owner && s.word == Null
    ensures Alone(s, i, 2) == s.(word := Unlocked, pc := s.pc[i := Idle])
  {
    var a := Step(s, Move(i, false));
    var b := Step(a, Move(i, false));
    assert Alone(s, i, 2) == Alone(a, i, 1) == b;
    assert b.pc == s.pc[i := Idle];
  }

  /** `unlock` with waiters makes the newest one the owner and leaves the others enlisted. */
  lemma UnlockHandsOver(s: State, i: Id, w: Id)
    requires i < |s.pc| == |s.next| && s.pc[i] == Owner && s.word == At(w) && w < |s.pc| && w != i
    ensures Alone(s, i, 6) == s.(word := s.next[w], pc := s.pc[i := Idle][w := Owner])
  {
    var a := Step(s, Move(i, false));
    var b := Step(a, Move(i, false));
    var c := Step(b, Move(i, false));
    var d := Step(c, Move(i, false));
    var e := Step(d, Move(i, false));
    var f := Step(e, Move(i, false));
    assert Alone(s, i, 6) == Alone(a, i, 5) == Alone(b, i, 4) == Alone(c, i, 3) == Alone(d, i, 2) == Alone(e, i, 1) == f;
    assert f.pc == s.pc[i := Idle][w := Owner];
  }

  /** `unlock` of a lock that is not locked throws. */
  lemma UnlockOfUnlocked(s: State, i: Id)
    requires i < |s.pc| == |s.next| && s.pc[i] == Owner && s.word == Unlocked
    ensures Alone(s, i, 2) == s.(pc := s.pc[i := Crashed])
  {
    var a := Step(s, Move(i, false));
    var b := Step(a, Move(i, false));
    assert Alone(s, i, 2) == Alone(a, i, 1) == b;
    assert b.pc == s.pc[i := Crashed];
  }
}
