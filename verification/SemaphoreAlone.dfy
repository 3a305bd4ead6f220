/**
 * How a call on `coro::semaphore` ends when no other task moves, the internal mutex is free and no
 * compare-exchange fails for no reason: the whole state after it, from any state a run can reach
 * (include/coro/semaphore.hpp:42-93, 114-200). `Inv` holds in every state of every run.
 */
module SemaphoreAlone {
  import opened Prelude
  import opened Rosters
  import opened Semaphore

  /** One task keeps moving and nobody else moves. */
  ghost predicate Only(ms: seq<Move>, i: Id, call: Call) {
    forall k :: 0 <= k < |ms| ==> ms[k] == Move(i, call, false)
  }

  lemma Before(s: State, t: State, i: Id, call: Call, ms: seq<Move>) returns (ns: seq<Move>)
    requires Inv(s) && i < |s.pc| && Next(s, Move(i, call, false)) == t && Legal(t, ms) && Only(ms, i, call)
    ensures Legal(s, ns) && Only(ns, i, call) && Exec(s, ns) == Exec(t, ms)
  {
    var m := Move(i, call, false);
    NextKeepsInv(s, m);
    ns := [m] + ms;
    assert ns[0] == m && ns[1..] == ms;
  }

  lemma AfterNext(s: State, i: Id, call: Call) returns (t: State)
    requires Inv(s) && i < |s.pc|
    ensures t == Next(s, Move(i, call, false)) && Inv(t) && |t.pc| == |s.pc|
  {
    t := Next(s, Move(i, call, false));
    NextKeepsInv(s, Move(i, call, false));
  }

  // ----- try_acquire and acquire -----

  lemma TryFound(s: State, i: Id, call: Call) returns (ms: seq<Move>)
    requires Inv(s) && i < |s.pc| && s.pc[i] == TryExchange(s.counter)
    ensures Legal(s, ms) && Only(ms, i, call)
    ensures Exec(s, ms) == s.(counter := s.counter - 1, taken := s.taken + 1, told := s.told + 1, pc := s.pc[i := Idle])
  {
    var a := AfterNext(s, i, call);
    var b := AfterNext(a, i, call);
    assert b.pc == s.pc[i := Idle];
    ms := Before(a, b, i, call, []);
    ms := Before(s, a, i, call, ms);
  }

  /** `try_acquire` takes a token exactly if there is one, and says so. */
  lemma TryAlone(s: State, i: Id) returns (ms: seq<Move>)
    requires Inv(s) && i < |s.pc| && s.pc[i] == Idle
    ensures Legal(s, ms) && Only(ms, i, DoTry)
    ensures Exec(s, ms) == if s.counter > 0 then s.(counter := s.counter - 1, taken := s.taken + 1, told := s.told + 1) else s
  {
    var a := AfterNext(s, i, DoTry);
    var b := AfterNext(a, i, DoTry);
    if s.counter > 0 {
      ms := TryFound(b, i, DoTry);
      assert b.pc[i := Idle] == s.pc;
    } else {
      var c := AfterNext(b, i, DoTry);
      assert c.pc == s.pc;
      ms := Before(b, c, i, DoTry, []);
    }
    ms := Before(a, b, i, DoTry, ms);
    ms := Before(s, a, i, DoTry, ms);
  }

  /** The last steps of an acquire that does not suspend. */
  lemma GoesOn(s: State, i: Id, call: Call) returns (ms: seq<Move>)
    requires Inv(s) && i < |s.pc| && s.pc[i].AcquireUnlock?
    ensures Legal(s, ms) && Only(ms, i, call)
    ensures
      var token := s.pc[i].token;
      Exec(s, ms) == (if s.shut then s.(lost := s.lost + One(token)) else s.(told := s.told + 1)).(owner := None, pc := s.pc[i := Idle])
  {
    var a := AfterNext(s, i, call);
    var b := AfterNext(a, i, call);
    assert b.pc == s.pc[i := Idle];
    ms := Before(a, b, i, call, []);
    ms := Before(s, a, i, call, ms);
  }

  /** `acquire` after shutdown returns at once, without a token. */
  lemma AcquireShut(s: State, i: Id) returns (ms: seq<Move>)
    requires Inv(s) && i < |s.pc| && s.pc[i] == Idle && s.owner.None? && s.shut
    ensures Legal(s, ms) && Only(ms, i, DoAcquire) && Exec(s, ms) == s
  {
    var a := AfterNext(s, i, DoAcquire);
    var b := AfterNext(a, i, DoAcquire);
    var c := AfterNext(b, i, DoAcquire);
    assert c == s.(owner := Some(i), pc := s.pc[i := AcquireUnlock(false)]);
    ms := GoesOn(c, i, DoAcquire);
    assert c.pc[i := Idle] == s.pc;
    ms := Before(b, c, i, DoAcquire, ms);
    ms := Before(a, b, i, DoAcquire, ms);
    ms := Before(s, a, i, DoAcquire, ms);
  }

  /** `acquire` with a token there takes it and says acquired. */
  lemma AcquireTakes(s: State, i: Id) returns (ms: seq<Move>)
    requires Inv(s) && i < |s.pc| && s.pc[i] == Idle && s.owner.None? && !s.shut && s.counter > 0
    ensures Legal(s, ms) && Only(ms, i, DoAcquire)
    ensures Exec(s, ms) == s.(counter := s.counter - 1, taken := s.taken + 1, told := s.told + 1)
  {
    var a := AfterNext(s, i, DoAcquire);
    var b := AfterNext(a, i, DoAcquire);
    assert b == s.(owner := Some(i), pc := s.pc[i := AcquireFlag(false)]);
    ms := TakesInside(b, i, DoAcquire);
    assert b.pc[i := Idle] == s.pc;
    ms := Before(a, b, i, DoAcquire, ms);
    ms := Before(s, a, i, DoAcquire, ms);
  }

  lemma TakesInside(s: State, i: Id, call: Call) returns (ms: seq<Move>)
    requires Inv(s) && i < |s.pc| && s.pc[i] == AcquireFlag(false) && !s.shut && s.counter > 0
    ensures Legal(s, ms) && Only(ms, i, call)
    ensures Exec(s, ms) == s.(counter := s.counter - 1, taken := s.taken + 1, told := s.told + 1, owner := None, pc := s.pc[i := Idle])
  {
    var a := AfterNext(s, i, call);
    var b := AfterNext(a, i, call);
    var c := AfterNext(b, i, call);
    assert c == s.(counter := s.counter - 1, taken := s.taken + 1, pc := s.pc[i := AcquireUnlock(true)]);
    ms := GoesOn(c, i, call);
    assert c.pc[i := Idle] == s.pc[i := Idle];
    ms := Before(b, c, i, call, ms);
    ms := Before(a, b, i, call, ms);
    ms := Before(s, a, i, call, ms);
  }

  /** `acquire` with none there becomes the newest waiter. */
  lemma AcquireWaits(s: State, i: Id) returns (ms: seq<Move>)
    requires Inv(s) && i < |s.pc| && s.pc[i] == Idle && s.owner.None? && !s.shut && s.counter == 0
    ensures |s.place| == |s.pc| && Legal(s, ms) && Only(ms, i, DoAcquire)
    ensures Exec(s, ms) == s.(waiters := [i] + s.waiters, place := s.place[i := InList], pc := s.pc[i := Waiting(false)])
  {
    var a := AfterNext(s, i, DoAcquire);
    var b := AfterNext(a, i, DoAcquire);
    assert b == s.(owner := Some(i), pc := s.pc[i := AcquireFlag(false)]);
    var c := AfterNext(b, i, DoAcquire);
    var d := AfterNext(c, i, DoAcquire);
    assert d == s.(owner := Some(i), pc := s.pc[i := AcquireFlag(true)]);
    ms := WaitsInside(d, i, DoAcquire);
    assert d.pc[i := Waiting(false)] == s.pc[i := Waiting(false)];
    ms := Before(c, d, i, DoAcquire, ms);
    ms := Before(b, c, i, DoAcquire, ms);
    ms := Before(a, b, i, DoAcquire, ms);
    ms := Before(s, a, i, DoAcquire, ms);
  }

  lemma WaitsInside(s: State, i: Id, call: Call) returns (ms: seq<Move>)
    requires Inv(s) && i < |s.pc| && s.pc[i] == AcquireFlag(true) && !s.shut && s.counter == 0
    ensures |s.place| == |s.pc| && Legal(s, ms) && Only(ms, i, call)
    ensures Exec(s, ms) ==
      s.(waiters := [i] + s.waiters, place := s.place[i := InList], owner := None, pc := s.pc[i := Waiting(false)])
  {
    var a := AfterNext(s, i, call);
    var b := AfterNext(a, i, call);
    assert b.pc == s.pc[i := AcquirePush];
    var c := AfterNext(b, i, call);
    assert c.pc == s.pc[i := SuspendUnlock];
    var d := AfterNext(c, i, call);
    assert d.pc == s.pc[i := Waiting(false)];
    ms := Before(c, d, i, call, []);
    ms := Before(b, c, i, call, ms);
    ms := Before(a, b, i, call, ms);
    ms := Before(s, a, i, call, ms);
  }

  // ----- release -----

  /** `release` with nobody waiting adds a token, and at the maximum changes nothing. */
  lemma ReleaseAlone(s: State, i: Id) returns (ms: seq<Move>)
    requires Inv(s) && i < |s.pc| && s.pc[i] == Idle && s.owner.None? && (s.counter == s.max || s.waiters == [])
    ensures Legal(s, ms) && Only(ms, i, DoRelease)
    ensures Exec(s, ms) == if s.counter == s.max then s else s.(counter := s.counter + 1, given := s.given + 1)
  {
    var a := AfterNext(s, i, DoRelease);
    var b := AfterNext(a, i, DoRelease);
    assert b == s.(owner := Some(i), pc := s.pc[i := ReleaseValue]);
    ms := ReleasesInside(b, i, DoRelease);
    assert b.pc[i := Idle] == s.pc;
    ms := Before(a, b, i, DoRelease, ms);
    ms := Before(s, a, i, DoRelease, ms);
  }

  lemma ReleasesInside(s: State, i: Id, call: Call) returns (ms: seq<Move>)
    requires Inv(s) && i < |s.pc| && s.pc[i] == ReleaseValue && (s.counter == s.max || s.waiters == [])
    ensures Legal(s, ms) && Only(ms, i, call)
    ensures Exec(s, ms) ==
      (if s.counter == s.max then s else s.(counter := s.counter + 1, given := s.given + 1)).(owner := None, pc := s.pc[i := Idle])
  {
    var a := AfterNext(s, i, call);
    if s.counter == s.max {
      var b := AfterNext(a, i, call);
      assert b.pc == s.pc[i := Idle];
      ms := Before(a, b, i, call, []);
    } else {
      ms := AddsAlone(a, i, call);
      assert a.pc[i := Idle] == s.pc[i := Idle];
    }
    ms := Before(s, a, i, call, ms);
  }

  lemma AddsAlone(s: State, i: Id, call: Call) returns (ms: seq<Move>)
    requires Inv(s) && i < |s.pc| && s.pc[i] == ReleasePop && s.waiters == []
    ensures Legal(s, ms) && Only(ms, i, call)
    ensures Exec(s, ms) == s.(counter := s.counter + 1, given := s.given + 1, owner := None, pc := s.pc[i := Idle])
  {
    var a := AfterNext(s, i, call);
    var b := AfterNext(a, i, call);
    assert b.pc == s.pc[i := ReleaseUnlock];
    var c := AfterNext(b, i, call);
    assert c.pc == s.pc[i := Idle];
    ms := Before(b, c, i, call, []);
    ms := Before(a, b, i, call, ms);
    ms := Before(s, a, i, call, ms);
  }

  /** `release` with tasks waiting: the newest one is running again with the token. */
  lemma ReleasePasses(s: State, i: Id) returns (ms: seq<Move>)
    requires Inv(s) && i < |s.pc| && s.pc[i] == Idle && s.owner.None? && s.waiters != []
    ensures s.waiters[0] < |s.pc| == |s.place| && Legal(s, ms) && Only(ms, i, DoRelease)
    ensures
      var w := s.waiters[0];
      Exec(s, ms) == s.(waiters := s.waiters[1..], place := s.place[w := Nowhere], pc := s.pc[w := Report(true)],
                        taken := s.taken + 1, given := s.given + 1)
  {
    var w := s.waiters[0];
    var a := AfterNext(s, i, DoRelease);
    var b := AfterNext(a, i, DoRelease);
    assert b == s.(owner := Some(i), pc := s.pc[i := ReleaseValue]);
    ms := PassesOne(b, i, DoRelease, w);
    assert b.pc[w := Report(true)][i := Idle] == s.pc[w := Report(true)];
    ms := Before(a, b, i, DoRelease, ms);
    ms := Before(s, a, i, DoRelease, ms);
  }

  lemma PassesOne(s: State, i: Id, call: Call, w: Id) returns (ms: seq<Move>)
    requires Inv(s) && i < |s.pc| && s.pc[i] == ReleaseValue && s.waiters != [] && w == s.waiters[0]
    ensures w < |s.pc| == |s.place| && w != i && Legal(s, ms) && Only(ms, i, call)
    ensures Exec(s, ms) == s.(waiters := s.waiters[1..], place := s.place[w := Nowhere], pc := s.pc[w := Report(true)][i := Idle],
                              taken := s.taken + 1, given := s.given + 1, owner := None)
  {
    var a := AfterNext(s, i, call);
    assert a == s.(pc := s.pc[i := ReleasePop]);
    ms := PassesInside(a, i, call, w);
    assert a.pc[w := Report(true)][i := Idle] == s.pc[w := Report(true)][i := Idle];
    ms := Before(s, a, i, call, ms);
  }

  lemma PopStep(s: State, i: Id, call: Call, w: Id)
    requires Inv(s) && i < |s.pc| && s.pc[i] == ReleasePop && s.waiters != [] && w == s.waiters[0]
    ensures w < |s.pc| == |s.place| && w != i
    ensures Next(s, Move(i, call, false)) == s.(waiters := s.waiters[1..], place := s.place[w := With(i)],
      pc := s.pc[w := Waiting(true)][i := PassUnlock(w)], taken := s.taken + 1, given := s.given + 1)
  {
    PartnerWaits(s, i);
  }

  lemma Overwritten(pc: seq<Pc>, place: seq<Place>, i: Id, w: Id)
    requires i < |pc| == |place| && w < |pc| && w != i
    ensures pc[w := Waiting(true)][i := PassUnlock(w)][w := Report(true)][i := Idle] == pc[w := Report(true)][i := Idle]
    ensures place[w := With(i)][w := Nowhere] == place[w := Nowhere]
  {
  }

  lemma PassesInside(s: State, i: Id, call: Call, w: Id) returns (ms: seq<Move>)
    requires Inv(s) && i < |s.pc| && s.pc[i] == ReleasePop && s.waiters != [] && w == s.waiters[0]
    ensures w < |s.pc| == |s.place| && w != i && Legal(s, ms) && Only(ms, i, call)
    ensures Exec(s, ms) == s.(waiters := s.waiters[1..], place := s.place[w := Nowhere], pc := s.pc[w := Report(true)][i := Idle],
                              taken := s.taken + 1, given := s.given + 1, owner := None)
  {
    PopStep(s, i, call, w);
    var a := AfterNext(s, i, call);
    ms := PassAlone(a, i, call, w);
    Overwritten(s.pc, s.place, i, w);
    ms := Before(s, a, i, call, ms);
  }

  lemma PassAlone(s: State, i: Id, call: Call, w: Id) returns (ms: seq<Move>)
    requires Inv(s) && i < |s.pc| && s.pc[i] == PassUnlock(w) && w < |s.pc| && s.pc[w] == Waiting(true)
    ensures |s.pc| == |s.place| && Legal(s, ms) && Only(ms, i, call)
    ensures Exec(s, ms) == s.(place := s.place[w := Nowhere], pc := s.pc[w := Report(true)][i := Idle], owner := None)
  {
    var a := AfterNext(s, i, call);
    assert a.pc == s.pc[i := PassOn(w)];
    var b := AfterNext(a, i, call);
    assert b.pc == s.pc[w := Report(true)][i := Idle];
    ms := Before(a, b, i, call, []);
    ms := Before(s, a, i, call, ms);
  }

  // ----- shutdown -----

  /** Every waiter of `ws` running again, without a token. */
  function AllShut(pc: seq<Pc>, ws: seq<Id>): (r: seq<Pc>)
    ensures |r| == |pc|
    ensures forall k :: 0 <= k < |pc| ==> r[k] == if k in ws then Report(false) else pc[k]
  {
    seq(|pc|, k requires 0 <= k < |pc| => if k in ws then Report(false) else pc[k])
  }

  lemma ShutMore(pc: seq<Pc>, i: Id, ws: seq<Id>, p: Pc)
    requires i < |pc| && ws != [] && Distinct(ws) && i !in ws && ws[0] < |pc|
    ensures AllShut(pc[ws[0] := Report(false)][i := p], ws[1..])[i := Idle] == AllShut(pc, ws)[i := Idle]
  {
    TailMembers(ws);
  }

  lemma OwnWalk(s: State, i: Id)
    requires Inv(s) && i < |s.pc| && s.pc[i].ShutWalk?
    ensures Distinct(s.pc[i].todo) && i !in s.pc[i].todo
  {
    assert HeldBy(s.pc)[i] == s.pc[i].todo;
    assert Names(HeldBy(s.pc)[i], s.place, With(i));
    assert Task(s, i);
  }

  /** The walk of a shutdown wakes everyone it took. */
  lemma {:induction false} WalkAlone(s: State, i: Id, call: Call, ws: seq<Id>) returns (ms: seq<Move>)
    requires Inv(s) && i < |s.pc| && s.pc[i] == ShutWalk(ws)
    ensures |s.place| == |s.pc| && Legal(s, ms) && Only(ms, i, call)
    ensures Exec(s, ms) == s.(place := Freed(s.place, ws), pc := AllShut(s.pc, ws)[i := Idle])
    decreases |ws|
  {
    var a := AfterNext(s, i, call);
    if ws == [] {
      assert AllShut(s.pc, ws) == s.pc && Freed(s.place, ws) == s.place;
      ms := [];
    } else {
      PartnerWaits(s, i);
      OwnWalk(s, i);
      var p := ShutWalk(ws[1..]);
      assert a == s.(place := s.place[ws[0] := Nowhere], pc := s.pc[ws[0] := Report(false)][i := p]);
      ms := WalkAlone(a, i, call, ws[1..]);
      ShutMore(s.pc, i, ws, p);
      FreeMore(s.place, ws);
    }
    ms := Before(s, a, i, call, ms);
  }

  lemma SameSweep(pc: seq<Pc>, place: seq<Place>, i: Id, ws: seq<Id>, p: Pc)
    requires i < |pc|
    ensures Freed(Claim(place, ws, i), ws) == Freed(place, ws)
    ensures AllShut(pc[i := p], ws)[i := Idle] == AllShut(pc, ws)[i := Idle]
  {
  }

  /** From the take of the list on: nobody is left on it, and everyone who was is running again without a token. */
  lemma SweepAlone(s: State, i: Id, call: Call) returns (ms: seq<Move>)
    requires Inv(s) && i < |s.pc| && s.pc[i] == ShutTake
    ensures |s.place| == |s.pc| && Legal(s, ms) && Only(ms, i, call)
    ensures Exec(s, ms) == s.(waiters := [], place := Freed(s.place, s.waiters), owner := None, pc := AllShut(s.pc, s.waiters)[i := Idle])
  {
    var ws := s.waiters;
    var a := AfterNext(s, i, call);
    var b := AfterNext(a, i, call);
    assert b == s.(waiters := [], place := Claim(s.place, ws, i), owner := None, pc := b.pc);
    assert b.pc == s.pc[i := ShutWalk(ws)];
    ms := WalkAlone(b, i, call, ws);
    SameSweep(s.pc, s.place, i, ws, ShutWalk(ws));
    ms := Before(a, b, i, call, ms);
    ms := Before(s, a, i, call, ms);
  }

  /** `shutdown` raises the flag and wakes every waiter without a token; a second one changes nothing. */
  lemma ShutdownAlone(s: State, i: Id) returns (ms: seq<Move>)
    requires Inv(s) && i < |s.pc| && s.pc[i] == Idle && s.owner.None?
    ensures |s.place| == |s.pc| && Legal(s, ms) && Only(ms, i, DoShutdown)
    ensures Exec(s, ms) ==
      if s.shut then s else s.(shut := true, waiters := [], place := Freed(s.place, s.waiters), pc := AllShut(s.pc, s.waiters))
  {
    var a := AfterNext(s, i, DoShutdown);
    var b := AfterNext(a, i, DoShutdown);
    if s.shut {
      assert b.pc == s.pc;
      ms := [];
    } else {
      var c := AfterNext(b, i, DoShutdown);
      assert c == s.(owner := Some(i), pc := s.pc[i := ShutExchange]);
      var d := AfterNext(c, i, DoShutdown);
      assert d == s.(shut := true, owner := Some(i), pc := s.pc[i := ShutTake]);
      ms := SweepAlone(d, i, DoShutdown);
      SameEnd(s, d, i);
      ms := Before(c, d, i, DoShutdown, ms);
      ms := Before(b, c, i, DoShutdown, ms);
    }
    ms := Before(a, b, i, DoShutdown, ms);
    ms := Before(s, a, i, DoShutdown, ms);
  }

  lemma SameEnd(s: State, d: State, i: Id)
    requires Inv(s) && i < |s.pc| && s.pc[i] == Idle && d.pc == s.pc[i := ShutTake]
    ensures AllShut(d.pc, s.waiters)[i := Idle] == AllShut(s.pc, s.waiters)
  {
    assert Task(s, i) && Names(s.waiters, s.place, InList);
  }

  /** A shutdown overtaken by another between its two looks at the flag lets the internal mutex go and returns. */
  lemma ShutdownOvertaken(s: State, i: Id, call: Call) returns (ms: seq<Move>)
    requires Inv(s) && i < |s.pc| && s.pc[i] == ShutExchange && s.shut
    ensures Legal(s, ms) && Only(ms, i, call)
    ensures Exec(s, ms) == s.(owner := None, pc := s.pc[i := Idle])
  {
    var a := AfterNext(s, i, call);
    var b := AfterNext(a, i, call);
    assert b.pc == s.pc[i := Idle];
    ms := Before(a, b, i, call, []);
    ms := Before(s, a, i, call, ms);
  }
}
