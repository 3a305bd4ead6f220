/**
 * What the calls of `coro::queue` answer, read from the states before and after alone: by which
 * state its critical section finds, and how a whole call ends when no other task moves
 * (include/coro/queue.hpp:174-201, 276-411). `Inv` holds in every state of every run.
 */
module QueueAnswers {
  import opened Prelude
  import opened Rosters
  import opened Queue

  // ----- the critical sections -----

  /** A push is accepted exactly if the queue is running; it then goes to the newest suspended popper, and is stored only if there is none. */
  lemma PushSection<T>(s: State<T>, m: Move<T>)
    requires Inv(s) && m.id < |s.pc| && s.pc[m.id].PushLock?
    ensures
      var t, i, e := Next(s, m), m.id, s.pc[m.id].e;
      if s.run != IsRunning then t == s.(pc := s.pc[i := Pushed(false)])
      else if s.waiters == [] then
        t == s.(elements := s.elements + [e], accepted := s.accepted + [e], pc := s.pc[i := Pushed(true)])
      else
        && i < |t.pc| && t.pc[i] == Hand(s.waiters[0], e) && t.waiters == s.waiters[1..]
        && t.elements == s.elements && t.accepted == s.accepted + [e] && t.run == s.run
  {
  }

  /** The front element to task `i`. */
  ghost predicate Takes<T>(s: State<T>, t: State<T>, i: Id) {
    && i < |s.pc|
    && s.elements != []
    && t == s.(elements := s.elements[1..], delivered := s.delivered + [Delivery(i, s.elements[0])],
               pc := s.pc[i := Report(Got(s.elements[0]))])
  }

  /** `try_pop` fails to lock, is told stopped, is told empty, or takes the front element: each exactly in its case. */
  lemma TryPopSection<T>(s: State<T>, m: Move<T>)
    requires Inv(s) && m.id < |s.pc| && s.pc[m.id].TryLock?
    ensures
      var t, i := Next(s, m), m.id;
      if m.busy then t == s.(pc := s.pc[i := Report(TryLockFailure)])
      else if s.run == IsStopped then t == s.(pc := s.pc[i := Report(Stopped)])
      else if s.elements == [] then t == s.(pc := s.pc[i := Report(Empty)])
      else Takes(s, t, i)
  {
  }

  /** `pop` is told stopped, takes the front element, or suspends as the newest popper: each exactly in its case. */
  lemma PopSection<T>(s: State<T>, m: Move<T>)
    requires Inv(s) && m.id < |s.pc| && s.pc[m.id].PopLock?
    ensures
      var t, i := Next(s, m), m.id;
      if s.run == IsStopped then t == s.(pc := s.pc[i := Report(Stopped)])
      else if s.elements != [] then Takes(s, t, i)
      else i < |t.pc| && t.pc[i] == Waiting(None) && t.waiters == [i] + s.waiters && t.elements == s.elements && t.run == s.run
  {
  }

  // ----- a call left alone -----

  /** One task keeps moving and nobody else moves. */
  ghost predicate Only<T>(ms: seq<Move<T>>, i: Id, call: Call<T>) {
    forall k :: 0 <= k < |ms| ==> ms[k] == Move(i, call, false)
  }

  lemma Before<T>(s: State<T>, t: State<T>, i: Id, call: Call<T>, ms: seq<Move<T>>) returns (ns: seq<Move<T>>)
    requires Inv(s) && i < |s.pc| && Next(s, Move(i, call, false)) == t && Legal(t, ms) && Only(ms, i, call)
    ensures Legal(s, ns) && Only(ns, i, call) && Exec(s, ns) == Exec(t, ms) && |ns| == |ms| + 1
  {
    var m := Move(i, call, false);
    NextKeepsInv(s, m);
    ns := [m] + ms;
    assert ns[0] == m && ns[1..] == ms;
  }

  lemma AfterNext<T>(s: State<T>, i: Id, call: Call<T>) returns (t: State<T>)
    requires Inv(s) && i < |s.pc|
    ensures t == Next(s, Move(i, call, false)) && Inv(t) && |t.pc| == |s.pc|
  {
    t := Next(s, Move(i, call, false));
    NextKeepsInv(s, Move(i, call, false));
  }

  /** A push that is not handed on: refused and the queue untouched, or stored at the back and told so. */
  lemma PushAlone<T>(s: State<T>, i: Id, e: T) returns (ms: seq<Move<T>>)
    requires Inv(s) && i < |s.pc| && s.pc[i] == Idle && (s.run != IsRunning || s.waiters == [])
    ensures Legal(s, ms) && Only(ms, i, DoPush(e))
    ensures Exec(s, ms) ==
      if s.run != IsRunning then s
      else s.(elements := s.elements + [e], accepted := s.accepted + [e], told := s.told + 1)
  {
    var call := DoPush(e);
    var a := AfterNext(s, i, call);
    var b := AfterNext(a, i, call);
    var c := AfterNext(b, i, call);
    assert c.pc == s.pc;
    ms := Before(b, c, i, call, []);
    ms := Before(a, b, i, call, ms);
    ms := Before(s, a, i, call, ms);
  }

  /** A push that has written the element resumes the popper with it and is told produced. */
  lemma WakeAlone<T>(s: State<T>, i: Id, call: Call<T>, w: Id, e: T) returns (ms: seq<Move<T>>)
    requires Inv(s) && i < |s.pc| && s.pc[i] == Wake(w) && w < |s.pc| && s.pc[w] == Waiting(Some(e))
    ensures w < |s.place| && Legal(s, ms) && Only(ms, i, call)
    ensures Exec(s, ms) == s.(place := s.place[w := Nowhere], pc := s.pc[w := Report(Got(e))][i := Idle], told := s.told + 1)
  {
    var a := AfterNext(s, i, call);
    assert a.pc == s.pc[w := Report(Got(e))][i := Pushed(true)];
    var b := AfterNext(a, i, call);
    assert b.pc == s.pc[w := Report(Got(e))][i := Idle];
    ms := Before(a, b, i, call, []);
    ms := Before(s, a, i, call, ms);
  }

  /** Once a popper is unlinked, the push writes the element for it and wakes it. */
  lemma HandAlone<T>(s: State<T>, i: Id, call: Call<T>, w: Id, e: T) returns (ms: seq<Move<T>>)
    requires Inv(s) && i < |s.pc| && s.pc[i] == Hand(w, e)
    ensures w < |s.pc| == |s.place| && w != i
    ensures Legal(s, ms) && Only(ms, i, call)
    ensures Exec(s, ms) == s.(place := s.place[w := Nowhere], pc := s.pc[w := Report(Got(e))][i := Idle], told := s.told + 1)
  {
    PartnerWaits(s, i);
    var a := AfterNext(s, i, call);
    assert a.pc == s.pc[w := Waiting(Some(e))][i := Wake(w)];
    ms := WakeAlone(a, i, call, w, e);
    assert a.pc[w := Report(Got(e))][i := Idle] == s.pc[w := Report(Got(e))][i := Idle];
    ms := Before(s, a, i, call, ms);
  }

  lemma HandsInside<T>(s: State<T>, i: Id, call: Call<T>, w: Id, e: T) returns (ms: seq<Move<T>>)
    requires Inv(s) && i < |s.pc| && s.pc[i] == PushLock(e) && s.run == IsRunning && s.waiters != [] && w == s.waiters[0]
    ensures w < |s.pc| == |s.place| && w != i && Legal(s, ms) && Only(ms, i, call)
    ensures Exec(s, ms) == s.(waiters := s.waiters[1..], accepted := s.accepted + [e], delivered := s.delivered + [Delivery(w, e)],
                              place := s.place[w := Nowhere], pc := s.pc[w := Report(Got(e))][i := Idle], told := s.told + 1)
  {
    PartnerWaits(s, i);
    var a := AfterNext(s, i, call);
    assert a.pc == s.pc[i := Hand(w, e)] && a.place == s.place[w := With(i)];
    ms := HandAlone(a, i, call, w, e);
    assert a.pc[w := Report(Got(e))][i := Idle] == s.pc[w := Report(Got(e))][i := Idle];
    assert a.place[w := Nowhere] == s.place[w := Nowhere];
    ms := Before(s, a, i, call, ms);
  }

  /** A push that finds suspended poppers: the newest one is running again with the element, and the push is told produced. */
  lemma PushHands<T>(s: State<T>, i: Id, e: T) returns (ms: seq<Move<T>>)
    requires Inv(s) && i < |s.pc| && s.pc[i] == Idle && s.run == IsRunning && s.waiters != []
    ensures s.waiters[0] < |s.pc| == |s.place|
    ensures Legal(s, ms) && Only(ms, i, DoPush(e))
    ensures
      var w := s.waiters[0];
      Exec(s, ms) == s.(waiters := s.waiters[1..], accepted := s.accepted + [e], delivered := s.delivered + [Delivery(w, e)],
                        place := s.place[w := Nowhere], pc := s.pc[w := Report(Got(e))], told := s.told + 1)
  {
    var call, w := DoPush(e), s.waiters[0];
    var a := AfterNext(s, i, call);
    assert a == s.(pc := s.pc[i := PushLock(e)]);
    ms := HandsInside(a, i, call, w, e);
    assert a.pc[w := Report(Got(e))][i := Idle] == s.pc[w := Report(Got(e))];
    ms := Before(s, a, i, call, ms);
  }

  /** A pop or try_pop that has its answer returns it. */
  lemma ReportAlone<T>(s: State<T>, i: Id, call: Call<T>) returns (ms: seq<Move<T>>)
    requires Inv(s) && i < |s.pc| && s.pc[i].Report?
    ensures |s.got| == |s.pc| && Legal(s, ms) && Only(ms, i, call)
    ensures Exec(s, ms) == s.(pc := s.pc[i := Idle],
                              got := if s.pc[i].res.Got? then s.got[i := s.got[i] + [s.pc[i].res.value]] else s.got)
  {
    var a := AfterNext(s, i, call);
    assert s.got[i] + [] == s.got[i];
    assert s.got[i := s.got[i]] == s.got;
    ms := Before(s, a, i, call, []);
  }

  /** `pop` and `try_pop` with an element there return the front one, before and during a drain alike. */
  lemma PopAlone<T>(s: State<T>, i: Id, call: Call<T>) returns (ms: seq<Move<T>>)
    requires Inv(s) && i < |s.pc| && s.pc[i] == Idle && s.run != IsStopped && s.elements != [] && (call.DoPop? || call.DoTryPop?)
    ensures |s.got| == |s.pc| && Legal(s, ms) && Only(ms, i, call)
    ensures
      var e := s.elements[0];
      Exec(s, ms) == s.(elements := s.elements[1..], delivered := s.delivered + [Delivery(i, e)], got := s.got[i := s.got[i] + [e]])
  {
    var a := AfterNext(s, i, call);
    var b := AfterNext(a, i, call);
    assert b.pc == s.pc[i := Report(Got(s.elements[0]))];
    ms := ReportAlone(b, i, call);
    assert b.pc[i := Idle] == s.pc;
    ms := Before(a, b, i, call, ms);
    ms := Before(s, a, i, call, ms);
  }

  /** `pop` on a stopped queue, and `try_pop` on a stopped or empty one, return and leave everything as it was. */
  lemma NothingToPop<T>(s: State<T>, i: Id, call: Call<T>) returns (ms: seq<Move<T>>)
    requires Inv(s) && i < |s.pc| && s.pc[i] == Idle
    requires if s.run == IsStopped then call.DoPop? || call.DoTryPop? else call.DoTryPop? && s.elements == []
    ensures Legal(s, ms) && Only(ms, i, call) && Exec(s, ms) == s
  {
    var a := AfterNext(s, i, call);
    var b := AfterNext(a, i, call);
    ms := ReportAlone(b, i, call);
    assert b.pc[i := Idle] == s.pc;
    ms := Before(a, b, i, call, ms);
    ms := Before(s, a, i, call, ms);
  }

  // ----- shutdown and drain left alone -----

  /** Every popper of `ws` running again with the answer stopped. */
  function AllStopped<T>(pc: seq<Pc<T>>, ws: seq<Id>): (r: seq<Pc<T>>)
    ensures |r| == |pc|
    ensures forall k :: 0 <= k < |pc| ==> r[k] == if k in ws then Report(Stopped) else pc[k]
  {
    seq(|pc|, k requires 0 <= k < |pc| => if k in ws then Report(Stopped) else pc[k])
  }

  lemma StopMore<T>(pc: seq<Pc<T>>, i: Id, ws: seq<Id>, p: Pc<T>)
    requires i < |pc| && ws != [] && Distinct(ws) && i !in ws && ws[0] < |pc|
    ensures AllStopped(pc[ws[0] := Report(Stopped)][i := p], ws[1..])[i := Idle] == AllStopped(pc, ws)[i := Idle]
  {
    TailMembers(ws);
  }

  /** The walk of a shutdown stops everyone it took. */
  lemma {:induction false} WalkAlone<T>(s: State<T>, i: Id, call: Call<T>, ws: seq<Id>) returns (ms: seq<Move<T>>)
    requires Inv(s) && i < |s.pc| && s.pc[i] == ShutWalk(ws)
    ensures |s.place| == |s.pc| && Legal(s, ms) && Only(ms, i, call)
    ensures Exec(s, ms) == s.(place := Freed(s.place, ws), pc := AllStopped(s.pc, ws)[i := Idle])
    decreases |ws|
  {
    var a := AfterNext(s, i, call);
    if ws == [] {
      assert AllStopped(s.pc, ws) == s.pc && Freed(s.place, ws) == s.place;
      ms := [];
    } else {
      PartnerWaits(s, i);
      OwnWalk(s, i);
      var p := ShutWalk(ws[1..]);
      assert a == s.(place := s.place[ws[0] := Nowhere], pc := s.pc[ws[0] := Report(Stopped)][i := p]);
      ms := WalkAlone(a, i, call, ws[1..]);
      StopMore(s.pc, i, ws, p);
      FreeMore(s.place, ws);
    }
    ms := Before(s, a, i, call, ms);
  }

  lemma OwnWalk<T>(s: State<T>, i: Id)
    requires Inv(s) && i < |s.pc| && s.pc[i].ShutWalk?
    ensures Distinct(s.pc[i].todo) && i !in s.pc[i].todo
  {
    assert HeldBy(s.pc)[i] == s.pc[i].todo;
    assert Names(HeldBy(s.pc)[i], s.place, With(i));
    assert Task(s, i);
  }

  /** From the load of the run state on: already stopped, nothing; otherwise the queue is stopped and every suspended popper told so. */
  lemma StopAlone<T>(s: State<T>, i: Id, call: Call<T>) returns (ms: seq<Move<T>>)
    requires Inv(s) && i < |s.pc| && s.pc[i] == ShutLoad
    ensures |s.place| == |s.pc| && Legal(s, ms) && Only(ms, i, call)
    ensures Exec(s, ms) ==
      if s.run == IsStopped then s.(pc := s.pc[i := Idle])
      else s.(run := IsStopped, waiters := [], place := Freed(s.place, s.waiters), pc := AllStopped(s.pc, s.waiters)[i := Idle])
  {
    var a := AfterNext(s, i, call);
    if s.run == IsStopped {
      ms := [];
    } else {
      var b := AfterNext(a, i, call);
      assert b.pc == s.pc[i := ShutWalk(s.waiters)];
      ms := WalkAlone(b, i, call, s.waiters);
      assert Freed(b.place, s.waiters) == Freed(s.place, s.waiters);
      assert AllStopped(b.pc, s.waiters)[i := Idle] == AllStopped(s.pc, s.waiters)[i := Idle];
      ms := Before(a, b, i, call, ms);
    }
    ms := Before(s, a, i, call, ms);
  }

  /** `shutdown` stops the queue and tells every suspended popper; elements not yet popped stay where they are. */
  lemma ShutdownAlone<T>(s: State<T>, i: Id) returns (ms: seq<Move<T>>)
    requires Inv(s) && i < |s.pc| && s.pc[i] == Idle
    ensures |s.place| == |s.pc| && Legal(s, ms) && Only(ms, i, DoShutdown)
    ensures Exec(s, ms) ==
      if s.run == IsStopped then s
      else s.(run := IsStopped, waiters := [], place := Freed(s.place, s.waiters), pc := AllStopped(s.pc, s.waiters))
  {
    var a := AfterNext(s, i, DoShutdown);
    ms := StopAlone(a, i, DoShutdown);
    SameEnd(s, a, i);
    ms := Before(s, a, i, DoShutdown, ms);
  }

  lemma SameEnd<T>(s: State<T>, a: State<T>, i: Id)
    requires Inv(s) && i < |s.pc| && s.pc[i] == Idle && a.pc == s.pc[i := ShutLoad]
    ensures a.pc[i := Idle] == s.pc && AllStopped(a.pc, s.waiters)[i := Idle] == AllStopped(s.pc, s.waiters)
  {
    assert Task(s, i) && Names(s.waiters, s.place, InList);
  }

  /** A drain of a running queue that is empty stops it and tells every suspended popper; on a queue not running it does nothing. */
  lemma DrainAlone<T>(s: State<T>, i: Id) returns (ms: seq<Move<T>>)
    requires Inv(s) && i < |s.pc| && s.pc[i] == Idle && (s.run == IsRunning ==> s.elements == [])
    ensures |s.place| == |s.pc| && Legal(s, ms) && Only(ms, i, DoDrain)
    ensures Exec(s, ms) ==
      if s.run != IsRunning then s
      else s.(run := IsStopped, waiters := [], place := Freed(s.place, s.waiters), pc := AllStopped(s.pc, s.waiters))
  {
    var a := AfterNext(s, i, DoDrain);
    var b := AfterNext(a, i, DoDrain);
    if s.run != IsRunning {
      assert b.pc == s.pc;
      ms := [];
    } else {
      var c := AfterNext(b, i, DoDrain);
      assert c == s.(run := IsDraining, pc := s.pc[i := ShutLoad]);
      ms := StopAlone(c, i, DoDrain);
      SameEnd(s, c, i);
      ms := Before(b, c, i, DoDrain, ms);
    }
    ms := Before(a, b, i, DoDrain, ms);
    ms := Before(s, a, i, DoDrain, ms);
  }

  /** The drain loop goes round, changing nothing, while elements are left and the queue is not stopped; a stop ends it. */
  lemma DrainWaits<T>(s: State<T>, i: Id, call: Call<T>) returns (ms: seq<Move<T>>)
    requires Inv(s) && i < |s.pc| && s.pc[i] == DrainEmpty && s.elements != []
    ensures Legal(s, ms) && Only(ms, i, call) && |ms| > 0
    ensures Exec(s, ms) == if s.run == IsStopped then s.(pc := s.pc[i := Idle]) else s
  {
    assert Task(s, i);
    var a := AfterNext(s, i, call);
    var b := AfterNext(a, i, call);
    if s.run == IsStopped {
      var c := AfterNext(b, i, call);
      assert c.pc == s.pc[i := Idle];
      ms := Before(b, c, i, call, []);
    } else {
      assert b.pc == s.pc;
      ms := [];
    }
    ms := Before(a, b, i, call, ms);
    ms := Before(s, a, i, call, ms);
  }
}
