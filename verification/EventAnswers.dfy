/**
 * What the calls of `coro::event` do, read from the states before and after alone: the event is
 * on exactly from a `set` to the next `reset`, a `co_await` goes on at once or enlists by the
 * state it finds, and a `set` left alone resumes everyone and returns (src/event.cpp:11-67).
 */
module EventAnswers {
  import opened Prelude
  import opened EventMachine

  // ----- on from a set to the next reset -----

  /** The moves that begin a call of `set`, or of `reset`. */
  predicate Sets(s: State, m: Move)
    requires m.id < |s.pc|
  {
    s.pc[m.id].Idle? && m.choice.DoSet?
  }

  predicate Resets(s: State, m: Move)
    requires m.id < |s.pc|
  {
    s.pc[m.id].Idle? && m.choice.DoReset?
  }

  /** A `set`, whether or not anyone waits, turns the event on; only a `reset` turns it off. */
  lemma SetTurnsOn(s: State, m: Move, v: View, a: Aux)
    requires Inv(s, v, a) && m.id < |s.pc|
    ensures Step(s, m).word.Set? <==> Sets(s, m) || (s.word.Set? && !Resets(s, m))
  {
    assert Job(s, v, a, m.id);
  }

  /** Whether an event that is `on` before the moves is on after them, by the calls of `set` and `reset` alone. */
  predicate OnAfter(s: State, ms: seq<Move>, on: bool)
    requires Legal(s, ms)
    decreases |ms|
  {
    if ms == [] then on
    else OnAfter(Step(s, ms[0]), ms[1..], Sets(s, ms[0]) || (on && !Resets(s, ms[0])))
  }

  lemma {:induction false} RunTurnsOn(s: State, ms: seq<Move>, v: View, a: Aux)
    requires Legal(s, ms) && Inv(s, v, a)
    ensures Exec(s, ms).word.Set? <==> OnAfter(s, ms, s.word.Set?)
    decreases |ms|
  {
    if ms == [] {
    } else {
      SetTurnsOn(s, ms[0], v, a);
      StepSimulates(s, ms[0], v, a);
      RunTurnsOn(Step(s, ms[0]), ms[1..], Advance(v, EventOf(s, ms[0])), AuxAfter(s, ms[0], v, a));
    }
  }

  /** After every run the event is on exactly if a `set`, or being created on, is more recent than every `reset`. */
  lemma OnSinceSet(s: State, ms: seq<Move>)
    requires Init(s) && Legal(s, ms)
    ensures Exec(s, ms).word.Set? <==> OnAfter(s, ms, s.word.Set?)
  {
    var a := FreshIsInv(s);
    RunTurnsOn(s, ms, Fresh(s), a);
  }

  // ----- a call left alone -----

  /** Task `i` makes `n` moves, nobody else makes any, and no exchange fails for no reason. */
  function Alone(s: State, i: Id, c: Choice, n: nat): (t: State)
    requires i < |s.pc| == |s.next|
    ensures |t.pc| == |s.pc| && |t.next| == |s.next|
    decreases n
  {
    if n == 0 then s else Alone(Step(s, Move(i, c)), i, c, n - 1)
  }

  lemma {:induction false} AloneAdds(s: State, i: Id, c: Choice, n: nat, k: nat)
    requires i < |s.pc| == |s.next|
    ensures Alone(s, i, c, n + k) == Alone(Alone(s, i, c, n), i, c, k)
    decreases n
  {
    if n > 0 {
      AloneAdds(Step(s, Move(i, c)), i, c, n - 1, k);
    }
  }

  /** `co_await` on an event that is on does not suspend; on one that is off it enlists as the newest awaiter. */
  lemma AwaitAlone(s: State, i: Id)
    requires i < |s.pc| == |s.next| && s.pc[i] == Idle
    ensures s.word.Set? ==> Alone(s, i, DoAwait, 1) == s
    ensures !s.word.Set? ==>
      Alone(s, i, DoAwait, 4) == s.(word := At(i), next := s.next[i := s.word], pc := s.pc[i := Waiting])
  {
    var m := Move(i, DoAwait);
    if s.word.Set? {
      assert Alone(s, i, DoAwait, 1) == Alone(Step(s, m), i, DoAwait, 0);
    } else {
      var a := Step(s, m);
      var b := Step(a, m);
      var c := Step(b, m);
      var d := Step(c, m);
      assert Alone(s, i, DoAwait, 4) == Alone(a, i, DoAwait, 3) == Alone(b, i, DoAwait, 2) == Alone(c, i, DoAwait, 1) == d;
      assert d.pc == s.pc[i := Waiting];
    }
  }

  /** A `co_await` that finds the event turned on while it was getting ready to wait goes on. */
  lemma AwaitAfterSet(s: State, i: Id)
    requires i < |s.pc| == |s.next| && s.pc[i] == AwaitLoad && s.word.Set?
    ensures Alone(s, i, DoAwait, 2) == s.(pc := s.pc[i := Idle])
  {
    var a := Step(s, Move(i, DoAwait));
    var b := Step(a, Move(i, DoAwait));
    assert Alone(s, i, DoAwait, 2) == Alone(a, i, DoAwait, 1) == b;
    assert b.pc == s.pc[i := Idle];
  }

  /** Everyone of `l` running again, and task `i` back from its call. */
  function Woken(pc: seq<Pc>, l: seq<Id>): (r: seq<Pc>)
    ensures |r| == |pc|
    ensures forall k :: 0 <= k < |pc| ==> r[k] == if k in l then Idle else pc[k]
  {
    seq(|pc|, k requires 0 <= k < |pc| => if k in l then Idle else pc[k])
  }

  lemma WakeMore(pc: seq<Pc>, i: Id, l: seq<Id>, p: Pc)
    requires i < |pc| && l != [] && Distinct(l) && i !in l && l[0] < |pc|
    ensures Woken(pc[i := p][l[0] := Idle], l[1..] + [i]) == Woken(pc, l + [i])
  {
    TailMembers(l);
  }

  lemma PathRest(next: seq<Word>, w: Word, l: seq<Id>)
    requires l != [] && Path(next, w, l)
    ensures Path(next, PointerTo(l, 1), l[1..])
  {
    assert forall k :: 0 <= k <= |l[1..]| ==> PointerTo(l[1..], k) == PointerTo(l, k + 1);
  }

  /** The resuming loop, over any list, ends after two moves a node and one more. */
  lemma {:induction false} WalkAlone(s: State, i: Id, l: seq<Id>, c: Choice)
    requires i < |s.pc| == |s.next| && i !in l && Distinct(l)
    requires s.pc[i].Walk? && Path(s.next, s.pc[i].curr, l)
    ensures Alone(s, i, c, 2 * |l| + 1) == s.(pc := Woken(s.pc, l + [i]))
    decreases |l|
  {
    var a := Step(s, Move(i, c));
    if l == [] {
      assert Alone(s, i, c, 1) == Alone(a, i, c, 0) == a;
      assert a.pc == Woken(s.pc, [] + [i]);
    } else {
      var b := Step(a, Move(i, c));
      var p := Walk(PointerTo(l, 1));
      assert b.pc == s.pc[i := p][l[0] := Idle];
      TailMembers(l);
      PathRest(s.next, s.pc[i].curr, l);
      WalkAlone(b, i, l[1..], c);
      WakeMore(s.pc, i, l, p);
      assert Alone(s, i, c, 2 * |l| + 1) == Alone(a, i, c, 2 * |l|) == Alone(b, i, c, 2 * |l| - 1);
    }
  }

  /** The reversing loop with `left` nodes of `order` still to turn around. */
  ghost predicate Turning(s: State, i: Id, order: seq<Id>, left: nat) {
    && i < |s.pc| == |s.next|
    && left <= |order|
    && s.pc[i].Reversing?
    && Path(s.next, s.pc[i].prev, order[left..])
    && Path(s.next, s.pc[i].curr, Rev(order[..left]))
  }

  lemma TurnOne(s: State, i: Id, order: seq<Id>, left: nat, c: Choice)
    requires Turning(s, i, order, left) && left > 0 && Distinct(order)
    ensures
      var t := Step(s, Move(i, c));
      Turning(t, i, order, left - 1) && t.word == s.word && t.pc == s.pc[i := t.pc[i]]
  {
    PathTurn(s.next, s.pc[i].prev, s.pc[i].curr, order, left);
  }

  lemma TurnLast(s: State, i: Id, order: seq<Id>, c: Choice)
    requires Turning(s, i, order, 0)
    ensures Path(s.next, PointerTo(order, 0), order)
    ensures Step(s, Move(i, c)) == s.(pc := s.pc[i := Walk(PointerTo(order, 0))])
  {
    assert order[0..] == order;
  }

  /** The reversing loop ends after a move a node and one more, with the list in `order` to walk. */
  lemma {:induction false} TurnAlone(s: State, i: Id, order: seq<Id>, left: nat, c: Choice)
    requires Turning(s, i, order, left) && Distinct(order)
    ensures
      var t := Alone(s, i, c, left + 1);
      t.word == s.word && t.pc == s.pc[i := Walk(PointerTo(order, 0))] && Path(t.next, PointerTo(order, 0), order)
    decreases left
  {
    var a := Step(s, Move(i, c));
    if left == 0 {
      TurnLast(s, i, order, c);
      assert Alone(s, i, c, 1) == Alone(a, i, c, 0) == a;
    } else {
      TurnOne(s, i, order, left, c);
      TurnAlone(a, i, order, left - 1, c);
      assert Alone(s, i, c, left + 1) == Alone(a, i, c, left);
    }
  }

  lemma SameWoken(pc: seq<Pc>, i: Id, p: Pc, l: seq<Id>, order: seq<Id>)
    requires i < |pc| && pc[i] == Idle && forall k :: k in l <==> k in order
    ensures Woken(pc[i := p], order + [i]) == Woken(pc, l)
  {
  }

  lemma WalkingEnds(s: State, a: State, i: Id, l: seq<Id>, order: seq<Id>, c: Choice)
    requires i < |s.pc| == |s.next| == |a.pc| == |a.next| && s.pc[i] == Idle
    requires Distinct(order) && i !in order && Path(a.next, PointerTo(order, 0), order)
    requires a.pc == s.pc[i := Walk(PointerTo(order, 0))] && forall k :: k in l <==> k in order
    ensures Alone(a, i, c, 2 * |order| + 1) == a.(pc := Woken(s.pc, l))
  {
    WalkAlone(a, i, order, c);
    SameWoken(s.pc, i, Walk(PointerTo(order, 0)), l, order);
  }

  lemma RevTwice(l: seq<Id>)
    requires Distinct(l)
    ensures Distinct(Rev(l)) && Rev(l)[|l|..] == [] && Rev(Rev(l)[..|l|]) == l
    ensures forall k :: k in l <==> k in Rev(l)
  {
    RevMembers(l);
    var order := Rev(l);
    assert order[..|l|] == order;
    forall k | 0 <= k < |l|
      ensures Rev(order)[k] == l[k]
    {
    }
  }

  lemma StartTurning(next: seq<Word>, l: seq<Id>)
    requires Distinct(l) && Path(next, PointerTo(l, 0), l)
    ensures Path(next, Null, Rev(l)[|l|..]) && Path(next, PointerTo(l, 0), Rev(Rev(l)[..|l|]))
  {
    RevTwice(l);
  }

  lemma ThenWalk(s: State, a: State, b: State, i: Id, l: seq<Id>, k: nat, c: Choice) returns (n: nat)
    requires i < |s.pc| == |s.next| == |a.pc| == |a.next| && s.pc[i] == Idle && b == Alone(a, i, c, k)
    requires Distinct(l) && i !in l && Path(b.next, PointerTo(Rev(l), 0), Rev(l))
    requires b.word == a.word && b.pc == s.pc[i := Walk(PointerTo(Rev(l), 0))]
    ensures Alone(a, i, c, n).word == a.word && Alone(a, i, c, n).pc == Woken(s.pc, l)
  {
    RevTwice(l);
    WalkingEnds(s, b, i, l, Rev(l), c);
    n := k + (2 * |Rev(l)| + 1);
    AloneAdds(a, i, c, k, 2 * |Rev(l)| + 1);
  }

  lemma TurningEnds(s: State, a: State, i: Id, l: seq<Id>, c: Choice) returns (n: nat)
    requires i < |s.pc| == |s.next| == |a.pc| == |a.next| && s.pc[i] == Idle
    requires Distinct(l) && i !in l && Path(a.next, PointerTo(l, 0), l)
    requires a.pc == s.pc[i := Reversing(Null, PointerTo(l, 0))]
    ensures Alone(a, i, c, n).word == a.word && Alone(a, i, c, n).pc == Woken(s.pc, l)
  {
    var order := Rev(l);
    RevTwice(l);
    StartTurning(a.next, l);
    TurnAlone(a, i, order, |l|, c);
    var b := Alone(a, i, c, |l| + 1);
    n := ThenWalk(s, a, b, i, l, |l| + 1, c);
  }

  /** `set` left alone resumes everyone on the list, whatever the order asked for, and returns. */
  lemma SetAlone(s: State, i: Id, l: seq<Id>, policy: Policy) returns (n: nat)
    requires i < |s.pc| == |s.next| && s.pc[i] == Idle && !s.word.Set?
    requires Distinct(l) && i !in l && Path(s.next, s.word, l)
    ensures Alone(s, i, DoSet(policy), n).word == Set
    ensures Alone(s, i, DoSet(policy), n).pc == Woken(s.pc, l)
  {
    var c := DoSet(policy);
    var a := Step(s, Move(i, c));
    if a.pc[i].Walk? {
      WalkingEnds(s, a, i, l, l, c);
      n := 2 * |l| + 2;
    } else {
      n := TurningEnds(s, a, i, l, c);
      n := n + 1;
    }
    assert Alone(s, i, c, n) == Alone(a, i, c, n - 1);
  }

  /** After every run, a `set` left alone leaves the event on and nobody enlisted in it suspended. */
  lemma SetReturns(s: State, ms: seq<Move>, i: Id, policy: Policy) returns (l: seq<Id>, n: nat)
    requires Init(s) && Legal(s, ms) && i < |s.pc| && Exec(s, ms).pc[i] == Idle && !Exec(s, ms).word.Set?
    ensures Path(Exec(s, ms).next, Exec(s, ms).word, l)
    ensures Alone(Exec(s, ms), i, DoSet(policy), n).word == Set
    ensures Alone(Exec(s, ms), i, DoSet(policy), n).pc == Woken(Exec(s, ms).pc, l)
  {
    var a := RunsAreEventHistories(s, ms);
    var v := Replay(Fresh(s), Trace(s, ms));
    l := Rev(v.waiting);
    RevMembers(v.waiting);
    n := SetAlone(Exec(s, ms), i, l, policy);
  }
}
