/** Sequence vocabulary shared by the protocol models. */
module Prelude {

  datatype Option<+T> = None | Some(value: T)

  ghost predicate Distinct<T>(s: seq<T>) {
    forall i, j :: 0 <= i < j < |s| ==> s[i] != s[j]
  }

  /** The sequence back to front: what walking a stack of pushes yields. */
  function Rev<T>(s: seq<T>): (r: seq<T>)
    ensures |r| == |s|
    ensures forall i :: 0 <= i < |s| ==> r[i] == s[|s| - 1 - i]
  {
    seq(|s|, i requires 0 <= i < |s| => s[|s| - 1 - i])
  }

  lemma RevMembers<T>(s: seq<T>)
    ensures forall x :: x in Rev(s) <==> x in s
  {
    forall x | x in s
      ensures x in Rev(s)
    {
      var i :| 0 <= i < |s| && s[i] == x;
      assert Rev(s)[|s| - 1 - i] == x;
    }
  }

  function One(b: bool): (n: nat) {
    if b then 1 else 0
  }

  /** Occurrences of `x` in `s`. */
  function Count<T(==)>(s: seq<T>, x: T): (n: nat) {
    if s == [] then 0 else One(s[0] == x) + Count(s[1..], x)
  }

  lemma TailMembers<T>(s: seq<T>)
    requires s != [] && Distinct(s)
    ensures Distinct(s[1..])
    ensures forall x :: x in s[1..] <==> x in s && x != s[0]
  {
    forall x | x in s && x != s[0]
      ensures x in s[1..]
    {
      var i :| 0 <= i < |s| && s[i] == x;
      assert s[1..][i - 1] == x;
    }
  }

  /** Taking one and then `n` more off the front. */
  lemma TakeMore<T>(s: seq<T>, n: nat)
    requires n < |s|
    ensures [s[0]] + s[1..][..n] == s[..n + 1] && s[1..][n..] == s[n + 1..]
  {
  }

  lemma Assoc<T>(a: seq<T>, b: seq<T>, c: seq<T>)
    ensures a + b + c == a + (b + c)
  {
  }

  lemma PrefixUnder<T>(p: seq<T>, a: seq<T>, b: seq<T>)
    requires a <= b
    ensures p + a <= p + b
  {
  }

  lemma EmptyFront<T>(a: seq<T>, b: seq<T>)
    requires |a| == 0
    ensures a + b == b
  {
  }

  lemma RevPush<T>(s: seq<T>, x: T)
    ensures Rev(s + [x]) == [x] + Rev(s)
  {
  }

  /** Two stretches of a queue's life join: what was in and came in is what went out and is left. */
  lemma Chained<X>(q: seq<X>, came: seq<X>, went: seq<X>, q': seq<X>, later: seq<X>, laterWent: seq<X>, end: seq<X>)
    requires q + came == went + q' && q' + later == laterWent + end
    ensures q + (came + later) == (went + laterWent) + end
  {
    assert q + (came + later) == (q + came) + later == went + (q' + later);
  }

  lemma {:induction false} CountAdd<T>(a: seq<T>, b: seq<T>, x: T)
    ensures Count(a + b, x) == Count(a, x) + Count(b, x)
  {
    if a == [] {
      assert a + b == b;
    } else {
      assert (a + b)[1..] == a[1..] + b;
      CountAdd(a[1..], b, x);
    }
  }

  /** The weights of all elements, summed. */
  function Total<T>(xs: seq<T>, weight: T -> nat): (n: nat) {
    if xs == [] then 0 else weight(xs[0]) + Total(xs[1..], weight)
  }

  lemma {:induction false} TotalUpdate<T>(xs: seq<T>, i: nat, x: T, weight: T -> nat)
    requires i < |xs|
    ensures Total(xs[i := x], weight) == Total(xs, weight) - weight(xs[i]) + weight(x)
  {
    if i == 0 {
      assert xs[0 := x][1..] == xs[1..];
    } else {
      assert xs[i := x][1..] == xs[1..][i - 1 := x];
      TotalUpdate(xs[1..], i - 1, x, weight);
    }
  }

  lemma {:induction false} TotalSame<T>(xs: seq<T>, ys: seq<T>, weight: T -> nat)
    requires |xs| == |ys| && forall k :: 0 <= k < |xs| ==> weight(xs[k]) == weight(ys[k])
    ensures Total(xs, weight) == Total(ys, weight)
  {
    if xs != [] {
      TotalSame(xs[1..], ys[1..], weight);
    }
  }

  lemma {:induction false} TotalZero<T>(xs: seq<T>, weight: T -> nat)
    ensures Total(xs, weight) == 0 <==> forall k :: 0 <= k < |xs| ==> weight(xs[k]) == 0
  {
    if xs != [] {
      TotalZero(xs[1..], weight);
      assert forall k :: 1 <= k < |xs| ==> xs[1..][k - 1] == xs[k];
    }
  }

  lemma {:induction false} TotalAtMost<T>(xs: seq<T>, light: T -> nat, weight: T -> nat)
    requires forall k :: 0 <= k < |xs| ==> light(xs[k]) <= weight(xs[k])
    ensures Total(xs, light) <= Total(xs, weight)
  {
    if xs != [] {
      TotalAtMost(xs[1..], light, weight);
    }
  }

  /** The sequence with element `k` dropped. */
  function Without<T>(s: seq<T>, k: nat): (r: seq<T>)
    requires k < |s|
  {
    s[..k] + s[k + 1..]
  }
}
