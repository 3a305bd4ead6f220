/**
 * Who is on which list, for protocols in which nodes move between one shared list and the
 * lists that tasks have taken from it.
 */
module Rosters {
  import opened Prelude

  type Id = nat

  datatype Place = Nowhere | InList | With(t: Id)

  /** `ids` names, once each, exactly the nodes that `place` puts at `p`. */
  ghost predicate Names(ids: seq<Id>, place: seq<Place>, p: Place) {
    && Distinct(ids)
    && (forall k :: 0 <= k < |ids| ==> ids[k] < |place|)
    && (forall i :: 0 <= i < |place| ==> (i in ids <==> place[i] == p))
  }

  /** Every node is on at most one list, and `place` says which. */
  ghost predicate Tidy(list: seq<Id>, held: seq<seq<Id>>, place: seq<Place>) {
    && Names(list, place, InList)
    && (forall t :: 0 <= t < |held| ==> Names(held[t], place, With(t)))
    && (forall i :: 0 <= i < |place| && place[i].With? ==> place[i].t < |held|)
  }

  lemma PushTidy(list: seq<Id>, held: seq<seq<Id>>, place: seq<Place>, w: Id)
    requires Tidy(list, held, place) && w < |place| && place[w] == Nowhere
    ensures Tidy([w] + list, held, place[w := InList])
  {
    forall t | 0 <= t < |held|
      ensures Names(held[t], place[w := InList], With(t))
    {
      assert Names(held[t], place, With(t));
    }
  }

  lemma PopTidy(list: seq<Id>, held: seq<seq<Id>>, place: seq<Place>, t: Id)
    requires Tidy(list, held, place) && list != [] && t < |held| && held[t] == []
    ensures list[0] < |place| && place[list[0]] == InList
    ensures Tidy(list[1..], held[t := [list[0]]], place[list[0] := With(t)])
  {
    TailMembers(list);
    var p := place[list[0] := With(t)];
    forall u | 0 <= u < |held|
      ensures Names(held[t := [list[0]]][u], p, With(u))
    {
      assert Names(held[u], place, With(u));
    }
  }

  function Claim(place: seq<Place>, ids: seq<Id>, t: Id): (r: seq<Place>)
    ensures |r| == |place|
    ensures forall i :: 0 <= i < |place| ==> r[i] == if i in ids then With(t) else place[i]
  {
    seq(|place|, i requires 0 <= i < |place| => if i in ids then With(t) else place[i])
  }

  lemma TakeTidy(list: seq<Id>, held: seq<seq<Id>>, place: seq<Place>, t: Id)
    requires Tidy(list, held, place) && t < |held| && held[t] == []
    ensures Tidy([], held[t := list], Claim(place, list, t))
  {
    forall u | 0 <= u < |held|
      ensures Names(held[t := list][u], Claim(place, list, t), With(u))
    {
      assert Names(held[u], place, With(u));
    }
  }

  /** Task `t` lets go of the first node it holds. */
  lemma DropTidy(list: seq<Id>, held: seq<seq<Id>>, place: seq<Place>, t: Id)
    requires Tidy(list, held, place) && t < |held| && held[t] != []
    ensures held[t][0] < |place| && place[held[t][0]] == With(t)
    ensures Tidy(list, held[t := held[t][1..]], place[held[t][0] := Nowhere])
  {
    assert Names(held[t], place, With(t));
    TailMembers(held[t]);
    var w := held[t][0];
    forall u | 0 <= u < |held|
      ensures Names(held[t := held[t][1..]][u], place[w := Nowhere], With(u))
    {
      assert Names(held[u], place, With(u));
    }
  }

  /** Everyone of `ids` off every list. */
  function Freed(place: seq<Place>, ids: seq<Id>): (r: seq<Place>)
    ensures |r| == |place|
    ensures forall i :: 0 <= i < |place| ==> r[i] == if i in ids then Nowhere else place[i]
  {
    seq(|place|, i requires 0 <= i < |place| => if i in ids then Nowhere else place[i])
  }

  lemma FreeMore(place: seq<Place>, ids: seq<Id>)
    requires ids != [] && Distinct(ids) && ids[0] < |place|
    ensures Freed(place[ids[0] := Nowhere], ids[1..]) == Freed(place, ids)
  {
    TailMembers(ids);
  }
}
