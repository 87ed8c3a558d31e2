/** Orders in which a finite set may be iterated. */
module Orders {
  /** Every element of the set comes up exactly once. */
  ghost predicate Lists<T(!new)>(order: seq<T>, s: set<T>) {
    && (forall i, j :: 0 <= i < j < |order| ==> order[i] != order[j])
    && (forall x :: x in order <==> x in s)
  }

  lemma {:induction false} Listing<T(!new)>(s: set<T>) returns (order: seq<T>)
    ensures Lists(order, s)
    decreases s, 0
  {
    if s == {} {
      order := [];
    } else {
      var x :| x in s;
      order := ListingFrom(s, x);
    }
  }

  lemma {:induction false} ListingFrom<T(!new)>(s: set<T>, x: T) returns (order: seq<T>)
    requires x in s
    ensures Lists(order, s) && order != [] && order[0] == x
    decreases s - {x}, 1
  {
    var rest := Listing(s - {x});
    order := [x] + rest;
    assert forall y :: y in order <==> y == x || y in rest;
  }

  lemma {:induction false} ListingUpTo<T(!new)>(s: set<T>, x: T) returns (order: seq<T>)
    requires x in s
    ensures Lists(order, s) && order != [] && order[|order| - 1] == x
    decreases s, 1
  {
    var rest := Listing(s - {x});
    order := rest + [x];
    assert forall y :: y in order <==> y == x || y in rest;
  }
}
