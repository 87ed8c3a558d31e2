/** Weights: the operations of `wpds.impl.Weight`, the laws the pushdown engine relies on,
    the order they induce, and finite combinations of weights. */
module Semirings {

  /** `rank` bounds how often a weight can still change: finite height, seen from each weight. */
  datatype Semiring<!W(!new)> = Semiring(one: W, extend: (W, W) -> W, combine: (W, W) -> W, rank: W -> nat)
  {
    ghost predicate JoinLaws(a: W, b: W, c: W) {
      && combine(a, a) == a
      && combine(a, b) == combine(b, a)
      && combine(combine(a, b), c) == combine(a, combine(b, c))
      && (combine(a, b) != a ==> rank(combine(a, b)) < rank(a))
    }

    ghost predicate ExtendLaws(a: W, b: W, c: W) {
      && extend(one, a) == a
      && extend(a, one) == a
      && extend(extend(a, b), c) == extend(a, extend(b, c))
      && extend(a, combine(b, c)) == combine(extend(a, b), extend(a, c))
      && extend(combine(a, b), c) == combine(extend(a, c), extend(b, c))
    }

    /** A join semilattice without infinite ascending chains. */
    ghost predicate Joins() {
      forall a: W, b: W, c: W :: JoinLaws(a, b, c)
    }

    /** An idempotent semiring of finite height. */
    ghost predicate Lawful() {
      Joins() && forall a: W, b: W, c: W :: ExtendLaws(a, b, c)
    }

    /** `b` already accounts for `a`. */
    ghost predicate Leq(a: W, b: W) {
      combine(b, a) == b
    }

    lemma LeqReflexive(a: W)
      requires Joins()
      ensures Leq(a, a)
    {
      assert JoinLaws(a, a, a);
    }

    lemma LeqTransitive(a: W, b: W, c: W)
      requires Joins() && Leq(a, b) && Leq(b, c)
      ensures Leq(a, c)
    {
      assert JoinLaws(c, b, a);
    }

    lemma LeqCombine(a: W, b: W)
      requires Joins()
      ensures Leq(a, combine(a, b)) && Leq(b, combine(a, b))
    {
      assert JoinLaws(a, b, a) && JoinLaws(a, b, b) && JoinLaws(b, a, a) && JoinLaws(a, a, b);
    }

    lemma CombineLeq(a: W, b: W, c: W)
      requires Joins() && Leq(a, c) && Leq(b, c)
      ensures Leq(combine(a, b), c)
    {
      assert JoinLaws(c, a, b);
    }

    lemma LeqAntisymmetric(a: W, b: W)
      requires Joins() && Leq(a, b) && Leq(b, a)
      ensures a == b
    {
      assert JoinLaws(a, b, a);
    }

    lemma LeqRank(a: W, b: W)
      requires Joins() && Leq(a, b)
      ensures a == b || rank(b) < rank(a)
    {
      assert JoinLaws(a, b, b);
    }

    lemma ExtendMonotone(a: W, b: W, c: W, d: W)
      requires Lawful() && Leq(a, b) && Leq(c, d)
      ensures Leq(extend(a, c), extend(b, d))
    {
      assert ExtendLaws(b, a, c) && ExtendLaws(b, d, c);
      LeqTransitive(extend(a, c), extend(b, c), extend(b, d));
    }

    lemma Units(a: W)
      requires Lawful()
      ensures extend(one, a) == a == extend(a, one)
    {
      assert ExtendLaws(a, a, a);
    }

    lemma Associative(a: W, b: W, c: W)
      requires Lawful()
      ensures extend(extend(a, b), c) == extend(a, extend(b, c))
    {
      assert ExtendLaws(a, b, c);
    }

    lemma Distributive(a: W, b: W, c: W)
      requires Lawful()
      ensures extend(a, combine(b, c)) == combine(extend(a, b), extend(a, c))
      ensures extend(combine(a, b), c) == combine(extend(a, c), extend(b, c))
    {
      assert ExtendLaws(a, b, c);
    }
  }

  /** A finite combination of weights, as the tree in which it was built. */
  datatype Sum<W> = Term(value: W) | Plus(left: Sum<W>, right: Sum<W>)

  ghost function Total<W(!new)>(alg: Semiring<W>, s: Sum<W>): W {
    match s
    case Term(w) => w
    case Plus(l, r) => alg.combine(Total(alg, l), Total(alg, r))
  }

  ghost predicate Drawn<W>(s: Sum<W>, from: W -> bool) {
    match s
    case Term(w) => from(w)
    case Plus(l, r) => Drawn(l, from) && Drawn(r, from)
  }

  /** `w` is the combination of finitely many (at least one) weights satisfying `from`. */
  ghost predicate Spans<W(!new)>(alg: Semiring<W>, from: W -> bool, w: W) {
    exists s :: Drawn(s, from) && Total(alg, s) == w
  }

  lemma FirstTerm<W(!new)>(s: Sum<W>, from: W -> bool) returns (w: W)
    requires Drawn(s, from)
    ensures from(w)
  {
    match s
    case Term(v) => w := v;
    case Plus(l, _) => w := FirstTerm(l, from);
  }

  lemma SpansTerm<W(!new)>(alg: Semiring<W>, from: W -> bool, w: W)
    requires from(w)
    ensures Spans(alg, from, w)
  {
    assert Drawn(Term(w), from) && Total(alg, Term(w)) == w;
  }

  lemma SpansPlus<W(!new)>(alg: Semiring<W>, from: W -> bool, a: W, b: W)
    requires Spans(alg, from, a) && Spans(alg, from, b)
    ensures Spans(alg, from, alg.combine(a, b))
  {
    var s :| Drawn(s, from) && Total(alg, s) == a;
    var t :| Drawn(t, from) && Total(alg, t) == b;
    assert Drawn(Plus(s, t), from) && Total(alg, Plus(s, t)) == alg.combine(a, b);
  }

  /** A combination is below every weight its terms are below. */
  lemma {:induction false} SumBelow<W(!new)>(alg: Semiring<W>, s: Sum<W>, from: W -> bool, bound: W)
    requires alg.Joins() && Drawn(s, from)
    requires forall a :: from(a) ==> alg.Leq(a, bound)
    ensures alg.Leq(Total(alg, s), bound)
  {
    match s
    case Term(_) =>
    case Plus(l, r) =>
      SumBelow(alg, l, from, bound);
      SumBelow(alg, r, from, bound);
      alg.CombineLeq(Total(alg, l), Total(alg, r), bound);
  }

  lemma SpansBelow<W(!new)>(alg: Semiring<W>, from: W -> bool, w: W, bound: W)
    requires alg.Joins() && Spans(alg, from, w)
    requires forall a :: from(a) ==> alg.Leq(a, bound)
    ensures alg.Leq(w, bound)
  {
    var s :| Drawn(s, from) && Total(alg, s) == w;
    SumBelow(alg, s, from, bound);
  }

  lemma {:induction false} SumTimesTerm<W(!new)>(alg: Semiring<W>, s: Sum<W>, left: W -> bool, b: W, out: W -> bool)
    requires alg.Lawful() && Drawn(s, left)
    requires forall a :: left(a) ==> Spans(alg, out, alg.extend(a, b))
    ensures Spans(alg, out, alg.extend(Total(alg, s), b))
  {
    match s
    case Term(_) =>
    case Plus(l, r) =>
      SumTimesTerm(alg, l, left, b, out);
      SumTimesTerm(alg, r, left, b, out);
      SpansPlus(alg, out, alg.extend(Total(alg, l), b), alg.extend(Total(alg, r), b));
      alg.Distributive(Total(alg, l), Total(alg, r), b);
  }

  lemma {:induction false} TermTimesSum<W(!new)>(alg: Semiring<W>, a: W, s: Sum<W>, right: W -> bool, out: W -> bool)
    requires alg.Lawful() && Drawn(s, right)
    requires forall b :: right(b) ==> Spans(alg, out, alg.extend(a, b))
    ensures Spans(alg, out, alg.extend(a, Total(alg, s)))
  {
    match s
    case Term(_) =>
    case Plus(l, r) =>
      TermTimesSum(alg, a, l, right, out);
      TermTimesSum(alg, a, r, right, out);
      SpansPlus(alg, out, alg.extend(a, Total(alg, l)), alg.extend(a, Total(alg, r)));
      alg.Distributive(a, Total(alg, l), Total(alg, r));
  }

  /** Extension distributes over finite combinations on both sides. */
  lemma SpansTimes<W(!new)>(alg: Semiring<W>, left: W -> bool, a: W, right: W -> bool, b: W, out: W -> bool)
    requires alg.Lawful() && Spans(alg, left, a) && Spans(alg, right, b)
    requires forall x, y :: left(x) && right(y) ==> Spans(alg, out, alg.extend(x, y))
    ensures Spans(alg, out, alg.extend(a, b))
  {
    var s :| Drawn(s, left) && Total(alg, s) == a;
    var t :| Drawn(t, right) && Total(alg, t) == b;
    forall x | left(x)
      ensures Spans(alg, out, alg.extend(x, b))
    {
      TermTimesSum(alg, x, t, right, out);
    }
    SumTimesTerm(alg, s, left, b, out);
  }

  lemma SpansTimesTerm<W(!new)>(alg: Semiring<W>, left: W -> bool, a: W, b: W, out: W -> bool)
    requires alg.Lawful() && Spans(alg, left, a)
    requires forall x :: left(x) ==> Spans(alg, out, alg.extend(x, b))
    ensures Spans(alg, out, alg.extend(a, b))
  {
    var s :| Drawn(s, left) && Total(alg, s) == a;
    SumTimesTerm(alg, s, left, b, out);
  }

  /** A combination of combinations is a combination. */
  lemma {:induction false} SumOfSpans<W(!new)>(alg: Semiring<W>, s: Sum<W>, from: W -> bool, out: W -> bool)
    requires Drawn(s, from) && forall a :: from(a) ==> Spans(alg, out, a)
    ensures Spans(alg, out, Total(alg, s))
  {
    match s
    case Term(_) =>
    case Plus(l, r) =>
      SumOfSpans(alg, l, from, out);
      SumOfSpans(alg, r, from, out);
      SpansPlus(alg, out, Total(alg, l), Total(alg, r));
  }

  lemma SpansOfSpans<W(!new)>(alg: Semiring<W>, from: W -> bool, w: W, out: W -> bool)
    requires Spans(alg, from, w) && forall a :: from(a) ==> Spans(alg, out, a)
    ensures Spans(alg, out, w)
  {
    var s :| Drawn(s, from) && Total(alg, s) == w;
    SumOfSpans(alg, s, from, out);
  }

  /** A combination of copies of one weight is that weight. */
  lemma SpansOnly<W(!new)>(alg: Semiring<W>, from: W -> bool, w: W, v: W)
    requires alg.Joins() && Spans(alg, from, v) && forall x :: from(x) ==> x == w
    ensures v == w
  {
    var sum :| Drawn(sum, from) && Total(alg, sum) == v;
    SumOnly(alg, from, w, sum);
  }

  lemma {:induction false} SumOnly<W(!new)>(alg: Semiring<W>, from: W -> bool, w: W, sum: Sum<W>)
    requires alg.Joins() && Drawn(sum, from) && forall x :: from(x) ==> x == w
    ensures Total(alg, sum) == w
  {
    if sum.Plus? {
      SumOnly(alg, from, w, sum.left);
      SumOnly(alg, from, w, sum.right);
      alg.LeqReflexive(w);
    }
  }

  /** Of finite height: some finite combination is above every weight it may draw from. */
  lemma {:induction false} SpansAll<W(!new)>(alg: Semiring<W>, from: W -> bool, v: W) returns (w: W)
    requires alg.Joins() && Spans(alg, from, v)
    ensures Spans(alg, from, w) && forall x :: from(x) ==> alg.Leq(x, w)
    decreases alg.rank(v)
  {
    if x :| from(x) && !alg.Leq(x, v) {
      alg.LeqCombine(v, x);
      alg.LeqRank(v, alg.combine(v, x));
      SpansTerm(alg, from, x);
      SpansPlus(alg, from, v, x);
      w := SpansAll(alg, from, alg.combine(v, x));
    } else {
      w := v;
    }
  }

  ghost function Greatest<W(!new)>(alg: Semiring<W>, from: W -> bool): (w: W)
    requires alg.Joins() && exists x :: from(x)
    ensures Spans(alg, from, w) && forall x :: from(x) ==> alg.Leq(x, w)
  {
    assert exists w :: Spans(alg, from, w) && forall x :: from(x) ==> alg.Leq(x, w) by {
      var x :| from(x);
      SpansTerm(alg, from, x);
      var w := SpansAll(alg, from, x);
    }
    var w :| Spans(alg, from, w) && forall x :: from(x) ==> alg.Leq(x, w);
    w
  }
}
