/** Typestate weights: sets of automaton transitions, their composition and their union. */
module Typestate {
  import opened Options

  /** A transition between states; `null` states are `None`. A matcher transition carries what it matches, which
      tells it apart from a plain transition. */
  datatype Transition<Q, M> = Identity | Arrow(from: Option<Q>, to: Option<Q>, matcher: Option<M>)

  function Loop<Q, M>(t: Transition<Q, M>): Transition<Q, M> {
    var q := if t.Identity? then None else t.from;
    Arrow(q, q, None)
  }

  /** The weights `one()`, `zero()`, and those of the public constructors. Equality does not look at the
      statements that changed the state, which are reporting only. */
  datatype Weight<!Q(==,!new), !M(==,!new)> = One | Zero | Of(values: set<Transition<Q, M>>)

  // ----- extendWith -----

  function Compose<Q(==), M>(first: Transition<Q, M>, second: Transition<Q, M>): Option<Transition<Q, M>> {
    if second.Identity? then Some(first)
    else if first.Identity? then Some(second)
    else if first.to == second.from then Some(Arrow(first.from, second.to, None))
    else None
  }

  /** Comparing the states of these two dereferences `null`. */
  predicate Dereferences<Q, M>(first: Transition<Q, M>, second: Transition<Q, M>) {
    first.Arrow? && second.Arrow? && first.to.None?
  }

  ghost function Composed<Q(!new), M(!new)>(v: set<Transition<Q, M>>, w: set<Transition<Q, M>>): set<Transition<Q, M>> {
    set first, second | first in v && second in w && Compose(first, second).Some? :: Compose(first, second).value
  }

  ghost predicate Raises<Q(!new), M(!new)>(v: Weight<Q, M>, w: Weight<Q, M>) {
    v.Of? && w.Of? && !Compared(v.values, w.values)
  }

  ghost function Extend<Q(!new), M(!new)>(v: Weight<Q, M>, w: Weight<Q, M>): Weight<Q, M> {
    if w.One? then v
    else if v.One? then w
    else if v.Zero? || w.Zero? then Zero
    else Of(Composed(v.values, w.values))
  }

  /** `None` stands for the exception. */
  method ExtendWith<Q(!new,==), M(!new,==)>(v: Weight<Q, M>, w: Weight<Q, M>) returns (r: Option<Weight<Q, M>>)
    ensures r == if Raises(v, w) then None else Some(Extend(v, w))
  {
    if w.One? {
      return Some(v);
    }
    if v.One? {
      return Some(w);
    }
    if w.Zero? || v.Zero? {
      return Some(Zero);
    }
    var ress: set<Transition<Q, M>> := {};
    var firsts := v.values;
    ghost var composed: set<Transition<Q, M>> := {};
    while firsts != {}
      invariant composed + firsts == v.values
      invariant ress == Composed(composed, w.values) && Compared(composed, w.values)
    {
      var first :| first in firsts;
      firsts := firsts - {first};
      var seconds := w.values;
      ghost var before, done := ress, {};
      while seconds != {}
        invariant done + seconds == w.values
        invariant ress == before + Composed({first}, done) && Compared({first}, done)
      {
        var second :| second in seconds;
        if Dereferences(first, second) {
          return None;
        }
        seconds := seconds - {second};
        ComposedAdd(first, done, second);
        done := done + {second};
        if second.Identity? {
          ress := ress + {first};
        } else if first.Identity? {
          ress := ress + {second};
        } else if first.to == second.from {
          ress := ress + {Arrow(first.from, second.to, None)};
        }
      }
      assert done == w.values;
      ComposedUnion(composed, {first}, w.values);
      composed := composed + {first};
    }
    assert composed == v.values;
    return Some(Of(ress));
  }

  /** No pair of these dereferences `null`. */
  ghost predicate Compared<Q(!new), M(!new)>(v: set<Transition<Q, M>>, w: set<Transition<Q, M>>) {
    forall first, second :: first in v && second in w ==> !Dereferences(first, second)
  }

  lemma ComposedUnion<Q(!new), M(!new)>(u: set<Transition<Q, M>>, v: set<Transition<Q, M>>, w: set<Transition<Q, M>>)
    ensures Composed(u + v, w) == Composed(u, w) + Composed(v, w)
    ensures Composed(w, u + v) == Composed(w, u) + Composed(w, v)
    ensures Compared(u + v, w) <==> Compared(u, w) && Compared(v, w)
  {
  }

  lemma ComposedAdd<Q(!new), M(!new)>(first: Transition<Q, M>, w: set<Transition<Q, M>>, second: Transition<Q, M>)
    ensures Composed({first}, w + {second}) ==
            Composed({first}, w) + (match Compose(first, second) case Some(t) => {t} case None => {})
    ensures Compared({first}, w + {second}) <==> Compared({first}, w) && !Dereferences(first, second)
  {
    ComposedUnion(w, {second}, {first});
  }

  // ----- combineWith -----

  ghost function Loops<Q(!new), M(!new)>(v: set<Transition<Q, M>>): set<Transition<Q, M>> {
    set t | t in v :: Loop(t)
  }

  ghost function Combine<Q(!new), M(!new)>(v: Weight<Q, M>, w: Weight<Q, M>): Weight<Q, M> {
    match (v, w)
    case (Zero, _) => w
    case (_, Zero) => v
    case (One, One) => One
    case (One, Of(ts)) => Of(ts + Loops(ts))
    case (Of(ts), One) => Of(ts + Loops(ts))
    case (Of(ts), Of(us)) => Of(ts + us)
  }

  method CombineWith<Q(!new,==), M(!new,==)>(v: Weight<Q, M>, w: Weight<Q, M>) returns (r: Weight<Q, M>)
    ensures r == Combine(v, w)
  {
    if v.Zero? {
      return w;
    }
    if w.Zero? {
      return v;
    }
    if w.One? && v.One? {
      return One;
    }
    if w.One? || v.One? {
      var transitions := if w.One? then v.values else w.values;
      var idTransitions: set<Transition<Q, M>> := {};
      var todo := transitions;
      while todo != {}
        invariant todo <= transitions
        invariant idTransitions == Loops(transitions - todo)
      {
        var t :| t in todo;
        ghost var done := transitions - todo;
        idTransitions := idTransitions + {Loop(t)};
        todo := todo - {t};
        assert transitions - todo == done + {t};
      }
      assert transitions - todo == transitions;
      return Of(transitions + idTransitions);
    }
    return Of(w.values + v.values);
  }

  // ----- What weights mean -----

  predicate Moves<Q(==), M>(t: Transition<Q, M>, q: Q, q': Q) {
    if t.Identity? then q == q' else t.from == Some(q) && t.to == Some(q')
  }

  /** The weight as a relation on automaton states. */
  ghost predicate Denotes<Q(!new), M(!new)>(w: Weight<Q, M>, q: Q, q': Q) {
    match w
    case One => q == q'
    case Zero => false
    case Of(ts) => exists t :: t in ts && Moves(t, q, q')
  }

  predicate ProperTransition<Q, M>(t: Transition<Q, M>) {
    t.Arrow? ==> t.from.Some? && t.to.Some?
  }

  /** No transition has a `null` state. */
  ghost predicate Proper<Q(!new), M(!new)>(w: Weight<Q, M>) {
    w.Of? ==> forall t :: t in w.values ==> ProperTransition(t)
  }

  ghost predicate Between<Q(!new), M(!new)>(v: Weight<Q, M>, w: Weight<Q, M>, q: Q, p: Q, q': Q) {
    Denotes(v, q, p) && Denotes(w, p, q')
  }

  lemma ComposeMoves<Q(!new), M(!new)>(first: Transition<Q, M>, second: Transition<Q, M>, q: Q, p: Q, q': Q)
    requires Moves(first, q, p) && Moves(second, p, q')
    ensures Compose(first, second).Some? && Moves(Compose(first, second).value, q, q')
  {
  }

  lemma ComposeSplits<Q(!new), M(!new)>(first: Transition<Q, M>, second: Transition<Q, M>, q: Q, q': Q) returns (p: Q)
    requires ProperTransition(first) && ProperTransition(second)
    requires Compose(first, second).Some? && Moves(Compose(first, second).value, q, q')
    ensures Moves(first, q, p) && Moves(second, p, q')
  {
    p := if first.Identity? then q else first.to.value;
  }

  /** Extending composes the relations, and neither raises nor makes a `null` state. */
  lemma ExtendDenotes<Q(!new), M(!new)>(v: Weight<Q, M>, w: Weight<Q, M>, q: Q, q': Q)
    requires Proper(v) && Proper(w)
    ensures !Raises(v, w) && Proper(Extend(v, w))
    ensures Denotes(Extend(v, w), q, q') <==> exists p :: Between(v, w, q, p, q')
  {
    if v.Of? && w.Of? {
      if Denotes(Extend(v, w), q, q') {
        var t :| t in Composed(v.values, w.values) && Moves(t, q, q');
        var first, second :| first in v.values && second in w.values && Compose(first, second) == Some(t);
        var p := ComposeSplits(first, second, q, q');
        assert Between(v, w, q, p, q');
      }
      if p :| Between(v, w, q, p, q') {
        var first :| first in v.values && Moves(first, q, p);
        var second :| second in w.values && Moves(second, p, q');
        ComposeMoves(first, second, q, p, q');
        assert Compose(first, second).value in Composed(v.values, w.values);
      }
    } else if v.One? && Denotes(w, q, q') {
      assert Between(v, w, q, q, q');
    } else if w.One? && Denotes(v, q, q') {
      assert Between(v, w, q, q', q');
    }
  }

  /** Two transitions compose to a plain one, which remembers no matcher; only the identity leaves one as it is. */
  lemma ComposedPlain<Q(!new), M(!new)>(v: set<Transition<Q, M>>, w: set<Transition<Q, M>>, t: Transition<Q, M>)
    requires t in Composed(v, w) && (t.Identity? || t.matcher.Some?)
    ensures (t in v && Identity in w) || (t in w && Identity in v)
  {
  }

  /** Combining weights other than `one()` is the union. */
  lemma CombineDenotes<Q(!new), M(!new)>(v: Weight<Q, M>, w: Weight<Q, M>, q: Q, q': Q)
    requires !v.One? && !w.One?
    ensures Denotes(Combine(v, w), q, q') <==> Denotes(v, q, q') || Denotes(w, q, q')
  {
    if v.Of? && w.Of? {
      assert forall t :: t in v.values + w.values <==> t in v.values || t in w.values;
    }
  }

  /** Some transition of the weight leaves the state. */
  ghost predicate Leaves<Q(!new), M(!new)>(w: Weight<Q, M>, q: Q) {
    w.Of? && exists t :: t in w.values && t.Arrow? && t.from == Some(q)
  }

  /** Combining `one()` with a weight adds the identity, but only on the states that the weight leaves. */
  lemma CombineWithOneDenotes<Q(!new), M(!new)>(w: Weight<Q, M>, q: Q, q': Q)
    requires w.Of?
    ensures Combine(One, w) == Combine(w, One)
    ensures forall t :: t in Combine(One, w).values ==>
      t in w.values || (t.Arrow? && t.from == t.to && t.matcher.None?)
    ensures Denotes(Combine(One, w), q, q') <==> Denotes(w, q, q') || (q == q' && Leaves(w, q))
  {
    if t :| t in Loops(w.values) && Moves(t, q, q') {
      var u :| u in w.values && t == Loop(u);
      assert q == q' && Leaves(w, q);
    }
    if q == q' && Leaves(w, q) {
      var u :| u in w.values && u.Arrow? && u.from == Some(q);
      assert Loop(u) in Loops(w.values) && Moves(Loop(u), q, q');
    }
    assert forall t :: t in Combine(One, w).values <==> t in w.values || t in Loops(w.values);
  }

  /** Combining keeps weights proper unless `one()` meets a weight with the identity transition, whose states
      are `null`. */
  lemma CombineProper<Q(!new), M(!new)>(v: Weight<Q, M>, w: Weight<Q, M>)
    requires Proper(v) && Proper(w)
    ensures Proper(Combine(v, w)) <==>
            !((v.One? && w.Of? && Identity in w.values) || (w.One? && v.Of? && Identity in v.values))
  {
    if v.One? && w.Of? && Identity in w.values {
      assert Loop<Q, M>(Identity) in Loops(w.values);
    }
    if w.One? && v.Of? && Identity in v.values {
      assert Loop<Q, M>(Identity) in Loops(v.values);
    }
  }

  // ----- The laws of extendWith -----

  lemma ExtendUnits<Q(!new), M(!new)>(w: Weight<Q, M>)
    ensures Extend(One, w) == w == Extend(w, One)
    ensures Extend(Zero, w) == Zero == Extend(w, Zero)
  {
  }

  lemma ComposeAssociative<Q(!new), M(!new)>(a: Transition<Q, M>, b: Transition<Q, M>, c: Transition<Q, M>)
    ensures (match Compose(a, b) case Some(ab) => Compose(ab, c) case None => None) ==
            (match Compose(b, c) case Some(bc) => Compose(a, bc) case None => None)
  {
  }

  lemma ComposedAssociative<Q(!new), M(!new)>(
    u: set<Transition<Q, M>>, v: set<Transition<Q, M>>, w: set<Transition<Q, M>>)
    ensures Composed(Composed(u, v), w) == Composed(u, Composed(v, w))
  {
    forall t | t in Composed(Composed(u, v), w)
      ensures t in Composed(u, Composed(v, w))
    {
      var ab, c :| ab in Composed(u, v) && c in w && Compose(ab, c) == Some(t);
      var a, b :| a in u && b in v && Compose(a, b) == Some(ab);
      ComposeAssociative(a, b, c);
      assert Compose(b, c).value in Composed(v, w);
    }
    forall t | t in Composed(u, Composed(v, w))
      ensures t in Composed(Composed(u, v), w)
    {
      var a, bc :| a in u && bc in Composed(v, w) && Compose(a, bc) == Some(t);
      var b, c :| b in v && c in w && Compose(b, c) == Some(bc);
      ComposeAssociative(a, b, c);
      assert Compose(a, b).value in Composed(u, v);
    }
  }

  /** The result of `extendWith`; `None` stands for the exception. */
  ghost function Extended<Q(!new), M(!new)>(v: Option<Weight<Q, M>>, w: Option<Weight<Q, M>>): Option<Weight<Q, M>> {
    if v.None? || w.None? || Raises(v.value, w.value) then None else Some(Extend(v.value, w.value))
  }

  /** Extending is associative wherever neither grouping raises, and on proper weights neither does. */
  lemma ExtendAssociative<Q(!new), M(!new)>(u: Weight<Q, M>, v: Weight<Q, M>, w: Weight<Q, M>)
    ensures var left := Extended(Extended(Some(u), Some(v)), Some(w));
            var right := Extended(Some(u), Extended(Some(v), Some(w)));
            && (left.Some? && right.Some? ==> left == right)
            && (Proper(u) && Proper(v) && Proper(w) ==> left.Some? && right.Some? && Proper(left.value))
  {
    if u.Of? && v.Of? && w.Of? {
      ComposedAssociative(u.values, v.values, w.values);
    }
    if Proper(u) && Proper(v) && Proper(w) {
      ExtendProper(u, v);
      ExtendProper(v, w);
      ExtendProper(Extend(u, v), w);
      ExtendProper(u, Extend(v, w));
    }
  }

  lemma ExtendProper<Q(!new), M(!new)>(v: Weight<Q, M>, w: Weight<Q, M>)
    requires Proper(v) && Proper(w)
    ensures !Raises(v, w) && Proper(Extend(v, w))
  {
  }

  ghost predicate HasArrow<Q(!new), M(!new)>(v: set<Transition<Q, M>>) {
    exists t :: t in v && t.Arrow?
  }

  /** Some transition other than the identity leads to a `null` state. */
  ghost predicate HasNull<Q(!new), M(!new)>(v: set<Transition<Q, M>>) {
    exists t :: t in v && t.Arrow? && t.to.None?
  }

  lemma RaisesIff<Q(!new), M(!new)>(v: set<Transition<Q, M>>, w: set<Transition<Q, M>>)
    ensures Raises(Of(v), Of(w)) <==> HasNull(v) && HasArrow(w)
  {
    if HasNull(v) && HasArrow(w) {
      var s :| s in v && s.Arrow? && s.to.None?;
      var t :| t in w && t.Arrow?;
      assert Dereferences(s, t);
    }
  }

  /** When the grouping makes no difference: whatever raises in one of them raises in the other. */
  ghost predicate GroupsAlike<Q(!new), M(!new)>(u: Weight<Q, M>, v: Weight<Q, M>, w: Weight<Q, M>) {
    match (u, v, w)
    case (Of(a), Of(b), Of(c)) =>
      && (HasNull(a) && HasArrow(b) ==> (HasNull(b) && HasArrow(c)) || HasArrow(Composed(b, c)))
      && (HasNull(b) && HasArrow(c) ==> (HasNull(a) && HasArrow(b)) || HasNull(Composed(a, b)))
    case (Zero, Of(b), Of(c)) => !(HasNull(b) && HasArrow(c))
    case (Of(a), Of(b), Zero) => !(HasNull(a) && HasArrow(b))
    case _ => true
  }

  /** The two groupings have the same outcome, an exception or a weight, exactly then. */
  lemma GroupingIff<Q(!new), M(!new)>(u: Weight<Q, M>, v: Weight<Q, M>, w: Weight<Q, M>)
    ensures Extended(Extended(Some(u), Some(v)), Some(w)) == Extended(Some(u), Extended(Some(v), Some(w)))
            <==> GroupsAlike(u, v, w)
  {
    match (u, v, w)
    case (Of(a), Of(b), Of(c)) =>
      ComposedAssociative(a, b, c);
      RaisesIff(a, b);
      RaisesIff(b, c);
      RaisesIff(Composed(a, b), c);
      RaisesIff(a, Composed(b, c));
      NullsCompose(a, b, c);
    case (Zero, Of(b), Of(c)) => RaisesIff(b, c);
    case (Of(a), Of(b), Zero) => RaisesIff(a, b);
    case _ =>
  }

  /** A composition has a `null` target only if one of its parts has, and an arrow only if one of them has. */
  lemma NullsCompose<Q(!new), M(!new)>(u: set<Transition<Q, M>>, v: set<Transition<Q, M>>, w: set<Transition<Q, M>>)
    ensures HasNull(Composed(u, v)) ==> HasNull(u) || HasNull(v)
    ensures HasArrow(Composed(v, w)) ==> HasArrow(v) || HasArrow(w)
  {
  }

  /** With a `null` state, one grouping may raise and the other not. */
  lemma GroupingRaises<Q(!new), M(!new)>(a: Q, b: Q, c: Q)
    requires a != b
    ensures var u: Weight<Q, M> := Of({Arrow(Some(a), Some(b), None)});
            var v: Weight<Q, M> := Of({Arrow(None, None, None)});
            var w: Weight<Q, M> := Of({Arrow(Some(b), Some(c), None)});
            && Extended(Extended(Some(u), Some(v)), Some(w)) == Some(Of({}))
            && Extended(Some(u), Extended(Some(v), Some(w))) == None
  {
    var x: Transition<Q, M> := Arrow(Some(a), Some(b), None);
    var y: Transition<Q, M> := Arrow(None, None, None);
    var z: Transition<Q, M> := Arrow(Some(b), Some(c), None);
    assert Composed({x}, {y}) == {} && Composed({}, {z}) == {};
    assert y in {y} && z in {z} && Dereferences(y, z);
    assert !Compared({y}, {z}) && Compared({x}, {y});
  }

  /** Extending distributes over combining weights other than `one()`, on both sides. */
  lemma ExtendDistributes<Q(!new), M(!new)>(u: Weight<Q, M>, v: Weight<Q, M>, w: Weight<Q, M>)
    requires !v.One? && !w.One?
    ensures Extend(u, Combine(v, w)) == Combine(Extend(u, v), Extend(u, w))
    ensures Extend(Combine(v, w), u) == Combine(Extend(v, u), Extend(w, u))
  {
    if u.Of? && v.Of? && w.Of? {
      ComposedUnion(v.values, w.values, u.values);
    }
  }

  /** When extending from the left distributes over combining with `one()`: what `u` alone gives is what `u` and then
      `w`, or a self-loop where `w` leaves, give; and the self-loops give nothing else. */
  ghost predicate LeftDistributes<Q(!new), M(!new)>(u: set<Transition<Q, M>>, w: set<Transition<Q, M>>) {
    && u <= Composed(u, w) + Composed(u, Loops(w))
    && Composed(u, Loops(w)) <= u + Composed(u, w)
  }

  ghost predicate RightDistributes<Q(!new), M(!new)>(u: set<Transition<Q, M>>, w: set<Transition<Q, M>>) {
    && u <= Composed(w, u) + Composed(Loops(w), u)
    && Composed(Loops(w), u) <= u + Composed(w, u)
  }

  /** Over `one()`, extending distributes exactly then; in the other cases of `u` and `w`, always. */
  lemma ExtendOverOneIff<Q(!new), M(!new)>(u: Weight<Q, M>, w: Weight<Q, M>)
    ensures Extend(u, Combine(One, w)) == Combine(Extend(u, One), Extend(u, w)) <==>
            (u.Of? && w.Of? ==> LeftDistributes(u.values, w.values))
    ensures Extend(Combine(One, w), u) == Combine(Extend(One, u), Extend(w, u)) <==>
            (u.Of? && w.Of? ==> RightDistributes(u.values, w.values))
  {
    if u.Of? && w.Of? {
      var a, b := u.values, w.values;
      ComposedUnion(b, Loops(b), a);
      assert Extend(u, Combine(One, w)).values == Composed(a, b) + Composed(a, Loops(b));
      assert Combine(Extend(u, One), Extend(u, w)).values == a + Composed(a, b);
      assert Extend(Combine(One, w), u).values == Composed(b, a) + Composed(Loops(b), a);
      assert Combine(Extend(One, u), Extend(w, u)).values == a + Composed(b, a);
    } else {
      CombineJoins(Extend(u, One), Extend(u, w));
    }
  }

  /** On meanings: the two sides agree at a pair of states exactly if what `u` alone relates is kept there. */
  lemma OverOneDenotes<Q(!new), M(!new)>(u: Weight<Q, M>, w: Weight<Q, M>, q: Q, q': Q)
    requires u.Of? && w.Of? && Proper(u) && Proper(w) && Identity !in w.values
    ensures (Denotes(Extend(u, Combine(One, w)), q, q') <==> Denotes(Combine(Extend(u, One), Extend(u, w)), q, q'))
            <==> (Denotes(u, q, q') ==> Leaves(w, q') || exists p :: Between(u, w, q, p, q'))
    ensures (Denotes(Extend(Combine(One, w), u), q, q') <==> Denotes(Combine(Extend(One, u), Extend(w, u)), q, q'))
            <==> (Denotes(u, q, q') ==> Leaves(w, q) || exists p :: Between(w, u, q, p, q'))
  {
    var v := Combine(One, w);
    CombineProper(One, w);
    ExtendDenotes(u, v, q, q');
    ExtendDenotes(u, w, q, q');
    ExtendDenotes(v, u, q, q');
    ExtendDenotes(w, u, q, q');
    CombineDenotes(u, Extend(u, w), q, q');
    CombineDenotes(u, Extend(w, u), q, q');
    forall x, y
      ensures Denotes(v, x, y) <==> Denotes(w, x, y) || (x == y && Leaves(w, x))
    {
      CombineWithOneDenotes(w, x, y);
    }
    assert (exists p :: Between(u, v, q, p, q')) <==>
           (exists p :: Between(u, w, q, p, q')) || (Denotes(u, q, q') && Leaves(w, q')) by {
      forall p
        ensures Between(u, v, q, p, q') <==> Between(u, w, q, p, q') || (p == q' && Denotes(u, q, p) && Leaves(w, p))
      {
      }
      if Denotes(u, q, q') && Leaves(w, q') {
        assert Between(u, v, q, q', q');
      }
    }
    assert (exists p :: Between(v, u, q, p, q')) <==>
           (exists p :: Between(w, u, q, p, q')) || (Denotes(u, q, q') && Leaves(w, q)) by {
      forall p
        ensures Between(v, u, q, p, q') <==> Between(w, u, q, p, q') || (p == q && Denotes(u, p, q') && Leaves(w, p))
      {
      }
      if Denotes(u, q, q') && Leaves(w, q) {
        assert Between(v, u, q, q, q');
      }
    }
  }

  /** An input on which it does not: extending by a transition to a state that `w` does not leave forgets it. */
  lemma ExtendOverOneFails<Q(!new), M(!new)>(q: Q, p: Q, w: Weight<Q, M>)
    requires w.Of? && Proper(w) && Identity !in w.values && !Leaves(w, p)
    ensures var u := Of({Arrow(Some(q), Some(p), None)});
            && Extend(u, Combine(One, w)) == Of({})
            && Combine(Extend(u, One), Extend(u, w)) == u
  {
    var t: Transition<Q, M> := Arrow(Some(q), Some(p), None);
    forall s | s in w.values + Loops(w.values)
      ensures Compose(t, s) == None
    {
    }
    assert Composed({t}, w.values + Loops(w.values)) == {};
    assert Composed({t}, w.values) == {};
  }

  // ----- The laws of combineWith -----

  lemma CombineJoins<Q(!new), M(!new)>(v: Weight<Q, M>, w: Weight<Q, M>)
    ensures Combine(v, w) == Combine(w, v)
    ensures Combine(v, v) == v
    ensures Combine(Zero, v) == v
  {
  }

  lemma LoopsUnion<Q(!new), M(!new)>(v: set<Transition<Q, M>>, w: set<Transition<Q, M>>)
    ensures Loops(v + w) == Loops(v) + Loops(w)
    ensures Loops(v + Loops(v)) == Loops(v)
  {
    assert forall t :: t in v ==> Loop(Loop(t)) == Loop(t);
  }

  /** When combining three weights does not depend on the grouping: whenever `one()` does not meet two others, and
      otherwise if the loops that only one of the groupings adds are there already. */
  ghost predicate Associates<Q(!new), M(!new)>(u: Weight<Q, M>, v: Weight<Q, M>, w: Weight<Q, M>) {
    match (u, v, w)
    case (One, Of(a), Of(b)) => Loops(b) <= a + b + Loops(a)
    case (Of(a), Of(b), One) => Loops(a) <= a + b + Loops(b)
    case (Of(a), One, Of(b)) => Loops(a) <= a + b + Loops(b) && Loops(b) <= a + b + Loops(a)
    case _ => true
  }

  lemma CombineAssociativeIff<Q(!new), M(!new)>(u: Weight<Q, M>, v: Weight<Q, M>, w: Weight<Q, M>)
    ensures Combine(Combine(u, v), w) == Combine(u, Combine(v, w)) <==> Associates(u, v, w)
  {
    match (u, v, w)
    case (One, Of(a), Of(b)) =>
      LoopsUnion(a, b);
      assert Combine(u, Combine(v, w)).values == Combine(Combine(u, v), w).values + Loops(b);
    case (Of(a), Of(b), One) =>
      LoopsUnion(a, b);
      assert Combine(Combine(u, v), w).values == Combine(u, Combine(v, w)).values + Loops(a);
    case (Of(a), One, Of(b)) =>
      assert Combine(Combine(u, v), w).values == a + b + Loops(a);
      assert Combine(u, Combine(v, w)).values == a + b + Loops(b);
    case (One, One, Of(a)) => LoopsUnion(a, a);
    case (One, Of(a), One) => LoopsUnion(a, a);
    case (Of(a), One, One) => LoopsUnion(a, a);
    case _ =>
  }

  // ----- Weights along a run -----

  /** The weight of a run: an initial weight extended by the weight of each edge. */
  ghost function Along<Q(!new), M(!new)>(start: Weight<Q, M>, edges: seq<Weight<Q, M>>): Weight<Q, M>
    decreases |edges|
  {
    if edges == [] then start else Extend(Along(start, edges[..|edges| - 1]), edges[|edges| - 1])
  }

  /** The initial weight of a seed. */
  function Initial<Q(!new), M(!new)>(q: Q): Weight<Q, M> {
    Of({Arrow(Some(q), Some(q), None)})
  }

  /** The automaton, started in `q`, can be in `q'` after the edges: an edge of weight `one()` leaves it where it
      is, and one with transitions takes one of them. */
  ghost predicate CanReach<Q(!new), M(!new)>(q: Q, edges: seq<Weight<Q, M>>, q': Q)
    decreases |edges|
  {
    if edges == [] then q == q'
    else
      var init, last := edges[..|edges| - 1], edges[|edges| - 1];
      exists p :: CanReach(q, init, p) && Denotes(last, p, q')
  }

  ghost predicate ProperRun<Q(!new), M(!new)>(edges: seq<Weight<Q, M>>) {
    forall i :: 0 <= i < |edges| ==> Proper(edges[i])
  }

  /** The weight at the end of a run holds, from its start state, exactly the states the automaton can be in. */
  lemma {:induction false} AlongIsReachable<Q(!new), M(!new)>(q: Q, edges: seq<Weight<Q, M>>, p: Q, q': Q)
    requires ProperRun(edges)
    ensures Proper(Along(Initial(q), edges))
    ensures Denotes(Along(Initial(q), edges), p, q') <==> p == q && CanReach(q, edges, q')
    decreases |edges|
  {
    if edges == [] {
      var t: Transition<Q, M> := Arrow(Some(q), Some(q), None);
      assert Moves(t, q, q);
    } else {
      var init, last := edges[..|edges| - 1], edges[|edges| - 1];
      forall r
        ensures Proper(Along(Initial(q), init))
        ensures Denotes(Along(Initial(q), init), p, r) <==> p == q && CanReach(q, init, r)
      {
        AlongIsReachable(q, init, p, r);
      }
      AlongIsReachable(q, init, p, q');
      ExtendDenotes(Along(Initial(q), init), last, p, q');
      if p == q && CanReach(q, edges, q') {
        var r :| CanReach(q, init, r) && Denotes(last, r, q');
        assert Between(Along(Initial(q), init), last, p, r, q');
      }
    }
  }

  /** The weights at the end of several runs, combined, hold exactly the states that one of them can end in. */
  ghost function Merged<Q(!new), M(!new)>(q: Q, runs: seq<seq<Weight<Q, M>>>): Weight<Q, M>
    decreases |runs|
  {
    if runs == [] then Zero else Combine(Merged(q, runs[..|runs| - 1]), Along(Initial(q), runs[|runs| - 1]))
  }

  lemma {:induction false} AlongIsNotOne<Q(!new), M(!new)>(q: Q, edges: seq<Weight<Q, M>>)
    ensures !Along(Initial(q), edges).One?
    decreases |edges|
  {
    if edges != [] {
      AlongIsNotOne(q, edges[..|edges| - 1]);
    }
  }

  lemma {:induction false} MergedIsReachable<Q(!new), M(!new)>(q: Q, runs: seq<seq<Weight<Q, M>>>, q': Q)
    requires forall k :: 0 <= k < |runs| ==> ProperRun(runs[k])
    ensures !Merged(q, runs).One?
    ensures Denotes(Merged(q, runs), q, q') <==> exists k :: 0 <= k < |runs| && CanReach(q, runs[k], q')
    decreases |runs|
  {
    if runs != [] {
      var rest, run := runs[..|runs| - 1], runs[|runs| - 1];
      MergedIsReachable(q, rest, q');
      AlongIsNotOne(q, run);
      AlongIsReachable(q, run, q, q');
      CombineDenotes(Merged(q, rest), Along(Initial(q), run), q, q');
      assert forall k :: 0 <= k < |rest| ==> rest[k] == runs[k];
      if k :| 0 <= k < |runs| && CanReach(q, runs[k], q') && !CanReach(q, run, q') {
        assert CanReach(q, rest[k], q');
      }
    }
  }
}
