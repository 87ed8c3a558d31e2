/** `getTransitionsToFinalWeights` on a fixed automaton: the listener cascade computes, for every
    transition, the combination over all paths from it to an initial state. */
module FinalWeights {
  import opened Semirings
  import opened Automata

  datatype Graph<!S(==,!new), !N(==,!new), !W(!new)> =
    Graph(alg: Semiring<W>, weights: map<Transition<S, N>, W>, initial: set<S>, generated: S -> bool)

  /** `path` leads from `q`, through generated states, to an initial state. */
  ghost predicate Leads<S(!new), N(!new), W(!new)>(g: Graph<S, N, W>, q: S, path: seq<Transition<S, N>>)
    decreases path
  {
    if path == [] then q in g.initial
    else
      && path[0] in g.weights && path[0].start == q
      && (path[1..] != [] ==> g.generated(path[0].target))
      && Leads(g, path[0].target, path[1..])
  }

  /** The outer-first product of the weights along a path. */
  ghost function Product<S(!new), N(!new), W(!new)>(g: Graph<S, N, W>, q: S, path: seq<Transition<S, N>>): W
    requires Leads(g, q, path)
    decreases path
  {
    if path == [] then g.alg.one else g.alg.extend(Product(g, path[0].target, path[1..]), g.weights[path[0]])
  }

  /** Weights of the paths that start with `t`. */
  ghost function Through<S(!new), N(!new), W(!new)>(g: Graph<S, N, W>, t: Transition<S, N>): W -> bool {
    w => exists path :: path != [] && path[0] == t && Leads(g, t.start, path) && Product(g, t.start, path) == w
  }

  /** A listener at `q` with weight `v`: `q` is initial and `v` neutral, or `v` combines paths from `q`. */
  ghost function From<S(!new), N(!new), W(!new)>(g: Graph<S, N, W>, q: S): W -> bool {
    w => exists path :: Leads(g, q, path) && (path != [] ==> g.generated(q)) && Product(g, q, path) == w
  }

  lemma ThroughExtends<S(!new), N(!new), W(!new)>(g: Graph<S, N, W>, t: Transition<S, N>, v: W)
    requires g.alg.Lawful() && t in g.weights && Spans(g.alg, From(g, t.target), v)
    ensures Spans(g.alg, Through(g, t), g.alg.extend(v, g.weights[t]))
  {
    forall x | From(g, t.target)(x) ensures Spans(g.alg, Through(g, t), g.alg.extend(x, g.weights[t])) {
      var path :| Leads(g, t.target, path) && (path != [] ==> g.generated(t.target)) && Product(g, t.target, path) == x;
      var longer := [t] + path;
      assert longer[1..] == path;
      assert Leads(g, t.start, longer) && Product(g, t.start, longer) == g.alg.extend(x, g.weights[t]);
      SpansTerm(g.alg, Through(g, t), g.alg.extend(x, g.weights[t]));
    }
    SpansTimesTerm(g.alg, From(g, t.target), v, g.weights[t], Through(g, t));
  }

  lemma FromThrough<S(!new), N(!new), W(!new)>(g: Graph<S, N, W>, t: Transition<S, N>, v: W)
    requires g.generated(t.start) && Spans(g.alg, Through(g, t), v)
    ensures Spans(g.alg, From(g, t.start), v)
  {
    forall x | Through(g, t)(x) ensures Spans(g.alg, From(g, t.start), x) {
      SpansTerm(g.alg, From(g, t.start), x);
    }
    SpansOfSpans(g.alg, Through(g, t), v, From(g, t.start));
  }

  datatype Visit<S, W> = Visit(q: S, v: W)

  datatype Duty<S, N, W> = Duty(v: W, t: Transition<S, N>)

  /** Final weights and registered listeners so far; `owed` is what the calls in progress still have to
      deliver, `next` what is about to be registered, `left` what is left to happen. */
  datatype Stage<!S(==,!new), !N(==,!new), W(==,!new)> = Stage(
    final: map<Transition<S, N>, W>, visits: set<Visit<S, W>>, owed: set<Duty<S, N, W>>, next: set<Visit<S, W>>,
    left: Budget)

  ghost function Left<S(!new), N(!new), W(!new)>(g: Graph<S, N, W>, final: map<Transition<S, N>, W>): Budget {
    Budget(|g.weights.Keys - final.Keys|, RankSum(g.alg, final.Keys, final), 0)
  }

  datatype Matter = Values | Listeners | Chained | Counting | Finite

  ghost predicate Worth<S(!new), N(!new), W(!new)>(
    g: Graph<S, N, W>, final: map<Transition<S, N>, W>, t: Transition<S, N>, w: W)
  {
    t in final && g.alg.Leq(w, final[t])
  }

  ghost predicate Fulfills<S(!new), N(!new), W(!new)>(c: Matter, g: Graph<S, N, W>, s: Stage<S, N, W>) {
    match c
    case Values =>
      && s.final.Keys <= g.weights.Keys
      && forall t :: t in s.final ==> Spans(g.alg, Through(g, t), s.final[t])
    case Listeners => forall x :: x in s.visits ==> Spans(g.alg, From(g, x.q), x.v)
    case Chained => forall t :: t in s.final && g.generated(t.start) ==> Visit(t.start, s.final[t]) in s.visits + s.next
    case Counting =>
      forall x, t :: x in s.visits && t in g.weights && t.target == x.q
        ==> Worth(g, s.final, t, g.alg.extend(x.v, g.weights[t])) || Duty(x.v, t) in s.owed
    case Finite => s.left == Left(g, s.final)
  }

  ghost predicate Progress<S(!new), N(!new), W(!new)>(g: Graph<S, N, W>, s: Stage<S, N, W>) {
    forall c: Matter :: Fulfills(c, g, s)
  }

  ghost predicate Ascends<S(!new), N(!new), W(!new)>(
    g: Graph<S, N, W>, final: map<Transition<S, N>, W>, visits: set<Visit<S, W>>, final': map<Transition<S, N>, W>,
    visits': set<Visit<S, W>>)
  {
    && (forall x :: x in visits ==> x in visits')
    && (forall t, w :: Worth(g, final, t, w) ==> Worth(g, final', t, w))
  }

  ghost function NewValue<S(!new), N(!new), W(!new)>(
    g: Graph<S, N, W>, final: map<Transition<S, N>, W>, d: Duty<S, N, W>): W
    requires d.t in g.weights
  {
    var w := g.alg.extend(d.v, g.weights[d.t]);
    if d.t in final then g.alg.combine(final[d.t], w) else w
  }

  lemma NewValueAscends<S(!new), N(!new), W(!new)>(g: Graph<S, N, W>, s: Stage<S, N, W>, d: Duty<S, N, W>)
    requires g.alg.Lawful() && d.t in g.weights
    ensures Ascends(g, s.final, s.visits, s.final[d.t := NewValue(g, s.final, d)], s.visits)
    ensures g.alg.Leq(g.alg.extend(d.v, g.weights[d.t]), NewValue(g, s.final, d))
    ensures d.t in s.final ==>
      || NewValue(g, s.final, d) == s.final[d.t]
      || g.alg.rank(NewValue(g, s.final, d)) < g.alg.rank(s.final[d.t])
  {
    var alg, t, w := g.alg, d.t, NewValue(g, s.final, d);
    var added := alg.extend(d.v, g.weights[t]);
    if t in s.final {
      alg.LeqCombine(s.final[t], added);
      alg.LeqRank(s.final[t], w);
    } else {
      alg.LeqReflexive(added);
    }
    forall u, x | Worth(g, s.final, u, x) ensures Worth(g, s.final[t := w], u, x) {
      if u == t {
        alg.LeqTransitive(x, s.final[t], w);
      }
    }
  }

  /** A transition that had no final weight spends one that was missing. */
  lemma NewEntrySpends<S(!new), N(!new), W(!new)>(
    g: Graph<S, N, W>, final: map<Transition<S, N>, W>, t: Transition<S, N>, w: W)
    requires t in g.weights && t !in final
    ensures Left(g, final[t := w]).Less(Left(g, final))
  {
    assert final[t := w].Keys == final.Keys + {t};
    WithoutOne(g.weights.Keys, final.Keys, t);
  }

  /** One that had a smaller one spends rank. */
  lemma HigherEntrySpends<S(!new), N(!new), W(!new)>(
    g: Graph<S, N, W>, final: map<Transition<S, N>, W>, t: Transition<S, N>, w: W)
    requires t in final && g.alg.rank(w) < g.alg.rank(final[t])
    ensures Left(g, final[t := w]).Less(Left(g, final))
  {
    assert final[t := w].Keys == final.Keys;
    RankSumRaised(g.alg, final.Keys, final, t, w);
  }

  lemma NewValueSpends<S(!new), N(!new), W(!new)>(g: Graph<S, N, W>, s: Stage<S, N, W>, d: Duty<S, N, W>)
    requires g.alg.Lawful() && d.t in g.weights && Progress(g, s)
    ensures var left := Left(g, s.final[d.t := NewValue(g, s.final, d)]);
            left.Less(s.left) || (left == s.left && d.t in s.final && NewValue(g, s.final, d) == s.final[d.t])
  {
    assert Fulfills(Finite, g, s);
    NewValueAscends(g, s, d);
    var t, w := d.t, NewValue(g, s.final, d);
    if t !in s.final {
      NewEntrySpends(g, s.final, t, w);
    } else if w != s.final[t] {
      HigherEntrySpends(g, s.final, t, w);
    } else {
      assert s.final[t := w] == s.final;
    }
  }

  lemma NewValueGenuine<S(!new), N(!new), W(!new)>(g: Graph<S, N, W>, s: Stage<S, N, W>, d: Duty<S, N, W>)
    requires g.alg.Lawful() && d.t in g.weights && Visit(d.t.target, d.v) in s.visits && Progress(g, s)
    ensures Spans(g.alg, Through(g, d.t), NewValue(g, s.final, d))
    ensures Fulfills(Values, g, s.(final := s.final[d.t := NewValue(g, s.final, d)]))
  {
    assert Fulfills(Values, g, s) && Fulfills(Listeners, g, s);
    ThroughExtends(g, d.t, d.v);
    if d.t in s.final {
      SpansPlus(g.alg, Through(g, d.t), s.final[d.t], g.alg.extend(d.v, g.weights[d.t]));
    }
  }

  lemma NewValueCounts<S(!new), N(!new), W(!new)>(g: Graph<S, N, W>, s: Stage<S, N, W>, d: Duty<S, N, W>)
    requires g.alg.Lawful() && d.t in g.weights && Progress(g, s.(owed := s.owed + {d}))
    ensures Fulfills(Counting, g, s.(final := s.final[d.t := NewValue(g, s.final, d)]))
  {
    NewValueAscends(g, s, d);
    assert Fulfills(Counting, g, s.(owed := s.owed + {d}));
  }

  /** A delivery has been counted; the start of its transition is to be visited next, if it is generated. */
  lemma Count<S(!new), N(!new), W(!new)>(g: Graph<S, N, W>, s: Stage<S, N, W>, d: Duty<S, N, W>)
    requires g.alg.Lawful() && d.t in g.weights && Visit(d.t.target, d.v) in s.visits && s.next == {}
    requires Progress(g, s.(owed := s.owed + {d}))
    ensures var final := s.final[d.t := NewValue(g, s.final, d)];
            Progress(g, s.(final := final, next := {Visit(d.t.start, NewValue(g, s.final, d))}, left := Left(g, final)))
  {
    var before := s.(owed := s.owed + {d});
    var w := NewValue(g, s.final, d);
    NewValueGenuine(g, before, d);
    NewValueCounts(g, s, d);
    assert Fulfills(Chained, g, before);
    var after := s.(final := s.final[d.t := w], next := {Visit(d.t.start, w)}, left := Left(g, s.final[d.t := w]));
    forall c: Matter ensures Fulfills(c, g, after) {
      match c
      case Values =>
      case Listeners => assert Fulfills(Listeners, g, before);
      case Chained => ChainGrows(g, s, d.t, w);
      case Counting =>
      case Finite =>
    }
  }

  /** A new final weight is passed on by the visit that comes next. */
  lemma ChainGrows<S(!new), N(!new), W(!new)>(g: Graph<S, N, W>, s: Stage<S, N, W>, t: Transition<S, N>, w: W)
    requires Fulfills(Chained, g, s) && s.next == {}
    ensures Fulfills(Chained, g, s.(final := s.final[t := w], next := {Visit(t.start, w)}))
  {
  }

  lemma CountSpends<S(!new), N(!new), W(!new)>(g: Graph<S, N, W>, s: Stage<S, N, W>, d: Duty<S, N, W>)
    requires g.alg.Lawful() && d.t in g.weights && Progress(g, s) && s.next == {}
    ensures var left := Left(g, s.final[d.t := NewValue(g, s.final, d)]);
            left.Less(s.left)
              || (left == s.left && (g.generated(d.t.start) ==> Visit(d.t.start, NewValue(g, s.final, d)) in s.visits))
  {
    assert Fulfills(Chained, g, s);
    NewValueSpends(g, s, d);
  }

  /** All of `onInTransitionAdded` up to the registration. */
  lemma CountStep<S(!new), N(!new), W(!new)>(g: Graph<S, N, W>, s: Stage<S, N, W>, d: Duty<S, N, W>)
    requires g.alg.Lawful() && d.t in g.weights && Visit(d.t.target, d.v) in s.visits && s.next == {}
    requires Progress(g, s.(owed := s.owed + {d}))
    ensures var w, final := NewValue(g, s.final, d), s.final[d.t := NewValue(g, s.final, d)];
            var after := s.(final := final, next := {Visit(d.t.start, w)}, left := Left(g, final));
            && Progress(g, if g.generated(d.t.start) then after else after.(next := {}))
            && Ascends(g, s.final, s.visits, final, s.visits)
            && (g.generated(d.t.start) ==> Spans(g.alg, From(g, d.t.start), w))
            && (Left(g, final).Less(s.left)
               || (Left(g, final) == s.left && (g.generated(d.t.start) ==> Visit(d.t.start, w) in s.visits)))
  {
    var before := s.(owed := s.owed + {d});
    NewValueGenuine(g, before, d);
    NewValueAscends(g, s, d);
    Count(g, s, d);
    CountSpends(g, before, d);
    var w, final := NewValue(g, s.final, d), s.final[d.t := NewValue(g, s.final, d)];
    if g.generated(d.t.start) {
      FromThrough(g, d.t, w);
    } else {
      Quiet(g, s.(final := final, next := {Visit(d.t.start, w)}, left := Left(g, final)), d.t.start);
    }
  }

  /** Owed deliveries may be rescheduled, and what is registered need not be announced. */
  lemma Reschedule<S(!new), N(!new), W(!new)>(
    g: Graph<S, N, W>, s: Stage<S, N, W>, owed: set<Duty<S, N, W>>, next: set<Visit<S, W>>)
    requires Progress(g, s) && s.owed <= owed && s.next <= s.visits + next
    ensures Progress(g, s.(owed := owed, next := next))
  {
    forall c: Matter ensures Fulfills(c, g, s.(owed := owed, next := next)) {
      assert Fulfills(c, g, s);
    }
  }

  lemma Announce<S(!new), N(!new), W(!new)>(
    g: Graph<S, N, W>, s: Stage<S, N, W>, x: Visit<S, W>, owed: set<Duty<S, N, W>>)
    requires Progress(g, s) && s.next <= {x} && Spans(g.alg, From(g, x.q), x.v)
    requires s.owed <= owed && forall t :: t in g.weights && t.target == x.q ==> Duty(x.v, t) in owed
    ensures Progress(g, s.(visits := s.visits + {x}, owed := owed, next := {}))
  {
    forall c: Matter ensures Fulfills(c, g, s.(visits := s.visits + {x}, owed := owed, next := {})) {
      assert Fulfills(c, g, s);
    }
  }

  lemma Initially<S(!new), N(!new), W(!new)>(g: Graph<S, N, W>)
    ensures Progress(g, Stage(map[], {}, {}, {}, Left(g, map[])))
  {
    forall c: Matter ensures Fulfills(c, g, Stage(map[], {}, {}, {}, Left(g, map[]))) {
    }
  }

  lemma NeutralAtInitial<S(!new), N(!new), W(!new)>(g: Graph<S, N, W>, q: S)
    requires q in g.initial
    ensures Spans(g.alg, From(g, q), g.alg.one)
  {
    assert Leads(g, q, []) && Product(g, q, []) == g.alg.one;
    SpansTerm(g.alg, From(g, q), g.alg.one);
  }

  /** The meaning of the final weights: exactly the transitions with a path to an initial state, each with
      the combination over all its paths. */
  ghost predicate PathSums<S(!new), N(!new), W(!new)>(g: Graph<S, N, W>, final: map<Transition<S, N>, W>) {
    && (forall t :: t in final ==> Spans(g.alg, Through(g, t), final[t]))
    && (forall t, w :: Through(g, t)(w) ==> Worth(g, final, t, w))
  }

  lemma {:induction false} PathCounted<S(!new), N(!new), W(!new)>(
    g: Graph<S, N, W>, s: Stage<S, N, W>, q: S, path: seq<Transition<S, N>>)
    requires g.alg.Lawful() && Progress(g, s) && s.owed == {} && s.next == {} && Leads(g, q, path)
    requires forall i :: i in g.initial ==> Visit(i, g.alg.one) in s.visits
    ensures path == [] ==> Visit(q, g.alg.one) in s.visits
    ensures path != [] ==> Worth(g, s.final, path[0], Product(g, q, path))
    decreases path
  {
    assert Fulfills(Counting, g, s) && Fulfills(Chained, g, s);
    if path != [] {
      var t, rest := path[0], path[1..];
      PathCounted(g, s, t.target, rest);
      var below := Product(g, t.target, rest);
      var v := if rest == [] then g.alg.one else s.final[rest[0]];
      if rest == [] {
        g.alg.LeqReflexive(g.alg.one);
      }
      assert Visit(t.target, v) in s.visits && g.alg.Leq(below, v);
      g.alg.LeqReflexive(g.weights[t]);
      g.alg.ExtendMonotone(below, v, g.weights[t], g.weights[t]);
      g.alg.LeqTransitive(Product(g, q, path), g.alg.extend(v, g.weights[t]), s.final[t]);
    }
  }

  lemma AllVisited<S(!new), N(!new), W(!new)>(g: Graph<S, N, W>, s: Stage<S, N, W>)
    requires g.alg.Lawful() && Progress(g, s) && s.owed == {} && s.next == {}
    requires forall i :: i in g.initial ==> Visit(i, g.alg.one) in s.visits
    ensures PathSums(g, s.final)
  {
    assert Fulfills(Values, g, s);
    forall t, w | Through(g, t)(w) ensures Worth(g, s.final, t, w) {
      var path :| path != [] && path[0] == t && Leads(g, t.start, path) && Product(g, t.start, path) == w;
      PathCounted(g, s, t.start, path);
    }
  }

  lemma PathSumBelow<S(!new), N(!new), W(!new)>(
    g: Graph<S, N, W>, a: map<Transition<S, N>, W>, b: map<Transition<S, N>, W>, t: Transition<S, N>)
    requires g.alg.Lawful() && PathSums(g, a) && PathSums(g, b) && t in a
    ensures t in b && g.alg.Leq(a[t], b[t])
  {
    var sum :| Drawn(sum, Through(g, t)) && Total(g.alg, sum) == a[t];
    var w := FirstTerm(sum, Through(g, t));
    assert Worth(g, b, t, w);
    forall x | Through(g, t)(x) ensures g.alg.Leq(x, b[t]) {
      assert Worth(g, b, t, x);
    }
    SpansBelow(g.alg, Through(g, t), a[t], b[t]);
  }

  /** The path sums are determined by the automaton, so every order of callbacks gives the same table. */
  lemma PathSumsAreUnique<S(!new), N(!new), W(!new)>(
    g: Graph<S, N, W>, a: map<Transition<S, N>, W>, b: map<Transition<S, N>, W>)
    requires g.alg.Lawful() && PathSums(g, a) && PathSums(g, b)
    ensures a == b
  {
    forall t | t in a ensures t in b && a[t] == b[t] {
      PathSumBelow(g, a, b, t);
      PathSumBelow(g, b, a, t);
      g.alg.LeqAntisymmetric(a[t], b[t]);
    }
    forall t | t in b ensures t in a {
      PathSumBelow(g, b, a, t);
    }
  }

  /** A graph has path sums, so a table of final weights. */
  lemma PathSumsExist<S(!new), N(!new), W(!new)>(g: Graph<S, N, W>) returns (final: map<Transition<S, N>, W>)
    requires g.alg.Joins()
    ensures PathSums(g, final)
  {
    final := map t | t in g.weights && (exists w :: Through(g, t)(w)) :: Greatest(g.alg, Through(g, t));
    forall t, w | Through(g, t)(w)
      ensures Worth(g, final, t, w)
    {
      assert t in g.weights;
    }
  }

  class FinalWeights<S(==,!new), N(==,!new), W(==,!new)> {
    const g: Graph<S, N, W>
    /** `transitionsToFinalWeights` */
    var final: map<Transition<S, N>, W>
    /** Registered `ValueComputationListener`s. */
    var visits: set<Visit<S, W>>
    ghost var left: Budget

    constructor (g: Graph<S, N, W>)
      ensures this.g == g && final == map[] && visits == {}
    {
      this.g := g;
      final, visits := map[], {};
    }

    ghost predicate Inv(owed: set<Duty<S, N, W>>, next: set<Visit<S, W>>)
      reads this
    {
      Progress(g, Stage(final, visits, owed, next, left))
    }

    /** `getTransitionsToFinalWeights`, for the first time or again. */
    method GetTransitionsToFinalWeights() returns (result: map<Transition<S, N>, W>)
      requires g.alg.Lawful() && ((final == map[] && visits == {}) || Inv({}, {}))
      modifies this
      ensures Inv({}, {}) && result == final && PathSums(g, result)
    {
      if !Inv({}, {}) {
        left := Left(g, final);
        Initially(g);
      }
      var todo := g.initial;
      while todo != {}
        invariant todo <= g.initial && Inv({}, {})
        invariant forall q :: q in g.initial - todo ==> Visit(q, g.alg.one) in visits
        decreases todo
      {
        var q :| q in todo;
        todo := todo - {q};
        NeutralAtInitial(g, q);
        Reschedule(g, Stage(final, visits, {}, {}, left), {}, {Visit(q, g.alg.one)});
        Register(q, g.alg.one, {});
      }
      AllVisited(g, Stage(final, visits, {}, {}, left));
      result := final;
    }

    /** `registerListener(new ValueComputationListener(q, v))` */
    method Register(q: S, v: W, ghost owed: set<Duty<S, N, W>>)
      requires g.alg.Lawful() && Inv(owed, {Visit(q, v)}) && Spans(g.alg, From(g, q), v)
      modifies this
      ensures Inv(owed, {}) && Visit(q, v) in visits
      ensures Ascends(g, old(final), old(visits), final, visits) && left.AtMost(old(left))
      decreases left.missing, left.rank, if Visit(q, v) in visits then 0 else 2
    {
      if Visit(q, v) in visits {
        Reschedule(g, Stage(final, visits, owed, {Visit(q, v)}, left), owed, {});
        return;
      }
      var todo := set t | t in g.weights && t.target == q;
      ghost var due := set t | t in todo :: Duty(v, t);
      Announce(g, Stage(final, visits, owed, {Visit(q, v)}, left), Visit(q, v), owed + due);
      visits := visits + {Visit(q, v)};
      while todo != {}
        invariant forall t :: t in todo ==> t in g.weights && t.target == q
        invariant due == set t | t in todo :: Duty(v, t)
        invariant Visit(q, v) in visits && Inv(owed + due, {})
        invariant Ascends(g, old(final), old(visits), final, visits) && left.AtMost(old(left))
        decreases todo
      {
        var t :| t in todo;
        ghost var was := due;
        todo := todo - {t};
        due := set t | t in todo :: Duty(v, t);
        assert owed + was == owed + due + {Duty(v, t)};
        OnInTransition(Duty(v, t), owed + due);
      }
      assert owed + due == owed;
    }

    /** `onInTransitionAdded` */
    method OnInTransition(d: Duty<S, N, W>, ghost owed: set<Duty<S, N, W>>)
      requires g.alg.Lawful() && d.t in g.weights && Visit(d.t.target, d.v) in visits
      requires Inv(owed + {d}, {})
      modifies this
      ensures Inv(owed, {})
      ensures Ascends(g, old(final), old(visits), final, visits) && left.AtMost(old(left))
      decreases left.missing, left.rank, 1
    {
      var newWeight := g.alg.extend(d.v, g.weights[d.t]);
      var newVal := if d.t in final then g.alg.combine(final[d.t], newWeight) else newWeight;
      CountStep(g, Stage(final, visits, owed, {}, left), d);
      final := final[d.t := newVal];
      left := Left(g, final);
      if g.generated(d.t.start) {
        Register(d.t.start, newVal, owed);
      }
    }
  }

  /** A state that is not generated needs no visit. */
  lemma Quiet<S(!new), N(!new), W(!new)>(g: Graph<S, N, W>, s: Stage<S, N, W>, q: S)
    requires Progress(g, s) && !g.generated(q) && forall x :: x in s.next ==> x.q == q
    ensures Progress(g, s.(next := {}))
  {
    forall c: Matter ensures Fulfills(c, g, s.(next := {})) {
      assert Fulfills(c, g, s);
    }
  }
}
