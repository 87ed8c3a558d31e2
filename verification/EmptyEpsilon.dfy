/** Weights when the epsilon label is an `Empty`, as that of fields is: a pop behind an epsilon edge then leaves out
    the weight of that edge. Nothing is lost by it if and only if `one` is the least weight. */
module EmptyEpsilon {
  import opened Options
  import opened Semirings
  import opened Automata
  import opened Pushdown
  import opened PostStar
  import opened Exactness
  import LeastFixpoint
  import Existence

  ghost predicate OneIsLeast<W(!new)>(alg: Semiring<W>) {
    forall w :: alg.Leq(alg.one, w)
  }

  ghost predicate KeepsWeights<N(!new), W(!new)>(f: Flavour<N, W>) {
    !f.emptyEpsilon || OneIsLeast(f.alg)
  }

  /** The same system with an epsilon label that is not an `Empty`. */
  function Strict<P(!new,==), N(!new,==), W(!new,==)>(sys: System<P, N, W>): System<P, N, W> {
    sys.(flavour := sys.flavour.(emptyEpsilon := false))
  }

  // ----- With `one` least, the extra pops add nothing -----

  /** Every epsilon edge comes from a pop, and all that the pop exposes is there. */
  ghost predicate EpsilonsPopped<P(!new), N(!new), W(!new)>(alg: Semiring<W>, m: map<Trans<P, N>, W>) {
    forall t :: t in m && t.symbol == Eps ==> IsPopped(alg, m, t)
  }

  ghost predicate IsPopped<P(!new), N(!new), W(!new)>(alg: Semiring<W>, m: map<Trans<P, N>, W>, t: Trans<P, N>) {
    t.start.Ctl? && exists v :: Popped(alg, m, t.start.p, t.target, v)
  }

  /** A pop listener at `q` stands for a pop rule: at its own state, or behind an epsilon edge that a pop made. */
  ghost predicate Serves<P(!new), N(!new), W(!new)>(
    sys: System<P, N, W>, m: map<Trans<P, N>, W>, r: Rule<P, N, W>, q: Node<P, N>)
  {
    && r in sys.rules && r.Pop?
    && (q == Ctl(r.p1) || (sys.flavour.emptyEpsilon && q.Gen? && exists v :: Popped(sys.flavour.alg, m, r.p1, q, v)))
  }

  /** The transition that the pop of `r` reads where the listener reads `t`. */
  function Read<P, N, W>(r: Rule<P, N, W>, t: Trans<P, N>): Trans<P, N> {
    Transition(Ctl(r.p1), t.symbol, t.target)
  }

  /** The report of `t` is that of a pop by `r`, of a transition that weighs no less. */
  ghost predicate Reports<P(!new), N(!new), W(!new)>(
    sys: System<P, N, W>, m: map<Trans<P, N>, W>, r: Rule<P, N, W>, k: Unbalanced<P, N>)
  {
    && r in sys.rules && r.Pop? && r.p2 == k.p2
    && PopMatches(sys.flavour, k.t.symbol, r.top) && k.t.target.Final?
    && k.t in m && Above(sys.flavour.alg, m, Read(r, k.t), m[k.t])
  }

  ghost predicate PoppedFact<P(!new), N(!new), W(!new)>(
    sys: System<P, N, W>, m: map<Trans<P, N>, W>, f: Knowledge<P, N, W>)
  {
    && LeastFixpoint.Covered(sys, m, f)
    && match f
       case Weighted(t, _) => t.symbol == Eps ==> IsPopped(sys.flavour.alg, m, t)
       case Listening(Popping(q, top, p2, w)) => exists p1 :: Serves(sys, m, Pop(p1, top, p2, w), q)
       case Listening(_) => true
       case Noted(k, w) => Above(sys.flavour.alg, m, k.t, w) && exists r :: Reports(sys, m, r, k)
  }

  /** Where a pop listener stands for `r`, the transition that `r` reads is there and weighs no less. */
  lemma ReadAbove<P(!new), N(!new), W(!new)>(
    sys: System<P, N, W>, m: map<Trans<P, N>, W>, r: Rule<P, N, W>, t: Trans<P, N>)
    requires sys.flavour.alg.Lawful() && KeepsWeights(sys.flavour)
    requires Serves(sys, m, r, t.start) && t in m
    ensures Above(sys.flavour.alg, m, Read(r, t), m[t])
  {
    var alg := sys.flavour.alg;
    alg.LeqReflexive(m[t]);
    if t.start != Ctl(r.p1) {
      var v :| Popped(alg, m, r.p1, t.start, v);
      alg.Units(m[t]);
      alg.ExtendMonotone(m[t], m[t], alg.one, v);
      alg.LeqTransitive(m[t], alg.extend(m[t], v), m[Read(r, t)]);
    }
  }

  lemma PoppedReaction<P(!new), N(!new), W(!new)>(
    sys: System<P, N, W>, m: map<Trans<P, N>, W>, h: Handler<P, N, W>, t: Trans<P, N>, w: W, i: nat)
    requires sys.flavour.alg.Lawful() && KeepsWeights(sys.flavour) && Saturated(sys, m)
    requires PoppedFact(sys, m, Listening(h)) && PoppedFact(sys, m, Weighted(t, w)) && Observed(h) == t.start
    requires i < |React(sys.flavour, h, Out, t, w)|
    ensures Yields(SetupOf(sys.flavour), React(sys.flavour, h, Out, t, w)[i], f => PoppedFact(sys, m, f))
  {
    LeastFixpoint.CoveredReaction(sys, m, h, t, w, i);
    match h
    case Normally(_) =>
    case Pushing(_) =>
    case Popping(q, top, p2, rw) =>
      var p1 :| Serves(sys, m, Pop(p1, top, p2, rw), q);
      var r := Pop(p1, top, p2, rw);
      ReadAbove(sys, m, r, t);
      assert t.target.Final? && PopMatches(sys.flavour, t.symbol, top) ==> Reports(sys, m, r, Unbalanced(p2, t));
      if t.symbol == Eps && sys.flavour.emptyEpsilon {
        assert q == Ctl(p1) && IsPopped(sys.flavour.alg, m, t);
        assert Serves(sys, m, r, t.target);
      }
    case Transitively(_, _, _, _) =>
  }

  lemma DerivedPopped<P(!new), N(!new), W(!new)>(
    sys: System<P, N, W>, m: map<Trans<P, N>, W>, f: Knowledge<P, N, W>)
    requires sys.flavour.alg.Lawful() && KeepsWeights(sys.flavour) && Saturated(sys, m)
    requires Derivable(SetupOf(sys.flavour), InputsOf(sys), f)
    ensures PoppedFact(sys, m, f)
  {
    var s, alg := SetupOf<P, N, W>(sys.flavour), sys.flavour.alg;
    var popped := (f: Knowledge<P, N, W>) => PoppedFact(sys, m, f);
    forall f | f in InputsOf(sys)
      ensures popped(f)
    {
      DerivableInductive(s, InputsOf(sys));
      LeastFixpoint.DerivedCovered(sys, m, f);
      if f.Listening? {
        var r :| r in sys.rules && f == Listening(HandlerOf(r));
        assert r.Pop? ==> Serves(sys, m, r, Ctl(r.p1));
      }
    }
    forall t, v, w | popped(Weighted(t, v)) && popped(Weighted(t, w))
      ensures popped(Weighted(t, alg.combine(v, w)))
    {
      alg.CombineLeq(v, w, m[t]);
    }
    forall k, v, w | popped(Noted(k, v)) && popped(Noted(k, w))
      ensures popped(Noted(k, alg.combine(v, w)))
    {
      alg.CombineLeq(v, w, m[k.t]);
    }
    forall l, e, t, w, i |
      && popped(Listening(l)) && popped(Weighted(t, w)) && Attached(s, l, e, t)
      && 0 <= i < |s.react(l, e, t, w)|
      ensures Yields(s, s.react(l, e, t, w)[i], popped)
    {
      PoppedReaction(sys, m, l, t, w, i);
    }
    assert Inductive(s, InputsOf(sys), popped);
  }

  /** What is saturated without the extra pops is saturated with them. */
  lemma StrictSaturates<P(!new), N(!new), W(!new)>(sys: System<P, N, W>, m: map<Trans<P, N>, W>)
    requires sys.flavour.alg.Lawful() && OneIsLeast(sys.flavour.alg)
    requires Saturated(Strict(sys), m) && EpsilonsPopped(sys.flavour.alg, m)
    ensures Saturated(sys, m)
  {
    forall r | r in sys.rules
      ensures Closed(sys.flavour, r, m)
    {
      assert Closed(Strict(sys).flavour, r, m);
      if r.Pop? {
        assert PopsFrom(sys.flavour, m, Ctl(r.p1), r.top, r.p2, r.w);
        forall t | t in m && t.start == Ctl(r.p1) && t.symbol == Eps
          ensures PopsFrom(sys.flavour, m, t.target, r.top, r.p2, r.w)
        {
          BehindEpsilon(sys.flavour, m, t, r.top, r.p2, r.w);
        }
      }
    }
  }

  lemma BehindEpsilon<P(!new), N(!new), W(!new)>(
    f: Flavour<N, W>, m: map<Trans<P, N>, W>, t: Trans<P, N>, top: N, p2: P, w: W)
    requires f.alg.Lawful() && OneIsLeast(f.alg) && IsPopped(f.alg, m, t)
    requires PopsFrom(f, m, t.start, top, p2, w)
    ensures PopsFrom(f, m, t.target, top, p2, w)
  {
    var alg := f.alg;
    var v :| Popped(alg, m, t.start.p, t.target, v);
    forall u | u in m && u.start == t.target && PopMatches(f, u.symbol, top) && u.target.Gen?
      ensures Popped(alg, m, p2, u.target, alg.extend(m[u], w))
    {
      var x := Transition(t.start, u.symbol, u.target);
      alg.LeqReflexive(m[u]);
      alg.LeqReflexive(w);
      alg.Units(m[u]);
      alg.ExtendMonotone(m[u], m[u], alg.one, v);
      alg.LeqTransitive(m[u], alg.extend(m[u], v), m[x]);
      alg.ExtendMonotone(m[u], m[x], w, w);
      LeastFixpoint.PoppedBelow(alg, m, p2, u.target, alg.extend(m[u], w), alg.extend(m[x], w));
    }
  }

  /** If `one` is the least weight, post* gives the same weights for either kind of epsilon label. */
  lemma SameAsStrict<P(!new), N(!new), W(!new)>(sys: System<P, N, W>, st: Contents<P, N, W>, st': Contents<P, N, W>)
    requires sys.flavour.alg.Lawful() && OneIsLeast(sys.flavour.alg)
    requires Result(sys, st) && Result(Strict(sys), st')
    ensures st.weights == st'.weights
  {
    var strict := Strict(sys);
    LeastFixpoint.ResultIsLeast(sys, st);
    LeastFixpoint.ResultIsLeast(strict, st');
    forall t | t in st'.weights && t.symbol == Eps
      ensures IsPopped(sys.flavour.alg, st'.weights, t)
    {
      DerivedPopped(strict, st'.weights, Weighted(t, st'.weights[t]));
    }
    StrictSaturates(sys, st'.weights);
    assert Saturated(strict, st.weights) by {
      forall r | r in sys.rules
        ensures Closed(strict.flavour, r, st.weights)
      {
        assert Closed(sys.flavour, r, st.weights);
      }
    }
    LeastFixpoint.SameWeights(sys.flavour.alg, st.weights, st'.weights);
  }

  // ----- Runs do not depend on the epsilon label -----

  lemma {:induction false} StrictRun<P(!new), N(!new), W(!new)>(
    sys: System<P, N, W>, from: (Config<P, N>, W) -> bool, from': (Config<P, N>, W) -> bool, run: Run<P, N, W>)
    requires forall c, w :: from(c, w) <==> from'(c, w)
    ensures IsRun(sys, from, run) <==> IsRun(Strict(sys), from', run)
  {
    if run.Then? {
      StrictRun(sys, from, from', run.prev);
    }
  }

  lemma StrictReaches<P(!new), N(!new), W(!new)>(
    sys: System<P, N, W>, from: (Config<P, N>, W) -> bool, from': (Config<P, N>, W) -> bool, c: Config<P, N>, w: W)
    requires forall c, w :: from(c, w) <==> from'(c, w)
    ensures Reaches(sys, from, c, w) <==> Reaches(Strict(sys), from', c, w)
  {
    forall run
      ensures IsRun(sys, from, run) <==> IsRun(Strict(sys), from', run)
    {
      StrictRun(sys, from, from', run);
    }
  }

  lemma StrictGenuine<P(!new), N(!new), W(!new)>(sys: System<P, N, W>, q: Node<P, N>, c: Config<P, N>, w: W)
    requires Genuine(Strict(sys), q, c, w)
    ensures Genuine(sys, q, c, w)
  {
    var strict := Strict(sys);
    forall x | FromRuns(strict, q, c)(x)
      ensures Spans(sys.flavour.alg, FromRuns(sys, q, c), x)
    {
      StrictReaches(sys, OriginOf(sys, q), OriginOf(strict, q), c, x);
      SpansTerm(sys.flavour.alg, FromRuns(sys, q, c), x);
    }
    SpansOfSpans(sys.flavour.alg, FromRuns(strict, q, c), w, FromRuns(sys, q, c));
  }

  // ----- The weights of a result, for every flavour that keeps them -----

  /** Every accepting path of the result weighs a finite combination of runs to its configuration. */
  ghost predicate PathsGenuine<P(!new), N(!new), W(!new)>(sys: System<P, N, W>, m: map<Trans<P, N>, W>) {
    forall c: Config<P, N>, path :: IsPath(m, Ctl(c.p), path, c.stack) ==> PathIsGenuine(sys, m, c, path)
  }

  ghost predicate PathIsGenuine<P(!new), N(!new), W(!new)>(
    sys: System<P, N, W>, m: map<Trans<P, N>, W>, c: Config<P, N>, path: seq<Trans<P, N>>)
  {
    && (forall t :: t in path ==> t in m)
    && Genuine(sys, Final, c, PathWeight(sys.flavour.alg, m, path))
  }

  lemma ResultGenuine<P(!new), N(!new), W(!new)>(sys: System<P, N, W>, st: Contents<P, N, W>)
    requires sys.flavour.alg.Lawful() && AllPaired(sys) && KeepsWeights(sys.flavour) && Result(sys, st)
    ensures PathsGenuine(sys, st.weights)
  {
    var strict := Strict(sys);
    var st' := st;
    if sys.flavour.emptyEpsilon {
      st' := Existence.ResultExists(strict);
      SameAsStrict(sys, st, st');
    } else {
      assert strict == sys;
    }
    forall c: Config<P, N>, path | IsPath(st.weights, Ctl(c.p), path, c.stack)
      ensures PathIsGenuine(sys, st.weights, c, path)
    {
      PathGenuine(strict, st', Ctl(c.p), path, c.stack);
      assert Config(c.p, [] + c.stack) == c;
      StrictGenuine(sys, Final, c, PathWeight(sys.flavour.alg, st.weights, path));
    }
  }

  /** Some combination of runs of `q` to `c` is at least `w`. */
  ghost predicate BelowGenuine<P(!new), N(!new), W(!new)>(sys: System<P, N, W>, q: Node<P, N>, c: Config<P, N>, w: W) {
    exists v :: Genuine(sys, q, c, v) && sys.flavour.alg.Leq(w, v)
  }

  /** Runs reach a configuration from which a rule pops the whole stack, with weights that account for `w`. */
  ghost predicate BelowPop<P(!new), N(!new), W(!new)>(sys: System<P, N, W>, p2: P, w: W) {
    exists r, c :: PopsTo(sys, r, c, p2) && BelowGenuine(sys, Final, c, w)
  }

  ghost predicate PopsTo<P(!new), N(!new), W(!new)>(
    sys: System<P, N, W>, r: Rule<P, N, W>, c: Config<P, N>, p2: P)
  {
    r in sys.rules && Step(sys.flavour, r, c) == Some(Config(p2, []))
  }

  /** The weight of the fact, if it has one, does not exceed that of runs. */
  ghost predicate BelowFact<P(!new), N(!new), W(!new)>(sys: System<P, N, W>, f: Knowledge<P, N, W>) {
    match f
    case Weighted(t, w) => Proper(t) && BelowGenuine(sys, t.target, Spelled(t), w)
    case Listening(Normally(r)) => r in sys.rules
    case Listening(Pushing(r)) => r in sys.rules
    case Listening(Popping(_, top, p2, w)) => exists p1 :: Pop(p1, top, p2, w) in sys.rules
    case Listening(Transitively(p2, _, q, v)) => q.Gen? && BelowGenuine(sys, q, Config(p2, []), v)
    case Noted(k, w) => BelowPop(sys, k.p2, w)
  }

  /** The weights of a result are those of runs, for every flavour that keeps them. */
  lemma WeightsGenuine<P(!new), N(!new), W(!new)>(sys: System<P, N, W>, st: Contents<P, N, W>, t: Trans<P, N>)
    requires sys.flavour.alg.Lawful() && AllPaired(sys) && KeepsWeights(sys.flavour) && Result(sys, st)
    requires t in st.weights
    ensures Proper(t) && Genuine(sys, t.target, Spelled(t), st.weights[t])
  {
    var strict := Strict(sys);
    var st' := st;
    if sys.flavour.emptyEpsilon {
      st' := Existence.ResultExists(strict);
      SameAsStrict(sys, st, st');
    } else {
      assert strict == sys;
    }
    DerivedGenuine(strict, Weighted(t, st'.weights[t]));
    StrictGenuine(sys, t.target, Spelled(t), st.weights[t]);
  }

  /** In every intermediate state as well: no weight of a transition, a listener or a report exceeds that of runs. */
  lemma DerivedBelowGenuine<P(!new), N(!new), W(!new)>(sys: System<P, N, W>, f: Knowledge<P, N, W>)
    requires sys.flavour.alg.Lawful() && AllPaired(sys) && KeepsWeights(sys.flavour)
    requires Derivable(SetupOf(sys.flavour), InputsOf(sys), f)
    ensures BelowFact(sys, f)
  {
    var st := Existence.ResultExists(sys);
    var alg, m := sys.flavour.alg, st.weights;
    ResultSaturated(sys, st);
    DerivedPopped(sys, m, f);
    match f
    case Weighted(t, w) => WeightsGenuine(sys, st, t);
    case Listening(Transitively(p2, _, q, v)) =>
      var t := Transition(Ctl(p2), Eps, q);
      WeightsGenuine(sys, st, t);
      assert Spelled(t) == Config(p2, []);
    case Listening(Popping(q, top, p2, w)) =>
      var p1 :| Serves(sys, m, Pop(p1, top, p2, w), q);
    case Listening(_) =>
    case Noted(k, w) =>
      var r :| Reports(sys, m, r, k);
      var u := Read(r, k.t);
      WeightsGenuine(sys, st, u);
      var c := Spelled(u);
      assert c == Config(r.p1, [k.t.symbol.n]) && c.stack[1..] == [];
      alg.LeqTransitive(w, m[k.t], m[u]);
      assert PopsTo(sys, r, c, k.p2) && BelowGenuine(sys, Final, c, w);
  }

  // ----- Otherwise there is a system that loses a weight -----

  function Equality<W(!new)>(alg: Semiring<W>): Flavour<int, W> {
    Flavour(alg, Same(), true)
  }

  /** `<0,0> -> <1,1 2> -> <2,3 4 2> -> <3,4 2> -> <4,2>`; the third step weighs `w`. */
  function TwoReturns<W(!new,==)>(alg: Semiring<W>, w: W): System<int, int, W> {
    var one := alg.one;
    System(Equality(alg),
           {Push(0, Exact(0), 1, 1, Exact(2), one), Push(1, Exact(1), 2, 3, Exact(4), one), Pop(2, 3, 3, w),
             Pop(3, 4, 4, one)},
           {Seed(0, 0, one)})
  }

  lemma {:induction false} TwoReturnsRuns<W(!new)>(alg: Semiring<W>, w: W, run: Run<int, int, W>)
    requires alg.Lawful() && IsRun(TwoReturns(alg, w), Seeds(TwoReturns(alg, w)), run)
    ensures (Last(run), Cost(alg, run)) in
            {(Config(0, [0]), alg.one), (Config(1, [1, 2]), alg.one), (Config(2, [3, 4, 2]), alg.one),
             (Config(3, [4, 2]), w), (Config(4, [2]), w)}
  {
    if run.Then? {
      TwoReturnsRuns(alg, w, run.prev);
      alg.Units(alg.one);
      alg.Units(w);
      var c := Last(run.prev);
      assert c == Config(0, [0]) ==> c.stack[1..] == [];
      assert c == Config(1, [1, 2]) ==> c.stack[1..] == [2] && [3, 4] + [2] == [3, 4, 2];
      assert c == Config(2, [3, 4, 2]) ==> c.stack[1..] == [4, 2];
      assert c == Config(3, [4, 2]) ==> c.stack[1..] == [2];
      assert [1, 2] + [] == [1, 2];
    }
  }

  /** `<4,2>` behind the last return. */
  function Exit(): Trans<int, int> {
    Transition(Ctl(4), Sym(2), Final)
  }

  lemma TwoReturnsSaturated<W(!new)>(alg: Semiring<W>, w: W, m: map<Trans<int, int>, W>)
    requires alg.Lawful() && Saturated(TwoReturns(alg, w), m)
    ensures Above(alg, m, Exit(), alg.one)
  {
    var sys, one := TwoReturns(alg, w), alg.one;
    alg.LeqReflexive(one);
    var seed := Seed(0, 0, one);
    assert seed in sys.seeds && Above(alg, m, SeedTransition(seed), one);
    assert Closed(sys.flavour, Push(0, Exact(0), 1, 1, Exact(2), one), m);
    assert PushLabel(Exact(0), Exact(2), Sym(0)) == Some(Sym(2));
    var deep := Transition(Gen(1, 1), Sym(2), Final);
    AboveOne(alg, m, SeedTransition(seed), deep);
    var call := Transition(Ctl(1), Sym(1), Gen(1, 1));
    assert Above(alg, m, call, one);
    assert Closed(sys.flavour, Push(1, Exact(1), 2, 3, Exact(4), one), m);
    assert PushLabel(Exact(1), Exact(4), Sym(1)) == Some(Sym(4));
    var site := Transition(Gen(2, 3), Sym(4), Gen(1, 1));
    AboveOne(alg, m, call, site);
    var callee := Transition(Ctl(2), Sym(3), Gen(2, 3));
    assert Above(alg, m, callee, one);
    assert Closed(sys.flavour, Pop(2, 3, 3, w), m);
    assert Popped(alg, m, 3, Gen(2, 3), alg.extend(m[callee], w));
    assert Transition(Ctl(3), Eps, Gen(2, 3)) in m;
    assert Closed(sys.flavour, Pop(3, 4, 4, one), m);
    assert PopsFrom(sys.flavour, m, Gen(2, 3), 4, 4, one);
    var v := alg.extend(m[site], one);
    assert Popped(alg, m, 4, Gen(1, 1), v);
    assert Above(alg, m, Exit(), alg.extend(m[deep], v));
    alg.Units(m[site]);
    alg.Units(one);
    alg.ExtendMonotone(one, m[deep], one, m[site]);
    alg.LeqTransitive(one, alg.extend(m[deep], v), m[Exit()]);
  }

  /** A weight above `one`, passed on over a rule of weight `one`. */
  lemma AboveOne<W(!new)>(alg: Semiring<W>, m: map<Trans<int, int>, W>, t: Trans<int, int>, u: Trans<int, int>)
    requires alg.Lawful() && Above(alg, m, t, alg.one) && Above(alg, m, u, alg.extend(m[t], alg.one))
    ensures Above(alg, m, u, alg.one)
  {
    alg.Units(m[t]);
    alg.LeqTransitive(alg.one, m[t], m[u]);
  }

  lemma TwoReturnsPaired<W(!new)>(alg: Semiring<W>, w: W)
    ensures AllPaired(TwoReturns(alg, w))
  {
  }

  lemma ExitAboveOne<W(!new)>(alg: Semiring<W>, w: W, st: Contents<int, int, W>)
    requires alg.Lawful() && Result(TwoReturns(alg, w), st)
    ensures Above(alg, st.weights, Exit(), alg.one)
  {
    ResultSaturated(TwoReturns(alg, w), st);
    TwoReturnsSaturated(alg, w, st.weights);
  }

  lemma ExitNotGenuine<W(!new)>(alg: Semiring<W>, w: W, m: map<Trans<int, int>, W>)
    requires alg.Lawful() && !alg.Leq(alg.one, w) && Above(alg, m, Exit(), alg.one)
    ensures !PathIsGenuine(TwoReturns(alg, w), m, Config(4, [2]), [Exit()])
  {
    var sys, c := TwoReturns(alg, w), Config(4, [2]);
    ExitIsPath(alg, m);
    if PathIsGenuine(sys, m, c, [Exit()]) {
      forall v | FromRuns(sys, Final, c)(v)
        ensures v == w
      {
        TwoReturnsReaches(alg, w, v);
      }
      SpansOnly(alg, FromRuns(sys, Final, c), w, m[Exit()]);
    }
  }

  /** Every result for this system accepts `<4,2>` with a weight above `one`, but its only run weighs `w`. */
  lemma EmptyEpsilonLosesWeight<W(!new)>(alg: Semiring<W>, w: W, st: Contents<int, int, W>)
    requires alg.Lawful() && !alg.Leq(alg.one, w) && Result(TwoReturns(alg, w), st)
    ensures AllPaired(TwoReturns(alg, w)) && !PathsGenuine(TwoReturns(alg, w), st.weights)
    ensures Exit() in st.weights && alg.Leq(alg.one, st.weights[Exit()])
    ensures forall v :: Reaches(TwoReturns(alg, w), Seeds(TwoReturns(alg, w)), Config(4, [2]), v) ==> v == w
  {
    TwoReturnsPaired(alg, w);
    ExitAboveOne(alg, w, st);
    ExitIsPath(alg, st.weights);
    ExitNotGenuine(alg, w, st.weights);
    forall v | Reaches(TwoReturns(alg, w), Seeds(TwoReturns(alg, w)), Config(4, [2]), v)
      ensures v == w
    {
      TwoReturnsReaches(alg, w, v);
    }
    assert IsPath(st.weights, Ctl(Config(4, [2]).p), [Exit()], Config(4, [2]).stack);
  }

  lemma TwoReturnsReaches<W(!new)>(alg: Semiring<W>, w: W, v: W)
    requires alg.Lawful() && Reaches(TwoReturns(alg, w), Seeds(TwoReturns(alg, w)), Config(4, [2]), v)
    ensures v == w
  {
    var sys := TwoReturns(alg, w);
    var run :| IsRun(sys, Seeds(sys), run) && Last(run) == Config(4, [2]) && Cost(alg, run) == v;
    TwoReturnsRuns(alg, w, run);
  }

  lemma ExitIsPath<W(!new)>(alg: Semiring<W>, m: map<Trans<int, int>, W>)
    requires alg.Lawful() && Exit() in m
    ensures IsPath(m, Ctl(4), [Exit()], [2]) && PathWeight(alg, m, [Exit()]) == m[Exit()]
  {
    assert [Exit()][1..] == [] && [2][1..] == [];
    alg.Units(m[Exit()]);
  }

  /** The weights of every result of every paired system with an `Empty` epsilon are genuine. */
  ghost predicate AlwaysGenuine<W(!new)>(alg: Semiring<W>) {
    forall sys: System<int, int, W>, st |
      sys.flavour.alg == alg && sys.flavour.emptyEpsilon && AllPaired(sys) && Result(sys, st) ::
      PathsGenuine(sys, st.weights)
  }

  /** With an `Empty` epsilon, post* computes genuine weights for every system if and only if `one` is least. */
  lemma EmptyEpsilonKeepsWeightsIff<W(!new)>(alg: Semiring<W>)
    requires alg.Lawful()
    ensures AlwaysGenuine(alg) <==> OneIsLeast(alg)
  {
    if OneIsLeast(alg) {
      forall sys: System<int, int, W>, st |
        sys.flavour.alg == alg && sys.flavour.emptyEpsilon && AllPaired(sys) && Result(sys, st)
        ensures PathsGenuine(sys, st.weights)
      {
        ResultGenuine(sys, st);
      }
    } else {
      var w :| !alg.Leq(alg.one, w);
      var st := Existence.ResultExists(TwoReturns(alg, w));
      EmptyEpsilonLosesWeight(alg, w, st);
    }
  }
}
