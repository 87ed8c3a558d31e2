/** The result of post* does not depend on the order of events: it is the least saturated automaton. */
module LeastFixpoint {
  import opened Options
  import opened Semirings
  import opened Automata
  import opened Pushdown
  import opened PostStar

  /** The fact is accounted for by `m`. */
  ghost predicate Covered<P(!new), N(!new), W(!new)>(
    sys: System<P, N, W>, m: map<Trans<P, N>, W>, f: Knowledge<P, N, W>)
  {
    match f
    case Weighted(t, w) => Proper(t) && Above(sys.flavour.alg, m, t, w)
    case Listening(Normally(r)) => r in sys.rules
    case Listening(Pushing(r)) => r in sys.rules
    case Listening(Popping(q, top, p2, w)) =>
      && PopsFrom(sys.flavour, m, q, top, p2, w)
      && (q.Ctl? ==> Pop(q.p, top, p2, w) in sys.rules) && !q.Final?
    case Listening(Transitively(p2, _, q, v)) => q.Gen? && Popped(sys.flavour.alg, m, p2, q, v)
    case Noted(_, _) => true
  }

  lemma PoppedBelow<P(!new), N(!new), W(!new)>(
    alg: Semiring<W>, m: map<Trans<P, N>, W>, p2: P, q: Node<P, N>, v: W, w: W)
    requires alg.Lawful() && Popped(alg, m, p2, q, w) && alg.Leq(v, w)
    ensures Popped(alg, m, p2, q, v)
  {
    alg.LeqTransitive(v, w, m[Transition(Ctl(p2), Eps, q)]);
    forall u | u in m && u.start == q
      ensures Above(alg, m, Transition(Ctl(p2), u.symbol, u.target), alg.extend(m[u], v))
    {
      alg.LeqReflexive(m[u]);
      alg.ExtendMonotone(m[u], m[u], v, w);
      alg.LeqTransitive(alg.extend(m[u], v), alg.extend(m[u], w), m[Transition(Ctl(p2), u.symbol, u.target)]);
    }
  }

  /** If saturation accounts for the larger weight, it accounts for the smaller one. */
  lemma AboveExtended<P(!new), N(!new), W(!new)>(
    alg: Semiring<W>, m: map<Trans<P, N>, W>, t: Trans<P, N>, v: W, w: W, r: W)
    requires alg.Lawful() && alg.Leq(v, w) && Above(alg, m, t, alg.extend(w, r))
    ensures Above(alg, m, t, alg.extend(v, r))
  {
    alg.LeqReflexive(r);
    alg.ExtendMonotone(v, w, r, r);
    alg.LeqTransitive(alg.extend(v, r), alg.extend(w, r), m[t]);
  }

  lemma CoveredReaction<P(!new), N(!new), W(!new)>(
    sys: System<P, N, W>, m: map<Trans<P, N>, W>, h: Handler<P, N, W>, t: Trans<P, N>, w: W, i: nat)
    requires sys.flavour.alg.Lawful() && Saturated(sys, m)
    requires Covered(sys, m, Listening(h)) && Covered(sys, m, Weighted(t, w)) && Observed(h) == t.start
    requires i < |React(sys.flavour, h, Out, t, w)|
    ensures Yields(SetupOf(sys.flavour), React(sys.flavour, h, Out, t, w)[i], f => Covered(sys, m, f))
  {
    var alg := sys.flavour.alg;
    match h
    case Normally(r) =>
      assert Closed(sys.flavour, r, m);
      AboveExtended(alg, m, Transition(Ctl(r.p2), NormalLabel(r.l1, r.l2, t.symbol).value, t.target), w, m[t], r.w);
    case Pushing(r) =>
      assert Closed(sys.flavour, r, m);
      AboveExtended(alg, m, Transition(Gen(r.p2, r.entry), PushLabel(r.l1, r.callSite, t.symbol).value, t.target), w,
        m[t], r.w);
    case Popping(q, top, p2, rw) =>
      if PopMatches(sys.flavour, t.symbol, top) && t.target.Gen? {
        alg.LeqReflexive(rw);
        alg.ExtendMonotone(w, m[t], rw, rw);
        PoppedBelow(alg, m, p2, t.target, alg.extend(w, rw), alg.extend(m[t], rw));
      }
      if t.symbol == Eps && sys.flavour.emptyEpsilon {
        assert Closed(sys.flavour, Pop(q.p, top, p2, rw), m);
      }
    case Transitively(p2, _, q, v) =>
      AboveExtended(alg, m, Transition(Ctl(p2), t.symbol, t.target), w, m[t], v);
  }

  /** Whatever the engine derives is below every saturated automaton. */
  lemma DerivedCovered<P(!new), N(!new), W(!new)>(sys: System<P, N, W>, m: map<Trans<P, N>, W>, f: Knowledge<P, N, W>)
    requires sys.flavour.alg.Lawful() && Saturated(sys, m)
    requires Derivable(SetupOf(sys.flavour), InputsOf(sys), f)
    ensures Covered(sys, m, f)
  {
    var s, alg := SetupOf<P, N, W>(sys.flavour), sys.flavour.alg;
    var covered := (f: Knowledge<P, N, W>) => Covered(sys, m, f);
    forall f | f in InputsOf(sys) ensures covered(f) {
      if f.Listening? {
        var r :| r in sys.rules && f == Listening(HandlerOf(r));
        assert Closed(sys.flavour, r, m);
      }
    }
    forall t, v, w | covered(Weighted(t, v)) && covered(Weighted(t, w))
      ensures covered(Weighted(t, alg.combine(v, w)))
    {
      alg.CombineLeq(v, w, m[t]);
    }
    forall l, e, t, w, i | covered(Listening(l)) && covered(Weighted(t, w)) && Attached(s, l, e, t)
      && 0 <= i < |s.react(l, e, t, w)|
      ensures Yields(s, s.react(l, e, t, w)[i], covered)
    {
      CoveredReaction(sys, m, l, t, w, i);
    }
    assert Inductive(s, InputsOf(sys), covered);
  }

  /** The result is saturated, and below every saturated automaton. */
  lemma ResultIsLeast<P(!new), N(!new), W(!new)>(sys: System<P, N, W>, st: Contents<P, N, W>)
    requires sys.flavour.alg.Lawful() && Result(sys, st)
    ensures Saturated(sys, st.weights)
    ensures forall m :: Saturated(sys, m) ==> forall t :: t in st.weights ==>
      Above(sys.flavour.alg, m, t, st.weights[t])
  {
    ResultSaturated(sys, st);
    forall m, t | Saturated(sys, m) && t in st.weights ensures Above(sys.flavour.alg, m, t, st.weights[t]) {
      DerivedCovered(sys, m, Weighted(t, st.weights[t]));
    }
  }

  lemma SameWeights<P(!new), N(!new), W(!new)>(alg: Semiring<W>, m: map<Trans<P, N>, W>, m': map<Trans<P, N>, W>)
    requires alg.Joins()
    requires forall t :: t in m ==> Above(alg, m', t, m[t])
    requires forall t :: t in m' ==> Above(alg, m, t, m'[t])
    ensures m == m'
  {
    forall t | t in m ensures m[t] == m'[t] {
      alg.LeqAntisymmetric(m[t], m'[t]);
    }
    assert m.Keys == m'.Keys;
  }

  /** Incremental equals batch: however rules, seeds and callbacks were interleaved, the weights agree. */
  lemma ResultIsUnique<P(!new), N(!new), W(!new)>(sys: System<P, N, W>, st: Contents<P, N, W>, st': Contents<P, N, W>)
    requires sys.flavour.alg.Lawful() && Result(sys, st) && Result(sys, st')
    ensures st.weights == st'.weights
  {
    ResultIsLeast(sys, st);
    ResultIsLeast(sys, st');
    SameWeights(sys.flavour.alg, st.weights, st'.weights);
  }

  // ----- Wildcards -----

  /** The instance of a rule at one label. */
  function Instance<P, N(==), W>(r: Rule<P, N, W>, n: N): Option<Rule<P, N, W>> {
    match r
    case Normal(p1, l1, p2, l2, w) =>
      if !Fits(l1, n) || Rewritten(l2, n).None? then None
      else Some(Normal(p1, Exact(n), p2, Exact(Rewritten(l2, n).value), w))
    case Push(p1, l1, p2, entry, callSite, w) =>
      if !Fits(l1, n) then None else Some(Push(p1, Exact(n), p2, entry, Exact(ReturnSite(callSite, n)), w))
    case Pop(p1, _, p2, w) => Some(Pop(p1, n, p2, w))
  }

  predicate Applies<P, N(!new,==), W(!new)>(f: Flavour<N, W>, r: Rule<P, N, W>, n: N) {
    Instance(r, n).Some? && (r.Pop? ==> f.accepts(n, r.top) || f.accepts(r.top, n))
  }

  /** The system without wildcards: one rule for each label of a finite alphabet, and `accepts` is equality. */
  ghost function Expanded<P(!new), N(!new), W(!new)>(sys: System<P, N, W>, alphabet: set<N>): System<P, N, W> {
    System(sys.flavour.(accepts := (a, b) => a == b),
           set r, n | r in sys.rules && n in alphabet && Applies(sys.flavour, r, n) :: Instance(r, n).value,
           sys.seeds)
  }

  /** The labels a transition can ever carry. */
  ghost function Labels<P(!new), N(!new), W(!new)>(sys: System<P, N, W>): set<N> {
    (set s | s in sys.seeds :: s.n)
    + (set r | r in sys.rules && r.Push? :: r.entry)
    + (set r | r in sys.rules && r.Push? && r.callSite.Exact? :: r.callSite.n)
    + (set r | r in sys.rules && r.Normal? && r.l2.Exact? :: r.l2.n)
  }

  ghost predicate Over<P(!new), N(!new), W(!new)>(m: map<Trans<P, N>, W>, alphabet: set<N>) {
    forall t :: t in m && t.symbol.Sym? ==> t.symbol.n in alphabet
  }

  lemma DerivedOver<P(!new), N(!new), W(!new)>(sys: System<P, N, W>, t: Trans<P, N>, w: W, alphabet: set<N>)
    requires Labels(sys) <= alphabet
    requires Derivable(SetupOf(sys.flavour), InputsOf(sys), Weighted(t, w))
    ensures t.symbol.Sym? ==> t.symbol.n in alphabet
  {
    var s := SetupOf<P, N, W>(sys.flavour);
    var over := (f: Knowledge<P, N, W>) =>
      match f
      case Weighted(t, _) => t.symbol.Sym? ==> t.symbol.n in alphabet
      case Listening(Normally(r)) => r in sys.rules
      case Listening(Pushing(r)) => r in sys.rules
      case _ => true;
    forall l, e, t, w, i | over(Listening(l)) && over(Weighted(t, w)) && Attached(s, l, e, t)
      && 0 <= i < |s.react(l, e, t, w)|
      ensures Yields(s, s.react(l, e, t, w)[i], over)
    {
    }
    assert Inductive(s, InputsOf(sys), over);
  }

  lemma LabelsOfExpansion<P(!new), N(!new), W(!new)>(sys: System<P, N, W>, alphabet: set<N>)
    requires Labels(sys) <= alphabet
    ensures Labels(Expanded(sys, alphabet)) <= alphabet
  {
    forall r' | r' in Expanded(sys, alphabet).rules
      ensures r'.Push? ==> r'.entry in alphabet && (r'.callSite.Exact? ==> r'.callSite.n in alphabet)
      ensures r'.Normal? && r'.l2.Exact? ==> r'.l2.n in alphabet
    {
      var r, n :| r in sys.rules && n in alphabet && Applies(sys.flavour, r, n) && r' == Instance(r, n).value;
      if r.Push? {
        assert r.entry in Labels(sys);
      }
      assert r.Push? && r.callSite.Exact? ==> r.callSite.n in Labels(sys);
      assert r.Normal? && r.l2.Exact? ==> r.l2.n in Labels(sys);
    }
    forall s | s in sys.seeds ensures s.n in alphabet {
      assert s.n in Labels(sys);
    }
  }

  lemma InstanceClosed<P(!new), N(!new), W(!new)>(
    sys: System<P, N, W>, alphabet: set<N>, r: Rule<P, N, W>, n: N, m: map<Trans<P, N>, W>)
    requires Closed(sys.flavour, r, m) && Applies(sys.flavour, r, n)
    ensures Closed(Expanded(sys, alphabet).flavour, Instance(r, n).value, m)
  {
    var f' := Expanded(sys, alphabet).flavour;
    match r
    case Normal(p1, l1, p2, l2, w) =>
      forall t | t in m && t.start == Ctl(p1) && LeftMatches(Exact(n), t.symbol)
        ensures Above(f'.alg, m, Transition(Ctl(p2), Sym(Rewritten(l2, n).value), t.target), f'.alg.extend(m[t], w))
      {
        assert NormalLabel(l1, l2, t.symbol) == Some(Sym(Rewritten(l2, n).value));
      }
    case Push(p1, l1, p2, entry, callSite, w) =>
      forall t | t in m && t.start == Ctl(p1) && LeftMatches(Exact(n), t.symbol)
        ensures Above(f'.alg, m, Transition(Gen(p2, entry), Sym(ReturnSite(callSite, n)), t.target),
          f'.alg.extend(m[t], w))
        ensures Above(f'.alg, m, Transition(Ctl(p2), Sym(entry), Gen(p2, entry)), f'.alg.one)
      {
        assert PushLabel(l1, callSite, t.symbol) == Some(Sym(ReturnSite(callSite, n)));
      }
    case Pop(p1, top, p2, w) =>
      assert forall l: Label<N> :: PopMatches(f', l, n) ==> PopMatches(sys.flavour, l, top);
  }

  lemma InstancesClose<P(!new), N(!new), W(!new)>(
    sys: System<P, N, W>, alphabet: set<N>, r: Rule<P, N, W>, m: map<Trans<P, N>, W>)
    requires Paired(r) && Over(m, alphabet)
    requires forall n :: n in alphabet && Applies(sys.flavour, r, n) ==>
      Closed(Expanded(sys, alphabet).flavour, Instance(r, n).value, m)
    ensures Closed(sys.flavour, r, m)
  {
    var f, f' := sys.flavour, Expanded(sys, alphabet).flavour;
    match r
    case Normal(p1, l1, p2, l2, w) =>
      forall t | t in m && t.start == Ctl(p1) && NormalLabel(l1, l2, t.symbol).Some?
        ensures Above(f.alg, m, Transition(Ctl(p2), NormalLabel(l1, l2, t.symbol).value, t.target),
          f.alg.extend(m[t], w))
      {
        var n := t.symbol.n;
        assert Applies(f, r, n) && Closed(f', Instance(r, n).value, m);
        assert NormalLabel(Exact(n), Exact(Rewritten(l2, n).value), t.symbol) == NormalLabel(l1, l2, t.symbol);
      }
    case Push(p1, l1, p2, entry, callSite, w) =>
      forall t | t in m && t.start == Ctl(p1) && PushLabel(l1, callSite, t.symbol).Some?
        ensures Above(f.alg, m, Transition(Gen(p2, entry), PushLabel(l1, callSite, t.symbol).value, t.target),
          f.alg.extend(m[t], w))
        ensures Above(f.alg, m, Transition(Ctl(p2), Sym(entry), Gen(p2, entry)), f.alg.one)
      {
        var n := t.symbol.n;
        assert Applies(f, r, n) && Closed(f', Instance(r, n).value, m);
        assert PushLabel(Exact(n), Exact(ReturnSite(callSite, n)), t.symbol) == PushLabel(l1, callSite, t.symbol);
      }
    case Pop(p1, top, p2, w) =>
      forall q | forall n :: n in alphabet && Applies(f, r, n) ==> PopsFrom(f', m, q, n, p2, w)
        ensures PopsFrom(f, m, q, top, p2, w)
      {
        forall t | t in m && t.start == q && PopMatches(f, t.symbol, top) && t.target.Gen?
          ensures Popped(f.alg, m, p2, t.target, f.alg.extend(m[t], w))
        {
          assert Applies(f, r, t.symbol.n) && PopMatches(f', t.symbol, t.symbol.n);
        }
      }
      forall n | n in alphabet && Applies(f, r, n) ensures PopsFrom(f', m, Ctl(p1), n, p2, w) {
        assert Closed(f', Pop(p1, n, p2, w), m);
      }
      if f.emptyEpsilon {
        forall t | t in m && t.start == Ctl(p1) && t.symbol == Eps ensures PopsFrom(f, m, t.target, top, p2, w) {
          forall n | n in alphabet && Applies(f, r, n) ensures PopsFrom(f', m, t.target, n, p2, w) {
            assert Closed(f', Pop(p1, n, p2, w), m);
          }
        }
      }
  }

  lemma ExpansionSaturates<P(!new), N(!new), W(!new)>(sys: System<P, N, W>, alphabet: set<N>, m: map<Trans<P, N>, W>)
    requires (forall r :: r in sys.rules ==> Paired(r)) && Over(m, alphabet)
    ensures Saturated(sys, m) <==> Saturated(Expanded(sys, alphabet), m)
  {
    var expanded := Expanded(sys, alphabet);
    if Saturated(sys, m) {
      forall r' | r' in expanded.rules ensures Closed(expanded.flavour, r', m) {
        var r, n :| r in sys.rules && n in alphabet && Applies(sys.flavour, r, n) && r' == Instance(r, n).value;
        InstanceClosed(sys, alphabet, r, n, m);
      }
    }
    if Saturated(expanded, m) {
      forall r | r in sys.rules ensures Closed(sys.flavour, r, m) {
        forall n | n in alphabet && Applies(sys.flavour, r, n)
          ensures Closed(expanded.flavour, Instance(r, n).value, m)
        {
          assert Instance(r, n).value in expanded.rules;
        }
        InstancesClose(sys, alphabet, r, m);
      }
    }
  }

  /** Wildcard rules mean their instances: post* computes the same weights with and without wildcards. */
  lemma WildcardsMeanTheirExpansion<P(!new), N(!new), W(!new)>(
    sys: System<P, N, W>, alphabet: set<N>, st: Contents<P, N, W>, st': Contents<P, N, W>)
    requires sys.flavour.alg.Lawful() && (forall r :: r in sys.rules ==> Paired(r)) && Labels(sys) <= alphabet
    requires Result(sys, st) && Result(Expanded(sys, alphabet), st')
    ensures st.weights == st'.weights
  {
    var expanded := Expanded(sys, alphabet);
    LabelsOfExpansion(sys, alphabet);
    forall t | t in st.weights && t.symbol.Sym? ensures t.symbol.n in alphabet {
      DerivedOver(sys, t, st.weights[t], alphabet);
    }
    forall t | t in st'.weights && t.symbol.Sym? ensures t.symbol.n in alphabet {
      DerivedOver(expanded, t, st'.weights[t], alphabet);
    }
    ExpansionSaturates(sys, alphabet, st.weights);
    ExpansionSaturates(sys, alphabet, st'.weights);
    ResultIsLeast(sys, st);
    ResultIsLeast(expanded, st');
    SameWeights(sys.flavour.alg, st.weights, st'.weights);
  }
}
