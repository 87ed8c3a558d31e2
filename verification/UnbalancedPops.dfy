/** Reports of pops that empty the stack. They carry the weight from before the last pop: the code works out the
    weight with the pop rule and passes on the one without. Exactly when that is right. */
module UnbalancedPops {
  import opened Options
  import opened Semirings
  import opened Automata
  import opened Pushdown
  import opened PostStar
  import opened Exactness
  import EmptyEpsilon
  import Existence

  /** Every report is a combination of weights of runs that end with an empty stack. */
  ghost predicate ReportsGenuine<P(!new), N(!new), W(!new)>(sys: System<P, N, W>, st: Contents<P, N, W>) {
    forall k :: k in st.notes ==> Genuine(sys, Final, Config(k.p2, []), st.notes[k])
  }

  /** Every run that ends with an empty stack is accounted for by some report. */
  ghost predicate ReportsComplete<P(!new), N(!new), W(!new)>(sys: System<P, N, W>, st: Contents<P, N, W>) {
    forall p, w :: Reaches(sys, Seeds(sys), Config(p, []), w) ==> IsReported(sys, st, p, w)
  }

  ghost predicate IsReported<P(!new), N(!new), W(!new)>(sys: System<P, N, W>, st: Contents<P, N, W>, p: P, w: W) {
    exists k :: k in st.notes && k.p2 == p && sys.flavour.alg.Leq(w, st.notes[k])
  }

  /** No report exceeds the weight of runs to a configuration from which a rule pops the whole stack. */
  ghost predicate ReportsBounded<P(!new), N(!new), W(!new)>(sys: System<P, N, W>, st: Contents<P, N, W>) {
    forall k :: k in st.notes ==> EmptyEpsilon.BelowPop(sys, k.p2, st.notes[k])
  }

  // ----- What the weights of pop rules have to do with it -----

  lemma PopsOfOneGenuine<P(!new), N(!new), W(!new)>(sys: System<P, N, W>, st: Contents<P, N, W>)
    requires sys.flavour.alg.Lawful() && AllPaired(sys) && !sys.flavour.emptyEpsilon && Result(sys, st)
    requires forall r :: r in sys.rules && r.Pop? ==> r.w == sys.flavour.alg.one
    ensures ReportsGenuine(sys, st)
  {
    forall k | k in st.notes
      ensures Genuine(sys, Final, Config(k.p2, []), st.notes[k])
    {
      DerivedGenuine(sys, Noted(k, st.notes[k]));
      var r :| r in sys.rules && Step(sys.flavour, r, Spelled(k.t)) == Some(Config(k.p2, []));
      GenuineThen(sys, Final, Spelled(k.t), st.notes[k], r, Config(k.p2, []));
      sys.flavour.alg.Units(st.notes[k]);
    }
  }

  lemma PopsBelowOneComplete<P(!new), N(!new), W(!new)>(sys: System<P, N, W>, st: Contents<P, N, W>)
    requires sys.flavour.alg.Lawful() && Result(sys, st)
    requires forall r :: r in sys.rules && r.Pop? ==> sys.flavour.alg.Leq(r.w, sys.flavour.alg.one)
    ensures ReportsComplete(sys, st)
  {
    var alg := sys.flavour.alg;
    forall p, w | Reaches(sys, Seeds(sys), Config(p, []), w)
      ensures IsReported(sys, st, p, w)
    {
      var run :| IsRun(sys, Seeds(sys), run) && Last(run) == Config(p, []) && Cost(alg, run) == w;
      var k := UnbalancedPopNoted(sys, st, run);
      var before := Cost(alg, run.prev);
      alg.Units(before);
      alg.LeqReflexive(before);
      alg.ExtendMonotone(before, before, run.r.w, alg.one);
      alg.LeqTransitive(w, before, st.notes[k]);
    }
  }

  // ----- One pop -----

  /** `<0,0> -> <1,>`, with weight `w`. */
  function OnePop<W(!new,==)>(alg: Semiring<W>, w: W): System<int, int, W> {
    System(Flavour(alg, Same(), false), {Pop(0, 0, 1, w)}, {Seed(0, 0, alg.one)})
  }

  lemma {:induction false} OnePopRuns<W(!new)>(alg: Semiring<W>, w: W, run: Run<int, int, W>)
    requires alg.Lawful() && IsRun(OnePop(alg, w), Seeds(OnePop(alg, w)), run)
    ensures (Last(run), Cost(alg, run)) in {(Config(0, [0]), alg.one), (Config(1, []), w)}
  {
    if run.Then? {
      OnePopRuns(alg, w, run.prev);
      alg.Units(w);
      var c := Last(run.prev);
      assert run.r == Pop(0, 0, 1, w) && c == Config(0, [0]);
      assert c.stack[1..] == [];
    }
  }

  lemma OnePopReaches<W(!new)>(alg: Semiring<W>, w: W, c: Config<int, int>, v: W)
    requires alg.Lawful() && Reaches(OnePop(alg, w), Seeds(OnePop(alg, w)), c, v)
    ensures (c, v) in {(Config(0, [0]), alg.one), (Config(1, []), w)}
  {
    var sys := OnePop(alg, w);
    var run :| IsRun(sys, Seeds(sys), run) && Last(run) == c && Cost(alg, run) == v;
    OnePopRuns(alg, w, run);
  }

  /** The only run that empties the stack weighs `w`, whatever that is; what is reported is `one`. */
  lemma PopWeightIsNotReported<W(!new)>(alg: Semiring<W>, w: W, st: Contents<int, int, W>)
    returns (k: Unbalanced<int, int>)
    requires alg.Lawful() && Result(OnePop(alg, w), st)
    ensures Reaches(OnePop(alg, w), Seeds(OnePop(alg, w)), Config(1, []), w)
    ensures forall v :: Reaches(OnePop(alg, w), Seeds(OnePop(alg, w)), Config(1, []), v) ==> v == w
    ensures k in st.notes && k.p2 == 1 && forall k' :: k' in st.notes ==> st.notes[k'] == alg.one
  {
    var sys, r := OnePop(alg, w), Pop(0, 0, 1, w);
    var run := Then(Begin(Config(0, [0]), alg.one), r, Config(1, []));
    var seed := Seed(0, 0, alg.one);
    assert seed in sys.seeds && [0][1..] == [];
    assert Step(sys.flavour, r, Config(0, [0])) == Some(Config(1, []));
    assert IsRun(sys, Seeds(sys), run.prev);
    assert IsRun(sys, Seeds(sys), run);
    alg.Units(w);
    k := UnbalancedPopNoted(sys, st, run);
    forall v | Reaches(sys, Seeds(sys), Config(1, []), v)
      ensures v == w
    {
      OnePopReaches(alg, w, Config(1, []), v);
    }
    forall k' | k' in st.notes
      ensures st.notes[k'] == alg.one
    {
      DerivedGenuine(sys, Noted(k', st.notes[k']));
      var c := Spelled(k'.t);
      assert c == Config(0, [0]);
      forall v | FromRuns(sys, Final, c)(v)
        ensures v == alg.one
      {
        OnePopReaches(alg, w, c, v);
      }
      SpansOnly(alg, FromRuns(sys, Final, c), alg.one, st.notes[k']);
    }
  }

  /** A paired system whose pop rules weigh `one` or `w`, with an epsilon label that is not an `Empty`. */
  ghost predicate PopsWeigh<W(!new)>(sys: System<int, int, W>, alg: Semiring<W>, w: W) {
    && sys.flavour.alg == alg && !sys.flavour.emptyEpsilon && AllPaired(sys)
    && forall r :: r in sys.rules && r.Pop? ==> r.w == alg.one || r.w == w
  }

  ghost predicate AlwaysGenuine<W(!new)>(alg: Semiring<W>, w: W) {
    forall sys: System<int, int, W>, st | PopsWeigh(sys, alg, w) && Result(sys, st) :: ReportsGenuine(sys, st)
  }

  ghost predicate AlwaysComplete<W(!new)>(alg: Semiring<W>, w: W) {
    forall sys: System<int, int, W>, st | PopsWeigh(sys, alg, w) && Result(sys, st) :: ReportsComplete(sys, st)
  }

  /** Reports are weights of runs, in all systems with pops of weight `w`, if and only if that is `one`. */
  lemma ReportsGenuineIff<W(!new)>(alg: Semiring<W>, w: W)
    requires alg.Lawful()
    ensures AlwaysGenuine(alg, w) <==> w == alg.one
  {
    if w == alg.one {
      forall sys: System<int, int, W>, st | PopsWeigh(sys, alg, w) && Result(sys, st)
        ensures ReportsGenuine(sys, st)
      {
        PopsOfOneGenuine(sys, st);
      }
    } else {
      var sys := OnePop(alg, w);
      var st := Existence.ResultExists(sys);
      var k := PopWeightIsNotReported(alg, w, st);
      assert PopsWeigh(sys, alg, w);
      if ReportsGenuine(sys, st) {
        assert Genuine(sys, Final, Config(1, []), alg.one);
        SpansOnly(alg, FromRuns(sys, Final, Config(1, [])), w, alg.one);
      }
      assert !ReportsGenuine(sys, st);
    }
  }

  /** Reports account for all runs, in all systems with pops of weight `w`, if and only if `w` is below `one`. */
  lemma ReportsCompleteIff<W(!new)>(alg: Semiring<W>, w: W)
    requires alg.Lawful()
    ensures AlwaysComplete(alg, w) <==> alg.Leq(w, alg.one)
  {
    alg.LeqReflexive(alg.one);
    if alg.Leq(w, alg.one) {
      forall sys: System<int, int, W>, st | PopsWeigh(sys, alg, w) && Result(sys, st)
        ensures ReportsComplete(sys, st)
      {
        PopsBelowOneComplete(sys, st);
      }
    } else {
      var sys := OnePop(alg, w);
      var st := Existence.ResultExists(sys);
      var k := PopWeightIsNotReported(alg, w, st);
      assert PopsWeigh(sys, alg, w);
      assert !IsReported(sys, st, 1, w);
      assert !ReportsComplete(sys, st);
    }
  }

  // ----- What an `Empty` epsilon has to do with it -----

  /** No report exceeds the weight of runs, for every flavour that keeps weights. */
  lemma ReportsAreBounded<P(!new), N(!new), W(!new)>(sys: System<P, N, W>, st: Contents<P, N, W>)
    requires sys.flavour.alg.Lawful() && AllPaired(sys) && EmptyEpsilon.KeepsWeights(sys.flavour) && Result(sys, st)
    ensures ReportsBounded(sys, st)
  {
    forall k | k in st.notes
      ensures EmptyEpsilon.BelowPop(sys, k.p2, st.notes[k])
    {
      EmptyEpsilon.DerivedBelowGenuine(sys, Noted(k, st.notes[k]));
    }
  }

  /** `<0,0> -> <1,1 2> -> <5,1 2> -> <3,2> -> <4,>`; the second step weighs `w`. */
  function TwoPops<W(!new,==)>(alg: Semiring<W>, w: W): System<int, int, W> {
    var one := alg.one;
    System(EmptyEpsilon.Equality(alg),
           {Push(0, Exact(0), 1, 1, Exact(2), one), Normal(1, Exact(1), 5, Exact(1), w), Pop(5, 1, 3, one),
            Pop(3, 2, 4, one)},
           {Seed(0, 0, one)})
  }

  lemma {:induction false} TwoPopsRuns<W(!new)>(alg: Semiring<W>, w: W, run: Run<int, int, W>)
    requires alg.Lawful() && IsRun(TwoPops(alg, w), Seeds(TwoPops(alg, w)), run)
    ensures (Last(run), Cost(alg, run)) in
            {(Config(0, [0]), alg.one), (Config(1, [1, 2]), alg.one), (Config(5, [1, 2]), w), (Config(3, [2]), w),
             (Config(4, []), w)}
  {
    if run.Then? {
      TwoPopsRuns(alg, w, run.prev);
      alg.Units(alg.one);
      alg.Units(w);
      var c := Last(run.prev);
      assert c == Config(0, [0]) ==> c.stack[1..] == [];
      assert c.stack == [1, 2] ==> c.stack[1..] == [2];
      assert c == Config(3, [2]) ==> c.stack[1..] == [];
      assert [1, 2] + [] == [1, 2] && [1] + [2] == [1, 2];
    }
  }

  /** `<4,>` is reported for this transition as well, behind an epsilon edge. */
  function Behind(): Unbalanced<int, int> {
    Unbalanced(4, Transition(Gen(1, 1), Sym(2), Final))
  }

  lemma TwoPopsSaturated<W(!new)>(alg: Semiring<W>, w: W, m: map<Trans<int, int>, W>)
    requires alg.Lawful() && Saturated(TwoPops(alg, w), m)
    ensures Above(alg, m, Behind().t, alg.one) && Transition(Ctl(3), Eps, Gen(1, 1)) in m
  {
    var sys, one := TwoPops(alg, w), alg.one;
    alg.LeqReflexive(one);
    var seed := Seed(0, 0, one);
    assert seed in sys.seeds && Above(alg, m, SeedTransition(seed), one);
    assert Closed(sys.flavour, Push(0, Exact(0), 1, 1, Exact(2), one), m);
    assert PushLabel(Exact(0), Exact(2), Sym(0)) == Some(Sym(2));
    EmptyEpsilon.AboveOne(alg, m, SeedTransition(seed), Behind().t);
    var call := Transition(Ctl(1), Sym(1), Gen(1, 1));
    assert call in m && Closed(sys.flavour, Normal(1, Exact(1), 5, Exact(1), w), m);
    assert NormalLabel(Exact(1), Exact(1), Sym(1)) == Some(Sym(1));
    var inside := Transition(Ctl(5), Sym(1), Gen(1, 1));
    assert inside in m && Closed(sys.flavour, Pop(5, 1, 3, one), m);
    assert Popped(alg, m, 3, Gen(1, 1), alg.extend(m[inside], one));
  }

  /** The pop handler of the last rule follows the epsilon edge and reports what it finds behind it. */
  lemma BehindReported<W(!new)>(alg: Semiring<W>, w: W, st: Contents<int, int, W>)
    requires alg.Lawful() && Result(TwoPops(alg, w), st)
    ensures Behind() in st.notes && alg.Leq(alg.one, st.notes[Behind()])
  {
    var sys := TwoPops(alg, w);
    ResultSaturated(sys, st);
    TwoPopsSaturated(alg, w, st.weights);
    var h, r := Popping(Ctl(3), 2, 4, alg.one), Pop(3, 2, 4, alg.one);
    assert r in sys.rules && Listening(HandlerOf(r)) in InputsOf(sys);
    assert h in st.listeners by { assert Holds(SetupOf(sys.flavour), Listening(HandlerOf(r)), st); }
    Reacted(sys, st, h, Transition(Ctl(3), Eps, Gen(1, 1)), 0);
    Reacted(sys, st, Popping(Gen(1, 1), 2, 4, alg.one), Behind().t, 0);
    alg.LeqTransitive(alg.one, st.weights[Behind().t], st.notes[Behind()]);
  }

  lemma TwoPopsReaches<W(!new)>(alg: Semiring<W>, w: W, c: Config<int, int>, v: W)
    requires alg.Lawful() && Reaches(TwoPops(alg, w), Seeds(TwoPops(alg, w)), c, v) && (c.p == 3 || c.p == 4)
    ensures v == w
  {
    var sys := TwoPops(alg, w);
    var run :| IsRun(sys, Seeds(sys), run) && Last(run) == c && Cost(alg, run) == v;
    TwoPopsRuns(alg, w, run);
  }

  lemma TwoPopsBelow<W(!new)>(alg: Semiring<W>, w: W, x: W)
    requires alg.Lawful() && EmptyEpsilon.BelowPop(TwoPops(alg, w), 4, x)
    ensures alg.Leq(x, w)
  {
    var sys := TwoPops(alg, w);
    var r, c :| EmptyEpsilon.PopsTo(sys, r, c, 4) && EmptyEpsilon.BelowGenuine(sys, Final, c, x);
    assert c.p == 3;
    var v :| Genuine(sys, Final, c, v) && alg.Leq(x, v);
    forall y | FromRuns(sys, Final, c)(y)
      ensures y == w
    {
      TwoPopsReaches(alg, w, c, y);
    }
    SpansOnly(alg, FromRuns(sys, Final, c), w, v);
  }

  /** Every run to `<3,[2]>` and to `<4,>` weighs `w`, but the pop is reported with a weight above `one`. */
  lemma EmptyEpsilonExceeds<W(!new)>(alg: Semiring<W>, w: W, st: Contents<int, int, W>)
    requires alg.Lawful() && !alg.Leq(alg.one, w) && Result(TwoPops(alg, w), st)
    ensures AllPaired(TwoPops(alg, w)) && !ReportsBounded(TwoPops(alg, w), st)
    ensures Behind() in st.notes && alg.Leq(alg.one, st.notes[Behind()])
  {
    var sys, k := TwoPops(alg, w), Behind();
    BehindReported(alg, w, st);
    if EmptyEpsilon.BelowPop(sys, k.p2, st.notes[k]) {
      TwoPopsBelow(alg, w, st.notes[k]);
      alg.LeqTransitive(alg.one, st.notes[k], w);
    }
    assert !EmptyEpsilon.BelowPop(sys, k.p2, st.notes[k]);
  }

  ghost predicate AlwaysBounded<W(!new)>(alg: Semiring<W>) {
    forall sys: System<int, int, W>, st |
      sys.flavour.alg == alg && sys.flavour.emptyEpsilon && AllPaired(sys) && Result(sys, st) ::
      ReportsBounded(sys, st)
  }

  /** With an `Empty` epsilon, no report of any system exceeds the weight of runs if and only if `one` is least. */
  lemma ReportsBoundedIff<W(!new)>(alg: Semiring<W>)
    requires alg.Lawful()
    ensures AlwaysBounded(alg) <==> EmptyEpsilon.OneIsLeast(alg)
  {
    if EmptyEpsilon.OneIsLeast(alg) {
      forall sys: System<int, int, W>, st |
        sys.flavour.alg == alg && sys.flavour.emptyEpsilon && AllPaired(sys) && Result(sys, st)
        ensures ReportsBounded(sys, st)
      {
        ReportsAreBounded(sys, st);
      }
    } else {
      var w :| !alg.Leq(alg.one, w);
      var sys := TwoPops(alg, w);
      var st := Existence.ResultExists(sys);
      EmptyEpsilonExceeds(alg, w, st);
      assert !ReportsBounded(sys, st);
    }
  }
}
