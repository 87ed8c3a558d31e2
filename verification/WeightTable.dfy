/** `asStatementValWeightTable`: final weights by label and fact. Transitions that share both overwrite each other. */
module WeightTable {
  import opened Options
  import opened Semirings
  import opened Automata
  import opened Pushdown
  import opened PostStar
  import opened Exactness
  import opened Orders
  import EmptyEpsilon
  import Existence
  import FinalWeights
  import Analysis

  /** The transition is entered under fact `p` and label `n`; a generated state has the fact it was created for. */
  ghost predicate Shares<P(!new), N(!new)>(t: Trans<P, N>, p: P, n: N) {
    t.symbol == Sym(n) && (t.start == Ctl(p) || exists m :: t.start == Gen(p, m))
  }

  /** One turn of the loop. `kept` is the test that a local fact belongs to the method of the label. */
  function Entered<P(!new,==), N(!new,==), W(!new)>(
    final: map<Trans<P, N>, W>, kept: (P, N) -> bool, results: map<(N, P), W>, t: Trans<P, N>): map<(N, P), W>
    requires t in final
  {
    if t.symbol == Eps || t.start.Final? || !kept(t.start.p, t.symbol.n) then results
    else results[(t.symbol.n, t.start.p) := final[t]]
  }

  function Table<P(!new,==), N(!new,==), W(!new)>(
    final: map<Trans<P, N>, W>, kept: (P, N) -> bool, order: seq<Trans<P, N>>): map<(N, P), W>
    requires forall t :: t in order ==> t in final
  {
    if order == [] then map[]
    else Entered(final, kept, Table(final, kept, order[..|order| - 1]), order[|order| - 1])
  }

  method AsStatementValWeightTable<P(!new,==), N(!new,==), W(!new)>(
    final: map<Trans<P, N>, W>, kept: (P, N) -> bool, order: seq<Trans<P, N>>) returns (results: map<(N, P), W>)
    requires Lists(order, final.Keys)
    ensures results == Table(final, kept, order)
  {
    results := map[];
    for i := 0 to |order|
      invariant results == Table(final, kept, order[..i])
    {
      var t := order[i];
      assert order[..i + 1][..i] == order[..i];
      assert t in final;
      if t.symbol == Eps {
        continue;
      }
      if t.start.Final? || !kept(t.start.p, t.symbol.n) {
        continue;
      }
      results := results[(t.symbol.n, t.start.p) := final[t]];
    }
    assert order[..|order|] == order;
  }

  /** An entry is the final weight of the last transition that shares its key. */
  lemma {:induction false} EntryOf<P(!new), N(!new), W(!new)>(
    final: map<Trans<P, N>, W>, kept: (P, N) -> bool, order: seq<Trans<P, N>>, p: P, n: N)
    requires forall t :: t in order ==> t in final
    ensures var results := Table(final, kept, order);
            && ((n, p) in results <==> kept(p, n) && exists t :: t in order && Shares(t, p, n))
            && ((n, p) in results ==> exists t :: t in order && Shares(t, p, n) && results[(n, p)] == final[t])
            && (kept(p, n) && order != [] && Shares(order[|order| - 1], p, n) ==>
                  (n, p) in results && results[(n, p)] == final[order[|order| - 1]])
    decreases |order|
  {
    if order != [] {
      var rest, last := order[..|order| - 1], order[|order| - 1];
      EntryOf(final, kept, rest, p, n);
      assert forall t :: t in order <==> t in rest || t == last;
      var before, results := Table(final, kept, rest), Table(final, kept, order);
      assert results == Entered(final, kept, before, last);
      if kept(p, n) && Shares(last, p, n) {
        assert (n, p) in results && results[(n, p)] == final[last];
      } else {
        assert (n, p) in results <==> (n, p) in before;
        assert (n, p) in results ==> results[(n, p)] == before[(n, p)];
      }
    }
  }

  // ----- What an entry should be -----

  /** The entry combines weights of runs to `<p, n ...>`, and accounts for all of them. */
  ghost predicate Right<P(!new), N(!new), W(!new)>(
    sys: System<P, N, W>, results: map<(N, P), W>, p: P, n: N)
  {
    && (forall w :: Analysis.ToTop(sys, p, n)(w) ==>
          (n, p) in results && sys.flavour.alg.Leq(w, results[(n, p)]))
    && ((n, p) in results ==> Spans(sys.flavour.alg, Analysis.ToTop(sys, p, n), results[(n, p)]))
  }

  ghost predicate AlwaysRight<P(!new), N(!new), W(!new)>(
    sys: System<P, N, W>, final: map<Trans<P, N>, W>, kept: (P, N) -> bool, p: P, n: N)
  {
    forall order | Lists(order, final.Keys) :: Right(sys, Table(final, kept, order), p, n)
  }

  /** The transitions that share the key have one final weight, and one of them leaves the control state. */
  ghost predicate Agrees<P(!new), N(!new), W(!new)>(final: map<Trans<P, N>, W>, p: P, n: N) {
    && (forall t, u :: t in final && u in final && Shares(t, p, n) && Shares(u, p, n) ==> final[t] == final[u])
    && (forall t :: t in final && Shares(t, p, n) ==>
          exists u :: u in final && Shares(u, p, n) && u.start == Ctl(p))
  }

  lemma AgreedIsRight<P(!new), N(!new), W(!new)>(
    sys: System<P, N, W>, st: Contents<P, N, W>, final: map<Trans<P, N>, W>, kept: (P, N) -> bool, p: P, n: N,
    order: seq<Trans<P, N>>)
    requires sys.flavour.alg.Lawful() && AllPaired(sys) && EmptyEpsilon.KeepsWeights(sys.flavour) && Result(sys, st)
    requires FinalWeights.PathSums(Analysis.GraphOf(sys, st), final) && kept(p, n) && Agrees(final, p, n)
    requires Lists(order, final.Keys)
    ensures Right(sys, Table(final, kept, order), p, n)
  {
    var results := Table(final, kept, order);
    EntryOf(final, kept, order, p, n);
    forall w | Analysis.ToTop(sys, p, n)(w)
      ensures (n, p) in results && sys.flavour.alg.Leq(w, results[(n, p)])
    {
      Analysis.RunsHaveFinalWeights(sys, st, final, p, n, w);
      var q :| Transition(Ctl(p), Sym(n), q) in final && sys.flavour.alg.Leq(w, final[Transition(Ctl(p), Sym(n), q)]);
      assert Shares(Transition(Ctl(p), Sym(n), q), p, n);
    }
    if (n, p) in results {
      var t :| t in order && Shares(t, p, n) && results[(n, p)] == final[t];
      var u :| u in final && Shares(u, p, n) && u.start == Ctl(p);
      Analysis.FinalWeightsAreRuns(sys, st, final, u);
    }
  }

  /** If any transition that comes last gives a right entry, they agree. */
  lemma RightAgrees<P(!new), N(!new), W(!new)>(
    sys: System<P, N, W>, st: Contents<P, N, W>, final: map<Trans<P, N>, W>, kept: (P, N) -> bool, p: P, n: N)
    requires sys.flavour.alg.Lawful() && Result(sys, st)
    requires FinalWeights.PathSums(Analysis.GraphOf(sys, st), final) && kept(p, n)
    requires AlwaysRight(sys, final, kept, p, n)
    ensures Agrees(final, p, n)
  {
    var alg, runs := sys.flavour.alg, Analysis.ToTop(sys, p, n);
    forall t | t in final && Shares(t, p, n)
      ensures Spans(alg, runs, final[t]) && forall w :: runs(w) ==> alg.Leq(w, final[t])
    {
      var order := ListingUpTo(final.Keys, t);
      EntryOf(final, kept, order, p, n);
      assert Right(sys, Table(final, kept, order), p, n);
    }
    forall t, u | t in final && u in final && Shares(t, p, n) && Shares(u, p, n)
      ensures final[t] == final[u]
    {
      SpansBelow(alg, runs, final[t], final[u]);
      SpansBelow(alg, runs, final[u], final[t]);
      alg.LeqAntisymmetric(final[t], final[u]);
    }
    forall t | t in final && Shares(t, p, n)
      ensures exists u :: u in final && Shares(u, p, n) && u.start == Ctl(p)
    {
      var sum :| Drawn(sum, runs) && Total(alg, sum) == final[t];
      var w := FirstTerm(sum, runs);
      Analysis.RunsHaveFinalWeights(sys, st, final, p, n, w);
      var q :| Transition(Ctl(p), Sym(n), q) in final && alg.Leq(w, final[Transition(Ctl(p), Sym(n), q)]);
      assert Shares(Transition(Ctl(p), Sym(n), q), p, n);
    }
  }

  /** For every order in which the transitions are read, the entry is right if and only if they agree. */
  lemma EntryRightIff<P(!new), N(!new), W(!new)>(
    sys: System<P, N, W>, st: Contents<P, N, W>, final: map<Trans<P, N>, W>, kept: (P, N) -> bool, p: P, n: N)
    requires sys.flavour.alg.Lawful() && AllPaired(sys) && EmptyEpsilon.KeepsWeights(sys.flavour) && Result(sys, st)
    requires FinalWeights.PathSums(Analysis.GraphOf(sys, st), final) && kept(p, n)
    ensures AlwaysRight(sys, final, kept, p, n) <==> Agrees(final, p, n)
  {
    if Agrees(final, p, n) {
      forall order | Lists(order, final.Keys)
        ensures Right(sys, Table(final, kept, order), p, n)
      {
        AgreedIsRight(sys, st, final, kept, p, n, order);
      }
    }
    if AlwaysRight(sys, final, kept, p, n) {
      RightAgrees(sys, st, final, kept, p, n);
    }
  }

  // ----- An entry that depends on the order -----

  function Plus(a: nat, b: nat): nat { a + b }

  function Min(a: nat, b: nat): nat { if a <= b then a else b }

  function Self(a: nat): nat { a }

  /** Shortest distances. */
  function MinPlus(): Semiring<nat> {
    Semiring(0, Plus, Min, Self)
  }

  lemma MinPlusLawful()
    ensures MinPlus().Lawful()
  {
    forall a: nat, b: nat, c: nat ensures MinPlus().JoinLaws(a, b, c) {
    }
    forall a: nat, b: nat, c: nat ensures MinPlus().ExtendLaws(a, b, c) {
    }
  }

  function Distances(): Flavour<int, nat> {
    Flavour(MinPlus(), Same(), false)
  }

  /** From `<0,0>` to `<1,5>` with weight 7, and to `<1,5 0>` with weight 3. */
  function TwoWays(): System<int, int, nat> {
    System(Distances(), {Normal(0, Exact(0), 1, Exact(5), 7), Push(0, Exact(0), 1, 5, Exact(0), 3)},
      {Seed(0, 0, 0)})
  }

  lemma {:induction false} TwoWaysRuns(run: Run<int, int, nat>)
    requires IsRun(TwoWays(), Seeds(TwoWays()), run)
    ensures (Last(run), Cost(MinPlus(), run)) in
            {(Config(0, [0]), 0), (Config(1, [5]), 7), (Config(1, [5, 0]), 3)}
  {
    if run.Then? {
      TwoWaysRuns(run.prev);
      var c := Last(run.prev);
      assert c == Config(0, [0]) ==> c.stack[1..] == [];
      assert [5] + [] == [5] && [5, 0] + [] == [5, 0];
    }
  }

  function Straight(): Trans<int, int> {
    Transition(Ctl(1), Sym(5), Final)
  }

  function Called(): Trans<int, int> {
    Transition(Ctl(1), Sym(5), Gen(1, 5))
  }

  function Site(): Trans<int, int> {
    Transition(Gen(1, 5), Sym(0), Final)
  }

  lemma TwoWaysSaturated(m: map<Trans<int, int>, nat>)
    requires Saturated(TwoWays(), m)
    ensures Straight() in m && Called() in m && Site() in m && m[Called()] == 0 && m[Site()] <= 3
  {
    var sys, alg, seed := TwoWays(), MinPlus(), Seed(0, 0, 0);
    assert seed in sys.seeds && Above(alg, m, SeedTransition(seed), 0);
    assert Closed(sys.flavour, Normal(0, Exact(0), 1, Exact(5), 7), m);
    assert NormalLabel(Exact(0), Exact(5), Sym(0)) == Some(Sym(5));
    assert Closed(sys.flavour, Push(0, Exact(0), 1, 5, Exact(0), 3), m);
    assert PushLabel(Exact(0), Exact(0), Sym(0)) == Some(Sym(0));
    assert Above(alg, m, Called(), 0) && Above(alg, m, Site(), 3);
  }

  lemma StraightGenuine(st: Contents<int, int, nat>)
    requires Result(TwoWays(), st) && Straight() in st.weights
    ensures st.weights[Straight()] == 7
  {
    var sys, alg, t := TwoWays(), MinPlus(), Straight();
    MinPlusLawful();
    DerivedGenuine(sys, Weighted(t, st.weights[t]));
    assert Spelled(t) == Config(1, [5]);
    forall v | FromRuns(sys, Final, Spelled(t))(v)
      ensures v == 7
    {
      var run :| IsRun(sys, Seeds(sys), run) && Last(run) == Config(1, [5]) && Cost(alg, run) == v;
      TwoWaysRuns(run);
    }
    SpansOnly(alg, FromRuns(sys, Final, Spelled(t)), 7, st.weights[t]);
  }

  /** A path of one transition, and one of two. */
  lemma ShortPaths<S(!new), N(!new), W(!new)>(
    g: FinalWeights.Graph<S, N, W>, t: Transition<S, N>, u: Transition<S, N>)
    requires g.alg.Lawful() && u in g.weights && u.target in g.initial
    ensures FinalWeights.Through(g, u)(g.weights[u])
    ensures t in g.weights && t.target == u.start && g.generated(u.start) ==>
              FinalWeights.Through(g, t)(g.alg.extend(g.weights[u], g.weights[t]))
  {
    g.alg.Units(g.weights[u]);
    assert [u][1..] == [] && [t, u][1..] == [u];
    assert FinalWeights.Leads(g, u.target, []) && FinalWeights.Leads(g, u.start, [u]);
    assert FinalWeights.Product(g, u.start, [u]) == g.weights[u];
    if t in g.weights && t.target == u.start && g.generated(u.start) {
      assert FinalWeights.Leads(g, t.start, [t, u]);
      assert FinalWeights.Product(g, t.start, [t, u]) == g.alg.extend(g.weights[u], g.weights[t]);
    }
  }

  lemma OnlyStraight(g: FinalWeights.Graph<Node<int, int>, Label<int>, nat>, t: Trans<int, int>, w: nat)
    requires g.alg.Lawful() && g.initial == {Final} && !g.generated(Final)
    requires t.target == Final && FinalWeights.Through(g, t)(w)
    ensures t in g.weights && w == g.weights[t]
  {
    var path :|
      path != [] && path[0] == t && FinalWeights.Leads(g, t.start, path) && FinalWeights.Product(g, t.start, path) == w;
    assert path[0] in g.weights && FinalWeights.Leads(g, t.target, path[1..]);
    assert path[1..] == [];
    assert FinalWeights.Product(g, t.target, path[1..]) == g.alg.one;
    g.alg.Units(g.weights[t]);
  }

  /** There is a table of final weights for which the entry for fact 1 at label 5 is wrong in some order. */
  lemma EntryDependsOnOrder(kept: (int, int) -> bool)
    returns (st: Contents<int, int, nat>, final: map<Trans<int, int>, nat>)
    requires kept(1, 5)
    ensures Result(TwoWays(), st) && FinalWeights.PathSums(Analysis.GraphOf(TwoWays(), st), final)
    ensures !AlwaysRight(TwoWays(), final, kept, 1, 5)
  {
    var sys, alg := TwoWays(), MinPlus();
    MinPlusLawful();
    st := Existence.ResultExists(sys);
    var g := Analysis.GraphOf(sys, st);
    final := FinalWeights.PathSumsExist(g);
    TwoWaysDisagree(st, final);
    EntryRightIff(sys, st, final, kept, 1, 5);
  }

  lemma TwoWaysDisagree(st: Contents<int, int, nat>, final: map<Trans<int, int>, nat>)
    requires Result(TwoWays(), st) && FinalWeights.PathSums(Analysis.GraphOf(TwoWays(), st), final)
    ensures !Agrees(final, 1, 5)
  {
    ResultSaturated(TwoWays(), st);
    TwoWaysSaturated(st.weights);
    StraightGenuine(st);
    TwoWaysDiffer(st, final);
    assert Shares(Straight(), 1, 5) && Shares(Called(), 1, 5);
  }

  lemma TwoWaysDiffer(st: Contents<int, int, nat>, final: map<Trans<int, int>, nat>)
    requires FinalWeights.PathSums(Analysis.GraphOf(TwoWays(), st), final)
    requires Straight() in st.weights && Called() in st.weights && Site() in st.weights
    requires st.weights[Straight()] == 7 && st.weights[Called()] == 0 && st.weights[Site()] <= 3
    ensures Straight() in final && Called() in final && final[Straight()] == 7 && final[Called()] <= 3
  {
    var g, alg := Analysis.GraphOf(TwoWays(), st), MinPlus();
    MinPlusLawful();
    ShortPaths(g, Called(), Site());
    ShortPaths(g, Called(), Straight());
    assert FinalWeights.Worth(g, final, Straight(), 7);
    var w := alg.extend(st.weights[Site()], 0);
    assert FinalWeights.Worth(g, final, Called(), w);
    assert alg.combine(final[Called()], w) == Min(final[Called()], w) && w == st.weights[Site()];
    forall w | FinalWeights.Through(g, Straight())(w)
      ensures w == 7
    {
      OnlyStraight(g, Straight(), w);
    }
    SpansOnly(alg, FinalWeights.Through(g, Straight()), 7, final[Straight()]);
  }
}
