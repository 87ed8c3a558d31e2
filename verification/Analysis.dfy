/** post* followed by the extraction of final weights: the value of every (control state, top symbol). */
module Analysis {
  import opened Semirings
  import opened Automata
  import opened Pushdown
  import opened PostStar
  import opened Exactness
  import EmptyEpsilon
  import FinalWeights

  /** The automaton of a post* result, as the extraction of final weights sees it. */
  ghost function GraphOf<P(!new), N(!new), W(!new)>(
    sys: System<P, N, W>, st: Contents<P, N, W>): FinalWeights.Graph<Node<P, N>, Label<N>, W>
  {
    FinalWeights.Graph(sys.flavour.alg, st.weights, {Final}, (q: Node<P, N>) => q.Gen?)
  }

  /** Weights of runs from a seed to a configuration with control state `p` and `n` on top of the stack. */
  ghost function ToTop<P(!new), N(!new), W(!new)>(sys: System<P, N, W>, p: P, n: N): W -> bool {
    w => exists below :: Reaches(sys, Seeds(sys), Config(p, [n] + below), w)
  }

  /** A path of the extraction is an accepting path. */
  lemma {:induction false} LeadsIsPath<P(!new), N(!new), W(!new)>(
    sys: System<P, N, W>, st: Contents<P, N, W>, q: Node<P, N>, path: seq<Trans<P, N>>)
    returns (word: seq<N>)
    requires sys.flavour.alg.Lawful() && Result(sys, st)
    requires FinalWeights.Leads(GraphOf(sys, st), q, path) && (path != [] ==> path[0].symbol.Sym?)
    ensures IsPath(st.weights, q, path, word) && (forall t :: t in path ==> t in st.weights)
    ensures path != [] ==> word != [] && path[0].symbol == Sym(word[0])
    ensures FinalWeights.Product(GraphOf(sys, st), q, path) == PathWeight(sys.flavour.alg, st.weights, path)
    decreases path
  {
    if path == [] {
      word := [];
    } else {
      ResultProper(sys, st);
      var rest := LeadsIsPath(sys, st, path[0].target, path[1..]);
      word := [path[0].symbol.n] + rest;
      assert word[1..] == rest;
    }
  }

  lemma {:induction false} PathLeads<P(!new), N(!new), W(!new)>(
    sys: System<P, N, W>, st: Contents<P, N, W>, q: Node<P, N>, path: seq<Trans<P, N>>, word: seq<N>)
    requires sys.flavour.alg.Lawful() && Result(sys, st) && IsPath(st.weights, q, path, word)
    ensures FinalWeights.Leads(GraphOf(sys, st), q, path) && (forall t :: t in path ==> t in st.weights)
    ensures FinalWeights.Product(GraphOf(sys, st), q, path) == PathWeight(sys.flavour.alg, st.weights, path)
    decreases path
  {
    if path != [] {
      ResultProper(sys, st);
      PathLeads(sys, st, path[0].target, path[1..], word[1..]);
    }
  }

  /** Every run to `<p, n ...>` is accounted for by the final weight of some transition `p -n->`. */
  lemma RunsHaveFinalWeights<P(!new), N(!new), W(!new)>(
    sys: System<P, N, W>, st: Contents<P, N, W>, final: map<Trans<P, N>, W>, p: P, n: N, w: W)
    requires sys.flavour.alg.Lawful() && Result(sys, st) && FinalWeights.PathSums(GraphOf(sys, st), final)
    requires ToTop(sys, p, n)(w)
    ensures exists q ::
      && Transition(Ctl(p), Sym(n), q) in final
      && sys.flavour.alg.Leq(w, final[Transition(Ctl(p), Sym(n), q)])
  {
    var g, alg := GraphOf(sys, st), sys.flavour.alg;
    var below :| Reaches(sys, Seeds(sys), Config(p, [n] + below), w);
    var c := Config(p, [n] + below);
    var path := WeightOfRunsIsKept(sys, st, c, w);
    PathLeads(sys, st, Ctl(p), path, c.stack);
    var t := path[0];
    var total := PathWeight(alg, st.weights, path);
    assert FinalWeights.Through(g, t)(total);
    assert FinalWeights.Worth(g, final, t, total);
    alg.LeqTransitive(w, total, final[t]);
    assert t == Transition(Ctl(p), Sym(n), t.target);
  }

  /** Every final weight of a transition `p -n->` is a finite combination of weights of runs to `<p, n ...>`. */
  lemma FinalWeightsAreRuns<P(!new), N(!new), W(!new)>(
    sys: System<P, N, W>, st: Contents<P, N, W>, final: map<Trans<P, N>, W>, t: Trans<P, N>)
    requires sys.flavour.alg.Lawful() && AllPaired(sys) && EmptyEpsilon.KeepsWeights(sys.flavour)
    requires Result(sys, st) && FinalWeights.PathSums(GraphOf(sys, st), final)
    requires t in final && t.start.Ctl? && t.symbol.Sym?
    ensures Spans(sys.flavour.alg, ToTop(sys, t.start.p, t.symbol.n), final[t])
  {
    var g, alg, out := GraphOf(sys, st), sys.flavour.alg, ToTop(sys, t.start.p, t.symbol.n);
    forall x | FinalWeights.Through(g, t)(x) ensures Spans(alg, out, x) {
      var path :|
        && path != [] && path[0] == t && FinalWeights.Leads(g, t.start, path)
        && FinalWeights.Product(g, t.start, path) == x;
      var word := LeadsIsPath(sys, st, t.start, path);
      var c := Config(t.start.p, word);
      EmptyEpsilon.ResultGenuine(sys, st);
      assert EmptyEpsilon.PathIsGenuine(sys, st.weights, c, path);
      assert word == [t.symbol.n] + word[1..];
      forall y | FromRuns(sys, Final, c)(y) ensures Spans(alg, out, y) {
        assert Reaches(sys, Seeds(sys), Config(t.start.p, [t.symbol.n] + word[1..]), y);
        SpansTerm(alg, out, y);
      }
      SpansOfSpans(alg, FromRuns(sys, Final, c), x, out);
    }
    SpansOfSpans(alg, FinalWeights.Through(g, t), final[t], out);
  }
}
