/** Where exactness ends: rules with an unpaired wildcard. */
module Limits {
  import opened Options
  import opened Semirings
  import opened Automata
  import opened Pushdown
  import opened PostStar
  import opened Exactness
  import Existence

  // ----- Unpaired wildcards: the rule also fires on epsilon edges -----

  /** Two control states and two symbols that `r` does not mention. */
  function Away<W>(r: Rule<int, int, W>): int {
    if r.p1 <= r.p2 then r.p2 + 1 else r.p1 + 1
  }

  function Unused<W>(r: Rule<int, int, W>): int {
    if r.Push? && r.callSite.Exact? then r.callSite.n + 1 else 0
  }

  /** `<a,0> -> <a+1,1 n> -> <p1,n>`, and then `r`. */
  function Around<W(!new,==)>(f: Flavour<int, W>, r: Rule<int, int, W>): System<int, int, W> {
    var a, one := Away(r), f.alg.one;
    System(f,
           {Push(a, Exact(0), a + 1, 1, Exact(Unused(r)), one), Pop(a + 1, 1, r.p1, one), r},
           {Seed(a, 0, one)})
  }

  /** The configuration that is accepted without being reachable. */
  function Spurious<W>(r: Rule<int, int, W>): Config<int, int>
    requires !Paired(r)
  {
    Config(r.p2, if r.Normal? then [r.l2.n, Unused(r)] else [r.entry, r.callSite.n, Unused(r)])
  }

  ghost predicate Around0<W(!new)>(r: Rule<int, int, W>, c: Config<int, int>)
    requires !Paired(r)
  {
    || c == Config(Away(r), [0])
    || c == Config(Away(r) + 1, [1, Unused(r)])
    || c == Config(r.p1, [Unused(r)])
    || (r.Normal? && c == Config(r.p2, [r.l2.n]))
    || (&& r.Push? && c.p == r.p2 && |c.stack| > 1 && c.stack[0] == r.entry
        && forall i :: 0 < i < |c.stack| ==> c.stack[i] == r.callSite.n)
  }

  lemma {:induction false} AroundRuns<W(!new)>(f: Flavour<int, W>, r: Rule<int, int, W>, run: Run<int, int, W>)
    requires f.accepts == Same() && !Paired(r) && IsRun(Around(f, r), Seeds(Around(f, r)), run)
    ensures Around0(r, Last(run))
  {
    if run.Then? {
      AroundRuns(f, r, run.prev);
    }
  }

  lemma SpuriousApart<W(!new)>(r: Rule<int, int, W>)
    requires !Paired(r)
    ensures !Around0(r, Spurious(r))
  {
    var c := Spurious(r);
    assert c.stack[|c.stack| - 1] == Unused(r) && |c.stack| > 1;
  }

  lemma SpuriousUnreachable<W(!new)>(f: Flavour<int, W>, r: Rule<int, int, W>)
    requires f.accepts == Same() && !Paired(r)
    ensures !Reachable(Around(f, r), Spurious(r))
  {
    if Reachable(Around(f, r), Spurious(r)) {
      var w :| Reaches(Around(f, r), Seeds(Around(f, r)), Spurious(r), w);
      var run :| IsRun(Around(f, r), Seeds(Around(f, r)), run) && Last(run) == Spurious(r) && Cost(f.alg, run) == w;
      AroundRuns(f, r, run);
      SpuriousApart(r);
    }
  }

  lemma AroundAccepts<W(!new)>(f: Flavour<int, W>, r: Rule<int, int, W>, m: map<Trans<int, int>, W>)
    requires f.alg.Lawful() && f.accepts == Same() && !Paired(r) && Saturated(Around(f, r), m)
    ensures Accepts(m, Spurious(r))
  {
    var sys, alg, a, n := Around(f, r), f.alg, Away(r), Unused(r);
    var one := alg.one;
    var seed := Seed(a, 0, one);
    assert seed in sys.seeds && Above(alg, m, SeedTransition(seed), one);
    assert Closed(sys.flavour, Push(a, Exact(0), a + 1, 1, Exact(n), one), m);
    assert PushLabel(Exact(0), Exact(n), Sym(0)) == Some(Sym(n));
    var q := Gen(a + 1, 1);
    var deep := Transition(q, Sym(n), Final);
    assert deep in m && Transition(Ctl(a + 1), Sym(1), q) in m;
    assert Closed(sys.flavour, Pop(a + 1, 1, r.p1, one), m);
    assert Popped(alg, m, r.p1, q, alg.extend(m[Transition(Ctl(a + 1), Sym(1), q)], one));
    var eps := Transition(Ctl(r.p1), Eps, q);
    assert eps in m && Closed(sys.flavour, r, m);
    var c := Spurious(r);
    if r.Normal? {
      assert NormalLabel(r.l1, r.l2, Eps) == Some(Sym(r.l2.n));
      var path := [Transition(Ctl(r.p2), Sym(r.l2.n), q), deep];
      assert path[1..] == [deep] && c.stack[1..] == [n] && [deep][1..] == [] && [n][1..] == [];
      assert IsPath(m, q, [deep], [n]);
      assert IsPath(m, Ctl(c.p), path, c.stack);
    } else {
      assert PushLabel(r.l1, r.callSite, Eps) == Some(Sym(r.callSite.n));
      var g := Gen(r.p2, r.entry);
      var site := Transition(g, Sym(r.callSite.n), q);
      var path := [Transition(Ctl(r.p2), Sym(r.entry), g), site, deep];
      assert path[1..] == [site, deep] && [site, deep][1..] == [deep] && [deep][1..] == [];
      assert c.stack[1..] == [r.callSite.n, n] && [r.callSite.n, n][1..] == [n] && [n][1..] == [];
      assert IsPath(m, q, [deep], [n]);
      assert IsPath(m, g, [site, deep], [r.callSite.n, n]);
      assert IsPath(m, Ctl(c.p), path, c.stack);
    }
  }

  /** Pairing is needed, rule by rule: every unpaired rule has a context of paired rules in which every
      result accepts an unreachable configuration. */
  lemma UnpairedAcceptsUnreachable<W(!new)>(f: Flavour<int, W>, r: Rule<int, int, W>, st: Contents<int, int, W>)
    requires f.alg.Lawful() && f.accepts == Same() && !Paired(r) && Result(Around(f, r), st)
    ensures forall r' :: r' in Around(f, r).rules && r' != r ==> Paired(r')
    ensures Accepts(st.weights, Spurious(r)) && !Reachable(Around(f, r), Spurious(r))
  {
    ResultSaturated(Around(f, r), st);
    AroundAccepts(f, r, st.weights);
    SpuriousUnreachable(f, r);
  }

  /** Whatever paired rules `r` is put with, the automaton accepts exactly what is reachable. */
  ghost predicate ExactInContext<W(!new)>(f: Flavour<int, W>, r: Rule<int, int, W>) {
    forall sys: System<int, int, W>, st | OtherwisePaired(f, sys, r) && Result(sys, st) :: IsExact(sys, st)
  }

  ghost predicate OtherwisePaired<W(!new)>(f: Flavour<int, W>, sys: System<int, int, W>, r: Rule<int, int, W>) {
    sys.flavour == f && forall r' :: r' in sys.rules && r' != r ==> Paired(r')
  }

  ghost predicate IsExact<W(!new)>(sys: System<int, int, W>, st: Contents<int, int, W>) {
    forall c: Config<int, int> | c.stack != [] :: Accepts(st.weights, c) <==> Reachable(sys, c)
  }

  /** For every lawful algebra and either kind of epsilon label: a rule is exact in every context of paired rules if
      and only if it is paired. */
  lemma PairedIff<W(!new)>(f: Flavour<int, W>, r: Rule<int, int, W>)
    requires f.alg.Lawful() && f.accepts == Same()
    ensures ExactInContext(f, r) <==> Paired(r)
  {
    if Paired(r) {
      forall sys: System<int, int, W>, st | OtherwisePaired(f, sys, r) && Result(sys, st)
        ensures IsExact(sys, st)
      {
        forall c: Config<int, int> | c.stack != []
          ensures Accepts(st.weights, c) <==> Reachable(sys, c)
        {
          AcceptsExactlyReachable(sys, st, c);
        }
      }
      assert ExactInContext(f, r);
    } else {
      var st := Existence.ResultExists(Around(f, r));
      UnpairedAcceptsUnreachable(f, r, st);
      assert Spurious(r).stack != [] && OtherwisePaired(f, Around(f, r), r);
      assert Result(Around(f, r), st) && !IsExact(Around(f, r), st);
      assert !ExactInContext(f, r);
    }
  }
}
