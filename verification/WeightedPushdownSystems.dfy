/** Rules, seeds and `poststar` in any order: after every call the automaton is the result of post*
    for the rules and seeds seen so far. */
module WeightedPushdownSystems {
  import opened Semirings
  import opened Automata
  import opened Pushdown
  import opened PostStar
  import LeastFixpoint

  // ----- Saturation stays within finitely many states, labels and listeners -----

  ghost function Nodes<P(!new), N(!new), W(!new)>(sys: System<P, N, W>): set<Node<P, N>> {
    (set s | s in sys.seeds :: Ctl(s.p))
    + (set r | r in sys.rules :: Ctl(r.p1))
    + (set r | r in sys.rules :: Ctl(r.p2))
    + (set r | r in sys.rules && r.Push? :: Gen(r.p2, r.entry))
    + {Final}
  }

  ghost function Symbols<P(!new), N(!new), W(!new)>(sys: System<P, N, W>): set<Label<N>> {
    (set n | n in LeastFixpoint.Labels(sys) :: Sym(n)) + {Eps}
  }

  ghost function ArenaOf<P(!new), N(!new), W(!new)>(
    sys: System<P, N, W>): Arena<Node<P, N>, Label<N>, Handler<P, N, W>>
  {
    var nodes := Nodes(sys);
    Arena(
      set a, l, b | a in nodes && l in Symbols(sys) && b in nodes :: Transition(a, l, b),
      (set r | r in sys.rules && r.Normal? :: Normally(r))
      + (set r | r in sys.rules && r.Push? :: Pushing(r))
      + (set q, r | q in nodes && r in sys.rules && r.Pop? :: Popping(q, r.top, r.p2, r.w)),
      (h: Handler<P, N, W>) => h.Transitively? && Ctl(h.p2) in nodes)
  }

  lemma InArena<P(!new), N(!new), W(!new)>(sys: System<P, N, W>, t: Trans<P, N>)
    ensures t in ArenaOf(sys).transitions <==>
            t.start in Nodes(sys) && t.symbol in Symbols(sys) && t.target in Nodes(sys)
  {
    assert t == Transition(t.start, t.symbol, t.target);
  }

  lemma ArenaConfines<P(!new), N(!new), W(!new)>(sys: System<P, N, W>)
    ensures Confined(SetupOf(sys.flavour), ArenaOf(sys))
  {
    var s, arena := SetupOf<P, N, W>(sys.flavour), ArenaOf(sys);
    forall h, e, t, w, i | (arena.leaf(h) || h in arena.inner) && t in arena.transitions && Attached(s, h, e, t)
      && 0 <= i < |s.react(h, e, t, w)|
      ensures Stays(s, arena, arena.leaf(h), s.react(h, e, t, w)[i])
    {
      InArena(sys, t);
      var a := s.react(h, e, t, w)[i];
      if a.Update? {
        InArena(sys, a.t);
        UpdateStays(sys, h, t, w, i);
      }
    }
  }

  lemma UpdateStays<P(!new), N(!new), W(!new)>(sys: System<P, N, W>, h: Handler<P, N, W>, t: Trans<P, N>, w: W, i: nat)
    requires ArenaOf(sys).leaf(h) || h in ArenaOf(sys).inner
    requires t.symbol in Symbols(sys) && t.target in Nodes(sys)
    requires i < |React(sys.flavour, h, Out, t, w)| && React(sys.flavour, h, Out, t, w)[i].Update?
    ensures var u := React(sys.flavour, h, Out, t, w)[i].t;
            u.start in Nodes(sys) && u.symbol in Symbols(sys) && u.target in Nodes(sys)
  {
    var labels := LeastFixpoint.Labels(sys);
    match h
    case Normally(r) => assert r.l2.Exact? ==> r.l2.n in labels;
    case Pushing(r) =>
      assert r.callSite.Exact? ==> r.callSite.n in labels;
      assert r.entry in labels && Gen(r.p2, r.entry) in Nodes(sys);
    case Popping(_, _, _, _) =>
    case Transitively(_, _, _, _) =>
  }

  /** More rules or more seeds make the arena larger. */
  lemma ArenaGrows<P(!new), N(!new), W(!new)>(sys: System<P, N, W>, more: System<P, N, W>, st: Contents<P, N, W>)
    requires sys.rules <= more.rules && sys.seeds <= more.seeds && Within(ArenaOf(sys), st)
    ensures Within(ArenaOf(more), st)
  {
    assert LeastFixpoint.Labels(sys) <= LeastFixpoint.Labels(more);
    assert Nodes(sys) <= Nodes(more) && Symbols(sys) <= Symbols(more);
    forall t | t in st.weights ensures t in ArenaOf(more).transitions {
      InArena(sys, t);
      InArena(more, t);
    }
  }

  class WeightedPushdownSystem<P(!new,==), N(!new,==), W(!new,==)> {
    const flavour: Flavour<N, W>
    var normalRules: set<Rule<P, N, W>>
    var popRules: set<Rule<P, N, W>>
    var pushRules: set<Rule<P, N, W>>
    /** Whether the listener of `poststar` is registered. */
    var started: bool
    const automaton: WeightedPAutomaton<Node<P, N>, Label<N>, W, Handler<P, N, W>, Unbalanced<P, N>>
    ghost var seeds: set<Seed<P, N, W>>
    /** The rules the automaton has been told about. */
    ghost var told: set<Rule<P, N, W>>

    function GetAllRules(): set<Rule<P, N, W>>
      reads `normalRules, `popRules, `pushRules
    {
      normalRules + popRules + pushRules
    }

    /** Each set holds one kind of rule. */
    ghost predicate Sorted()
      reads `normalRules, `popRules, `pushRules
    {
      && (forall r :: r in normalRules ==> r.Normal?)
      && (forall r :: r in popRules ==> r.Pop?)
      && (forall r :: r in pushRules ==> r.Push?)
    }

    ghost function Told(): System<P, N, W>
      reads `told, `seeds
    {
      System(flavour, told, seeds)
    }

    ghost predicate Consistent()
      reads this, automaton
    {
      && flavour.alg.Joins()
      && automaton.setup == SetupOf(flavour)
      && automaton.Resting(ArenaOf(Told()))
      && automaton.inputs == InputsOf(Told())
      && Sorted()
      && told <= GetAllRules()
    }

    ghost predicate Valid()
      reads this, automaton
    {
      Consistent() && told == if started then GetAllRules() else {}
    }

    constructor (flavour: Flavour<N, W>)
      requires flavour.alg.Joins()
      ensures Valid() && !started && GetAllRules() == {} && seeds == {} && this.flavour == flavour && fresh(automaton)
    {
      this.flavour := flavour;
      normalRules, popRules, pushRules, started := {}, {}, {}, false;
      seeds, told := {}, {};
      automaton := new WeightedPAutomaton(SetupOf(flavour));
      new;
      ArenaConfines(Told());
      automaton.Open(ArenaOf(Told()));
      assert InputsOf(Told()) == {};
    }

    /** `addRuleInternal` */
    method AddRuleInternal(r: Rule<P, N, W>) returns (isNew: bool)
      requires Consistent()
      modifies this`normalRules, this`popRules, this`pushRules
      ensures Consistent() && GetAllRules() == old(GetAllRules()) + {r}
      ensures isNew == (r !in old(GetAllRules()))
    {
      match r {
        case Push(_, _, _, _, _, _) =>
          isNew := r !in pushRules;
          pushRules := pushRules + {r};
        case Pop(_, _, _, _) =>
          isNew := r !in popRules;
          popRules := popRules + {r};
        case Normal(_, _, _, _, _) =>
          isNew := r !in normalRules;
          normalRules := normalRules + {r};
      }
    }

    /** `addRule` */
    method AddRule(r: Rule<P, N, W>) returns (isNew: bool)
      requires Valid()
      modifies this, automaton
      ensures Valid() && started == old(started) && seeds == old(seeds)
      ensures GetAllRules() == old(GetAllRules()) + {r} && isNew == (r !in old(GetAllRules()))
    {
      isNew := AddRuleInternal(r);
      if isNew && started {
        OnRuleAdded(r);
      }
    }

    /** The arena of a larger system is one the automaton may go on in. */
    lemma Prepared(more: System<P, N, W>)
      requires Consistent() && more.flavour == flavour && told <= more.rules && seeds <= more.seeds
      ensures Confined(automaton.setup, ArenaOf(more)) && Automata.Within(ArenaOf(more), automaton.Now())
    {
      automaton.RestingIsWithin(ArenaOf(Told()));
      ArenaGrows(Told(), more, automaton.Now());
      ArenaConfines(more);
    }

    lemma RuleReady(r: Rule<P, N, W>)
      requires Consistent()
      ensures var more := System(flavour, told + {r}, seeds);
              && Confined(automaton.setup, ArenaOf(more)) && Automata.Within(ArenaOf(more), automaton.Now())
              && HandlerOf(r) in ArenaOf(more).inner
              && InputsOf(more) == automaton.inputs + {Listening(HandlerOf(r))}
    {
      var more := System(flavour, told + {r}, seeds);
      Prepared(more);
      HandlerInArena(more, r);
      assert InputsOf(more) == InputsOf(Told()) + {Listening(HandlerOf(r))};
    }

    /** `onRuleAdded` of the listener that `poststar` registers. */
    method OnRuleAdded(r: Rule<P, N, W>)
      requires Consistent() && r in GetAllRules()
      modifies this`told, automaton
      ensures Consistent() && told == old(told) + {r}
    {
      var arena := ArenaOf(Told());
      var more := System(flavour, told + {r}, seeds);
      RuleReady(r);
      automaton.Subscribe(HandlerOf(r), arena, ArenaOf(more));
      told := told + {r};
      assert Told() == more;
    }

    /** `poststar`: register the listener; the rules that are already there are replayed, in any order. */
    method PostStar()
      requires Valid()
      modifies this, automaton
      ensures Valid() && started && GetAllRules() == old(GetAllRules()) && seeds == old(seeds)
    {
      if started {
        return;
      }
      started := true;
      var todo := GetAllRules();
      while todo != {}
        invariant Consistent() && started && GetAllRules() == old(GetAllRules()) && seeds == old(seeds)
        invariant todo + told == GetAllRules()
        decreases todo
      {
        var r :| r in todo;
        OnRuleAdded(r);
        todo := todo - {r};
      }
    }

    lemma SeedReady(seed: Seed<P, N, W>)
      requires Consistent()
      ensures var more := System(flavour, told, seeds + {seed});
              && Confined(automaton.setup, ArenaOf(more)) && Automata.Within(ArenaOf(more), automaton.Now())
              && SeedTransition(seed) in ArenaOf(more).transitions && !Rejected(automaton.setup, SeedTransition(seed))
              && InputsOf(more) == automaton.inputs + {Weighted(SeedTransition(seed), seed.w)}
    {
      var more := System(flavour, told, seeds + {seed});
      Prepared(more);
      SeedInArena(more, seed);
      SeedIsInput(Told(), seed);
    }

    /** Add the transition of a seed configuration to the automaton. */
    method AddSeed(p: P, n: N, w: W)
      requires Valid()
      modifies this`seeds, automaton
      ensures Valid() && seeds == old(seeds) + {Seed(p, n, w)}
    {
      OnSeedAdded(Seed(p, n, w));
    }

    method OnSeedAdded(seed: Seed<P, N, W>)
      requires Consistent()
      modifies this`seeds, automaton
      ensures Consistent() && seeds == old(seeds) + {seed}
    {
      var arena := ArenaOf(Told());
      var more := System(flavour, told, seeds + {seed});
      SeedReady(seed);
      var _ := automaton.Supply(SeedTransition(seed), seed.w, arena, ArenaOf(more));
      seeds := seeds + {seed};
      assert Told() == more;
    }

    /** Between calls the automaton is the result of post* for the rules and seeds so far. */
    lemma IsResult()
      requires Valid() && started
      ensures Result(System(flavour, GetAllRules(), seeds), automaton.Now())
      ensures automaton.Indexed()
    {
      automaton.RestingIsQuiescent(ArenaOf(Told()));
    }
  }

  lemma SeedInArena<P(!new), N(!new), W(!new)>(sys: System<P, N, W>, s: Seed<P, N, W>)
    requires s in sys.seeds
    ensures SeedTransition(s) in ArenaOf(sys).transitions && !Rejected(SetupOf<P, N, W>(sys.flavour), SeedTransition(s))
  {
    assert s.n in LeastFixpoint.Labels(sys);
    InArena(sys, SeedTransition(s));
  }

  lemma SeedIsInput<P(!new), N(!new), W(!new)>(sys: System<P, N, W>, s: Seed<P, N, W>)
    ensures InputsOf(sys.(seeds := sys.seeds + {s})) == InputsOf(sys) + {Weighted(SeedTransition(s), s.w)}
  {
  }

  lemma HandlerInArena<P(!new), N(!new), W(!new)>(sys: System<P, N, W>, r: Rule<P, N, W>)
    requires r in sys.rules
    ensures HandlerOf(r) in ArenaOf(sys).inner
  {
    if r.Pop? {
      assert Ctl(r.p1) in Nodes(sys);
    }
  }
}
