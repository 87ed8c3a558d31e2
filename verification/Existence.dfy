/** Every finite set of inputs has a resting state, found by one callback effect at a time. So results exist
    without reference to the engine, and statements about all results are not about nothing. */
module Existence {
  import opened Semirings
  import opened Automata
  import opened Pushdown
  import opened PostStar
  import WeightedPushdownSystems

  /** What an action brings about. */
  function Effect<S, N, W, L, E>(a: Action<S, N, W, L, E>): Fact<S, N, W, L, E> {
    match a
    case Update(t, w) => Weighted(t, w)
    case Register(l) => Listening(l)
    case Note(k, w) => Noted(k, w)
  }

  /** The state with one fact more. */
  ghost function With<S(!new), N(!new), W(!new), L(!new), E(!new)>(
    alg: Semiring<W>, st: State<S, N, W, L, E>, f: Fact<S, N, W, L, E>): State<S, N, W, L, E>
  {
    match f
    case Weighted(t, w) =>
      st.(weights := st.weights[t := if t in st.weights then alg.combine(st.weights[t], w) else w])
    case Listening(l) => st.(listeners := st.listeners + {l})
    case Noted(k, w) => st.(notes := st.notes[k := if k in st.notes then alg.combine(st.notes[k], w) else w])
  }

  lemma WithGrows<S(!new), N(!new), W(!new), L(!new), E(!new)>(
    s: Setup<S, N, W, L, E>, st: State<S, N, W, L, E>, f: Fact<S, N, W, L, E>)
    requires s.alg.Joins()
    ensures Grew(s, st, With(s.alg, st, f)) && Holds(s, f, With(s.alg, st, f))
  {
    var alg := s.alg;
    GrewPointwise(s, st, st);
    GrewPointwise(s, st, With(alg, st, f));
    match f
    case Weighted(t, w) =>
      alg.LeqReflexive(w);
      if t in st.weights {
        alg.LeqCombine(st.weights[t], w);
      }
    case Listening(_) =>
    case Noted(k, w) =>
      alg.LeqReflexive(w);
      if k in st.notes {
        alg.LeqCombine(st.notes[k], w);
      }
  }

  lemma WithBacked<S(!new), N(!new), W(!new), L(!new), E(!new)>(
    s: Setup<S, N, W, L, E>, inputs: set<Fact<S, N, W, L, E>>, st: State<S, N, W, L, E>, f: Fact<S, N, W, L, E>)
    requires Backed(g => Derivable(s, inputs, g), st) && Derivable(s, inputs, f)
    ensures Backed(g => Derivable(s, inputs, g), With(s.alg, st, f))
  {
    DerivableInductive(s, inputs);
    var derivable := g => Derivable(s, inputs, g);
    assert Inductive(s, inputs, derivable) && derivable(f);
    match f
    case Weighted(t, w) => assert t in st.weights ==> derivable(Weighted(t, st.weights[t]));
    case Listening(_) =>
    case Noted(k, w) => assert k in st.notes ==> derivable(Noted(k, st.notes[k]));
  }

  /** The fact is about a transition or a listener of the arena. */
  ghost predicate Inside<S(!new), N(!new), W(!new), L(!new), E(!new)>(arena: Arena<S, N, L>, f: Fact<S, N, W, L, E>) {
    match f
    case Weighted(t, _) => t in arena.transitions
    case Listening(l) => arena.leaf(l) || l in arena.inner
    case Noted(_, _) => true
  }

  /** A fact that is missing spends budget, unless it is a leaf listener or a note. */
  lemma WithSpends<S(!new), N(!new), W(!new), L(!new), E(!new)>(
    s: Setup<S, N, W, L, E>, arena: Arena<S, N, L>, st: State<S, N, W, L, E>, f: Fact<S, N, W, L, E>)
    requires s.alg.Joins() && Within(arena, st) && Inside(arena, f) && !Holds(s, f, st)
    ensures Within(arena, With(s.alg, st, f))
    ensures var left, left' := Remaining(s, arena, st), Remaining(s, arena, With(s.alg, st, f));
            match f
            case Weighted(_, _) => left'.Less(left)
            case Listening(l) =>
              left'.missing == left.missing && left'.rank == left.rank && left'.unregistered <= left.unregistered
              && (!arena.leaf(l) ==> left'.unregistered < left.unregistered)
            case Noted(_, _) => left' == left
  {
    match f
    case Weighted(t, w) =>
      if t in st.weights {
        s.alg.LeqCombine(st.weights[t], w);
      }
      RaiseSpends(s, arena, st, t, if t in st.weights then s.alg.combine(st.weights[t], w) else w);
    case Listening(l) => WithoutOne(arena.inner, st.listeners, l);
    case Noted(_, _) =>
  }

  // ----- What is left to do when the budget does not change -----

  datatype Job<S, N, L> = Job(l: L, event: Event, t: Transition<S, N>, i: nat)

  ghost predicate IsOpen<S(!new), N(!new), W(!new), L(!new), E(!new)>(
    s: Setup<S, N, W, L, E>, st: State<S, N, W, L, E>, j: Job<S, N, L>)
  {
    && j.l in st.listeners && j.t in st.weights && Attached(s, j.l, j.event, j.t)
    && j.i < |s.react(j.l, j.event, j.t, st.weights[j.t])|
    && !Done(s, s.react(j.l, j.event, j.t, st.weights[j.t])[j.i], st)
  }

  /** Actions of leaf listeners, or of the others, that are not done. */
  ghost function Open<S(!new), N(!new), W(!new), L(!new), E(!new)>(
    s: Setup<S, N, W, L, E>, arena: Arena<S, N, L>, leaf: bool, st: State<S, N, W, L, E>): set<Job<S, N, L>>
  {
    set l, e, t, i: nat |
      && l in st.listeners && t in st.weights && e in {Added, Out, In}
      && i < |s.react(l, e, t, st.weights[t])|
      && arena.leaf(l) == leaf && IsOpen(s, st, Job(l, e, t, i))
      :: Job(l, e, t, i)
  }

  lemma OpenOf<S(!new), N(!new), W(!new), L(!new), E(!new)>(
    s: Setup<S, N, W, L, E>, arena: Arena<S, N, L>, st: State<S, N, W, L, E>, j: Job<S, N, L>)
    ensures j in Open(s, arena, arena.leaf(j.l), st) <==> IsOpen(s, st, j)
  {
    assert j.event.Added? || j.event.Out? || j.event.In?;
    assert j == Job(j.l, j.event, j.t, j.i) && j.event in {Added, Out, In};
  }

  ghost function Unmet<S(!new), N(!new), W(!new), L(!new), E(!new)>(
    s: Setup<S, N, W, L, E>, inputs: set<Fact<S, N, W, L, E>>, st: State<S, N, W, L, E>): set<Fact<S, N, W, L, E>>
  {
    set f | f in inputs && !Holds(s, f, st)
  }

  lemma Fewer<T>(some: set<T>, fewer: set<T>)
    requires fewer <= some
    ensures |fewer| <= |some| && (fewer != some ==> |fewer| < |some|)
  {
    assert some == fewer + (some - fewer);
  }

  /** Without a new weight, what is done stays done: only a new listener of that kind can open a job. */
  lemma OpenShrinks<S(!new), N(!new), W(!new), L(!new), E(!new)>(
    s: Setup<S, N, W, L, E>, arena: Arena<S, N, L>, leaf: bool, st: State<S, N, W, L, E>, st': State<S, N, W, L, E>)
    requires Grew(s, st, st') && st'.weights == st.weights
    requires forall l :: l in st'.listeners && l !in st.listeners ==> arena.leaf(l) != leaf
    ensures Open(s, arena, leaf, st') <= Open(s, arena, leaf, st)
  {
    forall j | j in Open(s, arena, leaf, st')
      ensures j in Open(s, arena, leaf, st)
    {
      OpenOf(s, arena, st', j);
      var a := s.react(j.l, j.event, j.t, st.weights[j.t])[j.i];
      if Done(s, a, st) {
        DoneGrows(s, a, st, st');
      }
      OpenOf(s, arena, st, j);
    }
  }

  lemma UnmetShrinks<S(!new), N(!new), W(!new), L(!new), E(!new)>(
    s: Setup<S, N, W, L, E>, inputs: set<Fact<S, N, W, L, E>>, st: State<S, N, W, L, E>, f: Fact<S, N, W, L, E>)
    requires s.alg.Joins()
    ensures var less := Unmet(s, inputs, With(s.alg, st, f));
            && |less| <= |Unmet(s, inputs, st)|
            && (f in inputs && !Holds(s, f, st) ==> |less| < |Unmet(s, inputs, st)|)
  {
    WithGrows(s, st, f);
    var some, less := Unmet(s, inputs, st), Unmet(s, inputs, With(s.alg, st, f));
    Fewer(some, less);
    assert f in inputs && !Holds(s, f, st) ==> f in some && f !in less;
  }

  /** Performing an open job: either budget is spent, or one job of its kind is done. */
  lemma JobShrinks<S(!new), N(!new), W(!new), L(!new), E(!new)>(
    s: Setup<S, N, W, L, E>, arena: Arena<S, N, L>, st: State<S, N, W, L, E>, j: Job<S, N, L>)
    requires s.alg.Joins() && Confined(s, arena) && Within(arena, st) && IsOpen(s, st, j)
    ensures var f := Effect(s.react(j.l, j.event, j.t, st.weights[j.t])[j.i]);
            && Inside(arena, f) && !Holds(s, f, st)
            && (f.Noted? || (f.Listening? && arena.leaf(f.l)) ==>
                  var st' := With(s.alg, st, f);
                  if arena.leaf(j.l)
                  then |Open(s, arena, false, st')| <= |Open(s, arena, false, st)|
                       && |Open(s, arena, true, st')| < |Open(s, arena, true, st)|
                  else |Open(s, arena, false, st')| < |Open(s, arena, false, st)|)
  {
    var a := s.react(j.l, j.event, j.t, st.weights[j.t])[j.i];
    assert Stays(s, arena, arena.leaf(j.l), a);
    var f := Effect(a);
    var st' := With(s.alg, st, f);
    if f.Noted? || (f.Listening? && arena.leaf(f.l)) {
      WithGrows(s, st, f);
      OpenShrinks(s, arena, false, st, st');
      Fewer(Open(s, arena, false, st), Open(s, arena, false, st'));
      if arena.leaf(j.l) {
        OpenShrinks(s, arena, true, st, st');
        Fewer(Open(s, arena, true, st), Open(s, arena, true, st'));
      }
      OpenOf(s, arena, st, j);
      OpenOf(s, arena, st', j);
    }
  }

  lemma {:induction false} Rests<S(!new), N(!new), W(!new), L(!new), E(!new)>(
    s: Setup<S, N, W, L, E>, arena: Arena<S, N, L>, inputs: set<Fact<S, N, W, L, E>>, st: State<S, N, W, L, E>)
    returns (rest: State<S, N, W, L, E>)
    requires s.alg.Joins() && Confined(s, arena) && Within(arena, st) && forall f :: f in inputs ==> Inside(arena, f)
    requires Backed(f => Derivable(s, inputs, f), st)
    ensures Quiescent(s, inputs, rest)
    decreases Remaining(s, arena, st).missing, Remaining(s, arena, st).rank, Remaining(s, arena, st).unregistered,
              |Unmet(s, inputs, st)|, |Open(s, arena, false, st)|, |Open(s, arena, true, st)|
  {
    DerivableInductive(s, inputs);
    if f :| f in inputs && !Holds(s, f, st) {
      WithSpends(s, arena, st, f);
      WithBacked(s, inputs, st, f);
      UnmetShrinks(s, inputs, st, f);
      rest := Rests(s, arena, inputs, With(s.alg, st, f));
    } else if j :| IsOpen(s, st, j) {
      var f := Effect(s.react(j.l, j.event, j.t, st.weights[j.t])[j.i]);
      JobShrinks(s, arena, st, j);
      WithSpends(s, arena, st, f);
      OpenIsDerivable(s, inputs, st, j);
      WithBacked(s, inputs, st, f);
      UnmetShrinks(s, inputs, st, f);
      rest := Rests(s, arena, inputs, With(s.alg, st, f));
    } else {
      rest := st;
      forall l, e, t | l in st.listeners && t in st.weights && Attached(s, l, e, t)
        ensures Completed(s, Delivery(l, e, t, st.weights[t]), st)
      {
        forall i | 0 <= i < |s.react(l, e, t, st.weights[t])|
          ensures Done(s, s.react(l, e, t, st.weights[t])[i], st)
        {
          assert !IsOpen(s, st, Job(l, e, t, i));
        }
      }
    }
  }

  lemma OpenIsDerivable<S(!new), N(!new), W(!new), L(!new), E(!new)>(
    s: Setup<S, N, W, L, E>, inputs: set<Fact<S, N, W, L, E>>, st: State<S, N, W, L, E>, j: Job<S, N, L>)
    requires Backed(f => Derivable(s, inputs, f), st) && IsOpen(s, st, j)
    ensures Derivable(s, inputs, Effect(s.react(j.l, j.event, j.t, st.weights[j.t])[j.i]))
  {
    DerivableInductive(s, inputs);
    var derivable := f => Derivable(s, inputs, f);
    assert Inductive(s, inputs, derivable) && derivable(Listening(j.l)) && derivable(Weighted(j.t, st.weights[j.t]));
    assert Yields(s, s.react(j.l, j.event, j.t, st.weights[j.t])[j.i], derivable);
  }

  lemma QuiescentExists<S(!new), N(!new), W(!new), L(!new), E(!new)>(
    s: Setup<S, N, W, L, E>, arena: Arena<S, N, L>, inputs: set<Fact<S, N, W, L, E>>) returns (st: State<S, N, W, L, E>)
    requires s.alg.Joins() && Confined(s, arena) && forall f :: f in inputs ==> Inside(arena, f)
    ensures Quiescent(s, inputs, st)
  {
    st := Rests(s, arena, inputs, State(map[], {}, map[]));
  }

  /** Every finite pushdown system has a post* result. */
  lemma ResultExists<P(!new), N(!new), W(!new)>(sys: System<P, N, W>) returns (st: Contents<P, N, W>)
    requires sys.flavour.alg.Joins()
    ensures Result(sys, st)
  {
    var arena := WeightedPushdownSystems.ArenaOf(sys);
    WeightedPushdownSystems.ArenaConfines(sys);
    forall f | f in InputsOf(sys)
      ensures Inside(arena, f)
    {
      if f.Weighted? {
        var seed :| seed in sys.seeds && f == Weighted(SeedTransition(seed), seed.w);
        WeightedPushdownSystems.SeedInArena(sys, seed);
      } else {
        var r :| r in sys.rules && f == Listening(HandlerOf(r));
        WeightedPushdownSystems.HandlerInArena(sys, r);
      }
    }
    st := QuiescentExists(SetupOf(sys.flavour), arena, InputsOf(sys));
  }
}
