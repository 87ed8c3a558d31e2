/** The listeners of `PostStar`, as reactions to transitions, and the saturated automata they aim at. */
module PostStar {
  import opened Options
  import opened Semirings
  import opened Automata
  import opened Pushdown

  datatype Label<N> = Eps | Sym(n: N)

  /** Control states, the states `createState(d, loc)`, and the initial state of the automaton. */
  datatype Node<P, N> = Ctl(p: P) | Gen(p: P, n: N) | Final

  type Trans<P, N> = Transition<Node<P, N>, Label<N>>

  /** `Normally`, `Pushing`, `Popping` and `Transitively` are HandleNormalListener, HandlePushListener,
      HandlePopListener and UpdateTransitivePopListener. */
  datatype Handler<P, N, W> =
    | Normally(rule: Rule<P, N, W>)
    | Pushing(rule: Rule<P, N, W>)
    | Popping(state: Node<P, N>, top: N, p2: P, w: W)
    | Transitively(p2: P, symbol: Label<N>, state: Node<P, N>, w: W)

  /** Key of an entry of `unbalancedPops`. */
  datatype Unbalanced<P, N> = Unbalanced(p2: P, t: Trans<P, N>)

  type Act<P, N, W> = Action<Node<P, N>, Label<N>, W, Handler<P, N, W>, Unbalanced<P, N>>
  type Knowledge<P, N, W> = Fact<Node<P, N>, Label<N>, W, Handler<P, N, W>, Unbalanced<P, N>>
  type Contents<P(==), N(==), W(==)> = State<Node<P, N>, Label<N>, W, Handler<P, N, W>, Unbalanced<P, N>>

  function Observed<P, N, W>(h: Handler<P, N, W>): Node<P, N> {
    match h
    case Normally(r) => Ctl(r.p1)
    case Pushing(r) => Ctl(r.p1)
    case Popping(q, _, _, _) => q
    case Transitively(_, _, q, _) => q
  }

  /** `t.getLabel().equals(rule.getL1()) || rule.getL1() instanceof Wildcard` */
  predicate LeftMatches<N(==)>(l1: Pattern<N>, symbol: Label<N>) {
    l1.Exact? ==> symbol == Sym(l1.n)
  }

  /** The label of the transition a normal rule adds, if any. */
  function NormalLabel<N(==)>(l1: Pattern<N>, l2: Pattern<N>, symbol: Label<N>): Option<Label<N>> {
    if !LeftMatches(l1, symbol) then None
    else
      match l2
      case Exact(m) => Some(Sym(m))
      case Any => if symbol == Eps then None else Some(symbol)
      case AnyBut(m) => if symbol == Sym(m) || symbol == Eps then None else Some(symbol)
  }

  /** The label of the call-site transition a push rule adds, if any. */
  function PushLabel<N(==)>(l1: Pattern<N>, callSite: Pattern<N>, symbol: Label<N>): Option<Label<N>> {
    if !LeftMatches(l1, symbol) then None
    else
      match callSite
      case Exact(m) => Some(Sym(m))
      case _ => if symbol == Eps then None else Some(symbol)
  }

  /** `t.getLabel().accepts(popLabel) || popLabel.accepts(t.getLabel())` */
  predicate PopMatches<N(!new), W(!new)>(f: Flavour<N, W>, symbol: Label<N>, top: N) {
    symbol.Sym? && (f.accepts(symbol.n, top) || f.accepts(top, symbol.n))
  }

  /** The bodies of the four `onOutTransitionAdded`. */
  function React<P(!new), N(!new,==), W(!new)>(
    f: Flavour<N, W>, h: Handler<P, N, W>, event: Event, t: Trans<P, N>, w: W): seq<Act<P, N, W>>
  {
    if event != Out then []
    else
      match h
      case Normally(r) =>
        if !r.Normal? then []
        else
          (match NormalLabel(r.l1, r.l2, t.symbol)
           case None => []
           case Some(l) => [Update(Transition(Ctl(r.p2), l, t.target), f.alg.extend(w, r.w))])
      case Pushing(r) =>
        if !r.Push? then []
        else
          (match PushLabel(r.l1, r.callSite, t.symbol)
           case None => []
           case Some(l) =>
             [Update(Transition(Gen(r.p2, r.entry), l, t.target), f.alg.extend(w, r.w)),
              Update(Transition(Ctl(r.p2), Sym(r.entry), Gen(r.p2, r.entry)), f.alg.one)])
      case Popping(_, top, p2, rw) =>
        (if !PopMatches(f, t.symbol, top) then []
         else if t.target.Gen? then
           [Update(Transition(Ctl(p2), Eps, t.target), f.alg.extend(w, rw)),
            Register(Transitively(p2, t.symbol, t.target, f.alg.extend(w, rw)))]
         else if t.target.Final? then [Note(Unbalanced(p2, t), w)]
         else [])
        + (if f.emptyEpsilon && t.symbol == Eps then [Register(Popping(t.target, top, p2, rw))] else [])
      case Transitively(p2, _, _, v) =>
        [Update(Transition(Ctl(p2), t.symbol, t.target), f.alg.extend(w, v))]
  }

  function SetupOf<P(!new), N(!new,==), W(!new)>(
    f: Flavour<N, W>): Setup<Node<P, N>, Label<N>, W, Handler<P, N, W>, Unbalanced<P, N>>
  {
    Setup(f.alg, Eps, h => At(Observed(h)), (h, e, t, w) => React(f, h, e, t, w))
  }

  /** `onRuleAdded` */
  function HandlerOf<P, N, W>(r: Rule<P, N, W>): Handler<P, N, W> {
    match r
    case Normal(_, _, _, _, _) => Normally(r)
    case Push(_, _, _, _, _, _) => Pushing(r)
    case Pop(p1, top, p2, w) => Popping(Ctl(p1), top, p2, w)
  }

  function SeedTransition<P, N, W>(s: Seed<P, N, W>): Trans<P, N> {
    Transition(Ctl(s.p), Sym(s.n), Final)
  }

  ghost function InputsOf<P(!new), N(!new), W(!new)>(sys: System<P, N, W>): set<Knowledge<P, N, W>> {
    (set s | s in sys.seeds :: Weighted(SeedTransition(s), s.w)) + (set r | r in sys.rules :: Listening(HandlerOf(r)))
  }

  // ----- Saturation, without listeners -----

  /** `t` is present with a weight that accounts for `w`. */
  ghost predicate Above<P(!new), N(!new), W(!new)>(alg: Semiring<W>, m: map<Trans<P, N>, W>, t: Trans<P, N>, w: W) {
    t in m && alg.Leq(w, m[t])
  }

  /** A pop to `p2` of a transition into `q` that brings weight `v`, and all that it exposes. */
  ghost predicate Popped<P(!new), N(!new), W(!new)>(
    alg: Semiring<W>, m: map<Trans<P, N>, W>, p2: P, q: Node<P, N>, v: W)
  {
    && Above(alg, m, Transition(Ctl(p2), Eps, q), v)
    && forall u :: u in m && u.start == q ==>
       Above(alg, m, Transition(Ctl(p2), u.symbol, u.target), alg.extend(m[u], v))
  }

  ghost predicate PopsFrom<P(!new), N(!new), W(!new)>(
    f: Flavour<N, W>, m: map<Trans<P, N>, W>, q: Node<P, N>, top: N, p2: P, w: W)
  {
    forall t :: t in m && t.start == q && PopMatches(f, t.symbol, top) && t.target.Gen?
      ==> Popped(f.alg, m, p2, t.target, f.alg.extend(m[t], w))
  }

  ghost predicate Closed<P(!new), N(!new), W(!new)>(f: Flavour<N, W>, r: Rule<P, N, W>, m: map<Trans<P, N>, W>) {
    match r
    case Normal(p1, l1, p2, l2, w) =>
      forall t :: t in m && t.start == Ctl(p1) && NormalLabel(l1, l2, t.symbol).Some?
        ==> Above(f.alg, m, Transition(Ctl(p2), NormalLabel(l1, l2, t.symbol).value, t.target), f.alg.extend(m[t], w))
    case Push(p1, l1, p2, entry, callSite, w) =>
      forall t :: t in m && t.start == Ctl(p1) && PushLabel(l1, callSite, t.symbol).Some?
        ==> && Above(f.alg, m, Transition(Gen(p2, entry), PushLabel(l1, callSite, t.symbol).value, t.target),
          f.alg.extend(m[t], w))
            && Above(f.alg, m, Transition(Ctl(p2), Sym(entry), Gen(p2, entry)), f.alg.one)
    case Pop(p1, top, p2, w) =>
      && PopsFrom(f, m, Ctl(p1), top, p2, w)
      && (f.emptyEpsilon ==> forall t :: t in m && t.start == Ctl(p1) && t.symbol == Eps ==>
         PopsFrom(f, m, t.target, top, p2, w))
  }

  ghost predicate Saturated<P(!new), N(!new), W(!new)>(sys: System<P, N, W>, m: map<Trans<P, N>, W>) {
    && (forall s :: s in sys.seeds ==> Above(sys.flavour.alg, m, SeedTransition(s), s.w))
    && (forall r :: r in sys.rules ==> Closed(sys.flavour, r, m))
  }

  /** The result of post*: what the automaton holds when no call is in progress. */
  ghost predicate Result<P(!new), N(!new), W(!new)>(sys: System<P, N, W>, st: Contents<P, N, W>) {
    Quiescent(SetupOf(sys.flavour), InputsOf(sys), st)
  }

  lemma Reacted<P(!new), N(!new), W(!new)>(
    sys: System<P, N, W>, st: Contents<P, N, W>, h: Handler<P, N, W>, t: Trans<P, N>, i: nat)
    requires Result(sys, st) && h in st.listeners && t in st.weights && t.start == Observed(h)
    requires i < |React(sys.flavour, h, Out, t, st.weights[t])|
    ensures Done(SetupOf(sys.flavour), React(sys.flavour, h, Out, t, st.weights[t])[i], st)
  {
    var s := SetupOf<P, N, W>(sys.flavour);
    assert Attached(s, h, Out, t);
    assert Completed(s, Delivery(h, Out, t, st.weights[t]), st);
  }

  ghost predicate Proper<P(!new), N(!new)>(t: Trans<P, N>) {
    !t.start.Final? && !t.target.Ctl? && (t.symbol == Eps ==> t.start.Ctl? && t.target.Gen?)
  }

  ghost predicate ProperFact<P(!new), N(!new), W(!new)>(f: Knowledge<P, N, W>) {
    match f
    case Weighted(t, _) => Proper(t)
    case Listening(Transitively(_, _, q, _)) => q.Gen?
    case Listening(_) => true
    case Noted(k, _) => Proper(k.t)
  }

  /** Epsilon edges lead from control states to generated states, and only control states have them. */
  lemma DerivedProper<P(!new), N(!new), W(!new)>(sys: System<P, N, W>, f: Knowledge<P, N, W>)
    requires Derivable(SetupOf(sys.flavour), InputsOf(sys), f)
    ensures ProperFact(f)
  {
    var s := SetupOf<P, N, W>(sys.flavour);
    var proper := (f: Knowledge<P, N, W>) => ProperFact(f);
    forall l, e, t, w, i | proper(Listening(l)) && proper(Weighted(t, w)) && Attached(s, l, e, t)
      && 0 <= i < |s.react(l, e, t, w)|
      ensures Yields(s, s.react(l, e, t, w)[i], proper)
    {
    }
    assert Inductive(s, InputsOf(sys), proper);
  }

  lemma ResultProper<P(!new), N(!new), W(!new)>(sys: System<P, N, W>, st: Contents<P, N, W>)
    requires Result(sys, st)
    ensures forall t :: t in st.weights ==> Proper(t)
  {
    forall t | t in st.weights ensures Proper(t) {
      DerivedProper(sys, Weighted(t, st.weights[t]));
    }
  }

  lemma NormalClosed<P(!new), N(!new), W(!new)>(sys: System<P, N, W>, st: Contents<P, N, W>, r: Rule<P, N, W>)
    requires Result(sys, st) && r in sys.rules && r.Normal?
    ensures Closed(sys.flavour, r, st.weights)
  {
    ResultProper(sys, st);
    var h := HandlerOf(r);
    assert Listening(h) in InputsOf(sys);
    assert h in st.listeners by { assert Holds(SetupOf(sys.flavour), Listening(h), st); }
    forall t | t in st.weights && t.start == Ctl(r.p1) && NormalLabel(r.l1, r.l2, t.symbol).Some?
      ensures Above(sys.flavour.alg, st.weights,
        Transition(Ctl(r.p2), NormalLabel(r.l1, r.l2, t.symbol).value, t.target),
                    sys.flavour.alg.extend(st.weights[t], r.w))
    {
      Reacted(sys, st, h, t, 0);
    }
  }

  lemma PushClosed<P(!new), N(!new), W(!new)>(sys: System<P, N, W>, st: Contents<P, N, W>, r: Rule<P, N, W>)
    requires Result(sys, st) && r in sys.rules && r.Push?
    ensures Closed(sys.flavour, r, st.weights)
  {
    ResultProper(sys, st);
    var h := HandlerOf(r);
    assert Listening(h) in InputsOf(sys);
    assert h in st.listeners by { assert Holds(SetupOf(sys.flavour), Listening(h), st); }
    forall t | t in st.weights && t.start == Ctl(r.p1) && PushLabel(r.l1, r.callSite, t.symbol).Some?
      ensures Above(sys.flavour.alg, st.weights,
        Transition(Gen(r.p2, r.entry), PushLabel(r.l1, r.callSite, t.symbol).value, t.target),
                    sys.flavour.alg.extend(st.weights[t], r.w))
      ensures Above(sys.flavour.alg, st.weights, Transition(Ctl(r.p2), Sym(r.entry), Gen(r.p2, r.entry)),
        sys.flavour.alg.one)
    {
      Reacted(sys, st, h, t, 0);
      Reacted(sys, st, h, t, 1);
    }
  }

  lemma PoppingCloses<P(!new), N(!new), W(!new)>(
    sys: System<P, N, W>, st: Contents<P, N, W>, q: Node<P, N>, top: N, p2: P, w: W)
    requires Result(sys, st) && Popping(q, top, p2, w) in st.listeners
    ensures PopsFrom(sys.flavour, st.weights, q, top, p2, w)
  {
    ResultProper(sys, st);
    var h, alg := Popping(q, top, p2, w), sys.flavour.alg;
    forall t | t in st.weights && t.start == q && PopMatches(sys.flavour, t.symbol, top) && t.target.Gen?
      ensures Popped(alg, st.weights, p2, t.target, alg.extend(st.weights[t], w))
    {
      Reacted(sys, st, h, t, 0);
      Reacted(sys, st, h, t, 1);
      var v := alg.extend(st.weights[t], w);
      var k := Transitively(p2, t.symbol, t.target, v);
      assert k in st.listeners;
      forall u | u in st.weights && u.start == t.target
        ensures Above(alg, st.weights, Transition(Ctl(p2), u.symbol, u.target), alg.extend(st.weights[u], v))
      {
        Reacted(sys, st, k, u, 0);
      }
    }
  }

  lemma PopClosed<P(!new), N(!new), W(!new)>(sys: System<P, N, W>, st: Contents<P, N, W>, r: Rule<P, N, W>)
    requires Result(sys, st) && r in sys.rules && r.Pop?
    ensures Closed(sys.flavour, r, st.weights)
  {
    ResultProper(sys, st);
    var h := HandlerOf(r);
    assert Listening(h) in InputsOf(sys);
    assert h in st.listeners by { assert Holds(SetupOf(sys.flavour), Listening(h), st); }
    PoppingCloses(sys, st, Ctl(r.p1), r.top, r.p2, r.w);
    if sys.flavour.emptyEpsilon {
      forall t | t in st.weights && t.start == Ctl(r.p1) && t.symbol == Eps
        ensures PopsFrom(sys.flavour, st.weights, t.target, r.top, r.p2, r.w)
      {
        Reacted(sys, st, h, t, 0);
        PoppingCloses(sys, st, t.target, r.top, r.p2, r.w);
      }
    }
  }

  /** post* leaves a saturated automaton: every transition a rule calls for is there, with its weight. */
  lemma ResultSaturated<P(!new), N(!new), W(!new)>(sys: System<P, N, W>, st: Contents<P, N, W>)
    requires Result(sys, st)
    ensures Saturated(sys, st.weights)
  {
    forall s | s in sys.seeds ensures Above(sys.flavour.alg, st.weights, SeedTransition(s), s.w) {
      assert Weighted(SeedTransition(s), s.w) in InputsOf(sys);
      assert Holds(SetupOf(sys.flavour), Weighted(SeedTransition(s), s.w), st);
    }
    forall r | r in sys.rules ensures Closed(sys.flavour, r, st.weights) {
      match r
      case Normal(_, _, _, _, _) => NormalClosed(sys, st, r);
      case Push(_, _, _, _, _, _) => PushClosed(sys, st, r);
      case Pop(_, _, _, _) => PopClosed(sys, st, r);
    }
  }
}
