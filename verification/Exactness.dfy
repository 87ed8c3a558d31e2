/** What a saturated automaton means: accepting paths against runs of the pushdown system. */
module Exactness {
  import opened Options
  import opened Semirings
  import opened Automata
  import opened Pushdown
  import opened PostStar

  /** The configurations from which a path into `q` is read: `<p, n>` for a generated state, the seeds for the
      initial one. */
  ghost function OriginOf<P(!new), N(!new), W(!new)>(sys: System<P, N, W>, q: Node<P, N>): (Config<P, N>, W) -> bool {
    match q
    case Ctl(_) => (c, w) => false
    case Gen(p, n) => Alone(sys, p, n)
    case Final => Seeds(sys)
  }

  ghost function FromRuns<P(!new), N(!new), W(!new)>(sys: System<P, N, W>, q: Node<P, N>, c: Config<P, N>): W -> bool {
    w => Reaches(sys, OriginOf(sys, q), c, w)
  }

  ghost predicate Genuine<P(!new), N(!new), W(!new)>(sys: System<P, N, W>, q: Node<P, N>, c: Config<P, N>, w: W) {
    Spans(sys.flavour.alg, FromRuns(sys, q, c), w)
  }

  function Word<N>(l: Label<N>): seq<N> {
    match l
    case Eps => []
    case Sym(n) => [n]
  }

  /** What has been read once a path stands in `q`. */
  function Prefix<P, N>(q: Node<P, N>): seq<N> {
    if q.Gen? then [q.n] else []
  }

  function Spelled<P, N>(t: Trans<P, N>): Config<P, N>
    requires !t.start.Final?
  {
    Config(t.start.p, Prefix(t.start) + Word(t.symbol))
  }

  lemma GenuineBegin<P(!new), N(!new), W(!new)>(sys: System<P, N, W>, q: Node<P, N>, c: Config<P, N>, w: W)
    requires OriginOf(sys, q)(c, w)
    ensures Genuine(sys, q, c, w)
  {
    ReachesBegin(sys, OriginOf(sys, q), c, w);
    SpansTerm(sys.flavour.alg, FromRuns(sys, q, c), w);
  }

  lemma GenuineThen<P(!new), N(!new), W(!new)>(
    sys: System<P, N, W>, q: Node<P, N>, c: Config<P, N>, w: W, r: Rule<P, N, W>, next: Config<P, N>)
    requires sys.flavour.alg.Lawful() && Genuine(sys, q, c, w)
    requires r in sys.rules && Step(sys.flavour, r, c) == Some(next)
    ensures Genuine(sys, q, next, sys.flavour.alg.extend(w, r.w))
  {
    var alg := sys.flavour.alg;
    forall x | FromRuns(sys, q, c)(x) ensures Spans(alg, FromRuns(sys, q, next), alg.extend(x, r.w)) {
      ReachesThen(sys, OriginOf(sys, q), c, x, r, next);
      SpansTerm(alg, FromRuns(sys, q, next), alg.extend(x, r.w));
    }
    SpansTimesTerm(alg, FromRuns(sys, q, c), w, r.w, FromRuns(sys, q, next));
  }

  lemma GenuineComposes<P(!new), N(!new), W(!new)>(
    sys: System<P, N, W>, q: Node<P, N>, p: P, n: N, below: seq<N>, v: W, c: Config<P, N>, w: W)
    requires sys.flavour.alg.Lawful()
    requires Genuine(sys, q, Config(p, [n] + below), v) && Genuine(sys, Gen(p, n), c, w)
    ensures Genuine(sys, q, Config(c.p, c.stack + below), sys.flavour.alg.extend(v, w))
  {
    var alg, start, whole := sys.flavour.alg, Config(p, [n] + below), Config(c.p, c.stack + below);
    forall x, y | FromRuns(sys, q, start)(x) && FromRuns(sys, Gen(p, n), c)(y)
      ensures Spans(alg, FromRuns(sys, q, whole), alg.extend(x, y))
    {
      Composes(sys, OriginOf(sys, q), p, n, below, x, c, y);
      SpansTerm(alg, FromRuns(sys, q, whole), alg.extend(x, y));
    }
    SpansTimes(alg, FromRuns(sys, q, start), v, FromRuns(sys, Gen(p, n), c), w, FromRuns(sys, q, whole));
  }

  // ----- Every weight is a combination of weights of genuine runs -----

  ghost predicate GenuineFact<P(!new), N(!new), W(!new)>(sys: System<P, N, W>, f: Knowledge<P, N, W>) {
    match f
    case Weighted(t, w) => Proper(t) && Genuine(sys, t.target, Spelled(t), w)
    case Listening(Normally(r)) => r in sys.rules
    case Listening(Pushing(r)) => r in sys.rules
    case Listening(Popping(q, top, p2, w)) => q.Ctl? && Pop(q.p, top, p2, w) in sys.rules
    case Listening(Transitively(p2, _, q, v)) => q.Gen? && Genuine(sys, q, Config(p2, []), v)
    case Noted(k, w) =>
      && Proper(k.t) && k.t.target.Final? && Genuine(sys, Final, Spelled(k.t), w)
      && exists r :: r in sys.rules && Step(sys.flavour, r, Spelled(k.t)) == Some(Config(k.p2, []))
  }

  ghost predicate AllPaired<P(!new), N(!new), W(!new)>(sys: System<P, N, W>) {
    forall r :: r in sys.rules ==> Paired(r)
  }

  lemma SpelledAtControl<P(!new), N(!new)>(p: P, n: N, q: Node<P, N>)
    ensures var t: Trans<P, N> := Transition(Ctl(p), Sym(n), q);
            Spelled(t) == Config(p, [n]) && Spelled(t).stack[1..] == []
  {
  }

  lemma NormallyGenuine<P(!new), N(!new), W(!new)>(sys: System<P, N, W>, r: Rule<P, N, W>, t: Trans<P, N>, w: W)
    requires sys.flavour.alg.Lawful() && AllPaired(sys)
    requires r.Normal? && r in sys.rules && GenuineFact(sys, Weighted(t, w)) && Ctl(r.p1) == t.start
    requires NormalLabel(r.l1, r.l2, t.symbol).Some?
    ensures GenuineFact(sys,
      Weighted(Transition(Ctl(r.p2), NormalLabel(r.l1, r.l2, t.symbol).value, t.target),
        sys.flavour.alg.extend(w, r.w)))
  {
    var m := NormalLabel(r.l1, r.l2, t.symbol).value;
    SpelledAtControl(r.p1, t.symbol.n, t.target);
    SpelledAtControl(r.p2, m.n, t.target);
    assert t == Transition(Ctl(r.p1), Sym(t.symbol.n), t.target) && [m.n] + [] == [m.n];
    assert Step(sys.flavour, r, Spelled(t)) == Some(Config(r.p2, [m.n]));
    GenuineThen(sys, t.target, Spelled(t), w, r, Config(r.p2, [m.n]));
  }

  lemma PushingGenuine<P(!new), N(!new), W(!new)>(sys: System<P, N, W>, r: Rule<P, N, W>, t: Trans<P, N>, w: W)
    requires sys.flavour.alg.Lawful() && AllPaired(sys)
    requires r.Push? && r in sys.rules && GenuineFact(sys, Weighted(t, w)) && Ctl(r.p1) == t.start
    requires PushLabel(r.l1, r.callSite, t.symbol).Some?
    ensures GenuineFact(sys,
      Weighted(Transition(Gen(r.p2, r.entry), PushLabel(r.l1, r.callSite, t.symbol).value, t.target),
        sys.flavour.alg.extend(w, r.w)))
    ensures GenuineFact(sys, Weighted(Transition(Ctl(r.p2), Sym(r.entry), Gen(r.p2, r.entry)), sys.flavour.alg.one))
  {
    var m := PushLabel(r.l1, r.callSite, t.symbol).value;
    assert Spelled(t) == Config(r.p1, [t.symbol.n]) && Spelled(t).stack[1..] == [];
    assert [r.entry, m.n] + [] == [r.entry, m.n];
    GenuineThen(sys, t.target, Spelled(t), w, r, Config(r.p2, [r.entry, m.n]));
    assert Spelled(Transition(Gen(r.p2, r.entry), m, t.target)) == Config(r.p2, [r.entry, m.n]);
    GenuineBegin(sys, Gen(r.p2, r.entry), Config(r.p2, [r.entry]), sys.flavour.alg.one);
    assert Spelled(Transition(Ctl(r.p2), Sym(r.entry), Gen(r.p2, r.entry))) == Config(r.p2, [r.entry]);
  }

  lemma GenuineReaction<P(!new), N(!new), W(!new)>(
    sys: System<P, N, W>, h: Handler<P, N, W>, t: Trans<P, N>, w: W, i: nat)
    requires sys.flavour.alg.Lawful() && AllPaired(sys) && !sys.flavour.emptyEpsilon
    requires GenuineFact(sys, Listening(h)) && GenuineFact(sys, Weighted(t, w)) && Observed(h) == t.start
    requires i < |React(sys.flavour, h, Out, t, w)|
    ensures Yields(SetupOf(sys.flavour), React(sys.flavour, h, Out, t, w)[i], f => GenuineFact(sys, f))
  {
    match h
    case Normally(r) => NormallyGenuine(sys, r, t, w);
    case Pushing(r) => PushingGenuine(sys, r, t, w);
    case Popping(q, top, p2, rw) =>
      var r := Pop(q.p, top, p2, rw);
      assert Spelled(t) == Config(q.p, [t.symbol.n]) && Spelled(t).stack[1..] == [];
      GenuineThen(sys, t.target, Spelled(t), w, r, Config(p2, []));
      assert t.target.Gen? ==> Spelled(Transition(Ctl(p2), Eps, t.target)) == Config(p2, []);
    case Transitively(p2, _, q, v) =>
      assert Spelled(t) == Config(q.p, [q.n] + Word(t.symbol));
      GenuineComposes(sys, t.target, q.p, q.n, Word(t.symbol), w, Config(p2, []), v);
      assert Config(p2, [] + Word(t.symbol)) == Spelled(Transition(Ctl(p2), t.symbol, t.target));
  }

  /** Soundness of every fact the engine derives, for any rules, any seeds and any order of events. */
  lemma DerivedGenuine<P(!new), N(!new), W(!new)>(sys: System<P, N, W>, f: Knowledge<P, N, W>)
    requires sys.flavour.alg.Lawful() && AllPaired(sys) && !sys.flavour.emptyEpsilon
    requires Derivable(SetupOf(sys.flavour), InputsOf(sys), f)
    ensures GenuineFact(sys, f)
  {
    var s, alg := SetupOf<P, N, W>(sys.flavour), sys.flavour.alg;
    var genuine := (f: Knowledge<P, N, W>) => GenuineFact(sys, f);
    forall f | f in InputsOf(sys) ensures genuine(f) {
      if f.Weighted? {
        var seed :| seed in sys.seeds && f == Weighted(SeedTransition(seed), seed.w);
        assert Spelled(f.t) == Config(seed.p, [seed.n]);
        GenuineBegin(sys, Final, Spelled(f.t), f.w);
      }
    }
    forall t, v, w | genuine(Weighted(t, v)) && genuine(Weighted(t, w))
      ensures genuine(Weighted(t, alg.combine(v, w)))
    {
      SpansPlus(alg, FromRuns(sys, t.target, Spelled(t)), v, w);
    }
    forall k, v, w | genuine(Noted(k, v)) && genuine(Noted(k, w)) ensures genuine(Noted(k, alg.combine(v, w))) {
      SpansPlus(alg, FromRuns(sys, Final, Spelled(k.t)), v, w);
    }
    forall l, e, t, w, i | genuine(Listening(l)) && genuine(Weighted(t, w)) && Attached(s, l, e, t)
      && 0 <= i < |s.react(l, e, t, w)|
      ensures Yields(s, s.react(l, e, t, w)[i], genuine)
    {
      GenuineReaction(sys, l, t, w, i);
    }
    assert Inductive(s, InputsOf(sys), genuine);
  }

  // ----- Paths -----

  /** `path` leads from `q` to the initial state and reads `word`. */
  ghost predicate IsPath<P(!new), N(!new), W(!new)>(
    m: map<Trans<P, N>, W>, q: Node<P, N>, path: seq<Trans<P, N>>, word: seq<N>)
    decreases path
  {
    if path == [] then q.Final? && word == []
    else word != [] && path[0] in m && path[0].start == q && path[0].symbol == Sym(word[0])
         && IsPath(m, path[0].target, path[1..], word[1..])
  }

  /** Weights are read from the initial state outwards. */
  ghost function PathWeight<P(!new), N(!new), W(!new)>(
    alg: Semiring<W>, m: map<Trans<P, N>, W>, path: seq<Trans<P, N>>): W
    requires forall t :: t in path ==> t in m
    decreases path
  {
    if path == [] then alg.one else alg.extend(PathWeight(alg, m, path[1..]), m[path[0]])
  }

  lemma {:induction false} PathIn<P(!new), N(!new), W(!new)>(
    m: map<Trans<P, N>, W>, q: Node<P, N>, path: seq<Trans<P, N>>, word: seq<N>)
    requires IsPath(m, q, path, word)
    ensures forall t :: t in path ==> t in m
    decreases path
  {
    if path != [] {
      PathIn(m, path[0].target, path[1..], word[1..]);
    }
  }

  /** Every accepting path weighs a combination of the weights of genuine runs from the seeds. */
  lemma {:induction false} PathGenuine<P(!new), N(!new), W(!new)>(
    sys: System<P, N, W>, st: Contents<P, N, W>, q: Node<P, N>, path: seq<Trans<P, N>>, word: seq<N>)
    requires sys.flavour.alg.Lawful() && AllPaired(sys) && !sys.flavour.emptyEpsilon && Result(sys, st)
    requires !q.Final? && IsPath(st.weights, q, path, word)
    ensures forall t :: t in path ==> t in st.weights
    ensures Genuine(sys, Final, Config(q.p, Prefix(q) + word), PathWeight(sys.flavour.alg, st.weights, path))
    decreases path
  {
    PathIn(st.weights, q, path, word);
    var t, alg := path[0], sys.flavour.alg;
    DerivedGenuine(sys, Weighted(t, st.weights[t]));
    if t.target.Final? {
      FinalHasNoExit(sys, st, path[1..], word[1..]);
      assert word == [word[0]];
      alg.Units(st.weights[t]);
    } else {
      var below := word[1..];
      PathGenuine(sys, st, t.target, path[1..], below);
      GenuineComposes(sys, Final, t.target.p, t.target.n, below, PathWeight(alg, st.weights, path[1..]), Spelled(t),
        st.weights[t]);
      assert Prefix(q) + word == Spelled(t).stack + below;
    }
  }

  lemma FinalHasNoExit<P(!new), N(!new), W(!new)>(
    sys: System<P, N, W>, st: Contents<P, N, W>, path: seq<Trans<P, N>>, word: seq<N>)
    requires Result(sys, st) && IsPath(st.weights, Final, path, word)
    ensures path == [] && word == []
  {
    ResultProper(sys, st);
  }

  // ----- Every run is accounted for -----

  ghost predicate Tidy<P(!new), N(!new), W(!new)>(m: map<Trans<P, N>, W>) {
    forall t :: t in m ==> Proper(t)
  }

  ghost predicate Accepted<P(!new), N(!new), W(!new)>(
    alg: Semiring<W>, m: map<Trans<P, N>, W>, c: Config<P, N>, path: seq<Trans<P, N>>, w: W)
  {
    && IsPath(m, Ctl(c.p), path, c.stack)
    && (forall t :: t in path ==> t in m)
    && alg.Leq(w, PathWeight(alg, m, path))
  }

  /** Put `t` in front of a path. */
  lemma Prepend<P(!new), N(!new), W(!new)>(
    alg: Semiring<W>, m: map<Trans<P, N>, W>, t: Trans<P, N>, n: N, rest: seq<Trans<P, N>>, word: seq<N>, v: W, w: W)
    requires alg.Lawful() && Above(alg, m, t, w) && t.symbol == Sym(n)
    requires IsPath(m, t.target, rest, word) && (forall u :: u in rest ==> u in m)
      && alg.Leq(v, PathWeight(alg, m, rest))
    ensures IsPath(m, t.start, [t] + rest, [n] + word) && forall u :: u in [t] + rest ==> u in m
    ensures alg.Leq(alg.extend(v, w), PathWeight(alg, m, [t] + rest))
  {
    assert ([t] + rest)[1..] == rest && ([n] + word)[1..] == word;
    alg.ExtendMonotone(v, PathWeight(alg, m, rest), w, m[t]);
  }

  lemma {:induction false} RunAccepted<P(!new), N(!new), W(!new)>(
    sys: System<P, N, W>, m: map<Trans<P, N>, W>, run: Run<P, N, W>)
    returns (path: seq<Trans<P, N>>)
    requires sys.flavour.alg.Lawful() && Saturated(sys, m) && Tidy(m)
    requires IsRun(sys, Seeds(sys), run) && Last(run).stack != []
    ensures Accepted(sys.flavour.alg, m, Last(run), path, Cost(sys.flavour.alg, run))
  {
    var alg := sys.flavour.alg;
    match run
    case Begin(c, w) =>
      var s :| s in sys.seeds && c == Config(s.p, [s.n]) && w == s.w;
      alg.Units(w);
      alg.LeqReflexive(alg.one);
      assert [s.n] + [] == c.stack;
      path := [SeedTransition(s)] + [];
      Prepend(alg, m, SeedTransition(s), s.n, [], [], alg.one, w);
    case Then(prev, r, c) =>
      var before := RunAccepted(sys, m, prev);
      path := StepAccepted(sys, m, Last(prev), before, Cost(alg, prev), r, c);
  }

  /** One step, on the first transition of the path that accepted the configuration before it. */
  lemma StepAccepted<P(!new), N(!new), W(!new)>(
    sys: System<P, N, W>, m: map<Trans<P, N>, W>, c: Config<P, N>, path: seq<Trans<P, N>>, v: W, r: Rule<P, N, W>,
    next: Config<P, N>)
    returns (path': seq<Trans<P, N>>)
    requires sys.flavour.alg.Lawful() && Saturated(sys, m) && Tidy(m) && Accepted(sys.flavour.alg, m, c, path, v)
    requires r in sys.rules && Step(sys.flavour, r, c) == Some(next) && next.stack != []
    ensures Accepted(sys.flavour.alg, m, next, path', sys.flavour.alg.extend(v, r.w))
  {
    var alg := sys.flavour.alg;
    assert Closed(sys.flavour, r, m);
    var t, rest, below := path[0], path[1..], c.stack[1..];
    var w := PathWeight(alg, m, rest);
    alg.LeqReflexive(w);
    alg.LeqReflexive(r.w);
    alg.ExtendMonotone(v, PathWeight(alg, m, path), r.w, r.w);
    alg.Associative(w, m[t], r.w);
    var vr := alg.extend(v, r.w);
    var moved := alg.extend(m[t], r.w);
    match r
    case Normal(_, l1, p2, l2, _) =>
      var n := Rewritten(l2, c.stack[0]).value;
      var u := Transition(Ctl(p2), Sym(n), t.target);
      path' := [u] + rest;
      Prepend(alg, m, u, n, rest, below, w, moved);
      alg.LeqTransitive(vr, alg.extend(w, moved), PathWeight(alg, m, path'));
    case Push(_, l1, p2, entry, callSite, _) =>
      var n := ReturnSite(callSite, c.stack[0]);
      var site := Transition(Gen(p2, entry), Sym(n), t.target);
      var callee := Transition(Ctl(p2), Sym(entry), Gen(p2, entry));
      Prepend(alg, m, site, n, rest, below, w, moved);
      Prepend(alg, m, callee, entry, [site] + rest, [n] + below, alg.extend(w, moved), alg.one);
      path' := [callee] + ([site] + rest);
      assert [entry] + ([n] + below) == next.stack;
      alg.Units(alg.extend(w, moved));
      alg.LeqTransitive(vr, alg.extend(w, moved), PathWeight(alg, m, path'));
    case Pop(_, top, p2, _) =>
      assert IsPath(m, t.target, rest, below);
      var u, deeper := rest[0], rest[1..];
      assert Proper(t) && Proper(u);
      assert Popped(alg, m, p2, t.target, moved);
      var x := Transition(Ctl(p2), u.symbol, u.target);
      var y := PathWeight(alg, m, deeper);
      alg.LeqReflexive(y);
      Prepend(alg, m, x, below[0], deeper, below[1..], y, alg.extend(m[u], moved));
      assert [below[0]] + below[1..] == below;
      path' := [x] + deeper;
      alg.Associative(y, m[u], moved);
      alg.LeqTransitive(vr, alg.extend(w, moved), PathWeight(alg, m, path'));
  }

  // ----- The language, whether or not epsilon is `Empty` -----

  ghost predicate CanReach<P(!new), N(!new), W(!new)>(sys: System<P, N, W>, q: Node<P, N>, c: Config<P, N>) {
    exists w :: Reaches(sys, OriginOf(sys, q), c, w)
  }

  lemma CanReachThen<P(!new), N(!new), W(!new)>(
    sys: System<P, N, W>, q: Node<P, N>, c: Config<P, N>, r: Rule<P, N, W>, next: Config<P, N>)
    requires CanReach(sys, q, c) && r in sys.rules && Step(sys.flavour, r, c) == Some(next)
    ensures CanReach(sys, q, next)
  {
    var w :| Reaches(sys, OriginOf(sys, q), c, w);
    ReachesThen(sys, OriginOf(sys, q), c, w, r, next);
  }

  lemma CanReachComposes<P(!new), N(!new), W(!new)>(
    sys: System<P, N, W>, q: Node<P, N>, p: P, n: N, below: seq<N>, c: Config<P, N>)
    requires sys.flavour.alg.Lawful() && CanReach(sys, q, Config(p, [n] + below)) && CanReach(sys, Gen(p, n), c)
    ensures CanReach(sys, q, Config(c.p, c.stack + below))
  {
    var v :| Reaches(sys, OriginOf(sys, q), Config(p, [n] + below), v);
    var w :| Reaches(sys, OriginOf(sys, Gen(p, n)), c, w);
    Composes(sys, OriginOf(sys, q), p, n, below, v, c, w);
  }

  /** A pop listener at `q` serves control state `p1`: directly, or behind an epsilon edge from `p1`. */
  ghost predicate Serves<P(!new), N(!new), W(!new)>(sys: System<P, N, W>, q: Node<P, N>, p1: P) {
    q == Ctl(p1) || (q.Gen? && CanReach(sys, q, Config(p1, [])))
  }

  ghost predicate ReachableFact<P(!new), N(!new), W(!new)>(sys: System<P, N, W>, f: Knowledge<P, N, W>) {
    match f
    case Weighted(t, _) => Proper(t) && CanReach(sys, t.target, Spelled(t))
    case Listening(Normally(r)) => r in sys.rules
    case Listening(Pushing(r)) => r in sys.rules
    case Listening(Popping(q, top, p2, w)) => exists p1 :: Pop(p1, top, p2, w) in sys.rules && Serves(sys, q, p1)
    case Listening(Transitively(p2, _, q, _)) => q.Gen? && CanReach(sys, q, Config(p2, []))
    case Noted(k, _) => CanReach(sys, Final, Config(k.p2, []))
  }

  lemma PopReachable<P(!new), N(!new), W(!new)>(sys: System<P, N, W>, p1: P, top: N, p2: P, rw: W, t: Trans<P, N>)
    requires sys.flavour.alg.Lawful() && Pop(p1, top, p2, rw) in sys.rules && Serves(sys, t.start, p1)
    requires Proper(t) && CanReach(sys, t.target, Spelled(t))
    ensures PopMatches(sys.flavour, t.symbol, top) ==> CanReach(sys, t.target, Config(p2, []))
    ensures t.symbol == Eps ==> Serves(sys, t.target, p1)
  {
    if t.symbol.Sym? {
      var c := Config(p1, [t.symbol.n]);
      if t.start.Gen? {
        CanReachComposes(sys, t.target, t.start.p, t.start.n, [t.symbol.n], Config(p1, []));
        assert [] + [t.symbol.n] == c.stack;
      } else {
        assert Spelled(t) == c;
      }
      assert c.stack[1..] == [];
      if PopMatches(sys.flavour, t.symbol, top) {
        CanReachThen(sys, t.target, c, Pop(p1, top, p2, rw), Config(p2, []));
      }
    } else {
      assert Spelled(t) == Config(p1, []);
    }
  }

  lemma ReachableByRule<P(!new), N(!new), W(!new)>(
    sys: System<P, N, W>, h: Handler<P, N, W>, t: Trans<P, N>, w: W, i: nat)
    requires sys.flavour.alg.Lawful() && AllPaired(sys)
    requires ReachableFact(sys, Listening(h)) && ReachableFact(sys, Weighted(t, w)) && Observed(h) == t.start
    requires i < |React(sys.flavour, h, Out, t, w)|
    requires h.Normally? || h.Pushing?
    ensures Yields(SetupOf(sys.flavour), React(sys.flavour, h, Out, t, w)[i], f => ReachableFact(sys, f))
  {
    assert Spelled(t) == Config(h.rule.p1, Word(t.symbol));
    if h.Normally? {
      var r := h.rule;
      var m := NormalLabel(r.l1, r.l2, t.symbol).value;
      assert Spelled(t).stack[1..] == [] && [m.n] + [] == [m.n];
      CanReachThen(sys, t.target, Spelled(t), r, Config(r.p2, [m.n]));
      assert Spelled(Transition(Ctl(r.p2), m, t.target)) == Config(r.p2, [m.n]);
    } else {
      var r := h.rule;
      var m := PushLabel(r.l1, r.callSite, t.symbol).value;
      assert Spelled(t).stack[1..] == [] && [r.entry, m.n] + [] == [r.entry, m.n];
      if i == 0 {
        CanReachThen(sys, t.target, Spelled(t), r, Config(r.p2, [r.entry, m.n]));
        assert Spelled(Transition(Gen(r.p2, r.entry), m, t.target)) == Config(r.p2, [r.entry, m.n]);
      } else {
        ReachesBegin(sys, OriginOf(sys, Gen(r.p2, r.entry)), Config(r.p2, [r.entry]), sys.flavour.alg.one);
        assert Spelled(Transition(Ctl(r.p2), Sym(r.entry), Gen(r.p2, r.entry))) == Config(r.p2, [r.entry]);
      }
    }
  }

  lemma ReachableByPop<P(!new), N(!new), W(!new)>(
    sys: System<P, N, W>, h: Handler<P, N, W>, t: Trans<P, N>, w: W, i: nat)
    requires sys.flavour.alg.Lawful() && AllPaired(sys)
    requires ReachableFact(sys, Listening(h)) && ReachableFact(sys, Weighted(t, w)) && Observed(h) == t.start
    requires i < |React(sys.flavour, h, Out, t, w)|
    requires h.Popping?
    ensures Yields(SetupOf(sys.flavour), React(sys.flavour, h, Out, t, w)[i], f => ReachableFact(sys, f))
  {
    var Popping(q, top, p2, rw) := h;
    var p1 :| Pop(p1, top, p2, rw) in sys.rules && Serves(sys, q, p1);
    PopReachable(sys, p1, top, p2, rw, t);
    assert t.symbol == Eps ==> Pop(p1, top, p2, rw) in sys.rules && Serves(sys, t.target, p1);
    assert t.target.Gen? ==> Spelled(Transition(Ctl(p2), Eps, t.target)) == Config(p2, []);
  }

  lemma ReachableReaction<P(!new), N(!new), W(!new)>(
    sys: System<P, N, W>, h: Handler<P, N, W>, t: Trans<P, N>, w: W, i: nat)
    requires sys.flavour.alg.Lawful() && AllPaired(sys)
    requires ReachableFact(sys, Listening(h)) && ReachableFact(sys, Weighted(t, w)) && Observed(h) == t.start
    requires i < |React(sys.flavour, h, Out, t, w)|
    ensures Yields(SetupOf(sys.flavour), React(sys.flavour, h, Out, t, w)[i], f => ReachableFact(sys, f))
  {
    match h
    case Normally(_) => ReachableByRule(sys, h, t, w, i);
    case Pushing(_) => ReachableByRule(sys, h, t, w, i);
    case Popping(_, _, _, _) => ReachableByPop(sys, h, t, w, i);
    case Transitively(p2, _, q, _) =>
      assert Spelled(t) == Config(q.p, [q.n] + Word(t.symbol));
      CanReachComposes(sys, t.target, q.p, q.n, Word(t.symbol), Config(p2, []));
      assert Config(p2, [] + Word(t.symbol)) == Spelled(Transition(Ctl(p2), t.symbol, t.target));
  }

  lemma DerivedReachable<P(!new), N(!new), W(!new)>(sys: System<P, N, W>, f: Knowledge<P, N, W>)
    requires sys.flavour.alg.Lawful() && AllPaired(sys)
    requires Derivable(SetupOf(sys.flavour), InputsOf(sys), f)
    ensures ReachableFact(sys, f)
  {
    var s := SetupOf<P, N, W>(sys.flavour);
    var reachable := (f: Knowledge<P, N, W>) => ReachableFact(sys, f);
    forall f | f in InputsOf(sys) ensures reachable(f) {
      if f.Weighted? {
        var seed :| seed in sys.seeds && f == Weighted(SeedTransition(seed), seed.w);
        assert Spelled(f.t) == Config(seed.p, [seed.n]);
        ReachesBegin(sys, OriginOf(sys, Final), Spelled(f.t), f.w);
      } else {
        var r :| r in sys.rules && f == Listening(HandlerOf(r));
        if r.Pop? {
          assert Serves(sys, Ctl(r.p1), r.p1);
        }
      }
    }
    forall l, e, t, w, i | reachable(Listening(l)) && reachable(Weighted(t, w)) && Attached(s, l, e, t)
      && 0 <= i < |s.react(l, e, t, w)|
      ensures Yields(s, s.react(l, e, t, w)[i], reachable)
    {
      ReachableReaction(sys, l, t, w, i);
    }
    assert Inductive(s, InputsOf(sys), reachable);
  }

  lemma {:induction false} PathReachable<P(!new), N(!new), W(!new)>(
    sys: System<P, N, W>, st: Contents<P, N, W>, q: Node<P, N>, path: seq<Trans<P, N>>, word: seq<N>)
    requires sys.flavour.alg.Lawful() && AllPaired(sys) && Result(sys, st)
    requires !q.Final? && IsPath(st.weights, q, path, word)
    ensures CanReach(sys, Final, Config(q.p, Prefix(q) + word))
    decreases path
  {
    var t := path[0];
    DerivedReachable(sys, Weighted(t, st.weights[t]));
    if t.target.Final? {
      FinalHasNoExit(sys, st, path[1..], word[1..]);
      assert word == [word[0]];
    } else {
      var below := word[1..];
      PathReachable(sys, st, t.target, path[1..], below);
      CanReachComposes(sys, Final, t.target.p, t.target.n, below, Spelled(t));
      assert Prefix(q) + word == Spelled(t).stack + below;
    }
  }

  // ----- Main results -----

  ghost predicate Accepts<P(!new), N(!new), W(!new)>(m: map<Trans<P, N>, W>, c: Config<P, N>) {
    exists path :: IsPath(m, Ctl(c.p), path, c.stack)
  }

  ghost predicate Reachable<P(!new), N(!new), W(!new)>(sys: System<P, N, W>, c: Config<P, N>) {
    exists w :: Reaches(sys, Seeds(sys), c, w)
  }

  /** post* is exact: with a non-empty stack, accepted means reachable from a seed. */
  lemma AcceptsExactlyReachable<P(!new), N(!new), W(!new)>(sys: System<P, N, W>, st: Contents<P, N, W>, c: Config<P, N>)
    requires sys.flavour.alg.Lawful() && AllPaired(sys) && Result(sys, st) && c.stack != []
    ensures Accepts(st.weights, c) <==> Reachable(sys, c)
  {
    if Accepts(st.weights, c) {
      AcceptedReachable(sys, st, c);
    }
    if Reachable(sys, c) {
      var w :| Reaches(sys, Seeds(sys), c, w);
      var path := WeightOfRunsIsKept(sys, st, c, w);
      assert IsPath(st.weights, Ctl(c.p), path, c.stack);
    }
  }

  lemma AcceptedReachable<P(!new), N(!new), W(!new)>(sys: System<P, N, W>, st: Contents<P, N, W>, c: Config<P, N>)
    requires sys.flavour.alg.Lawful() && AllPaired(sys) && Result(sys, st) && Accepts(st.weights, c)
    ensures Reachable(sys, c)
  {
    var path :| IsPath(st.weights, Ctl(c.p), path, c.stack);
    PathReachable(sys, st, Ctl(c.p), path, c.stack);
    assert Config(c.p, [] + c.stack) == c;
    var w :| Reaches(sys, OriginOf(sys, Final), c, w);
    assert Reaches(sys, Seeds(sys), c, w);
  }

  /** No run is lost: some accepting path of its last configuration weighs at least as much. */
  lemma WeightOfRunsIsKept<P(!new), N(!new), W(!new)>(
    sys: System<P, N, W>, st: Contents<P, N, W>, c: Config<P, N>, w: W)
    returns (path: seq<Trans<P, N>>)
    requires sys.flavour.alg.Lawful() && Result(sys, st) && c.stack != [] && Reaches(sys, Seeds(sys), c, w)
    ensures Accepted(sys.flavour.alg, st.weights, c, path, w)
  {
    ResultSaturated(sys, st);
    ResultProper(sys, st);
    var run :| IsRun(sys, Seeds(sys), run) && Last(run) == c && Cost(sys.flavour.alg, run) == w;
    path := RunAccepted(sys, st.weights, run);
  }

  /** No weight is invented: an accepting path weighs a finite combination of runs to its configuration. */
  lemma WeightOfPathsIsGenuine<P(!new), N(!new), W(!new)>(
    sys: System<P, N, W>, st: Contents<P, N, W>, c: Config<P, N>, path: seq<Trans<P, N>>)
    requires sys.flavour.alg.Lawful() && AllPaired(sys) && !sys.flavour.emptyEpsilon && Result(sys, st)
    requires IsPath(st.weights, Ctl(c.p), path, c.stack)
    ensures forall t :: t in path ==> t in st.weights
    ensures Spans(sys.flavour.alg, w => Reaches(sys, Seeds(sys), c, w), PathWeight(sys.flavour.alg, st.weights, path))
  {
    PathGenuine(sys, st, Ctl(c.p), path, c.stack);
    assert Config(c.p, [] + c.stack) == c;
    SpansOfSpansSame(sys, c, PathWeight(sys.flavour.alg, st.weights, path));
  }

  lemma SpansOfSpansSame<P(!new), N(!new), W(!new)>(sys: System<P, N, W>, c: Config<P, N>, w: W)
    requires Genuine(sys, Final, c, w)
    ensures Spans(sys.flavour.alg, x => Reaches(sys, Seeds(sys), c, x), w)
  {
    var out := x => Reaches(sys, Seeds(sys), c, x);
    forall x | FromRuns(sys, Final, c)(x) ensures Spans(sys.flavour.alg, out, x) {
      SpansTerm(sys.flavour.alg, out, x);
    }
    SpansOfSpans(sys.flavour.alg, FromRuns(sys, Final, c), w, out);
  }

  /** Runs that pop the whole stack are exactly those reported as unbalanced pops. */
  lemma UnbalancedPopsExactlyEmptyStacks<P(!new), N(!new), W(!new)>(sys: System<P, N, W>, st: Contents<P, N, W>, p: P)
    requires sys.flavour.alg.Lawful() && AllPaired(sys) && Result(sys, st)
    ensures (exists k :: k in st.notes && k.p2 == p) <==> Reachable(sys, Config(p, []))
  {
    if k :| k in st.notes && k.p2 == p {
      DerivedReachable(sys, Noted(k, st.notes[k]));
      var w :| Reaches(sys, OriginOf(sys, Final), Config(p, []), w);
      assert Reaches(sys, Seeds(sys), Config(p, []), w);
    }
    if w :| Reaches(sys, Seeds(sys), Config(p, []), w) {
      var run :| IsRun(sys, Seeds(sys), run) && Last(run) == Config(p, []) && Cost(sys.flavour.alg, run) == w;
      var k := UnbalancedPopNoted(sys, st, run);
    }
  }

  /** The note carries the weight before the last pop: `unbalancedPop` is not given the weight of the rule. */
  lemma UnbalancedPopNoted<P(!new), N(!new), W(!new)>(sys: System<P, N, W>, st: Contents<P, N, W>, run: Run<P, N, W>)
    returns (k: Unbalanced<P, N>)
    requires sys.flavour.alg.Lawful() && Result(sys, st) && IsRun(sys, Seeds(sys), run) && Last(run).stack == []
    ensures k in st.notes && k.p2 == Last(run).p
    ensures run.Then? && sys.flavour.alg.Leq(Cost(sys.flavour.alg, run.prev), st.notes[k])
  {
    var alg := sys.flavour.alg;
    var Then(prev, r, _) := run;
    var c := Last(prev);
    var path := WeightOfRunsIsKept(sys, st, c, Cost(alg, prev));
    ResultProper(sys, st);
    assert r.Pop? && c.stack == [c.stack[0]];
    var t := path[0];
    assert IsPath(st.weights, t.target, path[1..], []);
    alg.Units(st.weights[t]);
    assert path[1..] == [] && PathWeight(alg, st.weights, path) == st.weights[t];
    var h := HandlerOf(r);
    assert Listening(h) in InputsOf(sys);
    assert Holds(SetupOf(sys.flavour), Listening(h), st);
    Reacted(sys, st, h, t, 0);
    k := Unbalanced(r.p2, t);
    alg.LeqTransitive(Cost(alg, prev), st.weights[t], st.notes[k]);
  }
}
