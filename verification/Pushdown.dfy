/** Weighted pushdown systems: rules with wildcards, configurations, runs and their weights. */
module Pushdown {
  import opened Options
  import opened Semirings

  /** A label a rule may carry. As the left label or the call site of a rule, `AnyBut` is just a wildcard. */
  datatype Pattern<N> = Exact(n: N) | Any | AnyBut(n: N)

  datatype Rule<P, N, W> =
    | Normal(p1: P, l1: Pattern<N>, p2: P, l2: Pattern<N>, w: W)
    | Push(p1: P, l1: Pattern<N>, p2: P, entry: N, callSite: Pattern<N>, w: W)
    | Pop(p1: P, top: N, p2: P, w: W)

  /** A configuration with a one-symbol stack and the weight it starts with. */
  datatype Seed<P, N, W> = Seed(p: P, n: N, w: W)

  /** `emptyEpsilon` says whether the epsilon label implements `Empty`. */
  datatype Flavour<!N(!new), !W(!new)> = Flavour(alg: Semiring<W>, accepts: (N, N) -> bool, emptyEpsilon: bool)

  /** Labels accept only themselves. */
  function Same(): (int, int) -> bool {
    (a, b) => a == b
  }

  datatype System<!P(==,!new), !N(==,!new), !W(==,!new)> =
    System(flavour: Flavour<N, W>, rules: set<Rule<P, N, W>>, seeds: set<Seed<P, N, W>>)

  predicate Fits<N(==)>(pattern: Pattern<N>, n: N) {
    pattern.Exact? ==> pattern.n == n
  }

  /** The symbol a normal rule leaves where it found `n`. */
  function Rewritten<N(==)>(pattern: Pattern<N>, n: N): Option<N> {
    match pattern
    case Exact(m) => Some(m)
    case Any => Some(n)
    case AnyBut(m) => if n == m then None else Some(n)
  }

  function ReturnSite<N>(callSite: Pattern<N>, n: N): N {
    match callSite
    case Exact(m) => m
    case _ => n
  }

  /** A left wildcard comes with a wildcard that keeps the label. */
  predicate Paired<P, N, W>(r: Rule<P, N, W>) {
    match r
    case Normal(_, l1, _, l2, _) => l1.Exact? || !l2.Exact?
    case Push(_, l1, _, _, callSite, _) => l1.Exact? || !callSite.Exact?
    case Pop(_, _, _, _) => true
  }

  datatype Config<P, N> = Config(p: P, stack: seq<N>)

  /** One step of the pushdown system. */
  function Step<P(!new,==), N(!new,==), W(!new)>(
    f: Flavour<N, W>, r: Rule<P, N, W>, c: Config<P, N>): Option<Config<P, N>>
  {
    if c.p != r.p1 || c.stack == [] then None
    else
      var n, below := c.stack[0], c.stack[1..];
      match r
      case Normal(_, l1, p2, l2, _) =>
        if !Fits(l1, n) then None
        else (match Rewritten(l2, n)
              case None => None
              case Some(m) => Some(Config(p2, [m] + below)))
      case Push(_, l1, p2, entry, callSite, _) =>
        if !Fits(l1, n) then None else Some(Config(p2, [entry, ReturnSite(callSite, n)] + below))
      case Pop(_, top, p2, _) =>
        if f.accepts(n, top) || f.accepts(top, n) then Some(Config(p2, below)) else None
  }

  /** A pop rule applies where either label accepts the other. */
  lemma PopsEitherWay<P(!new), N(!new), W(!new)>(f: Flavour<N, W>, p: P, top: N, p2: P, w: W, n: N, below: seq<N>)
    ensures Step(f, Pop(p, top, p2, w), Config(p, [n] + below)) ==
            if f.accepts(n, top) || f.accepts(top, n) then Some(Config(p2, below)) else None
  {
    assert ([n] + below)[1..] == below;
  }

  /** A step does not look below the top symbol. */
  lemma StepLifts<P(!new), N(!new), W(!new)>(f: Flavour<N, W>, r: Rule<P, N, W>, c: Config<P, N>, below: seq<N>)
    requires Step(f, r, c).Some?
    ensures Step(f, r, Config(c.p, c.stack + below)) ==
              Some(Config(Step(f, r, c).value.p, Step(f, r, c).value.stack + below))
  {
    assert (c.stack + below)[1..] == c.stack[1..] + below;
    match r
    case Normal(_, _, _, l2, _) =>
      var m := Rewritten(l2, c.stack[0]).value;
      assert [m] + (c.stack[1..] + below) == ([m] + c.stack[1..]) + below;
    case Push(_, _, _, entry, callSite, _) =>
      var top := [entry, ReturnSite(callSite, c.stack[0])];
      assert top + (c.stack[1..] + below) == (top + c.stack[1..]) + below;
    case Pop(_, _, _, _) =>
  }

  /** A run, extended one rule at a time; weights accumulate in the order of the steps. */
  datatype Run<P, N, W> = Begin(c: Config<P, N>, w: W) | Then(prev: Run<P, N, W>, r: Rule<P, N, W>, next: Config<P, N>)

  function Last<P, N, W>(run: Run<P, N, W>): Config<P, N> {
    match run
    case Begin(c, _) => c
    case Then(_, _, c) => c
  }

  function Cost<P, N, W(!new)>(alg: Semiring<W>, run: Run<P, N, W>): W {
    match run
    case Begin(_, w) => w
    case Then(prev, r, _) => alg.extend(Cost(alg, prev), r.w)
  }

  ghost predicate IsRun<P(!new), N(!new), W(!new)>(
    sys: System<P, N, W>, origin: (Config<P, N>, W) -> bool, run: Run<P, N, W>)
  {
    match run
    case Begin(c, w) => origin(c, w)
    case Then(prev, r, c) => IsRun(sys, origin, prev) && r in sys.rules && Step(sys.flavour, r, Last(prev)) == Some(c)
  }

  /** Some run from an origin reaches `c` with weight `w`. */
  ghost predicate Reaches<P(!new), N(!new), W(!new)>(
    sys: System<P, N, W>, origin: (Config<P, N>, W) -> bool, c: Config<P, N>, w: W)
  {
    exists run :: IsRun(sys, origin, run) && Last(run) == c && Cost(sys.flavour.alg, run) == w
  }

  lemma ReachesBegin<P(!new), N(!new), W(!new)>(
    sys: System<P, N, W>, origin: (Config<P, N>, W) -> bool, c: Config<P, N>, w: W)
    requires origin(c, w)
    ensures Reaches(sys, origin, c, w)
  {
    assert IsRun(sys, origin, Begin(c, w)) && Last(Run<P, N, W>.Begin(c, w)) == c
      && Cost(sys.flavour.alg, Run<P, N, W>.Begin(c, w)) == w;
  }

  lemma ReachesThen<P(!new), N(!new), W(!new)>(
    sys: System<P, N, W>, origin: (Config<P, N>, W) -> bool, c: Config<P, N>, w: W,
    r: Rule<P, N, W>, next: Config<P, N>)
    requires Reaches(sys, origin, c, w) && r in sys.rules && Step(sys.flavour, r, c) == Some(next)
    ensures Reaches(sys, origin, next, sys.flavour.alg.extend(w, r.w))
  {
    var run :| IsRun(sys, origin, run) && Last(run) == c && Cost(sys.flavour.alg, run) == w;
    assert IsRun(sys, origin, Then(run, r, next)) && Last(Then(run, r, next)) == next
           && Cost(sys.flavour.alg, Then(run, r, next)) == sys.flavour.alg.extend(w, r.w);
  }

  /** The configuration `<p, n>` alone, with the neutral weight. */
  ghost function Alone<P(!new), N(!new), W(!new)>(sys: System<P, N, W>, p: P, n: N): (Config<P, N>, W) -> bool {
    (c, w) => c == Config(p, [n]) && w == sys.flavour.alg.one
  }

  ghost function Seeds<P(!new), N(!new), W(!new)>(sys: System<P, N, W>): (Config<P, N>, W) -> bool {
    (c, w) => exists s :: s in sys.seeds && c == Config(s.p, [s.n]) && w == s.w
  }

  lemma {:induction false} RunComposes<P(!new), N(!new), W(!new)>(
    sys: System<P, N, W>, origin: (Config<P, N>, W) -> bool, p: P, n: N, below: seq<N>, w: W, run: Run<P, N, W>)
    requires sys.flavour.alg.Lawful()
    requires Reaches(sys, origin, Config(p, [n] + below), w) && IsRun(sys, Alone(sys, p, n), run)
    ensures Reaches(sys, origin, Config(Last(run).p, Last(run).stack + below),
      sys.flavour.alg.extend(w, Cost(sys.flavour.alg, run)))
  {
    var alg := sys.flavour.alg;
    match run
    case Begin(_, _) =>
      alg.Units(w);
    case Then(prev, r, c) =>
      RunComposes(sys, origin, p, n, below, w, prev);
      StepLifts(sys.flavour, r, Last(prev), below);
      ReachesThen(sys, origin, Config(Last(prev).p, Last(prev).stack + below), alg.extend(w, Cost(alg, prev)), r,
        Config(c.p, c.stack + below));
      alg.Associative(w, Cost(alg, prev), r.w);
  }

  /** A run to `<p, n below>` followed, above `below`, by a run from `<p, n>`. */
  lemma Composes<P(!new), N(!new), W(!new)>(
    sys: System<P, N, W>, origin: (Config<P, N>, W) -> bool, p: P, n: N, below: seq<N>, v: W, c: Config<P, N>, w: W)
    requires sys.flavour.alg.Lawful()
    requires Reaches(sys, origin, Config(p, [n] + below), v) && Reaches(sys, Alone(sys, p, n), c, w)
    ensures Reaches(sys, origin, Config(c.p, c.stack + below), sys.flavour.alg.extend(v, w))
  {
    var run :| IsRun(sys, Alone(sys, p, n), run) && Last(run) == c && Cost(sys.flavour.alg, run) == w;
    RunComposes(sys, origin, p, n, below, v, run);
  }
}
