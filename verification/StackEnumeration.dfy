/** `StackListener`: enumerate the call sites that may be on the stack of a state. */
module StackEnumeration {
  import opened Semirings
  import opened Automata
  import Reachability

  datatype Observation<!S, !N> = Observation(state: S, source: N, epsilon: N, initial: S -> bool, generated: S -> bool)

  /** The `StackListener` itself, and its `SubStackListener`s. */
  datatype Observer<S> = Top | Sub(q: S)

  /** `anyContext(source)` and `stackElement(n)`. */
  datatype Finding<N> = AnyContext | Element(n: N)

  type Knowledge<S, N, W> = Fact<S, N, W, Observer<S>, Finding<N>>
  type Contents<S(==), N(==), W> = State<S, N, W, Observer<S>, Finding<N>>

  function Observe<S(!new,==), N(!new,==), W(!new)>(
    o: Observation<S, N>, one: W, l: Observer<S>, e: Event, t: Transition<S, N>):
    seq<Action<S, N, W, Observer<S>, Finding<N>>>
  {
    if e != Out || t.symbol == o.epsilon then []
    else
      match l
      case Top =>
        if o.initial(t.target) then (if t.symbol == o.source then [Note(AnyContext, one)] else [])
        else if o.generated(t.target) then [Register(Sub(t.target))]
        else []
      case Sub(_) =>
        [Note(Element(t.symbol), one)]
        + if o.generated(t.target) && t.target != t.start then [Register(Sub(t.target))] else []
  }

  function StackSetup<S(!new,==), N(!new,==), W(!new)>(
    o: Observation<S, N>, alg: Semiring<W>): Setup<S, N, W, Observer<S>, Finding<N>>
  {
    Setup(alg, o.epsilon, (l: Observer<S>) => match l case Top => At(o.state) case Sub(q) => At(q),
          (l, e, t, w) => Observe(o, alg.one, l, e, t))
  }

  /** The listeners stay within the targets of the transitions, so the enumeration ends on cyclic automata. */
  lemma StackConfined<S(!new), N(!new), W(!new)>(o: Observation<S, N>, alg: Semiring<W>, ts: set<Transition<S, N>>)
    ensures Confined(StackSetup<S, N, W>(o, alg), StackArena(ts))
  {
  }

  /** Edges between generated states that the enumeration follows. */
  ghost function Inner<S(!new), N(!new)>(o: Observation<S, N>, ts: set<Transition<S, N>>): set<(S, S)> {
    set t | t in ts && t.symbol != o.epsilon && o.generated(t.target) :: (t.start, t.target)
  }

  ghost predicate Entry<S(!new), N(!new)>(o: Observation<S, N>, ts: set<Transition<S, N>>, q: S) {
    exists t ::
      && t in ts && t.start == o.state && t.symbol != o.epsilon && !o.initial(t.target)
      && o.generated(t.target) && t.target == q
  }

  /** A generated state that may be below the observed state on the stack. */
  ghost predicate OnStack<S(!new), N(!new)>(o: Observation<S, N>, ts: set<Transition<S, N>>, q: S) {
    exists r :: Entry(o, ts, r) && (r == q || Reachability.Connected(Inner(o, ts), r, q))
  }

  ghost predicate Found<S(!new), N(!new)>(o: Observation<S, N>, ts: set<Transition<S, N>>, k: Finding<N>) {
    match k
    case AnyContext =>
      exists t ::
        t in ts && t.start == o.state && t.symbol != o.epsilon && o.initial(t.target) && t.symbol == o.source
    case Element(n) => exists t :: t in ts && OnStack(o, ts, t.start) && t.symbol != o.epsilon && t.symbol == n
  }

  ghost predicate StackFact<S(!new), N(!new), W(!new)>(
    o: Observation<S, N>, one: W, ts: set<Transition<S, N>>, f: Knowledge<S, N, W>)
  {
    match f
    case Weighted(t, _) => t in ts
    case Listening(Top) => true
    case Listening(Sub(q)) => OnStack(o, ts, q)
    case Noted(k, w) => w == one && Found(o, ts, k)
  }

  lemma OnStackStep<S(!new), N(!new)>(o: Observation<S, N>, ts: set<Transition<S, N>>, t: Transition<S, N>)
    requires t in ts && OnStack(o, ts, t.start) && t.symbol != o.epsilon && o.generated(t.target)
    ensures OnStack(o, ts, t.target)
  {
    var r :| Entry(o, ts, r) && (r == t.start || Reachability.Connected(Inner(o, ts), r, t.start));
    assert (t.start, t.target) in Inner(o, ts);
    if r == t.start {
      Reachability.ConnectedEdge(Inner(o, ts), r, t.target);
    } else {
      Reachability.ConnectedStep(Inner(o, ts), r, t.start, t.target);
    }
  }

  lemma FindingsJustified<S(!new), N(!new), W(!new)>(
    o: Observation<S, N>, alg: Semiring<W>, inputs: set<Knowledge<S, N, W>>, ts: set<Transition<S, N>>,
    f: Knowledge<S, N, W>)
    requires alg.Joins() && forall i :: i in inputs ==> (i.Weighted? && i.t in ts) || i == Listening(Top)
    requires Derivable(StackSetup(o, alg), inputs, f)
    ensures StackFact(o, alg.one, ts, f)
  {
    var s: Setup<S, N, W, Observer<S>, Finding<N>> := StackSetup(o, alg);
    var justified := (f: Knowledge<S, N, W>) => StackFact(o, alg.one, ts, f);
    alg.LeqReflexive(alg.one);
    forall l, e, t, w, i | justified(Listening(l)) && justified(Weighted(t, w)) && Attached(s, l, e, t)
      && 0 <= i < |s.react(l, e, t, w)|
      ensures Yields(s, s.react(l, e, t, w)[i], justified)
    {
      if l.Top? {
        assert o.generated(t.target) && !o.initial(t.target) ==> Entry(o, ts, t.target);
      } else if o.generated(t.target) {
        OnStackStep(o, ts, t);
      }
    }
    assert Inductive(s, inputs, justified);
  }

  lemma Notified<S(!new), N(!new), W(!new)>(
    o: Observation<S, N>, alg: Semiring<W>, inputs: set<Knowledge<S, N, W>>, st: Contents<S, N, W>,
    l: Observer<S>, t: Transition<S, N>)
    requires Quiescent(StackSetup(o, alg), inputs, st) && l in st.listeners && t in st.weights
    requires t.start == (match l case Top => o.state case Sub(q) => q)
    ensures forall i :: 0 <= i < |Observe(o, alg.one, l, Out, t)| ==>
      Done(StackSetup(o, alg), Observe(o, alg.one, l, Out, t)[i], st)
  {
    var s: Setup<S, N, W, Observer<S>, Finding<N>> := StackSetup(o, alg);
    assert Attached(s, l, Out, t);
    assert Completed(s, Delivery(l, Out, t, st.weights[t]), st);
  }

  lemma EntryListened<S(!new), N(!new), W(!new)>(
    o: Observation<S, N>, alg: Semiring<W>, inputs: set<Knowledge<S, N, W>>, st: Contents<S, N, W>, q: S)
    requires Quiescent(StackSetup(o, alg), inputs, st) && Top in st.listeners && Entry(o, st.weights.Keys, q)
    ensures Sub(q) in st.listeners
  {
    var t :| t in st.weights.Keys && t.start == o.state && t.symbol != o.epsilon && !o.initial(t.target)
      && o.generated(t.target) && t.target == q;
    Notified(o, alg, inputs, st, Top, t);
    assert Done(StackSetup(o, alg), Observe(o, alg.one, Top, Out, t)[0], st);
  }

  lemma {:induction false} WalkListened<S(!new), N(!new), W(!new)>(
    o: Observation<S, N>, alg: Semiring<W>, inputs: set<Knowledge<S, N, W>>, st: Contents<S, N, W>, walk: seq<S>)
    requires Quiescent(StackSetup(o, alg), inputs, st)
    requires Reachability.Walk(Inner(o, st.weights.Keys), walk) && Sub(walk[0]) in st.listeners
    ensures Sub(walk[|walk| - 1]) in st.listeners
    decreases walk
  {
    var shorter := walk[..|walk| - 1];
    if |walk| > 2 {
      assert Reachability.Walk(Inner(o, st.weights.Keys), shorter);
      WalkListened(o, alg, inputs, st, shorter);
    }
    assert (walk[|walk| - 2], walk[|walk| - 2 + 1]) in Inner(o, st.weights.Keys);
    var t :| t in st.weights.Keys && t.symbol != o.epsilon && o.generated(t.target)
      && (walk[|walk| - 2], walk[|walk| - 1]) == (t.start, t.target);
    Notified(o, alg, inputs, st, Sub(t.start), t);
    if t.target != t.start {
      assert Done(StackSetup(o, alg), Observe(o, alg.one, Sub(t.start), Out, t)[1], st);
    }
  }

  /** The reported call sites are precisely the labels leaving the generated states on the stack, and each
      is reported once: on cyclic automata, in any order of arrival. */
  lemma EnumerationExact<S(!new), N(!new), W(!new)>(
    o: Observation<S, N>, alg: Semiring<W>, inputs: set<Knowledge<S, N, W>>, st: Contents<S, N, W>, k: Finding<N>)
    requires alg.Joins() && Quiescent(StackSetup(o, alg), inputs, st) && Listening(Top) in inputs
    requires forall i :: i in inputs ==> i.Weighted? || i == Listening(Top)
    ensures k in st.notes <==> Found(o, st.weights.Keys, k)
  {
    var ts, s := st.weights.Keys, StackSetup<S, N, W>(o, alg);
    var top: Knowledge<S, N, W> := Listening(Top);
    assert Holds(s, top, st);
    if k in st.notes {
      forall i | i in inputs && i.Weighted? ensures i.t in ts {
        assert Holds(s, i, st);
      }
      FindingsJustified(o, alg, inputs, ts, Noted(k, st.notes[k]));
    }
    if Found(o, ts, k) {
      match k
      case AnyContext =>
        var t :| t in ts && t.start == o.state && t.symbol != o.epsilon && o.initial(t.target) && t.symbol == o.source;
        Notified(o, alg, inputs, st, Top, t);
        assert Done(s, Observe(o, alg.one, Top, Out, t)[0], st);
      case Element(n) =>
        var t :| t in ts && OnStack(o, ts, t.start) && t.symbol != o.epsilon && t.symbol == n;
        OnStackListened(o, alg, inputs, st, t.start);
        Notified(o, alg, inputs, st, Sub(t.start), t);
        assert Done(s, Observe(o, alg.one, Sub(t.start), Out, t)[0], st);
    }
  }

  lemma OnStackListened<S(!new), N(!new), W(!new)>(
    o: Observation<S, N>, alg: Semiring<W>, inputs: set<Knowledge<S, N, W>>, st: Contents<S, N, W>, q: S)
    requires Quiescent(StackSetup(o, alg), inputs, st) && Top in st.listeners && OnStack(o, st.weights.Keys, q)
    ensures Sub(q) in st.listeners
  {
    var r :| Entry(o, st.weights.Keys, r) && (r == q || Reachability.Connected(Inner(o, st.weights.Keys), r, q));
    EntryListened(o, alg, inputs, st, r);
    if r != q {
      var walk :| Reachability.Walk(Inner(o, st.weights.Keys), walk) && walk[0] == r && walk[|walk| - 1] == q;
      WalkListened(o, alg, inputs, st, walk);
    }
  }

  ghost function StackArena<S(!new), N(!new)>(ts: set<Transition<S, N>>): Arena<S, N, Observer<S>> {
    Arena(ts, {Top} + (set t | t in ts :: Sub(t.target)), (l: Observer<S>) => false)
  }

  /** An automaton with a `StackListener`; transitions and the listener may come in any order. */
  class StackAutomaton<S(!new,==), N(!new,==), W(!new,==)> {
    const o: Observation<S, N>
    const aut: WeightedPAutomaton<S, N, W, Observer<S>, Finding<N>>
    ghost const alg: Semiring<W>
    ghost var supplied: set<Transition<S, N>>

    ghost predicate Valid()
      reads this, aut
    {
      && alg.Joins() && aut.setup == StackSetup(o, alg) && aut.Resting(StackArena(supplied))
      && forall i :: i in aut.inputs ==> i.Weighted? || i == Listening(Top)
    }

    constructor (o: Observation<S, N>, alg: Semiring<W>)
      requires alg.Joins()
      ensures Valid() && fresh(aut) && aut.inputs == {} && this.o == o && this.alg == alg
    {
      this.o, this.alg, supplied := o, alg, {};
      aut := new WeightedPAutomaton(StackSetup(o, alg));
      new;
      StackConfined<S, N, W>(o, alg, {});
      aut.Open(StackArena(supplied));
    }

    method AddTransition(t: Transition<S, N>, w: W)
      requires Valid()
      modifies this, aut
      ensures Valid()
      ensures aut.inputs == old(aut.inputs) +
              if t.start == t.target && t.symbol == o.epsilon then {} else {Weighted(t, w)}
    {
      ghost var arena, larger := StackArena(supplied), StackArena(supplied + {t});
      aut.RestingIsWithin(arena);
      StackConfined<S, N, W>(o, alg, supplied + {t});
      var _ := aut.Supply(t, w, arena, larger);
      if !Rejected(aut.setup, t) {
        supplied := supplied + {t};
      }
    }

    /** Register the `StackListener`. */
    method Listen()
      requires Valid()
      modifies aut
      ensures Valid() && aut.inputs == old(aut.inputs) + {Listening(Top)}
    {
      ghost var arena := StackArena(supplied);
      aut.RestingIsWithin(arena);
      StackConfined<S, N, W>(o, alg, supplied);
      aut.Subscribe(Top, arena, arena);
    }

    /** What has been reported is exactly what is to be found in the automaton. */
    lemma ReportsExact(k: Finding<N>)
      requires Valid() && Listening(Top) in aut.inputs
      ensures (exists i :: 0 <= i < |aut.reports| && aut.reports[i].0 == k) <==> Found(o, aut.weights.Keys, k)
    {
      aut.RestingIsQuiescent(StackArena(supplied));
      EnumerationExact(o, alg, aut.inputs, aut.Now(), k);
      if k in aut.notes {
        var i :| 0 <= i < |aut.reports| && aut.reports[i] == (k, aut.notes[k]);
      }
    }

    /** `notifiedStacks`: no call site is reported twice. */
    lemma ReportedOnce(i: nat, j: nat)
      requires Valid() && i < j < |aut.reports|
      ensures aut.reports[i].0 != aut.reports[j].0
    {
      var arena := StackArena(supplied);
      aut.RestingIsQuiescent(arena);
      aut.RestingIsWithin(arena);
      var ts := aut.weights.Keys;
      forall f | f in aut.inputs && f.Weighted?
        ensures f.t in ts
      {
        assert Holds(aut.setup, f, aut.Now());
      }
      aut.ReportIsDerivable(arena, i);
      aut.ReportIsDerivable(arena, j);
      FindingsJustified(o, alg, aut.inputs, ts, Noted(aut.reports[i].0, aut.reports[i].1));
      FindingsJustified(o, alg, aut.inputs, ts, Noted(aut.reports[j].0, aut.reports[j].1));
    }
  }
}
