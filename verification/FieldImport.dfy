/** `ExecuteImportFieldStmtPOI`: transitions of the base automaton are copied into the flow automaton,
    but only once their target is known to lead to a state where the stored field is attached. */
module FieldImport {
  import opened Multimaps
  import opened Automata
  import Reachability
  import opened Semirings

  ghost function Edges<S(!new), F(!new)>(ts: set<Transition<S, F>>): set<(S, S)> {
    set t | t in ts :: (t.start, t.target)
  }

  /** `q` is triggered, or leads to a triggered state over queued transitions. */
  ghost predicate LeadsToTrigger<S(!new), F(!new)>(queued: set<Transition<S, F>>, triggered: set<S>, q: S) {
    q in triggered || exists s :: s in triggered && Reachability.Connected(Edges(queued), q, s)
  }

  lemma LeadsByStep<S(!new), F(!new)>(queued: set<Transition<S, F>>, triggered: set<S>, t: Transition<S, F>)
    requires t in queued && LeadsToTrigger(queued, triggered, t.target)
    ensures LeadsToTrigger(queued, triggered, t.start)
  {
    var edges := Edges(queued);
    assert (t.start, t.target) in edges;
    if t.target in triggered {
      Reachability.ConnectedEdge(edges, t.start, t.target);
    } else {
      var s :| s in triggered && Reachability.Connected(edges, t.target, s);
      Reachability.ConnectedFirst(edges, t.start, t.target, s);
    }
  }

  lemma LeadsGrows<S(!new), F(!new)>(
    queued: set<Transition<S, F>>, triggered: set<S>, queued': set<Transition<S, F>>, triggered': set<S>, q: S)
    requires queued <= queued' && triggered <= triggered' && LeadsToTrigger(queued, triggered, q)
    ensures LeadsToTrigger(queued', triggered', q)
  {
    if q !in triggered {
      var s :| s in triggered && Reachability.Connected(Edges(queued), q, s);
      forall e | e in Edges(queued) ensures e in Edges(queued') {
        var t :| t in queued && e == (t.start, t.target);
        assert t in queued';
      }
      Reachability.ConnectedGrows(Edges(queued), Edges(queued'), q, s);
    }
  }

  /** A set that contains the triggered states and is closed backwards contains all states that lead to them. */
  lemma {:induction false} BackwardClosed<S(!new), F(!new)>(queued: set<Transition<S, F>>, walk: seq<S>, r: set<S>)
    requires Reachability.Walk(Edges(queued), walk) && walk[|walk| - 1] in r
    requires forall t :: t in queued && t.target in r ==> t.start in r
    ensures walk[0] in r
    decreases walk
  {
    var rest := walk[1..];
    assert (walk[0], walk[0 + 1]) in Edges(queued);
    var t :| t in queued && (walk[0], walk[1]) == (t.start, t.target);
    if |rest| >= 2 {
      forall i | 0 <= i < |rest| - 1 ensures (rest[i], rest[i + 1]) in Edges(queued) {
        assert (walk[i + 1], walk[i + 1 + 1]) in Edges(queued);
      }
      BackwardClosed(queued, rest, r);
    }
  }

  class DelayedTransitions<S(==,!new), F(==,!new)> {
    const field: F
    /** The state `createState(<stmt, base>, field)`. */
    const middle: S
    var reachable: set<S>
    var delayed: map<S, set<Transition<S, F>>>
    /** What has been inserted into the flow automaton. */
    var flow: set<Transition<S, F>>
    ghost var queued: set<Transition<S, F>>
    ghost var triggered: set<S>

    /** `owed`: delayed transitions whose target is reachable and that some call in progress will insert. */
    ghost predicate Inv(owed: set<Transition<S, F>>)
      reads this
    {
      && (forall q, t: Transition<S, F> :: t in Get(delayed, q) ==> t.target == q && t in queued)
      && (forall t :: t in queued ==> t.target in reachable || t in Get(delayed, t.target))
      && (forall t :: t in queued && t.target in reachable ==> (t in flow && t.start in reachable) || t in owed)
      && (forall q :: q in reachable ==> LeadsToTrigger(queued, triggered, q))
      && (forall t :: t in flow ==>
            || (t in queued && t.target in reachable)
            || (t.start in triggered && t == Transition(t.start, field, middle)))
    }

    ghost predicate Valid()
      reads this
    {
      && Inv({}) && triggered <= reachable
      && forall q :: q in triggered ==> Transition(q, field, middle) in flow
    }

    constructor (field: F, middle: S)
      ensures Valid() && queued == {} && triggered == {} && flow == {} && this.field == field && this.middle == middle
    {
      this.field, this.middle := field, middle;
      reachable, delayed, flow, queued, triggered := {}, map[], {}, {}, {};
    }

    /** `addReachable`; `InsertFieldTransitionCallback.trigger` calls it back. */
    method AddReachable(node: S, ghost owed: set<Transition<S, F>>)
      requires Inv(owed) && LeadsToTrigger(queued, triggered, node)
      modifies `reachable, `flow
      ensures Inv(owed) && old(reachable) + {node} <= reachable && old(flow) <= flow
      decreases States() - reachable, if node in reachable then 0 else 1
    {
      if node in reachable {
        return;
      }
      LeadsIsState(node);
      reachable := reachable + {node};
      var todo := Get(delayed, node);
      while todo != {}
        invariant todo <= Get(delayed, node)
        invariant Inv(owed + todo) && old(reachable) + {node} <= reachable && old(flow) <= flow
        decreases todo
      {
        var t :| t in todo;
        todo := todo - {t};
        flow := flow + {t};
        LeadsByStep(queued, triggered, t);
        AddReachable(t.start, owed + todo + {t});
      }
    }

    ghost function States(): set<S>
      reads `queued, `triggered
    {
      (set t | t in queued :: t.start) + triggered
    }

    lemma LeadsIsState(q: S)
      requires LeadsToTrigger(queued, triggered, q)
      ensures q in States()
    {
      if q !in triggered {
        var s :| s in triggered && Reachability.Connected(Edges(queued), q, s);
        var walk :| Reachability.Walk(Edges(queued), walk) && walk[0] == q && walk[|walk| - 1] == s;
        assert (walk[0], walk[0 + 1]) in Edges(queued);
      }
    }

    /** `queueOrAdd` */
    method QueueOrAdd(t: Transition<S, F>)
      requires Valid()
      modifies `reachable, `delayed, `flow, `queued
      ensures Valid() && queued == old(queued) + {t} && triggered == old(triggered)
    {
      assert forall q :: LeadsToTrigger(queued, triggered, q) ==> LeadsToTrigger(queued + {t}, triggered, q) by {
        forall q | LeadsToTrigger(queued, triggered, q) ensures LeadsToTrigger(queued + {t}, triggered, q) {
          LeadsGrows(queued, triggered, queued + {t}, triggered, q);
        }
      }
      queued := queued + {t};
      if t.target in reachable {
        flow := flow + {t};
        LeadsByStep(queued, triggered, t);
        AddReachable(t.start, {t});
      } else {
        PutMember(delayed, t.target, t);
        delayed := Put(delayed, t.target, t);
      }
    }

    /** `trigger` */
    method Trigger(start: S)
      requires Valid()
      modifies `reachable, `flow, `triggered
      ensures Valid() && triggered == old(triggered) + {start} && queued == old(queued)
    {
      assert forall q :: LeadsToTrigger(queued, triggered, q) ==> LeadsToTrigger(queued, triggered + {start}, q) by {
        forall q | LeadsToTrigger(queued, triggered, q) ensures LeadsToTrigger(queued, triggered + {start}, q) {
          LeadsGrows(queued, triggered, queued, triggered + {start}, q);
        }
      }
      triggered := triggered + {start};
      flow := flow + {Transition(start, field, middle)};
      AddReachable(start, {});
    }

    /** Deferred insertion equals the batch backward closure: in whatever order transitions were queued and
        states triggered, the flow automaton holds exactly the queued transitions whose target leads to a
        trigger, and the connecting transitions. */
    lemma FlowIsBatchClosure(t: Transition<S, F>)
      requires Valid()
      ensures t in flow <==> || (t in queued && LeadsToTrigger(queued, triggered, t.target))
                             || (t.start in triggered && t == Transition(t.start, field, middle))
      ensures forall q :: q in reachable <==> LeadsToTrigger(queued, triggered, q)
    {
      forall q | LeadsToTrigger(queued, triggered, q) ensures q in reachable {
        if q !in triggered {
          var s :| s in triggered && Reachability.Connected(Edges(queued), q, s);
          var walk :| Reachability.Walk(Edges(queued), walk) && walk[0] == q && walk[|walk| - 1] == s;
          BackwardClosed(queued, walk, reachable);
        }
      }
    }
  }

  // ----- Which transitions of the base automaton are imported -----

  /** Field labels: `Field.epsilon()`, `Field.empty()`, and fields. */
  datatype FieldLabel<F> = EpsilonField | NoField | Named(f: F)

  /** `alias`: not generated, and at the statement of the point of indirection. */
  datatype Scope<!S> = Scope(alias: S -> bool, generated: S -> bool, unbalanced: S -> bool)

  /** `ImportIndirectAliases` and `ImportFieldTransitionsFrom`. */
  datatype Importer<S> = FromAliases | FromState(q: S)

  /** `queueOrAdd(t)` and `activate(q)`, which is `trigger(q)` for a single point of indirection. */
  datatype Command<S, F> = Queue(t: Transition<S, FieldLabel<F>>) | Activate(q: S)

  type Copy<S, F> = Transition<S, FieldLabel<F>>
  type Import<!S(!new), !F(!new), !W(!new)> = Setup<S, FieldLabel<F>, W, Importer<S>, Command<S, F>>

  type Step<S, F, W> = Action<S, FieldLabel<F>, W, Importer<S>, Command<S, F>>
  type Knowledge<S, F, W> = Fact<S, FieldLabel<F>, W, Importer<S>, Command<S, F>>

  /** `importFieldTransitionsStartingAt` */
  function ImportFrom<S(!new), F(!new), W(!new)>(scope: Scope<S>, one: W, t: Copy<S, F>): seq<Step<S, F, W>> {
    match t.symbol
    case EpsilonField => []
    case NoField => if scope.unbalanced(t.target) then [Note(Activate(t.start), one)] else []
    case Named(_) => if scope.generated(t.target) then [Note(Queue(t), one), Register(FromState(t.target))] else []
  }

  function ReactImport<S(!new), F(!new), W(!new)>(
    scope: Scope<S>, one: W, l: Importer<S>, e: Event, t: Copy<S, F>): seq<Step<S, F, W>>
  {
    match l
    case FromAliases => if e == Added && scope.alias(t.start) then ImportFrom(scope, one, t) else []
    case FromState(_) => if e == Out then ImportFrom(scope, one, t) else []
  }

  function ImportSetup<S(!new), F(!new), W(!new)>(scope: Scope<S>, alg: Semiring<W>): Import<S, F, W> {
    Setup(alg, EpsilonField, (l: Importer<S>) => match l case FromAliases => Everywhere case FromState(q) => At(q),
          (l, e, t, w) => ReactImport(scope, alg.one, l, e, t))
  }

  ghost function Importable<S(!new), F(!new)>(scope: Scope<S>, base: set<Copy<S, F>>): set<Copy<S, F>> {
    set t | t in base && t.symbol.Named? && scope.generated(t.target)
  }

  /** An alias, or a generated state that a chain of fields leads to from an alias. */
  ghost predicate Source<S(!new), F(!new)>(scope: Scope<S>, base: set<Copy<S, F>>, q: S) {
    scope.alias(q) || exists a :: scope.alias(a) && Reachability.Connected(Edges(Importable(scope, base)), a, q)
  }

  lemma SourceStep<S(!new), F(!new)>(scope: Scope<S>, base: set<Copy<S, F>>, t: Copy<S, F>)
    requires t in Importable(scope, base) && Source(scope, base, t.start)
    ensures Source(scope, base, t.target)
  {
    var edges := Edges(Importable(scope, base));
    assert (t.start, t.target) in edges;
    if scope.alias(t.start) {
      Reachability.ConnectedEdge(edges, t.start, t.target);
    } else {
      var a :| scope.alias(a) && Reachability.Connected(edges, a, t.start);
      Reachability.ConnectedStep(edges, a, t.start, t.target);
    }
  }

  /** The base points to a stored object at `q`: an empty-field edge to an unbalanced state. */
  ghost predicate Activating<S(!new), F(!new)>(scope: Scope<S>, base: set<Copy<S, F>>, q: S) {
    exists t :: t in base && t.symbol == NoField && scope.unbalanced(t.target) && t.start == q
  }

  ghost predicate Called<S(!new), F(!new)>(scope: Scope<S>, base: set<Copy<S, F>>, k: Command<S, F>) {
    match k
    case Queue(t) => t in Importable(scope, base) && Source(scope, base, t.start)
    case Activate(q) => Source(scope, base, q) && Activating(scope, base, q)
  }

  ghost predicate ImportFact<S(!new), F(!new), W(!new)>(
    scope: Scope<S>, base: set<Copy<S, F>>, f: Knowledge<S, F, W>)
  {
    match f
    case Weighted(t, _) => t in base
    case Listening(FromAliases) => true
    case Listening(FromState(q)) => Source(scope, base, q)
    case Noted(k, _) => Called(scope, base, k)
  }

  /** Nothing is imported that is not called for. */
  lemma ImportsJustified<S(!new), F(!new), W(!new)>(
    scope: Scope<S>, alg: Semiring<W>, inputs: set<Knowledge<S, F, W>>, base: set<Copy<S, F>>,
    f: Knowledge<S, F, W>)
    requires forall i :: i in inputs ==> (i.Weighted? && i.t in base) || i == Listening(FromAliases)
    requires Derivable(ImportSetup(scope, alg), inputs, f)
    ensures ImportFact(scope, base, f)
  {
    var s: Import<S, F, W> := ImportSetup(scope, alg);
    var justified := (f: Knowledge<S, F, W>) => ImportFact(scope, base, f);
    forall l, e, t, w, i | justified(Listening(l)) && justified(Weighted(t, w)) && Attached(s, l, e, t)
      && 0 <= i < |s.react(l, e, t, w)|
      ensures Yields(s, s.react(l, e, t, w)[i], justified)
    {
      assert Source(scope, base, t.start);
      if t in Importable(scope, base) {
        SourceStep(scope, base, t);
      }
    }
    assert Inductive(s, inputs, justified);
  }

  type BaseState<S(==), F(==), W(==)> = State<S, FieldLabel<F>, W, Importer<S>, Command<S, F>>

  ghost predicate Watched<S(!new), F(!new), W(!new)>(scope: Scope<S>, st: BaseState<S, F, W>, q: S) {
    scope.alias(q) || FromState(q) in st.listeners
  }

  lemma WatchedImports<S(!new), F(!new), W(!new)>(
    scope: Scope<S>, alg: Semiring<W>, inputs: set<Knowledge<S, F, W>>, st: BaseState<S, F, W>, t: Copy<S, F>)
    requires Quiescent(ImportSetup(scope, alg), inputs, st) && Listening(FromAliases) in inputs
    requires t in st.weights && Watched(scope, st, t.start)
    ensures t in Importable(scope, st.weights.Keys) ==> Queue(t) in st.notes && FromState(t.target) in st.listeners
    ensures t.symbol == NoField && scope.unbalanced(t.target) ==> Activate(t.start) in st.notes
  {
    var s: Import<S, F, W> := ImportSetup(scope, alg);
    var f: Fact<S, FieldLabel<F>, W, Importer<S>, Command<S, F>> := Listening(FromAliases);
    assert Holds(s, f, st);
    var l := if scope.alias(t.start) then FromAliases else FromState(t.start);
    var e := if scope.alias(t.start) then Added else Out;
    assert l in st.listeners && Attached(s, l, e, t);
    var d := Delivery(l, e, t, st.weights[t]);
    assert Completed(s, d, st);
    var actions := s.react(l, e, t, st.weights[t]);
    assert actions == ImportFrom(scope, alg.one, t);
    assert forall i :: 0 <= i < |actions| ==> Done(s, actions[i], st);
    if t in Importable(scope, st.weights.Keys) {
      assert Done(s, actions[0], st) && Done(s, actions[1], st);
    } else if t.symbol == NoField && scope.unbalanced(t.target) {
      assert Done(s, actions[0], st);
    }
  }

  lemma {:induction false} ChainWatched<S(!new), F(!new), W(!new)>(
    scope: Scope<S>, alg: Semiring<W>, inputs: set<Knowledge<S, F, W>>, st: BaseState<S, F, W>, walk: seq<S>)
    requires Quiescent(ImportSetup(scope, alg), inputs, st) && Listening(FromAliases) in inputs
    requires Reachability.Walk(Edges(Importable(scope, st.weights.Keys)), walk) && scope.alias(walk[0])
    ensures Watched(scope, st, walk[|walk| - 1])
    decreases walk
  {
    var shorter := walk[..|walk| - 1];
    if |walk| > 2 {
      assert Reachability.Walk(Edges(Importable(scope, st.weights.Keys)), shorter);
      ChainWatched(scope, alg, inputs, st, shorter);
    }
    assert (walk[|walk| - 2], walk[|walk| - 2 + 1]) in Edges(Importable(scope, st.weights.Keys));
    var t :| t in Importable(scope, st.weights.Keys) && (walk[|walk| - 2], walk[|walk| - 1]) == (t.start, t.target);
    WatchedImports(scope, alg, inputs, st, t);
  }

  /** What the base automaton makes the point of indirection do, in any order of arrival: queue exactly the
      importable transitions behind the aliases, and activate exactly the sources that point to a stored object. */
  lemma ImportsExact<S(!new), F(!new), W(!new)>(
    scope: Scope<S>, alg: Semiring<W>, inputs: set<Knowledge<S, F, W>>, st: BaseState<S, F, W>, k: Command<S, F>)
    requires Quiescent(ImportSetup(scope, alg), inputs, st) && Listening(FromAliases) in inputs
    requires forall i :: i in inputs ==> i.Weighted? || i == Listening(FromAliases)
    ensures k in st.notes <==> Called(scope, st.weights.Keys, k)
  {
    var base := st.weights.Keys;
    if k in st.notes {
      forall i | i in inputs && i.Weighted? ensures i.t in base {
        assert Holds(ImportSetup(scope, alg), i, st);
      }
      ImportsJustified(scope, alg, inputs, base, Noted(k, st.notes[k]));
    }
    if Called(scope, base, k) {
      var q := if k.Queue? then k.t.start else k.q;
      if !scope.alias(q) {
        var a :| scope.alias(a) && Reachability.Connected(Edges(Importable(scope, base)), a, q);
        var walk :| Reachability.Walk(Edges(Importable(scope, base)), walk) && walk[0] == a && walk[|walk| - 1] == q;
        ChainWatched(scope, alg, inputs, st, walk);
      }
      var t: Copy<S, F> := if k.Queue? then k.t else ActivatingEdge(scope, base, q);
      WatchedImports(scope, alg, inputs, st, t);
    }
  }

  ghost function ActivatingEdge<S(!new), F(!new)>(scope: Scope<S>, base: set<Copy<S, F>>, q: S): (t: Copy<S, F>)
    requires Activating(scope, base, q)
    ensures t in base && t.symbol == NoField && scope.unbalanced(t.target) && t.start == q
  {
    var t :| t in base && t.symbol == NoField && scope.unbalanced(t.target) && t.start == q;
    t
  }

  ghost function Queued<S(!new), F(!new)>(scope: Scope<S>, base: set<Copy<S, F>>): set<Copy<S, F>> {
    set t | t in base && Called(scope, base, Queue(t))
  }

  ghost function Triggered<S(!new), F(!new)>(scope: Scope<S>, base: set<Copy<S, F>>): set<S> {
    set t | t in base && Called(scope, base, Activate(t.start)) :: t.start
  }

  // ----- Both automata together -----

  ghost function ImportArena<S(!new), F(!new)>(ts: set<Copy<S, F>>): Arena<S, FieldLabel<F>, Importer<S>> {
    Arena(ts, {FromAliases} + set t | t in ts :: FromState(t.target), (l: Importer<S>) => false)
  }

  lemma ImportConfined<S(!new), F(!new), W(!new)>(scope: Scope<S>, alg: Semiring<W>, ts: set<Copy<S, F>>)
    ensures Confined(ImportSetup<S, F, W>(scope, alg), ImportArena(ts))
  {
  }

  ghost predicate Chain<S(!new), F(!new)>(q: S, path: seq<Transition<S, F>>, q': S)
    decreases path
  {
    if path == [] then q == q' else path[0].start == q && Chain(path[0].target, path[1..], q')
  }

  ghost function Commands<S(!new), F(!new), W(!new)>(reports: seq<(Command<S, F>, W)>): set<Command<S, F>> {
    set i | 0 <= i < |reports| :: reports[i].0
  }

  lemma NextCommand<S(!new), F(!new), W(!new)>(reports: seq<(Command<S, F>, W)>, n: nat)
    requires n < |reports|
    ensures Commands(reports[..n + 1]) == Commands(reports[..n]) + {reports[n].0}
  {
    var some, more := reports[..n], reports[..n + 1];
    forall k | k in Commands(some) + {reports[n].0} ensures k in Commands(more) {
      if k in Commands(some) {
        var i :| 0 <= i < |some| && some[i].0 == k;
        assert more[i].0 == k;
      } else {
        assert more[n].0 == k;
      }
    }
  }

  class ExecuteImportFieldStmtPOI<S(==,!new), F(==,!new), W(==,!new)> {
    const scope: Scope<S>
    const alg: Semiring<W>
    const base: WeightedPAutomaton<S, FieldLabel<F>, W, Importer<S>, Command<S, F>>
    const poi: DelayedTransitions<S, FieldLabel<F>>
    var active: bool
    /** Number of commands carried out. */
    var handled: nat
    ghost var supplied: set<Copy<S, F>>

    ghost predicate CarriedOut(commands: set<Command<S, F>>)
      reads poi
    {
      && (forall t :: t in poi.queued <==> Queue(t) in commands)
      && (forall q :: q in poi.triggered <==> Activate(q) in commands)
    }

    ghost predicate BaseSide()
      reads this`active, this`supplied, base
    {
      && alg.Joins()
      && base.setup == ImportSetup(scope, alg)
      && base.Resting(ImportArena(supplied))
      && (forall i :: i in base.inputs ==> i.Weighted? || i == Listening(FromAliases))
      && (active <==> Listening(FromAliases) in base.inputs)
    }

    ghost predicate Consistent()
      reads this, base, poi
    {
      BaseSide() && poi.Valid()
    }

    ghost predicate Valid()
      reads this, base, poi
    {
      Consistent() && handled == |base.reports| && CarriedOut(Commands(base.reports))
    }

    constructor (scope: Scope<S>, alg: Semiring<W>, field: FieldLabel<F>, middle: S)
      requires alg.Joins()
      ensures Valid() && !active && fresh(base) && fresh(poi) && base.inputs == {}
      ensures this.scope == scope && this.alg == alg && poi.field == field && poi.middle == middle
    {
      this.scope, this.alg := scope, alg;
      active, handled, supplied := false, 0, {};
      base := new WeightedPAutomaton(ImportSetup(scope, alg));
      poi := new DelayedTransitions(field, middle);
      new;
      ImportConfined<S, F, W>(scope, alg, {});
      base.Open(ImportArena(supplied));
    }

    method Obey(command: Command<S, F>, ghost before: set<Command<S, F>>)
      requires poi.Valid() && CarriedOut(before)
      modifies poi
      ensures poi.Valid() && CarriedOut(before + {command})
    {
      match command {
        case Queue(t) => poi.QueueOrAdd(t);
        case Activate(q) => poi.Trigger(q);
      }
    }

    /** The callbacks of the base automaton, in the order in which they were made. */
    method CarryOut()
      requires Consistent() && handled <= |base.reports| && CarriedOut(Commands(base.reports[..handled]))
      modifies this`handled, poi
      ensures Valid()
    {
      while handled < |base.reports|
        invariant Consistent() && handled <= |base.reports| && CarriedOut(Commands(base.reports[..handled]))
        decreases |base.reports| - handled
      {
        CarryOutNext();
      }
      assert base.reports[..handled] == base.reports;
    }

    method CarryOutNext()
      requires Consistent() && handled < |base.reports| && CarriedOut(Commands(base.reports[..handled]))
      modifies this`handled, poi
      ensures Consistent() && handled == old(handled) + 1 && CarriedOut(Commands(base.reports[..handled]))
    {
      NextCommand(base.reports, handled);
      Obey(base.reports[handled].0, Commands(base.reports[..handled]));
      handled := handled + 1;
    }

    /** `flowsTo`: the base variable may point to the object. */
    method FlowsTo()
      requires Valid()
      modifies this, base, poi
      ensures Valid() && active && base.inputs == old(base.inputs) + {Listening(FromAliases)}
    {
      if active {
        return;
      }
      active := true;
      ghost var was := base.reports;
      ghost var arena := ImportArena(supplied);
      base.RestingIsWithin(arena);
      ImportConfined<S, F, W>(scope, alg, supplied);
      base.Subscribe(FromAliases, arena, arena);
      assert base.reports[..handled] == was;
      CarryOut();
    }

    /** A transition of the base automaton, at any time. */
    method AddBaseTransition(t: Copy<S, F>, w: W)
      requires Valid()
      modifies this, base, poi
      ensures Valid() && active == old(active)
      ensures base.inputs == old(base.inputs) +
              if t.start == t.target && t.symbol == EpsilonField then {} else {Weighted(t, w)}
    {
      ghost var was := base.reports;
      ghost var arena, larger := ImportArena(supplied), ImportArena(supplied + {t});
      base.RestingIsWithin(arena);
      ImportConfined<S, F, W>(scope, alg, supplied + {t});
      var _ := base.Supply(t, w, arena, larger);
      if !Rejected(base.setup, t) {
        supplied := supplied + {t};
      }
      assert base.reports[..handled] == was;
      CarryOut();
    }

    /** Import reads the base automaton and does not change it: it holds what was added to it. */
    lemma BaseIsWhatWasAdded(t: Copy<S, F>)
      requires Valid()
      ensures t in base.weights <==> exists w :: Weighted(t, w) in base.inputs
    {
      base.RestingIsQuiescent(ImportArena(supplied));
      var added := set i | i in base.inputs && i.Weighted? :: i.t;
      if t in base.weights {
        ImportsJustified(scope, alg, base.inputs, added, Weighted(t, base.weights[t]));
        var i :| i in base.inputs && i.Weighted? && i.t == t;
        assert i == Weighted(t, i.w);
      }
      if w :| Weighted(t, w) in base.inputs {
        assert Holds(base.setup, Weighted(t, w), base.Now());
      }
    }

    /** The queue and the triggers are exactly what the base automaton calls for. */
    lemma CommandsExact()
      requires Valid() && active
      ensures forall t :: t in poi.queued <==> Called(scope, base.weights.Keys, Queue(t))
      ensures forall q :: q in poi.triggered <==> Called(scope, base.weights.Keys, Activate(q))
    {
      base.RestingIsQuiescent(ImportArena(supplied));
      forall k ensures k in base.notes <==> Called(scope, base.weights.Keys, k) {
        ImportsExact(scope, alg, base.inputs, base.Now(), k);
      }
      forall k: Command<S, F> ensures k in base.notes <==> k in Commands(base.reports) {
        if k in base.notes {
          var i :| 0 <= i < |base.reports| && base.reports[i] == (k, base.notes[k]);
          assert base.reports[i].0 == k;
        }
      }
    }

    /** The flow automaton, as a function of the base automaton: what is called for and leads to an activation, and the
        connecting transitions. */
    lemma FlowIsExact(t: Copy<S, F>)
      requires Valid() && active
      ensures var base := base.weights.Keys;
              t in poi.flow <==>
              || (&& Called(scope, base, Queue(t))
                  && LeadsToTrigger(Queued(scope, base), Triggered(scope, base), t.target))
              || (Called(scope, base, Activate(t.start)) && t == Transition(t.start, poi.field, poi.middle))
    {
      CommandsExact();
      var edges := base.weights.Keys;
      forall q
        ensures q in poi.triggered <==> q in Triggered(scope, edges)
      {
        if Called(scope, edges, Activate(q)) {
          assert ActivatingEdge(scope, edges, q) in edges;
        }
      }
      assert poi.queued == Queued(scope, edges) && poi.triggered == Triggered(scope, edges);
      poi.FlowIsBatchClosure(t);
    }

    /** Whatever is inserted starts at a source of the base automaton. */
    lemma StartsAtSource(t: Copy<S, F>)
      requires Valid() && active && t in poi.flow
      ensures Source(scope, base.weights.Keys, t.start)
    {
      CommandsExact();
      poi.FlowIsBatchClosure(t);
    }

    /** The intermediate state of the point of indirection is new to the base automaton. */
    ghost predicate MiddleIsNew()
      reads this, base, poi
    {
      !scope.alias(poi.middle) && forall t :: t in base.weights ==> t.target != poi.middle
    }

    lemma MiddleIsNoSource()
      requires MiddleIsNew()
      ensures !Source(scope, base.weights.Keys, poi.middle)
    {
      var edges := Edges(Importable(scope, base.weights.Keys));
      assert forall e :: e in edges ==> e.1 != poi.middle;
      forall a {
        Reachability.ConnectedLast(edges, a, poi.middle);
      }
    }

    lemma {:induction false} ChainAvoidsMiddle(x: S, path: seq<Copy<S, F>>, q: S)
      requires Valid() && active && MiddleIsNew() && Chain(x, path, q) && Source(scope, base.weights.Keys, q)
      requires forall t :: t in path ==> t in poi.flow
      ensures forall t :: t in path ==> t.target != poi.middle
      decreases path
    {
      if path != [] {
        var rest := path[1..];
        ChainAvoidsMiddle(path[0].target, rest, q);
        if rest != [] {
          StartsAtSource(rest[0]);
        }
        MiddleIsNoSource();
      }
    }

    /** Import produces exactly the required access paths: the fields along `path` from the alias `x`, then
        the stored field, are in the flow automaton if and only if they are in the base automaton and lead
        to a state that points to a stored object. */
    lemma AccessPathsExact(x: S, path: seq<Copy<S, F>>, q: S)
      requires Valid() && active && scope.alias(x) && Chain(x, path, q)
      ensures var base := base.weights.Keys;
              var required := (forall t :: t in path ==> t in Importable(scope, base)) && Activating(scope, base, q);
              var imported := (forall t :: t in path ==> t in poi.flow)
                && Transition(q, poi.field, poi.middle) in poi.flow;
              (required ==> imported) && (MiddleIsNew() && imported ==> required)
    {
      CommandsExact();
      var edges := base.weights.Keys;
      var last := Transition(q, poi.field, poi.middle);
      if (forall t :: t in path ==> t in Importable(scope, edges)) && Activating(scope, edges, q) {
        ChainCalled(scope, edges, x, path, q);
        ChainInFlow(x, path, q);
        poi.FlowIsBatchClosure(last);
      }
      if (forall t :: t in path ==> t in poi.flow) && last in poi.flow && MiddleIsNew() {
        StartsAtSource(last);
        ChainAvoidsMiddle(x, path, q);
        forall t | t in path ensures t in Importable(scope, edges) {
          poi.FlowIsBatchClosure(t);
        }
        poi.FlowIsBatchClosure(last);
      }
    }

    lemma {:induction false} ChainInFlow(x: S, path: seq<Copy<S, F>>, q: S)
      requires Valid() && q in poi.triggered && Chain(x, path, q)
      requires forall t :: t in path ==> t in poi.queued
      ensures LeadsToTrigger(poi.queued, poi.triggered, x)
      ensures forall t :: t in path ==> t in poi.flow
      decreases path
    {
      if path != [] {
        var t := path[0];
        ChainInFlow(t.target, path[1..], q);
        LeadsByStep(poi.queued, poi.triggered, t);
        poi.FlowIsBatchClosure(t);
      }
    }
  }

  lemma {:induction false} ChainCalled<S(!new), F(!new)>(
    scope: Scope<S>, base: set<Copy<S, F>>, x: S, path: seq<Copy<S, F>>, q: S)
    requires Source(scope, base, x) && Chain(x, path, q)
    requires forall t :: t in path ==> t in Importable(scope, base)
    ensures Source(scope, base, q) && forall t :: t in path ==> Called(scope, base, Queue(t))
    decreases path
  {
    if path != [] {
      SourceStep(scope, base, path[0]);
      ChainCalled(scope, base, path[0].target, path[1..], q);
    }
  }
}
