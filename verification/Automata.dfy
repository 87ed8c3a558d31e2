/** Weighted automata whose listeners are called, re-entrantly, from inside the update they observe.
    What the callbacks of the listeners do is a parameter (`Setup.react`). */
module Automata {
  import opened Multimaps
  import opened Semirings

  datatype Transition<S, N> = Transition(start: S, symbol: N, target: S)

  /** A state listener sits at one state; an update listener hears about every transition. */
  datatype Place<S> = Everywhere | At(state: S)

  datatype Event = Added | Out | In

  /** What one callback does, in order. `Note` records a weight under a key, as `unbalancedPop` does. */
  datatype Action<S, N, W, L, E> =
    | Update(t: Transition<S, N>, w: W)
    | Register(l: L)
    | Note(key: E, weight: W)

  datatype Fact<S, N, W, L, E> =
    | Weighted(t: Transition<S, N>, w: W)
    | Listening(l: L)
    | Noted(key: E, weight: W)

  datatype Delivery<S, N, W, L> = Delivery(l: L, event: Event, t: Transition<S, N>, w: W)

  datatype Setup<!S(!new), !N(!new), !W(!new), !L(!new), !E(!new)> = Setup(
    alg: Semiring<W>,
    epsilon: N,
    place: L -> Place<S>,
    react: (L, Event, Transition<S, N>, W) -> seq<Action<S, N, W, L, E>>)

  /** An epsilon self-loop is never inserted. */
  predicate Rejected<S(!new,==), N(!new,==), W(!new), L(!new), E(!new)>(s: Setup<S, N, W, L, E>, t: Transition<S, N>) {
    t.start == t.target && t.symbol == s.epsilon
  }

  predicate Attached<S(!new,==), N(!new), W(!new), L(!new), E(!new)>(
    s: Setup<S, N, W, L, E>, l: L, event: Event, t: Transition<S, N>)
  {
    match event
    case Added => s.place(l) == Everywhere
    case Out => s.place(l) == At(t.start)
    case In => s.place(l) == At(t.target)
  }

  // ----- What the callbacks can produce: the least set of facts closed under them -----

  ghost predicate Yields<S(!new), N(!new), W(!new), L(!new), E(!new)>(
    s: Setup<S, N, W, L, E>, a: Action<S, N, W, L, E>, facts: Fact<S, N, W, L, E> -> bool)
  {
    match a
    case Update(t, w) => Rejected(s, t) || facts(Weighted(t, w))
    case Register(l) => facts(Listening(l))
    case Note(k, w) => facts(Noted(k, w))
  }

  ghost predicate Inductive<S(!new), N(!new), W(!new), L(!new), E(!new)>(
    s: Setup<S, N, W, L, E>, inputs: set<Fact<S, N, W, L, E>>, facts: Fact<S, N, W, L, E> -> bool)
  {
    && (forall f :: f in inputs ==> facts(f))
    && (forall t, v, w :: facts(Weighted(t, v)) && facts(Weighted(t, w)) ==> facts(Weighted(t, s.alg.combine(v, w))))
    && (forall k, v, w :: facts(Noted(k, v)) && facts(Noted(k, w)) ==> facts(Noted(k, s.alg.combine(v, w))))
    && (forall l, e, t, w, i :: (facts(Listening(l)) && facts(Weighted(t, w)) && Attached(s, l, e, t)
          && 0 <= i < |s.react(l, e, t, w)|) ==> Yields(s, s.react(l, e, t, w)[i], facts))
  }

  ghost predicate Derivable<S(!new), N(!new), W(!new), L(!new), E(!new)>(
    s: Setup<S, N, W, L, E>, inputs: set<Fact<S, N, W, L, E>>, f: Fact<S, N, W, L, E>)
  {
    forall facts: Fact<S, N, W, L, E> -> bool :: Inductive(s, inputs, facts) ==> facts(f)
  }

  lemma DerivableGrows<S(!new), N(!new), W(!new), L(!new), E(!new)>(
    s: Setup<S, N, W, L, E>, inputs: set<Fact<S, N, W, L, E>>, more: set<Fact<S, N, W, L, E>>, f: Fact<S, N, W, L, E>)
    requires inputs <= more && Derivable(s, inputs, f)
    ensures Derivable(s, more, f)
  {
    forall facts | Inductive(s, more, facts) ensures facts(f) {
      assert Inductive(s, inputs, facts);
    }
  }

  lemma DerivableInductive<S(!new), N(!new), W(!new), L(!new), E(!new)>(
    s: Setup<S, N, W, L, E>, inputs: set<Fact<S, N, W, L, E>>)
    ensures Inductive(s, inputs, f => Derivable(s, inputs, f))
  {
    var derivable := f => Derivable(s, inputs, f);
    forall l, e, t, w, i | derivable(Listening(l)) && derivable(Weighted(t, w)) && Attached(s, l, e, t)
      && 0 <= i < |s.react(l, e, t, w)|
      ensures Yields(s, s.react(l, e, t, w)[i], derivable)
    {
      var a := s.react(l, e, t, w)[i];
      forall facts | Inductive(s, inputs, facts) ensures Yields(s, a, facts) {
      }
    }
  }

  // ----- What a state of the automaton accounts for -----

  datatype State<S(==), N(==), W, L(==), E(==)> =
    State(weights: map<Transition<S, N>, W>, listeners: set<L>, notes: map<E, W>)

  ghost predicate Holds<S(!new), N(!new), W(!new), L(!new), E(!new)>(
    s: Setup<S, N, W, L, E>, f: Fact<S, N, W, L, E>, st: State<S, N, W, L, E>)
  {
    match f
    case Weighted(t, w) => t in st.weights && s.alg.Leq(w, st.weights[t])
    case Listening(l) => l in st.listeners
    case Noted(k, w) => k in st.notes && s.alg.Leq(w, st.notes[k])
  }

  /** The effect of an action that has been performed. */
  ghost predicate Done<S(!new), N(!new), W(!new), L(!new), E(!new)>(
    s: Setup<S, N, W, L, E>, a: Action<S, N, W, L, E>, st: State<S, N, W, L, E>)
  {
    match a
    case Update(t, w) => Rejected(s, t) || Holds(s, Weighted(t, w), st)
    case Register(l) => Holds(s, Listening(l), st)
    case Note(k, w) => Holds(s, Noted(k, w), st)
  }

  ghost predicate Completed<S(!new), N(!new), W(!new), L(!new), E(!new)>(
    s: Setup<S, N, W, L, E>, d: Delivery<S, N, W, L>, st: State<S, N, W, L, E>)
  {
    forall i :: 0 <= i < |s.react(d.l, d.event, d.t, d.w)| ==> Done(s, s.react(d.l, d.event, d.t, d.w)[i], st)
  }

  /** Every listener has been called, to the end, with the current weight of every transition it observes. */
  ghost predicate Settled<S(!new), N(!new), W(!new), L(!new), E(!new)>(
    s: Setup<S, N, W, L, E>, st: State<S, N, W, L, E>)
  {
    forall l, e, t :: l in st.listeners && t in st.weights && Attached(s, l, e, t)
      ==> Completed(s, Delivery(l, e, t, st.weights[t]), st)
  }

  /** Everything in the state is among `facts`. */
  ghost predicate Backed<S(!new), N(!new), W(!new), L(!new), E(!new)>(
    facts: Fact<S, N, W, L, E> -> bool, st: State<S, N, W, L, E>)
  {
    && (forall t :: t in st.weights ==> facts(Weighted(t, st.weights[t])))
    && (forall l :: l in st.listeners ==> facts(Listening(l)))
    && (forall k :: k in st.notes ==> facts(Noted(k, st.notes[k])))
  }

  /** The state reached once no call is in progress: the inputs are in it, nothing is left to do,
      and nothing is there without a reason. */
  ghost predicate Quiescent<S(!new), N(!new), W(!new), L(!new), E(!new)>(
    s: Setup<S, N, W, L, E>, inputs: set<Fact<S, N, W, L, E>>, st: State<S, N, W, L, E>)
  {
    && (forall f :: f in inputs ==> Holds(s, f, st))
    && Settled(s, st)
    && Backed(f => Derivable(s, inputs, f), st)
  }

  /** What holds keeps holding: weights only ascend, and nothing is removed. */
  ghost predicate Grew<S(!new), N(!new), W(!new), L(!new), E(!new)>(
    s: Setup<S, N, W, L, E>, st: State<S, N, W, L, E>, st': State<S, N, W, L, E>)
  {
    forall f :: Holds(s, f, st) ==> Holds(s, f, st')
  }

  lemma GrewPointwise<S(!new), N(!new), W(!new), L(!new), E(!new)>(
    s: Setup<S, N, W, L, E>, st: State<S, N, W, L, E>, st': State<S, N, W, L, E>)
    requires s.alg.Joins()
    ensures Grew(s, st, st') <==>
              && (forall t :: t in st.weights ==> t in st'.weights && s.alg.Leq(st.weights[t], st'.weights[t]))
              && st.listeners <= st'.listeners
              && (forall k :: k in st.notes ==> k in st'.notes && s.alg.Leq(st.notes[k], st'.notes[k]))
  {
    if Grew(s, st, st') {
      forall t | t in st.weights ensures t in st'.weights && s.alg.Leq(st.weights[t], st'.weights[t]) {
        s.alg.LeqReflexive(st.weights[t]);
        assert Holds(s, Weighted(t, st.weights[t]), st);
      }
      forall l | l in st.listeners ensures l in st'.listeners {
        assert Holds(s, Listening(l), st);
      }
      forall k | k in st.notes ensures k in st'.notes && s.alg.Leq(st.notes[k], st'.notes[k]) {
        s.alg.LeqReflexive(st.notes[k]);
        assert Holds(s, Noted(k, st.notes[k]), st);
      }
    }
    if (forall t :: t in st.weights ==> t in st'.weights && s.alg.Leq(st.weights[t], st'.weights[t]))
       && st.listeners <= st'.listeners
       && (forall k :: k in st.notes ==> k in st'.notes && s.alg.Leq(st.notes[k], st'.notes[k])) {
      forall f | Holds(s, f, st) ensures Holds(s, f, st') {
        match f
        case Weighted(t, w) => s.alg.LeqTransitive(w, st.weights[t], st'.weights[t]);
        case Listening(_) =>
        case Noted(k, w) => s.alg.LeqTransitive(w, st.notes[k], st'.notes[k]);
      }
    }
  }

  lemma DoneGrows<S(!new), N(!new), W(!new), L(!new), E(!new)>(
    s: Setup<S, N, W, L, E>, a: Action<S, N, W, L, E>, st: State<S, N, W, L, E>, st': State<S, N, W, L, E>)
    requires Grew(s, st, st') && Done(s, a, st)
    ensures Done(s, a, st')
  {
  }

  // ----- Termination: a finite arena of transitions and of listeners that may register others -----

  /** A leaf listener never registers a listener; there may be infinitely many of them. */
  datatype Arena<!S(==), !N(==), !L(==)> = Arena(transitions: set<Transition<S, N>>, inner: set<L>, leaf: L -> bool)

  ghost predicate Stays<S(!new), N(!new), W(!new), L(!new), E(!new)>(
    s: Setup<S, N, W, L, E>, arena: Arena<S, N, L>, fromLeaf: bool, a: Action<S, N, W, L, E>)
  {
    match a
    case Update(t, _) => Rejected(s, t) || t in arena.transitions
    case Register(l) => !fromLeaf && (arena.leaf(l) || l in arena.inner)
    case Note(_, _) => true
  }

  ghost predicate Confined<S(!new), N(!new), W(!new), L(!new), E(!new)>(
    s: Setup<S, N, W, L, E>, arena: Arena<S, N, L>)
  {
    forall l, e, t, w, i ::
      (arena.leaf(l) || l in arena.inner) && t in arena.transitions && Attached(s, l, e, t)
        && 0 <= i < |s.react(l, e, t, w)|
      ==> Stays(s, arena, arena.leaf(l), s.react(l, e, t, w)[i])
  }

  ghost predicate Within<S(!new), N(!new), W(!new), L(!new), E(!new)>(arena: Arena<S, N, L>, st: State<S, N, W, L, E>) {
    && st.weights.Keys <= arena.transitions
    && forall l :: l in st.listeners ==> arena.leaf(l) || l in arena.inner
  }

  ghost function RankSum<T(!new), W(!new)>(alg: Semiring<W>, keys: set<T>, m: map<T, W>): nat
    requires keys <= m.Keys
  {
    if keys == {} then 0
    else
      var t :| t in keys;
      alg.rank(m[t]) + RankSum(alg, keys - {t}, m)
  }

  lemma {:induction false} RankSumRaised<T(!new), W(!new)>(alg: Semiring<W>, keys: set<T>, m: map<T, W>, t: T, w: W)
    requires keys <= m.Keys && t in m && (t in keys ==> alg.rank(w) < alg.rank(m[t]))
    ensures RankSum(alg, keys, m[t := w]) <= RankSum(alg, keys, m)
    ensures t in keys ==> RankSum(alg, keys, m[t := w]) < RankSum(alg, keys, m)
  {
    if keys != {} {
      var m' := m[t := w];
      var u :|
        && u in keys && RankSum(alg, keys, m) == alg.rank(m[u]) + RankSum(alg, keys - {u}, m)
        && RankSum(alg, keys, m') == alg.rank(m'[u]) + RankSum(alg, keys - {u}, m');
      RankSumRaised(alg, keys - {u}, m, t, w);
    }
  }

  /** What is left to happen, most significant first. */
  datatype Budget = Budget(missing: nat, rank: nat, unregistered: nat)
  {
    ghost predicate Less(b: Budget) {
      missing < b.missing || (missing == b.missing && rank < b.rank)
    }

    ghost predicate AtMost(b: Budget) {
      Less(b) || (missing == b.missing && rank == b.rank && unregistered <= b.unregistered)
    }
  }

  ghost function Remaining<S(!new), N(!new), W(!new), L(!new), E(!new)>(
    s: Setup<S, N, W, L, E>, arena: Arena<S, N, L>, st: State<S, N, W, L, E>): Budget
  {
    Budget(|arena.transitions - st.weights.Keys|,
           RankSum(s.alg, st.weights.Keys, st.weights),
           |arena.inner - st.listeners|)
  }

  lemma WithoutOne<T(!new)>(all: set<T>, some: set<T>, x: T)
    ensures x in all && x !in some ==> |all - (some + {x})| < |all - some|
    ensures |all - (some + {x})| <= |all - some|
  {
    if x in all && x !in some {
      assert all - some == (all - (some + {x})) + {x};
    } else {
      assert all - some == all - (some + {x});
    }
  }

  ghost function Deliveries<S(!new), N(!new), W(!new), L(!new)>(
    ls: set<L>, event: Event, t: Transition<S, N>, w: W): set<Delivery<S, N, W, L>>
  {
    set l | l in ls :: Delivery(l, event, t, w)
  }

  ghost function Pending<S(!new), N(!new), W(!new), L(!new), E(!new)>(
    s: Setup<S, N, W, L, E>, l: L, event: Event, at: map<Transition<S, N>, W>): set<Delivery<S, N, W, L>>
  {
    set t | t in at && Attached(s, l, event, t) :: Delivery(l, event, t, at[t])
  }

  /** What a listener that registers now has to be told. */
  ghost function Waiting<S(!new), N(!new), W(!new), L(!new), E(!new)>(
    s: Setup<S, N, W, L, E>, l: L, at: map<Transition<S, N>, W>): set<Delivery<S, N, W, L>>
  {
    Pending(s, l, Added, at) + Pending(s, l, Out, at) + Pending(s, l, In, at)
  }

  // ----- The invariant that holds at every callback, one concern at a time -----

  datatype Concern = Laws | Confinement | Termination | Provenance | Effects | Notices

  /** Bookkeeping the proof needs: external inputs, facts callbacks cannot lead out of, callbacks that
      have returned, deliveries still in the todo list of some call in progress, and what is left to happen. */
  datatype Books<!S(==), !N(==), !W(==), !L(==), !E(==)> = Books(
    arena: Arena<S, N, L>,
    inputs: set<Fact<S, N, W, L, E>>,
    trusted: Fact<S, N, W, L, E> -> bool,
    done: set<Delivery<S, N, W, L>>,
    owed: set<Delivery<S, N, W, L>>,
    left: Budget)

  ghost predicate Meets<S(!new), N(!new), W(!new), L(!new), E(!new)>(
    c: Concern, s: Setup<S, N, W, L, E>, b: Books<S, N, W, L, E>, st: State<S, N, W, L, E>)
  {
    match c
    case Laws => s.alg.Joins()
    case Confinement => Confined(s, b.arena) && Within(b.arena, st)
    case Termination => b.left == Remaining(s, b.arena, st)
    case Provenance => Inductive(s, b.inputs, b.trusted) && Backed(b.trusted, st)
    case Effects => forall d :: d in b.done ==> Completed(s, d, st)
    case Notices =>
      forall l, e, t :: l in st.listeners && t in st.weights && Attached(s, l, e, t)
        ==> Delivery(l, e, t, st.weights[t]) in b.done + b.owed
  }

  ghost predicate Sound<S(!new), N(!new), W(!new), L(!new), E(!new)>(
    s: Setup<S, N, W, L, E>, b: Books<S, N, W, L, E>, st: State<S, N, W, L, E>)
  {
    forall c: Concern :: Meets(c, s, b, st)
  }

  /** What is owed may grow, and what is done need not be owed. */
  lemma SoundOwed<S(!new), N(!new), W(!new), L(!new), E(!new)>(
    s: Setup<S, N, W, L, E>, b: Books<S, N, W, L, E>, st: State<S, N, W, L, E>, owed: set<Delivery<S, N, W, L>>)
    requires Sound(s, b, st) && b.owed <= b.done + owed
    ensures Sound(s, b.(owed := owed), st)
  {
    forall c: Concern ensures Meets(c, s, b.(owed := owed), st) {
      assert Meets(c, s, b, st);
    }
  }

  lemma EffectsGrow<S(!new), N(!new), W(!new), L(!new), E(!new)>(
    s: Setup<S, N, W, L, E>, b: Books<S, N, W, L, E>, st: State<S, N, W, L, E>, st': State<S, N, W, L, E>)
    requires Sound(s, b, st) && Grew(s, st, st')
    ensures Meets(Effects, s, b, st')
  {
    assert Meets(Effects, s, b, st);
    forall d | d in b.done ensures Completed(s, d, st') {
      forall i | 0 <= i < |s.react(d.l, d.event, d.t, d.w)| ensures Done(s, s.react(d.l, d.event, d.t, d.w)[i], st') {
        DoneGrows(s, s.react(d.l, d.event, d.t, d.w)[i], st, st');
      }
    }
  }

  ghost function Observers<S(!new), N(!new), W(!new), L(!new), E(!new)>(
    s: Setup<S, N, W, L, E>, ls: set<L>, event: Event, t: Transition<S, N>): set<L>
  {
    set l | l in ls && Attached(s, l, event, t)
  }

  ghost function Calls<S(!new), N(!new), W(!new), L(!new), E(!new)>(
    s: Setup<S, N, W, L, E>, ls: set<L>, t: Transition<S, N>, w: W): set<Delivery<S, N, W, L>>
  {
    Deliveries(Observers(s, ls, Added, t), Added, t, w) + Deliveries(Observers(s, ls, Out, t), Out, t, w)
    + Deliveries(Observers(s, ls, In, t), In, t, w)
  }

  lemma CallsCover<S(!new), N(!new), W(!new), L(!new), E(!new)>(
    s: Setup<S, N, W, L, E>, ls: set<L>, t: Transition<S, N>, w: W)
    ensures forall l, e :: l in ls && Attached(s, l, e, t) ==> Delivery(l, e, t, w) in Calls(s, ls, t, w)
  {
    forall l, e | l in ls && Attached(s, l, e, t) ensures Delivery(l, e, t, w) in Calls(s, ls, t, w) {
      assert l in Observers(s, ls, e, t);
      assert Delivery(l, e, t, w) in Deliveries(Observers(s, ls, e, t), e, t, w);
    }
  }

  lemma RaiseGrows<S(!new), N(!new), W(!new), L(!new), E(!new)>(
    s: Setup<S, N, W, L, E>, st: State<S, N, W, L, E>, t: Transition<S, N>, w: W)
    requires s.alg.Joins() && (t in st.weights ==> s.alg.Leq(st.weights[t], w))
    ensures Grew(s, st, st.(weights := st.weights[t := w]))
  {
    forall f | Holds(s, f, st) ensures Holds(s, f, st.(weights := st.weights[t := w])) {
      if f.Weighted? && f.t == t {
        s.alg.LeqTransitive(f.w, st.weights[t], w);
      }
    }
  }

  lemma RaiseSpends<S(!new), N(!new), W(!new), L(!new), E(!new)>(
    s: Setup<S, N, W, L, E>, arena: Arena<S, N, L>, st: State<S, N, W, L, E>, t: Transition<S, N>, w: W)
    requires s.alg.Joins() && t in arena.transitions
    requires t in st.weights ==> s.alg.Leq(st.weights[t], w) && w != st.weights[t]
    ensures Remaining(s, arena, st.(weights := st.weights[t := w])).Less(Remaining(s, arena, st))
  {
    var keys := st.weights.Keys;
    WithoutOne(arena.transitions, keys, t);
    if t in st.weights {
      s.alg.LeqRank(st.weights[t], w);
      assert st.weights[t := w].Keys == keys;
      RankSumRaised(s.alg, keys, st.weights, t, w);
    } else {
      assert st.weights[t := w].Keys == keys + {t};
    }
  }

  lemma RaiseOwes<S(!new), N(!new), W(!new), L(!new), E(!new)>(
    s: Setup<S, N, W, L, E>, b: Books<S, N, W, L, E>, st: State<S, N, W, L, E>, t: Transition<S, N>, w: W,
    owed: set<Delivery<S, N, W, L>>)
    requires Meets(Notices, s, b, st) && b.owed + Calls(s, st.listeners, t, w) <= owed
    ensures Meets(Notices, s, b.(owed := owed), st.(weights := st.weights[t := w]))
  {
    CallsCover(s, st.listeners, t, w);
    var weights := st.weights[t := w];
    forall l, e, u | l in st.listeners && u in weights && Attached(s, l, e, u)
      ensures Delivery(l, e, u, weights[u]) in b.done + owed
    {
      if u == t {
        assert Delivery(l, e, t, w) in Calls(s, st.listeners, t, w);
      } else {
        assert Delivery(l, e, u, st.weights[u]) in b.done + b.owed;
      }
    }
  }

  /** Raising a weight owes a call to everyone who observes the transition, and spends budget. */
  lemma SoundRaise<S(!new), N(!new), W(!new), L(!new), E(!new)>(
    s: Setup<S, N, W, L, E>, b: Books<S, N, W, L, E>, st: State<S, N, W, L, E>, t: Transition<S, N>, w: W,
    owed: set<Delivery<S, N, W, L>>, left: Budget)
    requires Sound(s, b, st) && t in b.arena.transitions && b.trusted(Weighted(t, w))
    requires t in st.weights ==> s.alg.Leq(st.weights[t], w) && w != st.weights[t]
    requires b.owed + Calls(s, st.listeners, t, w) <= owed
    requires left == Remaining(s, b.arena, st.(weights := st.weights[t := w]))
    ensures Grew(s, st, st.(weights := st.weights[t := w]))
    ensures Sound(s, b.(owed := owed, left := left), st.(weights := st.weights[t := w]))
    ensures left.Less(b.left)
  {
    assert Meets(Laws, s, b, st) && Meets(Termination, s, b, st) && Meets(Notices, s, b, st);
    RaiseGrows(s, st, t, w);
    RaiseSpends(s, b.arena, st, t, w);
    RaiseOwes(s, b, st, t, w, owed);
    var st' := st.(weights := st.weights[t := w]);
    EffectsGrow(s, b, st, st');
    forall c: Concern ensures Meets(c, s, b.(owed := owed, left := left), st') {
      assert Meets(c, s, b, st);
    }
  }

  /** The two cases of the new weight in `addWeightForTransition`. */
  lemma SoundInsert<S(!new), N(!new), W(!new), L(!new), E(!new)>(
    s: Setup<S, N, W, L, E>, b: Books<S, N, W, L, E>, st: State<S, N, W, L, E>, t: Transition<S, N>, w: W, newWeight: W,
    owed: set<Delivery<S, N, W, L>>, left: Budget)
    requires Sound(s, b, st) && t in b.arena.transitions && b.trusted(Weighted(t, w))
    requires newWeight == if t in st.weights then s.alg.combine(st.weights[t], w) else w
    requires t in st.weights ==> newWeight != st.weights[t]
    requires b.owed + Calls(s, st.listeners, t, newWeight) <= owed
    requires left == Remaining(s, b.arena, st.(weights := st.weights[t := newWeight]))
    ensures b.trusted(Weighted(t, newWeight))
    ensures Grew(s, st, st.(weights := st.weights[t := newWeight]))
    ensures Sound(s, b.(owed := owed, left := left), st.(weights := st.weights[t := newWeight]))
    ensures left.Less(b.left)
    ensures Holds(s, Weighted(t, w), st.(weights := st.weights[t := newWeight]))
  {
    assert Meets(Laws, s, b, st) && Meets(Provenance, s, b, st);
    if t in st.weights {
      s.alg.LeqCombine(st.weights[t], w);
    } else {
      s.alg.LeqReflexive(w);
    }
    SoundRaise(s, b, st, t, newWeight, owed, left);
  }

  lemma EnlistOwes<S(!new), N(!new), W(!new), L(!new), E(!new)>(
    s: Setup<S, N, W, L, E>, b: Books<S, N, W, L, E>, st: State<S, N, W, L, E>, l: L, owed: set<Delivery<S, N, W, L>>)
    requires Meets(Notices, s, b, st)
    requires b.owed + Waiting(s, l, st.weights) <= owed
    ensures Meets(Notices, s, b.(owed := owed), st.(listeners := st.listeners + {l}))
  {
    forall k, e, t | k in st.listeners + {l} && t in st.weights && Attached(s, k, e, t)
      ensures Delivery(k, e, t, st.weights[t]) in b.done + owed
    {
      if k == l {
        assert Delivery(k, e, t, st.weights[t]) in Pending(s, l, e, st.weights);
        assert Delivery(k, e, t, st.weights[t]) in Waiting(s, l, st.weights);
      } else {
        assert Delivery(k, e, t, st.weights[t]) in b.done + b.owed;
      }
    }
  }

  /** A new listener is owed a call for every transition it observes, and spends budget unless it is a leaf. */
  lemma SoundEnlist<S(!new), N(!new), W(!new), L(!new), E(!new)>(
    s: Setup<S, N, W, L, E>, b: Books<S, N, W, L, E>, st: State<S, N, W, L, E>, l: L, left: Budget)
    requires Sound(s, b, st) && (b.arena.leaf(l) || l in b.arena.inner) && b.trusted(Listening(l)) && l !in st.listeners
    requires left == Remaining(s, b.arena, st.(listeners := st.listeners + {l}))
    ensures Grew(s, st, st.(listeners := st.listeners + {l}))
    ensures var owed := b.owed + Waiting(s, l, st.weights);
            Sound(s, b.(owed := owed, left := left), st.(listeners := st.listeners + {l}))
    ensures left.AtMost(b.left) && (l in b.arena.inner ==> left.unregistered < b.left.unregistered)
  {
    assert Meets(Termination, s, b, st) && Meets(Notices, s, b, st);
    var st' := st.(listeners := st.listeners + {l});
    forall f | Holds(s, f, st) ensures Holds(s, f, st') {
    }
    var owed := b.owed + Waiting(s, l, st.weights);
    EnlistOwes(s, b, st, l, owed);
    EffectsGrow(s, b, st, st');
    WithoutOne(b.arena.inner, st.listeners, l);
    forall c: Concern ensures Meets(c, s, b.(owed := owed, left := left), st') {
      assert Meets(c, s, b, st);
    }
  }

  /** The two cases of the new value in `unbalancedPop`. */
  lemma SoundNote<S(!new), N(!new), W(!new), L(!new), E(!new)>(
    s: Setup<S, N, W, L, E>, b: Books<S, N, W, L, E>, st: State<S, N, W, L, E>, k: E, w: W, newVal: W)
    requires Sound(s, b, st) && b.trusted(Noted(k, w))
    requires newVal == if k in st.notes then s.alg.combine(st.notes[k], w) else w
    ensures s.alg.Joins() && (k in st.notes ==> s.alg.Leq(st.notes[k], newVal))
    ensures Grew(s, st, st.(notes := st.notes[k := newVal])) && Sound(s, b, st.(notes := st.notes[k := newVal]))
    ensures Holds(s, Noted(k, w), st.(notes := st.notes[k := newVal])) && b.trusted(Noted(k, newVal))
  {
    assert Meets(Laws, s, b, st) && Meets(Provenance, s, b, st);
    if k in st.notes {
      s.alg.LeqCombine(st.notes[k], w);
    } else {
      s.alg.LeqReflexive(w);
    }
    var st' := st.(notes := st.notes[k := newVal]);
    GrewPointwise(s, st, st);
    GrewPointwise(s, st, st');
    EffectsGrow(s, b, st, st');
    forall c: Concern ensures Meets(c, s, b, st') {
      assert Meets(c, s, b, st);
    }
  }

  /** A delivery of the current weight may stand for those of earlier weights. */
  lemma SoundCurrent<S(!new), N(!new), W(!new), L(!new), E(!new)>(
    s: Setup<S, N, W, L, E>, b: Books<S, N, W, L, E>, st: State<S, N, W, L, E>, d: Delivery<S, N, W, L>,
    owed: set<Delivery<S, N, W, L>>)
    requires Sound(s, b, st) && d.t in st.weights && d.w == st.weights[d.t]
    requires d in owed && forall x :: x in b.owed ==> x in owed || (x.l == d.l && x.event == d.event && x.t == d.t)
    ensures Sound(s, b.(owed := owed), st)
    ensures d.t in b.arena.transitions && b.trusted(Weighted(d.t, d.w))
  {
    assert Meets(Confinement, s, b, st) && Meets(Provenance, s, b, st);
    forall c: Concern ensures Meets(c, s, b.(owed := owed), st) {
      assert Meets(c, s, b, st);
    }
  }

  lemma SoundReturn<S(!new), N(!new), W(!new), L(!new), E(!new)>(
    s: Setup<S, N, W, L, E>, b: Books<S, N, W, L, E>, st: State<S, N, W, L, E>, d: Delivery<S, N, W, L>)
    requires Sound(s, b.(owed := b.owed + {d}), st) && Completed(s, d, st)
    ensures Sound(s, b.(done := b.done + {d}), st)
  {
    forall c: Concern ensures Meets(c, s, b.(done := b.done + {d}), st) {
      assert Meets(c, s, b.(owed := b.owed + {d}), st);
    }
  }

  /** What a callback does stays inside the arena and among the trusted facts. */
  lemma SoundAction<S(!new), N(!new), W(!new), L(!new), E(!new)>(
    s: Setup<S, N, W, L, E>, b: Books<S, N, W, L, E>, st: State<S, N, W, L, E>, d: Delivery<S, N, W, L>, i: nat)
    requires Sound(s, b, st) && d.l in st.listeners && d.t in b.arena.transitions && b.trusted(Weighted(d.t, d.w))
    requires Attached(s, d.l, d.event, d.t) && i < |s.react(d.l, d.event, d.t, d.w)|
    ensures Stays(s, b.arena, b.arena.leaf(d.l), s.react(d.l, d.event, d.t, d.w)[i])
    ensures Yields(s, s.react(d.l, d.event, d.t, d.w)[i], b.trusted)
  {
    assert Meets(Confinement, s, b, st) && Meets(Provenance, s, b, st);
  }

  lemma SoundEmpty<S(!new), N(!new), W(!new), L(!new), E(!new)>(s: Setup<S, N, W, L, E>, arena: Arena<S, N, L>)
    requires s.alg.Joins() && Confined(s, arena)
    ensures var st := State(map[], {}, map[]);
            Sound(s, Books(arena, {}, f => Derivable(s, {}, f), {}, {}, Remaining(s, arena, st)), st)
  {
    DerivableInductive(s, {});
    var st := State(map[], {}, map[]);
    var b := Books(arena, {}, f => Derivable(s, {}, f), {}, {}, Remaining(s, arena, st));
    forall c: Concern ensures Meets(c, s, b, st) {
      match c
      case Laws =>
      case Confinement =>
      case Termination =>
      case Provenance =>
      case Effects =>
      case Notices =>
    }
  }

  /** One more input, in a possibly larger arena. */
  lemma SoundAccept<S(!new), N(!new), W(!new), L(!new), E(!new)>(
    s: Setup<S, N, W, L, E>, b: Books<S, N, W, L, E>, st: State<S, N, W, L, E>, f: Fact<S, N, W, L, E>,
    larger: Arena<S, N, L>)
    requires Sound(s, b, st) && Confined(s, larger) && Within(larger, st)
    requires forall g :: b.trusted(g) ==> Derivable(s, b.inputs, g)
    ensures var all, left := b.inputs + {f}, Remaining(s, larger, st);
            Sound(s, b.(arena := larger, inputs := all, trusted := g => Derivable(s, all, g), left := left), st)
    ensures forall g :: b.trusted(g) ==> Derivable(s, b.inputs + {f}, g)
  {
    var all := b.inputs + {f};
    var left := Remaining(s, larger, st);
    var b' := b.(arena := larger, inputs := all, trusted := g => Derivable(s, all, g), left := left);
    DerivableInductive(s, all);
    forall g | b.trusted(g) ensures b'.trusted(g) {
      DerivableGrows(s, b.inputs, all, g);
    }
    forall c: Concern ensures Meets(c, s, b', st) {
      assert Meets(c, s, b, st);
    }
  }

  /** Reports of one key ascend strictly, and the last one is the note. */
  ghost predicate Ascending<W(!new), E(!new)>(alg: Semiring<W>, reports: seq<(E, W)>, notes: map<E, W>) {
    && (forall i :: 0 <= i < |reports| ==> reports[i].0 in notes && alg.Leq(reports[i].1, notes[reports[i].0]))
    && (forall i, j :: 0 <= i < j < |reports| && reports[i].0 == reports[j].0 ==> reports[i].1 != reports[j].1)
    && (forall k :: k in notes ==> (k, notes[k]) in reports)
  }

  ghost predicate Accounted<S(!new), N(!new), W(!new), L(!new), E(!new)>(
    reports: seq<(E, W)>, facts: Fact<S, N, W, L, E> -> bool)
  {
    forall i :: 0 <= i < |reports| ==> facts(Noted(reports[i].0, reports[i].1))
  }

  lemma ReportsExtend<W(!new), E(!new)>(alg: Semiring<W>, reports: seq<(E, W)>, notes: map<E, W>, k: E, w: W)
    requires alg.Joins() && Ascending(alg, reports, notes)
    requires k in notes ==> alg.Leq(notes[k], w) && w != notes[k]
    ensures Ascending(alg, reports + [(k, w)], notes[k := w])
  {
    alg.LeqReflexive(w);
    forall i | 0 <= i < |reports| && reports[i].0 == k
      ensures alg.Leq(reports[i].1, w) && reports[i].1 != w
    {
      alg.LeqTransitive(reports[i].1, notes[k], w);
      if reports[i].1 == w {
        alg.LeqAntisymmetric(notes[k], w);
      }
    }
    assert (reports + [(k, w)])[|reports|] == (k, w);
    forall x | x in notes && x != k ensures (x, notes[x]) in reports + [(k, w)] {
      assert (x, notes[x]) in reports;
    }
  }

  datatype Facet = Indexes | Reports | Callbacks

  class WeightedPAutomaton<S(!new,==), N(!new,==), W(!new,==), L(!new,==), E(!new,==)> {
    const setup: Setup<S, N, W, L, E>
    var weights: map<Transition<S, N>, W>
    var transitions: set<Transition<S, N>>
    var states: set<S>
    var outOf: map<S, set<Transition<S, N>>>
    var into: map<S, set<Transition<S, N>>>
    var listeners: set<L>
    var notes: map<E, W>
    /** Every change of a note, in the order in which it is reported. */
    var reports: seq<(E, W)>
    ghost var done: set<Delivery<S, N, W, L>>
    ghost var trusted: Fact<S, N, W, L, E> -> bool
    ghost var inputs: set<Fact<S, N, W, L, E>>
    ghost var left: Budget

    ghost function Now(): State<S, N, W, L, E>
      reads this
    {
      State(weights, listeners, notes)
    }

    ghost function TheBooks(arena: Arena<S, N, L>, owed: set<Delivery<S, N, W, L>>): Books<S, N, W, L, E>
      reads this
    {
      Books(arena, inputs, trusted, done, owed, left)
    }

    ghost predicate IndexedAt(q: S)
      reads `transitions, `states, `outOf, `into
    {
      && Get(outOf, q) == (set t | t in transitions && t.start == q)
      && Get(into, q) == (set t | t in transitions && t.target == q)
      && (q in states <==> exists t :: t in transitions && (t.start == q || t.target == q))
    }

    /** The two indexes partition the transitions. */
    ghost predicate Indexed()
      reads `weights, `transitions, `states, `outOf, `into
    {
      transitions == weights.Keys && forall q: S :: IndexedAt(q)
    }

    twostate lemma IndexStays()
      requires old(Indexed()) && unchanged(`weights, `transitions, `states, `outOf, `into)
      ensures Indexed()
    {
      forall q ensures IndexedAt(q) {
        assert old(IndexedAt(q));
      }
    }

    ghost predicate Shows(f: Facet, arena: Arena<S, N, L>, owed: set<Delivery<S, N, W, L>>)
      reads this
    {
      match f
      case Indexes => Indexed()
      case Reports => Ascending(setup.alg, reports, notes) && Accounted(reports, trusted)
      case Callbacks => Sound(setup, TheBooks(arena, owed), Now())
    }

    /** Holds before and after every call, nested or not; `owed` is what the calls in progress still have to deliver. */
    ghost predicate Inv(arena: Arena<S, N, L>, owed: set<Delivery<S, N, W, L>>)
      reads this
    {
      forall f: Facet :: Shows(f, arena, owed)
    }

    /** What every call in progress may rely on about the calls nested in it. */
    ghost predicate Continues(st: State<S, N, W, L, E>, wasLeft: Budget, wasInputs: set<Fact<S, N, W, L, E>>,
      wasTrusted: Fact<S, N, W, L, E> -> bool, wasReports: seq<(E, W)>)
      reads this
    {
      && Grew(setup, st, Now()) && left.AtMost(wasLeft)
      && inputs == wasInputs && trusted == wasTrusted && wasReports <= reports
    }

    constructor (setup: Setup<S, N, W, L, E>)
      ensures this.setup == setup && Indexed() && Now() == State(map[], {}, map[]) && inputs == {} && reports == []
    {
      this.setup := setup;
      weights, transitions, states, outOf, into := map[], {}, {}, map[], map[];
      listeners, notes, reports, done, inputs := {}, map[], [], {}, {};
      trusted := f => Derivable(setup, {}, f);
    }

    function ObserversOf(event: Event, t: Transition<S, N>): (ls: set<L>)
      reads this
      ensures ls == Observers(setup, listeners, event, t)
    {
      set l | l in listeners && Attached(setup, l, event, t)
    }

    /** The bookkeeping of `addWeightForTransition`, before any callback. */
    method Put(t: Transition<S, N>, newWeight: W)
      requires Indexed()
      modifies `weights, `transitions, `states, `outOf, `into
      ensures Indexed() && weights == old(weights)[t := newWeight]
    {
      outOf := Multimaps.Put(outOf, t.start, t);
      into := Multimaps.Put(into, t.target, t);
      states := states + {t.target};
      states := states + {t.start};
      transitions := transitions + {t};
      weights := weights[t := newWeight];
      forall q ensures IndexedAt(q) {
        assert old(IndexedAt(q));
      }
    }

    /** The part of `addWeightForTransition` before any callback: everyone who observes `t` is now owed a call. */
    method Insert(
      t: Transition<S, N>, w: W, newWeight: W, ghost arena: Arena<S, N, L>, ghost owed: set<Delivery<S, N, W, L>>)
      requires Inv(arena, owed) && t in arena.transitions && trusted(Weighted(t, w))
      requires newWeight == if t in weights then setup.alg.combine(weights[t], w) else w
      requires t in weights ==> newWeight != weights[t]
      modifies `weights, `transitions, `states, `outOf, `into, `left
      ensures Inv(arena, owed + Calls(setup, listeners, t, newWeight))
      ensures Grew(setup, old(Now()), Now()) && left.Less(old(left))
      ensures Holds(setup, Weighted(t, w), Now()) && trusted(Weighted(t, newWeight))
    {
      assert Shows(Callbacks, arena, owed) && Shows(Indexes, arena, owed);
      ghost var debts := owed + Calls(setup, listeners, t, newWeight);
      SoundInsert(setup, TheBooks(arena, owed), Now(), t, w, newWeight, debts,
        Remaining(setup, arena, Now().(weights := weights[t := newWeight])));
      Put(t, newWeight);
      left := Remaining(setup, arena, Now());
      forall f: Facet ensures Shows(f, arena, debts) {
        assert old(Shows(f, arena, owed));
      }
    }

    /** `addWeightForTransition`, with all the callbacks it causes. */
    method AddWeightForTransition(
      t: Transition<S, N>, w: W, ghost arena: Arena<S, N, L>, ghost owed: set<Delivery<S, N, W, L>>)
      returns (added: bool)
      requires Inv(arena, owed)
      requires Rejected(setup, t) || (t in arena.transitions && trusted(Weighted(t, w)))
      modifies this
      ensures Inv(arena, owed) && Continues(old(Now()), old(left), old(inputs), old(trusted), old(reports))
      ensures Done(setup, Update(t, w), Now())
      ensures added == !old(Done(setup, Update(t, w), Now()))
      ensures if t.start == t.target && t.symbol == setup.epsilon
              then !added && Now() == old(Now())
              else Holds(setup, Weighted(t, w), Now())
      decreases left.missing, left.rank, left.unregistered, 0
    {
      if Rejected(setup, t) {
        return false;
      }
      assert transitions == weights.Keys by { assert Shows(Indexes, arena, owed); }
      var newWeight := if t in transitions then setup.alg.combine(weights[t], w) else w;
      if t in transitions && newWeight == weights[t] {
        return false;
      }
      added := true;
      Insert(t, w, newWeight, arena, owed);
      NotifyAll(t, newWeight, arena, owed);
    }

    /** The three loops of `addWeightForTransition`. */
    method NotifyAll(t: Transition<S, N>, w: W, ghost arena: Arena<S, N, L>, ghost owed: set<Delivery<S, N, W, L>>)
      requires Inv(arena, owed + Calls(setup, listeners, t, w))
      requires t in arena.transitions && trusted(Weighted(t, w))
      modifies this
      ensures Inv(arena, owed) && Continues(old(Now()), old(left), old(inputs), old(trusted), old(reports))
      decreases left.missing, left.rank, left.unregistered, 9
    {
      ghost var ins := Deliveries(ObserversOf(In, t), In, t, w);
      ghost var outs := Deliveries(ObserversOf(Out, t), Out, t, w);
      ghost var debts := owed + Calls(setup, listeners, t, w);
      Notify(Added, t, w, arena, debts, owed + outs + ins);
      Notify(Out, t, w, arena, owed + outs + ins, owed + ins);
      Notify(In, t, w, arena, owed + ins, owed);
    }

    lemma Reschedule(arena: Arena<S, N, L>, debts: set<Delivery<S, N, W, L>>, owed: set<Delivery<S, N, W, L>>)
      requires Inv(arena, debts) && (debts <= done + owed || Sound(setup, TheBooks(arena, owed), Now()))
      ensures Inv(arena, owed)
    {
      assert Shows(Callbacks, arena, debts);
      if debts <= done + owed {
        SoundOwed(setup, TheBooks(arena, debts), Now(), owed);
      }
      forall f: Facet ensures Shows(f, arena, owed) {
        assert Shows(f, arena, debts);
      }
    }

    /** One of the three loops of `addWeightForTransition`: call a snapshot of the listeners, in any order. */
    method Notify(event: Event, t: Transition<S, N>, w: W, ghost arena: Arena<S, N, L>,
                  ghost debts: set<Delivery<S, N, W, L>>, ghost owed: set<Delivery<S, N, W, L>>)
      requires Inv(arena, debts)
      requires forall d :: d in debts ==>
        || d in owed
        || (Holds(setup, Listening(d.l), Now()) && Attached(setup, d.l, event, t) && d == Delivery(d.l, event, t, w))
      requires t in arena.transitions && trusted(Weighted(t, w))
      modifies this
      ensures Inv(arena, owed) && Continues(old(Now()), old(left), old(inputs), old(trusted), old(reports))
      decreases left.missing, left.rank, left.unregistered, 8
    {
      var todo := ObserversOf(event, t);
      Reschedule(arena, debts, owed + Deliveries(todo, event, t, w));
      while todo != {}
        invariant forall l :: l in todo ==> Holds(setup, Listening(l), Now()) && Attached(setup, l, event, t)
        invariant Inv(arena, owed + Deliveries(todo, event, t, w))
        invariant Continues(old(Now()), old(left), old(inputs), old(trusted), old(reports))
        decreases todo
      {
        var l :| l in todo;
        ghost var was := Deliveries(todo, event, t, w);
        todo := todo - {l};
        ghost var rest := Deliveries(todo, event, t, w);
        assert owed + was == (owed + rest) + {Delivery(l, event, t, w)};
        Deliver(Delivery(l, event, t, w), arena, owed + rest);
      }
      assert owed + Deliveries(todo, event, t, w) == owed;
    }

    /** One callback: its actions, one after the other. */
    method Deliver(d: Delivery<S, N, W, L>, ghost arena: Arena<S, N, L>, ghost owed: set<Delivery<S, N, W, L>>)
      requires Holds(setup, Listening(d.l), Now()) && Attached(setup, d.l, d.event, d.t)
      requires Inv(arena, owed + {d})
      requires d.t in arena.transitions && trusted(Weighted(d.t, d.w))
      modifies this
      ensures Inv(arena, owed) && Continues(old(Now()), old(left), old(inputs), old(trusted), old(reports))
      ensures d in done
      decreases left.missing, left.rank, left.unregistered, if arena.leaf(d.l) then 2 else 6
    {
      var actions := setup.react(d.l, d.event, d.t, d.w);
      for i := 0 to |actions|
        invariant Inv(arena, owed + {d}) && Holds(setup, Listening(d.l), Now())
        invariant Continues(old(Now()), old(left), old(inputs), old(trusted), old(reports))
        invariant forall j :: 0 <= j < i ==> Done(setup, actions[j], Now())
      {
        ghost var here := Now();
        assert Shows(Callbacks, arena, owed + {d});
        SoundAction(setup, TheBooks(arena, owed + {d}), here, d, i);
        Perform(actions[i], arena, owed + {d}, arena.leaf(d.l));
        forall j | 0 <= j < i ensures Done(setup, actions[j], Now()) {
          DoneGrows(setup, actions[j], here, Now());
        }
      }
      assert Shows(Callbacks, arena, owed + {d});
      SoundReturn(setup, TheBooks(arena, owed), Now(), d);
      label Returned:
      done := done + {d};
      forall f: Facet ensures Shows(f, arena, owed) {
        assert old@Returned(Shows(f, arena, owed + {d}));
      }
    }

    method Perform(
      a: Action<S, N, W, L, E>, ghost arena: Arena<S, N, L>, ghost owed: set<Delivery<S, N, W, L>>, ghost inLeaf: bool)
      requires Inv(arena, owed)
      requires Stays(setup, arena, inLeaf, a) && Yields(setup, a, trusted)
      modifies this
      ensures Inv(arena, owed) && Continues(old(Now()), old(left), old(inputs), old(trusted), old(reports))
      ensures Done(setup, a, Now())
      decreases left.missing, left.rank, left.unregistered, if inLeaf then 1 else 5
    {
      match a {
        case Update(t, w) =>
          var _ := AddWeightForTransition(t, w, arena, owed);
        case Register(l) =>
          RegisterListener(l, arena, owed);
        case Note(k, w) =>
          AddNote(k, w, arena, owed);
      }
    }

    /** The part of `registerListener` before any callback. */
    method Enlist(l: L, ghost arena: Arena<S, N, L>, ghost owed: set<Delivery<S, N, W, L>>)
      requires Inv(arena, owed) && l !in listeners
      requires (arena.leaf(l) || l in arena.inner) && trusted(Listening(l))
      modifies `listeners, `left
      ensures Inv(arena, owed + Waiting(setup, l, weights))
      ensures Grew(setup, old(Now()), Now()) && Holds(setup, Listening(l), Now())
      ensures left.AtMost(old(left)) && (l in arena.inner ==> left.unregistered < old(left).unregistered)
    {
      assert Shows(Callbacks, arena, owed) && Shows(Indexes, arena, owed);
      ghost var debts := owed + Waiting(setup, l, weights);
      SoundEnlist(setup, TheBooks(arena, owed), Now(), l,
        Remaining(setup, arena, Now().(listeners := listeners + {l})));
      listeners := listeners + {l};
      left := Remaining(setup, arena, Now());
      IndexStays();
      forall f: Facet ensures Shows(f, arena, debts) {
        assert old(Shows(f, arena, owed));
      }
    }

    lemma OutOfIs(q: S, arena: Arena<S, N, L>, owed: set<Delivery<S, N, W, L>>)
      requires Inv(arena, owed)
      ensures transitions == weights.Keys
      ensures Get(outOf, q) == set t | t in weights && t.start == q
      ensures Get(into, q) == set t | t in weights && t.target == q
    {
      assert Shows(Indexes, arena, owed) && IndexedAt(q);
    }

    /** `registerListener`: the new listener is told what is already there. */
    method RegisterListener(l: L, ghost arena: Arena<S, N, L>, ghost owed: set<Delivery<S, N, W, L>>)
      requires Inv(arena, owed)
      requires (arena.leaf(l) || l in arena.inner) && trusted(Listening(l))
      modifies this
      ensures Inv(arena, owed) && Continues(old(Now()), old(left), old(inputs), old(trusted), old(reports))
      ensures Holds(setup, Listening(l), Now())
      decreases left.missing, left.rank, left.unregistered, 4
    {
      if l in listeners {
        return;
      }
      ghost var ins := Pending(setup, l, In, weights);
      ghost var debts := owed + Waiting(setup, l, weights);
      Enlist(l, arena, owed);
      ghost var was := Now();
      match setup.place(l) {
        case Everywhere =>
          assert transitions == weights.Keys by { assert Shows(Indexes, arena, debts); }
          Replay(l, Added, transitions, arena, debts, owed);
        case At(q) =>
          OutOfIs(q, arena, debts);
          Replay(l, Out, Get(outOf, q), arena, debts, owed + ins);
          KeysGrow(was, arena, owed + ins);
          OutOfIs(q, arena, owed + ins);
          Replay(l, In, Get(into, q), arena, owed + ins, owed);
      }
    }

    /** A replay loop; it delivers the weight a transition has when its turn comes. */
    method Replay(l: L, event: Event, snapshot: set<Transition<S, N>>, ghost arena: Arena<S, N, L>,
                  ghost debts: set<Delivery<S, N, W, L>>, ghost owed: set<Delivery<S, N, W, L>>)
      requires Holds(setup, Listening(l), Now()) && snapshot <= weights.Keys
      requires forall t :: t in snapshot ==> Attached(setup, l, event, t)
      requires Inv(arena, debts)
      requires forall d :: d in debts ==> d in owed || (d.t in snapshot && d.l == l && d.event == event)
      modifies this
      ensures Inv(arena, owed) && Continues(old(Now()), old(left), old(inputs), old(trusted), old(reports))
      decreases left.missing, left.rank, left.unregistered, if arena.leaf(l) then 3 else 7
    {
      ghost var due := debts - owed;
      var todo := snapshot;
      Reschedule(arena, debts, owed + due);
      while todo != {}
        invariant Holds(setup, Listening(l), Now()) && todo <= weights.Keys
        invariant forall t :: t in todo ==> Attached(setup, l, event, t)
        invariant forall d :: d in due ==> d.t in todo && d.l == l && d.event == event
        invariant Inv(arena, owed + due)
        invariant Continues(old(Now()), old(left), old(inputs), old(trusted), old(reports))
        decreases todo
      {
        var t :| t in todo;
        var d := Delivery(l, event, t, weights[t]);
        ghost var here := Now();
        assert Shows(Callbacks, arena, owed + due);
        todo := todo - {t};
        ghost var later := set x | x in due && x.t != t;
        SoundCurrent(setup, TheBooks(arena, owed + due), here, d, owed + later + {d});
        Reschedule(arena, owed + due, owed + later + {d});
        due := later;
        Deliver(d, arena, owed + due);
        KeysGrow(here, arena, owed + due);
      }
      assert owed + due == owed;
    }

    lemma KeysGrow(was: State<S, N, W, L, E>, arena: Arena<S, N, L>, owed: set<Delivery<S, N, W, L>>)
      requires Inv(arena, owed) && Grew(setup, was, Now())
      ensures was.weights.Keys <= weights.Keys
    {
      assert Shows(Callbacks, arena, owed);
      assert Meets(Laws, setup, TheBooks(arena, owed), Now());
      GrewPointwise(setup, was, Now());
    }

    /** `unbalancedPop`: combine, and report if that changed anything. */
    method AddNote(k: E, w: W, ghost arena: Arena<S, N, L>, ghost owed: set<Delivery<S, N, W, L>>)
      requires Inv(arena, owed) && trusted(Noted(k, w))
      modifies `notes, `reports
      ensures Inv(arena, owed) && Continues(old(Now()), old(left), old(inputs), old(trusted), old(reports))
      ensures Done(setup, Note(k, w), Now())
    {
      assert Shows(Callbacks, arena, owed) && Shows(Reports, arena, owed) && Shows(Indexes, arena, owed);
      var newVal := if k in notes then setup.alg.combine(notes[k], w) else w;
      SoundNote(setup, TheBooks(arena, owed), Now(), k, w, newVal);
      if k !in notes || newVal != notes[k] {
        ReportsExtend(setup.alg, reports, notes, k, newVal);
        notes := notes[k := newVal];
        reports := reports + [(k, newVal)];
        IndexStays();
        forall f: Facet ensures Shows(f, arena, owed) {
          assert old(Shows(f, arena, owed));
        }
      }
    }

    // ----- Calls from outside -----

    /** No call is in progress. */
    ghost predicate Resting(arena: Arena<S, N, L>)
      reads this
    {
      && Inv(arena, {})
      && (forall f :: f in inputs ==> Holds(setup, f, Now()))
      && (forall f :: trusted(f) ==> Derivable(setup, inputs, f))
    }

    /** No lost notification, and nothing without a reason. */
    lemma RestingIsQuiescent(arena: Arena<S, N, L>)
      requires Resting(arena)
      ensures Quiescent(setup, inputs, Now())
      ensures forall l, t :: l in listeners && t in weights ==>
        && (setup.place(l) == Everywhere ==> Delivery(l, Added, t, weights[t]) in done)
        && (setup.place(l) == At(t.start) ==> Delivery(l, Out, t, weights[t]) in done)
        && (setup.place(l) == At(t.target) ==> Delivery(l, In, t, weights[t]) in done)
      ensures Indexed() && Ascending(setup.alg, reports, notes)
    {
      assert Shows(Callbacks, arena, {}) && Shows(Indexes, arena, {}) && Shows(Reports, arena, {});
      var b, st := TheBooks(arena, {}), Now();
      assert Meets(Effects, setup, b, st) && Meets(Notices, setup, b, st) && Meets(Provenance, setup, b, st);
      forall l, e, t | l in st.listeners && t in st.weights && Attached(setup, l, e, t)
        ensures Completed(setup, Delivery(l, e, t, st.weights[t]), st)
      {
        assert Delivery(l, e, t, st.weights[t]) in b.done + b.owed;
      }
      forall l, t | l in listeners && t in weights
        ensures setup.place(l) == Everywhere ==> Delivery(l, Added, t, weights[t]) in done
        ensures setup.place(l) == At(t.start) ==> Delivery(l, Out, t, weights[t]) in done
        ensures setup.place(l) == At(t.target) ==> Delivery(l, In, t, weights[t]) in done
      {
        assert setup.place(l) == Everywhere ==> Attached(setup, l, Added, t);
        assert setup.place(l) == At(t.start) ==> Attached(setup, l, Out, t);
        assert setup.place(l) == At(t.target) ==> Attached(setup, l, In, t);
      }
    }

    lemma ReportIsDerivable(arena: Arena<S, N, L>, i: nat)
      requires Resting(arena) && i < |reports|
      ensures Derivable(setup, inputs, Noted(reports[i].0, reports[i].1))
    {
      assert Shows(Reports, arena, {});
    }

    lemma RestingIsWithin(arena: Arena<S, N, L>)
      requires Resting(arena)
      ensures Within(arena, Now()) && setup.alg.Joins()
    {
      assert Shows(Callbacks, arena, {});
      assert Meets(Confinement, setup, TheBooks(arena, {}), Now()) && Meets(Laws, setup, TheBooks(arena, {}), Now());
    }

    /** Nothing has been added yet. */
    ghost method Open(arena: Arena<S, N, L>)
      requires setup.alg.Joins() && Confined(setup, arena) && Indexed()
      requires Now() == State(map[], {}, map[]) && inputs == {} && reports == []
      modifies `left, `trusted, `done
      ensures Resting(arena)
    {
      trusted := f => Derivable(setup, {}, f);
      done := {};
      left := Remaining(setup, arena, Now());
      SoundEmpty(setup, arena);
      IndexStays();
      forall f: Facet ensures Shows(f, arena, {}) {
      }
    }

    /** Accept one more input, in a possibly larger arena. */
    ghost method Accept(f: Fact<S, N, W, L, E>, arena: Arena<S, N, L>, larger: Arena<S, N, L>)
      requires Resting(arena) && Confined(setup, larger) && Within(larger, Now())
      modifies `left, `trusted, `inputs
      ensures Inv(larger, {}) && inputs == old(inputs) + {f} && trusted(f)
      ensures forall f :: trusted(f) ==> Derivable(setup, inputs, f)
    {
      assert Shows(Callbacks, arena, {}) && Shows(Indexes, arena, {});
      SoundAccept(setup, TheBooks(arena, {}), Now(), f, larger);
      var all := inputs + {f};
      inputs := all;
      trusted := g => Derivable(setup, all, g);
      left := Remaining(setup, larger, Now());
      IndexStays();
      forall facet: Facet ensures Shows(facet, larger, {}) {
        assert old(Shows(facet, arena, {}));
      }
    }

    method Supply(
      t: Transition<S, N>, w: W, ghost arena: Arena<S, N, L>, ghost larger: Arena<S, N, L>) returns (added: bool)
      requires Resting(arena) && Confined(setup, larger) && Within(larger, Now())
      requires Rejected(setup, t) || t in larger.transitions
      modifies this
      ensures Resting(if Rejected(setup, t) then arena else larger)
      ensures inputs == old(inputs) + if Rejected(setup, t) then {} else {Weighted(t, w)}
      ensures Grew(setup, old(Now()), Now()) && old(reports) <= reports
      ensures added == !old(Done(setup, Update(t, w), Now()))
    {
      if Rejected(setup, t) {
        return false;
      }
      Accept(Weighted(t, w), arena, larger);
      added := AddWeightForTransition(t, w, larger, {});
    }

    method Subscribe(l: L, ghost arena: Arena<S, N, L>, ghost larger: Arena<S, N, L>)
      requires Resting(arena) && Confined(setup, larger) && Within(larger, Now())
      requires larger.leaf(l) || l in larger.inner
      modifies this
      ensures Resting(larger) && inputs == old(inputs) + {Listening(l)}
      ensures Grew(setup, old(Now()), Now()) && old(reports) <= reports
    {
      Accept(Listening(l), arena, larger);
      RegisterListener(l, larger, {});
    }
  }
}
