/** `ForwardDFSVisitor`: an online transitive closure of the edges of an automaton, and listeners that
    are told every transition reachable from their state. */
module Reachability {
  import opened Multimaps
  import opened Automata

  /** The one-or-more-step closure of a finite relation, by explicit walks. */
  ghost predicate Walk<S(!new)>(edges: set<(S, S)>, walk: seq<S>) {
    |walk| >= 2 && forall i :: 0 <= i < |walk| - 1 ==> (walk[i], walk[i + 1]) in edges
  }

  ghost predicate Connected<S(!new)>(edges: set<(S, S)>, x: S, y: S) {
    exists walk :: Walk(edges, walk) && walk[0] == x && walk[|walk| - 1] == y
  }

  lemma ConnectedEdge<S(!new)>(edges: set<(S, S)>, x: S, y: S)
    requires (x, y) in edges
    ensures Connected(edges, x, y)
  {
    assert Walk(edges, [x, y]);
  }

  lemma NothingConnected<S(!new)>()
    ensures forall x: S, y: S :: !Connected({}, x, y)
  {
    var none: set<(S, S)> := {};
    forall walk: seq<S> ensures !Walk(none, walk) {
      if |walk| >= 2 {
        assert (walk[0], walk[1]) !in none;
      }
    }
  }

  lemma ConnectedStep<S(!new)>(edges: set<(S, S)>, x: S, y: S, z: S)
    requires Connected(edges, x, y) && (y, z) in edges
    ensures Connected(edges, x, z)
  {
    var walk :| Walk(edges, walk) && walk[0] == x && walk[|walk| - 1] == y;
    var longer := walk + [z];
    assert Walk(edges, longer) && longer[0] == x && longer[|longer| - 1] == z;
  }

  lemma ConnectedFirst<S(!new)>(edges: set<(S, S)>, x: S, y: S, z: S)
    requires (x, y) in edges && Connected(edges, y, z)
    ensures Connected(edges, x, z)
  {
    var walk :| Walk(edges, walk) && walk[0] == y && walk[|walk| - 1] == z;
    var longer := [x] + walk;
    forall i | 0 <= i < |longer| - 1 ensures (longer[i], longer[i + 1]) in edges {
      if i > 0 {
        assert (walk[i - 1], walk[i - 1 + 1]) in edges;
      }
    }
    assert Walk(edges, longer) && longer[0] == x && longer[|longer| - 1] == z;
  }

  lemma ConnectedLast<S(!new)>(edges: set<(S, S)>, x: S, y: S)
    ensures Connected(edges, x, y) ==> exists e :: e in edges && e.1 == y
  {
    if walk :| Walk(edges, walk) && walk[0] == x && walk[|walk| - 1] == y {
      assert (walk[|walk| - 2], walk[|walk| - 2 + 1]) in edges;
    }
  }

  lemma ConnectedGrows<S(!new)>(edges: set<(S, S)>, more: set<(S, S)>, x: S, y: S)
    requires edges <= more && Connected(edges, x, y)
    ensures Connected(more, x, y)
  {
    var walk :| Walk(edges, walk) && walk[0] == x && walk[|walk| - 1] == y;
    assert Walk(more, walk);
  }

  /** A relation that contains the edges and can be prolonged by edges contains the closure. */
  lemma {:induction false} ClosedContains<S(!new)>(edges: set<(S, S)>, r: set<(S, S)>, walk: seq<S>)
    requires edges <= r && (forall x, y, z :: (x, y) in r && (y, z) in edges ==> (x, z) in r)
    requires Walk(edges, walk)
    ensures (walk[0], walk[|walk| - 1]) in r
    decreases walk
  {
    if |walk| > 2 {
      var shorter := walk[..|walk| - 1];
      assert Walk(edges, shorter);
      ClosedContains(edges, r, shorter);
      assert (walk[|walk| - 2], walk[|walk| - 1]) in edges;
    }
  }

  ghost predicate Justified<S(!new)>(edges: set<(S, S)>, r: set<(S, S)>) {
    forall x, y :: (x, y) in r ==> Connected(edges, x, y)
  }

  /** Every pair but those still to be processed has been prolonged by every edge. */
  ghost predicate Prolonged<S(!new)>(edges: set<(S, S)>, r: set<(S, S)>, work: seq<(S, S)>) {
    forall x, y, z :: (x, y) in r && (y, z) in edges ==> (x, z) in r || (x, y) in work
  }

  lemma ProlongedIsClosure<S(!new)>(edges: set<(S, S)>, r: set<(S, S)>)
    requires edges <= r && Justified(edges, r) && Prolonged(edges, r, [])
    ensures forall x, y :: (x, y) in r <==> Connected(edges, x, y)
  {
    forall x, y | Connected(edges, x, y) ensures (x, y) in r {
      var walk :| Walk(edges, walk) && walk[0] == x && walk[|walk| - 1] == y;
      ClosedContains(edges, r, walk);
    }
  }

  /** Before an insertion: old pairs need only the new edge. */
  lemma ProlongedByOldEdges<S(!new)>(edges: set<(S, S)>, r: set<(S, S)>, a: S, b: S)
    requires forall x, y :: (x, y) in r <==> Connected(edges, x, y)
    ensures Justified(edges + {(a, b)}, r) && edges <= r
    ensures forall x, y, z :: (x, y) in r && (y, z) in edges ==> (x, z) in r
  {
    forall x, y | (x, y) in r ensures Connected(edges + {(a, b)}, x, y) {
      ConnectedGrows(edges, edges + {(a, b)}, x, y);
    }
    forall e | e in edges ensures e in r {
      assert e == (e.0, e.1);
      ConnectedEdge(edges, e.0, e.1);
    }
    forall x, y, z | (x, y) in r && (y, z) in edges ensures (x, z) in r {
      ConnectedStep(edges, x, y, z);
    }
  }

  /** One round of the worklist loop. */
  lemma ProlongedNext<S(!new)>(
    edges: set<(S, S)>, r: set<(S, S)>, work: seq<(S, S)>, r': set<(S, S)>, work': seq<(S, S)>)
    requires Justified(edges, r) && Prolonged(edges, r, work) && work != [] && work[0] in r
    requires forall z :: (work[0].1, z) in edges ==> (work[0].0, z) in r'
    requires r <= r' && forall x, z :: (x, z) in r' - r ==> x == work[0].0 && (work[0].1, z) in edges
    requires work[1..] <= work' && forall e :: e in r' - r ==> e in work'
    ensures Justified(edges, r') && Prolonged(edges, r', work')
  {
    var (x, y) := work[0];
    forall u, v | (u, v) in r' ensures Connected(edges, u, v) {
      if (u, v) !in r {
        ConnectedStep(edges, x, y, v);
      }
    }
    forall u, v, z | (u, v) in r' && (v, z) in edges ensures (u, z) in r' || (u, v) in work' {
      if (u, v) in work && (u, v) != (x, y) {
        assert (u, v) in work[1..];
      }
    }
  }

  ghost function Into<S(!new)>(sources: set<S>, b: S): set<(S, S)> {
    set x | x in sources :: (x, b)
  }

  /** After the first two steps of `insertEdge`. */
  lemma ProlongedFirst<S(!new)>(
    edges: set<(S, S)>, r: set<(S, S)>, a: S, b: S, sources: set<S>, r': set<(S, S)>, work: seq<(S, S)>)
    requires forall x, y :: (x, y) in r <==> Connected(edges, x, y)
    requires forall x :: x in sources <==> (x, a) in r + {(a, b)}
    requires r' == r + {(a, b)} + Into(sources, b)
    requires forall e :: e in r' - r ==> e in work
    ensures Justified(edges + {(a, b)}, r') && Prolonged(edges + {(a, b)}, r', work) && edges + {(a, b)} <= r'
  {
    var more := edges + {(a, b)};
    ProlongedByOldEdges(edges, r, a, b);
    ConnectedEdge(more, a, b);
    forall x, y | (x, y) in r' ensures Connected(more, x, y) {
      if (x, y) !in r && x != a {
        ConnectedStep(more, x, a, b);
      }
    }
  }

  ghost predicate Within<S(!new)>(universe: set<S>, r: set<(S, S)>) {
    forall x, y :: (x, y) in r ==> x in universe && y in universe
  }

  ghost function Ends<S(!new)>(edges: set<(S, S)>): set<S> {
    (set e | e in edges :: e.0) + (set e | e in edges :: e.1)
  }

  lemma ConnectedEnds<S(!new)>(edges: set<(S, S)>, x: S, y: S)
    requires Connected(edges, x, y)
    ensures x in Ends(edges) && y in Ends(edges)
  {
    var walk :| Walk(edges, walk) && walk[0] == x && walk[|walk| - 1] == y;
    var last := (walk[|walk| - 2], walk[|walk| - 2 + 1]);
    assert (walk[0], walk[0 + 1]) in edges && last in edges && last.1 == y;
    assert last.1 in set e | e in edges :: e.1;
  }

  lemma JustifiedWithin<S(!new)>(edges: set<(S, S)>, r: set<(S, S)>)
    requires Justified(edges, r)
    ensures Within(Ends(edges), r)
  {
    forall x, y | (x, y) in r ensures x in Ends(edges) && y in Ends(edges) {
      ConnectedEnds(edges, x, y);
    }
  }

  /** Pairs of states that are not yet in the index. */
  ghost function Unset<S(!new)>(universe: set<S>, r: set<(S, S)>): set<(S, S)> {
    (set x, y | x in universe && y in universe :: (x, y)) - r
  }

  lemma UnsetShrinks<S(!new)>(universe: set<S>, r: set<(S, S)>, more: set<(S, S)>)
    requires r <= more && Within(universe, more)
    ensures |Unset(universe, more)| <= |Unset(universe, r)|
    ensures r != more ==> |Unset(universe, more)| < |Unset(universe, r)|
  {
    var u, v := Unset(universe, r), Unset(universe, more);
    forall e | e in more ensures e in set x, y | x in universe && y in universe :: (x, y) {
      assert e == (e.0, e.1);
    }
    assert u == v + (more - r) && v !! (more - r);
    assert |u| == |v| + |more - r|;
  }

  /** The `TransitiveClosure` listener at `at`, for the listener `l` registered at `s`. */
  datatype Closure<S, L> = Closure(at: S, s: S, l: L)

  /** One call of `reachable(t)` on the listener `l` registered at `s`. */
  datatype Notice<S, N, L> = Notice(s: S, l: L, t: Transition<S, N>)

  datatype Facet = Index | Adjacency | Subscription | Notification

  class ForwardDFSVisitor<S(==,!new), N(==,!new), L(==,!new)> {
    const continueWith: Transition<S, N> -> bool
    var adjacent: map<S, set<S>>
    var reaches: map<S, set<S>>
    var inverseReaches: map<S, set<S>>
    var refCount: map<(S, S), int>
    var listeners: map<S, set<L>>
    /** The part of the automaton the visitor talks to: its transitions and the listeners the visitor registered. */
    var transitions: set<Transition<S, N>>
    var closures: set<Closure<S, L>>
    var notices: set<Notice<S, N, L>>
    /** Edges and start states inserted so far. */
    ghost var edges: set<(S, S)>
    ghost var starts: set<S>

    ghost predicate Indexed()
      reads `refCount, `reaches, `inverseReaches, `starts
    {
      && (forall x, y :: (x, y) in refCount <==> x in Get(reaches, y))
      && (forall x, y :: y in Get(inverseReaches, x) <==> (x, y) in refCount || (x == y && x in starts))
    }

    ghost predicate Adjacent()
      reads `adjacent, `edges
    {
      forall x, y :: (x, y) in edges <==> y in Get(adjacent, x)
    }

    /** The index is the transitive closure of the edges. */
    ghost predicate Closed()
      reads `refCount, `edges
    {
      forall x, y :: (x, y) in refCount <==> Connected(edges, x, y)
    }

    /** Exactly the right listeners are registered. */
    ghost predicate Subscribed()
      reads `closures, `listeners, `inverseReaches
    {
      forall d, s, l :: Closure(d, s, l) in closures <==> l in Get(listeners, s) && d in Get(inverseReaches, s)
    }

    /** They have been told exactly the transitions they observe, except perhaps `pending`. */
    ghost predicate Told(pending: set<Transition<S, N>>)
      reads `notices, `closures, `transitions
    {
      && (forall s, l, t :: Notice(s, l, t) in notices ==> t in transitions && Closure(t.start, s, l) in closures)
      && (forall s, l, t :: t in transitions - pending && Closure(t.start, s, l) in closures ==>
         Notice(s, l, t) in notices)
    }

    ghost predicate Valid()
      reads this
    {
      Base({}) && Closed() && edges == Admitted(transitions) && starts == set t | t in transitions :: t.start
    }

    /** The edges the visitor follows. */
    ghost function Admitted(ts: set<Transition<S, N>>): set<(S, S)> {
      set t | t in ts && continueWith(t) :: (t.start, t.target)
    }

    constructor (continueWith: Transition<S, N> -> bool)
      ensures Valid() && transitions == {} && listeners == map[] && this.continueWith == continueWith
    {
      this.continueWith := continueWith;
      adjacent, reaches, inverseReaches, refCount, listeners := map[], map[], map[], map[], map[];
      transitions, closures, notices, edges, starts := {}, {}, {}, {}, {};
      new;
      NothingConnected<S>();
      forall f: Facet ensures Shows(f, {}) {
      }
      assert edges == Admitted({});
    }

    /** `aut.registerListener(new TransitiveClosure(...))`: the transitions already there are replayed. */
    method RegisterClosure(c: Closure<S, L>, ghost pending: set<Transition<S, N>>)
      requires Told(pending)
      modifies `closures, `notices
      ensures Told(pending) && closures == old(closures) + {c}
    {
      if c in closures {
        return;
      }
      closures := closures + {c};
      var out := set t | t in transitions && t.start == c.at;
      notices := notices + set t | t in out :: Notice(c.s, c.l, t);
    }

    /** `inverseReaches` */
    method InverseReaches(from: S, to: S, ghost pending: set<Transition<S, N>>)
      requires Subscribed() && Told(pending)
      modifies `inverseReaches, `closures, `notices
      ensures Subscribed() && Told(pending)
      ensures forall x, y :: y in Get(inverseReaches, x) <==> y in Get(old(inverseReaches), x) || (x, y) == (from, to)
    {
      if to in Get(inverseReaches, from) {
        return;
      }
      PutMember(inverseReaches, from, to);
      inverseReaches := Put(inverseReaches, from, to);
      var todo := Get(listeners, from);
      while todo != {}
        invariant inverseReaches == Put(old(inverseReaches), from, to)
        invariant todo <= Get(listeners, from) && Told(pending)
        invariant closures == old(closures) + set l | l in Get(listeners, from) - todo :: Closure(to, from, l)
        decreases todo
      {
        var l :| l in todo;
        todo := todo - {l};
        RegisterClosure(Closure(to, from, l), pending);
      }
    }

    /** `makeClosure`, with the entry of `refCount` that always follows it. */
    method MakeClosure(from: S, to: S, ghost pending: set<Transition<S, N>>)
      requires Indexed() && Subscribed() && Told(pending) && (from, to) !in refCount
      modifies `reaches, `refCount, `inverseReaches, `closures, `notices
      ensures Indexed() && Subscribed() && Told(pending)
      ensures refCount.Keys == old(refCount.Keys) + {(from, to)}
    {
      reaches := Put(reaches, to, from);
      InverseReaches(from, to, pending);
      refCount := refCount[(from, to) := 1];
    }

    ghost predicate Shows(f: Facet, pending: set<Transition<S, N>>)
      reads this
    {
      match f
      case Index => Indexed()
      case Adjacency => Adjacent()
      case Subscription => Subscribed()
      case Notification => Told(pending)
    }

    ghost predicate Base(pending: set<Transition<S, N>>)
      reads this
    {
      forall f: Facet :: Shows(f, pending)
    }

    method Link(from: S, to: S, ghost pending: set<Transition<S, N>>)
      requires Base(pending) && (from, to) !in refCount
      modifies `reaches, `refCount, `inverseReaches, `closures, `notices
      ensures Base(pending) && refCount.Keys == old(refCount.Keys) + {(from, to)}
    {
      assert Shows(Index, pending) && Shows(Subscription, pending) && Shows(Notification, pending)
        && Shows(Adjacency, pending);
      MakeClosure(from, to, pending);
      forall f: Facet ensures Shows(f, pending) {
      }
    }

    /** `makeEdge` */
    method MakeEdge(a: S, b: S, ghost pending: set<Transition<S, N>>)
      requires Base(pending) && (a, b) in refCount
      modifies `adjacent, `edges, `inverseReaches, `closures, `notices
      ensures Base(pending) && edges == old(edges) + {(a, b)}
    {
      Adjoin(a, b, pending);
      assert Shows(Index, pending) && Shows(Subscription, pending) && Shows(Notification, pending)
        && Shows(Adjacency, pending);
      InverseReaches(a, b, pending);
      forall f: Facet ensures Shows(f, pending) {
      }
    }

    method Adjoin(a: S, b: S, ghost pending: set<Transition<S, N>>)
      requires Base(pending)
      modifies `adjacent, `edges
      ensures Base(pending) && edges == old(edges) + {(a, b)}
    {
      PutMember(adjacent, a, b);
      adjacent := Put(adjacent, a, b);
      edges := edges + {(a, b)};
      forall f: Facet ensures Shows(f, pending) {
        assert old(Shows(f, pending));
      }
    }

    /** The loop `for x in reaches(a)`: link every source to `b`, and put new pairs on the worklist. */
    method LinkAll(
      sources: set<S>, b: S, worklist: seq<(S, S)>, ghost pending: set<Transition<S, N>>) returns (work: seq<(S, S)>)
      requires Base(pending)
      modifies `reaches, `refCount, `inverseReaches, `closures, `notices
      ensures Base(pending)
      ensures refCount.Keys == old(refCount.Keys) + Into(sources, b)
      ensures worklist <= work && forall e :: e in refCount.Keys - old(refCount.Keys) ==> e in work
      ensures forall e :: e in work ==> e in worklist || e in refCount
    {
      var todo := sources;
      work := worklist;
      while todo != {}
        invariant todo <= sources && Base(pending)
        invariant refCount.Keys == old(refCount.Keys) + Into(sources - todo, b)
        invariant worklist <= work && forall e :: e in refCount.Keys - old(refCount.Keys) ==> e in work
        invariant forall e :: e in work ==> e in worklist || e in refCount
        decreases todo
      {
        var x :| x in todo;
        todo := todo - {x};
        if (x, b) !in refCount {
          Link(x, b, pending);
          work := work + [(x, b)];
        }
      }
    }

    /** The loop `for z in adjacent(y)`: link `x` to every target. */
    method LinkFrom(
      x: S, targets: set<S>, worklist: seq<(S, S)>, ghost pending: set<Transition<S, N>>) returns (work: seq<(S, S)>)
      requires Base(pending)
      modifies `reaches, `refCount, `inverseReaches, `closures, `notices
      ensures Base(pending)
      ensures refCount.Keys == old(refCount.Keys) + set z | z in targets :: (x, z)
      ensures worklist <= work && forall e :: e in refCount.Keys - old(refCount.Keys) ==> e in work
      ensures forall e :: e in work ==> e in worklist || e in refCount
      ensures work == worklist || refCount.Keys != old(refCount.Keys)
    {
      var todo := targets;
      work := worklist;
      while todo != {}
        invariant todo <= targets && Base(pending)
        invariant refCount.Keys == old(refCount.Keys) + set z | z in targets - todo :: (x, z)
        invariant worklist <= work && forall e :: e in refCount.Keys - old(refCount.Keys) ==> e in work
        invariant forall e :: e in work ==> e in worklist || e in refCount
        invariant work == worklist || exists z :: (x, z) in refCount && (x, z) !in old(refCount)
        decreases todo
      {
        var z :| z in todo;
        todo := todo - {z};
        if (x, z) !in refCount {
          Link(x, z, pending);
          work := work + [(x, z)];
        }
      }
    }

    /** The worklist loop of `insertEdge`. */
    method Saturate(worklist: seq<(S, S)>, ghost pending: set<Transition<S, N>>)
      requires Base(pending) && Justified(edges, refCount.Keys) && Prolonged(edges, refCount.Keys, worklist)
      requires forall e :: e in worklist ==> e in refCount
      modifies `reaches, `refCount, `inverseReaches, `closures, `notices
      ensures Base(pending) && Justified(edges, refCount.Keys) && Prolonged(edges, refCount.Keys, [])
      ensures old(refCount.Keys) <= refCount.Keys
    {
      var work := worklist;
      ghost var universe := Ends(edges);
      while work != []
        invariant Base(pending) && Justified(edges, refCount.Keys) && Prolonged(edges, refCount.Keys, work)
        invariant forall e :: e in work ==> e in refCount
        invariant old(refCount.Keys) <= refCount.Keys
        decreases |Unset(universe, refCount.Keys)|, |work|
      {
        var (x, y) := work[0];
        ghost var was, before := work, refCount.Keys;
        assert Shows(Adjacency, pending);
        work := LinkFrom(x, Get(adjacent, y), work[1..], pending);
        ProlongedNext(edges, before, was, refCount.Keys, work);
        JustifiedWithin(edges, refCount.Keys);
        UnsetShrinks(universe, before, refCount.Keys);
      }
    }

    /** `insertEdge`: afterwards the index is the transitive closure of one edge more. */
    method InsertEdge(a: S, b: S, ghost pending: set<Transition<S, N>>)
      requires Base(pending) && Closed()
      modifies `adjacent, `reaches, `refCount, `inverseReaches, `closures, `notices, `edges
      ensures Base(pending) && Closed()
      ensures edges == old(edges) + {(a, b)}
    {
      ghost var before := refCount.Keys;
      var worklist: seq<(S, S)> := [];
      if (a, b) !in refCount {
        Link(a, b, pending);
        worklist := worklist + [(a, b)];
      }
      MakeEdge(a, b, pending);
      ghost var linked := refCount.Keys;
      assert linked == before + {(a, b)};
      var sources := Get(reaches, a);
      assert forall x :: x in sources <==> (x, a) in before + {(a, b)} by { assert Shows(Index, pending); }
      var work := LinkAll(sources, b, worklist, pending);
      assert worklist != [] ==> work[0] == (a, b);
      ProlongedFirst(old(edges), before, a, b, sources, refCount.Keys, work);
      Saturate(work, pending);
      ProlongedIsClosure(edges, refCount.Keys);
    }

    /** `registerListener` of the visitor. */
    method RegisterListener(s: S, l: L)
      requires Valid()
      modifies `listeners, `closures, `notices
      ensures Valid() && forall x, k :: k in Get(listeners, x) <==> k in Get(old(listeners), x) || (x, k) == (s, l)
    {
      if l in Get(listeners, s) {
        return;
      }
      assert Shows(Index, {}) && Shows(Subscription, {}) && Shows(Notification, {}) && Shows(Adjacency, {});
      PutMember(listeners, s, l);
      listeners := Put(listeners, s, l);
      var todo := Get(inverseReaches, s);
      while todo != {}
        invariant listeners == Put(old(listeners), s, l)
        invariant todo <= Get(inverseReaches, s) && Told({})
        invariant closures == old(closures) + set d | d in Get(inverseReaches, s) - todo :: Closure(d, s, l)
        decreases todo
      {
        var d :| d in todo;
        todo := todo - {d};
        RegisterClosure(Closure(d, s, l), {});
      }
      forall f: Facet ensures Shows(f, {}) {
      }
    }

    /** `onWeightAdded`, for a transition that is already in the automaton. */
    method OnWeightAdded(t: Transition<S, N>)
      requires Base({t}) && Closed()
      modifies `adjacent, `reaches, `refCount, `inverseReaches, `closures, `notices, `edges, `starts
      ensures Base({t}) && Closed()
      ensures edges == old(edges) + Admitted({t}) && starts == old(starts) + {t.start}
    {
      Begin(t.start, {t});
      if !continueWith(t) {
        assert Admitted({t}) == {};
        return;
      }
      assert Admitted({t}) == {(t.start, t.target)};
      InsertEdge(t.start, t.target, {t});
    }

    /** `inverseReaches(a, a)` */
    method Begin(a: S, ghost pending: set<Transition<S, N>>)
      requires Base(pending)
      modifies `inverseReaches, `closures, `notices, `starts
      ensures Base(pending) && starts == old(starts) + {a}
    {
      assert Shows(Index, pending) && Shows(Subscription, pending) && Shows(Notification, pending)
        && Shows(Adjacency, pending);
      InverseReaches(a, a, pending);
      starts := starts + {a};
      forall f: Facet ensures Shows(f, pending) {
      }
    }

    /** A transition enters the automaton: the visitor hears of it first, then the listeners at its start. */
    method AddTransition(t: Transition<S, N>)
      requires Valid()
      modifies this
      ensures Valid() && transitions == old(transitions) + {t} && listeners == old(listeners)
    {
      ghost var before := transitions;
      transitions := transitions + {t};
      forall f: Facet ensures Shows(f, {t}) {
        assert old(Shows(f, {}));
      }
      OnWeightAdded(t);
      assert edges == Admitted(transitions) && starts == set u | u in transitions :: u.start;
      assert Shows(Index, {t}) && Shows(Subscription, {t}) && Shows(Notification, {t}) && Shows(Adjacency, {t});
      notices := notices + set c | c in closures && c.at == t.start :: Notice(c.s, c.l, t);
      forall f: Facet ensures Shows(f, {}) {
      }
    }

    /** `refCount` and `reaches` hold exactly the one-or-more-step closure of the admitted edges. */
    lemma IndexIsClosure(x: S, y: S)
      requires Valid()
      ensures var edges := set t | t in transitions && continueWith(t) :: (t.start, t.target);
              && ((x, y) in refCount <==> Connected(edges, x, y))
              && (x in Get(reaches, y) <==> Connected(edges, x, y))
    {
      assert Admitted(transitions) == set t | t in transitions && continueWith(t) :: (t.start, t.target);
      assert Shows(Index, {});
    }

    /** A listener is told exactly the transitions that start at its state or at a state reachable from it. */
    lemma ListenersAreExact(s: S, l: L, t: Transition<S, N>)
      requires Valid() && l in Get(listeners, s)
      ensures var edges := set u | u in transitions && continueWith(u) :: (u.start, u.target);
              Notice(s, l, t) in notices <==> t in transitions && (t.start == s || Connected(edges, s, t.start))
    {
      assert Admitted(transitions) == set u | u in transitions && continueWith(u) :: (u.start, u.target);
      assert Shows(Index, {}) && Shows(Subscription, {}) && Shows(Notification, {});
      if t in transitions && (t.start == s || Connected(Admitted(transitions), s, t.start)) {
        assert t.start in Get(inverseReaches, s);
        assert Closure(t.start, s, l) in closures;
      }
      if Notice(s, l, t) in notices {
        assert Closure(t.start, s, l) in closures;
      }
    }

    /** Nobody else is told anything. */
    lemma OnlyListenersAreTold(n: Notice<S, N, L>)
      requires Valid() && n in notices
      ensures n.l in Get(listeners, n.s)
    {
      assert Shows(Subscription, {}) && Shows(Notification, {});
      assert Closure(n.t.start, n.s, n.l) in closures;
    }
  }

  /** `continueWith` of `ForwardDFSVisitor` and of `ForwardDFSEpsilonVisitor`. */
  method AllEdges<S(==,!new), N(==,!new), L(==,!new)>() returns (v: ForwardDFSVisitor<S, N, L>)
    ensures fresh(v) && v.Valid() && v.transitions == {} && forall t :: v.continueWith(t)
  {
    v := new ForwardDFSVisitor(t => true);
  }

  method EpsilonEdges<S(==,!new), N(==,!new), L(==,!new)>(isEmpty: N -> bool) returns (v: ForwardDFSVisitor<S, N, L>)
    ensures fresh(v) && v.Valid() && v.transitions == {} && forall t :: v.continueWith(t) == isEmpty(t.symbol)
  {
    v := new ForwardDFSVisitor((t: Transition<S, N>) => isEmpty(t.symbol));
  }
}
