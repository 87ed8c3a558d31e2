/** `containsLoop`: a backward search that revisits states. How far its answer can be trusted, and that it ends. */
module LoopCheck {
  import opened Orders
  import Automata

  type Edge<S, N> = Automata.Transition<S, N>

  datatype Automaton<!S(==,!new), !N(==,!new)> =
    Automaton(transitions: set<Edge<S, N>>, initial: set<S>, epsilon: N, generated: S -> bool)
  {
    predicate Follows(t: Edge<S, N>) {
      t.symbol != epsilon && generated(t.start)
    }

    /** A transition without epsilon leads from the generated state `q'` to `q`. */
    ghost predicate Back(q: S, q': S) {
      generated(q') && exists t :: t in transitions && t.target == q && t.start == q' && t.symbol != epsilon
    }

    /** `q` is `k` steps back from an initial state. */
    ghost predicate Walk(q: S, k: nat) {
      if k == 0 then q in initial else exists p :: Walk(p, k - 1) && Back(p, q)
    }

    /** `q'` is `k` steps back from `q`. */
    ghost predicate Path(q: S, q': S, k: nat) {
      if k == 0 then q == q' else exists p :: Path(q, p, k - 1) && Back(p, q')
    }

    ghost predicate Loops(q: S, k: nat) {
      k > 0 && Path(q, q, k)
    }

    /** Two walks to `q` whose lengths differ by at least `gap`. */
    ghost predicate Uneven(q: S, j: nat, k: nat, gap: nat) {
      Walk(q, j) && Walk(q, k) && j + gap <= k
    }

    ghost predicate IsUneven(gap: nat) {
      exists q, j: nat, k: nat :: Uneven(q, j, k, gap)
    }

    /** Some state that is searched is on a loop. */
    ghost predicate ReachesLoop() {
      exists q, j: nat, k: nat :: Walk(q, j) && Loops(q, k)
    }

    ghost function Universe(): set<S> {
      initial + set t | t in transitions :: t.start
    }
  }

  lemma {:induction false} WalkOn<S(!new), N(!new)>(a: Automaton<S, N>, q: S, j: nat, q': S, k: nat)
    requires a.Walk(q, j) && a.Path(q, q', k)
    ensures a.Walk(q', j + k)
    decreases k
  {
    if k > 0 {
      var p :| a.Path(q, p, k - 1) && a.Back(p, q');
      WalkOn(a, q, j, p, k - 1);
      assert a.Walk(p, j + k - 1);
    }
  }

  /** Going round a loop twice gives walks whose lengths differ by two at least. */
  lemma LoopIsUneven<S(!new), N(!new)>(a: Automaton<S, N>, q: S, j: nat, k: nat)
    requires a.Walk(q, j) && a.Loops(q, k)
    ensures a.Uneven(q, j, j + 2 * k, 2)
  {
    WalkOn(a, q, j, q, k);
    WalkOn(a, q, j + k, q, k);
    assert j + k + k == j + 2 * k;
  }

  // ----- The search, level by level -----

  /** The order in which the initial states, and the transitions into each state, are iterated. */
  datatype Order<!S, !N> = Order(starts: seq<S>, into: S -> seq<Edge<S, N>>)

  ghost function Into<S(!new), N(!new)>(a: Automaton<S, N>, q: S): set<Edge<S, N>> {
    set t | t in a.transitions && t.target == q
  }

  ghost predicate IsOrder<S(!new), N(!new)>(a: Automaton<S, N>, o: Order<S, N>) {
    Lists(o.starts, a.initial) && forall q :: Lists(o.into(q), Into(a, q))
  }

  /** The starts of the transitions that are followed. */
  function Starts<S(!new,==), N(!new,==)>(a: Automaton<S, N>, ts: seq<Edge<S, N>>): seq<S> {
    if ts == [] then []
    else if a.Follows(ts[0]) then [ts[0].start] + Starts(a, ts[1..])
    else Starts(a, ts[1..])
  }

  /** What popping these states, in this order, puts on the worklist. */
  function Pushed<S(!new,==), N(!new,==)>(a: Automaton<S, N>, o: Order<S, N>, level: seq<S>): seq<S> {
    if level == [] then [] else Starts(a, o.into(level[0])) + Pushed(a, o, level[1..])
  }

  /** First in, first out: the worklist holds the ends of the walks of length `k` before longer ones. */
  function Level<S(!new,==), N(!new,==)>(a: Automaton<S, N>, o: Order<S, N>, k: nat): seq<S> {
    if k == 0 then o.starts else Pushed(a, o, Level(a, o, k - 1))
  }

  /** What has been popped up to and including entry `i` of level `k`. */
  ghost predicate Visited<S(!new), N(!new)>(a: Automaton<S, N>, o: Order<S, N>, k: nat, i: nat, q: S)
    requires i < |Level(a, o, k)|
  {
    q in Level(a, o, k)[..i + 1] || exists j: nat :: j < k && q in Level(a, o, j)
  }

  /** Entry `i` of level `k` has a followed transition from a visited state. */
  ghost predicate AlarmAt<S(!new), N(!new)>(a: Automaton<S, N>, o: Order<S, N>, k: nat, i: nat) {
    i < |Level(a, o, k)| && exists q :: q in Starts(a, o.into(Level(a, o, k)[i])) && Visited(a, o, k, i, q)
  }

  ghost predicate Alarms<S(!new), N(!new)>(a: Automaton<S, N>, o: Order<S, N>) {
    exists k: nat, i: nat :: AlarmAt(a, o, k, i)
  }

  lemma {:induction false} StartsOf<S(!new), N(!new)>(a: Automaton<S, N>, ts: seq<Edge<S, N>>, q: S)
    ensures q in Starts(a, ts) <==> exists t :: t in ts && a.Follows(t) && t.start == q
  {
    if ts != [] {
      StartsOf(a, ts[1..], q);
      assert forall t :: t in ts <==> t == ts[0] || t in ts[1..];
    }
  }

  lemma StartsAreBack<S(!new), N(!new)>(a: Automaton<S, N>, o: Order<S, N>, p: S, q: S)
    requires IsOrder(a, o)
    ensures q in Starts(a, o.into(p)) <==> a.Back(p, q)
  {
    StartsOf(a, o.into(p), q);
    assert Lists(o.into(p), Into(a, p));
  }

  lemma {:induction false} PushedOf<S(!new), N(!new)>(a: Automaton<S, N>, o: Order<S, N>, level: seq<S>, q: S)
    requires IsOrder(a, o)
    ensures q in Pushed(a, o, level) <==> exists p :: p in level && a.Back(p, q)
  {
    if level != [] {
      PushedOf(a, o, level[1..], q);
      StartsAreBack(a, o, level[0], q);
      assert forall p :: p in level <==> p == level[0] || p in level[1..];
    }
  }

  /** Level `k` holds the ends of the walks of length `k`. */
  lemma {:induction false} LevelIsWalks<S(!new), N(!new)>(a: Automaton<S, N>, o: Order<S, N>, k: nat, q: S)
    requires IsOrder(a, o)
    ensures q in Level(a, o, k) <==> a.Walk(q, k)
  {
    if k > 0 {
      var j: nat := k - 1;
      var level := Level(a, o, j);
      PushedOf(a, o, level, q);
      forall p
        ensures p in level <==> a.Walk(p, j)
      {
        LevelIsWalks(a, o, j, p);
      }
    }
  }

  // ----- When the search answers true -----

  /** True is answered only if two walks to a state differ in length. */
  lemma AlarmIsUneven<S(!new), N(!new)>(a: Automaton<S, N>, o: Order<S, N>)
    requires IsOrder(a, o) && Alarms(a, o)
    ensures a.IsUneven(1)
  {
    var k: nat, i: nat :| AlarmAt(a, o, k, i);
    var p := Level(a, o, k)[i];
    var q :| q in Starts(a, o.into(p)) && Visited(a, o, k, i, q);
    LevelIsWalks(a, o, k, p);
    StartsAreBack(a, o, p, q);
    assert a.Walk(q, k + 1) by { assert a.Walk(p, k + 1 - 1); }
    var j: nat := k;
    if q !in Level(a, o, k)[..i + 1] {
      j :| j < k && q in Level(a, o, j);
    }
    LevelIsWalks(a, o, j, q);
    assert a.Uneven(q, j, k + 1, 1);
  }

  /** If the lengths differ by two, every order answers true. */
  lemma GapAlarms<S(!new), N(!new)>(a: Automaton<S, N>, o: Order<S, N>)
    requires IsOrder(a, o) && a.IsUneven(2)
    ensures Alarms(a, o)
  {
    var q, j: nat, k: nat :| a.Uneven(q, j, k, 2);
    var h: nat := k - 1;
    var p :| a.Walk(p, h) && a.Back(p, q);
    LevelIsWalks(a, o, h, p);
    LevelIsWalks(a, o, j, q);
    StartsAreBack(a, o, p, q);
    var level := Level(a, o, h);
    var i :| 0 <= i < |level| && level[i] == p;
    assert Visited(a, o, h, i, q);
    assert AlarmAt(a, o, h, i);
  }

  lemma LoopAlarms<S(!new), N(!new)>(a: Automaton<S, N>, o: Order<S, N>)
    requires IsOrder(a, o) && a.ReachesLoop()
    ensures Alarms(a, o)
  {
    var q, j: nat, k: nat :| a.Walk(q, j) && a.Loops(q, k);
    LoopIsUneven(a, q, j, k);
    GapAlarms(a, o);
  }

  // ----- If the lengths differ by one, some order answers true -----

  /** `x` comes up in the sequence before some occurrence of `y`. */
  ghost predicate Precedes<S(!new)>(s: seq<S>, x: S, y: S) {
    exists i, j :: 0 <= i < j < |s| && s[i] == x && s[j] == y
  }

  lemma PrecedesIn<S(!new)>(before: seq<S>, s: seq<S>, after: seq<S>, x: S, y: S)
    requires Precedes(s, x, y) || (x in before && y in s) || (x in s && y in after)
    ensures Precedes(before + s + after, x, y)
  {
    var all, b := before + s + after, |before|;
    if i, j :| 0 <= i < j < |s| && s[i] == x && s[j] == y {
      assert all[b + i] == x && all[b + j] == y;
    } else if x in before && y in s {
      var i :| 0 <= i < b && before[i] == x;
      var j :| 0 <= j < |s| && s[j] == y;
      assert all[i] == x && all[b + j] == y;
    } else {
      var i :| 0 <= i < |s| && s[i] == x;
      var j :| 0 <= j < |after| && after[j] == y;
      assert all[b + i] == x && all[b + |s| + j] == y;
    }
  }

  /** What an earlier entry pushes comes before what a later one pushes. */
  lemma {:induction false} PushedPrecedes<S(!new), N(!new)>(
    a: Automaton<S, N>, o: Order<S, N>, level: seq<S>, p: S, p': S, q: S, q': S)
    requires IsOrder(a, o) && Precedes(level, p, p') && a.Back(p, q) && a.Back(p', q')
    ensures Precedes(Pushed(a, o, level), q, q')
  {
    var i, j :| 0 <= i < j < |level| && level[i] == p && level[j] == p';
    var first, rest := Starts(a, o.into(level[0])), Pushed(a, o, level[1..]);
    if i == 0 {
      StartsAreBack(a, o, p, q);
      assert level[1..][j - 1] == p';
      PushedOf(a, o, level[1..], q');
      PrecedesIn([], first, rest, q, q');
      assert [] + first + rest == first + rest;
    } else {
      assert level[1..][i - 1] == p && level[1..][j - 1] == p';
      PushedPrecedes(a, o, level[1..], p, p', q, q');
      PrecedesIn(first, rest, [], q, q');
      assert first + rest + [] == first + rest;
    }
  }

  /** The same for what one entry pushes. */
  lemma {:induction false} SiblingPrecedes<S(!new), N(!new)>(
    a: Automaton<S, N>, o: Order<S, N>, level: seq<S>, p: S, q: S, q': S)
    requires p in level && Precedes(Starts(a, o.into(p)), q, q')
    ensures Precedes(Pushed(a, o, level), q, q')
  {
    var first, rest := Starts(a, o.into(level[0])), Pushed(a, o, level[1..]);
    if p == level[0] {
      PrecedesIn([], first, rest, q, q');
      assert [] + first + rest == first + rest;
    } else {
      SiblingPrecedes(a, o, level[1..], p, q, q');
      PrecedesIn(first, rest, [], q, q');
      assert first + rest + [] == first + rest;
    }
  }

  /** Some order of a set, from a given element on if it has that element. */
  ghost function ListedFrom<T(!new)>(s: set<T>, x: T): (order: seq<T>)
    ensures Lists(order, s) && (x in s ==> order != [] && order[0] == x)
  {
    ListingExists(s, x);
    var order :| Lists(order, s) && (x in s ==> order != [] && order[0] == x);
    order
  }

  lemma ListingExists<T(!new)>(s: set<T>, x: T)
    ensures exists order :: Lists(order, s) && (x in s ==> order != [] && order[0] == x)
  {
    var order: seq<T>;
    if x in s {
      order := ListingFrom(s, x);
    } else {
      order := Listing(s);
    }
  }

  lemma AnOrder<S(!new), N(!new)>(a: Automaton<S, N>, starts: seq<S>, t: Edge<S, N>) returns (o: Order<S, N>)
    requires Lists(starts, a.initial)
    ensures IsOrder(a, o) && o.starts == starts
      && (t in a.transitions ==> o.into(t.target) != [] && o.into(t.target)[0] == t)
  {
    var into := (q: S) => ListedFrom(Into(a, q), t);
    o := Order(starts, into);
    forall q
      ensures Lists(o.into(q), Into(a, q))
    {
      assert o.into(q) == ListedFrom(Into(a, q), t);
    }
  }

  /** Of two states at the same distance, some order pops the first before the second. */
  lemma {:induction false} SomeOrderPrecedes<S(!new), N(!new)>(a: Automaton<S, N>, k: nat, q: S, q': S)
    returns (o: Order<S, N>)
    requires a.Walk(q, k) && a.Walk(q', k) && q != q'
    ensures IsOrder(a, o) && Precedes(Level(a, o, k), q, q')
    decreases k
  {
    if k == 0 {
      var starts := ListingFrom(a.initial, q);
      o := StartingWith(a, starts);
      var j :| 0 <= j < |starts| && starts[j] == q';
    } else {
      var p :| a.Walk(p, k - 1) && a.Back(p, q);
      var p' :| a.Walk(p', k - 1) && a.Back(p', q');
      if p == p' {
        var t :| t in a.transitions && t.target == p && t.start == q && a.Follows(t);
        var starts := Listing(a.initial);
        o := AnOrder(a, starts, t);
        LevelIsWalks(a, o, k - 1, p);
        StartsAreBack(a, o, p, q');
        var pushed := Starts(a, o.into(p));
        assert pushed[0] == q;
        var j :| 0 <= j < |pushed| && pushed[j] == q';
        assert Precedes(pushed, q, q');
        SiblingPrecedes(a, o, Level(a, o, k - 1), p, q, q');
      } else {
        o := SomeOrderPrecedes(a, k - 1, p, p');
        PushedPrecedes(a, o, Level(a, o, k - 1), p, p', q, q');
      }
    }
  }

  lemma StartingWith<S(!new), N(!new)>(a: Automaton<S, N>, starts: seq<S>) returns (o: Order<S, N>)
    requires Lists(starts, a.initial)
    ensures IsOrder(a, o) && o.starts == starts
  {
    if t :| t in a.transitions {
      o := AnOrder(a, starts, t);
    } else {
      o := Order(starts, (q: S) => []);
    }
  }

  /** Some order answers true if and only if two walks to a state differ in length. */
  lemma SomeOrderAlarmsIff<S(!new), N(!new)>(a: Automaton<S, N>)
    ensures (exists o: Order<S, N> :: IsOrder(a, o) && Alarms(a, o)) <==> a.IsUneven(1)
  {
    if o: Order<S, N> :| IsOrder(a, o) && Alarms(a, o) {
      AlarmIsUneven(a, o);
    }
    if a.IsUneven(1) {
      var q, j: nat, k: nat :| a.Uneven(q, j, k, 1);
      var starts := Listing(a.initial);
      var o := StartingWith(a, starts);
      if k >= j + 2 {
        assert a.Uneven(q, j, k, 2);
        GapAlarms(a, o);
      } else {
        var p :| a.Walk(p, j) && a.Back(p, q);
        var i: nat;
        if p == q {
          LevelIsWalks(a, o, j, p);
          i :| 0 <= i < |Level(a, o, j)| && Level(a, o, j)[i] == p;
        } else {
          o := SomeOrderPrecedes(a, j, q, p);
          var level := Level(a, o, j);
          var h, x :| 0 <= h < x < |level| && level[h] == q && level[x] == p;
          i := x;
          assert level[..i + 1][h] == q;
        }
        StartsAreBack(a, o, p, q);
        assert Visited(a, o, j, i, q);
        assert AlarmAt(a, o, j, i);
      }
    }
  }

  /** Every order gives the right answer if and only if there is a loop or all walks to a state have one length. */
  lemma EveryOrderRightIff<S(!new), N(!new)>(a: Automaton<S, N>)
    ensures (forall o: Order<S, N> :: IsOrder(a, o) ==> (Alarms(a, o) <==> a.ReachesLoop()))
            <==> a.ReachesLoop() || !a.IsUneven(1)
  {
    SomeOrderAlarmsIff(a);
    forall o: Order<S, N> | IsOrder(a, o) && a.ReachesLoop()
      ensures Alarms(a, o)
    {
      LoopAlarms(a, o);
    }
  }

  // ----- The loop -----

  /** Entries of the worklist that were visited already. */
  ghost function Stale<S(!new)>(worklist: seq<S>, visited: set<S>): nat {
    if worklist == [] then 0 else (if worklist[0] in visited then 1 else 0) + Stale(worklist[1..], visited)
  }

  lemma {:induction false} StaleAppend<S(!new)>(worklist: seq<S>, news: seq<S>, visited: set<S>)
    requires forall q :: q in news ==> q !in visited
    ensures Stale(worklist + news, visited) == Stale(worklist, visited)
    decreases |worklist| + |news|
  {
    if worklist != [] {
      assert (worklist + news)[1..] == worklist[1..] + news;
      StaleAppend(worklist[1..], news, visited);
    } else if news != [] {
      assert worklist + news == news && news == [news[0]] + news[1..];
      StaleAppend([], news[1..], visited);
      assert [] + news[1..] == news[1..];
    }
  }

  /** Popping an entry visits a state, or leaves fewer entries that were visited already. */
  lemma Progress<S(!new)>(universe: set<S>, visited: set<S>, worklist: seq<S>, news: seq<S>)
    requires worklist != [] && worklist[0] in universe
    requires forall q :: q in news ==> q !in visited + {worklist[0]}
    ensures var visited' := visited + {worklist[0]};
            || |universe - visited'| < |universe - visited|
            || (visited' == visited && Stale(worklist[1..] + news, visited') < Stale(worklist, visited))
  {
    var q := worklist[0];
    if q !in visited {
      assert universe - visited == (universe - (visited + {q})) + {q};
    } else {
      assert visited + {q} == visited;
      StaleAppend(worklist[1..], news, visited);
    }
  }

  /** Before entry `i` of level `k` is popped: the rest of the level is on the worklist, then what its first entries
      pushed; and none of the entries so far gave an alarm. */
  ghost predicate At<S(!new), N(!new)>(
    a: Automaton<S, N>, o: Order<S, N>, k: nat, i: nat, visited: set<S>, worklist: seq<S>)
  {
    && i <= |Level(a, o, k)|
    && worklist == Level(a, o, k)[i..] + Pushed(a, o, Level(a, o, k)[..i])
    && (forall q :: q in visited <==> q in Level(a, o, k)[..i] || exists j: nat :: j < k && q in Level(a, o, j))
    && (forall j: nat, h: nat :: j < k || (j == k && h < i) ==> !AlarmAt(a, o, j, h))
  }

  lemma {:induction false} PushedAppend<S(!new), N(!new)>(a: Automaton<S, N>, o: Order<S, N>, level: seq<S>, q: S)
    ensures Pushed(a, o, level + [q]) == Pushed(a, o, level) + Starts(a, o.into(q))
  {
    if level != [] {
      assert (level + [q])[1..] == level[1..] + [q];
      PushedAppend(a, o, level[1..], q);
    } else {
      assert [q][1..] == [] && level + [q] == [q];
    }
  }

  /** At the end of a level, the worklist is the next one. */
  lemma NextLevel<S(!new), N(!new)>(
    a: Automaton<S, N>, o: Order<S, N>, k: nat, i: nat, visited: set<S>, worklist: seq<S>)
    requires At(a, o, k, i, visited, worklist) && i == |Level(a, o, k)|
    ensures At(a, o, k + 1, 0, visited, worklist) && worklist == Level(a, o, k + 1)
  {
    var level := Level(a, o, k);
    assert level[..i] == level && level[i..] == [];
    assert Level(a, o, k + 1)[..0] == [];
    forall j: nat, h: nat | j == k && h >= i
      ensures !AlarmAt(a, o, j, h)
    {
    }
  }

  /** One entry popped without an alarm. */
  lemma NextEntry<S(!new), N(!new)>(
    a: Automaton<S, N>, o: Order<S, N>, k: nat, i: nat, visited: set<S>, worklist: seq<S>)
    requires At(a, o, k, i, visited, worklist) && i < |Level(a, o, k)|
    requires forall q :: q in Starts(a, o.into(Level(a, o, k)[i])) ==> q !in visited + {Level(a, o, k)[i]}
    ensures worklist != [] && worklist[0] == Level(a, o, k)[i]
    ensures At(a, o, k, i + 1, visited + {worklist[0]}, worklist[1..] + Starts(a, o.into(worklist[0])))
  {
    var level, pushed := Level(a, o, k), Pushed(a, o, Level(a, o, k)[..i]);
    assert level[i..] == [level[i]] + level[i + 1..];
    assert worklist[1..] == level[i + 1..] + pushed;
    assert level[..i + 1] == level[..i] + [level[i]];
    PushedAppend(a, o, level[..i], level[i]);
    var news := Starts(a, o.into(level[i]));
    assert worklist[1..] + news == level[i + 1..] + (pushed + news);
    forall q
      ensures q in visited + {level[i]} <==> Visited(a, o, k, i, q)
    {
    }
    assert !AlarmAt(a, o, k, i);
  }

  lemma AlarmHere<S(!new), N(!new)>(
    a: Automaton<S, N>, o: Order<S, N>, k: nat, i: nat, visited: set<S>, worklist: seq<S>, q: S)
    requires At(a, o, k, i, visited, worklist) && i < |Level(a, o, k)|
    requires q in Starts(a, o.into(Level(a, o, k)[i])) && q in visited + {Level(a, o, k)[i]}
    ensures Alarms(a, o)
  {
    var level := Level(a, o, k);
    assert level[..i + 1] == level[..i] + [level[i]];
    assert Visited(a, o, k, i, q);
    assert AlarmAt(a, o, k, i);
  }

  /** An empty level is followed by empty ones. */
  lemma {:induction false} EmptyFrom<S(!new), N(!new)>(a: Automaton<S, N>, o: Order<S, N>, k: nat, j: nat)
    requires Level(a, o, k) == [] && k <= j
    ensures Level(a, o, j) == []
    decreases j
  {
    if k < j {
      EmptyFrom(a, o, k, j - 1);
    }
  }

  lemma NoAlarm<S(!new), N(!new)>(a: Automaton<S, N>, o: Order<S, N>, k: nat, visited: set<S>)
    requires At(a, o, k, 0, visited, [])
    ensures !Alarms(a, o)
  {
    assert Level(a, o, k) == Level(a, o, k)[0..];
    forall j: nat, h: nat
      ensures !AlarmAt(a, o, j, h)
    {
      if k <= j {
        EmptyFrom(a, o, k, j);
      }
    }
  }

  lemma InUniverse<S(!new), N(!new)>(a: Automaton<S, N>, o: Order<S, N>, k: nat, q: S)
    requires IsOrder(a, o) && q in Level(a, o, k)
    ensures q in a.Universe()
  {
    LevelIsWalks(a, o, k, q);
    if k > 0 {
      var p :| a.Walk(p, k - 1) && a.Back(p, q);
    }
  }

  method ContainsLoop<S(!new,==), N(!new,==)>(a: Automaton<S, N>, o: Order<S, N>) returns (found: bool)
    requires IsOrder(a, o)
    ensures found <==> Alarms(a, o)
  {
    var visited: set<S> := {};
    var worklist := o.starts;
    ghost var k: nat, i: nat := 0, 0;
    assert Level(a, o, 0)[0..] == o.starts && Level(a, o, 0)[..0] == [];
    while worklist != []
      invariant At(a, o, k, i, visited, worklist) && (worklist == [] ==> i == |Level(a, o, k)|)
      decreases |a.Universe() - visited|, Stale(worklist, visited)
    {
      if i == |Level(a, o, k)| {
        NextLevel(a, o, k, i, visited, worklist);
        k, i := k + 1, 0;
      }
      var q := worklist[0];
      assert q == Level(a, o, k)[i];
      InUniverse(a, o, k, q);
      ghost var before, was := worklist, visited;
      visited := visited + {q};
      found, worklist := Expand(a, o.into(q), visited, worklist[1..]);
      if found {
        ghost var u :| u in Starts(a, o.into(q)) && u in visited;
        AlarmHere(a, o, k, i, was, before, u);
        return;
      }
      NextEntry(a, o, k, i, was, before);
      Progress(a.Universe(), was, before, Starts(a, o.into(q)));
      i := i + 1;
    }
    NextLevel(a, o, k, i, visited, worklist);
    NoAlarm(a, o, k + 1, visited);
    return false;
  }

  /** The loop over the transitions into the popped state. */
  method Expand<S(!new,==), N(!new,==)>(a: Automaton<S, N>, inTrans: seq<Edge<S, N>>, visited: set<S>, rest: seq<S>)
    returns (found: bool, worklist: seq<S>)
    ensures found <==> exists q :: q in Starts(a, inTrans) && q in visited
    ensures !found ==> worklist == rest + Starts(a, inTrans)
  {
    worklist := rest;
    for i := 0 to |inTrans|
      invariant worklist == rest + Starts(a, inTrans[..i])
      invariant forall q :: q in Starts(a, inTrans[..i]) ==> q !in visited
    {
      var t := inTrans[i];
      assert inTrans[..i + 1] == inTrans[..i] + [t];
      StartsAppend(a, inTrans[..i], t);
      if t.symbol == a.epsilon {
        continue;
      }
      if !a.generated(t.start) {
        continue;
      }
      if t.start in visited {
        StartsOf(a, inTrans, t.start);
        return true, worklist;
      }
      worklist := worklist + [t.start];
    }
    assert inTrans[..|inTrans|] == inTrans;
    return false, worklist;
  }

  lemma {:induction false} StartsAppend<S(!new), N(!new)>(a: Automaton<S, N>, ts: seq<Edge<S, N>>, t: Edge<S, N>)
    ensures Starts(a, ts + [t]) == Starts(a, ts) + if a.Follows(t) then [t.start] else []
  {
    if ts != [] {
      assert (ts + [t])[1..] == ts[1..] + [t];
      StartsAppend(a, ts[1..], t);
    } else {
      assert [t][1..] == [] && ts + [t] == [t];
    }
  }

  // ----- A false alarm -----

  ghost predicate Ascends<S(!new), N(!new)>(a: Automaton<S, N>, rank: S -> nat) {
    forall p, q :: a.Back(p, q) ==> rank(p) < rank(q)
  }

  lemma {:induction false} RankedPath<S(!new), N(!new)>(a: Automaton<S, N>, rank: S -> nat, q: S, q': S, k: nat)
    requires Ascends(a, rank) && a.Path(q, q', k)
    ensures rank(q) + k <= rank(q')
    decreases k
  {
    if k > 0 {
      var p :| a.Path(q, p, k - 1) && a.Back(p, q');
      RankedPath(a, rank, q, p, k - 1);
    }
  }

  /** A chain of three steps, of which a single step also reaches the end: there is no loop anywhere, but two walks
      whose lengths differ by two, so that every order reports one. */
  lemma FalseAlarm<S(!new), N(!new)>(i: S, p: S, r: S, s: S, n: N, epsilon: N) returns (a: Automaton<S, N>)
    requires i != p && i != r && i != s && p != r && p != s && r != s && n != epsilon
    ensures forall o :: IsOrder(a, o) ==> Alarms(a, o)
    ensures forall q, k: nat :: !a.Loops(q, k)
  {
    var edges := {Automata.Transition(s, n, i), Automata.Transition(p, n, i), Automata.Transition(r, n, p),
                  Automata.Transition(s, n, r)};
    a := Automaton(edges, {i}, epsilon, (q: S) => q != i);
    var rank: S -> nat := (q: S) => if q == i then 0 else if q == p then 1 else if q == r then 2 else 3;
    assert Automata.Transition(s, n, i) in edges && Automata.Transition(p, n, i) in edges;
    assert Automata.Transition(r, n, p) in edges && Automata.Transition(s, n, r) in edges;
    assert a.Back(i, s) && a.Back(i, p) && a.Back(p, r) && a.Back(r, s);
    assert a.Walk(i, 0) && a.Walk(s, 1) && a.Walk(p, 1);
    assert a.Walk(r, 2) && a.Walk(s, 3);
    assert a.Uneven(s, 1, 3, 2);
    forall o | IsOrder(a, o)
      ensures Alarms(a, o)
    {
      GapAlarms(a, o);
    }
    assert Ascends(a, rank);
    forall q, k: nat
      ensures !a.Loops(q, k)
    {
      if a.Loops(q, k) {
        RankedPath(a, rank, q, q, k);
      }
    }
  }
}
