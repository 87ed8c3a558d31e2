/** Online joins whose callbacks re-enter them: each pair is processed exactly once, whatever the nesting. */
module Joins {
  // ----- The ledger of what has been processed -----

  datatype Aspect = Once | Complete | Open

  ghost predicate Ledger<K(!new)>(aspect: Aspect, log: seq<K>, owed: set<K>, due: set<K>) {
    match aspect
    case Once => forall i, j :: 0 <= i < j < |log| ==> log[i] != log[j]
    case Complete => forall k :: k in due <==> k in log || k in owed
    case Open => forall k :: k in owed ==> k !in log
  }

  /** `log` and `owed` split what is due: nothing is processed twice, and nothing is forgotten. */
  ghost predicate Balanced<K(!new)>(log: seq<K>, owed: set<K>, due: set<K>) {
    forall aspect: Aspect :: Ledger(aspect, log, owed, due)
  }

  lemma Owe<K(!new)>(log: seq<K>, owed: set<K>, due: set<K>, more: set<K>)
    requires Balanced(log, owed, due) && more !! due
    ensures Balanced(log, owed + more, due + more) && more !! owed
  {
    assert Ledger(Once, log, owed, due) && Ledger(Complete, log, owed, due) && Ledger(Open, log, owed, due);
  }

  lemma Pay<K(!new)>(log: seq<K>, owed: set<K>, due: set<K>, k: K)
    requires Balanced(log, owed + {k}, due) && k !in owed
    ensures Balanced(log + [k], owed, due)
  {
    var all := owed + {k};
    assert Ledger(Once, log, all, due) && Ledger(Complete, log, all, due) && Ledger(Open, log, all, due);
    assert forall x :: x in log + [k] <==> x in log || x == k;
  }

  /** With nothing owed, the log holds everything due, each once. */
  lemma {:induction false} ExactlyOnce<K(!new)>(log: seq<K>, due: set<K>, k: K)
    requires Balanced(log, {}, due)
    ensures multiset(log)[k] == if k in due then 1 else 0
    ensures |log| == |due|
  {
    assert Ledger(Once, log, {}, due) && Ledger(Complete, log, {}, due);
    OnceEach(log);
    assert (set x | x in log) == due;
    if k in log {
      assert multiset(log)[k] == 1;
    } else {
      assert k !in multiset(log);
    }
  }

  lemma {:induction false} OnceEach<K(!new)>(log: seq<K>)
    requires forall i, j :: 0 <= i < j < |log| ==> log[i] != log[j]
    ensures |set x | x in log| == |log|
    ensures forall k :: k in log ==> multiset(log)[k] == 1
    decreases |log|
  {
    if log != [] {
      var rest, last := log[..|log| - 1], log[|log| - 1];
      OnceEach(rest);
      assert log == rest + [last];
      assert multiset(log) == multiset(rest) + multiset{last};
      assert last !in rest;
      assert last !in multiset(rest);
      assert (set x | x in log) == (set x | x in rest) + {last};
      forall k | k in log
        ensures multiset(log)[k] == 1
      {
        assert k != last ==> k in rest;
      }
    }
  }

  /** What a loop still has to process: one key for each element that is left. */
  ghost function Each<A(!new), K(!new)>(left: set<A>, key: A -> K): set<K> {
    set a | a in left :: key(a)
  }

  lemma Next<A(!new), K(!new)>(owed: set<K>, left: set<A>, key: A -> K, a: A)
    requires a in left && Each(left, key) !! owed
    requires forall x, y :: x in left && y in left && key(x) == key(y) ==> x == y
    ensures Each(left - {a}, key) !! owed && key(a) !in owed + Each(left - {a}, key)
    ensures owed + Each(left, key) == owed + Each(left - {a}, key) + {key(a)}
  {
    var rest := Each(left - {a}, key);
    assert Each(left, key) == rest + {key(a)};
  }

  ghost predicate AskedAt<A(!new), K(!new)>(script: seq<K> -> seq<A>, log: seq<K>, i: nat, a: A) {
    i < |log| && a in script(log[..i + 1])
  }

  /** Someone outside asked for it, or one of the callbacks so far did. */
  ghost predicate Asked<A(!new), K(!new)>(script: seq<K> -> seq<A>, outside: set<A>, log: seq<K>, a: A) {
    a in outside || exists i :: AskedAt(script, log, i, a)
  }

  /** What the callback of entry `i` asked for is there. */
  ghost predicate AnsweredAt<A(!new), K(!new)>(script: seq<K> -> seq<A>, log: seq<K>, i: nat, there: A -> bool) {
    forall a :: AskedAt(script, log, i, a) ==> there(a)
  }

  /** What the callbacks from entry `from` of the log on asked for is there. */
  ghost predicate Answered<A(!new), K(!new)>(script: seq<K> -> seq<A>, log: seq<K>, from: nat, there: A -> bool) {
    forall i: nat :: from <= i ==> AnsweredAt(script, log, i, there)
  }

  /** Nothing new has been logged. */
  lemma NothingAsked<A(!new), K(!new)>(script: seq<K> -> seq<A>, log: seq<K>, there: A -> bool)
    ensures Answered(script, log, |log|, there)
  {
  }

  lemma AnsweredOn<A(!new), K(!new)>(
    script: seq<K> -> seq<A>, log: seq<K>, longer: seq<K>, from: nat, there: A -> bool, later: A -> bool)
    requires Answered(script, log, from, there) && Answered(script, longer, |log|, later)
    requires log <= longer && forall a :: there(a) ==> later(a)
    ensures Answered(script, longer, from, later)
  {
    forall i: nat | from <= i
      ensures AnsweredAt(script, longer, i, later)
    {
      if i < |log| {
        assert longer[..i + 1] == log[..i + 1];
        assert AnsweredAt(script, log, i, there);
        assert forall a :: AskedAt(script, longer, i, a) ==> AskedAt(script, log, i, a);
      }
    }
  }

  /** One entry more, of which everything asked for is there. */
  lemma AnsweredOne<A(!new), K(!new)>(script: seq<K> -> seq<A>, log: seq<K>, there: A -> bool)
    requires log != [] && forall a :: a in script(log) ==> there(a)
    ensures Answered(script, log, |log| - 1, there)
  {
    forall i: nat | |log| - 1 <= i
      ensures AnsweredAt(script, log, i, there)
    {
      assert log[..|log|] == log;
    }
  }

  lemma AskedGrows<A(!new), K(!new)>(script: seq<K> -> seq<A>, outside: set<A>, log: seq<K>, longer: seq<K>)
    requires log <= longer
    ensures forall a :: Asked(script, outside, log, a) ==> Asked(script, outside, longer, a)
  {
    forall a, i | AskedAt(script, log, i, a)
      ensures AskedAt(script, longer, i, a)
    {
      assert longer[..i + 1] == log[..i + 1];
    }
  }

  lemma AskedLast<A(!new), K(!new)>(script: seq<K> -> seq<A>, outside: set<A>, log: seq<K>, a: A)
    requires log != [] && a in script(log)
    ensures Asked(script, outside, log, a)
  {
    assert log[..|log| - 1 + 1] == log;
    assert AskedAt(script, log, |log| - 1, a);
  }

  lemma Fewer<T>(universe: set<T>, now: set<T>, later: set<T>)
    requires now <= later
    ensures |universe - later| <= |universe - now|
    ensures now < later <= universe ==> |universe - later| < |universe - now|
  {
    var gone := (universe - now) - (universe - later);
    assert universe - now == (universe - later) + gone;
    if now < later <= universe {
      var x :| x in later && x !in now;
      assert x in gone;
    }
  }

  // ----- Points of indirection -----

  function WithBase<B, F(!new)>(b: B): F -> (B, F) {
    (f: F) => (b, f)
  }

  function WithFlow<B(!new), F>(f: F): B -> (B, F) {
    (b: B) => (b, f)
  }

  /** What is known of a join: its callbacks, and its two sides. */
  datatype Part = Callbacks | Left | Right

  datatype Call<B, F> = AddBase(b: B) | AddFlow(f: F)

  function HasCall<B(!new,==), F(!new,==)>(bases: set<B>, flows: set<F>): Call<B, F> -> bool {
    (call: Call<B, F>) => match call case AddBase(b) => b in bases case AddFlow(f) => f in flows
  }

  class PointOfIndirection<B(!new,==), F(!new,==)> {
    /** What `execute` calls back, given everything executed up to and including it. */
    const script: seq<(B, F)> -> seq<Call<B, F>>
    ghost const everyBase: set<B>
    ghost const everyFlow: set<F>
    var actualBaseAllocations: set<B>
    var flowAllocations: set<F>
    var executed: seq<(B, F)>
    /** What has been asked for from outside. */
    ghost var outside: set<Call<B, F>>

    ghost predicate Explains(part: Part)
      reads `actualBaseAllocations, `flowAllocations, `executed, `outside
    {
      match part
      case Callbacks => forall log, call :: call in script(log) ==> Expected(call)
      case Left => actualBaseAllocations <= everyBase && forall b :: b in actualBaseAllocations ==> Wanted(AddBase(b))
      case Right => flowAllocations <= everyFlow && forall f :: f in flowAllocations ==> Wanted(AddFlow(f))
    }

    /** Both sides hold only what was asked for, and that is within finite bounds. */
    ghost predicate Ready()
      reads `actualBaseAllocations, `flowAllocations, `executed, `outside
    {
      forall part: Part :: Explains(part)
    }

    /** What has been asked for is there. */
    ghost function There(): Call<B, F> -> bool
      reads `actualBaseAllocations, `flowAllocations
    {
      HasCall(actualBaseAllocations, flowAllocations)
    }

    /** What was done earlier stays done. */
    lemma StillAnswered(log: seq<(B, F)>, bases: set<B>, flows: set<F>, from: nat)
      requires Answered(script, log, from, HasCall(bases, flows)) && Answered(script, executed, |log|, There())
      requires log <= executed && bases <= actualBaseAllocations && flows <= flowAllocations
      ensures Answered(script, executed, from, There())
    {
      AnsweredOn(script, log, executed, from, HasCall(bases, flows), There());
    }

    /** Whatever was called back since is done. */
    twostate predicate Answers()
      reads this
    {
      Answered(script, executed, old(|executed|), There())
    }

    ghost predicate Wanted(call: Call<B, F>)
      reads `executed, `outside
    {
      Asked(script, outside, executed, call)
    }

    ghost predicate Expected(call: Call<B, F>) {
      match call
      case AddBase(b) => b in everyBase
      case AddFlow(f) => f in everyFlow
    }

    ghost function Due(): set<(B, F)>
      reads this
    {
      set b, f | b in actualBaseAllocations && f in flowAllocations :: (b, f)
    }

    ghost predicate Settled(owed: set<(B, F)>)
      reads this
    {
      Balanced(executed, owed, Due())
    }

    ghost function Room(): nat
      reads this
    {
      |everyBase - actualBaseAllocations| + |everyFlow - flowAllocations|
    }

    twostate predicate Grew()
      reads this
    {
      && old(actualBaseAllocations) <= actualBaseAllocations && old(flowAllocations) <= flowAllocations
      && old(executed) <= executed && Room() <= old(Room()) && outside == old(outside)
    }

    /** Once everything asked for is there, from outside and by callbacks, nothing else is. */
    lemma SidesAreAsked(call: Call<B, F>)
      requires Ready() && Answered(script, executed, 0, There()) && forall c :: c in outside ==> There()(c)
      ensures There()(call) <==> Wanted(call)
    {
      assert Explains(Left) && Explains(Right);
      if i :| AskedAt(script, executed, i, call) {
        assert AnsweredAt(script, executed, i, There());
      }
    }

    /** With no call in progress, every base allocation has been executed with every flow allocation once. */
    lemma EachPairOnce(b: B, f: F)
      requires Settled({})
      ensures multiset(executed)[(b, f)] == if b in actualBaseAllocations && f in flowAllocations then 1 else 0
      ensures |executed| == |Due()|
    {
      ExactlyOnce(executed, Due(), (b, f));
    }

    constructor (script: seq<(B, F)> -> seq<Call<B, F>>, ghost everyBase: set<B>, ghost everyFlow: set<F>)
      requires forall log, call :: call in script(log) ==>
        match call case AddBase(b) => b in everyBase case AddFlow(f) => f in everyFlow
      ensures Ready() && Settled({}) && Due() == {} && outside == {}
      ensures this.script == script && this.everyBase == everyBase && this.everyFlow == everyFlow
      ensures executed == [] && actualBaseAllocations == {} && flowAllocations == {}
    {
      this.script := script;
      this.everyBase, this.everyFlow := everyBase, everyFlow;
      actualBaseAllocations, flowAllocations, executed, outside := {}, {}, [], {};
    }

    /** A call from outside is coming. */
    ghost method Ask(call: Call<B, F>)
      requires Ready() && Settled({})
      modifies `outside
      ensures Ready() && Settled({}) && Wanted(call) && outside == old(outside) + {call}
    {
      outside := outside + {call};
      forall part: Part ensures Explains(part) {
        assert old(Explains(part));
        assert forall c :: Asked(script, old(outside), executed, c) ==> Wanted(c);
      }
    }

    /** A new element of `actualBaseAllocations`: a pair with everything on the other side is owed. */
    method InsertBase(b: B, ghost owed: set<(B, F)>)
      requires Ready() && b in everyBase && Wanted(AddBase(b)) && Settled(owed) && b !in actualBaseAllocations
      modifies `actualBaseAllocations
      ensures Ready() && actualBaseAllocations == old(actualBaseAllocations) + {b} && Room() < old(Room())
      ensures Settled(owed + Each(flowAllocations, WithBase(b))) && Each(flowAllocations, WithBase(b)) !! owed
    {
      assert Explains(Left);
      ghost var mine := Each(flowAllocations, WithBase(b));
      Owe(executed, owed, Due(), mine);
      Fewer(everyBase, actualBaseAllocations, actualBaseAllocations + {b});
      actualBaseAllocations := actualBaseAllocations + {b};
      assert Due() == old(Due()) + mine;
      forall part: Part ensures Explains(part) {
        assert old(Explains(part));
      }
    }

    /** A new element of `flowAllocations`: a pair with everything on the other side is owed. */
    method InsertFlow(f: F, ghost owed: set<(B, F)>)
      requires Ready() && f in everyFlow && Wanted(AddFlow(f)) && Settled(owed) && f !in flowAllocations
      modifies `flowAllocations
      ensures Ready() && flowAllocations == old(flowAllocations) + {f} && Room() < old(Room())
      ensures Settled(owed + Each(actualBaseAllocations, WithFlow(f)))
        && Each(actualBaseAllocations, WithFlow(f)) !! owed
    {
      assert Explains(Right);
      ghost var mine := Each(actualBaseAllocations, WithFlow(f));
      Owe(executed, owed, Due(), mine);
      Fewer(everyFlow, flowAllocations, flowAllocations + {f});
      flowAllocations := flowAllocations + {f};
      assert Due() == old(Due()) + mine;
      forall part: Part ensures Explains(part) {
        assert old(Explains(part));
      }
    }

    /** `owed` is what the calls in progress around this one still have to execute. */
    method AddBaseAllocation(b: B, ghost owed: set<(B, F)>)
      requires Ready() && b in everyBase && Wanted(AddBase(b)) && Settled(owed)
      modifies this
      ensures Ready() && Settled(owed) && Grew() && Answers() && b in actualBaseAllocations
      decreases Room(), 0
    {
      NothingAsked(script, executed, There());
      if b !in actualBaseAllocations {
        InsertBase(b, owed);
        ExecuteWithFlows(b, owed);
      }
    }

    /** The loop over a snapshot of `flowAllocations`. */
    method ExecuteWithFlows(b: B, ghost owed: set<(B, F)>)
      requires Ready() && Settled(owed + Each(flowAllocations, WithBase(b)))
      requires Each(flowAllocations, WithBase(b)) !! owed
      modifies this
      ensures Ready() && Settled(owed) && Grew() && Answers()
      decreases Room(), 3
    {
      NothingAsked(script, executed, There());
      var todo := flowAllocations;
      while todo != {}
        invariant Ready() && Settled(owed + Each(todo, WithBase(b))) && Each(todo, WithBase(b)) !! owed
        invariant Grew() && Answers()
        decreases |todo|
      {
        var f :| f in todo;
        Next(owed, todo, WithBase(b), f);
        todo := todo - {f};
        ghost var log, bases, flows := executed, actualBaseAllocations, flowAllocations;
        Execute(b, f, owed + Each(todo, WithBase(b)));
        StillAnswered(log, bases, flows, old(|executed|));
      }
      assert owed + Each(todo, WithBase(b)) == owed;
    }

    method AddFlowAllocation(f: F, ghost owed: set<(B, F)>)
      requires Ready() && f in everyFlow && Wanted(AddFlow(f)) && Settled(owed)
      modifies this
      ensures Ready() && Settled(owed) && Grew() && Answers() && f in flowAllocations
      decreases Room(), 0
    {
      NothingAsked(script, executed, There());
      if f !in flowAllocations {
        InsertFlow(f, owed);
        ExecuteWithBases(f, owed);
      }
    }

    /** The loop over a snapshot of `actualBaseAllocations`. */
    method ExecuteWithBases(f: F, ghost owed: set<(B, F)>)
      requires Ready() && Settled(owed + Each(actualBaseAllocations, WithFlow(f)))
      requires Each(actualBaseAllocations, WithFlow(f)) !! owed
      modifies this
      ensures Ready() && Settled(owed) && Grew() && Answers()
      decreases Room(), 3
    {
      NothingAsked(script, executed, There());
      var todo := actualBaseAllocations;
      while todo != {}
        invariant Ready() && Settled(owed + Each(todo, WithFlow(f))) && Each(todo, WithFlow(f)) !! owed
        invariant Grew() && Answers()
        decreases |todo|
      {
        var b :| b in todo;
        Next(owed, todo, WithFlow(f), b);
        todo := todo - {b};
        ghost var log, bases, flows := executed, actualBaseAllocations, flowAllocations;
        Execute(b, f, owed + Each(todo, WithFlow(f)));
        StillAnswered(log, bases, flows, old(|executed|));
      }
      assert owed + Each(todo, WithFlow(f)) == owed;
    }

    /** `execute`, which may call back. */
    method Execute(b: B, f: F, ghost owed: set<(B, F)>)
      requires Ready() && (b, f) !in owed && Settled(owed + {(b, f)})
      modifies this
      ensures Ready() && Settled(owed) && Grew() && Answers()
      ensures old(executed) + [(b, f)] <= executed
      decreases Room(), 2
    {
      Log(b, f, owed);
      ghost var log := executed;
      CallBack(script(executed), owed);
      AnsweredOne(script, log, There());
      StillAnswered(log, actualBaseAllocations, flowAllocations, old(|executed|));
    }

    method Log(b: B, f: F, ghost owed: set<(B, F)>)
      requires Ready() && (b, f) !in owed && Settled(owed + {(b, f)})
      modifies `executed
      ensures Ready() && Settled(owed) && executed == old(executed) + [(b, f)]
      ensures forall call :: call in script(executed) ==> Expected(call) && Wanted(call)
    {
      Pay(executed, owed, Due(), (b, f));
      AskedGrows(script, outside, executed, executed + [(b, f)]);
      executed := executed + [(b, f)];
      forall part: Part ensures Explains(part) {
        assert old(Explains(part));
      }
      forall call | call in script(executed)
        ensures Expected(call) && Wanted(call)
      {
        assert Explains(Callbacks);
        AskedLast(script, outside, executed, call);
      }
    }

    method CallBack(calls: seq<Call<B, F>>, ghost owed: set<(B, F)>)
      requires Ready() && Settled(owed) && forall call :: call in calls ==> Expected(call) && Wanted(call)
      modifies this
      ensures Ready() && Settled(owed) && Grew() && Answers() && forall call :: call in calls ==> There()(call)
      decreases Room(), 1
    {
      NothingAsked(script, executed, There());
      for i := 0 to |calls|
        invariant Ready() && Settled(owed) && Grew() && Answers()
        invariant forall j :: 0 <= j < i ==> There()(calls[j])
      {
        assert calls[i] in calls;
        AskedGrows(script, outside, old(executed), executed);
        ghost var log, bases, flows := executed, actualBaseAllocations, flowAllocations;
        match calls[i] {
          case AddBase(b) => AddBaseAllocation(b, owed);
          case AddFlow(f) => AddFlowAllocation(f, owed);
        }
        StillAnswered(log, bases, flows, old(|executed|));
      }
    }
  }

  // ----- Unbalanced flows -----

  datatype UnbalancedDataFlow<M, T> = UnbalancedDataFlow(callee: M, trans: T)

  datatype UnbalancedDataFlowListener<M, C> = UnbalancedDataFlowListener(callee: M, callSite: C)

  /** The transition that returns from the callee is propagated to the call site. */
  datatype Propagation<M, T, C> = Propagation(callee: M, trans: T, callSite: C)

  datatype Request<M, T, C> = Potential(callee: M, trans: T) | Allow(callee: M, callSite: C)

  /** Each transition returning from a callee, with each call site allowed for that callee. */
  ghost function Matches<M(!new), T(!new), C(!new)>(
    flows: set<UnbalancedDataFlow<M, T>>, listeners: set<UnbalancedDataFlowListener<M, C>>): set<Propagation<M, T, C>>
  {
    set e, l | e in flows && l in listeners && e.callee == l.callee :: Propagation(e.callee, e.trans, l.callSite)
  }

  /** `unbalancedDataFlowListeners.get(callee)` */
  function ListenersOf<M(!new,==), C(!new,==)>(
    listeners: set<UnbalancedDataFlowListener<M, C>>, callee: M): set<UnbalancedDataFlowListener<M, C>>
  {
    set l | l in listeners && l.callee == callee
  }

  /** `unbalancedDataFlows.get(callee)` */
  function FlowsOf<M(!new,==), T(!new,==)>(
    flows: set<UnbalancedDataFlow<M, T>>, callee: M): set<UnbalancedDataFlow<M, T>>
  {
    set e | e in flows && e.callee == callee
  }

  function WithFlowOf<M(!new), T(!new), C(!new)>(
    e: UnbalancedDataFlow<M, T>): UnbalancedDataFlowListener<M, C> -> Propagation<M, T, C>
  {
    (l: UnbalancedDataFlowListener<M, C>) => Propagation(e.callee, e.trans, l.callSite)
  }

  function WithListener<M(!new), T(!new), C(!new)>(
    l: UnbalancedDataFlowListener<M, C>): UnbalancedDataFlow<M, T> -> Propagation<M, T, C>
  {
    (e: UnbalancedDataFlow<M, T>) => Propagation(l.callee, e.trans, l.callSite)
  }

  lemma MatchesOf<M(!new), T(!new), C(!new)>(
    flows: set<UnbalancedDataFlow<M, T>>, listeners: set<UnbalancedDataFlowListener<M, C>>, p: Propagation<M, T, C>)
    ensures p in Matches(flows, listeners) <==>
            UnbalancedDataFlow(p.callee, p.trans) in flows
              && UnbalancedDataFlowListener(p.callee, p.callSite) in listeners
  {
    var e, l := UnbalancedDataFlow(p.callee, p.trans), UnbalancedDataFlowListener(p.callee, p.callSite);
    assert e in flows && l in listeners ==> Propagation(e.callee, e.trans, l.callSite) in Matches(flows, listeners);
  }

  lemma FlowMatches<M(!new), T(!new), C(!new)>(
    flows: set<UnbalancedDataFlow<M, T>>, listeners: set<UnbalancedDataFlowListener<M, C>>, e: UnbalancedDataFlow<M, T>)
    ensures Matches(flows + {e}, listeners) ==
            Matches(flows, listeners) + Each(ListenersOf(listeners, e.callee), WithFlowOf(e))
  {
    var key := WithFlowOf<M, T, C>(e);
    var mine := Each(ListenersOf(listeners, e.callee), key);
    forall p: Propagation<M, T, C>
      ensures p in Matches(flows + {e}, listeners) <==> p in Matches(flows, listeners) || p in mine
    {
      MatchesOf(flows + {e}, listeners, p);
      MatchesOf(flows, listeners, p);
      assert p == key(UnbalancedDataFlowListener(p.callee, p.callSite)) <==> e == UnbalancedDataFlow(p.callee, p.trans);
    }
  }

  lemma ListenerMatches<M(!new), T(!new), C(!new)>(
    flows: set<UnbalancedDataFlow<M, T>>, listeners: set<UnbalancedDataFlowListener<M, C>>,
    l: UnbalancedDataFlowListener<M, C>)
    ensures Matches(flows, listeners + {l}) ==
            Matches(flows, listeners) + Each(FlowsOf(flows, l.callee), WithListener(l))
  {
    var key := WithListener<M, T, C>(l);
    var mine := Each(FlowsOf(flows, l.callee), key);
    forall p: Propagation<M, T, C>
      ensures p in Matches(flows, listeners + {l}) <==> p in Matches(flows, listeners) || p in mine
    {
      MatchesOf(flows, listeners + {l}, p);
      MatchesOf(flows, listeners, p);
      assert p == key(UnbalancedDataFlow(p.callee, p.trans)) <==> l == UnbalancedDataFlowListener(p.callee, p.callSite);
    }
  }

  function HasRequest<M(!new,==), T(!new,==), C(!new,==)>(
    excluded: M -> bool, flows: set<UnbalancedDataFlow<M, T>>, listeners: set<UnbalancedDataFlowListener<M, C>>):
    Request<M, T, C> -> bool
  {
    (r: Request<M, T, C>) =>
      match r
      case Potential(m, t) => UnbalancedDataFlow(m, t) in flows
      case Allow(m, c) => excluded(m) || UnbalancedDataFlowListener(m, c) in listeners
  }

  /** The two multimaps from callees, as sets of their values; each value names its callee. */
  class UnbalancedFlows<M(!new,==), T(!new,==), C(!new,==)> {
    const excluded: M -> bool
    /** What a propagation calls back, given all of them up to and including it. */
    const script: seq<Propagation<M, T, C>> -> seq<Request<M, T, C>>
    ghost const everyFlow: set<UnbalancedDataFlow<M, T>>
    ghost const everyListener: set<UnbalancedDataFlowListener<M, C>>
    var unbalancedDataFlows: set<UnbalancedDataFlow<M, T>>
    var unbalancedDataFlowListeners: set<UnbalancedDataFlowListener<M, C>>
    var propagated: seq<Propagation<M, T, C>>
    /** What has been asked for from outside. */
    ghost var outside: set<Request<M, T, C>>

    ghost predicate Explains(part: Part)
      reads `unbalancedDataFlows, `unbalancedDataFlowListeners, `propagated, `outside
    {
      match part
      case Callbacks => forall log, r :: r in script(log) ==> Expected(r)
      case Left =>
        && unbalancedDataFlows <= everyFlow
        && forall e :: e in unbalancedDataFlows ==> Wanted(Potential(e.callee, e.trans))
      case Right =>
        && unbalancedDataFlowListeners <= everyListener
        && forall l :: l in unbalancedDataFlowListeners ==> !excluded(l.callee) && Wanted(Allow(l.callee, l.callSite))
    }

    /** Both sides hold only what was asked for, and that is within finite bounds. */
    ghost predicate Ready()
      reads `unbalancedDataFlows, `unbalancedDataFlowListeners, `propagated, `outside
    {
      forall part: Part :: Explains(part)
    }

    /** What has been asked for is there, except for excluded callees. */
    ghost function There(): Request<M, T, C> -> bool
      reads `unbalancedDataFlows, `unbalancedDataFlowListeners
    {
      HasRequest(excluded, unbalancedDataFlows, unbalancedDataFlowListeners)
    }

    /** What was done earlier stays done. */
    lemma StillAnswered(
      log: seq<Propagation<M, T, C>>, flows: set<UnbalancedDataFlow<M, T>>,
      listeners: set<UnbalancedDataFlowListener<M, C>>, from: nat)
      requires Answered(script, log, from, HasRequest(excluded, flows, listeners))
      requires Answered(script, propagated, |log|, There())
      requires log <= propagated && flows <= unbalancedDataFlows && listeners <= unbalancedDataFlowListeners
      ensures Answered(script, propagated, from, There())
    {
      AnsweredOn(script, log, propagated, from, HasRequest(excluded, flows, listeners), There());
    }

    /** Whatever was called back since is done. */
    twostate predicate Answers()
      reads this
    {
      Answered(script, propagated, old(|propagated|), There())
    }

    ghost predicate Wanted(r: Request<M, T, C>)
      reads `propagated, `outside
    {
      Asked(script, outside, propagated, r)
    }

    ghost predicate Expected(r: Request<M, T, C>) {
      match r
      case Potential(m, t) => UnbalancedDataFlow(m, t) in everyFlow
      case Allow(m, c) => UnbalancedDataFlowListener(m, c) in everyListener
    }

    ghost function Due(): set<Propagation<M, T, C>>
      reads this
    {
      Matches(unbalancedDataFlows, unbalancedDataFlowListeners)
    }

    ghost predicate Settled(owed: set<Propagation<M, T, C>>)
      reads this
    {
      Balanced(propagated, owed, Due())
    }

    ghost function Room(): nat
      reads this
    {
      |everyFlow - unbalancedDataFlows| + |everyListener - unbalancedDataFlowListeners|
    }

    twostate predicate Grew()
      reads this
    {
      && old(unbalancedDataFlows) <= unbalancedDataFlows
         && old(unbalancedDataFlowListeners) <= unbalancedDataFlowListeners
      && old(propagated) <= propagated && Room() <= old(Room()) && outside == old(outside)
    }

    /** Once everything asked for is there, from outside and by callbacks, nothing else is. */
    lemma SidesAreAsked(r: Request<M, T, C>)
      requires Ready() && Answered(script, propagated, 0, There()) && forall c :: c in outside ==> There()(c)
      requires r.Allow? ==> !excluded(r.callee)
      ensures There()(r) <==> Wanted(r)
    {
      assert Explains(Left) && Explains(Right);
      if i :| AskedAt(script, propagated, i, r) {
        assert AnsweredAt(script, propagated, i, There());
      }
    }

    /** With no call in progress, every returning transition has been propagated once to every call site that is
        allowed for its callee. */
    lemma EachMatchOnce(p: Propagation<M, T, C>)
      requires Settled({})
      ensures multiset(propagated)[p] ==
              if UnbalancedDataFlow(p.callee, p.trans) in unbalancedDataFlows
                 && UnbalancedDataFlowListener(p.callee, p.callSite) in unbalancedDataFlowListeners
              then 1 else 0
      ensures |propagated| == |Due()|
    {
      MatchesOf(unbalancedDataFlows, unbalancedDataFlowListeners, p);
      ExactlyOnce(propagated, Due(), p);
    }

    constructor (excluded: M -> bool, script: seq<Propagation<M, T, C>> -> seq<Request<M, T, C>>,
                 ghost everyFlow: set<UnbalancedDataFlow<M, T>>,
                 ghost everyListener: set<UnbalancedDataFlowListener<M, C>>)
      requires forall log, r :: r in script(log) ==>
        match r
        case Potential(m, t) => UnbalancedDataFlow(m, t) in everyFlow
        case Allow(m, c) => UnbalancedDataFlowListener(m, c) in everyListener
      ensures Ready() && Settled({}) && Due() == {} && outside == {}
      ensures propagated == [] && unbalancedDataFlows == {} && unbalancedDataFlowListeners == {}
      ensures this.script == script && this.excluded == excluded
      ensures this.everyFlow == everyFlow && this.everyListener == everyListener
    {
      this.excluded, this.script := excluded, script;
      this.everyFlow, this.everyListener := everyFlow, everyListener;
      unbalancedDataFlows, unbalancedDataFlowListeners, propagated, outside := {}, {}, [], {};
    }

    /** A call from outside is coming. */
    ghost method Ask(r: Request<M, T, C>)
      requires Ready() && Settled({})
      modifies `outside
      ensures Ready() && Settled({}) && Wanted(r) && outside == old(outside) + {r}
    {
      outside := outside + {r};
      forall part: Part ensures Explains(part) {
        assert old(Explains(part));
        assert forall c :: Asked(script, old(outside), propagated, c) ==> Wanted(c);
      }
    }

    /** A new flow: a propagation to every call site allowed for its callee is owed. */
    method InsertFlow(e: UnbalancedDataFlow<M, T>, ghost owed: set<Propagation<M, T, C>>)
      requires Ready() && e in everyFlow && Wanted(Potential(e.callee, e.trans)) && Settled(owed)
        && e !in unbalancedDataFlows
      modifies `unbalancedDataFlows
      ensures Ready() && unbalancedDataFlows == old(unbalancedDataFlows) + {e} && Room() < old(Room())
      ensures var mine := Each(ListenersOf(unbalancedDataFlowListeners, e.callee), WithFlowOf(e));
              Settled(owed + mine) && mine !! owed
    {
      assert Explains(Left);
      FlowMatches(unbalancedDataFlows, unbalancedDataFlowListeners, e);
      ghost var mine := Each(ListenersOf(unbalancedDataFlowListeners, e.callee), WithFlowOf(e));
      assert mine !! Due();
      Owe(propagated, owed, Due(), mine);
      Fewer(everyFlow, unbalancedDataFlows, unbalancedDataFlows + {e});
      unbalancedDataFlows := unbalancedDataFlows + {e};
      forall part: Part ensures Explains(part) {
        assert old(Explains(part));
      }
    }

    /** A new call site: every flow of the callee is owed to it. */
    method InsertListener(l: UnbalancedDataFlowListener<M, C>, ghost owed: set<Propagation<M, T, C>>)
      requires Ready() && l in everyListener && Wanted(Allow(l.callee, l.callSite)) && Settled(owed)
      requires !excluded(l.callee) && l !in unbalancedDataFlowListeners
      modifies `unbalancedDataFlowListeners
      ensures Ready() && unbalancedDataFlowListeners == old(unbalancedDataFlowListeners) + {l} && Room() < old(Room())
      ensures var mine := Each(FlowsOf(unbalancedDataFlows, l.callee), WithListener(l));
              Settled(owed + mine) && mine !! owed
    {
      assert Explains(Right);
      ListenerMatches(unbalancedDataFlows, unbalancedDataFlowListeners, l);
      ghost var mine := Each(FlowsOf(unbalancedDataFlows, l.callee), WithListener(l));
      assert mine !! Due();
      Owe(propagated, owed, Due(), mine);
      Fewer(everyListener, unbalancedDataFlowListeners, unbalancedDataFlowListeners + {l});
      unbalancedDataFlowListeners := unbalancedDataFlowListeners + {l};
      forall part: Part ensures Explains(part) {
        assert old(Explains(part));
      }
    }

    /** `owed` is what the calls in progress around this one still have to propagate. */
    method AddPotentialUnbalancedFlow(callee: M, trans: T, ghost owed: set<Propagation<M, T, C>>)
      requires Ready() && UnbalancedDataFlow(callee, trans) in everyFlow && Wanted(Potential(callee, trans))
        && Settled(owed)
      modifies this
      ensures Ready() && Settled(owed) && Grew() && Answers()
      ensures UnbalancedDataFlow(callee, trans) in unbalancedDataFlows
      decreases Room(), 0
    {
      NothingAsked(script, propagated, There());
      var e := UnbalancedDataFlow(callee, trans);
      if e !in unbalancedDataFlows {
        InsertFlow(e, owed);
        PropagateToListeners(e, owed);
      }
    }

    /** The loop over a snapshot of the listeners of the callee. */
    method PropagateToListeners(e: UnbalancedDataFlow<M, T>, ghost owed: set<Propagation<M, T, C>>)
      requires Ready() && Settled(owed + Each(ListenersOf(unbalancedDataFlowListeners, e.callee), WithFlowOf(e)))
      requires Each(ListenersOf(unbalancedDataFlowListeners, e.callee), WithFlowOf(e)) !! owed
      modifies this
      ensures Ready() && Settled(owed) && Grew() && Answers()
      decreases Room(), 3
    {
      NothingAsked(script, propagated, There());
      ghost var key := WithFlowOf(e);
      var existingListeners := ListenersOf(unbalancedDataFlowListeners, e.callee);
      while existingListeners != {}
        invariant Ready() && Settled(owed + Each(existingListeners, key)) && Each(existingListeners, key) !! owed
        invariant Grew() && Answers()
        invariant forall l :: l in existingListeners ==> l.callee == e.callee
        decreases |existingListeners|
      {
        var l :| l in existingListeners;
        Next(owed, existingListeners, key, l);
        existingListeners := existingListeners - {l};
        ghost var log, known, allowed := propagated, unbalancedDataFlows, unbalancedDataFlowListeners;
        PropagateUnbalancedToCallSite(e.callee, l.callSite, e.trans, owed + Each(existingListeners, key));
        StillAnswered(log, known, allowed, old(|propagated|));
      }
      assert owed + Each(existingListeners, key) == owed;
    }

    method AllowUnbalanced(callee: M, callSite: C, ghost owed: set<Propagation<M, T, C>>)
      requires Ready() && UnbalancedDataFlowListener(callee, callSite) in everyListener
        && Wanted(Allow(callee, callSite)) && Settled(owed)
      modifies this
      ensures Ready() && Settled(owed) && Grew() && Answers()
      ensures if excluded(callee)
              then unbalancedDataFlowListeners == old(unbalancedDataFlowListeners) && propagated == old(propagated)
              else UnbalancedDataFlowListener(callee, callSite) in unbalancedDataFlowListeners
      decreases Room(), 0
    {
      NothingAsked(script, propagated, There());
      if excluded(callee) {
        return;
      }
      var l := UnbalancedDataFlowListener(callee, callSite);
      if l !in unbalancedDataFlowListeners {
        InsertListener(l, owed);
        PropagateFlows(l, owed);
      }
    }

    /** The loop over a snapshot of the flows of the callee. */
    method PropagateFlows(l: UnbalancedDataFlowListener<M, C>, ghost owed: set<Propagation<M, T, C>>)
      requires Ready() && Settled(owed + Each(FlowsOf(unbalancedDataFlows, l.callee), WithListener(l)))
      requires Each(FlowsOf(unbalancedDataFlows, l.callee), WithListener(l)) !! owed
      modifies this
      ensures Ready() && Settled(owed) && Grew() && Answers()
      decreases Room(), 3
    {
      NothingAsked(script, propagated, There());
      ghost var key := WithListener(l);
      var flows := FlowsOf(unbalancedDataFlows, l.callee);
      while flows != {}
        invariant Ready() && Settled(owed + Each(flows, key)) && Each(flows, key) !! owed
        invariant Grew() && Answers()
        invariant forall e :: e in flows ==> e.callee == l.callee
        decreases |flows|
      {
        var e :| e in flows;
        Next(owed, flows, key, e);
        flows := flows - {e};
        ghost var log, known, allowed := propagated, unbalancedDataFlows, unbalancedDataFlowListeners;
        PropagateUnbalancedToCallSite(l.callee, l.callSite, e.trans, owed + Each(flows, key));
        StillAnswered(log, known, allowed, old(|propagated|));
      }
      assert owed + Each(flows, key) == owed;
    }

    /** `propagateUnbalancedToCallSite`, which may call back. The callee is that of the transition. */
    method PropagateUnbalancedToCallSite(callee: M, callSite: C, trans: T, ghost owed: set<Propagation<M, T, C>>)
      requires Ready() && Propagation(callee, trans, callSite) !in owed
        && Settled(owed + {Propagation(callee, trans, callSite)})
      modifies this
      ensures Ready() && Settled(owed) && Grew() && Answers()
      ensures old(propagated) + [Propagation(callee, trans, callSite)] <= propagated
      decreases Room(), 2
    {
      Log(Propagation(callee, trans, callSite), owed);
      ghost var log := propagated;
      CallBack(script(propagated), owed);
      AnsweredOne(script, log, There());
      StillAnswered(log, unbalancedDataFlows, unbalancedDataFlowListeners, old(|propagated|));
    }

    method Log(p: Propagation<M, T, C>, ghost owed: set<Propagation<M, T, C>>)
      requires Ready() && p !in owed && Settled(owed + {p})
      modifies `propagated
      ensures Ready() && Settled(owed) && propagated == old(propagated) + [p]
      ensures forall r :: r in script(propagated) ==> Expected(r) && Wanted(r)
    {
      Pay(propagated, owed, Due(), p);
      AskedGrows(script, outside, propagated, propagated + [p]);
      propagated := propagated + [p];
      forall part: Part ensures Explains(part) {
        assert old(Explains(part));
      }
      forall r | r in script(propagated)
        ensures Expected(r) && Wanted(r)
      {
        assert Explains(Callbacks);
        AskedLast(script, outside, propagated, r);
      }
    }

    method CallBack(requests: seq<Request<M, T, C>>, ghost owed: set<Propagation<M, T, C>>)
      requires Ready() && Settled(owed) && forall r :: r in requests ==> Expected(r) && Wanted(r)
      modifies this
      ensures Ready() && Settled(owed) && Grew() && Answers() && forall r :: r in requests ==> There()(r)
      decreases Room(), 1
    {
      NothingAsked(script, propagated, There());
      for i := 0 to |requests|
        invariant Ready() && Settled(owed) && Grew() && Answers()
        invariant forall j :: 0 <= j < i ==> There()(requests[j])
      {
        assert requests[i] in requests;
        AskedGrows(script, outside, old(propagated), propagated);
        ghost var log, known, allowed := propagated, unbalancedDataFlows, unbalancedDataFlowListeners;
        match requests[i] {
          case Potential(m, t) => AddPotentialUnbalancedFlow(m, t, owed);
          case Allow(m, c) => AllowUnbalanced(m, c, owed);
        }
        StillAnswered(log, known, allowed, old(|propagated|));
      }
    }
  }
}
