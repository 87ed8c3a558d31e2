/** The default forward and backward flow functions, against a heap semantics of straight-line code. */
module Flow {
  import opened Options
  import opened Semirings
  import opened Pushdown

  // ----- Statements in three-address form -----

  datatype Stmt<V, F> =
    | Copy(x: V, y: V)
    | Cast(x: V, y: V)
    | Load(x: V, y: V, f: F)
    | Store(x: V, f: F, y: V)
    | New(x: V)
    | Throw(x: V)
    | Skip

  /** Operands of an assignment: `getLeftOp` and `getRightOp` are equal to a fact only if they are that local. */
  datatype Operand<V, F> = Local(v: V) | FieldRef(base: V, f: F) | CastOf(op: V) | NewExpr

  predicate IsAssign<V, F>(s: Stmt<V, F>) {
    !s.Throw? && !s.Skip?
  }

  function LeftOp<V, F>(s: Stmt<V, F>): Operand<V, F>
    requires IsAssign(s)
  {
    if s.Store? then FieldRef(s.x, s.f) else Local(s.x)
  }

  function RightOp<V, F>(s: Stmt<V, F>): Operand<V, F>
    requires IsAssign(s)
  {
    match s
    case Copy(_, y) => Local(y)
    case Cast(_, y) => CastOf(y)
    case Load(_, y, f) => FieldRef(y, f)
    case Store(_, _, y) => Local(y)
    case New(_) => NewExpr
  }

  /** The states a flow function returns: a node, an exclusion node, a push node, a pop node of the field system. */
  datatype Target<V, F> = Keep(v: V) | Exclude(v: V, f: F) | PushField(v: V, f: F) | PopField(v: V, f: F)

  // ----- The flow functions -----

  /** `killFlow` */
  predicate KillFlow<V(==), F(==)>(s: Stmt<V, F>, fact: V) {
    if s.Throw? then true
    else if IsAssign(s) && LeftOp(s) == Local(fact) then !(s.Load? && s.y == fact)
    else false
  }

  /** `normalFlow` of the forward analysis. */
  method ForwardNormalFlow<V(==), F(==)>(s: Stmt<V, F>, fact: V) returns (out: set<Target<V, F>>)
    ensures out == Forward(s, fact)
  {
    out := {};
    if KillFlow(s, fact) {
      return;
    }
    if !(s.Store? && s.x == fact) {
      out := out + {Keep(fact)};
    } else {
      out := out + {Exclude(fact, s.f)};
    }
    if IsAssign(s) {
      var leftOp, rightOp := LeftOp(s), RightOp(s);
      if rightOp == Local(fact) {
        if s.Store? {
          out := out + {PushField(s.x, s.f)};
        } else {
          out := out + {Keep(leftOp.v)};
        }
      }
      if s.Load? {
        if s.y == fact {
          out := out + {PopField(leftOp.v, s.f)};
        }
      } else if rightOp.CastOf? {
        if rightOp.op == fact {
          out := out + {Keep(leftOp.v)};
        }
      }
    }
  }

  /** `normalFlow` of the backward analysis. */
  method BackwardNormalFlow<V(==), F(==)>(s: Stmt<V, F>, fact: V) returns (out: set<Target<V, F>>)
    ensures out == Backward(s, fact)
  {
    out := {};
    if s.New? && s.x == fact {
      return;
    }
    if s.Throw? {
      return;
    }
    var leftSideMatches := false;
    if IsAssign(s) {
      var leftOp, rightOp := LeftOp(s), RightOp(s);
      if leftOp == Local(fact) {
        leftSideMatches := true;
        if s.Load? {
          out := out + {PushField(s.y, s.f)};
        } else if rightOp.CastOf? {
          out := out + {Keep(rightOp.op)};
        } else {
          out := out + {Keep(rightOp.v)};
        }
      }
      if s.Store? {
        if s.x == fact {
          out := out + {PopField(rightOp.v, s.f)};
        }
      }
    }
    if !leftSideMatches {
      out := out + {Keep(fact)};
    }
  }

  /** What the forward flow of a fact is, statement by statement. */
  function Forward<V(==), F(==)>(s: Stmt<V, F>, v: V): set<Target<V, F>> {
    match s
    case Skip => {Keep(v)}
    case Throw(_) => {}
    case New(x) => if v == x then {} else {Keep(v)}
    case Copy(x, y) => if v == x then {} else if v == y then {Keep(v), Keep(x)} else {Keep(v)}
    case Cast(x, y) => if v == x then {} else if v == y then {Keep(v), Keep(x)} else {Keep(v)}
    case Load(x, y, f) => if v == y then {Keep(v), PopField(x, f)} else if v == x then {} else {Keep(v)}
    case Store(x, f, y) => {if v == x then Exclude(v, f) else Keep(v)} + (if v == y then {PushField(x, f)} else {})
  }

  /** What the backward flow of a fact is, statement by statement. */
  function Backward<V(==), F(==)>(s: Stmt<V, F>, v: V): set<Target<V, F>> {
    match s
    case Skip => {Keep(v)}
    case Throw(_) => {}
    case New(x) => if v == x then {} else {Keep(v)}
    case Copy(x, y) => if v == x then {Keep(y)} else {Keep(v)}
    case Cast(x, y) => if v == x then {Keep(y)} else {Keep(v)}
    case Load(x, y, f) => if v == x then {PushField(y, f)} else {Keep(v)}
    case Store(x, f, y) => {Keep(v)} + (if v == x then {PopField(y, f)} else {})
  }

  // ----- The flows as rules of the field pushdown system -----

  datatype AccessPath<V, F> = AccessPath(v: V, fields: seq<F>)

  /** A field stack: the fields of an access path above `Field.empty()`. */
  datatype Slot<F> = Bottom | Field(f: F)

  function Stack<F>(fields: seq<F>): seq<Slot<F>> {
    if fields == [] then [Bottom] else [Field(fields[0])] + Stack(fields[1..])
  }

  function Stacked<V, F>(a: AccessPath<V, F>): Config<V, Slot<F>> {
    Config(a.v, Stack(a.fields))
  }

  /** The field rule that `propagate` adds for a target. */
  function FieldRule<V, F>(fact: V, t: Target<V, F>): Rule<V, Slot<F>, ()> {
    match t
    case Keep(v) => Normal(fact, Any, v, Any, ())
    case Exclude(v, f) => Normal(fact, Any, v, AnyBut(Field(f)), ())
    case PushField(v, f) => Push(fact, Any, v, Field(f), Any, ())
    case PopField(v, f) => Pop(fact, Field(f), v, ())
  }

  function Fields<F(!new,==)>(): Flavour<Slot<F>, ()> {
    Flavour(Semiring((), (a: (), b: ()) => (), (a: (), b: ()) => (), (a: ()) => 0),
      (m: Slot<F>, n: Slot<F>) => m == n, true)
  }

  /** Some target takes access path `a` to `b`, as a step of the field system. */
  ghost predicate Takes<V(!new), F(!new)>(targets: set<Target<V, F>>, a: AccessPath<V, F>, b: AccessPath<V, F>) {
    exists t :: t in targets && Step(Fields(), FieldRule(a.v, t), Stacked(a)) == Some(Stacked(b))
  }

  /** What the rule of a target does to an access path. */
  lemma TargetStep<V(!new), F(!new)>(t: Target<V, F>, a: AccessPath<V, F>)
    ensures Step(Fields(), FieldRule(a.v, t), Stacked(a)) ==
            match t
            case Keep(v) => Some(Stacked(AccessPath(v, a.fields)))
            case Exclude(v, f) =>
              if a.fields != [] && a.fields[0] == f then None else Some(Stacked(AccessPath(v, a.fields)))
            case PushField(v, f) => Some(Stacked(AccessPath(v, [f] + a.fields)))
            case PopField(v, f) =>
              if a.fields != [] && a.fields[0] == f then Some(Stacked(AccessPath(v, a.fields[1..]))) else None
  {
    var stack := Stack(a.fields);
    assert stack == [stack[0]] + stack[1..];
    match t
    case Keep(_) =>
    case Exclude(_, _) =>
    case PushField(_, f) =>
      assert ([f] + a.fields)[1..] == a.fields;
      assert [Field(f), stack[0]] + stack[1..] == [Field(f)] + stack;
    case PopField(_, _) =>
  }

  // ----- The heap -----

  datatype Heap<!V(==,!new), !F(==,!new), !O(==,!new)> = Heap(env: map<V, O>, cells: map<(O, F), O>)

  /** Follow fields from an object; `None` where a reference is missing. */
  function Follow<F(!new,==), O(!new,==)>(cells: map<(O, F), O>, o: O, fields: seq<F>): Option<O>
    decreases fields
  {
    if fields == [] then Some(o)
    else if (o, fields[0]) in cells then Follow(cells, cells[(o, fields[0])], fields[1..])
    else None
  }

  function Denotes<V(!new,==), F(!new,==), O(!new,==)>(h: Heap<V, F, O>, a: AccessPath<V, F>): Option<O> {
    if a.v in h.env then Follow(h.cells, h.env[a.v], a.fields) else None
  }

  function Assigned<K(!new,==), O(!new)>(m: map<K, O>, k: K, o: Option<O>): map<K, O> {
    match o
    case Some(v) => m[k := v]
    case None => m - {k}
  }

  function Read<K(!new,==), O(!new)>(m: map<K, O>, k: K): Option<O> {
    if k in m then Some(m[k]) else None
  }

  /** Execute a statement; `None` if it dereferences a missing object or throws. `made` is the object that a `new`
      returns. */
  function Exec<V(!new,==), F(!new,==), O(!new,==)>(s: Stmt<V, F>, h: Heap<V, F, O>, made: O): Option<Heap<V, F, O>> {
    match s
    case Skip => Some(h)
    case Throw(_) => None
    case New(x) => Some(h.(env := h.env[x := made]))
    case Copy(x, y) => Some(h.(env := Assigned(h.env, x, Read(h.env, y))))
    case Cast(x, y) => Some(h.(env := Assigned(h.env, x, Read(h.env, y))))
    case Load(x, y, f) =>
      if y !in h.env then None else Some(h.(env := Assigned(h.env, x, Read(h.cells, (h.env[y], f)))))
    case Store(x, f, y) =>
      if x !in h.env then None else Some(h.(cells := Assigned(h.cells, (h.env[x], f), Read(h.env, y))))
  }

  /** Following `fields` from `o` never uses `cell`. */
  ghost predicate Avoids<F(!new), O(!new)>(cells: map<(O, F), O>, o: O, fields: seq<F>, cell: (O, F))
    decreases fields
  {
    || fields == []
    || (&& (o, fields[0]) != cell
        && ((o, fields[0]) in cells ==> Avoids(cells, cells[(o, fields[0])], fields[1..], cell)))
  }

  /** After a store `x.f = y`, the path uses the written cell only as its own first step `x.f`. */
  ghost predicate NoAlias<V(!new), F(!new), O(!new)>(s: Stmt<V, F>, after: Heap<V, F, O>, a: AccessPath<V, F>) {
    s.Store? && s.x in after.env && a.v in after.env ==>
      var cell := (after.env[s.x], s.f);
      if a.v == s.x && a.fields != [] && a.fields[0] == s.f
      then cell in after.cells ==> Avoids(after.cells, after.cells[cell], a.fields[1..], cell)
      else Avoids(after.cells, after.env[a.v], a.fields, cell)
  }

  lemma {:induction false} FollowAvoiding<F(!new), O(!new)>(
    cells: map<(O, F), O>, cells': map<(O, F), O>, o: O, fields: seq<F>, cell: (O, F))
    requires forall c :: c != cell ==> (c in cells <==> c in cells') && (c in cells ==> cells[c] == cells'[c])
    requires Avoids(cells', o, fields, cell)
    ensures Follow(cells, o, fields) == Follow(cells', o, fields)
    decreases fields
  {
    if fields != [] && (o, fields[0]) in cells' {
      FollowAvoiding(cells, cells', cells'[(o, fields[0])], fields[1..], cell);
    }
  }

  /** The access path that held the object before the statement. */
  function Before<V(==), F(==)>(s: Stmt<V, F>, a: AccessPath<V, F>): AccessPath<V, F> {
    match s
    case Copy(x, y) => if a.v == x then AccessPath(y, a.fields) else a
    case Cast(x, y) => if a.v == x then AccessPath(y, a.fields) else a
    case Load(x, y, f) => if a.v == x then AccessPath(y, [f] + a.fields) else a
    case Store(x, f, y) => if a.v == x && a.fields != [] && a.fields[0] == f then AccessPath(y, a.fields[1..]) else a
    case _ => a
  }

  /** A copy or cast of `v` to itself. */
  predicate SelfCopy<V(==), F>(s: Stmt<V, F>, v: V) {
    (s.Copy? || s.Cast?) && s.x == s.y == v
  }

  /** Nothing flows to or from a variable that is copied to itself, going forward, or whose object is new. */
  predicate Killed<V(==), F>(backward: bool, s: Stmt<V, F>, v: V) {
    (!backward && SelfCopy(s, v)) || (s.New? && s.x == v)
  }

  lemma BeforeDenotes<V(!new), F(!new), O(!new)>(
    s: Stmt<V, F>, h: Heap<V, F, O>, made: O, h': Heap<V, F, O>, a: AccessPath<V, F>)
    requires Exec(s, h, made) == Some(h') && Denotes(h', a).Some?
    requires !(s.New? && s.x == a.v) && NoAlias(s, h', a)
    ensures Denotes(h, Before(s, a)) == Denotes(h', a)
  {
    match s
    case Store(x, f, y) =>
      var cell := (h.env[x], f);
      if a.v == x && a.fields != [] && a.fields[0] == f {
        FollowAvoiding(h.cells, h'.cells, h'.cells[cell], a.fields[1..], cell);
      } else {
        FollowAvoiding(h.cells, h'.cells, h.env[a.v], a.fields, cell);
      }
    case Load(x, y, f) =>
      if a.v == x {
        assert ([f] + a.fields)[1..] == a.fields;
      }
    case _ =>
  }

  /** What a target does to an access path. */
  predicate Along<V(==), F(==)>(t: Target<V, F>, a: AccessPath<V, F>, b: AccessPath<V, F>) {
    match t
    case Keep(v) => b == AccessPath(v, a.fields)
    case Exclude(v, f) => b == AccessPath(v, a.fields) && (a.fields == [] || a.fields[0] != f)
    case PushField(v, f) => b == AccessPath(v, [f] + a.fields)
    case PopField(v, f) => a.fields == [f] + b.fields && b.v == v
  }

  lemma {:induction false} StackInjective<F>(f: seq<F>, g: seq<F>)
    requires Stack(f) == Stack(g)
    ensures f == g
    decreases |f|
  {
    if f != [] && g != [] {
      assert Stack(f)[1..] == Stack(f[1..]) && Stack(g)[1..] == Stack(g[1..]);
      assert Stack(f)[0] == Stack(g)[0];
      StackInjective(f[1..], g[1..]);
      assert f == [f[0]] + f[1..] && g == [g[0]] + g[1..];
    }
  }

  /** As a rule of the field system, a target does just that. */
  lemma TargetStepIs<V(!new), F(!new)>(t: Target<V, F>, a: AccessPath<V, F>, b: AccessPath<V, F>)
    ensures Step(Fields(), FieldRule(a.v, t), Stacked(a)) == Some(Stacked(b)) <==> Along(t, a, b)
  {
    TargetStep(t, a);
    assert t.PopField? && Along(t, a, b) ==> a.fields[1..] == b.fields;
    if Step(Fields(), FieldRule(a.v, t), Stacked(a)) == Some(Stacked(b)) {
      var fields := match t
        case PushField(_, f) => [f] + a.fields
        case PopField(_, f) => a.fields[1..]
        case _ => a.fields;
      StackInjective(fields, b.fields);
    }
  }

  lemma TakesBy<V(!new), F(!new)>(targets: set<Target<V, F>>, t: Target<V, F>, a: AccessPath<V, F>, b: AccessPath<V, F>)
    requires t in targets && Along(t, a, b)
    ensures Takes(targets, a, b)
  {
    TargetStepIs(t, a, b);
  }

  /** The forward flow leads back to the access path unless it copies the path's own variable to itself. */
  lemma ForwardTakes<V(!new), F(!new)>(s: Stmt<V, F>, a: AccessPath<V, F>)
    requires !s.Throw? && !(s.New? && s.x == a.v)
    ensures Takes(Forward(s, Before(s, a).v), Before(s, a), a) <==> !SelfCopy(s, a.v)
  {
    var b := Before(s, a);
    var targets := Forward(s, b.v);
    if SelfCopy(s, a.v) {
      return;
    }
    match s
    case Copy(x, y) => TakesBy(targets, Keep(a.v), b, a);
    case Cast(x, y) => TakesBy(targets, Keep(a.v), b, a);
    case Load(x, y, f) => TakesBy(targets, if a.v == x then PopField(x, f) else Keep(a.v), b, a);
    case Store(x, f, y) =>
      if a.v == x && a.fields != [] && a.fields[0] == f {
        assert a.fields == [f] + a.fields[1..];
        TakesBy(targets, PushField(x, f), b, a);
      } else {
        TakesBy(targets, if a.v == x then Exclude(x, f) else Keep(a.v), b, a);
      }
    case New(_) => TakesBy(targets, Keep(a.v), b, a);
    case Skip => TakesBy(targets, Keep(a.v), b, a);
  }

  lemma BackwardTakes<V(!new), F(!new)>(s: Stmt<V, F>, a: AccessPath<V, F>)
    requires !s.Throw? && !(s.New? && s.x == a.v)
    ensures Takes(Backward(s, a.v), a, Before(s, a))
  {
    var b := Before(s, a);
    var targets := Backward(s, a.v);
    match s
    case Load(x, y, f) => TakesBy(targets, if a.v == x then PushField(y, f) else Keep(a.v), a, b);
    case Store(x, f, y) =>
      if a.v == x && a.fields != [] && a.fields[0] == f {
        assert a.fields == [f] + a.fields[1..];
        TakesBy(targets, PopField(y, f), a, b);
      } else {
        TakesBy(targets, Keep(a.v), a, b);
      }
    case _ => TakesBy(targets, Keep(b.v), a, b);
  }

  /** Exactly where the forward flow leads: back from an access path to the one that held the object before, unless
      its variable is killed, and nowhere else but to the path that `x = x.f` keeps. In particular a store `x.f = y`
      stops `x.f`, and a statement that throws stops everything. */
  lemma ForwardTakesIff<V(!new), F(!new)>(s: Stmt<V, F>, c: AccessPath<V, F>, a: AccessPath<V, F>)
    ensures Takes(Forward(s, c.v), c, a) <==>
            && !s.Throw?
            && ((c == Before(s, a) && !Killed(false, s, a.v)) || (s.Load? && s.x == s.y == a.v && c == a))
  {
    if Takes(Forward(s, c.v), c, a) {
      var t :| t in Forward(s, c.v) && Step(Fields(), FieldRule(c.v, t), Stacked(c)) == Some(Stacked(a));
      TargetStepIs(t, c, a);
    }
    if !s.Throw? && c == Before(s, a) && !Killed(false, s, a.v) {
      ForwardTakes(s, a);
    }
    if s.Load? && s.x == s.y == a.v && c == a {
      TakesBy(Forward(s, c.v), Keep(a.v), c, a);
    }
  }

  /** Exactly where the backward flow leads: to the access path that held the object before, unless the object is new,
      and from `x.f` at a store `x.f = y` also to itself: there is no strong update. */
  lemma BackwardTakesIff<V(!new), F(!new)>(s: Stmt<V, F>, a: AccessPath<V, F>, c: AccessPath<V, F>)
    ensures Takes(Backward(s, a.v), a, c) <==>
            && !s.Throw?
            && ((c == Before(s, a) && !Killed(true, s, a.v)) || (s.Store? && s.x == a.v && c == a))
  {
    if Takes(Backward(s, a.v), a, c) {
      var t :| t in Backward(s, a.v) && Step(Fields(), FieldRule(a.v, t), Stacked(a)) == Some(Stacked(c));
      TargetStepIs(t, a, c);
    }
    if !s.Throw? && c == Before(s, a) && !Killed(true, s, a.v) {
      BackwardTakes(s, a);
    }
    if s.Store? && s.x == a.v && c == a {
      TakesBy(Backward(s, a.v), Keep(a.v), a, c);
    }
  }

  /** The strong update: the old path over the stored field stops. */
  lemma StrongUpdate<V(!new), F(!new)>(s: Stmt<V, F>, b: AccessPath<V, F>)
    requires s.Store? && b.v == s.x && b.fields != [] && b.fields[0] == s.f
    ensures !Takes(Forward(s, b.v), b, b)
  {
    ForwardTakesIff(s, b, b);
    assert |b.fields| != |Before(s, b).fields|;
  }

  /** One step is sound in both directions: whatever an access path denotes afterwards was denoted by an access
      path before, the forward flow takes the latter to the former, and the backward flow takes it back. */
  lemma StepSound<V(!new), F(!new), O(!new)>(
    s: Stmt<V, F>, h: Heap<V, F, O>, made: O, h': Heap<V, F, O>, a: AccessPath<V, F>)
    requires Exec(s, h, made) == Some(h') && Denotes(h', a).Some?
    requires !SelfCopy(s, a.v) && !(s.New? && s.x == a.v) && NoAlias(s, h', a)
    ensures Denotes(h, Before(s, a)) == Denotes(h', a)
    ensures Takes(Forward(s, Before(s, a).v), Before(s, a), a)
    ensures Takes(Backward(s, a.v), a, Before(s, a))
  {
    BeforeDenotes(s, h, made, h', a);
    ForwardTakes(s, a);
    BackwardTakes(s, a);
  }

  /** Before a store `x.f = y`, the path does not read the cell to be written. */
  ghost predicate Untouched<V(!new), F(!new), O(!new)>(s: Stmt<V, F>, before: Heap<V, F, O>, b: AccessPath<V, F>) {
    s.Store? && s.x in before.env && b.v in before.env ==>
      Avoids(before.cells, before.env[b.v], b.fields, (before.env[s.x], s.f))
  }

  lemma AlongDenotes<V(!new), F(!new), O(!new)>(
    s: Stmt<V, F>, h: Heap<V, F, O>, made: O, h': Heap<V, F, O>, b: AccessPath<V, F>, a: AccessPath<V, F>)
    requires Exec(s, h, made) == Some(h') && Denotes(h, b).Some? && Untouched(s, h, b)
    requires a == b || b == Before(s, a)
    requires a == b ==> !((s.Copy? || s.Cast? || s.Load? || s.New?) && a.v == s.x) || SelfCopy(s, a.v)
    requires b == Before(s, a) ==> !(s.New? && a.v == s.x)
    ensures Denotes(h', a) == Denotes(h, b)
  {
    match s
    case Store(x, f, y) =>
      FollowAvoiding(h'.cells, h.cells, h.env[b.v], b.fields, (h.env[x], f));
    case Load(x, y, f) =>
      assert ([f] + a.fields)[1..] == a.fields;
    case _ =>
  }

  /** Nothing spurious goes forward: what a flow leads to denotes afterwards what the path denoted before, unless
      the path reads the overwritten cell through an alias, or is the one that `x = x.f` keeps. A path that is kept and
      reads the cell as its own first step `x.f` is not excused. */
  lemma ForwardPrecise<V(!new), F(!new), O(!new)>(
    s: Stmt<V, F>, h: Heap<V, F, O>, made: O, h': Heap<V, F, O>, b: AccessPath<V, F>, a: AccessPath<V, F>)
    requires Exec(s, h, made) == Some(h') && Denotes(h, b).Some?
    requires Untouched(s, h, b) || (s.Store? && a == b && b.v == s.x && b.fields != [] && b.fields[0] == s.f)
    requires Takes(Forward(s, b.v), b, a)
    requires !(s.Load? && s.x == s.y && a.v == s.x && a == b)
    ensures Denotes(h', a) == Denotes(h, b)
  {
    ForwardTakesIff(s, b, a);
    if s.Store? && a == b && b.v == s.x && b.fields != [] && b.fields[0] == s.f {
      StrongUpdate(s, b);
    }
    AlongDenotes(s, h, made, h', b, a);
  }

  /** Nothing spurious goes backward: a path denotes afterwards what any path it flows back to denoted before,
      unless that one reads the overwritten cell. */
  lemma BackwardPrecise<V(!new), F(!new), O(!new)>(
    s: Stmt<V, F>, h: Heap<V, F, O>, made: O, h': Heap<V, F, O>, b: AccessPath<V, F>, a: AccessPath<V, F>)
    requires Exec(s, h, made) == Some(h') && Denotes(h, b).Some? && Untouched(s, h, b)
    requires Takes(Backward(s, a.v), a, b)
    ensures Denotes(h', a) == Denotes(h, b)
  {
    var t :| t in Backward(s, a.v) && Step(Fields(), FieldRule(a.v, t), Stacked(a)) == Some(Stacked(b));
    TargetStepIs(t, a, b);
    AlongDenotes(s, h, made, h', b, a);
  }

  // ----- Exactly when the flows are precise: heaps with two objects that break the other cases -----

  /** In every heap, `a` denotes after the statement what `b` denoted before. */
  ghost predicate AlwaysPrecise<V(!new), F(!new)>(s: Stmt<V, F>, b: AccessPath<V, F>, a: AccessPath<V, F>) {
    forall h: Heap<V, F, bool>, made: bool, h': Heap<V, F, bool> |
      Exec(s, h, made) == Some(h') && Denotes(h, b).Some? ::
      Denotes(h', a) == Denotes(h, b)
  }

  ghost function Cells<F(!new)>(fields: set<F>, next: (bool, F) -> bool): (cells: map<(bool, F), bool>)
    ensures forall o, g :: (o, g) in cells <==> g in fields
    ensures forall o, g :: g in fields ==> cells[(o, g)] == next(o, g)
  {
    var pairs := set o, g | o in {false, true} && g in fields :: (o, g);
    map p | p in pairs :: next(p.0, p.1)
  }

  /** Reading `f` leads from the first object to the second, and nothing leads back. */
  lemma {:induction false} FollowLatch<F(!new)>(cells: map<(bool, F), bool>, f: F, o: bool, fields: seq<F>)
    requires forall b, g :: g in fields ==> (b, g) in cells && cells[(b, g)] == (b || g == f)
    ensures Follow(cells, o, fields) == Some(o || f in fields)
    decreases fields
  {
    if fields != [] {
      FollowLatch(cells, f, o || fields[0] == f, fields[1..]);
      assert fields == [fields[0]] + fields[1..];
    }
  }

  lemma {:induction false} FollowStays<F(!new)>(cells: map<(bool, F), bool>, fields: seq<F>)
    requires forall g :: g in fields && (false, g) in cells ==> !cells[(false, g)]
    ensures Follow(cells, false, fields) != Some(true)
    decreases fields
  {
    if fields != [] && (false, fields[0]) in cells {
      assert fields[0] in fields;
      FollowStays(cells, fields[1..]);
    }
  }

  lemma {:induction false} FollowFlips<F(!new)>(cells: map<(bool, F), bool>, f: F, o: bool, fields: seq<F>)
    requires forall b, g :: g in fields ==> (b, g) in cells && cells[(b, g)] == (b != (g == f))
    ensures Follow(cells, o, fields).Some? && Follow(cells, !o, fields) == Some(!Follow(cells, o, fields).value)
    decreases fields
  {
    if fields != [] {
      assert fields[0] in fields;
      FollowFlips(cells, f, cells[(o, fields[0])], fields[1..]);
    }
  }

  lemma {:induction false} FollowAvoids<F(!new), O(!new)>(cells: map<(O, F), O>, o: O, fields: seq<F>, cell: (O, F))
    requires cell.1 !in fields
    ensures Avoids(cells, o, fields, cell)
    decreases fields
  {
    if fields != [] && (o, fields[0]) in cells {
      FollowAvoids(cells, cells[(o, fields[0])], fields[1..], cell);
    }
  }

  /** A path with the stored field reads the overwritten cell in some heap, and then it denotes something else. */
  lemma StoreBreaks<V(!new), F(!new)>(s: Stmt<V, F>, b: AccessPath<V, F>, a: AccessPath<V, F>)
    requires s.Store? && s.f in b.fields
    requires a == b || (b.v == s.y && a == AccessPath(s.x, [s.f] + b.fields))
    ensures !AlwaysPrecise(s, b, a)
  {
    var fields := set g | g in b.fields;
    var h: Heap<V, F, bool> := Heap(map[b.v := false, s.x := false], Cells(fields, (o, g) => o || g == s.f));
    FollowLatch(h.cells, s.f, false, b.fields);
    assert Denotes(h, b) == Some(true);
    var h': Heap<V, F, bool> := Exec(s, h, false).value;
    FollowStays(h'.cells, b.fields);
    if a != b {
      assert ([s.f] + b.fields)[1..] == b.fields;
    }
    assert Denotes(h', a) != Some(true);
  }

  /** `x = x.f` moves the variable along, so that a path rooted in it, if kept, denotes something else in some heap. */
  lemma SelfLoadBreaks<V(!new), F(!new)>(s: Stmt<V, F>, a: AccessPath<V, F>)
    requires s.Load? && s.x == s.y == a.v
    ensures !AlwaysPrecise(s, a, a)
  {
    var fields := (set g | g in a.fields) + {s.f};
    var h: Heap<V, F, bool> := Heap(map[a.v := false], Cells(fields, (o, g) => o != (g == s.f)));
    FollowFlips(h.cells, s.f, false, a.fields);
    var h': Heap<V, F, bool> := Exec(s, h, false).value;
    assert h'.env[a.v] && Denotes(h', a) != Denotes(h, a);
  }

  /** The forward flow is precise in every heap except at the path that `x = x.f` keeps, and except for paths with
      the field that is stored. */
  lemma ForwardPreciseIff<V(!new), F(!new)>(s: Stmt<V, F>, b: AccessPath<V, F>, a: AccessPath<V, F>)
    requires Takes(Forward(s, b.v), b, a)
    ensures AlwaysPrecise(s, b, a) <==>
            !(s.Load? && s.x == s.y && a.v == s.x && a == b) && !(s.Store? && s.f in b.fields)
  {
    var t :| t in Forward(s, b.v) && Step(Fields(), FieldRule(b.v, t), Stacked(b)) == Some(Stacked(a));
    TargetStepIs(t, b, a);
    if s.Load? && s.x == s.y && a.v == s.x && a == b {
      SelfLoadBreaks(s, a);
    } else if s.Store? && s.f in b.fields {
      StoreBreaks(s, b, a);
    } else {
      forall h: Heap<V, F, bool>, made: bool, h': Heap<V, F, bool> |
        Exec(s, h, made) == Some(h') && Denotes(h, b).Some?
        ensures Denotes(h', a) == Denotes(h, b)
      {
        UntouchedByField(s, h, b);
        ForwardPrecise(s, h, made, h', b, a);
      }
    }
  }

  /** The backward flow is precise in every heap except for paths with the field that is stored. */
  lemma BackwardPreciseIff<V(!new), F(!new)>(s: Stmt<V, F>, b: AccessPath<V, F>, a: AccessPath<V, F>)
    requires Takes(Backward(s, a.v), a, b)
    ensures AlwaysPrecise(s, b, a) <==> !(s.Store? && s.f in b.fields)
  {
    var t :| t in Backward(s, a.v) && Step(Fields(), FieldRule(a.v, t), Stacked(a)) == Some(Stacked(b));
    TargetStepIs(t, a, b);
    if s.Store? && s.f in b.fields {
      StoreBreaks(s, b, a);
    } else {
      forall h: Heap<V, F, bool>, made: bool, h': Heap<V, F, bool> |
        Exec(s, h, made) == Some(h') && Denotes(h, b).Some?
        ensures Denotes(h', a) == Denotes(h, b)
      {
        UntouchedByField(s, h, b);
        BackwardPrecise(s, h, made, h', b, a);
      }
    }
  }

  /** The forward flow leads from `c` to `a`, or the backward flow from `a` to `c`. */
  ghost predicate Leads<V(!new), F(!new)>(
    backward: bool, s: Stmt<V, F>, c: AccessPath<V, F>, a: AccessPath<V, F>)
  {
    if backward then Takes(Backward(s, a.v), a, c) else Takes(Forward(s, c.v), c, a)
  }

  /** In every heap, some access path that the flow connects with `a` held the object before. */
  ghost predicate AlwaysSound<V(!new), F(!new)>(backward: bool, s: Stmt<V, F>, a: AccessPath<V, F>) {
    forall h: Heap<V, F, bool>, made: bool, h': Heap<V, F, bool> |
      Exec(s, h, made) == Some(h') && Denotes(h', a).Some? ::
      HeldBefore(backward, s, h, h', a)
  }

  ghost predicate HeldBefore<V(!new), F(!new)>(
    backward: bool, s: Stmt<V, F>, h: Heap<V, F, bool>, h': Heap<V, F, bool>, a: AccessPath<V, F>)
  {
    exists c: AccessPath<V, F> :: Leads(backward, s, c, a) && Denotes(h, c) == Denotes(h', a)
  }

  /** The access paths that the flows connect with `a`, where they may fail. */
  lemma LedFrom<V(!new), F(!new)>(backward: bool, s: Stmt<V, F>, c: AccessPath<V, F>, a: AccessPath<V, F>)
    requires Leads(backward, s, c, a) && (s.Store? || Killed(backward, s, a.v))
    ensures s.Store? && (c == Before(s, a) || c == a)
    ensures s.f in Before(s, a).fields ==> s.f in c.fields
    ensures c.v == a.v || c.v == s.y
  {
    if backward {
      BackwardTakesIff(s, a, c);
    } else {
      ForwardTakesIff(s, c, a);
    }
  }

  /** Fields lead from the one object to itself; the stored one is missing before the store. */
  lemma SoundBreaks<V(!new), F(!new)>(backward: bool, s: Stmt<V, F>, a: AccessPath<V, F>)
    requires Killed(backward, s, a.v) || (s.Store? && s.f in Before(s, a).fields)
    ensures !AlwaysSound(backward, s, a)
  {
    var fields := set g | g in a.fields;
    var loops := Cells(fields, (o, g) => o);
    var h: Heap<V, F, bool> := Heap(map[a.v := false], loops);
    if s.Store? {
      h := Heap(map[a.v := false, s.x := false, s.y := false], loops - {(false, s.f)});
    }
    var h': Heap<V, F, bool> := Exec(s, h, false).value;
    FollowLoops(h'.cells, a.fields);
    assert Denotes(h', a) == Some(false);
    if HeldBefore(backward, s, h, h', a) {
      var c: AccessPath<V, F> :| Leads(backward, s, c, a) && Denotes(h, c) == Denotes(h', a);
      LedFrom(backward, s, c, a);
      FollowStops(h.cells, s.f, c.fields);
    }
    assert !HeldBefore(backward, s, h, h', a);
  }

  lemma {:induction false} FollowLoops<F(!new)>(cells: map<(bool, F), bool>, fields: seq<F>)
    requires forall g :: g in fields ==> (false, g) in cells && !cells[(false, g)]
    ensures Follow(cells, false, fields) == Some(false)
    decreases fields
  {
    if fields != [] {
      assert fields[0] in fields;
      FollowLoops(cells, fields[1..]);
    }
  }

  lemma {:induction false} FollowStops<F(!new)>(cells: map<(bool, F), bool>, f: F, fields: seq<F>)
    requires f in fields && (false, f) !in cells
    requires forall g :: g in fields && (false, g) in cells ==> !cells[(false, g)]
    ensures Follow(cells, false, fields) == None
    decreases fields
  {
    if (false, fields[0]) in cells {
      assert fields == [fields[0]] + fields[1..];
      FollowStops(cells, f, fields[1..]);
    }
  }

  /** Either flow is sound for an access path in every heap, except where the variable is killed, or the path goes on
      over the field that is stored. */
  lemma StepSoundIff<V(!new), F(!new)>(backward: bool, s: Stmt<V, F>, a: AccessPath<V, F>)
    ensures AlwaysSound(backward, s, a) <==>
            !Killed(backward, s, a.v) && !(s.Store? && s.f in Before(s, a).fields)
  {
    if Killed(backward, s, a.v) || (s.Store? && s.f in Before(s, a).fields) {
      SoundBreaks(backward, s, a);
    } else {
      forall h: Heap<V, F, bool>, made: bool, h': Heap<V, F, bool> |
        Exec(s, h, made) == Some(h') && Denotes(h', a).Some?
        ensures HeldBefore(backward, s, h, h', a)
      {
        NotOverField(s, h', a);
        BeforeDenotes(s, h, made, h', a);
        if backward {
          BackwardTakes(s, a);
        } else {
          ForwardTakes(s, a);
        }
        assert Leads(backward, s, Before(s, a), a);
      }
    }
  }

  lemma NotOverField<V(!new), F(!new), O(!new)>(s: Stmt<V, F>, after: Heap<V, F, O>, a: AccessPath<V, F>)
    requires !(s.Store? && s.f in Before(s, a).fields)
    ensures NoAlias(s, after, a)
  {
    if s.Store? && s.x in after.env && a.v in after.env {
      var cell := (after.env[s.x], s.f);
      if a.v == s.x && a.fields != [] && a.fields[0] == s.f {
        if cell in after.cells {
          FollowAvoids(after.cells, after.cells[cell], a.fields[1..], cell);
        }
      } else {
        FollowAvoids(after.cells, after.env[a.v], a.fields, cell);
      }
    }
  }

  lemma UntouchedByField<V(!new), F(!new), O(!new)>(s: Stmt<V, F>, h: Heap<V, F, O>, b: AccessPath<V, F>)
    requires !(s.Store? && s.f in b.fields)
    ensures Untouched(s, h, b)
  {
    if s.Store? && s.x in h.env && b.v in h.env {
      FollowAvoids(h.cells, h.env[b.v], b.fields, (h.env[s.x], s.f));
    }
  }

  // ----- Straight-line programs -----

  /** A statement, the object it allocates if it is a `new`, and the heap after it. */
  datatype Executed<!V(==,!new), !F(==,!new), !O(==,!new)> = Executed(s: Stmt<V, F>, made: O, after: Heap<V, F, O>)

  ghost predicate ExecutesAt<V(!new), F(!new), O(!new)>(h: Heap<V, F, O>, trace: seq<Executed<V, F, O>>, i: nat)
    requires i < |trace|
  {
    Exec(trace[i].s, HeapAt(h, trace, i), trace[i].made) == Some(trace[i].after)
  }

  ghost predicate Executes<V(!new), F(!new), O(!new)>(h: Heap<V, F, O>, trace: seq<Executed<V, F, O>>) {
    forall i :: 0 <= i < |trace| ==> ExecutesAt(h, trace, i)
  }

  /** The heap before step `i`. */
  ghost function HeapAt<V(!new), F(!new), O(!new)>(
    h: Heap<V, F, O>, trace: seq<Executed<V, F, O>>, i: nat): Heap<V, F, O>
    requires i <= |trace|
  {
    if i == 0 then h else trace[i - 1].after
  }

  /** The access path that held the object before step `i`, for an access path at the end. */
  ghost function Traced<V(!new), F(!new), O(!new)>(
    trace: seq<Executed<V, F, O>>, a: AccessPath<V, F>, i: nat): AccessPath<V, F>
    requires i <= |trace|
    decreases |trace| - i
  {
    if i == |trace| then a else Before(trace[i].s, Traced(trace, a, i + 1))
  }

  /** Step `j` does not read the written cell through an alias, and neither copies the variable that the
      access path is rooted in to itself nor allocates it. */
  ghost predicate FollowedAt<V(!new), F(!new), O(!new)>(trace: seq<Executed<V, F, O>>, a: AccessPath<V, F>, j: nat)
    requires j < |trace|
  {
    && NoAlias(trace[j].s, trace[j].after, Traced(trace, a, j + 1))
    && !SelfCopy(trace[j].s, Traced(trace, a, j + 1).v)
    && !(trace[j].s.New? && trace[j].s.x == Traced(trace, a, j + 1).v)
  }

  ghost predicate Followed<V(!new), F(!new), O(!new)>(trace: seq<Executed<V, F, O>>, a: AccessPath<V, F>, i: nat)
    requires i <= |trace|
  {
    forall j :: i <= j < |trace| ==> FollowedAt(trace, a, j)
  }

  /** The forward flow of step `i + k` takes the access path before it to the one after it. */
  ghost predicate ForwardAt<V(!new), F(!new), O(!new)>(
    trace: seq<Executed<V, F, O>>, i: nat, paths: seq<AccessPath<V, F>>, k: nat)
    requires i + k < |trace| && k + 1 < |paths|
  {
    Takes(Forward(trace[i + k].s, paths[k].v), paths[k], paths[k + 1])
  }

  /** The backward flow of step `i + k` takes the access path after it to the one before it. */
  ghost predicate BackwardAt<V(!new), F(!new), O(!new)>(
    trace: seq<Executed<V, F, O>>, i: nat, paths: seq<AccessPath<V, F>>, k: nat)
    requires i + k < |trace| && k + 1 < |paths|
  {
    Takes(Backward(trace[i + k].s, paths[k + 1].v), paths[k + 1], paths[k])
  }

  /** From step `i` on, the forward analysis takes each access path to the next, and the backward analysis takes
      each one to the one before. */
  ghost predicate Flows<V(!new), F(!new), O(!new)>(trace: seq<Executed<V, F, O>>, i: nat, paths: seq<AccessPath<V, F>>)
  {
    && i + |paths| == |trace| + 1
    && (forall k :: 0 <= k < |paths| - 1 ==> ForwardAt(trace, i, paths, k))
    && (forall k :: 0 <= k < |paths| - 1 ==> BackwardAt(trace, i, paths, k))
  }

  ghost function TracedFrom<V(!new), F(!new), O(!new)>(
    trace: seq<Executed<V, F, O>>, a: AccessPath<V, F>, i: nat): seq<AccessPath<V, F>>
    requires i <= |trace|
  {
    seq(|trace| - i + 1, k requires 0 <= k <= |trace| - i => Traced(trace, a, i + k))
  }

  /** Before step `i`, the access path traced back denotes `o`. */
  ghost predicate Tracks<V(!new), F(!new), O(!new)>(
    h: Heap<V, F, O>, trace: seq<Executed<V, F, O>>, a: AccessPath<V, F>, i: nat, o: O)
    requires i <= |trace|
  {
    Denotes(HeapAt(h, trace, i), Traced(trace, a, i)) == Some(o)
  }

  lemma ProgramStep<V(!new), F(!new), O(!new)>(
    h: Heap<V, F, O>, trace: seq<Executed<V, F, O>>, a: AccessPath<V, F>, i: nat, o: O)
    requires i < |trace| && ExecutesAt(h, trace, i) && FollowedAt(trace, a, i)
    requires Tracks(h, trace, a, i + 1, o)
    ensures Tracks(h, trace, a, i, o)
    ensures Takes(Forward(trace[i].s, Traced(trace, a, i).v), Traced(trace, a, i), Traced(trace, a, i + 1))
    ensures Takes(Backward(trace[i].s, Traced(trace, a, i + 1).v), Traced(trace, a, i + 1), Traced(trace, a, i))
  {
    StepSound(trace[i].s, HeapAt(h, trace, i), trace[i].made, trace[i].after, Traced(trace, a, i + 1));
  }

  lemma {:induction false} ObjectTraced<V(!new), F(!new), O(!new)>(
    h: Heap<V, F, O>, trace: seq<Executed<V, F, O>>, a: AccessPath<V, F>, i: nat, o: O)
    requires i <= |trace| && Executes(h, trace) && Followed(trace, a, i)
    requires Tracks(h, trace, a, |trace|, o)
    ensures Tracks(h, trace, a, i, o)
    decreases |trace| - i
  {
    if i < |trace| {
      ObjectTraced(h, trace, a, i + 1, o);
      assert ExecutesAt(h, trace, i) && FollowedAt(trace, a, i);
      ProgramStep(h, trace, a, i, o);
    }
  }

  lemma TracedFlows<V(!new), F(!new), O(!new)>(
    h: Heap<V, F, O>, trace: seq<Executed<V, F, O>>, a: AccessPath<V, F>, i: nat, o: O)
    requires i <= |trace| && Executes(h, trace) && Followed(trace, a, i)
    requires Denotes(HeapAt(h, trace, |trace|), a) == Some(o)
    ensures Flows(trace, i, TracedFrom(trace, a, i))
  {
    var paths := TracedFrom(trace, a, i);
    forall k | 0 <= k < |paths| - 1
      ensures ForwardAt(trace, i, paths, k) && BackwardAt(trace, i, paths, k)
    {
      ObjectTraced(h, trace, a, i + k + 1, o);
      assert ExecutesAt(h, trace, i + k) && FollowedAt(trace, a, i + k);
      ProgramStep(h, trace, a, i + k, o);
    }
  }

  /** Both analyses track an object through straight-line code, from any earlier point on. */
  lemma ProgramSound<V(!new), F(!new), O(!new)>(
    h: Heap<V, F, O>, trace: seq<Executed<V, F, O>>, a: AccessPath<V, F>, i: nat, o: O)
    requires i <= |trace| && Executes(h, trace) && Followed(trace, a, i)
    requires Denotes(HeapAt(h, trace, |trace|), a) == Some(o)
    ensures var paths := TracedFrom(trace, a, i);
            && Flows(trace, i, paths) && paths[|paths| - 1] == a
            && forall k :: 0 <= k < |paths| ==> Denotes(HeapAt(h, trace, i + k), paths[k]) == Some(o)
  {
    var paths := TracedFrom(trace, a, i);
    assert paths[|paths| - 1] == Traced(trace, a, |trace|);
    forall k | 0 <= k < |paths|
      ensures Denotes(HeapAt(h, trace, i + k), paths[k]) == Some(o)
    {
      ObjectTraced(h, trace, a, i + k, o);
    }
    TracedFlows(h, trace, a, i, o);
  }

  /** From its allocation on: an object that an access path denotes at the end, and that is traced back to the
      variable of the `new` of step `i`, is the object made there; so the forward analysis seeded with that
      variable finds the access path, and the backward analysis of the access path finds that variable. */
  lemma AllocationFound<V(!new), F(!new), O(!new)>(
    h: Heap<V, F, O>, trace: seq<Executed<V, F, O>>, a: AccessPath<V, F>, i: nat, o: O)
    requires i < |trace| && Executes(h, trace) && Followed(trace, a, i + 1)
    requires Denotes(HeapAt(h, trace, |trace|), a) == Some(o)
    requires trace[i].s.New? && Traced(trace, a, i + 1).v == trace[i].s.x
    requires forall f: F :: (trace[i].made, f) !in HeapAt(h, trace, i).cells
    ensures o == trace[i].made && Traced(trace, a, i + 1) == AccessPath(trace[i].s.x, [])
    ensures var paths := TracedFrom(trace, a, i + 1);
            Flows(trace, i + 1, paths) && paths[0] == AccessPath(trace[i].s.x, []) && paths[|paths| - 1] == a
  {
    ProgramSound(h, trace, a, i + 1, o);
    assert TracedFrom(trace, a, i + 1)[0] == Traced(trace, a, i + 1);
    assert ExecutesAt(h, trace, i);
    NewDenotes(HeapAt(h, trace, i), trace[i].s, trace[i].made, trace[i].after, Traced(trace, a, i + 1));
  }

  /** After `x = new`, the variable denotes the new object, and no field of it denotes anything. */
  lemma NewDenotes<V(!new), F(!new), O(!new)>(
    h: Heap<V, F, O>, s: Stmt<V, F>, made: O, h': Heap<V, F, O>, a: AccessPath<V, F>)
    requires s.New? && Exec(s, h, made) == Some(h') && a.v == s.x && Denotes(h', a).Some?
    requires forall f: F :: (made, f) !in h.cells
    ensures a == AccessPath(s.x, []) && Denotes(h', a) == Some(made)
  {
  }

  /** The one exception: a copy of a variable to itself keeps what the variable denotes, but the forward flow kills
      it. */
  lemma SelfCopyIsLost<V(!new), F(!new), O(!new)>(
    s: Stmt<V, F>, h: Heap<V, F, O>, made: O, a: AccessPath<V, F>, b: AccessPath<V, F>)
    requires SelfCopy(s, a.v) && Denotes(h, a).Some?
    ensures Exec(s, h, made).Some? && Denotes(Exec(s, h, made).value, a) == Denotes(h, a)
    ensures !Takes(Forward(s, a.v), a, b)
  {
  }
}
