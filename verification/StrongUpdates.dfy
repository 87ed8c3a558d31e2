/** Strong-update bookkeeping of IDEal: whether a statement is a strong update depends on which updates were
    announced, and not on their order. */
module StrongUpdates {
  datatype Announcement<N, S> = Affected(node: N, stmt: S) | Weak(node: N)

  /** The answer, from the announcements alone: some node affects the statement, and no weakly updated one does. */
  ghost predicate IsStrong<N(!new), S(!new)>(announced: seq<Announcement<N, S>>, stmt: S) {
    && (exists n :: Affected(n, stmt) in announced)
    && (forall n :: Affected(n, stmt) in announced ==> Weak(n) !in announced)
  }

  lemma AnyOrder<N(!new), S(!new)>(some: seq<Announcement<N, S>>, other: seq<Announcement<N, S>>, stmt: S)
    requires multiset(some) == multiset(other)
    ensures IsStrong(some, stmt) <==> IsStrong(other, stmt)
  {
    assert forall a :: a in some <==> a in multiset(some);
    assert forall a :: a in other <==> a in multiset(other);
  }

  /** A statement that is affected but not a strong update never becomes one. */
  lemma WeakForGood<N(!new), S(!new)>(announced: seq<Announcement<N, S>>, more: seq<Announcement<N, S>>, n: N, stmt: S)
    requires Affected(n, stmt) in announced && !IsStrong(announced, stmt)
    ensures !IsStrong(announced + more, stmt)
  {
    var m :| Affected(m, stmt) in announced && Weak(m) in announced;
    assert Affected(m, stmt) in announced + more && Weak(m) in announced + more;
  }

  class IDEALWeightFunctions<S(!new,==)> {
    const strongUpdates: bool
    var potentialStrongUpdates: set<S>
    var weakUpdates: set<S>

    constructor (strongUpdates: bool)
      ensures this.strongUpdates == strongUpdates && potentialStrongUpdates == weakUpdates == {}
    {
      this.strongUpdates := strongUpdates;
      potentialStrongUpdates, weakUpdates := {}, {};
    }

    method PotentialStrongUpdate(stmt: S)
      modifies this`potentialStrongUpdates
      ensures potentialStrongUpdates == old(potentialStrongUpdates) + {stmt}
    {
      potentialStrongUpdates := potentialStrongUpdates + {stmt};
    }

    method WeakUpdate(stmt: S)
      modifies this`weakUpdates
      ensures weakUpdates == old(weakUpdates) + {stmt}
    {
      weakUpdates := weakUpdates + {stmt};
    }

    predicate IsStrongUpdateStatement(stmt: S)
      reads this
    {
      stmt in potentialStrongUpdates && stmt !in weakUpdates && strongUpdates
    }
  }

  class IDEALSeedSolver<N(!new,==), S(!new,==)> {
    const idealWeightFunctions: IDEALWeightFunctions<S>
    var affectedStrongUpdateStmt: set<(N, S)>
    var weakUpdates: set<N>
    ghost var announced: seq<Announcement<N, S>>

    ghost predicate Valid()
      reads this, idealWeightFunctions
    {
      && (forall n, s :: (n, s) in affectedStrongUpdateStmt <==> Affected(n, s) in announced)
      && (forall n :: n in weakUpdates <==> Weak(n) in announced)
      && (forall s :: s in idealWeightFunctions.potentialStrongUpdates <==> exists n :: Affected(n, s) in announced)
      && (forall s :: s in idealWeightFunctions.weakUpdates <==> IsWeakened(s))
    }

    ghost predicate IsWeakened(s: S)
      reads this
    {
      exists n :: Affected(n, s) in announced && Weak(n) in announced
    }

    constructor (functions: IDEALWeightFunctions<S>)
      requires functions.potentialStrongUpdates == functions.weakUpdates == {}
      ensures Valid() && announced == [] && idealWeightFunctions == functions
    {
      idealWeightFunctions := functions;
      affectedStrongUpdateStmt, weakUpdates, announced := {}, {}, [];
    }

    /** The flag and the announcements decide which statements are strong updates. */
    lemma Strong(stmt: S)
      requires Valid()
      ensures idealWeightFunctions.IsStrongUpdateStatement(stmt) <==>
              idealWeightFunctions.strongUpdates && IsStrong(announced, stmt)
    {
    }

    method AddAffectedPotentialStrongUpdate(strongUpdateNode: N, stmt: S)
      requires Valid()
      modifies this`affectedStrongUpdateStmt, this`announced, idealWeightFunctions
      ensures Valid() && announced == old(announced) + [Affected(strongUpdateNode, stmt)]
    {
      if (strongUpdateNode, stmt) !in affectedStrongUpdateStmt {
        affectedStrongUpdateStmt := affectedStrongUpdateStmt + {(strongUpdateNode, stmt)};
        idealWeightFunctions.PotentialStrongUpdate(stmt);
        if strongUpdateNode in weakUpdates {
          idealWeightFunctions.WeakUpdate(stmt);
        }
      }
      ghost var a := Affected(strongUpdateNode, stmt);
      assert forall x :: x in announced + [a] <==> x in announced || x == a;
      announced := announced + [a];
    }

    method SetWeakUpdate(curr: N)
      requires Valid()
      modifies this`weakUpdates, this`announced, idealWeightFunctions`weakUpdates
      ensures Valid() && announced == old(announced) + [Weak(curr)]
    {
      if curr !in weakUpdates {
        weakUpdates := weakUpdates + {curr};
        var todo := set e | e in affectedStrongUpdateStmt && e.0 == curr :: e.1;
        ghost var all, before := todo, idealWeightFunctions.weakUpdates;
        while todo != {}
          modifies idealWeightFunctions`weakUpdates
          invariant todo <= all && idealWeightFunctions.weakUpdates == before + (all - todo)
        {
          var s :| s in todo;
          idealWeightFunctions.WeakUpdate(s);
          todo := todo - {s};
        }
        assert forall s :: s in all <==> (curr, s) in affectedStrongUpdateStmt;
      }
      ghost var a: Announcement<N, S> := Weak(curr);
      assert forall x :: x in announced + [a] <==> x in announced || x == a;
      announced := announced + [a];
    }
  }
}
