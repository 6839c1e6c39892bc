/** Reachability in a finite directed graph given by its set of edges.
    `Closure(E, S)` is the least set that contains `S` and is closed under
    taking successors along `E`; `Desc(E, n)` is the set of nodes reachable
    from `n` by a non-empty path. The provenance graph store keeps its
    edge set acyclic in the sense of `Acyclic`. */
module Reachability {

  /** Nodes are identified by their uuid strings. */
  type Pair = (string, string)

  /** The end points of the edges that leave a node of `S`. */
  function Succ(E: set<Pair>, S: set<string>): set<string>
  {
    set p | p in E && p.0 in S :: p.1
  }

  function Targets(E: set<Pair>): set<string>
  {
    set p | p in E :: p.1
  }

  /** `C` contains every successor of its members. */
  ghost predicate Closed(E: set<Pair>, C: set<string>)
  {
    forall p :: p in E && p.0 in C ==> p.1 in C
  }

  lemma ProperSubsetSmaller(A: set<string>, B: set<string>)
    requires A < B
    ensures |A| < |B|
  {
    var x :| x in B && x !in A;
    assert A <= B - {x};
    assert |A| <= |B - {x}| by {
      SubsetNotLarger(A, B - {x});
    }
  }

  lemma {:induction false} SubsetNotLarger(A: set<string>, B: set<string>)
    requires A <= B
    ensures |A| <= |B|
    decreases |A|
  {
    if A != {} {
      var x :| x in A;
      SubsetNotLarger(A - {x}, B - {x});
    }
  }

  /** The least superset of `S` closed under `E`, computed as a fixpoint. */
  function Closure(E: set<Pair>, S: set<string>): (C: set<string>)
    ensures S <= C && Closed(E, C)
    decreases |Targets(E) - S|
  {
    var next := S + Succ(E, S);
    if next == S then S
    else
      assert Targets(E) - next < Targets(E) - S;
      ProperSubsetSmaller(Targets(E) - next, Targets(E) - S);
      Closure(E, next)
  }

  /** Every closed superset of `S` contains `Closure(E, S)`. */
  lemma {:induction false} ClosureLeast(E: set<Pair>, S: set<string>, D: set<string>)
    requires S <= D && Closed(E, D)
    ensures Closure(E, S) <= D
    decreases |Targets(E) - S|
  {
    var next := S + Succ(E, S);
    if next != S {
      assert Targets(E) - next < Targets(E) - S;
      ProperSubsetSmaller(Targets(E) - next, Targets(E) - S);
      assert next <= D;
      ClosureLeast(E, next, D);
    }
  }

  /** Strict descendants of `n`: nodes at the end of a non-empty path from `n`. */
  function Desc(E: set<Pair>, n: string): set<string>
  {
    Closure(E, Succ(E, {n}))
  }

  ghost predicate Acyclic(E: set<Pair>)
  {
    forall n :: n !in Desc(E, n)
  }

  lemma ClosureMonoSeeds(E: set<Pair>, S1: set<string>, S2: set<string>)
    requires S1 <= S2
    ensures Closure(E, S1) <= Closure(E, S2)
  {
    ClosureLeast(E, S1, Closure(E, S2));
  }

  lemma ClosureMonoEdges(E1: set<Pair>, E2: set<Pair>, S: set<string>)
    requires E1 <= E2
    ensures Closure(E1, S) <= Closure(E2, S)
  {
    ClosureLeast(E1, S, Closure(E2, S));
  }

  /** Reachability is transitive: whatever a reached node reaches is reached. */
  lemma ClosureTransitive(E: set<Pair>, S: set<string>, x: string)
    requires x in Closure(E, S)
    ensures Closure(E, {x}) <= Closure(E, S)
    ensures Desc(E, x) <= Closure(E, S)
  {
    ClosureLeast(E, {x}, Closure(E, S));
    ClosureLeast(E, Succ(E, {x}), Closure(E, S));
  }

  /** The reflexive reach of `n` is `n` together with its strict descendants. */
  lemma ClosureOfSingleton(E: set<Pair>, n: string)
    ensures Closure(E, {n}) == {n} + Desc(E, n)
  {
    var C := {n} + Desc(E, n);
    assert Closed(E, C) by {
      forall p | p in E && p.0 in C
        ensures p.1 in C
      {
        if p.0 == n {
          assert p.1 in Succ(E, {n});
        }
      }
    }
    ClosureLeast(E, {n}, C);
    assert Succ(E, {n}) <= Closure(E, {n});
    ClosureLeast(E, Succ(E, {n}), Closure(E, {n}));
  }

  /** A node without outgoing edges reaches nothing. */
  lemma SinkReachesNothing(E: set<Pair>, n: string)
    requires forall p :: p in E ==> p.0 != n
    ensures Closure(E, {n}) == {n}
    ensures Desc(E, n) == {}
  {
    assert Succ(E, {n}) == {};
    assert Closed(E, {});
    ClosureLeast(E, {}, {});
    ClosureOfSingleton(E, n);
  }

  /** Fewer edges cannot create a cycle. */
  lemma {:induction false} AcyclicSubset(E1: set<Pair>, E2: set<Pair>)
    requires E1 <= E2 && Acyclic(E2)
    ensures Acyclic(E1)
  {
    forall n
      ensures n !in Desc(E1, n)
    {
      assert Succ(E1, {n}) <= Succ(E2, {n});
      ClosureMonoEdges(E1, E2, Succ(E1, {n}));
      ClosureMonoSeeds(E2, Succ(E1, {n}), Succ(E2, {n}));
      assert n !in Desc(E2, n);
    }
  }

  /** An edge of an acyclic graph never points back to a node that reaches its source. */
  lemma EdgeNotReversed(E: set<Pair>, a: string, b: string)
    requires Acyclic(E) && (a, b) in E
    ensures a != b
    ensures a !in Closure(E, {b})
  {
    assert b in Succ(E, {a});
    assert b in Desc(E, a);
    ClosureTransitive(E, Succ(E, {a}), b);
    assert a !in Desc(E, a);
  }

  /** Adding an edge `a -> b` keeps a graph acyclic when `b` does not reach `a`. */
  lemma {:induction false} AddEdgeKeepsAcyclic(E: set<Pair>, a: string, b: string)
    requires Acyclic(E)
    requires a !in Closure(E, {b})
    ensures Acyclic(E + {(a, b)})
  {
    var E' := E + {(a, b)};
    ClosureOfSingleton(E, b);
    var Db := Closure(E, {b});
    forall n
      ensures n !in Desc(E', n)
    {
      var S := Succ(E', {n});
      var CS := Closure(E, S);
      var C := if a in CS then CS + Db else CS;
      assert Closed(E', C) by {
        forall p | p in E' && p.0 in C
          ensures p.1 in C
        {
          if p == (a, b) {
          } else if p.0 in CS {
          } else {
            assert p.0 in Db;
            ClosureTransitive(E, {b}, p.0);
            assert p.1 in Succ(E, {p.0});
            ClosureOfSingleton(E, p.0);
          }
        }
      }
      ClosureLeast(E', S, C);
      assert n !in C by {
        if n == a {
          assert S == Succ(E, {a}) + {b};
          ClosureLeast(E, S, Desc(E, a) + Db) by {
            assert Closed(E, Db);
            assert Closed(E, Desc(E, a));
          }
        } else {
          assert S == Succ(E, {n});
          assert n !in Desc(E, n);
          assert n !in CS;
          if a in CS && n in Db {
            ClosureTransitive(E, {b}, n);
            ClosureTransitive(E, S, a);
            ClosureOfSingleton(E, n);
            ClosureOfSingleton(E, a);
            assert false;
          }
        }
      }
    }
  }
}
