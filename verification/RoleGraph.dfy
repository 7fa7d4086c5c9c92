/** Inheritance over an arbitrary directed graph: cycles, repeated edges and edges to unknown names allowed. */
module RoleGraph {
  import opened Prelude

  /** `direct` gives each declared role its own grants; `edges` may mention undeclared names. */
  datatype Graph<G> = Graph(direct: map<string, set<G>>, edges: set<(string, string)>)

  /** A path through declared roles only: an edge to an unknown name leads nowhere. */
  ghost predicate IsPath<G>(g: Graph<G>, p: seq<string>) {
    && p != []
    && (forall i :: 0 <= i < |p| ==> p[i] in g.direct)
    && (forall i :: 0 <= i < |p| - 1 ==> (p[i], p[i + 1]) in g.edges)
  }

  /** `p` leads from `role` to a role that has `x` directly. */
  ghost predicate Witnesses<G>(g: Graph<G>, p: seq<string>, role: string, x: G) {
    IsPath(g, p) && p[0] == role && x in g.direct[p[|p| - 1]]
  }

  /** `role` has `x` directly or inherits it over at most `k` edges. */
  ghost predicate Within<G>(g: Graph<G>, role: string, x: G, k: nat) {
    exists p :: Witnesses(g, p, role, x) && |p| <= k + 1
  }

  /** `role` inherits `x` over any number of edges. */
  ghost predicate Inherits<G>(g: Graph<G>, role: string, x: G) {
    exists p :: Witnesses(g, p, role, x)
  }

  lemma WithinZero<G>(g: Graph<G>, role: string, x: G)
    requires role in g.direct
    ensures Within(g, role, x, 0) <==> x in g.direct[role]
  {
    if x in g.direct[role] {
      assert Witnesses(g, [role], role, x);
    }
  }

  lemma Tail<G>(g: Graph<G>, p: seq<string>, role: string, x: G)
    requires Witnesses(g, p, role, x) && |p| >= 2
    ensures (role, p[1]) in g.edges && p[1] in g.direct && Witnesses(g, p[1..], p[1], x)
  {
    var q := p[1..];
    assert (p[0], p[0 + 1]) in g.edges;
    forall i | 0 <= i < |q| - 1 ensures (q[i], q[i + 1]) in g.edges {
      assert (p[i + 1], p[i + 1 + 1]) in g.edges;
    }
  }

  lemma Prepend<G>(g: Graph<G>, role: string, q: seq<string>, d: string, x: G)
    requires role in g.direct && (role, d) in g.edges && Witnesses(g, q, d, x)
    ensures Witnesses(g, [role] + q, role, x)
  {
    var p := [role] + q;
    forall i | 0 <= i < |p| - 1 ensures (p[i], p[i + 1]) in g.edges {
      if i > 0 {
        assert (q[i - 1], q[i - 1 + 1]) in g.edges;
      }
    }
  }

  /** One more round: what a role has within `k + 1` edges is what it, or a declared role it extends, has within `k`. */
  lemma OneMoreEdge<G>(g: Graph<G>, role: string, x: G, k: nat)
    requires role in g.direct
    ensures Within(g, role, x, k + 1) <==>
      Within(g, role, x, k) || exists d :: d in g.direct && (role, d) in g.edges && Within(g, d, x, k)
  {
    if Within(g, role, x, k + 1) && !Within(g, role, x, k) {
      var p :| Witnesses(g, p, role, x) && |p| <= k + 2;
      Tail(g, p, role, x);
    }
    if d :| d in g.direct && (role, d) in g.edges && Within(g, d, x, k) {
      var q :| Witnesses(g, q, d, x) && |q| <= k + 1;
      Prepend(g, role, q, d, x);
    }
  }

  lemma WithinMonotone<G>(g: Graph<G>, role: string, x: G, k: nat, m: nat)
    requires k <= m && Within(g, role, x, k)
    ensures Within(g, role, x, m)
  {
    var p :| Witnesses(g, p, role, x) && |p| <= k + 1;
  }

  /** No role gains anything between `k` and `k + 1` edges. */
  ghost predicate StableAt<G(!new)>(g: Graph<G>, k: nat) {
    forall role, x :: role in g.direct && Within(g, role, x, k + 1) ==> Within(g, role, x, k)
  }

  /** Once a round gains nothing, no later round does. */
  lemma {:induction false} StableForever<G(!new)>(g: Graph<G>, role: string, x: G, k: nat, m: nat)
    requires StableAt(g, k) && role in g.direct && k <= m
    requires Within(g, role, x, m)
    ensures Within(g, role, x, k)
    decreases m
  {
    if k < m {
      OneMoreEdge(g, role, x, m - 1);
      if Within(g, role, x, m - 1) {
        StableForever(g, role, x, k, m - 1);
      } else {
        var d :| d in g.direct && (role, d) in g.edges && Within(g, d, x, m - 1);
        StableForever(g, d, x, k, m - 1);
        OneMoreEdge(g, role, x, k);
      }
    }
  }

  /** `k` rounds find everything there is to inherit exactly when one more round gains nothing. */
  lemma RoundsSufficeExactly<G(!new)>(g: Graph<G>, k: nat)
    ensures (forall role, x :: Inherits(g, role, x) ==> Within(g, role, x, k)) <==> StableAt(g, k)
  {
    if StableAt(g, k) {
      forall role, x | Inherits(g, role, x) ensures Within(g, role, x, k) {
        var p :| Witnesses(g, p, role, x);
        assert Within(g, role, x, k + |p|);
        StableForever(g, role, x, k, k + |p|);
      }
    }
  }

  lemma CutOnce<G>(g: Graph<G>, p: seq<string>, role: string, x: G, i: nat, j: nat)
    requires Witnesses(g, p, role, x) && i < j < |p| && p[i] == p[j]
    ensures Witnesses(g, p[..i] + p[j..], role, x)
  {
    var cut := p[..i] + p[j..];
    forall n | 0 <= n < |cut| - 1 ensures (cut[n], cut[n + 1]) in g.edges {
      if n < i {
        assert cut[n + 1] == p[n + 1];
        assert (p[n], p[n + 1]) in g.edges;
      } else {
        assert (p[n - i + j], p[n - i + j + 1]) in g.edges;
      }
    }
    assert cut[|cut| - 1] == p[|p| - 1];
  }

  /** A path longer than the number of declared roles repeats one, and the loop can be cut out. */
  lemma {:induction false} CutLoops<G>(g: Graph<G>, p: seq<string>, role: string, x: G) returns (q: seq<string>)
    requires Witnesses(g, p, role, x)
    ensures Witnesses(g, q, role, x) && |q| <= |g.direct|
    decreases |p|
  {
    if |p| <= |g.direct| {
      q := p;
    } else {
      if Distinct(p) {
        DistinctBound(p, g.direct.Keys);
      }
      var i, j :| 0 <= i < j < |p| && p[i] == p[j];
      CutOnce(g, p, role, x, i, j);
      q := CutLoops(g, p[..i] + p[j..], role, x);
    }
  }

  /** In a graph of at most `k + 1` declared roles, `k` edges reach everything there is to reach. */
  lemma ShortPathsSuffice<G>(g: Graph<G>, role: string, x: G, k: nat)
    requires |g.direct| <= k + 1
    ensures Within(g, role, x, k) <==> Inherits(g, role, x)
  {
    if Inherits(g, role, x) {
      var p :| Witnesses(g, p, role, x);
      var q := CutLoops(g, p, role, x);
    }
  }

  /** `big` has every role, grant and edge of `small`. */
  ghost predicate Contains<G>(big: Graph<G>, small: Graph<G>) {
    && (forall role :: role in small.direct ==> role in big.direct && small.direct[role] <= big.direct[role])
    && small.edges <= big.edges
  }

  lemma WithinGrows<G>(small: Graph<G>, big: Graph<G>, role: string, x: G, k: nat)
    requires Contains(big, small) && Within(small, role, x, k)
    ensures Within(big, role, x, k)
  {
    var p :| Witnesses(small, p, role, x) && |p| <= k + 1;
    assert Witnesses(big, p, role, x);
  }

  // ---------------------------------------------------------------------------
  // A chain, to show how far a bounded number of rounds reaches
  // ---------------------------------------------------------------------------

  function Name(i: nat): string {
    seq(i, j => 'a')
  }

  /** `n` roles, named by length, each extending the next; only the last has `x`. */
  ghost predicate IsChain<G>(g: Graph<G>, n: nat, x: G) {
    && (forall s :: s in g.direct <==> |s| < n && s == Name(|s|))
    && (forall s :: s in g.direct ==> (x in g.direct[s] <==> |s| + 1 == n))
    && (forall s :: s in g.direct && |s| + 1 < n ==> (s, s + "a") in g.edges)
    && (forall s, t :: (s, t) in g.edges ==> |t| == |s| + 1)
  }

  lemma {:induction false} ChainPath<G>(g: Graph<G>, n: nat, x: G, p: seq<string>, i: nat)
    requires IsChain(g, n, x) && IsPath(g, p) && p[0] == Name(0) && i < |p|
    ensures |p[i]| == i
  {
    if i > 0 {
      ChainPath(g, n, x, p, i - 1);
      assert (p[i - 1], p[i - 1 + 1]) in g.edges;
    }
  }

  /** The path from the role at position `i` to the end of the chain. */
  lemma {:induction false} ChainFrom<G>(g: Graph<G>, n: nat, x: G, i: nat) returns (p: seq<string>)
    requires i < n && IsChain(g, n, x)
    ensures |p| == n - i && Witnesses(g, p, Name(i), x)
    decreases n - i
  {
    if i + 1 == n {
      p := [Name(i)];
    } else {
      var rest := ChainFrom(g, n, x, i + 1);
      assert Name(i + 1) == Name(i) + "a";
      Prepend(g, Name(i), rest, Name(i + 1), x);
      p := [Name(i)] + rest;
    }
  }

  /** The first role of a chain of `n` inherits the last one's grant, over exactly `n - 1` edges. */
  lemma ChainReach<G>(g: Graph<G>, n: nat, x: G, k: nat)
    requires n > 0 && IsChain(g, n, x)
    ensures Inherits(g, Name(0), x)
    ensures Within(g, Name(0), x, k) <==> n <= k + 1
  {
    var full := ChainFrom(g, n, x, 0);
    if Within(g, Name(0), x, k) {
      var p :| Witnesses(g, p, Name(0), x) && |p| <= k + 1;
      ChainPath(g, n, x, p, |p| - 1);
    }
  }
}
