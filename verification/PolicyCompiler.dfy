/** `AuthPolicy::build` as code. */
module PolicyCompiler {
  import opened Prelude
  import opened Text
  import opened RoleGraph
  import opened Policy

  // ---------------------------------------------------------------------------
  // Collecting the configuration
  // ---------------------------------------------------------------------------

  function ParsedTokens(tokens: seq<string>): (r: seq<Option<Grant>>)
    ensures |r| == |tokens| && forall i :: 0 <= i < |tokens| ==> r[i] == ParseGrant(tokens[i])
  {
    seq(|tokens|, i requires 0 <= i < |tokens| => ParseGrant(tokens[i]))
  }

  function Somes(s: seq<Option<Grant>>): set<Grant> {
    set o | o in s && o.Some? :: o.value
  }

  /** The grants of a token list; unrecognised tokens are dropped. */
  function GrantsOf(tokens: seq<string>): set<Grant> {
    Somes(ParsedTokens(tokens))
  }

  lemma SomesMember(s: seq<Option<Grant>>, g: Grant)
    ensures g in Somes(s) <==> Some(g) in s
  {
    if Some(g) in s {
      assert Some(g).value in Somes(s);
    }
  }

  lemma SomesNext(s: seq<Option<Grant>>, i: nat)
    requires i < |s|
    ensures Somes(s[..i + 1]) == Somes(s[..i]) + (if s[i].Some? then {s[i].value} else {})
  {
    forall g ensures g in Somes(s[..i + 1]) <==> g in Somes(s[..i]) || s[i] == Some(g) {
      SomesMember(s[..i + 1], g);
      SomesMember(s[..i], g);
      assert s[..i + 1] == s[..i] + [s[i]];
    }
  }

  lemma GrantsOfMember(tokens: seq<string>, g: Grant)
    ensures g in GrantsOf(tokens) <==> exists i :: 0 <= i < |tokens| && ParseGrant(tokens[i]) == Some(g)
  {
    SomesMember(ParsedTokens(tokens), g);
  }

  method ParseAll(tokens: seq<string>) returns (grants: set<Grant>)
    ensures grants == GrantsOf(tokens)
  {
    grants := {};
    ghost var parsed := ParsedTokens(tokens);
    var i := 0;
    while i < |tokens|
      invariant 0 <= i <= |tokens| && grants == Somes(parsed[..i])
    {
      var g := ParseGrant(tokens[i]);
      SomesNext(parsed, i);
      if g.Some? {
        grants := grants + {g.value};
      }
      i := i + 1;
    }
    assert parsed[..i] == parsed;
  }

  function LowerAll(names: seq<string>): (r: seq<string>)
    ensures |r| == |names| && forall i :: 0 <= i < |names| ==> r[i] == Lower(names[i])
  {
    seq(|names|, i requires 0 <= i < |names| => Lower(names[i]))
  }

  lemma AddedGrants(done: Roles, name: string, cfg: RoleConfig, key: string)
    requires name !in done
    ensures DirectGrants(done[name := cfg], key) ==
      DirectGrants(done, key) + (if Lower(name) == key then GrantsOf(cfg.grants) else {})
  {
    var roles := done[name := cfg];
    forall g | g in DirectGrants(roles, key)
      ensures g in DirectGrants(done, key) || (Lower(name) == key && g in GrantsOf(cfg.grants))
    {
      var n, i := GrantElim(roles, key, g);
      if n != name {
        GrantIntro(done, n, i);
      } else {
        GrantsOfMember(cfg.grants, g);
      }
    }
    forall g | g in DirectGrants(done, key) ensures g in DirectGrants(roles, key) {
      var n, i := GrantElim(done, key, g);
      GrantIntro(roles, n, i);
    }
    forall g | Lower(name) == key && g in GrantsOf(cfg.grants) ensures g in DirectGrants(roles, key) {
      GrantsOfMember(cfg.grants, g);
      var i :| 0 <= i < |cfg.grants| && ParseGrant(cfg.grants[i]) == Some(g);
      GrantIntro(roles, name, i);
    }
  }

  lemma AddedEdges(done: Roles, name: string, cfg: RoleConfig, a: string, b: string)
    requires name !in done
    ensures (a, b) in GraphOf(done[name := cfg]).edges <==>
      (a, b) in GraphOf(done).edges || (a == Lower(name) && b in LowerAll(cfg.parents))
  {
    var roles := done[name := cfg];
    if (a, b) in GraphOf(roles).edges {
      var n, i := EdgeElim(roles, a, b);
      if n != name {
        EdgeIntro(done, n, i);
      } else {
        assert LowerAll(cfg.parents)[i] == b;
      }
    }
    if (a, b) in GraphOf(done).edges {
      var n, i := EdgeElim(done, a, b);
      EdgeIntro(roles, n, i);
    }
    if a == Lower(name) && b in LowerAll(cfg.parents) {
      var i :| 0 <= i < |cfg.parents| && LowerAll(cfg.parents)[i] == b;
      EdgeIntro(roles, name, i);
    }
  }

  /** The two maps hold exactly the graph of the configuration. */
  ghost predicate Collected(direct: map<string, set<Grant>>, parents: map<string, seq<string>>, roles: Roles) {
    && direct.Keys == parents.Keys == Declared(roles)
    && (forall key :: key in direct ==> direct[key] == DirectGrants(roles, key))
    && (forall a, b :: (a, b) in GraphOf(roles).edges <==> a in parents && b in parents[a])
  }

  lemma AddedName(done: Roles, name: string, cfg: RoleConfig)
    ensures Declared(done[name := cfg]) == Declared(done) + {Lower(name)}
  {
    assert forall n :: n in done[name := cfg] <==> n in done || n == name;
  }

  lemma CollectedNext(direct: map<string, set<Grant>>, parents: map<string, seq<string>>, done: Roles, name: string,
                      cfg: RoleConfig)
    requires Collected(direct, parents, done) && name !in done
    ensures
      var key := Lower(name);
      Collected(direct[key := (if key in direct then direct[key] else {}) + GrantsOf(cfg.grants)],
                parents[key := (if key in parents then parents[key] else []) + LowerAll(cfg.parents)],
                done[name := cfg])
  {
    var key := Lower(name);
    var roles := done[name := cfg];
    AddedName(done, name, cfg);
    forall k | k in Declared(roles)
      ensures DirectGrants(roles, k) == DirectGrants(done, k) + (if key == k then GrantsOf(cfg.grants) else {})
    {
      AddedGrants(done, name, cfg, k);
    }
    forall a, b
      ensures (a, b) in GraphOf(roles).edges <==>
        (a, b) in GraphOf(done).edges || (a == key && b in LowerAll(cfg.parents))
    {
      AddedEdges(done, name, cfg, a, b);
    }
  }

  /** Step 1 of `build`: fold role names to lower case, parse the tokens, keep the `extends` lists. */
  method Collect(roles: Roles) returns (direct: map<string, set<Grant>>, parents: map<string, seq<string>>)
    ensures Collected(direct, parents, roles)
  {
    direct, parents := map[], map[];
    var todo := roles.Keys;
    ghost var done: Roles := map[];
    while todo != {}
      invariant todo <= roles.Keys && done == map name | name in roles && name !in todo :: roles[name]
      invariant Collected(direct, parents, done)
      decreases todo
    {
      var name :| name in todo;
      var key := Lower(name);
      var grants := ParseAll(roles[name].grants);
      CollectedNext(direct, parents, done, name, roles[name]);
      direct := direct[key := (if key in direct then direct[key] else {}) + grants];
      parents := parents[key := (if key in parents then parents[key] else []) + LowerAll(roles[name].parents)];
      done := done[name := roles[name]];
      todo := todo - {name};
    }
    assert done == roles;
  }

  // ---------------------------------------------------------------------------
  // The fixpoint
  // ---------------------------------------------------------------------------

  /** After `k` rounds every role holds exactly what it inherits over at most `k` edges. */
  ghost predicate AtRound(g: Graph<Grant>, effective: map<string, set<Grant>>, k: nat) {
    && effective.Keys == g.direct.Keys
    && forall role, x :: role in effective ==> (x in effective[role] <==> Within(g, role, x, k))
  }

  ghost predicate Adjacent(g: Graph<Grant>, parents: map<string, seq<string>>) {
    && parents.Keys == g.direct.Keys
    && forall a, b :: (a, b) in g.edges <==> a in parents && b in parents[a]
  }

  /** What one role becomes in a round. */
  ghost predicate IsMerge(snapshot: map<string, set<Grant>>, role: string, deps: seq<string>, merged: set<Grant>)
    requires role in snapshot
  {
    forall x :: x in merged <==>
      || x in snapshot[role]
      || exists i :: 0 <= i < |deps| && deps[i] in snapshot && x in snapshot[deps[i]]
  }

  method Merge(snapshot: map<string, set<Grant>>, role: string, deps: seq<string>) returns (merged: set<Grant>)
    requires role in snapshot
    ensures IsMerge(snapshot, role, deps, merged)
  {
    merged := snapshot[role];
    var i := 0;
    while i < |deps|
      invariant 0 <= i <= |deps| && IsMerge(snapshot, role, deps[..i], merged)
    {
      assert deps[..i + 1] == deps[..i] + [deps[i]];
      if deps[i] in snapshot {
        merged := merged + snapshot[deps[i]];
      }
      assert forall k :: 0 <= k < i ==> deps[..i + 1][k] == deps[..i][k];
      i := i + 1;
    }
    assert deps[..i] == deps;
  }

  lemma MergeIsNextRound(g: Graph<Grant>, parents: map<string, seq<string>>, snapshot: map<string, set<Grant>>, k: nat,
                         role: string, merged: set<Grant>, x: Grant)
    requires AtRound(g, snapshot, k) && Adjacent(g, parents) && role in g.direct
    requires IsMerge(snapshot, role, parents[role], merged)
    ensures x in merged <==> Within(g, role, x, k + 1)
  {
    OneMoreEdge(g, role, x, k);
    if d :| d in g.direct && (role, d) in g.edges && Within(g, d, x, k) {
      var i :| 0 <= i < |parents[role]| && parents[role][i] == d;
    }
    if i :| 0 <= i < |parents[role]| && parents[role][i] in snapshot && x in snapshot[parents[role][i]] {
      assert (role, parents[role][i]) in g.edges;
    }
  }

  lemma {:induction false} SameSizeSubset<T>(a: set<T>, b: set<T>)
    requires a <= b && |a| == |b|
    ensures a == b
  {
    assert |b - a| == |b| - |a|;
  }

  /** One round of the loop: every role reads the snapshot; `changed` reports whether any set grew in size. */
  method Round(ghost g: Graph<Grant>, parents: map<string, seq<string>>, snapshot: map<string, set<Grant>>,
               ghost k: nat)
    returns (effective: map<string, set<Grant>>, changed: bool)
    requires AtRound(g, snapshot, k) && Adjacent(g, parents)
    ensures AtRound(g, effective, k + 1)
    ensures !changed ==> effective == snapshot
  {
    effective, changed := snapshot, false;
    var todo := parents.Keys;
    while todo != {}
      invariant todo <= parents.Keys && effective.Keys == snapshot.Keys
      invariant forall role :: role in todo ==> effective[role] == snapshot[role]
      invariant forall role, x :: role in effective && role !in todo ==>
        (x in effective[role] <==> Within(g, role, x, k + 1))
      invariant !changed ==> effective == snapshot
      decreases todo
    {
      var role :| role in todo;
      var merged := Merge(snapshot, role, parents[role]);
      forall x ensures x in merged <==> Within(g, role, x, k + 1) {
        MergeIsNextRound(g, parents, snapshot, k, role, merged, x);
      }
      assert snapshot[role] <= merged;
      if |merged| != |snapshot[role]| {
        effective := effective[role := effective[role] + merged];
        changed := true;
      } else {
        SameSizeSubset(snapshot[role], merged);
      }
      todo := todo - {role};
    }
  }

  lemma UnchangedIsStable(g: Graph<Grant>, effective: map<string, set<Grant>>, k: nat)
    requires AtRound(g, effective, k) && AtRound(g, effective, k + 1)
    ensures StableAt(g, k)
  {
  }

  lemma StableMeansFinal(g: Graph<Grant>, effective: map<string, set<Grant>>, k: nat, m: nat)
    requires AtRound(g, effective, k) && StableAt(g, k) && k <= m
    ensures AtRound(g, effective, m)
  {
    forall role, x | role in effective ensures x in effective[role] <==> Within(g, role, x, m) {
      if Within(g, role, x, m) {
        StableForever(g, role, x, k, m);
      }
      if x in effective[role] {
        WithinMonotone(g, role, x, k, m);
      }
    }
  }

  /** Step 2 of `build`: round after round until nothing grows or the cap is hit. Either way the result is exactly
      what is inherited over at most 10,000 edges. */
  method Fixpoint(ghost g: Graph<Grant>, direct: map<string, set<Grant>>, parents: map<string, seq<string>>)
    returns (effective: map<string, set<Grant>>)
    requires direct == g.direct && Adjacent(g, parents)
    ensures AtRound(g, effective, ROUNDS)
  {
    forall role, x | role in direct ensures x in direct[role] <==> Within(g, role, x, 0) {
      WithinZero(g, role, x);
    }
    effective := direct;
    var changed, guard := true, 0;
    while changed && guard < ROUNDS
      invariant 0 <= guard <= ROUNDS && AtRound(g, effective, guard)
      invariant !changed ==> StableAt(g, guard)
    {
      guard := guard + 1;
      var next;
      next, changed := Round(g, parents, effective, guard - 1);
      if !changed {
        UnchangedIsStable(g, effective, guard - 1);
        StableMeansFinal(g, effective, guard - 1, guard + 1);
        UnchangedIsStable(g, effective, guard);
      }
      effective := next;
    }
    if !changed {
      StableMeansFinal(g, effective, guard, ROUNDS);
    }
  }

  /** `AuthPolicy::build`. */
  method Build(roles: Roles, public: seq<string>) returns (policy: Policy)
    ensures Compiled(policy, roles, public)
  {
    var direct, parents := Collect(roles);
    ghost var g := GraphOf(roles);
    assert direct == g.direct;
    var effective := Fixpoint(g, direct, parents);
    var open: set<string> := {};
    var i := 0;
    while i < |public|
      invariant 0 <= i <= |public| && open == set j | 0 <= j < i :: Lower(public[j])
    {
      open := open + {Lower(public[i])};
      i := i + 1;
    }
    policy := Policy(effective, open);
  }
}
