/** The role policy compiler of src/auth/policy.rs: grant tokens, the `extends` graph, and the round-by-round
    fixpoint with its iteration cap. */
module Policy {
  import opened Prelude
  import opened RoleGraph
  import opened Text

  datatype Verb = Read | Write | Delete

  datatype Grant =
    | All
    | AnyVerb(resource: string)
    | AnyResource(verb: Verb)
    | Exact(resource: string, verb: Verb)

  datatype RoleConfig = RoleConfig(grants: seq<string>, parents: seq<string>)

  type Roles = map<string, RoleConfig>

  datatype Policy = Policy(roleGrants: map<string, set<Grant>>, public: set<string>)

  datatype RouteTarget = RouteTarget(resource: string, verb: Verb)

  /** The iteration cap of the fixpoint loop. */
  const ROUNDS: nat := 10000

  // ---------------------------------------------------------------------------
  // Tokens and routes
  // ---------------------------------------------------------------------------

  function VerbOfMethod(httpMethod: string): Verb {
    if httpMethod in ["GET", "HEAD", "OPTIONS"] then Read
    else if httpMethod == "DELETE" then Delete
    else Write
  }

  function ParseVerb(token: string): Option<Verb> {
    var t := Lower(Trim(token));
    if t in ["read", "get", "r"] then Some(Read)
    else if t in ["write", "post", "put", "patch", "w"] then Some(Write)
    else if t in ["delete", "del", "d"] then Some(Delete)
    else None
  }

  /** `Grant::parse`. A token without a colon keeps its letter case; the others fold it. */
  function ParseGrant(token: string): Option<Grant> {
    var raw := Trim(token);
    if raw == "*" || raw == "*:*" || Lower(raw) == "all" then Some(All)
    else
      var colon := IndexOf(raw, ':');
      if colon == |raw| then Some(AnyVerb(raw))
      else
        var lhs, rhs := Trim(raw[..colon]), Trim(raw[colon + 1..]);
        if rhs == "*" || rhs == "" then Some(if lhs == "*" then All else AnyVerb(Lower(lhs)))
        else match ParseVerb(rhs)
          case None => None
          case Some(v) => Some(if lhs == "*" then AnyResource(v) else Exact(Lower(lhs), v))
  }

  predicate Matches(g: Grant, resource: string, verb: Verb) {
    match g
    case All => true
    case AnyVerb(r) => r == resource
    case AnyResource(v) => v == verb
    case Exact(r, v) => r == resource && v == verb
  }

  /** The grant token covers the request. */
  predicate Covers(token: string, resource: string, verb: Verb) {
    var g := ParseGrant(token);
    g.Some? && Matches(g.value, resource, verb)
  }

  predicate IsSlash(c: char) {
    c == '/'
  }

  function ResourceForPath(path: string): Option<string> {
    var rest := TrimStart(path, IsSlash);
    var segment := rest[..IndexOf(rest, '/')];
    if segment == "" then None else Some(Lower(segment))
  }

  function RouteTargetOf(path: string, httpMethod: string): Option<RouteTarget> {
    match ResourceForPath(path)
    case None => None
    case Some(resource) => Some(RouteTarget(resource, VerbOfMethod(httpMethod)))
  }

  /** A token without a colon, other than the wildcards, covers exactly the resource spelled as it is. */
  lemma BareTokenIsLiteral(token: string, resource: string, verb: Verb)
    requires ':' !in Trim(token) && Trim(token) != "*" && Lower(Trim(token)) != "all"
    ensures Covers(token, resource, verb) <==> resource == Trim(token)
  {
    assert IndexOf(Trim(token), ':') == |Trim(token)|;
  }

  /** The three spellings of everything cover every request. */
  lemma WildcardCovers(token: string, resource: string, verb: Verb)
    requires Trim(token) == "*" || Trim(token) == "*:*" || Lower(Trim(token)) == "all"
    ensures Covers(token, resource, verb)
  {
  }

  /** The right side of a token: blank or a star is every verb, else one of the verb's names in any letter case. */
  ghost predicate Spells(right: string, verb: Verb) {
    || right == "" || right == "*"
    || match verb
       case Read => Lower(right) in ["read", "get", "r"]
       case Write => Lower(right) in ["write", "post", "put", "patch", "w"]
       case Delete => Lower(right) in ["delete", "del", "d"]
  }

  /** The left side: a star is every resource, else the resource in any letter case. */
  ghost predicate NamesResource(left: string, resource: string) {
    left == "*" || Lower(left) == resource
  }

  lemma SplitAtColon(left: string, right: string)
    requires ':' !in left
    ensures IndexOf(left + ":" + right, ':') == |left|
    ensures (left + ":" + right)[..|left|] == left && (left + ":" + right)[|left| + 1..] == right
  {
    var raw := left + ":" + right;
    assert raw[|left|] == ':';
    assert forall k :: 0 <= k < |left| ==> raw[k] == left[k];
    assert forall n :: |left| < n <= |raw| ==> raw[..n][|left|] == ':';
  }

  lemma VerbIsSpelled(right: string)
    requires right != "" && right != "*" && Trim(right) == right
    ensures forall verb :: ParseVerb(right) == Some(verb) <==> Spells(right, verb)
  {
  }

  lemma ColonIsNoLetter(left: string, right: string)
    ensures Lower(left + ":" + right) != "all" && left + ":" + right != "*"
  {
    var raw := left + ":" + right;
    assert raw[|left|] == ':' && Lower(raw)[|left|] == ':';
  }

  /** A token with a colon covers a resource and a verb if and only if its left side names the one and its right side
      spells the other; a right side that spells no verb covers nothing. */
  lemma ColonTokenCovers(token: string, left: string, right: string, resource: string, verb: Verb)
    requires Trim(token) == left + ":" + right && ':' !in left
    ensures Covers(token, resource, verb) <==> NamesResource(Trim(left), resource) && Spells(Trim(right), verb)
  {
    SplitAtColon(left, right);
    ColonIsNoLetter(left, right);
    TrimTwice(right);
    if Trim(token) == "*:*" {
      StarColonStar(left, right);
    } else if Trim(right) != "" && Trim(right) != "*" {
      VerbIsSpelled(Trim(right));
    }
  }

  lemma StarColonStar(left: string, right: string)
    requires left + ":" + right == "*:*" && ':' !in left
    ensures left == "*" && right == "*" && Trim(left) == "*" && Trim(right) == "*"
  {
    SplitAtColon(left, right);
    SplitAtColon("*", "*");
    assert "*" + ":" + "*" == "*:*";
    TrimKeeps("*", IsSpace);
  }

  /** The plain spelling of the same: both sides trimmed and no blank around the colon. */
  lemma PlainTokenCovers(left: string, right: string, resource: string, verb: Verb)
    requires Trim(left) == left && Trim(right) == right && ':' !in left
    ensures Covers(left + ":" + right, resource, verb) <==> NamesResource(left, resource) && Spells(right, verb)
  {
    var token := left + ":" + right;
    TrimTwice(left);
    TrimTwice(right);
    TrimKeeps(token, IsSpace);
    ColonTokenCovers(token, left, right, resource, verb);
  }

  /** The method table: three methods read, one deletes, and every other one, known or not, writes. */
  lemma MethodTable(httpMethod: string)
    ensures VerbOfMethod(httpMethod) == Read <==> httpMethod == "GET" || httpMethod == "HEAD" || httpMethod == "OPTIONS"
    ensures VerbOfMethod(httpMethod) == Delete <==> httpMethod == "DELETE"
  {
  }

  function Slashes(n: nat): string {
    seq(n, i => '/')
  }

  /** The resource of a path is its first segment in lower case, whatever the number of leading slashes; a path of
      slashes only, or the empty one, has none. */
  lemma ResourceIsFirstSegment(path: string, httpMethod: string) returns (n: nat, segment: string, rest: string)
    ensures path == Slashes(n) + segment + rest && '/' !in segment
    ensures rest == "" || (segment != "" && rest[0] == '/')
    ensures RouteTargetOf(path, httpMethod) ==
      if segment == "" then None else Some(RouteTarget(Lower(segment), VerbOfMethod(httpMethod)))
  {
    n := TrimStartDrops(path, IsSlash);
    var tail := path[n..];
    var i := IndexOf(tail, '/');
    segment, rest := tail[..i], tail[i..];
    assert path[..n] == Slashes(n);
    assert path == path[..n] + tail && tail == segment + rest;
  }

  /** The token can cover a request with the verb: a spelling of everything, a bare resource, or a right side that is a
      wildcard or spells it. */
  ghost predicate Touches(token: string, verb: Verb) {
    var raw := Trim(token);
    || Lower(raw) == "all" || ':' !in raw
    || exists left, right :: raw == left + ":" + right && ':' !in left && Spells(Trim(right), verb)
  }

  lemma UntouchedCoversNothing(token: string, resource: string, verb: Verb)
    requires !Touches(token, verb)
    ensures !Covers(token, resource, verb)
  {
    var raw := Trim(token);
    var i := IndexOf(raw, ':');
    if i < |raw| {
      var left, right := raw[..i], raw[i + 1..];
      assert raw == left + ":" + right;
      ColonTokenCovers(token, left, right, resource, verb);
    }
  }

  /** The resources requests can have: lower-case, not empty, one path segment. */
  lemma RequestResources(path: string)
    ensures match ResourceForPath(path)
      case None => true
      case Some(resource) => resource != "" && Lower(resource) == resource && '/' !in resource
  {
    var rest := TrimStart(path, IsSlash);
    LowerTwice(rest[..IndexOf(rest, '/')]);
  }

  lemma ResourceOfItsPath(resource: string)
    requires resource != "" && Lower(resource) == resource && '/' !in resource
    ensures ResourceForPath("/" + resource) == Some(resource)
  {
    var path := "/" + resource;
    assert path[1..] == resource;
    assert TrimStart(path, IsSlash) == resource;
    assert IndexOf(resource, '/') == |resource|;
    assert resource[..|resource|] == resource;
  }

  /** The token covers the request. */
  predicate CoversRequest(token: string, path: string, httpMethod: string) {
    var target := RouteTargetOf(path, httpMethod);
    target.Some? && Covers(token, target.value.resource, target.value.verb)
  }

  /** Request resources are folded to lower case and such a token is not, so it covers some request of a given method
      exactly when it has no upper-case letter, is not empty and is a single path segment. */
  lemma BareTokenIsNotFolded(token: string, httpMethod: string)
    requires ':' !in Trim(token) && Trim(token) != "*" && Lower(Trim(token)) != "all"
    ensures (exists path :: CoversRequest(token, path, httpMethod)) <==>
      Lower(Trim(token)) == Trim(token) && Trim(token) != "" && '/' !in Trim(token)
  {
    var raw, verb := Trim(token), VerbOfMethod(httpMethod);
    if path :| CoversRequest(token, path, httpMethod) {
      BareTokenIsLiteral(token, ResourceForPath(path).value, verb);
      RequestResources(path);
    }
    if Lower(raw) == raw && raw != "" && '/' !in raw {
      ResourceOfItsPath(raw);
      BareTokenIsLiteral(token, raw, verb);
      assert CoversRequest(token, "/" + raw, httpMethod);
    }
  }

  // ---------------------------------------------------------------------------
  // The `extends` graph of a configuration
  // ---------------------------------------------------------------------------

  /** Role names are compared in lower case, so two spellings of one name share a node. */
  function Declared(roles: Roles): set<string> {
    set name | name in roles :: Lower(name)
  }

  ghost function DirectGrants(roles: Roles, key: string): set<Grant> {
    set name, i | name in roles && Lower(name) == key && 0 <= i < |roles[name].grants|
                  && ParseGrant(roles[name].grants[i]).Some? :: ParseGrant(roles[name].grants[i]).value
  }

  ghost function GraphOf(roles: Roles): Graph<Grant> {
    Graph(map key | key in Declared(roles) :: DirectGrants(roles, key),
          set name, i | name in roles && 0 <= i < |roles[name].parents| :: (Lower(name), Lower(roles[name].parents[i])))
  }

  lemma EdgeIntro(roles: Roles, name: string, i: nat)
    requires name in roles && i < |roles[name].parents|
    ensures (Lower(name), Lower(roles[name].parents[i])) in GraphOf(roles).edges
  {
  }

  lemma EdgeElim(roles: Roles, a: string, b: string) returns (name: string, i: nat)
    requires (a, b) in GraphOf(roles).edges
    ensures name in roles && i < |roles[name].parents| && a == Lower(name) && b == Lower(roles[name].parents[i])
  {
    name, i :|
      && name in roles && 0 <= i < |roles[name].parents|
      && (a, b) == (Lower(name), Lower(roles[name].parents[i]));
  }

  lemma GrantIntro(roles: Roles, name: string, i: nat)
    requires name in roles && i < |roles[name].grants| && ParseGrant(roles[name].grants[i]).Some?
    ensures ParseGrant(roles[name].grants[i]).value in DirectGrants(roles, Lower(name))
  {
  }

  lemma GrantElim(roles: Roles, key: string, g: Grant) returns (name: string, i: nat)
    requires g in DirectGrants(roles, key)
    ensures name in roles && Lower(name) == key
    ensures i < |roles[name].grants| && ParseGrant(roles[name].grants[i]) == Some(g)
  {
    name, i :| name in roles && Lower(name) == key && 0 <= i < |roles[name].grants|
      && ParseGrant(roles[name].grants[i]).Some? && g == ParseGrant(roles[name].grants[i]).value;
  }

  /** The table the compiler must produce: everything inherited over at most 10,000 edges. */
  ghost predicate Compiled(policy: Policy, roles: Roles, public: seq<string>) {
    && policy.public == (set i | 0 <= i < |public| :: Lower(public[i]))
    && policy.roleGrants.Keys == Declared(roles)
    && forall role, g :: role in policy.roleGrants ==>
         (g in policy.roleGrants[role] <==> Within(GraphOf(roles), role, g, ROUNDS))
  }

  // ---------------------------------------------------------------------------
  // What the cap costs
  // ---------------------------------------------------------------------------

  lemma {:induction false} ImageNoLarger(names: set<string>)
    ensures |set name | name in names :: Lower(name)| <= |names|
  {
    if names != {} {
      var n :| n in names;
      var rest := names - {n};
      ImageNoLarger(rest);
      assert (set name | name in names :: Lower(name)) == (set name | name in rest :: Lower(name)) + {Lower(n)};
    }
  }

  /** The cap of 10,000 rounds loses nothing for up to 10,001 configured roles, whatever the graph. */
  lemma CapCompleteUpTo10001(roles: Roles, role: string, g: Grant)
    requires |roles| <= 10_001
    ensures Within(GraphOf(roles), role, g, ROUNDS) <==> Inherits(GraphOf(roles), role, g)
  {
    ImageNoLarger(roles.Keys);
    assert GraphOf(roles).direct.Keys == Declared(roles);
    assert Declared(roles) == set name | name in roles.Keys :: Lower(name);
    ShortPathsSuffice(GraphOf(roles), role, g, ROUNDS);
  }

  /** For any number of roles: the capped table is the full one exactly when one more round would add nothing. */
  lemma CapIsExact(roles: Roles)
    ensures (forall role, g :: Inherits(GraphOf(roles), role, g) ==> Within(GraphOf(roles), role, g, ROUNDS))
       <==> StableAt(GraphOf(roles), ROUNDS)
  {
    RoundsSufficeExactly(GraphOf(roles), ROUNDS);
  }

  function ChainNames(n: nat): (names: set<string>)
    ensures forall s :: s in names <==> |s| < n && s == Name(|s|)
    ensures |names| == n
  {
    if n == 0 then {} else ChainNames(n - 1) + {Name(n - 1)}
  }

  /** Each role extends the next; only the last has a grant. */
  function ChainRoles(n: nat): Roles {
    map s | s in ChainNames(n) :: RoleConfig(if |s| + 1 == n then ["*"] else [], if |s| + 1 < n then [s + "a"] else [])
  }

  lemma ChainIsLower(n: nat, s: string)
    requires s in ChainNames(n)
    ensures Lower(s) == s && Lower(s + "a") == s + "a"
  {
    assert s == Name(|s|);
  }

  lemma ChainNodes(n: nat)
    ensures Declared(ChainRoles(n)) == ChainNames(n)
  {
    forall s | s in ChainNames(n) ensures Lower(s) == s {
      ChainIsLower(n, s);
    }
  }

  lemma StarIsAll()
    ensures ParseGrant("*") == Some(All)
  {
  }

  lemma ChainGrant(n: nat, s: string)
    requires s in ChainNames(n)
    ensures All in DirectGrants(ChainRoles(n), s) <==> |s| + 1 == n
  {
    var roles := ChainRoles(n);
    ChainIsLower(n, s);
    if |s| + 1 == n {
      StarIsAll();
      GrantIntro(roles, s, 0);
    } else if All in DirectGrants(roles, s) {
      var name, i := GrantElim(roles, s, All);
    }
  }

  lemma ChainEdge(n: nat, s: string)
    requires s in ChainNames(n) && |s| + 1 < n
    ensures (s, s + "a") in GraphOf(ChainRoles(n)).edges
  {
    ChainIsLower(n, s);
    EdgeIntro(ChainRoles(n), s, 0);
  }

  lemma ChainEdgeLength(n: nat, s: string, t: string)
    requires (s, t) in GraphOf(ChainRoles(n)).edges
    ensures |t| == |s| + 1
  {
    var name, i := EdgeElim(ChainRoles(n), s, t);
  }

  lemma ChainEdges(n: nat)
    ensures forall s :: s in ChainNames(n) && |s| + 1 < n ==> (s, s + "a") in GraphOf(ChainRoles(n)).edges
    ensures forall s, t :: (s, t) in GraphOf(ChainRoles(n)).edges ==> |t| == |s| + 1
  {
    forall s | s in ChainNames(n) && |s| + 1 < n ensures (s, s + "a") in GraphOf(ChainRoles(n)).edges {
      ChainEdge(n, s);
    }
    forall s, t | (s, t) in GraphOf(ChainRoles(n)).edges ensures |t| == |s| + 1 {
      ChainEdgeLength(n, s, t);
    }
  }

  lemma ChainRolesFormChain(n: nat)
    ensures IsChain(GraphOf(ChainRoles(n)), n, All)
  {
    ChainNodes(n);
    ChainEdges(n);
    forall s | s in ChainNames(n) ensures All in DirectGrants(ChainRoles(n), s) <==> |s| + 1 == n {
      ChainGrant(n, s);
    }
  }

  /** And no more: in a chain of `n` roles the first inherits the grant of the last, and the capped loop finds it
      exactly when `n` is at most 10,001. */
  lemma CapIsTight(n: nat)
    requires n > 0
    ensures |ChainRoles(n)| == n
    ensures Inherits(GraphOf(ChainRoles(n)), Name(0), All)
    ensures Within(GraphOf(ChainRoles(n)), Name(0), All, ROUNDS) <==> n <= 10_001
  {
    assert ChainRoles(n).Keys == ChainNames(n);
    ChainRolesFormChain(n);
    ChainReach(GraphOf(ChainRoles(n)), n, All, ROUNDS);
  }
}
