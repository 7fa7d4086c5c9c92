/** The authorization decision of src/auth/mod.rs, with token verification as an oracle. */
module Auth {
  import opened Prelude
  import opened Text
  import opened RoleGraph
  import opened Policy
  import PolicyCompiler

  datatype Claims = Claims(subject: Option<string>, roles: seq<string>)

  datatype Verification = Verified(claims: Claims) | SourceUnavailable | Rejected

  datatype Decision = Continue(principal: Option<Claims>) | Unauthenticated | Forbidden

  datatype Request = Request(path: string, httpMethod: string, bearer: Option<string>)

  datatype Service = Service(enabled: bool, policy: Policy, failClosed: bool)

  /** What `allows` decides, read off the compiled table. */
  predicate Allowed(policy: Policy, roles: seq<string>, target: RouteTarget) {
    var resource := Lower(target.resource);
    || resource in policy.public
    || exists i, g ::
         && 0 <= i < |roles| && Lower(roles[i]) in policy.roleGrants
         && g in policy.roleGrants[Lower(roles[i])] && Matches(g, resource, target.verb)
  }

  /** `AuthPolicy::allows`. */
  method Allows(policy: Policy, roles: seq<string>, target: RouteTarget) returns (ok: bool)
    ensures ok == Allowed(policy, roles, target)
    ensures ok <==>
      || Lower(target.resource) in policy.public
      || exists i, g ::
           && 0 <= i < |roles| && Lower(roles[i]) in policy.roleGrants && g in policy.roleGrants[Lower(roles[i])]
           && Matches(g, Lower(target.resource), target.verb)
  {
    var resource := Lower(target.resource);
    if resource in policy.public {
      return true;
    }
    var i := 0;
    while i < |roles|
      invariant 0 <= i <= |roles|
      invariant forall j, g ::
        0 <= j < i && Lower(roles[j]) in policy.roleGrants && g in policy.roleGrants[Lower(roles[j])] ==>
          !Matches(g, resource, target.verb)
    {
      var key := Lower(roles[i]);
      if key in policy.roleGrants && exists g :: g in policy.roleGrants[key] && Matches(g, resource, target.verb) {
        return true;
      }
      i := i + 1;
    }
    return false;
  }

  /** `AuthService::enforce`; `outcome` is what `verify` would say of the request's token. */
  method Enforce(svc: Service, req: Request, outcome: Verification) returns (d: Decision)
    ensures !svc.enabled ==> d == Continue(None)
    ensures svc.enabled ==> match RouteTargetOf(req.path, req.httpMethod)
      case None => d == Continue(None)
      case Some(target) =>
        if Lower(target.resource) in svc.policy.public then d == Continue(None)
        else if req.bearer.None? then d == Unauthenticated
        else match outcome
          case Verified(claims) =>
            d == if Allowed(svc.policy, claims.roles, target) then Continue(Some(claims)) else Forbidden
          case SourceUnavailable => d == if svc.failClosed then Unauthenticated else Continue(None)
          case Rejected => d == Unauthenticated
  {
    if !svc.enabled {
      return Continue(None);
    }
    var target := RouteTargetOf(req.path, req.httpMethod);
    if target.None? {
      return Continue(None);
    }
    if Lower(target.value.resource) in svc.policy.public {
      return Continue(None);
    }
    if req.bearer.None? {
      return Unauthenticated;
    }
    match outcome {
      case Verified(claims) =>
        var ok := Allows(svc.policy, claims.roles, target.value);
        d := if ok then Continue(Some(claims)) else Forbidden;
      case SourceUnavailable =>
        d := if svc.failClosed then Unauthenticated else Continue(None);
      case Rejected =>
        d := Unauthenticated;
    }
  }

  // ---------------------------------------------------------------------------
  // The decision is reachability in the configuration
  // ---------------------------------------------------------------------------

  /** One of the claimed roles reaches, through `extends`, a role configured with a token that covers the request. */
  ghost predicate Entitled(roles: Roles, claimed: seq<string>, resource: string, verb: Verb) {
    exists c, p, name, i ::
      && 0 <= c < |claimed|
      && IsPath(GraphOf(roles), p) && p[0] == Lower(claimed[c])
      && name in roles && Lower(name) == p[|p| - 1]
      && 0 <= i < |roles[name].grants| && Covers(roles[name].grants[i], resource, verb)
  }

  lemma EntitledHasGrant(roles: Roles, claimed: seq<string>, resource: string, verb: Verb) returns (c: nat, g: Grant)
    requires Entitled(roles, claimed, resource, verb)
    ensures c < |claimed| && Inherits(GraphOf(roles), Lower(claimed[c]), g) && Matches(g, resource, verb)
    ensures Lower(claimed[c]) in Declared(roles)
  {
    var c', p, name, i :|
      && 0 <= c' < |claimed|
      && IsPath(GraphOf(roles), p) && p[0] == Lower(claimed[c'])
      && name in roles && Lower(name) == p[|p| - 1]
      && 0 <= i < |roles[name].grants| && Covers(roles[name].grants[i], resource, verb);
    GrantIntro(roles, name, i);
    c, g := c', ParseGrant(roles[name].grants[i]).value;
    assert Witnesses(GraphOf(roles), p, Lower(claimed[c]), g);
  }

  lemma GrantEntitles(roles: Roles, claimed: seq<string>, c: nat, g: Grant, resource: string, verb: Verb)
    requires c < |claimed| && Inherits(GraphOf(roles), Lower(claimed[c]), g) && Matches(g, resource, verb)
    ensures Entitled(roles, claimed, resource, verb)
  {
    var p :| Witnesses(GraphOf(roles), p, Lower(claimed[c]), g);
    var name, i := GrantElim(roles, p[|p| - 1], g);
    assert Covers(roles[name].grants[i], resource, verb);
  }

  /** With any number of roles, the cap never grants too much. */
  lemma AllowedImpliesEntitled(policy: Policy, roles: Roles, public: seq<string>, claimed: seq<string>,
                               target: RouteTarget)
    requires Compiled(policy, roles, public)
    requires Lower(target.resource) !in policy.public && Allowed(policy, claimed, target)
    ensures Entitled(roles, claimed, Lower(target.resource), target.verb)
  {
    var resource := Lower(target.resource);
    var c, g :|
      && 0 <= c < |claimed| && Lower(claimed[c]) in policy.roleGrants
      && g in policy.roleGrants[Lower(claimed[c])] && Matches(g, resource, target.verb);
    assert Within(GraphOf(roles), Lower(claimed[c]), g, ROUNDS);
    GrantEntitles(roles, claimed, c, g, resource, target.verb);
  }

  /** A compiled policy allows a non-public target exactly when the configuration entitles one of the roles. */
  lemma AllowedIsEntitled(policy: Policy, roles: Roles, public: seq<string>, claimed: seq<string>, target: RouteTarget)
    requires Compiled(policy, roles, public) && |roles| <= 10_001
    requires Lower(target.resource) !in policy.public
    ensures Allowed(policy, claimed, target) <==> Entitled(roles, claimed, Lower(target.resource), target.verb)
  {
    var resource := Lower(target.resource);
    if Allowed(policy, claimed, target) {
      AllowedImpliesEntitled(policy, roles, public, claimed, target);
    }
    if Entitled(roles, claimed, resource, target.verb) {
      var c, g := EntitledHasGrant(roles, claimed, resource, target.verb);
      CapCompleteUpTo10001(roles, Lower(claimed[c]), g);
      assert g in policy.roleGrants[Lower(claimed[c])];
    }
  }

  /** A role's own token that names the resource and spells the verb entitles whoever claims the role, in any letter
      case. */
  lemma OwnTokenEntitles(roles: Roles, claimed: seq<string>, c: nat, name: string, i: nat, left: string, right: string,
                         resource: string, verb: Verb)
    requires c < |claimed| && name in roles && Lower(name) == Lower(claimed[c]) && i < |roles[name].grants|
    requires Trim(roles[name].grants[i]) == left + ":" + right && ':' !in left
    requires NamesResource(Trim(left), resource) && Spells(Trim(right), verb)
    ensures Entitled(roles, claimed, resource, verb)
  {
    ColonTokenCovers(roles[name].grants[i], left, right, resource, verb);
    var p := [Lower(name)];
    assert IsPath(GraphOf(roles), p) && p[0] == Lower(claimed[c]) && Lower(name) == p[|p| - 1];
  }

  /** No token of the configuration can cover the verb. */
  ghost predicate NoTokenTouches(roles: Roles, verb: Verb) {
    forall name, i :: name in roles && 0 <= i < |roles[name].grants| ==> !Touches(roles[name].grants[i], verb)
  }

  lemma UntouchedIsForbidden(roles: Roles, claimed: seq<string>, resource: string, verb: Verb)
    requires NoTokenTouches(roles, verb)
    ensures !Entitled(roles, claimed, resource, verb)
  {
    forall name, i | name in roles && 0 <= i < |roles[name].grants|
      ensures !Covers(roles[name].grants[i], resource, verb)
    {
      UntouchedCoversNothing(roles[name].grants[i], resource, verb);
    }
  }

  /** Build then enforce, for every request: one that names no resource or a public one goes on; else a token is needed,
      and with a verified one it goes on exactly when one of its roles reaches a role with a covering token, and is
      forbidden otherwise. If no token of the configuration touches the verb, every such request is forbidden. */
  method BuildAndEnforce(roles: Roles, public: seq<string>, failClosed: bool, req: Request, outcome: Verification)
    returns (d: Decision)
    requires |roles| <= 10_001
    ensures match RouteTargetOf(req.path, req.httpMethod)
      case None => d == Continue(None)
      case Some(target) =>
        if exists i :: 0 <= i < |public| && Lower(public[i]) == target.resource then d == Continue(None)
        else if req.bearer.None? then d == Unauthenticated
        else match outcome
          case Verified(claims) =>
            && (Entitled(roles, claims.roles, target.resource, target.verb) ==> d == Continue(Some(claims)))
            && (!Entitled(roles, claims.roles, target.resource, target.verb) ==> d == Forbidden)
            && (NoTokenTouches(roles, target.verb) ==> d == Forbidden)
          case SourceUnavailable => d == if failClosed then Unauthenticated else Continue(None)
          case Rejected => d == Unauthenticated
  {
    var policy := PolicyCompiler.Build(roles, public);
    d := Enforce(Service(true, policy, failClosed), req, outcome);
    var target := RouteTargetOf(req.path, req.httpMethod);
    if target.Some? {
      TargetIsLower(req.path, req.httpMethod);
      if outcome.Verified? && target.value.resource !in policy.public {
        AllowedIsEntitled(policy, roles, public, outcome.claims.roles, target.value);
        if NoTokenTouches(roles, target.value.verb) {
          UntouchedIsForbidden(roles, outcome.claims.roles, target.value.resource, target.value.verb);
        }
      }
    }
  }

  lemma TargetIsLower(path: string, httpMethod: string)
    requires RouteTargetOf(path, httpMethod).Some?
    ensures Lower(RouteTargetOf(path, httpMethod).value.resource) == RouteTargetOf(path, httpMethod).value.resource
  {
    RequestResources(path);
  }

  // ---------------------------------------------------------------------------
  // Monotonicity
  // ---------------------------------------------------------------------------

  /** `bigger` has every role of `smaller`, with at least its tokens and its `extends` entries. */
  ghost predicate Adds(smaller: Roles, bigger: Roles) {
    forall name :: name in smaller ==>
      && name in bigger
      && (forall i :: 0 <= i < |smaller[name].grants| ==> smaller[name].grants[i] in bigger[name].grants)
      && (forall i :: 0 <= i < |smaller[name].parents| ==> smaller[name].parents[i] in bigger[name].parents)
  }

  lemma AddsGrants(smaller: Roles, bigger: Roles, key: string, g: Grant)
    requires Adds(smaller, bigger) && g in DirectGrants(smaller, key)
    ensures g in DirectGrants(bigger, key)
  {
    var name, i := GrantElim(smaller, key, g);
    var j :| 0 <= j < |bigger[name].grants| && bigger[name].grants[j] == smaller[name].grants[i];
    GrantIntro(bigger, name, j);
  }

  lemma AddsEdges(smaller: Roles, bigger: Roles, a: string, b: string)
    requires Adds(smaller, bigger) && (a, b) in GraphOf(smaller).edges
    ensures (a, b) in GraphOf(bigger).edges
  {
    var name, i := EdgeElim(smaller, a, b);
    var j :| 0 <= j < |bigger[name].parents| && bigger[name].parents[j] == smaller[name].parents[i];
    EdgeIntro(bigger, name, j);
  }

  lemma AddsContains(smaller: Roles, bigger: Roles)
    requires Adds(smaller, bigger)
    ensures Contains(GraphOf(bigger), GraphOf(smaller))
  {
    forall role | role in Declared(smaller)
      ensures role in Declared(bigger) && DirectGrants(smaller, role) <= DirectGrants(bigger, role)
    {
      forall g | g in DirectGrants(smaller, role) ensures g in DirectGrants(bigger, role) {
        AddsGrants(smaller, bigger, role, g);
      }
    }
    forall a, b | (a, b) in GraphOf(smaller).edges ensures (a, b) in GraphOf(bigger).edges {
      AddsEdges(smaller, bigger, a, b);
    }
  }

  /** Adding roles, tokens, `extends` entries or public resources never turns an allow into a deny, with any number
      of roles. */
  lemma AddingNeverDenies(p: Policy, q: Policy, smaller: Roles, bigger: Roles, public: seq<string>, more: seq<string>,
                          claimed: seq<string>, target: RouteTarget)
    requires Compiled(p, smaller, public) && Compiled(q, bigger, public + more) && Adds(smaller, bigger)
    requires Allowed(p, claimed, target)
    ensures Allowed(q, claimed, target)
  {
    var resource := Lower(target.resource);
    if resource in p.public {
      var i :| 0 <= i < |public| && Lower(public[i]) == resource;
      assert (public + more)[i] == public[i];
    } else {
      var c, g :| 0 <= c < |claimed| && Lower(claimed[c]) in p.roleGrants && g in p.roleGrants[Lower(claimed[c])]
                  && Matches(g, resource, target.verb);
      AddsContains(smaller, bigger);
      assert Within(GraphOf(smaller), Lower(claimed[c]), g, ROUNDS);
      WithinGrows(GraphOf(smaller), GraphOf(bigger), Lower(claimed[c]), g, ROUNDS);
      assert Lower(claimed[c]) in GraphOf(bigger).direct;
      assert g in q.roleGrants[Lower(claimed[c])];
    }
  }
}
