/** Run-time evaluation: which roles allow a call, and which data-scope rules a caller's roles carry
    (authorization/evaluate.go). */
module Evaluate {
  import opened Text
  import opened Catalog

  datatype Policy = Policy(
    tenantID: string, roleID: string, resource: string, action: string,
    dataScope: int, condition: string, enable: bool, priority: int)

  datatype Rule = Rule(roleID: string, dataScope: int, condition: string, priority: int, source: string)

  datatype Decision = Decision(allow: bool, reason: string, matched: seq<string>)

  const DATA_SCOPE_ALL := 0
  const DATA_SCOPE_TENANT := 1

  predicate ValidPath(path: string) {
    path != "" && path[0] == '/' && forall c :: c in path ==> c !in " \t\r\n?#"
  }

  /** `normalizeRuntimeResource`. */
  function RuntimeResource(path: string, verb: string): Result<(string, string), string> {
    var p, m := Trim(path), Upper(Trim(verb));
    if !ValidPath(p) then Err("authorization resource path is invalid")
    else if !ValidMethod(m) then Err("authorization resource method is invalid")
    else Ok((p, m))
  }

  // ---- roles ---------------------------------------------------------------------------------------------

  /** The roles a caller names, trimmed, blanks and repeats dropped, in order of first mention. */
  function Mentioned(roleIDs: seq<string>): seq<string> {
    if roleIDs == [] then [] else
      var front, id := Mentioned(roleIDs[..|roleIDs| - 1]), Trim(roleIDs[|roleIDs| - 1]);
      if id == "" || id in front then front else front + [id]
  }

  lemma {:induction false} MentionedIsClean(roleIDs: seq<string>)
    ensures Distinct(Mentioned(roleIDs))
    ensures forall id :: id in Mentioned(roleIDs) <==> id in CleanSet(roleIDs)
  {
    if roleIDs != [] {
      var front := roleIDs[..|roleIDs| - 1];
      MentionedIsClean(front);
      assert roleIDs == front + [roleIDs[|roleIDs| - 1]];
    }
  }

  /** The policy engine's verdicts on one path and method, by subject. */
  type Enforcer = string -> Result<bool, string>

  function Allowed(enforce: Enforcer, ids: seq<string>): seq<string> {
    if ids == [] then [] else
      Allowed(enforce, ids[..|ids| - 1]) + if enforce(ids[|ids| - 1]) == Ok(true) then [ids[|ids| - 1]] else []
  }

  ghost predicate Fails(enforce: Enforcer, ids: seq<string>) {
    exists id :: id in ids && enforce(id).Err?
  }

  /** Which verdict each stage gives: the public subject first, the authenticated subject second, and only
      then the caller's roles. A failing query aborts. */
  ghost predicate Decides(enforce: Enforcer, roleIDs: seq<string>, d: Result<Decision, string>) {
    var public, login := enforce("-1"), enforce("0");
    if public.Err? then d.Err?
    else if public.value then d == Ok(Decision(true, "public_policy", []))
    else if login.Err? then d.Err?
    else if login.value then d == Ok(Decision(true, "authenticated_policy", []))
    else if Fails(enforce, Mentioned(roleIDs)) then d.Err?
    else
      var matched := Allowed(enforce, Mentioned(roleIDs));
      d == Ok(if matched != [] then Decision(true, "role_policy", matched) else Decision(false, "no_matching_policy", []))
  }

  /** `EvaluateRoles`; `engine` answers for subject, path and method. */
  method EvaluateRoles(engine: (string, string, string) -> Result<bool, string>, roleIDs: seq<string>, path: string,
                       verb: string)
    returns (d: Result<Decision, string>)
    ensures var resource := RuntimeResource(path, verb);
            if resource.Err? then d == Err(resource.error)
            else Decides((s: string) => engine(s, resource.value.0, resource.value.1), roleIDs, d)
  {
    var resource := RuntimeResource(path, verb);
    if resource.Err? { return Err(resource.error); }
    var (p, m) := resource.value;
    ghost var enforce := (s: string) => engine(s, p, m);
    var allowed := engine("-1", p, m);
    if allowed.Err? { return Err(allowed.error); }
    if allowed.value { return Ok(Decision(true, "public_policy", [])); }
    allowed := engine("0", p, m);
    if allowed.Err? { return Err(allowed.error); }
    if allowed.value { return Ok(Decision(true, "authenticated_policy", [])); }

    var matched: seq<string> := [];
    var seen: set<string> := {};
    hide Mentioned, Allowed, Fails;
    NobodyMentioned(enforce);
    assert roleIDs[..0] == [];
    for i := 0 to |roleIDs|
      invariant forall id :: id in seen <==> id in Mentioned(roleIDs[..i])
      invariant matched == Allowed(enforce, Mentioned(roleIDs[..i]))
      invariant !Fails(enforce, Mentioned(roleIDs[..i]))
    {
      RoleStep(enforce, roleIDs, i);
      var id := Trim(roleIDs[i]);
      if id == "" { continue; }
      if id in seen { continue; }
      seen := seen + {id};
      allowed := engine(id, p, m);
      assert allowed == enforce(id);
      if allowed.Err? { return Err(allowed.error); }
      if allowed.value { matched := matched + [id]; }
    }
    assert roleIDs[..|roleIDs|] == roleIDs;
    if matched != [] { return Ok(Decision(true, "role_policy", matched)); }
    return Ok(Decision(false, "no_matching_policy", []));
  }

  lemma NobodyMentioned(enforce: Enforcer)
    ensures Mentioned([]) == [] && Allowed(enforce, []) == [] && !Fails(enforce, [])
  {
  }

  /** One more role ID: a blank or repeated one changes nothing, a new one adds its verdict. */
  lemma RoleStep(enforce: Enforcer, roleIDs: seq<string>, i: nat)
    requires i < |roleIDs|
    ensures var before, after, id := Mentioned(roleIDs[..i]), Mentioned(roleIDs[..i + 1]), Trim(roleIDs[i]);
            if id == "" || id in before then after == before else
              && after == before + [id]
              && Allowed(enforce, after) == Allowed(enforce, before) + (if enforce(id) == Ok(true) then [id] else [])
              && (Fails(enforce, after) <==> Fails(enforce, before) || enforce(id).Err?)
              && (enforce(id).Err? ==> Fails(enforce, Mentioned(roleIDs)))
  {
    var before, after, id := Mentioned(roleIDs[..i]), Mentioned(roleIDs[..i + 1]), Trim(roleIDs[i]);
    assert roleIDs[..i + 1][..i] == roleIDs[..i] && roleIDs[..i + 1][i] == roleIDs[i];
    assert after == if id == "" || id in before then before else before + [id];
    MentionedGrows(roleIDs, i + 1);
    hide Mentioned, Trim;
    if after != before {
      assert after[..|before|] == before && after[|before|] == id;
      assert id in after;
    }
  }

  lemma {:induction false} MentionedGrows(roleIDs: seq<string>, n: nat)
    requires n <= |roleIDs|
    ensures Mentioned(roleIDs[..n]) <= Mentioned(roleIDs)
    decreases |roleIDs|
  {
    if n < |roleIDs| {
      var front := roleIDs[..|roleIDs| - 1];
      MentionedGrows(front, n);
      assert front[..n] == roleIDs[..n];
    } else {
      assert roleIDs[..n] == roleIDs;
    }
  }

  lemma {:induction false} AllowedMembers(enforce: Enforcer, ids: seq<string>, id: string)
    ensures id in Allowed(enforce, ids) <==> id in ids && enforce(id) == Ok(true)
  {
    if ids != [] {
      AllowedMembers(enforce, ids[..|ids| - 1], id);
      assert ids == ids[..|ids| - 1] + [ids[|ids| - 1]];
    }
  }

  /** Whether a call is allowed, and through which roles, depends only on the set of trimmed roles. */
  lemma DecisionDependsOnRoleSet(enforce: Enforcer, roleIDs: seq<string>, roleIDs': seq<string>, d: Decision,
                                 d': Decision)
    requires CleanSet(roleIDs) == CleanSet(roleIDs') && Decides(enforce, roleIDs, Ok(d)) && Decides(enforce, roleIDs', Ok(d'))
    ensures d.allow == d'.allow && d.reason == d'.reason && forall id :: id in d.matched <==> id in d'.matched
    ensures d.allow <==> enforce("-1") == Ok(true) || enforce("0") == Ok(true) || exists id :: id in CleanSet(roleIDs) && enforce(id) == Ok(true)
  {
    MatchedIsSet(enforce, roleIDs);
    MatchedIsSet(enforce, roleIDs');
    var a, a' := Allowed(enforce, Mentioned(roleIDs)), Allowed(enforce, Mentioned(roleIDs'));
    hide CleanSet, Mentioned, Allowed, Fails;
    if a != [] { assert a[0] in a && a[0] in a'; }
    if a' != [] { assert a'[0] in a' && a'[0] in a; }
  }

  lemma MatchedIsSet(enforce: Enforcer, roleIDs: seq<string>)
    ensures forall id :: id in Allowed(enforce, Mentioned(roleIDs)) <==> id in CleanSet(roleIDs) && enforce(id) == Ok(true)
  {
    MentionedIsClean(roleIDs);
    forall id ensures id in Allowed(enforce, Mentioned(roleIDs)) <==> id in Mentioned(roleIDs) && enforce(id) == Ok(true) {
      AllowedMembers(enforce, Mentioned(roleIDs), id);
    }
  }

  // ---- the policy query: ORDER BY priority DESC, id ASC -----------------------------------------------------

  /** The policy table, by primary key. */
  type Policies = map<nat, Policy>

  predicate Ahead(t: Policies, a: nat, b: nat)
    requires a in t && b in t
  {
    t[a].priority > t[b].priority || (t[a].priority == t[b].priority && a < b)
  }

  predicate IsTop(t: Policies, m: nat, s: set<nat>)
    requires s <= t.Keys
  {
    m in s && forall x :: x in s ==> x == m || Ahead(t, m, x)
  }

  lemma {:induction false} TopExists(t: Policies, s: set<nat>)
    requires s <= t.Keys && s != {}
    ensures exists m :: IsTop(t, m, s)
  {
    var x :| x in s;
    if s == {x} {
      assert IsTop(t, x, s);
    } else {
      TopExists(t, s - {x});
      var m :| IsTop(t, m, s - {x});
      if Ahead(t, x, m) {
        forall y | y in s ensures y == x || Ahead(t, x, y) { assert y == x || y in s - {x}; }
        assert IsTop(t, x, s);
      } else {
        assert IsTop(t, m, s);
      }
    }
  }

  function Top(t: Policies, s: set<nat>): (m: nat)
    requires s <= t.Keys && s != {}
    ensures IsTop(t, m, s)
  {
    TopExists(t, s);
    var m :| m in s && IsTop(t, m, s);
    m
  }

  predicate Known(t: Policies, ids: seq<nat>) {
    forall i :: 0 <= i < |ids| ==> ids[i] in t
  }

  predicate InOrder(t: Policies, r: seq<nat>)
    requires Known(t, r)
  {
    forall i, j :: 0 <= i < j < |r| ==> Ahead(t, r[i], r[j])
  }

  /** The listing of some rows by descending priority, then ascending ID. */
  function Ranked(t: Policies, s: set<nat>): (r: seq<nat>)
    requires s <= t.Keys
    ensures forall x :: x in r <==> x in s
    ensures Known(t, r) && InOrder(t, r) && |r| == |s|
  {
    if s == {} then [] else [Top(t, s)] + Ranked(t, s - {Top(t, s)})
  }

  lemma {:induction false} RankedUnique(t: Policies, a: seq<nat>, b: seq<nat>)
    requires Known(t, a) && Known(t, b) && forall x :: x in a <==> x in b
    requires InOrder(t, a) && InOrder(t, b)
    ensures a == b
  {
    assert a != [] ==> a[0] in b;
    assert b != [] ==> b[0] in a;
    if a != [] {
      assert a[0] == b[0];
      assert forall x :: x in a[1..] <==> x in a && x != a[0];
      assert forall x :: x in b[1..] <==> x in b && x != b[0];
      RankedUnique(t, a[1..], b[1..]);
    }
  }

  /** What the query's WHERE clause keeps. */
  function Visible(t: Policies, roles: set<string>, tenantID: string, path: string, verb: string): set<nat> {
    set id | id in t && t[id].enable && t[id].resource == path && t[id].action == verb && t[id].roleID in roles
             && t[id].tenantID in {tenantID, "", "*"}
  }

  /** The rows of one role, in the order given. */
  function OfRole(t: Policies, ids: seq<nat>, role: string): (r: seq<nat>)
    requires Known(t, ids)
    ensures Known(t, r) && forall x :: x in r <==> x in ids && x in t && t[x].roleID == role
  {
    if ids == [] then [] else
      OfRole(t, ids[..|ids| - 1], role) + if t[ids[|ids| - 1]].roleID == role then [ids[|ids| - 1]] else []
  }

  lemma {:induction false} OfRoleInOrder(t: Policies, ids: seq<nat>, role: string)
    requires Known(t, ids) && InOrder(t, ids)
    ensures InOrder(t, OfRole(t, ids, role))
  {
    if ids != [] {
      var n := |ids| - 1;
      OfRoleInOrder(t, ids[..n], role);
      var r := OfRole(t, ids[..n], role);
      forall i | 0 <= i < |r| ensures Ahead(t, r[i], ids[n]) {
        assert r[i] in ids[..n];
      }
    }
  }

  /** Grouping the one query by role gives each role what a query for it alone would: the rules of a role
      do not depend on the caller's other roles. */
  lemma RoleQueryIsLocal(t: Policies, roles: set<string>, tenantID: string, path: string, verb: string, role: string)
    requires role in roles
    ensures OfRole(t, Ranked(t, Visible(t, roles, tenantID, path, verb)), role) == Ranked(t, Visible(t, {role}, tenantID, path, verb))
  {
    var all := Ranked(t, Visible(t, roles, tenantID, path, verb));
    OfRoleInOrder(t, all, role);
    RankedUnique(t, OfRole(t, all, role), Ranked(t, Visible(t, {role}, tenantID, path, verb)));
  }

  // ---- data scopes -----------------------------------------------------------------------------------------

  function Fallback(role: string): Rule {
    Rule(role, DATA_SCOPE_TENANT, "", 0, "tenant_fallback")
  }

  function RuleOf(t: Policies, role: string): nat -> Rule {
    (id: nat) => if id in t then Rule(role, t[id].dataScope, Trim(t[id].condition), t[id].priority, "abac_policy") else Fallback(role)
  }

  /** The rules of one role: its policies in order, or one fallback to the tenant. */
  function RoleRules(t: Policies, tenantID: string, path: string, verb: string, role: string): seq<Rule> {
    var ids := Ranked(t, Visible(t, {role}, tenantID, path, verb));
    if ids == [] then [Fallback(role)] else MapSeq(ids, RuleOf(t, role))
  }

  function RulesOfRoles(t: Policies, tenantID: string, path: string, verb: string, roles: seq<string>): seq<Rule> {
    if roles == [] then [] else
      RulesOfRoles(t, tenantID, path, verb, roles[..|roles| - 1]) + RoleRules(t, tenantID, path, verb, roles[|roles| - 1])
  }

  function SuperAdmin(role: string): Rule {
    Rule(role, DATA_SCOPE_ALL, "", 0, "super_admin")
  }

  ghost predicate BadScope(t: Policies, roles: set<string>, tenantID: string, path: string, verb: string) {
    exists id :: id in Visible(t, roles, tenantID, path, verb) && !ValidDataScope(t[id].dataScope)
  }

  /** What a set of trimmed role IDs entitles to. */
  ghost predicate Scopes(t: Policies, roles: set<string>, tenantID: string, path: string, verb: string,
                         r: Result<seq<Rule>, string>) {
    if "1" in roles then r == Ok([SuperAdmin("1")])
    else if "super_admin" in roles then r == Ok([SuperAdmin("super_admin")])
    else if roles == {} then r == Ok([Fallback("")])
    else if BadScope(t, roles, tenantID, path, verb) then r.Err?
    else r == Ok(RulesOfRoles(t, tenantID, path, verb, Ascending(roles)))
  }

  /** The policies met so far, by role. */
  ghost predicate Grouped(t: Policies, byRole: map<string, seq<nat>>, ids: seq<nat>)
    requires Known(t, ids)
  {
    forall role :: OfRole(t, ids, role) == if role in byRole then byRole[role] else []
  }

  lemma OneBeforeSuperAdmin(ids: seq<string>, i: nat)
    requires StrictlyAscending(ids) && i < |ids| && ids[i] == "super_admin" && "1" in ids
    ensures "1" in ids[..i]
  {
    var j :| 0 <= j < |ids| && ids[j] == "1";
    assert Less("1", "super_admin");
    LessAsymmetric("1", "super_admin");
    assert j < i && ids[..i][j] == "1";
  }

  /** The super-admin scan stops at the first of the two role names in ascending order. */
  method FindSuperAdmin(ids: seq<string>) returns (found: Option<string>)
    requires StrictlyAscending(ids)
    ensures found == if "1" in ids then Some("1") else if "super_admin" in ids then Some("super_admin") else None
  {
    for i := 0 to |ids|
      invariant "1" !in ids[..i] && "super_admin" !in ids[..i]
    {
      if ids[i] == "1" { return Some("1"); }
      if ids[i] == "super_admin" {
        if "1" in ids { OneBeforeSuperAdmin(ids, i); }
        return Some("super_admin");
      }
    }
    assert ids[..|ids|] == ids;
    return None;
  }

  ghost predicate ScopesValid(t: Policies, ids: seq<nat>)
    requires Known(t, ids)
  {
    forall i :: 0 <= i < |ids| ==> ValidDataScope(t[ids[i]].dataScope)
  }

  /** The loop's progress: the first n policies are valid and grouped. */
  ghost predicate GroupedTo(t: Policies, byRole: map<string, seq<nat>>, ids: seq<nat>, n: nat)
    requires Known(t, ids) && n <= |ids|
  {
    ScopesValid(t, ids[..n]) && Grouped(t, byRole, ids[..n])
  }

  lemma OfRoleStep(t: Policies, ids: seq<nat>, n: nat, role: string)
    requires Known(t, ids) && n < |ids|
    ensures OfRole(t, ids[..n + 1], role) == OfRole(t, ids[..n], role) + if t[ids[n]].roleID == role then [ids[n]] else []
  {
    assert ids[..n + 1][..n] == ids[..n] && ids[..n + 1][n] == ids[n];
  }

  lemma ScopesValidStep(t: Policies, ids: seq<nat>, n: nat)
    requires Known(t, ids) && n < |ids| && ScopesValid(t, ids[..n]) && ValidDataScope(t[ids[n]].dataScope)
    ensures ScopesValid(t, ids[..n + 1])
  {
    hide ValidDataScope;
  }

  lemma GroupStep(t: Policies, byRole: map<string, seq<nat>>, ids: seq<nat>, n: nat)
    requires Known(t, ids) && n < |ids| && Grouped(t, byRole, ids[..n])
    ensures var role := t[ids[n]].roleID;
            Grouped(t, byRole[role := (if role in byRole then byRole[role] else []) + [ids[n]]], ids[..n + 1])
  {
    hide OfRole;
    var own := t[ids[n]].roleID;
    var grown := byRole[own := (if own in byRole then byRole[own] else []) + [ids[n]]];
    forall role ensures OfRole(t, ids[..n + 1], role) == if role in grown then grown[role] else [] {
      OfRoleStep(t, ids, n, role);
      assert OfRole(t, ids[..n], role) == if role in byRole then byRole[role] else [];
    }
  }

  lemma GroupedStep(t: Policies, byRole: map<string, seq<nat>>, ids: seq<nat>, n: nat)
    requires Known(t, ids) && n < |ids| && GroupedTo(t, byRole, ids, n) && ValidDataScope(t[ids[n]].dataScope)
    ensures var role := t[ids[n]].roleID;
            GroupedTo(t, byRole[role := (if role in byRole then byRole[role] else []) + [ids[n]]], ids, n + 1)
  {
    hide OfRole, ValidDataScope, ScopesValid, Grouped;
    ScopesValidStep(t, ids, n);
    GroupStep(t, byRole, ids, n);
  }

  lemma GroupedEnds(t: Policies, byRole: map<string, seq<nat>>, ids: seq<nat>)
    requires Known(t, ids)
    ensures GroupedTo(t, map[], ids, 0)
    ensures GroupedTo(t, byRole, ids, |ids|) ==> ScopesValid(t, ids) && Grouped(t, byRole, ids)
  {
    assert ids[..|ids|] == ids;
  }

  lemma OneBadScope(t: Policies, ids: seq<nat>, n: nat)
    requires Known(t, ids) && n < |ids| && !ValidDataScope(t[ids[n]].dataScope)
    ensures !ScopesValid(t, ids)
  {
  }

  /** The grouping loop: fails on an invalid scope, else collects the policies of each role. */
  method GroupByRole(t: Policies, ids: seq<nat>) returns (byRole: Result<map<string, seq<nat>>, string>)
    requires Known(t, ids)
    ensures byRole.Ok? <==> ScopesValid(t, ids)
    ensures byRole.Ok? ==> Grouped(t, byRole.value, ids)
  {
    hide GroupedTo, ScopesValid, Grouped, OfRole, ValidDataScope;
    var groups: map<string, seq<nat>> := map[];
    GroupedEnds(t, groups, ids);
    for i := 0 to |ids|
      invariant GroupedTo(t, groups, ids, i)
    {
      var policy := t[ids[i]];
      if !ValidDataScope(policy.dataScope) {
        OneBadScope(t, ids, i);
        return Err("authorization data scope is invalid");
      }
      GroupedStep(t, groups, ids, i);
      groups := groups[policy.roleID := (if policy.roleID in groups then groups[policy.roleID] else []) + [ids[i]]];
    }
    GroupedEnds(t, groups, ids);
    return Ok(groups);
  }

  /** `EvaluateDataScopes`. */
  method EvaluateDataScopes(t: Policies, roleIDs: seq<string>, tenantID: string, path: string, verb: string)
    returns (r: Result<seq<Rule>, string>)
    ensures var resource := RuntimeResource(path, verb);
            if resource.Err? then r == Err(resource.error)
            else if Trim(tenantID) == "" then r.Err?
            else Scopes(t, CleanSet(roleIDs), Trim(tenantID), resource.value.0, resource.value.1, r)
  {
    var resource := RuntimeResource(path, verb);
    if resource.Err? { return Err(resource.error); }
    var (p, m) := resource.value;
    var tenant := Trim(tenantID);
    if tenant == "" { return Err("authorization data scope tenant ID is required"); }
    var roles := NormalizeStringSet(roleIDs);
    ghost var set_ := CleanSet(roleIDs);
    hide CleanSet, Trim, ValidPath, ValidMethod;
    var admin := FindSuperAdmin(roles);
    if admin.Some? { return Ok([SuperAdmin(admin.value)]); }
    if roles == [] {
      assert set_ == {} by { assert forall x :: x in roles <==> x in set_; }
      return Ok([Fallback("")]);
    }
    assert roles[0] in set_;
    var roleSet := set x | x in roles;
    assert roleSet == set_;
    r := RulesFor(t, roles, tenant, p, m);
  }

  /** Query, group and list, for normalized roles. */
  method RulesFor(t: Policies, roles: seq<string>, tenantID: string, path: string,
                  verb: string) returns (r: Result<seq<Rule>, string>)
    ensures if BadScope(t, (set x | x in roles), tenantID, path, verb) then r.Err?
            else r == Ok(RulesOfRoles(t, tenantID, path, verb, roles))
  {
    var roleSet := set x | x in roles;
    var ids := Ranked(t, Visible(t, roleSet, tenantID, path, verb));
    assert BadScope(t, roleSet, tenantID, path, verb) <==> !ScopesValid(t, ids);
    var byRole := GroupByRole(t, ids);
    if byRole.Err? { return Err(byRole.error); }
    hide Ranked, Visible, RuleOf;
    var rules: seq<Rule> := [];
    for i := 0 to |roles|
      invariant rules == RulesOfRoles(t, tenantID, path, verb, roles[..i])
    {
      var role := roles[i];
      assert roles[..i + 1][..i] == roles[..i];
      RoleQueryIsLocal(t, roleSet, tenantID, path, verb, role);
      if role !in byRole.value || byRole.value[role] == [] {
        rules := rules + [Fallback(role)];
        continue;
      }
      rules := rules + MapSeq(byRole.value[role], RuleOf(t, role));
    }
    assert roles[..|roles|] == roles;
    return Ok(rules);
  }

  // ---- what the decision comes to ----------------------------------------------------------------------------

  /** Every non-blank name of the one list is, up to padding, in the other. */
  ghost predicate MentionedIn(a: seq<string>, b: seq<string>) {
    forall v :: v in a && Trim(v) != "" ==> exists w :: w in b && Trim(w) == Trim(v)
  }

  /** Two role lists that mention the same non-blank names, in any order, repeated or padded at will. */
  ghost predicate SameMentions(a: seq<string>, b: seq<string>) {
    MentionedIn(a, b) && MentionedIn(b, a)
  }

  lemma MentionedInCleanSet(a: seq<string>, b: seq<string>, x: string)
    requires MentionedIn(a, b) && x in CleanSet(a)
    ensures x in CleanSet(b)
  {
    hide Trim;
    var v :| v in a && Trim(v) != "" && Trim(v) == x;
    var w :| w in b && Trim(w) == Trim(v);
  }

  lemma SameMentionsSameSet(a: seq<string>, b: seq<string>)
    requires SameMentions(a, b)
    ensures CleanSet(a) == CleanSet(b)
  {
    hide CleanSet, MentionedIn;
    forall x | x in CleanSet(a) ensures x in CleanSet(b) { MentionedInCleanSet(a, b, x); }
    forall x | x in CleanSet(b) ensures x in CleanSet(a) { MentionedInCleanSet(b, a, x); }
  }

  lemma ScopesAreDetermined(t: Policies, roles: set<string>, tenantID: string, path: string, verb: string,
                            r: Result<seq<Rule>, string>, r': Result<seq<Rule>, string>)
    requires Scopes(t, roles, tenantID, path, verb, r) && Scopes(t, roles, tenantID, path, verb, r')
    ensures r.Ok? == r'.Ok? && (r.Ok? ==> r == r')
  {
    hide RulesOfRoles, BadScope, Ascending, SuperAdmin, Fallback;
  }

  /** The decision depends on the set of trimmed role IDs only. */
  lemma ScopesDependOnRoleSet(t: Policies, a: seq<string>, b: seq<string>, tenantID: string, path: string, verb: string,
                              r: Result<seq<Rule>, string>, r': Result<seq<Rule>, string>)
    requires SameMentions(a, b)
    requires Scopes(t, CleanSet(a), tenantID, path, verb, r) && Scopes(t, CleanSet(b), tenantID, path, verb, r')
    ensures r.Ok? == r'.Ok? && (r.Ok? ==> r == r')
  {
    hide Scopes, CleanSet, SameMentions;
    SameMentionsSameSet(a, b);
    ScopesAreDetermined(t, CleanSet(a), tenantID, path, verb, r, r');
  }

  function RulesFrom(rules: seq<Rule>, role: string): seq<Rule> {
    if rules == [] then [] else
      RulesFrom(rules[..|rules| - 1], role) + if rules[|rules| - 1].roleID == role then [rules[|rules| - 1]] else []
  }

  lemma {:induction false} RulesFromAppend(a: seq<Rule>, b: seq<Rule>, role: string)
    ensures RulesFrom(a + b, role) == RulesFrom(a, role) + RulesFrom(b, role)
  {
    if b == [] {
      assert a + b == a;
    } else {
      RulesFromAppend(a, b[..|b| - 1], role);
      var last := b[|b| - 1];
      assert (a + b)[..|a + b| - 1] == a + b[..|b| - 1] && (a + b)[|a + b| - 1] == last;
      assert RulesFrom(a + b, role) == RulesFrom(a + b[..|b| - 1], role) + if last.roleID == role then [last] else [];
    }
  }

  lemma {:induction false} OneRole(rules: seq<Rule>, role: string, role': string)
    requires forall i :: 0 <= i < |rules| ==> rules[i].roleID == role
    ensures RulesFrom(rules, role') == if role == role' then rules else []
  {
    if rules != [] {
      OneRole(rules[..|rules| - 1], role, role');
      assert rules == rules[..|rules| - 1] + [rules[|rules| - 1]];
    }
  }

  lemma RoleRulesNameRole(t: Policies, tenantID: string, path: string, verb: string, role: string)
    ensures RoleRules(t, tenantID, path, verb, role) != []
    ensures forall i :: 0 <= i < |RoleRules(t, tenantID, path, verb, role)| ==> RoleRules(t, tenantID, path, verb, role)[i].roleID == role
    ensures |RoleRules(t, tenantID, path, verb, role)| ==
            |Visible(t, {role}, tenantID, path, verb)| + if Visible(t, {role}, tenantID, path, verb) == {} then 1 else 0
  {
  }

  ghost predicate ByRole(rules: seq<Rule>) {
    forall i, j :: 0 <= i < j < |rules| ==> rules[i].roleID == rules[j].roleID || Less(rules[i].roleID, rules[j].roleID)
  }

  /** The rules run by ascending role; each role's stretch is its own policies in order, or its one
      fallback, and no other role has a rule. */
  lemma {:induction false} RulesRunByRole(t: Policies, tenantID: string, path: string, verb: string, roles: seq<string>)
    requires StrictlyAscending(roles)
    ensures ByRole(RulesOfRoles(t, tenantID, path, verb, roles))
    ensures forall i :: 0 <= i < |RulesOfRoles(t, tenantID, path, verb, roles)| ==> RulesOfRoles(t, tenantID, path, verb, roles)[i].roleID in roles
    ensures forall role :: role in roles ==>
              RulesFrom(RulesOfRoles(t, tenantID, path, verb, roles), role) == RoleRules(t, tenantID, path, verb, role)
  {
    hide RoleRules, Less;
    if roles != [] {
      var front, last := roles[..|roles| - 1], roles[|roles| - 1];
      RulesRunByRole(t, tenantID, path, verb, front);
      RoleRulesNameRole(t, tenantID, path, verb, last);
      var a, b := RulesOfRoles(t, tenantID, path, verb, front), RoleRules(t, tenantID, path, verb, last);
      forall role | role in roles ensures RulesFrom(a + b, role) == RoleRules(t, tenantID, path, verb, role) {
        RulesFromAppend(a, b, role);
        OneRole(b, last, role);
        if role == last {
          LessAsymmetric(last, last);
          assert last !in front;
          NoRulesFrom(a, last);
        } else {
          assert role in front;
        }
      }
    }
  }

  lemma {:induction false} NoRulesFrom(rules: seq<Rule>, role: string)
    requires forall i :: 0 <= i < |rules| ==> rules[i].roleID != role
    ensures RulesFrom(rules, role) == []
  {
    if rules != [] { NoRulesFrom(rules[..|rules| - 1], role); }
  }

  /** The roles that hold no policy. */
  ghost function Without(t: Policies, roles: set<string>, tenantID: string, path: string, verb: string): set<string> {
    set role | role in roles && Visible(t, {role}, tenantID, path, verb) == {}
  }

  /** As many rules as policies, plus one for every role without any. */
  lemma {:induction false} RuleCount(t: Policies, tenantID: string, path: string, verb: string, roles: seq<string>,
                                     s: set<string>)
    requires Distinct(roles) && forall x :: x in roles <==> x in s
    ensures |RulesOfRoles(t, tenantID, path, verb, roles)| == |Visible(t, s, tenantID, path, verb)| + |Without(t, s, tenantID, path, verb)|
    decreases |roles|
  {
    if roles == [] {
      NoRoles(t, s, tenantID, path, verb);
    } else {
      hide Visible, Without, RoleRules;
      var front, last := roles[..|roles| - 1], roles[|roles| - 1];
      LastApart(roles, s);
      RuleCount(t, tenantID, path, verb, front, s - {last});
      RoleRulesNameRole(t, tenantID, path, verb, last);
      assert s - {last} + {last} == s;
      CountSplits(t, s - {last}, last, tenantID, path, verb);
    }
  }

  lemma LastApart(roles: seq<string>, s: set<string>)
    requires roles != [] && Distinct(roles) && forall x :: x in roles <==> x in s
    ensures var front, last := roles[..|roles| - 1], roles[|roles| - 1];
            last in s && Distinct(front) && forall x :: x in front <==> x in s - {last}
  {
    var front, last := roles[..|roles| - 1], roles[|roles| - 1];
    assert roles == front + [last];
    assert last !in front;
  }

  lemma NoRoles(t: Policies, s: set<string>, tenantID: string, path: string, verb: string)
    requires forall x :: x !in s
    ensures |Visible(t, s, tenantID, path, verb)| == 0 && |Without(t, s, tenantID, path, verb)| == 0
  {
    assert Visible(t, s, tenantID, path, verb) == {} && Without(t, s, tenantID, path, verb) == {};
  }

  lemma VisibleSplits(t: Policies, roles: set<string>, last: string, tenantID: string, path: string, verb: string)
    requires last !in roles
    ensures var a, b := Visible(t, roles, tenantID, path, verb), Visible(t, {last}, tenantID, path, verb);
            Visible(t, roles + {last}, tenantID, path, verb) == a + b && a !! b
  {
  }

  lemma WithoutSplits(t: Policies, roles: set<string>, last: string, tenantID: string, path: string, verb: string)
    requires last !in roles
    ensures var w := Without(t, roles, tenantID, path, verb);
            && Without(t, roles + {last}, tenantID, path, verb) == (if Visible(t, {last}, tenantID, path, verb) == {} then w + {last} else w)
            && last !in w
  {
    hide Visible;
  }

  lemma CountSplits(t: Policies, roles: set<string>, last: string, tenantID: string, path: string, verb: string)
    requires last !in roles
    ensures |Visible(t, roles + {last}, tenantID, path, verb)| == |Visible(t, roles, tenantID, path, verb)| + |Visible(t, {last}, tenantID, path, verb)|
    ensures |Without(t, roles + {last}, tenantID, path, verb)| ==
            |Without(t, roles, tenantID, path, verb)| + if Visible(t, {last}, tenantID, path, verb) == {} then 1 else 0
  {
    hide *;
    VisibleSplits(t, roles, last, tenantID, path, verb);
    WithoutSplits(t, roles, last, tenantID, path, verb);
  }
}
