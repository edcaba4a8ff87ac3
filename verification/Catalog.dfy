/** The declarative authorization catalog: its normalization, and the validation that decides which
    catalogs are well formed (authorization/catalog.go). */
module Catalog {
  import opened Text

  datatype Role = Role(
    id: string, name: string, parentID: string, defaultRouter: string, description: string, public: bool)

  /** The columns of a menu other than its ID and functions. */
  datatype MenuColumns = MenuColumns(
    parentID: string, path: string, name: string, title: string, icon: string, component: string,
    level: int, sort: int, hidden: bool, cache: bool, defaultMenu: bool, closeTab: bool)

  datatype Function = Function(id: string, name: string, title: string, hidden: bool, apiIDs: seq<string>)

  datatype Menu = Menu(id: string, columns: MenuColumns, functions: seq<Function>)

  datatype API = API(
    id: string, path: string, verb: string, group: string, description: string, checkAuth: bool, checkLogin: bool)

  datatype RoleGrant = RoleGrant(roleID: string, menuID: string, functions: seq<string>, show: bool)

  datatype TenantGrant = TenantGrant(tenantID: string, menuID: string, functions: seq<string>)

  datatype ABACPolicy = ABACPolicy(
    tenantID: string, roleID: string, resource: string, action: string, dataScope: int, condition: string, priority: int)

  datatype AuthorizationCatalog = AuthorizationCatalog(
    tenantID: string, projectID: string, defaultRoleID: string,
    roles: seq<Role>, menus: seq<Menu>, apis: seq<API>,
    roleGrants: seq<RoleGrant>, tenantGrants: seq<TenantGrant>, policies: seq<ABACPolicy>)

  function MapSeq<A, B>(s: seq<A>, f: A -> B): (r: seq<B>)
    ensures |r| == |s|
    ensures forall i :: 0 <= i < |s| ==> r[i] == f(s[i])
  {
    seq(|s|, i requires 0 <= i < |s| => f(s[i]))
  }

  // ---- normalization -----------------------------------------------------------------------------

  function NormalRole(r: Role): Role {
    Role(Trim(r.id), Trim(r.name), Trim(r.parentID), Trim(r.defaultRouter), Trim(r.description), r.public)
  }

  function NormalFunction(f: Function): Function {
    Function(Trim(f.id), Trim(f.name), Trim(f.title), f.hidden, NormalizedSet(f.apiIDs))
  }

  function NormalColumns(m: MenuColumns): MenuColumns {
    m.(parentID := Trim(m.parentID), path := Trim(m.path), name := Trim(m.name), title := Trim(m.title),
       icon := Trim(m.icon), component := Trim(m.component))
  }

  function NormalMenu(m: Menu): Menu {
    Menu(Trim(m.id), NormalColumns(m.columns), MapSeq(m.functions, NormalFunction))
  }

  function NormalAPI(a: API): API {
    API(Trim(a.id), Trim(a.path), Upper(Trim(a.verb)), Trim(a.group), Trim(a.description), a.checkAuth, a.checkLogin)
  }

  function NormalRoleGrant(g: RoleGrant): RoleGrant {
    RoleGrant(Trim(g.roleID), Trim(g.menuID), NormalizedSet(g.functions), g.show)
  }

  /** A blank tenant defaults to the catalog's own. */
  function OwnTenant(tenantID: string, own: string): string {
    if Trim(tenantID) == "" then own else Trim(tenantID)
  }

  function TenantGrantNormalizer(own: string): TenantGrant -> TenantGrant {
    (g: TenantGrant) => TenantGrant(OwnTenant(g.tenantID, own), Trim(g.menuID), NormalizedSet(g.functions))
  }

  function PolicyNormalizer(own: string): ABACPolicy -> ABACPolicy {
    (p: ABACPolicy) => ABACPolicy(OwnTenant(p.tenantID, own), Trim(p.roleID), Trim(p.resource), Trim(p.action),
                                  p.dataScope, Trim(p.condition), p.priority)
  }

  function Normalized(c: AuthorizationCatalog): AuthorizationCatalog {
    var own := Trim(c.tenantID);
    AuthorizationCatalog(
      own, Trim(c.projectID), Trim(c.defaultRoleID),
      MapSeq(c.roles, NormalRole), MapSeq(c.menus, NormalMenu), MapSeq(c.apis, NormalAPI),
      MapSeq(c.roleGrants, NormalRoleGrant),
      MapSeq(c.tenantGrants, TenantGrantNormalizer(own)),
      MapSeq(c.policies, PolicyNormalizer(own)))
  }

  /** The catalog as its caller holds it: the scalar fields, and slices whose elements normalization
      rewrites where they are. */
  class CatalogDraft {
    var tenantID: string
    var projectID: string
    var defaultRoleID: string
    const roles: array<Role>
    const menus: array<Menu>
    const apis: array<API>
    const roleGrants: array<RoleGrant>
    const tenantGrants: array<TenantGrant>
    const policies: array<ABACPolicy>

    ghost const Repr: set<object> := {this, roles, menus, apis, roleGrants, tenantGrants, policies}

    constructor (roles: array<Role>, menus: array<Menu>, apis: array<API>, roleGrants: array<RoleGrant>,
                 tenantGrants: array<TenantGrant>, policies: array<ABACPolicy>)
      ensures this.roles == roles && this.menus == menus && this.apis == apis
      ensures this.roleGrants == roleGrants && this.tenantGrants == tenantGrants && this.policies == policies
    {
      this.tenantID, this.projectID, this.defaultRoleID := "", "", "";
      this.roles, this.menus, this.apis := roles, menus, apis;
      this.roleGrants, this.tenantGrants, this.policies := roleGrants, tenantGrants, policies;
    }

    function Value(): AuthorizationCatalog
      reads Repr
    {
      AuthorizationCatalog(tenantID, projectID, defaultRoleID,
                           roles[..], menus[..], apis[..], roleGrants[..], tenantGrants[..], policies[..])
    }

    /** `normalizeAuthorizationCatalog`: the elements the caller's slices share are rewritten in place. */
    method Normalize()
      modifies Repr
      ensures Value() == Normalized(old(Value()))
    {
      tenantID, projectID, defaultRoleID := Trim(tenantID), Trim(projectID), Trim(defaultRoleID);
      Rewrite(roles, NormalRole);
      Rewrite(menus, NormalMenu);
      Rewrite(apis, NormalAPI);
      Rewrite(roleGrants, NormalRoleGrant);
      Rewrite(tenantGrants, TenantGrantNormalizer(tenantID));
      Rewrite(policies, PolicyNormalizer(tenantID));
    }
  }

  method Rewrite<T>(a: array<T>, f: T -> T)
    modifies a
    ensures a[..] == MapSeq(old(a[..]), f)
  {
    for i := 0 to a.Length
      invariant forall j :: 0 <= j < i ==> a[j] == f(old(a[j]))
      invariant forall j :: i <= j < a.Length ==> a[j] == old(a[j])
    {
      a[i] := f(a[i]);
    }
  }

  lemma NormalFunctionIdempotent(f: Function)
    ensures NormalFunction(NormalFunction(f)) == NormalFunction(f)
  {
    TrimIsTrimmed(f.id); TrimIsTrimmed(f.name); TrimIsTrimmed(f.title);
    NormalizedSetIsClean(f.apiIDs);
  }

  lemma NormalMenuIdempotent(m: Menu)
    ensures NormalMenu(NormalMenu(m)) == NormalMenu(m)
  {
    TrimIsTrimmed(m.id);
    var k := m.columns;
    TrimIsTrimmed(k.parentID); TrimIsTrimmed(k.path); TrimIsTrimmed(k.name);
    TrimIsTrimmed(k.title); TrimIsTrimmed(k.icon); TrimIsTrimmed(k.component);
    forall i | 0 <= i < |m.functions|
      ensures NormalFunction(NormalFunction(m.functions[i])) == NormalFunction(m.functions[i])
    {
      NormalFunctionIdempotent(m.functions[i]);
    }
  }

  lemma NormalAPIIdempotent(a: API)
    ensures NormalAPI(NormalAPI(a)) == NormalAPI(a)
  {
    TrimIsTrimmed(a.id); TrimIsTrimmed(a.path); TrimIsTrimmed(a.verb);
    TrimIsTrimmed(a.group); TrimIsTrimmed(a.description);
    UpperIdempotent(Trim(a.verb));
    TrimIsTrimmed(Upper(Trim(a.verb)));
  }

  lemma NormalRoleGrantIdempotent(g: RoleGrant)
    ensures NormalRoleGrant(NormalRoleGrant(g)) == NormalRoleGrant(g)
  {
    TrimIsTrimmed(g.roleID); TrimIsTrimmed(g.menuID);
    NormalizedSetIsClean(g.functions);
  }

  lemma NormalTenantGrantIdempotent(t: TenantGrant, own: string)
    requires Trimmed(own)
    ensures var f := TenantGrantNormalizer(own); f(f(t)) == f(t)
  {
    TrimIsTrimmed(own);
    TrimIsTrimmed(t.tenantID); TrimIsTrimmed(t.menuID);
    NormalizedSetIsClean(t.functions);
  }

  lemma NormalPolicyIdempotent(p: ABACPolicy, own: string)
    requires Trimmed(own)
    ensures var f := PolicyNormalizer(own); f(f(p)) == f(p)
  {
    TrimIsTrimmed(own);
    TrimIsTrimmed(p.tenantID); TrimIsTrimmed(p.roleID); TrimIsTrimmed(p.resource);
    TrimIsTrimmed(p.action); TrimIsTrimmed(p.condition);
  }

  lemma NormalRoleIdempotent(r: Role)
    ensures NormalRole(NormalRole(r)) == NormalRole(r)
  {
    TrimIsTrimmed(r.id); TrimIsTrimmed(r.name); TrimIsTrimmed(r.parentID);
    TrimIsTrimmed(r.defaultRouter); TrimIsTrimmed(r.description);
  }

  lemma DefinitionsIdempotent(c: AuthorizationCatalog)
    ensures var n := Normalized(c);
            && MapSeq(n.roles, NormalRole) == n.roles
            && MapSeq(n.menus, NormalMenu) == n.menus
            && MapSeq(n.apis, NormalAPI) == n.apis
  {
    forall i | 0 <= i < |c.roles| { NormalRoleIdempotent(c.roles[i]); }
    forall i | 0 <= i < |c.menus| { NormalMenuIdempotent(c.menus[i]); }
    forall i | 0 <= i < |c.apis| { NormalAPIIdempotent(c.apis[i]); }
  }

  lemma GrantsIdempotent(c: AuthorizationCatalog)
    ensures var n := Normalized(c);
            && MapSeq(n.roleGrants, NormalRoleGrant) == n.roleGrants
            && MapSeq(n.tenantGrants, TenantGrantNormalizer(n.tenantID)) == n.tenantGrants
            && MapSeq(n.policies, PolicyNormalizer(n.tenantID)) == n.policies
  {
    TrimIsTrimmed(c.tenantID);
    var own := Trim(c.tenantID);
    forall i | 0 <= i < |c.roleGrants| { NormalRoleGrantIdempotent(c.roleGrants[i]); }
    forall i | 0 <= i < |c.tenantGrants| { NormalTenantGrantIdempotent(c.tenantGrants[i], own); }
    forall i | 0 <= i < |c.policies| { NormalPolicyIdempotent(c.policies[i], own); }
  }

  /** Normalizing a normalized catalog changes nothing. */
  lemma NormalizationIsIdempotent(c: AuthorizationCatalog)
    ensures Normalized(Normalized(c)) == Normalized(c)
  {
    TrimIsTrimmed(c.tenantID); TrimIsTrimmed(c.projectID); TrimIsTrimmed(c.defaultRoleID);
    DefinitionsIdempotent(c);
    GrantsIdempotent(c);
  }

  // ---- well-formedness ---------------------------------------------------------------------------

  const ID_MAX_LENGTH := 36

  predicate ShortID(id: string) {
    |id| <= ID_MAX_LENGTH
  }

  predicate ValidMethod(m: string) {
    m in {"GET", "HEAD", "POST", "PUT", "PATCH", "DELETE", "OPTIONS"}
  }

  predicate ValidDataScope(scope: int) {
    0 <= scope <= 7
  }

  predicate Parent(parentID: string, ids: seq<string>) {
    ShortID(parentID) && (parentID == "" || parentID in ids)
  }

  function RoleID(r: Role): string { r.id }
  function MenuID(m: Menu): string { m.id }
  function APIID(a: API): string { a.id }
  function FunctionID(f: Function): string { f.id }
  function FunctionName(f: Function): string { f.name }

  /** The key the source builds to detect two APIs on one method and path. */
  function APIKey(a: API): string { a.verb + "\0" + a.path }

  function RoleIDs(c: AuthorizationCatalog): seq<string> { MapSeq(c.roles, RoleID) }
  function MenuIDs(c: AuthorizationCatalog): seq<string> { MapSeq(c.menus, MenuID) }
  function APIIDs(c: AuthorizationCatalog): seq<string> { MapSeq(c.apis, APIID) }

  /** All functions of a list of menus, in catalog order. */
  function Functions(menus: seq<Menu>): seq<Function> {
    if menus == [] then [] else Functions(menus[..|menus| - 1]) + menus[|menus| - 1].functions
  }

  ghost predicate RolesWellFormed(c: AuthorizationCatalog) {
    && c.tenantID != "" && ShortID(c.tenantID) && ShortID(c.projectID) && ShortID(c.defaultRoleID)
    && (forall r :: r in c.roles ==> r.id != "" && r.name != "" && ShortID(r.id) && Parent(r.parentID, RoleIDs(c)))
    && Distinct(RoleIDs(c))
    && (c.defaultRoleID != "" ==> c.defaultRoleID in RoleIDs(c))
  }

  ghost predicate APIsWellFormed(c: AuthorizationCatalog) {
    && (forall a :: a in c.apis ==>
          a.id != "" && ShortID(a.id) && a.path != "" && a.path[0] == '/' && ValidMethod(a.verb))
    && Distinct(APIIDs(c))
    && (forall i, j :: 0 <= i < j < |c.apis| ==> c.apis[i].verb != c.apis[j].verb || c.apis[i].path != c.apis[j].path)
  }

  predicate FunctionWellFormed(f: Function, apiIDs: seq<string>) {
    f.id != "" && f.name != "" && f.title != "" && ShortID(f.id) && forall a :: a in f.apiIDs ==> a in apiIDs
  }

  ghost predicate MenuWellFormed(m: Menu, apiIDs: seq<string>) {
    && m.id != "" && m.columns.name != "" && m.columns.title != "" && ShortID(m.id) && ShortID(m.columns.parentID)
    && (forall f :: f in m.functions ==> FunctionWellFormed(f, apiIDs))
    && Distinct(MapSeq(m.functions, FunctionName))
  }

  ghost predicate MenusWellFormed(c: AuthorizationCatalog) {
    && (forall m :: m in c.menus ==> MenuWellFormed(m, APIIDs(c)) && Parent(m.columns.parentID, MenuIDs(c)))
    && Distinct(MenuIDs(c))
    && Distinct(MapSeq(Functions(c.menus), FunctionID))
  }

  /** A menu of that ID exists and declares every listed function. */
  ghost predicate Declares(c: AuthorizationCatalog, menuID: string, functions: seq<string>) {
    exists m :: m in c.menus && m.id == menuID && forall n :: n in functions ==> n in MapSeq(m.functions, FunctionName)
  }

  ghost predicate GrantsWellFormed(c: AuthorizationCatalog) {
    && (forall g :: g in c.roleGrants ==> g.roleID in RoleIDs(c) && Declares(c, g.menuID, g.functions))
    && (forall g :: g in c.tenantGrants ==> Declares(c, g.menuID, g.functions))
    && (forall p :: p in c.policies ==>
          p.roleID in RoleIDs(c) && p.resource != "" && p.action != "" && ValidDataScope(p.dataScope))
  }

  /** The catalogs that validation is meant to accept. */
  ghost predicate WellFormed(c: AuthorizationCatalog) {
    RolesWellFormed(c) && APIsWellFormed(c) && MenusWellFormed(c) && GrantsWellFormed(c)
  }

  // ---- validation, as the source runs it -----------------------------------------------------------

  lemma MapSeqStep<A, B>(s: seq<A>, f: A -> B, i: nat)
    requires i < |s|
    ensures MapSeq(s[..i + 1], f) == MapSeq(s[..i], f) + [f(s[i])]
    ensures s[..i + 1] == s[..i] + [s[i]]
  {
  }

  lemma DistinctStep(s: seq<string>, x: string)
    requires Distinct(s)
    ensures Distinct(s + [x]) <==> x !in s
  {
    if x in s {
      var i :| 0 <= i < |s| && s[i] == x;
      assert (s + [x])[i] == (s + [x])[|s|];
    }
  }

  ghost predicate RolePrefix(c: AuthorizationCatalog, n: nat)
    requires n <= |c.roles|
  {
    && (forall i :: 0 <= i < n ==>
          c.roles[i].id != "" && c.roles[i].name != "" && ShortID(c.roles[i].id) && ShortID(c.roles[i].parentID))
    && Distinct(MapSeq(c.roles[..n], RoleID))
  }

  lemma RolePrefixShrinks(c: AuthorizationCatalog, n: nat)
    requires n <= |c.roles| && RolePrefix(c, |c.roles|)
    ensures RolePrefix(c, n)
  {
    assert c.roles[..|c.roles|] == c.roles;
    assert MapSeq(c.roles, RoleID)[..n] == MapSeq(c.roles[..n], RoleID);
  }

  /** The first pass over the roles: each is complete, and no ID repeats. */
  method ValidateRoleRows(c: AuthorizationCatalog) returns (error: Option<string>, roleIDs: set<string>)
    ensures error.None? <==> RolePrefix(c, |c.roles|)
    ensures error.None? ==> roleIDs == set id | id in RoleIDs(c)
  {
    roleIDs := {};
    for i := 0 to |c.roles|
      invariant RolePrefix(c, i)
      invariant roleIDs == set id | id in MapSeq(c.roles[..i], RoleID)
    {
      var role := c.roles[i];
      MapSeqStep(c.roles, RoleID, i);
      DistinctStep(MapSeq(c.roles[..i], RoleID), role.id);
      assert RolePrefix(c, |c.roles|) ==> RolePrefix(c, i + 1) by {
        if RolePrefix(c, |c.roles|) { RolePrefixShrinks(c, i + 1); }
      }
      if role.id == "" || role.name == "" { return Some("role ID and name are required"), roleIDs; }
      if !ShortID(role.id) { return Some("role ID is too long"), roleIDs; }
      if role.parentID != "" && !ShortID(role.parentID) { return Some("role parent ID is too long"), roleIDs; }
      if role.id in roleIDs { return Some("duplicate role ID"), roleIDs; }
      roleIDs := roleIDs + {role.id};
    }
    assert c.roles[..|c.roles|] == c.roles;
    return None, roleIDs;
  }

  lemma RolePrefixSuffices(c: AuthorizationCatalog)
    ensures RolesWellFormed(c) <==>
            && c.tenantID != "" && ShortID(c.tenantID) && ShortID(c.projectID) && ShortID(c.defaultRoleID)
            && RolePrefix(c, |c.roles|)
            && (forall j :: 0 <= j < |c.roles| ==> Parent(c.roles[j].parentID, RoleIDs(c)))
            && (c.defaultRoleID != "" ==> c.defaultRoleID in RoleIDs(c))
    ensures RolePrefix(c, |c.roles|) ==> forall j :: 0 <= j < |c.roles| ==> ShortID(c.roles[j].parentID)
  {
    assert c.roles[..|c.roles|] == c.roles;
    forall r | r in c.roles ensures exists i :: 0 <= i < |c.roles| && c.roles[i] == r { }
    assert forall i :: 0 <= i < |c.roles| ==> c.roles[i] in c.roles;
  }

  method ValidateRoles(c: AuthorizationCatalog) returns (error: Option<string>, roleIDs: set<string>)
    ensures error.None? <==> RolesWellFormed(c)
    ensures error.None? ==> roleIDs == set id | id in RoleIDs(c)
  {
    RolePrefixSuffices(c);
    hide RolesWellFormed, RolePrefix, ShortID;
    if c.tenantID == "" { return Some("tenant ID is required"), {}; }
    if !ShortID(c.tenantID) { return Some("tenant ID is too long"), {}; }
    if c.projectID != "" && !ShortID(c.projectID) { return Some("project ID is too long"), {}; }
    if c.defaultRoleID != "" && !ShortID(c.defaultRoleID) { return Some("default role ID is too long"), {}; }
    error, roleIDs := ValidateRoleRows(c);
    if error.Some? { return; }
    for i := 0 to |c.roles|
      invariant forall j :: 0 <= j < i ==> Parent(c.roles[j].parentID, RoleIDs(c))
    {
      if c.roles[i].parentID != "" && c.roles[i].parentID !in roleIDs { return Some("unknown parent role"), roleIDs; }
      EmptyIsShort();
    }
    EmptyIsShort();
    if c.defaultRoleID != "" && c.defaultRoleID !in roleIDs { return Some("default role is not defined"), roleIDs; }
  }

  lemma EmptyIsShort()
    ensures ShortID("")
  {
  }

  /** Strings without NUL joined by NUL come apart again. */
  lemma {:induction false} NulJoinInjective(a: string, b: string, x: string, y: string)
    requires '\0' !in a && '\0' !in b && a + "\0" + x == b + "\0" + y
    ensures a == b && x == y
  {
    var s, t := a + "\0" + x, b + "\0" + y;
    assert a != "" ==> s[0] == a[0] && a[0] in a;
    assert b != "" ==> t[0] == b[0] && b[0] in b;
    assert a == "" ==> s[0] == '\0' && s[1..] == x;
    assert b == "" ==> t[0] == '\0' && t[1..] == y;
    if a != "" && b != "" {
      assert s[1..] == a[1..] + "\0" + x && t[1..] == b[1..] + "\0" + y;
      NulJoinInjective(a[1..], b[1..], x, y);
      assert a == [a[0]] + a[1..] && b == [b[0]] + b[1..];
    }
  }

  lemma APIKeyInjective(a: API, b: API)
    requires ValidMethod(a.verb) && ValidMethod(b.verb) && APIKey(a) == APIKey(b)
    ensures a.verb == b.verb && a.path == b.path
  {
    NulJoinInjective(a.verb, b.verb, a.path, b.path);
  }

  lemma KeysDistinct(apis: seq<API>)
    requires forall a :: a in apis ==> ValidMethod(a.verb)
    ensures Distinct(MapSeq(apis, APIKey)) <==>
            forall i, j :: 0 <= i < j < |apis| ==> apis[i].verb != apis[j].verb || apis[i].path != apis[j].path
  {
    var keys := MapSeq(apis, APIKey);
    if Distinct(keys) {
      forall i, j | 0 <= i < j < |apis| ensures apis[i].verb != apis[j].verb || apis[i].path != apis[j].path {
        assert keys[i] != keys[j];
      }
    } else {
      var i, j :| 0 <= i < j < |keys| && keys[i] == keys[j];
      APIKeyInjective(apis[i], apis[j]);
    }
  }

  ghost predicate APIWellFormed(a: API) {
    a.id != "" && ShortID(a.id) && a.path != "" && a.path[0] == '/' && ValidMethod(a.verb)
  }

  ghost predicate APIPrefix(c: AuthorizationCatalog, n: nat)
    requires n <= |c.apis|
  {
    && (forall i :: 0 <= i < n ==> APIWellFormed(c.apis[i]))
    && Distinct(MapSeq(c.apis[..n], APIID)) && Distinct(MapSeq(c.apis[..n], APIKey))
  }

  lemma APIPrefixStep(c: AuthorizationCatalog, n: nat)
    requires n < |c.apis| && APIPrefix(c, n)
    ensures APIPrefix(c, n + 1) <==>
            && APIWellFormed(c.apis[n])
            && c.apis[n].id !in MapSeq(c.apis[..n], APIID) && APIKey(c.apis[n]) !in MapSeq(c.apis[..n], APIKey)
  {
    MapSeqStep(c.apis, APIID, n);
    MapSeqStep(c.apis, APIKey, n);
    DistinctStep(MapSeq(c.apis[..n], APIID), c.apis[n].id);
    DistinctStep(MapSeq(c.apis[..n], APIKey), APIKey(c.apis[n]));
  }

  lemma APIPrefixes(c: AuthorizationCatalog, n: nat)
    requires n <= |c.apis|
    ensures APIsWellFormed(c) ==> APIPrefix(c, n)
    ensures APIPrefix(c, |c.apis|) ==> APIsWellFormed(c)
  {
    assert c.apis[..|c.apis|] == c.apis;
    if (forall a :: a in c.apis ==> ValidMethod(a.verb)) { KeysDistinct(c.apis); }
    assert MapSeq(c.apis, APIID)[..n] == MapSeq(c.apis[..n], APIID);
    assert MapSeq(c.apis, APIKey)[..n] == MapSeq(c.apis[..n], APIKey);
    if APIPrefix(c, |c.apis|) {
      forall a | a in c.apis ensures APIWellFormed(a) {
        var i :| 0 <= i < |c.apis| && c.apis[i] == a;
      }
    }
  }

  method ValidateAPIs(c: AuthorizationCatalog) returns (error: Option<string>, apiIDs: set<string>)
    ensures error.None? <==> APIsWellFormed(c)
    ensures error.None? ==> apiIDs == set id | id in APIIDs(c)
  {
    apiIDs := {};
    var naturalKeys: set<string> := {};
    for i := 0 to |c.apis|
      invariant APIPrefix(c, i)
      invariant apiIDs == set id | id in MapSeq(c.apis[..i], APIID)
      invariant naturalKeys == set k | k in MapSeq(c.apis[..i], APIKey)
    {
      var api := c.apis[i];
      APIPrefixStep(c, i);
      APIPrefixes(c, i + 1);
      if api.id == "" || api.path == "" || api.verb == "" { return Some("API ID, path and method are required"), apiIDs; }
      if !ShortID(api.id) { return Some("API ID is too long"), apiIDs; }
      if api.path[0] != '/' { return Some("API path must start with /"), apiIDs; }
      if !ValidMethod(api.verb) { return Some("unsupported method"), apiIDs; }
      if api.id in apiIDs { return Some("duplicate API ID"), apiIDs; }
      if APIKey(api) in naturalKeys { return Some("duplicate API"), apiIDs; }
      MapSeqStep(c.apis, APIID, i);
      MapSeqStep(c.apis, APIKey, i);
      apiIDs, naturalKeys := apiIDs + {api.id}, naturalKeys + {APIKey(api)};
    }
    APIPrefixes(c, |c.apis|);
    assert c.apis[..|c.apis|] == c.apis;
    return None, apiIDs;
  }

  /** The function names each menu declares, as the `menuFunctionNames` map records them. */
  ghost predicate NamesOf(names: map<string, set<string>>, menus: seq<Menu>) {
    && names.Keys == (set m | m in menus :: m.id)
    && forall m :: m in menus ==> m.id in names && names[m.id] == set n | n in MapSeq(m.functions, FunctionName)
  }

  method ValidateFunctions(menu: Menu, apiIDs: seq<string>, known: set<string>, seen: seq<string>)
    returns (error: Option<string>, names: set<string>, ids: set<string>)
    requires known == (set id | id in seen) && Distinct(seen)
    ensures error.None? <==>
            && (forall f :: f in menu.functions ==> FunctionWellFormed(f, apiIDs))
            && Distinct(MapSeq(menu.functions, FunctionName))
            && Distinct(seen + MapSeq(menu.functions, FunctionID))
    ensures error.None? ==> names == set n | n in MapSeq(menu.functions, FunctionName)
    ensures error.None? ==> ids == set id | id in seen + MapSeq(menu.functions, FunctionID)
  {
    names, ids := {}, known;
    assert seen + MapSeq(menu.functions[..0], FunctionID) == seen;
    for i := 0 to |menu.functions|
      invariant forall j :: 0 <= j < i ==> FunctionWellFormed(menu.functions[j], apiIDs)
      invariant Distinct(MapSeq(menu.functions[..i], FunctionName))
      invariant Distinct(seen + MapSeq(menu.functions[..i], FunctionID))
      invariant names == set n | n in MapSeq(menu.functions[..i], FunctionName)
      invariant ids == set id | id in seen + MapSeq(menu.functions[..i], FunctionID)
    {
      var f := menu.functions[i];
      assert f in menu.functions;
      MapSeqStep(menu.functions, FunctionName, i);
      MapSeqStep(menu.functions, FunctionID, i);
      DistinctStep(MapSeq(menu.functions[..i], FunctionName), f.name);
      DistinctStep(seen + MapSeq(menu.functions[..i], FunctionID), f.id);
      assert seen + MapSeq(menu.functions[..i], FunctionID) + [f.id] == seen + MapSeq(menu.functions[..i + 1], FunctionID);
      assert MapSeq(menu.functions, FunctionName)[..i + 1] == MapSeq(menu.functions[..i + 1], FunctionName);
      assert (seen + MapSeq(menu.functions, FunctionID))[..|seen| + i + 1] == seen + MapSeq(menu.functions[..i + 1], FunctionID);
      if f.id == "" || f.name == "" || f.title == "" { return Some("function without ID, name or title"), names, ids; }
      if !ShortID(f.id) { return Some("function ID is too long"), names, ids; }
      if f.id in ids { return Some("duplicate function ID"), names, ids; }
      if f.name in names { return Some("duplicate function name"), names, ids; }
      ids, names := ids + {f.id}, names + {f.name};
      for k := 0 to |f.apiIDs|
        invariant forall j :: 0 <= j < k ==> f.apiIDs[j] in apiIDs
      {
        if f.apiIDs[k] !in apiIDs { return Some("unknown API"), names, ids; }
      }
    }
    assert menu.functions[..|menu.functions|] == menu.functions;
    return None, names, ids;
  }

  lemma {:induction false} FunctionsPrefix(menus: seq<Menu>, n: nat)
    requires n <= |menus|
    ensures MapSeq(Functions(menus[..n]), FunctionID) <= MapSeq(Functions(menus), FunctionID)
    decreases |menus|
  {
    if n < |menus| {
      FunctionsPrefix(menus[..|menus| - 1], n);
      assert menus[..|menus| - 1][..n] == menus[..n];
    } else {
      assert menus[..n] == menus;
    }
  }

  ghost predicate MenuPrefix(c: AuthorizationCatalog, n: nat)
    requires n <= |c.menus|
  {
    && (forall i :: 0 <= i < n ==> MenuWellFormed(c.menus[i], APIIDs(c)))
    && Distinct(MapSeq(c.menus[..n], MenuID)) && Distinct(MapSeq(Functions(c.menus[..n]), FunctionID))
  }

  lemma MenuPrefixStep(c: AuthorizationCatalog, n: nat)
    requires n < |c.menus|
    ensures MapSeq(Functions(c.menus[..n + 1]), FunctionID) ==
            MapSeq(Functions(c.menus[..n]), FunctionID) + MapSeq(c.menus[n].functions, FunctionID)
    ensures MenuPrefix(c, n) ==>
            (MenuPrefix(c, n + 1) <==>
             && MenuWellFormed(c.menus[n], APIIDs(c)) && c.menus[n].id !in MapSeq(c.menus[..n], MenuID)
             && Distinct(MapSeq(Functions(c.menus[..n]), FunctionID) + MapSeq(c.menus[n].functions, FunctionID)))
  {
    assert c.menus[..n + 1][..n] == c.menus[..n];
    if MenuPrefix(c, n) {
      MapSeqStep(c.menus, MenuID, n);
      DistinctStep(MapSeq(c.menus[..n], MenuID), c.menus[n].id);
    }
  }

  lemma MenuPrefixSuffices(c: AuthorizationCatalog)
    ensures MenusWellFormed(c) <==>
            && MenuPrefix(c, |c.menus|)
            && forall j :: 0 <= j < |c.menus| ==> Parent(c.menus[j].columns.parentID, MenuIDs(c))
    ensures MenuPrefix(c, |c.menus|) ==> forall j :: 0 <= j < |c.menus| ==> ShortID(c.menus[j].columns.parentID)
  {
    hide ShortID, Parent, Distinct, Functions;
    assert c.menus[..|c.menus|] == c.menus;
    assert forall j :: 0 <= j < |c.menus| ==> c.menus[j] in c.menus;
  }

  lemma NamesStep(names: map<string, set<string>>, menus: seq<Menu>, n: nat)
    requires n < |menus| && NamesOf(names, menus[..n]) && menus[n].id !in names
    ensures NamesOf(names[menus[n].id := set x | x in MapSeq(menus[n].functions, FunctionName)], menus[..n + 1])
  {
    assert menus[..n + 1] == menus[..n] + [menus[n]];
  }

  lemma NamesKeys(names: map<string, set<string>>, menus: seq<Menu>, id: string)
    requires NamesOf(names, menus)
    ensures id in names <==> id in MapSeq(menus, MenuID)
  {
    if id in MapSeq(menus, MenuID) {
      var i :| 0 <= i < |menus| && MapSeq(menus, MenuID)[i] == id;
      assert menus[i] in menus;
    }
  }

  lemma MenuPrefixShrinks(c: AuthorizationCatalog, n: nat)
    requires n <= |c.menus| && MenuPrefix(c, |c.menus|)
    ensures MenuPrefix(c, n)
  {
    assert c.menus[..|c.menus|] == c.menus;
    assert MapSeq(c.menus, MenuID)[..n] == MapSeq(c.menus[..n], MenuID);
    FunctionsPrefix(c.menus, n);
  }

  /** The first pass over the menus: each is well formed, and no menu or function ID repeats. */
  method ValidateMenuRows(c: AuthorizationCatalog) returns (error: Option<string>, names: map<string, set<string>>)
    ensures error.None? <==> MenuPrefix(c, |c.menus|)
    ensures error.None? ==> NamesOf(names, c.menus)
  {
    names := map[];
    var functionIDs: set<string> := {};
    for i := 0 to |c.menus|
      invariant MenuPrefix(c, i)
      invariant functionIDs == set id | id in MapSeq(Functions(c.menus[..i]), FunctionID)
      invariant NamesOf(names, c.menus[..i])
    {
      var menu := c.menus[i];
      MenuPrefixStep(c, i);
      NamesKeys(names, c.menus[..i], menu.id);
      assert MenuPrefix(c, |c.menus|) ==> MenuPrefix(c, i + 1) by {
        if MenuPrefix(c, |c.menus|) { MenuPrefixShrinks(c, i + 1); }
      }
      if menu.id == "" || menu.columns.name == "" || menu.columns.title == "" { return Some("menu ID, name and title are required"), names; }
      if !ShortID(menu.id) { return Some("menu ID is too long"), names; }
      if menu.columns.parentID != "" && !ShortID(menu.columns.parentID) { return Some("menu parent ID is too long"), names; }
      if menu.id in names { return Some("duplicate menu ID"), names; }
      var e, functionNames, ids := ValidateFunctions(menu, APIIDs(c), functionIDs, MapSeq(Functions(c.menus[..i]), FunctionID));
      if e.Some? { return e, names; }
      NamesStep(names, c.menus, i);
      names, functionIDs := names[menu.id := functionNames], ids;
    }
    assert c.menus[..|c.menus|] == c.menus;
    return None, names;
  }

  method ValidateMenus(c: AuthorizationCatalog) returns (error: Option<string>, names: map<string, set<string>>)
    ensures error.None? <==> MenusWellFormed(c)
    ensures error.None? ==> NamesOf(names, c.menus)
  {
    MenuPrefixSuffices(c);
    hide MenuPrefix, MenusWellFormed, NamesOf, ShortID;
    error, names := ValidateMenuRows(c);
    if error.Some? { return; }
    for i := 0 to |c.menus|
      invariant forall j :: 0 <= j < i ==> Parent(c.menus[j].columns.parentID, MenuIDs(c))
    {
      var parentID := c.menus[i].columns.parentID;
      NamesKeys(names, c.menus, parentID);
      if parentID != "" && parentID !in names { return Some("unknown parent menu"), names; }
      EmptyIsShort();
    }
  }

  lemma DeclaredNames(c: AuthorizationCatalog, names: map<string, set<string>>, menuID: string, functions: seq<string>)
    requires NamesOf(names, c.menus) && Distinct(MenuIDs(c))
    ensures Declares(c, menuID, functions) <==> menuID in names && forall n :: n in functions ==> n in names[menuID]
  {
    if Declares(c, menuID, functions) {
      var m :| m in c.menus && m.id == menuID && forall n :: n in functions ==> n in MapSeq(m.functions, FunctionName);
    } else if menuID in names {
      var m :| m in c.menus && m.id == menuID;
      assert exists n :: n in functions && n !in MapSeq(m.functions, FunctionName);
    }
  }

  method DeclaresAll(names: map<string, set<string>>, menuID: string, functions: seq<string>) returns (ok: bool)
    ensures ok <==> menuID in names && forall n :: n in functions ==> n in names[menuID]
  {
    if menuID !in names { return false; }
    for i := 0 to |functions|
      invariant forall j :: 0 <= j < i ==> functions[j] in names[menuID]
    {
      if functions[i] !in names[menuID] { return false; }
    }
    return true;
  }

  method ValidateGrants(c: AuthorizationCatalog, roleIDs: set<string>,
                        names: map<string, set<string>>) returns (error: Option<string>)
    requires roleIDs == (set id | id in RoleIDs(c)) && NamesOf(names, c.menus) && Distinct(MenuIDs(c))
    ensures error.None? <==> GrantsWellFormed(c)
  {
    for i := 0 to |c.roleGrants|
      invariant forall j :: 0 <= j < i ==>
                  c.roleGrants[j].roleID in RoleIDs(c) && Declares(c, c.roleGrants[j].menuID, c.roleGrants[j].functions)
    {
      var grant := c.roleGrants[i];
      assert grant in c.roleGrants;
      if grant.roleID !in roleIDs { return Some("role grant references unknown role"); }
      DeclaredNames(c, names, grant.menuID, grant.functions);
      var ok := DeclaresAll(names, grant.menuID, grant.functions);
      if !ok { return Some("role grant references unknown menu or function"); }
    }
    for i := 0 to |c.tenantGrants|
      invariant forall j :: 0 <= j < i ==> Declares(c, c.tenantGrants[j].menuID, c.tenantGrants[j].functions)
    {
      var grant := c.tenantGrants[i];
      assert grant in c.tenantGrants;
      DeclaredNames(c, names, grant.menuID, grant.functions);
      var ok := DeclaresAll(names, grant.menuID, grant.functions);
      if !ok { return Some("tenant grant references unknown menu or function"); }
    }
    for i := 0 to |c.policies|
      invariant forall j :: 0 <= j < i ==>
                  && c.policies[j].roleID in RoleIDs(c) && c.policies[j].resource != ""
                  && c.policies[j].action != "" && ValidDataScope(c.policies[j].dataScope)
    {
      var policy := c.policies[i];
      assert policy in c.policies;
      if policy.roleID !in roleIDs { return Some("ABAC policy references unknown role"); }
      if policy.resource == "" || policy.action == "" { return Some("ABAC policy resource and action are required"); }
      if !ValidDataScope(policy.dataScope) { return Some("unsupported data scope"); }
    }
    return None;
  }

  /** `validateAuthorizationCatalog` accepts exactly the well-formed catalogs. */
  method Validate(c: AuthorizationCatalog) returns (error: Option<string>)
    ensures error.None? <==> WellFormed(c)
  {
    var e, roleIDs := ValidateRoles(c);
    if e.Some? { return e; }
    var e', _ := ValidateAPIs(c);
    if e'.Some? { return e'; }
    var e'', names := ValidateMenus(c);
    if e''.Some? { return e''; }
    error := ValidateGrants(c, roleIDs, names);
  }
}
