/** The tables the catalog is reconciled into, and what one `Apply` makes of them (authorization/catalog.go).
    The store whose methods run it is in AuthorizationStore. */
module CatalogStore {
  import opened Text
  import opened Reconcile
  import opened Catalog

  datatype RoleRow = RoleRow(
    tenantID: string, projectID: string, name: string, parentID: string, defaultRouter: string, description: string,
    canDel: bool, public: bool, isMust: bool, enable: bool, deleted: bool)

  datatype MenuRow = MenuRow(tenantID: string, projectID: string, columns: MenuColumns, isMust: bool, deleted: bool)

  datatype APIRow = APIRow(
    tenantID: string, projectID: string, path: string, verb: string, group: string, description: string,
    enable: bool, checkAuth: bool, checkLogin: bool, isMust: bool, deleted: bool)

  datatype FunctionRow = FunctionRow(menuID: string, name: string, title: string, hidden: bool, deleted: bool)

  /** A soft-deletable pair: a function bound to an API, or a user holding a role. */
  datatype Link = Link(left: string, right: string, deleted: bool)

  /** A menu granted to a role or to a tenant, with the comma-joined names of its allowed functions. */
  datatype Grant = Grant(holder: string, menuID: string, funcs: string, show: bool, deleted: bool)

  datatype PolicyRow = PolicyRow(
    tenantID: string, roleID: string, resource: string, action: string,
    dataScope: int, condition: string, enable: bool, priority: int)

  datatype CasbinRule = CasbinRule(ptype: string, v0: string, v1: string, v2: string, v3: string, v4: string, v5: string)

  datatype UserRow = UserRow(tenantID: string, deleted: bool)

  /** The database. Tables keyed by a stable string ID are maps; the others hold their rows in primary-key
      order; the Casbin table has a unique index over all its columns, so it is a set. */
  datatype Tables = Tables(
    roles: map<string, RoleRow>, menus: map<string, MenuRow>, apis: map<string, APIRow>,
    functions: map<string, FunctionRow>, bindings: seq<Link>,
    roleGrants: seq<Grant>, tenantGrants: seq<Grant>, policies: seq<PolicyRow>,
    rules: set<CasbinRule>, users: map<string, UserRow>, userRoles: seq<Link>)

  // ---- the definitions the catalog makes --------------------------------------------------------------

  function RoleKey(r: RoleRow): (string, string, string) { (r.tenantID, r.projectID, r.name) }
  function MenuKey(m: MenuRow): (string, string, string) { (m.tenantID, m.projectID, m.columns.name) }
  function RowAPIKey(a: APIRow): (string, string, string, string) { (a.tenantID, a.projectID, a.path, a.verb) }
  function FunctionKey(f: FunctionRow): (string, string) { (f.menuID, f.name) }

  /** The column defaults of the role table: GORM stores them in place of a zero value on creation. */
  function WithColumnDefaults(r: RoleRow): RoleRow {
    r.(canDel := true, enable := true, defaultRouter := if r.defaultRouter == "" then "dashboard" else r.defaultRouter)
  }

  function HealedRole(c: AuthorizationCatalog, d: Role): RoleRow {
    RoleRow(c.tenantID, c.projectID, d.name, d.parentID, d.defaultRouter, d.description, false, d.public, true, true, false)
  }

  function HealedMenu(c: AuthorizationCatalog, d: Menu): MenuRow {
    MenuRow(c.tenantID, c.projectID, d.columns, true, false)
  }

  function HealedAPI(c: AuthorizationCatalog, d: API): APIRow {
    APIRow(c.tenantID, c.projectID, d.path, d.verb, d.group, d.description, true, d.checkAuth, d.checkLogin, true, false)
  }

  function HealedFunction(menuID: string, d: Function): FunctionRow {
    FunctionRow(menuID, d.name, d.title, d.hidden, false)
  }

  type RoleDef = Definition<(string, string, string), RoleRow>
  type MenuDef = Definition<(string, string, string), MenuRow>
  type APIDef = Definition<(string, string, string, string), APIRow>
  type FunctionDef = Definition<(string, string), FunctionRow>

  function RoleDefinition(c: AuthorizationCatalog, d: Role): RoleDef {
    var row := HealedRole(c, d);
    Definition(d.id, RoleKey(row), WithColumnDefaults(row), row)
  }

  function MenuDefinition(c: AuthorizationCatalog, d: Menu): MenuDef {
    var row := HealedMenu(c, d);
    Definition(d.id, MenuKey(row), row, row)
  }

  function APIDefinition(c: AuthorizationCatalog, d: API): APIDef {
    var row := HealedAPI(c, d);
    Definition(d.id, RowAPIKey(row), row, row)
  }

  /** A function together with the row ID of the menu it sits in. */
  datatype Placed = Placed(menuID: string, f: Function)

  function FunctionDefinition(p: Placed): FunctionDef {
    var row := HealedFunction(p.menuID, p.f);
    Definition(p.f.id, FunctionKey(row), row, row)
  }

  function RoleDefs(c: AuthorizationCatalog): seq<RoleDef> { MapSeq(c.roles, (d: Role) => RoleDefinition(c, d)) }
  function MenuDefs(c: AuthorizationCatalog): seq<MenuDef> { MapSeq(c.menus, (d: Menu) => MenuDefinition(c, d)) }
  function APIDefs(c: AuthorizationCatalog): seq<APIDef> { MapSeq(c.apis, (d: API) => APIDefinition(c, d)) }
  function FunctionDefs(ps: seq<Placed>): seq<FunctionDef> { MapSeq(ps, FunctionDefinition) }

  /** Go's map lookup: the zero value for an absent key. */
  function At(ids: map<string, string>, id: string): string {
    if id in ids then ids[id] else ""
  }

  function PlacedIn(menuID: string, functions: seq<Function>): seq<Placed> {
    MapSeq(functions, (f: Function) => Placed(menuID, f))
  }

  function PlacedFunctions(menus: seq<Menu>, menuIDs: map<string, string>): seq<Placed> {
    if menus == [] then [] else
      var m := menus[|menus| - 1];
      PlacedFunctions(menus[..|menus| - 1], menuIDs) + PlacedIn(At(menuIDs, m.id), m.functions)
  }

  // ---- link, grant and policy rows -------------------------------------------------------------------

  /** The first row a query finds. */
  function First<T>(rows: seq<T>, p: T -> bool): (r: Option<nat>)
    ensures r.Some? ==> r.value < |rows| && p(rows[r.value]) && forall j :: 0 <= j < r.value ==> !p(rows[j])
    ensures r.None? ==> forall j :: 0 <= j < |rows| ==> !p(rows[j])
  {
    if rows == [] then None
    else if p(rows[0]) then Some(0)
    else
      var r := First(rows[1..], p);
      if r.None? then None else Some(r.value + 1)
  }

  function Joins(left: string, right: string): Link -> bool {
    (x: Link) => x.left == left && x.right == right
  }

  /** Create the pair, or restore its first row; deleted rows are found too. */
  function EnsureLink(rows: seq<Link>, left: string, right: string): seq<Link> {
    var i := First(rows, Joins(left, right));
    if i.None? then rows + [Link(left, right, false)] else rows[i.value := rows[i.value].(deleted := false)]
  }

  function Bind(rows: seq<Link>, functionID: string, apis: seq<string>, apiIDs: map<string, string>): seq<Link> {
    if apis == [] then rows else
      EnsureLink(Bind(rows, functionID, apis[..|apis| - 1], apiIDs), functionID, At(apiIDs, apis[|apis| - 1]))
  }

  function Of(holder: string, menuID: string): Grant -> bool {
    (g: Grant) => g.holder == holder && g.menuID == menuID
  }

  function LiveOf(holder: string, menuID: string): Grant -> bool {
    (g: Grant) => g.holder == holder && g.menuID == menuID && !g.deleted
  }

  /** A grant is only ever created, only while seeding, and only when no row, live or deleted, exists. */
  function SeedGrant(rows: seq<Grant>, grant: Grant, seed: bool): seq<Grant> {
    if First(rows, Of(grant.holder, grant.menuID)).None? && seed then rows + [grant] else rows
  }

  function SeedGrants(rows: seq<Grant>, grants: seq<Grant>, seed: bool): seq<Grant> {
    if grants == [] then rows else SeedGrant(SeedGrants(rows, grants[..|grants| - 1], seed), grants[|grants| - 1], seed)
  }

  function Live(rows: seq<Grant>, holder: string, menuID: string): Option<Grant> {
    var i := First(rows, LiveOf(holder, menuID));
    if i.None? then None else Some(rows[i.value])
  }

  function Governs(p: PolicyRow): PolicyRow -> bool {
    (q: PolicyRow) => q.tenantID == p.tenantID && q.roleID == p.roleID && q.resource == p.resource && q.action == p.action
  }

  function EnsurePolicy(rows: seq<PolicyRow>, p: PolicyRow, seed: bool): seq<PolicyRow> {
    var i := First(rows, Governs(p));
    if i.None? then rows + [p] else if seed then rows[i.value := p] else rows
  }

  function EnsurePolicies(rows: seq<PolicyRow>, ps: seq<PolicyRow>, seed: bool): seq<PolicyRow> {
    if ps == [] then rows else EnsurePolicy(EnsurePolicies(rows, ps[..|ps| - 1], seed), ps[|ps| - 1], seed)
  }

  // ---- functions and their API bindings, one pass ------------------------------------------------------

  datatype FunctionState = FunctionState(rows: map<string, FunctionRow>, ids: map<string, string>, bindings: seq<Link>)

  function PlaceFunction(s: FunctionState, p: Placed, apiIDs: map<string, string>): FunctionState {
    var d := FunctionDefinition(p);
    var id := ResolvedID(s.rows, FunctionKey, d);
    FunctionState(Upsert(s.rows, FunctionKey, d), s.ids[d.id := id], Bind(s.bindings, id, p.f.apiIDs, apiIDs))
  }

  function PlaceFunctions(s: FunctionState, ps: seq<Placed>, apiIDs: map<string, string>): FunctionState {
    if ps == [] then s else PlaceFunction(PlaceFunctions(s, ps[..|ps| - 1], apiIDs), ps[|ps| - 1], apiIDs)
  }

  function ToSet<T(==)>(s: seq<T>): set<T> {
    if s == [] then {} else ToSet(s[..|s| - 1]) + {s[|s| - 1]}
  }

  lemma {:induction false} ToSetAppend<T>(s: seq<T>, t: seq<T>)
    ensures ToSet(s + t) == ToSet(s) + ToSet(t)
  {
    if t == [] {
      assert s + t == s;
    } else {
      ToSetAppend(s, t[..|t| - 1]);
      assert (s + t)[..|s + t| - 1] == s + t[..|t| - 1];
    }
  }

  lemma {:induction false} ToSetMembers<T>(s: seq<T>, x: T)
    ensures x in ToSet(s) <==> x in s
  {
    if s != [] {
      ToSetMembers(s[..|s| - 1], x);
      assert s == s[..|s| - 1] + [s[|s| - 1]];
    }
  }

  // ---- Casbin ------------------------------------------------------------------------------------------

  datatype IDs = IDs(roles: map<string, string>, menus: map<string, string>, apis: map<string, string>, functions: map<string, string>)

  function RuleFor(roleID: string, api: API): CasbinRule {
    CasbinRule("p", roleID, api.path, api.verb, if api.checkAuth then "true" else "false", "", "")
  }

  /** `apiProjectionByID`: a later API on the same row replaces an earlier one. */
  function Projections(apis: seq<API>, apiIDs: map<string, string>): map<string, API> {
    if apis == [] then map[] else
      Projections(apis[..|apis| - 1], apiIDs)[At(apiIDs, apis[|apis| - 1].id) := apis[|apis| - 1]]
  }

  const NO_API := API("", "", "", "", "", false, false)

  function ProjectionAt(apis: map<string, API>, id: string): API {
    if id in apis then apis[id] else NO_API
  }

  /** `functionByMenuAndName`, keyed by menu row ID, NUL and function name. */
  function FunctionIndex(ps: seq<Placed>, functionIDs: map<string, string>): map<string, string> {
    if ps == [] then map[] else
      var p := ps[|ps| - 1];
      FunctionIndex(ps[..|ps| - 1], functionIDs)[p.menuID + "\0" + p.f.name := At(functionIDs, p.f.id)]
  }

  /** `functionDefinitions`, keyed by catalog ID. */
  function DefinitionMap(ps: seq<Placed>): map<string, Function> {
    if ps == [] then map[] else DefinitionMap(ps[..|ps| - 1])[ps[|ps| - 1].f.id := ps[|ps| - 1].f]
  }

  function ResolvesTo(ids: map<string, string>, target: string): string -> bool {
    (id: string) => id in ids && ids[id] == target
  }

  /** `functionDefinitionsByResolvedID`; `walk` is the order in which the runtime walks the ID map. */
  function DefinitionByRow(definitions: map<string, Function>, ids: map<string, string>, walk: seq<string>,
                           target: string): Option<Function> {
    var i := First(walk, ResolvesTo(ids, target));
    if i.None? || walk[i.value] !in definitions then None else Some(definitions[walk[i.value]])
  }

  /** What the rule pass reads besides the grants. */
  datatype RuleContext = RuleContext(
    projections: map<string, API>, apiIDs: map<string, string>, index: map<string, string>,
    definitions: map<string, Function>, functionIDs: map<string, string>, walk: seq<string>)

  function RulesOfAPIs(x: RuleContext, roleID: string, apis: seq<string>): seq<CasbinRule> {
    MapSeq(apis, (a: string) => RuleFor(roleID, ProjectionAt(x.projections, At(x.apiIDs, a))))
  }

  function RulesOfName(x: RuleContext, roleID: string, menuID: string, name: string): seq<CasbinRule> {
    var f := DefinitionByRow(x.definitions, x.functionIDs, x.walk, At(x.index, menuID + "\0" + name));
    if f.None? then [] else RulesOfAPIs(x, roleID, f.value.apiIDs)
  }

  function RulesOfNames(x: RuleContext, roleID: string, menuID: string, allowed: set<string>,
                        names: seq<string>): seq<CasbinRule> {
    if names == [] then [] else
      var name := names[|names| - 1];
      RulesOfNames(x, roleID, menuID, allowed, names[..|names| - 1]) +
      if name in allowed then RulesOfName(x, roleID, menuID, name) else []
  }

  function RulesOfGrant(x: RuleContext, roleGrants: seq<Grant>, tenantGrants: seq<Grant>, tenantID: string,
                        roleID: string, menuID: string, names: seq<string>): seq<CasbinRule>
  {
    var r, t := Live(roleGrants, roleID, menuID), Live(tenantGrants, tenantID, menuID);
    if r.None? || t.None? then []
    else RulesOfNames(x, roleID, menuID, CsvSet(r.value.funcs) * CsvSet(t.value.funcs), names)
  }

  function RulesOfGrants(x: RuleContext, roleGrants: seq<Grant>, tenantGrants: seq<Grant>, tenantID: string,
                         ids: IDs, grants: seq<RoleGrant>): seq<CasbinRule>
  {
    if grants == [] then [] else
      var g := grants[|grants| - 1];
      RulesOfGrants(x, roleGrants, tenantGrants, tenantID, ids, grants[..|grants| - 1]) +
      RulesOfGrant(x, roleGrants, tenantGrants, tenantID, At(ids.roles, g.roleID), At(ids.menus, g.menuID), g.functions)
  }

  // ---- one Apply ---------------------------------------------------------------------------------------

  function RoleGrantRows(c: AuthorizationCatalog, ids: IDs): seq<Grant> {
    MapSeq(c.roleGrants, (g: RoleGrant) => Grant(At(ids.roles, g.roleID), At(ids.menus, g.menuID), Join(g.functions), g.show, false))
  }

  function TenantGrantRows(c: AuthorizationCatalog, ids: IDs): seq<Grant> {
    MapSeq(c.tenantGrants, (g: TenantGrant) => Grant(g.tenantID, At(ids.menus, g.menuID), Join(g.functions), true, false))
  }

  function PolicyRows(c: AuthorizationCatalog, ids: IDs): seq<PolicyRow> {
    MapSeq(c.policies, (p: ABACPolicy) =>
      PolicyRow(p.tenantID, At(ids.roles, p.roleID), p.resource, p.action, p.dataScope, p.condition, true, p.priority))
  }

  /** `authorizationCatalogPreviouslyApplied`; every count includes deleted rows. */
  ghost predicate PreviouslyApplied(t: Tables, c: AuthorizationCatalog) {
    || (exists id :: id in MenuIDs(c) && id in t.menus)
    || (exists id :: id in APIIDs(c) && id in t.apis)
    || (c.menus == [] && c.apis == [] && exists id :: id in RoleIDs(c) && id in t.roles)
    || exists g :: g in t.tenantGrants && g.holder == c.tenantID && g.menuID in MenuIDs(c)
  }

  ghost function FunctionPass(t: Tables, c: AuthorizationCatalog): FunctionState {
    var menuIDs := ResolveAll(t.menus, MenuKey, MenuDefs(c));
    var apiIDs := ResolveAll(t.apis, RowAPIKey, APIDefs(c));
    PlaceFunctions(FunctionState(t.functions, map[], t.bindings), PlacedFunctions(c.menus, menuIDs), apiIDs)
  }

  ghost function IDsOf(t: Tables, c: AuthorizationCatalog): IDs {
    IDs(ResolveAll(t.roles, RoleKey, RoleDefs(c)), ResolveAll(t.menus, MenuKey, MenuDefs(c)),
        ResolveAll(t.apis, RowAPIKey, APIDefs(c)), FunctionPass(t, c).ids)
  }

  function ContextOf(c: AuthorizationCatalog, ids: IDs, walk: seq<string>): RuleContext {
    var ps := PlacedFunctions(c.menus, ids.menus);
    RuleContext(Projections(c.apis, ids.apis), ids.apis, FunctionIndex(ps, ids.functions), DefinitionMap(ps), ids.functions, walk)
  }

  function RuleList(c: AuthorizationCatalog, ids: IDs, walk: seq<string>, roleGrants: seq<Grant>,
                    tenantGrants: seq<Grant>): seq<CasbinRule> {
    RulesOfGrants(ContextOf(c, ids, walk), roleGrants, tenantGrants, c.tenantID, ids, c.roleGrants)
  }

  /** The tables after roles, menus, APIs, functions and bindings are reconciled. */
  ghost function Resources(t: Tables, c: AuthorizationCatalog): Tables {
    var pass := FunctionPass(t, c);
    t.(roles := UpsertAll(t.roles, RoleKey, RoleDefs(c)),
       menus := UpsertAll(t.menus, MenuKey, MenuDefs(c)),
       apis := UpsertAll(t.apis, RowAPIKey, APIDefs(c)),
       functions := pass.rows, bindings := pass.bindings)
  }

  /** The tables after grants, policies and Casbin rules follow. */
  function Granted(t: Tables, c: AuthorizationCatalog, ids: IDs, walk: seq<string>, seed: bool): Tables {
    var roleGrants := SeedGrants(t.roleGrants, RoleGrantRows(c, ids), seed);
    var tenantGrants := SeedGrants(t.tenantGrants, TenantGrantRows(c, ids), seed);
    t.(roleGrants := roleGrants, tenantGrants := tenantGrants,
       policies := EnsurePolicies(t.policies, PolicyRows(c, ids), seed),
       rules := t.rules + ToSet(RuleList(c, ids, walk, roleGrants, tenantGrants)))
  }

  /** The tables after every step of `Apply` but the default-role backfill. */
  ghost function Published(t: Tables, c: AuthorizationCatalog, walk: seq<string>): Tables {
    Granted(Resources(t, c), c, IDsOf(t, c), walk, !PreviouslyApplied(t, c))
  }

  /** The live users of a tenant that hold no live role. */
  function Roleless(users: map<string, UserRow>, userRoles: seq<Link>, tenantID: string): set<string> {
    set u | u in users && users[u].tenantID == tenantID && !users[u].deleted &&
            !exists i :: 0 <= i < |userRoles| && userRoles[i].left == u && !userRoles[i].deleted
  }

  function Assign(userRoles: seq<Link>, users: seq<string>, roleID: string): seq<Link> {
    if users == [] then userRoles else EnsureLink(Assign(userRoles, users[..|users| - 1], roleID), users[|users| - 1], roleID)
  }

  datatype Summary = Summary(casbinRuleCount: nat, defaultRoleUsersAdded: nat)

  /** The default-role backfill on published tables. It fails, and with it the whole transaction, when a
      user without a role, or the row of the default role, has an empty ID. */
  function Backfilled(t: Tables, c: AuthorizationCatalog, roleID: string, count: nat): Result<(Tables, Summary), string> {
    if c.defaultRoleID == "" then Ok((t, Summary(count, 0))) else
      var targets := Roleless(t.users, t.userRoles, c.tenantID);
      if targets != {} && ("" in targets || roleID == "") then Err("user ID and role ID are required") else
        Ok((t.(userRoles := Assign(t.userRoles, Ascending(targets), roleID)), Summary(count, |targets|)))
  }

  ghost function RuleCount(t: Tables, c: AuthorizationCatalog, walk: seq<string>): nat {
    |RuleList(c, IDsOf(t, c), walk, Published(t, c, walk).roleGrants, Published(t, c, walk).tenantGrants)|
  }

  // ---- the rules of the login-only and the public subject -----------------------------------------------

  const LOGIN_SUBJECT := "0"
  const PUBLIC_SUBJECT := "-1"

  function SubjectRule(subject: string, row: APIRow): CasbinRule {
    CasbinRule("p", subject, row.path, row.verb, "false", "", "")
  }

  /** The live APIs open to any caller who logged in, or to anyone at all. */
  predicate OpenTo(subject: string, row: APIRow) {
    !row.deleted && if subject == LOGIN_SUBJECT then !row.checkAuth && row.checkLogin else !row.checkLogin
  }

  /** One rule per method and path of the API table, whatever tenant a row belongs to. */
  function SubjectRules(apis: map<string, APIRow>, subject: string): set<CasbinRule> {
    set id | id in apis && OpenTo(subject, apis[id]) :: SubjectRule(subject, apis[id])
  }

  /** `ClearCasbin` for one subject. */
  function Cleared(rules: set<CasbinRule>, subject: string): set<CasbinRule> {
    set r | r in rules && !(r.ptype == "p" && r.v0 == subject)
  }

  /** Both rebuilds, which end every successful `Apply`. */
  function Projected(rules: set<CasbinRule>, apis: map<string, APIRow>): set<CasbinRule> {
    Cleared(Cleared(rules, LOGIN_SUBJECT) + SubjectRules(apis, LOGIN_SUBJECT), PUBLIC_SUBJECT) + SubjectRules(apis, PUBLIC_SUBJECT)
  }

  /** A rule of one of the two subjects. */
  predicate Reserved(r: CasbinRule) {
    r.ptype == "p" && (r.v0 == LOGIN_SUBJECT || r.v0 == PUBLIC_SUBJECT)
  }

  /** The two subjects' rules are exactly the API table's; every other rule is as it was. */
  lemma ProjectedMeans(rules: set<CasbinRule>, apis: map<string, APIRow>, r: CasbinRule)
    ensures r in Projected(rules, apis) <==>
            if Reserved(r) then r in SubjectRules(apis, r.v0) else r in rules
  {
  }

  function Reprojected(t: Tables): Tables {
    t.(rules := Projected(t.rules, t.apis))
  }

  /** One `Apply` of a normalized catalog: the transaction, then the two rebuilds. */
  ghost function Applied(t: Tables, c: AuthorizationCatalog, walk: seq<string>): Result<(Tables, Summary), string> {
    var outcome := Transacted(t, c, walk);
    if outcome.Err? then outcome else Ok((Reprojected(outcome.value.0), outcome.value.1))
  }

  ghost function Transacted(t: Tables, c: AuthorizationCatalog, walk: seq<string>): Result<(Tables, Summary), string> {
    if !WellFormed(c) then Err("invalid catalog")
    else Backfilled(Published(t, c, walk), c, At(IDsOf(t, c).roles, c.defaultRoleID), RuleCount(t, c, walk))
  }
}
