/** `Apply` and its helpers run step by step on a store whose fields are the tables; every method is
    tied to the specification in CatalogStore (authorization/catalog.go). */
module AuthorizationStores {
  import opened Text
  import opened Reconcile
  import opened Catalog
  import opened CatalogStore

  class AuthorizationStore {
    var roles: map<string, RoleRow>
    var menus: map<string, MenuRow>
    var apis: map<string, APIRow>
    var functions: map<string, FunctionRow>
    var bindings: seq<Link>
    var roleGrants: seq<Grant>
    var tenantGrants: seq<Grant>
    var policies: seq<PolicyRow>
    var rules: set<CasbinRule>
    var users: map<string, UserRow>
    var userRoles: seq<Link>

    constructor (t: Tables)
      ensures Snapshot() == t
    {
      roles, menus, apis, functions, bindings := t.roles, t.menus, t.apis, t.functions, t.bindings;
      roleGrants, tenantGrants, policies := t.roleGrants, t.tenantGrants, t.policies;
      rules, users, userRoles := t.rules, t.users, t.userRoles;
    }

    function Snapshot(): Tables
      reads this
    {
      Tables(roles, menus, apis, functions, bindings, roleGrants, tenantGrants, policies, rules, users, userRoles)
    }

    /** Rolling a transaction back. */
    method Restore(t: Tables)
      modifies this
      ensures Snapshot() == t
    {
      roles, menus, apis, functions, bindings := t.roles, t.menus, t.apis, t.functions, t.bindings;
      roleGrants, tenantGrants, policies := t.roleGrants, t.tenantGrants, t.policies;
      rules, users, userRoles := t.rules, t.users, t.userRoles;
    }

    /** `upsertCatalogRole`: creation goes through the column defaults, healing does not. */
    method UpsertRole(c: AuthorizationCatalog, d: Role) returns (id: string)
      modifies this`roles
      ensures roles == Upsert(old(roles), RoleKey, RoleDefinition(c, d))
      ensures id == ResolvedID(old(roles), RoleKey, RoleDefinition(c, d))
    {
      var row := RoleRow(c.tenantID, c.projectID, d.name, d.parentID, d.defaultRouter, d.description, false, d.public, true, true, false);
      if d.id in roles {
        id := d.id;
      } else {
        var byName := Matches(roles, RoleKey, (c.tenantID, c.projectID, d.name));
        if byName == {} {
          id := d.id;
          roles := roles[id := WithColumnDefaults(row)];
          return;
        }
        id := Least(byName);
      }
      roles := roles[id := row];
    }

    /** `upsertCatalogMenu`. */
    method UpsertMenu(c: AuthorizationCatalog, d: Menu) returns (id: string)
      modifies this`menus
      ensures menus == Upsert(old(menus), MenuKey, MenuDefinition(c, d))
      ensures id == ResolvedID(old(menus), MenuKey, MenuDefinition(c, d))
    {
      if d.id in menus {
        id := d.id;
      } else {
        var byName := Matches(menus, MenuKey, (c.tenantID, c.projectID, d.columns.name));
        id := if byName == {} then d.id else Least(byName);
      }
      menus := menus[id := MenuRow(c.tenantID, c.projectID, d.columns, true, false)];
    }

    /** `upsertCatalogAPI`. */
    method UpsertAPI(c: AuthorizationCatalog, d: API) returns (id: string)
      modifies this`apis
      ensures apis == Upsert(old(apis), RowAPIKey, APIDefinition(c, d))
      ensures id == ResolvedID(old(apis), RowAPIKey, APIDefinition(c, d))
    {
      if d.id in apis {
        id := d.id;
      } else {
        var byRoute := Matches(apis, RowAPIKey, (c.tenantID, c.projectID, d.path, d.verb));
        id := if byRoute == {} then d.id else Least(byRoute);
      }
      apis := apis[id := APIRow(c.tenantID, c.projectID, d.path, d.verb, d.group, d.description, true, d.checkAuth, d.checkLogin, true, false)];
    }

    /** `upsertCatalogFunction`. */
    method UpsertFunction(menuID: string, d: Function) returns (id: string)
      modifies this`functions
      ensures functions == Upsert(old(functions), FunctionKey, FunctionDefinition(Placed(menuID, d)))
      ensures id == ResolvedID(old(functions), FunctionKey, FunctionDefinition(Placed(menuID, d)))
    {
      if d.id in functions {
        id := d.id;
      } else {
        var byName := Matches(functions, FunctionKey, (menuID, d.name));
        id := if byName == {} then d.id else Least(byName);
      }
      functions := functions[id := FunctionRow(menuID, d.name, d.title, d.hidden, false)];
    }

    /** `ensureCatalogFunctionAPI`. */
    method EnsureFunctionAPI(functionID: string, apiID: string)
      modifies this`bindings
      ensures bindings == EnsureLink(old(bindings), functionID, apiID)
    {
      var i := First(bindings, Joins(functionID, apiID));
      if i.None? {
        bindings := bindings + [Link(functionID, apiID, false)];
        return;
      }
      if bindings[i.value].deleted {
        bindings := bindings[i.value := bindings[i.value].(deleted := false)];
      }
    }

    method UpsertRoles(c: AuthorizationCatalog) returns (ids: map<string, string>)
      modifies this`roles
      ensures roles == UpsertAll(old(roles), RoleKey, RoleDefs(c))
      ensures ids == ResolveAll(old(roles), RoleKey, RoleDefs(c))
    {
      ids := map[];
      for i := 0 to |c.roles|
        invariant roles == UpsertAll(old(roles), RoleKey, RoleDefs(c)[..i])
        invariant ids == ResolveAll(old(roles), RoleKey, RoleDefs(c)[..i])
      {
        FoldStep(old(roles), RoleKey, RoleDefs(c), i);
        var id := UpsertRole(c, c.roles[i]);
        ids := ids[c.roles[i].id := id];
      }
      assert RoleDefs(c)[..|c.roles|] == RoleDefs(c);
    }

    method UpsertMenus(c: AuthorizationCatalog) returns (ids: map<string, string>)
      modifies this`menus
      ensures menus == UpsertAll(old(menus), MenuKey, MenuDefs(c))
      ensures ids == ResolveAll(old(menus), MenuKey, MenuDefs(c))
    {
      ids := map[];
      for i := 0 to |c.menus|
        invariant menus == UpsertAll(old(menus), MenuKey, MenuDefs(c)[..i])
        invariant ids == ResolveAll(old(menus), MenuKey, MenuDefs(c)[..i])
      {
        FoldStep(old(menus), MenuKey, MenuDefs(c), i);
        var id := UpsertMenu(c, c.menus[i]);
        ids := ids[c.menus[i].id := id];
      }
      assert MenuDefs(c)[..|c.menus|] == MenuDefs(c);
    }

    method UpsertAPIs(c: AuthorizationCatalog) returns (ids: map<string, string>)
      modifies this`apis
      ensures apis == UpsertAll(old(apis), RowAPIKey, APIDefs(c))
      ensures ids == ResolveAll(old(apis), RowAPIKey, APIDefs(c))
    {
      ids := map[];
      for i := 0 to |c.apis|
        invariant apis == UpsertAll(old(apis), RowAPIKey, APIDefs(c)[..i])
        invariant ids == ResolveAll(old(apis), RowAPIKey, APIDefs(c)[..i])
      {
        FoldStep(old(apis), RowAPIKey, APIDefs(c), i);
        var id := UpsertAPI(c, c.apis[i]);
        ids := ids[c.apis[i].id := id];
      }
      assert APIDefs(c)[..|c.apis|] == APIDefs(c);
    }

    method PlaceOne(p: Placed, apiIDs: map<string, string>) returns (id: string)
      modifies this`functions, this`bindings
      ensures functions == Upsert(old(functions), FunctionKey, FunctionDefinition(p))
      ensures id == ResolvedID(old(functions), FunctionKey, FunctionDefinition(p))
      ensures bindings == Bind(old(bindings), id, p.f.apiIDs, apiIDs)
    {
      id := UpsertFunction(p.menuID, p.f);
      ghost var placed := functions;
      for j := 0 to |p.f.apiIDs|
        invariant functions == placed
        invariant bindings == Bind(old(bindings), id, p.f.apiIDs[..j], apiIDs)
      {
        assert p.f.apiIDs[..j + 1][..j] == p.f.apiIDs[..j];
        EnsureFunctionAPI(id, At(apiIDs, p.f.apiIDs[j]));
      }
      assert p.f.apiIDs[..|p.f.apiIDs|] == p.f.apiIDs;
    }

    /** The functions of one menu, with those placed before it in the state `s`. */
    method PlaceMenu(m: Menu, menuID: string, apiIDs: map<string, string>,
                     known: map<string, string>) returns (ids: map<string, string>)
      modifies this`functions, this`bindings
      ensures FunctionState(functions, ids, bindings) ==
              PlaceFunctions(FunctionState(old(functions), known, old(bindings)), PlacedIn(menuID, m.functions), apiIDs)
    {
      ids := known;
      ghost var s0 := FunctionState(functions, known, bindings);
      ghost var ps := PlacedIn(menuID, m.functions);
      for j := 0 to |m.functions|
        invariant FunctionState(functions, ids, bindings) == PlaceFunctions(s0, ps[..j], apiIDs)
      {
        PlaceFunctionsStep(s0, ps, j, apiIDs);
        assert ps[j] == Placed(menuID, m.functions[j]);
        var id := PlaceOne(Placed(menuID, m.functions[j]), apiIDs);
        ids := ids[m.functions[j].id := id];
      }
      assert ps[..|ps|] == ps;
    }

    /** The function loop of `Apply`: menu by menu, function by function, binding by binding. */
    method UpsertFunctions(c: AuthorizationCatalog, menuIDs: map<string, string>, apiIDs: map<string, string>)
      returns (ids: map<string, string>)
      modifies this`functions, this`bindings
      ensures FunctionState(functions, ids, bindings) ==
              PlaceFunctions(FunctionState(old(functions), map[], old(bindings)), PlacedFunctions(c.menus, menuIDs), apiIDs)
    {
      ids := map[];
      ghost var s0 := FunctionState(functions, map[], bindings);
      hide PlaceFunctions, PlaceFunction, PlacedFunctions, PlacedIn, At;
      NoMenusPlaced(s0, c.menus, menuIDs, apiIDs);
      for i := 0 to |c.menus|
        invariant FunctionState(functions, ids, bindings) == PlaceFunctions(s0, PlacedFunctions(c.menus[..i], menuIDs), apiIDs)
      {
        var m := c.menus[i];
        PlaceMenusStep(s0, c.menus, i, menuIDs, apiIDs);
        ids := PlaceMenu(m, At(menuIDs, m.id), apiIDs, ids);
      }
      assert c.menus[..|c.menus|] == c.menus;
    }

    /** `ensureCatalogRoleGrant`. */
    method EnsureRoleGrant(grant: Grant, seed: bool)
      modifies this`roleGrants
      ensures roleGrants == SeedGrant(old(roleGrants), grant, seed)
    {
      var i := First(roleGrants, Of(grant.holder, grant.menuID));
      if i.None? {
        if !seed { return; }
        roleGrants := roleGrants + [grant];
      }
    }

    /** `ensureCatalogTenantGrant`. */
    method EnsureTenantGrant(grant: Grant, seed: bool)
      modifies this`tenantGrants
      ensures tenantGrants == SeedGrant(old(tenantGrants), grant, seed)
    {
      var i := First(tenantGrants, Of(grant.holder, grant.menuID));
      if i.None? {
        if !seed { return; }
        tenantGrants := tenantGrants + [grant];
      }
    }

    /** `ensureCatalogABACPolicy`. */
    method EnsureABACPolicy(p: PolicyRow, seed: bool)
      modifies this`policies
      ensures policies == EnsurePolicy(old(policies), p, seed)
    {
      var i := First(policies, Governs(p));
      if i.None? {
        policies := policies + [p];
        return;
      }
      if !seed { return; }
      policies := policies[i.value := policies[i.value].(dataScope := p.dataScope, condition := p.condition, enable := p.enable, priority := p.priority)];
    }

    method SeedRoleGrants(c: AuthorizationCatalog, ids: IDs, seed: bool)
      modifies this`roleGrants
      ensures roleGrants == SeedGrants(old(roleGrants), RoleGrantRows(c, ids), seed)
    {
      var rows := RoleGrantRows(c, ids);
      for i := 0 to |rows|
        invariant roleGrants == SeedGrants(old(roleGrants), rows[..i], seed)
      {
        assert rows[..i + 1][..i] == rows[..i];
        EnsureRoleGrant(rows[i], seed);
      }
      assert rows[..|rows|] == rows;
    }

    method SeedTenantGrants(c: AuthorizationCatalog, ids: IDs, seed: bool)
      modifies this`tenantGrants
      ensures tenantGrants == SeedGrants(old(tenantGrants), TenantGrantRows(c, ids), seed)
    {
      var rows := TenantGrantRows(c, ids);
      for i := 0 to |rows|
        invariant tenantGrants == SeedGrants(old(tenantGrants), rows[..i], seed)
      {
        assert rows[..i + 1][..i] == rows[..i];
        EnsureTenantGrant(rows[i], seed);
      }
      assert rows[..|rows|] == rows;
    }

    method SeedPolicies(c: AuthorizationCatalog, ids: IDs, seed: bool)
      modifies this`policies
      ensures policies == EnsurePolicies(old(policies), PolicyRows(c, ids), seed)
    {
      var rows := PolicyRows(c, ids);
      for i := 0 to |rows|
        invariant policies == EnsurePolicies(old(policies), rows[..i], seed)
      {
        assert rows[..i + 1][..i] == rows[..i];
        EnsureABACPolicy(rows[i], seed);
      }
      assert rows[..|rows|] == rows;
    }

    /** `authorizationCatalogPreviouslyApplied`. */
    method CheckPreviouslyApplied(c: AuthorizationCatalog) returns (applied: bool)
      ensures applied == PreviouslyApplied(Snapshot(), c)
    {
      if exists id :: id in MenuIDs(c) && id in menus { return true; }
      if exists id :: id in APIIDs(c) && id in apis { return true; }
      if c.menus == [] && c.apis == [] {
        if exists id :: id in RoleIDs(c) && id in roles { return true; }
      }
      if c.menus == [] {
        assert MenuIDs(c) == [];
        return false;
      }
      return exists g :: g in tenantGrants && g.holder == c.tenantID && g.menuID in MenuIDs(c);
    }

    method AddRules(list: seq<CasbinRule>)
      modifies this`rules
      ensures rules == old(rules) + ToSet(list)
    {
      for i := 0 to |list|
        invariant rules == old(rules) + ToSet(list[..i])
      {
        assert list[..i + 1][..i] == list[..i] && list[..i + 1][i] == list[i];
        rules := rules + {list[i]};
      }
      assert list[..|list|] == list;
    }

    /** The names of one grant: those both lists allow add a rule per API of their definition. */
    method AddNameRules(x: RuleContext, roleID: string, menuID: string, roleFunctions: set<string>,
                        tenantFunctions: set<string>, names: seq<string>)
      returns (count: nat)
      modifies this`rules
      ensures rules == old(rules) + ToSet(RulesOfNames(x, roleID, menuID, roleFunctions * tenantFunctions, names))
      ensures count == |RulesOfNames(x, roleID, menuID, roleFunctions * tenantFunctions, names)|
    {
      count := 0;
      for i := 0 to |names|
        invariant rules == old(rules) + ToSet(RulesOfNames(x, roleID, menuID, roleFunctions * tenantFunctions, names[..i]))
        invariant count == |RulesOfNames(x, roleID, menuID, roleFunctions * tenantFunctions, names[..i])|
      {
        hide ToSet, RulesOfNames;
        RulesOfNamesStep(x, roleID, menuID, roleFunctions * tenantFunctions, names, i);
        if names[i] !in roleFunctions { continue; }
        if names[i] !in tenantFunctions { continue; }
        var list := RulesOfName(x, roleID, menuID, names[i]);
        AddRules(list);
        count := count + |list|;
      }
      assert names[..|names|] == names;
    }

    method AddGrantRules(x: RuleContext, tenantID: string, roleID: string, menuID: string,
                         names: seq<string>) returns (count: nat)
      modifies this`rules
      ensures rules == old(rules) + ToSet(RulesOfGrant(x, roleGrants, tenantGrants, tenantID, roleID, menuID, names))
      ensures count == |RulesOfGrant(x, roleGrants, tenantGrants, tenantID, roleID, menuID, names)|
    {
      var roleGrant := Live(roleGrants, roleID, menuID);
      if roleGrant.None? { return 0; }
      var tenantGrant := Live(tenantGrants, tenantID, menuID);
      if tenantGrant.None? { return 0; }
      count := AddNameRules(x, roleID, menuID, CsvSet(roleGrant.value.funcs), CsvSet(tenantGrant.value.funcs), names);
    }

    /** `ensureCatalogCasbinRules`. */
    method EnsureCasbinRules(c: AuthorizationCatalog, ids: IDs, walk: seq<string>) returns (count: nat)
      modifies this`rules
      ensures rules == old(rules) + ToSet(RuleList(c, ids, walk, roleGrants, tenantGrants))
      ensures count == |RuleList(c, ids, walk, roleGrants, tenantGrants)|
    {
      count := 0;
      var x := ContextOf(c, ids, walk);
      hide ContextOf, RulesOfGrants, RulesOfGrant, ToSet, RuleList, At;
      RulesOfNoGrants(c, ids, walk, roleGrants, tenantGrants);
      for i := 0 to |c.roleGrants|
        invariant rules == old(rules) + ToSet(RulesOfGrants(x, roleGrants, tenantGrants, c.tenantID, ids, c.roleGrants[..i]))
        invariant count == |RulesOfGrants(x, roleGrants, tenantGrants, c.tenantID, ids, c.roleGrants[..i])|
      {
        var grant := c.roleGrants[i];
        RulesOfGrantsStep(x, roleGrants, tenantGrants, c.tenantID, ids, c.roleGrants, i);
        var added := AddGrantRules(x, c.tenantID, At(ids.roles, grant.roleID), At(ids.menus, grant.menuID), grant.functions);
        count := count + added;
      }
      assert c.roleGrants[..|c.roleGrants|] == c.roleGrants;
    }

    /** `ensureCatalogUserRole`: the user must be live, the role live and enabled, and, unless the role is
        public or belongs to no tenant, of the user's own tenant. */
    method EnsureUserRole(userID: string, roleID: string) returns (created: Result<bool, string>)
      modifies this`userRoles
      ensures created.Ok? <==> MayHold(users, roles, userID, roleID)
      ensures userRoles == if created.Ok? then EnsureLink(old(userRoles), userID, roleID) else old(userRoles)
      ensures created.Ok? ==> (created.value <==> userRoles != old(userRoles))
    {
      if userID == "" || roleID == "" { return Err("user ID and role ID are required"); }
      if userID !in users || users[userID].deleted { return Err("load user"); }
      if roleID !in roles || roles[roleID].deleted || !roles[roleID].enable { return Err("load role"); }
      var role := roles[roleID];
      if !role.public && role.tenantID != "" && role.tenantID != users[userID].tenantID { return Err("role does not belong to user tenant"); }
      var i := First(userRoles, Joins(userID, roleID));
      if i.None? {
        userRoles := userRoles + [Link(userID, roleID, false)];
        return Ok(true);
      }
      if userRoles[i.value].deleted {
        userRoles := userRoles[i.value := userRoles[i.value].(deleted := false)];
        return Ok(true);
      }
      assert userRoles[i.value := userRoles[i.value].(deleted := false)] == userRoles;
      return Ok(false);
    }

    /** The loop of the backfill over users that hold no live role. */
    method AssignAll(targets: seq<string>, roleID: string) returns (added: Result<nat, string>)
      requires Distinct(targets) && forall u :: u in targets ==> HoldsNothing(userRoles, u)
      modifies this`userRoles
      ensures added.Ok? <==> forall u :: u in targets ==> MayHold(users, roles, u, roleID)
      ensures added.Ok? ==> added.value == |targets| && userRoles == Assign(old(userRoles), targets, roleID)
    {
      var n := 0;
      for i := 0 to |targets|
        invariant n == i
        invariant userRoles == Assign(old(userRoles), targets[..i], roleID)
        invariant forall j :: 0 <= j < i ==> MayHold(users, roles, targets[j], roleID)
      {
        var u := targets[i];
        assert targets[..i + 1][..i] == targets[..i] && u in targets && u !in targets[..i];
        AssignSkips(old(userRoles), targets[..i], roleID, u);
        EnsureLinkCreates(userRoles, u, roleID);
        var created := EnsureUserRole(u, roleID);
        if created.Err? { return Err(created.error); }
        if created.value { n := n + 1; }
      }
      assert targets[..|targets|] == targets;
      return Ok(n);
    }

    /** `backfillCatalogDefaultRole`: every live user of the tenant without a live role gets this one. */
    method BackfillDefaultRole(tenantID: string, roleID: string) returns (added: Result<nat, string>)
      modifies this`userRoles
      ensures added.Ok? <==> forall u :: u in Roleless(users, old(userRoles), tenantID) ==> MayHold(users, roles, u, roleID)
      ensures added.Ok? ==> added.value == |Roleless(users, old(userRoles), tenantID)|
      ensures added.Ok? ==> userRoles == Assign(old(userRoles), Ascending(Roleless(users, old(userRoles), tenantID)), roleID)
    {
      var targets := Ascending(Roleless(users, userRoles, tenantID));
      AscendingDistinct(targets);
      added := AssignAll(targets, roleID);
    }

    /** `Apply`: normalize, validate, reconcile inside one transaction that a failing backfill rolls back,
        and on success rebuild the rules of the two reserved subjects. The caller's slices stay normalized. */
    method Apply(draft: CatalogDraft, walk: seq<string>) returns (result: Result<Summary, string>)
      modifies this, draft.Repr
      ensures draft.Value() == Normalized(old(draft.Value()))
      ensures Answers(Applied(old(Snapshot()), Normalized(old(draft.Value())), walk), old(Snapshot()), Snapshot(), result)
    {
      hide Normalized, Applied, Answers;
      draft.Normalize();
      result := ApplyNormalized(draft.Value(), walk);
    }

    method ApplyNormalized(c: AuthorizationCatalog, walk: seq<string>) returns (result: Result<Summary, string>)
      modifies this
      ensures Answers(Applied(old(Snapshot()), c, walk), old(Snapshot()), Snapshot(), result)
    {
      var invalid := Validate(c);
      assert !WellFormed(c) ==> Transacted(Snapshot(), c, walk).Err?;
      hide WellFormed, Transacted, Reprojected;
      if invalid.Some? { return Err(invalid.value); }
      result := Transact(c, walk);
      if result.Ok? { RebuildSubjects(); }
    }

    method RebuildSubjects()
      modifies this`rules
      ensures Snapshot() == Reprojected(old(Snapshot()))
    {
      hide Cleared, SubjectRules;
      RebuildSubject(LOGIN_SUBJECT);
      RebuildSubject(PUBLIC_SUBJECT);
    }

    /** `updateNotCheckAuthRule` and `updateNotCheckLoginRule`: collect the subject's rules from the API
        table, clear its old ones, store the new. */
    method RebuildSubject(subject: string)
      modifies this`rules
      ensures rules == Cleared(old(rules), subject) + SubjectRules(apis, subject)
    {
      var added: set<CasbinRule> := {};
      var ids := apis.Keys;
      while ids != {}
        invariant ids <= apis.Keys
        invariant added == set id | id in apis.Keys - ids && OpenTo(subject, apis[id]) :: SubjectRule(subject, apis[id])
        decreases |ids|
      {
        var id :| id in ids;
        if OpenTo(subject, apis[id]) { added := added + {SubjectRule(subject, apis[id])}; }
        ids := ids - {id};
      }
      rules := set r | r in rules && !(r.ptype == "p" && r.v0 == subject);
      rules := rules + added;
    }

    /** The transaction of `Apply`. */
    method Transact(c: AuthorizationCatalog, walk: seq<string>) returns (result: Result<Summary, string>)
      requires WellFormed(c)
      modifies this
      ensures Answers(Transacted(old(Snapshot()), c, walk), old(Snapshot()), Snapshot(), result)
    {
      var begin := Snapshot();
      assert c.defaultRoleID != "" ==> c.defaultRoleID in RoleIDs(c);
      hide WellFormed, Published, IDsOf, RuleCount;
      var ids, count := Publish(c, walk);
      var roleID := At(ids.roles, c.defaultRoleID);
      if c.defaultRoleID != "" {
        PublishedRoles(begin, c, walk);
        DefaultRoleIsUsable(begin.roles, c);
      }
      result := Backfill(c, roleID, count);
      if result.Err? { Restore(begin); }
    }

    /** The tail of the transaction, on published tables. */
    method Backfill(c: AuthorizationCatalog, roleID: string, count: nat) returns (result: Result<Summary, string>)
      requires c.defaultRoleID != "" ==> roleID in roles && UsableRole(c.tenantID, roles[roleID])
      modifies this`userRoles
      ensures var outcome := Backfilled(old(Snapshot()), c, roleID, count);
              && (result.Ok? <==> outcome.Ok?)
              && (result.Ok? ==> Snapshot() == outcome.value.0 && result.value == outcome.value.1)
    {
      if c.defaultRoleID == "" { return Ok(Summary(count, 0)); }
      var added := BackfillDefaultRole(c.tenantID, roleID);
      if added.Err? { return Err(added.error); }
      return Ok(Summary(count, added.value));
    }

    method PublishResources(c: AuthorizationCatalog) returns (ids: IDs)
      modifies this`roles, this`menus, this`apis, this`functions, this`bindings
      ensures Snapshot() == Resources(old(Snapshot()), c)
      ensures ids == IDsOf(old(Snapshot()), c)
    {
      hide PlaceFunctions, PlacedFunctions, UpsertAll, ResolveAll;
      var roleIDs := UpsertRoles(c);
      var menuIDs := UpsertMenus(c);
      var apiIDs := UpsertAPIs(c);
      var functionIDs := UpsertFunctions(c, menuIDs, apiIDs);
      ids := IDs(roleIDs, menuIDs, apiIDs, functionIDs);
      assert FunctionPass(old(Snapshot()), c) == FunctionState(functions, functionIDs, bindings);
    }

    method PublishGrants(c: AuthorizationCatalog, ids: IDs, walk: seq<string>, seed: bool) returns (count: nat)
      modifies this`roleGrants, this`tenantGrants, this`policies, this`rules
      ensures Snapshot() == Granted(old(Snapshot()), c, ids, walk, seed)
      ensures count == |RuleList(c, ids, walk, roleGrants, tenantGrants)|
    {
      hide SeedGrants, EnsurePolicies, RuleList, ToSet;
      SeedRoleGrants(c, ids, seed);
      SeedTenantGrants(c, ids, seed);
      SeedPolicies(c, ids, seed);
      count := EnsureCasbinRules(c, ids, walk);
    }

    /** Every step but the backfill. */
    method Publish(c: AuthorizationCatalog, walk: seq<string>) returns (ids: IDs, count: nat)
      modifies this
      ensures Snapshot() == Published(old(Snapshot()), c, walk)
      ensures ids == IDsOf(old(Snapshot()), c)
      ensures count == RuleCount(old(Snapshot()), c, walk)
    {
      var applied := CheckPreviouslyApplied(c);
      ids := PublishResources(c);
      count := PublishGrants(c, ids, walk, !applied);
    }
  }

  /** How a call answers: it leaves the tables and returns the summary the outcome names, or fails and
      leaves the tables as they were. */
  ghost predicate Answers(outcome: Result<(Tables, Summary), string>, before: Tables, after: Tables,
                          result: Result<Summary, string>) {
    && (result.Ok? <==> outcome.Ok?)
    && (outcome.Ok? ==> after == outcome.value.0 && result.value == outcome.value.1)
    && (outcome.Err? ==> after == before)
  }

  lemma PublishedRoles(t: Tables, c: AuthorizationCatalog, walk: seq<string>)
    ensures Published(t, c, walk).roles == UpsertAll(t.roles, RoleKey, RoleDefs(c))
    ensures IDsOf(t, c).roles == ResolveAll(t.roles, RoleKey, RoleDefs(c))
  {
  }

  lemma AscendingDistinct(s: seq<string>)
    requires StrictlyAscending(s)
    ensures Distinct(s)
  {
    forall i, j | 0 <= i < j < |s| ensures s[i] != s[j] { LessAsymmetric(s[i], s[j]); }
  }

  ghost predicate HoldsNothing(rows: seq<Link>, u: string) {
    forall i :: 0 <= i < |rows| && rows[i].left == u ==> rows[i].deleted
  }

  lemma EnsureLinkCreates(rows: seq<Link>, left: string, right: string)
    requires HoldsNothing(rows, left)
    ensures EnsureLink(rows, left, right) != rows
  {
    var i := First(rows, Joins(left, right));
    if i.Some? {
      assert EnsureLink(rows, left, right)[i.value] != rows[i.value];
    }
  }

  /** Assigning a role to some users leaves the links of every other user as they were. */
  lemma {:induction false} AssignSkips(rows: seq<Link>, users: seq<string>, roleID: string, u: string)
    requires u !in users
    requires HoldsNothing(rows, u)
    ensures HoldsNothing(Assign(rows, users, roleID), u)
  {
    if users != [] {
      var last, front := users[|users| - 1], users[..|users| - 1];
      assert last in users && forall v :: v in front ==> v in users;
      AssignSkips(rows, front, roleID, u);
      var before := Assign(rows, front, roleID);
      var k := First(before, Joins(last, roleID));
      assert k.Some? ==> Joins(last, roleID)(before[k.value]) && before[k.value].left == last;
    }
  }

  ghost predicate UsableRole(tenantID: string, r: RoleRow) {
    r.enable && !r.deleted && r.tenantID == tenantID
  }

  /** Whatever the store held, the row the default role resolves to is live, enabled and of the catalog's tenant. */
  lemma DefaultRoleIsUsable(t: map<string, RoleRow>, c: AuthorizationCatalog)
    requires c.defaultRoleID in RoleIDs(c)
    ensures var ids := ResolveAll(t, RoleKey, RoleDefs(c));
            var roles := UpsertAll(t, RoleKey, RoleDefs(c));
            && c.defaultRoleID in ids && ids[c.defaultRoleID] in roles
            && UsableRole(c.tenantID, roles[ids[c.defaultRoleID]])
  {
    RolesUsable(t, c, RoleDefs(c));
    var i :| 0 <= i < |c.roles| && RoleIDs(c)[i] == c.defaultRoleID;
    assert RoleDefs(c)[i].id == c.defaultRoleID;
    EveryIDResolves(t, RoleKey, RoleDefs(c), i);
    assert AllUsable(c.tenantID, ResolveAll(t, RoleKey, RoleDefs(c)), UpsertAll(t, RoleKey, RoleDefs(c)));
  }

  ghost predicate AllUsable(tenantID: string, ids: map<string, string>, roles: map<string, RoleRow>) {
    forall id :: id in ids ==> ids[id] in roles && UsableRole(tenantID, roles[ids[id]])
  }

  lemma {:induction false} RolesUsable(t: map<string, RoleRow>, c: AuthorizationCatalog, ds: seq<RoleDef>)
    requires forall i :: 0 <= i < |ds| ==> UsableRole(c.tenantID, ds[i].created) && UsableRole(c.tenantID, ds[i].healed)
    ensures AllUsable(c.tenantID, ResolveAll(t, RoleKey, ds), UpsertAll(t, RoleKey, ds))
  {
    if ds != [] {
      var front, d := ds[..|ds| - 1], ds[|ds| - 1];
      RolesUsable(t, c, front);
      var before := UpsertAll(t, RoleKey, front);
      assert UsableRole(c.tenantID, ResolvedRow(before, RoleKey, d));
      assert AllUsable(c.tenantID, ResolveAll(t, RoleKey, front), Upsert(before, RoleKey, d));
    }
  }

  /** Who may be given a role. */
  ghost predicate MayHold(users: map<string, UserRow>, roles: map<string, RoleRow>, userID: string, roleID: string) {
    && userID != "" && roleID != ""
    && userID in users && !users[userID].deleted
    && roleID in roles && !roles[roleID].deleted && roles[roleID].enable
    && (roles[roleID].public || roles[roleID].tenantID == "" || roles[roleID].tenantID == users[userID].tenantID)
  }

  lemma RulesOfNamesStep(x: RuleContext, roleID: string, menuID: string, allowed: set<string>, names: seq<string>, i: nat)
    requires i < |names|
    ensures var before, after := RulesOfNames(x, roleID, menuID, allowed, names[..i]), RulesOfNames(x, roleID, menuID, allowed, names[..i + 1]);
            var extra := RulesOfName(x, roleID, menuID, names[i]);
            && ToSet(after) == (if names[i] in allowed then ToSet(before) + ToSet(extra) else ToSet(before))
            && |after| == |before| + (if names[i] in allowed then |extra| else 0)
  {
    assert names[..i + 1][..i] == names[..i] && names[..i + 1][i] == names[i];
    ToSetAppend(RulesOfNames(x, roleID, menuID, allowed, names[..i]), RulesOfName(x, roleID, menuID, names[i]));
    ToSetAppend(RulesOfNames(x, roleID, menuID, allowed, names[..i]), []);
  }

  lemma RulesOfNoGrants(c: AuthorizationCatalog, ids: IDs, walk: seq<string>, roleGrants: seq<Grant>, tenantGrants: seq<Grant>)
    ensures var x := ContextOf(c, ids, walk);
            && RulesOfGrants(x, roleGrants, tenantGrants, c.tenantID, ids, c.roleGrants[..0]) == []
            && RuleList(c, ids, walk, roleGrants, tenantGrants) == RulesOfGrants(x, roleGrants, tenantGrants, c.tenantID, ids, c.roleGrants)
    ensures ToSet<CasbinRule>([]) == {}
  {
  }

  lemma RulesOfGrantsStep(x: RuleContext, roleGrants: seq<Grant>, tenantGrants: seq<Grant>, tenantID: string,
                          ids: IDs, grants: seq<RoleGrant>, i: nat)
    requires i < |grants|
    ensures var before, after := RulesOfGrants(x, roleGrants, tenantGrants, tenantID, ids, grants[..i]),
                                 RulesOfGrants(x, roleGrants, tenantGrants, tenantID, ids, grants[..i + 1]);
            var extra := RulesOfGrant(x, roleGrants, tenantGrants, tenantID, At(ids.roles, grants[i].roleID), At(ids.menus, grants[i].menuID), grants[i].functions);
            ToSet(after) == ToSet(before) + ToSet(extra) && |after| == |before| + |extra|
  {
    hide RulesOfGrant;
    assert grants[..i + 1][..i] == grants[..i] && grants[..i + 1][i] == grants[i];
    ToSetAppend(RulesOfGrants(x, roleGrants, tenantGrants, tenantID, ids, grants[..i]),
                RulesOfGrant(x, roleGrants, tenantGrants, tenantID, At(ids.roles, grants[i].roleID), At(ids.menus, grants[i].menuID), grants[i].functions));
  }

  lemma NoMenusPlaced(s: FunctionState, menus: seq<Menu>, menuIDs: map<string, string>, apiIDs: map<string, string>)
    ensures PlaceFunctions(s, PlacedFunctions(menus[..0], menuIDs), apiIDs) == s
  {
  }

  lemma PlaceMenusStep(s: FunctionState, menus: seq<Menu>, i: nat, menuIDs: map<string, string>, apiIDs: map<string, string>)
    requires i < |menus|
    ensures PlaceFunctions(s, PlacedFunctions(menus[..i + 1], menuIDs), apiIDs) ==
            PlaceFunctions(PlaceFunctions(s, PlacedFunctions(menus[..i], menuIDs), apiIDs), PlacedIn(At(menuIDs, menus[i].id), menus[i].functions), apiIDs)
  {
    assert menus[..i + 1][..i] == menus[..i] && menus[..i + 1][i] == menus[i];
    hide PlaceFunctions, PlacedIn, At;
    PlaceFunctionsAppend(s, PlacedFunctions(menus[..i], menuIDs), PlacedIn(At(menuIDs, menus[i].id), menus[i].functions), apiIDs);
  }

  lemma PlaceFunctionsStep(s: FunctionState, ps: seq<Placed>, j: nat, apiIDs: map<string, string>)
    requires j < |ps|
    ensures PlaceFunctions(s, ps[..j + 1], apiIDs) == PlaceFunction(PlaceFunctions(s, ps[..j], apiIDs), ps[j], apiIDs)
  {
    assert ps[..j + 1][..j] == ps[..j] && ps[..j + 1][j] == ps[j];
  }

  lemma {:induction false} PlaceFunctionsAppend(s: FunctionState, ps: seq<Placed>, qs: seq<Placed>,
                                                apiIDs: map<string, string>)
    ensures PlaceFunctions(s, ps + qs, apiIDs) == PlaceFunctions(PlaceFunctions(s, ps, apiIDs), qs, apiIDs)
  {
    hide PlaceFunction;
    if qs == [] {
      assert ps + qs == ps;
    } else {
      PlaceFunctionsAppend(s, ps, qs[..|qs| - 1], apiIDs);
      assert (ps + qs)[..|ps + qs| - 1] == ps + qs[..|qs| - 1];
    }
  }
}
