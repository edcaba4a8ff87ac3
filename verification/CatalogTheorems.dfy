/** What `Apply` promises: running it twice, the rules it adds, and what it leaves alone. */
module CatalogTheorems {
  import opened Text
  import opened Reconcile
  import opened Catalog
  import opened CatalogStore
  import opened CatalogFunctions
  import opened CatalogGrants
  import opened CatalogRules

  function RoleName(r: Role): string { r.name }
  function MenuName(m: Menu): string { m.columns.name }

  /** No two roles, and no two menus, of the catalog share a name. Validation does not ask for it. */
  ghost predicate DistinctNames(c: AuthorizationCatalog) {
    Distinct(MapSeq(c.roles, RoleName)) && Distinct(MapSeq(c.menus, MenuName))
  }

  function FunctionDefsOf(t: Tables, c: AuthorizationCatalog): seq<FunctionDef> {
    FunctionDefs(PlacedFunctions(c.menus, ResolveAll(t.menus, MenuKey, MenuDefs(c))))
  }

  /** The catalog is well formed, with distinct names, and in no table does one definition find, by its
      natural key, the row that a later one owns by ID. */
  ghost predicate Compatible(t: Tables, c: AuthorizationCatalog) {
    && WellFormed(c) && DistinctNames(c)
    && Unmerged(t.roles, RoleKey, RoleDefs(c))
    && Unmerged(t.menus, MenuKey, MenuDefs(c))
    && Unmerged(t.apis, RowAPIKey, APIDefs(c))
    && Unmerged(t.functions, FunctionKey, FunctionDefsOf(t, c))
  }

  /** The runtime's walk over the ID map meets every function. */
  ghost predicate Covers(ids: IDs, walk: seq<string>) {
    forall id :: id in ids.functions ==> id in walk
  }

  // ---- ID resolution is injective --------------------------------------------------------------------------

  lemma RolesApart(c: AuthorizationCatalog)
    requires WellFormed(c) && DistinctNames(c)
    ensures Apart(RoleKey, RoleDefs(c))
  {
    hide APIsWellFormed, MenusWellFormed, GrantsWellFormed;
    var ds := RoleDefs(c);
    forall i, j | 0 <= i < j < |ds| ensures ds[i].id != ds[j].id && ds[i].key != ds[j].key {
      assert RoleIDs(c)[i] != RoleIDs(c)[j];
      assert MapSeq(c.roles, RoleName)[i] != MapSeq(c.roles, RoleName)[j];
    }
  }

  lemma MenusApart(c: AuthorizationCatalog)
    requires WellFormed(c) && DistinctNames(c)
    ensures Apart(MenuKey, MenuDefs(c))
  {
    hide RolesWellFormed, APIsWellFormed, MenuWellFormed, GrantsWellFormed, Functions;
    var ds := MenuDefs(c);
    forall i, j | 0 <= i < j < |ds| ensures ds[i].id != ds[j].id && ds[i].key != ds[j].key {
      assert MenuIDs(c)[i] != MenuIDs(c)[j];
      assert MapSeq(c.menus, MenuName)[i] != MapSeq(c.menus, MenuName)[j];
    }
  }

  lemma APIsApart(c: AuthorizationCatalog)
    requires WellFormed(c)
    ensures Apart(RowAPIKey, APIDefs(c))
  {
    hide RolesWellFormed, MenusWellFormed, GrantsWellFormed;
    var ds := APIDefs(c);
    forall i, j | 0 <= i < j < |ds| ensures ds[i].id != ds[j].id && ds[i].key != ds[j].key {
      assert APIIDs(c)[i] != APIIDs(c)[j];
    }
  }

  lemma RolesSeparate(t: Tables, c: AuthorizationCatalog)
    requires Compatible(t, c)
    ensures Separate(t.roles, RoleKey, RoleDefs(c))
  {
    RolesApart(c);
    hide WellFormed, DistinctNames, Unmerged, Apart, RoleDefs;
  }

  lemma MenusSeparate(t: Tables, c: AuthorizationCatalog)
    requires Compatible(t, c)
    ensures Separate(t.menus, MenuKey, MenuDefs(c))
  {
    MenusApart(c);
    hide WellFormed, DistinctNames, Unmerged, Apart, MenuDefs;
  }

  lemma APIsSeparate(t: Tables, c: AuthorizationCatalog)
    requires Compatible(t, c)
    ensures Separate(t.apis, RowAPIKey, APIDefs(c))
  {
    APIsApart(c);
    hide WellFormed, DistinctNames, Unmerged, Apart, APIDefs;
  }

  /** Distinct definitions get distinct row IDs. */
  lemma IDsApart<K, R>(t: map<string, R>, keyOf: R -> K, ds: seq<Definition<K, R>>, ids: map<string, string>)
    requires Separate(t, keyOf, ds) && Resolved(t, keyOf, ds, |ds|, ids)
    ensures forall i :: 0 <= i < |ds| ==> ds[i].id in ids
    ensures forall i, j :: 0 <= i < j < |ds| ==> At(ids, ds[i].id) != At(ids, ds[j].id)
    ensures forall x, y :: x in ids && y in ids && ids[x] == ids[y] ==> x == y
  {
    forall i, j | 0 <= i < j < |ds| ensures At(ids, ds[i].id) != At(ids, ds[j].id) {
      RowsApart(t, keyOf, ds, i, j);
    }
    forall x, y | x in ids && y in ids && x != y ensures ids[x] != ids[y] {
      var i :| 0 <= i < |ds| && ds[i].id == x;
      var j :| 0 <= j < |ds| && ds[j].id == y;
      RowsApart(t, keyOf, ds, i, j);
    }
  }

  lemma ResolvedThroughMap<K, R>(t: map<string, R>, keyOf: R -> K, ds: seq<Definition<K, R>>, i: nat)
    requires Apart(keyOf, ds) && i < |ds|
    ensures At(ResolveAll(t, keyOf, ds), ds[i].id) == RowID(t, keyOf, ds, i)
  {
    hide UpsertAll, ResolveAll, RowID, Apart;
    UpsertAllReconciles(t, keyOf, ds);
  }

  lemma MenusInjective(t: Tables, c: AuthorizationCatalog)
    requires WellFormed(c) && DistinctNames(c) && Unmerged(t.menus, MenuKey, MenuDefs(c))
    ensures InjectiveOn(c.menus, ResolveAll(t.menus, MenuKey, MenuDefs(c)))
  {
    MenusApart(c);
    hide WellFormed, DistinctNames, Apart, Unmerged, ResolveAll, UpsertAll;
    var ds := MenuDefs(c);
    UpsertAllReconciles(t.menus, MenuKey, ds);
    IDsApart(t.menus, MenuKey, ds, ResolveAll(t.menus, MenuKey, ds));
    forall i, j | 0 <= i < j < |c.menus|
      ensures At(ResolveAll(t.menus, MenuKey, ds), c.menus[i].id) != At(ResolveAll(t.menus, MenuKey, ds), c.menus[j].id)
    {
      assert ds[i].id == c.menus[i].id && ds[j].id == c.menus[j].id;
    }
  }

  lemma PlacedApart(t: Tables, c: AuthorizationCatalog)
    requires WellFormed(c) && DistinctNames(c) && Unmerged(t.menus, MenuKey, MenuDefs(c))
    ensures Apart(FunctionKey, FunctionDefsOf(t, c))
  {
    MenusInjective(t, c);
    hide RolesWellFormed, APIsWellFormed, MenusWellFormed, GrantsWellFormed, PlacedFunctions, ResolveAll, InjectiveOn, Apart;
    FunctionsApart(c, ResolveAll(t.menus, MenuKey, MenuDefs(c)));
  }

  lemma PlacedSeparate(t: Tables, c: AuthorizationCatalog)
    requires Compatible(t, c)
    ensures Separate(t.functions, FunctionKey, FunctionDefsOf(t, c))
  {
    hide WellFormed, DistinctNames, Unmerged, Apart, FunctionDefsOf;
    PlacedApart(t, c);
  }

  lemma PassIDs(t: Tables, c: AuthorizationCatalog)
    ensures IDsOf(t, c).functions == ResolveAll(t.functions, FunctionKey, FunctionDefsOf(t, c))
    ensures Resources(t, c).functions == UpsertAll(t.functions, FunctionKey, FunctionDefsOf(t, c))
  {
    hide ResolveAll, UpsertAll, PlaceFunctions, PlacedFunctions, FunctionDefs, MenuDefs, APIDefs;
    PassUpserts(FunctionState(t.functions, map[], t.bindings), PlacedFunctions(c.menus, ResolveAll(t.menus, MenuKey, MenuDefs(c))),
                ResolveAll(t.apis, RowAPIKey, APIDefs(c)));
  }

  lemma FunctionIDsInjective(t: Tables, c: AuthorizationCatalog)
    requires Compatible(t, c)
    ensures var ids := IDsOf(t, c).functions;
            && (forall x, y :: x in ids && y in ids && ids[x] == ids[y] ==> x == y)
            && (forall f :: f in Functions(c.menus) ==> f.id in ids)
  {
    hide *;
    PlacedSeparate(t, c);
    PassIDs(t, c);
    assert FunctionDefsOf(t, c) == FunctionDefs(PlacedFunctions(c.menus, ResolveAll(t.menus, MenuKey, MenuDefs(c)))) by { DefsOf(t, c); }
    PlacedResolve(t.functions, c.menus, ResolveAll(t.menus, MenuKey, MenuDefs(c)));
  }

  lemma DefsOf(t: Tables, c: AuthorizationCatalog)
    ensures FunctionDefsOf(t, c) == FunctionDefs(PlacedFunctions(c.menus, ResolveAll(t.menus, MenuKey, MenuDefs(c))))
  {
  }

  lemma PlacedResolve(rows: map<string, FunctionRow>, menus: seq<Menu>, menuIDs: map<string, string>)
    requires Separate(rows, FunctionKey, FunctionDefs(PlacedFunctions(menus, menuIDs)))
    ensures var ids := ResolveAll(rows, FunctionKey, FunctionDefs(PlacedFunctions(menus, menuIDs)));
            && (forall x, y :: x in ids && y in ids && ids[x] == ids[y] ==> x == y)
            && (forall f :: f in Functions(menus) ==> f.id in ids)
  {
    hide ResolveAll, UpsertAll, Apart, Unmerged, Reconciled, Resolved, PlacedFunctions, Functions, At;
    var ds := FunctionDefs(PlacedFunctions(menus, menuIDs));
    UpsertAllReconciles(rows, FunctionKey, ds);
    IDsApart(rows, FunctionKey, ds, ResolveAll(rows, FunctionKey, ds));
    PlacedIDs(menus, menuIDs);
    forall f | f in Functions(menus) ensures f.id in ResolveAll(rows, FunctionKey, ds) {
      var k :| 0 <= k < |Functions(menus)| && Functions(menus)[k] == f;
      assert ds[k].id == f.id;
    }
  }

  // ---- roles, menus, APIs, functions and bindings, reconciled twice ----------------------------------------

  ghost predicate SameResources(u: Tables, v: Tables) {
    u.roles == v.roles && u.menus == v.menus && u.apis == v.apis && u.functions == v.functions && u.bindings == v.bindings
  }

  /** Every role of the catalog finds a row, by ID or by name, before the run. */
  ghost predicate EveryRoleFound(t: Tables, c: AuthorizationCatalog) {
    AllFound(t.roles, RoleKey, RoleDefs(c))
  }

  /** Creation stores defaults that healing replaces, so no created role is settled. */
  lemma RolesSettled(t: Tables, c: AuthorizationCatalog)
    requires Unmerged(t.roles, RoleKey, RoleDefs(c))
    ensures Settled(t.roles, RoleKey, RoleDefs(c)) <==> EveryRoleFound(t, c)
  {
    var ds := RoleDefs(c);
    hide Found, Untaken, Spare;
    forall i | 0 <= i < |ds| ensures ds[i].created != ds[i].healed && (SettledAt(t.roles, RoleKey, ds, i) <==> Found(t.roles, RoleKey, ds, i).Some?) {
      assert ds[i].created.canDel && !ds[i].healed.canDel;
    }
  }

  lemma FunctionPassAgain(t: Tables, c: AuthorizationCatalog, u: Tables)
    requires Compatible(t, c) && SameResources(u, Resources(t, c))
    requires ResolveAll(u.menus, MenuKey, MenuDefs(c)) == ResolveAll(t.menus, MenuKey, MenuDefs(c))
    requires ResolveAll(u.apis, RowAPIKey, APIDefs(c)) == ResolveAll(t.apis, RowAPIKey, APIDefs(c))
    ensures FunctionPass(u, c) == FunctionPass(t, c)
    ensures Unmerged(u.functions, FunctionKey, FunctionDefsOf(u, c))
  {
    PlacedSeparate(t, c);
    hide Compatible, Apart, Unmerged, ResolveAll, UpsertAll, PlaceFunctions, PlacedFunctions;
    PassTwice(FunctionState(t.functions, map[], t.bindings), PlacedFunctions(c.menus, ResolveAll(t.menus, MenuKey, MenuDefs(c))),
              ResolveAll(t.apis, RowAPIKey, APIDefs(c)));
  }

  lemma StillCompatible(t: Tables, c: AuthorizationCatalog, u: Tables)
    requires Compatible(t, c)
    requires Unmerged(u.roles, RoleKey, RoleDefs(c)) && Unmerged(u.menus, MenuKey, MenuDefs(c)) && Unmerged(u.apis, RowAPIKey, APIDefs(c))
    requires Unmerged(u.functions, FunctionKey, FunctionDefsOf(u, c))
    ensures Compatible(u, c)
  {
    hide WellFormed, DistinctNames, Unmerged, RoleDefs, MenuDefs, APIDefs, FunctionDefsOf;
  }

  /** Menus and APIs have no column defaults, so an unmerged pass settles them. */
  lemma NoColumnDefaults(t: Tables, c: AuthorizationCatalog)
    ensures Unmerged(t.menus, MenuKey, MenuDefs(c)) ==> Settled(t.menus, MenuKey, MenuDefs(c))
    ensures Unmerged(t.apis, RowAPIKey, APIDefs(c)) ==> Settled(t.apis, RowAPIKey, APIDefs(c))
  {
    hide Found, Untaken, Spare;
  }

  /** Reconciling the resources again resolves every ID as before and changes at most role rows. */
  lemma ResourcesTwice(t: Tables, c: AuthorizationCatalog, u: Tables)
    requires Compatible(t, c) && SameResources(u, Resources(t, c))
    ensures Compatible(u, c) && IDsOf(u, c) == IDsOf(t, c) && EveryRoleFound(u, c)
    ensures Resources(u, c).roles.Keys == u.roles.Keys
    ensures Resources(u, c).roles == u.roles <==> EveryRoleFound(t, c)
    ensures SameResources(Resources(u, c).(roles := u.roles), u)
  {
    hide Compatible, Apart, Unmerged, Settled, AllFound, ResolveAll, UpsertAll, PlaceFunctions, PlacedFunctions, RoleDefs, MenuDefs, APIDefs,
         FunctionDefs, FunctionDefsOf;
    RolesSeparate(t, c); MenusSeparate(t, c); APIsSeparate(t, c);
    RolesSettled(t, c);
    NoColumnDefaults(t, c);
    UpsertTwice(t.roles, RoleKey, RoleDefs(c));
    UpsertTwice(t.menus, MenuKey, MenuDefs(c));
    UpsertTwice(t.apis, RowAPIKey, APIDefs(c));
    FunctionPassAgain(t, c, u);
    StillCompatible(t, c, u);
  }

  // ---- the order of the walk does not matter ----------------------------------------------------------------

  lemma LookupWalks(definitions: map<string, Function>, ids: map<string, string>, walk: seq<string>,
                    walk': seq<string>, target: string)
    requires forall x, y :: x in ids && y in ids && ids[x] == ids[y] ==> x == y
    requires forall id :: id in ids ==> id in walk && id in walk'
    ensures DefinitionByRow(definitions, ids, walk, target) == DefinitionByRow(definitions, ids, walk', target)
  {
    var i, j := First(walk, ResolvesTo(ids, target)), First(walk', ResolvesTo(ids, target));
    if i.Some? { assert ResolvesTo(ids, target)(walk[i.value]); assert walk[i.value] in walk'; }
    if j.Some? { assert ResolvesTo(ids, target)(walk'[j.value]); assert walk'[j.value] in walk; }
  }

  ghost predicate SameNames(x: RuleContext, y: RuleContext) {
    forall roleID, menuID, name :: RulesOfName(x, roleID, menuID, name) == RulesOfName(y, roleID, menuID, name)
  }

  lemma {:induction false} NamesAgree(x: RuleContext, y: RuleContext, roleID: string, menuID: string,
                                      allowed: set<string>, names: seq<string>)
    requires SameNames(x, y)
    ensures RulesOfNames(x, roleID, menuID, allowed, names) == RulesOfNames(y, roleID, menuID, allowed, names)
  {
    hide RulesOfName;
    if names != [] { NamesAgree(x, y, roleID, menuID, allowed, names[..|names| - 1]); }
  }

  lemma {:induction false} GrantsAgree(x: RuleContext, y: RuleContext, roleGrants: seq<Grant>,
                                       tenantGrants: seq<Grant>, tenantID: string,
                                       ids: IDs, grants: seq<RoleGrant>)
    requires SameNames(x, y)
    ensures RulesOfGrants(x, roleGrants, tenantGrants, tenantID, ids, grants) == RulesOfGrants(y, roleGrants, tenantGrants, tenantID, ids, grants)
  {
    hide SameNames, RulesOfNames, Live, At, CsvSet;
    if grants != [] {
      GrantsAgree(x, y, roleGrants, tenantGrants, tenantID, ids, grants[..|grants| - 1]);
      var g := grants[|grants| - 1];
      var r, t := Live(roleGrants, At(ids.roles, g.roleID), At(ids.menus, g.menuID)), Live(tenantGrants, tenantID, At(ids.menus, g.menuID));
      if r.Some? && t.Some? {
        NamesAgree(x, y, At(ids.roles, g.roleID), At(ids.menus, g.menuID), CsvSet(r.value.funcs) * CsvSet(t.value.funcs), g.functions);
      }
    }
  }

  lemma WalkIsIrrelevant(t: Tables, c: AuthorizationCatalog, walk: seq<string>, walk': seq<string>,
                         roleGrants: seq<Grant>, tenantGrants: seq<Grant>)
    requires Compatible(t, c) && Covers(IDsOf(t, c), walk) && Covers(IDsOf(t, c), walk')
    ensures RuleList(c, IDsOf(t, c), walk, roleGrants, tenantGrants) == RuleList(c, IDsOf(t, c), walk', roleGrants, tenantGrants)
  {
    FunctionIDsInjective(t, c);
    var ids := IDsOf(t, c);
    hide Compatible, IDsOf, DefinitionByRow, Projections, FunctionIndex, DefinitionMap, PlacedFunctions,
         RulesOfAPIs, RulesOfGrants, Functions;
    var x, y := ContextOf(c, ids, walk), ContextOf(c, ids, walk');
    forall roleID, menuID, name ensures RulesOfName(x, roleID, menuID, name) == RulesOfName(y, roleID, menuID, name) {
      LookupWalks(x.definitions, ids.functions, walk, walk', At(x.index, menuID + "\0" + name));
      APIsAgree(x, y, roleID);
    }
    GrantsAgree(x, y, roleGrants, tenantGrants, c.tenantID, ids, c.roleGrants);
  }

  lemma APIsAgree(x: RuleContext, y: RuleContext, roleID: string)
    requires x.projections == y.projections && x.apiIDs == y.apiIDs
    ensures forall apis :: RulesOfAPIs(x, roleID, apis) == RulesOfAPIs(y, roleID, apis)
  {
    forall apis ensures RulesOfAPIs(x, roleID, apis) == RulesOfAPIs(y, roleID, apis) {
      assert RulesOfAPIs(x, roleID, apis) == RulesOfAPIs(y, roleID, apis);
    }
  }

  // ---- one Apply after another --------------------------------------------------------------------------------

  /** A catalog that was applied before still counts as applied afterwards. */
  lemma StaysApplied(t: Tables, c: AuthorizationCatalog, walk: seq<string>)
    ensures PreviouslyApplied(t, c) ==> PreviouslyApplied(Published(t, c, walk), c)
  {
    hide RuleList, FunctionPass, ResolveAll, UpsertAll, SeedGrants, EnsurePolicies, MenuDefs, APIDefs, RoleDefs,
         TenantGrantRows, RoleGrantRows, PolicyRows, ToSet, IDsOf;
    UpsertAllGrows(t.menus, MenuKey, MenuDefs(c));
    UpsertAllGrows(t.apis, RowAPIKey, APIDefs(c));
    UpsertAllGrows(t.roles, RoleKey, RoleDefs(c));
    SeedGrantsFacts(t.tenantGrants, TenantGrantRows(c, IDsOf(t, c)), !PreviouslyApplied(t, c));
  }

  /** Grants and policies a first pass left are as a second pass, no more eager, wants them; it produces the
      same rules. */
  lemma GrantedTwice(r: Tables, c: AuthorizationCatalog, ids: IDs, walk: seq<string>, walk': seq<string>, seed: bool,
                     seed': bool, r': Tables)
    requires seed' ==> seed
    requires var g := Granted(r, c, ids, walk, seed);
             && r'.roleGrants == g.roleGrants && r'.tenantGrants == g.tenantGrants && r'.policies == g.policies
             && RuleList(c, ids, walk, g.roleGrants, g.tenantGrants) == RuleList(c, ids, walk', g.roleGrants, g.tenantGrants)
    ensures Granted(r', c, ids, walk', seed') ==
            r'.(rules := r'.rules + ToSet(RuleList(c, ids, walk, r'.roleGrants, r'.tenantGrants)))
  {
    hide RuleList, SeedGrants, EnsurePolicies, ToSet, RoleGrantRows, TenantGrantRows, PolicyRows;
    SeedTwice(r.roleGrants, RoleGrantRows(c, ids), seed, seed');
    SeedTwice(r.tenantGrants, TenantGrantRows(c, ids), seed, seed');
    PoliciesTwice(r.policies, PolicyRows(c, ids), seed, seed');
  }

  /** Publishing again, whatever became of user roles and rules in between: every other table but the roles is
      as before, the roles are unless some were created, and the same rules are added. */
  lemma PublishTwice(t: Tables, c: AuthorizationCatalog, walk: seq<string>, walk': seq<string>, once: Tables)
    requires Compatible(t, c) && Covers(IDsOf(t, c), walk) && Covers(IDsOf(t, c), walk')
    requires once == Published(t, c, walk).(userRoles := once.userRoles, rules := once.rules)
    ensures var twice := Published(once, c, walk');
            && twice.(roles := once.roles, rules := once.rules) == once
            && twice.roles.Keys == once.roles.Keys
            && (twice.roles == once.roles <==> EveryRoleFound(t, c))
            && twice.rules == once.rules + ToSet(RuleList(c, IDsOf(t, c), walk, once.roleGrants, once.tenantGrants))
    ensures Compatible(once, c) && IDsOf(once, c) == IDsOf(t, c) && EveryRoleFound(once, c)
    ensures RuleCount(once, c, walk') == RuleCount(t, c, walk)
  {
    hide Compatible, Covers, IDsOf, Resources, PreviouslyApplied, Granted, EveryRoleFound, RuleList, ToSet;
    PublishedParts(t, c, walk, once);
    ResourcesTwice(t, c, once);
    StaysApplied(t, c, walk);
    assert PreviouslyApplied(once, c) == PreviouslyApplied(Published(t, c, walk), c) by { SameMark(Published(t, c, walk), once, c); }
    WalkIsIrrelevant(t, c, walk, walk', once.roleGrants, once.tenantGrants);
    GrantedTwice(Resources(t, c), c, IDsOf(t, c), walk, walk', !PreviouslyApplied(t, c), !PreviouslyApplied(once, c), Resources(once, c));
  }

  lemma SameMark(t: Tables, u: Tables, c: AuthorizationCatalog)
    requires u == t.(userRoles := u.userRoles, rules := u.rules)
    ensures PreviouslyApplied(u, c) == PreviouslyApplied(t, c)
  {
  }

  /** Which tables publishing takes from the reconciled resources, and which reconciling leaves alone. */
  lemma PublishedParts(t: Tables, c: AuthorizationCatalog, walk: seq<string>, once: Tables)
    requires once == Published(t, c, walk).(userRoles := once.userRoles, rules := once.rules)
    ensures SameResources(once, Resources(t, c))
    ensures var g := Granted(Resources(t, c), c, IDsOf(t, c), walk, !PreviouslyApplied(t, c));
            once.roleGrants == g.roleGrants && once.tenantGrants == g.tenantGrants && once.policies == g.policies
    ensures Published(t, c, walk).rules == t.rules + ToSet(RuleList(c, IDsOf(t, c), walk, once.roleGrants, once.tenantGrants))
    ensures var r := Resources(once, c);
            r.(roles := once.roles, menus := once.menus, apis := once.apis, functions := once.functions,
               bindings := once.bindings) == once
  {
    hide IDsOf, FunctionPass, PreviouslyApplied, RuleList, SeedGrants, EnsurePolicies, ToSet, UpsertAll,
         RoleDefs, MenuDefs, APIDefs;
  }
}
