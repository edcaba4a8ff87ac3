/** What healing means: after a run every definition of the catalog is found, live, under its resolved ID and
    with the columns the catalog declares. */
module CatalogHealing {
  import opened Text
  import opened Reconcile
  import opened Catalog
  import opened CatalogStore
  import opened CatalogFunctions
  import opened CatalogTheorems
  import opened CatalogSettling
  import opened CatalogRuns

  /** Each definition's row, found through the ID map. */
  lemma RowOfDefinition<K, R>(t: map<string, R>, keyOf: R -> K, ds: seq<Definition<K, R>>, i: nat)
    requires Separate(t, keyOf, ds) && i < |ds|
    ensures var id := At(ResolveAll(t, keyOf, ds), ds[i].id);
            && id in UpsertAll(t, keyOf, ds)
            && UpsertAll(t, keyOf, ds)[id] == RowLeft(t, keyOf, ds, i)
  {
    hide UpsertAll, ResolveAll, RowLeft, RowID, Apart;
    UpsertAllReconciles(t, keyOf, ds);
    assert RowID(t, keyOf, ds, i) in Targets(t, keyOf, ds, |ds|) && Untaken(t, keyOf, ds, i, |ds|);
  }

  /** Where every definition's row carries its key, none was merged away. */
  lemma KeysShowUnmerged<K, R>(t: map<string, R>, keyOf: R -> K, ds: seq<Definition<K, R>>)
    requires Apart(keyOf, ds)
    requires forall i :: 0 <= i < |ds| ==>
               var id := At(ResolveAll(t, keyOf, ds), ds[i].id);
               id in UpsertAll(t, keyOf, ds) && keyOf(UpsertAll(t, keyOf, ds)[id]) == ds[i].key
    ensures Unmerged(t, keyOf, ds)
  {
    var once := UpsertAll(t, keyOf, ds);
    hide UpsertAll, ResolveAll, RowID, RowLeft, At;
    UpsertAllReconciles(t, keyOf, ds);
    forall i | 0 <= i < |ds| ensures Untaken(t, keyOf, ds, i, |ds|) {
      var id := RowID(t, keyOf, ds, i);
      ResolvedThroughMap(t, keyOf, ds, i);
      var j := LastWriter(t, keyOf, ds, id);
      LeftKey(t, keyOf, ds, j);
      assert once[id] == RowLeft(t, keyOf, ds, j);
    }
  }

  /** The role as declared, save that a created row still has the column defaults. */
  ghost predicate ShowsRole(c: AuthorizationCatalog, r: Role, row: RoleRow, found: bool) {
    && row.tenantID == c.tenantID && row.projectID == c.projectID && row.name == r.name && row.parentID == r.parentID
    && row.description == r.description && row.public == r.public && row.isMust && row.enable && !row.deleted
    && row.canDel == !found && row.defaultRouter == (if !found && r.defaultRouter == "" then "dashboard" else r.defaultRouter)
  }

  ghost predicate ShowsMenu(c: AuthorizationCatalog, m: Menu, row: MenuRow) {
    row.tenantID == c.tenantID && row.projectID == c.projectID && row.columns == m.columns && row.isMust && !row.deleted
  }

  ghost predicate ShowsAPI(c: AuthorizationCatalog, a: API, row: APIRow) {
    && row.tenantID == c.tenantID && row.projectID == c.projectID && row.path == a.path && row.verb == a.verb
    && row.group == a.group && row.description == a.description && row.checkAuth == a.checkAuth && row.checkLogin == a.checkLogin
    && row.enable && row.isMust && !row.deleted
  }

  ghost predicate ShowsFunction(menuID: string, f: Function, row: FunctionRow) {
    row.menuID == menuID && row.name == f.name && row.title == f.title && row.hidden == f.hidden && !row.deleted
  }

  lemma RolesShow(t: Tables, c: AuthorizationCatalog, i: nat)
    requires Compatible(t, c) && i < |c.roles|
    ensures var id := At(IDsOf(t, c).roles, c.roles[i].id);
            && id in Resources(t, c).roles
            && ShowsRole(c, c.roles[i], Resources(t, c).roles[id], Found(t.roles, RoleKey, RoleDefs(c), i).Some?)
  {
    hide Compatible, Apart, Unmerged, UpsertAll, ResolveAll, FunctionPass, Resolve, WellFormed, MapSeq;
    RolesSeparate(t, c);
    assert RoleDefs(c)[i] == RoleDefinition(c, c.roles[i]);
    RowOfDefinition(t.roles, RoleKey, RoleDefs(c), i);
  }

  lemma MenusShow(t: Tables, c: AuthorizationCatalog, m: Menu)
    requires Compatible(t, c) && m in c.menus
    ensures var id := At(IDsOf(t, c).menus, m.id); id in Resources(t, c).menus && ShowsMenu(c, m, Resources(t, c).menus[id])
  {
    hide Compatible, Apart, Unmerged, UpsertAll, ResolveAll, FunctionPass, Found, WellFormed, MapSeq;
    MenusSeparate(t, c);
    var i :| 0 <= i < |c.menus| && c.menus[i] == m;
    assert MenuDefs(c)[i] == MenuDefinition(c, m);
    RowOfDefinition(t.menus, MenuKey, MenuDefs(c), i);
  }

  lemma APIsShow(t: Tables, c: AuthorizationCatalog, a: API)
    requires Compatible(t, c) && a in c.apis
    ensures var id := At(IDsOf(t, c).apis, a.id); id in Resources(t, c).apis && ShowsAPI(c, a, Resources(t, c).apis[id])
  {
    hide Compatible, Apart, Unmerged, UpsertAll, ResolveAll, FunctionPass, Found, WellFormed, MapSeq;
    APIsSeparate(t, c);
    var i :| 0 <= i < |c.apis| && c.apis[i] == a;
    assert APIDefs(c)[i] == APIDefinition(c, a);
    RowOfDefinition(t.apis, RowAPIKey, APIDefs(c), i);
  }

  /** The k-th placed function: its row as declared, and each of its APIs bound to it by a live link. */
  lemma PlacedShows(s: FunctionState, ps: seq<Placed>, apiIDs: map<string, string>, k: nat)
    requires s.ids == map[] && Separate(s.rows, FunctionKey, FunctionDefs(ps)) && k < |ps|
    ensures var u := PlaceFunctions(s, ps, apiIDs);
            var id := At(u.ids, ps[k].f.id);
            && id in u.rows && ShowsFunction(ps[k].menuID, ps[k].f, u.rows[id])
            && AllBound(u.bindings, id, ps[k].f.apiIDs, apiIDs)
  {
    var ds := FunctionDefs(ps);
    assert ds[k] == FunctionDefinition(ps[k]) && ps[..|ps|] == ps;
    hide Apart, Unmerged, UpsertAll, ResolveAll, PlaceFunctions, Found, FunctionDefs, AllBound;
    PassUpserts(s, ps, apiIDs);
    RowOfDefinition(s.rows, FunctionKey, ds, k);
    PassBinds(s, ps, |ps|, apiIDs);
    ResolvedThroughMap(s.rows, FunctionKey, ds, k);
  }

  lemma AllBoundMeans(rows: seq<Link>, left: string, apis: seq<string>, apiIDs: map<string, string>)
    requires AllBound(rows, left, apis, apiIDs)
    ensures forall a :: a in apis ==> Bound(rows, left, At(apiIDs, a))
  {
    hide Bound, At;
  }

  lemma PassShows(s: FunctionState, menus: seq<Menu>, menuIDs: map<string, string>, apiIDs: map<string, string>, m: Menu, f: Function)
    requires s.ids == map[] && Separate(s.rows, FunctionKey, FunctionDefs(PlacedFunctions(menus, menuIDs)))
    requires m in menus && f in m.functions
    ensures var u := PlaceFunctions(s, PlacedFunctions(menus, menuIDs), apiIDs);
            var id := At(u.ids, f.id);
            && id in u.rows && ShowsFunction(At(menuIDs, m.id), f, u.rows[id])
            && forall a :: a in f.apiIDs ==> Bound(u.bindings, id, At(apiIDs, a))
  {
    hide Separate, PlaceFunctions, PlacedFunctions, FunctionDefs, AllBound, Bound, ShowsFunction, At;
    var i :| 0 <= i < |menus| && menus[i] == m;
    var k := PlacedTo(menus, menuIDs, i, f);
    PlacedShows(s, PlacedFunctions(menus, menuIDs), apiIDs, k);
    var u := PlaceFunctions(s, PlacedFunctions(menus, menuIDs), apiIDs);
    AllBoundMeans(u.bindings, At(u.ids, f.id), f.apiIDs, apiIDs);
  }

  lemma FunctionsShow(t: Tables, c: AuthorizationCatalog, m: Menu, f: Function)
    requires Compatible(t, c) && m in c.menus && f in m.functions
    ensures var ids, u := IDsOf(t, c), Resources(t, c);
            var id := At(ids.functions, f.id);
            && id in u.functions && ShowsFunction(At(ids.menus, m.id), f, u.functions[id])
            && forall a :: a in f.apiIDs ==> Bound(u.bindings, id, At(ids.apis, a))
  {
    hide Compatible, WellFormed, Separate, UpsertAll, ResolveAll, PlaceFunctions, PlacedFunctions, Bound, ShowsFunction, At,
         RoleDefs, MenuDefs, APIDefs, FunctionDefs;
    PlacedSeparate(t, c);
    PassShows(FunctionState(t.functions, map[], t.bindings), c.menus, ResolveAll(t.menus, MenuKey, MenuDefs(c)),
              ResolveAll(t.apis, RowAPIKey, APIDefs(c)), m, f);
  }

  /** Every role, menu, API and function of the catalog is live under its resolved ID with the declared columns,
      and every declared binding is live. */
  ghost predicate Healed(t: Tables, c: AuthorizationCatalog, u: Tables) {
    var ids := IDsOf(t, c);
    && (forall i :: 0 <= i < |c.roles| ==>
          At(ids.roles, c.roles[i].id) in u.roles &&
          ShowsRole(c, c.roles[i], u.roles[At(ids.roles, c.roles[i].id)], Found(t.roles, RoleKey, RoleDefs(c), i).Some?))
    && (forall m :: m in c.menus ==> At(ids.menus, m.id) in u.menus && ShowsMenu(c, m, u.menus[At(ids.menus, m.id)]))
    && (forall a :: a in c.apis ==> At(ids.apis, a.id) in u.apis && ShowsAPI(c, a, u.apis[At(ids.apis, a.id)]))
    && (forall m, f :: m in c.menus && f in m.functions ==>
          At(ids.functions, f.id) in u.functions && ShowsFunction(At(ids.menus, m.id), f, u.functions[At(ids.functions, f.id)]))
    && (forall m, f, a :: m in c.menus && f in m.functions && a in f.apiIDs ==>
          Bound(u.bindings, At(ids.functions, f.id), At(ids.apis, a)))
  }

  lemma CompatibleHeals(t: Tables, c: AuthorizationCatalog, u: Tables)
    requires Compatible(t, c) && SameResources(u, Resources(t, c))
    ensures Healed(t, c, u)
  {
    hide Compatible, IDsOf, Resources, ShowsRole, ShowsMenu, ShowsAPI, ShowsFunction, Bound, At, Found;
    forall i | 0 <= i < |c.roles| { RolesShow(t, c, i); }
    forall m | m in c.menus { MenusShow(t, c, m); }
    forall a | a in c.apis { APIsShow(t, c, a); }
    forall m, f | m in c.menus && f in m.functions { FunctionsShow(t, c, m, f); }
  }

  lemma RolesShowUnmerged(t: Tables, c: AuthorizationCatalog, u: Tables)
    requires WellFormed(c) && DistinctNames(c) && SameResources(u, Resources(t, c)) && Healed(t, c, u)
    ensures Unmerged(t.roles, RoleKey, RoleDefs(c))
  {
    RolesApart(c);
    UpsertedTables(t, c);
    hide WellFormed, DistinctNames, Apart, Unmerged, UpsertAll, ResolveAll, Resources, IDsOf, Found, At, Bound;
    KeysShowUnmerged(t.roles, RoleKey, RoleDefs(c));
  }

  lemma MenusShowUnmerged(t: Tables, c: AuthorizationCatalog, u: Tables)
    requires WellFormed(c) && DistinctNames(c) && SameResources(u, Resources(t, c)) && Healed(t, c, u)
    ensures Unmerged(t.menus, MenuKey, MenuDefs(c))
  {
    MenusApart(c);
    UpsertedTables(t, c);
    hide WellFormed, DistinctNames, Apart, Unmerged, UpsertAll, ResolveAll, Resources, IDsOf, Found, At, Bound;
    assert forall i :: 0 <= i < |c.menus| ==> c.menus[i] in c.menus;
    KeysShowUnmerged(t.menus, MenuKey, MenuDefs(c));
  }

  lemma ShownAPIHasKey(c: AuthorizationCatalog, a: API, row: APIRow)
    requires ShowsAPI(c, a, row)
    ensures RowAPIKey(row) == APIDefinition(c, a).key
  {
  }

  lemma APIsShowUnmerged(t: Tables, c: AuthorizationCatalog, u: Tables)
    requires WellFormed(c) && SameResources(u, Resources(t, c)) && Healed(t, c, u)
    ensures Unmerged(t.apis, RowAPIKey, APIDefs(c))
  {
    APIsApart(c);
    UpsertedTables(t, c);
    var ids := ResolveAll(t.apis, RowAPIKey, APIDefs(c));
    assert |APIDefs(c)| == |c.apis| && forall i :: 0 <= i < |c.apis| ==> APIDefs(c)[i] == APIDefinition(c, c.apis[i]);
    hide WellFormed, Apart, Unmerged, UpsertAll, ResolveAll, Resources, IDsOf, Found, At, Bound, ShowsAPI, RowAPIKey, APIDefs,
         ShowsRole, ShowsMenu, ShowsFunction;
    forall i | 0 <= i < |c.apis|
      ensures At(ids, c.apis[i].id) in u.apis && RowAPIKey(u.apis[At(ids, c.apis[i].id)]) == APIDefs(c)[i].key && APIDefs(c)[i].id == c.apis[i].id
    {
      assert c.apis[i] in c.apis;
      ShownAPIHasKey(c, c.apis[i], u.apis[At(ids, c.apis[i].id)]);
    }
    KeysShowUnmerged(t.apis, RowAPIKey, APIDefs(c));
  }

  lemma FunctionsShowUnmerged(t: Tables, c: AuthorizationCatalog, u: Tables)
    requires WellFormed(c) && DistinctNames(c) && SameResources(u, Resources(t, c)) && Healed(t, c, u)
    requires Unmerged(t.menus, MenuKey, MenuDefs(c))
    ensures Unmerged(t.functions, FunctionKey, FunctionDefsOf(t, c))
  {
    PlacedApart(t, c);
    PassIDs(t, c);
    UpsertedTables(t, c);
    var menuIDs := ResolveAll(t.menus, MenuKey, MenuDefs(c));
    var ps := PlacedFunctions(c.menus, menuIDs);
    hide WellFormed, DistinctNames, Apart, Unmerged, UpsertAll, ResolveAll, Resources, IDsOf, Found, At, Bound, PlacedFunctions;
    forall k | 0 <= k < |ps|
      ensures var id := At(IDsOf(t, c).functions, ps[k].f.id); id in u.functions && ShowsFunction(ps[k].menuID, ps[k].f, u.functions[id])
    {
      var i := PlacedFrom(c.menus, menuIDs, k);
      assert c.menus[i] in c.menus;
    }
    hide Healed;
    KeysShowUnmerged(t.functions, FunctionKey, FunctionDefsOf(t, c));
  }

  /** After a run everything the catalog declares, even what was deleted or changed before, is as declared,
      exactly when the catalog was compatible with the store. */
  lemma ApplyHeals(t: Tables, c: AuthorizationCatalog, walk: seq<string>)
    requires DistinctNames(c) && Applied(t, c, walk).Ok?
    ensures Healed(t, c, Applied(t, c, walk).value.0) <==> Compatible(t, c)
  {
    var u := Applied(t, c, walk).value.0;
    AppliedParts(t, c, walk);
    SameAsResources(t, c, walk);
    if Compatible(t, c) {
      hide *;
      CompatibleHeals(t, c, u);
    } else if Healed(t, c, u) {
      hide WellFormed, DistinctNames, Unmerged, Healed, Applied, FunctionDefsOf, RoleDefs, MenuDefs, APIDefs, SameResources;
      RolesShowUnmerged(t, c, u);
      MenusShowUnmerged(t, c, u);
      APIsShowUnmerged(t, c, u);
      FunctionsShowUnmerged(t, c, u);
    }
  }
}
