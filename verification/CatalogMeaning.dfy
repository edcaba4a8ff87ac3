/** The access rules a catalog means, and that `Apply` publishes exactly those. */
module CatalogMeaning {
  import opened Text
  import opened Reconcile
  import opened Catalog
  import opened CatalogStore
  import opened CatalogFunctions
  import opened CatalogGrants
  import opened CatalogRules
  import opened CatalogTheorems
  import opened CatalogRuns

  /** No menu row ID holds a NUL, as no text column can. */
  ghost predicate NulFree(c: AuthorizationCatalog, ids: IDs) {
    forall m :: m in c.menus ==> '\0' !in At(ids.menus, m.id)
  }

  lemma APIsInjective(t: Tables, c: AuthorizationCatalog)
    requires Compatible(t, c)
    ensures forall i, j :: 0 <= i < j < |c.apis| ==> At(IDsOf(t, c).apis, c.apis[i].id) != At(IDsOf(t, c).apis, c.apis[j].id)
  {
    APIsSeparate(t, c);
    hide Compatible, Separate, ResolveAll, UpsertAll, FunctionPass;
    var ds := APIDefs(c);
    UpsertAllReconciles(t.apis, RowAPIKey, ds);
    IDsApart(t.apis, RowAPIKey, ds, ResolveAll(t.apis, RowAPIKey, ds));
    forall i, j | 0 <= i < j < |c.apis|
      ensures At(ResolveAll(t.apis, RowAPIKey, ds), c.apis[i].id) != At(ResolveAll(t.apis, RowAPIKey, ds), c.apis[j].id)
    {
      assert ds[i].id == c.apis[i].id && ds[j].id == c.apis[j].id;
    }
  }

  lemma CompatibleIsUnambiguous(t: Tables, c: AuthorizationCatalog, walk: seq<string>)
    requires Compatible(t, c) && Covers(IDsOf(t, c), walk) && NulFree(c, IDsOf(t, c))
    ensures Unambiguous(c, IDsOf(t, c), walk)
  {
    MenusInjective(t, c);
    APIsInjective(t, c);
    FunctionIDsInjective(t, c);
    hide Compatible, InjectiveOn, At, Functions, ResolveAll, FunctionPass;
  }

  /** After one `Apply` the rules of an ordinary subject are those before and the ones a declared grant
      justifies under the grants then live; the rules of a reserved subject are those of the API table. */
  lemma ApplyPublishesJustifiedRules(t: Tables, c: AuthorizationCatalog, walk: seq<string>)
    requires Compatible(t, c) && Covers(IDsOf(t, c), walk) && NulFree(c, IDsOf(t, c))
    requires Applied(t, c, walk).Ok?
    ensures var u := Applied(t, c, walk).value.0;
            forall r :: r in u.rules <==>
              if Reserved(r) then r in SubjectRules(u.apis, r.v0)
              else r in t.rules || Justified(c, IDsOf(t, c), u.roleGrants, u.tenantGrants, r)
  {
    assert WellFormed(c);
    CompatibleIsUnambiguous(t, c, walk);
    hide Compatible, WellFormed, Covers, NulFree, Unambiguous, IDsOf, Applied, Projected, Reserved, SubjectRules, Justified, RuleList,
         PreviouslyApplied, Resources, SeedGrants, ToSet;
    var u, p := Applied(t, c, walk).value.0, Published(t, c, walk);
    AppliedParts(t, c, walk);
    ResourcesKeepRules(t, c);
    forall r ensures r in u.rules <==>
                     if Reserved(r) then r in SubjectRules(u.apis, r.v0)
                     else r in t.rules || Justified(c, IDsOf(t, c), u.roleGrants, u.tenantGrants, r) {
      ProjectedMeans(p.rules, p.apis, r);
      RulesExact(c, IDsOf(t, c), walk, u.roleGrants, u.tenantGrants, r);
    }
  }

  lemma ResourcesKeepRules(t: Tables, c: AuthorizationCatalog)
    ensures var r := Resources(t, c); r.rules == t.rules && r.roleGrants == t.roleGrants && r.tenantGrants == t.tenantGrants && r.policies == t.policies
  {
    hide FunctionPass, UpsertAll;
  }

  // ---- an empty store: the rules are the catalog's meaning ------------------------------------------------------

  ghost predicate Grounds(c: AuthorizationCatalog, g: RoleGrant, h: TenantGrant, m: Menu, f: Function, a: API) {
    && g in c.roleGrants && h in c.tenantGrants && m in c.menus && f in m.functions && a in c.apis
    && h.tenantID == c.tenantID && g.menuID == m.id && h.menuID == m.id
    && f.name in g.functions && f.name in h.functions && a.id in f.apiIDs
  }

  /** What the catalog says on its own, with no table in sight: a role may call an API when one of its
      grants and one of the tenant's grants name a function, of the same menu, that lists the API. */
  ghost predicate Means(c: AuthorizationCatalog, r: CasbinRule) {
    exists g, h, m, f, a :: Grounds(c, g, h, m, f, a) && r == RuleFor(g.roleID, a)
  }

  ghost predicate Blank(t: Tables) {
    && t.roles == map[] && t.menus == map[] && t.apis == map[] && t.functions == map[] && t.bindings == []
    && t.roleGrants == [] && t.tenantGrants == [] && t.policies == [] && t.rules == {} && t.userRoles == []
  }

  lemma NothingFound<K, R>(keyOf: R -> K, ds: seq<Definition<K, R>>, i: nat)
    requires i < |ds|
    ensures RowID(map[], keyOf, ds, i) == ds[i].id && RowLeft(map[], keyOf, ds, i) == ds[i].created
  {
    assert Rest(map[], ds, i) == map[];
    assert Matches(map[], keyOf, ds[i].key) == {};
  }

  /** On an empty table every ID resolves to itself. */
  lemma BlankTableResolves<K, R>(keyOf: R -> K, ds: seq<Definition<K, R>>)
    requires Apart(keyOf, ds)
    ensures forall i :: 0 <= i < |ds| ==> At(ResolveAll(map[], keyOf, ds), ds[i].id) == ds[i].id
  {
    hide UpsertAll, ResolveAll, RowID, Apart, Reconciled;
    UpsertAllReconciles(map[], keyOf, ds);
    forall i | 0 <= i < |ds| { NothingFound(keyOf, ds, i); }
  }

  /** Reconciling nothing leaves one created row under each definition's own ID. */
  lemma ReconciledFromNothing<K, R>(keyOf: R -> K, ds: seq<Definition<K, R>>)
    requires Apart(keyOf, ds)
    ensures var u := UpsertAll(map[], keyOf, ds);
            && (forall id :: id in u <==> exists i :: 0 <= i < |ds| && ds[i].id == id)
            && (forall i :: 0 <= i < |ds| ==> ds[i].id in u && u[ds[i].id] == ds[i].created)
  {
    hide UpsertAll, ResolveAll, RowID, RowLeft, Resolved;
    UpsertAllReconciles(map[], keyOf, ds);
    forall i | 0 <= i < |ds| { NothingFound(keyOf, ds, i); }
    assert forall i :: 0 <= i < |ds| ==> RowID(map[], keyOf, ds, i) in Targets(map[], keyOf, ds, |ds|);
    assert forall i :: 0 <= i < |ds| ==> Untaken(map[], keyOf, ds, i, |ds|);
  }

  lemma RoleDefsAt(c: AuthorizationCatalog)
    ensures |RoleDefs(c)| == |c.roles| && forall i :: 0 <= i < |c.roles| ==> RoleDefs(c)[i].id == c.roles[i].id
    ensures |MenuDefs(c)| == |c.menus| && forall i :: 0 <= i < |c.menus| ==> MenuDefs(c)[i].id == c.menus[i].id
  {
  }

  lemma BlankIDs(t: Tables, c: AuthorizationCatalog)
    requires Blank(t) && Compatible(t, c)
    ensures forall r :: r in c.roles ==> At(IDsOf(t, c).roles, r.id) == r.id
    ensures forall m :: m in c.menus ==> At(IDsOf(t, c).menus, m.id) == m.id
  {
    RolesSeparate(t, c);
    MenusSeparate(t, c);
    hide Compatible, Separate, ResolveAll, FunctionPass, MapSeq, At, RoleDefs, MenuDefs;
    RoleDefsAt(c);
    BlankTableResolves(RoleKey, RoleDefs(c));
    BlankTableResolves(MenuKey, MenuDefs(c));
    forall r | r in c.roles ensures At(IDsOf(t, c).roles, r.id) == r.id {
      var i :| 0 <= i < |c.roles| && c.roles[i] == r;
      assert RoleDefs(c)[i].id == r.id;
    }
    forall m | m in c.menus ensures At(IDsOf(t, c).menus, m.id) == m.id {
      var i :| 0 <= i < |c.menus| && c.menus[i] == m;
      assert MenuDefs(c)[i].id == m.id;
    }
  }

  lemma BlankIsNotApplied(t: Tables, c: AuthorizationCatalog)
    requires Blank(t)
    ensures !PreviouslyApplied(t, c)
  {
  }

  /** No two grants of the catalog share a role and a menu, or a tenant and a menu. */
  ghost predicate OneGrantEach(c: AuthorizationCatalog) {
    && (forall i, j :: 0 <= i < j < |c.roleGrants| ==>
          c.roleGrants[i].roleID != c.roleGrants[j].roleID || c.roleGrants[i].menuID != c.roleGrants[j].menuID)
    && (forall i, j :: 0 <= i < j < |c.tenantGrants| ==>
          c.tenantGrants[i].tenantID != c.tenantGrants[j].tenantID || c.tenantGrants[i].menuID != c.tenantGrants[j].menuID)
  }

  ghost predicate CommaFreeGrants(c: AuthorizationCatalog) {
    && (forall g, n :: g in c.roleGrants && n in g.functions ==> CommaFree(n))
    && (forall h, n :: h in c.tenantGrants && n in h.functions ==> CommaFree(n))
  }

  ghost predicate CleanGrants(c: AuthorizationCatalog) {
    && (forall g :: g in c.roleGrants ==> CleanList(g.functions))
    && (forall h :: h in c.tenantGrants ==> CleanList(h.functions))
  }

  lemma NormalizedGrantsAreClean(c: AuthorizationCatalog)
    requires Normalized(c) == c
    ensures CleanGrants(c)
  {
    hide Trim, NormalizedSet, CleanList, OwnTenant;
    forall g | g in c.roleGrants ensures CleanList(g.functions) {
      var i :| 0 <= i < |c.roleGrants| && c.roleGrants[i] == g;
      assert g == NormalRoleGrant(g);
      NormalizedSetIsClean(g.functions);
    }
    forall h | h in c.tenantGrants ensures CleanList(h.functions) {
      var i :| 0 <= i < |c.tenantGrants| && c.tenantGrants[i] == h;
      assert h == TenantGrantNormalizer(c.tenantID)(h);
      NormalizedSetIsClean(h.functions);
    }
  }

  /** In a table with one live row per pair, the row of a pair is the one a query finds. */
  lemma OnlyRowAllows(rows: seq<Grant>, k: nat, names: seq<string>, name: string)
    requires forall i, j :: 0 <= i < j < |rows| ==> rows[i].holder != rows[j].holder || rows[i].menuID != rows[j].menuID
    requires k < |rows| && !rows[k].deleted && rows[k].funcs == Join(names)
    requires CleanList(names) && forall n :: n in names ==> CommaFree(n)
    ensures Allows(rows, rows[k].holder, rows[k].menuID, name) <==> name in names
  {
    hide CsvSet, CleanList, CommaFree;
    FirstAt(rows, LiveOf(rows[k].holder, rows[k].menuID), k);
    CsvRoundTrip(names);
  }

  lemma {:induction false} AllowsHasRow(rows: seq<Grant>, holder: string, menuID: string, name: string) returns (k: nat)
    requires Allows(rows, holder, menuID, name)
    ensures k < |rows| && rows[k].holder == holder && rows[k].menuID == menuID
  {
    k := First(rows, LiveOf(holder, menuID)).value;
  }

  function RoleRows(c: AuthorizationCatalog): seq<Grant> {
    MapSeq(c.roleGrants, (g: RoleGrant) => Grant(g.roleID, g.menuID, Join(g.functions), g.show, false))
  }

  function TenantRows(c: AuthorizationCatalog): seq<Grant> {
    MapSeq(c.tenantGrants, (g: TenantGrant) => Grant(g.tenantID, g.menuID, Join(g.functions), true, false))
  }

  lemma GrantTargets(c: AuthorizationCatalog)
    requires GrantsWellFormed(c)
    ensures forall g :: g in c.roleGrants ==> (exists r :: r in c.roles && r.id == g.roleID) && exists m :: m in c.menus && m.id == g.menuID
    ensures forall h :: h in c.tenantGrants ==> exists m :: m in c.menus && m.id == h.menuID
  {
    forall g | g in c.roleGrants ensures exists r :: r in c.roles && r.id == g.roleID {
      var i :| 0 <= i < |c.roles| && RoleIDs(c)[i] == g.roleID;
      assert c.roles[i] in c.roles;
    }
    assert forall g :: g in c.roleGrants ==> Declares(c, g.menuID, g.functions);
    assert forall h :: h in c.tenantGrants ==> Declares(c, h.menuID, h.functions);
  }

  lemma RowsAreOwn(c: AuthorizationCatalog, ids: IDs)
    requires GrantsWellFormed(c)
    requires forall r :: r in c.roles ==> At(ids.roles, r.id) == r.id
    requires forall m :: m in c.menus ==> At(ids.menus, m.id) == m.id
    ensures RoleGrantRows(c, ids) == RoleRows(c) && TenantGrantRows(c, ids) == TenantRows(c)
  {
    GrantTargets(c);
    hide GrantsWellFormed, At, Join;
    forall i | 0 <= i < |c.roleGrants| ensures RoleGrantRows(c, ids)[i] == RoleRows(c)[i] {
      assert c.roleGrants[i] in c.roleGrants;
    }
    forall i | 0 <= i < |c.tenantGrants| ensures TenantGrantRows(c, ids)[i] == TenantRows(c)[i] {
      assert c.tenantGrants[i] in c.tenantGrants;
    }
  }

  lemma GrantRole(c: AuthorizationCatalog, ids: IDs, g: RoleGrant)
    requires GrantsWellFormed(c) && g in c.roleGrants
    requires forall r :: r in c.roles ==> At(ids.roles, r.id) == r.id
    ensures At(ids.roles, g.roleID) == g.roleID
  {
    GrantTargets(c);
  }

  lemma ReasonIsGrounds(c: AuthorizationCatalog, ids: IDs, g: RoleGrant, m: Menu, f: Function,
                        a: API) returns (h: TenantGrant)
    requires OneGrantEach(c) && CommaFreeGrants(c) && CleanGrants(c)
    requires At(ids.menus, m.id) == m.id && Reason(c, ids, RoleRows(c), TenantRows(c), g, m, f, a)
    ensures Grounds(c, g, h, m, f, a)
  {
    hide At, Join, CleanGrants, CommaFreeGrants, OneGrantEach, Allows;
    var k := AllowsHasRow(TenantRows(c), c.tenantID, m.id, f.name);
    TenantRowAllows(c, k, f.name);
    h := c.tenantGrants[k];
    assert h in c.tenantGrants && h.menuID == m.id && h.tenantID == c.tenantID;
  }

  lemma GroundsAreReason(c: AuthorizationCatalog, ids: IDs, g: RoleGrant, h: TenantGrant, m: Menu, f: Function, a: API)
    requires OneGrantEach(c) && CommaFreeGrants(c) && CleanGrants(c)
    requires At(ids.menus, m.id) == m.id && At(ids.roles, g.roleID) == g.roleID && Grounds(c, g, h, m, f, a)
    ensures Reason(c, ids, RoleRows(c), TenantRows(c), g, m, f, a)
  {
    hide At, Join, CleanGrants, CommaFreeGrants, OneGrantEach, Allows;
    var i :| 0 <= i < |c.roleGrants| && c.roleGrants[i] == g;
    var k :| 0 <= k < |c.tenantGrants| && c.tenantGrants[k] == h;
    RoleRowAllows(c, i, f.name);
    TenantRowAllows(c, k, f.name);
  }

  /** Under the grants the catalog itself declares, a rule is justified exactly when the catalog means it. */
  lemma JustifiedIsMeant(c: AuthorizationCatalog, ids: IDs, r: CasbinRule)
    requires GrantsWellFormed(c) && OneGrantEach(c) && CommaFreeGrants(c) && CleanGrants(c)
    requires forall r :: r in c.roles ==> At(ids.roles, r.id) == r.id
    requires forall m :: m in c.menus ==> At(ids.menus, m.id) == m.id
    ensures Justified(c, ids, RoleRows(c), TenantRows(c), r) <==> Means(c, r)
  {
    hide GrantsWellFormed, At, Allows, RuleFor, CleanGrants, CommaFreeGrants, OneGrantEach, RoleRows, TenantRows;
    if Justified(c, ids, RoleRows(c), TenantRows(c), r) {
      var g, m, f, a :| Reason(c, ids, RoleRows(c), TenantRows(c), g, m, f, a) && r == RuleFor(At(ids.roles, g.roleID), a);
      var h := ReasonIsGrounds(c, ids, g, m, f, a);
      GrantRole(c, ids, g);
    }
    if Means(c, r) {
      var g, h, m, f, a :| Grounds(c, g, h, m, f, a) && r == RuleFor(g.roleID, a);
      GrantRole(c, ids, g);
      GroundsAreReason(c, ids, g, h, m, f, a);
    }
  }

  lemma RoleRowAllows(c: AuthorizationCatalog, k: nat, name: string)
    requires OneGrantEach(c) && CommaFreeGrants(c) && CleanGrants(c) && k < |c.roleGrants|
    ensures Allows(RoleRows(c), c.roleGrants[k].roleID, c.roleGrants[k].menuID, name) <==> name in c.roleGrants[k].functions
  {
    assert c.roleGrants[k] in c.roleGrants;
    hide Join, CleanList, CommaFree, Allows;
    OnlyRowAllows(RoleRows(c), k, c.roleGrants[k].functions, name);
  }

  lemma TenantRowAllows(c: AuthorizationCatalog, k: nat, name: string)
    requires OneGrantEach(c) && CommaFreeGrants(c) && CleanGrants(c) && k < |c.tenantGrants|
    ensures Allows(TenantRows(c), c.tenantGrants[k].tenantID, c.tenantGrants[k].menuID, name) <==> name in c.tenantGrants[k].functions
  {
    assert c.tenantGrants[k] in c.tenantGrants;
    hide Join, CleanList, CommaFree, Allows;
    OnlyRowAllows(TenantRows(c), k, c.tenantGrants[k].functions, name);
  }

  lemma BlankGrants(t: Tables, c: AuthorizationCatalog, walk: seq<string>)
    requires Blank(t) && Compatible(t, c) && OneGrantEach(c)
    ensures Published(t, c, walk).roleGrants == RoleRows(c) && Published(t, c, walk).tenantGrants == TenantRows(c)
  {
    assert GrantsWellFormed(c);
    hide Compatible, GrantsWellFormed, IDsOf, RuleList, SeedGrants, EnsurePolicies, ToSet, RoleGrantRows,
         TenantGrantRows, PolicyRows, Resources, PreviouslyApplied;
    BlankIsNotApplied(t, c);
    BlankIDs(t, c);
    ResourcesKeepRules(t, c);
    RowsAreOwn(c, IDsOf(t, c));
    SeedEmpty(RoleRows(c));
    SeedEmpty(TenantRows(c));
  }

  /** A rule of a reserved subject for an API the catalog opens to it: "0" to whoever logged in, "-1" to all. */
  ghost predicate Opens(c: AuthorizationCatalog, r: CasbinRule) {
    exists a :: a in c.apis && (if r.v0 == LOGIN_SUBJECT then !a.checkAuth && a.checkLogin else !a.checkLogin)
                && r == CasbinRule("p", r.v0, a.path, a.verb, "false", "", "")
  }

  lemma OpenRows(c: AuthorizationCatalog, u: map<string, APIRow>, r: CasbinRule)
    requires Reserved(r)
    requires forall i :: 0 <= i < |c.apis| ==> c.apis[i].id in u && u[c.apis[i].id] == HealedAPI(c, c.apis[i])
    requires forall id :: id in u ==> exists i :: 0 <= i < |c.apis| && c.apis[i].id == id
    ensures r in SubjectRules(u, r.v0) <==> Opens(c, r)
  {
    if r in SubjectRules(u, r.v0) {
      var id :| id in u && OpenTo(r.v0, u[id]) && r == SubjectRule(r.v0, u[id]);
      var i :| 0 <= i < |c.apis| && c.apis[i].id == id;
      assert c.apis[i] in c.apis;
    }
    if Opens(c, r) {
      var a :| a in c.apis && (if r.v0 == LOGIN_SUBJECT then !a.checkAuth && a.checkLogin else !a.checkLogin)
               && r == CasbinRule("p", r.v0, a.path, a.verb, "false", "", "");
      var i :| 0 <= i < |c.apis| && c.apis[i] == a;
      assert OpenTo(r.v0, u[a.id]);
    }
  }

  lemma BlankAPIs(t: Tables, c: AuthorizationCatalog, r: CasbinRule)
    requires Blank(t) && Compatible(t, c) && Reserved(r)
    ensures r in SubjectRules(UpsertAll(t.apis, RowAPIKey, APIDefs(c)), r.v0) <==> Opens(c, r)
  {
    APIsSeparate(t, c);
    hide Compatible, Separate, UpsertAll, Reserved, Opens, SubjectRules, RowAPIKey, HealedAPI, OpenTo;
    var ds := APIDefs(c);
    ReconciledFromNothing(RowAPIKey, ds);
    assert forall i :: 0 <= i < |c.apis| ==> ds[i].id == c.apis[i].id && ds[i].created == HealedAPI(c, c.apis[i]);
    OpenRows(c, UpsertAll(t.apis, RowAPIKey, ds), r);
  }

  /** On an empty store the published rule set is precisely the meaning of the (normalized) catalog, when
      no function name holds a comma and grants do not overlap: for an ordinary subject what the grants say,
      for a reserved one which APIs need no login or no authorization. */
  lemma PublishedRulesAreTheMeaning(t: Tables, c: AuthorizationCatalog, walk: seq<string>)
    requires Blank(t) && Compatible(t, c) && Normalized(c) == c
    requires Covers(IDsOf(t, c), walk) && forall m :: m in c.menus ==> '\0' !in m.id
    requires OneGrantEach(c) && CommaFreeGrants(c)
    requires Applied(t, c, walk).Ok?
    ensures forall r :: r in Applied(t, c, walk).value.0.rules <==> if Reserved(r) then Opens(c, r) else Means(c, r)
  {
    assert WellFormed(c) && GrantsWellFormed(c);
    hide Compatible, WellFormed, Covers, GrantsWellFormed, IDsOf, Applied, Published, Normalized, Resources, UpsertAll,
         CommaFreeGrants, OneGrantEach, CleanGrants, Justified, Means, Opens, Reserved, SubjectRules, Projected;
    BlankIDs(t, c);
    NormalizedGrantsAreClean(c);
    BlankGrants(t, c, walk);
    AppliedParts(t, c, walk);
    PublishedAPIs(t, c, walk);
    ApplyPublishesJustifiedRules(t, c, walk);
    forall r ensures r in Applied(t, c, walk).value.0.rules <==> if Reserved(r) then Opens(c, r) else Means(c, r) {
      if Reserved(r) { BlankAPIs(t, c, r); }
      JustifiedIsMeant(c, IDsOf(t, c), r);
    }
  }

  lemma PublishedAPIs(t: Tables, c: AuthorizationCatalog, walk: seq<string>)
    ensures Published(t, c, walk).apis == UpsertAll(t.apis, RowAPIKey, APIDefs(c))
  {
    hide UpsertAll, FunctionPass, RuleList, SeedGrants, EnsurePolicies, ToSet, PreviouslyApplied, IDsOf;
  }

  // ---- roles that resolve to a reserved subject -----------------------------------------------------------------

  /** The API itself is open to the subject, given that it needs no authorization; or some row is that the
      catalog leaves alone and that has its path and method. */
  ghost predicate OpenFor(t: Tables, c: AuthorizationCatalog, subject: string, a: API) {
    || a.checkLogin == (subject == LOGIN_SUBJECT)
    || exists id :: id in t.apis && id !in Targets(t.apis, RowAPIKey, APIDefs(c), |APIDefs(c)|) && OpenAt(t.apis, id, subject, a)
  }

  predicate OpenAt(apis: map<string, APIRow>, id: string, subject: string, a: API)
    requires id in apis
  {
    OpenTo(subject, apis[id]) && apis[id].path == a.path && apis[id].verb == a.verb
  }

  /** The row an API gets. */
  lemma RowOfAPI(t: map<string, APIRow>, c: AuthorizationCatalog, i: nat)
    requires Separate(t, RowAPIKey, APIDefs(c)) && i < |c.apis|
    ensures var u, id := UpsertAll(t, RowAPIKey, APIDefs(c)), RowID(t, RowAPIKey, APIDefs(c), i);
            id in Targets(t, RowAPIKey, APIDefs(c), |APIDefs(c)|) && id in u && u[id] == HealedAPI(c, c.apis[i])
  {
    var ds := APIDefs(c);
    assert RowLeft(t, RowAPIKey, ds, i) == HealedAPI(c, c.apis[i]);
    UpsertAllReconciles(t, RowAPIKey, ds);
    hide UpsertAll, RowID, RowLeft, Apart, APIDefs;
    assert RowID(t, RowAPIKey, ds, i) in Targets(t, RowAPIKey, ds, |ds|) && Untaken(t, RowAPIKey, ds, i, |ds|);
  }

  /** Which APIs are open after the run can be read off the store before it and the catalog. */
  lemma OpenAfter(t: Tables, c: AuthorizationCatalog, subject: string, a: API)
    requires Compatible(t, c) && a in c.apis && !a.checkAuth && (subject == LOGIN_SUBJECT || subject == PUBLIC_SUBJECT)
    ensures var u := UpsertAll(t.apis, RowAPIKey, APIDefs(c));
            (exists id :: id in u && OpenAt(u, id, subject, a)) <==> OpenFor(t, c, subject, a)
  {
    APIsSeparate(t, c);
    assert APIsWellFormed(c);
    var ds, u := APIDefs(c), UpsertAll(t.apis, RowAPIKey, APIDefs(c));
    hide Compatible, Apart, Unmerged, UpsertAll, RowID, RowAPIKey, Resolved;
    UpsertAllReconciles(t.apis, RowAPIKey, ds);
    var k :| 0 <= k < |c.apis| && c.apis[k] == a;
    RowOfAPI(t.apis, c, k);
    if id :| id in u && OpenAt(u, id, subject, a) {
      if id in Targets(t.apis, RowAPIKey, ds, |ds|) {
        var i :| 0 <= i < |ds| && RowID(t.apis, RowAPIKey, ds, i) == id;
        RowOfAPI(t.apis, c, i);
        assert i == k;
      } else {
        assert OpenAt(t.apis, id, subject, a);
      }
    }
    if a.checkLogin == (subject == LOGIN_SUBJECT) {
      assert OpenAt(u, RowID(t.apis, RowAPIKey, ds, k), subject, a);
    } else if id :| id in t.apis && id !in Targets(t.apis, RowAPIKey, ds, |ds|) && OpenAt(t.apis, id, subject, a) {
      assert OpenAt(u, id, subject, a);
    }
  }

  /** A rule some grant justifies is in the table after the run exactly when its role resolves to an ordinary
      ID, or the API needs no authorization and either is itself open to the reserved subject the role
      resolves to, or shares path and method with an open row that the catalog leaves alone. Validation lets
      both IDs pass. */
  lemma JustifiedRuleSurvives(t: Tables, c: AuthorizationCatalog, walk: seq<string>, g: RoleGrant, m: Menu, f: Function, a: API)
    requires Compatible(t, c) && Covers(IDsOf(t, c), walk) && NulFree(c, IDsOf(t, c))
    requires Applied(t, c, walk).Ok?
    requires var u := Applied(t, c, walk).value.0; Reason(c, IDsOf(t, c), u.roleGrants, u.tenantGrants, g, m, f, a)
    ensures var role := At(IDsOf(t, c).roles, g.roleID);
            RuleFor(role, a) in Applied(t, c, walk).value.0.rules <==>
            (role != LOGIN_SUBJECT && role != PUBLIC_SUBJECT) || (!a.checkAuth && OpenFor(t, c, role, a))
  {
    var u, role := Applied(t, c, walk).value.0, At(IDsOf(t, c).roles, g.roleID);
    assert a in c.apis;
    hide Compatible, Covers, NulFree, IDsOf, Applied, Reason, At, OpenFor, OpenTo, Published, UpsertAll, Projected;
    AppliedParts(t, c, walk);
    PublishedAPIs(t, c, walk);
    ApplyPublishesJustifiedRules(t, c, walk);
    assert Justified(c, IDsOf(t, c), u.roleGrants, u.tenantGrants, RuleFor(role, a));
    hide Justified;
    if Reserved(RuleFor(role, a)) {
      SubjectHas(u.apis, role, a);
      if !a.checkAuth { OpenAfter(t, c, role, a); }
    }
  }

  lemma SubjectHas(apis: map<string, APIRow>, subject: string, a: API)
    ensures RuleFor(subject, a) in SubjectRules(apis, subject) <==> !a.checkAuth && exists id :: id in apis && OpenAt(apis, id, subject, a)
  {
    hide OpenTo;
    if !a.checkAuth {
      if id :| id in apis && OpenAt(apis, id, subject, a) { assert SubjectRule(subject, apis[id]) == RuleFor(subject, a); }
      if RuleFor(subject, a) in SubjectRules(apis, subject) {
        var id :| id in apis && OpenTo(subject, apis[id]) && RuleFor(subject, a) == SubjectRule(subject, apis[id]);
        assert OpenAt(apis, id, subject, a);
      }
    }
  }
}
