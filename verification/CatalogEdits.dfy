/** What `Apply` leaves alone: custom rows in one run, and administrators' edits over many. */
module CatalogEdits {
  import opened Text
  import opened Reconcile
  import opened Catalog
  import opened CatalogStore
  import opened CatalogFunctions
  import opened CatalogGrants
  import opened CatalogTheorems
  import opened CatalogRuns

  // ---- lookups after validation -----------------------------------------------------------------------------

  lemma RowOf<K, R>(t: map<string, R>, keyOf: R -> K, ds: seq<Definition<K, R>>, ids: seq<string>, id: string)
    requires |ids| == |ds| && (forall i :: 0 <= i < |ds| ==> ds[i].id == ids[i]) && id in ids
    ensures id in ResolveAll(t, keyOf, ds)
  {
    var i :| 0 <= i < |ids| && ids[i] == id;
    EveryIDResolves(t, keyOf, ds, i);
  }

  /** Every ID that `Apply` looks up after validation has an entry, whatever the tables hold. */
  lemma LookupsHit(t: Tables, c: AuthorizationCatalog)
    requires WellFormed(c)
    ensures var ids := IDsOf(t, c);
            && (c.defaultRoleID != "" ==> c.defaultRoleID in ids.roles)
            && (forall g :: g in c.roleGrants ==> g.roleID in ids.roles && g.menuID in ids.menus)
            && (forall h :: h in c.tenantGrants ==> h.menuID in ids.menus)
            && (forall p :: p in c.policies ==> p.roleID in ids.roles)
            && (forall m, f, a :: m in c.menus && f in m.functions && a in f.apiIDs ==> a in ids.apis)
            && (forall m, f :: m in c.menus && f in m.functions ==> m.id in ids.menus && f.id in ids.functions)
  {
    DeclaredIDs(c);
    hide WellFormed, ResolveAll, FunctionPass, Functions, MapSeq;
    ResolvedLists(t, c);
    FunctionLookups(t, c);
  }

  lemma DeclaredIDs(c: AuthorizationCatalog)
    requires WellFormed(c)
    ensures c.defaultRoleID != "" ==> c.defaultRoleID in RoleIDs(c)
    ensures forall g :: g in c.roleGrants ==> g.roleID in RoleIDs(c) && g.menuID in MenuIDs(c)
    ensures forall h :: h in c.tenantGrants ==> h.menuID in MenuIDs(c)
    ensures forall p :: p in c.policies ==> p.roleID in RoleIDs(c)
    ensures forall m, f, a :: m in c.menus && f in m.functions && a in f.apiIDs ==> a in APIIDs(c)
    ensures forall m :: m in c.menus ==> m.id in MenuIDs(c)
  {
    hide Distinct, Functions, Parent, ShortID;
    forall m | m in c.menus ensures m.id in MenuIDs(c) && forall f, a :: f in m.functions && a in f.apiIDs ==> a in APIIDs(c) {
      var i :| 0 <= i < |c.menus| && c.menus[i] == m;
      assert MenuIDs(c)[i] == m.id && MenuWellFormed(m, APIIDs(c));
      assert forall f :: f in m.functions ==> FunctionWellFormed(f, APIIDs(c));
    }
    assert forall g :: g in c.roleGrants ==> Declares(c, g.menuID, g.functions);
    assert forall h :: h in c.tenantGrants ==> Declares(c, h.menuID, h.functions);
  }

  lemma ResolvedLists(t: Tables, c: AuthorizationCatalog)
    ensures forall id :: id in RoleIDs(c) ==> id in ResolveAll(t.roles, RoleKey, RoleDefs(c))
    ensures forall id :: id in MenuIDs(c) ==> id in ResolveAll(t.menus, MenuKey, MenuDefs(c))
    ensures forall id :: id in APIIDs(c) ==> id in ResolveAll(t.apis, RowAPIKey, APIDefs(c))
  {
    forall id | id in RoleIDs(c) ensures id in ResolveAll(t.roles, RoleKey, RoleDefs(c)) { RowOf(t.roles, RoleKey, RoleDefs(c), RoleIDs(c), id); }
    forall id | id in MenuIDs(c) ensures id in ResolveAll(t.menus, MenuKey, MenuDefs(c)) { RowOf(t.menus, MenuKey, MenuDefs(c), MenuIDs(c), id); }
    forall id | id in APIIDs(c) ensures id in ResolveAll(t.apis, RowAPIKey, APIDefs(c)) { RowOf(t.apis, RowAPIKey, APIDefs(c), APIIDs(c), id); }
  }

  lemma FunctionLookups(t: Tables, c: AuthorizationCatalog)
    ensures forall m, f :: m in c.menus && f in m.functions ==> f.id in IDsOf(t, c).functions
  {
    PassIDs(t, c);
    hide IDsOf, ResolveAll;
    var menuIDs := ResolveAll(t.menus, MenuKey, MenuDefs(c));
    var ps := PlacedFunctions(c.menus, menuIDs);
    forall m, f | m in c.menus && f in m.functions ensures f.id in IDsOf(t, c).functions {
      var i :| 0 <= i < |c.menus| && c.menus[i] == m;
      var k := PlacedTo(c.menus, menuIDs, i, f);
      EveryIDResolves(t.functions, FunctionKey, FunctionDefs(ps), k);
    }
  }

  // ---- custom rows ------------------------------------------------------------------------------------------

  /** The row is the target of no definition. */
  ghost predicate Custom<K, R>(t: map<string, R>, keyOf: R -> K, ds: seq<Definition<K, R>>, id: string) {
    id in t && forall i :: 0 <= i < |ds| ==> id != ds[i].id && keyOf(t[id]) != ds[i].key
  }

  /** Upserting leaves every row alone that has neither the ID nor the key of a definition; no hypothesis
      on the catalog is needed. */
  lemma {:induction false} CustomRowKept<K, R>(t: map<string, R>, keyOf: R -> K, ds: seq<Definition<K, R>>, id: string)
    requires Custom(t, keyOf, ds, id)
    ensures var u := UpsertAll(t, keyOf, ds); id in u && u[id] == t[id]
  {
    if ds != [] {
      var front, d := ds[..|ds| - 1], ds[|ds| - 1];
      assert forall i :: 0 <= i < |front| ==> front[i] == ds[i];
      CustomRowKept(t, keyOf, front, id);
      ResolveFacts(UpsertAll(t, keyOf, front), keyOf, d);
    }
  }

  /** Links keep their place and pair; a pass only adds links and restores deleted ones. */
  ghost predicate Retained(rows: seq<Link>, rows': seq<Link>) {
    && |rows| <= |rows'|
    && forall k :: 0 <= k < |rows| ==> rows'[k] == rows[k] || rows'[k] == rows[k].(deleted := false)
  }

  lemma {:induction false} BindRetains(rows: seq<Link>, left: string, apis: seq<string>, apiIDs: map<string, string>)
    ensures Retained(rows, Bind(rows, left, apis, apiIDs))
  {
    if apis != [] { BindRetains(rows, left, apis[..|apis| - 1], apiIDs); }
  }

  lemma RetainedTransitive(a: seq<Link>, b: seq<Link>, c: seq<Link>)
    requires Retained(a, b) && Retained(b, c)
    ensures Retained(a, c)
  {
  }

  lemma {:induction false} PassRetains(s: FunctionState, ps: seq<Placed>, apiIDs: map<string, string>)
    ensures Retained(s.bindings, PlaceFunctions(s, ps, apiIDs).bindings)
  {
    hide Retained, Bind;
    if ps != [] {
      var before := PlaceFunctions(s, ps[..|ps| - 1], apiIDs);
      PassRetains(s, ps[..|ps| - 1], apiIDs);
      var p := ps[|ps| - 1];
      BindRetains(before.bindings, ResolvedID(before.rows, FunctionKey, FunctionDefinition(p)), p.f.apiIDs, apiIDs);
      RetainedTransitive(s.bindings, before.bindings, PlaceFunctions(s, ps, apiIDs).bindings);
    } else {
      RetainedRefl(s.bindings);
    }
  }

  lemma RetainedRefl(rows: seq<Link>)
    ensures Retained(rows, rows)
  {
  }

  lemma {:induction false} AssignRetains(rows: seq<Link>, users: seq<string>, roleID: string)
    ensures Retained(rows, Assign(rows, users, roleID))
  {
    if users != [] { AssignRetains(rows, users[..|users| - 1], roleID); }
  }

  /** A policy row that no declared policy governs survives, seeding or not. */
  lemma {:induction false} UngovernedKept(rows: seq<PolicyRow>, ps: seq<PolicyRow>, seed: bool, k: nat)
    requires k < |rows| && forall i :: 0 <= i < |ps| ==> !SameTarget(ps[i], rows[k])
    ensures k < |EnsurePolicies(rows, ps, seed)| && EnsurePolicies(rows, ps, seed)[k] == rows[k]
  {
    if ps != [] {
      UngovernedKept(rows, ps[..|ps| - 1], seed, k);
    }
  }

  /** Custom rows are retained: roles, menus, APIs and functions that no definition claims are untouched;
      grants and users keep every row; links keep every row, at most restored; a policy row is rewritten only
      where the catalog declares its target. A Casbin rule stays unless its subject is one of the two
      reserved ones, whose rules become exactly those of the API table. */
  lemma CustomRowsAreKept(t: Tables, c: AuthorizationCatalog, walk: seq<string>)
    requires Applied(t, c, walk).Ok?
    ensures var u := Applied(t, c, walk).value.0;
            && (forall id :: Custom(t.roles, RoleKey, RoleDefs(c), id) ==> id in u.roles && u.roles[id] == t.roles[id])
            && (forall id :: Custom(t.menus, MenuKey, MenuDefs(c), id) ==> id in u.menus && u.menus[id] == t.menus[id])
            && (forall id :: Custom(t.apis, RowAPIKey, APIDefs(c), id) ==> id in u.apis && u.apis[id] == t.apis[id])
            && (forall id :: Custom(t.functions, FunctionKey, FunctionDefs(PlacedFunctions(c.menus, IDsOf(t, c).menus)), id) ==>
                  id in u.functions && u.functions[id] == t.functions[id])
            && Retained(t.bindings, u.bindings) && Retained(t.userRoles, u.userRoles)
            && t.roleGrants <= u.roleGrants && t.tenantGrants <= u.tenantGrants && u.users == t.users
            && (forall r :: r in t.rules && !Reserved(r) ==> r in u.rules)
            && (forall r :: Reserved(r) ==> (r in u.rules <==> r in SubjectRules(u.apis, r.v0)))
            && (forall k :: 0 <= k < |t.policies| && (forall i :: 0 <= i < |c.policies| ==> !SameTarget(PolicyRows(c, IDsOf(t, c))[i], t.policies[k])) ==>
                  k < |u.policies| && u.policies[k] == t.policies[k])
  {
    assert WellFormed(c);
    hide WellFormed, Custom, Applied, Projected, Reserved, SubjectRules, RuleList, PreviouslyApplied, ResolveAll, UpsertAll, PlaceFunctions, PlacedFunctions, SeedGrants,
         EnsurePolicies, ToSet, Retained, SameTarget, Roleless, RoleDefs, MenuDefs, APIDefs, FunctionDefs, RoleGrantRows, TenantGrantRows, MapSeq, PolicyRows;
    var p, ids := Published(t, c, walk), IDsOf(t, c);
    var seed := !PreviouslyApplied(t, c);
    PolicyRowCount(c, ids);
    AppliedParts(t, c, walk);
    BackfillRetains(t, c, walk);
    forall r { ProjectedMeans(p.rules, p.apis, r); }
    forall id | Custom(t.roles, RoleKey, RoleDefs(c), id) { CustomRowKept(t.roles, RoleKey, RoleDefs(c), id); }
    forall id | Custom(t.menus, MenuKey, MenuDefs(c), id) { CustomRowKept(t.menus, MenuKey, MenuDefs(c), id); }
    forall id | Custom(t.apis, RowAPIKey, APIDefs(c), id) { CustomRowKept(t.apis, RowAPIKey, APIDefs(c), id); }
    var s, ps := FunctionState(t.functions, map[], t.bindings), PlacedFunctions(c.menus, ids.menus);
    PassUpserts(s, ps, ids.apis);
    forall id | Custom(t.functions, FunctionKey, FunctionDefs(ps), id) { CustomRowKept(t.functions, FunctionKey, FunctionDefs(ps), id); }
    PassRetains(s, ps, ids.apis);
    SeedGrantsFacts(t.roleGrants, RoleGrantRows(c, ids), seed);
    SeedGrantsFacts(t.tenantGrants, TenantGrantRows(c, ids), seed);
    forall k | 0 <= k < |t.policies| && (forall i :: 0 <= i < |c.policies| ==> !SameTarget(PolicyRows(c, ids)[i], t.policies[k]))
      ensures k < |p.policies| && p.policies[k] == t.policies[k]
    {
      UngovernedKept(t.policies, PolicyRows(c, ids), seed, k);
    }
  }

  lemma PolicyRowCount(c: AuthorizationCatalog, ids: IDs)
    ensures |PolicyRows(c, ids)| == |c.policies|
  {
  }

  lemma BackfillRetains(t: Tables, c: AuthorizationCatalog, walk: seq<string>)
    requires Applied(t, c, walk).Ok?
    ensures Retained(Published(t, c, walk).userRoles, Applied(t, c, walk).value.0.userRoles)
  {
    hide Roleless, Assign, Published, Retained, Projected, WellFormed, RuleCount;
    var p := Published(t, c, walk);
    AssignRetains(p.userRoles, Ascending(Roleless(p.users, p.userRoles, c.tenantID)), At(IDsOf(t, c).roles, c.defaultRoleID));
    RetainedRefl(p.userRoles);
  }
}
