/** Seeding happens once: over any run of `Apply` and administrator edits, grants are written by the first
    application only, and exactly when that first application can be recognized later. */
module CatalogSeeding {
  import opened Text
  import opened Reconcile
  import opened Catalog
  import opened CatalogStore
  import opened CatalogFunctions
  import opened CatalogGrants
  import opened CatalogRules
  import opened CatalogTheorems
  import opened CatalogRuns
  import opened CatalogMeaning
  import opened CatalogEdits

  ghost predicate AnyIn(ids: seq<string>, keys: set<string>) {
    exists id :: id in ids && id in keys
  }

  predicate RolesOnly(c: AuthorizationCatalog) {
    c.menus == [] && c.apis == []
  }

  /** Some menu or API of the catalog, or some role if it has neither, sits in its table under its own
      catalog ID. */
  ghost predicate Marked(t: Tables, c: AuthorizationCatalog) {
    AnyIn(MenuIDs(c), t.menus.Keys) || AnyIn(APIIDs(c), t.apis.Keys) || (RolesOnly(c) && AnyIn(RoleIDs(c), t.roles.Keys))
  }

  /** One step of a run: an application (which may fail), or an edit by an administrator. */
  datatype Step = Applying(walk: seq<string>) | Editing

  /** An edit may change every table at will, except that it hard-deletes no role, menu or API. */
  ghost predicate Next(t: Tables, c: AuthorizationCatalog, step: Step, u: Tables) {
    match step
    case Applying(walk) =>
      var outcome := Applied(t, c, walk);
      u == if outcome.Ok? then outcome.value.0 else t
    case Editing => t.roles.Keys <= u.roles.Keys && t.menus.Keys <= u.menus.Keys && t.apis.Keys <= u.apis.Keys
  }

  ghost predicate Run(states: seq<Tables>, steps: seq<Step>, c: AuthorizationCatalog) {
    |states| == |steps| + 1 && forall i :: 0 <= i < |steps| ==> Next(states[i], c, steps[i], states[i + 1])
  }

  /** The new policy rows follow the old ones, and each rules a target that no row before it does. */
  ghost predicate OnlyMissingAdded(rows: seq<PolicyRow>, rows': seq<PolicyRow>) {
    && rows <= rows'
    && forall j, k :: 0 <= j < k < |rows'| && |rows| <= k ==> !SameTarget(rows'[k], rows'[j])
  }

  /** Grants as before, and only missing policies added. */
  ghost predicate Respects(t: Tables, u: Tables) {
    u.roleGrants == t.roleGrants && u.tenantGrants == t.tenantGrants && OnlyMissingAdded(t.policies, u.policies)
  }

  lemma {:induction false} MissingPoliciesAdded(rows: seq<PolicyRow>, ps: seq<PolicyRow>)
    ensures OnlyMissingAdded(rows, EnsurePolicies(rows, ps, false))
  {
    if ps != [] {
      var last := ps[|ps| - 1];
      var before := EnsurePolicies(rows, ps[..|ps| - 1], false);
      MissingPoliciesAdded(rows, ps[..|ps| - 1]);
      assert First(before, Governs(last)).None? ==> forall j :: 0 <= j < |before| ==> !Governs(last)(before[j]) && !SameTarget(last, before[j]);
    }
  }

  lemma ApplyRespects(t: Tables, c: AuthorizationCatalog, walk: seq<string>)
    requires PreviouslyApplied(t, c) && Applied(t, c, walk).Ok?
    ensures Respects(t, Applied(t, c, walk).value.0)
  {
    assert WellFormed(c);
    hide WellFormed, PreviouslyApplied, Projected, IDsOf, RuleList, ToSet, SeedGrants, EnsurePolicies,
         RoleGrantRows, TenantGrantRows, PolicyRows, OnlyMissingAdded, Resources;
    var ids := IDsOf(t, c);
    ResourcesKeepRules(t, c);
    AppliedParts(t, c, walk);
    SeedGrantsFacts(t.roleGrants, RoleGrantRows(c, ids), false);
    SeedGrantsFacts(t.tenantGrants, TenantGrantRows(c, ids), false);
    MissingPoliciesAdded(t.policies, PolicyRows(c, ids));
  }

  lemma StaysMarked(t: Tables, c: AuthorizationCatalog, step: Step, u: Tables)
    requires Marked(t, c) && Next(t, c, step, u)
    ensures Marked(u, c)
  {
    if step.Applying? && Applied(t, c, step.walk).Ok? {
      var walk := step.walk;
      hide WellFormed, PreviouslyApplied, Projected, IDsOf, RuleList, ToSet, SeedGrants, EnsurePolicies,
           RoleIDs, MenuIDs, APIIDs, UpsertAll, FunctionPass, RoleDefs, MenuDefs, APIDefs;
      AppliedParts(t, c, walk);
      UpsertAllGrows(t.roles, RoleKey, RoleDefs(c));
      UpsertAllGrows(t.menus, MenuKey, MenuDefs(c));
      UpsertAllGrows(t.apis, RowAPIKey, APIDefs(c));
    }
  }

  lemma MarkedIsApplied(t: Tables, c: AuthorizationCatalog)
    requires Marked(t, c)
    ensures PreviouslyApplied(t, c)
  {
  }

  /** After the first application that marked the catalog, no application
      in the run touches the grants or an existing policy: a deleted or narrowed grant stays so. */
  lemma {:induction false} SeededOnce(states: seq<Tables>, steps: seq<Step>, c: AuthorizationCatalog, k: nat, i: nat)
    requires Run(states, steps, c) && k <= i < |states| && Marked(states[k], c)
    ensures Marked(states[i], c)
    ensures i < |steps| && steps[i].Applying? ==> Respects(states[i], states[i + 1])
    decreases i
  {
    hide Marked, PreviouslyApplied, Applied, Respects;
    if k < i {
      SeededOnce(states, steps, c, k, i - 1);
      StaysMarked(states[i - 1], c, steps[i - 1], states[i]);
    }
    if i < |steps| && steps[i].Applying? {
      MarkedIsApplied(states[i], c);
      if Applied(states[i], c, steps[i].walk).Ok? {
        ApplyRespects(states[i], c, steps[i].walk);
      } else {
        RespectsItself(states[i]);
      }
    }
  }

  lemma RespectsItself(t: Tables)
    ensures Respects(t, t)
  {
  }

  // ---- when the first application leaves a mark --------------------------------------------------------------

  ghost predicate OwnAny<K, R>(t: map<string, R>, keyOf: R -> K, ds: seq<Definition<K, R>>) {
    exists i :: 0 <= i < |ds| && RowID(t, keyOf, ds, i) == ds[i].id
  }

  /** Some menu or API definition, or some role if there are neither, resolves to its own ID: it sits there
      already, or is created. */
  ghost predicate OwnID(t: Tables, c: AuthorizationCatalog) {
    || OwnAny(t.menus, MenuKey, MenuDefs(c))
    || OwnAny(t.apis, RowAPIKey, APIDefs(c))
    || (RolesOnly(c) && OwnAny(t.roles, RoleKey, RoleDefs(c)))
  }

  /** A definition's ID is a key of the reconciled table exactly when some was one before, or some
      definition resolves to itself. */
  lemma MarkLeft<K, R>(t: map<string, R>, keyOf: R -> K, ds: seq<Definition<K, R>>, u: map<string, R>, ids: seq<string>)
    requires Apart(keyOf, ds) && Reconciled(t, keyOf, ds, |ds|, u)
    requires |ids| == |ds| && forall i :: 0 <= i < |ds| ==> ds[i].id == ids[i]
    ensures AnyIn(ids, u.Keys) <==> AnyIn(ids, t.Keys) || OwnAny(t, keyOf, ds)
  {
    hide RowID;
    if OwnAny(t, keyOf, ds) {
      var i :| 0 <= i < |ds| && RowID(t, keyOf, ds, i) == ds[i].id;
      assert ds[i].id in Targets(t, keyOf, ds, |ds|) && ids[i] in ids;
    }
    if id :| id in ids && id in u.Keys {
      if id !in t {
        var i :| 0 <= i < |ds| && RowID(t, keyOf, ds, i) == id;
        RowFacts(t, keyOf, ds, i);
      }
    }
  }

  lemma {:induction false} SeededRows(rows: seq<Grant>, gs: seq<Grant>, seed: bool, g: Grant)
    requires g in SeedGrants(rows, gs, seed)
    ensures g in rows || g in gs
  {
    if gs != [] && g !in SeedGrants(rows, gs[..|gs| - 1], seed) {
      assert g == gs[|gs| - 1];
    } else if gs != [] {
      SeededRows(rows, gs[..|gs| - 1], seed, g);
    }
  }

  /** `MarkLeft` for one table. */
  lemma TableMarked<K, R>(t: map<string, R>, keyOf: R -> K, ds: seq<Definition<K, R>>, ids: seq<string>)
    requires Apart(keyOf, ds)
    requires |ids| == |ds| && forall i :: 0 <= i < |ds| ==> ds[i].id == ids[i]
    ensures AnyIn(ids, UpsertAll(t, keyOf, ds).Keys) <==> AnyIn(ids, t.Keys) || OwnAny(t, keyOf, ds)
  {
    hide *;
    UpsertAllReconciles(t, keyOf, ds);
    MarkLeft(t, keyOf, ds, UpsertAll(t, keyOf, ds), ids);
  }

  lemma MarkedByResources(t: Tables, c: AuthorizationCatalog)
    requires WellFormed(c) && DistinctNames(c)
    ensures Marked(Resources(t, c), c) <==> Marked(t, c) || OwnID(t, c)
  {
    RolesApart(c);
    MenusApart(c);
    APIsApart(c);
    DefinitionIDs(c);
    hide WellFormed, DistinctNames, Apart, FunctionPass, UpsertAll, AnyIn, OwnAny, RoleDefs, MenuDefs, APIDefs, RoleIDs, MenuIDs, APIIDs;
    TableMarked(t.roles, RoleKey, RoleDefs(c), RoleIDs(c));
    TableMarked(t.menus, MenuKey, MenuDefs(c), MenuIDs(c));
    TableMarked(t.apis, RowAPIKey, APIDefs(c), APIIDs(c));
  }

  lemma DefinitionIDs(c: AuthorizationCatalog)
    ensures |RoleIDs(c)| == |RoleDefs(c)| && forall i :: 0 <= i < |RoleDefs(c)| ==> RoleDefs(c)[i].id == RoleIDs(c)[i]
    ensures |MenuIDs(c)| == |MenuDefs(c)| && forall i :: 0 <= i < |MenuDefs(c)| ==> MenuDefs(c)[i].id == MenuIDs(c)[i]
    ensures |APIIDs(c)| == |APIDefs(c)| && forall i :: 0 <= i < |APIDefs(c)| ==> APIDefs(c)[i].id == APIIDs(c)[i]
  {
  }

  lemma IDsPointIn<K, R>(t: map<string, R>, keyOf: R -> K, ds: seq<Definition<K, R>>, u: map<string, R>,
                         ids: map<string, string>, id: string)
    requires Reconciled(t, keyOf, ds, |ds|, u) && Resolved(t, keyOf, ds, |ds|, ids) && id in ids
    ensures ids[id] in u
  {
    hide RowID;
    var i :| 0 <= i < |ds| && ds[i].id == id;
    assert RowID(t, keyOf, ds, i) in Targets(t, keyOf, ds, |ds|);
  }

  /** The menu row IDs of freshly written tenant grants are keys of the menu table. */
  lemma TenantRowsPointAtMenus(t: Tables, c: AuthorizationCatalog, g: Grant)
    requires WellFormed(c) && DistinctNames(c) && g in TenantGrantRows(c, IDsOf(t, c))
    ensures g.menuID in Resources(t, c).menus
  {
    MenusApart(c);
    LookupsHit(t, c);
    hide WellFormed, DistinctNames, Apart, FunctionPass, UpsertAll, Resolved, Reconciled, ResolveAll, Join;
    UpsertAllReconciles(t.menus, MenuKey, MenuDefs(c));
    var k :| 0 <= k < |c.tenantGrants| && TenantGrantRows(c, IDsOf(t, c))[k] == g;
    var h := c.tenantGrants[k];
    assert h in c.tenantGrants;
    IDsPointIn(t.menus, MenuKey, MenuDefs(c), Resources(t, c).menus, IDsOf(t, c).menus, h.menuID);
  }

  lemma AppliedOrMarked(t: Tables, c: AuthorizationCatalog, walk: seq<string>)
    requires WellFormed(c) && DistinctNames(c) && PreviouslyApplied(Published(t, c, walk), c)
    ensures PreviouslyApplied(t, c) || Marked(Resources(t, c), c)
  {
    var u := Published(t, c, walk);
    hide WellFormed, DistinctNames, IDsOf, RuleList, ToSet, SeedGrants, EnsurePolicies, Resources, MenuIDs, APIIDs, RoleIDs,
         TenantGrantRows;
    ResourcesKeepRules(t, c);
    if g :| g in u.tenantGrants && g.holder == c.tenantID && g.menuID in MenuIDs(c) {
      SeededRows(t.tenantGrants, TenantGrantRows(c, IDsOf(t, c)), !PreviouslyApplied(t, c), g);
      if g !in t.tenantGrants { TenantRowsPointAtMenus(t, c, g); }
    }
  }

  /** A catalog counts as applied after a run exactly when it did before or when one of its menus and APIs
      (or, with neither, of its roles) resolves to its own catalog ID; otherwise the next run seeds again. */
  lemma WhenAppliedIsRemembered(t: Tables, c: AuthorizationCatalog, walk: seq<string>)
    requires WellFormed(c) && DistinctNames(c)
    ensures PreviouslyApplied(Published(t, c, walk), c) <==> PreviouslyApplied(t, c) || OwnID(t, c)
  {
    var u := Published(t, c, walk);
    MarkedByResources(t, c);
    StaysApplied(t, c, walk);
    if PreviouslyApplied(u, c) { AppliedOrMarked(t, c, walk); }
    if Marked(t, c) { MarkedIsApplied(t, c); }
    assert Marked(u, c) == Marked(Resources(t, c), c) by {
      hide Resources, SeedGrants, EnsurePolicies, RuleList, ToSet, IDsOf, PreviouslyApplied, AnyIn;
    }
    if Marked(u, c) { MarkedIsApplied(u, c); }
    hide *;
  }

  /** What becomes of policy edits: kept when the catalog counts as applied, else reset to the last
      declaration of each target. */
  lemma PolicyEditsKeptOrReset(t: Tables, c: AuthorizationCatalog, walk: seq<string>)
    ensures PreviouslyApplied(t, c) ==> OnlyMissingAdded(t.policies, Published(t, c, walk).policies)
    ensures !PreviouslyApplied(t, c) ==> LastWins(Published(t, c, walk).policies, PolicyRows(c, IDsOf(t, c)))
  {
    hide *;
    PublishedPolicies(t, c, walk);
    MissingPoliciesAdded(t.policies, PolicyRows(c, IDsOf(t, c)));
    EnsurePoliciesFacts(t.policies, PolicyRows(c, IDsOf(t, c)), !PreviouslyApplied(t, c));
  }

  /** An application that puts something under its own ID leaves the mark. */
  lemma ApplicationMarks(t: Tables, c: AuthorizationCatalog, walk: seq<string>)
    requires WellFormed(c) && DistinctNames(c) && OwnID(t, c) && Applied(t, c, walk).Ok?
    ensures Marked(Applied(t, c, walk).value.0, c)
  {
    MarkedByResources(t, c);
    hide WellFormed, DistinctNames, OwnID, PreviouslyApplied, Projected, IDsOf, RuleList, ToSet, SeedGrants,
         EnsurePolicies, Resources, AnyIn;
    AppliedParts(t, c, walk);
  }

  /** Over any run: once an application has put a menu or API (or, with neither, a role) under its own ID, no
      later application changes the grant tables or an existing policy. */
  lemma GrantsAreSeededOnce(states: seq<Tables>, steps: seq<Step>, c: AuthorizationCatalog, k: nat, i: nat)
    requires Run(states, steps, c) && k < i < |steps| && steps[k].Applying? && steps[i].Applying?
    requires DistinctNames(c) && OwnID(states[k], c) && Applied(states[k], c, steps[k].walk).Ok?
    ensures Respects(states[i], states[i + 1])
  {
    assert Next(states[k], c, steps[k], states[k + 1]);
    hide Compatible, OwnID, Marked, PreviouslyApplied, Applied, Respects;
    ApplicationMarks(states[k], c, steps[k].walk);
    SeededOnce(states, steps, c, k + 1, i);
  }

  // ---- an edit that is lost: the catalog's only menu is found by name under another ID ------------------------

  const HOME := MenuColumns("", "/home", "home", "Home", "", "", 0, 0, false, false, false, false)
  const READER := Role("r", "Reader", "", "", "", false)
  const READ_ORDERS := ABACPolicy("t", "r", "order", "read", 1, "", 0)
  const LEGACY := EMPTY.(menus := map["old" := MenuRow("t", "", HOME, true, false)])
  const MOVED := AuthorizationCatalog("t", "", "", [READER], [Menu("m", HOME, [])], [], [], [], [READ_ORDERS])

  const READ_ORDERS_ROW := PolicyRow("t", "r", "order", "read", 1, "", true, 0)

  lemma MovedIsWellFormed()
    ensures WellFormed(MOVED)
    ensures MenuIDs(MOVED) == ["m"] && APIIDs(MOVED) == [] && RoleIDs(MOVED) == ["r"]
  {
    assert MenuIDs(MOVED) == ["m"] && APIIDs(MOVED) == [] && RoleIDs(MOVED) == ["r"];
    assert MOVED.menus[..0] == [] && Functions(MOVED.menus) == [];
    hide Functions;
    assert RolesWellFormed(MOVED) && APIsWellFormed(MOVED);
    assert MenusWellFormed(MOVED) && GrantsWellFormed(MOVED);
  }

  lemma MovedResolves()
    ensures |MenuDefs(MOVED)| == 1 && MenuDefs(MOVED)[0].id == "m" && RowID(LEGACY.menus, MenuKey, MenuDefs(MOVED), 0) == "old"
    ensures At(ResolveAll(LEGACY.roles, RoleKey, RoleDefs(MOVED)), "r") == "r"
  {
    assert Rest(LEGACY.menus, MenuDefs(MOVED), 0) == LEGACY.menus;
    assert Matches(LEGACY.menus, MenuKey, ("t", "", "home")) == {"old"};
    assert RoleDefs(MOVED)[..0] == [];
    assert ResolvedID(LEGACY.roles, RoleKey, RoleDefs(MOVED)[0]) == "r";
  }

  lemma MovedIsCompatible()
    ensures Compatible(LEGACY, MOVED) && !PreviouslyApplied(LEGACY, MOVED) && !OwnID(LEGACY, MOVED)
    ensures At(IDsOf(LEGACY, MOVED).roles, "r") == "r"
  {
    MovedIsWellFormed();
    MovedResolves();
    hide WellFormed, RowID, ResolveAll, At;
    assert |RoleDefs(MOVED)| == 1 && PlacedFunctions(MOVED.menus, ResolveAll(LEGACY.menus, MenuKey, MenuDefs(MOVED))) == [];
  }

  /** The administrator widens the policy's scope; the next run resets it. */
  lemma EditIsLost()
    ensures Applied(LEGACY, MOVED, []).Ok?
    ensures var once := Applied(LEGACY, MOVED, []).value.0;
            && once.policies == [READ_ORDERS_ROW]
            && var edited := once.(policies := [READ_ORDERS_ROW.(dataScope := 7)]);
               && Applied(edited, MOVED, []).Ok?
               && Applied(edited, MOVED, []).value.0.policies == [READ_ORDERS_ROW]
  {
    MovedIsWellFormed();
    MovedIsCompatible();
    WhenAppliedIsRemembered(LEGACY, MOVED, []);
    hide Compatible, WellFormed, IDsOf, PreviouslyApplied, OwnID, Published, Applied;
    AppliedPolicies(LEGACY, MOVED, []);
    OnePolicy(IDsOf(LEGACY, MOVED));
    var once := Applied(LEGACY, MOVED, []).value.0;
    var edited := once.(policies := [READ_ORDERS_ROW.(dataScope := 7)]);
    AppliedParts(LEGACY, MOVED, []);
    EditedAgain(LEGACY, MOVED, [], edited);
    AppliedPolicies(edited, MOVED, []);
  }

  lemma AppliedPolicies(t: Tables, c: AuthorizationCatalog, walk: seq<string>)
    requires WellFormed(c) && c.defaultRoleID == ""
    ensures Applied(t, c, walk).Ok?
    ensures Applied(t, c, walk).value.0.policies == EnsurePolicies(t.policies, PolicyRows(c, IDsOf(t, c)), !PreviouslyApplied(t, c))
  {
    hide WellFormed, Applied, Published, IDsOf, RuleCount, Projected, EnsurePolicies, PolicyRows, PreviouslyApplied, Roleless;
    NobodyLeft(t, c, walk);
    PublishedPolicies(t, c, walk);
  }

  /** Editing policies, on whatever user roles and rules, changes neither the mark nor any ID. */
  lemma EditedAgain(t: Tables, c: AuthorizationCatalog, walk: seq<string>, edited: Tables)
    requires Compatible(t, c)
    requires edited == Published(t, c, walk).(policies := edited.policies, userRoles := edited.userRoles, rules := edited.rules)
    ensures PreviouslyApplied(edited, c) == PreviouslyApplied(Published(t, c, walk), c) && IDsOf(edited, c) == IDsOf(t, c)
  {
    SamePublishedMark(Published(t, c, walk), edited, c);
    hide Published, PreviouslyApplied, Compatible, IDsOf, Resources, EveryRoleFound;
    PublishedParts(t, c, walk, Published(t, c, walk));
    ResourcesTwice(t, c, edited);
  }

  lemma SamePublishedMark(t: Tables, u: Tables, c: AuthorizationCatalog)
    requires u == t.(policies := u.policies, userRoles := u.userRoles, rules := u.rules)
    ensures PreviouslyApplied(u, c) == PreviouslyApplied(t, c)
  {
  }

  lemma PublishedPolicies(t: Tables, c: AuthorizationCatalog, walk: seq<string>)
    ensures Published(t, c, walk).policies == EnsurePolicies(t.policies, PolicyRows(c, IDsOf(t, c)), !PreviouslyApplied(t, c))
  {
    hide PreviouslyApplied, IDsOf, RuleList, ToSet, SeedGrants, EnsurePolicies, PolicyRows, Resources;
    ResourcesKeepRules(t, c);
  }

  /** The policy pass of that catalog, seeding over no row or over an edited one. */
  lemma OnePolicy(ids: IDs)
    requires At(ids.roles, "r") == "r"
    ensures EnsurePolicies([], PolicyRows(MOVED, ids), true) == [READ_ORDERS_ROW]
    ensures EnsurePolicies([READ_ORDERS_ROW.(dataScope := 7)], PolicyRows(MOVED, ids), true) == [READ_ORDERS_ROW]
  {
    var ps := PolicyRows(MOVED, ids);
    assert ps[..0] == [] && |ps| == 1;
  }
}
