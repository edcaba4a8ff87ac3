/** What one run leaves to the next, whatever the store held: a second run resolves every ID as the first did
    exactly when the first merged no two definitions, and it never merges any itself. */
module CatalogSettling {
  import opened Text
  import opened Reconcile
  import opened Catalog
  import opened CatalogStore
  import opened CatalogFunctions
  import opened CatalogTheorems

  lemma UpsertedTables(t: Tables, c: AuthorizationCatalog)
    ensures var r := Resources(t, c);
            && r.roles == UpsertAll(t.roles, RoleKey, RoleDefs(c))
            && r.menus == UpsertAll(t.menus, MenuKey, MenuDefs(c))
            && r.apis == UpsertAll(t.apis, RowAPIKey, APIDefs(c))
    ensures var ids := IDsOf(t, c);
            && ids.roles == ResolveAll(t.roles, RoleKey, RoleDefs(c))
            && ids.menus == ResolveAll(t.menus, MenuKey, MenuDefs(c))
            && ids.apis == ResolveAll(t.apis, RowAPIKey, APIDefs(c))
  {
    hide FunctionPass, UpsertAll, ResolveAll;
  }

  // ---- functions under menus that may have moved ----------------------------------------------------------------

  /** When no menu has now a row ID that a later one had before, no function has now a key that a later one had. */
  lemma {:induction false} PlacedInOrder(menus: seq<Menu>, now: map<string, string>, before: map<string, string>, i: nat, l: nat)
    requires i < l < |PlacedFunctions(menus, now)| == |PlacedFunctions(menus, before)|
    requires forall a, b :: 0 <= a < b < |menus| ==> At(now, menus[a].id) != At(before, menus[b].id)
    requires forall m :: m in menus ==> Distinct(MapSeq(m.functions, FunctionName))
    ensures var f, g := PlacedFunctions(menus, now)[i], PlacedFunctions(menus, before)[l]; f.menuID != g.menuID || f.f.name != g.f.name
    decreases |menus|
  {
    var front, last := menus[..|menus| - 1], menus[|menus| - 1];
    PlacedCount(front, now, before);
    assert last in menus && forall m :: m in front ==> m in menus;
    var n := |PlacedFunctions(front, now)|;
    hide PlacedIn, At;
    if l < n {
      PlacedInOrder(front, now, before, i, l);
    } else if i < n {
      var a := PlacedFrom(front, now, i);
      assert front[a] == menus[a];
      LastPlaced(menus, before, l);
    } else {
      LastPlaced(menus, now, i);
      LastPlaced(menus, before, l);
      assert MapSeq(last.functions, FunctionName)[i - n] != MapSeq(last.functions, FunctionName)[l - n];
    }
  }

  lemma LastPlaced(menus: seq<Menu>, menuIDs: map<string, string>, k: nat)
    requires menus != [] && |PlacedFunctions(menus[..|menus| - 1], menuIDs)| <= k < |PlacedFunctions(menus, menuIDs)|
    ensures var last, n := menus[|menus| - 1], |PlacedFunctions(menus[..|menus| - 1], menuIDs)|;
            k - n < |last.functions| && PlacedFunctions(menus, menuIDs)[k] == Placed(At(menuIDs, last.id), last.functions[k - n])
  {
  }

  lemma PlacedCount(menus: seq<Menu>, ids: map<string, string>, ids': map<string, string>)
    ensures |PlacedFunctions(menus, ids)| == |PlacedFunctions(menus, ids')|
    ensures forall k :: 0 <= k < |PlacedFunctions(menus, ids)| ==> PlacedFunctions(menus, ids)[k].f == PlacedFunctions(menus, ids')[k].f
  {
    PlacedIDs(menus, ids);
    PlacedIDs(menus, ids');
  }

  lemma PlacedOwnIDs(c: AuthorizationCatalog, menuIDs: map<string, string>)
    requires MenusWellFormed(c)
    ensures OwnIDs(FunctionKey, FunctionDefs(PlacedFunctions(c.menus, menuIDs)))
  {
    var ds := FunctionDefs(PlacedFunctions(c.menus, menuIDs));
    PlacedIDs(c.menus, menuIDs);
    forall i, j | 0 <= i < j < |ds| ensures ds[i].id != ds[j].id {
      assert MapSeq(Functions(c.menus), FunctionID)[i] != MapSeq(Functions(c.menus), FunctionID)[j];
    }
  }

  /** The row a menu gets in the second run is none that a later menu got in the first. */
  lemma MenusInOrder(t: Tables, c: AuthorizationCatalog, u: Tables)
    requires WellFormed(c) && DistinctNames(c) && u.menus == UpsertAll(t.menus, MenuKey, MenuDefs(c))
    ensures forall a, b :: 0 <= a < b < |c.menus| ==>
              At(ResolveAll(u.menus, MenuKey, MenuDefs(c)), c.menus[a].id) != At(ResolveAll(t.menus, MenuKey, MenuDefs(c)), c.menus[b].id)
  {
    MenusApart(c);
    var ds := MenuDefs(c);
    assert |ds| == |c.menus| && forall i :: 0 <= i < |ds| ==> ds[i].id == c.menus[i].id;
    hide WellFormed, DistinctNames, Apart, UpsertAll, ResolveAll, RowID, MenuDefs;
    hide At;
    forall a, b | 0 <= a < b < |c.menus|
      ensures At(ResolveAll(u.menus, MenuKey, ds), c.menus[a].id) != At(ResolveAll(t.menus, MenuKey, ds), c.menus[b].id)
    {
      LaterRowsApart(t.menus, MenuKey, ds, a, b);
      ResolvedThroughMap(u.menus, MenuKey, ds, a);
      ResolvedThroughMap(t.menus, MenuKey, ds, b);
    }
  }

  lemma KeysInOrder(c: AuthorizationCatalog, now: map<string, string>, before: map<string, string>)
    requires MenusWellFormed(c)
    requires forall a, b :: 0 <= a < b < |c.menus| ==> At(now, c.menus[a].id) != At(before, c.menus[b].id)
    ensures var ds, ds' := FunctionDefs(PlacedFunctions(c.menus, before)), FunctionDefs(PlacedFunctions(c.menus, now));
            && |ds| == |ds'| && (forall i :: 0 <= i < |ds| ==> ds[i].id == ds'[i].id)
            && forall i, l :: 0 <= i < l < |ds| ==> ds'[i].key != ds[l].key
  {
    PlacedCount(c.menus, now, before);
    var ds, ds' := FunctionDefs(PlacedFunctions(c.menus, before)), FunctionDefs(PlacedFunctions(c.menus, now));
    assert forall m :: m in c.menus ==> Distinct(MapSeq(m.functions, FunctionName)) by { hide Functions, Distinct, MapSeq, Parent; }
    forall i, l | 0 <= i < l < |ds| ensures ds'[i].key != ds[l].key {
      PlacedInOrder(c.menus, now, before, i, l);
    }
  }

  lemma FunctionsUnmergedAfter(t: Tables, c: AuthorizationCatalog, u: Tables)
    requires WellFormed(c) && DistinctNames(c) && u.menus == UpsertAll(t.menus, MenuKey, MenuDefs(c))
    requires u.functions == UpsertAll(t.functions, FunctionKey, FunctionDefsOf(t, c)) && Unmerged(u.menus, MenuKey, MenuDefs(c))
    ensures Unmerged(u.functions, FunctionKey, FunctionDefsOf(u, c))
  {
    MenusInOrder(t, c, u);
    PlacedApart(u, c);
    var now, before := ResolveAll(u.menus, MenuKey, MenuDefs(c)), ResolveAll(t.menus, MenuKey, MenuDefs(c));
    PlacedOwnIDs(c, before);
    KeysInOrder(c, now, before);
    hide WellFormed, DistinctNames, Apart, Unmerged, OwnIDs, UpsertAll, ResolveAll, PlacedFunctions, FunctionDefs, MenuDefs;
    UnmergedAcross(t.functions, FunctionKey, FunctionDefsOf(t, c), FunctionDefsOf(u, c));
  }

  // ---- all four tables --------------------------------------------------------------------------------------------

  /** Whatever the store held, after reconciling the catalog is compatible with it. */
  lemma CompatibleAfter(t: Tables, c: AuthorizationCatalog, u: Tables)
    requires WellFormed(c) && DistinctNames(c) && SameResources(u, Resources(t, c))
    ensures Compatible(u, c)
  {
    RolesApart(c); MenusApart(c); APIsApart(c);
    hide WellFormed, DistinctNames, Apart, Unmerged, Settled, UpsertAll, ResolveAll, Resources, RoleDefs, MenuDefs, APIDefs, FunctionDefsOf;
    UpsertedTables(t, c);
    UpsertTwice(t.roles, RoleKey, RoleDefs(c));
    UpsertTwice(t.menus, MenuKey, MenuDefs(c));
    UpsertTwice(t.apis, RowAPIKey, APIDefs(c));
    PassIDs(t, c);
    FunctionsUnmergedAfter(t, c, u);
  }

  /** Reconciling again resolves every ID as before exactly when the catalog was compatible with the store. */
  lemma StableExactly(t: Tables, c: AuthorizationCatalog, u: Tables)
    requires WellFormed(c) && DistinctNames(c) && SameResources(u, Resources(t, c))
    ensures IDsOf(u, c) == IDsOf(t, c) <==> Compatible(t, c)
  {
    if Compatible(t, c) {
      ResourcesTwice(t, c, u);
    } else if IDsOf(u, c) == IDsOf(t, c) {
      RolesApart(c); MenusApart(c); APIsApart(c);
      UpsertedTables(t, c);
      UpsertedTables(u, c);
      PassIDs(t, c);
      PassIDs(u, c);
      hide WellFormed, DistinctNames, Apart, Unmerged, Settled, UpsertAll, ResolveAll, Resources, RoleDefs, MenuDefs, APIDefs, IDsOf;
      UpsertTwice(t.roles, RoleKey, RoleDefs(c));
      UpsertTwice(t.menus, MenuKey, MenuDefs(c));
      UpsertTwice(t.apis, RowAPIKey, APIDefs(c));
      PlacedApart(t, c);
      UpsertTwice(t.functions, FunctionKey, FunctionDefsOf(t, c));
    }
  }
}
