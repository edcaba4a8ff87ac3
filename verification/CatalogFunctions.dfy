/** The function pass of `Apply`: its two tables taken apart, and what running it twice does. */
module CatalogFunctions {
  import opened Text
  import opened Reconcile
  import opened Catalog
  import opened CatalogStore

  /** The function table and the ID map of the pass are those of the plain upsert fold. */
  lemma {:induction false} PassUpserts(s: FunctionState, ps: seq<Placed>, apiIDs: map<string, string>)
    requires s.ids == map[]
    ensures PlaceFunctions(s, ps, apiIDs).rows == UpsertAll(s.rows, FunctionKey, FunctionDefs(ps))
    ensures PlaceFunctions(s, ps, apiIDs).ids == ResolveAll(s.rows, FunctionKey, FunctionDefs(ps))
  {
    if ps != [] {
      PassUpserts(s, ps[..|ps| - 1], apiIDs);
      assert FunctionDefs(ps)[..|ps| - 1] == FunctionDefs(ps[..|ps| - 1]);
    }
  }

  // ---- placed functions of a well-formed catalog have distinct IDs and keys ------------------------------

  /** Different menus of the catalog have different row IDs. */
  ghost predicate InjectiveOn(menus: seq<Menu>, menuIDs: map<string, string>) {
    forall i, j :: 0 <= i < j < |menus| ==> At(menuIDs, menus[i].id) != At(menuIDs, menus[j].id)
  }

  ghost predicate KeysApart(ps: seq<Placed>) {
    forall i, j :: 0 <= i < j < |ps| ==> ps[i].menuID != ps[j].menuID || ps[i].f.name != ps[j].f.name
  }

  lemma {:induction false} PlacedFrom(menus: seq<Menu>, menuIDs: map<string, string>, k: nat) returns (i: nat)
    requires k < |PlacedFunctions(menus, menuIDs)|
    ensures i < |menus| && PlacedFunctions(menus, menuIDs)[k].f in menus[i].functions
    ensures PlacedFunctions(menus, menuIDs)[k].menuID == At(menuIDs, menus[i].id)
  {
    var front := PlacedFunctions(menus[..|menus| - 1], menuIDs);
    if k < |front| {
      i := PlacedFrom(menus[..|menus| - 1], menuIDs, k);
    } else {
      i := |menus| - 1;
    }
  }

  lemma {:induction false} PlacedTo(menus: seq<Menu>, menuIDs: map<string, string>, i: nat, f: Function) returns (k: nat)
    requires i < |menus| && f in menus[i].functions
    ensures k < |PlacedFunctions(menus, menuIDs)|
    ensures PlacedFunctions(menus, menuIDs)[k] == Placed(At(menuIDs, menus[i].id), f)
  {
    var front := PlacedFunctions(menus[..|menus| - 1], menuIDs);
    if i < |menus| - 1 {
      k := PlacedTo(menus[..|menus| - 1], menuIDs, i, f);
    } else {
      var j :| 0 <= j < |menus[i].functions| && menus[i].functions[j] == f;
      k := |front| + j;
    }
  }

  lemma {:induction false} PlacedKeysApart(menus: seq<Menu>, menuIDs: map<string, string>)
    requires InjectiveOn(menus, menuIDs)
    requires forall m :: m in menus ==> Distinct(MapSeq(m.functions, FunctionName))
    ensures KeysApart(PlacedFunctions(menus, menuIDs))
  {
    if menus != [] {
      var front, last := menus[..|menus| - 1], menus[|menus| - 1];
      assert last in menus && forall m :: m in front ==> m in menus;
      PlacedKeysApart(front, menuIDs);
      var ps, qs := PlacedFunctions(front, menuIDs), PlacedIn(At(menuIDs, last.id), last.functions);
      forall i | 0 <= i < |ps| ensures ps[i].menuID != At(menuIDs, last.id) {
        var k := PlacedFrom(front, menuIDs, i);
        assert menus[k].id == front[k].id;
      }
      assert forall i, j :: 0 <= i < j < |qs| ==> qs[i].f.name != qs[j].f.name by {
        assert forall i :: 0 <= i < |qs| ==> qs[i].f.name == MapSeq(last.functions, FunctionName)[i];
      }
    }
  }

  lemma {:induction false} PlacedIDs(menus: seq<Menu>, menuIDs: map<string, string>)
    ensures |PlacedFunctions(menus, menuIDs)| == |Functions(menus)|
    ensures forall k :: 0 <= k < |Functions(menus)| ==> PlacedFunctions(menus, menuIDs)[k].f == Functions(menus)[k]
  {
    if menus != [] {
      PlacedIDs(menus[..|menus| - 1], menuIDs);
    }
  }

  lemma FunctionsApart(c: AuthorizationCatalog, menuIDs: map<string, string>)
    requires MenusWellFormed(c) && InjectiveOn(c.menus, menuIDs)
    ensures Apart(FunctionKey, FunctionDefs(PlacedFunctions(c.menus, menuIDs)))
  {
    var ps := PlacedFunctions(c.menus, menuIDs);
    var ds := FunctionDefs(ps);
    PlacedKeysApart(c.menus, menuIDs);
    PlacedIDs(c.menus, menuIDs);
    forall i, j | 0 <= i < j < |ds| ensures ds[i].id != ds[j].id && ds[i].key != ds[j].key {
      assert MapSeq(Functions(c.menus), FunctionID)[i] != MapSeq(Functions(c.menus), FunctionID)[j];
    }
  }

  // ---- bindings ----------------------------------------------------------------------------------------

  /** The first row of the pair exists and is live. */
  ghost predicate Bound(rows: seq<Link>, left: string, right: string) {
    var i := First(rows, Joins(left, right));
    i.Some? && !rows[i.value].deleted
  }

  lemma FirstAt<T>(rows: seq<T>, p: T -> bool, k: nat)
    requires k < |rows| && p(rows[k]) && forall j :: 0 <= j < k ==> !p(rows[j])
    ensures First(rows, p) == Some(k)
  {
  }

  /** Ensuring a pair binds it, unbinds no other, and does nothing to a bound one. */
  lemma EnsureLinkBinds(rows: seq<Link>, left: string, right: string, left': string, right': string)
    ensures Bound(EnsureLink(rows, left, right), left, right)
    ensures Bound(rows, left', right') ==> Bound(EnsureLink(rows, left, right), left', right')
    ensures Bound(rows, left, right) ==> EnsureLink(rows, left, right) == rows
  {
    var p, q := Joins(left, right), Joins(left', right');
    var rows' := EnsureLink(rows, left, right);
    var i := First(rows, p);
    FirstAt(rows', p, if i.None? then |rows| else i.value);
    var k := First(rows, q);
    if k.Some? {
      assert forall j :: 0 <= j < |rows| ==> q(rows'[j]) == q(rows[j]);
      FirstAt(rows', q, k.value);
    }
    if i.Some? && !rows[i.value].deleted {
      assert rows[i.value := rows[i.value].(deleted := false)] == rows;
    }
  }

  ghost predicate AllBound(rows: seq<Link>, left: string, apis: seq<string>, apiIDs: map<string, string>) {
    forall k :: 0 <= k < |apis| ==> Bound(rows, left, At(apiIDs, apis[k]))
  }

  lemma {:induction false} BindIdle(rows: seq<Link>, left: string, apis: seq<string>, apiIDs: map<string, string>)
    requires AllBound(rows, left, apis, apiIDs)
    ensures Bind(rows, left, apis, apiIDs) == rows
  {
    if apis != [] {
      BindIdle(rows, left, apis[..|apis| - 1], apiIDs);
      var last := At(apiIDs, apis[|apis| - 1]);
      assert Bound(rows, left, last);
      EnsureLinkBinds(rows, left, last, left, last);
    }
  }

  lemma {:induction false} BindBinds(rows: seq<Link>, left: string, apis: seq<string>, apiIDs: map<string, string>)
    ensures AllBound(Bind(rows, left, apis, apiIDs), left, apis, apiIDs)
  {
    hide Bound, EnsureLink;
    if apis != [] {
      var front, last := apis[..|apis| - 1], At(apiIDs, apis[|apis| - 1]);
      BindBinds(rows, left, front, apiIDs);
      var before := Bind(rows, left, front, apiIDs);
      forall k | 0 <= k < |apis| ensures Bound(EnsureLink(before, left, last), left, At(apiIDs, apis[k])) {
        EnsureLinkBinds(before, left, last, left, if k < |front| then At(apiIDs, front[k]) else last);
      }
    }
  }

  lemma {:induction false} BindKeeps(rows: seq<Link>, left: string, apis: seq<string>, apiIDs: map<string, string>,
                                     left': string, right': string)
    requires Bound(rows, left', right')
    ensures Bound(Bind(rows, left, apis, apiIDs), left', right')
  {
    if apis != [] {
      BindKeeps(rows, left, apis[..|apis| - 1], apiIDs, left', right');
      EnsureLinkBinds(Bind(rows, left, apis[..|apis| - 1], apiIDs), left, At(apiIDs, apis[|apis| - 1]), left', right');
    }
  }

  /** Every API of every one of the first n placed functions is bound to that function's row. */
  ghost predicate PassBound(rows: seq<Link>, t: map<string, FunctionRow>, ps: seq<Placed>, n: nat,
                            apiIDs: map<string, string>)
    requires n <= |ps|
  {
    forall k :: 0 <= k < n ==> AllBound(rows, RowID(t, FunctionKey, FunctionDefs(ps), k), ps[k].f.apiIDs, apiIDs)
  }

  lemma PassPrefix(s: FunctionState, ps: seq<Placed>, n: nat, apiIDs: map<string, string>)
    requires n < |ps| && s.ids == map[] && Apart(FunctionKey, FunctionDefs(ps))
    ensures PlaceFunctions(s, ps[..n + 1], apiIDs) == PlaceFunction(PlaceFunctions(s, ps[..n], apiIDs), ps[n], apiIDs)
    ensures ResolvedID(PlaceFunctions(s, ps[..n], apiIDs).rows, FunctionKey, FunctionDefinition(ps[n])) ==
            RowID(s.rows, FunctionKey, FunctionDefs(ps), n)
  {
    assert ps[..n + 1][..n] == ps[..n] && ps[..n + 1][n] == ps[n];
    PassUpserts(s, ps[..n], apiIDs);
    UpsertPrefix(s.rows, FunctionKey, FunctionDefs(ps), n);
    assert FunctionDefs(ps)[..n] == FunctionDefs(ps[..n]);
    assert FunctionDefs(ps)[n] == FunctionDefinition(ps[n]);
  }

  /** Binding one function's APIs keeps what the pass has bound. */
  lemma BindKeepsPass(rows: seq<Link>, t: map<string, FunctionRow>, ps: seq<Placed>, n: nat, left: string, apis: seq<string>,
                      apiIDs: map<string, string>)
    requires n <= |ps| && PassBound(rows, t, ps, n, apiIDs)
    ensures PassBound(Bind(rows, left, apis, apiIDs), t, ps, n, apiIDs)
  {
    hide Bound, RowID, Bind, At;
    forall k, a | 0 <= k < n && 0 <= a < |ps[k].f.apiIDs|
      ensures Bound(Bind(rows, left, apis, apiIDs), RowID(t, FunctionKey, FunctionDefs(ps), k), At(apiIDs, ps[k].f.apiIDs[a]))
    {
      var l := RowID(t, FunctionKey, FunctionDefs(ps), k);
      assert AllBound(rows, l, ps[k].f.apiIDs, apiIDs);
      BindKeeps(rows, left, apis, apiIDs, l, At(apiIDs, ps[k].f.apiIDs[a]));
    }
  }

  lemma {:induction false} PassBinds(s: FunctionState, ps: seq<Placed>, n: nat, apiIDs: map<string, string>)
    requires n <= |ps| && s.ids == map[] && Apart(FunctionKey, FunctionDefs(ps))
    ensures PassBound(PlaceFunctions(s, ps[..n], apiIDs).bindings, s.rows, ps, n, apiIDs)
    decreases n
  {
    hide Apart, AllBound, RowID, Bind, PlaceFunctions, FunctionDefs, Upsert, PassBound;
    DefsCount(ps);
    if n == 0 {
      EmptyPassBound(PlaceFunctions(s, ps[..0], apiIDs).bindings, s.rows, ps, apiIDs);
    } else {
      PassBinds(s, ps, n - 1, apiIDs);
      PassPrefix(s, ps, n - 1, apiIDs);
      var before := PlaceFunctions(s, ps[..n - 1], apiIDs);
      var id := RowID(s.rows, FunctionKey, FunctionDefs(ps), n - 1);
      BindBinds(before.bindings, id, ps[n - 1].f.apiIDs, apiIDs);
      BindKeepsPass(before.bindings, s.rows, ps, n - 1, id, ps[n - 1].f.apiIDs, apiIDs);
      PassBoundGrows(Bind(before.bindings, id, ps[n - 1].f.apiIDs, apiIDs), s.rows, ps, n, apiIDs);
    }
  }

  /** Where every binding is there already the pass adds none. */
  lemma {:induction false} PassIdle(s: FunctionState, ps: seq<Placed>, n: nat, apiIDs: map<string, string>)
    requires n <= |ps| && s.ids == map[] && Apart(FunctionKey, FunctionDefs(ps)) && PassBound(s.bindings, s.rows, ps, n, apiIDs)
    ensures PlaceFunctions(s, ps[..n], apiIDs).bindings == s.bindings
    decreases n
  {
    hide Apart, AllBound, RowID, Bind, PlaceFunctions, FunctionDefs, Upsert, PassBound, ResolvedID;
    DefsCount(ps);
    if n == 0 {
      NothingPlaced(s, ps, apiIDs);
    } else {
      PassBoundGrows(s.bindings, s.rows, ps, n, apiIDs);
      PassIdle(s, ps, n - 1, apiIDs);
      PassPrefix(s, ps, n - 1, apiIDs);
      BindIdle(s.bindings, RowID(s.rows, FunctionKey, FunctionDefs(ps), n - 1), ps[n - 1].f.apiIDs, apiIDs);
    }
  }

  lemma NothingPlaced(s: FunctionState, ps: seq<Placed>, apiIDs: map<string, string>)
    ensures PlaceFunctions(s, ps[..0], apiIDs) == s
  {
  }

  lemma EmptyPassBound(rows: seq<Link>, t: map<string, FunctionRow>, ps: seq<Placed>, apiIDs: map<string, string>)
    ensures PassBound(rows, t, ps, 0, apiIDs)
  {
  }

  lemma PassBoundGrows(rows: seq<Link>, t: map<string, FunctionRow>, ps: seq<Placed>, n: nat, apiIDs: map<string, string>)
    requires 0 < n <= |ps|
    ensures PassBound(rows, t, ps, n, apiIDs) <==>
            && PassBound(rows, t, ps, n - 1, apiIDs)
            && AllBound(rows, RowID(t, FunctionKey, FunctionDefs(ps), n - 1), ps[n - 1].f.apiIDs, apiIDs)
  {
    hide AllBound, RowID;
  }

  /** Running the pass on a state it left behind keeps the bindings. */
  lemma BindingsSettled(s: FunctionState, once: FunctionState, ps: seq<Placed>, apiIDs: map<string, string>)
    requires s.ids == map[] && Apart(FunctionKey, FunctionDefs(ps))
    requires once == PlaceFunctions(s, ps, apiIDs)
    requires forall k :: 0 <= k < |ps| ==>
               RowID(once.rows, FunctionKey, FunctionDefs(ps), k) == RowID(s.rows, FunctionKey, FunctionDefs(ps), k)
    ensures PlaceFunctions(once.(ids := map[]), ps, apiIDs).bindings == once.bindings
  {
    hide AllBound, RowID, Apart;
    assert ps[..|ps|] == ps;
    PassBinds(s, ps, |ps|, apiIDs);
    assert PassBound(once.bindings, once.rows, ps, |ps|, apiIDs);
    PassIdle(once.(ids := map[]), ps, |ps|, apiIDs);
  }

  lemma DefsCount(ps: seq<Placed>)
    ensures |FunctionDefs(ps)| == |ps|
  {
  }

  /** The pass run on its own result changes neither table and resolves every function as before. */
  lemma PassTwice(s: FunctionState, ps: seq<Placed>, apiIDs: map<string, string>)
    requires s.ids == map[] && Separate(s.rows, FunctionKey, FunctionDefs(ps))
    ensures var once := PlaceFunctions(s, ps, apiIDs);
            PlaceFunctions(once.(ids := map[]), ps, apiIDs) == once
    ensures Separate(PlaceFunctions(s, ps, apiIDs).rows, FunctionKey, FunctionDefs(ps))
  {
    DefsCount(ps);
    hide PlaceFunctions, FunctionDefs, Apart, Unmerged, Settled, Reconciled, Resolved, RowID, UpsertAll, ResolveAll;
    var ds := FunctionDefs(ps);
    var once := PlaceFunctions(s, ps, apiIDs);
    FunctionsSettle(s.rows, ps);
    PassUpserts(s, ps, apiIDs);
    UpsertTwice(s.rows, FunctionKey, ds);
    UpsertAllReconciles(s.rows, FunctionKey, ds);
    SameRowExactly(s.rows, FunctionKey, ds, once.rows);
    PassUpserts(once.(ids := map[]), ps, apiIDs);
    BindingsSettled(s, once, ps, apiIDs);
  }

  lemma FunctionsSettle(t: map<string, FunctionRow>, ps: seq<Placed>)
    requires Unmerged(t, FunctionKey, FunctionDefs(ps))
    ensures Settled(t, FunctionKey, FunctionDefs(ps))
  {
    hide Found, Untaken;
  }
}
