/** The Casbin rules one `Apply` adds: exactly those a declared grant justifies. */
module CatalogRules {
  import opened Text
  import opened Catalog
  import opened CatalogStore
  import opened CatalogFunctions

  /** The live grant of the pair lists the function. */
  ghost predicate Allows(rows: seq<Grant>, holder: string, menuID: string, name: string) {
    var g := Live(rows, holder, menuID);
    g.Some? && name in CsvSet(g.value.funcs)
  }

  /** Function `f` of menu `m`, named by the declared grant `g`, is allowed to the role and to the
      catalog's tenant, and declares API `a`. */
  ghost predicate Reason(c: AuthorizationCatalog, ids: IDs, roleGrants: seq<Grant>, tenantGrants: seq<Grant>,
                         g: RoleGrant, m: Menu, f: Function, a: API)
  {
    && g in c.roleGrants && m in c.menus && f in m.functions && a in c.apis
    && m.id == g.menuID && f.name in g.functions && a.id in f.apiIDs
    && Allows(roleGrants, At(ids.roles, g.roleID), At(ids.menus, m.id), f.name)
    && Allows(tenantGrants, c.tenantID, At(ids.menus, m.id), f.name)
  }

  ghost predicate Justified(c: AuthorizationCatalog, ids: IDs, roleGrants: seq<Grant>, tenantGrants: seq<Grant>,
                            r: CasbinRule) {
    exists g, m, f, a :: Reason(c, ids, roleGrants, tenantGrants, g, m, f, a) && r == RuleFor(At(ids.roles, g.roleID), a)
  }

  /** ID resolution is injective on menus, APIs and functions; menu row IDs hold no NUL; `walk` lists
      every function. */
  ghost predicate Unambiguous(c: AuthorizationCatalog, ids: IDs, walk: seq<string>) {
    && InjectiveOn(c.menus, ids.menus)
    && (forall i, j :: 0 <= i < j < |c.apis| ==> At(ids.apis, c.apis[i].id) != At(ids.apis, c.apis[j].id))
    && (forall x, y :: x in ids.functions && y in ids.functions && ids.functions[x] == ids.functions[y] ==> x == y)
    && (forall m :: m in c.menus ==> '\0' !in At(ids.menus, m.id))
    && (forall f :: f in Functions(c.menus) ==> f.id in ids.functions && f.id in walk)
  }

  // ---- the lookup maps, inverted ---------------------------------------------------------------------------

  lemma {:induction false} ProjectionFound(apis: seq<API>, apiIDs: map<string, string>, k: nat)
    requires k < |apis|
    requires forall i, j :: 0 <= i < j < |apis| ==> At(apiIDs, apis[i].id) != At(apiIDs, apis[j].id)
    ensures ProjectionAt(Projections(apis, apiIDs), At(apiIDs, apis[k].id)) == apis[k]
  {
    if k < |apis| - 1 { ProjectionFound(apis[..|apis| - 1], apiIDs, k); }
  }

  lemma {:induction false} IndexFound(ps: seq<Placed>, functionIDs: map<string, string>, k: nat)
    requires k < |ps| && KeysApart(ps) && forall p :: p in ps ==> '\0' !in p.menuID
    ensures At(FunctionIndex(ps, functionIDs), ps[k].menuID + "\0" + ps[k].f.name) == At(functionIDs, ps[k].f.id)
  {
    var n := |ps| - 1;
    if k < n {
      IndexFound(ps[..n], functionIDs, k);
      if ps[k].menuID + "\0" + ps[k].f.name == ps[n].menuID + "\0" + ps[n].f.name {
        assert ps[k] in ps && ps[n] in ps;
        NulJoinInjective(ps[k].menuID, ps[n].menuID, ps[k].f.name, ps[n].f.name);
      }
    }
  }

  lemma {:induction false} DefinitionFound(ps: seq<Placed>, k: nat)
    requires k < |ps| && forall i, j :: 0 <= i < j < |ps| ==> ps[i].f.id != ps[j].f.id
    ensures ps[k].f.id in DefinitionMap(ps) && DefinitionMap(ps)[ps[k].f.id] == ps[k].f
  {
    if k < |ps| - 1 { DefinitionFound(ps[..|ps| - 1], k); }
  }

  /** Whatever order the runtime walks the ID map in, an injective map leads back to the one definition. */
  lemma ReverseLookup(definitions: map<string, Function>, ids: map<string, string>, walk: seq<string>, id: string)
    requires id in ids && id in walk && id in definitions
    requires forall x, y :: x in ids && y in ids && ids[x] == ids[y] ==> x == y
    ensures DefinitionByRow(definitions, ids, walk, ids[id]) == Some(definitions[id])
  {
    var i := First(walk, ResolvesTo(ids, ids[id]));
    assert ResolvesTo(ids, ids[id])(id);
  }

  lemma PlacedNulFree(menus: seq<Menu>, menuIDs: map<string, string>, p: Placed)
    requires forall m :: m in menus ==> '\0' !in At(menuIDs, m.id)
    requires p in PlacedFunctions(menus, menuIDs)
    ensures '\0' !in p.menuID
  {
    var n :| 0 <= n < |PlacedFunctions(menus, menuIDs)| && PlacedFunctions(menus, menuIDs)[n] == p;
    var j := PlacedFrom(menus, menuIDs, n);
    assert menus[j] in menus;
  }

  lemma PlacedIDsApart(menus: seq<Menu>, menuIDs: map<string, string>, i: nat, j: nat)
    requires Distinct(MapSeq(Functions(menus), FunctionID)) && i < j < |PlacedFunctions(menus, menuIDs)|
    ensures PlacedFunctions(menus, menuIDs)[i].f.id != PlacedFunctions(menus, menuIDs)[j].f.id
  {
    PlacedIDs(menus, menuIDs);
    assert MapSeq(Functions(menus), FunctionID)[i] != MapSeq(Functions(menus), FunctionID)[j];
  }

  /** The k-th placed function is found by its menu row and name. */
  lemma PlacedFound(menus: seq<Menu>, menuIDs: map<string, string>, functionIDs: map<string, string>,
                    walk: seq<string>, k: nat)
    requires InjectiveOn(menus, menuIDs) && forall m :: m in menus ==> '\0' !in At(menuIDs, m.id)
    requires forall m :: m in menus ==> Distinct(MapSeq(m.functions, FunctionName))
    requires Distinct(MapSeq(Functions(menus), FunctionID))
    requires forall x, y :: x in functionIDs && y in functionIDs && functionIDs[x] == functionIDs[y] ==> x == y
    requires k < |PlacedFunctions(menus, menuIDs)|
    requires PlacedFunctions(menus, menuIDs)[k].f.id in functionIDs && PlacedFunctions(menus, menuIDs)[k].f.id in walk
    ensures var ps := PlacedFunctions(menus, menuIDs);
            DefinitionByRow(DefinitionMap(ps), functionIDs, walk, At(FunctionIndex(ps, functionIDs), ps[k].menuID + "\0" + ps[k].f.name)) == Some(ps[k].f)
  {
    var ps := PlacedFunctions(menus, menuIDs);
    forall p | p in ps { PlacedNulFree(menus, menuIDs, p); }
    forall i, j | 0 <= i < j < |ps| ensures ps[i].f.id != ps[j].f.id { PlacedIDsApart(menus, menuIDs, i, j); }
    PlacedKeysApart(menus, menuIDs);
    hide PlacedFunctions, InjectiveOn, Distinct, DefinitionByRow;
    IndexFound(ps, functionIDs, k);
    DefinitionFound(ps, k);
    ReverseLookup(DefinitionMap(ps), functionIDs, walk, ps[k].f.id);
  }

  /** A declared function is found by its menu's row ID and its name. */
  lemma FunctionFound(c: AuthorizationCatalog, ids: IDs, walk: seq<string>, m: Menu, f: Function)
    requires MenusWellFormed(c) && Unambiguous(c, ids, walk) && m in c.menus && f in m.functions
    ensures var ps := PlacedFunctions(c.menus, ids.menus);
            DefinitionByRow(DefinitionMap(ps), ids.functions, walk, At(FunctionIndex(ps, ids.functions), At(ids.menus, m.id) + "\0" + f.name)) == Some(f)
  {
    hide PlacedFunctions, Functions, InjectiveOn, Distinct, DefinitionByRow, FunctionIndex, DefinitionMap,
         FunctionWellFormed, Parent, At;
    var i :| 0 <= i < |c.menus| && c.menus[i] == m;
    var k := PlacedTo(c.menus, ids.menus, i, f);
    PlacedIDs(c.menus, ids.menus);
    assert f in Functions(c.menus);
    assert forall n :: n in c.menus ==> MenuWellFormed(n, APIIDs(c));
    PlacedFound(c.menus, ids.menus, ids.functions, walk, k);
  }

  /** The rules of one allowed function name are those of the function declared under it. */
  lemma NameRules(c: AuthorizationCatalog, ids: IDs, walk: seq<string>, m: Menu, f: Function, roleID: string)
    requires MenusWellFormed(c) && Unambiguous(c, ids, walk) && m in c.menus && f in m.functions
    ensures RulesOfName(ContextOf(c, ids, walk), roleID, At(ids.menus, m.id), f.name) ==
            RulesOfAPIs(ContextOf(c, ids, walk), roleID, f.apiIDs)
  {
    hide Unambiguous, MenusWellFormed, PlacedFunctions, DefinitionByRow, FunctionIndex, DefinitionMap,
         Projections, RulesOfAPIs, At;
    FunctionFound(c, ids, walk, m, f);
  }

  lemma KnownAPIs(c: AuthorizationCatalog, m: Menu, f: Function)
    requires MenusWellFormed(c) && m in c.menus && f in m.functions
    ensures forall x :: x in f.apiIDs ==> x in APIIDs(c)
  {
    hide Distinct, Functions;
    assert MenuWellFormed(m, APIIDs(c)) && FunctionWellFormed(f, APIIDs(c));
  }

  /** What the API list of a function comes to under the projections of the catalog's APIs. */
  ghost predicate RulesOf(rules: seq<CasbinRule>, projections: map<string, API>, apiIDs: map<string, string>,
                          roleID: string, apis: seq<string>) {
    |rules| == |apis| && forall k :: 0 <= k < |apis| ==> rules[k] == RuleFor(roleID, ProjectionAt(projections, At(apiIDs, apis[k])))
  }

  lemma APIRuleSound(c: AuthorizationCatalog, apiIDs: map<string, string>, roleID: string, apis: seq<string>,
                     rules: seq<CasbinRule>, k: nat)
    requires forall i, j :: 0 <= i < j < |c.apis| ==> At(apiIDs, c.apis[i].id) != At(apiIDs, c.apis[j].id)
    requires k < |apis| && apis[k] in APIIDs(c) && RulesOf(rules, Projections(c.apis, apiIDs), apiIDs, roleID, apis)
    ensures exists a :: a in c.apis && a.id in apis && rules[k] == RuleFor(roleID, a)
  {
    var i :| 0 <= i < |c.apis| && APIIDs(c)[i] == apis[k];
    ProjectionFound(c.apis, apiIDs, i);
    assert c.apis[i] in c.apis && c.apis[i].id in apis;
  }

  lemma APIRuleComplete(c: AuthorizationCatalog, apiIDs: map<string, string>, roleID: string, apis: seq<string>,
                        rules: seq<CasbinRule>, a: API)
    requires forall i, j :: 0 <= i < j < |c.apis| ==> At(apiIDs, c.apis[i].id) != At(apiIDs, c.apis[j].id)
    requires a in c.apis && a.id in apis && RulesOf(rules, Projections(c.apis, apiIDs), apiIDs, roleID, apis)
    ensures RuleFor(roleID, a) in rules
  {
    var k :| 0 <= k < |apis| && apis[k] == a.id;
    var i :| 0 <= i < |c.apis| && c.apis[i] == a;
    ProjectionFound(c.apis, apiIDs, i);
    assert rules[k] == RuleFor(roleID, a);
  }

  /** A rule stems from a function that lists its API. */
  ghost predicate RuleOfFunction(c: AuthorizationCatalog, f: Function, roleID: string, r: CasbinRule) {
    exists a :: a in c.apis && a.id in f.apiIDs && r == RuleFor(roleID, a)
  }

  /** A rule comes from a function's API list exactly when it is the rule of an API the list names. */
  lemma APIRules(c: AuthorizationCatalog, ids: IDs, walk: seq<string>, roleID: string, f: Function, r: CasbinRule)
    requires forall i, j :: 0 <= i < j < |c.apis| ==> At(ids.apis, c.apis[i].id) != At(ids.apis, c.apis[j].id)
    requires forall x :: x in f.apiIDs ==> x in APIIDs(c)
    ensures r in RulesOfAPIs(ContextOf(c, ids, walk), roleID, f.apiIDs) <==> RuleOfFunction(c, f, roleID, r)
  {
    hide RulesOfAPIs, ContextOf, RulesOf, Projections, At, RuleFor, APIIDs;
    var rules := RulesOfAPIs(ContextOf(c, ids, walk), roleID, f.apiIDs);
    RulesUnfold(c, ids, walk, roleID, f.apiIDs);
    if r in rules {
      var k :| 0 <= k < |rules| && rules[k] == r;
      RulesOfLength(rules, Projections(c.apis, ids.apis), ids.apis, roleID, f.apiIDs);
      assert f.apiIDs[k] in f.apiIDs;
      APIRuleSound(c, ids.apis, roleID, f.apiIDs, rules, k);
    }
    if a :| a in c.apis && a.id in f.apiIDs && r == RuleFor(roleID, a) {
      APIRuleComplete(c, ids.apis, roleID, f.apiIDs, rules, a);
    }
  }

  lemma RulesUnfold(c: AuthorizationCatalog, ids: IDs, walk: seq<string>, roleID: string, apis: seq<string>)
    ensures RulesOf(RulesOfAPIs(ContextOf(c, ids, walk), roleID, apis), Projections(c.apis, ids.apis), ids.apis, roleID, apis)
  {
  }

  lemma RulesOfLength(rules: seq<CasbinRule>, projections: map<string, API>, apiIDs: map<string, string>,
                      roleID: string, apis: seq<string>)
    requires RulesOf(rules, projections, apiIDs, roleID, apis)
    ensures |rules| == |apis|
  {
  }

  // ---- membership in the nested lists ----------------------------------------------------------------------

  lemma {:induction false} InNames(x: RuleContext, roleID: string, menuID: string, allowed: set<string>,
                                   names: seq<string>, r: CasbinRule)
    ensures r in RulesOfNames(x, roleID, menuID, allowed, names) <==>
            exists n :: n in names && n in allowed && r in RulesOfName(x, roleID, menuID, n)
  {
    if names != [] {
      var front, last := names[..|names| - 1], names[|names| - 1];
      InNames(x, roleID, menuID, allowed, front, r);
      assert names == front + [last];
    }
  }

  lemma {:induction false} InGrants(x: RuleContext, roleGrants: seq<Grant>, tenantGrants: seq<Grant>, tenantID: string,
                                    ids: IDs, grants: seq<RoleGrant>, r: CasbinRule)
    ensures r in RulesOfGrants(x, roleGrants, tenantGrants, tenantID, ids, grants) <==>
            exists g :: g in grants &&
              r in RulesOfGrant(x, roleGrants, tenantGrants, tenantID, At(ids.roles, g.roleID), At(ids.menus, g.menuID), g.functions)
  {
    hide RulesOfGrant;
    if grants != [] {
      var front, last := grants[..|grants| - 1], grants[|grants| - 1];
      InGrants(x, roleGrants, tenantGrants, tenantID, ids, front, r);
      assert grants == front + [last];
    }
  }

  lemma {:induction false} DeclaredFunction(c: AuthorizationCatalog, g: RoleGrant, name: string) returns (m: Menu, f: Function)
    requires GrantsWellFormed(c) && g in c.roleGrants && name in g.functions
    ensures m in c.menus && m.id == g.menuID && f in m.functions && f.name == name
  {
    assert Declares(c, g.menuID, g.functions);
    m :| m in c.menus && m.id == g.menuID && forall n :: n in g.functions ==> n in MapSeq(m.functions, FunctionName);
    var k :| 0 <= k < |m.functions| && MapSeq(m.functions, FunctionName)[k] == name;
    f := m.functions[k];
  }

  lemma NameMeaning(c: AuthorizationCatalog, ids: IDs, walk: seq<string>, m: Menu, f: Function, roleID: string,
                    r: CasbinRule)
    requires WellFormed(c) && Unambiguous(c, ids, walk) && m in c.menus && f in m.functions
    ensures r in RulesOfName(ContextOf(c, ids, walk), roleID, At(ids.menus, m.id), f.name) <==> RuleOfFunction(c, f, roleID, r)
  {
    hide RolesWellFormed, APIsWellFormed, MenusWellFormed, GrantsWellFormed, InjectiveOn, Functions,
         ContextOf, RulesOfName, RulesOfAPIs, RuleFor, APIIDs, RuleOfFunction, At;
    NameRules(c, ids, walk, m, f, roleID);
    KnownAPIs(c, m, f);
    assert forall i, j :: 0 <= i < j < |c.apis| ==> At(ids.apis, c.apis[i].id) != At(ids.apis, c.apis[j].id);
    hide *;
    APIRules(c, ids, walk, roleID, f, r);
  }

  lemma IntoGrant(x: RuleContext, roleGrants: seq<Grant>, tenantGrants: seq<Grant>, tenantID: string,
                  roleID: string, menuID: string, names: seq<string>, n: string, r: CasbinRule)
    requires Allows(roleGrants, roleID, menuID, n) && Allows(tenantGrants, tenantID, menuID, n)
    requires n in names && r in RulesOfName(x, roleID, menuID, n)
    ensures r in RulesOfGrant(x, roleGrants, tenantGrants, tenantID, roleID, menuID, names)
  {
    hide RulesOfName, Live, CsvSet, RulesOfNames;
    var allowed := CsvSet(Live(roleGrants, roleID, menuID).value.funcs) * CsvSet(Live(tenantGrants, tenantID, menuID).value.funcs);
    InNames(x, roleID, menuID, allowed, names, r);
  }

  lemma OutOfGrant(x: RuleContext, roleGrants: seq<Grant>, tenantGrants: seq<Grant>, tenantID: string,
                   roleID: string, menuID: string, names: seq<string>, r: CasbinRule) returns (n: string)
    requires r in RulesOfGrant(x, roleGrants, tenantGrants, tenantID, roleID, menuID, names)
    ensures Allows(roleGrants, roleID, menuID, n) && Allows(tenantGrants, tenantID, menuID, n)
    ensures n in names && r in RulesOfName(x, roleID, menuID, n)
  {
    hide RulesOfName, Live, CsvSet, RulesOfNames;
    var allowed := CsvSet(Live(roleGrants, roleID, menuID).value.funcs) * CsvSet(Live(tenantGrants, tenantID, menuID).value.funcs);
    InNames(x, roleID, menuID, allowed, names, r);
    n :| n in names && n in allowed && r in RulesOfName(x, roleID, menuID, n);
  }

  lemma GrantSound(c: AuthorizationCatalog, ids: IDs, walk: seq<string>, roleGrants: seq<Grant>, tenantGrants: seq<Grant>,
                   g: RoleGrant, r: CasbinRule)
    requires WellFormed(c) && Unambiguous(c, ids, walk) && g in c.roleGrants
    requires r in RulesOfGrant(ContextOf(c, ids, walk), roleGrants, tenantGrants, c.tenantID, At(ids.roles, g.roleID), At(ids.menus, g.menuID), g.functions)
    ensures Justified(c, ids, roleGrants, tenantGrants, r)
  {
    assert GrantsWellFormed(c);
    hide WellFormed, GrantsWellFormed, Unambiguous, ContextOf, RulesOfGrant, RulesOfName, Allows, RuleFor, At;
    var n := OutOfGrant(ContextOf(c, ids, walk), roleGrants, tenantGrants, c.tenantID, At(ids.roles, g.roleID), At(ids.menus, g.menuID), g.functions, r);
    var m, f := DeclaredFunction(c, g, n);
    NameMeaning(c, ids, walk, m, f, At(ids.roles, g.roleID), r);
    var a :| a in c.apis && a.id in f.apiIDs && r == RuleFor(At(ids.roles, g.roleID), a);
    assert Reason(c, ids, roleGrants, tenantGrants, g, m, f, a);
  }

  lemma GrantComplete(c: AuthorizationCatalog, ids: IDs, walk: seq<string>, roleGrants: seq<Grant>,
                      tenantGrants: seq<Grant>,
                      g: RoleGrant, m: Menu, f: Function, a: API)
    requires WellFormed(c) && Unambiguous(c, ids, walk) && Reason(c, ids, roleGrants, tenantGrants, g, m, f, a)
    ensures RuleFor(At(ids.roles, g.roleID), a) in
            RulesOfGrant(ContextOf(c, ids, walk), roleGrants, tenantGrants, c.tenantID, At(ids.roles, g.roleID), At(ids.menus, g.menuID), g.functions)
  {
    hide WellFormed, Unambiguous, ContextOf, RulesOfGrant, RulesOfName, Allows, RuleFor, At;
    var r, roleID := RuleFor(At(ids.roles, g.roleID), a), At(ids.roles, g.roleID);
    assert RuleOfFunction(c, f, roleID, r);
    NameMeaning(c, ids, walk, m, f, roleID, r);
    IntoGrant(ContextOf(c, ids, walk), roleGrants, tenantGrants, c.tenantID, roleID, At(ids.menus, g.menuID), g.functions, f.name, r);
  }

  /** One rule pass yields exactly the justified rules, whatever order the runtime walks its maps in. */
  lemma RulesExact(c: AuthorizationCatalog, ids: IDs, walk: seq<string>, roleGrants: seq<Grant>,
                   tenantGrants: seq<Grant>, r: CasbinRule)
    requires WellFormed(c) && Unambiguous(c, ids, walk)
    ensures r in ToSet(RuleList(c, ids, walk, roleGrants, tenantGrants)) <==> Justified(c, ids, roleGrants, tenantGrants, r)
  {
    var x := ContextOf(c, ids, walk);
    assert RuleList(c, ids, walk, roleGrants, tenantGrants) == RulesOfGrants(x, roleGrants, tenantGrants, c.tenantID, ids, c.roleGrants);
    hide WellFormed, Unambiguous, ContextOf, RuleList, RulesOfGrants, RulesOfGrant, ToSet, At, RuleFor, Allows;
    ToSetMembers(RuleList(c, ids, walk, roleGrants, tenantGrants), r);
    InGrants(x, roleGrants, tenantGrants, c.tenantID, ids, c.roleGrants, r);
    if r in RuleList(c, ids, walk, roleGrants, tenantGrants) {
      var g :| g in c.roleGrants &&
        r in RulesOfGrant(x, roleGrants, tenantGrants, c.tenantID, At(ids.roles, g.roleID), At(ids.menus, g.menuID), g.functions);
      GrantSound(c, ids, walk, roleGrants, tenantGrants, g, r);
    }
    if Justified(c, ids, roleGrants, tenantGrants, r) {
      var g, m, f, a :| Reason(c, ids, roleGrants, tenantGrants, g, m, f, a) && r == RuleFor(At(ids.roles, g.roleID), a);
      GrantComplete(c, ids, walk, roleGrants, tenantGrants, g, m, f, a);
    }
  }
}
