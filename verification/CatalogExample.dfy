/** A small catalog run through the theorems: their hypotheses can be met, and what they say of it is right. */
module CatalogExample {
  import opened Text
  import opened Reconcile
  import opened Catalog
  import opened CatalogStore
  import opened CatalogFunctions
  import opened CatalogTheorems
  import opened CatalogRules
  import opened CatalogRuns
  import opened CatalogMeaning

  const READ := Function("f", "read", "Read", false, ["a"])
  const ORDERS := Menu("m", MenuColumns("", "", "orders", "Orders", "", "", 0, 0, false, false, false, false), [READ])

  function ListOrders(checkAuth: bool): API {
    API("a", "/orders", "GET", "", "", checkAuth, true)
  }

  function Clerk(roleID: string): Role {
    Role(roleID, "Clerk", "", "", "", false)
  }

  /** A clerk may list orders; the role's ID and whether listing needs authorization are left open. */
  function Shop(roleID: string, checkAuth: bool): AuthorizationCatalog {
    AuthorizationCatalog("t", "", "", [Clerk(roleID)], [ORDERS], [ListOrders(checkAuth)],
                         [RoleGrant(roleID, "m", ["read"], true)], [TenantGrant("t", "m", ["read"])], [])
  }

  /** One letter or digit, as the examples need no more. */
  predicate PlainID(id: string) {
    |id| == 1 && !IsSpace(id[0])
  }

  lemma ShopFunctions(roleID: string, checkAuth: bool)
    ensures Functions(Shop(roleID, checkAuth).menus) == [READ]
    ensures forall menuIDs: map<string, string> :: PlacedFunctions(Shop(roleID, checkAuth).menus, menuIDs) == [Placed(At(menuIDs, "m"), READ)]
  {
    assert Shop(roleID, checkAuth).menus[..0] == [];
    forall menuIDs: map<string, string> ensures PlacedFunctions(Shop(roleID, checkAuth).menus, menuIDs) == [Placed(At(menuIDs, "m"), READ)] {
      assert PlacedFunctions([], menuIDs) == [];
    }
  }

  lemma ShopIsWellFormed(roleID: string, checkAuth: bool)
    requires PlainID(roleID)
    ensures WellFormed(Shop(roleID, checkAuth))
  {
    ShopFunctions(roleID, checkAuth);
    assert MapSeq(ORDERS.functions, FunctionName) == ["read"];
    assert MapSeq(Functions(Shop(roleID, checkAuth).menus), FunctionID) == ["f"];
    assert RoleIDs(Shop(roleID, checkAuth)) == [roleID] && MenuIDs(Shop(roleID, checkAuth)) == ["m"] && APIIDs(Shop(roleID, checkAuth)) == ["a"];
    hide Functions;
    assert RolesWellFormed(Shop(roleID, checkAuth)) && APIsWellFormed(Shop(roleID, checkAuth));
    assert MenuWellFormed(ORDERS, ["a"]) && MenusWellFormed(Shop(roleID, checkAuth));
    assert ORDERS in Shop(roleID, checkAuth).menus && Declares(Shop(roleID, checkAuth), "m", ["read"]);
  }

  lemma Normal(s: string)
    requires Trimmed(s)
    ensures Trim(s) == s
  {
    TrimIsTrimmed(s);
  }

  lemma OneName(v: string)
    requires v != "" && Trimmed(v)
    ensures NormalizedSet([v]) == [v]
  {
    hide Less, Trimmed, CleanSet, NormalizedSet;
    CleanListNormalizes([v]);
  }

  lemma RolesAreNormal(roleID: string, checkAuth: bool)
    requires PlainID(roleID)
    ensures MapSeq(Shop(roleID, checkAuth).roles, NormalRole) == Shop(roleID, checkAuth).roles
  {
    Normal(""); Normal(roleID); Normal("Clerk");
    hide Trim;
    assert NormalRole(Clerk(roleID)) == Clerk(roleID);
  }

  lemma MenusAreNormal(roleID: string, checkAuth: bool)
    ensures MapSeq(Shop(roleID, checkAuth).menus, NormalMenu) == Shop(roleID, checkAuth).menus
  {
    Normal(""); Normal("f"); Normal("read"); Normal("Read"); Normal("m"); Normal("orders"); Normal("Orders");
    OneName("a");
    hide Trim, NormalizedSet, Trimmed;
    assert NormalFunction(READ) == READ && MapSeq([READ], NormalFunction) == [READ];
    assert NormalMenu(ORDERS) == ORDERS;
  }

  lemma APIsAreNormal(roleID: string, checkAuth: bool)
    ensures MapSeq(Shop(roleID, checkAuth).apis, NormalAPI) == Shop(roleID, checkAuth).apis
  {
    Normal(""); Normal("a"); Normal("/orders"); Normal("GET");
    hide Trim;
    assert Upper("GET") == "GET";
    assert NormalAPI(ListOrders(checkAuth)) == ListOrders(checkAuth);
  }

  lemma MapOne<A>(x: A, f: A -> A)
    requires f(x) == x
    ensures MapSeq([x], f) == [x]
  {
    assert MapSeq([x], f)[0] == x;
  }

  lemma GrantsAreNormal(roleID: string, checkAuth: bool)
    requires PlainID(roleID)
    ensures MapSeq(Shop(roleID, checkAuth).roleGrants, NormalRoleGrant) == Shop(roleID, checkAuth).roleGrants
    ensures MapSeq(Shop(roleID, checkAuth).tenantGrants, TenantGrantNormalizer("t")) == Shop(roleID, checkAuth).tenantGrants
  {
    Normal("t"); Normal(roleID); Normal("m");
    OneName("read");
    var g, h := RoleGrant(roleID, "m", ["read"], true), TenantGrant("t", "m", ["read"]);
    assert Shop(roleID, checkAuth).roleGrants == [g] && Shop(roleID, checkAuth).tenantGrants == [h];
    assert NormalRoleGrant(g) == RoleGrant(Trim(roleID), Trim("m"), NormalizedSet(["read"]), true);
    assert TenantGrantNormalizer("t")(h) == TenantGrant(OwnTenant("t", "t"), Trim("m"), NormalizedSet(["read"]));
    assert OwnTenant("t", "t") == "t";
    hide *;
    MapOne(g, NormalRoleGrant);
    MapOne(h, TenantGrantNormalizer("t"));
  }

  lemma ShopIsNormal(roleID: string, checkAuth: bool)
    requires PlainID(roleID)
    ensures Normalized(Shop(roleID, checkAuth)) == Shop(roleID, checkAuth)
  {
    Normal(""); Normal("t");
    RolesAreNormal(roleID, checkAuth);
    MenusAreNormal(roleID, checkAuth);
    APIsAreNormal(roleID, checkAuth);
    GrantsAreNormal(roleID, checkAuth);
    hide Trim, NormalRole, NormalMenu, NormalAPI, NormalRoleGrant, TenantGrantNormalizer, PolicyNormalizer;
    assert MapSeq(Shop(roleID, checkAuth).policies, PolicyNormalizer("t")) == [];
  }

  lemma ShopIsCompatible(roleID: string, checkAuth: bool)
    requires PlainID(roleID)
    ensures Compatible(EMPTY, Shop(roleID, checkAuth)) && Covers(IDsOf(EMPTY, Shop(roleID, checkAuth)), ["f"])
  {
    ShopIsWellFormed(roleID, checkAuth);
    ShopFunctions(roleID, checkAuth);
    PassIDs(EMPTY, Shop(roleID, checkAuth));
    hide WellFormed, Functions, PlacedFunctions, FunctionPass;
    var ds := FunctionDefs(PlacedFunctions(Shop(roleID, checkAuth).menus, ResolveAll(EMPTY.menus, MenuKey, MenuDefs(Shop(roleID, checkAuth)))));
    assert |ds| == 1 && ds[0].id == "f" && ds[..0] == [];
    assert ResolveAll(EMPTY.functions, FunctionKey, ds).Keys == {"f"};
  }

  function OrdersRule(subject: string, checkAuth: bool): CasbinRule {
    CasbinRule("p", subject, "/orders", "GET", if checkAuth then "true" else "false", "", "")
  }

  function Those(r: CasbinRule, withR: bool, s: CasbinRule, withS: bool): set<CasbinRule> {
    (if withR then {r} else {}) + (if withS then {s} else {})
  }

  lemma ShopMeans(roleID: string, checkAuth: bool, r: CasbinRule)
    ensures Means(Shop(roleID, checkAuth), r) <==> r == OrdersRule(roleID, checkAuth)
  {
    var c, a := Shop(roleID, checkAuth), ListOrders(checkAuth);
    assert Grounds(c, c.roleGrants[0], c.tenantGrants[0], ORDERS, READ, a);
    assert RuleFor(roleID, a) == OrdersRule(roleID, checkAuth);
    hide OrdersRule;
    if Means(c, r) {
      var g, h, m, f, a' :| Grounds(c, g, h, m, f, a') && r == RuleFor(g.roleID, a');
    }
  }

  lemma ShopOpens(roleID: string, checkAuth: bool, r: CasbinRule)
    requires Reserved(r)
    ensures Opens(Shop(roleID, checkAuth), r) <==> r == OrdersRule("0", false) && !checkAuth
  {
    var c, a := Shop(roleID, checkAuth), ListOrders(checkAuth);
    assert a in c.apis && forall b :: b in c.apis ==> b == a;
    hide Shop;
  }

  lemma ShopIsSimple(roleID: string, checkAuth: bool)
    ensures var c := Shop(roleID, checkAuth);
            OneGrantEach(c) && CommaFreeGrants(c) && forall m :: m in c.menus ==> '\0' !in m.id
  {
  }

  /** Applied to an empty store, the catalog publishes one rule for the clerk, unless the role has a reserved
      ID, and one for whoever logged in when listing needs no authorization. */
  lemma ShopRules(roleID: string, checkAuth: bool)
    requires PlainID(roleID)
    ensures Applied(EMPTY, Shop(roleID, checkAuth), ["f"]).Ok?
    ensures Applied(EMPTY, Shop(roleID, checkAuth), ["f"]).value.0.rules ==
            Those(OrdersRule(roleID, checkAuth), roleID != "0", OrdersRule("0", false), !checkAuth)
  {
    ShopIsApplied(roleID, checkAuth);
    hide *;
    forall r { RuleIsMeant(roleID, checkAuth, r); }
  }

  lemma RuleIsMeant(roleID: string, checkAuth: bool, r: CasbinRule)
    requires PlainID(roleID)
    ensures (if Reserved(r) then Opens(Shop(roleID, checkAuth), r) else Means(Shop(roleID, checkAuth), r)) <==>
            r in Those(OrdersRule(roleID, checkAuth), roleID != "0", OrdersRule("0", false), !checkAuth)
  {
    hide Opens, Means, Shop;
    ShopMeans(roleID, checkAuth, r);
    if Reserved(r) { ShopOpens(roleID, checkAuth, r); }
  }

  lemma ShopIsApplied(roleID: string, checkAuth: bool)
    requires PlainID(roleID)
    ensures var c := Shop(roleID, checkAuth);
            && Applied(EMPTY, c, ["f"]).Ok?
            && forall r :: r in Applied(EMPTY, c, ["f"]).value.0.rules <==> if Reserved(r) then Opens(c, r) else Means(c, r)
  {
    assert Shop(roleID, checkAuth).defaultRoleID == "" && Blank(EMPTY);
    hide *;
    ShopIsCompatible(roleID, checkAuth);
    ShopIsNormal(roleID, checkAuth);
    ShopIsWellFormed(roleID, checkAuth);
    ShopIsSimple(roleID, checkAuth);
    NobodyLeft(EMPTY, Shop(roleID, checkAuth), ["f"]);
    PublishedRulesAreTheMeaning(EMPTY, Shop(roleID, checkAuth), ["f"]);
  }

  lemma ShopPublishesOneRule()
    ensures Applied(EMPTY, Shop("r", true), ["f"]).Ok?
    ensures Applied(EMPTY, Shop("r", true), ["f"]).value.0.rules == {CasbinRule("p", "r", "/orders", "GET", "true", "", "")}
  {
    hide Applied, Shop;
    ShopRules("r", true);
  }

  /** An API that needs login but no authorization is also opened to whoever logged in. */
  lemma OpenShopAddsLoginRule()
    ensures Applied(EMPTY, Shop("r", false), ["f"]).Ok?
    ensures Applied(EMPTY, Shop("r", false), ["f"]).value.0.rules ==
            {CasbinRule("p", "r", "/orders", "GET", "false", "", ""), CasbinRule("p", "0", "/orders", "GET", "false", "", "")}
  {
    hide Applied, Shop;
    ShopRules("r", false);
  }

  /** A role with the ID "0" passes validation, and the same run that publishes its rule deletes it. */
  lemma ReservedRoleLosesItsRule()
    ensures Means(Shop("0", true), CasbinRule("p", "0", "/orders", "GET", "true", "", ""))
    ensures Applied(EMPTY, Shop("0", true), ["f"]).Ok?
    ensures Applied(EMPTY, Shop("0", true), ["f"]).value.0.rules == {}
  {
    hide Applied, Shop, Means;
    ShopMeans("0", true, OrdersRule("0", true));
    ShopRules("0", true);
  }
}
