/** `Apply` over whole stores and whole runs: idempotence, the meaning of the rules it publishes, and the
    administrator edits it must not undo. */
module CatalogRuns {
  import opened Text
  import opened Reconcile
  import opened Catalog
  import opened CatalogStore
  import opened CatalogFunctions
  import opened CatalogGrants
  import opened CatalogRules
  import opened CatalogTheorems
  import opened CatalogSettling

  // ---- idempotence -------------------------------------------------------------------------------------------

  /** Published tables, with some users assigned the default role and the reserved subjects' rules rebuilt. */
  ghost predicate Finishes(p: Tables, c: AuthorizationCatalog, u: Tables) {
    && u == p.(userRoles := u.userRoles, rules := Projected(p.rules, p.apis))
    && (c.defaultRoleID != "" ==> Roleless(u.users, u.userRoles, c.tenantID) == {})
  }

  lemma AppliedParts(t: Tables, c: AuthorizationCatalog, walk: seq<string>)
    requires Applied(t, c, walk).Ok?
    ensures WellFormed(c)
    ensures Finishes(Published(t, c, walk), c, Applied(t, c, walk).value.0)
    ensures Applied(t, c, walk).value.1.casbinRuleCount == RuleCount(t, c, walk)
  {
    hide WellFormed, Roleless, Assign, Published, RuleCount, IDsOf, Projected;
    var p := Published(t, c, walk);
    BackfillCompletes(p.users, p.userRoles, c.tenantID, At(IDsOf(t, c).roles, c.defaultRoleID));
  }

  lemma NobodyLeft(t: Tables, c: AuthorizationCatalog, walk: seq<string>)
    requires WellFormed(c)
    requires var p := Published(t, c, walk); c.defaultRoleID != "" ==> Roleless(p.users, p.userRoles, c.tenantID) == {}
    ensures Applied(t, c, walk) == Ok((Reprojected(Published(t, c, walk)), Summary(RuleCount(t, c, walk), 0)))
  {
    hide WellFormed, Roleless, Published, RuleCount, IDsOf, Projected;
    assert Ascending({}) == [];
  }

  /** Rules produced again after a rebuild leave the rebuilt table as it was. */
  lemma ProjectedAgain(rules: set<CasbinRule>, apis: map<string, APIRow>, produced: set<CasbinRule>)
    requires produced <= rules
    ensures Projected(Projected(rules, apis) + produced, apis) == Projected(rules, apis)
  {
    forall r ensures r in Projected(Projected(rules, apis) + produced, apis) <==> r in Projected(rules, apis) {
      ProjectedMeans(rules, apis, r);
      ProjectedMeans(Projected(rules, apis) + produced, apis, r);
    }
  }

  /** Applying a catalog to its own result changes nothing but roles the first run had to create: on those
      it replaces the column defaults that creation stored. It returns the same rule count and adds no
      user role. The order in which the runtime walks its maps may differ between the runs. */
  lemma ApplyTwice(t: Tables, c: AuthorizationCatalog, walk: seq<string>, walk': seq<string>)
    requires Compatible(t, c) && Covers(IDsOf(t, c), walk) && Covers(IDsOf(t, c), walk')
    requires Applied(t, c, walk).Ok?
    ensures var (once, summary) := Applied(t, c, walk).value;
            var again := Applied(once, c, walk');
            && again.Ok?
            && again.value.1 == summary.(defaultRoleUsersAdded := 0)
            && again.value.0.(roles := once.roles) == once
            && again.value.0.roles.Keys == once.roles.Keys
            && (again.value.0 == once <==> EveryRoleFound(t, c))
    ensures var once := Applied(t, c, walk).value.0;
            Compatible(once, c) && IDsOf(once, c) == IDsOf(t, c) && EveryRoleFound(once, c)
  {
    hide Compatible, WellFormed, Covers, IDsOf, EveryRoleFound, Published, RuleList, Roleless, Applied, RuleCount, ToSet, Projected;
    var once := Applied(t, c, walk).value.0;
    var p, produced := Published(t, c, walk), ToSet(RuleList(c, IDsOf(t, c), walk, once.roleGrants, once.tenantGrants));
    AppliedParts(t, c, walk);
    PublishTwice(t, c, walk, walk', once);
    PublishedParts(t, c, walk, once);
    ProjectedAgain(p.rules, p.apis, produced);
    NobodyLeft(once, c, walk');
  }

  /** What a run leaves in the reconciled tables, whatever the store held. */
  lemma SameAsResources(t: Tables, c: AuthorizationCatalog, walk: seq<string>)
    requires Applied(t, c, walk).Ok?
    ensures SameResources(Applied(t, c, walk).value.0, Resources(t, c))
  {
    hide Applied, Resources, IDsOf, PreviouslyApplied, Granted, RuleList, ToSet, Projected, RuleCount, Roleless;
    AppliedParts(t, c, walk);
    PublishedParts(t, c, walk, Published(t, c, walk));
  }

  /** A second run succeeds where a first one did, whatever the store held. */
  lemma RunsAgain(t: Tables, c: AuthorizationCatalog, walk: seq<string>, walk': seq<string>)
    requires Applied(t, c, walk).Ok?
    ensures Applied(Applied(t, c, walk).value.0, c, walk').Ok?
  {
    var once := Applied(t, c, walk).value.0;
    AppliedParts(t, c, walk);
    hide Applied, WellFormed, Published, Roleless, Projected, RuleCount;
    PublishedUsers(t, c, walk);
    PublishedUsers(once, c, walk');
    NobodyLeft(once, c, walk');
  }

  lemma PublishedUsers(t: Tables, c: AuthorizationCatalog, walk: seq<string>)
    ensures Published(t, c, walk).users == t.users && Published(t, c, walk).userRoles == t.userRoles
  {
    hide FunctionPass, UpsertAll, RuleList, SeedGrants, EnsurePolicies, ToSet, PreviouslyApplied, IDsOf;
  }

  /** Whatever the store held, one run makes the catalog compatible with it; and the next run resolves every ID
      as this one did exactly when it was compatible before. */
  lemma SecondRunResolves(t: Tables, c: AuthorizationCatalog, walk: seq<string>)
    requires DistinctNames(c) && Applied(t, c, walk).Ok?
    ensures var once := Applied(t, c, walk).value.0;
            Compatible(once, c) && (IDsOf(once, c) == IDsOf(t, c) <==> Compatible(t, c))
  {
    AppliedParts(t, c, walk);
    hide *;
    SameAsResources(t, c, walk);
    CompatibleAfter(t, c, Applied(t, c, walk).value.0);
    StableExactly(t, c, Applied(t, c, walk).value.0);
  }

  /** Whatever the store held, `Apply` settles: every run from the second on leaves only roles to the next that
      it created itself, and the fourth run changes nothing, nor does the third if the second created no role. */
  lemma ApplySettles(t: Tables, c: AuthorizationCatalog, w1: seq<string>, w2: seq<string>, w3: seq<string>, w4: seq<string>)
    requires DistinctNames(c) && Applied(t, c, w1).Ok?
    requires var once := Applied(t, c, w1).value.0; Covers(IDsOf(once, c), w2) && Covers(IDsOf(once, c), w3) && Covers(IDsOf(once, c), w4)
    ensures var once := Applied(t, c, w1).value.0;
            && Applied(once, c, w2).Ok?
            && var twice := Applied(once, c, w2).value.0;
               && Applied(twice, c, w3).Ok?
               && var thrice := Applied(twice, c, w3).value.0;
                  && (thrice == twice <==> EveryRoleFound(once, c))
                  && thrice.(roles := twice.roles) == twice
                  && Applied(thrice, c, w4).Ok? && Applied(thrice, c, w4).value.0 == thrice
    ensures Compatible(t, c) ==>
              var once := Applied(t, c, w1).value.0; var twice := Applied(once, c, w2).value.0;
              Applied(twice, c, w3).value.0 == twice
  {
    var once := Applied(t, c, w1).value.0;
    hide *;
    SecondRunResolves(t, c, w1);
    RunsAgain(t, c, w1, w2);
    var twice := Applied(once, c, w2).value.0;
    ApplyTwice(once, c, w2, w3);
    ApplyTwice(twice, c, w3, w4);
    if Compatible(t, c) { FoundAfter(t, c, w1); }
  }

  lemma FoundAfter(t: Tables, c: AuthorizationCatalog, walk: seq<string>)
    requires Compatible(t, c) && Applied(t, c, walk).Ok?
    ensures EveryRoleFound(Applied(t, c, walk).value.0, c)
  {
    hide *;
    SameAsResources(t, c, walk);
    ResourcesTwice(t, c, Applied(t, c, walk).value.0);
  }

  const EMPTY := Tables(map[], map[], map[], map[], [], [], [], [], {}, map[], [])

  /** One role on an empty store: the second run does change it, so `Apply` is not idempotent as such. */
  lemma FreshRoleIsHealedLater()
    ensures var c := AuthorizationCatalog("t", "", "", [Role("r", "Reader", "", "", "", false)], [], [], [], [], []);
            && Applied(EMPTY, c, []).Ok?
            && var once := Applied(EMPTY, c, []).value.0;
               Applied(once, c, []).Ok? && Applied(once, c, []).value.0 != once
  {
    var role := Role("r", "Reader", "", "", "", false);
    var c := AuthorizationCatalog("t", "", "", [role], [], [], [], [], []);
    OneRoleWellFormed(c, role);
    assert Functions(c.menus) == [] && PlacedFunctions(c.menus, map[]) == [];
    assert IDsOf(EMPTY, c).functions == map[];
    assert Compatible(EMPTY, c) && Covers(IDsOf(EMPTY, c), []);
    assert !EveryRoleFound(EMPTY, c) by {
      assert RoleDefs(c)[0] == RoleDefinition(c, role) && Found(EMPTY.roles, RoleKey, RoleDefs(c), 0).None?;
    }
    hide Compatible, Covers, IDsOf, EveryRoleFound, Published;
    ApplyTwice(EMPTY, c, [], []);
  }

  lemma OneRoleWellFormed(c: AuthorizationCatalog, role: Role)
    requires c == AuthorizationCatalog("t", "", "", [role], [], [], [], [], []) && role == Role("r", "Reader", "", "", "", false)
    ensures WellFormed(c) && Distinct(MapSeq(c.roles, RoleName)) && Distinct(MapSeq(c.menus, MenuName))
  {
    assert Functions(c.menus) == [];
  }

  lemma TwoDefinitions<K, R>(t: map<string, R>, keyOf: R -> K, d: Definition<K, R>, e: Definition<K, R>)
    ensures UpsertAll(t, keyOf, [d, e]) == Upsert(Upsert(t, keyOf, d), keyOf, e)
    ensures ResolveAll(t, keyOf, [d, e]) == map[d.id := ResolvedID(t, keyOf, d)][e.id := ResolvedID(Upsert(t, keyOf, d), keyOf, e)]
  {
    assert [d, e][..1] == [d] && [d][..0] == [];
    assert UpsertAll(t, keyOf, [d]) == Upsert(t, keyOf, d) && ResolveAll(t, keyOf, [d]) == map[d.id := ResolvedID(t, keyOf, d)];
    hide Upsert, ResolvedID;
  }

  /** Why the hypothesis on natural keys is needed: when the row with the second definition's ID carries
      the first definition's key, the first run merges the two and the second run splits them again. */
  lemma CrossedDefinitionsDrift<K, R>(t: map<string, R>, keyOf: R -> K, d: Definition<K, R>, e: Definition<K, R>)
    requires Consistent(keyOf, d) && Consistent(keyOf, e) && d.id != e.id && d.key != e.key
    requires d.id !in t && e.id in t && Matches(t, keyOf, d.key) == {e.id}
    ensures var once := UpsertAll(t, keyOf, [d, e]);
            var twice := UpsertAll(once, keyOf, [d, e]);
            d.id !in once && d.id in twice && twice[d.id] == d.created
  {
    assert Resolve(t, keyOf, d) == Some(e.id) by { assert IsLeast(e.id, {e.id}); }
    var once := t[e.id := d.healed][e.id := e.healed];
    TwoDefinitions(t, keyOf, d, e);
    TwoDefinitions(once, keyOf, d, e);
    assert UpsertAll(t, keyOf, [d, e]) == once;
    assert Matches(once, keyOf, d.key) == {} by {
      forall id | id in once ensures keyOf(once[id]) != d.key {
        if id != e.id { assert id !in Matches(t, keyOf, d.key); }
      }
    }
    hide UpsertAll;
  }

  const ONE := Role("a", "One", "", "", "", false)
  const TWO := Role("b", "Two", "", "", "", false)
  const CROSSED := AuthorizationCatalog("t", "", "", [ONE, TWO], [], [], [], [], [])

  /** A store whose only role has the ID of the second declared role and the name of the first. */
  const SWAPPED := EMPTY.(roles := map["b" := RoleRow("t", "", "One", "", "", "", false, false, true, true, false)])

  lemma CrossedIsWellFormed()
    ensures WellFormed(CROSSED)
  {
    assert RoleIDs(CROSSED) == ["a", "b"] && Functions(CROSSED.menus) == [];
  }

  /** On them `Apply` itself drifts: the second run creates the role the first one merged into the other. */
  lemma ApplyDrifts()
    ensures Applied(SWAPPED, CROSSED, []).Ok?
    ensures var once := Applied(SWAPPED, CROSSED, []).value.0;
            && "a" !in once.roles
            && Applied(once, CROSSED, []).Ok? && "a" in Applied(once, CROSSED, []).value.0.roles
  {
    CrossedIsWellFormed();
    var d, e := RoleDefinition(CROSSED, ONE), RoleDefinition(CROSSED, TWO);
    assert RoleDefs(CROSSED) == [d, e];
    assert Matches(SWAPPED.roles, RoleKey, d.key) == {"b"};
    CrossedDefinitionsDrift(SWAPPED.roles, RoleKey, d, e);
    hide WellFormed, Applied, UpsertAll, RoleDefs, RoleKey;
    RolesAfter(SWAPPED, CROSSED, []);
    RolesAfter(Applied(SWAPPED, CROSSED, []).value.0, CROSSED, []);
  }

  /** Two roles that swapped their names do no harm: each is found by its own ID. */
  lemma SwappedNamesAreCompatible()
    ensures var one := RoleRow("t", "", "One", "", "", "", false, false, true, true, false);
            Compatible(EMPTY.(roles := map["a" := one.(name := "Two"), "b" := one]), CROSSED)
  {
    CrossedIsWellFormed();
    hide WellFormed;
    assert RoleDefs(CROSSED) == [RoleDefinition(CROSSED, ONE), RoleDefinition(CROSSED, TWO)];
    assert PlacedFunctions(CROSSED.menus, map[]) == [];
  }

  lemma RolesAfter(t: Tables, c: AuthorizationCatalog, walk: seq<string>)
    requires WellFormed(c) && c.defaultRoleID == ""
    ensures Applied(t, c, walk).Ok? && Applied(t, c, walk).value.0.roles == UpsertAll(t.roles, RoleKey, RoleDefs(c))
  {
    hide WellFormed, Applied, RuleCount, Granted, IDsOf, PreviouslyApplied, FunctionPass, UpsertAll, RoleDefs, MenuDefs, APIDefs, Projected;
    NobodyLeft(t, c, walk);
    PublishedParts(t, c, walk, Published(t, c, walk));
  }

  // ---- why names must be distinct --------------------------------------------------------------------------------

  /** Two definitions with one key, the second of which owns a row whose ID comes before the first one's row:
      the first one moves to that row in the second pass. */
  lemma SharedKeyDrifts<K, R>(t: map<string, R>, keyOf: R -> K, d: Definition<K, R>, e: Definition<K, R>, x: string)
    requires Consistent(keyOf, d) && Consistent(keyOf, e) && d.id != e.id && d.key == e.key
    requires d.id !in t && e.id in t && Matches(t, keyOf, d.key) == {x} && Less(e.id, x)
    ensures ResolveAll(t, keyOf, [d, e]) == map[d.id := x, e.id := e.id]
    ensures ResolveAll(UpsertAll(t, keyOf, [d, e]), keyOf, [d, e]) == map[d.id := e.id, e.id := e.id]
  {
    assert x in Matches(t, keyOf, d.key);
    LessAsymmetric(e.id, x);
    assert Resolve(t, keyOf, d) == Some(x) by { LeastUnique(x, Least({x}), {x}); }
    var once := t[x := d.healed][e.id := e.healed];
    TwoDefinitions(t, keyOf, d, e);
    TwoDefinitions(once, keyOf, d, e);
    assert UpsertAll(t, keyOf, [d, e]) == once;
    assert Matches(once, keyOf, d.key) == {x, e.id} by {
      forall id | id in once && keyOf(once[id]) == d.key ensures id in {x, e.id} {
        if id != x && id != e.id { assert id in Matches(t, keyOf, d.key); }
      }
    }
    assert Resolve(once, keyOf, d) == Some(e.id) by { LeastUnique(e.id, Least({x, e.id}), {x, e.id}); }
    hide UpsertAll, ResolveAll;
  }

  const FIRST := Role("a", "N", "", "", "", false)
  const SECOND := Role("b", "N", "", "", "", false)
  const NAMESAKES := AuthorizationCatalog("t", "", "", [FIRST, SECOND], [], [], [], [], [])
  const RENAMED := EMPTY.(roles := map["x" := RoleRow("t", "", "N", "", "", "", false, false, true, true, false),
                                       "b" := RoleRow("t", "", "M", "", "", "", false, false, true, true, false)])

  lemma NamesakesAreWellFormed()
    ensures WellFormed(NAMESAKES)
  {
    assert RoleIDs(NAMESAKES) == ["a", "b"] && Functions(NAMESAKES.menus) == [];
  }

  /** Two roles of one name, which validation lets pass: the second run resolves the first one differently. */
  lemma NamesakesDrift()
    ensures Applied(RENAMED, NAMESAKES, []).Ok?
    ensures At(IDsOf(RENAMED, NAMESAKES).roles, "a") == "x"
    ensures At(IDsOf(Applied(RENAMED, NAMESAKES, []).value.0, NAMESAKES).roles, "a") == "b"
  {
    NamesakesAreWellFormed();
    var d, e := RoleDefinition(NAMESAKES, FIRST), RoleDefinition(NAMESAKES, SECOND);
    assert RoleDefs(NAMESAKES) == [d, e];
    assert Matches(RENAMED.roles, RoleKey, d.key) == {"x"};
    assert Less("b", "x");
    SharedKeyDrifts(RENAMED.roles, RoleKey, d, e, "x");
    hide WellFormed, Applied, UpsertAll, RoleDefs, RoleKey, ResolveAll, Resources, Less, Matches;
    RolesAfter(RENAMED, NAMESAKES, []);
    UpsertedTables(RENAMED, NAMESAKES);
    UpsertedTables(Applied(RENAMED, NAMESAKES, []).value.0, NAMESAKES);
  }
}
