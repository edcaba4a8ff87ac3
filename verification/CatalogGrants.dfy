/** What seeding, the policy pass and the default-role backfill leave behind, and why they settle. */
module CatalogGrants {
  import opened Text
  import opened Catalog
  import opened CatalogStore
  import opened CatalogFunctions

  // ---- role and tenant grants ----------------------------------------------------------------------------

  ghost predicate Present(rows: seq<Grant>, g: Grant) {
    First(rows, Of(g.holder, g.menuID)).Some?
  }

  lemma SeedGrantKeeps(rows: seq<Grant>, g: Grant, seed: bool, h: Grant)
    ensures rows <= SeedGrant(rows, g, seed)
    ensures Present(rows, h) ==> Present(SeedGrant(rows, g, seed), h)
    ensures seed ==> Present(SeedGrant(rows, g, seed), g)
  {
    var rows' := SeedGrant(rows, g, seed);
    var i := First(rows, Of(h.holder, h.menuID));
    if i.Some? { assert rows'[i.value] == rows[i.value]; }
    if First(rows, Of(g.holder, g.menuID)).None? && seed { assert rows'[|rows|] == g; }
  }

  /** Seeding only appends; without the seed flag it does nothing; with it every grant is present after. */
  lemma {:induction false} SeedGrantsFacts(rows: seq<Grant>, gs: seq<Grant>, seed: bool)
    ensures rows <= SeedGrants(rows, gs, seed)
    ensures !seed ==> SeedGrants(rows, gs, seed) == rows
    ensures seed ==> forall k :: 0 <= k < |gs| ==> Present(SeedGrants(rows, gs, seed), gs[k])
  {
    if gs != [] {
      var front, last := gs[..|gs| - 1], gs[|gs| - 1];
      SeedGrantsFacts(rows, front, seed);
      var before := SeedGrants(rows, front, seed);
      SeedGrantKeeps(before, last, seed, last);
      if seed {
        forall k | 0 <= k < |gs| ensures Present(SeedGrants(rows, gs, seed), gs[k]) {
          SeedGrantKeeps(before, last, seed, gs[k]);
          if k < |front| { assert front[k] == gs[k]; }
        }
      }
    }
  }

  lemma {:induction false} PresentIsSettled(rows: seq<Grant>, gs: seq<Grant>, seed: bool)
    requires forall k :: 0 <= k < |gs| ==> Present(rows, gs[k])
    ensures SeedGrants(rows, gs, seed) == rows
  {
    if gs != [] {
      PresentIsSettled(rows, gs[..|gs| - 1], seed);
      assert Present(rows, gs[|gs| - 1]);
    }
  }

  /** A second seeding that is no more eager than the first changes nothing. */
  lemma SeedTwice(rows: seq<Grant>, gs: seq<Grant>, seed: bool, seed': bool)
    requires seed' ==> seed
    ensures SeedGrants(SeedGrants(rows, gs, seed), gs, seed') == SeedGrants(rows, gs, seed)
  {
    SeedGrantsFacts(rows, gs, seed);
    if seed' {
      PresentIsSettled(SeedGrants(rows, gs, seed), gs, seed');
    } else {
      SeedGrantsFacts(SeedGrants(rows, gs, seed), gs, seed');
    }
  }

  /** Seeding empty tables stores one row per declared grant, when no two share holder and menu. */
  lemma {:induction false} SeedEmpty(gs: seq<Grant>)
    requires forall i, j :: 0 <= i < j < |gs| ==> gs[i].holder != gs[j].holder || gs[i].menuID != gs[j].menuID
    ensures SeedGrants([], gs, true) == gs
  {
    if gs != [] {
      SeedEmpty(gs[..|gs| - 1]);
      assert gs == gs[..|gs| - 1] + [gs[|gs| - 1]];
    }
  }

  // ---- policies ------------------------------------------------------------------------------------------

  predicate SameTarget(p: PolicyRow, q: PolicyRow) {
    p.tenantID == q.tenantID && p.roleID == q.roleID && p.resource == q.resource && p.action == q.action
  }

  ghost predicate Ruled(rows: seq<PolicyRow>, p: PolicyRow) {
    First(rows, Governs(p)).Some?
  }

  /** The row a query for the policy finds is the policy itself. */
  ghost predicate Holds(rows: seq<PolicyRow>, p: PolicyRow) {
    var i := First(rows, Governs(p));
    i.Some? && rows[i.value] == p
  }

  lemma EnsurePolicyFacts(rows: seq<PolicyRow>, p: PolicyRow, seed: bool, q: PolicyRow)
    ensures Ruled(EnsurePolicy(rows, p, seed), p)
    ensures Ruled(rows, q) ==> Ruled(EnsurePolicy(rows, p, seed), q)
    ensures seed ==> Holds(EnsurePolicy(rows, p, seed), p)
    ensures !SameTarget(p, q) && Holds(rows, q) ==> Holds(EnsurePolicy(rows, p, seed), q)
    ensures Ruled(rows, p) && !seed ==> EnsurePolicy(rows, p, seed) == rows
    ensures !seed ==> rows <= EnsurePolicy(rows, p, seed)
  {
    var rows' := EnsurePolicy(rows, p, seed);
    var i, k := First(rows, Governs(p)), First(rows, Governs(q));
    FirstAt(rows', Governs(p), if i.None? then |rows| else i.value);
    if k.Some? {
      assert forall j :: 0 <= j < |rows| ==> Governs(q)(rows'[j]) == Governs(q)(rows[j]);
      FirstAt(rows', Governs(q), k.value);
    }
  }

  /** The last definition of each target is the one a seeding pass leaves. */
  ghost predicate LastWins(rows: seq<PolicyRow>, ps: seq<PolicyRow>) {
    forall i :: 0 <= i < |ps| && (forall j :: i < j < |ps| ==> !SameTarget(ps[i], ps[j])) ==> Holds(rows, ps[i])
  }

  lemma {:induction false} EnsurePoliciesFacts(rows: seq<PolicyRow>, ps: seq<PolicyRow>, seed: bool)
    ensures forall i :: 0 <= i < |ps| ==> Ruled(EnsurePolicies(rows, ps, seed), ps[i])
    ensures seed ==> LastWins(EnsurePolicies(rows, ps, seed), ps)
    ensures !seed ==> rows <= EnsurePolicies(rows, ps, seed)
  {
    hide Ruled, Holds, EnsurePolicy, SameTarget;
    if ps != [] {
      var front, last := ps[..|ps| - 1], ps[|ps| - 1];
      EnsurePoliciesFacts(rows, front, seed);
      var before := EnsurePolicies(rows, front, seed);
      EnsurePolicyFacts(before, last, seed, last);
      forall i | 0 <= i < |front|
        ensures Ruled(EnsurePolicies(rows, ps, seed), ps[i])
        ensures seed && (forall j :: i < j < |ps| ==> !SameTarget(ps[i], ps[j])) ==> Holds(EnsurePolicies(rows, ps, seed), ps[i])
      {
        assert ps[i] == front[i];
        assert Ruled(before, front[i]);
        EnsurePolicyFacts(before, last, seed, ps[i]);
        if seed && forall j :: i < j < |ps| ==> !SameTarget(ps[i], ps[j]) {
          assert forall j :: i < j < |front| ==> front[j] == ps[j];
          SameTargetSymmetric(ps[i], last);
        }
      }
    }
  }

  lemma SameTargetSymmetric(p: PolicyRow, q: PolicyRow)
    ensures SameTarget(p, q) == SameTarget(q, p)
  {
  }

  /** On a table that already rules every target, a pass only rewrites the first row of each target. */
  lemma {:induction false} RuledPass(rows: seq<PolicyRow>, ps: seq<PolicyRow>, seed: bool)
    requires forall i :: 0 <= i < |ps| ==> Ruled(rows, ps[i])
    ensures |EnsurePolicies(rows, ps, seed)| == |rows|
    ensures forall k :: 0 <= k < |rows| ==> SameTarget(EnsurePolicies(rows, ps, seed)[k], rows[k])
    ensures forall k :: 0 <= k < |rows| ==> EnsurePolicies(rows, ps, seed)[k] == rows[k] ||
                                            exists i :: 0 <= i < |ps| && First(rows, Governs(ps[i])) == Some(k)
    ensures !seed ==> EnsurePolicies(rows, ps, seed) == rows
  {
    if ps != [] {
      var front, last := ps[..|ps| - 1], ps[|ps| - 1];
      RuledPass(rows, front, seed);
      var before := EnsurePolicies(rows, front, seed);
      assert Ruled(rows, last);
      var i := First(rows, Governs(last));
      assert forall j :: 0 <= j < |rows| ==> Governs(last)(before[j]) == Governs(last)(rows[j]);
      FirstAt(before, Governs(last), i.value);
      forall k | 0 <= k < |rows|
        ensures EnsurePolicies(rows, ps, seed)[k] == rows[k] || exists i :: 0 <= i < |ps| && First(rows, Governs(ps[i])) == Some(k)
      {
        if k == i.value {
          assert First(rows, Governs(ps[|ps| - 1])) == Some(k);
        } else if before[k] != rows[k] {
          var m :| 0 <= m < |front| && First(rows, Governs(front[m])) == Some(k);
          assert ps[m] == front[m];
        }
      }
    }
  }

  lemma {:induction false} LastOfTarget(ps: seq<PolicyRow>, i: nat) returns (m: nat)
    requires i < |ps|
    ensures i <= m < |ps| && SameTarget(ps[i], ps[m]) && forall j :: m < j < |ps| ==> !SameTarget(ps[m], ps[j])
    decreases |ps| - i
  {
    if j :| i < j < |ps| && SameTarget(ps[i], ps[j]) {
      m := LastOfTarget(ps, j);
    } else {
      m := i;
    }
  }

  lemma SameFirst(rows: seq<PolicyRow>, p: PolicyRow, q: PolicyRow)
    requires SameTarget(p, q)
    ensures First(rows, Governs(p)) == First(rows, Governs(q))
  {
    var i := First(rows, Governs(p));
    assert forall j :: 0 <= j < |rows| ==> Governs(p)(rows[j]) == Governs(q)(rows[j]);
    if i.Some? { FirstAt(rows, Governs(q), i.value); }
  }

  /** A second policy pass that is no more eager than the first changes nothing. */
  lemma PoliciesTwice(rows: seq<PolicyRow>, ps: seq<PolicyRow>, seed: bool, seed': bool)
    requires seed' ==> seed
    ensures EnsurePolicies(EnsurePolicies(rows, ps, seed), ps, seed') == EnsurePolicies(rows, ps, seed)
  {
    var once := EnsurePolicies(rows, ps, seed);
    var twice := EnsurePolicies(once, ps, seed');
    EnsurePoliciesFacts(rows, ps, seed);
    EnsurePoliciesFacts(once, ps, seed');
    RuledPass(once, ps, seed');
    if seed' {
      forall k | 0 <= k < |once| ensures twice[k] == once[k] {
        if twice[k] != once[k] {
          var i :| 0 <= i < |ps| && First(once, Governs(ps[i])) == Some(k);
          var m := LastOfTarget(ps, i);
          SameFirst(once, ps[i], ps[m]);
          assert Holds(once, ps[m]) && Holds(twice, ps[m]);
          assert forall j :: 0 <= j < |once| ==> Governs(ps[m])(twice[j]) == Governs(ps[m])(once[j]);
          FirstAt(twice, Governs(ps[m]), k);
        }
      }
    }
  }

  // ---- the default-role backfill -------------------------------------------------------------------------

  ghost predicate HoldsRole(rows: seq<Link>, u: string) {
    exists i :: 0 <= i < |rows| && rows[i].left == u && !rows[i].deleted
  }

  lemma EnsureLinkGives(rows: seq<Link>, left: string, right: string, u: string)
    ensures HoldsRole(EnsureLink(rows, left, right), left)
    ensures HoldsRole(rows, u) ==> HoldsRole(EnsureLink(rows, left, right), u)
  {
    var rows' := EnsureLink(rows, left, right);
    var i := First(rows, Joins(left, right));
    var k := if i.None? then |rows| else i.value;
    assert rows'[k].left == left && !rows'[k].deleted;
    if HoldsRole(rows, u) {
      var j :| 0 <= j < |rows| && rows[j].left == u && !rows[j].deleted;
      assert rows'[j].left == u && !rows'[j].deleted;
    }
  }

  lemma {:induction false} AssignGives(rows: seq<Link>, users: seq<string>, roleID: string, u: string)
    ensures u in users || HoldsRole(rows, u) ==> HoldsRole(Assign(rows, users, roleID), u)
  {
    if users != [] {
      var front, last := users[..|users| - 1], users[|users| - 1];
      AssignGives(rows, front, roleID, u);
      EnsureLinkGives(Assign(rows, front, roleID), last, roleID, u);
      assert users == front + [last];
    }
  }

  /** After a backfill no live user of the tenant is left without a live role. */
  lemma BackfillCompletes(users: map<string, UserRow>, rows: seq<Link>, tenantID: string, roleID: string)
    ensures Roleless(users, Assign(rows, Ascending(Roleless(users, rows, tenantID)), roleID), tenantID) == {}
  {
    var targets := Roleless(users, rows, tenantID);
    var rows' := Assign(rows, Ascending(targets), roleID);
    forall u | u in users && users[u].tenantID == tenantID && !users[u].deleted ensures HoldsRole(rows', u) {
      if u !in targets { assert HoldsRole(rows, u); }
      AssignGives(rows, Ascending(targets), roleID, u);
    }
    assert forall u :: HoldsRole(rows', u) ==> u !in Roleless(users, rows', tenantID);
  }
}
