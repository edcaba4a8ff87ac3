/** Reconciling a keyed table with a list of definitions: find a row by stable ID, else by natural key,
    heal what was found and create what was not. The four `upsertCatalog*` functions of the catalog are
    instances, so what is proved here holds of roles, menus, APIs and functions alike. */
module Reconcile {
  import opened Text

  /** One definition: its catalog ID and natural key, the row its creation stores, and the row healing
      an existing one leaves. */
  datatype Definition<K, R> = Definition(id: string, key: K, created: R, healed: R)

  function Matches<K(==), R>(t: map<string, R>, keyOf: R -> K, key: K): set<string> {
    set id | id in t && keyOf(t[id]) == key
  }

  /** The row a definition finds; of several rows with its natural key, the least ID, which is what
      GORM's `First` picks. */
  function Resolve<K(==), R>(t: map<string, R>, keyOf: R -> K, d: Definition<K, R>): Option<string> {
    if d.id in t then Some(d.id) else
      var m := Matches(t, keyOf, d.key);
      if m == {} then None else Some(Least(m))
  }

  function ResolvedID<K(==), R>(t: map<string, R>, keyOf: R -> K, d: Definition<K, R>): string {
    var r := Resolve(t, keyOf, d);
    if r.None? then d.id else r.value
  }

  function ResolvedRow<K(==), R>(t: map<string, R>, keyOf: R -> K, d: Definition<K, R>): R {
    if Resolve(t, keyOf, d).None? then d.created else d.healed
  }

  function Upsert<K(==), R>(t: map<string, R>, keyOf: R -> K, d: Definition<K, R>): map<string, R> {
    t[ResolvedID(t, keyOf, d) := ResolvedRow(t, keyOf, d)]
  }

  function UpsertAll<K(==), R>(t: map<string, R>, keyOf: R -> K, ds: seq<Definition<K, R>>): map<string, R> {
    if ds == [] then t else Upsert(UpsertAll(t, keyOf, ds[..|ds| - 1]), keyOf, ds[|ds| - 1])
  }

  /** The catalog-ID-to-row-ID map that `Apply` fills while it upserts. */
  function ResolveAll<K(==), R>(t: map<string, R>, keyOf: R -> K, ds: seq<Definition<K, R>>): map<string, string> {
    if ds == [] then map[] else
      var front, d := ds[..|ds| - 1], ds[|ds| - 1];
      ResolveAll(t, keyOf, front)[d.id := ResolvedID(UpsertAll(t, keyOf, front), keyOf, d)]
  }

  ghost predicate Consistent<K, R>(keyOf: R -> K, d: Definition<K, R>) {
    keyOf(d.created) == d.key && keyOf(d.healed) == d.key
  }

  /** IDs and natural keys are distinct within the catalog. */
  ghost predicate Apart<K, R>(keyOf: R -> K, ds: seq<Definition<K, R>>) {
    && (forall i :: 0 <= i < |ds| ==> Consistent(keyOf, ds[i]))
    && (forall i, j :: 0 <= i < j < |ds| ==> ds[i].id != ds[j].id && ds[i].key != ds[j].key)
  }

  // ---- the fold in closed form ---------------------------------------------------------------------------------

  /** The table without the rows that the first n definitions own by ID. */
  function Rest<K, R>(t: map<string, R>, ds: seq<Definition<K, R>>, n: nat): map<string, R>
    requires n <= |ds|
  {
    t - set i | 0 <= i < n :: ds[i].id
  }

  /** The row the i-th definition finds when its turn comes. */
  function Found<K(==), R>(t: map<string, R>, keyOf: R -> K, ds: seq<Definition<K, R>>, i: nat): Option<string>
    requires i < |ds|
  {
    Resolve(Rest(t, ds, i), keyOf, ds[i])
  }

  function RowID<K(==), R>(t: map<string, R>, keyOf: R -> K, ds: seq<Definition<K, R>>, i: nat): string
    requires i < |ds|
  {
    ResolvedID(Rest(t, ds, i), keyOf, ds[i])
  }

  function RowLeft<K(==), R>(t: map<string, R>, keyOf: R -> K, ds: seq<Definition<K, R>>, i: nat): R
    requires i < |ds|
  {
    ResolvedRow(Rest(t, ds, i), keyOf, ds[i])
  }

  lemma ResolveFacts<K, R>(t: map<string, R>, keyOf: R -> K, d: Definition<K, R>)
    ensures var r := ResolvedID(t, keyOf, d);
            && (r in t <==> Resolve(t, keyOf, d).Some?)
            && (r != d.id ==> r in t && keyOf(t[r]) == d.key && d.id !in t)
            && (r !in t ==> r == d.id && Matches(t, keyOf, d.key) == {})
  {
  }

  /** A definition's row has the definition's ID, or is an existing row with its key and the ID of no earlier one. */
  lemma RowFacts<K, R>(t: map<string, R>, keyOf: R -> K, ds: seq<Definition<K, R>>, i: nat)
    requires Apart(keyOf, ds) && i < |ds|
    ensures var r := RowID(t, keyOf, ds, i);
            && (r in t <==> Found(t, keyOf, ds, i).Some?)
            && (r != ds[i].id ==> r in t && keyOf(t[r]) == ds[i].key && ds[i].id !in t && forall j :: 0 <= j < i ==> ds[j].id != r)
  {
    ResolveFacts(Rest(t, ds, i), keyOf, ds[i]);
  }

  /** A definition shares its row with a later one exactly when it finds the row of the later one's ID. */
  lemma Collision<K, R>(t: map<string, R>, keyOf: R -> K, ds: seq<Definition<K, R>>, i: nat, k: nat)
    requires Apart(keyOf, ds) && i < k < |ds|
    ensures RowID(t, keyOf, ds, i) == RowID(t, keyOf, ds, k) <==> RowID(t, keyOf, ds, i) == ds[k].id
  {
    RowFacts(t, keyOf, ds, i);
    RowFacts(t, keyOf, ds, k);
  }

  /** None of the definitions between i and n owns, by ID, the row of the i-th. */
  ghost predicate Untaken<K, R>(t: map<string, R>, keyOf: R -> K, ds: seq<Definition<K, R>>, i: nat, n: nat)
    requires i < n <= |ds|
  {
    forall k :: i < k < n ==> RowID(t, keyOf, ds, i) != ds[k].id
  }

  /** No definition finds, by its key, the row that a later one owns by ID. */
  ghost predicate Unmerged<K, R>(t: map<string, R>, keyOf: R -> K, ds: seq<Definition<K, R>>) {
    forall i :: 0 <= i < |ds| ==> Untaken(t, keyOf, ds, i, |ds|)
  }

  ghost predicate Separate<K, R>(t: map<string, R>, keyOf: R -> K, ds: seq<Definition<K, R>>) {
    Apart(keyOf, ds) && Unmerged(t, keyOf, ds)
  }

  /** Unmerged definitions never share a row. */
  lemma RowsApart<K, R>(t: map<string, R>, keyOf: R -> K, ds: seq<Definition<K, R>>, i: nat, j: nat)
    requires Separate(t, keyOf, ds) && i < |ds| && j < |ds| && i != j
    ensures RowID(t, keyOf, ds, i) != RowID(t, keyOf, ds, j)
  {
    assert Untaken(t, keyOf, ds, i, |ds|) && Untaken(t, keyOf, ds, j, |ds|);
    if i < j { Collision(t, keyOf, ds, i, j); } else { Collision(t, keyOf, ds, j, i); }
  }

  /** The rows of the first n definitions. */
  ghost function Targets<K, R>(t: map<string, R>, keyOf: R -> K, ds: seq<Definition<K, R>>, n: nat): set<string>
    requires n <= |ds|
  {
    set i | 0 <= i < n :: RowID(t, keyOf, ds, i)
  }

  /** The fold over the first n definitions in closed form: rows are the created or healed ones where no later
      definition took them, and every row of no definition is untouched. */
  ghost predicate Reconciled<K, R>(t: map<string, R>, keyOf: R -> K, ds: seq<Definition<K, R>>, n: nat,
                                   t': map<string, R>)
    requires n <= |ds|
  {
    && t'.Keys == t.Keys + Targets(t, keyOf, ds, n)
    && (forall i :: 0 <= i < n && Untaken(t, keyOf, ds, i, n) ==> t'[RowID(t, keyOf, ds, i)] == RowLeft(t, keyOf, ds, i))
    && (forall id :: id in t && id !in Targets(t, keyOf, ds, n) ==> t'[id] == t[id])
  }

  /** The ID map sends exactly the catalog's IDs, each to its definition's row. */
  ghost predicate Resolved<K, R>(t: map<string, R>, keyOf: R -> K, ds: seq<Definition<K, R>>, n: nat,
                                 ids: map<string, string>)
    requires n <= |ds|
  {
    && ids.Keys == (set i | 0 <= i < n :: ds[i].id)
    && forall i :: 0 <= i < n ==> ids[ds[i].id] == RowID(t, keyOf, ds, i)
  }

  /** To the definitions still to come the table looks like the rest of the first one. */
  ghost predicate Ahead<K, R>(t: map<string, R>, keyOf: R -> K, ds: seq<Definition<K, R>>, n: nat, t': map<string, R>)
    requires n <= |ds|
  {
    forall j :: n <= j < |ds| ==>
      && (ds[j].id in t' <==> ds[j].id in t)
      && Matches(t', keyOf, ds[j].key) == Matches(Rest(t, ds, n), keyOf, ds[j].key)
  }

  lemma AheadStep<K, R>(t: map<string, R>, keyOf: R -> K, ds: seq<Definition<K, R>>, n: nat, t': map<string, R>)
    requires n < |ds| && Apart(keyOf, ds) && Ahead(t, keyOf, ds, n, t')
    ensures Resolve(t', keyOf, ds[n]) == Found(t, keyOf, ds, n) && ResolvedID(t', keyOf, ds[n]) == RowID(t, keyOf, ds, n)
    ensures Ahead(t, keyOf, ds, n + 1, Upsert(t', keyOf, ds[n]))
  {
    var r, t'' := RowID(t, keyOf, ds, n), Upsert(t', keyOf, ds[n]);
    assert Resolve(t', keyOf, ds[n]) == Found(t, keyOf, ds, n);
    assert t'' == t'[r := RowLeft(t, keyOf, ds, n)] && keyOf(t''[r]) == ds[n].key by { assert Consistent(keyOf, ds[n]); }
    RowFacts(t, keyOf, ds, n);
    hide Resolve, RowID, RowLeft, Upsert, Found;
    assert Rest(t, ds, n + 1) == Rest(t, ds, n) - {ds[n].id};
    forall j | n + 1 <= j < |ds|
      ensures ds[j].id in t'' <==> ds[j].id in t
      ensures Matches(t'', keyOf, ds[j].key) == Matches(Rest(t, ds, n + 1), keyOf, ds[j].key)
    {
      assert Matches(t'', keyOf, ds[j].key) == Matches(t', keyOf, ds[j].key) - {r};
      assert Matches(Rest(t, ds, n + 1), keyOf, ds[j].key) == Matches(Rest(t, ds, n), keyOf, ds[j].key) - {ds[n].id};
    }
  }

  lemma OneMoreRow<R>(t: map<string, R>, t': map<string, R>, targets: set<string>, r: string, row: R)
    requires t'.Keys == t.Keys + targets && forall id :: id in t && id !in targets ==> t'[id] == t[id]
    ensures var u := t'[r := row];
            u.Keys == t.Keys + (targets + {r}) && forall id :: id in t && id !in targets + {r} ==> u[id] == t[id]
  {
  }

  /** The rows of earlier definitions that the n-th does not take stay as they are. */
  lemma UntakenStep<K, R>(t: map<string, R>, keyOf: R -> K, ds: seq<Definition<K, R>>, n: nat, i: nat)
    requires Apart(keyOf, ds) && i < n < |ds| && Untaken(t, keyOf, ds, i, n + 1)
    ensures Untaken(t, keyOf, ds, i, n) && RowID(t, keyOf, ds, i) != RowID(t, keyOf, ds, n)
  {
    Collision(t, keyOf, ds, i, n);
    hide RowID;
  }

  lemma RowsStep<K, R>(t: map<string, R>, keyOf: R -> K, ds: seq<Definition<K, R>>, n: nat, t': map<string, R>, i: nat)
    requires n < |ds| && Apart(keyOf, ds) && Reconciled(t, keyOf, ds, n, t') && i <= n && Untaken(t, keyOf, ds, i, n + 1)
    ensures var u, id := t'[RowID(t, keyOf, ds, n) := RowLeft(t, keyOf, ds, n)], RowID(t, keyOf, ds, i);
            id in u && u[id] == RowLeft(t, keyOf, ds, i)
  {
    if i < n {
      UntakenStep(t, keyOf, ds, n, i);
      hide RowID, RowLeft, Untaken;
      assert RowID(t, keyOf, ds, i) in Targets(t, keyOf, ds, n);
    }
  }

  lemma ReconciledStep<K, R>(t: map<string, R>, keyOf: R -> K, ds: seq<Definition<K, R>>, n: nat, t': map<string, R>)
    requires n < |ds| && Apart(keyOf, ds) && Reconciled(t, keyOf, ds, n, t')
    requires Resolve(t', keyOf, ds[n]) == Found(t, keyOf, ds, n)
    ensures Reconciled(t, keyOf, ds, n + 1, Upsert(t', keyOf, ds[n]))
  {
    var r, row := RowID(t, keyOf, ds, n), RowLeft(t, keyOf, ds, n);
    assert Upsert(t', keyOf, ds[n]) == t'[r := row];
    OneMoreTarget(t, keyOf, ds, n);
    hide RowID, RowLeft, Upsert, Resolve, Found, Targets, Untaken, Apart;
    OneMoreRow(t, t', Targets(t, keyOf, ds, n), r, row);
    forall i | 0 <= i < n + 1 && Untaken(t, keyOf, ds, i, n + 1) { RowsStep(t, keyOf, ds, n, t', i); }
  }

  lemma OneMoreTarget<K, R>(t: map<string, R>, keyOf: R -> K, ds: seq<Definition<K, R>>, n: nat)
    requires n < |ds|
    ensures Targets(t, keyOf, ds, n + 1) == Targets(t, keyOf, ds, n) + {RowID(t, keyOf, ds, n)}
  {
    hide RowID;
  }

  lemma ResolvedStep<K, R>(t: map<string, R>, keyOf: R -> K, ds: seq<Definition<K, R>>, n: nat, ids: map<string, string>)
    requires n < |ds| && Resolved(t, keyOf, ds, n, ids)
    requires forall i :: 0 <= i < n ==> ds[i].id != ds[n].id
    ensures Resolved(t, keyOf, ds, n + 1, ids[ds[n].id := RowID(t, keyOf, ds, n)])
  {
    hide RowID;
    assert (set i | 0 <= i < n + 1 :: ds[i].id) == (set i | 0 <= i < n :: ds[i].id) + {ds[n].id};
  }

  /** The fold over a prefix in closed form, whatever the table holds. */
  lemma {:induction false} UpsertPrefix<K, R>(t: map<string, R>, keyOf: R -> K, ds: seq<Definition<K, R>>, n: nat)
    requires Apart(keyOf, ds) && n <= |ds|
    ensures Reconciled(t, keyOf, ds, n, UpsertAll(t, keyOf, ds[..n]))
    ensures Resolved(t, keyOf, ds, n, ResolveAll(t, keyOf, ds[..n]))
    ensures Ahead(t, keyOf, ds, n, UpsertAll(t, keyOf, ds[..n]))
    ensures n < |ds| ==>
              && Resolve(UpsertAll(t, keyOf, ds[..n]), keyOf, ds[n]) == Found(t, keyOf, ds, n)
              && ResolvedID(UpsertAll(t, keyOf, ds[..n]), keyOf, ds[n]) == RowID(t, keyOf, ds, n)
  {
    hide *;
    if n == 0 {
      NothingYet(t, keyOf, ds);
    } else {
      var m := n - 1;
      var before := UpsertAll(t, keyOf, ds[..m]);
      UpsertPrefix(t, keyOf, ds, m);
      FoldStep(t, keyOf, ds, m);
      AheadStep(t, keyOf, ds, m, before);
      ReconciledStep(t, keyOf, ds, m, before);
      IDsDiffer(keyOf, ds, m);
      ResolvedStep(t, keyOf, ds, m, ResolveAll(t, keyOf, ds[..m]));
    }
    if n < |ds| { AheadStep(t, keyOf, ds, n, UpsertAll(t, keyOf, ds[..n])); }
  }

  lemma IDsDiffer<K, R>(keyOf: R -> K, ds: seq<Definition<K, R>>, n: nat)
    requires Apart(keyOf, ds) && n < |ds|
    ensures forall i :: 0 <= i < n ==> ds[i].id != ds[n].id
  {
  }

  lemma NothingYet<K, R>(t: map<string, R>, keyOf: R -> K, ds: seq<Definition<K, R>>)
    ensures Reconciled(t, keyOf, ds, 0, t) && Resolved(t, keyOf, ds, 0, map[]) && Ahead(t, keyOf, ds, 0, t)
    ensures UpsertAll(t, keyOf, ds[..0]) == t && ResolveAll(t, keyOf, ds[..0]) == map[]
  {
    assert Rest(t, ds, 0) == t;
  }

  /** The fold over the whole catalog. */
  lemma UpsertAllReconciles<K, R>(t: map<string, R>, keyOf: R -> K, ds: seq<Definition<K, R>>)
    requires Apart(keyOf, ds)
    ensures Reconciled(t, keyOf, ds, |ds|, UpsertAll(t, keyOf, ds))
    ensures Resolved(t, keyOf, ds, |ds|, ResolveAll(t, keyOf, ds))
  {
    hide *;
    assert ds[..|ds|] == ds;
    UpsertPrefix(t, keyOf, ds, |ds|);
  }

  // ---- the fold twice --------------------------------------------------------------------------------------------

  lemma LeftKey<K, R>(t: map<string, R>, keyOf: R -> K, ds: seq<Definition<K, R>>, i: nat)
    requires Apart(keyOf, ds) && i < |ds|
    ensures keyOf(RowLeft(t, keyOf, ds, i)) == ds[i].key
  {
    assert Consistent(keyOf, ds[i]);
  }

  /** A definition whose row has its own ID keeps it to the end. */
  lemma OwnerKeeps<K, R>(t: map<string, R>, keyOf: R -> K, ds: seq<Definition<K, R>>, k: nat)
    requires Apart(keyOf, ds) && k < |ds| && (ds[k].id in t || RowID(t, keyOf, ds, k) == ds[k].id)
    ensures RowID(t, keyOf, ds, k) == ds[k].id && Untaken(t, keyOf, ds, k, |ds|)
  {
    RowFacts(t, keyOf, ds, k);
  }

  /** Every row of some definition is, in the end, that of exactly one. */
  lemma {:induction false} LastWriter<K, R>(t: map<string, R>, keyOf: R -> K, ds: seq<Definition<K, R>>, id: string) returns (j: nat)
    requires Apart(keyOf, ds) && id in Targets(t, keyOf, ds, |ds|)
    ensures j < |ds| && RowID(t, keyOf, ds, j) == id && Untaken(t, keyOf, ds, j, |ds|)
  {
    hide RowID;
    j :| 0 <= j < |ds| && RowID(t, keyOf, ds, j) == id;
    if !Untaken(t, keyOf, ds, j, |ds|) {
      var k :| j < k < |ds| && RowID(t, keyOf, ds, j) == ds[k].id;
      RowFacts(t, keyOf, ds, j);
      OwnerKeeps(t, keyOf, ds, k);
      j := k;
    }
  }

  /** Rows with the key that no definition owns by ID. */
  function Spare<K(==), R>(t: map<string, R>, keyOf: R -> K, ds: seq<Definition<K, R>>, i: nat): set<string>
    requires i < |ds|
  {
    Matches(Rest(t, ds, |ds|), keyOf, ds[i].key)
  }

  /** After the fold, the rows with the i-th definition's key are its own, if no later definition took it, and
      the spare ones, which are untouched. */
  lemma KeyAfter<K, R>(t: map<string, R>, keyOf: R -> K, ds: seq<Definition<K, R>>, once: map<string, R>, i: nat, id: string)
    requires Apart(keyOf, ds) && Reconciled(t, keyOf, ds, |ds|, once) && i < |ds|
    ensures id in once && keyOf(once[id]) == ds[i].key <==>
            (id == RowID(t, keyOf, ds, i) && Untaken(t, keyOf, ds, i, |ds|)) || id in Spare(t, keyOf, ds, i)
    ensures id in Spare(t, keyOf, ds, i) && (id != RowID(t, keyOf, ds, i) || !Untaken(t, keyOf, ds, i, |ds|)) ==> id in once && once[id] == t[id]
  {
    if id in Targets(t, keyOf, ds, |ds|) {
      var j := LastWriter(t, keyOf, ds, id);
      LeftKey(t, keyOf, ds, j);
      RowFacts(t, keyOf, ds, j);
      RowFacts(t, keyOf, ds, i);
      hide RowID, RowLeft;
    } else {
      if id in t { OwnedAreTargets(t, keyOf, ds, id); }
      hide RowID, RowLeft;
      assert RowID(t, keyOf, ds, i) in Targets(t, keyOf, ds, |ds|);
    }
  }

  lemma OwnedAreTargets<K, R>(t: map<string, R>, keyOf: R -> K, ds: seq<Definition<K, R>>, id: string)
    requires Apart(keyOf, ds) && id in t && id !in Targets(t, keyOf, ds, |ds|)
    ensures id in Rest(t, ds, |ds|)
  {
    if k :| 0 <= k < |ds| && ds[k].id == id { OwnerKeeps(t, keyOf, ds, k); }
  }

  /** What a definition finds after the fold: the row it got, unless a later definition took that; then the
      least spare row with its key, if any. */
  lemma FoundAgain<K, R>(t: map<string, R>, keyOf: R -> K, ds: seq<Definition<K, R>>, once: map<string, R>, i: nat)
    requires Apart(keyOf, ds) && Reconciled(t, keyOf, ds, |ds|, once) && i < |ds|
    ensures var spare := Spare(t, keyOf, ds, i);
            Found(once, keyOf, ds, i) ==
            if Untaken(t, keyOf, ds, i, |ds|) then Some(RowID(t, keyOf, ds, i)) else if spare == {} then None else Some(Least(spare))
  {
    var r, after := RowID(t, keyOf, ds, i), Matches(Rest(once, ds, i), keyOf, ds[i].key);
    assert r in Targets(t, keyOf, ds, |ds|) && r in once;
    if r != ds[i].id {
      NotCreated(t, keyOf, ds, once, i);
      MatchesAfter(t, keyOf, ds, once, i);
      hide RowID, Untaken, Spare, Rest, Matches, Reconciled;
      if after != {} { LeastUnique(Least(after), if Untaken(t, keyOf, ds, i, |ds|) then r else Least(Spare(t, keyOf, ds, i)), after); }
    } else {
      OwnerKeeps(t, keyOf, ds, i);
    }
  }

  /** An ID that is missing and whose definition found another row is still missing. */
  lemma NotCreated<K, R>(t: map<string, R>, keyOf: R -> K, ds: seq<Definition<K, R>>, once: map<string, R>, i: nat)
    requires Apart(keyOf, ds) && Reconciled(t, keyOf, ds, |ds|, once) && i < |ds| && RowID(t, keyOf, ds, i) != ds[i].id
    ensures ds[i].id !in once
  {
    RowFacts(t, keyOf, ds, i);
    if ds[i].id in once {
      var j :| 0 <= j < |ds| && ds[i].id == RowID(t, keyOf, ds, j);
      RowFacts(t, keyOf, ds, j);
      hide RowID;
    }
  }

  /** The rows such a definition can find: its own, if nobody took it, and the spare ones, none of which is less. */
  lemma MatchesAfter<K, R>(t: map<string, R>, keyOf: R -> K, ds: seq<Definition<K, R>>, once: map<string, R>, i: nat)
    requires Apart(keyOf, ds) && Reconciled(t, keyOf, ds, |ds|, once) && i < |ds| && RowID(t, keyOf, ds, i) != ds[i].id
    ensures var r, spare := RowID(t, keyOf, ds, i), Spare(t, keyOf, ds, i);
            && Matches(Rest(once, ds, i), keyOf, ds[i].key) == (if Untaken(t, keyOf, ds, i, |ds|) then spare + {r} else spare)
            && forall id :: id in spare ==> id == r || Less(r, id)
  {
    LeastMatch(t, keyOf, ds, i);
    RowFacts(t, keyOf, ds, i);
    var r, spare := RowID(t, keyOf, ds, i), Spare(t, keyOf, ds, i);
    hide RowID, Untaken, Reconciled;
    forall id ensures id in Matches(Rest(once, ds, i), keyOf, ds[i].key) <==> id in if Untaken(t, keyOf, ds, i, |ds|) then spare + {r} else spare {
      KeyAfter(t, keyOf, ds, once, i, id);
    }
  }

  lemma LeastMatch<K, R>(t: map<string, R>, keyOf: R -> K, ds: seq<Definition<K, R>>, i: nat)
    requires i < |ds| && RowID(t, keyOf, ds, i) != ds[i].id
    ensures forall id :: id in Spare(t, keyOf, ds, i) ==> id == RowID(t, keyOf, ds, i) || Less(RowID(t, keyOf, ds, i), id)
  {
    assert RowID(t, keyOf, ds, i) == Least(Matches(Rest(t, ds, i), keyOf, ds[i].key));
    assert forall id :: id in Spare(t, keyOf, ds, i) ==> id in Matches(Rest(t, ds, i), keyOf, ds[i].key);
  }

  /** Whether the second pass leaves the row of the i-th definition as it is. */
  ghost predicate SettledAt<K, R>(t: map<string, R>, keyOf: R -> K, ds: seq<Definition<K, R>>, i: nat)
    requires i < |ds|
  {
    var spare := Spare(t, keyOf, ds, i);
    if Untaken(t, keyOf, ds, i, |ds|) then Found(t, keyOf, ds, i).Some? || ds[i].created == ds[i].healed
    else spare != {} && t[Least(spare)] == ds[i].healed
  }

  /** Every definition's row survives the first pass with what the second one would write: nothing was created
      that healing alters, and where a later definition took the row, the least spare one is healed already. */
  ghost predicate Settled<K, R>(t: map<string, R>, keyOf: R -> K, ds: seq<Definition<K, R>>) {
    forall i :: 0 <= i < |ds| ==> SettledAt(t, keyOf, ds, i)
  }

  /** After one pass, whatever the table held, no definition takes another's row any more. */
  lemma UnmergedAfter<K, R>(t: map<string, R>, keyOf: R -> K, ds: seq<Definition<K, R>>, once: map<string, R>)
    requires Apart(keyOf, ds) && Reconciled(t, keyOf, ds, |ds|, once)
    ensures Unmerged(once, keyOf, ds)
  {
    forall i, k | 0 <= i < k < |ds| ensures RowID(once, keyOf, ds, i) != ds[k].id {
      FoundAgain(t, keyOf, ds, once, i);
    }
  }

  lemma SecondRow<K, R>(t: map<string, R>, keyOf: R -> K, ds: seq<Definition<K, R>>, once: map<string, R>, i: nat)
    requires Apart(keyOf, ds) && Reconciled(t, keyOf, ds, |ds|, once) && i < |ds|
    ensures var id := RowID(once, keyOf, ds, i);
            SettledAt(t, keyOf, ds, i) <==> id in once && once[id] == RowLeft(once, keyOf, ds, i)
  {
    FoundAgain(t, keyOf, ds, once, i);
    if Untaken(t, keyOf, ds, i, |ds|) {
      assert RowID(t, keyOf, ds, i) in Targets(t, keyOf, ds, |ds|);
      assert once[RowID(t, keyOf, ds, i)] == RowLeft(t, keyOf, ds, i);
    } else {
      NotCreated(t, keyOf, ds, once, i);
      var spare := Spare(t, keyOf, ds, i);
      if spare != {} { KeyAfter(t, keyOf, ds, once, i, Least(spare)); }
    }
  }

  /** A pass over unmerged definitions changes nothing exactly when every row is there as it would write it. */
  lemma SamePass<K, R>(t: map<string, R>, keyOf: R -> K, ds: seq<Definition<K, R>>, u: map<string, R>)
    requires Unmerged(t, keyOf, ds) && Reconciled(t, keyOf, ds, |ds|, u)
    ensures u == t <==> forall i :: 0 <= i < |ds| ==> RowID(t, keyOf, ds, i) in t && t[RowID(t, keyOf, ds, i)] == RowLeft(t, keyOf, ds, i)
  {
    hide RowID, RowLeft;
    assert forall i :: 0 <= i < |ds| ==> RowID(t, keyOf, ds, i) in Targets(t, keyOf, ds, |ds|);
    if forall i :: 0 <= i < |ds| ==> RowID(t, keyOf, ds, i) in t && t[RowID(t, keyOf, ds, i)] == RowLeft(t, keyOf, ds, i) {
      forall id | id in u ensures id in t && u[id] == t[id] {
        if id in Targets(t, keyOf, ds, |ds|) {
          var i :| 0 <= i < |ds| && id == RowID(t, keyOf, ds, i);
          assert Untaken(t, keyOf, ds, i, |ds|);
        }
      }
      assert u == t;
    } else {
      var i :| 0 <= i < |ds| && !(RowID(t, keyOf, ds, i) in t && t[RowID(t, keyOf, ds, i)] == RowLeft(t, keyOf, ds, i));
      assert Untaken(t, keyOf, ds, i, |ds|);
    }
  }

  lemma SameResolution<K, R>(t: map<string, R>, u: map<string, R>, keyOf: R -> K, ds: seq<Definition<K, R>>,
                             ids: map<string, string>, ids': map<string, string>)
    requires Resolved(t, keyOf, ds, |ds|, ids) && Resolved(u, keyOf, ds, |ds|, ids')
    ensures ids == ids' <==> forall i :: 0 <= i < |ds| ==> RowID(t, keyOf, ds, i) == RowID(u, keyOf, ds, i)
  {
    hide RowID;
    if forall i :: 0 <= i < |ds| ==> RowID(t, keyOf, ds, i) == RowID(u, keyOf, ds, i) {
      forall id | id in ids ensures ids[id] == ids'[id] {
        var i :| 0 <= i < |ds| && ds[i].id == id;
      }
      assert ids == ids';
    } else {
      var i :| 0 <= i < |ds| && RowID(t, keyOf, ds, i) != RowID(u, keyOf, ds, i);
      assert ids[ds[i].id] != ids'[ds[i].id];
    }
  }

  /** Reconciling again: every definition gets the row it got before exactly when the first pass merged none,
      and no row changes exactly when the first pass settled them; either way the result is unmerged. */
  lemma UpsertTwice<K, R>(t: map<string, R>, keyOf: R -> K, ds: seq<Definition<K, R>>)
    requires Apart(keyOf, ds)
    ensures var once := UpsertAll(t, keyOf, ds);
            && Separate(once, keyOf, ds)
            && (ResolveAll(once, keyOf, ds) == ResolveAll(t, keyOf, ds) <==> Unmerged(t, keyOf, ds))
            && (UpsertAll(once, keyOf, ds) == once <==> Settled(t, keyOf, ds))
            && (Unmerged(t, keyOf, ds) ==> UpsertAll(once, keyOf, ds).Keys == once.Keys && AllFound(once, keyOf, ds))
  {
    var once := UpsertAll(t, keyOf, ds);
    var twice := UpsertAll(once, keyOf, ds);
    hide UpsertAll, ResolveAll, Reconciled, Resolved, Apart, SettledAt, Unmerged;
    UpsertAllReconciles(t, keyOf, ds);
    UpsertAllReconciles(once, keyOf, ds);
    UnmergedAfter(t, keyOf, ds, once);
    SamePass(once, keyOf, ds, twice);
    SameResolution(t, once, keyOf, ds, ResolveAll(t, keyOf, ds), ResolveAll(once, keyOf, ds));
    SameRowExactly(t, keyOf, ds, once);
    forall i | 0 <= i < |ds| { SecondRow(t, keyOf, ds, once, i); }
    if Unmerged(t, keyOf, ds) { AllFoundAfter(t, keyOf, ds, once, twice); }
  }

  /** Every definition finds a row. */
  ghost predicate AllFound<K, R>(t: map<string, R>, keyOf: R -> K, ds: seq<Definition<K, R>>) {
    forall i :: 0 <= i < |ds| ==> Found(t, keyOf, ds, i).Some?
  }

  lemma AllFoundAfter<K, R>(t: map<string, R>, keyOf: R -> K, ds: seq<Definition<K, R>>, once: map<string, R>, twice: map<string, R>)
    requires Separate(t, keyOf, ds) && Reconciled(t, keyOf, ds, |ds|, once) && Reconciled(once, keyOf, ds, |ds|, twice)
    ensures AllFound(once, keyOf, ds) && twice.Keys == once.Keys
  {
    forall i | 0 <= i < |ds| ensures Found(once, keyOf, ds, i).Some? && RowID(once, keyOf, ds, i) in once {
      FoundAgain(t, keyOf, ds, once, i);
      RowFacts(once, keyOf, ds, i);
    }
    hide RowID, Found, Separate;
  }

  lemma SameRowExactly<K, R>(t: map<string, R>, keyOf: R -> K, ds: seq<Definition<K, R>>, once: map<string, R>)
    requires Apart(keyOf, ds) && Reconciled(t, keyOf, ds, |ds|, once)
    ensures (forall i :: 0 <= i < |ds| ==> RowID(t, keyOf, ds, i) == RowID(once, keyOf, ds, i)) <==> Unmerged(t, keyOf, ds)
  {
    forall i | 0 <= i < |ds| ensures RowID(t, keyOf, ds, i) == RowID(once, keyOf, ds, i) <==> Untaken(t, keyOf, ds, i, |ds|) {
      FoundAgain(t, keyOf, ds, once, i);
    }
    hide RowID, Untaken;
  }

  // ---- a second pass with other keys -----------------------------------------------------------------------------

  /** IDs are distinct; natural keys need not be. */
  ghost predicate OwnIDs<K, R>(keyOf: R -> K, ds: seq<Definition<K, R>>) {
    && (forall i :: 0 <= i < |ds| ==> Consistent(keyOf, ds[i]))
    && (forall i, j :: 0 <= i < j < |ds| ==> ds[i].id != ds[j].id)
  }

  lemma UpsertFacts<K, R>(t: map<string, R>, keyOf: R -> K, d: Definition<K, R>)
    requires Consistent(keyOf, d)
    ensures var r, u := ResolvedID(t, keyOf, d), Upsert(t, keyOf, d);
            && r in u && keyOf(u[r]) == d.key && (d.id in u ==> r == d.id)
            && forall id :: id in u && id != r ==> id in t && u[id] == t[id]
  {
  }

  /** A row with a definition's ID was last written by that definition or a later one. */
  lemma {:induction false} OwnRowWritten<K, R>(t: map<string, R>, keyOf: R -> K, ds: seq<Definition<K, R>>, n: nat, j: nat) returns (l: nat)
    requires OwnIDs(keyOf, ds) && j < n <= |ds| && ds[j].id in UpsertAll(t, keyOf, ds[..n])
    ensures j <= l < n && keyOf(UpsertAll(t, keyOf, ds[..n])[ds[j].id]) == ds[l].key
    decreases n
  {
    var before := UpsertAll(t, keyOf, ds[..n - 1]);
    FoldStep(t, keyOf, ds, n - 1);
    assert Consistent(keyOf, ds[n - 1]);
    UpsertFacts(before, keyOf, ds[n - 1]);
    hide UpsertAll, Upsert, ResolvedID, Consistent;
    if ResolvedID(before, keyOf, ds[n - 1]) == ds[j].id {
      l := n - 1;
    } else {
      l := OwnRowWritten(t, keyOf, ds, n - 1, j);
    }
  }

  /** The definitions may get other keys before the second pass: it merges none as long as no later one had,
      in the first pass, the key that an earlier one has now. */
  lemma UnmergedAcross<K, R>(t: map<string, R>, keyOf: R -> K, ds: seq<Definition<K, R>>, ds': seq<Definition<K, R>>)
    requires OwnIDs(keyOf, ds) && Apart(keyOf, ds') && |ds| == |ds'| && forall i :: 0 <= i < |ds| ==> ds[i].id == ds'[i].id
    requires forall i, l :: 0 <= i < l < |ds| ==> ds'[i].key != ds[l].key
    ensures Unmerged(UpsertAll(t, keyOf, ds), keyOf, ds')
  {
    var once := UpsertAll(t, keyOf, ds);
    assert ds[..|ds|] == ds;
    forall i, k | 0 <= i < k < |ds| ensures RowID(once, keyOf, ds', i) != ds'[k].id {
      RowFacts(once, keyOf, ds', i);
      hide RowID, UpsertAll;
      if RowID(once, keyOf, ds', i) == ds'[k].id {
        var l := OwnRowWritten(t, keyOf, ds, |ds|, k);
      }
    }
  }

  /** In the second pass no definition gets a row that a later one got in the first. */
  lemma LaterRowsApart<K, R>(t: map<string, R>, keyOf: R -> K, ds: seq<Definition<K, R>>, a: nat, b: nat)
    requires Apart(keyOf, ds) && a < b < |ds|
    ensures RowID(UpsertAll(t, keyOf, ds), keyOf, ds, a) != RowID(t, keyOf, ds, b)
  {
    var once := UpsertAll(t, keyOf, ds);
    UpsertAllReconciles(t, keyOf, ds);
    hide UpsertAll;
    FoundAgain(t, keyOf, ds, once, a);
    RowFacts(t, keyOf, ds, b);
    if Untaken(t, keyOf, ds, a, |ds|) {
      Collision(t, keyOf, ds, a, b);
    } else {
      NotCreated(t, keyOf, ds, once, a);
      assert RowID(t, keyOf, ds, b) in Targets(t, keyOf, ds, |ds|);
    }
  }

  /** Reconciling only ever adds keys, whatever the catalog. */
  lemma {:induction false} UpsertAllGrows<K, R>(t: map<string, R>, keyOf: R -> K, ds: seq<Definition<K, R>>)
    ensures t.Keys <= UpsertAll(t, keyOf, ds).Keys
  {
    if ds != [] { UpsertAllGrows(t, keyOf, ds[..|ds| - 1]); }
  }

  /** Every catalog ID gets an entry in the ID map, whatever the catalog. */
  lemma {:induction false} EveryIDResolves<K, R>(t: map<string, R>, keyOf: R -> K, ds: seq<Definition<K, R>>, i: nat)
    requires i < |ds|
    ensures ds[i].id in ResolveAll(t, keyOf, ds)
  {
    if i < |ds| - 1 { EveryIDResolves(t, keyOf, ds[..|ds| - 1], i); }
  }

  lemma FoldStep<K, R>(t: map<string, R>, keyOf: R -> K, ds: seq<Definition<K, R>>, i: nat)
    requires i < |ds|
    ensures UpsertAll(t, keyOf, ds[..i + 1]) == Upsert(UpsertAll(t, keyOf, ds[..i]), keyOf, ds[i])
    ensures ResolveAll(t, keyOf, ds[..i + 1]) ==
            ResolveAll(t, keyOf, ds[..i])[ds[i].id := ResolvedID(UpsertAll(t, keyOf, ds[..i]), keyOf, ds[i])]
  {
    assert ds[..i + 1][..i] == ds[..i] && ds[..i + 1][i] == ds[i];
  }
}
