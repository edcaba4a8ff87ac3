/** The delivery ledger: for each channel transaction, goods are handed out at most once, in every
    interleaving of calls, failures and crashes (pay/delivery.go). */
module Delivery {
  import opened Text

  /** The unique index: provider and channel transaction number. */
  type Key = (string, string)

  datatype Status = Delivering | Delivered

  /** The columns the caller supplies. */
  datatype Order = Order(orderID: string, openID: string, amountFen: int)

  datatype Row = Row(id: nat, order: Order, status: Status)

  /** The table, by its unique index; the primary key is a column. */
  type Table = map<Key, Row>

  datatype Error = MissingTransaction | Busy | DeliverFailed | DatabaseFailed

  predicate FreshID(rows: Table, id: nat) {
    forall k :: k in rows ==> rows[k].id != id
  }

  predicate PrimaryKey(rows: Table) {
    forall k, l :: k in rows && l in rows && rows[k].id == rows[l].id ==> k == l
  }

  // ---- the four statements --------------------------------------------------------------------------------

  /** INSERT ... ON CONFLICT DO NOTHING. */
  function Inserted(rows: Table, key: Key, id: nat, order: Order): Table {
    if key in rows then rows else rows[key := Row(id, order, Delivering)]
  }

  /** DELETE by primary key. */
  function Released(rows: Table, id: nat): Table {
    map k | k in rows && rows[k].id != id :: rows[k]
  }

  /** UPDATE of the status by primary key. */
  function Committed(rows: Table, id: nat): Table {
    map k | k in rows :: if rows[k].id == id then rows[k].(status := Delivered) else rows[k]
  }

  // ---- one call at a time ---------------------------------------------------------------------------------

  datatype Answer = Answer(done: bool, error: Option<Error>)

  /** What one undisturbed call answers, and the table it leaves. */
  function Alone(rows: Table, key: Key, id: nat, order: Order, fails: bool): (Answer, Table) {
    if key.1 == "" then (Answer(false, Some(MissingTransaction)), rows)
    else if key in rows then (Answer(false, if rows[key].status == Delivering then Some(Busy) else None), rows)
    else if fails then (Answer(false, Some(DeliverFailed)), rows)
    else (Answer(true, None), rows[key := Row(id, order, Delivered)])
  }

  class DeliveryLedger {
    var rows: Table

    constructor ()
      ensures rows == map[]
    {
      rows := map[];
    }

    method Create(key: Key, id: nat, order: Order) returns (affected: bool)
      modifies this
      ensures rows == Inserted(old(rows), key, id, order) && (affected <==> key !in old(rows))
    {
      affected := key !in rows;
      if affected { rows := rows[key := Row(id, order, Delivering)]; }
    }

    method Delete(id: nat)
      modifies this
      ensures rows == Released(old(rows), id)
    {
      rows := map k | k in rows && rows[k].id != id :: rows[k];
    }

    method MarkDelivered(id: nat)
      modifies this
      ensures rows == Committed(old(rows), id)
    {
      rows := map k | k in rows :: if rows[k].id == id then rows[k].(status := Delivered) else rows[k];
    }

    /** `Once`, undisturbed; `id` is the key the database assigns, `fails` what `deliver` returns. */
    method Once(provider: string, txn: string, id: nat, order: Order, fails: bool) returns (answer: Answer)
      requires FreshID(rows, id)
      modifies this
      ensures (answer, rows) == Alone(old(rows), (provider, txn), id, order, fails)
    {
      if txn == "" { return Answer(false, Some(MissingTransaction)); }
      var key := (provider, txn);
      var affected := Create(key, id, order);
      if !affected {
        var current := rows[key];
        if current.status == Delivering { return Answer(false, Some(Busy)); }
        return Answer(false, None);
      }
      if fails {
        Delete(id);
        assert rows == old(rows);
        return Answer(false, Some(DeliverFailed));
      }
      MarkDelivered(id);
      assert rows == old(rows)[key := Row(id, order, Delivered)];
      return Answer(true, None);
    }

    /** `Delivered`. */
    method IsDelivered(provider: string, txn: string) returns (yes: bool)
      ensures yes <==> (provider, txn) in rows && rows[(provider, txn)].status == Delivered
    {
      yes := (provider, txn) in rows && rows[(provider, txn)].status == Delivered;
    }
  }

  // ---- many calls at once: one event per statement ----------------------------------------------------------

  datatype Phase =
    | Starting
    | Conflicted
    | Calling(id: nat)
    | Releasing(id: nat)
    | Committing(id: nat)
    | Returned(answer: Answer)
    | Crashed

  /** A call of `Once`: where it is, and whether its `deliver` began, and how it ended. */
  datatype Call = Call(key: Key, order: Order, phase: Phase, began: bool, outcome: Option<bool>)

  /** The table, all calls ever made, and, for the record, which call inserted each row. */
  datatype State = State(rows: Table, calls: map<nat, Call>, holder: map<Key, nat>)

  /** `Enter` starts a call. A statement may fail; an insert that reports failure may have been stored, a
      release or commit whose failure goes unnoticed may not. A call may crash at any time. */
  datatype Event =
    | Enter(n: nat, key: Key, order: Order)
    | Insert(n: nat, id: nat)
    | InsertFails(n: nat, id: nat, stored: bool)
    | Reread(n: nat, readable: bool)
    | Deliver(n: nat, ok: bool)
    | Release(n: nat, effective: bool)
    | Commit(n: nat, effective: bool)
    | Crash(n: nat)

  predicate Enabled(s: State, e: Event) {
    if e.Enter? then e.n !in s.calls else
      && e.n in s.calls
      && var phase := s.calls[e.n].phase;
         match e
         case Insert(_, id) => phase.Starting? && FreshID(s.rows, id)
         case InsertFails(_, id, _) => phase.Starting? && FreshID(s.rows, id)
         case Reread(_, _) => phase.Conflicted?
         case Deliver(_, _) => phase.Calling?
         case Release(_, _) => phase.Releasing?
         case Commit(_, _) => phase.Committing?
         case Crash(_) => !phase.Returned? && !phase.Crashed?
  }

  function Reply(c: Call, done: bool, error: Option<Error>): Call {
    c.(phase := Returned(Answer(done, error)))
  }

  /** What the re-read after a conflict answers: a missing or unreadable row counts as "not delivering". */
  function RereadAnswer(rows: Table, key: Key, readable: bool): Option<Error> {
    if readable && key in rows && rows[key].status == Delivering then Some(Busy) else None
  }

  function After(s: State, e: Event): State
    requires Enabled(s, e)
  {
    match e
    case Enter(n, key, order) =>
      var c := Call(key, order, Starting, false, None);
      s.(calls := s.calls[n := if key.1 == "" then Reply(c, false, Some(MissingTransaction)) else c])
    case Insert(n, id) =>
      var c := s.calls[n];
      if c.key in s.rows then s.(calls := s.calls[n := c.(phase := Conflicted)])
      else State(Inserted(s.rows, c.key, id, c.order), s.calls[n := c.(phase := Calling(id), began := true)], s.holder[c.key := n])
    case InsertFails(n, id, stored) =>
      var c := s.calls[n];
      s.(rows := if stored then Inserted(s.rows, c.key, id, c.order) else s.rows,
         calls := s.calls[n := Reply(c, false, Some(DatabaseFailed))])
    case Reread(n, readable) =>
      s.(calls := s.calls[n := Reply(s.calls[n], false, RereadAnswer(s.rows, s.calls[n].key, readable))])
    case Deliver(n, ok) =>
      var c := s.calls[n];
      s.(calls := s.calls[n := c.(phase := if ok then Committing(c.phase.id) else Releasing(c.phase.id), outcome := Some(ok))])
    case Release(n, effective) =>
      var c := s.calls[n];
      var rows := if effective then Released(s.rows, c.phase.id) else s.rows;
      State(rows, s.calls[n := Reply(c, false, Some(DeliverFailed))], map k | k in s.holder && k in rows :: s.holder[k])
    case Commit(n, effective) =>
      var c := s.calls[n];
      s.(rows := if effective then Committed(s.rows, c.phase.id) else s.rows, calls := s.calls[n := Reply(c, true, None)])
    case Crash(n) => s.(calls := s.calls[n := s.calls[n].(phase := Crashed)])
  }

  /** Any table may be there at the start, but no call. */
  ghost predicate Initial(s: State) {
    PrimaryKey(s.rows) && s.calls == map[] && s.holder == map[]
  }

  ghost predicate Run(states: seq<State>, events: seq<Event>) {
    && |states| == |events| + 1 && Initial(states[0])
    && forall i :: 0 <= i < |events| ==> Enabled(states[i], events[i]) && states[i + 1] == After(states[i], events[i])
  }

  // ---- safety -----------------------------------------------------------------------------------------------

  /** The deliver of this call began and has not failed: it is running, has succeeded, or its caller crashed. */
  predicate Active(c: Call) {
    c.began && c.outcome != Some(false)
  }

  /** The row a call works on is there, undelivered, and its own. */
  ghost predicate Holds(s: State, n: nat, id: nat)
    requires n in s.calls
  {
    var key := s.calls[n].key;
    key in s.rows && s.rows[key].id == id && s.rows[key].status == Delivering && key in s.holder && s.holder[key] == n
  }

  ghost predicate CallOK(s: State, n: nat)
    requires n in s.calls
  {
    var c := s.calls[n];
    && (Active(c) ==> c.key in s.holder && s.holder[c.key] == n)
    && match c.phase
       case Starting => !c.began && c.outcome.None?
       case Conflicted => !c.began && c.outcome.None?
       case Calling(id) => c.began && c.outcome.None? && Holds(s, n, id)
       case Releasing(id) => c.began && c.outcome == Some(false) && Holds(s, n, id)
       case Committing(id) => c.began && c.outcome == Some(true) && Holds(s, n, id)
       case Returned(answer) => (answer.done <==> c.outcome == Some(true)) && (c.outcome.Some? ==> c.began)
       case Crashed => c.outcome == Some(true) ==> c.began
  }

  ghost predicate RowOK(s: State, k: Key)
    requires k in s.holder
  {
    && k in s.rows && s.holder[k] in s.calls && s.calls[s.holder[k]].key == k
    && (s.rows[k].status == Delivered ==> s.calls[s.holder[k]].outcome == Some(true))
  }

  ghost predicate Invariant(s: State) {
    && PrimaryKey(s.rows)
    && (forall k :: k in s.holder ==> RowOK(s, k))
    && (forall n :: n in s.calls ==> CallOK(s, n))
  }

  lemma StepKeepsCalls(s: State, e: Event, n: nat)
    requires Invariant(s) && Enabled(s, e) && n in After(s, e).calls
    ensures CallOK(After(s, e), n)
  {
    if n in s.calls { assert CallOK(s, n); }
    if e.n in s.calls { assert CallOK(s, e.n); }
  }

  lemma StepKeepsRows(s: State, e: Event, k: Key)
    requires Invariant(s) && Enabled(s, e) && k in After(s, e).holder
    ensures RowOK(After(s, e), k)
  {
    if k in s.holder { assert RowOK(s, k); }
    if e.n in s.calls { assert CallOK(s, e.n); }
  }

  lemma StepKeepsInvariant(s: State, e: Event)
    requires Invariant(s) && Enabled(s, e)
    ensures Invariant(After(s, e))
  {
    forall n | n in After(s, e).calls { StepKeepsCalls(s, e, n); }
    forall k | k in After(s, e).holder { StepKeepsRows(s, e, k); }
    StepKeepsPrimaryKey(s, e);
    hide CallOK, RowOK, After, Enabled, PrimaryKey;
  }

  lemma StepKeepsPrimaryKey(s: State, e: Event)
    requires PrimaryKey(s.rows) && Enabled(s, e)
    ensures PrimaryKey(After(s, e).rows)
  {
  }

  lemma {:induction false} RunKeepsInvariant(states: seq<State>, events: seq<Event>, i: nat)
    requires Run(states, events) && i < |states|
    ensures Invariant(states[i])
  {
    hide Invariant, After, Enabled;
    if i > 0 {
      RunKeepsInvariant(states, events, i - 1);
      StepKeepsInvariant(states[i - 1], events[i - 1]);
    } else {
      InitialInvariant(states[0]);
    }
  }

  lemma InitialInvariant(s: State)
    requires Initial(s)
    ensures Invariant(s)
  {
  }

  /** Of all calls on one key, at most one has a `deliver` that began and did not fail. */
  lemma OneActiveCall(s: State, n: nat, m: nat)
    requires Invariant(s) && n in s.calls && m in s.calls
    requires s.calls[n].key == s.calls[m].key && Active(s.calls[n]) && Active(s.calls[m])
    ensures n == m
  {
    assert CallOK(s, n) && CallOK(s, m);
  }

  /** In every state of every run: at most one `deliver` per key is in flight, at most one ever succeeded,
      and at most one call returned true. */
  lemma AtMostOnce(states: seq<State>, events: seq<Event>, i: nat, n: nat, m: nat)
    requires Run(states, events) && i < |states|
    requires n in states[i].calls && m in states[i].calls && n != m && states[i].calls[n].key == states[i].calls[m].key
    ensures var a, b := states[i].calls[n], states[i].calls[m];
            && !(a.phase.Calling? && b.phase.Calling?)
            && !(a.outcome == Some(true) && b.outcome == Some(true))
            && !(a.phase.Calling? && b.outcome == Some(true))
            && !(a.phase.Returned? && a.phase.answer.done && b.phase.Returned? && b.phase.answer.done)
  {
    RunKeepsInvariant(states, events, i);
    var s := states[i];
    assert CallOK(s, n) && CallOK(s, m);
    if Active(s.calls[n]) && Active(s.calls[m]) { OneActiveCall(s, n, m); }
  }

  /** A call that returned true did deliver, and every stored delivery of a call is of one that succeeded. */
  lemma TrueMeansDelivered(states: seq<State>, events: seq<Event>, i: nat, n: nat)
    requires Run(states, events) && i < |states| && n in states[i].calls
    ensures var c := states[i].calls[n]; c.phase.Returned? && c.phase.answer.done ==> c.outcome == Some(true)
  {
    RunKeepsInvariant(states, events, i);
    assert CallOK(states[i], n);
  }

  /** A step leaves every other key alone. */
  lemma OtherKeysUntouched(s: State, e: Event, k: Key)
    requires Invariant(s) && Enabled(s, e) && !e.Enter? && s.calls[e.n].key != k
    ensures var u := After(s, e);
            && (k in u.rows <==> k in s.rows) && (k in s.rows ==> u.rows[k] == s.rows[k])
            && forall n :: n != e.n ==> (n in u.calls <==> n in s.calls) && (n in s.calls ==> u.calls[n] == s.calls[n])
  {
    assert CallOK(s, e.n);
  }

  /** A delivered row stays as it is for ever. */
  lemma DeliveredStays(s: State, e: Event, k: Key)
    requires Invariant(s) && Enabled(s, e) && k in s.rows && s.rows[k].status == Delivered
    ensures k in After(s, e).rows && After(s, e).rows[k] == s.rows[k]
  {
    if e.n in s.calls { assert CallOK(s, e.n); }
  }

  // ---- runs without crashes and database errors ---------------------------------------------------------------

  predicate Clean(e: Event) {
    match e
    case InsertFails(_, _, _) => false
    case Reread(_, readable) => readable
    case Release(_, effective) => effective
    case Commit(_, effective) => effective
    case Crash(_) => false
    case _ => true
  }

  ghost predicate CleanRun(states: seq<State>, events: seq<Event>) {
    Run(states, events) && forall i :: 0 <= i < |events| ==> Clean(events[i])
  }

  predicate InFlight(c: Call) {
    !c.phase.Returned?
  }

  /** The row is of a call at work on it, or delivered. */
  ghost predicate Worked(s: State, k: Key)
    requires k in s.rows
  {
    && k in s.holder && s.holder[k] in s.calls
    && var c := s.calls[s.holder[k]];
       c.phase.Calling? || c.phase.Releasing? || c.phase.Committing? || (c.outcome == Some(true) && s.rows[k].status == Delivered)
  }

  ghost predicate Accounted(s: State, k: Key) {
    && (k in s.rows ==> Worked(s, k))
    && (forall n :: n in s.calls && s.calls[n].key == k && s.calls[n].phase.Returned? && s.calls[n].outcome == Some(true) ==>
          k in s.rows && s.rows[k].status == Delivered)
  }

  lemma CleanStepAccounts(s: State, e: Event, k: Key)
    requires Invariant(s) && Enabled(s, e) && Clean(e) && Accounted(s, k)
    ensures Accounted(After(s, e), k)
  {
    if e.n in s.calls { assert CallOK(s, e.n); }
    if k in s.holder { assert RowOK(s, k) && CallOK(s, s.holder[k]); }
  }

  lemma {:induction false} CleanRunAccounts(states: seq<State>, events: seq<Event>, i: nat, k: Key)
    requires CleanRun(states, events) && i < |states| && k !in states[0].rows
    ensures Invariant(states[i]) && Accounted(states[i], k)
  {
    RunKeepsInvariant(states, events, i);
    if i > 0 {
      RunKeepsInvariant(states, events, i - 1);
      CleanRunAccounts(states, events, i - 1, k);
      hide Invariant, Accounted, After, Enabled;
      CleanStepAccounts(states[i - 1], events[i - 1], k);
    }
  }

  ghost predicate Succeeded(s: State, n: nat, k: Key) {
    n in s.calls && s.calls[n].key == k && s.calls[n].outcome == Some(true)
  }

  /** At rest, a key that was new has a row exactly when one `deliver` for it succeeded, and only one did;
      the row is then delivered. */
  lemma AtRestRowMeansDelivered(states: seq<State>, events: seq<Event>, i: nat, k: Key)
    requires CleanRun(states, events) && i < |states| && k !in states[0].rows
    requires forall n :: n in states[i].calls && states[i].calls[n].key == k ==> !InFlight(states[i].calls[n])
    ensures var s := states[i];
            && (k in s.rows <==> exists n :: Succeeded(s, n, k))
            && (k in s.rows ==> s.rows[k].status == Delivered)
            && (forall n, m :: Succeeded(s, n, k) && Succeeded(s, m, k) ==> n == m)
  {
    CleanRunAccounts(states, events, i, k);
    var s := states[i];
    if k in s.rows {
      assert RowOK(s, k);
      assert Succeeded(s, s.holder[k], k);
    }
    forall n, m | Succeeded(s, n, k) && Succeeded(s, m, k) ensures n == m {
      assert CallOK(s, n) && CallOK(s, m);
    }
  }

  // ---- what (false, nil) means --------------------------------------------------------------------------------

  /** No holder of the key releases its row at events i to j. */
  ghost predicate NoRelease(states: seq<State>, events: seq<Event>, i: nat, j: nat, k: Key)
    requires Run(states, events) && i <= j <= |events|
  {
    forall x :: i <= x < j && events[x].Release? ==> states[x].calls[events[x].n].key != k
  }

  lemma RowSurvives(s: State, e: Event, k: Key)
    requires Invariant(s) && Enabled(s, e) && k in s.rows && (e.Release? ==> s.calls[e.n].key != k)
    ensures k in After(s, e).rows
  {
    if e.n in s.calls { assert CallOK(s, e.n); }
  }

  lemma {:induction false} RowStays(states: seq<State>, events: seq<Event>, i: nat, j: nat, k: Key)
    requires Run(states, events) && i <= j <= |events| && k in states[i].rows && NoRelease(states, events, i, j, k)
    ensures k in states[j].rows
    decreases j
  {
    if i < j {
      RowStays(states, events, i, j - 1, k);
      RunKeepsInvariant(states, events, j - 1);
      RowSurvives(states[j - 1], events[j - 1], k);
    }
  }

  lemma {:induction false} CallKeepsKey(states: seq<State>, events: seq<Event>, i: nat, j: nat, n: nat)
    requires Run(states, events) && i <= j <= |events| && n in states[i].calls
    ensures n in states[j].calls && states[j].calls[n].key == states[i].calls[n].key
    decreases j
  {
    if i < j { CallKeepsKey(states, events, i, j - 1, n); }
  }

  /** A call that conflicts at event i and re-reads at event j, with no release in between, answers
      (false, nil) exactly when the key is delivered. */
  lemma AlreadyMeansDelivered(states: seq<State>, events: seq<Event>, i: nat, j: nat, n: nat, k: Key)
    requires Run(states, events) && i < j < |events| && events[i].Insert? && events[i].n == n && events[j] == Reread(n, true)
    requires n in states[i].calls && states[i].calls[n].key == k && k in states[i].rows && NoRelease(states, events, i, j, k)
    ensures n in states[j + 1].calls
    ensures states[j + 1].calls[n].phase == Returned(Answer(false, None)) <==> k in states[j].rows && states[j].rows[k].status == Delivered
  {
    RowStays(states, events, i, j, k);
    CallKeepsKey(states, events, i, j, n);
  }

  /** Whatever was released in between: a call that conflicts and re-reads answers (false, nil) exactly when it
      re-reads no row or a delivered one, and no row only if a holder's failed `deliver` released it meanwhile. */
  lemma AlreadyMeansDeliveredOrReleased(states: seq<State>, events: seq<Event>, i: nat, j: nat, n: nat, k: Key)
    requires Run(states, events) && i < j < |events| && events[i].Insert? && events[i].n == n && events[j] == Reread(n, true)
    requires n in states[i].calls && states[i].calls[n].key == k && k in states[i].rows
    ensures n in states[j + 1].calls
    ensures states[j + 1].calls[n].phase == Returned(Answer(false, None)) <==> k !in states[j].rows || states[j].rows[k].status == Delivered
    ensures k !in states[j].rows ==>
              exists x :: i <= x < j && events[x].Release? && events[x].n in states[x].calls
                          && states[x].calls[events[x].n].key == k && states[x].calls[events[x].n].outcome == Some(false)
  {
    CallKeepsKey(states, events, i, j, n);
    if k !in states[j].rows {
      if NoRelease(states, events, i, j, k) { RowStays(states, events, i, j, k); }
      var x :| i <= x < j && events[x].Release? && states[x].calls[events[x].n].key == k;
      RunKeepsInvariant(states, events, x);
      assert CallOK(states[x], events[x].n);
    }
  }

  const ORDER := Order("o", "u", 100)

  /** A run in which the second caller conflicts while the first is at work. */
  lemma {:induction false} WindowOpens(k: Key) returns (s: State, states: seq<State>)
    requires k.1 != ""
    ensures s == State(map[k := Row(1, ORDER, Delivering)], map[0 := Call(k, ORDER, Calling(1), true, None), 1 := Call(k, ORDER, Conflicted, false, None)], map[k := 0])
    ensures CleanRun(states, [Enter(0, k, ORDER), Insert(0, 1), Enter(1, k, ORDER), Insert(1, 2)]) && |states| == 5 && states[4] == s
  {
    var s0 := State(map[], map[], map[]);
    var s1 := After(s0, Enter(0, k, ORDER));
    var s2 := After(s1, Insert(0, 1));
    var s3 := After(s2, Enter(1, k, ORDER));
    s := After(s3, Insert(1, 2));
    states := [s0, s1, s2, s3, s];
  }

  /** In the window the hypothesis excludes, (false, nil) is answered for a key that nobody delivered: the
      first caller's `deliver` fails and releases the row between the second's conflict and re-read. */
  lemma {:induction false} AlreadyWithoutDelivery(k: Key) returns (states: seq<State>, events: seq<Event>)
    requires k.1 != ""
    ensures CleanRun(states, events) && |events| == 7
    ensures 1 in states[7].calls && states[7].calls[1].phase == Returned(Answer(false, None)) && k !in states[7].rows
    ensures forall n :: !Succeeded(states[7], n, k)
  {
    var s4, front := WindowOpens(k);
    var s5 := After(s4, Deliver(0, false));
    var s6 := After(s5, Release(0, true));
    var s7 := After(s6, Reread(1, true));
    var before := [Enter(0, k, ORDER), Insert(0, 1), Enter(1, k, ORDER), Insert(1, 2)];
    states, events := front + [s5, s6, s7], before + [Deliver(0, false), Release(0, true), Reread(1, true)];
    hide After, Enabled;
    assert forall i :: 0 <= i < 5 ==> states[i] == front[i];
    assert forall i :: 0 <= i < 4 ==> events[i] == before[i];
  }

  // ---- one call alone is a run of the machine -------------------------------------------------------------------

  ghost predicate Path(s: State, events: seq<Event>, u: State)
    decreases |events|
  {
    if events == [] then s == u else Enabled(s, events[0]) && Path(After(s, events[0]), events[1..], u)
  }

  /** The sequential `Once` is what the machine does when nothing interleaves and nothing fails. */
  lemma {:induction false} AloneIsPath(s: State, n: nat, id: nat, key: Key, order: Order, fails: bool) returns (events: seq<Event>, u: State)
    requires PrimaryKey(s.rows) && n !in s.calls && FreshID(s.rows, id)
    ensures Path(s, events, u) && forall i :: 0 <= i < |events| ==> Clean(events[i])
    ensures n in u.calls && u.calls[n].phase == Returned(Alone(s.rows, key, id, order, fails).0)
    ensures u.rows == Alone(s.rows, key, id, order, fails).1
  {
    var enter := Enter(n, key, order);
    var s1 := After(s, enter);
    if key.1 == "" {
      events, u := [], s1;
    } else if key in s.rows {
      events, u := AloneConflicts(s1, n, id);
    } else {
      events, u := AloneInserts(s1, n, id, fails);
    }
    PathStep(s, enter, events, u);
    events := [enter] + events;
  }

  lemma {:induction false} AloneConflicts(s: State, n: nat, id: nat) returns (events: seq<Event>, u: State)
    requires n in s.calls && s.calls[n].phase.Starting? && FreshID(s.rows, id) && s.calls[n].key in s.rows
    ensures |events| == 2 && Clean(events[0]) && Clean(events[1]) && Path(s, events, u)
    ensures n in u.calls && u.calls[n].phase == Returned(Answer(false, if s.rows[s.calls[n].key].status == Delivering then Some(Busy) else None))
    ensures u.rows == s.rows
  {
    var s1 := After(s, Insert(n, id));
    u := After(s1, Reread(n, true));
    PathStep(s1, Reread(n, true), [], u);
    PathStep(s, Insert(n, id), [Reread(n, true)], u);
    events := [Insert(n, id)] + [Reread(n, true)];
  }

  lemma {:induction false} AloneInserts(s: State, n: nat, id: nat, fails: bool) returns (events: seq<Event>, u: State)
    requires n in s.calls && s.calls[n].phase.Starting? && FreshID(s.rows, id) && s.calls[n].key !in s.rows
    ensures Path(s, events, u) && forall i :: 0 <= i < |events| ==> Clean(events[i])
    ensures n in u.calls && u.calls[n].phase == Returned(if fails then Answer(false, Some(DeliverFailed)) else Answer(true, None))
    ensures u.rows == if fails then s.rows else s.rows[s.calls[n].key := Row(id, s.calls[n].order, Delivered)]
  {
    var s1 := After(s, Insert(n, id));
    events, u := AloneDelivers(s1, n, id, fails);
    assert Released(s1.rows, id) == s.rows;
    assert Committed(s1.rows, id) == s.rows[s.calls[n].key := Row(id, s.calls[n].order, Delivered)];
    PathStep(s, Insert(n, id), events, u);
    events := [Insert(n, id)] + events;
  }

  lemma {:induction false} AloneDelivers(s: State, n: nat, id: nat, fails: bool) returns (events: seq<Event>, u: State)
    requires n in s.calls && s.calls[n].phase == Calling(id)
    ensures |events| == 2 && Clean(events[0]) && Clean(events[1]) && Path(s, events, u)
    ensures n in u.calls && u.calls[n].phase == Returned(if fails then Answer(false, Some(DeliverFailed)) else Answer(true, None))
    ensures u.rows == if fails then Released(s.rows, id) else Committed(s.rows, id)
  {
    var s1 := After(s, Deliver(n, !fails));
    var last := if fails then Release(n, true) else Commit(n, true);
    u := After(s1, last);
    PathStep(s1, last, [], u);
    PathStep(s, Deliver(n, !fails), [last], u);
    events := [Deliver(n, !fails)] + [last];
  }

  lemma {:induction false} PathStep(s: State, e: Event, rest: seq<Event>, u: State)
    requires Enabled(s, e) && Path(After(s, e), rest, u)
    ensures Path(s, [e] + rest, u)
  {
    assert ([e] + rest)[1..] == rest;
  }
}
