/** Refunds: each call queries the fee still left on the order and sends it along; the platform accepts a
    refund only while that fee is current (pay/xpay.go, pay/xpay_client.go). */
module Refunds {
  import opened Text
  import opened XPay

  const IOS_ORDER := 7
  const REFUND_RUNNING := 268490014
  const LEFT_FEE_MISMATCH := 268490016

  datatype Request = Request(refundID: string, fee: int)

  /** What the platform makes of a refund request. */
  datatype Verdict = Taken | Refused(code: int)

  datatype Reply = Processing | Failed

  /** What a call makes of the queried order: the left fee to send along, or none when it must stop. */
  function LeftToSend(orderType: int, left: int, r: Request): Option<int> {
    if orderType == IOS_ORDER || r.fee <= 0 || r.fee > left then None else Some(left)
  }

  /** What a call answers to a verdict; "already running" counts as started. */
  function Answer(v: Verdict): Reply {
    if v == Taken || v == Refused(REFUND_RUNNING) then Processing else Failed
  }

  /** An accepted refund: the call it came from, and what it debited. */
  datatype Debit = Debit(call: nat, refundID: string, fee: int)

  function Total(debits: seq<Debit>): int {
    if debits == [] then 0 else Total(debits[..|debits| - 1]) + debits[|debits| - 1].fee
  }

  // ---- one call at a time --------------------------------------------------------------------------------

  /** The platform's side of one order. */
  class Platform {
    const orderType: int
    var left: int
    var debits: seq<Debit>

    constructor (orderType: int, paid: int)
      ensures this.orderType == orderType && left == paid && debits == []
    {
      this.orderType := orderType;
      left, debits := paid, [];
    }

    /** A stale left fee is refused; `code` is a refusal for a reason of the platform's own, 0 for none. */
    method RefundOrder(sent: int, call: nat, r: Request, code: int) returns (verdict: Verdict)
      modifies this
      ensures verdict == if sent != old(left) then Refused(LEFT_FEE_MISMATCH) else if code != 0 then Refused(code) else Taken
      ensures left == old(left) - (if verdict.Taken? then r.fee else 0)
      ensures debits == old(debits) + if verdict.Taken? then [Debit(call, r.refundID, r.fee)] else []
    {
      if sent != left { return Refused(LEFT_FEE_MISMATCH); }
      if code != 0 { return Refused(code); }
      left, debits := left - r.fee, debits + [Debit(call, r.refundID, r.fee)];
      return Taken;
    }

    /** `Refund`, undisturbed. */
    method Refund(call: nat, r: Request, code: int) returns (reply: Reply)
      modifies this
      ensures Refunded(orderType, old(left), old(debits), call, r, code, reply, left, debits)
    {
      if !TradeNo(r.refundID) { return Failed; }
      var current := left;
      if orderType == IOS_ORDER { return Failed; }
      if r.fee <= 0 || r.fee > current { return Failed; }
      var verdict := RefundOrder(current, call, r, code);
      if verdict.Refused? && verdict.code != REFUND_RUNNING { return Failed; }
      return Processing;
    }
  }

  /** An undisturbed call is under way exactly when the request is well formed, the order allows it and the
      platform takes it or runs one already; only what it takes is debited. */
  ghost predicate Refunded(orderType: int, left: int, debits: seq<Debit>, call: nat, r: Request, code: int,
                           reply: Reply, left': int, debits': seq<Debit>) {
    && (reply == Processing <==> TradeNo(r.refundID) && LeftToSend(orderType, left, r).Some? && code in {0, REFUND_RUNNING})
    && left' == left - (if reply == Processing && code == 0 then r.fee else 0)
    && debits' == debits + if reply == Processing && code == 0 then [Debit(call, r.refundID, r.fee)] else []
  }

  // ---- many calls at once -----------------------------------------------------------------------------------

  datatype Phase = Asking | Holding(left: int) | Waiting | Finished(reply: Reply)

  datatype Call = Call(request: Request, phase: Phase)

  /** The platform's books, the calls, and the requests in transit: sent with a left fee, or decided. */
  datatype State = State(left: int, debits: seq<Debit>, calls: map<nat, Call>, sent: map<nat, int>, verdicts: map<nat, Verdict>)

  /** A query or a response may be lost; a request may reach the platform long after its call gave up. */
  datatype Event =
    | Enter(n: nat, request: Request)
    | Query(n: nat)
    | QueryFails(n: nat)
    | Send(n: nat)
    | Decide(n: nat, verdict: Verdict)
    | Hear(n: nat)
    | GiveUp(n: nat)

  /** The platform takes a refund only if the fee sent along is the current one. */
  predicate Enabled(s: State, e: Event) {
    match e
    case Enter(n, _) => n !in s.calls
    case Query(n) => n in s.calls && s.calls[n].phase.Asking?
    case QueryFails(n) => n in s.calls && s.calls[n].phase.Asking?
    case Send(n) => n in s.calls && s.calls[n].phase.Holding?
    case Decide(n, verdict) => n in s.calls && n in s.sent && (verdict.Taken? ==> s.sent[n] == s.left)
    case Hear(n) => n in s.calls && s.calls[n].phase.Waiting? && n in s.verdicts
    case GiveUp(n) => n in s.calls && s.calls[n].phase.Waiting?
  }

  function After(orderType: int, s: State, e: Event): State
    requires Enabled(s, e)
  {
    match e
    case Enter(n, request) => s.(calls := s.calls[n := Call(request, if TradeNo(request.refundID) then Asking else Finished(Failed))])
    case Query(n) =>
      var left := LeftToSend(orderType, s.left, s.calls[n].request);
      s.(calls := s.calls[n := s.calls[n].(phase := if left.None? then Finished(Failed) else Holding(left.value))])
    case QueryFails(n) => s.(calls := s.calls[n := s.calls[n].(phase := Finished(Failed))])
    case Send(n) => s.(calls := s.calls[n := s.calls[n].(phase := Waiting)], sent := s.sent[n := s.calls[n].phase.left])
    case Decide(n, verdict) =>
      var r := s.calls[n].request;
      var t := s.(sent := s.sent - {n}, verdicts := s.verdicts[n := verdict]);
      if verdict.Taken? then t.(left := s.left - r.fee, debits := s.debits + [Debit(n, r.refundID, r.fee)]) else t
    case Hear(n) => s.(calls := s.calls[n := s.calls[n].(phase := Finished(Answer(s.verdicts[n])))])
    case GiveUp(n) => s.(calls := s.calls[n := s.calls[n].(phase := Finished(Failed))])
  }

  ghost predicate Step(orderType: int, states: seq<State>, events: seq<Event>, i: nat)
    requires i < |events| && |states| == |events| + 1
  {
    Enabled(states[i], events[i]) && states[i + 1] == After(orderType, states[i], events[i])
  }

  ghost predicate Run(orderType: int, paid: int, states: seq<State>, events: seq<Event>) {
    && |states| == |events| + 1 && states[0] == State(paid, [], map[], map[], map[])
    && forall i :: 0 <= i < |events| ==> Step(orderType, states, events, i)
  }

  ghost predicate CallOK(s: State, n: nat)
    requires n in s.calls
  {
    var c := s.calls[n];
    && (c.phase.Asking? || c.phase.Holding? ==> n !in s.sent && n !in s.verdicts)
    && (c.phase.Holding? ==> 0 < c.request.fee <= c.phase.left && s.left <= c.phase.left)
    && (n in s.sent ==> n !in s.verdicts && 0 < c.request.fee <= s.sent[n] && s.left <= s.sent[n])
    && (c.phase == Finished(Processing) ==> n in s.verdicts && Answer(s.verdicts[n]) == Processing)
    && (n in s.verdicts && s.verdicts[n] == Taken ==> exists i :: 0 <= i < |s.debits| && s.debits[i].call == n)
  }

  ghost predicate DebitOK(s: State, d: Debit) {
    && d.call in s.calls && d.call in s.verdicts && s.verdicts[d.call] == Taken
    && d.fee == s.calls[d.call].request.fee && d.refundID == s.calls[d.call].request.refundID
  }

  ghost predicate Invariant(paid: int, s: State) {
    && s.left + Total(s.debits) == paid && 0 <= s.left
    && s.sent.Keys <= s.calls.Keys && s.verdicts.Keys <= s.calls.Keys
    && (forall n :: n in s.calls ==> CallOK(s, n))
    && (forall i :: 0 <= i < |s.debits| ==> DebitOK(s, s.debits[i]))
    && (forall i, j :: 0 <= i < j < |s.debits| ==> s.debits[i].call != s.debits[j].call)
  }

  lemma StepKeepsCall(orderType: int, paid: int, s: State, e: Event, n: nat)
    requires Invariant(paid, s) && Enabled(s, e) && n in After(orderType, s, e).calls
    ensures CallOK(After(orderType, s, e), n)
  {
    var u := After(orderType, s, e);
    if n in s.calls {
      assert CallOK(s, n);
      if n in s.verdicts && s.verdicts[n] == Taken {
        var i :| 0 <= i < |s.debits| && s.debits[i].call == n;
        assert u.debits[i].call == n;
      }
    }
    if e.n in s.calls { assert CallOK(s, e.n); }
    if e.Decide? && e.verdict.Taken? { assert u.debits[|s.debits|].call == e.n; }
  }

  lemma StepKeepsDebit(orderType: int, paid: int, s: State, e: Event, i: nat)
    requires Invariant(paid, s) && Enabled(s, e) && i < |After(orderType, s, e).debits|
    ensures var u := After(orderType, s, e);
            DebitOK(u, u.debits[i]) && forall j :: 0 <= j < i ==> u.debits[j].call != u.debits[i].call
  {
    if i < |s.debits| { assert DebitOK(s, s.debits[i]); }
    if e.n in s.calls { assert CallOK(s, e.n); }
    assert forall j :: 0 <= j < |s.debits| ==> DebitOK(s, s.debits[j]);
    hide Total, Answer, LeftToSend, TradeNo;
  }

  lemma StepConserves(orderType: int, paid: int, s: State, e: Event)
    requires Invariant(paid, s) && Enabled(s, e)
    ensures var u := After(orderType, s, e);
            && u.left + Total(u.debits) == paid && 0 <= u.left <= s.left
            && s.debits <= u.debits && (|u.debits| > |s.debits| ==> u.left < s.left)
  {
    if e.Decide? {
      assert CallOK(s, e.n);
      if e.verdict.Taken? { assert After(orderType, s, e).debits[..|s.debits|] == s.debits; }
    }
    hide CallOK, DebitOK, Answer, LeftToSend, TradeNo;
  }

  lemma StepKeepsDebits(orderType: int, paid: int, s: State, e: Event)
    requires Invariant(paid, s) && Enabled(s, e)
    ensures var u := After(orderType, s, e);
            && u.left + Total(u.debits) == paid && 0 <= u.left <= s.left
            && s.debits <= u.debits && (|u.debits| > |s.debits| ==> u.left < s.left)
            && (forall i :: 0 <= i < |u.debits| ==> DebitOK(u, u.debits[i]))
            && (forall i, j :: 0 <= i < j < |u.debits| ==> u.debits[i].call != u.debits[j].call)
  {
    StepConserves(orderType, paid, s, e);
    forall i | 0 <= i < |After(orderType, s, e).debits| { StepKeepsDebit(orderType, paid, s, e, i); }
    hide Invariant, After, Enabled, DebitOK, Total;
  }

  lemma StepKeepsInvariant(orderType: int, paid: int, s: State, e: Event)
    requires Invariant(paid, s) && Enabled(s, e)
    ensures Invariant(paid, After(orderType, s, e)) && After(orderType, s, e).left <= s.left
  {
    StepKeepsDebits(orderType, paid, s, e);
    forall n | n in After(orderType, s, e).calls { StepKeepsCall(orderType, paid, s, e, n); }
    hide CallOK, DebitOK, Total;
  }

  lemma {:induction false} RunKeepsInvariant(orderType: int, paid: int, states: seq<State>, events: seq<Event>, i: nat)
    requires Run(orderType, paid, states, events) && i < |states| && 0 <= paid
    ensures Invariant(paid, states[i])
  {
    if i > 0 {
      RunKeepsInvariant(orderType, paid, states, events, i - 1);
      assert Step(orderType, states, events, i - 1);
      hide Invariant, After, Enabled;
      StepKeepsInvariant(orderType, paid, states[i - 1], events[i - 1]);
    }
  }

  /** In every state of every run, what is left and what was refunded make up what was paid, and never more. */
  lemma RefundsConserve(orderType: int, paid: int, states: seq<State>, events: seq<Event>, i: nat)
    requires Run(orderType, paid, states, events) && i < |states| && 0 <= paid
    ensures states[i].left + Total(states[i].debits) == paid && 0 <= states[i].left <= paid && 0 <= Total(states[i].debits)
  {
    RunKeepsInvariant(orderType, paid, states, events, i);
    LeftNeverRises(orderType, paid, states, events, 0, i);
  }

  lemma {:induction false} LeftNeverRises(orderType: int, paid: int, states: seq<State>, events: seq<Event>, i: nat,
                                          j: nat)
    requires Run(orderType, paid, states, events) && i <= j < |states| && 0 <= paid
    ensures states[j].left <= states[i].left
    decreases j
  {
    if i < j {
      LeftNeverRises(orderType, paid, states, events, i, j - 1);
      RunKeepsInvariant(orderType, paid, states, events, j - 1);
      assert Step(orderType, states, events, j - 1);
      hide Invariant, After, Enabled;
      StepKeepsInvariant(orderType, paid, states[j - 1], events[j - 1]);
    }
  }

  /** A call debits at most once, and then exactly the fee it was asked to refund; one that reports the
      refund as under way was taken, or told that a refund is running. */
  lemma DebitsAreAsked(orderType: int, paid: int, states: seq<State>, events: seq<Event>, i: nat)
    requires Run(orderType, paid, states, events) && i < |states| && 0 <= paid
    ensures var s := states[i];
            && (forall k :: 0 <= k < |s.debits| ==> s.debits[k].call in s.calls && s.debits[k].fee == s.calls[s.debits[k].call].request.fee)
            && (forall k, l :: 0 <= k < l < |s.debits| ==> s.debits[k].call != s.debits[l].call)
            && (forall n :: n in s.calls && s.calls[n].phase == Finished(Processing) ==>
                  n in s.verdicts && (s.verdicts[n] == Refused(REFUND_RUNNING) || exists k :: 0 <= k < |s.debits| && s.debits[k].call == n))
  {
    RunKeepsInvariant(orderType, paid, states, events, i);
    var s := states[i];
    assert forall k :: 0 <= k < |s.debits| ==> DebitOK(s, s.debits[k]);
    assert forall n :: n in s.calls ==> CallOK(s, n);
  }

  /** The call cannot be taken any more: the fee it holds or sent is out of date, or it is over. */
  ghost predicate Spent(s: State, n: nat) {
    && n in s.calls && (n in s.verdicts ==> s.verdicts[n] != Taken)
    && match s.calls[n].phase
       case Asking => false
       case Holding(left) => s.left < left
       case _ => n in s.sent ==> s.left < s.sent[n]
  }

  lemma StepKeepsSpent(orderType: int, paid: int, s: State, e: Event, n: nat)
    requires Invariant(paid, s) && Enabled(s, e) && Spent(s, n)
    ensures Spent(After(orderType, s, e), n)
  {
    StepKeepsDebits(orderType, paid, s, e);
    assert CallOK(s, n);
  }

  /** A call whose queried fee is out of date never debits, however late its request arrives. */
  lemma {:induction false} StaleCallsNeverDebit(orderType: int, paid: int, states: seq<State>, events: seq<Event>,
                                                i: nat, j: nat, n: nat)
    requires Run(orderType, paid, states, events) && i <= j < |states| && 0 <= paid && Spent(states[i], n)
    ensures Spent(states[j], n) && forall k :: 0 <= k < |states[j].debits| ==> states[j].debits[k].call != n
    decreases j
  {
    RunKeepsInvariant(orderType, paid, states, events, j);
    hide Invariant, After, Enabled, Spent;
    if i < j {
      StaleCallsNeverDebit(orderType, paid, states, events, i, j - 1, n);
      RunKeepsInvariant(orderType, paid, states, events, j - 1);
      assert Step(orderType, states, events, j - 1);
      StepKeepsSpent(orderType, paid, states[j - 1], events[j - 1], n);
    }
    SpentNeverDebited(paid, states[j], n);
  }

  lemma SpentNeverDebited(paid: int, s: State, n: nat)
    requires Invariant(paid, s) && Spent(s, n)
    ensures forall k :: 0 <= k < |s.debits| ==> s.debits[k].call != n
  {
    assert forall k :: 0 <= k < |s.debits| ==> DebitOK(s, s.debits[k]);
  }

  /** The call is undecided and works with this left fee. */
  ghost predicate Reads(s: State, n: nat, left: int) {
    && n in s.calls && n !in s.verdicts && !s.calls[n].phase.Asking?
    && (s.calls[n].phase == Holding(left) || (n in s.sent && s.sent[n] == left && !s.calls[n].phase.Holding?))
  }

  ghost predicate OneMayWin(s: State, n: nat, m: nat, left: int) {
    (Reads(s, n, left) && Reads(s, m, left)) || Spent(s, n) || Spent(s, m)
  }

  lemma StepKeepsOneWinner(orderType: int, paid: int, s: State, e: Event, n: nat, m: nat, left: int)
    requires Invariant(paid, s) && Enabled(s, e) && OneMayWin(s, n, m, left) && n != m
    ensures OneMayWin(After(orderType, s, e), n, m, left)
  {
    if Spent(s, n) {
      StepKeepsSpent(orderType, paid, s, e, n);
    } else if Spent(s, m) {
      StepKeepsSpent(orderType, paid, s, e, m);
    } else {
      assert CallOK(s, n) && CallOK(s, m);
    }
  }

  /** Of two calls that work with the same left fee, at most one ever debits. */
  lemma {:induction false} OneReaderWins(orderType: int, paid: int, states: seq<State>, events: seq<Event>, i: nat,
                                         j: nat, n: nat, m: nat, left: int)
    requires Run(orderType, paid, states, events) && i <= j < |states| && 0 <= paid && n != m
    requires Reads(states[i], n, left) && Reads(states[i], m, left)
    ensures OneMayWin(states[j], n, m, left)
    ensures (forall k :: 0 <= k < |states[j].debits| ==> states[j].debits[k].call != n)
         || (forall k :: 0 <= k < |states[j].debits| ==> states[j].debits[k].call != m)
    decreases j
  {
    RunKeepsInvariant(orderType, paid, states, events, j);
    hide Invariant, After, Enabled, Spent;
    if i < j {
      OneReaderWins(orderType, paid, states, events, i, j - 1, n, m, left);
      RunKeepsInvariant(orderType, paid, states, events, j - 1);
      assert Step(orderType, states, events, j - 1);
      StepKeepsOneWinner(orderType, paid, states[j - 1], events[j - 1], n, m, left);
    }
    if Spent(states[j], n) {
      SpentNeverDebited(paid, states[j], n);
    } else if Spent(states[j], m) {
      SpentNeverDebited(paid, states[j], m);
    } else {
      ReadersNotDebited(paid, states[j], n, left);
    }
  }

  lemma ReadersNotDebited(paid: int, s: State, n: nat, left: int)
    requires Invariant(paid, s) && Reads(s, n, left)
    ensures forall k :: 0 <= k < |s.debits| ==> s.debits[k].call != n
  {
    assert forall k :: 0 <= k < |s.debits| ==> DebitOK(s, s.debits[k]);
  }

  /** Orders paid through Apple are never debited. */
  lemma {:induction false} AppleOrdersKeepTheirFee(paid: int, states: seq<State>, events: seq<Event>, i: nat)
    requires Run(IOS_ORDER, paid, states, events) && i < |states|
    ensures states[i].left == paid && states[i].debits == [] && states[i].sent == map[]
    ensures forall n :: n in states[i].calls ==> states[i].calls[n].phase.Asking? || states[i].calls[n].phase.Finished?
  {
    if i > 0 {
      AppleOrdersKeepTheirFee(paid, states, events, i - 1);
      assert Step(IOS_ORDER, states, events, i - 1);
    }
  }

  // ---- one call alone is a run of the machine -------------------------------------------------------------------

  ghost predicate Path(orderType: int, s: State, events: seq<Event>, u: State)
    decreases |events|
  {
    if events == [] then s == u else Enabled(s, events[0]) && Path(orderType, After(orderType, s, events[0]), events[1..], u)
  }

  lemma {:induction false} PathStep(orderType: int, s: State, e: Event, rest: seq<Event>, u: State)
    requires Enabled(s, e) && Path(orderType, After(orderType, s, e), rest, u)
    ensures Path(orderType, s, [e] + rest, u)
  {
    assert ([e] + rest)[1..] == rest;
  }

  /** What a call does after its query, undisturbed. */
  lemma {:induction false} AloneSends(orderType: int, s: State, n: nat, code: int) returns (events: seq<Event>, u: State)
    requires n in s.calls && s.calls[n].phase == Holding(s.left)
    ensures Path(orderType, s, events, u)
    ensures var r, verdict := s.calls[n].request, if code == 0 then Taken else Refused(code);
            && n in u.calls && u.calls[n].phase == Finished(Answer(verdict))
            && u.left == s.left - (if code == 0 then r.fee else 0)
            && u.debits == s.debits + if code == 0 then [Debit(n, r.refundID, r.fee)] else []
  {
    var verdict := if code == 0 then Taken else Refused(code);
    var s1 := After(orderType, s, Send(n));
    var s2 := After(orderType, s1, Decide(n, verdict));
    u := After(orderType, s2, Hear(n));
    PathStep(orderType, s2, Hear(n), [], u);
    PathStep(orderType, s1, Decide(n, verdict), [Hear(n)], u);
    events := [Decide(n, verdict)] + [Hear(n)];
    PathStep(orderType, s, Send(n), events, u);
    events := [Send(n)] + events;
  }

  /** The sequential `Refund` is what the machine does when nothing interleaves and nothing is lost. */
  lemma {:induction false} AloneIsPath(orderType: int, s: State, n: nat, r: Request, code: int, reply: Reply, left: int, debits: seq<Debit>)
    returns (events: seq<Event>, u: State)
    requires n !in s.calls && Refunded(orderType, s.left, s.debits, n, r, code, reply, left, debits)
    ensures Path(orderType, s, events, u)
    ensures n in u.calls && u.calls[n].phase == Finished(reply) && u.left == left && u.debits == debits
  {
    var s1 := After(orderType, s, Enter(n, r));
    if !TradeNo(r.refundID) {
      events, u := [], s1;
    } else {
      var s2 := After(orderType, s1, Query(n));
      if LeftToSend(orderType, s.left, r).None? {
        events, u := [], s2;
      } else {
        events, u := AloneSends(orderType, s2, n, code);
      }
      PathStep(orderType, s1, Query(n), events, u);
      events := [Query(n)] + events;
    }
    PathStep(orderType, s, Enter(n, r), events, u);
    events := [Enter(n, r)] + events;
  }
}
