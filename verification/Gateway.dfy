/** Forwarding a request to an upstream model: keys tried in turn, cooldowns for rate limits, and rounds of
    backing off (http/aigateway.go). */
module Gateway {
  import opened Text

  const MAX_ATTEMPTS := 3
  const MAX_BACKOFF_ROUNDS := 2
  const BACKOFF_BASE_SECONDS := 10
  const TOO_MANY_REQUESTS := 429

  datatype Outcome = TransportError | Status(code: int)

  /** The response is thrown away and the next key tried. */
  predicate Discarded(o: Outcome) {
    o.Status? && (o.code == TOO_MANY_REQUESTS || o.code >= 500)
  }

  predicate Failed(o: Outcome) {
    o.TransportError? || Discarded(o)
  }

  /** What happens around the gateway, by a clock that ticks with every attempt and every wait: the key
      selector, request building, the upstreams, and whether the caller has gone away. */
  datatype World = World(
    select: (nat, seq<string>) -> Option<string>,
    builds: (nat, string) -> bool,
    send: (nat, string) -> Outcome,
    cancelled: nat -> bool)

  datatype Send = Send(round: nat, key: string, outcome: Outcome)

  /** What was done so far: requests sent, keys put on cooldown, responses closed (by request number),
      seconds waited, and whether an error is remembered. */
  datatype Log = Log(sends: seq<Send>, cooldowns: seq<string>, closed: seq<nat>, waited: nat, failed: bool, clock: nat)

  datatype Verdict = Answered(key: string, code: int) | Cancelled | NoUsableKey | BuildFailed | LastError

  const NOTHING_DONE := Log([], [], [], 0, false, 0)

  /** The log after a request was sent and its outcome dealt with. */
  function Recorded(s: Log, round: nat, key: string, o: Outcome): Log {
    s.(sends := s.sends + [Send(round, key, o)],
       cooldowns := if o == Status(TOO_MANY_REQUESTS) then s.cooldowns + [key] else s.cooldowns,
       closed := if Discarded(o) then s.closed + [|s.sends|] else s.closed,
       failed := s.failed || Failed(o), clock := s.clock + 1)
  }

  /** The attempts of one round; no verdict when the round is used up. */
  function Attempts(w: World, s: Log, round: nat, tried: seq<string>, n: nat): (Log, Option<Verdict>)
    decreases n
  {
    if n == 0 then (s, None)
    else if w.cancelled(s.clock) then (s, Some(Cancelled))
    else
      var key := w.select(s.clock, tried);
      if key.None? then (s, if s.failed then None else Some(NoUsableKey))
      else if !w.builds(s.clock, key.value) then (s, Some(BuildFailed))
      else
        var o := w.send(s.clock, key.value);
        var t := Recorded(s, round, key.value, o);
        if Failed(o) then Attempts(w, t, round, tried + [key.value], n - 1)
        else (t, Some(Answered(key.value, o.code)))
  }

  function Rounds(w: World, s: Log, round: nat): (Log, Verdict)
    decreases MAX_BACKOFF_ROUNDS + 1 - round
  {
    if round > MAX_BACKOFF_ROUNDS then (s, LastError)
    else
      var t := if round > 0 then s.(waited := s.waited + round * BACKOFF_BASE_SECONDS, clock := s.clock + 1) else s;
      if round > 0 && w.cancelled(s.clock) then (t, Cancelled)
      else
        var (u, verdict) := Attempts(w, t, round, [], MAX_ATTEMPTS);
        if verdict.Some? then (u, verdict.value) else Rounds(w, u, round + 1)
  }

  /** The attempts of a round: keys not yet tried in it, one after another. */
  method TryKeys(w: World, start: Log, round: nat) returns (s: Log, verdict: Option<Verdict>)
    ensures (s, verdict) == Attempts(w, start, round, [], MAX_ATTEMPTS)
  {
    s := start;
    var tried: seq<string> := [];
    var attempt := 0;
    while attempt < MAX_ATTEMPTS
      invariant attempt <= MAX_ATTEMPTS
      invariant Attempts(w, s, round, tried, MAX_ATTEMPTS - attempt) == Attempts(w, start, round, [], MAX_ATTEMPTS)
    {
      if w.cancelled(s.clock) { return s, Some(Cancelled); }
      var selected := w.select(s.clock, tried);
      if selected.None? {
        if s.failed { return s, None; }
        return s, Some(NoUsableKey);
      }
      var key := selected.value;
      if !w.builds(s.clock, key) { return s, Some(BuildFailed); }
      tried := tried + [key];
      var o := w.send(s.clock, key);
      attempt := attempt + 1;
      ghost var before := s;
      var response := |s.sends|;
      s := s.(sends := s.sends + [Send(round, key, o)], clock := s.clock + 1);
      if o.TransportError? {
        s := s.(failed := true);
        assert s == Recorded(before, round, key, o);
        continue;
      }
      if o.code == TOO_MANY_REQUESTS {
        s := s.(closed := s.closed + [response]);
        s := s.(cooldowns := s.cooldowns + [key]);
        s := s.(failed := true);
        assert s == Recorded(before, round, key, o);
        continue;
      }
      if o.code >= 500 {
        s := s.(closed := s.closed + [response]);
        s := s.(failed := true);
        assert s == Recorded(before, round, key, o);
        continue;
      }
      assert s == Recorded(before, round, key, o);
      return s, Some(Answered(key, o.code));
    }
    return s, None;
  }

  /** `forwardWithRetry`, with what it does to the world on record. */
  method ForwardWithRetry(w: World) returns (verdict: Verdict, s: Log)
    ensures (s, verdict) == Rounds(w, NOTHING_DONE, 0)
  {
    s := NOTHING_DONE;
    hide Attempts;
    for round := 0 to MAX_BACKOFF_ROUNDS + 1
      invariant round > 0 ==> s.failed
      invariant Rounds(w, s, round) == Rounds(w, NOTHING_DONE, 0)
    {
      if round > 0 {
        if !s.failed { assert false; }
        var gone := w.cancelled(s.clock);
        s := s.(waited := s.waited + round * BACKOFF_BASE_SECONDS, clock := s.clock + 1);
        if gone { return Cancelled, s; }
      }
      AttemptsRemember(w, s, round, [], MAX_ATTEMPTS);
      var t, answer := TryKeys(w, s, round);
      s := t;
      if answer.Some? { return answer.value, s; }
    }
    return LastError, s;
  }

  /** A round that ends without a verdict leaves an error behind: neither fallback for "no error" is reached. */
  lemma {:induction false} AttemptsRemember(w: World, s: Log, round: nat, tried: seq<string>, n: nat)
    ensures var (t, verdict) := Attempts(w, s, round, tried, n);
            (verdict.None? && n > 0 ==> t.failed) && (s.failed && verdict.None? ==> t.failed)
    decreases n
  {
    if n > 0 && !w.cancelled(s.clock) {
      var key := w.select(s.clock, tried);
      if key.Some? && w.builds(s.clock, key.value) {
        var o := w.send(s.clock, key.value);
        AttemptsRemember(w, Recorded(s, round, key.value, o), round, tried + [key.value], n - 1);
      }
    }
  }

  // ---- safety ---------------------------------------------------------------------------------------------

  function RateLimited(sends: seq<Send>): seq<string> {
    if sends == [] then [] else
      RateLimited(sends[..|sends| - 1]) + if sends[|sends| - 1].outcome == Status(TOO_MANY_REQUESTS) then [sends[|sends| - 1].key] else []
  }

  function DiscardedAt(sends: seq<Send>): seq<nat> {
    if sends == [] then [] else
      DiscardedAt(sends[..|sends| - 1]) + if Discarded(sends[|sends| - 1].outcome) then [|sends| - 1] else []
  }

  ghost predicate AllFailed(sends: seq<Send>) {
    forall i :: 0 <= i < |sends| ==> Failed(sends[i].outcome)
  }

  /** No key is sent to twice in a round. */
  ghost predicate OncePerRound(sends: seq<Send>) {
    forall i, j :: 0 <= i < j < |sends| && sends[i].round == sends[j].round ==> sends[i].key != sends[j].key
  }

  /** Cooldowns and closed responses are those the outcomes call for. */
  ghost predicate Faithful(s: Log) {
    s.cooldowns == RateLimited(s.sends) && s.closed == DiscardedAt(s.sends)
  }

  /** The selector never returns an excluded key. */
  ghost predicate Respects(w: World) {
    forall n, tried, key :: w.select(n, tried) == Some(key) ==> key !in tried
  }

  /** The keys of the round so far are all listed as tried. */
  ghost predicate Listed(sends: seq<Send>, round: nat, tried: seq<string>) {
    forall i :: 0 <= i < |sends| ==> sends[i].round <= round && (sends[i].round == round ==> sends[i].key in tried)
  }

  /** How a verdict sits with what was sent. */
  ghost predicate Fits(s: Log, v: Verdict) {
    match v
    case Answered(key, code) =>
      && s.sends != [] && AllFailed(s.sends[..|s.sends| - 1])
      && s.sends[|s.sends| - 1].key == key && s.sends[|s.sends| - 1].outcome == Status(code)
      && code != TOO_MANY_REQUESTS && code < 500 && |s.sends| - 1 !in s.closed
    case NoUsableKey => s.sends == [] && s.waited == 0
    case LastError => s.sends != [] && AllFailed(s.sends)
    case _ => AllFailed(s.sends)
  }

  lemma RecordedIsFaithful(s: Log, round: nat, key: string, o: Outcome)
    requires Faithful(s)
    ensures Faithful(Recorded(s, round, key, o))
    ensures AllFailed(s.sends) && Failed(o) ==> AllFailed(Recorded(s, round, key, o).sends)
  {
    assert Recorded(s, round, key, o).sends[..|s.sends|] == s.sends;
  }

  lemma {:induction false} DiscardedInRange(sends: seq<Send>)
    ensures forall i :: i in DiscardedAt(sends) ==> i < |sends|
  {
    if sends != [] { DiscardedInRange(sends[..|sends| - 1]); }
  }

  lemma RecordedOnce(s: Log, round: nat, tried: seq<string>, key: string, o: Outcome)
    requires OncePerRound(s.sends) && Listed(s.sends, round, tried) && key !in tried
    ensures OncePerRound(Recorded(s, round, key, o).sends) && Listed(Recorded(s, round, key, o).sends, round, tried + [key])
  {
  }

  /** What every round keeps. */
  ghost predicate Progress(w: World, s: Log, round: nat, tried: seq<string>) {
    && Faithful(s) && AllFailed(s.sends) && (s.failed <==> s.sends != [])
    && (Respects(w) ==> OncePerRound(s.sends) && Listed(s.sends, round, tried))
  }

  lemma ProgressStep(w: World, s: Log, round: nat, tried: seq<string>, key: string, o: Outcome)
    requires Progress(w, s, round, tried) && w.select(s.clock, tried) == Some(key)
    ensures var t := Recorded(s, round, key, o);
            && Faithful(t) && (Respects(w) ==> OncePerRound(t.sends))
            && (Failed(o) ==> Progress(w, t, round, tried + [key]))
            && (!Failed(o) ==> Fits(t, Answered(key, o.code)))
  {
    RecordedIsFaithful(s, round, key, o);
    if Respects(w) { RecordedOnce(s, round, tried, key, o); }
    DiscardedInRange(s.sends);
    assert Recorded(s, round, key, o).sends[..|s.sends|] == s.sends;
  }

  lemma {:induction false} AttemptsSafe(w: World, s: Log, round: nat, tried: seq<string>, n: nat)
    requires Progress(w, s, round, tried) && (round == 0 ==> s.waited == 0) && (round > 0 ==> s.failed)
    ensures var (t, verdict) := Attempts(w, s, round, tried, n);
            && |t.sends| <= |s.sends| + n && t.waited == s.waited
            && Faithful(t) && (Respects(w) ==> OncePerRound(t.sends))
            && (verdict.None? ==> AllFailed(t.sends) && (t.failed <==> t.sends != []) && (Respects(w) ==> Listed(t.sends, round + 1, [])))
            && (verdict.Some? ==> Fits(t, verdict.value))
    decreases n
  {
    hide Faithful, AllFailed, OncePerRound, Respects, Recorded, Failed;
    if n == 0 || w.cancelled(s.clock) || w.select(s.clock, tried).None? || !w.builds(s.clock, w.select(s.clock, tried).value) {
      if Respects(w) { NextRound(s.sends, round, tried); }
    } else {
      var key := w.select(s.clock, tried).value;
      var o := w.send(s.clock, key);
      ProgressStep(w, s, round, tried, key, o);
      RecordedGrows(s, round, key, o);
      if Failed(o) { AttemptsSafe(w, Recorded(s, round, key, o), round, tried + [key], n - 1); }
    }
  }

  lemma NextRound(sends: seq<Send>, round: nat, tried: seq<string>)
    requires Listed(sends, round, tried)
    ensures Listed(sends, round + 1, [])
  {
  }

  lemma RecordedGrows(s: Log, round: nat, key: string, o: Outcome)
    ensures |Recorded(s, round, key, o).sends| == |s.sends| + 1 && Recorded(s, round, key, o).waited == s.waited
    ensures s.failed ==> Recorded(s, round, key, o).failed
  {
  }

  lemma {:induction false} RoundsSafe(w: World, s: Log, round: nat)
    requires Progress(w, s, round, []) && round <= MAX_BACKOFF_ROUNDS + 1 && (round == 0 ==> s.waited == 0) && (round > 0 ==> s.failed)
    ensures var (t, verdict) := Rounds(w, s, round);
            && |t.sends| <= |s.sends| + MAX_ATTEMPTS * (MAX_BACKOFF_ROUNDS + 1 - round)
            && t.waited <= s.waited + (if round == 0 then 30 else if round == 1 then 30 else if round == 2 then 20 else 0)
            && Faithful(t) && (Respects(w) ==> OncePerRound(t.sends)) && Fits(t, verdict)
    decreases MAX_BACKOFF_ROUNDS + 1 - round
  {
    hide Faithful, AllFailed, OncePerRound, Respects, Attempts, Listed;
    if round <= MAX_BACKOFF_ROUNDS {
      var t := if round > 0 then s.(waited := s.waited + round * BACKOFF_BASE_SECONDS, clock := s.clock + 1) else s;
      SameSends(s, t);
      if !(round > 0 && w.cancelled(s.clock)) {
        AttemptsSafe(w, t, round, [], MAX_ATTEMPTS);
        AttemptsRemember(w, t, round, [], MAX_ATTEMPTS);
        var (u, verdict) := Attempts(w, t, round, [], MAX_ATTEMPTS);
        if verdict.None? { RoundsSafe(w, u, round + 1); }
      }
    }
  }

  lemma SameSends(s: Log, t: Log)
    requires t == s.(waited := t.waited, clock := t.clock)
    ensures Faithful(s) ==> Faithful(t)
  {
  }

  /** Whatever the world does: at most 9 requests and 30 seconds of waiting; with a selector that respects
      exclusions no key twice in a round; exactly the rate-limited keys put on cooldown and exactly the
      discarded responses closed; an answer is the last response and a usable one, everything before it
      having failed; and "no usable key" only when nothing was sent. */
  lemma ForwardingIsSafe(w: World)
    ensures var (s, verdict) := Rounds(w, NOTHING_DONE, 0);
            && |s.sends| <= 9 && s.waited <= 30
            && (Respects(w) ==> OncePerRound(s.sends))
            && s.cooldowns == RateLimited(s.sends) && s.closed == DiscardedAt(s.sends)
            && Fits(s, verdict)
  {
    RoundsSafe(w, NOTHING_DONE, 0);
  }

  // ---- liveness -------------------------------------------------------------------------------------------

  /** Asked in round 0, where a key is cooling down only if it was tried, the selector finds one of the
      eligible keys whenever one is left; later queries are left open. */
  ghost predicate Steady(w: World, eligible: set<string>) {
    forall n, tried {:trigger w.select(n, tried)} :: n == |tried| < MAX_ATTEMPTS ==>
      match w.select(n, tried)
      case Some(key) => key in eligible && key !in tried
      case None => forall key :: key in eligible ==> key in tried
  }

  /** Nobody hangs up, and every request can be built. */
  ghost predicate Unhindered(w: World) {
    (forall n :: !w.cancelled(n)) && forall n, key :: w.builds(n, key)
  }

  ghost function Keys(sends: seq<Send>): set<string> {
    set i | 0 <= i < |sends| :: sends[i].key
  }

  /** The first round so far: distinct eligible keys, one send each, all failed. */
  ghost predicate Trying(s: Log, tried: seq<string>, eligible: set<string>) {
    && s.clock == |tried| == |s.sends| == |Keys(s.sends)| && Keys(s.sends) == (set k | k in tried) && Keys(s.sends) <= eligible
    && AllFailed(s.sends) && (s.failed <==> s.sends != [])
  }

  /** The first round, when no verdict ends it, tries as many distinct eligible keys as it may, and all fail. */
  lemma {:induction false} RoundTriesKeys(w: World, s: Log, tried: seq<string>, n: nat, eligible: set<string>)
    requires Steady(w, eligible) && Unhindered(w) && eligible != {} && Trying(s, tried, eligible) && |tried| + n <= MAX_ATTEMPTS
    ensures var (t, verdict) := Attempts(w, s, 0, tried, n);
            && (verdict.None? ==>
                  && AllFailed(t.sends) && Keys(t.sends) <= eligible && |Keys(t.sends)| == |t.sends|
                  && (|t.sends| == |s.sends| + n || Keys(t.sends) == eligible))
            && (verdict.Some? ==> verdict.value.Answered?)
    decreases n
  {
    assert s.clock == |tried| == |s.sends|;
    if n > 0 {
      var key := w.select(s.clock, tried);
      if key.None? {
        assert Keys(s.sends) == eligible;
      } else {
        var o := w.send(s.clock, key.value);
        FreshKey(s, tried, key.value, o, eligible);
        hide Recorded, Keys, AllFailed, Failed, Trying, Steady;
        if Failed(o) { RoundTriesKeys(w, Recorded(s, 0, key.value, o), tried + [key.value], n - 1, eligible); }
      }
    }
  }

  lemma FreshKey(s: Log, tried: seq<string>, key: string, o: Outcome, eligible: set<string>)
    requires Trying(s, tried, eligible) && key !in tried && key in eligible
    ensures |Recorded(s, 0, key, o).sends| == |s.sends| + 1
    ensures Failed(o) ==> Trying(Recorded(s, 0, key, o), tried + [key], eligible)
  {
    RecordedKeys(s, 0, key, o);
  }

  lemma RecordedKeys(s: Log, round: nat, key: string, o: Outcome)
    ensures Keys(Recorded(s, round, key, o).sends) == Keys(s.sends) + {key}
  {
    var t := Recorded(s, round, key, o);
    assert t.sends[|s.sends|].key == key;
    assert forall i :: 0 <= i < |s.sends| ==> t.sends[i] == s.sends[i];
  }

  /** Unless a key answers, the first round sends to min(3, eligible) distinct keys; so with at most three
      eligible keys and one upstream that always answers, forwarding succeeds in that round. */
  lemma OneGoodUpstreamSuffices(w: World, eligible: set<string>, good: string)
    requires Steady(w, eligible) && Unhindered(w) && good in eligible
    ensures var (t, verdict) := Attempts(w, NOTHING_DONE, 0, [], MAX_ATTEMPTS);
            && (verdict.Some? ==> verdict.value.Answered?)
            && (verdict.None? ==> |Keys(t.sends)| == |t.sends| == if |eligible| < 3 then |eligible| else 3)
    ensures |eligible| <= 3 && Reliable(w, good) ==> Rounds(w, NOTHING_DONE, 0).1.Answered? && Rounds(w, NOTHING_DONE, 0).0.waited == 0
  {
    assert Trying(NOTHING_DONE, [], eligible);
    RoundTriesKeys(w, NOTHING_DONE, [], MAX_ATTEMPTS, eligible);
    var (t, verdict) := Attempts(w, NOTHING_DONE, 0, [], MAX_ATTEMPTS);
    if verdict.None? {
      SubsetSize(Keys(t.sends), eligible);
      if Reliable(w, good) { GoodNeverSentTo(w, NOTHING_DONE, [], MAX_ATTEMPTS, good); }
    } else {
      WaitedUnchanged(w, NOTHING_DONE, 0, [], MAX_ATTEMPTS);
    }
  }

  ghost predicate Reliable(w: World, key: string) {
    forall n :: !Failed(w.send(n, key))
  }

  lemma {:induction false} SubsetSize(a: set<string>, b: set<string>)
    requires a <= b
    ensures |a| <= |b| && (|a| == |b| ==> a == b)
  {
    if x :| x in a {
      SubsetSize(a - {x}, b - {x});
      assert a == a - {x} + {x} && b == b - {x} + {x};
    }
  }

  /** In a round without a verdict no reliable upstream was sent to. */
  lemma {:induction false} GoodNeverSentTo(w: World, s: Log, tried: seq<string>, n: nat, good: string)
    requires Reliable(w, good) && good !in Keys(s.sends)
    ensures var (t, verdict) := Attempts(w, s, 0, tried, n); verdict.None? ==> good !in Keys(t.sends)
    decreases n
  {
    if n > 0 && !w.cancelled(s.clock) {
      var key := w.select(s.clock, tried);
      if key.Some? && w.builds(s.clock, key.value) {
        var o := w.send(s.clock, key.value);
        RecordedKeys(s, 0, key.value, o);
        if Failed(o) { GoodNeverSentTo(w, Recorded(s, 0, key.value, o), tried + [key.value], n - 1, good); }
      }
    }
  }

  lemma {:induction false} WaitedUnchanged(w: World, s: Log, round: nat, tried: seq<string>, n: nat)
    ensures Attempts(w, s, round, tried, n).0.waited == s.waited
    decreases n
  {
    if n > 0 && !w.cancelled(s.clock) {
      var key := w.select(s.clock, tried);
      if key.Some? && w.builds(s.clock, key.value) {
        var o := w.send(s.clock, key.value);
        if Failed(o) { WaitedUnchanged(w, Recorded(s, round, key.value, o), round, tried + [key.value], n - 1); }
      }
    }
  }
}
