/** Rotating refresh tokens (http/oidc.go): each code grant founds a family, each refresh replaces one member
    by the next. Handlers run one at a time, except where the last section takes them apart. */
module RefreshTokens {
  import opened Text

  const REFRESH_TTL := 30 * 24 * 3600

  datatype TokenRow = TokenRow(principalID: string, tenantID: string, clientID: string, scope: string, expiresAt: int, revoked: bool)

  type Rows = map<string, TokenRow>

  datatype Client = Client(enable: bool, grantTypes: string, secret: string)

  datatype World = World(clients: map<string, Client>, verify: (string, string) -> bool)

  datatype Error = InvalidClient | UnauthorizedClient | InvalidGrant | InvalidRequest | ServerError

  datatype RefreshRequest = RefreshRequest(clientID: string, secret: string, token: string)

  predicate GrantAllowed(declared: string, grant: string) {
    declared == "" || exists g :: g in Split(declared) && Trim(g) == grant
  }

  predicate KnownClient(w: World, clientID: string, secret: string) {
    clientID in w.clients && w.clients[clientID].enable && w.clients[clientID].secret != "" && w.verify(w.clients[clientID].secret, secret)
  }

  /** The row a refresh may use: unrevoked, the client's own, and not expired. */
  predicate Usable(rows: Rows, clientID: string, token: string, now: int) {
    && token in rows && !rows[token].revoked && rows[token].clientID == clientID
    && (rows[token].expiresAt > 0 ==> now <= rows[token].expiresAt)
  }

  predicate MayRefresh(w: World, rows: Rows, r: RefreshRequest, now: int) {
    KnownClient(w, r.clientID, r.secret) && GrantAllowed(w.clients[r.clientID].grantTypes, "refresh_token") && Usable(rows, r.clientID, r.token, now)
  }

  /** `issueRefreshToken` with the random token it draws. */
  function Issued(rows: Rows, drawn: string, principalID: string, tenantID: string, clientID: string, scope: string,
                  now: int): Rows {
    rows[drawn := TokenRow(principalID, tenantID, clientID, scope, now + REFRESH_TTL, false)]
  }

  function Revoked(rows: Rows, token: string): Rows {
    if token in rows then rows[token := rows[token].(revoked := true)] else rows
  }

  /** Rotation: the successor carries principal, tenant, client and scope on; the predecessor is revoked. */
  function Rotated(rows: Rows, old_: TokenRow, token: string, drawn: string, now: int): Rows {
    Revoked(Issued(rows, drawn, old_.principalID, old_.tenantID, old_.clientID, old_.scope, now), token)
  }

  class TokenStore {
    var rows: Rows

    constructor ()
      ensures rows == map[]
    {
      rows := map[];
    }

    method Issue(drawn: string, principalID: string, tenantID: string, clientID: string, scope: string, now: int)
      modifies this
      ensures rows == Issued(old(rows), drawn, principalID, tenantID, clientID, scope, now)
    {
      rows := rows[drawn := TokenRow(principalID, tenantID, clientID, scope, now + REFRESH_TTL, false)];
    }

    /** `handleRefreshTokenGrant`: look up, sign an access token (if it can be `signed`), issue the successor,
        then revoke. */
    method Refresh(w: World, r: RefreshRequest, drawn: string, now: int, signed: bool) returns (result: Result<string, Error>)
      modifies this
      ensures result.Ok? <==> MayRefresh(w, old(rows), r, now) && signed
      ensures result == Err(ServerError) <==> MayRefresh(w, old(rows), r, now) && !signed
      ensures result.Ok? ==> result.value == drawn && rows == Rotated(old(rows), old(rows)[r.token], r.token, drawn, now)
      ensures result.Err? ==> rows == old(rows)
    {
      if !KnownClient(w, r.clientID, r.secret) { return Err(InvalidClient); }
      if !GrantAllowed(w.clients[r.clientID].grantTypes, "refresh_token") { return Err(UnauthorizedClient); }
      if r.token !in rows || rows[r.token].revoked { return Err(InvalidGrant); }
      var rt := rows[r.token];
      if rt.clientID != r.clientID { return Err(InvalidGrant); }
      if rt.expiresAt > 0 && now > rt.expiresAt { return Err(InvalidGrant); }
      if !signed { return Err(ServerError); }
      Issue(drawn, rt.principalID, rt.tenantID, r.clientID, rt.scope, now);
      rows := Revoked(rows, r.token);
      return Ok(drawn);
    }

    /** `oidcRevoke`. */
    method Revoke(token: string) returns (result: Result<(), Error>)
      modifies this
      ensures result.Ok? <==> token != ""
      ensures rows == if token == "" then old(rows) else Revoked(old(rows), token)
    {
      if token == "" { return Err(InvalidRequest); }
      rows := Revoked(rows, token);
      return Ok(());
    }
  }

  // ---- families ---------------------------------------------------------------------------------------------

  /** The rows, and which grant each token descends from. */
  datatype State = State(now: int, rows: Rows, family: map<string, nat>, grants: nat)

  /** A code grant founds a family; a refresh extends one; anyone may revoke. */
  datatype Event =
    | Tick(now: int)
    | Found(principalID: string, tenantID: string, clientID: string, scope: string, drawn: string)
    | Refresh(request: RefreshRequest, drawn: string)
    | Revoke(token: string)

  /** Tokens are drawn fresh. A refresh that is refused changes nothing and is left out. */
  predicate Enabled(w: World, s: State, e: Event) {
    match e
    case Tick(now) => s.now <= now
    case Found(_, _, _, _, drawn) => drawn !in s.rows
    case Refresh(r, drawn) => drawn !in s.rows && MayRefresh(w, s.rows, r, s.now)
    case Revoke(token) => token != ""
  }

  /** Every stored token belongs to a family. */
  ghost predicate Rooted(s: State) {
    forall t :: t in s.rows ==> t in s.family && s.family[t] < s.grants
  }

  function After(w: World, s: State, e: Event): State
    requires Enabled(w, s, e)
  {
    match e
    case Tick(now) => s.(now := now)
    case Found(principalID, tenantID, clientID, scope, drawn) =>
      State(s.now, Issued(s.rows, drawn, principalID, tenantID, clientID, scope, s.now), s.family[drawn := s.grants], s.grants + 1)
    case Refresh(r, drawn) =>
      State(s.now, Rotated(s.rows, s.rows[r.token], r.token, drawn, s.now),
            if r.token in s.family then s.family[drawn := s.family[r.token]] else s.family, s.grants)
    case Revoke(token) => s.(rows := Revoked(s.rows, token))
  }

  predicate SameParty(a: TokenRow, b: TokenRow) {
    a.principalID == b.principalID && a.tenantID == b.tenantID && a.clientID == b.clientID && a.scope == b.scope
  }

  predicate Kin(s: State, t: string, u: string) {
    t in s.rows && u in s.rows && t in s.family && u in s.family && s.family[t] == s.family[u]
  }

  /** At most one member of each family is unrevoked. */
  ghost predicate OneLive(s: State) {
    forall t, u :: Kin(s, t, u) && !s.rows[t].revoked && !s.rows[u].revoked ==> t == u
  }

  /** All members of a family are for the same client, principal, tenant and scope. */
  ghost predicate OneParty(s: State) {
    forall t, u :: Kin(s, t, u) ==> SameParty(s.rows[t], s.rows[u])
  }

  ghost predicate Invariant(s: State) {
    Rooted(s) && OneLive(s) && OneParty(s)
  }

  lemma StepKeepsInvariant(w: World, s: State, e: Event)
    requires Invariant(s) && Enabled(w, s, e)
    ensures Invariant(After(w, s, e))
  {
    StepKeepsOneLive(w, s, e);
    StepKeepsParty(w, s, e);
    hide After, Enabled, OneLive, OneParty, Rooted;
  }

  lemma StepKeepsOneLive(w: World, s: State, e: Event)
    requires Invariant(s) && Enabled(w, s, e)
    ensures OneLive(After(w, s, e))
  {
    hide GrantAllowed, KnownClient, OneParty;
  }

  lemma StepKeepsParty(w: World, s: State, e: Event)
    requires Rooted(s) && OneParty(s) && Enabled(w, s, e)
    ensures OneParty(After(w, s, e)) && Rooted(After(w, s, e))
  {
    hide GrantAllowed, KnownClient;
  }

  ghost predicate Step(w: World, states: seq<State>, events: seq<Event>, i: nat)
    requires i < |events| && |states| == |events| + 1
  {
    Enabled(w, states[i], events[i]) && states[i + 1] == After(w, states[i], events[i])
  }

  ghost predicate Run(w: World, states: seq<State>, events: seq<Event>) {
    && |states| == |events| + 1 && states[0] == State(states[0].now, map[], map[], 0)
    && forall i :: 0 <= i < |events| ==> Step(w, states, events, i)
  }

  /** In every sequential run each family has at most one unrevoked token, and one party throughout. */
  lemma {:induction false} FamiliesStayLinear(w: World, states: seq<State>, events: seq<Event>, i: nat)
    requires Run(w, states, events) && i < |states|
    ensures Rooted(states[i]) && OneLive(states[i]) && OneParty(states[i])
  {
    if i > 0 {
      FamiliesStayLinear(w, states, events, i - 1);
      assert Step(w, states, events, i - 1);
      hide After, Enabled, Rooted, OneLive, OneParty;
      StepKeepsInvariant(w, states[i - 1], events[i - 1]);
    }
  }

  // ---- handlers interleaved: one event per statement of a refresh -------------------------------------------------

  /** A refresh that has looked its token up, or has issued the successor and is about to revoke it. */
  datatype Handler = Holding(token: string, seen: TokenRow) | Retiring(token: string)

  datatype Shared = Shared(base: State, handlers: map<nat, Handler>)

  /** The statements of a refresh, and everything else. The revocation at its end may fail unnoticed, as when
      the process dies before it; a handler may stop before issuing. */
  datatype Statement =
    | Other(event: Event)
    | Lookup(n: nat, request: RefreshRequest)
    | Issue(n: nat, drawn: string)
    | Stop(n: nat)
    | Retire(n: nat, effective: bool)

  predicate Possible(w: World, s: Shared, e: Statement) {
    match e
    case Other(event) => !event.Refresh? && Enabled(w, s.base, event)
    case Lookup(n, r) => n !in s.handlers && MayRefresh(w, s.base.rows, r, s.base.now)
    case Issue(n, drawn) => n in s.handlers && s.handlers[n].Holding? && drawn !in s.base.rows
    case Stop(n) => n in s.handlers && s.handlers[n].Holding?
    case Retire(n, _) => n in s.handlers && s.handlers[n].Retiring?
  }

  function Next(w: World, s: Shared, e: Statement): Shared
    requires Possible(w, s, e)
  {
    match e
    case Other(event) => s.(base := After(w, s.base, event))
    case Lookup(n, r) => s.(handlers := s.handlers[n := Holding(r.token, s.base.rows[r.token])])
    case Issue(n, drawn) =>
      var h, b := s.handlers[n], s.base;
      var rows := Issued(b.rows, drawn, h.seen.principalID, h.seen.tenantID, h.seen.clientID, h.seen.scope, b.now);
      Shared(b.(rows := rows, family := if h.token in b.family then b.family[drawn := b.family[h.token]] else b.family),
             s.handlers[n := Retiring(h.token)])
    case Stop(n) => s.(handlers := s.handlers - {n})
    case Retire(n, effective) =>
      Shared(if effective then s.base.(rows := Revoked(s.base.rows, s.handlers[n].token)) else s.base, s.handlers - {n})
  }

  ghost predicate SharedStep(w: World, states: seq<Shared>, events: seq<Statement>, i: nat)
    requires i < |events| && |states| == |events| + 1
  {
    Possible(w, states[i], events[i]) && states[i + 1] == Next(w, states[i], events[i])
  }

  ghost predicate SharedRun(w: World, states: seq<Shared>, events: seq<Statement>) {
    && |states| == |events| + 1 && states[0] == Shared(State(states[0].base.now, map[], map[], 0), map[])
    && forall i :: 0 <= i < |events| ==> SharedStep(w, states, events, i)
  }

  /** The token can be used, and nobody is about to revoke it as replaced. */
  ghost predicate Current(s: Shared, t: string) {
    t in s.base.rows && !s.base.rows[t].revoked && forall n :: n in s.handlers ==> s.handlers[n] != Retiring(t)
  }

  /** At most one member of each family is current. */
  ghost predicate OneCurrent(s: Shared) {
    forall t, u :: Kin(s.base, t, u) && Current(s, t) && Current(s, u) ==> t == u
  }

  /** Every handler's token is stored, and what was seen of it is for its party. */
  ghost predicate HandlersOK(s: Shared) {
    forall n :: n in s.handlers ==>
      && s.handlers[n].token in s.base.rows
      && (s.handlers[n].Holding? ==> SameParty(s.handlers[n].seen, s.base.rows[s.handlers[n].token]))
  }

  ghost predicate SharedInvariant(s: Shared) {
    Rooted(s.base) && OneParty(s.base) && HandlersOK(s)
  }

  lemma NextKeepsHandlers(w: World, s: Shared, e: Statement)
    requires SharedInvariant(s) && Possible(w, s, e)
    ensures HandlersOK(Next(w, s, e))
  {
    hide OneParty, Rooted, KnownClient, GrantAllowed;
  }

  lemma NextKeepsParty(w: World, s: Shared, e: Statement)
    requires SharedInvariant(s) && Possible(w, s, e)
    ensures Rooted(Next(w, s, e).base) && OneParty(Next(w, s, e).base)
  {
    if e.Other? {
      StepKeepsParty(w, s.base, e.event);
    } else {
      hide KnownClient, GrantAllowed;
    }
  }

  /** Interleaved or not, all members of a family are for one client, principal, tenant and scope. */
  lemma {:induction false} FamiliesKeepTheirParty(w: World, states: seq<Shared>, events: seq<Statement>, i: nat)
    requires SharedRun(w, states, events) && i < |states|
    ensures SharedInvariant(states[i])
  {
    if i > 0 {
      FamiliesKeepTheirParty(w, states, events, i - 1);
      assert SharedStep(w, states, events, i - 1);
      hide SharedInvariant, Next, Possible;
      NextKeepsHandlers(w, states[i - 1], events[i - 1]);
      NextKeepsParty(w, states[i - 1], events[i - 1]);
      Together(states[i]);
    }
  }

  lemma Together(s: Shared)
    requires Rooted(s.base) && OneParty(s.base) && HandlersOK(s)
    ensures SharedInvariant(s)
  {
  }

  /** No other member of the token's family is current. */
  ghost predicate AloneCurrent(s: Shared, token: string) {
    forall t :: Kin(s.base, t, token) && Current(s, t) ==> t == token
  }

  /** The statement leaves families linear: a successor is issued while no other member is current; and a
      failing revocation leaves no second current member, because the token is revoked or about to be by another
      handler, or has no current kin. */
  ghost predicate Harmless(s: Shared, e: Statement) {
    match e
    case Issue(n, _) => n in s.handlers ==> AloneCurrent(s, s.handlers[n].token)
    case Retire(n, effective) =>
      || effective || n !in s.handlers
      || var token := s.handlers[n].token;
         || (token in s.base.rows && s.base.rows[token].revoked)
         || (exists m :: m in s.handlers && m != n && s.handlers[m] == Retiring(token))
         || AloneCurrent(s, token)
    case _ => true
  }

  lemma OtherKeepsCurrent(w: World, s: Shared, e: Event)
    requires SharedInvariant(s) && OneCurrent(s) && Possible(w, s, Other(e))
    ensures OneCurrent(Next(w, s, Other(e)))
  {
    var u := Next(w, s, Other(e));
    forall t, v | Kin(u.base, t, v) && Current(u, t) && Current(u, v) ensures t == v {
      if Kin(s.base, t, v) { assert Current(s, t) && Current(s, v); }
    }
  }

  lemma IssueExactly(w: World, s: Shared, n: nat, drawn: string)
    requires SharedInvariant(s) && OneCurrent(s) && Possible(w, s, Issue(n, drawn))
    ensures OneCurrent(Next(w, s, Issue(n, drawn))) <==> AloneCurrent(s, s.handlers[n].token)
  {
    var u, token := Next(w, s, Issue(n, drawn)), s.handlers[n].token;
    hide OneParty;
    assert forall t :: Current(u, t) <==> t == drawn || (t != token && Current(s, t)) by { CurrentAfterIssue(w, s, n, drawn); }
    hide Current;
    if AloneCurrent(s, token) {
      forall t, v | Kin(u.base, t, v) && Current(u, t) && Current(u, v) ensures t == v {
        assert t == drawn && v != drawn ==> Kin(s.base, v, token);
        assert v == drawn && t != drawn ==> Kin(s.base, t, token);
        assert t != drawn && v != drawn ==> Kin(s.base, t, v);
      }
    } else {
      var t :| Kin(s.base, t, token) && Current(s, t) && t != token;
      assert Kin(u.base, t, drawn) && t != drawn;
    }
  }

  lemma CurrentAfterIssue(w: World, s: Shared, n: nat, drawn: string)
    requires HandlersOK(s) && Possible(w, s, Issue(n, drawn))
    ensures forall t :: Current(Next(w, s, Issue(n, drawn)), t) <==> t == drawn || (t != s.handlers[n].token && Current(s, t))
  {
    var u, token := Next(w, s, Issue(n, drawn)), s.handlers[n].token;
    assert u.handlers[n] == Retiring(token);
    forall t ensures Current(u, t) <==> t == drawn || (t != token && Current(s, t)) {
      assert forall m :: m in u.handlers && m != n ==> u.handlers[m] == s.handlers[m];
    }
  }

  lemma RetireExactly(w: World, s: Shared, n: nat, effective: bool)
    requires SharedInvariant(s) && OneCurrent(s) && Possible(w, s, Retire(n, effective))
    ensures OneCurrent(Next(w, s, Retire(n, effective))) <==> Harmless(s, Retire(n, effective))
  {
    var u, token := Next(w, s, Retire(n, effective)), s.handlers[n].token;
    CurrentAfterRetire(w, s, n, effective);
    assert forall t, v :: Kin(u.base, t, v) <==> Kin(s.base, t, v);
    hide Current, SharedInvariant;
    if !Current(u, token) || AloneCurrent(s, token) {
      forall t, v | Kin(u.base, t, v) && Current(u, t) && Current(u, v) ensures t == v {
        assert Kin(s.base, t, v) && Kin(s.base, v, t);
      }
    } else {
      var t :| Kin(s.base, t, token) && Current(s, t) && t != token;
      assert Kin(u.base, t, token) && Current(u, t);
    }
  }

  lemma CurrentAfterRetire(w: World, s: Shared, n: nat, effective: bool)
    requires HandlersOK(s) && Possible(w, s, Retire(n, effective))
    ensures var u, token := Next(w, s, Retire(n, effective)), s.handlers[n].token;
            && (forall t :: t != token ==> (Current(u, t) <==> Current(s, t)))
            && (Current(u, token) <==> !effective && !s.base.rows[token].revoked && forall m :: m in s.handlers && m != n ==> s.handlers[m] != Retiring(token))
  {
    var u, token := Next(w, s, Retire(n, effective)), s.handlers[n].token;
    assert s.handlers[n] == Retiring(token);
    assert forall m :: m in u.handlers <==> m in s.handlers && m != n;
  }

  /** A statement keeps families linear exactly when it is harmless. */
  lemma NextKeepsOneCurrent(w: World, s: Shared, e: Statement)
    requires SharedInvariant(s) && OneCurrent(s) && Possible(w, s, e)
    ensures OneCurrent(Next(w, s, e)) <==> Harmless(s, e)
  {
    match e
    case Other(event) => OtherKeepsCurrent(w, s, event);
    case Issue(n, drawn) => IssueExactly(w, s, n, drawn);
    case Retire(n, effective) => RetireExactly(w, s, n, effective);
    case Lookup(n, r) => SameCurrent(s, Next(w, s, e));
    case Stop(n) => SameCurrent(s, Next(w, s, e));
  }

  lemma SameCurrent(s: Shared, u: Shared)
    requires OneCurrent(s) && u.base == s.base
    requires forall m, t :: m in s.handlers && s.handlers[m] == Retiring(t) ==> m in u.handlers && u.handlers[m] == Retiring(t)
    ensures OneCurrent(u)
  {
    forall t, v | Kin(u.base, t, v) && Current(u, t) && Current(u, v) ensures t == v {
      assert Current(s, t) && Current(s, v);
    }
  }

  /** Over every run of interleaved handlers: families are linear throughout exactly when every statement was
      harmless. */
  lemma {:induction false} LinearExactly(w: World, states: seq<Shared>, events: seq<Statement>, n: nat)
    requires SharedRun(w, states, events) && n < |states|
    ensures (forall i :: 0 <= i <= n ==> OneCurrent(states[i])) <==> forall i :: 0 <= i < n ==> Harmless(states[i], events[i])
  {
    if n > 0 {
      LinearExactly(w, states, events, n - 1);
      FamiliesKeepTheirParty(w, states, events, n - 1);
      assert SharedStep(w, states, events, n - 1);
      hide OneCurrent, Harmless, SharedInvariant, Next, Possible;
      if OneCurrent(states[n - 1]) { NextKeepsOneCurrent(w, states[n - 1], events[n - 1]); }
      assert (forall i :: 0 <= i <= n ==> OneCurrent(states[i])) <==> (forall i :: 0 <= i <= n - 1 ==> OneCurrent(states[i])) && OneCurrent(states[n]);
      assert (forall i :: 0 <= i < n ==> Harmless(states[i], events[i])) <==>
             (forall i :: 0 <= i < n - 1 ==> Harmless(states[i], events[i])) && Harmless(states[n - 1], events[n - 1]);
    }
  }

  /** With no handler at work, current means unrevoked. */
  lemma AtRestLinear(s: Shared)
    requires s.handlers == map[]
    ensures OneCurrent(s) <==> OneLive(s.base)
  {
    assert forall t :: t in s.base.rows ==> (Current(s, t) <==> !s.base.rows[t].revoked);
  }

  /** The sequential refresh is what its statements do in a row. */
  lemma RefreshIsPath(w: World, s: Shared, n: nat, r: RefreshRequest, drawn: string)
    requires n !in s.handlers && Enabled(w, s.base, Refresh(r, drawn))
    ensures Possible(w, s, Lookup(n, r))
    ensures var s1 := Next(w, s, Lookup(n, r));
            && Possible(w, s1, Issue(n, drawn))
            && var s2 := Next(w, s1, Issue(n, drawn));
               && Possible(w, s2, Retire(n, true))
               && Next(w, s2, Retire(n, true)) == Shared(After(w, s.base, Refresh(r, drawn)), s.handlers)
  {
    hide KnownClient, GrantAllowed;
    var s2 := Next(w, Next(w, s, Lookup(n, r)), Issue(n, drawn));
    assert Next(w, s2, Retire(n, true)).handlers == s.handlers;
  }

  /** The state in which two handlers hold the one token there is. */
  function BothHold(r: RefreshRequest, p: string): Shared {
    var row := TokenRow(p, "", r.clientID, "", REFRESH_TTL, false);
    Shared(State(0, map[r.token := row], map[r.token := 0], 1), map[0 := Holding(r.token, row), 1 := Holding(r.token, row)])
  }

  lemma {:induction false} BothLookUp(w: World, r: RefreshRequest, p: string) returns (states: seq<Shared>)
    requires KnownClient(w, r.clientID, r.secret) && GrantAllowed(w.clients[r.clientID].grantTypes, "refresh_token")
    ensures SharedRun(w, states, [Other(Found(p, "", r.clientID, "", r.token)), Lookup(0, r), Lookup(1, r)]) && |states| == 4 && states[3] == BothHold(r, p)
  {
    hide KnownClient, GrantAllowed;
    var s0 := Shared(State(0, map[], map[], 0), map[]);
    var s1 := Next(w, s0, Other(Found(p, "", r.clientID, "", r.token)));
    var s2 := Next(w, s1, Lookup(0, r));
    states := [s0, s1, s2, Next(w, s2, Lookup(1, r))];
  }

  lemma RunGrows(w: World, states: seq<Shared>, events: seq<Statement>, e: Statement)
    requires SharedRun(w, states, events) && Possible(w, states[|events|], e)
    ensures SharedRun(w, states + [Next(w, states[|events|], e)], events + [e])
  {
    hide Next, Possible;
    var states', events' := states + [Next(w, states[|events|], e)], events + [e];
    forall i | 0 <= i < |events'| ensures SharedStep(w, states', events', i) {
      if i < |events| { assert SharedStep(w, states, events, i); }
    }
  }

  /** Two handlers look one token up before either rotates it: in this run the family forks. */
  lemma {:induction false} TwoHandlersFork(w: World, r: RefreshRequest, p: string, first: string, second: string) returns (states: seq<Shared>, events: seq<Statement>)
    requires KnownClient(w, r.clientID, r.secret) && GrantAllowed(w.clients[r.clientID].grantTypes, "refresh_token")
    requires first != r.token && second != r.token && first != second
    ensures SharedRun(w, states, events) && |events| == 7 && states[7].handlers == map[]
    ensures events[3..] == [Issue(0, first), Retire(0, true), Issue(1, second), Retire(1, true)]
    ensures Kin(states[7].base, first, second) && Live(states[7].base, first) && Live(states[7].base, second) && !OneLive(states[7].base)
  {
    states := BothLookUp(w, r, p);
    events := [Other(Found(p, "", r.clientID, "", r.token)), Lookup(0, r), Lookup(1, r)];
    var s4 := Next(w, BothHold(r, p), Issue(0, first));
    var s5 := Next(w, s4, Retire(0, true));
    var s6 := Next(w, s5, Issue(1, second));
    var s7 := Next(w, s6, Retire(1, true));
    assert Kin(s7.base, first, second) && Live(s7.base, first) && Live(s7.base, second) && s7.handlers == map[];
    hide Next, KnownClient, GrantAllowed, SharedRun, BothHold, Kin, Live;
    RunGrows(w, states, events, Issue(0, first));
    states, events := states + [s4], events + [Issue(0, first)];
    RunGrows(w, states, events, Retire(0, true));
    states, events := states + [s5], events + [Retire(0, true)];
    RunGrows(w, states, events, Issue(1, second));
    states, events := states + [s6], events + [Issue(1, second)];
    RunGrows(w, states, events, Retire(1, true));
    states, events := states + [s7], events + [Retire(1, true)];
    assert SharedRun(w, states, events) ==> |states| == |events| + 1 by { CountStates(w, states, events); }
  }

  lemma CountStates(w: World, states: seq<Shared>, events: seq<Statement>)
    ensures SharedRun(w, states, events) ==> |states| == |events| + 1
  {
  }

  ghost predicate Live(s: State, t: string) {
    t in s.rows && !s.rows[t].revoked
  }
}
