/** One-time authorization codes with PKCE: issuing, redeeming, and every interleaving of the two
    (http/oidc.go). Times are in seconds. */
module AuthCodes {
  import opened Text

  const CODE_TTL := 60

  datatype User = User(id: string, name: string, tenantID: string)

  datatype AuthCode = AuthCode(
    clientID: string, redirectURI: string, scope: string, user: User, challenge: string, challengeMethod: string,
    nonce: string, expiresAt: int, consumed: bool)

  type Codes = map<string, AuthCode>

  datatype Client = Client(enable: bool, redirectURIs: string, secret: string)

  type Clients = map<string, Client>

  /** The registered clients, how a secret is verified, and the base64url digest of a verifier. */
  datatype World = World(clients: Clients, verify: (string, string) -> bool, digest: string -> string)

  datatype AuthorizeRequest = AuthorizeRequest(
    clientID: string, redirectURI: string, scope: string, challenge: string, challengeMethod: string, nonce: string)

  /** The form of a token request; the endpoint never reads the redirect URI. */
  datatype TokenRequest = TokenRequest(clientID: string, secret: string, code: string, verifier: string, redirectURI: string)

  /** What a token response is about. */
  datatype Grant = Grant(code: string, clientID: string, scope: string, user: User, nonce: string)

  datatype Error = InvalidClient | InvalidRequest | InvalidGrant | ServerError

  predicate URIAllowed(allowed: string, target: string) {
    exists u :: u in Split(allowed) && Trim(u) == target
  }

  function VerifyPKCE(w: World, verifier: string, challenge: string, challengeMethod: string): bool {
    verifier != "" && challenge != "" && challengeMethod == "S256" && w.digest(verifier) == challenge
  }

  /** Why an authorization is refused. */
  function AuthorizeRefusal(w: World, r: AuthorizeRequest): Option<Error> {
    if r.clientID == "" || r.redirectURI == "" then Some(InvalidRequest)
    else if r.clientID !in w.clients || !w.clients[r.clientID].enable then Some(InvalidClient)
    else if !URIAllowed(w.clients[r.clientID].redirectURIs, r.redirectURI) then Some(InvalidRequest)
    else if r.challenge == "" || r.challengeMethod != "S256" then Some(InvalidRequest) else None
  }

  predicate KnownClient(w: World, r: TokenRequest) {
    r.clientID in w.clients && w.clients[r.clientID].enable
    && w.clients[r.clientID].secret != "" && w.verify(w.clients[r.clientID].secret, r.secret)
  }

  function NewCode(r: AuthorizeRequest, user: User, now: int): AuthCode {
    AuthCode(r.clientID, r.redirectURI, r.scope, user, r.challenge, r.challengeMethod, r.nonce, now + CODE_TTL, false)
  }

  function Unexpired(codes: Codes, now: int): Codes {
    map k | k in codes && now <= codes[k].expiresAt :: codes[k]
  }

  /** The store after a code is issued: with the new entry, and purged of expired ones. */
  function Issued(codes: Codes, code: string, entry: AuthCode, now: int): Codes {
    Unexpired(codes[code := entry], now)
  }

  predicate Redeemable(codes: Codes, code: string, now: int) {
    code in codes && now <= codes[code].expiresAt && !codes[code].consumed
  }

  /** The checks on a code that was taken out of the store. */
  predicate Passes(w: World, r: TokenRequest, entry: AuthCode) {
    entry.clientID == r.clientID && (entry.challenge != "" ==> VerifyPKCE(w, r.verifier, entry.challenge, entry.challengeMethod))
  }

  function GrantOf(code: string, entry: AuthCode): Grant {
    Grant(code, entry.clientID, entry.scope, entry.user, entry.nonce)
  }

  // ---- the store -------------------------------------------------------------------------------------------

  class AuthCodeStore {
    var codes: Codes

    constructor ()
      ensures codes == map[]
    {
      codes := map[];
    }

    /** `issueAuthCode`, under its lock. */
    method Issue(r: AuthorizeRequest, user: User, code: string, now: int)
      modifies this
      ensures codes == Issued(old(codes), code, NewCode(r, user, now), now)
    {
      codes := codes[code := AuthCode(r.clientID, r.redirectURI, r.scope, user, r.challenge, r.challengeMethod, r.nonce, now + CODE_TTL, false)];
      Purge(now);
    }

    /** The sweep over the store while the lock is held. */
    method Purge(now: int)
      modifies this
      ensures codes == Unexpired(old(codes), now)
    {
      var keys := codes.Keys;
      while keys != {}
        invariant keys <= codes.Keys <= old(codes).Keys
        invariant forall k :: k in codes ==> codes[k] == old(codes)[k]
        invariant forall k :: k in old(codes) && k !in keys ==> (k in codes <==> now <= old(codes)[k].expiresAt)
        decreases |keys|
      {
        var k :| k in keys;
        if now > codes[k].expiresAt { codes := codes - {k}; }
        keys := keys - {k};
      }
    }

    /** `consumeAuthCode`, under its lock. */
    method Consume(code: string, now: int) returns (entry: Option<AuthCode>)
      modifies this
      ensures entry.Some? <==> Redeemable(old(codes), code, now)
      ensures entry.Some? ==> entry.value == old(codes)[code].(consumed := true)
      ensures codes == if entry.Some? then old(codes) - {code} else old(codes)
    {
      if code !in codes || now > codes[code].expiresAt || codes[code].consumed { return None; }
      var ac := codes[code].(consumed := true);
      codes := codes - {code};
      return Some(ac);
    }

    /** `oidcAuthorize` for a signed-in user; `code` is the random code it draws. */
    method Authorize(w: World, r: AuthorizeRequest, user: User, code: string, now: int) returns (error: Option<Error>)
      modifies this
      ensures AuthorizeAnswers(w, old(codes), r, user, code, now, error, codes)
    {
      if r.clientID == "" || r.redirectURI == "" { return Some(InvalidRequest); }
      if r.clientID !in w.clients || !w.clients[r.clientID].enable { return Some(InvalidClient); }
      if !URIAllowed(w.clients[r.clientID].redirectURIs, r.redirectURI) { return Some(InvalidRequest); }
      if r.challenge == "" || r.challengeMethod != "S256" { return Some(InvalidRequest); }
      Issue(r, user, code, now);
      return None;
    }

    /** `handleAuthCodeGrant`; `signed` is whether the access token can be signed. A code that was taken is
        gone, whether or not the request gets a grant. */
    method Redeem(w: World, r: TokenRequest, now: int, signed: bool) returns (result: Result<Grant, Error>)
      modifies this
      ensures RedeemAnswers(w, old(codes), r, now, signed, result, codes)
    {
      if !KnownClient(w, r) { return Err(InvalidClient); }
      var taken := Consume(r.code, now);
      if taken.None? || taken.value.clientID != r.clientID { return Err(InvalidGrant); }
      var ac := taken.value;
      if ac.challenge != "" {
        if !VerifyPKCE(w, r.verifier, ac.challenge, ac.challengeMethod) { return Err(InvalidGrant); }
      }
      if !signed { return Err(ServerError); }
      return Ok(Grant(r.code, ac.clientID, ac.scope, ac.user, ac.nonce));
    }
  }

  /** A refused authorization changes nothing, and any other stores the code. */
  ghost predicate AuthorizeAnswers(w: World, codes: Codes, r: AuthorizeRequest, user: User, code: string, now: int,
                                   error: Option<Error>, codes': Codes) {
    && error == AuthorizeRefusal(w, r)
    && codes' == if error.Some? then codes else Issued(codes, code, NewCode(r, user, now), now)
  }

  /** A token request succeeds exactly when the client is known, the code redeemable, the checks on it pass and
      the token can be signed; the code is gone as soon as the first two hold. */
  ghost predicate RedeemAnswers(w: World, codes: Codes, r: TokenRequest, now: int, signed: bool,
                                result: Result<Grant, Error>, codes': Codes) {
    && (result.Ok? <==> KnownClient(w, r) && Redeemable(codes, r.code, now) && Passes(w, r, codes[r.code]) && signed)
    && (result.Ok? ==> result.value == GrantOf(r.code, codes[r.code]))
    && codes' == if KnownClient(w, r) && Redeemable(codes, r.code, now) then codes - {r.code} else codes
  }

  // ---- every interleaving: one event per locked section -------------------------------------------------------

  /** A token request that has taken a code out of the store and not yet answered. */
  datatype Holder = Holder(request: TokenRequest, entry: AuthCode, takenAt: int)

  /** A code as it was issued, and when. */
  datatype Record = Record(entry: AuthCode, issuedAt: int)

  /** A grant, the request that got it, and when its code was taken. */
  datatype Redemption = Redemption(grant: Grant, request: TokenRequest, takenAt: int)

  datatype State = State(now: int, codes: Codes, held: map<nat, Holder>, issued: map<string, Record>, redeemed: seq<Redemption>)

  datatype Event =
    | Tick(now: int)
    | Authorize(authorization: AuthorizeRequest, user: User, code: string)
    | Take(n: nat, request: TokenRequest)
    | Answer(n: nat, signed: bool)

  /** Codes are drawn fresh; time does not run backwards. Requests refused before they change the store are
      left out. */
  predicate Enabled(w: World, s: State, e: Event) {
    match e
    case Tick(now) => s.now <= now
    case Authorize(r, _, code) => AuthorizeRefusal(w, r).None? && code !in s.issued
    case Take(n, r) => n !in s.held && KnownClient(w, r) && Redeemable(s.codes, r.code, s.now)
    case Answer(n, _) => n in s.held
  }

  function After(w: World, s: State, e: Event): State
    requires Enabled(w, s, e)
  {
    match e
    case Tick(now) => s.(now := now)
    case Authorize(r, user, code) =>
      var entry := NewCode(r, user, s.now);
      s.(codes := Issued(s.codes, code, entry, s.now), issued := s.issued[code := Record(entry, s.now)])
    case Take(n, r) => s.(codes := s.codes - {r.code}, held := s.held[n := Holder(r, s.codes[r.code], s.now)])
    case Answer(n, signed) =>
      var h := s.held[n];
      s.(held := s.held - {n},
         redeemed := if Passes(w, h.request, h.entry) && signed then s.redeemed + [Redemption(GrantOf(h.request.code, h.entry), h.request, h.takenAt)] else s.redeemed)
  }

  ghost predicate Step(w: World, states: seq<State>, events: seq<Event>, i: nat)
    requires i < |events| && |states| == |events| + 1
  {
    Enabled(w, states[i], events[i]) && states[i + 1] == After(w, states[i], events[i])
  }

  ghost predicate Run(w: World, states: seq<State>, events: seq<Event>) {
    && |states| == |events| + 1 && states[0] == State(states[0].now, map[], map[], map[], [])
    && forall i :: 0 <= i < |events| ==> Step(w, states, events, i)
  }

  // ---- what every run keeps -------------------------------------------------------------------------------------

  /** A record of a code: with a S256 challenge, unconsumed, and valid for 60 seconds. */
  predicate RecordOK(r: Record) {
    r.entry.challenge != "" && r.entry.challengeMethod == "S256" && !r.entry.consumed && r.entry.expiresAt == r.issuedAt + CODE_TTL
  }

  predicate Taken(s: State, code: string, entry: AuthCode, takenAt: int) {
    code in s.issued && s.issued[code].entry == entry && code !in s.codes && s.issued[code].issuedAt <= takenAt <= entry.expiresAt
  }

  ghost predicate HeldOK(s: State, n: nat)
    requires n in s.held
  {
    var h := s.held[n];
    && Taken(s, h.request.code, h.entry, h.takenAt)
    && (forall m :: m in s.held && s.held[m].request.code == h.request.code ==> m == n)
    && (forall i :: 0 <= i < |s.redeemed| ==> s.redeemed[i].grant.code != h.request.code)
  }

  ghost predicate RedeemedOK(w: World, s: State, x: Redemption) {
    && x.grant.code == x.request.code && x.grant.code in s.issued && x.grant.code !in s.codes
    && var r := s.issued[x.grant.code];
       && x.grant == GrantOf(x.grant.code, r.entry) && x.request.clientID == r.entry.clientID
       && r.issuedAt <= x.takenAt <= r.issuedAt + CODE_TTL
       && VerifyPKCE(w, x.request.verifier, r.entry.challenge, "S256")
  }

  ghost predicate Invariant(w: World, s: State) {
    && (forall c :: c in s.codes ==> c in s.issued && s.issued[c].entry == s.codes[c])
    && (forall c :: c in s.issued ==> RecordOK(s.issued[c]) && s.issued[c].issuedAt <= s.now)
    && (forall n :: n in s.held ==> HeldOK(s, n))
    && (forall i :: 0 <= i < |s.redeemed| ==> RedeemedOK(w, s, s.redeemed[i]))
    && (forall i, j :: 0 <= i < j < |s.redeemed| ==> s.redeemed[i].grant.code != s.redeemed[j].grant.code)
  }

  lemma StepKeepsStore(w: World, s: State, e: Event)
    requires Invariant(w, s) && Enabled(w, s, e)
    ensures var u := After(w, s, e);
            && (forall c :: c in u.codes ==> c in u.issued && u.issued[c].entry == u.codes[c])
            && (forall c :: c in u.issued ==> RecordOK(u.issued[c]) && u.issued[c].issuedAt <= u.now)
            && (forall c :: c in s.issued ==> c in u.issued && u.issued[c] == s.issued[c] && (c in u.codes ==> c in s.codes))
  {
    hide HeldOK, RedeemedOK, Passes, KnownClient, URIAllowed;
  }

  /** A code someone holds was taken from the store, is held by nobody else and was not redeemed. */
  lemma HeldApart(w: World, s: State, n: nat, code: string)
    requires Invariant(w, s) && n in s.held && s.held[n].request.code == code
    ensures code !in s.codes && code in s.issued
    ensures forall m :: m in s.held && s.held[m].request.code == code ==> m == n
    ensures forall i :: 0 <= i < |s.redeemed| ==> s.redeemed[i].grant.code != code
  {
    assert HeldOK(s, n);
  }

  /** A code in the store is held by nobody and was not redeemed. */
  lemma StoredApart(w: World, s: State, code: string)
    requires Invariant(w, s) && code in s.codes
    ensures forall m :: m in s.held ==> s.held[m].request.code != code
    ensures forall i :: 0 <= i < |s.redeemed| ==> s.redeemed[i].grant.code != code
  {
    assert forall m :: m in s.held ==> HeldOK(s, m);
    assert forall i :: 0 <= i < |s.redeemed| ==> RedeemedOK(w, s, s.redeemed[i]);
  }

  lemma StepKeepsHeld(w: World, s: State, e: Event, n: nat)
    requires Invariant(w, s) && Enabled(w, s, e) && n in After(w, s, e).held
    ensures HeldOK(After(w, s, e), n)
  {
    hide Issued, Passes, KnownClient, AuthorizeRefusal, RedeemedOK, RecordOK;
    StepKeepsStore(w, s, e);
    if n in s.held {
      assert HeldOK(s, n);
      HeldApart(w, s, n, s.held[n].request.code);
    }
    if e.Take? { StoredApart(w, s, e.request.code); }
    RecordOfStored(w, s, e);
  }

  lemma RecordOfStored(w: World, s: State, e: Event)
    requires Invariant(w, s)
    ensures e.Take? && e.request.code in s.codes ==> e.request.code in s.issued && s.issued[e.request.code].issuedAt <= s.now
  {
  }

  lemma StepKeepsRedeemed(w: World, s: State, e: Event, i: nat)
    requires Invariant(w, s) && Enabled(w, s, e) && i < |After(w, s, e).redeemed|
    ensures var u := After(w, s, e);
            RedeemedOK(w, u, u.redeemed[i]) && forall j :: 0 <= j < i ==> u.redeemed[j].grant.code != u.redeemed[i].grant.code
  {
    StepKeepsStore(w, s, e);
    if i < |s.redeemed| { assert RedeemedOK(w, s, s.redeemed[i]); }
    if e.Answer? { assert HeldOK(s, e.n); }
    hide Issued, KnownClient, AuthorizeRefusal;
  }

  lemma StepKeepsInvariant(w: World, s: State, e: Event)
    requires Invariant(w, s) && Enabled(w, s, e)
    ensures Invariant(w, After(w, s, e))
  {
    StepKeepsStore(w, s, e);
    forall n | n in After(w, s, e).held { StepKeepsHeld(w, s, e, n); }
    forall i | 0 <= i < |After(w, s, e).redeemed| { StepKeepsRedeemed(w, s, e, i); }
    hide After, Enabled, HeldOK, RedeemedOK, RecordOK;
  }

  lemma {:induction false} RunKeepsInvariant(w: World, states: seq<State>, events: seq<Event>, i: nat)
    requires Run(w, states, events) && i < |states|
    ensures Invariant(w, states[i])
  {
    if i > 0 {
      RunKeepsInvariant(w, states, events, i - 1);
      assert Step(w, states, events, i - 1);
      hide Invariant, After, Enabled;
      StepKeepsInvariant(w, states[i - 1], events[i - 1]);
    }
  }

  /** In every interleaving: each code is redeemed at most once, by the client it was issued to, within 60
      seconds, for the scope, user and nonce recorded at issue, and only against the verifier its S256
      challenge asks for; and every stored entry is unconsumed. */
  lemma CodesAreOneTime(w: World, states: seq<State>, events: seq<Event>, i: nat)
    requires Run(w, states, events) && i < |states|
    ensures var s := states[i];
            && (forall j, k :: 0 <= j < k < |s.redeemed| ==> s.redeemed[j].grant.code != s.redeemed[k].grant.code)
            && (forall j :: 0 <= j < |s.redeemed| ==> RedeemedOK(w, s, s.redeemed[j]))
            && (forall c :: c in s.codes ==> !s.codes[c].consumed && s.codes[c].challenge != "" && s.codes[c].challengeMethod == "S256")
  {
    RunKeepsInvariant(w, states, events, i);
    var s := states[i];
    assert forall c :: c in s.codes ==> RecordOK(s.issued[c]);
  }

  // ---- undisturbed calls are runs of the machine ----------------------------------------------------------------

  /** What `Authorize` answers, alone, is the machine's step; refused requests take none. */
  lemma AuthorizeIsStep(w: World, s: State, r: AuthorizeRequest, user: User, code: string, error: Option<Error>, codes': Codes)
    requires AuthorizeAnswers(w, s.codes, r, user, code, s.now, error, codes') && code !in s.issued
    ensures error.None? <==> Enabled(w, s, Authorize(r, user, code))
    ensures codes' == if error.None? then After(w, s, Authorize(r, user, code)).codes else s.codes
  {
  }

  /** What `Redeem` answers, alone, is what taking and answering in a row do; refused requests take no step. */
  lemma RedeemIsPath(w: World, s: State, n: nat, r: TokenRequest, signed: bool, result: Result<Grant, Error>, codes': Codes)
    requires RedeemAnswers(w, s.codes, r, s.now, signed, result, codes') && n !in s.held
    ensures !Enabled(w, s, Take(n, r)) ==> result.Err? && codes' == s.codes
    ensures Enabled(w, s, Take(n, r)) ==>
              && Enabled(w, After(w, s, Take(n, r)), Answer(n, signed))
              && var u := After(w, After(w, s, Take(n, r)), Answer(n, signed));
                 u == s.(codes := codes', redeemed := s.redeemed + if result.Ok? then [Redemption(result.value, r, s.now)] else [])
  {
    if Enabled(w, s, Take(n, r)) {
      assert After(w, After(w, s, Take(n, r)), Answer(n, signed)).held == s.held;
    }
    hide VerifyPKCE, KnownClient;
  }

  // ---- the redirect URI -----------------------------------------------------------------------------------------

  /** If the client redeemed the code naming one of its listed URIs, that is the URI the code was issued for. */
  ghost predicate Agrees(w: World, s: State, x: Redemption, clientID: string)
    requires clientID in w.clients
  {
    x.request.clientID == clientID && URIAllowed(w.clients[clientID].redirectURIs, x.request.redirectURI) && x.grant.code in s.issued ==>
      s.issued[x.grant.code].entry.redirectURI == x.request.redirectURI
  }

  /** So in every run. */
  ghost predicate URIsAgree(w: World, clientID: string)
    requires clientID in w.clients
  {
    forall states: seq<State>, events, i, j {:trigger Run(w, states, events), states[i].redeemed[j]} ::
      Run(w, states, events) && 0 <= i < |states| && 0 <= j < |states[i].redeemed| ==> Agrees(w, states[i], states[i].redeemed[j], clientID)
  }

  /** The client lists one URI. */
  ghost predicate OneURI(listed: string) {
    forall u, v :: URIAllowed(listed, u) && URIAllowed(listed, v) && u != "" ==> u == v
  }

  lemma {:induction false} IssuedURIsAreListed(w: World, states: seq<State>, events: seq<Event>, i: nat, code: string)
    requires Run(w, states, events) && i < |states| && code in states[i].issued
    ensures var e := states[i].issued[code].entry;
            e.redirectURI != "" && e.clientID in w.clients && URIAllowed(w.clients[e.clientID].redirectURIs, e.redirectURI)
  {
    hide URIAllowed, Issued, Passes, KnownClient;
    if i > 0 {
      assert Step(w, states, events, i - 1);
      if code in states[i - 1].issued && states[i].issued[code] == states[i - 1].issued[code] {
        IssuedURIsAreListed(w, states, events, i - 1, code);
      }
    }
  }

  /** The run that authorizes and redeems, whatever URI the token request names. */
  lemma AnyURIRedeems(w: World, a: AuthorizeRequest, r: TokenRequest, user: User, code: string)
    requires AuthorizeRefusal(w, a).None? && KnownClient(w, r) && r.clientID == a.clientID && r.code == code
    requires VerifyPKCE(w, r.verifier, a.challenge, "S256")
    ensures var s0 := State(0, map[], map[], map[], []);
            var entry := NewCode(a, user, 0);
            var s1 := s0.(codes := map[code := entry], issued := map[code := Record(entry, 0)]);
            var s2 := s1.(codes := map[], held := map[0 := Holder(r, entry, 0)]);
            var s3 := s2.(held := map[], redeemed := [Redemption(GrantOf(code, entry), r, 0)]);
            Run(w, [s0, s1, s2, s3], [Authorize(a, user, code), Take(0, r), Answer(0, true)])
  {
    hide URIAllowed, KnownClient, VerifyPKCE;
    var entry := NewCode(a, user, 0);
    assert Issued(map[], code, entry, 0) == map[code := entry];
    assert Passes(w, r, entry);
  }

  /** The client can get grants at all: it is named and enabled, holds its secret, and has a verifier to show. */
  predicate CanRedeem(w: World, clientID: string, secret: string, verifier: string) {
    && clientID != "" && KnownClient(w, TokenRequest(clientID, secret, "", "", ""))
    && verifier != "" && w.digest(verifier) != ""
  }

  /** The token endpoint does not compare redirect URIs, so they agree exactly for clients that list one. */
  lemma URIsAgreeExactlyForOne(w: World, clientID: string, secret: string, verifier: string)
    requires CanRedeem(w, clientID, secret, verifier)
    ensures URIsAgree(w, clientID) <==> OneURI(w.clients[clientID].redirectURIs)
  {
    var listed := w.clients[clientID].redirectURIs;
    if OneURI(listed) {
      OneURIAgrees(w, clientID);
    } else {
      var u, v :| URIAllowed(listed, u) && URIAllowed(listed, v) && u != "" && u != v;
      TwoURIsDisagree(w, clientID, secret, verifier, u, v);
    }
  }

  lemma OneURIAgrees(w: World, clientID: string)
    requires clientID in w.clients && OneURI(w.clients[clientID].redirectURIs)
    ensures URIsAgree(w, clientID)
  {
    hide Run, URIAllowed;
    forall states: seq<State>, events, i, j | Run(w, states, events) && 0 <= i < |states| && 0 <= j < |states[i].redeemed|
      ensures Agrees(w, states[i], states[i].redeemed[j], clientID)
    {
      var x := states[i].redeemed[j];
      if x.grant.code in states[i].issued {
        IssuedURIsAreListed(w, states, events, i, x.grant.code);
        CodesAreOneTime(w, states, events, i);
        assert RedeemedOK(w, states[i], x);
      }
    }
  }

  lemma TwoURIsDisagree(w: World, clientID: string, secret: string, verifier: string, u: string, v: string)
    requires CanRedeem(w, clientID, secret, verifier)
    requires URIAllowed(w.clients[clientID].redirectURIs, u) && URIAllowed(w.clients[clientID].redirectURIs, v) && u != "" && u != v
    ensures !URIsAgree(w, clientID)
  {
    var a := AuthorizeRequest(clientID, u, "", w.digest(verifier), "S256", "");
    var r := TokenRequest(clientID, secret, "c", verifier, v);
    var user := User("u", "n", "t");
    AnyURIRedeems(w, a, r, user, "c");
    var s0 := State(0, map[], map[], map[], []);
    var entry := NewCode(a, user, 0);
    var s1 := s0.(codes := map["c" := entry], issued := map["c" := Record(entry, 0)]);
    var s2 := s1.(codes := map[], held := map[0 := Holder(r, entry, 0)]);
    var s3 := s2.(held := map[], redeemed := [Redemption(GrantOf("c", entry), r, 0)]);
    var states := [s0, s1, s2, s3];
    hide Run, URIAllowed, KnownClient;
    assert states[3].redeemed[0].request == r && states[3].issued["c"].entry == entry;
  }
}
