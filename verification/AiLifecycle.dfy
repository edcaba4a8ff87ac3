/** The administration of AI providers, their keys and their model routes (http/admin_ai_lifecycle.go): ten
    operations over three linked, soft-deleting tables. */
module AiLifecycle {
  import opened Text

  datatype ProviderRow = ProviderRow(
    tenantID: string, name: string, baseURL: string, authType: string, healthy: bool, description: string, isMust: bool, deleted: bool)

  datatype KeyRow = KeyRow(
    tenantID: string, providerID: string, name: string, secret: string, priority: int, enable: bool,
    cooldownEnd: int, last429: int, isMust: bool, deleted: bool)

  datatype RouteRow = RouteRow(
    tenantID: string, modelAlias: string, upstreamModel: string, providerID: string, priority: int, enable: bool,
    description: string, deleted: bool)

  datatype Database = Database(providers: map<string, ProviderRow>, keys: map<string, KeyRow>, routes: map<string, RouteRow>)

  datatype Error = NotFound | SystemRow | Invalid | Reserved | Exists | InUse | NoTenant | Conflict | NoEncryptionKey

  /** The outside checks: whether a URL is an http(s) address without credentials, how many bytes a text has,
      and whether an encryption key is configured. */
  datatype Checks = Checks(validURL: string -> bool, bytes: string -> nat, canEncrypt: bool)

  datatype ProviderInput = ProviderInput(name: string, baseURL: string, authType: string, healthy: bool, description: string)

  datatype RouteInput = RouteInput(modelAlias: string, upstreamModel: string, providerID: string, priority: int, enable: bool, description: string)

  // ---- normalizing and validating inputs -----------------------------------------------------------------

  function LowerChar(c: char): char {
    if 'A' <= c <= 'Z' then (c as int + 32) as char
    else if c as int == 0x130 then 'i'
    else if c as int == 0x212A then 'k' else c
  }

  function Lower(s: string): string {
    seq(|s|, i requires 0 <= i < |s| => LowerChar(s[i]))
  }

  function TrimSlashes(s: string): string {
    if s != "" && s[|s| - 1] == '/' then TrimSlashes(s[..|s| - 1]) else s
  }

  function NormalProvider(p: ProviderInput): ProviderInput {
    ProviderInput(Trim(p.name), TrimSlashes(Trim(p.baseURL)),
                  if Lower(Trim(p.authType)) == "" then "bearer" else Lower(Trim(p.authType)), p.healthy, Trim(p.description))
  }

  predicate ValidProvider(p: ProviderInput, checks: Checks) {
    && p.name != "" && |p.name| <= 100 && p.baseURL != "" && checks.bytes(p.baseURL) <= 500 && checks.validURL(p.baseURL)
    && p.authType in {"bearer", "header", "apikey", "query"} && |p.description| <= 500
  }

  predicate ValidKeyName(name: string, priority: int) {
    name != "" && |name| <= 100 && -1000 <= priority <= 1000
  }

  predicate ValidSecret(secret: string, checks: Checks) {
    secret != "" && checks.bytes(secret) <= 4096
  }

  function NormalRoute(r: RouteInput): RouteInput {
    r.(modelAlias := Trim(r.modelAlias), upstreamModel := Trim(r.upstreamModel), providerID := Trim(r.providerID), description := Trim(r.description))
  }

  predicate ValidRoute(r: RouteInput) {
    && r.modelAlias != "" && |r.modelAlias| <= 100 && |r.upstreamModel| <= 100 && r.providerID != ""
    && -1000 <= r.priority <= 1000 && |r.description| <= 500
  }

  // ---- lookups -------------------------------------------------------------------------------------------

  predicate ReservedName(name: string) {
    EqualFold(Trim(name), "banlu-mock")
  }

  /** A system provider: required, or bearing the reserved name. */
  predicate SystemProvider(p: ProviderRow) {
    p.isMust || ReservedName(p.name)
  }

  /** `findAIProviderForTenant`. */
  predicate HasProvider(db: Database, tenantID: string, id: string) {
    Trim(id) in db.providers && !db.providers[Trim(id)].deleted && db.providers[Trim(id)].tenantID == Trim(tenantID)
  }

  /** `findAIKeyForTenant`: the key and its provider. */
  predicate HasKey(db: Database, tenantID: string, id: string) {
    && Trim(id) in db.keys && !db.keys[Trim(id)].deleted && db.keys[Trim(id)].tenantID == Trim(tenantID)
    && HasProvider(db, tenantID, db.keys[Trim(id)].providerID)
  }

  /** `findAIRouteForTenant`: the route and its provider. */
  predicate HasRoute(db: Database, tenantID: string, id: string) {
    && Trim(id) in db.routes && !db.routes[Trim(id)].deleted && db.routes[Trim(id)].tenantID == Trim(tenantID)
    && HasProvider(db, tenantID, db.routes[Trim(id)].providerID)
  }

  predicate ProviderNameTaken(db: Database, tenantID: string, name: string, exclude: string) {
    exists id :: id in db.providers && !db.providers[id].deleted && db.providers[id].tenantID == tenantID && db.providers[id].name == name
                 && (exclude == "" || id != exclude)
  }

  predicate KeyNameTaken(db: Database, tenantID: string, providerID: string, name: string, exclude: string) {
    exists id :: id in db.keys && !db.keys[id].deleted && db.keys[id].tenantID == tenantID && db.keys[id].providerID == providerID
                 && db.keys[id].name == name && (exclude == "" || id != exclude)
  }

  predicate RouteTaken(db: Database, tenantID: string, modelAlias: string, providerID: string, exclude: string) {
    exists id :: id in db.routes && !db.routes[id].deleted && db.routes[id].tenantID == tenantID && db.routes[id].providerID == providerID
                 && db.routes[id].modelAlias == modelAlias && (exclude == "" || id != exclude)
  }

  /** `aiProviderImpactForTenant`: keys or routes of the tenant on the provider. */
  predicate Impact(db: Database, tenantID: string, providerID: string) {
    || (exists id :: id in db.keys && !db.keys[id].deleted && db.keys[id].tenantID == tenantID && db.keys[id].providerID == providerID)
    || (exists id :: id in db.routes && !db.routes[id].deleted && db.routes[id].tenantID == tenantID && db.routes[id].providerID == providerID)
  }

  // ---- the operations ------------------------------------------------------------------------------------

  /** A request; `id` of a creation is the primary key, the client's or a generated one. */
  datatype Request =
    | CreateProvider(tenantID: string, id: string, provider: ProviderInput)
    | UpdateProvider(tenantID: string, id: string, provider: ProviderInput)
    | DeleteProvider(tenantID: string, id: string)
    | CreateKey(tenantID: string, id: string, providerID: string, name: string, secret: string, priority: int, enable: bool)
    | UpdateKey(tenantID: string, id: string, providerID: string, name: string, priority: int, enable: bool)
    | RotateKey(tenantID: string, id: string, secret: string)
    | DeleteKey(tenantID: string, id: string)
    | CreateRoute(tenantID: string, id: string, route: RouteInput)
    | UpdateRoute(tenantID: string, id: string, route: RouteInput)
    | DeleteRoute(tenantID: string, id: string)

  /** The provider an updated key goes to: a blank choice keeps the current one. */
  function TargetProvider(current: string, chosen: string): string {
    if Trim(chosen) == "" then current else chosen
  }

  /** Why a provider may not be worked with. */
  function Unusable(db: Database, tenantID: string, providerID: string): Option<Error> {
    if !HasProvider(db, tenantID, providerID) then Some(NotFound)
    else if SystemProvider(db.providers[Trim(providerID)]) then Some(SystemRow) else None
  }

  /** Why a key may not be changed. */
  function LockedKey(db: Database, tenantID: string, id: string): Option<Error> {
    if !HasKey(db, tenantID, id) then Some(NotFound)
    else if db.keys[Trim(id)].isMust then Some(SystemRow)
    else Unusable(db, tenantID, db.keys[Trim(id)].providerID)
  }

  /** Why a route may not be changed. */
  function LockedRoute(db: Database, tenantID: string, id: string): Option<Error> {
    if !HasRoute(db, tenantID, id) then Some(NotFound) else Unusable(db, tenantID, db.routes[Trim(id)].providerID)
  }

  /** The first reason, in the order of the checks, for which a request is refused. */
  function Refusal(db: Database, r: Request, checks: Checks): Option<Error> {
    match r
    case CreateProvider(tenantID, id, provider) =>
      var p := NormalProvider(provider);
      if Trim(tenantID) == "" then Some(NoTenant)
      else if !ValidProvider(p, checks) then Some(Invalid)
      else if ReservedName(p.name) then Some(Reserved)
      else if ProviderNameTaken(db, Trim(tenantID), p.name, "") then Some(Exists)
      else if id in db.providers then Some(Conflict) else None
    case UpdateProvider(tenantID, id, provider) =>
      var p := NormalProvider(provider);
      if Unusable(db, tenantID, id).Some? then Unusable(db, tenantID, id)
      else if !ValidProvider(p, checks) then Some(Invalid)
      else if ReservedName(p.name) then Some(Reserved)
      else if ProviderNameTaken(db, Trim(tenantID), p.name, Trim(id)) then Some(Exists) else None
    case DeleteProvider(tenantID, id) =>
      if Unusable(db, tenantID, id).Some? then Unusable(db, tenantID, id)
      else if Impact(db, tenantID, Trim(id)) then Some(InUse) else None
    case CreateKey(tenantID, id, providerID, name, secret, priority, _) =>
      if Unusable(db, tenantID, providerID).Some? then Unusable(db, tenantID, providerID)
      else if !ValidKeyName(Trim(name), priority) || !ValidSecret(Trim(secret), checks) then Some(Invalid)
      else if KeyNameTaken(db, tenantID, Trim(providerID), Trim(name), "") then Some(Exists)
      else if !checks.canEncrypt then Some(NoEncryptionKey)
      else if id in db.keys then Some(Conflict) else None
    case UpdateKey(tenantID, id, providerID, name, priority, _) =>
      if LockedKey(db, tenantID, id).Some? then LockedKey(db, tenantID, id)
      else
        var target := TargetProvider(db.keys[Trim(id)].providerID, providerID);
        if Unusable(db, tenantID, target).Some? then Unusable(db, tenantID, target)
        else if !ValidKeyName(Trim(name), priority) then Some(Invalid)
        else if KeyNameTaken(db, tenantID, Trim(target), Trim(name), Trim(id)) then Some(Exists) else None
    case RotateKey(tenantID, id, secret) =>
      if LockedKey(db, tenantID, id).Some? then LockedKey(db, tenantID, id)
      else if !ValidKeyName(Trim(db.keys[Trim(id)].name), db.keys[Trim(id)].priority) || !ValidSecret(Trim(secret), checks) then Some(Invalid)
      else if !checks.canEncrypt then Some(NoEncryptionKey) else None
    case DeleteKey(tenantID, id) => LockedKey(db, tenantID, id)
    case CreateRoute(tenantID, id, route) =>
      var n := NormalRoute(route);
      if Trim(tenantID) == "" then Some(NoTenant)
      else if !ValidRoute(n) then Some(Invalid)
      else if Unusable(db, tenantID, n.providerID).Some? then Unusable(db, tenantID, n.providerID)
      else if RouteTaken(db, tenantID, n.modelAlias, n.providerID, "") then Some(Exists)
      else if id in db.routes then Some(Conflict) else None
    case UpdateRoute(tenantID, id, route) =>
      var n := NormalRoute(route);
      if LockedRoute(db, tenantID, id).Some? then LockedRoute(db, tenantID, id)
      else if !ValidRoute(n) then Some(Invalid)
      else if Unusable(db, tenantID, n.providerID).Some? then Unusable(db, tenantID, n.providerID)
      else if RouteTaken(db, tenantID, n.modelAlias, n.providerID, Trim(id)) then Some(Exists) else None
    case DeleteRoute(tenantID, id) => LockedRoute(db, tenantID, id)
  }

  /** What an accepted request does. Creation stores the column defaults where they differ from the request:
      a provider is healthy, a key and a route are enabled. */
  function Effect(db: Database, r: Request, checks: Checks): Database
    requires Refusal(db, r, checks).None?
  {
    match r
    case CreateProvider(tenantID, id, provider) =>
      var p := NormalProvider(provider);
      db.(providers := db.providers[id := ProviderRow(Trim(tenantID), p.name, p.baseURL, p.authType, true, p.description, false, false)])
    case UpdateProvider(_, id, provider) =>
      var p := NormalProvider(provider);
      db.(providers := db.providers[Trim(id) := db.providers[Trim(id)].(
            name := p.name, baseURL := p.baseURL, authType := p.authType, healthy := p.healthy, description := p.description)])
    case DeleteProvider(_, id) => db.(providers := db.providers[Trim(id) := db.providers[Trim(id)].(deleted := true)])
    case CreateKey(tenantID, id, providerID, name, secret, priority, _) =>
      db.(keys := db.keys[id := KeyRow(tenantID, Trim(providerID), Trim(name), Trim(secret), priority, true, 0, 0, false, false)])
    case UpdateKey(_, id, providerID, name, priority, enable) =>
      var key := db.keys[Trim(id)];
      db.(keys := db.keys[Trim(id) := key.(
            providerID := Trim(TargetProvider(key.providerID, providerID)), name := Trim(name), priority := priority, enable := enable)])
    case RotateKey(_, id, secret) =>
      db.(keys := db.keys[Trim(id) := db.keys[Trim(id)].(secret := Trim(secret), cooldownEnd := 0, last429 := 0)])
    case DeleteKey(_, id) => db.(keys := db.keys[Trim(id) := db.keys[Trim(id)].(deleted := true)])
    case CreateRoute(tenantID, id, route) =>
      var n := NormalRoute(route);
      db.(routes := db.routes[id := RouteRow(Trim(tenantID), n.modelAlias, n.upstreamModel, n.providerID, n.priority, true, n.description, false)])
    case UpdateRoute(_, id, route) =>
      var n := NormalRoute(route);
      db.(routes := db.routes[Trim(id) := db.routes[Trim(id)].(
            modelAlias := n.modelAlias, upstreamModel := n.upstreamModel, providerID := n.providerID,
            priority := n.priority, enable := n.enable, description := n.description)])
    case DeleteRoute(_, id) => db.(routes := db.routes[Trim(id) := db.routes[Trim(id)].(deleted := true)])
  }

  function After(db: Database, r: Request, checks: Checks): Database {
    if Refusal(db, r, checks).Some? then db else Effect(db, r, checks)
  }

  // ---- the operations on the store -----------------------------------------------------------------------

  class AIStore {
    var providers: map<string, ProviderRow>
    var keys: map<string, KeyRow>
    var routes: map<string, RouteRow>

    constructor (db: Database)
      ensures Snapshot() == db
    {
      providers, keys, routes := db.providers, db.keys, db.routes;
    }

    function Snapshot(): Database
      reads this
    {
      Database(providers, keys, routes)
    }

    /** `findAIProviderForTenant` followed by `requireMutableAIProvider`. */
    method FindMutableProvider(tenantID: string, providerID: string) returns (id: string, error: Option<Error>)
      ensures error == Unusable(Snapshot(), tenantID, providerID) && id == Trim(providerID)
    {
      id := Trim(providerID);
      if id !in providers || providers[id].deleted || providers[id].tenantID != Trim(tenantID) { return id, Some(NotFound); }
      if SystemProvider(providers[id]) { return id, Some(SystemRow); }
      return id, None;
    }

    /** The key, and that it may be changed. */
    method FindMutableKey(tenantID: string, keyID: string) returns (id: string, error: Option<Error>)
      ensures error == LockedKey(Snapshot(), tenantID, keyID) && id == Trim(keyID)
    {
      id := Trim(keyID);
      if id !in keys || keys[id].deleted || keys[id].tenantID != Trim(tenantID) { return id, Some(NotFound); }
      if !HasProvider(Snapshot(), tenantID, keys[id].providerID) { return id, Some(NotFound); }
      if keys[id].isMust { return id, Some(SystemRow); }
      var _, e := FindMutableProvider(tenantID, keys[id].providerID);
      return id, e;
    }

    method FindMutableRoute(tenantID: string, routeID: string) returns (id: string, error: Option<Error>)
      ensures error == LockedRoute(Snapshot(), tenantID, routeID) && id == Trim(routeID)
    {
      id := Trim(routeID);
      if id !in routes || routes[id].deleted || routes[id].tenantID != Trim(tenantID) { return id, Some(NotFound); }
      var _, e := FindMutableProvider(tenantID, routes[id].providerID);
      return id, e;
    }

    /** `createAIProviderForTenant`. */
    method CreateProvider(tenantID: string, id: string, provider: ProviderInput,
                          checks: Checks) returns (error: Option<Error>)
      modifies this`providers
      ensures error == Refusal(old(Snapshot()), Request.CreateProvider(tenantID, id, provider), checks)
      ensures Snapshot() == After(old(Snapshot()), Request.CreateProvider(tenantID, id, provider), checks)
    {
      var tenant := Trim(tenantID);
      if tenant == "" { return Some(NoTenant); }
      var p := NormalProvider(provider);
      if !ValidProvider(p, checks) { return Some(Invalid); }
      if ReservedName(p.name) { return Some(Reserved); }
      if ProviderNameTaken(Snapshot(), tenant, p.name, "") { return Some(Exists); }
      if id in providers { return Some(Conflict); }
      providers := providers[id := ProviderRow(tenant, p.name, p.baseURL, p.authType, true, p.description, false, false)];
      return None;
    }

    /** `updateAIProviderForTenant`. */
    method UpdateProvider(tenantID: string, providerID: string, provider: ProviderInput,
                          checks: Checks) returns (error: Option<Error>)
      modifies this`providers
      ensures error == Refusal(old(Snapshot()), Request.UpdateProvider(tenantID, providerID, provider), checks)
      ensures Snapshot() == After(old(Snapshot()), Request.UpdateProvider(tenantID, providerID, provider), checks)
    {
      var id, e := FindMutableProvider(tenantID, providerID);
      if e.Some? { return e; }
      var p := NormalProvider(provider);
      if !ValidProvider(p, checks) { return Some(Invalid); }
      if ReservedName(p.name) { return Some(Reserved); }
      if ProviderNameTaken(Snapshot(), providers[id].tenantID, p.name, id) { return Some(Exists); }
      providers := providers[id := providers[id].(name := p.name, baseURL := p.baseURL, authType := p.authType, healthy := p.healthy, description := p.description)];
      return None;
    }

    /** `deleteAIProviderForTenant`: only without keys and routes. */
    method DeleteProvider(tenantID: string, providerID: string, checks: Checks) returns (error: Option<Error>)
      modifies this`providers
      ensures error == Refusal(old(Snapshot()), Request.DeleteProvider(tenantID, providerID), checks)
      ensures Snapshot() == After(old(Snapshot()), Request.DeleteProvider(tenantID, providerID), checks)
    {
      var id, e := FindMutableProvider(tenantID, providerID);
      if e.Some? { return e; }
      if Impact(Snapshot(), tenantID, id) { return Some(InUse); }
      providers := providers[id := providers[id].(deleted := true)];
      return None;
    }

    /** `createAIKeyForTenant`. */
    method CreateKey(tenantID: string, id: string, providerID: string, name: string, secret: string, priority: int,
                     enable: bool, checks: Checks)
      returns (error: Option<Error>)
      modifies this`keys
      ensures error == Refusal(old(Snapshot()), Request.CreateKey(tenantID, id, providerID, name, secret, priority, enable), checks)
      ensures Snapshot() == After(old(Snapshot()), Request.CreateKey(tenantID, id, providerID, name, secret, priority, enable), checks)
    {
      var provider, e := FindMutableProvider(tenantID, providerID);
      if e.Some? { return e; }
      var n, s := Trim(name), Trim(secret);
      if !ValidKeyName(n, priority) || !ValidSecret(s, checks) { return Some(Invalid); }
      if KeyNameTaken(Snapshot(), tenantID, provider, n, "") { return Some(Exists); }
      if !checks.canEncrypt { return Some(NoEncryptionKey); }
      if id in keys { return Some(Conflict); }
      keys := keys[id := KeyRow(tenantID, provider, n, s, priority, true, 0, 0, false, false)];
      return None;
    }

    /** `updateAIKeyForTenant`: the key may move to another provider of the tenant. */
    method UpdateKey(tenantID: string, keyID: string, providerID: string, name: string, priority: int, enable: bool,
                     checks: Checks)
      returns (error: Option<Error>)
      modifies this`keys
      ensures error == Refusal(old(Snapshot()), Request.UpdateKey(tenantID, keyID, providerID, name, priority, enable), checks)
      ensures Snapshot() == After(old(Snapshot()), Request.UpdateKey(tenantID, keyID, providerID, name, priority, enable), checks)
    {
      var id, e := FindMutableKey(tenantID, keyID);
      if e.Some? { return e; }
      var chosen := providerID;
      if Trim(chosen) == "" { chosen := keys[id].providerID; }
      var target, e' := FindMutableProvider(tenantID, chosen);
      if e'.Some? { return e'; }
      var n := Trim(name);
      if !ValidKeyName(n, priority) { return Some(Invalid); }
      if KeyNameTaken(Snapshot(), tenantID, target, n, id) { return Some(Exists); }
      keys := keys[id := keys[id].(providerID := target, name := n, priority := priority, enable := enable)];
      return None;
    }

    /** `rotateAIKeyForTenant`: a new secret, and no cooldown. */
    method RotateKey(tenantID: string, keyID: string, secret: string, checks: Checks) returns (error: Option<Error>)
      modifies this`keys
      ensures error == Refusal(old(Snapshot()), Request.RotateKey(tenantID, keyID, secret), checks)
      ensures Snapshot() == After(old(Snapshot()), Request.RotateKey(tenantID, keyID, secret), checks)
    {
      var id, e := FindMutableKey(tenantID, keyID);
      if e.Some? { return e; }
      var s := Trim(secret);
      if !ValidKeyName(Trim(keys[id].name), keys[id].priority) || !ValidSecret(s, checks) { return Some(Invalid); }
      if !checks.canEncrypt { return Some(NoEncryptionKey); }
      keys := keys[id := keys[id].(secret := s, cooldownEnd := 0, last429 := 0)];
      return None;
    }

    /** `deleteAIKeyForTenant`. */
    method DeleteKey(tenantID: string, keyID: string, checks: Checks) returns (error: Option<Error>)
      modifies this`keys
      ensures error == Refusal(old(Snapshot()), Request.DeleteKey(tenantID, keyID), checks)
      ensures Snapshot() == After(old(Snapshot()), Request.DeleteKey(tenantID, keyID), checks)
    {
      var id, e := FindMutableKey(tenantID, keyID);
      if e.Some? { return e; }
      keys := keys[id := keys[id].(deleted := true)];
      return None;
    }

    /** `createAIRouteForTenant`. */
    method CreateRoute(tenantID: string, id: string, route: RouteInput, checks: Checks) returns (error: Option<Error>)
      modifies this`routes
      ensures error == Refusal(old(Snapshot()), Request.CreateRoute(tenantID, id, route), checks)
      ensures Snapshot() == After(old(Snapshot()), Request.CreateRoute(tenantID, id, route), checks)
    {
      var tenant := Trim(tenantID);
      if tenant == "" { return Some(NoTenant); }
      var n := NormalRoute(route);
      if !ValidRoute(n) { return Some(Invalid); }
      var _, e := FindMutableProvider(tenantID, n.providerID);
      if e.Some? { return e; }
      if RouteTaken(Snapshot(), tenantID, n.modelAlias, n.providerID, "") { return Some(Exists); }
      if id in routes { return Some(Conflict); }
      routes := routes[id := RouteRow(tenant, n.modelAlias, n.upstreamModel, n.providerID, n.priority, true, n.description, false)];
      return None;
    }

    /** `updateAIRouteForTenant`. */
    method UpdateRoute(tenantID: string, routeID: string, route: RouteInput,
                       checks: Checks) returns (error: Option<Error>)
      modifies this`routes
      ensures error == Refusal(old(Snapshot()), Request.UpdateRoute(tenantID, routeID, route), checks)
      ensures Snapshot() == After(old(Snapshot()), Request.UpdateRoute(tenantID, routeID, route), checks)
    {
      var id, e := FindMutableRoute(tenantID, routeID);
      if e.Some? { return e; }
      var n := NormalRoute(route);
      if !ValidRoute(n) { return Some(Invalid); }
      var _, e' := FindMutableProvider(tenantID, n.providerID);
      if e'.Some? { return e'; }
      if RouteTaken(Snapshot(), tenantID, n.modelAlias, n.providerID, id) { return Some(Exists); }
      routes := routes[id := routes[id].(modelAlias := n.modelAlias, upstreamModel := n.upstreamModel, providerID := n.providerID,
                                         priority := n.priority, enable := n.enable, description := n.description)];
      return None;
    }

    /** `deleteAIRouteForTenant`. */
    method DeleteRoute(tenantID: string, routeID: string, checks: Checks) returns (error: Option<Error>)
      modifies this`routes
      ensures error == Refusal(old(Snapshot()), Request.DeleteRoute(tenantID, routeID), checks)
      ensures Snapshot() == After(old(Snapshot()), Request.DeleteRoute(tenantID, routeID), checks)
    {
      var id, e := FindMutableRoute(tenantID, routeID);
      if e.Some? { return e; }
      routes := routes[id := routes[id].(deleted := true)];
      return None;
    }
  }

  // ---- what every run keeps --------------------------------------------------------------------------------

  predicate LiveProvider(db: Database, id: string, tenantID: string) {
    id in db.providers && !db.providers[id].deleted && db.providers[id].tenantID == tenantID
  }

  ghost predicate NamesUnique(db: Database) {
    forall i, j :: i in db.providers && j in db.providers && SameProvider(db.providers[i], db.providers[j]) ==> i == j
  }

  predicate SameProvider(p: ProviderRow, q: ProviderRow) {
    !p.deleted && !q.deleted && p.tenantID == q.tenantID && p.name == q.name
  }

  ghost predicate KeysUnique(db: Database) {
    forall i, j :: i in db.keys && j in db.keys && SameKey(db.keys[i], db.keys[j]) ==> i == j
  }

  predicate SameKey(k: KeyRow, l: KeyRow) {
    !k.deleted && !l.deleted && k.tenantID == l.tenantID && k.providerID == l.providerID && k.name == l.name
  }

  ghost predicate RoutesUnique(db: Database) {
    forall i, j :: i in db.routes && j in db.routes && SameRoute(db.routes[i], db.routes[j]) ==> i == j
  }

  predicate SameRoute(r: RouteRow, q: RouteRow) {
    !r.deleted && !q.deleted && r.tenantID == q.tenantID && r.providerID == q.providerID && r.modelAlias == q.modelAlias
  }

  /** Every live key and route points, by a trimmed ID, at a live provider of its own tenant. */
  ghost predicate References(db: Database) {
    && (forall i :: i in db.keys && !db.keys[i].deleted ==> Refers(db, db.keys[i].providerID, db.keys[i].tenantID))
    && (forall i :: i in db.routes && !db.routes[i].deleted ==> Refers(db, db.routes[i].providerID, db.routes[i].tenantID))
  }

  predicate Refers(db: Database, providerID: string, tenantID: string) {
    Trim(providerID) == providerID && LiveProvider(db, providerID, tenantID)
  }

  ghost predicate Invariant(db: Database) {
    NamesUnique(db) && KeysUnique(db) && RoutesUnique(db) && References(db)
  }

  /** The tenant of the request carries no surrounding white space. */
  predicate TenantTrimmed(r: Request) {
    Trim(r.tenantID) == r.tenantID
  }

  predicate FixedProvider(db: Database, id: string) {
    id in db.providers && SystemProvider(db.providers[id])
  }

  predicate FixedKey(db: Database, id: string) {
    id in db.keys && (db.keys[id].isMust || FixedProvider(db, db.keys[id].providerID))
  }

  predicate FixedRoute(db: Database, id: string) {
    id in db.routes && FixedProvider(db, db.routes[id].providerID)
  }

  /** System providers, their keys and routes, and required keys: the same rows before and after, none
      changed, none lost, none gained. */
  ghost predicate SystemKept(db: Database, u: Database) {
    && (forall id :: FixedProvider(db, id) || FixedProvider(u, id) ==> id in db.providers && id in u.providers && u.providers[id] == db.providers[id])
    && (forall id :: FixedKey(db, id) || FixedKey(u, id) ==> id in db.keys && id in u.keys && u.keys[id] == db.keys[id])
    && (forall id :: FixedRoute(db, id) || FixedRoute(u, id) ==> id in db.routes && id in u.routes && u.routes[id] == db.routes[id])
  }

  // ---- one request: uniqueness --------------------------------------------------------------------------------

  lemma ProviderStepUnique(db: Database, r: Request, checks: Checks)
    requires Invariant(db) && Refusal(db, r, checks).None? && (r.CreateProvider? || r.UpdateProvider? || r.DeleteProvider?)
    ensures NamesUnique(After(db, r, checks))
  {
    hide Trim, EqualFold, ValidProvider, KeysUnique, RoutesUnique, References, Impact, SystemProvider;
  }

  lemma KeyStepUnique(db: Database, r: Request, checks: Checks)
    requires Invariant(db) && Refusal(db, r, checks).None? && TenantTrimmed(r) && (r.CreateKey? || r.UpdateKey? || r.RotateKey? || r.DeleteKey?)
    ensures KeysUnique(After(db, r, checks))
  {
    hide Trim, EqualFold, ValidKeyName, ValidSecret, NamesUnique, RoutesUnique, References, SystemProvider, Unusable;
  }

  lemma RouteStepUnique(db: Database, r: Request, checks: Checks)
    requires Invariant(db) && Refusal(db, r, checks).None? && TenantTrimmed(r) && (r.CreateRoute? || r.UpdateRoute? || r.DeleteRoute?)
    ensures RoutesUnique(After(db, r, checks))
  {
    hide Trim, EqualFold, ValidRoute, NamesUnique, KeysUnique, References, SystemProvider, Unusable;
  }

  // ---- one request: references ----------------------------------------------------------------------------------

  lemma TrimTwice(s: string)
    ensures Trim(Trim(s)) == Trim(s)
  {
    TrimIsTrimmed(s);
  }

  lemma ProviderStepRefers(db: Database, r: Request, checks: Checks)
    requires Invariant(db) && Refusal(db, r, checks).None? && TenantTrimmed(r) && (r.CreateProvider? || r.UpdateProvider? || r.DeleteProvider?)
    ensures References(After(db, r, checks))
  {
    hide Trim, EqualFold, ValidProvider, KeysUnique, RoutesUnique, NamesUnique, SystemProvider, ProviderNameTaken;
  }

  lemma NewKeyRefers(db: Database, r: Request, checks: Checks)
    requires Invariant(db) && Refusal(db, r, checks).None? && TenantTrimmed(r) && r.CreateKey?
    ensures References(After(db, r, checks))
  {
    TrimTwice(r.providerID);
    hide Trim, EqualFold, ValidKeyName, ValidSecret, KeysUnique, RoutesUnique, NamesUnique, SystemProvider, KeyNameTaken;
  }

  lemma ChangedKeyRefers(db: Database, r: Request, checks: Checks)
    requires Invariant(db) && Refusal(db, r, checks).None? && TenantTrimmed(r) && r.UpdateKey?
    ensures References(After(db, r, checks))
  {
    TrimTwice(TargetProvider(db.keys[Trim(r.id)].providerID, r.providerID));
    hide Trim, EqualFold, ValidKeyName, ValidSecret, KeysUnique, RoutesUnique, NamesUnique, SystemProvider, KeyNameTaken, TargetProvider;
  }

  lemma KeyStepRefers(db: Database, r: Request, checks: Checks)
    requires Invariant(db) && Refusal(db, r, checks).None? && TenantTrimmed(r) && (r.CreateKey? || r.UpdateKey? || r.RotateKey? || r.DeleteKey?)
    ensures References(After(db, r, checks))
  {
    if r.CreateKey? {
      NewKeyRefers(db, r, checks);
    } else if r.UpdateKey? {
      ChangedKeyRefers(db, r, checks);
    } else {
      hide Trim, EqualFold, KeysUnique, RoutesUnique, NamesUnique, SystemProvider;
    }
  }

  lemma RouteStepRefers(db: Database, r: Request, checks: Checks)
    requires Invariant(db) && Refusal(db, r, checks).None? && TenantTrimmed(r) && (r.CreateRoute? || r.UpdateRoute? || r.DeleteRoute?)
    ensures References(After(db, r, checks))
  {
    if r.CreateRoute? || r.UpdateRoute? { TrimTwice(r.route.providerID); }
    hide Trim, EqualFold, ValidRoute, KeysUnique, RoutesUnique, NamesUnique, SystemProvider, RouteTaken;
  }

  /** A request keeps the invariant. */
  lemma RequestKeepsInvariant(db: Database, r: Request, checks: Checks)
    requires Invariant(db) && TenantTrimmed(r)
    ensures Invariant(After(db, r, checks))
  {
    if Refusal(db, r, checks).None? {
      match r
      case CreateProvider(_, _, _) => ProviderStepUnique(db, r, checks); ProviderStepRefers(db, r, checks);
      case UpdateProvider(_, _, _) => ProviderStepUnique(db, r, checks); ProviderStepRefers(db, r, checks);
      case DeleteProvider(_, _) => ProviderStepUnique(db, r, checks); ProviderStepRefers(db, r, checks);
      case CreateKey(_, _, _, _, _, _, _) => KeyStepUnique(db, r, checks); KeyStepRefers(db, r, checks);
      case UpdateKey(_, _, _, _, _, _) => KeyStepUnique(db, r, checks); KeyStepRefers(db, r, checks);
      case RotateKey(_, _, _) => KeyStepUnique(db, r, checks); KeyStepRefers(db, r, checks);
      case DeleteKey(_, _) => KeyStepUnique(db, r, checks); KeyStepRefers(db, r, checks);
      case CreateRoute(_, _, _) => RouteStepUnique(db, r, checks); RouteStepRefers(db, r, checks);
      case UpdateRoute(_, _, _) => RouteStepUnique(db, r, checks); RouteStepRefers(db, r, checks);
      case DeleteRoute(_, _) => RouteStepUnique(db, r, checks); RouteStepRefers(db, r, checks);
    }
    hide Refusal, Trim;
  }

  // ---- one request: system rows -----------------------------------------------------------------------------------

  lemma ProviderStepSystem(db: Database, r: Request, checks: Checks)
    requires Invariant(db) && Refusal(db, r, checks).None? && (r.CreateProvider? || r.UpdateProvider? || r.DeleteProvider?)
    ensures SystemKept(db, After(db, r, checks))
  {
    hide Trim, ReservedName, ValidProvider, Invariant, Impact, ProviderNameTaken;
  }

  lemma OneKeyWritten(db: Database, id: string, row: KeyRow)
    requires !FixedKey(db, id) && !row.isMust && !FixedProvider(db, row.providerID)
    ensures SystemKept(db, db.(keys := db.keys[id := row]))
  {
    hide SystemProvider;
  }

  lemma OneRouteWritten(db: Database, id: string, row: RouteRow)
    requires !FixedRoute(db, id) && !FixedProvider(db, row.providerID)
    ensures SystemKept(db, db.(routes := db.routes[id := row]))
  {
    hide SystemProvider;
  }

  /** A key that may be changed is no system key, nor is its provider a system one. */
  lemma UnlockedKey(db: Database, tenantID: string, id: string)
    requires References(db) && LockedKey(db, tenantID, id).None?
    ensures Trim(id) in db.keys && !FixedKey(db, Trim(id)) && !db.keys[Trim(id)].isMust && !FixedProvider(db, db.keys[Trim(id)].providerID)
  {
    hide Trim, SystemProvider;
  }

  lemma UnlockedRoute(db: Database, tenantID: string, id: string)
    requires References(db) && LockedRoute(db, tenantID, id).None?
    ensures Trim(id) in db.routes && !FixedRoute(db, Trim(id)) && !FixedProvider(db, db.routes[Trim(id)].providerID)
  {
    hide Trim, SystemProvider;
  }

  lemma UsableIsNotFixed(db: Database, tenantID: string, providerID: string)
    requires Unusable(db, tenantID, providerID).None?
    ensures !FixedProvider(db, Trim(providerID))
  {
    hide Trim, SystemProvider;
  }

  lemma KeyStepSystem(db: Database, r: Request, checks: Checks)
    requires Invariant(db) && Refusal(db, r, checks).None? && (r.CreateKey? || r.UpdateKey? || r.RotateKey? || r.DeleteKey?)
    ensures SystemKept(db, After(db, r, checks))
  {
    hide Trim, SystemProvider, ValidKeyName, ValidSecret, KeyNameTaken, NamesUnique, KeysUnique, RoutesUnique, References,
         SystemKept, FixedKey, FixedProvider, Unusable, LockedKey, TargetProvider;
    if r.CreateKey? {
      UsableIsNotFixed(db, r.tenantID, r.providerID);
      NewKeyIsFree(db, r.id);
    } else {
      UnlockedKey(db, r.tenantID, r.id);
      if r.UpdateKey? { UsableIsNotFixed(db, r.tenantID, TargetProvider(db.keys[Trim(r.id)].providerID, r.providerID)); }
    }
    var id := if r.CreateKey? then r.id else Trim(r.id);
    OneKeyWritten(db, id, After(db, r, checks).keys[id]);
  }

  lemma NewKeyIsFree(db: Database, id: string)
    ensures id !in db.keys ==> !FixedKey(db, id)
    ensures id !in db.routes ==> !FixedRoute(db, id)
  {
  }

  lemma RouteStepSystem(db: Database, r: Request, checks: Checks)
    requires Invariant(db) && Refusal(db, r, checks).None? && (r.CreateRoute? || r.UpdateRoute? || r.DeleteRoute?)
    ensures SystemKept(db, After(db, r, checks))
  {
    hide Trim, SystemProvider, ValidRoute, RouteTaken, NamesUnique, KeysUnique, RoutesUnique, References,
         SystemKept, FixedRoute, FixedProvider, Unusable, LockedRoute;
    if !r.DeleteRoute? {
      TrimTwice(r.route.providerID);
      UsableIsNotFixed(db, r.tenantID, NormalRoute(r.route).providerID);
    }
    if r.CreateRoute? { NewKeyIsFree(db, r.id); } else { UnlockedRoute(db, r.tenantID, r.id); }
    var id := if r.CreateRoute? then r.id else Trim(r.id);
    OneRouteWritten(db, id, After(db, r, checks).routes[id]);
  }

  /** A request changes, removes and adds no system row. */
  lemma RequestKeepsSystemRows(db: Database, r: Request, checks: Checks)
    requires Invariant(db)
    ensures SystemKept(db, After(db, r, checks))
  {
    if Refusal(db, r, checks).None? {
      match r
      case CreateProvider(_, _, _) => ProviderStepSystem(db, r, checks);
      case UpdateProvider(_, _, _) => ProviderStepSystem(db, r, checks);
      case DeleteProvider(_, _) => ProviderStepSystem(db, r, checks);
      case CreateKey(_, _, _, _, _, _, _) => KeyStepSystem(db, r, checks);
      case UpdateKey(_, _, _, _, _, _) => KeyStepSystem(db, r, checks);
      case RotateKey(_, _, _) => KeyStepSystem(db, r, checks);
      case DeleteKey(_, _) => KeyStepSystem(db, r, checks);
      case CreateRoute(_, _, _) => RouteStepSystem(db, r, checks);
      case UpdateRoute(_, _, _) => RouteStepSystem(db, r, checks);
      case DeleteRoute(_, _) => RouteStepSystem(db, r, checks);
    } else {
      hide Refusal;
    }
  }

  // ---- runs ---------------------------------------------------------------------------------------------------

  function AfterAll(db: Database, rs: seq<Request>, checks: Checks): Database {
    if rs == [] then db else After(AfterAll(db, rs[..|rs| - 1], checks), rs[|rs| - 1], checks)
  }

  lemma SystemKeptTransitive(a: Database, b: Database, c: Database)
    requires SystemKept(a, b) && SystemKept(b, c)
    ensures SystemKept(a, c)
  {
    hide SystemProvider;
  }

  lemma SystemKeptReflexive(a: Database)
    ensures SystemKept(a, a)
  {
  }

  /** Over any run: names stay unique per tenant, key names and route aliases per tenant and provider, every
      key and route keeps pointing at a live provider of its tenant, and the system's rows stay as they were. */
  lemma {:induction false} RunsKeepIntegrity(db: Database, rs: seq<Request>, checks: Checks)
    requires Invariant(db) && forall r :: r in rs ==> TenantTrimmed(r)
    ensures Invariant(AfterAll(db, rs, checks)) && SystemKept(db, AfterAll(db, rs, checks))
  {
    hide Invariant, SystemKept, After, TenantTrimmed;
    if rs == [] {
      SystemKeptReflexive(db);
    } else {
      var front, last := rs[..|rs| - 1], rs[|rs| - 1];
      assert last in rs && forall r :: r in front ==> r in rs;
      RunsKeepIntegrity(db, front, checks);
      var before := AfterAll(db, front, checks);
      RequestKeepsInvariant(before, last, checks);
      RequestKeepsSystemRows(before, last, checks);
      SystemKeptTransitive(db, before, After(before, last, checks));
    }
  }

  /** Why tenants must come trimmed: the impact check compares the tenant as given, the lookup trims it. */
  lemma UntrimmedTenantOrphansKey(checks: Checks)
    ensures var provider := ProviderRow("t", "p", "u", "bearer", true, "", false, false);
            var key := KeyRow("t", "p1", "k", "s", 0, true, 0, 0, false, false);
            var db := Database(map["p1" := provider], map["k1" := key], map[]);
            Invariant(db) && !References(After(db, DeleteProvider(" t", "p1"), checks))
  {
    var provider := ProviderRow("t", "p", "u", "bearer", true, "", false, false);
    var key := KeyRow("t", "p1", "k", "s", 0, true, 0, 0, false, false);
    var db := Database(map["p1" := provider], map["k1" := key], map[]);
    TrimIsTrimmed("p1");
    TrimIsTrimmed("p");
    TrimIsTrimmed("t");
    assert Trim(" t") == "t" by { assert TrimLeft(" t") == TrimLeft("t"); }
    assert Invariant(db);
    assert Refusal(db, DeleteProvider(" t", "p1"), checks).None?;
    assert "k1" in After(db, DeleteProvider(" t", "p1"), checks).keys;
  }
}
