/** Dynamic client registration: what a request must say, and what every stored client
    then satisfies, whatever is registered, updated and deleted. */
module Registration {
  import opened Kv
  import Jwt

  const DEVICE_GRANT := "urn:ietf:params:oauth:grant-type:device_code"
  const GRANTS := ["authorization_code", "refresh_token", "client_credentials", DEVICE_GRANT]

  datatype Client = Client(
    secretHash: Option<string>,
    name: string,
    redirectUris: seq<string>,
    postLogoutUris: seq<string>,
    grantTypes: seq<string>,
    firstParty: bool,
    backchannelUri: Option<string>,
    backchannelSession: bool,
    idTokenAlg: Option<string>,
    authMethod: Option<string>,
    jwks: Option<seq<Jwt.Jwk>>,
    requirePar: bool)

  /** The registration document; `safeBackchannel` is the verdict on its logout URI. */
  datatype Request = Request(
    name: Option<string>,
    redirectUris: Option<seq<string>>,
    postLogoutUris: Option<seq<string>>,
    grantTypes: Option<seq<string>>,
    responseTypes: Option<seq<string>>,
    authMethod: Option<string>,
    jwks: Option<seq<Jwt.Jwk>>,
    requirePar: Option<bool>,
    backchannelUri: Option<string>,
    safeBackchannel: bool,
    backchannelSession: Option<bool>,
    idTokenAlg: Option<string>)

  datatype Gate = Open | Protected(required: Option<string>) | Disabled

  // ----- URIs -----

  /** Up to the first slash or colon. */
  function Host(rest: string): string {
    if rest == "" || rest[0] == '/' || rest[0] == ':' then "" else [rest[0]] + Host(rest[1..])
  }

  predicate IsLoopback(host: string) { host == "localhost" || host == "127.0.0.1" }

  predicate WebScheme(uri: string) { "http://" <= uri || "https://" <= uri }

  predicate RedirectUriOk(uri: string) {
    '#' !in uri && WebScheme(uri) && ("http://" <= uri ==> IsLoopback(Host(uri[7..])))
  }

  predicate PostLogoutUriOk(uri: string) { '#' !in uri && WebScheme(uri) }

  ghost predicate AllRedirectsOk(uris: seq<string>) { forall i :: 0 <= i < |uris| ==> RedirectUriOk(uris[i]) }

  ghost predicate AllPostLogoutsOk(uris: seq<string>) { forall i :: 0 <= i < |uris| ==> PostLogoutUriOk(uris[i]) }

  ghost predicate AllGrantsOk(grants: seq<string>) { forall i :: 0 <= i < |grants| ==> grants[i] in GRANTS }

  ghost predicate Ends(rest: string) { rest == "" || rest[0] == '/' || rest[0] == ':' }

  lemma {:induction false} HostSplits(rest: string)
    ensures Host(rest) <= rest && Ends(rest[|Host(rest)|..])
    ensures '/' !in Host(rest) && ':' !in Host(rest)
  {
    if !Ends(rest) {
      HostSplits(rest[1..]);
      assert rest[1..][|Host(rest[1..])|..] == rest[|Host(rest)|..];
    }
  }

  lemma {:induction false} HostOf(host: string, tail: string)
    requires '/' !in host && ':' !in host && Ends(tail)
    ensures Host(host + tail) == host
  {
    if host == "" {
      assert host + tail == tail;
    } else {
      assert (host + tail)[1..] == host[1..] + tail && (host + tail)[0] == host[0];
      HostOf(host[1..], tail);
    }
  }

  /** A loopback host, closed by the next slash, colon or the end. */
  ghost predicate LoopbackFirst(rest: string) {
    exists host, tail :: IsLoopback(host) && Ends(tail) && rest == host + tail
  }

  lemma HostMeaning(rest: string)
    ensures IsLoopback(Host(rest)) <==> LoopbackFirst(rest)
  {
    HostSplits(rest);
    assert rest == Host(rest) + rest[|Host(rest)|..];
    forall host, tail | IsLoopback(host) && Ends(tail) && rest == host + tail ensures Host(rest) == host {
      LoopbackPlain(host);
      HostOf(host, tail);
    }
  }

  lemma LoopbackPlain(host: string)
    requires IsLoopback(host)
    ensures '/' !in host && ':' !in host
  {
  }

  /** A redirect URI is accepted exactly if it has no fragment and is https, or plain
      http to a loopback name that the next slash, colon or the end closes. */
  lemma RedirectUriMeaning(uri: string)
    ensures RedirectUriOk(uri) <==> '#' !in uri && ("https://" <= uri || ("http://" <= uri && LoopbackFirst(uri[7..])))
  {
    if "http://" <= uri {
      HostMeaning(uri[7..]);
      assert uri[4] == "http://"[4] && "https://"[4] == 's';
    }
  }

  // ----- what is stored -----

  predicate SecretMethod(m: string) { m == "client_secret_basic" || m == "client_secret_post" }

  predicate KnownMethod(m: string) { SecretMethod(m) || m == "private_key_jwt" || m == "none" }

  /** RFC 7591 section 2, and the ties between method, secret and keys. */
  ghost predicate ClientOk(c: Client) {
    && |c.redirectUris| > 0 && AllRedirectsOk(c.redirectUris)
    && AllPostLogoutsOk(c.postLogoutUris) && AllGrantsOk(c.grantTypes)
    && !c.firstParty
    && c.authMethod.Some? && KnownMethod(c.authMethod.value)
    && (c.authMethod == Some("none") ==> c.secretHash.None? && c.jwks.None?)
    && (c.authMethod == Some("private_key_jwt") ==> c.jwks.Some?)
    && (c.idTokenAlg.Some? ==> c.idTokenAlg == Some("ES256"))
  }

  function Or<T>(o: Option<T>, default: T): T { if o.Some? then o.value else default }

  predicate BackchannelOk(r: Request) { r.backchannelUri.Some? && r.backchannelUri.value != "" ==> r.safeBackchannel }

  /** The request passes every check of a registration. */
  ghost predicate Registrable(r: Request) {
    && r.redirectUris.Some? && r.redirectUris.value != [] && AllRedirectsOk(r.redirectUris.value)
    && (r.postLogoutUris.Some? ==> AllPostLogoutsOk(r.postLogoutUris.value))
    && (r.grantTypes.Some? ==> AllGrantsOk(r.grantTypes.value))
    && (r.responseTypes.Some? ==> forall i :: 0 <= i < |r.responseTypes.value| ==> r.responseTypes.value[i] == "code")
    && KnownMethod(Or(r.authMethod, "client_secret_basic"))
    && (r.authMethod == Some("private_key_jwt") ==> r.jwks.Some?)
    && (r.authMethod == Some("none") ==> r.jwks.None?)
    && BackchannelOk(r)
    && (r.idTokenAlg.Some? ==> r.idTokenAlg.value == "RS256" || r.idTokenAlg.value == "ES256")
  }

  function NewClient(r: Request, secretHash: string): Client {
    var m := Or(r.authMethod, "client_secret_basic");
    Client(if SecretMethod(m) then Some(secretHash) else None, Or(r.name, "Dynamic Client"), Or(r.redirectUris, []),
           Or(r.postLogoutUris, []), Or(r.grantTypes, ["authorization_code", "refresh_token"]), false, r.backchannelUri,
           Or(r.backchannelSession, false), if r.idTokenAlg == Some("ES256") then r.idTokenAlg else None, Some(m),
               r.jwks,
           Or(r.requirePar, false))
  }

  ghost predicate ListsOk(r: Request) {
    && (r.redirectUris.Some? ==> r.redirectUris.value != [] && AllRedirectsOk(r.redirectUris.value))
    && (r.postLogoutUris.Some? ==> AllPostLogoutsOk(r.postLogoutUris.value))
    && (r.grantTypes.Some? ==> AllGrantsOk(r.grantTypes.value))
  }

  predicate OptionsOk(r: Request) {
    BackchannelOk(r) && (r.idTokenAlg.Some? ==> r.idTokenAlg.value in ["RS256", "", "ES256"])
  }

  /** The method the record would have, and the ties to its secret and keys. */
  predicate MethodOk(c: Client, r: Request) {
    && (r.authMethod.Some? ==> KnownMethod(r.authMethod.value))
    && (r.authMethod == Some("private_key_jwt") ==> r.jwks.Some? || c.jwks.Some?)
    && (r.authMethod == Some("none") ==> c.secretHash.None?)
    && !((r.jwks.Some? || c.jwks.Some?) && (if r.authMethod.Some? then r.authMethod else c.authMethod) == Some("none"))
  }

  /** The request passes every check of an update of `c`. */
  ghost predicate Updatable(c: Client, r: Request) { ListsOk(r) && OptionsOk(r) && MethodOk(c, r) }

  function WithLists(c: Client, r: Request): Client {
    c.(redirectUris := Or(r.redirectUris, c.redirectUris), postLogoutUris := Or(r.postLogoutUris, c.postLogoutUris),
       name := if r.name.Some? && r.name.value != "" then r.name.value else c.name,
       grantTypes := Or(r.grantTypes, c.grantTypes))
  }

  function WithOptions(c: Client, r: Request): Client {
    c.(backchannelUri := if r.backchannelUri == Some("") then None
                         else if r.backchannelUri.Some? then r.backchannelUri else c.backchannelUri,
       backchannelSession := Or(r.backchannelSession, c.backchannelSession),
       idTokenAlg := if r.idTokenAlg.None? then c.idTokenAlg else if r.idTokenAlg.value == "ES256" then Some("ES256")
           else None)
  }

  function WithMethod(c: Client, r: Request): Client {
    c.(authMethod := if r.authMethod.Some? then r.authMethod else c.authMethod,
       jwks := if r.jwks.Some? then r.jwks else c.jwks, requirePar := Or(r.requirePar, c.requirePar))
  }

  /** The fields a request names are replaced, all others kept. */
  function Changed(c: Client, r: Request): Client { WithMethod(WithOptions(WithLists(c, r), r), r) }

  /** A field that is named takes its value, any other stays. */
  ghost predicate NamedOrKept<T>(named: Option<T>, before: T, after: T) {
    after == if named.Some? then named.value else before
  }

  /** An update changes what it names and nothing else. An empty name counts as none, an
      empty logout URI removes it, and an algorithm other than ES256 is the default one. */
  lemma FieldsNamedOrKept(c: Client, r: Request)
    ensures var d := Changed(c, r);
            && NamedOrKept(if r.name == Some("") then None else r.name, c.name, d.name)
            && NamedOrKept(r.redirectUris, c.redirectUris, d.redirectUris)
            && NamedOrKept(r.postLogoutUris, c.postLogoutUris, d.postLogoutUris)
            && NamedOrKept(r.grantTypes, c.grantTypes, d.grantTypes)
            && NamedOrKept(r.requirePar, c.requirePar, d.requirePar)
            && NamedOrKept(r.backchannelSession, c.backchannelSession, d.backchannelSession)
            && d.backchannelUri == (if r.backchannelUri == Some("") then None
                                    else if r.backchannelUri.Some? then r.backchannelUri else c.backchannelUri)
            && d.authMethod == (if r.authMethod.Some? then r.authMethod else c.authMethod)
            && d.jwks == (if r.jwks.Some? then r.jwks else c.jwks)
            && (r.idTokenAlg.None? ==> d.idTokenAlg == c.idTokenAlg)
            && (r.idTokenAlg.Some? ==> (d.idTokenAlg == Some("ES256") <==> r.idTokenAlg == Some("ES256")))
            && (r.idTokenAlg.Some? ==> d.idTokenAlg.None? || d.idTokenAlg == Some("ES256"))
            && d.secretHash == c.secretHash && d.firstParty == c.firstParty
  {
  }

  /** An accepted registration document is accepted again as an update, and leaves its
      client as it was exactly unless it has an empty logout URI, which only an update drops. */
  lemma RegisteredAgain(r: Request, secretHash: string)
    requires Registrable(r)
    ensures var c := NewClient(r, secretHash);
            Updatable(c, r) && (Changed(c, r) == c <==> r.backchannelUri != Some(""))
  {
  }

  /** The same update twice is the update once. */
  lemma UpdatedTwice(c: Client, r: Request)
    ensures Changed(Changed(c, r), r) == Changed(c, r)
    ensures Updatable(c, r) ==> Updatable(Changed(c, r), r)
  {
  }

  lemma NewClientOk(r: Request, secretHash: string)
    requires Registrable(r)
    ensures ClientOk(NewClient(r, secretHash))
  {
    var c := NewClient(r, secretHash);
    assert c.redirectUris == r.redirectUris.value && AllGrantsOk(["authorization_code", "refresh_token"]);
  }

  lemma ChangedOk(c: Client, r: Request)
    requires ClientOk(c) && Updatable(c, r)
    ensures ClientOk(Changed(c, r))
  {
    var d := Changed(c, r);
    assert d.redirectUris == if r.redirectUris.Some? then r.redirectUris.value else c.redirectUris;
  }

  // ----- the endpoint -----

  predicate Passes(gate: Gate, bearer: Option<string>) {
    match gate
    case Open => true
    case Protected(required) => required.Some? && bearer == required
    case Disabled => false
  }

  datatype Op =
    | Register(id: string, request: Request, bearer: Option<string>, secret: string, newToken: string)
    | Update(id: string, request: Request, tokenHash: Option<string>)
    | Delete(id: string, tokenHash: Option<string>)

  datatype State = State(clients: map<string, Client>, regTokens: map<string, string>)

  predicate Authorised(s: State, id: string, tokenHash: Option<string>) {
    id in s.regTokens && tokenHash == Some(s.regTokens[id])
  }

  /** A new secret is stored by its keyed hash. */
  ghost function Step(hmac: string -> string, gate: Gate, s: State, op: Op): State {
    match op
    case Register(id, r, bearer, secret, newToken) =>
      if Passes(gate, bearer) && Registrable(r) then
        State(s.clients[id := NewClient(r, hmac(secret))], s.regTokens[id := newToken])
      else s
    case Update(id, r, tokenHash) =>
      if Authorised(s, id, tokenHash) && id in s.clients && Updatable(s.clients[id], r) then
        s.(clients := s.clients[id := Changed(s.clients[id], r)])
      else s
    case Delete(id, tokenHash) =>
      if Authorised(s, id, tokenHash) && id != "lid-admin" && id in s.clients
          then State(s.clients - {id}, s.regTokens - {id})
      else s
  }

  ghost function Run(hmac: string -> string, gate: Gate, s: State, ops: seq<Op>): State {
    if ops == [] then s else Step(hmac, gate, Run(hmac, gate, s, ops[..|ops| - 1]), ops[|ops| - 1])
  }

  /** Reached from any built-in clients by registrations, updates and deletions. */
  ghost predicate Reachable(hmac: string -> string, gate: Gate, s: State) {
    exists builtin, ops :: s == Run(hmac, gate, State(builtin, map[]), ops)
  }

  /** The stored hash, if any, is that of a secret that was given out. */
  ghost predicate Hashed(hmac: string -> string, c: Client) {
    c.secretHash.Some? ==> exists secret: string :: c.secretHash.value == hmac(secret)
  }

  /** Each client that has a registration token, that is, each registered one. */
  ghost predicate AllOk(hmac: string -> string, s: State) {
    forall id :: id in s.regTokens && id in s.clients ==> ClientOk(s.clients[id]) && Hashed(hmac, s.clients[id])
  }

  lemma {:induction false} RunOk(hmac: string -> string, gate: Gate, builtin: map<string, Client>, ops: seq<Op>)
    ensures AllOk(hmac, Run(hmac, gate, State(builtin, map[]), ops))
  {
    if ops != [] {
      RunOk(hmac, gate, builtin, ops[..|ops| - 1]);
      match ops[|ops| - 1] {
        case Register(id, r, bearer, secret, newToken) =>
          if Registrable(r) {
            NewClientOk(r, hmac(secret));
          }
        case Update(id, r, tokenHash) =>
          var s := Run(hmac, gate, State(builtin, map[]), ops[..|ops| - 1]);
          if Authorised(s, id, tokenHash) && id in s.clients && Updatable(s.clients[id], r) {
            ChangedOk(s.clients[id], r);
          }
        case Delete(id, tokenHash) =>
      }
    }
  }

  /** Over every sequence of registrations, updates and deletions, starting beside any
      built-in clients, each registered client keeps the rules. */
  lemma EveryClientOk(hmac: string -> string, gate: Gate, s: State)
    requires Reachable(hmac, gate, s)
    ensures AllOk(hmac, s)
  {
    var builtin, ops :| s == Run(hmac, gate, State(builtin, map[]), ops);
    RunOk(hmac, gate, builtin, ops);
  }

  /** A secret is issued once, at registration, and never changed or added later. */
  lemma SecretFixed(c: Client, r: Request)
    ensures Changed(c, r).secretHash == c.secretHash
    ensures c.secretHash.Some? && Updatable(c, r) ==>
              Changed(c, r).authMethod == c.authMethod || Changed(c, r).authMethod != Some("none")
  {
  }

  // ----- the handlers -----

  method CheckRedirectUris(uris: seq<string>) returns (ok: bool)
    ensures ok <==> AllRedirectsOk(uris)
  {
    for i := 0 to |uris|
      invariant forall j :: 0 <= j < i ==> RedirectUriOk(uris[j])
    {
      if !RedirectUriOk(uris[i]) { return false; }
    }
    ok := true;
  }

  method CheckPostLogoutUris(uris: seq<string>) returns (ok: bool)
    ensures ok <==> AllPostLogoutsOk(uris)
  {
    for i := 0 to |uris|
      invariant forall j :: 0 <= j < i ==> PostLogoutUriOk(uris[j])
    {
      if !PostLogoutUriOk(uris[i]) { return false; }
    }
    ok := true;
  }

  method CheckGrants(grants: seq<string>) returns (ok: bool)
    ensures ok <==> AllGrantsOk(grants)
  {
    for i := 0 to |grants|
      invariant forall j :: 0 <= j < i ==> grants[j] in GRANTS
    {
      if grants[i] !in GRANTS { return false; }
    }
    ok := true;
  }

  method CheckResponseTypes(types: seq<string>) returns (ok: bool)
    ensures ok <==> forall i :: 0 <= i < |types| ==> types[i] == "code"
  {
    for i := 0 to |types|
      invariant forall j :: 0 <= j < i ==> types[j] == "code"
    {
      if types[i] != "code" { return false; }
    }
    ok := true;
  }

  /** The lists a registration names, in the order they are looked at. */
  method CheckLists(r: Request) returns (ok: bool)
    ensures ok <==>
              && r.redirectUris.Some? && r.redirectUris.value != [] && AllRedirectsOk(r.redirectUris.value)
              && (r.postLogoutUris.Some? ==> AllPostLogoutsOk(r.postLogoutUris.value))
              && (r.grantTypes.Some? ==> AllGrantsOk(r.grantTypes.value))
              && (r.responseTypes.Some? ==> forall i :: 0 <= i < |r.responseTypes.value| ==>
                  r.responseTypes.value[i] == "code")
  {
    if r.redirectUris.None? || r.redirectUris.value == [] { return false; }
    ok := CheckRedirectUris(r.redirectUris.value);
    if !ok { return; }
    if r.postLogoutUris.Some? {
      ok := CheckPostLogoutUris(r.postLogoutUris.value);
      if !ok { return; }
    }
    if r.grantTypes.Some? {
      ok := CheckGrants(r.grantTypes.value);
      if !ok { return; }
    }
    if r.responseTypes.Some? {
      ok := CheckResponseTypes(r.responseTypes.value);
    }
  }

  method CheckRegistration(r: Request) returns (ok: bool)
    ensures ok <==> Registrable(r)
  {
    ok := CheckLists(r);
    if !ok { return; }
    var m := Or(r.authMethod, "client_secret_basic");
    if !KnownMethod(m) { return false; }
    if m == "private_key_jwt" && r.jwks.None? { return false; }
    if m == "none" && r.jwks.Some? { return false; }
    if r.backchannelUri.Some? && r.backchannelUri.value != "" && !r.safeBackchannel { return false; }
    if r.idTokenAlg.Some? && r.idTokenAlg.value != "RS256" && r.idTokenAlg.value != "ES256" { return false; }
  }

  method UpdateLists(c: Client, r: Request) returns (d: Option<Client>)
    ensures d == if ListsOk(r) then Some(WithLists(c, r)) else None
  {
    var client, ok := c, true;
    if r.redirectUris.Some? {
      if r.redirectUris.value == [] { return None; }
      ok := CheckRedirectUris(r.redirectUris.value);
      if !ok { return None; }
      client := client.(redirectUris := r.redirectUris.value);
    }
    if r.postLogoutUris.Some? {
      ok := CheckPostLogoutUris(r.postLogoutUris.value);
      if !ok { return None; }
      client := client.(postLogoutUris := r.postLogoutUris.value);
    }
    if r.name.Some? && r.name.value != "" {
      client := client.(name := r.name.value);
    }
    if r.grantTypes.Some? {
      ok := CheckGrants(r.grantTypes.value);
      if !ok { return None; }
      client := client.(grantTypes := r.grantTypes.value);
    }
    d := Some(client);
  }

  method UpdateOptions(c: Client, r: Request) returns (d: Option<Client>)
    ensures d == if OptionsOk(r) then Some(WithOptions(c, r)) else None
  {
    var client := c;
    if r.backchannelUri.Some? {
      if r.backchannelUri.value != "" && !r.safeBackchannel { return None; }
      client := client.(backchannelUri := if r.backchannelUri.value == "" then None else r.backchannelUri);
    }
    if r.backchannelSession.Some? {
      client := client.(backchannelSession := r.backchannelSession.value);
    }
    if r.idTokenAlg.Some? {
      var alg := r.idTokenAlg.value;
      if alg !in ["RS256", "", "ES256"] { return None; }
      client := client.(idTokenAlg := if alg == "ES256" then Some("ES256") else None);
    }
    d := Some(client);
  }

  method UpdateMethod(c: Client, r: Request) returns (d: Option<Client>)
    ensures d == if MethodOk(c, r) then Some(WithMethod(c, r)) else None
  {
    var client := c;
    if r.authMethod.Some? {
      var m := r.authMethod.value;
      if !KnownMethod(m) { return None; }
      if m == "private_key_jwt" && r.jwks.None? && client.jwks.None? { return None; }
      if m == "none" && client.secretHash.Some? { return None; }
      client := client.(authMethod := Some(m));
    }
    if r.jwks.Some? {
      client := client.(jwks := r.jwks);
    }
    if client.jwks.Some? && client.authMethod == Some("none") { return None; }
    if r.requirePar.Some? {
      client := client.(requirePar := r.requirePar.value);
    }
    d := Some(client);
  }

  class Registry {
    const hmac: string -> string
    const gate: Gate
    var clients: map<string, Client>
    var regTokens: map<string, string>

    constructor (hmac: string -> string, gate: Gate, builtin: map<string, Client>)
      ensures this.hmac == hmac && this.gate == gate && Contents() == State(builtin, map[])
    {
      this.hmac := hmac;
      this.gate := gate;
      clients := builtin;
      regTokens := map[];
    }

    function Contents(): State
      reads this
    {
      State(clients, regTokens)
    }

    method RegisterClient(id: string, r: Request, bearer: Option<string>, secret: string, newToken: string)
      returns (client: Option<Client>)
      modifies this
      ensures Contents() == Step(hmac, gate, old(Contents()), Register(id, r, bearer, secret, newToken))
      ensures client == if Passes(gate, bearer) && Registrable(r) then Some(NewClient(r, hmac(secret))) else None
    {
      if !Passes(gate, bearer) { return None; }
      var ok := CheckRegistration(r);
      if !ok { return None; }
      client := Some(NewClient(r, hmac(secret)));
      clients := clients[id := client.value];
      regTokens := regTokens[id := newToken];
    }

    /** A rejected update saves nothing; an accepted one the changed record. */
    method UpdateClient(id: string, r: Request, tokenHash: Option<string>) returns (client: Option<Client>)
      modifies this
      ensures Contents() == Step(hmac, gate, old(Contents()), Update(id, r, tokenHash))
      ensures client.Some? <==> Authorised(old(Contents()), id, tokenHash) && id in old(clients)
                                && Updatable(old(clients)[id], r)
      ensures client.None? ==> Contents() == old(Contents())
      ensures client.Some? ==> id in clients && clients[id] == client.value
    {
      if id !in regTokens || tokenHash != Some(regTokens[id]) { return None; }
      if id !in clients { return None; }
      client := UpdateLists(clients[id], r);
      if client.None? { return; }
      client := UpdateOptions(client.value, r);
      if client.None? { return; }
      client := UpdateMethod(client.value, r);
      if client.None? { return; }
      clients := clients[id := client.value];
    }

    method DeleteClient(id: string, tokenHash: Option<string>) returns (deleted: bool)
      modifies this
      ensures Contents() == Step(hmac, gate, old(Contents()), Delete(id, tokenHash))
      ensures deleted <==> Authorised(old(Contents()), id, tokenHash) && id in old(clients) && id != "lid-admin"
      ensures Contents() == if deleted then State(old(clients) - {id}, old(regTokens) - {id}) else old(Contents())
    {
      deleted := false;
      if id !in regTokens || tokenHash != Some(regTokens[id]) { return; }
      if id == "lid-admin" { return; }
      if id !in clients { return; }
      clients := clients - {id};
      regTokens := regTokens - {id};
      deleted := true;
    }
  }
}
