/** The decision tree of `/authorize`: from a query and what the browser holds to a
    refusal, an error redirect, a code minted from an existing session, or a login
    session to be completed. */
module Authorize {
  import opened Kv
  import Decimal
  import Lists

  const ACR_TOTP := "urn:lattice-id:mfa:totp"
  const REQUEST_URI_PREFIX := "urn:ietf:params:oauth:request_uri:"
  const TTL_AUTH_CODE: nat := 300

  type Params = map<string, string>

  datatype Client = Client(
    redirectUris: seq<string>,
    firstParty: bool,
    requirePar: bool,
    codeGrant: bool)

  /** The browser's sign-on session. */
  datatype Sso = Sso(user: string, authTime: nat, amr: seq<string>)

  datatype Requested = Requested(idToken: seq<string>, userinfo: seq<string>)

  datatype ClaimsRequest = ClaimsRequest(names: Requested, acr: seq<string>)

  /** A pushed request: its parameters replace those of the query. */
  datatype Par = Par(client: string, params: Params, expiresAt: nat)

  /** What the handler learns besides the parameters: the session the cookie names,
      whether the ID-token hint is valid and whose it is, the parsed `claims`, and
      whether the session's user is active and not revoked since. */
  datatype Browser = Browser(
    sso: Option<Sso>,
    hint: Option<string>,
    claims: Option<ClaimsRequest>,
    userOk: bool)

  datatype AuthSession = AuthSession(
    client: string,
    redirectUri: string,
    challenge: string,
    challengeMethod: string,
    state: string,
    scope: string,
    nonce: string,
    acrValues: seq<string>,
    requested: Requested,
    needsConsent: bool,
    forceConsent: bool,
    sid: nat)

  datatype AuthCode = AuthCode(
    user: string,
    client: string,
    redirectUri: string,
    challenge: string,
    challengeMethod: string,
    nonce: string,
    scope: string,
    authTime: nat,
    amr: seq<string>,
    acr: Option<string>,
    requested: Requested,
    csrf: nat,
    expiresAt: nat,
    state: string,
    sid: nat,
    pendingConsent: bool)

  datatype Decision =
    | Refused
    | Redirected(error: string)
    | Minted(code: AuthCode)
    | LoginShown(session: AuthSession)

  /** The tables the decision reads; `admin` is the built-in client, registered on
      first use. `drawn` numbers the random identifiers drawn so far. */
  datatype Store = Store(
    issuer: string,
    now: nat,
    clients: map<string, Client>,
    admin: Client,
    consents: map<(string, string), set<string>>,
    drawn: nat)

  // ----- parameters -----

  predicate NoDuplicates(query: seq<(string, string)>) {
    forall i, j :: 0 <= i < j < |query| ==> query[i].0 != query[j].0
  }

  function ToParams(query: seq<(string, string)>): Params {
    if query == [] then map[] else ToParams(query[1..])[query[0].0 := query[0].1]
  }

  function Get(p: Params, key: string): Option<string> { if key in p then Some(p[key]) else None }

  function GetOr(p: Params, key: string, default: string): string { if key in p then p[key] else default }

  /** The parameters that count, and whether they were pushed. */
  function Effective(query: seq<(string, string)>, par: map<string, Par>, now: nat): Option<(Params, bool)> {
    if !NoDuplicates(query) then None
    else
      var q := ToParams(query);
      if "request_uri" !in q then Some((q, false))
      else
        var uri := q["request_uri"];
        if !(REQUEST_URI_PREFIX <= uri) || uri !in par || par[uri].expiresAt < now then None
        else if "client_id" in q && q["client_id"] != par[uri].client then None
        else if q.Keys - {"client_id", "request_uri"} != {} then None
        else Some((par[uri].params, true))
  }

  function ClientOf(st: Store, id: string): Option<Client> {
    if id in st.clients then Some(st.clients[id]) else if id == "lid-admin" then Some(st.admin) else None
  }

  predicate ControlFree(s: string) { forall i :: 0 <= i < |s| ==> s[i] as int >= 0x20 && s[i] as int != 0x7f }

  predicate RedirectRegistered(st: Store, c: Client, uri: string) {
    uri in c.redirectUris || (c.firstParty && |uri| > 0 && uri[0] == '/' && st.issuer + uri in c.redirectUris)
  }

  predicate FirstParty(c: Client, id: string) { c.firstParty || id == "lid-admin" || id == "lid-default" }

  /** Before any redirect: a known client and one of its registered URIs. */
  predicate Trusted(st: Store, p: Params) {
    && "client_id" in p && "redirect_uri" in p
    && ControlFree(p["redirect_uri"])
    && ClientOf(st, p["client_id"]).Some?
    && RedirectRegistered(st, ClientOf(st, p["client_id"]).value, p["redirect_uri"])
  }

  /** The errors found before the session is looked at, in order. */
  function RequestError(p: Params): Option<string> {
    if "response_type" !in p then Some("invalid_request")
    else if p["response_type"] != "code" then Some("unsupported_response_type")
    else None
  }

  function PkceError(p: Params): Option<string> {
    if GetOr(p, "code_challenge_method", "S256") != "S256" then Some("invalid_request")
    else if GetOr(p, "code_challenge", "") == "" then Some("invalid_request")
    else if "max_age" in p && Decimal.ParseU64(p["max_age"]).None? then Some("invalid_request")
    else None
  }

  function Minus(a: nat, b: nat): nat { if a < b then 0 else a - b }

  /** The browser's session, unless the request asks for a newer login. */
  function Session(p: Params, b: Browser, now: nat): Option<Sso> {
    if GetOr(p, "prompt", "") == "login" || b.sso.None? then None
    else
      match Get(p, "max_age")
      case None => b.sso
      case Some(text) =>
        (match Decimal.ParseU64(text)
         case Some(age) => if Minus(now, b.sso.value.authTime) <= age then b.sso else None
         case None => None)
  }

  function Claims(p: Params, b: Browser): Option<ClaimsRequest> {
    if GetOr(p, "claims", "") == "" then Some(ClaimsRequest(Requested([], []), [])) else b.claims
  }

  function AcrAsked(p: Params, c: ClaimsRequest): seq<string> {
    var acr := Lists.AcrValues(GetOr(p, "acr_values", ""));
    if acr == [] then c.acr else acr
  }

  predicate HintAsked(p: Params) { GetOr(p, "id_token_hint", "") != "" }

  function AcrError(p: Params, b: Browser): Option<string> {
    match Claims(p, b)
    case None => Some("invalid_request")
    case Some(c) =>
      if Lists.AcrValues(GetOr(p, "acr_values", "")) != [] && c.acr != [] then Some("invalid_request")
      else if exists v :: v in AcrAsked(p, c) && v != ACR_TOTP then Some("access_denied")
      else if HintAsked(p) && b.hint.None? then Some("invalid_request")
      else None
  }

  // ----- the two ways on -----

  function AcrFromAmr(amr: seq<string>): Option<string> {
    if "mfa" in amr && "otp" in amr then Some(ACR_TOTP) else None
  }

  predicate AcrSatisfied(asked: seq<string>, amr: seq<string>) {
    asked == [] || ((forall v :: v in asked ==> v == ACR_TOTP) && "mfa" in amr && "otp" in amr)
  }

  predicate HasConsented(consents: map<(string, string), set<string>>, user: string, client: string, scope: string) {
    (user, client) in consents && Lists.Words(scope) <= consents[(user, client)]
  }

  predicate ConsentNeeded(st: Store, p: Params, c: Client, user: string)
    requires "client_id" in p
  {
    GetOr(p, "prompt", "") == "consent"
    || (!FirstParty(c, p["client_id"]) && !HasConsented(st.consents, user, p["client_id"], GetOr(p, "scope", "openid")))
  }

  predicate Reusable(p: Params, b: Browser, sso: Sso, asked: seq<string>) {
    b.userOk && (HintAsked(p) ==> b.hint == Some(sso.user)) && AcrSatisfied(asked, sso.amr)
  }

  function SsoCode(st: Store, p: Params, c: Client, sso: Sso, names: Requested): AuthCode
    requires Trusted(st, p)
  {
    AuthCode(sso.user, p["client_id"], p["redirect_uri"], GetOr(p, "code_challenge", ""), "S256",
             GetOr(p, "nonce", ""), GetOr(p, "scope", "openid"), sso.authTime, sso.amr, AcrFromAmr(sso.amr), names,
             st.drawn + 1, st.now + TTL_AUTH_CODE, GetOr(p, "state", ""), st.drawn + 2,
                 ConsentNeeded(st, p, c, sso.user))
  }

  function NewSession(st: Store, p: Params, c: Client, acr: seq<string>, names: Requested): AuthSession
    requires Trusted(st, p)
  {
    AuthSession(p["client_id"], p["redirect_uri"], GetOr(p, "code_challenge", ""), "S256", GetOr(p, "state", ""),
                GetOr(p, "scope", "openid"), GetOr(p, "nonce", ""), acr, names,
                GetOr(p, "prompt", "") == "consent" || !FirstParty(c, p["client_id"]),
                GetOr(p, "prompt", "") == "consent", st.drawn + 2)
  }

  /** With a valid request: reuse the session if it satisfies the request, else show
      the login page, unless the request forbids any page. */
  function Proceed(st: Store, p: Params, b: Browser, c: Client, claims: ClaimsRequest): Decision
    requires Trusted(st, p)
  {
    var silent := GetOr(p, "prompt", "") == "none";
    var sso := Session(p, b, st.now);
    var asked := AcrAsked(p, claims);
    if sso.Some? && Reusable(p, b, sso.value, asked) then
      if silent && ConsentNeeded(st, p, c, sso.value.user) then Redirected("consent_required")
      else Minted(SsoCode(st, p, c, sso.value, claims.names))
    else if silent then
      Redirected(if sso.Some? && !AcrSatisfied(asked, sso.value.amr) then "interaction_required" else "login_required")
    else LoginShown(NewSession(st, p, c, asked, claims.names))
  }

  function Decide(st: Store, query: seq<(string, string)>, par: map<string, Par>, b: Browser): Decision {
    match Effective(query, par, st.now)
    case None => Refused
    case Some((p, pushed)) =>
      if !Trusted(st, p) then Refused
      else if RequestError(p).Some? then Redirected(RequestError(p).value)
      else
        var c := ClientOf(st, p["client_id"]).value;
        if c.requirePar && !pushed then Refused
        else if PkceError(p).Some? then Redirected(PkceError(p).value)
        else if GetOr(p, "prompt", "") == "none" && Session(p, b, st.now).None? then Redirected("login_required")
        else if AcrError(p, b).Some? then Redirected(AcrError(p, b).value)
        else Proceed(st, p, b, c, Claims(p, b).value)
  }

  // ----- what every decision keeps -----

  /** The fields a code or a session takes over from the request, RFC 7636 included. */
  predicate Binds(p: Params, client: string, redirectUri: string, challenge: string, nonce: string, scope: string,
      state: string) {
    && Get(p, "client_id") == Some(client)
    && Get(p, "redirect_uri") == Some(redirectUri)
    && Get(p, "code_challenge") == Some(challenge) && challenge != ""
    && nonce == GetOr(p, "nonce", "") && scope == GetOr(p, "scope", "openid") && state == GetOr(p, "state", "")
  }

  predicate BindsCode(p: Params, a: AuthCode) {
    && Binds(p, a.client, a.redirectUri, a.challenge, a.nonce, a.scope, a.state) && a.challengeMethod == "S256"
    && a.acr == AcrFromAmr(a.amr)
  }

  /** The code is for the user of this login, and says when and how it happened. */
  predicate Identifies(who: Sso, a: AuthCode) {
    a.user == who.user && a.authTime == who.authTime && a.amr == who.amr
  }

  predicate BindsSession(p: Params, a: AuthSession) {
    Binds(p, a.client, a.redirectUri, a.challenge, a.nonce, a.scope, a.state) && a.challengeMethod == "S256"
  }

  predicate Started(d: Decision) { d.Minted? || d.LoginShown? }

  /** Whatever is stored carries the effective request, for a client and a redirect
      URI it registered; a code is for the user of the browser's session; and a request
      that forbids pages neither opens a login nor leaves a consent pending. */
  lemma DecisionBinds(st: Store, query: seq<(string, string)>, par: map<string, Par>, b: Browser)
    requires Started(Decide(st, query, par, b))
    ensures var d := Decide(st, query, par, b);
            && Effective(query, par, st.now).Some?
            && var (p, pushed) := Effective(query, par, st.now).value;
            && Trusted(st, p)
            && (ClientOf(st, p["client_id"]).value.requirePar ==> pushed)
            && (d.Minted? ==> BindsCode(p, d.code) && b.sso.Some? && Identifies(b.sso.value, d.code))
            && (d.LoginShown? ==> BindsSession(p, d.session))
            && (GetOr(p, "prompt", "") == "none" ==> d.Minted? && !d.code.pendingConsent)
  {
  }

  /** The session of the browser answers the request: recent enough, of an active user, the
      one the hint is about, with every ACR that is asked for. */
  ghost predicate Answers(st: Store, p: Params, b: Browser, claims: ClaimsRequest) {
    && b.sso.Some? && b.userOk && GetOr(p, "prompt", "") != "login"
    && ("max_age" in p ==>
          Decimal.ParseU64(p["max_age"]).Some? && st.now <= b.sso.value.authTime + Decimal.ParseU64(p["max_age"]).value)
    && (HintAsked(p) ==> b.hint == Some(b.sso.value.user))
    && (forall v :: v in AcrAsked(p, claims) ==> v == ACR_TOTP && AcrFromAmr(b.sso.value.amr) == Some(v))
  }

  lemma ProceedMints(st: Store, p: Params, b: Browser, c: Client, claims: ClaimsRequest)
    requires Trusted(st, p) && Claims(p, b) == Some(claims)
    ensures Proceed(st, p, b, c, claims).Minted? <==>
              && Answers(st, p, b, claims)
              && (GetOr(p, "prompt", "") == "none" ==> !ConsentNeeded(st, p, c, b.sso.value.user))
  {
    if AcrAsked(p, claims) != [] {
      assert AcrAsked(p, claims)[0] in AcrAsked(p, claims);
    }
  }

  /** A well-formed authorization request with a challenge; RFC 6749 section 4.1.1 and RFC 7636. */
  ghost predicate WellFormed(p: Params, b: Browser) {
    && Get(p, "response_type") == Some("code")
    && GetOr(p, "code_challenge_method", "S256") == "S256" && GetOr(p, "code_challenge", "") != ""
    && Claims(p, b).Some?
    && (Lists.AcrValues(GetOr(p, "acr_values", "")) == [] || Claims(p, b).value.acr == [])
  }

  /** A code without a login: exactly for a well-formed request of a known client to one of
      its redirect URIs, pushed if the client must push, that the browser's session
      answers, with no page needed where none is allowed. */
  lemma MintedIff(st: Store, query: seq<(string, string)>, par: map<string, Par>, b: Browser)
    ensures Decide(st, query, par, b).Minted? <==>
              && Effective(query, par, st.now).Some?
              && var (p, pushed) := Effective(query, par, st.now).value;
              && Trusted(st, p) && WellFormed(p, b)
              && var c := ClientOf(st, p["client_id"]).value;
              && (c.requirePar ==> pushed)
              && Answers(st, p, b, Claims(p, b).value)
              && (GetOr(p, "prompt", "") == "none" ==> !ConsentNeeded(st, p, c, b.sso.value.user))
  {
    match Effective(query, par, st.now) {
      case None =>
      case Some((p, pushed)) =>
        if Decide(st, query, par, b).Minted? {
          MintedMeans(st, query, par, b, p, pushed);
        }
        if Trusted(st, p) && Claims(p, b).Some? {
          ProceedMints(st, p, b, ClientOf(st, p["client_id"]).value, Claims(p, b).value);
          if WellFormed(p, b) && Answers(st, p, b, Claims(p, b).value) {
            GoesOn(st, query, par, b, p, pushed);
          }
        }
    }
  }

  lemma MintedMeans(st: Store, query: seq<(string, string)>, par: map<string, Par>, b: Browser, p: Params, pushed: bool)
    requires Effective(query, par, st.now) == Some((p, pushed)) && Decide(st, query, par, b).Minted?
    ensures Trusted(st, p) && WellFormed(p, b)
    ensures var c := ClientOf(st, p["client_id"]).value;
            (c.requirePar ==> pushed) && Proceed(st, p, b, c, Claims(p, b).value).Minted?
  {
  }

  lemma GoesOn(st: Store, query: seq<(string, string)>, par: map<string, Par>, b: Browser, p: Params, pushed: bool)
    requires Effective(query, par, st.now) == Some((p, pushed))
    requires Trusted(st, p) && WellFormed(p, b) && Answers(st, p, b, Claims(p, b).value)
    ensures var c := ClientOf(st, p["client_id"]).value;
            (c.requirePar ==> pushed) ==> Decide(st, query, par, b) == Proceed(st, p, b, c, Claims(p, b).value)
  {
  }

  /** What is asked for can be understood and be met: an age in seconds, no ACR but the known
      one, and a hint that is valid. */
  ghost predicate Meetable(p: Params, b: Browser, claims: ClaimsRequest) {
    && ("max_age" in p ==> Decimal.ParseU64(p["max_age"]).Some?)
    && (forall v :: v in AcrAsked(p, claims) ==> v == ACR_TOTP)
    && (HintAsked(p) ==> b.hint.Some?)
  }

  lemma ProceedShows(st: Store, p: Params, b: Browser, c: Client, claims: ClaimsRequest)
    requires Trusted(st, p) && Claims(p, b) == Some(claims) && Meetable(p, b, claims)
    ensures Proceed(st, p, b, c, claims).LoginShown? <==> GetOr(p, "prompt", "") != "none" && !Answers(st, p, b, claims)
  {
    ProceedMints(st, p, b, c, claims);
  }

  lemma ShownMeans(st: Store, query: seq<(string, string)>, par: map<string, Par>, b: Browser, p: Params, pushed: bool)
    requires Effective(query, par, st.now) == Some((p, pushed)) && Decide(st, query, par, b).LoginShown?
    ensures Trusted(st, p) && WellFormed(p, b) && Meetable(p, b, Claims(p, b).value)
    ensures var c := ClientOf(st, p["client_id"]).value;
            (c.requirePar ==> pushed) && Proceed(st, p, b, c, Claims(p, b).value).LoginShown?
  {
  }

  /** Nothing is wrong with the request; whether it is silent and meets no session is all that
      can still stop it. */
  lemma Understood(st: Store, query: seq<(string, string)>, par: map<string, Par>, b: Browser, p: Params, pushed: bool)
    requires Effective(query, par, st.now) == Some((p, pushed)) && Trusted(st, p) && WellFormed(p, b)
    requires Meetable(p, b, Claims(p, b).value) && (ClientOf(st, p["client_id"]).value.requirePar ==> pushed)
    ensures Decide(st, query, par, b)
         == if GetOr(p, "prompt", "") == "none" && Session(p, b, st.now).None? then Redirected("login_required")
            else Proceed(st, p, b, ClientOf(st, p["client_id"]).value, Claims(p, b).value)
  {
  }

  /** The login page: exactly for a well-formed request of a known client to one of its redirect
      URIs, pushed if the client must push, that can be met, is not silent, and that the
      browser's session does not answer. */
  lemma LoginShownIff(st: Store, query: seq<(string, string)>, par: map<string, Par>, b: Browser)
    ensures Decide(st, query, par, b).LoginShown? <==>
              && Effective(query, par, st.now).Some?
              && var (p, pushed) := Effective(query, par, st.now).value;
              && Trusted(st, p) && WellFormed(p, b) && Meetable(p, b, Claims(p, b).value)
              && (ClientOf(st, p["client_id"]).value.requirePar ==> pushed)
              && GetOr(p, "prompt", "") != "none" && !Answers(st, p, b, Claims(p, b).value)
  {
    match Effective(query, par, st.now) {
      case None =>
      case Some((p, pushed)) =>
        if Decide(st, query, par, b).LoginShown? {
          ShownMeans(st, query, par, b, p, pushed);
          ProceedShows(st, p, b, ClientOf(st, p["client_id"]).value, Claims(p, b).value);
        }
        if Trusted(st, p) && WellFormed(p, b) && Meetable(p, b, Claims(p, b).value)
           && (ClientOf(st, p["client_id"]).value.requirePar ==> pushed) {
          Understood(st, query, par, b, p, pushed);
          ProceedShows(st, p, b, ClientOf(st, p["client_id"]).value, Claims(p, b).value);
        }
    }
  }

  /** The browser has a session that is recent enough. */
  ghost predicate Recent(st: Store, p: Params, b: Browser) {
    && b.sso.Some?
    && ("max_age" in p ==>
          Decimal.ParseU64(p["max_age"]).Some? && st.now <= b.sso.value.authTime + Decimal.ParseU64(p["max_age"]).value)
  }

  /** A silent request that is otherwise in order gets a code or one of three errors: consent is
      missing; the session is recent but lacks the ACR; or there is no session to answer it. */
  lemma SilentOutcome(st: Store, query: seq<(string, string)>, par: map<string, Par>, b: Browser, p: Params,
      pushed: bool)
    requires Effective(query, par, st.now) == Some((p, pushed)) && Trusted(st, p) && WellFormed(p, b)
    requires Meetable(p, b, Claims(p, b).value) && (ClientOf(st, p["client_id"]).value.requirePar ==> pushed)
    requires GetOr(p, "prompt", "") == "none"
    ensures var d, claims := Decide(st, query, par, b), Claims(p, b).value;
            var consent := Answers(st, p, b, claims) && ConsentNeeded(st, p, ClientOf(st, p["client_id"]).value,
                b.sso.value.user);
            var stepUp := Recent(st, p, b) && AcrAsked(p, claims) != [] && AcrFromAmr(b.sso.value.amr).None?;
            && (d.Minted? <==> Answers(st, p, b, claims) && !consent)
            && (d == Redirected("consent_required") <==> consent)
            && (d == Redirected("interaction_required") <==> stepUp)
            && (d == Redirected("login_required") <==> !Answers(st, p, b, claims) && !stepUp)
  {
    Understood(st, query, par, b, p, pushed);
    var c, claims := ClientOf(st, p["client_id"]).value, Claims(p, b).value;
    SilentProceeds(st, p, b, c, claims);
    if AcrAsked(p, claims) != [] {
      assert AcrAsked(p, claims)[0] in AcrAsked(p, claims);
    }
  }

  lemma SilentProceeds(st: Store, p: Params, b: Browser, c: Client, claims: ClaimsRequest)
    requires Trusted(st, p) && Claims(p, b) == Some(claims) && Meetable(p, b, claims)
             && GetOr(p, "prompt", "") == "none"
    ensures var d := Proceed(st, p, b, c, claims);
            if Answers(st, p, b, claims) then
              if ConsentNeeded(st, p, c, b.sso.value.user) then d == Redirected("consent_required") else d.Minted?
            else
              d == Redirected(if Recent(st, p, b) && AcrAsked(p, claims) != [] && AcrFromAmr(b.sso.value.amr).None?
                              then "interaction_required" else "login_required")
  {
    if AcrAsked(p, claims) != [] {
      assert AcrAsked(p, claims)[0] in AcrAsked(p, claims);
    }
  }

  /** Query keys that differ all reach the map, under their own value. */
  lemma {:induction false} ParamsComplete(query: seq<(string, string)>, i: nat)
    requires NoDuplicates(query) && i < |query|
    ensures Get(ToParams(query), query[i].0) == Some(query[i].1)
  {
    if i > 0 {
      ParamsComplete(query[1..], i - 1);
    }
  }
}
