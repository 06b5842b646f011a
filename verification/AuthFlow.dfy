/** From `/authorize` to the tokens: requests, logins, consents and token requests of
    any number of browsers and clients. A request and a login are one step each; a consent
    form reads the code, then saves or deletes it, then reads and writes the consent record;
    a token request reads the code, swaps it for a spent marker, and answers. */
module AuthFlow {
  import opened Kv
  import opened Authorize
  import Lists

  datatype Record = Live(code: AuthCode) | Spent

  datatype Exchange = Exchange(code: nat, client: string, redirectUri: string, verifier: Option<string>)

  datatype Call =
    | Holding(req: Exchange, auth: AuthCode, rev: nat)
    | Claimed(req: Exchange, auth: AuthCode)
    | Answered
    | Rejected

  /** A consent form between two store operations. */
  datatype Form =
    | Saving(code: nat, auth: AuthCode)
    | Deleting(code: nat)
    | Looking(user: string, client: string, scope: string)
    | Recording(user: string, client: string, granted: set<string>)
    | Closed

  /** An accepted request: its parameters, whether its client is a first party, and what its
      `claims` parameter asks for. */
  datatype Origin = Origin(params: Params, firstParty: bool, requested: Requested, acr: seq<string>)

  /** An approval, as its form passed the checks, with the csrf token the form presented. */
  datatype Approval = Approval(code: nat, user: string, client: string, scope: string, csrf: nat)

  /** A token response, and how many approvals had been given by then. */
  datatype Response = Response(pid: nat, req: Exchange, auth: AuthCode, after: nat)

  /** History: the accepted requests, which of them a session or code goes back to,
      each code as it was minted and the login behind it, the approvals given, the token
      responses made, and the codes that a form saved when they were no longer live. */
  datatype History = History(
    requests: seq<Origin>,
    from: map<nat, nat>,
    minted: map<nat, AuthCode>,
    logins: map<nat, Sso>,
    approvals: seq<Approval>,
    responses: seq<Response>,
    restored: set<nat>)

  datatype State = State(
    st: Store,
    par: map<string, Par>,
    users: map<string, bool>,
    sessions: Table<nat, AuthSession>,
    codes: Table<nat, Record>,
    calls: map<nat, Call>,
    forms: map<nat, Form>,
    h: History)

  datatype Event =
    | Tick(seconds: nat)
    | SetClient(id: string, settings: Client)
    | SetUser(id: string, active: bool)
    | Push(uri: string, client: string, params: Params, ttl: nat)
    | Request(query: seq<(string, string)>, browser: Browser)
    | ForeignSession(session: AuthSession)
    | CompleteLogin(sid: nat, user: string, amr: seq<string>, denied: bool)
    | Consent(fid: nat, code: nat, csrf: nat, approve: bool, cookie: Option<nat>)
    | Continue(fid: nat)
    | Read(pid: nat, req: Exchange)
    | Swap(pid: nat)
    | Answer(pid: nat)
    | Drop(key: nat)

  // ----- /authorize -----

  /** A pushed request is deleted as soon as it is found. */
  function ParLeft(query: seq<(string, string)>, par: map<string, Par>): map<string, Par> {
    var q := ToParams(query);
    if NoDuplicates(query) && "request_uri" in q && REQUEST_URI_PREFIX <= q["request_uri"]
        then par - {q["request_uri"]} else par
  }

  function ClientsLeft(st: Store, p: Params): map<string, Client> {
    if "client_id" in p && "redirect_uri" in p && ControlFree(p["redirect_uri"])
       && p["client_id"] == "lid-admin" && "lid-admin" !in st.clients
    then st.clients["lid-admin" := st.admin] else st.clients
  }

  function Noted(h: History, o: Origin, id: nat): History {
    h.(requests := h.requests + [o], from := h.from[id := |h.requests|])
  }

  function OriginOf(st: Store, p: Params, b: Browser): Origin {
    var id := GetOr(p, "client_id", "");
    var claims := Claims(p, b);
    Origin(p, ClientOf(st, id).Some? && FirstParty(ClientOf(st, id).value, id),
           if claims.Some? then claims.value.names else Requested([], []),
           if claims.Some? then AcrAsked(p, claims.value) else [])
  }

  function MintNoted(h: History, id: nat, code: AuthCode, sso: Option<Sso>): History {
    h.(minted := h.minted[id := code], logins := if sso.Some? then h.logins[id := sso.value] else h.logins)
  }

  function CarryOut(s: State, o: Origin, sso: Option<Sso>, d: Decision): State {
    var id := s.st.drawn;
    var s' := s.(st := s.st.(drawn := id + 3), h := Noted(s.h, o, id));
    match d
    case Minted(code) =>
      s'.(codes := Put(s.codes, id, Live(code)),
          h := MintNoted(s'.h, id, code, sso))
    case LoginShown(session) => s'.(sessions := Put(s.sessions, id, session))
    case _ => s
  }

  function RequestStep(s: State, query: seq<(string, string)>, b: Browser): State {
    var s' := s.(par := ParLeft(query, s.par));
    match Effective(query, s.par, s.st.now)
    case None => s'
    case Some((p, _)) =>
      CarryOut(s'.(st := s.st.(clients := ClientsLeft(s.st, p))), OriginOf(s.st, p, b), b.sso,
          Decide(s.st, query, s.par, b))
  }

  // ----- login and consent -----

  function LoginCode(s: State, se: AuthSession, user: string, amr: seq<string>): AuthCode {
    AuthCode(user, se.client, se.redirectUri, se.challenge, se.challengeMethod, se.nonce, se.scope, s.st.now, amr,
             AcrFromAmr(amr), se.requested, s.st.drawn + 1, s.st.now + TTL_AUTH_CODE, se.state, se.sid,
             se.forceConsent || (se.needsConsent && !HasConsented(s.st.consents, user, se.client, se.scope)))
  }

  function SourceOf(h: History, id: nat): nat { if id in h.from then h.from[id] else 0 }

  /** The session is consumed whatever follows; a device or SAML session leads to no code. */
  function LoginStep(s: State, sid: nat, user: string, amr: seq<string>, denied: bool): State {
    if denied || sid !in s.sessions then s
    else
      var se := s.sessions[sid].value;
      var s' := s.(sessions := Delete(s.sessions, sid));
      if se.challengeMethod == "saml" || se.challengeMethod == "device" then s'
      else
        var id := s.st.drawn;
        s'.(st := s.st.(drawn := id + 2), codes := Put(s.codes, id, Live(LoginCode(s, se, user, amr))),
            h := MintNoted(s.h.(from := s.h.from[id := SourceOf(s.h, sid)]), id, LoginCode(s, se, user, amr),
                           Some(Sso(user, s.st.now, amr))))
  }

  function Granted(consents: map<(string, string), set<string>>, user: string, client: string,
      scope: string): set<string> {
    (if (user, client) in consents then consents[(user, client)] else {}) + Lists.Words(scope)
  }

  predicate IsLive(s: State, id: nat) { id in s.codes && s.codes[id].value.Live? }

  function SetForm(s: State, fid: nat, f: Form): State { s.(forms := s.forms[fid := f]) }

  /** What the form goes on to do once the code was read. */
  function Submitted(s: State, code: nat, csrf: nat, approve: bool, cookie: Option<nat>): Form {
    if !IsLive(s, code) then Closed
    else
      var a := s.codes[code].value.code;
      if s.st.now > a.expiresAt then Deleting(code)
      else if cookie != Some(code) || (approve && csrf != a.csrf) then Closed
      else if !approve then Deleting(code)
      else Saving(code, a)
  }

  function ConsentStep(s: State, fid: nat, code: nat, csrf: nat, approve: bool, cookie: Option<nat>): State {
    var f := Submitted(s, code, csrf, approve, cookie);
    var s' := SetForm(s, fid, f);
    if f.Saving? then
      s'.(h := s.h.(approvals := s.h.approvals + [Approval(code, f.auth.user, f.auth.client, f.auth.scope, csrf)]))
    else s'
  }

  /** `save_auth_code` does not look at what is stored. */
  function SaveStep(s: State, fid: nat, code: nat, a: AuthCode): State {
    SetForm(s, fid, Looking(a.user, a.client, a.scope))
      .(codes := Put(s.codes, code, Live(a.(pendingConsent := false))),
        h := if IsLive(s, code) then s.h else s.h.(restored := s.h.restored + {code}))
  }

  function RecordStep(s: State, fid: nat, user: string, client: string, granted: set<string>): State {
    SetForm(s, fid, Closed).(st := s.st.(consents := s.st.consents[(user, client) := granted]))
  }

  function FormStep(s: State, fid: nat): State
    requires fid in s.forms
  {
    match s.forms[fid]
    case Saving(code, a) => SaveStep(s, fid, code, a)
    case Deleting(code) => SetForm(s, fid, Closed).(codes := Delete(s.codes, code))
    case Looking(user, client, scope) =>
      SetForm(s, fid, Recording(user, client, Granted(s.st.consents, user, client, scope)))
    case Recording(user, client, granted) => RecordStep(s, fid, user, client, granted)
    case Closed => s
  }

  // ----- /token, authorization code -----

  predicate VerifyPkce(sha: string -> string, verifier: string, challenge: string, challengeMethod: string) {
    challengeMethod == "S256" && sha(verifier) == challenge
  }

  predicate Redeemable(sha: string -> string, now: nat, req: Exchange, a: AuthCode) {
    && a.client == req.client && a.redirectUri == req.redirectUri
    && now <= a.expiresAt && !a.pendingConsent
    && a.challenge != "" && req.verifier.Some? && VerifyPkce(sha, req.verifier.value, a.challenge, a.challengeMethod)
  }

  function ReadResult(sha: string -> string, s: State, req: Exchange): Call {
    var c := ClientOf(s.st, req.client);
    if c.Some? && c.value.codeGrant && req.code in s.codes && s.codes[req.code].value.Live?
       && Redeemable(sha, s.st.now, req, s.codes[req.code].value.code)
    then Holding(req, s.codes[req.code].value.code, s.codes[req.code].rev) else Rejected
  }

  function ReadStep(sha: string -> string, s: State, pid: nat, req: Exchange): State {
    s.(calls := s.calls[pid := ReadResult(sha, s, req)])
  }

  function SwapStep(s: State, pid: nat): State
    requires pid in s.calls && s.calls[pid].Holding?
  {
    var c := s.calls[pid];
    if CasOk(s.codes, c.req.code, c.rev) then
      s.(codes := Cas(s.codes, c.req.code, Spent, c.rev), calls := s.calls[pid := Claimed(c.req, c.auth)])
    else s.(calls := s.calls[pid := Rejected])
  }

  function AnswerStep(s: State, pid: nat): State
    requires pid in s.calls && s.calls[pid].Claimed?
  {
    var c := s.calls[pid];
    if c.auth.user in s.users && s.users[c.auth.user] then
      s.(codes := Delete(s.codes, c.req.code), calls := s.calls[pid := Answered],
         h := s.h.(responses := s.h.responses + [Response(pid, c.req, c.auth, |s.h.approvals|)]))
    else s.(calls := s.calls[pid := Rejected])
  }

  function Step(sha: string -> string, s: State, e: Event): State {
    match e
    case Tick(d) => s.(st := s.st.(now := s.st.now + d))
    case SetClient(id, c) => s.(st := s.st.(clients := s.st.clients[id := c]))
    case SetUser(id, active) => s.(users := s.users[id := active])
    case Push(uri, client, params, ttl) =>
      s.(par := s.par[uri := Par(client, params["client_id" := client], s.st.now + ttl)])
    case Request(query, b) => RequestStep(s, query, b)
    case ForeignSession(se) =>
      if se.challengeMethod == "saml" || se.challengeMethod == "device" then
        s.(sessions := Put(s.sessions, s.st.drawn, se), st := s.st.(drawn := s.st.drawn + 1))
      else s
    case CompleteLogin(sid, user, amr, denied) => LoginStep(s, sid, user, amr, denied)
    case Consent(fid, code, csrf, approve, cookie) =>
      if fid in s.forms then s else ConsentStep(s, fid, code, csrf, approve, cookie)
    case Continue(fid) => if fid in s.forms then FormStep(s, fid) else s
    case Read(pid, req) => if pid in s.calls then s else ReadStep(sha, s, pid, req)
    case Swap(pid) => if pid in s.calls && s.calls[pid].Holding? then SwapStep(s, pid) else s
    case Answer(pid) => if pid in s.calls && s.calls[pid].Claimed? then AnswerStep(s, pid) else s
    case Drop(id) => s.(sessions := Delete(s.sessions, id), codes := Delete(s.codes, id))
  }

  function Run(sha: string -> string, s: State, es: seq<Event>): State {
    if es == [] then s else Step(sha, Run(sha, s, es[..|es| - 1]), es[|es| - 1])
  }

  lemma RunThen(sha: string -> string, s: State, es: seq<Event>, e: Event)
    ensures Run(sha, s, es + [e]) == Step(sha, Run(sha, s, es), e)
  {
    assert (es + [e])[..|es|] == es;
  }

  lemma {:induction false} RunConcat(sha: string -> string, s: State, es: seq<Event>, fs: seq<Event>)
    ensures Run(sha, s, es + fs) == Run(sha, Run(sha, s, es), fs)
  {
    if fs == [] {
      assert es + fs == es;
    } else {
      RunConcat(sha, s, es, fs[..|fs| - 1]);
      assert (es + fs)[..|es + fs| - 1] == es + fs[..|fs| - 1];
    }
  }

  function Start(issuer: string, now: nat, clients: map<string, Client>, admin: Client,
                 users: map<string, bool>): State {
    State(Store(issuer, now, clients, admin, map[], 0), map[], users, map[], map[], map[], map[],
        History([], map[], map[], map[], [], [], {}))
  }

  /** Nothing stored yet, apart from clients and users. */
  ghost predicate Initial(s: State) {
    s == Start(s.st.issuer, s.st.now, s.st.clients, s.st.admin, s.users)
  }

  ghost predicate Reachable(sha: string -> string, s: State) {
    exists s0, es :: Initial(s0) && s == Run(sha, s0, es)
  }
}
