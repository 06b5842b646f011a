/** What a completed login brings, and what its code is then good for. */
module AuthLogin {
  import opened Kv
  import opened Authorize
  import opened AuthFlow
  import opened AuthBinding
  import opened AuthSafety
  import Lists

  /** What the code says of its request and of its login. */
  ghost predicate CodeFor(o: Origin, a: AuthCode, user: string, amr: seq<string>, now: nat) {
    && Get(o.params, "client_id") == Some(a.client) && Get(o.params, "redirect_uri") == Some(a.redirectUri)
    && Get(o.params, "code_challenge") == Some(a.challenge) && a.challengeMethod == "S256"
    && a.nonce == GetOr(o.params, "nonce", "") && a.scope == GetOr(o.params, "scope", "openid")
    && a.state == GetOr(o.params, "state", "") && a.requested == o.requested
    && a.user == user && a.authTime == now && a.amr == amr && a.expiresAt == now + 300
    && (a.acr.Some? <==> "mfa" in amr && "otp" in amr)
  }

  /** The user has granted each word of the scope to the client. */
  ghost predicate GrantedAll(s: State, user: string, client: string, scope: string) {
    (user, client) in s.st.consents && forall w :: w in Lists.Words(scope) ==> w in s.st.consents[(user, client)]
  }

  /** The request asks for consent, or its client is no first party and lacks it. */
  ghost predicate ConsentDue(s: State, o: Origin, user: string) {
    || GetOr(o.params, "prompt", "") == "consent"
    || (!o.firstParty
        && !GrantedAll(s, user, GetOr(o.params, "client_id", ""), GetOr(o.params, "scope", "openid")))
  }

  ghost predicate OfRequest(s: State, sid: nat) {
    sid in s.sessions && s.sessions[sid].value.challengeMethod != "saml"
        && s.sessions[sid].value.challengeMethod != "device"
  }

  /** The request that a session or a code goes back to. */
  function RequestOf(h: History, id: nat): Origin
    requires id in h.from && h.from[id] < |h.requests|
  {
    h.requests[h.from[id]]
  }

  /** One code is new, and live; the session is gone. */
  ghost predicate OneCodeMore(s: State, s': State, sid: nat, id: nat) {
    && id !in s.codes && id in s'.codes && s'.codes == s.codes[id := s'.codes[id]]
    && s'.codes[id].value.Live? && s'.sessions == s.sessions - {sid}
    && s'.calls == s.calls && s'.users == s.users && s'.st.clients == s.st.clients && s'.st.now == s.st.now
  }

  /** In every reachable state a completed login on a session of `/authorize` adds exactly one
      code: live for 300 seconds, for the request the session goes back to and for this login,
      and waiting for consent exactly if consent is due. */
  lemma LoginMints(sha: string -> string, s: State, sid: nat, user: string, amr: seq<string>)
    requires Reachable(sha, s) && OfRequest(s, sid)
    ensures Traced(s.h, sid)
    ensures var s', id := Step(sha, s, CompleteLogin(sid, user, amr, false)), s.st.drawn;
            && OneCodeMore(s, s', sid, id)
            && var a := s'.codes[id].value.code;
            && CodeFor(RequestOf(s.h, sid), a, user, amr, s.st.now)
            && (a.pendingConsent <==> ConsentDue(s, RequestOf(s.h, sid), user))
  {
    ReachableInv(sha, s);
    assert SessionOk(s.h, sid, s.sessions[sid].value);
    assert Step(sha, s, CompleteLogin(sid, user, amr, false)) == LoginStep(s, sid, user, amr, false);
    LoginAdds(s, sid, user, amr);
    CodeOfLogin(s, RequestOf(s.h, sid), s.sessions[sid].value, user, amr);
  }

  lemma LoginAdds(s: State, sid: nat, user: string, amr: seq<string>)
    requires OfRequest(s, sid) && s.st.drawn !in s.codes
    ensures var s', id := LoginStep(s, sid, user, amr, false), s.st.drawn;
            OneCodeMore(s, s', sid, id) && s'.codes[id].value.code == LoginCode(s, s.sessions[sid].value, user, amr)
  {
  }

  lemma CodeOfLogin(s: State, o: Origin, se: AuthSession, user: string, amr: seq<string>)
    requires FitsSession(o, se)
    ensures var a := LoginCode(s, se, user, amr);
            CodeFor(o, a, user, amr, s.st.now) && (a.pendingConsent <==> ConsentDue(s, o, user))
  {
    var key := (user, se.client);
    if key in s.st.consents {
      assert Lists.Words(se.scope) <= s.st.consents[key] <==>
             forall w :: w in Lists.Words(se.scope) ==> w in s.st.consents[key];
    }
  }

  /** Presented at once, by its client with the right verifier for an active user, the code is
      exchanged exactly if no consent is due. */
  lemma LoginThenExchange(sha: string -> string, s: State, sid: nat, user: string, amr: seq<string>,
                          pid: nat, verifier: string)
    requires Reachable(sha, s) && OfRequest(s, sid) && pid !in s.calls && user in s.users && s.users[user]
    ensures Traced(s.h, sid)
    ensures var o, id := RequestOf(s.h, sid), s.st.drawn;
            var req := Exchange(id, GetOr(o.params, "client_id", ""), GetOr(o.params, "redirect_uri", ""),
                Some(verifier));
            var s0 := Step(sha, s, CompleteLogin(sid, user, amr, false));
            var s' := Step(sha, Step(sha, Step(sha, s0, Read(pid, req)), Swap(pid)), Answer(pid));
            Get(o.params, "code_challenge") == Some(sha(verifier)) && MayRedeem(s, req.client) ==>
              (|s'.h.responses| == |s.h.responses| + 1 <==> !ConsentDue(s, o, user))
  {
    LoginMints(sha, s, sid, user, amr);
    var o, id := RequestOf(s.h, sid), s.st.drawn;
    var s0 := Step(sha, s, CompleteLogin(sid, user, amr, false));
    var req := Exchange(id, GetOr(o.params, "client_id", ""), GetOr(o.params, "redirect_uri", ""), Some(verifier));
    StillReachable(sha, s, CompleteLogin(sid, user, amr, false));
    LoginKeepsTokens(sha, s, sid, user, amr);
    UninterruptedExchange(sha, s0, pid, req);
  }

  /** The client is known and may use the code grant. */
  ghost predicate MayRedeem(s: State, client: string) {
    ClientOf(s.st, client).Some? && ClientOf(s.st, client).value.codeGrant
  }

  lemma StillReachable(sha: string -> string, s: State, e: Event)
    requires Reachable(sha, s)
    ensures Reachable(sha, Step(sha, s, e))
  {
    var s0, es :| Initial(s0) && s == Run(sha, s0, es);
    RunThen(sha, s0, es, e);
  }

  lemma LoginKeepsTokens(sha: string -> string, s: State, sid: nat, user: string, amr: seq<string>)
    ensures var s' := Step(sha, s, CompleteLogin(sid, user, amr, false));
            s'.h.responses == s.h.responses && s'.st.admin == s.st.admin && s'.st.clients == s.st.clients
  {
  }

  // ----- from the request on -----

  /** The request as the history notes it. */
  ghost predicate NotedAs(s: State, query: seq<(string, string)>, b: Browser, o: Origin) {
    && Effective(query, s.par, s.st.now).Some?
    && var p := Effective(query, s.par, s.st.now).value.0;
    && o.params == p && Claims(p, b).Some? && o.requested == Claims(p, b).value.names
    && "client_id" in p && ClientOf(s.st, p["client_id"]).Some?
    && (o.firstParty <==> FirstParty(ClientOf(s.st, p["client_id"]).value, p["client_id"]))
  }

  /** One login session is new. */
  ghost predicate OneSessionMore(s: State, s': State, id: nat) {
    && id !in s.sessions && OfRequest(s', id) && s'.sessions == s.sessions[id := s'.sessions[id]]
    && s'.codes == s.codes && s'.calls == s.calls && s'.users == s.users && s'.st.now == s.st.now
    && s'.st.consents == s.st.consents
  }

  /** In every reachable state a request that opens a login adds exactly one session, which goes
      back to this very request. */
  lemma RequestOpens(sha: string -> string, s: State, query: seq<(string, string)>, b: Browser)
    requires Reachable(sha, s) && Decide(s.st, query, s.par, b).LoginShown?
    ensures var s' := Step(sha, s, Request(query, b));
            && OneSessionMore(s, s', s.st.drawn) && Traced(s'.h, s.st.drawn)
            && NotedAs(s, query, b, RequestOf(s'.h, s.st.drawn))
  {
    SessionFree(sha, s);
    assert Step(sha, s, Request(query, b)) == RequestStep(s, query, b);
    var p := Shown(s.st, query, s.par, b);
    SessionAdded(s, query, b, p, Decide(s.st, query, s.par, b).session);
    Noting(s, query, b, p);
  }

  lemma SessionFree(sha: string -> string, s: State)
    requires Reachable(sha, s)
    ensures s.st.drawn !in s.sessions
  {
    ReachableInv(sha, s);
  }

  /** The parameters of a request that opens a login. */
  lemma Shown(st: Store, query: seq<(string, string)>, par: map<string, Par>, b: Browser) returns (p: Params)
    requires Decide(st, query, par, b).LoginShown?
    ensures Effective(query, par, st.now).Some? && p == Effective(query, par, st.now).value.0
    ensures Decide(st, query, par, b).session.challengeMethod == "S256"
    ensures Claims(p, b).Some? && "client_id" in p && ClientOf(st, p["client_id"]).Some?
  {
    DecisionBinds(st, query, par, b);
    p := Effective(query, par, st.now).value.0;
    ClaimsRead(st, query, par, b, p);
  }

  lemma Noting(s: State, query: seq<(string, string)>, b: Browser, p: Params)
    requires Effective(query, s.par, s.st.now).Some? && p == Effective(query, s.par, s.st.now).value.0
    requires Claims(p, b).Some? && "client_id" in p && ClientOf(s.st, p["client_id"]).Some?
    ensures NotedAs(s, query, b, OriginOf(s.st, p, b))
  {
  }

  lemma SessionAdded(s: State, query: seq<(string, string)>, b: Browser, p: Params, se: AuthSession)
    requires s.st.drawn !in s.sessions && se.challengeMethod == "S256"
             && Decide(s.st, query, s.par, b) == LoginShown(se)
    requires Effective(query, s.par, s.st.now).Some? && p == Effective(query, s.par, s.st.now).value.0
    ensures var s' := RequestStep(s, query, b);
            && OneSessionMore(s, s', s.st.drawn) && Traced(s'.h, s.st.drawn)
            && RequestOf(s'.h, s.st.drawn) == OriginOf(s.st, p, b)
  {
    SessionCarried(s.(par := ParLeft(query, s.par), st := s.st.(clients := ClientsLeft(s.st, p))),
                   OriginOf(s.st, p, b), b.sso, se);
  }

  lemma ClaimsRead(st: Store, query: seq<(string, string)>, par: map<string, Par>, b: Browser, p: Params)
    requires Decide(st, query, par, b).LoginShown? && Effective(query, par, st.now).Some?
    requires p == Effective(query, par, st.now).value.0
    ensures Claims(p, b).Some?
  {
  }

  lemma SessionCarried(s: State, o: Origin, sso: Option<Sso>, se: AuthSession)
    requires s.st.drawn !in s.sessions && se.challengeMethod == "S256"
    ensures var s' := CarryOut(s, o, sso, LoginShown(se));
            OneSessionMore(s, s', s.st.drawn) && Traced(s'.h, s.st.drawn) && RequestOf(s'.h, s.st.drawn) == o
  {
  }

  /** A request that opens a login, and that login completed: one code, for this request, user,
      time and factors, waiting for consent exactly if consent is due. */
  lemma SignInMints(sha: string -> string, s: State, query: seq<(string, string)>, b: Browser, user: string,
      amr: seq<string>)
    requires Reachable(sha, s) && Decide(s.st, query, s.par, b).LoginShown?
    ensures var s1, sid := Step(sha, s, Request(query, b)), s.st.drawn;
            var s', id := Step(sha, s1, CompleteLogin(sid, user, amr, false)), s1.st.drawn;
            && s'.codes.Keys == s.codes.Keys + {id} && id !in s.codes && IsLive(s', id) && s'.sessions == s.sessions
            && Traced(s1.h, sid)
            && var o, a := RequestOf(s1.h, sid), s'.codes[id].value.code;
            && NotedAs(s, query, b, o) && CodeFor(o, a, user, amr, s.st.now)
            && (a.pendingConsent <==> ConsentDue(s, o, user))
  {
    RequestOpens(sha, s, query, b);
    StillReachable(sha, s, Request(query, b));
    var s1 := Step(sha, s, Request(query, b));
    LoginMints(sha, s1, s.st.drawn, user, amr);
    assert s1.sessions - {s.st.drawn} == s.sessions;
  }
}
