/** Every token response of the authorization-code grant goes back to one
    `/authorize` request and says what that request said. */
module AuthBinding {
  import opened Kv
  import opened Authorize
  import opened AuthFlow
  import Lists

  predicate PromptsConsent(o: Origin) { GetOr(o.params, "prompt", "") == "consent" }

  ghost predicate CodeApproved(h: History, id: nat, user: string) {
    exists i :: 0 <= i < |h.approvals| && h.approvals[i].code == id && h.approvals[i].user == user
  }

  ghost predicate WordApproved(h: History, user: string, client: string, word: string) {
    exists i :: 0 <= i < |h.approvals| && h.approvals[i].user == user && h.approvals[i].client == client
                && word in Lists.Words(h.approvals[i].scope)
  }

  ghost predicate Covered(h: History, user: string, client: string, scope: string) {
    forall w :: w in Lists.Words(scope) ==> WordApproved(h, user, client, w)
  }

  /** The request needed no consent, or the user approved this very code, or, unless
      asked afresh, has approved each word of the scope for this client before. */
  ghost predicate Justified(h: History, o: Origin, id: nat, a: AuthCode) {
    || CodeApproved(h, id, a.user)
    || (!PromptsConsent(o) && (o.firstParty || Covered(h, a.user, a.client, a.scope)))
  }

  /** The form for this code was approved with this csrf token. */
  ghost predicate FormApproved(approvals: seq<Approval>, id: nat, user: string, csrf: nat) {
    exists i :: 0 <= i < |approvals| && approvals[i].code == id && approvals[i].user == user
        && approvals[i].csrf == csrf
  }

  /** The code is as it was minted, except that an approval may have ended its wait for consent. */
  ghost predicate AsMinted(h: History, approvals: seq<Approval>, id: nat, a: AuthCode) {
    && id in h.minted && a == h.minted[id].(pendingConsent := a.pendingConsent)
    && (a.pendingConsent ==> h.minted[id].pendingConsent)
    && (h.minted[id].pendingConsent && !a.pendingConsent ==> FormApproved(approvals, id, a.user, h.minted[id].csrf))
  }

  ghost predicate Traced(h: History, id: nat) {
    id in h.from && h.from[id] < |h.requests|
  }

  /** What a code takes over from its request. */
  ghost predicate FitsCode(o: Origin, a: AuthCode) { BindsCode(o.params, a) && a.requested == o.requested }

  /** What a login session takes over, and the consent its request calls for. */
  ghost predicate FitsSession(o: Origin, se: AuthSession) {
    && BindsSession(o.params, se) && se.requested == o.requested && se.acrValues == o.acr
    && (se.forceConsent <==> PromptsConsent(o)) && (se.needsConsent <==> PromptsConsent(o) || !o.firstParty)
  }

  ghost predicate CodeOk(h: History, id: nat, a: AuthCode) {
    && Traced(h, id)
    && FitsCode(h.requests[h.from[id]], a)
    && id in h.logins && Identifies(h.logins[id], a)
    && AsMinted(h, h.approvals, id, a)
    && (a.pendingConsent || Justified(h, h.requests[h.from[id]], id, a))
  }

  ghost predicate SessionOk(h: History, id: nat, se: AuthSession) {
    se.challengeMethod == "saml" || se.challengeMethod == "device" ||
    (&& Traced(h, id)
     && FitsSession(h.requests[h.from[id]], se))
  }

  ghost predicate HeldOk(h: History, req: Exchange, a: AuthCode, sha: string -> string) {
    && CodeOk(h, req.code, a) && !a.pendingConsent
    && a.client == req.client && a.redirectUri == req.redirectUri
    && req.verifier.Some? && sha(req.verifier.value) == a.challenge
  }

  ghost predicate CallOk(h: History, c: Call, sha: string -> string) {
    match c
    case Holding(req, a, _) => HeldOk(h, req, a, sha)
    case Claimed(req, a) => HeldOk(h, req, a, sha)
    case _ => true
  }

  ghost predicate ConsentsOk(h: History, consents: map<(string, string), set<string>>) {
    forall u, c :: (u, c) in consents ==> forall w :: w in consents[(u, c)] ==> WordApproved(h, u, c, w)
  }

  ghost predicate AnswersOk(h: History, rs: seq<Response>, sha: string -> string) {
    forall i :: 0 <= i < |rs| ==> AnswerOk(h, rs[i], sha)
  }

  ghost predicate AnswerOk(h: History, r: Response, sha: string -> string) {
    && HeldOk(h, r.req, r.auth, sha)
    && r.after <= |h.approvals| && AsMinted(h, h.approvals[..r.after], r.req.code, r.auth)
  }

  ghost predicate FormOk(h: History, f: Form) {
    match f
    case Saving(code, a) =>
      CodeOk(h, code, a.(pendingConsent := false)) && Covered(h, a.user, a.client, a.scope)
    case Looking(user, client, scope) => Covered(h, user, client, scope)
    case Recording(user, client, granted) => forall w :: w in granted ==> WordApproved(h, user, client, w)
    case _ => true
  }

  ghost predicate FormsOk(h: History, forms: map<nat, Form>) {
    forall fid :: fid in forms ==> FormOk(h, forms[fid])
  }

  ghost predicate FromOk(s: State) {
    && (forall id :: id in s.h.from ==> id < s.st.drawn)
    && (forall id :: id in s.h.logins ==> id < s.st.drawn)
    && (forall id :: id in s.h.minted ==> id < s.st.drawn)
    && (forall id :: id in s.codes ==> id < s.st.drawn)
    && (forall id :: id in s.sessions ==> id < s.st.drawn)
  }

  ghost predicate Bound(s: State, sha: string -> string) {
    && FromOk(s)
    && ConsentsOk(s.h, s.st.consents)
    && (forall id :: id in s.codes && s.codes[id].value.Live? ==> CodeOk(s.h, id, s.codes[id].value.code))
    && (forall id :: id in s.sessions ==> SessionOk(s.h, id, s.sessions[id].value))
    && (forall pid :: pid in s.calls ==> CallOk(s.h, s.calls[pid], sha))
    && AnswersOk(s.h, s.h.responses, sha)
  }

  // ----- history only grows -----

  ghost predicate Grows(h: History, h': History) {
    && h.requests <= h'.requests && h.approvals <= h'.approvals
    && (forall id :: id in h.from ==> id in h'.from && h'.from[id] == h.from[id])
    && (forall id :: id in h.logins ==> id in h'.logins && h'.logins[id] == h.logins[id])
    && (forall id :: id in h.minted ==> id in h'.minted && h'.minted[id] == h.minted[id])
  }

  lemma WordKept(h: History, h': History, user: string, client: string, w: string)
    requires Grows(h, h') && WordApproved(h, user, client, w)
    ensures WordApproved(h', user, client, w)
  {
    var i :| 0 <= i < |h.approvals| && h.approvals[i].user == user && h.approvals[i].client == client
             && w in Lists.Words(h.approvals[i].scope);
    assert h'.approvals[i] == h.approvals[i];
  }

  lemma JustifiedKept(h: History, h': History, o: Origin, id: nat, a: AuthCode)
    requires Grows(h, h') && Justified(h, o, id, a)
    ensures Justified(h', o, id, a)
  {
    if CodeApproved(h, id, a.user) {
      var i :| 0 <= i < |h.approvals| && h.approvals[i].code == id && h.approvals[i].user == a.user;
      assert h'.approvals[i] == h.approvals[i];
    } else if !o.firstParty {
      forall w | w in Lists.Words(a.scope) ensures WordApproved(h', a.user, a.client, w) {
        WordKept(h, h', a.user, a.client, w);
      }
    }
  }

  lemma CodeKept(h: History, h': History, id: nat, a: AuthCode)
    requires Grows(h, h') && CodeOk(h, id, a)
    ensures CodeOk(h', id, a)
  {
    MintedKept(h, h', h.approvals, h'.approvals, id, a);
    if !a.pendingConsent {
      JustifiedKept(h, h', h.requests[h.from[id]], id, a);
    }
  }

  lemma MintedKept(h: History, h': History, approvals: seq<Approval>, approvals': seq<Approval>, id: nat, a: AuthCode)
    requires Grows(h, h') && approvals <= approvals' && AsMinted(h, approvals, id, a)
    ensures AsMinted(h', approvals', id, a)
  {
    if h.minted[id].pendingConsent && !a.pendingConsent {
      var csrf := h.minted[id].csrf;
      var i :| 0 <= i < |approvals| && approvals[i].code == id && approvals[i].user == a.user
          && approvals[i].csrf == csrf;
      assert approvals'[i] == approvals[i];
    }
  }

  lemma AnswerKept(h: History, h': History, r: Response, sha: string -> string)
    requires Grows(h, h') && AnswerOk(h, r, sha)
    ensures AnswerOk(h', r, sha)
  {
    CodeKept(h, h', r.req.code, r.auth);
    MintedKept(h, h', h.approvals[..r.after], h'.approvals[..r.after], r.req.code, r.auth);
  }

  lemma ConsentsKept(h: History, h': History, consents: map<(string, string), set<string>>)
    requires Grows(h, h') && ConsentsOk(h, consents)
    ensures ConsentsOk(h', consents)
  {
    forall u, c, w | (u, c) in consents && w in consents[(u, c)] ensures WordApproved(h', u, c, w) {
      WordKept(h, h', u, c, w);
    }
  }

  /** What is not touched stays bound when the history grows. */
  lemma HistoryGrew(s: State, h': History, sha: string -> string)
    requires Bound(s, sha) && Grows(s.h, h') && h'.responses == s.h.responses
    ensures ConsentsOk(h', s.st.consents)
    ensures forall id :: id in s.codes && s.codes[id].value.Live? ==> CodeOk(h', id, s.codes[id].value.code)
    ensures forall id :: id in s.sessions ==> SessionOk(h', id, s.sessions[id].value)
    ensures forall pid :: pid in s.calls ==> CallOk(h', s.calls[pid], sha)
    ensures AnswersOk(h', h'.responses, sha)
  {
    ConsentsKept(s.h, h', s.st.consents);
    forall id | id in s.codes && s.codes[id].value.Live? ensures CodeOk(h', id, s.codes[id].value.code) {
      CodeKept(s.h, h', id, s.codes[id].value.code);
    }
    forall pid | pid in s.calls ensures CallOk(h', s.calls[pid], sha) {
      CallKept(s.h, h', s.calls[pid], sha);
    }
    forall i | 0 <= i < |h'.responses| ensures AnswerOk(h', h'.responses[i], sha) {
      AnswerKept(s.h, h', h'.responses[i], sha);
    }
  }

  lemma CallKept(h: History, h': History, c: Call, sha: string -> string)
    requires Grows(h, h') && CallOk(h, c, sha)
    ensures CallOk(h', c, sha)
  {
    match c {
      case Holding(req, a, _) => CodeKept(h, h', req.code, a);
      case Claimed(req, a) => CodeKept(h, h', req.code, a);
      case _ =>
    }
  }

  // ----- one lemma per step -----

  lemma WordsCovered(h: History, consents: map<(string, string), set<string>>, user: string, client: string,
      scope: string)
    requires ConsentsOk(h, consents) && HasConsented(consents, user, client, scope)
    ensures Covered(h, user, client, scope)
  {
  }

  lemma NewOrigin(h: History, o: Origin, id: nat)
    requires id !in h.from
    ensures Grows(h, Noted(h, o, id)) && Traced(Noted(h, o, id), id)
    ensures Noted(h, o, id).requests[Noted(h, o, id).from[id]] == o
  {
  }

  /** A code of the sign-on session is pending unless it needs no consent. */
  lemma SsoJustified(st: Store, p: Params, c: Client, sso: Sso, names: Requested, h: History, id: nat, o: Origin)
    requires Trusted(st, p) && ConsentsOk(h, st.consents) && o.params == p
             && o.firstParty == FirstParty(c, p["client_id"])
    ensures var a := SsoCode(st, p, c, sso, names);
            a.pendingConsent || Justified(h, o, id, a)
  {
    var a := SsoCode(st, p, c, sso, names);
    if !a.pendingConsent && !FirstParty(c, p["client_id"]) {
      WordsCovered(h, st.consents, a.user, a.client, a.scope);
    }
  }

  lemma StartedOk(st: Store, query: seq<(string, string)>, par: map<string, Par>, b: Browser, h: History, id: nat)
    requires Started(Decide(st, query, par, b)) && ConsentsOk(h, st.consents)
    ensures Effective(query, par, st.now).Some?
    ensures var p := Effective(query, par, st.now).value.0;
            && Trusted(st, p)
            && var o := OriginOf(st, p, b);
            && var d := Decide(st, query, par, b);
            && (d.Minted? ==> FitsCode(o, d.code) && b.sso.Some? && Identifies(b.sso.value, d.code)
                              && (d.code.pendingConsent || Justified(h, o, id, d.code)))
            && (d.LoginShown? ==> FitsSession(o, d.session))
  {
    DecisionBinds(st, query, par, b);
    var p := Effective(query, par, st.now).value.0;
    var c := ClientOf(st, p["client_id"]).value;
    var claims := Claims(p, b).value;
    assert Decide(st, query, par, b) == Proceed(st, p, b, c, claims);
    if Decide(st, query, par, b).Minted? {
      SsoJustified(st, p, c, b.sso.value, claims.names, h, id, OriginOf(st, p, b));
    }
  }

  /** A step that stores one bound code, and may consume a session. */
  lemma CodeStored(s: State, s': State, id: nat, a: AuthCode, sha: string -> string)
    requires Bound(s, sha) && Grows(s.h, s'.h) && s'.h.responses == s.h.responses
    requires id < s'.st.drawn && s.st.drawn <= s'.st.drawn && CodeOk(s'.h, id, a)
    requires forall k :: k in s'.h.from ==> k in s.h.from || k == id
    requires forall k :: k in s'.h.logins ==> k in s.h.logins || k == id
    requires forall k :: k in s'.h.minted ==> k in s.h.minted || k == id
    requires s'.codes == Put(s.codes, id, Live(a)) && s'.calls == s.calls && ConsentsOk(s'.h, s'.st.consents)
    requires forall k :: k in s'.sessions ==> k in s.sessions && s'.sessions[k] == s.sessions[k]
    ensures Bound(s', sha)
  {
    HistoryGrew(s, s'.h, sha);
  }

  lemma SessionStored(s: State, s': State, id: nat, se: AuthSession, sha: string -> string)
    requires Bound(s, sha) && Grows(s.h, s'.h) && s'.h.responses == s.h.responses
    requires id < s'.st.drawn && s.st.drawn <= s'.st.drawn && SessionOk(s'.h, id, se)
    requires forall k :: k in s'.h.from ==> k in s.h.from || k == id
    requires forall k :: k in s'.h.logins ==> k in s.h.logins || k == id
    requires forall k :: k in s'.h.minted ==> k in s.h.minted || k == id
    requires s'.sessions == Put(s.sessions, id, se) && s'.calls == s.calls && s'.codes == s.codes
    requires s'.st.consents == s.st.consents
    ensures Bound(s', sha)
  {
    HistoryGrew(s, s'.h, sha);
  }

  lemma MintBinds(s: State, s': State, o: Origin, sso: Sso, a: AuthCode, sha: string -> string)
    requires Bound(s, sha) && Identifies(sso, a) && FitsCode(o, a)
    requires a.pendingConsent || Justified(Noted(s.h, o, s.st.drawn), o, s.st.drawn, a)
    requires s' == s.(st := s.st.(drawn := s.st.drawn + 3), codes := Put(s.codes, s.st.drawn, Live(a)),
                      h := MintNoted(Noted(s.h, o, s.st.drawn), s.st.drawn, a, Some(sso)))
    ensures Bound(s', sha)
  {
    NewOrigin(s.h, o, s.st.drawn);
    ConsentsKept(s.h, s'.h, s.st.consents);
    MintedCodeOk(s.h, s'.h, o, s.st.drawn, sso, a);
    CodeStored(s, s', s.st.drawn, a, sha);
  }

  lemma MintedCodeOk(h: History, h': History, o: Origin, id: nat, sso: Sso, a: AuthCode)
    requires id !in h.from && Identifies(sso, a) && FitsCode(o, a)
    requires a.pendingConsent || Justified(Noted(h, o, id), o, id, a)
    requires h' == MintNoted(Noted(h, o, id), id, a, Some(sso))
    ensures CodeOk(h', id, a)
  {
  }

  lemma CarryBinds(s: State, o: Origin, sso: Option<Sso>, d: Decision, sha: string -> string)
    requires Bound(s, sha)
    requires d.Minted? ==> sso.Some? && Identifies(sso.value, d.code)
    requires d.Minted? ==>
               FitsCode(o, d.code)
               && (d.code.pendingConsent || Justified(Noted(s.h, o, s.st.drawn), o, s.st.drawn, d.code))
    requires d.LoginShown? ==> FitsSession(o, d.session)
    ensures Bound(CarryOut(s, o, sso, d), sha)
  {
    var s' := CarryOut(s, o, sso, d);
    var id := s.st.drawn;
    NewOrigin(s.h, o, id);
    match d {
      case Minted(a) => MintBinds(s, s', o, sso.value, a, sha);
      case LoginShown(se) => SessionStored(s, s', id, se, sha);
      case _ =>
    }
  }

  lemma RequestBinds(s: State, query: seq<(string, string)>, b: Browser, sha: string -> string)
    requires Bound(s, sha)
    ensures Bound(RequestStep(s, query, b), sha)
  {
    var s1 := s.(par := ParLeft(query, s.par));
    Unchanged(s, s1, sha);
    match Effective(query, s.par, s.st.now) {
      case None =>
      case Some((p, _)) =>
        var s2 := s1.(st := s.st.(clients := ClientsLeft(s.st, p)));
        Unchanged(s, s2, sha);
        var d := Decide(s.st, query, s.par, b);
        if Started(d) {
          var h' := Noted(s.h, OriginOf(s.st, p, b), s.st.drawn);
          NewOrigin(s.h, OriginOf(s.st, p, b), s.st.drawn);
          ConsentsKept(s.h, h', s.st.consents);
          StartedOk(s.st, query, s.par, b, h', s.st.drawn);
        }
        CarryBinds(s2, OriginOf(s.st, p, b), b.sso, d, sha);
    }
  }

  /** Nothing bound was touched, or only removed. */
  lemma Unchanged(s: State, s': State, sha: string -> string)
    requires Bound(s, sha) && s'.h == s.h && s'.calls == s.calls && s'.st.consents == s.st.consents
             && s'.st.drawn >= s.st.drawn
    requires forall k :: k in s'.sessions ==> k in s.sessions && s'.sessions[k] == s.sessions[k]
    requires forall k :: k in s'.codes ==> k in s.codes && s'.codes[k] == s.codes[k]
    ensures Bound(s', sha)
  {
  }

  /** A login hands the request of its session on to the code. */
  lemma LoginCodeOk(s: State, h': History, sid: nat, user: string, amr: seq<string>)
    requires sid in s.sessions && SessionOk(s.h, sid, s.sessions[sid].value) && ConsentsOk(s.h, s.st.consents)
    requires s.sessions[sid].value.challengeMethod !in ["saml", "device"]
    requires s.st.drawn !in s.h.from && s.st.drawn !in s.h.logins && s.st.drawn !in s.h.minted
    requires h' == MintNoted(s.h.(from := s.h.from[s.st.drawn := SourceOf(s.h, sid)]), s.st.drawn,
                             LoginCode(s, s.sessions[sid].value, user, amr), Some(Sso(user, s.st.now, amr)))
    ensures Grows(s.h, h') && CodeOk(h', s.st.drawn, LoginCode(s, s.sessions[sid].value, user, amr))
  {
    var se := s.sessions[sid].value;
    var a := LoginCode(s, se, user, amr);
    if !a.pendingConsent && se.needsConsent {
      WordsCovered(h', s.st.consents, user, se.client, se.scope);
    }
  }

  lemma LoginBinds(s: State, sid: nat, user: string, amr: seq<string>, denied: bool, sha: string -> string)
    requires Bound(s, sha)
    ensures Bound(LoginStep(s, sid, user, amr, denied), sha)
  {
    var s' := LoginStep(s, sid, user, amr, denied);
    if s'.st.drawn == s.st.drawn {
      Unchanged(s, s', sha);
    } else {
      assert SessionOk(s.h, sid, s.sessions[sid].value);
      LoginCodeOk(s, s'.h, sid, user, amr);
      ConsentsKept(s.h, s'.h, s.st.consents);
      CodeStored(s, s', s.st.drawn, LoginCode(s, s.sessions[sid].value, user, amr), sha);
    }
  }

  lemma ApprovalGiven(h: History, h': History, code: nat, a: AuthCode)
    requires h' == h.(approvals := h.approvals + [Approval(code, a.user, a.client, a.scope, a.csrf)])
    ensures Grows(h, h') && CodeApproved(h', code, a.user) && FormApproved(h'.approvals, code, a.user, a.csrf)
    ensures Covered(h', a.user, a.client, a.scope)
  {
    assert h'.approvals[|h.approvals|] == Approval(code, a.user, a.client, a.scope, a.csrf);
  }

  lemma ApprovedCodeOk(h: History, h': History, code: nat, a: AuthCode)
    requires CodeOk(h, code, a) && Grows(h, h') && CodeApproved(h', code, a.user)
    requires FormApproved(h'.approvals, code, a.user, a.csrf)
    ensures CodeOk(h', code, a.(pendingConsent := false))
  {
  }

  lemma FormKept(h: History, h': History, f: Form)
    requires Grows(h, h') && FormOk(h, f)
    ensures FormOk(h', f)
  {
    match f {
      case Saving(code, a) => CodeKept(h, h', code, a.(pendingConsent := false));
      case Looking(user, client, scope) =>
        forall w | w in Lists.Words(scope) ensures WordApproved(h', user, client, w) {
          WordKept(h, h', user, client, w);
        }
      case Recording(user, client, granted) =>
        forall w | w in granted ensures WordApproved(h', user, client, w) {
          WordKept(h, h', user, client, w);
        }
      case _ =>
    }
  }

  lemma FormMoved(s: State, s': State, fid: nat)
    requires FormsOk(s.h, s.forms) && Grows(s.h, s'.h)
    requires fid in s'.forms && s'.forms == s.forms[fid := s'.forms[fid]] && FormOk(s'.h, s'.forms[fid])
    ensures FormsOk(s'.h, s'.forms)
  {
    forall g | g in s'.forms ensures FormOk(s'.h, s'.forms[g]) {
      if g != fid {
        FormKept(s.h, s'.h, s.forms[g]);
      }
    }
  }

  lemma FormsKept(s: State, s': State)
    requires FormsOk(s.h, s.forms) && Grows(s.h, s'.h) && s'.forms == s.forms
    ensures FormsOk(s'.h, s'.forms)
  {
    forall g | g in s.forms ensures FormOk(s'.h, s.forms[g]) {
      FormKept(s.h, s'.h, s.forms[g]);
    }
  }

  /** History grew by something that no record, call or consent depends on. */
  lemma OnlyHistory(s: State, s': State, sha: string -> string)
    requires Bound(s, sha) && Grows(s.h, s'.h) && s' == s.(h := s'.h, forms := s'.forms)
    requires s'.h.responses == s.h.responses && s'.h.from == s.h.from && s'.h.logins == s.h.logins
    requires s'.h.minted == s.h.minted
    ensures Bound(s', sha)
  {
    HistoryGrew(s, s'.h, sha);
  }

  lemma ApprovalBinds(s: State, s': State, fid: nat, code: nat, a: AuthCode, sha: string -> string)
    requires Bound(s, sha) && FormsOk(s.h, s.forms) && IsLive(s, code) && s.codes[code].value.code == a
    requires s' == s.(forms := s.forms[fid := Saving(code, a)],
                      h := s.h.(approvals := s.h.approvals + [Approval(code, a.user, a.client, a.scope, a.csrf)]))
    ensures Bound(s', sha) && FormsOk(s'.h, s'.forms)
  {
    ApprovalGiven(s.h, s'.h, code, a);
    OnlyHistory(s, s', sha);
    ApprovedCodeOk(s.h, s'.h, code, a);
    FormMoved(s, s', fid);
  }

  lemma ConsentBinds(s: State, fid: nat, code: nat, csrf: nat, approve: bool, cookie: Option<nat>,
                     sha: string -> string)
    requires Bound(s, sha) && FormsOk(s.h, s.forms)
    ensures var s' := ConsentStep(s, fid, code, csrf, approve, cookie);
            Bound(s', sha) && FormsOk(s'.h, s'.forms)
  {
    var f := Submitted(s, code, csrf, approve, cookie);
    if f.Saving? {
      assert csrf == f.auth.csrf;
      ApprovalBinds(s, ConsentStep(s, fid, code, csrf, approve, cookie), fid, code, f.auth, sha);
    } else {
      LookBinds(s, SetForm(s, fid, f), fid, sha);
    }
  }

  lemma GrantedApproved(h: History, consents: map<(string, string), set<string>>, user: string, client: string,
                        scope: string)
    requires ConsentsOk(h, consents) && Covered(h, user, client, scope)
    ensures forall w :: w in Granted(consents, user, client, scope) ==> WordApproved(h, user, client, w)
  {
  }

  lemma SaveBinds(s: State, fid: nat, code: nat, a: AuthCode, sha: string -> string)
    requires Bound(s, sha) && FormsOk(s.h, s.forms) && fid in s.forms && s.forms[fid] == Saving(code, a)
    ensures var s' := SaveStep(s, fid, code, a); Bound(s', sha) && FormsOk(s'.h, s'.forms)
  {
    var s' := SaveStep(s, fid, code, a);
    assert FormOk(s.h, s.forms[fid]);
    CodeKept(s.h, s'.h, code, a.(pendingConsent := false));
    ConsentsKept(s.h, s'.h, s.st.consents);
    CodeStored(s, s', code, a.(pendingConsent := false), sha);
    FormKept(s.h, s'.h, s.forms[fid]);
    FormMoved(s, s', fid);
  }

  lemma RecordBinds(s: State, fid: nat, user: string, client: string, granted: set<string>, sha: string -> string)
    requires Bound(s, sha) && FormsOk(s.h, s.forms) && fid in s.forms
             && s.forms[fid] == Recording(user, client, granted)
    ensures var s' := RecordStep(s, fid, user, client, granted); Bound(s', sha) && FormsOk(s'.h, s'.forms)
  {
    var s' := RecordStep(s, fid, user, client, granted);
    assert FormOk(s.h, s.forms[fid]);
    ConsentsRecorded(s, s', user, client, granted, sha);
    FormMoved(s, s', fid);
  }

  lemma ConsentsRecorded(s: State, s': State, user: string, client: string, granted: set<string>,
                         sha: string -> string)
    requires Bound(s, sha) && (forall w :: w in granted ==> WordApproved(s.h, user, client, w))
    requires s' == s.(forms := s'.forms, st := s.st.(consents := s.st.consents[(user, client) := granted]))
    ensures Bound(s', sha)
  {
    forall u, c, w | (u, c) in s'.st.consents && w in s'.st.consents[(u, c)] ensures WordApproved(s.h, u, c, w) {
      if (u, c) != (user, client) {
        assert w in s.st.consents[(u, c)];
      }
    }
  }

  lemma FormBinds(s: State, fid: nat, sha: string -> string)
    requires Bound(s, sha) && FormsOk(s.h, s.forms) && fid in s.forms
    ensures var s' := FormStep(s, fid); Bound(s', sha) && FormsOk(s'.h, s'.forms)
  {
    match s.forms[fid] {
      case Saving(code, a) => SaveBinds(s, fid, code, a, sha);
      case Recording(user, client, granted) => RecordBinds(s, fid, user, client, granted, sha);
      case Looking(user, client, scope) =>
        assert FormOk(s.h, s.forms[fid]);
        GrantedApproved(s.h, s.st.consents, user, client, scope);
        LookBinds(s, FormStep(s, fid), fid, sha);
      case Deleting(code) => DeleteBinds(s, FormStep(s, fid), fid, code, sha);
      case Closed =>
    }
  }

  lemma LookBinds(s: State, s': State, fid: nat, sha: string -> string)
    requires Bound(s, sha) && FormsOk(s.h, s.forms) && fid in s'.forms
    requires s' == s.(forms := s.forms[fid := s'.forms[fid]]) && FormOk(s.h, s'.forms[fid])
    ensures Bound(s', sha) && FormsOk(s'.h, s'.forms)
  {
    Unchanged(s, s', sha);
    FormMoved(s, s', fid);
  }

  lemma DeleteBinds(s: State, s': State, fid: nat, code: nat, sha: string -> string)
    requires Bound(s, sha) && FormsOk(s.h, s.forms) && s' == SetForm(s, fid, Closed).(codes := Delete(s.codes, code))
    ensures Bound(s', sha) && FormsOk(s'.h, s'.forms)
  {
    Unchanged(s, s', sha);
    FormMoved(s, s', fid);
  }

  /** A step of one token call, which may spend or remove codes. */
  lemma CallMoved(s: State, s': State, pid: nat, sha: string -> string)
    requires Bound(s, sha) && s'.h.(responses := s.h.responses) == s.h && s'.st == s.st && s'.sessions == s.sessions
    requires pid in s'.calls && CallOk(s.h, s'.calls[pid], sha) && s'.calls == s.calls[pid := s'.calls[pid]]
    requires forall k :: k in s'.codes && s'.codes[k].value.Live? ==> k in s.codes && s'.codes[k] == s.codes[k]
    requires forall k :: k in s'.codes ==> k < s.st.drawn
    requires AnswersOk(s.h, s'.h.responses, sha)
    ensures Bound(s', sha)
  {
    HistorySame(s, s'.h, sha);
    forall i | 0 <= i < |s'.h.responses| ensures AnswerOk(s'.h, s'.h.responses[i], sha) {
      AnswerKept(s.h, s'.h, s'.h.responses[i], sha);
    }
    CallKept(s.h, s'.h, s'.calls[pid], sha);
  }

  lemma HistorySame(s: State, h': History, sha: string -> string)
    requires Bound(s, sha) && h'.(responses := s.h.responses) == s.h
    ensures ConsentsOk(h', s.st.consents)
    ensures forall id :: id in s.codes && s.codes[id].value.Live? ==> CodeOk(h', id, s.codes[id].value.code)
    ensures forall id :: id in s.sessions ==> SessionOk(h', id, s.sessions[id].value)
    ensures forall pid :: pid in s.calls ==> CallOk(h', s.calls[pid], sha)
  {
    ConsentsKept(s.h, h', s.st.consents);
    forall id | id in s.codes && s.codes[id].value.Live? ensures CodeOk(h', id, s.codes[id].value.code) {
      CodeKept(s.h, h', id, s.codes[id].value.code);
    }
    forall pid | pid in s.calls ensures CallOk(h', s.calls[pid], sha) {
      CallKept(s.h, h', s.calls[pid], sha);
    }
  }

  lemma SwapBinds(s: State, pid: nat, sha: string -> string)
    requires Bound(s, sha) && pid in s.calls && s.calls[pid].Holding?
    ensures Bound(SwapStep(s, pid), sha)
  {
    var c := s.calls[pid];
    assert CallOk(s.h, c, sha) && c.req.code < s.st.drawn;
    if CasOk(s.codes, c.req.code, c.rev) {
      SwappedBinds(s, SwapStep(s, pid), pid, c.req, c.auth, c.rev, sha);
    } else {
      CallMoved(s, SwapStep(s, pid), pid, sha);
    }
  }

  lemma SwappedBinds(s: State, s': State, pid: nat, req: Exchange, a: AuthCode, rev: nat, sha: string -> string)
    requires Bound(s, sha) && HeldOk(s.h, req, a, sha) && req.code < s.st.drawn
    requires s' == s.(codes := Cas(s.codes, req.code, Spent, rev), calls := s.calls[pid := Claimed(req, a)])
    ensures Bound(s', sha)
  {
    CallMoved(s, s', pid, sha);
  }

  lemma AnswerAdded(h: History, rs: seq<Response>, r: Response, sha: string -> string)
    requires AnswersOk(h, rs, sha) && AnswerOk(h, r, sha)
    ensures AnswersOk(h, rs + [r], sha)
  {
  }

  lemma AnsweredBinds(s: State, s': State, pid: nat, c: Call, sha: string -> string)
    requires Bound(s, sha) && c.Claimed? && HeldOk(s.h, c.req, c.auth, sha)
    requires s' == s.(codes := Delete(s.codes, c.req.code), calls := s.calls[pid := Answered],
                      h := s.h.(responses := s.h.responses + [Response(pid, c.req, c.auth, |s.h.approvals|)]))
    ensures Bound(s', sha)
  {
    assert s.h.approvals[..|s.h.approvals|] == s.h.approvals;
    AnswerAdded(s.h, s.h.responses, Response(pid, c.req, c.auth, |s.h.approvals|), sha);
    CallMoved(s, s', pid, sha);
  }

  lemma AnswerBinds(s: State, pid: nat, sha: string -> string)
    requires Bound(s, sha) && pid in s.calls && s.calls[pid].Claimed?
    ensures Bound(AnswerStep(s, pid), sha)
  {
    var c := s.calls[pid];
    assert CallOk(s.h, c, sha);
    if c.auth.user in s.users && s.users[c.auth.user] {
      AnsweredBinds(s, AnswerStep(s, pid), pid, c, sha);
    } else {
      CallMoved(s, AnswerStep(s, pid), pid, sha);
    }
  }

  lemma ReadBinds(s: State, pid: nat, req: Exchange, sha: string -> string)
    requires Bound(s, sha)
    ensures Bound(ReadStep(sha, s, pid, req), sha)
  {
  }

  // ----- every step -----

  lemma RequestGrows(s: State, query: seq<(string, string)>, b: Browser)
    requires FromOk(s)
    ensures var s' := RequestStep(s, query, b); Grows(s.h, s'.h) && s'.forms == s.forms
  {
    match Effective(query, s.par, s.st.now) {
      case None =>
      case Some((p, _)) =>
        CarryGrows(s.(par := ParLeft(query, s.par), st := s.st.(clients := ClientsLeft(s.st, p))),
                   OriginOf(s.st, p, b), b.sso, Decide(s.st, query, s.par, b));
    }
  }

  lemma CarryGrows(s: State, o: Origin, sso: Option<Sso>, d: Decision)
    requires FromOk(s)
    ensures var s' := CarryOut(s, o, sso, d); Grows(s.h, s'.h) && s'.forms == s.forms
  {
  }

  lemma LoginGrows(s: State, sid: nat, user: string, amr: seq<string>, denied: bool)
    requires FromOk(s)
    ensures var s' := LoginStep(s, sid, user, amr, denied); Grows(s.h, s'.h) && s'.forms == s.forms
  {
  }

  /** Every step but those of forms. */
  lemma StepGrows(s: State, e: Event, sha: string -> string)
    requires FromOk(s) && !e.Consent? && !e.Continue?
    ensures var s' := Step(sha, s, e); Grows(s.h, s'.h) && s'.forms == s.forms
  {
    match e {
      case Request(query, b) => RequestGrows(s, query, b);
      case CompleteLogin(sid, user, amr, denied) => LoginGrows(s, sid, user, amr, denied);
      case Swap(pid) =>
        if pid in s.calls && s.calls[pid].Holding? {
          SwapGrows(s, pid);
        }
      case Answer(pid) =>
        if pid in s.calls && s.calls[pid].Claimed? {
          AnswerGrows(s, pid);
        }
      case _ => RestGrows(s, e, sha);
    }
  }

  lemma RestGrows(s: State, e: Event, sha: string -> string)
    requires !e.Request? && !e.CompleteLogin? && !e.Consent? && !e.Continue? && !e.Swap? && !e.Answer?
    ensures var s' := Step(sha, s, e); Grows(s.h, s'.h) && s'.forms == s.forms
  {
  }

  lemma SwapGrows(s: State, pid: nat)
    requires pid in s.calls && s.calls[pid].Holding?
    ensures SwapStep(s, pid).h == s.h && SwapStep(s, pid).forms == s.forms
  {
  }

  lemma AnswerGrows(s: State, pid: nat)
    requires pid in s.calls && s.calls[pid].Claimed?
    ensures Grows(s.h, AnswerStep(s, pid).h) && AnswerStep(s, pid).forms == s.forms
  {
  }

  lemma StepBinds(s: State, e: Event, sha: string -> string)
    requires Bound(s, sha) && FormsOk(s.h, s.forms)
    ensures var s' := Step(sha, s, e); Bound(s', sha) && FormsOk(s'.h, s'.forms)
  {
    match e {
      case Consent(fid, code, csrf, approve, cookie) =>
        if fid !in s.forms {
          ConsentBinds(s, fid, code, csrf, approve, cookie, sha);
        }
      case Continue(fid) =>
        if fid in s.forms {
          FormBinds(s, fid, sha);
        }
      case _ =>
        OthersBind(s, e, sha);
        StepGrows(s, e, sha);
        FormsKept(s, Step(sha, s, e));
    }
  }

  lemma OthersBind(s: State, e: Event, sha: string -> string)
    requires Bound(s, sha) && !e.Consent? && !e.Continue?
    ensures Bound(Step(sha, s, e), sha)
  {
    if e.Read? || e.Swap? || e.Answer? {
      TokenStepBinds(s, e, sha);
    } else {
      match e {
        case Request(query, b) => RequestBinds(s, query, b, sha);
        case CompleteLogin(sid, user, amr, denied) => LoginBinds(s, sid, user, amr, denied, sha);
        case _ => RestBinds(s, e, sha);
      }
    }
  }

  lemma RestBinds(s: State, e: Event, sha: string -> string)
    requires Bound(s, sha) && (e.Tick? || e.SetClient? || e.SetUser? || e.Push? || e.ForeignSession? || e.Drop?)
    ensures Bound(Step(sha, s, e), sha)
  {
    if e.ForeignSession? && (e.session.challengeMethod == "saml" || e.session.challengeMethod == "device") {
      SessionStored(s, Step(sha, s, e), s.st.drawn, e.session, sha);
    } else {
      Unchanged(s, Step(sha, s, e), sha);
    }
  }

  lemma TokenStepBinds(s: State, e: Event, sha: string -> string)
    requires Bound(s, sha) && (e.Read? || e.Swap? || e.Answer?)
    ensures Bound(Step(sha, s, e), sha)
  {
    match e {
      case Read(pid, req) => ReadBinds(s, pid, req, sha);
      case Swap(pid) => SwapStepBinds(s, pid, sha);
      case Answer(pid) => AnswerStepBinds(s, pid, sha);
    }
  }

  lemma SwapStepBinds(s: State, pid: nat, sha: string -> string)
    requires Bound(s, sha)
    ensures Bound(Step(sha, s, Swap(pid)), sha)
  {
    if pid in s.calls && s.calls[pid].Holding? {
      SwapIs(sha, s, pid);
      SwapBinds(s, pid, sha);
    } else {
      NothingToDo(sha, s, pid);
    }
  }

  lemma SwapIs(sha: string -> string, s: State, pid: nat)
    requires pid in s.calls && s.calls[pid].Holding?
    ensures Step(sha, s, Swap(pid)) == SwapStep(s, pid)
  {
  }

  lemma AnswerIs(sha: string -> string, s: State, pid: nat)
    requires pid in s.calls && s.calls[pid].Claimed?
    ensures Step(sha, s, Answer(pid)) == AnswerStep(s, pid)
  {
  }

  lemma NothingToDo(sha: string -> string, s: State, pid: nat)
    ensures !(pid in s.calls && s.calls[pid].Holding?) ==> Step(sha, s, Swap(pid)) == s
    ensures !(pid in s.calls && s.calls[pid].Claimed?) ==> Step(sha, s, Answer(pid)) == s
  {
  }

  lemma AnswerStepBinds(s: State, pid: nat, sha: string -> string)
    requires Bound(s, sha)
    ensures Bound(Step(sha, s, Answer(pid)), sha)
  {
    if pid in s.calls && s.calls[pid].Claimed? {
      AnswerIs(sha, s, pid);
      AnswerBinds(s, pid, sha);
    } else {
      NothingToDo(sha, s, pid);
    }
  }
}
