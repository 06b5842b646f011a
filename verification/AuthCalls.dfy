/** The code-exchange, login and consent handlers as they run: every execution is a
    run, or one step, of the transition system in AuthFlow. A token request and a form are
    known by their number. */
module AuthCalls {
  import opened Kv
  import opened Authorize
  import opened AuthFlow
  import Lists

  predicate Owns(e: Event, n: nat) {
    || ((e.Read? || e.Swap? || e.Answer?) && e.pid == n)
    || ((e.Consent? || e.Continue?) && e.fid == n)
  }

  predicate ByOthers(es: seq<Event>, pid: nat) { forall i :: 0 <= i < |es| ==> !Owns(es[i], pid) }

  /** The other's step leaves what the store keeps for number `n`. */
  ghost predicate Leaves(s: State, s': State, n: nat) {
    && (n in s'.calls <==> n in s.calls) && (n in s.calls ==> s'.calls[n] == s.calls[n])
    && (n in s'.forms <==> n in s.forms) && (n in s.forms ==> s'.forms[n] == s.forms[n])
    && s.h.approvals <= s'.h.approvals
  }

  lemma OthersStep(sha: string -> string, s: State, e: Event, n: nat)
    requires !Owns(e, n)
    ensures Leaves(s, Step(sha, s, e), n)
  {
    match e {
      case Request(query, b) => RequestLeaves(s, query, b);
      case Continue(fid) =>
        if fid in s.forms {
          FormLeaves(s, fid, n);
        }
      case Consent(fid, code, csrf, approve, cookie) =>
        if fid !in s.forms {
          ConsentLeaves(s, fid, code, csrf, approve, cookie, n);
        }
      case Swap(pid) => TokenLeaves(s, pid, n);
      case Answer(pid) => TokenLeaves(s, pid, n);
      case _ => RestLeaves(sha, s, e, n);
    }
  }

  lemma SaveLeaves(s: State, fid: nat, code: nat, a: AuthCode, n: nat)
    requires fid != n
    ensures Leaves(s, SaveStep(s, fid, code, a), n)
  {
  }

  lemma FormLeaves(s: State, fid: nat, n: nat)
    requires fid in s.forms && fid != n
    ensures Leaves(s, FormStep(s, fid), n)
  {
    match s.forms[fid] {
      case Saving(code, a) => SaveLeaves(s, fid, code, a, n);
      case Recording(user, client, granted) => RecordLeaves(s, fid, user, client, granted, n);
      case Deleting(code) => DeleteLeaves(s, fid, code, n);
      case Looking(user, client, scope) =>
        FormLeft(s, fid, Recording(user, client, Granted(s.st.consents, user, client, scope)), n);
      case Closed =>
    }
  }

  lemma RecordLeaves(s: State, fid: nat, user: string, client: string, granted: set<string>, n: nat)
    requires fid != n
    ensures Leaves(s, RecordStep(s, fid, user, client, granted), n)
  {
  }

  lemma DeleteLeaves(s: State, fid: nat, code: nat, n: nat)
    requires fid != n
    ensures Leaves(s, SetForm(s, fid, Closed).(codes := Delete(s.codes, code)), n)
  {
  }

  lemma FormLeft(s: State, fid: nat, f: Form, n: nat)
    requires fid != n
    ensures Leaves(s, SetForm(s, fid, f), n)
  {
  }

  lemma ConsentLeaves(s: State, fid: nat, code: nat, csrf: nat, approve: bool, cookie: Option<nat>, n: nat)
    requires fid != n
    ensures Leaves(s, ConsentStep(s, fid, code, csrf, approve, cookie), n)
  {
  }

  lemma TokenLeaves(s: State, pid: nat, n: nat)
    requires pid != n
    ensures pid in s.calls && s.calls[pid].Holding? ==> Leaves(s, SwapStep(s, pid), n)
    ensures pid in s.calls && s.calls[pid].Claimed? ==> Leaves(s, AnswerStep(s, pid), n)
  {
  }

  lemma RestLeaves(sha: string -> string, s: State, e: Event, n: nat)
    requires !Owns(e, n) && !e.Request? && !e.Swap? && !e.Answer? && !e.Consent? && !e.Continue?
    ensures Leaves(s, Step(sha, s, e), n)
  {
  }

  lemma RequestLeaves(s: State, query: seq<(string, string)>, b: Browser)
    ensures RequestStep(s, query, b).calls == s.calls && RequestStep(s, query, b).forms == s.forms
    ensures RequestStep(s, query, b).h.approvals == s.h.approvals
  {
    match Effective(query, s.par, s.st.now) {
      case None =>
      case Some((p, _)) =>
        CarryLeaves(s.(par := ParLeft(query, s.par), st := s.st.(clients := ClientsLeft(s.st, p))),
                    OriginOf(s.st, p, b), b.sso, Decide(s.st, query, s.par, b));
    }
  }

  lemma CarryLeaves(s: State, o: Origin, sso: Option<Sso>, d: Decision)
    ensures CarryOut(s, o, sso, d).calls == s.calls && CarryOut(s, o, sso, d).forms == s.forms
    ensures CarryOut(s, o, sso, d).h.approvals == s.h.approvals
  {
  }

  lemma {:induction false} OthersLeave(sha: string -> string, s: State, es: seq<Event>, n: nat)
    requires ByOthers(es, n)
    ensures Leaves(s, Run(sha, s, es), n)
  {
    if es != [] {
      OthersLeave(sha, s, es[..|es| - 1], n);
      OthersStep(sha, Run(sha, s, es[..|es| - 1]), es[|es| - 1], n);
    }
  }

  class Gateway {
    const sha: string -> string
    var st: State

    constructor (sha: string -> string, s: State)
      ensures this.sha == sha && st == s
    {
      this.sha := sha;
      st := s;
    }

    /** Any number of steps of browsers, other forms and other token requests. */
    method Others(pid: nat) returns (ghost es: seq<Event>)
      modifies this`st
      ensures ByOthers(es, pid) && st == Run(sha, old(st), es) && Leaves(old(st), st, pid)
    {
      var some: seq<Event> := *;
      es := [];
      if ByOthers(some, pid) {
        es := some;
        OthersLeave(sha, st, some, pid);
        st := Run(sha, st, some);
      }
    }

    ghost method Extended(s0: State, es: seq<Event>, fs: seq<Event>, e: Event) returns (all: seq<Event>)
      requires st == Run(sha, Run(sha, s0, es), fs)
      ensures Run(sha, s0, all) == Step(sha, st, e)
    {
      RunConcat(sha, s0, es, fs);
      all := es + fs + [e];
      assert all[..|all| - 1] == es + fs;
    }

    // ----- /token -----

    ghost predicate InResponses(pid: nat, req: Exchange, auth: AuthCode)
      reads this
    {
      exists i :: 0 <= i < |st.h.responses| && st.h.responses[i].pid == pid
                  && st.h.responses[i].req == req && st.h.responses[i].auth == auth
    }

    /** Everything that is checked before the code is consumed, in order. */
    method CheckCode(pid: nat, req: Exchange) returns (found: Option<Cell<AuthCode>>)
      requires pid !in st.calls
      modifies this`st
      ensures st == Step(sha, old(st), Read(pid, req)) && pid in st.calls
      ensures st.calls[pid] == if found.Some? then Holding(req, found.value.value, found.value.rev) else Rejected
    {
      found := Look(req);
      assert Step(sha, st, Read(pid, req)) == ReadStep(sha, st, pid, req);
      var next := if found.Some? then Holding(req, found.value.value, found.value.rev) else Rejected;
      st := st.(calls := st.calls[pid := next]);
    }

    method Look(req: Exchange) returns (found: Option<Cell<AuthCode>>)
      ensures ReadResult(sha, st, req) == if found.Some? then Holding(req, found.value.value, found.value.rev)
              else Rejected
    {
      var client := ClientOf(st.st, req.client);
      if client.None? || !client.value.codeGrant { return None; }
      if req.code !in st.codes || st.codes[req.code].value.Spent? { return None; }
      var authCode, revision := st.codes[req.code].value.code, st.codes[req.code].rev;
      if authCode.client != req.client { return None; }
      if authCode.redirectUri != req.redirectUri { return None; }
      if st.st.now > authCode.expiresAt { return None; }
      if authCode.pendingConsent { return None; }
      if authCode.challenge == "" { return None; }
      if req.verifier.None? { return None; }
      if !VerifyPkce(sha, req.verifier.value, authCode.challenge, authCode.challengeMethod) { return None; }
      return Some(Cell(authCode, revision));
    }

    /** `consume_auth_code`: swap in the spent marker at the revision that was read. */
    method Consume(pid: nat) returns (ok: bool)
      requires pid in st.calls && st.calls[pid].Holding?
      modifies this`st
      ensures st == Step(sha, old(st), Swap(pid)) && pid in st.calls
      ensures st.calls[pid] == if ok then Claimed(old(st).calls[pid].req, old(st).calls[pid].auth) else Rejected
    {
      var c := st.calls[pid];
      ok := if c.req.code in st.codes then st.codes[c.req.code].rev == c.rev else c.rev == 0;
      if ok {
        st := st.(codes := st.codes[c.req.code := Cell(Spent, c.rev + 1)],
            calls := st.calls[pid := Claimed(c.req, c.auth)]);
      } else {
        st := st.(calls := st.calls[pid := Rejected]);
      }
    }

    /** With an active user: respond, and clean up the marker. */
    method Respond(pid: nat) returns (ok: bool)
      requires pid in st.calls && st.calls[pid].Claimed?
      modifies this`st
      ensures st == Step(sha, old(st), Answer(pid)) && pid in st.calls
      ensures st.calls[pid] == if ok then Answered else Rejected
      ensures ok ==> InResponses(pid, old(st).calls[pid].req, old(st).calls[pid].auth)
    {
      var c := st.calls[pid];
      ok := c.auth.user in st.users && st.users[c.auth.user];
      if ok {
        st := st.(codes := st.codes - {c.req.code}, calls := st.calls[pid := Answered],
                  h := st.h.(responses := st.h.responses + [Response(pid, c.req, c.auth, |st.h.approvals|)]));
        assert st.h.responses[|old(st).h.responses|] == Response(pid, c.req, c.auth, |st.h.approvals|);
      } else {
        st := st.(calls := st.calls[pid := Rejected]);
      }
    }

    /** From a checked code to the response. */
    method Redeem(pid: nat) returns (ok: bool, ghost es: seq<Event>)
      requires pid in st.calls && st.calls[pid].Holding?
      modifies this`st
      ensures st == Run(sha, old(st), es) && pid in st.calls && st.calls[pid] == if ok then Answered else Rejected
      ensures ok ==> InResponses(pid, old(st).calls[pid].req, old(st).calls[pid].auth)
    {
      ghost var fs := Others(pid);
      es := Extended(old(st), [], fs, Swap(pid));
      ok := Consume(pid);
      if !ok { return; }
      fs := Others(pid);
      es := Extended(old(st), es, fs, Answer(pid));
      ok := Respond(pid);
    }

    method HandleCodeExchange(pid: nat, req: Exchange) returns (response: Option<AuthCode>, ghost trace: seq<Event>)
      requires pid !in st.calls
      modifies this`st
      ensures st == Run(sha, old(st), trace)
      ensures pid in st.calls && st.calls[pid] == if response.Some? then Answered else Rejected
      ensures response.Some? ==> InResponses(pid, req, response.value)
    {
      var found, ok;
      ghost var fs := Others(pid);
      trace := Extended(old(st), [], fs, Read(pid, req));
      found := CheckCode(pid, req);
      if found.None? { return None, trace; }
      ok, fs := Redeem(pid);
      RunConcat(sha, old(st), trace, fs);
      trace := trace + fs;
      response := if ok then Some(found.value.value) else None;
    }

    // ----- login and consent -----

    method ConsentNeeded(session: AuthSession, user: string) returns (needed: bool)
      ensures needed <==>
                || session.forceConsent
                || (session.needsConsent && !HasConsented(st.st.consents, user, session.client, session.scope))
    {
      if session.forceConsent {
        needed := true;
      } else if session.needsConsent {
        needed := !HasConsented(st.st.consents, user, session.client, session.scope);
      } else {
        needed := false;
      }
    }

    method CompleteLoginWithAmr(sid: nat, user: string, amr: seq<string>, denied: bool) returns (code: Option<nat>)
      modifies this`st
      ensures st == Step(sha, old(st), CompleteLogin(sid, user, amr, denied))
      ensures code.Some? ==>
                code.value in st.codes && st.codes[code.value].value.Live?
                && st.codes[code.value].value.code.user == user
      ensures code.None? ==> st.codes == old(st).codes
      ensures code.Some? <==> !denied && sid in old(st).sessions
                              && old(st).sessions[sid].value.challengeMethod !in ["saml", "device"]
    {
      code := None;
      if denied || sid !in st.sessions { return; }
      var session := st.sessions[sid].value;
      var acr := AcrFromAmr(amr);
      st := st.(sessions := st.sessions - {sid});
      if session.challengeMethod == "saml" { return; }
      if session.challengeMethod == "device" { return; }
      var needsConsent := ConsentNeeded(session, user);
      var id := st.st.drawn;
      var authCode := AuthCode(user, session.client, session.redirectUri, session.challenge, session.challengeMethod,
                               session.nonce, session.scope, st.st.now, amr, acr, session.requested, id + 1,
                               st.st.now + TTL_AUTH_CODE, session.state, session.sid, needsConsent);
      st := st.(st := st.st.(drawn := id + 2), codes := Put(st.codes, id, Live(authCode)),
                h := st.h.(from := st.h.from[id := SourceOf(st.h, sid)], minted := st.h.minted[id := authCode],
                           logins := st.h.logins[id := Sso(user, authCode.authTime, amr)]));
      code := Some(id);
    }

    method SetMyForm(fid: nat, f: Form)
      modifies this`st
      ensures st == SetForm(old(st), fid, f)
    {
      st := st.(forms := st.forms[fid := f]);
    }

    /** `save_user_consent`: read the record, add the words, write it. */
    method SaveUserConsent(fid: nat, user: string, client: string, scope: string) returns (ghost es: seq<Event>)
      requires fid in st.forms && st.forms[fid] == Looking(user, client, scope)
      modifies this`st
      ensures st == Run(sha, old(st), es) && fid in st.forms && st.forms[fid] == Closed
      ensures old(st).h.approvals <= st.h.approvals
    {
      ghost var fs := Others(fid);
      es := Extended(old(st), [], fs, Continue(fid));
      var scopes := if (user, client) in st.st.consents then st.st.consents[(user, client)] else {};
      scopes := scopes + Lists.Words(scope);
      SetMyForm(fid, Recording(user, client, scopes));
      fs := Others(fid);
      es := Extended(old(st), es, fs, Continue(fid));
      st := st.(st := st.st.(consents := st.st.consents[(user, client) := scopes]));
      SetMyForm(fid, Closed);
    }

    ghost predicate InApprovals(code: nat, user: string, csrf: nat)
      reads this
    {
      exists i :: 0 <= i < |st.h.approvals| && st.h.approvals[i].code == code
                  && st.h.approvals[i].user == user && st.h.approvals[i].csrf == csrf
    }

    /** The checks of the form, in order. */
    method JudgeForm(code: nat, csrf: nat, approve: bool, cookie: Option<nat>) returns (f: Form)
      ensures f == Submitted(st, code, csrf, approve, cookie)
    {
      if code !in st.codes || st.codes[code].value.Spent? { return Closed; }
      var authCode := st.codes[code].value.code;
      if st.st.now > authCode.expiresAt { return Deleting(code); }
      if cookie != Some(code) { return Closed; }
      if approve && csrf != authCode.csrf { return Closed; }
      if !approve { return Deleting(code); }
      return Saving(code, authCode);
    }

    method CheckForm(fid: nat, code: nat, csrf: nat, approve: bool, cookie: Option<nat>) returns (f: Form)
      requires fid !in st.forms
      modifies this`st
      ensures st == Step(sha, old(st), Consent(fid, code, csrf, approve, cookie))
      ensures fid in st.forms && st.forms[fid] == f && f == Submitted(old(st), code, csrf, approve, cookie)
      ensures f.Saving? ==> InApprovals(code, f.auth.user, csrf)
    {
      f := JudgeForm(code, csrf, approve, cookie);
      assert Step(sha, st, Consent(fid, code, csrf, approve, cookie))
          == ConsentStep(st, fid, code, csrf, approve, cookie);
      SetMyForm(fid, f);
      if f.Saving? {
        var a := Approval(code, f.auth.user, f.auth.client, f.auth.scope, csrf);
        st := st.(h := st.h.(approvals := st.h.approvals + [a]));
        assert st.h.approvals[|old(st).h.approvals|] == a;
      }
    }

    method SaveAuthCode(fid: nat, code: nat, a: AuthCode)
      requires fid in st.forms && st.forms[fid] == Saving(code, a)
      modifies this`st
      ensures st == Step(sha, old(st), Continue(fid)) && fid in st.forms
      ensures st.forms[fid] == Looking(a.user, a.client, a.scope) && st.h.approvals == old(st).h.approvals
    {
      var restored := if code in st.codes && st.codes[code].value.Live? then {} else {code};
      assert st.h.restored + {} == st.h.restored;
      st := st.(codes := Put(st.codes, code, Live(a.(pendingConsent := false))),
                h := st.h.(restored := st.h.restored + restored));
      SetMyForm(fid, Looking(a.user, a.client, a.scope));
    }

    lemma StillApproved(h: History, code: nat, user: string, csrf: nat)
      requires exists i :: 0 <= i < |h.approvals| && h.approvals[i].code == code
                           && h.approvals[i].user == user && h.approvals[i].csrf == csrf
      requires h.approvals <= st.h.approvals
      ensures InApprovals(code, user, csrf)
    {
      var i :| 0 <= i < |h.approvals| && h.approvals[i].code == code
               && h.approvals[i].user == user && h.approvals[i].csrf == csrf;
      assert st.h.approvals[i] == h.approvals[i];
    }

    /** From the approved form on: save the code, then the consent. */
    method Approve(fid: nat, code: nat, a: AuthCode) returns (ghost es: seq<Event>)
      requires fid in st.forms && st.forms[fid] == Saving(code, a)
      modifies this`st
      ensures st == Run(sha, old(st), es) && fid in st.forms && st.forms[fid] == Closed
      ensures old(st).h.approvals <= st.h.approvals
    {
      ghost var fs := Others(fid);
      es := Extended(old(st), [], fs, Continue(fid));
      SaveAuthCode(fid, code, a);
      fs := SaveUserConsent(fid, a.user, a.client, a.scope);
      RunConcat(sha, old(st), es, fs);
      es := es + fs;
    }

    method Deny(fid: nat, code: nat) returns (ghost es: seq<Event>)
      requires fid in st.forms && st.forms[fid] == Deleting(code)
      modifies this`st
      ensures st == Run(sha, old(st), es) && fid in st.forms && st.forms[fid] == Closed
    {
      ghost var fs := Others(fid);
      es := Extended(old(st), [], fs, Continue(fid));
      st := st.(codes := st.codes - {code});
      SetMyForm(fid, Closed);
    }

    /** `approved` says that the user gets the redirect with the code. */
    method HandleConsent(fid: nat, code: nat, csrf: nat, approve: bool, cookie: Option<nat>)
      returns (approved: bool, ghost trace: seq<Event>)
      requires fid !in st.forms
      modifies this`st
      ensures st == Run(sha, old(st), trace) && fid in st.forms && st.forms[fid] == Closed
      ensures approved ==> approve && cookie == Some(code) && exists user :: InApprovals(code, user, csrf)
    {
      ghost var fs := Others(fid);
      trace := Extended(old(st), [], fs, Consent(fid, code, csrf, approve, cookie));
      var f := CheckForm(fid, code, csrf, approve, cookie);
      approved := f.Saving?;
      if f.Saving? {
        ghost var h := st.h;
        fs := Approve(fid, code, f.auth);
        StillApproved(h, code, f.auth.user, csrf);
      } else if f.Deleting? {
        fs := Deny(fid, code);
      } else {
        return;
      }
      RunConcat(sha, old(st), trace, fs);
      trace := trace + fs;
    }
  }
}
