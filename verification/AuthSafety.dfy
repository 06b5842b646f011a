/** The guarantees of the authorization-code grant, over every run. */
module AuthSafety {
  import opened Kv
  import opened Authorize
  import opened AuthFlow
  import opened AuthBinding

  // ----- each code at most once -----

  /** A call that read the code at a revision still finds it live if nothing was written
      since, unless a form has restored the code. */
  ghost predicate HeldRev(s: State, c: Call) {
    c.Holding? ==>
      && c.req.code < s.st.drawn && c.rev > 0
      && (c.req.code in s.codes && c.req.code !in s.h.restored ==>
            c.rev <= s.codes[c.req.code].rev && (c.rev == s.codes[c.req.code].rev ==> s.codes[c.req.code].value.Live?))
  }

  ghost predicate Unclaimed(s: State, code: nat) {
    && (forall pid :: pid in s.calls && s.calls[pid].Claimed? ==> s.calls[pid].req.code != code)
    && (forall i :: 0 <= i < |s.h.responses| ==> s.h.responses[i].req.code != code)
  }

  /** Two uses of one code are uses of a restored one. */
  ghost predicate Distinct(s: State) {
    && (forall p, q :: p in s.calls && q in s.calls && p != q && s.calls[p].Claimed? && s.calls[q].Claimed? ==>
          s.calls[p].req.code != s.calls[q].req.code || s.calls[p].req.code in s.h.restored)
    && (forall p, i :: p in s.calls && s.calls[p].Claimed? && 0 <= i < |s.h.responses| ==>
          s.calls[p].req.code != s.h.responses[i].req.code || s.calls[p].req.code in s.h.restored)
    && (forall i, j :: 0 <= i < j < |s.h.responses| ==>
          s.h.responses[i].req.code != s.h.responses[j].req.code || s.h.responses[i].req.code in s.h.restored)
  }

  ghost predicate Once(s: State) {
    && (forall id :: id in s.codes ==> id < s.st.drawn)
    && (forall id :: id in s.h.restored ==> id < s.st.drawn)
    && (forall pid :: pid in s.calls ==> HeldRev(s, s.calls[pid]))
    && (forall id :: IsLive(s, id) && id !in s.h.restored ==> Unclaimed(s, id))
    && (forall id :: s.st.drawn <= id ==> Unclaimed(s, id))
    && (forall id :: IsLive(s, id) && s.codes[id].value.code.pendingConsent ==> id !in s.h.restored)
    && Distinct(s)
  }

  /** Browser steps store new codes, rewrite live ones, remove some, or restore some. */
  ghost predicate CodesMove(s: State, s': State) {
    && s'.calls == s.calls && s'.h.responses == s.h.responses && s.st.drawn <= s'.st.drawn
    && s.h.restored <= s'.h.restored && (forall id :: id in s'.h.restored ==> id < s'.st.drawn)
    && (forall id :: IsLive(s', id) && s'.codes[id].value.code.pendingConsent ==> id !in s'.h.restored)
    && forall id :: id in s'.codes ==>
         && id < s'.st.drawn
         && (id !in s'.h.restored ==>
               && (id !in s.codes ==> s.st.drawn <= id)
               && (id in s.codes && s'.codes[id] != s.codes[id] ==>
                     s.codes[id].value.Live? && s'.codes[id].value.Live? && s.codes[id].rev < s'.codes[id].rev))
  }

  lemma BrowserKeepsOnce(s: State, s': State)
    requires Once(s) && CodesMove(s, s')
    ensures Once(s')
  {
    forall id | IsLive(s', id) && id !in s'.h.restored ensures Unclaimed(s', id) {
      assert Unclaimed(s, id);
    }
    forall id | s'.st.drawn <= id ensures Unclaimed(s', id) {
      assert Unclaimed(s, id);
    }
    forall pid | pid in s'.calls ensures HeldRev(s', s'.calls[pid]) {
      assert HeldRev(s, s.calls[pid]);
    }
  }

  lemma BrowserMoves(sha: string -> string, s: State, e: Event)
    requires Once(s) && !e.Read? && !e.Swap? && !e.Answer? && !e.Continue?
    ensures CodesMove(s, Step(sha, s, e))
  {
    match e {
      case Request(query, b) => RequestMoves(s, query, b);
      case CompleteLogin(sid, user, amr, denied) => LoginMoves(s, sid, user, amr, denied);
      case Consent(fid, code, csrf, approve, cookie) =>
        if fid !in s.forms {
          ConsentMoves(s, fid, code, csrf, approve, cookie);
        }
      case _ => RestMoves(sha, s, e);
    }
  }

  lemma RestMoves(sha: string -> string, s: State, e: Event)
    requires Once(s) && (e.Tick? || e.SetClient? || e.SetUser? || e.Push? || e.ForeignSession? || e.Drop?)
    ensures CodesMove(s, Step(sha, s, e))
  {
    if e.Drop? {
      DropMoves(s, e.key);
    }
  }

  lemma DropMoves(s: State, id: nat)
    requires Once(s)
    ensures CodesMove(s, s.(sessions := Delete(s.sessions, id), codes := Delete(s.codes, id)))
  {
  }

  lemma CarryMoves(s: State, o: Origin, sso: Option<Sso>, d: Decision)
    requires Once(s)
    ensures CodesMove(s, CarryOut(s, o, sso, d))
  {
  }

  lemma RequestMoves(s: State, query: seq<(string, string)>, b: Browser)
    requires Once(s)
    ensures CodesMove(s, RequestStep(s, query, b))
  {
    match Effective(query, s.par, s.st.now) {
      case None =>
      case Some((p, _)) =>
        var s1 := s.(par := ParLeft(query, s.par), st := s.st.(clients := ClientsLeft(s.st, p)));
        BrowserKeepsOnce(s, s1);
        CarryMoves(s1, OriginOf(s.st, p, b), b.sso, Decide(s.st, query, s.par, b));
    }
  }

  lemma LoginMoves(s: State, sid: nat, user: string, amr: seq<string>, denied: bool)
    requires Once(s)
    ensures CodesMove(s, LoginStep(s, sid, user, amr, denied))
  {
    if !denied && sid in s.sessions {
      var se := s.sessions[sid].value;
      if se.challengeMethod == "saml" || se.challengeMethod == "device" {
        SessionGone(s, Delete(s.sessions, sid));
      } else {
        CodeAdded(s, LoginStep(s, sid, user, amr, denied), LoginCode(s, se, user, amr));
      }
    }
  }

  lemma SessionGone(s: State, sessions: Table<nat, AuthSession>)
    requires Once(s)
    ensures CodesMove(s, s.(sessions := sessions))
  {
  }

  lemma CodeAdded(s: State, s': State, a: AuthCode)
    requires Once(s) && s'.codes == Put(s.codes, s.st.drawn, Live(a)) && s'.st.drawn > s.st.drawn
    requires s'.calls == s.calls && s'.h.responses == s.h.responses && s'.h.restored == s.h.restored
    ensures CodesMove(s, s')
  {
  }

  lemma ConsentMoves(s: State, fid: nat, code: nat, csrf: nat, approve: bool, cookie: Option<nat>)
    requires Once(s)
    ensures CodesMove(s, ConsentStep(s, fid, code, csrf, approve, cookie))
  {
  }

  lemma SaveMoves(s: State, fid: nat, code: nat, a: AuthCode)
    requires Once(s) && code < s.st.drawn
    ensures CodesMove(s, SaveStep(s, fid, code, a))
  {
  }

  lemma FormMoves(s: State, fid: nat)
    requires Once(s) && fid in s.forms && (s.forms[fid].Saving? ==> s.forms[fid].code < s.st.drawn)
    ensures CodesMove(s, FormStep(s, fid))
  {
    match s.forms[fid] {
      case Saving(code, a) => SaveMoves(s, fid, code, a);
      case Deleting(code) => DeleteMoves(s, fid, code);
      case Looking(user, client, scope) => 
        FormsMove(s, fid, Recording(user, client, Granted(s.st.consents, user, client, scope)));
      case Recording(user, client, granted) => RecordMoves(s, fid, user, client, granted);
      case Closed =>
    }
  }

  lemma DeleteMoves(s: State, fid: nat, code: nat)
    requires Once(s)
    ensures CodesMove(s, SetForm(s, fid, Closed).(codes := Delete(s.codes, code)))
  {
  }

  lemma FormsMove(s: State, fid: nat, f: Form)
    requires Once(s)
    ensures CodesMove(s, SetForm(s, fid, f))
  {
  }

  lemma RecordMoves(s: State, fid: nat, user: string, client: string, granted: set<string>)
    requires Once(s)
    ensures CodesMove(s, RecordStep(s, fid, user, client, granted))
  {
  }

  lemma ReadKeepsOnce(sha: string -> string, s: State, pid: nat, req: Exchange)
    requires Once(s) && RevsPositive(s) && pid !in s.calls
    ensures Once(ReadStep(sha, s, pid, req))
  {
    var s' := ReadStep(sha, s, pid, req);
    forall id | (IsLive(s, id) && id !in s.h.restored) || s.st.drawn <= id ensures Unclaimed(s', id) {
      assert Unclaimed(s, id);
    }
    forall q | q in s'.calls ensures HeldRev(s', s'.calls[q]) {
      if q != pid {
        assert HeldRev(s, s.calls[q]);
      }
    }
  }

  ghost predicate RevsPositive(s: State) {
    forall id :: id in s.codes ==> s.codes[id].rev > 0
  }

  lemma SwapWins(s: State, pid: nat)
    requires Once(s) && pid in s.calls && s.calls[pid].Holding?
    requires CasOk(s.codes, s.calls[pid].req.code, s.calls[pid].rev)
    ensures Once(SwapStep(s, pid))
  {
    var s' := SwapStep(s, pid);
    var code := s.calls[pid].req.code;
    assert HeldRev(s, s.calls[pid]) && (code !in s.h.restored ==> Unclaimed(s, code));
    forall id | (IsLive(s', id) && id !in s'.h.restored) || s'.st.drawn <= id ensures Unclaimed(s', id) {
      assert id != code && Unclaimed(s, id);
    }
    forall q | q in s'.calls ensures HeldRev(s', s'.calls[q]) {
      assert HeldRev(s, s.calls[q]);
    }
  }

  lemma CallRejected(s: State, s': State, pid: nat)
    requires Once(s) && pid in s.calls && s' == s.(calls := s.calls[pid := Rejected])
    ensures Once(s')
  {
    forall id | (IsLive(s, id) && id !in s.h.restored) || s.st.drawn <= id ensures Unclaimed(s', id) {
      assert Unclaimed(s, id);
    }
    forall q | q in s'.calls ensures HeldRev(s', s'.calls[q]) {
      assert HeldRev(s, s.calls[q]);
    }
  }

  lemma AnswerKeepsOnce(s: State, pid: nat)
    requires Once(s) && pid in s.calls && s.calls[pid].Claimed? && s.calls[pid].req.code < s.st.drawn
    ensures Once(AnswerStep(s, pid))
  {
    var s', c := AnswerStep(s, pid), s.calls[pid];
    if c.auth.user in s.users && s.users[c.auth.user] {
      AnsweredOnce(s, s', pid, c, Response(pid, c.req, c.auth, |s.h.approvals|));
    } else {
      CallRejected(s, s', pid);
    }
  }

  lemma AnsweredOnce(s: State, s': State, pid: nat, c: Call, r: Response)
    requires Once(s) && pid in s.calls && s.calls[pid] == c && c.Claimed? && c.req.code < s.st.drawn && r.req == c.req
    requires s' == s.(codes := Delete(s.codes, c.req.code), calls := s.calls[pid := Answered],
                      h := s.h.(responses := s.h.responses + [r]))
    ensures Once(s')
  {
    AnsweredDistinct(s, s', pid, r);
    forall id | (IsLive(s', id) && id !in s'.h.restored) || s'.st.drawn <= id ensures Unclaimed(s', id) {
      assert Unclaimed(s, id) && id != c.req.code;
    }
    forall q | q in s'.calls ensures HeldRev(s', s'.calls[q]) {
      assert HeldRev(s, s.calls[q]);
    }
  }

  lemma AnsweredDistinct(s: State, s': State, pid: nat, r: Response)
    requires Distinct(s) && pid in s.calls && s.calls[pid].Claimed? && s.calls[pid].req == r.req
    requires s'.calls == s.calls[pid := Answered] && s'.h.responses == s.h.responses + [r]
    requires s'.h.restored == s.h.restored
    ensures Distinct(s')
  {
  }

  // ----- every reachable state -----

  ghost predicate Inv(s: State, sha: string -> string) {
    Bound(s, sha) && FormsOk(s.h, s.forms) && Once(s) && RevsPositive(s)
  }

  lemma BrowserKeepsRevs(sha: string -> string, s: State, e: Event)
    requires RevsPositive(s) && !e.Request?
    ensures RevsPositive(Step(sha, s, e))
  {
    match e {
      case Swap(pid) => TokenKeepsRevs(s, pid);
      case Answer(pid) => TokenKeepsRevs(s, pid);
      case Continue(fid) =>
        if fid in s.forms {
          FormKeepsRevs(s, fid);
        }
      case _ => RestKeepsRevs(sha, s, e);
    }
  }

  lemma TokenKeepsRevs(s: State, pid: nat)
    requires RevsPositive(s)
    ensures pid in s.calls && s.calls[pid].Holding? ==> RevsPositive(SwapStep(s, pid))
    ensures pid in s.calls && s.calls[pid].Claimed? ==> RevsPositive(AnswerStep(s, pid))
  {
  }

  lemma RestKeepsRevs(sha: string -> string, s: State, e: Event)
    requires RevsPositive(s) && !e.Request? && !e.Swap? && !e.Answer? && !e.Continue?
    ensures RevsPositive(Step(sha, s, e))
  {
  }

  lemma FormKeepsRevs(s: State, fid: nat)
    requires RevsPositive(s) && fid in s.forms
    ensures RevsPositive(FormStep(s, fid))
  {
  }

  lemma RequestKeepsRevs(s: State, query: seq<(string, string)>, b: Browser)
    requires RevsPositive(s)
    ensures RevsPositive(RequestStep(s, query, b))
  {
    match Effective(query, s.par, s.st.now) {
      case None =>
      case Some((p, _)) =>
        CarryKeepsRevs(s.(par := ParLeft(query, s.par), st := s.st.(clients := ClientsLeft(s.st, p))),
                       OriginOf(s.st, p, b), b.sso, Decide(s.st, query, s.par, b));
    }
  }

  lemma CarryKeepsRevs(s: State, o: Origin, sso: Option<Sso>, d: Decision)
    requires RevsPositive(s)
    ensures RevsPositive(CarryOut(s, o, sso, d))
  {
  }

  lemma StepKeepsOnce(sha: string -> string, s: State, e: Event)
    requires Inv(s, sha)
    ensures Once(Step(sha, s, e))
  {
    match e {
      case Read(pid, req) =>
        if pid !in s.calls {
          ReadKeepsOnce(sha, s, pid, req);
        }
      case Swap(pid) =>
        if pid in s.calls && s.calls[pid].Holding? {
          if CasOk(s.codes, s.calls[pid].req.code, s.calls[pid].rev) {
            SwapWins(s, pid);
          } else {
            CallRejected(s, SwapStep(s, pid), pid);
          }
        }
      case Answer(pid) =>
        if pid in s.calls && s.calls[pid].Claimed? {
          assert CallOk(s.h, s.calls[pid], sha);
          AnswerKeepsOnce(s, pid);
        }
      case Continue(fid) =>
        if fid in s.forms {
          assert FormOk(s.h, s.forms[fid]);
          FormMoves(s, fid);
          BrowserKeepsOnce(s, FormStep(s, fid));
        }
      case _ =>
        BrowserMoves(sha, s, e);
        BrowserKeepsOnce(s, Step(sha, s, e));
    }
  }

  lemma StepKeepsInv(sha: string -> string, s: State, e: Event)
    requires Inv(s, sha)
    ensures Inv(Step(sha, s, e), sha)
  {
    StepBinds(s, e, sha);
    StepKeepsOnce(sha, s, e);
    if e.Request? {
      RequestKeepsRevs(s, e.query, e.browser);
    } else {
      BrowserKeepsRevs(sha, s, e);
    }
  }

  lemma {:induction false} RunKeepsInv(sha: string -> string, s: State, es: seq<Event>)
    requires Inv(s, sha)
    ensures Inv(Run(sha, s, es), sha)
  {
    if es != [] {
      RunKeepsInv(sha, s, es[..|es| - 1]);
      StepKeepsInv(sha, Run(sha, s, es[..|es| - 1]), es[|es| - 1]);
    }
  }

  lemma ReachableInv(sha: string -> string, s: State)
    requires Reachable(sha, s)
    ensures Inv(s, sha)
  {
    var s0, es :| Initial(s0) && s == Run(sha, s0, es);
    RunKeepsInv(sha, s0, es);
  }

  // ----- the guarantees -----

  /** What a token response owes to its request, RFC 7636 section 4.6 included. */
  ghost predicate Honoured(h: History, r: Response, sha: string -> string) {
    && Traced(h, r.req.code)
    && var o := h.requests[h.from[r.req.code]];
    && Get(o.params, "client_id") == Some(r.req.client)
    && Get(o.params, "redirect_uri") == Some(r.req.redirectUri)
    && r.req.verifier.Some? && Get(o.params, "code_challenge") == Some(sha(r.req.verifier.value))
    && r.auth.nonce == GetOr(o.params, "nonce", "")
    && r.auth.scope == GetOr(o.params, "scope", "openid") && r.auth.requested == o.requested
    && r.req.code in h.logins && Identifies(h.logins[r.req.code], r.auth)
    && (r.auth.acr.Some? <==> "mfa" in r.auth.amr && "otp" in r.auth.amr)
    && Justified(h, o, r.req.code, r.auth)
    && ConsentedIfAsked(h, r)
  }

  /** What is redeemed is the code as minted; if it was minted pending, an approval of this
      code by its user, with the csrf token it was minted with, came before the response. */
  ghost predicate ConsentedIfAsked(h: History, r: Response) {
    && r.req.code in h.minted && r.auth == h.minted[r.req.code].(pendingConsent := false)
    && (h.minted[r.req.code].pendingConsent ==>
          exists i :: 0 <= i < r.after <= |h.approvals| && h.approvals[i].code == r.req.code
                      && h.approvals[i].user == r.auth.user && h.approvals[i].csrf == r.auth.csrf)
  }

  /** End to end, across sign-on, login and consent: a code exchange that succeeds is
      for the client, redirect URI, challenge, nonce and scope of the one request the
      code goes back to and for the user, time and factors of the login behind it, and
      whatever consent that request needed was given. */
  lemma EndToEnd(sha: string -> string, s: State, i: nat)
    requires Reachable(sha, s) && i < |s.h.responses|
    ensures Honoured(s.h, s.h.responses[i], sha)
  {
    ReachableInv(sha, s);
    var r := s.h.responses[i];
    assert AnswerOk(s.h, r, sha);
    if s.h.minted[r.req.code].pendingConsent {
      var before := s.h.approvals[..r.after];
      var j :| 0 <= j < |before| && before[j].code == r.req.code && before[j].user == r.auth.user
          && before[j].csrf == r.auth.csrf;
      assert s.h.approvals[j] == before[j];
    }
  }

  /** RFC 6749 section 4.1.2: each code yields at most one token response, whatever the
      interleaving, unless a consent form has saved it when it was no longer live. */
  lemma AtMostOnce(sha: string -> string, s: State, i: nat, j: nat)
    requires Reachable(sha, s) && i < j < |s.h.responses| && s.h.responses[i].req.code == s.h.responses[j].req.code
    ensures s.h.responses[i].req.code in s.h.restored
  {
    ReachableInv(sha, s);
  }

  // ----- what writes a code that exists -----

  /** No step but that of a form rewrites a live code or brings one back. */
  lemma OthersLeaveCodes(sha: string -> string, s: State, e: Event, id: nat)
    requires Inv(s, sha) && id < s.st.drawn && !e.Continue?
    ensures var s' := Step(sha, s, e); IsLive(s', id) ==> IsLive(s, id) && s'.codes[id] == s.codes[id]
  {
    match e {
      case Request(query, b) => RequestLeaves(s, query, b, id);
      case CompleteLogin(sid, user, amr, denied) => LoginLeaves(s, sid, user, amr, denied, id);
      case Swap(pid) => TokenLeaves(s, pid, id);
      case Answer(pid) => TokenLeaves(s, pid, id);
      case _ => RestLeaves(sha, s, e, id);
    }
  }

  lemma TokenLeaves(s: State, pid: nat, id: nat)
    ensures pid in s.calls && s.calls[pid].Holding? ==>
              (IsLive(SwapStep(s, pid), id) ==> IsLive(s, id) && SwapStep(s, pid).codes[id] == s.codes[id])
    ensures pid in s.calls && s.calls[pid].Claimed? ==>
              (IsLive(AnswerStep(s, pid), id) ==> IsLive(s, id) && AnswerStep(s, pid).codes[id] == s.codes[id])
  {
  }

  lemma RestLeaves(sha: string -> string, s: State, e: Event, id: nat)
    requires !e.Request? && !e.CompleteLogin? && !e.Swap? && !e.Answer? && !e.Continue?
    ensures var s' := Step(sha, s, e); IsLive(s', id) ==> IsLive(s, id) && s'.codes[id] == s.codes[id]
  {
  }

  lemma LoginLeaves(s: State, sid: nat, user: string, amr: seq<string>, denied: bool, id: nat)
    requires id < s.st.drawn
    ensures var s' := LoginStep(s, sid, user, amr, denied);
            (id in s'.codes <==> id in s.codes) && (id in s.codes ==> s'.codes[id] == s.codes[id])
  {
  }

  lemma RequestLeaves(s: State, query: seq<(string, string)>, b: Browser, id: nat)
    requires id < s.st.drawn
    ensures var s' := RequestStep(s, query, b);
            (id in s'.codes <==> id in s.codes) && (id in s.codes ==> s'.codes[id] == s.codes[id])
  {
    match Effective(query, s.par, s.st.now) {
      case None =>
      case Some((p, _)) =>
        CarryLeaves(s.(par := ParLeft(query, s.par), st := s.st.(clients := ClientsLeft(s.st, p))),
                    OriginOf(s.st, p, b), b.sso, Decide(s.st, query, s.par, b), id);
    }
  }

  lemma CarryLeaves(s: State, o: Origin, sso: Option<Sso>, d: Decision, id: nat)
    requires id < s.st.drawn
    ensures var s' := CarryOut(s, o, sso, d);
            (id in s'.codes <==> id in s.codes) && (id in s.codes ==> s'.codes[id] == s.codes[id])
  {
  }

  ghost predicate SavesCode(s: State, e: Event, id: nat) {
    e.Continue? && e.fid in s.forms && s.forms[e.fid].Saving? && s.forms[e.fid].code == id
  }

  /** A code that was issued and is no longer live, spent, denied or run out, comes back exactly
      by the save of an approved form that had read it before. */
  lemma RestoredIff(sha: string -> string, s: State, e: Event, id: nat)
    requires Reachable(sha, s) && id < s.st.drawn && !IsLive(s, id)
    ensures IsLive(Step(sha, s, e), id) <==> SavesCode(s, e, id)
    ensures IsLive(Step(sha, s, e), id) ==> Step(sha, s, e).h.restored == s.h.restored + {id}
  {
    ReachableInv(sha, s);
    if e.Continue? {
      if e.fid in s.forms {
        FormRestores(s, e.fid, id);
      }
    } else {
      OthersLeaveCodes(sha, s, e, id);
    }
  }

  lemma FormRestores(s: State, fid: nat, id: nat)
    requires fid in s.forms && !IsLive(s, id)
    ensures IsLive(FormStep(s, fid), id) <==> s.forms[fid].Saving? && s.forms[fid].code == id
    ensures IsLive(FormStep(s, fid), id) ==> FormStep(s, fid).h.restored == s.h.restored + {id}
  {
  }

  ghost predicate Pending(s: State, id: nat) { IsLive(s, id) && s.codes[id].value.code.pendingConsent }

  ghost predicate Cleared(s: State, id: nat) { IsLive(s, id) && !s.codes[id].value.code.pendingConsent }

  /** A pending code becomes redeemable only by the save of a form for this very code, and
      after an approval of it by its user with the code's own csrf token. */
  lemma OnlyApprovalClears(sha: string -> string, s: State, e: Event, id: nat)
    requires Reachable(sha, s) && Pending(s, id) && Cleared(Step(sha, s, e), id)
    ensures var a := s.codes[id].value.code;
            && SavesCode(s, e, id) && FormApproved(s.h.approvals, id, a.user, a.csrf)
            && Step(sha, s, e).codes[id].value.code == a.(pendingConsent := false)
  {
    ReachableInv(sha, s);
    if e.Continue? {
      FormClears(s, e.fid, id, sha);
    } else {
      OthersLeaveCodes(sha, s, e, id);
    }
  }

  lemma FormClears(s: State, fid: nat, id: nat, sha: string -> string)
    requires Inv(s, sha) && fid in s.forms && Pending(s, id) && Cleared(FormStep(s, fid), id)
    ensures var a := s.codes[id].value.code;
            && s.forms[fid].Saving? && s.forms[fid].code == id && FormApproved(s.h.approvals, id, a.user, a.csrf)
            && FormStep(s, fid).codes[id].value.code == a.(pendingConsent := false)
  {
    assert FormOk(s.h, s.forms[fid]);
    assert CodeOk(s.h, id, s.codes[id].value.code);
    if !s.forms[fid].Saving? {
      OtherFormsClearNone(s, fid, id);
    }
  }

  lemma OtherFormsClearNone(s: State, fid: nat, id: nat)
    requires fid in s.forms && !s.forms[fid].Saving? && Pending(s, id)
    ensures !Cleared(FormStep(s, fid), id)
  {
  }

  ghost predicate WillSave(s: State, fid: nat) { fid in s.forms && s.forms[fid].Saving? }

  /** A form comes to save a code only by an approval of that code, live and unexpired, with
      the code's own csrf token from the browser bound to it. */
  lemma OnlyApprovalSaves(sha: string -> string, s: State, e: Event, fid: nat)
    requires Reachable(sha, s) && !WillSave(s, fid) && WillSave(Step(sha, s, e), fid)
    ensures var f := Step(sha, s, e).forms[fid];
            && IsLive(s, f.code) && f.auth == s.codes[f.code].value.code && s.st.now <= f.auth.expiresAt
            && e == Consent(fid, f.code, f.auth.csrf, true, Some(f.code))
  {
    ReachableInv(sha, s);
    if e.Continue? {
      FormSavesNoMore(s, e.fid, fid);
    } else if e.Consent? {
      ConsentSaves(s, e, fid, sha);
    } else {
      StepGrows(s, e, sha);
    }
  }

  lemma ConsentSaves(s: State, e: Event, fid: nat, sha: string -> string)
    requires e.Consent? && !WillSave(s, fid) && WillSave(Step(sha, s, e), fid)
    ensures var f := Step(sha, s, e).forms[fid];
            && IsLive(s, f.code) && f.auth == s.codes[f.code].value.code && s.st.now <= f.auth.expiresAt
            && e == Consent(fid, f.code, f.auth.csrf, true, Some(f.code))
  {
    assert e.fid !in s.forms;
    assert Step(sha, s, e) == ConsentStep(s, e.fid, e.code, e.csrf, e.approve, e.cookie);
  }

  lemma FormSavesNoMore(s: State, g: nat, fid: nat)
    requires !WillSave(s, fid)
    ensures g in s.forms ==> !WillSave(FormStep(s, g), fid)
  {
  }

  /** The conditions of a token response, for a request that meets no interference. */
  ghost predicate Exchangeable(sha: string -> string, s: State, req: Exchange) {
    && ClientOf(s.st, req.client).Some? && ClientOf(s.st, req.client).value.codeGrant
    && req.code in s.codes && s.codes[req.code].value.Live?
    && var a := s.codes[req.code].value.code;
    && a.client == req.client && a.redirectUri == req.redirectUri
    && s.st.now <= a.expiresAt && !a.pendingConsent
    && req.verifier.Some? && sha(req.verifier.value) == a.challenge
    && a.user in s.users && s.users[a.user]
  }

  /** Read, swap and answer with nothing in between, for a code that is as minted. */
  lemma ExchangeAlone(sha: string -> string, s: State, s1: State, s2: State, s3: State, pid: nat, req: Exchange)
    requires pid !in s.calls
    requires req.code in s.codes && s.codes[req.code].value.Live? ==>
               s.codes[req.code].value.code.challenge != "" && s.codes[req.code].value.code.challengeMethod == "S256"
    requires s1 == Step(sha, s, Read(pid, req)) && s2 == Step(sha, s1, Swap(pid)) && s3 == Step(sha, s2, Answer(pid))
    ensures s3.h.responses != s.h.responses <==> Exchangeable(sha, s, req)
    ensures Exchangeable(sha, s, req) ==>
              s3.h.responses == s.h.responses + [Response(pid, req, s.codes[req.code].value.code, |s.h.approvals|)]
                  && req.code !in s3.codes
  {
    ReadIs(sha, s, pid, req);
    ReadFinds(sha, s, req);
    match ReadResult(sha, s, req) {
      case Holding(_, a, rev) =>
        HoldingSwaps(sha, s1, s2, s3, pid);
        SwappedAlone(s, s1, s2, pid, req, a, rev);
        AnsweredAlone(s, s2, s3, pid, req, a);
      case _ => RejectedStays(sha, s1, pid);
    }
  }

  lemma ReadIs(sha: string -> string, s: State, pid: nat, req: Exchange)
    requires pid !in s.calls
    ensures Step(sha, s, Read(pid, req)) == s.(calls := s.calls[pid := ReadResult(sha, s, req)])
  {
  }

  lemma HoldingSwaps(sha: string -> string, s1: State, s2: State, s3: State, pid: nat)
    requires pid in s1.calls && s1.calls[pid].Holding? && s2 == Step(sha, s1, Swap(pid))
             && s3 == Step(sha, s2, Answer(pid))
    ensures s2 == SwapStep(s1, pid)
    ensures pid in s2.calls && s2.calls[pid].Claimed? ==> s3 == AnswerStep(s2, pid)
  {
  }

  lemma RejectedStays(sha: string -> string, s: State, pid: nat)
    requires pid in s.calls && s.calls[pid].Rejected?
    ensures Step(sha, s, Swap(pid)) == s && Step(sha, s, Answer(pid)) == s
  {
  }

  lemma ReadFinds(sha: string -> string, s: State, req: Exchange)
    requires req.code in s.codes && s.codes[req.code].value.Live? ==>
               s.codes[req.code].value.code.challenge != "" && s.codes[req.code].value.code.challengeMethod == "S256"
    ensures match ReadResult(sha, s, req)
            case Holding(r, a, rev) =>
              && r == req && req.code in s.codes && s.codes[req.code] == Cell(Live(a), rev)
              && (Exchangeable(sha, s, req) <==> a.user in s.users && s.users[a.user])
            case c => c == Rejected && !Exchangeable(sha, s, req)
  {
  }

  lemma SwappedAlone(s: State, s1: State, s2: State, pid: nat, req: Exchange, a: AuthCode, rev: nat)
    requires req.code in s.codes && s.codes[req.code] == Cell(Live(a), rev)
    requires s1 == s.(calls := s.calls[pid := Holding(req, a, rev)]) && s2 == SwapStep(s1, pid)
    ensures s2.calls == s.calls[pid := Claimed(req, a)] && s2.users == s.users && s2.h == s.h
  {
  }

  lemma AnsweredAlone(s: State, s2: State, s3: State, pid: nat, req: Exchange, a: AuthCode)
    requires pid in s2.calls && s2.calls[pid] == Claimed(req, a) && s2.users == s.users && s2.h == s.h
    requires s3 == AnswerStep(s2, pid)
    ensures if a.user in s.users && s.users[a.user] then
              && s3.h.responses == s.h.responses + [Response(pid, req, a, |s.h.approvals|)] && req.code !in s3.codes
              && s3.h.responses != s.h.responses
            else s3.h.responses == s.h.responses
  {
    assert |s.h.responses + [Response(pid, req, a, |s.h.approvals|)]| == |s.h.responses| + 1;
  }

  /** Without interference an exchange succeeds exactly when the code is live and
      unexpired, needs no consent, was issued to this client for this redirect URI and
      the hash of the verifier, and its user is active. */
  lemma UninterruptedExchange(sha: string -> string, s: State, pid: nat, req: Exchange)
    requires Reachable(sha, s) && pid !in s.calls
    ensures var s' := Step(sha, Step(sha, Step(sha, s, Read(pid, req)), Swap(pid)), Answer(pid));
            && (s'.h.responses != s.h.responses <==> Exchangeable(sha, s, req))
            && (Exchangeable(sha, s, req) ==>
                  s'.h.responses == s.h.responses + [Response(pid, req, s.codes[req.code].value.code,
                      |s.h.approvals|)] && req.code !in s'.codes)
  {
    ReachableInv(sha, s);
    assert req.code in s.codes && s.codes[req.code].value.Live? ==> CodeOk(s.h, req.code, s.codes[req.code].value.code);
    var s1 := Step(sha, s, Read(pid, req));
    var s2 := Step(sha, s1, Swap(pid));
    ExchangeAlone(sha, s, s1, s2, Step(sha, s2, Answer(pid)), pid, req);
  }
}
