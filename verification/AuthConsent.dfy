/** What a consent form does when nothing comes in between, and what its code is then good for. */
module AuthConsent {
  import opened Kv
  import opened Authorize
  import opened AuthFlow
  import opened AuthBinding
  import opened AuthSafety
  import AuthLogin
  import Lists

  /** A form as it is submitted. */
  datatype Filled = Filled(code: nat, csrf: nat, approve: bool, cookie: Option<nat>)

  /** The form comes from the browser the code is bound to, with the code's own token if it
      approves. */
  ghost predicate Genuine(s: State, f: Filled) {
    f.cookie == Some(f.code) && (f.approve ==> IsLive(s, f.code) && f.csrf == s.codes[f.code].value.code.csrf)
  }

  /** The code is live and its time is not over. */
  ghost predicate Current(s: State, code: nat) { IsLive(s, code) && s.st.now <= s.codes[code].value.code.expiresAt }

  /** What the user has granted to the client. */
  function GrantsOf(s: State, user: string, client: string): set<string> {
    if (user, client) in s.st.consents then s.st.consents[(user, client)] else {}
  }

  /** The code no longer waits; every word of its scope is granted, beside what was. */
  ghost predicate Approves(s: State, s': State, code: nat)
    requires IsLive(s, code)
  {
    var a := s.codes[code].value.code;
    && IsLive(s', code) && s'.codes[code].value.code == a.(pendingConsent := false)
    && s'.codes == s.codes[code := s'.codes[code]]
    && GrantsOf(s', a.user, a.client) == GrantsOf(s, a.user, a.client) + Lists.Words(a.scope)
    && (forall k :: k != (a.user, a.client) ==>
          && (k in s'.st.consents <==> k in s.st.consents)
          && (k in s.st.consents ==> s'.st.consents[k] == s.st.consents[k]))
  }

  ghost predicate Decides(s: State, s': State, f: Filled) {
    if Current(s, f.code) && Genuine(s, f) && f.approve then Approves(s, s', f.code)
    else
      && s'.st == s.st
      && s'.codes == if IsLive(s, f.code) && (!Current(s, f.code) || Genuine(s, f)) then s.codes - {f.code}
                     else s.codes
  }

  ghost predicate OnlyForms(s: State, s': State, fid: nat) {
    && fid in s'.forms && s'.forms == s.forms[fid := s'.forms[fid]]
    && s'.st == s.st.(consents := s'.st.consents) && s'.users == s.users && s'.calls == s.calls
    && s'.sessions == s.sessions && s'.h.responses == s.h.responses
  }

  lemma SubmitIs(sha: string -> string, s: State, fid: nat, f: Filled)
    requires fid !in s.forms
    ensures Step(sha, s, Consent(fid, f.code, f.csrf, f.approve, f.cookie))
         == ConsentStep(s, fid, f.code, f.csrf, f.approve, f.cookie)
  {
  }

  lemma ClosedStays(sha: string -> string, s: State, fid: nat)
    requires fid in s.forms && s.forms[fid].Closed?
    ensures Step(sha, s, Continue(fid)) == s
  {
  }

  lemma DeleteIs(sha: string -> string, s: State, fid: nat, code: nat)
    requires fid in s.forms && s.forms[fid] == Deleting(code)
    ensures Step(sha, s, Continue(fid)) == SetForm(s, fid, Closed).(codes := s.codes - {code})
  {
  }

  lemma SaveIs(sha: string -> string, s: State, fid: nat, code: nat, a: AuthCode)
    requires fid in s.forms && s.forms[fid] == Saving(code, a)
    ensures Step(sha, s, Continue(fid)) == SaveStep(s, fid, code, a)
  {
  }

  lemma LookIs(sha: string -> string, s: State, fid: nat, user: string, client: string, scope: string)
    requires fid in s.forms && s.forms[fid] == Looking(user, client, scope)
    ensures Step(sha, s, Continue(fid))
         == SetForm(s, fid, Recording(user, client, Granted(s.st.consents, user, client, scope)))
  {
  }

  lemma RecordIs(sha: string -> string, s: State, fid: nat, user: string, client: string, granted: set<string>)
    requires fid in s.forms && s.forms[fid] == Recording(user, client, granted)
    ensures Step(sha, s, Continue(fid)) == RecordStep(s, fid, user, client, granted)
  {
  }

  /** The three operations of an approval together. */
  function Approved(s: State, fid: nat, code: nat, a: AuthCode): State {
    var s2 := SaveStep(s, fid, code, a);
    RecordStep(s2, fid, a.user, a.client, Granted(s.st.consents, a.user, a.client, a.scope))
  }

  lemma ApprovedGrants(s: State, fid: nat, code: nat, a: AuthCode)
    requires IsLive(s, code) && a == s.codes[code].value.code
    ensures var s' := Approved(s, fid, code, a);
            && Approves(s, s', code) && s'.forms == s.forms[fid := Closed] && s'.st == s.st.(consents := s'.st.consents)
            && s'.users == s.users && s'.calls == s.calls && s'.sessions == s.sessions
            && s'.h.responses == s.h.responses
  {
  }

  lemma ApproveRuns(sha: string -> string, s: State, fid: nat, code: nat, a: AuthCode)
    requires fid in s.forms && s.forms[fid] == Saving(code, a)
    ensures ThreeMore(sha, s, fid) == Approved(s, fid, code, a)
  {
    SaveIs(sha, s, fid, code, a);
    var s2 := SaveStep(s, fid, code, a);
    LookIs(sha, s2, fid, a.user, a.client, a.scope);
    var granted := Granted(s.st.consents, a.user, a.client, a.scope);
    RecordIs(sha, SetForm(s2, fid, Recording(a.user, a.client, granted)), fid, a.user, a.client, granted);
    assert s2.forms[fid := Recording(a.user, a.client, granted)][fid := Closed] == s2.forms[fid := Closed];
  }

  /** What the form goes on to do, three operations at most. */
  function ThreeMore(sha: string -> string, s: State, fid: nat): State {
    Step(sha, Step(sha, Step(sha, s, Continue(fid)), Continue(fid)), Continue(fid))
  }

  lemma ClosedRuns(sha: string -> string, s: State, fid: nat)
    requires fid in s.forms && s.forms[fid].Closed?
    ensures ThreeMore(sha, s, fid) == s
  {
    ClosedStays(sha, s, fid);
  }

  lemma DeleteRuns(sha: string -> string, s: State, fid: nat, code: nat)
    requires fid in s.forms && s.forms[fid] == Deleting(code)
    ensures ThreeMore(sha, s, fid) == SetForm(s, fid, Closed).(codes := s.codes - {code})
  {
    DeleteIs(sha, s, fid, code);
    ClosedStays(sha, Step(sha, s, Continue(fid)), fid);
  }

  /** The state after the form has run alone. */
  function Decided(sha: string -> string, s: State, fid: nat, f: Filled): State {
    ThreeMore(sha, Step(sha, s, Consent(fid, f.code, f.csrf, f.approve, f.cookie)), fid)
  }

  lemma Submits(s: State, f: Filled)
    ensures match Submitted(s, f.code, f.csrf, f.approve, f.cookie)
            case Saving(code, a) =>
              code == f.code && Current(s, code) && Genuine(s, f) && f.approve && a == s.codes[code].value.code
            case Deleting(code) =>
              code == f.code && IsLive(s, code) && (!Current(s, code) || (Genuine(s, f) && !f.approve))
            case Closed => !IsLive(s, f.code) || (Current(s, f.code) && !Genuine(s, f))
            case _ => false
  {
  }

  lemma SubmittedOnly(s: State, s1: State, fid: nat, f: Filled)
    requires s1 == ConsentStep(s, fid, f.code, f.csrf, f.approve, f.cookie)
    ensures s1 == SetForm(s, fid, Submitted(s, f.code, f.csrf, f.approve, f.cookie)).(h := s1.h)
            && s1.h.responses == s.h.responses
  {
  }

  lemma ApprovalDecides(sha: string -> string, s: State, s1: State, fid: nat, f: Filled, a: AuthCode)
    requires Current(s, f.code) && Genuine(s, f) && f.approve && a == s.codes[f.code].value.code
    requires s1 == SetForm(s, fid, Saving(f.code, a)).(h := s1.h) && s1.h.responses == s.h.responses
    ensures var s' := ThreeMore(sha, s1, fid); Decides(s, s', f) && OnlyForms(s, s', fid)
  {
    ApproveRuns(sha, s1, fid, f.code, a);
    ApprovedGrants(s1, fid, f.code, a);
  }

  lemma DenialDecides(sha: string -> string, s: State, s1: State, fid: nat, f: Filled)
    requires IsLive(s, f.code) && (!Current(s, f.code) || (Genuine(s, f) && !f.approve))
    requires s1 == SetForm(s, fid, Deleting(f.code)).(h := s1.h) && s1.h.responses == s.h.responses
    ensures var s' := ThreeMore(sha, s1, fid); Decides(s, s', f) && OnlyForms(s, s', fid)
  {
    DeleteRuns(sha, s1, fid, f.code);
  }

  /** A genuine approval of a current code lets it be redeemed and grants its scope; a genuine
      denial, or any form for an expired code, deletes it; any other form changes nothing. */
  lemma FormAlone(sha: string -> string, s: State, fid: nat, f: Filled)
    requires fid !in s.forms
    ensures var s' := Decided(sha, s, fid, f); Decides(s, s', f) && OnlyForms(s, s', fid)
  {
    SubmitIs(sha, s, fid, f);
    var s1 := ConsentStep(s, fid, f.code, f.csrf, f.approve, f.cookie);
    Submits(s, f);
    SubmittedOnly(s, s1, fid, f);
    match Submitted(s, f.code, f.csrf, f.approve, f.cookie) {
      case Saving(code, a) => ApprovalDecides(sha, s, s1, fid, f, a);
      case Deleting(code) => DenialDecides(sha, s, s1, fid, f);
      case Closed => ClosedRuns(sha, s1, fid);
      case _ =>
    }
  }

  // ----- and then the exchange -----

  lemma FormReachable(sha: string -> string, s: State, fid: nat, f: Filled)
    requires Reachable(sha, s)
    ensures Reachable(sha, Decided(sha, s, fid, f))
  {
    var s1 := Step(sha, s, Consent(fid, f.code, f.csrf, f.approve, f.cookie));
    AuthLogin.StillReachable(sha, s, Consent(fid, f.code, f.csrf, f.approve, f.cookie));
    AuthLogin.StillReachable(sha, s1, Continue(fid));
    AuthLogin.StillReachable(sha, Step(sha, s1, Continue(fid)), Continue(fid));
    AuthLogin.StillReachable(sha, Step(sha, Step(sha, s1, Continue(fid)), Continue(fid)), Continue(fid));
  }

  /** But for its consent the code can be exchanged so. */
  ghost predicate FitFor(sha: string -> string, s: State, req: Exchange) {
    && Current(s, req.code)
    && var a := s.codes[req.code].value.code;
    && AuthLogin.MayRedeem(s, req.client) && a.client == req.client && a.redirectUri == req.redirectUri
    && req.verifier.Some? && sha(req.verifier.value) == a.challenge
    && a.user in s.users && s.users[a.user]
  }

  /** The form decides: right after it, the code is exchanged exactly if the form approved it. */
  lemma FormThenExchange(sha: string -> string, s: State, fid: nat, f: Filled, pid: nat, req: Exchange)
    requires Reachable(sha, s) && fid !in s.forms && pid !in s.calls && req.code == f.code
    requires FitFor(sha, s, req) && Genuine(s, f)
    ensures var s0 := Decided(sha, s, fid, f);
            var s' := Step(sha, Step(sha, Step(sha, s0, Read(pid, req)), Swap(pid)), Answer(pid));
            s'.h.responses != s.h.responses <==> f.approve
  {
    var s0 := Decided(sha, s, fid, f);
    FormAlone(sha, s, fid, f);
    FormReachable(sha, s, fid, f);
    UninterruptedExchange(sha, s0, pid, req);
  }
}
