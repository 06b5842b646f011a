/** When an authorization code that has been answered can be answered once more. */
module AuthAgain {
  import opened Kv
  import opened Authorize
  import opened AuthFlow
  import opened AuthBinding
  import opened AuthSafety

  // ----- the condition -----

  /** The forms that have still to save the code. */
  function Savers(s: State, code: nat): set<nat> {
    set fid | fid in s.forms && s.forms[fid].Saving? && s.forms[fid].code == code
  }

  /** The revision that is stored, 0 for none. */
  function RevOf(s: State, code: nat): nat { if code in s.codes then s.codes[code].rev else 0 }

  predicate Holds(s: State, pid: nat, code: nat) { pid in s.calls && s.calls[pid].Holding?
      && s.calls[pid].req.code == code }

  /** So many saves, before or after the record is deleted, can bring it to the revision. */
  predicate InReach(rev: nat, current: nat, saves: nat) { rev <= saves || current <= rev <= current + saves }

  ghost predicate SaverInTime(s: State, code: nat) {
    exists fid :: fid in Savers(s, code) && s.st.now <= s.forms[fid].auth.expiresAt
  }

  ghost predicate LiveInTime(s: State, code: nat) { IsLive(s, code) && s.st.now <= s.codes[code].value.code.expiresAt }

  ghost predicate ClaimedBySome(s: State, code: nat) {
    exists pid :: pid in s.calls && s.calls[pid].Claimed? && s.calls[pid].req.code == code
  }

  ghost predicate HeldInReach(s: State, code: nat) {
    exists pid :: Holds(s, pid, code) && InReach(s.calls[pid].rev, RevOf(s, code), |Savers(s, code)|)
  }

  /** A call has swapped the code and not answered yet; or the code is live and has not expired;
      or a form that read it unexpired has yet to save it; or a call read it at a revision that the
      forms still to save it can bring back. */
  ghost predicate MayReturn(s: State, code: nat) {
    ClaimedBySome(s, code) || LiveInTime(s, code) || SaverInTime(s, code) || HeldInReach(s, code)
  }

  /** A response for the code that is not in `s` yet. */
  ghost predicate NewAnswer(s: State, s': State, code: nat) {
    exists i :: |s.h.responses| <= i < |s'.h.responses| && s'.h.responses[i].req.code == code
  }

  ghost predicate Answered(s: State, code: nat) {
    exists i :: 0 <= i < |s.h.responses| && s.h.responses[i].req.code == code
  }

  // ----- otherwise it never is -----

  /** Nothing but the clock moved, and the record at most went. */
  ghost predicate Idle(s: State, s': State, code: nat) {
    && s'.forms == s.forms && s'.calls == s.calls && s.st.now <= s'.st.now
    && (code in s'.codes ==> code in s.codes && s'.codes[code] == s.codes[code])
  }

  lemma IdleBarred(s: State, s': State, code: nat)
    requires !MayReturn(s, code) && Idle(s, s', code)
    ensures !MayReturn(s', code)
  {
    assert Savers(s', code) == Savers(s, code);
  }

  lemma RequestIdle(s: State, query: seq<(string, string)>, b: Browser, code: nat)
    requires code < s.st.drawn
    ensures var s' := RequestStep(s, query, b); Idle(s, s', code) && s'.h.responses == s.h.responses
  {
    match Effective(query, s.par, s.st.now) {
      case None =>
      case Some((p, _)) =>
        CarryIdle(s.(par := ParLeft(query, s.par), st := s.st.(clients := ClientsLeft(s.st, p))),
                  OriginOf(s.st, p, b), b.sso, Decide(s.st, query, s.par, b), code);
    }
  }

  lemma CarryIdle(s: State, o: Origin, sso: Option<Sso>, d: Decision, code: nat)
    requires code < s.st.drawn
    ensures var s' := CarryOut(s, o, sso, d); Idle(s, s', code) && s'.h.responses == s.h.responses
  {
  }

  lemma LoginIdle(s: State, sid: nat, user: string, amr: seq<string>, denied: bool, code: nat)
    requires code < s.st.drawn
    ensures var s' := LoginStep(s, sid, user, amr, denied); Idle(s, s', code) && s'.h.responses == s.h.responses
  {
  }

  lemma RestIdle(sha: string -> string, s: State, e: Event, code: nat)
    requires e.Tick? || e.SetClient? || e.SetUser? || e.Push? || e.ForeignSession? || e.Drop?
    ensures Idle(s, Step(sha, s, e), code) && Step(sha, s, e).h.responses == s.h.responses
  {
  }

  /** One form moved that was not to save this code and is not now. */
  lemma FormMovedBarred(s: State, s': State, fid: nat, code: nat)
    requires !MayReturn(s, code) && s'.calls == s.calls && s'.st.now == s.st.now
    requires fid in s'.forms && s'.forms == s.forms[fid := s'.forms[fid]]
    requires code in s'.codes ==> code in s.codes && s'.codes[code] == s.codes[code]
    requires !(fid in s.forms && s.forms[fid].Saving? && s.forms[fid].code == code)
    requires !(s'.forms[fid].Saving? && s'.forms[fid].code == code)
    ensures !MayReturn(s', code)
  {
    assert Savers(s', code) == Savers(s, code);
  }

  lemma ConsentBarred(s: State, fid: nat, c: nat, csrf: nat, approve: bool, cookie: Option<nat>, code: nat)
    requires !MayReturn(s, code) && fid !in s.forms
    ensures !MayReturn(ConsentStep(s, fid, c, csrf, approve, cookie), code)
  {
    var s' := ConsentStep(s, fid, c, csrf, approve, cookie);
    assert s'.forms[fid] == Submitted(s, c, csrf, approve, cookie);
    FormMovedBarred(s, s', fid, code);
  }

  lemma OneSaverLess(s: State, s': State, fid: nat, code: nat)
    requires fid in s.forms && s.forms[fid].Saving? && s.forms[fid].code == code
    requires fid in s'.forms && s'.forms == s.forms[fid := s'.forms[fid]] && !s'.forms[fid].Saving?
    ensures Savers(s', code) == Savers(s, code) - {fid} && |Savers(s', code)| == |Savers(s, code)| - 1
  {
    assert fid in Savers(s, code);
  }

  lemma SaveBarred(s: State, fid: nat, code: nat)
    requires !MayReturn(s, code) && fid in s.forms && s.forms[fid].Saving? && s.forms[fid].code == code
    ensures !MayReturn(SaveStep(s, fid, code, s.forms[fid].auth), code)
  {
    var s' := SaveStep(s, fid, code, s.forms[fid].auth);
    OneSaverLess(s, s', fid, code);
    assert fid in Savers(s, code) && RevOf(s', code) == RevOf(s, code) + 1;
    assert s'.codes[code].value.code.expiresAt == s.forms[fid].auth.expiresAt < s.st.now;
    forall pid | Holds(s', pid, code) ensures !InReach(s'.calls[pid].rev, RevOf(s', code), |Savers(s', code)|) {
      assert Holds(s, pid, code);
    }
  }

  /** A form that does not save this code. */
  lemma OtherFormBarred(s: State, fid: nat, code: nat)
    requires !MayReturn(s, code) && fid in s.forms && !(s.forms[fid].Saving? && s.forms[fid].code == code)
    ensures !MayReturn(FormStep(s, fid), code)
  {
    match s.forms[fid] {
      case Saving(c, a) => FormMovedBarred(s, SaveStep(s, fid, c, a), fid, code);
      case Deleting(c) => FormMovedBarred(s, SetForm(s, fid, Closed).(codes := Delete(s.codes, c)), fid, code);
      case Looking(user, client, scope) =>
        FormMovedBarred(s, SetForm(s, fid, Recording(user, client, Granted(s.st.consents, user, client, scope))), fid,
            code);
      case Recording(user, client, granted) =>
        FormMovedBarred(s, RecordStep(s, fid, user, client, granted), fid, code);
      case Closed =>
    }
  }

  lemma FormBarred(s: State, fid: nat, code: nat)
    requires !MayReturn(s, code) && fid in s.forms
    ensures !MayReturn(FormStep(s, fid), code) && FormStep(s, fid).h.responses == s.h.responses
  {
    if s.forms[fid].Saving? && s.forms[fid].code == code {
      SaveBarred(s, fid, code);
    } else {
      OtherFormBarred(s, fid, code);
    }
  }

  /** One call moved to where it neither holds nor has claimed the code. */
  lemma CallBarred(s: State, s': State, pid: nat, code: nat)
    requires !MayReturn(s, code) && s'.forms == s.forms && s'.st == s.st
    requires pid in s'.calls && s'.calls == s.calls[pid := s'.calls[pid]]
    requires code in s'.codes ==> code in s.codes && s'.codes[code] == s.codes[code]
    requires var c := s'.calls[pid]; c.Holding? || c.Claimed? ==> c.req.code != code
    ensures !MayReturn(s', code)
  {
    assert Savers(s', code) == Savers(s, code);
    forall q | Holds(s', q, code) ensures !InReach(s'.calls[q].rev, RevOf(s', code), |Savers(s', code)|) {
      assert Holds(s, q, code);
    }
  }

  lemma ReadBarred(sha: string -> string, s: State, pid: nat, req: Exchange, code: nat)
    requires !MayReturn(s, code)
    ensures !MayReturn(ReadStep(sha, s, pid, req), code)
  {
    CallBarred(s, ReadStep(sha, s, pid, req), pid, code);
  }

  lemma SwapBarred(s: State, pid: nat, code: nat)
    requires !MayReturn(s, code) && pid in s.calls && s.calls[pid].Holding?
    ensures !MayReturn(SwapStep(s, pid), code)
  {
    var c := s.calls[pid];
    if c.req.code == code {
      assert Holds(s, pid, code);
      assert !CasOk(s.codes, code, c.rev);
    }
    CallBarred(s, SwapStep(s, pid), pid, code);
  }

  lemma AnswerBarred(s: State, pid: nat, code: nat)
    requires !MayReturn(s, code) && pid in s.calls && s.calls[pid].Claimed?
    ensures var s' := AnswerStep(s, pid); !MayReturn(s', code) && !NewAnswer(s, s', code)
  {
    CallBarred(s, AnswerStep(s, pid), pid, code);
  }

  lemma StepBarred(sha: string -> string, s: State, e: Event, code: nat)
    requires !MayReturn(s, code) && code < s.st.drawn
    ensures var s' := Step(sha, s, e); !MayReturn(s', code) && !NewAnswer(s, s', code)
  {
    match e {
      case Consent(fid, c, csrf, approve, cookie) =>
        if fid !in s.forms {
          ConsentBarred(s, fid, c, csrf, approve, cookie, code);
        }
      case Continue(fid) =>
        if fid in s.forms {
          FormBarred(s, fid, code);
        }
      case Read(pid, req) =>
        if pid !in s.calls {
          ReadBarred(sha, s, pid, req, code);
        }
      case Swap(pid) =>
        if pid in s.calls && s.calls[pid].Holding? {
          SwapBarred(s, pid, code);
        }
      case Answer(pid) =>
        if pid in s.calls && s.calls[pid].Claimed? {
          AnswerBarred(s, pid, code);
        }
      case _ => IdleStepBarred(sha, s, e, code);
    }
  }

  lemma IdleStepBarred(sha: string -> string, s: State, e: Event, code: nat)
    requires !MayReturn(s, code) && code < s.st.drawn
    requires !e.Consent? && !e.Continue? && !e.Read? && !e.Swap? && !e.Answer?
    ensures var s' := Step(sha, s, e); !MayReturn(s', code) && s'.h.responses == s.h.responses
  {
    match e {
      case Request(query, b) => RequestIdle(s, query, b, code);
      case CompleteLogin(sid, user, amr, denied) => LoginIdle(s, sid, user, amr, denied, code);
      case _ => RestIdle(sha, s, e, code);
    }
    IdleBarred(s, Step(sha, s, e), code);
  }

  // ----- else it can be -----

  lemma OneStep(sha: string -> string, s: State, e: Event)
    ensures Run(sha, s, [e]) == Step(sha, s, e)
  {
    RunThen(sha, s, [], e);
    assert [] + [e] == [e];
  }

  lemma ResponsesGrow(sha: string -> string, s: State, e: Event)
    requires Inv(s, sha)
    ensures s.h.responses <= Step(sha, s, e).h.responses
  {
    match e {
      case Continue(fid) =>
        if fid in s.forms {
          FormAnswersNone(s, fid);
        }
      case Swap(pid) => TokenAnswers(s, pid);
      case Answer(pid) => TokenAnswers(s, pid);
      case Read(_, _) =>
      case _ => BrowserMoves(sha, s, e);
    }
  }

  lemma TokenAnswers(s: State, pid: nat)
    ensures pid in s.calls && s.calls[pid].Holding? ==> SwapStep(s, pid).h.responses == s.h.responses
    ensures pid in s.calls && s.calls[pid].Claimed? ==> s.h.responses <= AnswerStep(s, pid).h.responses
  {
  }

  lemma FormAnswersNone(s: State, fid: nat)
    requires fid in s.forms
    ensures FormStep(s, fid).h.responses == s.h.responses
  {
  }

  ghost predicate AnswersBy(sha: string -> string, s: State, es: seq<Event>, code: nat) {
    NewAnswer(s, Run(sha, s, es), code)
  }

  /** A step before a run that answers. */
  lemma StepFirst(sha: string -> string, s: State, e: Event, es: seq<Event>, code: nat)
    requires |s.h.responses| <= |Step(sha, s, e).h.responses| && AnswersBy(sha, Step(sha, s, e), es, code)
    ensures AnswersBy(sha, s, [e] + es, code)
  {
    OneStep(sha, s, e);
    RunConcat(sha, s, [e], es);
    var s1 := Run(sha, s, [e] + es);
    var i :| |Step(sha, s, e).h.responses| <= i < |s1.h.responses| && s1.h.responses[i].req.code == code;
  }

  lemma AnswerNow(sha: string -> string, s: State, pid: nat, code: nat) returns (es: seq<Event>)
    requires pid in s.calls && s.calls[pid].Claimed? && s.calls[pid].req.code == code
    ensures AnswersBy(sha, s, es, code)
  {
    var c := s.calls[pid];
    var active := SetUser(c.auth.user, true);
    var s1 := Step(sha, s, active);
    var s2 := AnswerStep(s1, pid);
    OneStep(sha, s1, Answer(pid));
    assert s2.h.responses[|s.h.responses|] == Response(pid, c.req, c.auth, |s.h.approvals|);
    StepFirst(sha, s, active, [Answer(pid)], code);
    es := [active] + [Answer(pid)];
  }

  lemma SwapNow(sha: string -> string, s: State, pid: nat, code: nat) returns (es: seq<Event>)
    requires Holds(s, pid, code) && CasOk(s.codes, code, s.calls[pid].rev)
    ensures AnswersBy(sha, s, es, code)
  {
    assert Step(sha, s, Swap(pid)) == SwapStep(s, pid);
    var rest := AnswerNow(sha, SwapStep(s, pid), pid, code);
    StepFirst(sha, s, Swap(pid), rest, code);
    es := [Swap(pid)] + rest;
  }

  lemma FreshCall(ids: set<nat>) returns (p: nat)
    ensures forall i :: i in ids ==> i < p
    decreases |ids|
  {
    if ids == {} {
      p := 0;
    } else {
      var i :| i in ids;
      var q := FreshCall(ids - {i});
      p := if i < q then q else i + 1;
      forall j | j in ids ensures j < p {
        assert j == i || j in ids - {i};
      }
    }
  }

  /** The request that was answered could be made again. */
  lemma SameRequest(sha: string -> string, s: State, code: nat) returns (req: Exchange)
    requires Inv(s, sha) && Answered(s, code) && LiveInTime(s, code)
    ensures req.code == code && Redeemable(sha, s.st.now, req, s.codes[code].value.code)
  {
    var i :| 0 <= i < |s.h.responses| && s.h.responses[i].req.code == code;
    var r := s.h.responses[i];
    var a := s.codes[code].value.code;
    req := r.req;
    assert AnswerOk(s.h, r, sha) && CodeOk(s.h, code, a);
    assert !a.pendingConsent by {
      assert !Unclaimed(s, code);
    }
  }

  lemma ReadNow(sha: string -> string, s: State, code: nat) returns (es: seq<Event>)
    requires Inv(s, sha) && Answered(s, code) && LiveInTime(s, code)
    ensures AnswersBy(sha, s, es, code)
  {
    var req := SameRequest(sha, s, code);
    var pid := FreshCall(s.calls.Keys);
    assert pid !in s.calls;
    var allow := SetClient(req.client, s.st.admin.(codeGrant := true));
    var s1 := Step(sha, s, allow);
    var s2 := Step(sha, s1, Read(pid, req));
    ReadHolds(sha, s1, s2, pid, req);
    var rest := SwapNow(sha, s2, pid, code);
    StepFirst(sha, s1, Read(pid, req), rest, code);
    StepFirst(sha, s, allow, [Read(pid, req)] + rest, code);
    es := [allow] + ([Read(pid, req)] + rest);
  }

  lemma ReadHolds(sha: string -> string, s: State, s': State, pid: nat, req: Exchange)
    requires pid !in s.calls && req.client in s.st.clients && s.st.clients[req.client].codeGrant
    requires IsLive(s, req.code) && Redeemable(sha, s.st.now, req, s.codes[req.code].value.code)
    requires s' == Step(sha, s, Read(pid, req))
    ensures Holds(s', pid, req.code) && CasOk(s'.codes, req.code, s'.calls[pid].rev)
    ensures s'.h.responses == s.h.responses
  {
  }

  /** A save, and what it leaves. */
  ghost predicate Saved(s: State, s': State, fid: nat, code: nat)
    requires fid in s.forms && s.forms[fid].Saving?
  {
    && s'.calls == s.calls && s'.h.responses == s.h.responses && s'.st == s.st
    && RevOf(s', code) == RevOf(s, code) + 1 && |Savers(s', code)| == |Savers(s, code)| - 1
    && IsLive(s', code) && s'.codes[code].value.code == s.forms[fid].auth.(pendingConsent := false)
  }

  lemma SaveOnce(sha: string -> string, s: State, fid: nat, code: nat)
    requires Inv(s, sha) && fid in Savers(s, code)
    ensures var s' := Step(sha, s, Continue(fid)); Inv(s', sha) && Saved(s, s', fid, code)
  {
    StepKeepsInv(sha, s, Continue(fid));
    SaveWritten(s, fid, code);
    StepSaves(sha, s, fid, code);
  }

  lemma StepSaves(sha: string -> string, s: State, fid: nat, code: nat)
    requires fid in Savers(s, code)
    ensures Step(sha, s, Continue(fid)) == SaveStep(s, fid, code, s.forms[fid].auth)
  {
  }

  lemma SaveWritten(s: State, fid: nat, code: nat)
    requires fid in Savers(s, code)
    ensures Saved(s, SaveStep(s, fid, code, s.forms[fid].auth), fid, code)
  {
    OneSaverLess(s, SaveStep(s, fid, code, s.forms[fid].auth), fid, code);
  }

  lemma SaverReturns(sha: string -> string, s: State, code: nat) returns (es: seq<Event>)
    requires Inv(s, sha) && Answered(s, code) && SaverInTime(s, code)
    ensures AnswersBy(sha, s, es, code)
  {
    var fid :| fid in Savers(s, code) && s.st.now <= s.forms[fid].auth.expiresAt;
    SaveOnce(sha, s, fid, code);
    var s1 := Step(sha, s, Continue(fid));
    var i :| 0 <= i < |s.h.responses| && s.h.responses[i].req.code == code;
    assert s1.h.responses[i].req.code == code;
    var rest := ReadNow(sha, s1, code);
    StepFirst(sha, s, Continue(fid), rest, code);
    es := [Continue(fid)] + rest;
  }

  /** Saves bring the record up to the revision a call holds, and the call swaps it. */
  lemma {:induction false} SavedUp(sha: string -> string, s: State, pid: nat, code: nat) returns (es: seq<Event>)
    requires Inv(s, sha) && Holds(s, pid, code)
    requires RevOf(s, code) <= s.calls[pid].rev <= RevOf(s, code) + |Savers(s, code)|
    ensures AnswersBy(sha, s, es, code)
    decreases |Savers(s, code)|
  {
    assert HeldRev(s, s.calls[pid]);
    if RevOf(s, code) == s.calls[pid].rev {
      es := SwapNow(sha, s, pid, code);
    } else {
      assert |Savers(s, code)| > 0;
      var fid :| fid in Savers(s, code);
      SaveOnce(sha, s, fid, code);
      var rest := SavedUp(sha, Step(sha, s, Continue(fid)), pid, code);
      StepFirst(sha, s, Continue(fid), rest, code);
      es := [Continue(fid)] + rest;
    }
  }

  lemma RecordDropped(sha: string -> string, s: State, s1: State, code: nat)
    requires s1 == Step(sha, s, Drop(code))
    ensures s1.calls == s.calls && Savers(s1, code) == Savers(s, code) && RevOf(s1, code) == 0
    ensures s1.h.responses == s.h.responses
  {
  }

  lemma HeldReturns(sha: string -> string, s: State, code: nat) returns (es: seq<Event>)
    requires Inv(s, sha) && HeldInReach(s, code)
    ensures AnswersBy(sha, s, es, code)
  {
    var pid :| Holds(s, pid, code) && InReach(s.calls[pid].rev, RevOf(s, code), |Savers(s, code)|);
    if RevOf(s, code) <= s.calls[pid].rev <= RevOf(s, code) + |Savers(s, code)| {
      es := SavedUp(sha, s, pid, code);
    } else {
      var s1 := Step(sha, s, Drop(code));
      StepKeepsInv(sha, s, Drop(code));
      RecordDropped(sha, s, s1, code);
      var rest := SavedUp(sha, s1, pid, code);
      StepFirst(sha, s, Drop(code), rest, code);
      es := [Drop(code)] + rest;
    }
  }

  lemma AgainSomehow(sha: string -> string, s: State, code: nat) returns (es: seq<Event>)
    requires Inv(s, sha) && Answered(s, code) && MayReturn(s, code)
    ensures AnswersBy(sha, s, es, code)
  {
    if ClaimedBySome(s, code) {
      var pid :| pid in s.calls && s.calls[pid].Claimed? && s.calls[pid].req.code == code;
      es := AnswerNow(sha, s, pid, code);
    } else if LiveInTime(s, code) {
      es := ReadNow(sha, s, code);
    } else if SaverInTime(s, code) {
      es := SaverReturns(sha, s, code);
    } else {
      es := HeldReturns(sha, s, code);
    }
  }

  lemma {:induction false} RunBarred(sha: string -> string, s: State, es: seq<Event>, code: nat)
    requires Inv(s, sha) && !MayReturn(s, code) && code < s.st.drawn
    ensures var s' := Run(sha, s, es);
            Inv(s', sha) && !MayReturn(s', code) && s.h.responses <= s'.h.responses && !NewAnswer(s, s', code)
            && s.st.drawn <= s'.st.drawn
  {
    if es != [] {
      var s1, e := Run(sha, s, es[..|es| - 1]), es[|es| - 1];
      RunBarred(sha, s, es[..|es| - 1], code);
      StepBarred(sha, s1, e, code);
      StepKeepsInv(sha, s1, e);
      ResponsesGrow(sha, s1, e);
      DrawnGrows(sha, s1, e);
    }
  }

  lemma DrawnGrows(sha: string -> string, s: State, e: Event)
    requires Inv(s, sha)
    ensures s.st.drawn <= Step(sha, s, e).st.drawn
  {
    match e {
      case Continue(fid) =>
        if fid in s.forms {
          assert FormOk(s.h, s.forms[fid]);
          FormMoves(s, fid);
        }
      case Read(_, _) =>
      case Swap(_) =>
      case Answer(_) =>
      case _ => BrowserMoves(sha, s, e);
    }
  }

  /** A code that was answered is answered again, in some run, exactly if a call has swapped
      it and is about to answer, or it is live and has not expired, or a form has still to save
      it unexpired, or a call holds it at a revision to which the forms still to save it can bring
      it back. */
  lemma AnsweredAgainIff(sha: string -> string, s: State, code: nat)
    requires Reachable(sha, s) && Answered(s, code)
    ensures (exists es :: AnswersBy(sha, s, es, code)) <==> MayReturn(s, code)
  {
    ReachableInv(sha, s);
    if MayReturn(s, code) {
      var es := AgainSomehow(sha, s, code);
      assert AnswersBy(sha, s, es, code);
    } else {
      AnsweredIsOld(sha, s, code);
      forall es ensures !AnswersBy(sha, s, es, code) {
        RunBarred(sha, s, es, code);
      }
    }
  }

  lemma AnsweredIsOld(sha: string -> string, s: State, code: nat)
    requires Inv(s, sha) && Answered(s, code)
    ensures code < s.st.drawn
  {
    var i :| 0 <= i < |s.h.responses| && s.h.responses[i].req.code == code;
    assert AnswerOk(s.h, s.h.responses[i], sha);
  }

  /** A form that read the code before may bring it back. */
  ghost predicate LeftOver(s: State, code: nat) {
    SaverInTime(s, code) || exists pid :: Holds(s, pid, code) && s.calls[pid].rev <= |Savers(s, code)|
  }

  /** If no form has saved the code where it was no longer live, it can be answered again exactly
      if a form that read it before has yet to save it: unexpired, or while a call holds it at a
      revision no greater than the number of such forms. */
  lemma FormBringsBack(sha: string -> string, s: State, code: nat)
    requires Reachable(sha, s) && Answered(s, code) && code !in s.h.restored
    ensures (exists es :: AnswersBy(sha, s, es, code)) <==> LeftOver(s, code)
  {
    AnsweredAgainIff(sha, s, code);
    NotRestored(sha, s, code);
  }

  lemma NotRestored(sha: string -> string, s: State, code: nat)
    requires Reachable(sha, s) && Answered(s, code) && code !in s.h.restored
    ensures MayReturn(s, code) <==> LeftOver(s, code)
  {
    ReachableInv(sha, s);
    UsedUp(s, code);
    forall pid | Holds(s, pid, code)
      ensures InReach(s.calls[pid].rev, RevOf(s, code), |Savers(s, code)|) <==> s.calls[pid].rev <= |Savers(s, code)|
    {
      assert HeldRev(s, s.calls[pid]);
    }
  }

  lemma UsedUp(s: State, code: nat)
    requires Once(s) && Answered(s, code) && code !in s.h.restored
    ensures !ClaimedBySome(s, code) && !IsLive(s, code)
  {
    var i :| 0 <= i < |s.h.responses| && s.h.responses[i].req.code == code;
    assert !Unclaimed(s, code);
  }
}
