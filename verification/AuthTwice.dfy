/** A run from the start in which one authorization code yields two token responses. */
module AuthTwice {
  import opened Kv
  import opened Authorize
  import opened AuthFlow
  import opened AuthBinding
  import opened AuthSafety
  import opened AuthAgain
  import Lists

  // ----- a code that waits for consent -----

  const URI := "https://app.example/cb"

  function Query(challenge: string): seq<(string, string)> {
    [("client_id", "app"), ("redirect_uri", URI), ("response_type", "code"), ("code_challenge", challenge)]
  }

  function QueryParams(challenge: string): Params {
    map["client_id" := "app", "redirect_uri" := URI, "response_type" := "code", "code_challenge" := challenge]
  }

  const SIGNED_ON := Browser(Some(Sso("ada", 0, [])), None, None, true)

  const APP := Client([URI], false, false, true)

  function Begins(): State { Start("https://idp.example", 0, map["app" := APP], APP, map["ada" := true]) }

  lemma QueryRead(challenge: string)
    ensures NoDuplicates(Query(challenge)) && ToParams(Query(challenge)) == QueryParams(challenge)
  {
    var q := Query(challenge);
    assert ToParams(q[4..]) == map[];
    assert ToParams(q[3..]) == map["code_challenge" := challenge];
    assert ToParams(q[2..]) == map["code_challenge" := challenge, "response_type" := "code"];
    assert ToParams(q[1..]) == map["code_challenge" := challenge, "response_type" := "code", "redirect_uri" := URI];
  }

  function FreshCode(challenge: string): AuthCode {
    AuthCode("ada", "app", URI, challenge, "S256", "", "openid", 0, [], None, Requested([], []), 1, TTL_AUTH_CODE, "",
        2, true)
  }

  lemma EffectiveQuery(challenge: string)
    ensures Effective(Query(challenge), map[], 0) == Some((QueryParams(challenge), false))
  {
    QueryRead(challenge);
  }

  lemma ClientTrusted(challenge: string)
    ensures Trusted(Begins().st, QueryParams(challenge))
  {
    assert URI in [URI];
  }

  lemma RequestFine(challenge: string)
    requires challenge != ""
    ensures WellFormed(QueryParams(challenge), SIGNED_ON)
  {
    assert Lists.AcrValues("") == [];
  }

  lemma SessionFits(challenge: string)
    ensures Answers(Begins().st, QueryParams(challenge), SIGNED_ON, ClaimsRequest(Requested([], []), []))
  {
    assert Lists.AcrValues("") == [];
  }

  lemma Admitted(challenge: string)
    requires challenge != ""
    ensures var st, p := Begins().st, QueryParams(challenge);
            && Trusted(st, p) && WellFormed(p, SIGNED_ON)
            && Answers(st, p, SIGNED_ON, ClaimsRequest(Requested([], []), []))
  {
    ClientTrusted(challenge);
    RequestFine(challenge);
    SessionFits(challenge);
  }

  lemma CodeOfSession(challenge: string)
    requires Trusted(Begins().st, QueryParams(challenge))
    ensures SsoCode(Begins().st, QueryParams(challenge), APP, SIGNED_ON.sso.value, Requested([], []))
         == FreshCode(challenge)
  {
  }

  lemma ProceedsMinted(st: Store, p: Params, c: ClaimsRequest)
    requires Trusted(st, p) && Claims(p, SIGNED_ON) == Some(c) && Answers(st, p, SIGNED_ON, c) && "prompt" !in p
    ensures Proceed(st, p, SIGNED_ON, APP, c) == Minted(SsoCode(st, p, APP, SIGNED_ON.sso.value, c.names))
  {
    ProceedMints(st, p, SIGNED_ON, APP, c);
  }

  lemma DecidedMinted(challenge: string)
    requires challenge != ""
    ensures Decide(Begins().st, Query(challenge), map[], SIGNED_ON) == Minted(FreshCode(challenge))
  {
    EffectiveQuery(challenge);
    Admitted(challenge);
    GoesOn(Begins().st, Query(challenge), map[], SIGNED_ON, QueryParams(challenge), false);
    ProceedsMinted(Begins().st, QueryParams(challenge), ClaimsRequest(Requested([], []), []));
    CodeOfSession(challenge);
  }

  /** The stores after the request: the pending code and nothing else. */
  ghost predicate Waiting(s: State, challenge: string) {
    && s.codes == map[0 := Cell(Live(FreshCode(challenge)), 1)] && s.calls == map[] && s.forms == map[]
    && s.h.responses == [] && s.users == map["ada" := true]
    && s.st.now == 0 && "app" in s.st.clients && s.st.clients["app"] == APP
  }

  lemma CodeMinted(sha: string -> string, challenge: string)
    requires challenge != ""
    ensures Waiting(Run(sha, Begins(), [Request(Query(challenge), SIGNED_ON)]), challenge)
  {
    OneStep(sha, Begins(), Request(Query(challenge), SIGNED_ON));
    RequestMints(Begins(), challenge);
  }

  lemma RequestMints(s: State, challenge: string)
    requires s == Begins() && challenge != ""
    ensures Waiting(RequestStep(s, Query(challenge), SIGNED_ON), challenge)
  {
    var p := QueryParams(challenge);
    DecidedMinted(challenge);
    EffectiveQuery(challenge);
    var s1 := s.(par := ParLeft(Query(challenge), s.par), st := s.st.(clients := ClientsLeft(s.st, p)));
    MintCarriedOut(s1, OriginOf(s.st, p, SIGNED_ON), challenge);
  }

  lemma MintCarriedOut(s: State, o: Origin, challenge: string)
    requires s.codes == map[] && s.calls == map[] && s.forms == map[] && s.h.responses == []
    requires s.users == map["ada" := true] && s.st.now == 0 && s.st.drawn == 0
    requires "app" in s.st.clients && s.st.clients["app"] == APP
    ensures Waiting(CarryOut(s, o, SIGNED_ON.sso, Minted(FreshCode(challenge))), challenge)
  {
  }

  // ----- two forms, two responses -----

  /** Both forms of a double submit have read the pending code. */
  lemma BothSubmitted(sha: string -> string, s: State, challenge: string, s1: State, s2: State)
    requires Waiting(s, challenge)
    requires s1 == Step(sha, s, Consent(0, 0, 1, true, Some(0))) && s2 == Step(sha, s1, Consent(1, 0, 1, true, Some(0)))
    ensures s2.codes == s.codes && s2.calls == map[] && s2.h.responses == [] && s2.users == s.users && s2.st == s.st
    ensures s2.forms == map[0 := Saving(0, FreshCode(challenge)), 1 := Saving(0, FreshCode(challenge))]
  {
    var f := Saving(0, FreshCode(challenge));
    assert Submitted(s, 0, 1, true, Some(0)) == f;
    assert s1 == ConsentStep(s, 0, 0, 1, true, Some(0));
    assert Submitted(s1, 0, 1, true, Some(0)) == f;
    assert s2 == ConsentStep(s1, 1, 0, 1, true, Some(0));
  }

  const REQUEST := Exchange(0, "app", URI, Some("v"))

  /** What a save and a whole exchange need and leave. */
  ghost predicate Ready(s: State) {
    s.users == map["ada" := true] && s.st.now == 0 && "app" in s.st.clients && s.st.clients["app"] == APP
  }

  lemma SavedLive(sha: string -> string, s: State, fid: nat, challenge: string)
    requires fid in s.forms && s.forms[fid] == Saving(0, FreshCode(challenge)) && Ready(s)
    ensures var s' := Step(sha, s, Continue(fid));
            && Ready(s') && 0 in s'.codes && s'.codes[0].value == Live(FreshCode(challenge).(pendingConsent := false))
            && s'.calls == s.calls && s'.h.responses == s.h.responses
            && (forall g :: g in s.forms && g != fid ==> g in s'.forms && s'.forms[g] == s.forms[g])
  {
    assert Step(sha, s, Continue(fid)) == SaveStep(s, fid, 0, FreshCode(challenge));
  }

  lemma Exchanged(sha: string -> string, s: State, s1: State, s2: State, pid: nat)
    requires Ready(s) && pid !in s.calls && sha("v") != ""
    requires 0 in s.codes && s.codes[0].value == Live(FreshCode(sha("v")).(pendingConsent := false))
    requires s1 == Step(sha, s, Read(pid, REQUEST)) && s2 == Step(sha, s1, Swap(pid))
    ensures var s3 := Step(sha, s2, Answer(pid));
            && Ready(s3) && s3.forms == s.forms && s3.calls == s.calls[pid := Answered]
            && |s3.h.responses| == |s.h.responses| + 1 && s3.h.responses[..|s.h.responses|] == s.h.responses
            && s3.h.responses[|s.h.responses|].req == REQUEST
  {
    var a := FreshCode(sha("v")).(pendingConsent := false);
    ReadAndSwapped(sha, s, s1, s2, pid, a);
    assert Step(sha, s2, Answer(pid)) == AnswerStep(s2, pid);
    assert AnswerStep(s2, pid).h.responses == s.h.responses + [Response(pid, REQUEST, a, |s2.h.approvals|)];
  }

  lemma ReadAndSwapped(sha: string -> string, s: State, s1: State, s2: State, pid: nat, a: AuthCode)
    requires Ready(s) && pid !in s.calls && 0 in s.codes && s.codes[0].value == Live(a)
    requires a == FreshCode(sha("v")).(pendingConsent := false) && sha("v") != ""
    requires s1 == Step(sha, s, Read(pid, REQUEST)) && s2 == Step(sha, s1, Swap(pid))
    ensures s2 == s.(codes := Cas(s.codes, 0, Spent, s.codes[0].rev), calls := s.calls[pid := Claimed(REQUEST, a)])
  {
    assert s1 == s.(calls := s.calls[pid := Holding(REQUEST, a, s.codes[0].rev)]);
  }

  function ExchangeEvents(pid: nat): seq<Event> { [Read(pid, REQUEST), Swap(pid), Answer(pid)] }

  function TwiceEvents(challenge: string): seq<Event> {
    [Request(Query(challenge), SIGNED_ON)] + [Consent(0, 0, 1, true, Some(0)), Consent(1, 0, 1, true, Some(0))]
      + ([Continue(0)] + ExchangeEvents(0)) + ([Continue(1)] + ExchangeEvents(1))
  }

  lemma RunTwo(sha: string -> string, s: State, e1: Event, e2: Event)
    ensures Run(sha, s, [e1, e2]) == Step(sha, Step(sha, s, e1), e2)
  {
    OneStep(sha, s, e1);
    RunThen(sha, s, [e1], e2);
    assert [e1] + [e2] == [e1, e2];
  }

  lemma RunThree(sha: string -> string, s: State, e1: Event, e2: Event, e3: Event)
    ensures Run(sha, s, [e1, e2, e3]) == Step(sha, Step(sha, Step(sha, s, e1), e2), e3)
  {
    RunTwo(sha, s, e1, e2);
    RunThen(sha, s, [e1, e2], e3);
    assert [e1, e2] + [e3] == [e1, e2, e3];
  }

  lemma SavedAndExchanged(sha: string -> string, s: State, fid: nat, pid: nat)
    requires fid in s.forms && s.forms[fid] == Saving(0, FreshCode(sha("v"))) && Ready(s)
    requires pid !in s.calls && sha("v") != ""
    ensures var s' := Run(sha, s, [Continue(fid)] + ExchangeEvents(pid));
            && Ready(s') && s'.calls == s.calls[pid := Answered]
            && (forall g :: g in s.forms && g != fid ==> g in s'.forms && s'.forms[g] == s.forms[g])
            && |s'.h.responses| == |s.h.responses| + 1 && s'.h.responses[..|s.h.responses|] == s.h.responses
            && s'.h.responses[|s.h.responses|].req == REQUEST
  {
    OneStep(sha, s, Continue(fid));
    SavedLive(sha, s, fid, sha("v"));
    var s0 := Step(sha, s, Continue(fid));
    RunConcat(sha, s, [Continue(fid)], ExchangeEvents(pid));
    RunThree(sha, s0, Read(pid, REQUEST), Swap(pid), Answer(pid));
    Exchanged(sha, s0, Step(sha, s0, Read(pid, REQUEST)), Step(sha, Step(sha, s0, Read(pid, REQUEST)), Swap(pid)), pid);
  }

  /** A request, a double submit of its consent form, and between the two saves a whole
      exchange: the second save puts the code back, and it is exchanged once more. */
  lemma AnsweredTwice(sha: string -> string)
    requires sha("v") != ""
    ensures var s := Run(sha, Begins(), TwiceEvents(sha("v")));
            |s.h.responses| == 2 && s.h.responses[0].req == s.h.responses[1].req == REQUEST
  {
    var s0, ch := Begins(), sha("v");
    var es1 := [Request(Query(ch), SIGNED_ON)];
    var es2 := [Consent(0, 0, 1, true, Some(0)), Consent(1, 0, 1, true, Some(0))];
    CodeMinted(sha, ch);
    var s1 := Run(sha, s0, es1);
    RunConcat(sha, s0, es1, es2);
    RunTwo(sha, s1, es2[0], es2[1]);
    var s2 := Run(sha, s0, es1 + es2);
    BothSubmitted(sha, s1, ch, Step(sha, s1, es2[0]), s2);
    BothExchanged(sha, s2);
    RunConcat(sha, s0, es1 + es2, [Continue(0)] + ExchangeEvents(0));
    RunConcat(sha, s0, es1 + es2 + ([Continue(0)] + ExchangeEvents(0)), [Continue(1)] + ExchangeEvents(1));
  }

  lemma BothExchanged(sha: string -> string, s: State)
    requires Ready(s) && s.calls == map[] && s.h.responses == [] && sha("v") != ""
    requires s.forms == map[0 := Saving(0, FreshCode(sha("v"))), 1 := Saving(0, FreshCode(sha("v")))]
    ensures var s' := Run(sha, Run(sha, s, [Continue(0)] + ExchangeEvents(0)), [Continue(1)] + ExchangeEvents(1));
            |s'.h.responses| == 2 && s'.h.responses[0].req == s'.h.responses[1].req == REQUEST
  {
    SavedAndExchanged(sha, s, 0, 0);
    var s1 := Run(sha, s, [Continue(0)] + ExchangeEvents(0));
    SecondExchanged(sha, s1);
  }

  lemma SecondExchanged(sha: string -> string, s: State)
    requires Ready(s) && s.calls == map[0 := Answered] && sha("v") != ""
    requires |s.h.responses| == 1 && s.h.responses[0].req == REQUEST
    requires 1 in s.forms && s.forms[1] == Saving(0, FreshCode(sha("v")))
    ensures var s' := Run(sha, s, [Continue(1)] + ExchangeEvents(1));
            |s'.h.responses| == 2 && s'.h.responses[0].req == s'.h.responses[1].req == REQUEST
  {
    SavedAndExchanged(sha, s, 1, 1);
    var s' := Run(sha, s, [Continue(1)] + ExchangeEvents(1));
    assert s'.h.responses[0] == s'.h.responses[..1][0];
  }
}
