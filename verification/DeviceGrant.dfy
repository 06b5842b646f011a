/** What the device grant does when nothing comes in between: the answer to each poll, and
    the whole way from the device's request to its tokens. */
module DeviceGrant {
  import opened Kv
  import opened Device
  import opened DeviceSafety

  // ----- one poll -----

  predicate Active(s: State, user: Option<string>) { user.Some? && user.value in s.users && s.users[user.value] }

  /** The answer, by what is stored for the device. */
  ghost predicate AnswersAlone(s: State, d: nat, client: string, reply: Reply) {
    if d !in s.codes then reply == NotFound
    else
      var c := s.codes[d].value;
      if c.client != client then reply == OtherClient
      else if s.clock > c.expiresAt then reply == Expired
      else
        && (reply == StillPending <==> c.status == Pending)
        && (reply == Refused <==> c.status == Denied)
        && (reply == Issued <==> c.status == Approved && Active(s, c.user))
        && (reply == NotActive <==> c.status == Approved && !Active(s, c.user))
  }

  /** A poll ends a code of its client that is expired, denied or approved. */
  ghost predicate Ends(s: State, d: nat, client: string) {
    && d in s.codes && s.codes[d].value.client == client
    && (s.clock > s.codes[d].value.expiresAt || s.codes[d].value.status != Pending)
  }

  ghost predicate PolledWell(s: State, s': State, pid: nat, d: nat, client: string) {
    && pid in s'.calls && s'.calls[pid].Replied? && AnswersAlone(s, d, client, s'.calls[pid].reply)
    && s'.codes == (if Ends(s, d, client) then s.codes - {d} else s.codes)
    && (if s'.calls[pid].reply == Issued then
          && d in s.codes && s.codes[d].value.user.Some?
          && s'.h.mints == s.h.mints[pid := Mint(d, s.codes[d].value.user.value, client, s.codes[d].value.scope)]
        else s'.h.mints == s.h.mints)
  }

  lemma RepliedStays(s: State, pid: nat)
    requires pid in s.calls && s.calls[pid].Replied?
    ensures Step(s, Go(pid)) == s
  {
  }

  lemma DropStep(s: State, pid: nat, d: nat, reply: Reply)
    requires pid in s.calls && s.calls[pid] == DropCode(d, reply)
    ensures Step(s, Go(pid)) == Set(s, pid, Replied(reply)).(codes := s.codes - {d})
  {
  }

  lemma ConsumeIs(s: State, pid: nat, d: nat, client: string, c: DeviceCode, rev: nat)
    requires pid in s.calls && s.calls[pid] == Holding(d, client, c, rev)
    ensures Step(s, Go(pid)) == ConsumeStep(s, pid, d, client, c, rev)
  {
  }

  lemma MintIs(s: State, pid: nat, d: nat, client: string, c: DeviceCode)
    requires pid in s.calls && s.calls[pid] == Claimed(d, client, c)
    ensures Step(s, Go(pid)) == MintStep(s, pid, d, client, c)
  {
  }

  lemma PollConsumes(s: State, s3: State, pid: nat, d: nat, client: string, c: DeviceCode, s2: State)
    requires d in s.codes && s.codes[d].value == c && c.client == client && s.clock <= c.expiresAt
             && c.status == Approved
    requires s2.users == s.users && s2.codes == s.codes - {d} && s2.h.mints == s.h.mints
    requires s3 == MintStep(s2, pid, d, client, c)
    ensures PolledWell(s, s3, pid, d, client)
  {
    if Active(s, c.user) {
      assert s3.calls[pid] == Replied(Issued);
    } else {
      assert s3.calls[pid] == Replied(NotActive);
    }
  }

  lemma PollSteps(s: State, s1: State, s2: State, s3: State, pid: nat, d: nat, client: string)
    requires s1 == Set(s, pid, Polled(s, d, client)) && s2 == Step(s1, Go(pid)) && s3 == Step(s2, Go(pid))
    ensures PolledWell(s, s3, pid, d, client)
  {
    match Polled(s, d, client) {
      case Replied(_) => RepliedStays(s1, pid);
      case DropCode(_, reply) =>
        DropStep(s1, pid, d, reply);
        RepliedStays(s2, pid);
      case Holding(_, _, c, rev) =>
        ConsumeIs(s1, pid, d, client, c, rev);
        MintIs(s2, pid, d, client, c);
        PollConsumes(s, s3, pid, d, client, c, s2);
    }
  }

  lemma PollIs(s: State, pid: nat, d: nat, client: string)
    requires pid !in s.calls
    ensures Step(s, Poll(pid, d, client)) == Set(s, pid, Polled(s, d, client))
  {
  }

  /** RFC 8628 section 3.5: a poll with nothing in between mints tokens exactly if the code is
      stored, of this client, unexpired, approved, and its user active; it ends the code
      exactly if it is this client's and expired, denied or approved, and answers accordingly. */
  lemma PollAlone(s: State, pid: nat, d: nat, client: string)
    requires pid !in s.calls
    ensures PolledWell(s, Step(Step(Step(s, Poll(pid, d, client)), Go(pid)), Go(pid)), pid, d, client)
  {
    PollIs(s, pid, d, client);
    var s1 := Set(s, pid, Polled(s, d, client));
    PollSteps(s, s1, Step(s1, Go(pid)), Step(Step(s1, Go(pid)), Go(pid)), pid, d, client);
  }

  // ----- the whole grant -----

  lemma RunOne(s: State, e: Event)
    ensures Run(s, [e]) == Step(s, e)
  {
    assert [e][..0] == [];
  }

  lemma RunTwo(s: State, e1: Event, e2: Event)
    ensures Run(s, [e1, e2]) == Step(Step(s, e1), e2)
  {
    RunOne(s, e1);
    assert [e1, e2][..1] == [e1];
  }

  lemma {:induction false} RunConcat(s: State, es: seq<Event>, fs: seq<Event>)
    ensures Run(s, es + fs) == Run(Run(s, es), fs)
  {
    if fs == [] {
      assert es + fs == es;
    } else {
      RunConcat(s, es, fs[..|fs| - 1]);
      assert (es + fs)[..|es + fs| - 1] == es + fs[..|fs| - 1];
    }
  }

  /** What the poll of a decided code brings. */
  ghost predicate Outcome(s: State, q: nat, mint: Mint, approve: bool, inTime: bool, active: bool) {
    && q in s.calls && s.calls[q].Replied? && mint.device !in s.codes
    && (s.calls[q].reply == Issued <==> inTime && approve && active)
    && (s.calls[q].reply == Expired <==> !inTime)
    && (s.calls[q].reply == Refused <==> inTime && !approve)
    && (s.calls[q].reply == Issued ==> q in s.h.mints && s.h.mints[q] == mint)
  }

  /** A code that someone has decided. */
  ghost predicate Decided(s: State, mint: Mint, end: nat, approve: bool) {
    && mint.device in s.codes
    && var c := s.codes[mint.device].value;
    && c.client == mint.client && c.scope == mint.scope && c.expiresAt == end
    && (if approve then c.status == Approved && c.user == Some(mint.user) else c.status == Denied)
  }

  function PollEvents(q: nat, d: nat, client: string): seq<Event> { [Poll(q, d, client)] + [Go(q), Go(q)] }

  lemma PolledOutcome(s: State, q: nat, mint: Mint, end: nat, approve: bool)
    requires q !in s.calls && Decided(s, mint, end, approve)
    ensures Outcome(Run(s, PollEvents(q, mint.device, mint.client)), q, mint, approve, s.clock <= end,
            Active(s, Some(mint.user)))
  {
    var s1 := Set(s, q, Polled(s, mint.device, mint.client));
    RunOne(s, Poll(q, mint.device, mint.client));
    PollIs(s, q, mint.device, mint.client);
    RunConcat(s, [Poll(q, mint.device, mint.client)], [Go(q), Go(q)]);
    FinishOutcome(s, s1, q, mint, end, approve);
  }

  lemma FinishOutcome(s: State, s1: State, q: nat, mint: Mint, end: nat, approve: bool)
    requires s1 == Set(s, q, Polled(s, mint.device, mint.client)) && Decided(s, mint, end, approve)
    ensures Outcome(Run(s1, [Go(q), Go(q)]), q, mint, approve, s.clock <= end, Active(s, Some(mint.user)))
  {
    RunTwo(s1, Go(q), Go(q));
    PollSteps(s, s1, Step(s1, Go(q)), Step(Step(s1, Go(q)), Go(q)), q, mint.device, mint.client);
  }

  lemma WaitedOutcome(s: State, q: nat, mint: Mint, end: nat, approve: bool, wait: nat)
    requires q !in s.calls && Decided(s, mint, end, approve)
    ensures Outcome(Run(s, [Tick(wait)] + PollEvents(q, mint.device, mint.client)), q, mint, approve,
            s.clock + wait <= end,
                    Active(s, Some(mint.user)))
  {
    RunOne(s, Tick(wait));
    RunConcat(s, [Tick(wait)], PollEvents(q, mint.device, mint.client));
    LaterDecided(s, mint, end, approve, wait);
    PolledOutcome(Step(s, Tick(wait)), q, mint, end, approve);
  }

  lemma LaterDecided(s: State, mint: Mint, end: nat, approve: bool, wait: nat)
    requires Decided(s, mint, end, approve)
    ensures var s' := Step(s, Tick(wait));
            && Decided(s', mint, end, approve) && s'.clock == s.clock + wait && s'.calls == s.calls
            && Active(s', Some(mint.user)) == Active(s, Some(mint.user))
  {
  }

  // ----- the confirmation -----

  /** The handler is past its check. */
  ghost predicate Confirming(s: State, p: nat, d: nat, user: string, approve: bool) {
    && p in s.calls && s.calls[p].UpdateRead? && s.calls[p].device == d
    && (if approve then s.calls[p].verdict.Approve? && s.calls[p].verdict.user == user else s.calls[p].verdict.Deny?)
  }

  /** A pending code. */
  ghost predicate Undecided(s: State, mint: Mint, end: nat) {
    && mint.device in s.codes
    && var c := s.codes[mint.device].value;
    && c.client == mint.client && c.scope == mint.scope && c.expiresAt == end && c.status == Pending
  }

  lemma ReadIs(s: State, p: nat, d: nat, v: Verdict)
    requires p in s.calls && s.calls[p] == UpdateRead(d, v) && d in s.codes
    ensures Step(s, Go(p)) == Set(s, p, UpdateCas(d, v, s.codes[d].value, s.codes[d].rev))
  {
  }

  lemma CasIs(s: State, p: nat, d: nat, v: Verdict, c: DeviceCode, rev: nat)
    requires p in s.calls && s.calls[p] == UpdateCas(d, v, c, rev)
    ensures Step(s, Go(p)) == UpdateCasStep(s, p, d, v, c, rev)
  {
  }

  lemma UpdateWrites(s: State, p: nat, mint: Mint, end: nat, approve: bool)
    requires Confirming(s, p, mint.device, mint.user, approve) && Undecided(s, mint, end)
    ensures var s' := Run(s, [Go(p), Go(p)]);
            s'.clock == s.clock && s'.users == s.users && s'.calls == s.calls[p := Done]
                && Decided(s', mint, end, approve)
  {
    var d := mint.device;
    var c, v := s.codes[d], s.calls[p].verdict;
    ReadIs(s, p, d, v);
    var s1 := Set(s, p, UpdateCas(d, v, c.value, c.rev));
    CasIs(s1, p, d, v, c.value, c.rev);
    RunTwo(s, Go(p), Go(p));
    UpdatedCode(s, s1, p, mint, end, approve, c, v);
  }

  lemma UpdatedCode(s: State, s1: State, p: nat, mint: Mint, end: nat, approve: bool, c: Cell<DeviceCode>, v: Verdict)
    requires mint.device in s.codes && s.codes[mint.device] == c && Undecided(s, mint, end)
    requires s1 == Set(s, p, UpdateCas(mint.device, v, c.value, c.rev))
    requires if approve then v.Approve? && v.user == mint.user else v.Deny?
    ensures var s' := UpdateCasStep(s1, p, mint.device, v, c.value, c.rev);
            s'.clock == s.clock && s'.users == s.users && s'.calls == s.calls[p := Done]
                && Decided(s', mint, end, approve)
  {
  }

  lemma UpdatedOutcome(s: State, p: nat, q: nat, mint: Mint, end: nat, approve: bool, wait: nat)
    requires Confirming(s, p, mint.device, mint.user, approve) && Undecided(s, mint, end) && p != q && q !in s.calls
    ensures Outcome(Run(s, [Go(p), Go(p)] + ([Tick(wait)] + PollEvents(q, mint.device, mint.client))), q, mint, approve,
                    s.clock + wait <= end, Active(s, Some(mint.user)))
  {
    UpdateWrites(s, p, mint, end, approve);
    RunConcat(s, [Go(p), Go(p)], [Tick(wait)] + PollEvents(q, mint.device, mint.client));
    WaitedOutcome(Run(s, [Go(p), Go(p)]), q, mint, end, approve, wait);
  }

  function VerdictOf(a: Approval, token: nat, approve: bool): Verdict {
    if approve then Approve(a.user, a.sid, token) else Deny
  }

  lemma DropIs(s: State, p: nat, token: nat, a: Approval, approve: bool)
    requires p in s.calls && s.calls[p] == DropApproval(token, a, approve)
    ensures Step(s, Go(p))
         == Set(s, p, CheckPending(a.device, VerdictOf(a, token, approve), true)).(approvals := s.approvals - {token})
  {
  }

  lemma CheckIs(s: State, p: nat, d: nat, v: Verdict, timed: bool)
    requires p in s.calls && s.calls[p] == CheckPending(d, v, timed)
    ensures Step(s, Go(p)) == CheckStep(s, p, d, v, timed)
  {
  }

  lemma CheckPasses(s: State, p: nat, token: nat, a: Approval, approve: bool, mint: Mint, end: nat)
    requires p in s.calls && s.calls[p] == DropApproval(token, a, approve) && a.device == mint.device
             && a.user == mint.user
    requires Undecided(s, mint, end) && s.clock <= end
    ensures var s' := Run(s, [Go(p), Go(p)]);
            && s'.codes == s.codes && s'.clock == s.clock && s'.users == s.users && p in s'.calls
            && s'.calls == s.calls[p := s'.calls[p]] && Confirming(s', p, mint.device, mint.user, approve)
  {
    DropIs(s, p, token, a, approve);
    RunTwo(s, Go(p), Go(p));
    CheckIs(Step(s, Go(p)), p, a.device, VerdictOf(a, token, approve), true);
  }

  lemma CheckedOutcome(s: State, p: nat, q: nat, token: nat, a: Approval, mint: Mint, end: nat, approve: bool,
      wait: nat)
    requires p in s.calls && s.calls[p] == DropApproval(token, a, approve) && a.device == mint.device
             && a.user == mint.user
    requires Undecided(s, mint, end) && s.clock <= end && p != q && q !in s.calls
    ensures Outcome(Run(s, [Go(p), Go(p)] + ([Go(p), Go(p)] + ([Tick(wait)]
            + PollEvents(q, mint.device, mint.client)))), q,
                    mint, approve, s.clock + wait <= end, Active(s, Some(mint.user)))
  {
    CheckPasses(s, p, token, a, approve, mint, end);
    RunConcat(s, [Go(p), Go(p)], [Go(p), Go(p)] + ([Tick(wait)] + PollEvents(q, mint.device, mint.client)));
    UpdatedOutcome(Run(s, [Go(p), Go(p)]), p, q, mint, end, approve, wait);
  }

  lemma ConfirmIs(s: State, p: nat, token: nat, approve: bool)
    requires p !in s.calls
    ensures Step(s, Confirm(p, token, approve)) == Set(s, p, GetApproval(token, approve))
  {
  }

  lemma GetIs(s: State, p: nat, token: nat, approve: bool)
    requires p in s.calls && s.calls[p] == GetApproval(token, approve) && token in s.approvals
    ensures Step(s, Go(p)) == Set(s, p, DropApproval(token, s.approvals[token], approve))
  {
  }

  lemma ConfirmFinds(s: State, p: nat, token: nat, approve: bool)
    requires p !in s.calls && token in s.approvals
    ensures Run(s, [Confirm(p, token, approve), Go(p)]) == Set(s, p, DropApproval(token, s.approvals[token], approve))
  {
    RunTwo(s, Confirm(p, token, approve), Go(p));
    ConfirmIs(s, p, token, approve);
    GetIs(Set(s, p, GetApproval(token, approve)), p, token, approve);
  }

  /** The confirmation and, `wait` seconds later, the poll. */
  function DecisionEvents(p: nat, token: nat, approve: bool, q: nat, d: nat, client: string, wait: nat): seq<Event> {
    [Confirm(p, token, approve), Go(p)] + ([Go(p), Go(p)] + ([Go(p), Go(p)]
        + ([Tick(wait)] + PollEvents(q, d, client))))
  }

  lemma ConfirmedOutcome(s: State, p: nat, q: nat, token: nat, mint: Mint, end: nat, approve: bool, wait: nat)
    requires p !in s.calls && token in s.approvals
    requires s.approvals[token].device == mint.device && s.approvals[token].user == mint.user
    requires Undecided(s, mint, end) && s.clock <= end && p != q && q !in s.calls
    ensures Outcome(Run(s, DecisionEvents(p, token, approve, q, mint.device, mint.client, wait)), q, mint, approve,
                    s.clock + wait <= end, Active(s, Some(mint.user)))
  {
    var a, rest := s.approvals[token], [Go(p), Go(p)] + ([Go(p), Go(p)]
        + ([Tick(wait)] + PollEvents(q, mint.device, mint.client)));
    ConfirmFinds(s, p, token, approve);
    RunConcat(s, [Confirm(p, token, approve), Go(p)], rest);
    CheckedOutcome(Set(s, p, DropApproval(token, a, approve)), p, q, token, a, mint, end, approve, wait);
  }

  // ----- from the device's request on -----

  /** The device asks, its user enters the code and logs in. */
  function RequestEvents(session: nat, userCode: string, client: string, scope: string, user: string): seq<Event> {
    [StartDevice(userCode, client, scope)] + [Submit(userCode), LoggedIn(session, user)]
  }

  lemma Started(s: State, s1: State, userCode: string, client: string, scope: string)
    requires Inv(s) && s1 == Step(s, StartDevice(userCode, client, scope))
    ensures s1.drawn == s.drawn + 1 && s1.clock == s.clock && s1.users == s.users && s1.calls == s.calls
    ensures userCode in s1.byUserCode && s1.byUserCode[userCode] == s.drawn && s.drawn in s1.codes
    ensures s1.codes[s.drawn].value == DeviceCode(userCode, client, scope, s.clock + 300, Pending, None, None)
  {
    assert s.drawn in s.codes ==> CodeOk(s, s.drawn, s.codes[s.drawn].value);
  }

  lemma LoggedInFor(s: State, s1: State, s2: State, userCode: string, user: string)
    requires Enterable(s, userCode) && s1 == Step(s, Submit(userCode)) && s2 == Step(s1, LoggedIn(s.drawn, user))
    ensures s2.codes == s.codes && s2.clock == s.clock && s2.users == s.users && s2.calls == s.calls
    ensures s.drawn + 2 in s2.approvals && s2.approvals[s.drawn + 2].user == user
    ensures s2.approvals[s.drawn + 2].device == s.byUserCode[userCode]
  {
    assert s1 == SubmitStep(s, userCode);
    assert s2 == LoggedInStep(s1, s.drawn, user);
  }

  lemma Requested(s: State, userCode: string, client: string, scope: string, user: string)
    requires Inv(s)
    ensures var s' := Run(s, RequestEvents(s.drawn + 1, userCode, client, scope, user));
            && Undecided(s', Mint(s.drawn, user, client, scope), s.clock + 300)
            && s.drawn + 3 in s'.approvals && s'.approvals[s.drawn + 3].device == s.drawn
            && s'.approvals[s.drawn + 3].user == user
            && s'.clock == s.clock && s'.users == s.users && s'.calls == s.calls
  {
    var s1 := Step(s, StartDevice(userCode, client, scope));
    RunOne(s, StartDevice(userCode, client, scope));
    RunConcat(s, [StartDevice(userCode, client, scope)], [Submit(userCode), LoggedIn(s.drawn + 1, user)]);
    Started(s, s1, userCode, client, scope);
    RunTwo(s1, Submit(userCode), LoggedIn(s.drawn + 1, user));
    LoggedInFor(s1, Step(s1, Submit(userCode)), Step(Step(s1, Submit(userCode)), LoggedIn(s.drawn + 1, user)),
        userCode, user);
  }

  /** Within 300 seconds of its request a device gets tokens for the user who logged in and
      approved, for its client and scope, if that user is active; it is refused if the user
      refused; and after 300 seconds it is told that the code has expired. */
  lemma GrantAlone(s: State, userCode: string, client: string, scope: string, user: string, approve: bool,
                   p: nat, q: nat, wait: nat)
    requires Reachable(s) && p !in s.calls && q !in s.calls && p != q
    ensures Outcome(Run(s, RequestEvents(s.drawn + 1, userCode, client, scope, user)
                             + DecisionEvents(p, s.drawn + 3, approve, q, s.drawn, client, wait)),
                    q, Mint(s.drawn, user, client, scope), approve, wait <= 300, user in s.users && s.users[user])
  {
    ReachableInv(s);
    var first := RequestEvents(s.drawn + 1, userCode, client, scope, user);
    Requested(s, userCode, client, scope, user);
    RunConcat(s, first, DecisionEvents(p, s.drawn + 3, approve, q, s.drawn, client, wait));
    ConfirmedOutcome(Run(s, first), p, q, s.drawn + 3, Mint(s.drawn, user, client, scope), s.clock + 300, approve,
        wait);
  }

  // ----- a lockout -----

  lemma LockOutIs(s: State, p: nat, userCode: string)
    requires p !in s.calls && userCode in s.byUserCode
    ensures Step(s, LockOut(p, userCode)) == Set(s, p, CheckPending(s.byUserCode[userCode], Deny, false))
  {
  }

  /** Too many wrong entries: alone, the lockout denies a code that is pending, expired or not,
      and leaves every other code, and a code already decided, as it was. */
  lemma LockOutAlone(s: State, s1: State, s2: State, s3: State, s4: State, p: nat, userCode: string)
    requires p !in s.calls && userCode in s.byUserCode && s1 == Step(s, LockOut(p, userCode))
    requires s2 == Step(s1, Go(p)) && s3 == Step(s2, Go(p)) && s4 == Step(s3, Go(p))
    ensures var d := s.byUserCode[userCode];
            && s4.codes.Keys == s.codes.Keys
            && (forall k :: k in s.codes && k != d ==> s4.codes[k] == s.codes[k])
            && (d in s.codes && s.codes[d].value.status == Pending ==>
                  s4.codes[d].value.status == Denied && s4.codes[d].value.user.None?)
            && (d in s.codes && s.codes[d].value.status != Pending ==> s4.codes[d] == s.codes[d])
  {
    var d := s.byUserCode[userCode];
    LockOutIs(s, p, userCode);
    CheckIs(s1, p, d, Deny, false);
    if d in s.codes && s.codes[d].value.status.Pending? {
      ReadIs(s2, p, d, Deny);
      CasIs(s3, p, d, Deny, s.codes[d].value, s.codes[d].rev);
    } else {
      assert s2.calls[p].Done?;
    }
  }
}
