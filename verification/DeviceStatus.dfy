/** How the status of a device code moves: exactly which steps rewrite a decided code,
    and that none does while no two browser handlers overlap on one device. */
module DeviceStatus {
  import opened Kv
  import opened Device
  import opened DeviceSafety

  // ----- which steps rewrite a code -----

  /** The call's next operation is a swap that will be accepted. */
  ghost predicate Swapping(s: State, pid: nat, d: nat) {
    && pid in s.calls && s.calls[pid].UpdateCas? && s.calls[pid].device == d
    && CasOk(s.codes, d, s.calls[pid].rev)
  }

  ghost predicate Rewrites(s: State, e: Event, d: nat) {
    d in s.codes && d in Step(s, e).codes && Step(s, e).codes[d] != s.codes[d]
  }

  lemma OthersLeaveCodes(s: State, e: Event, d: nat)
    requires Inv(s) && !e.Go?
    ensures !Rewrites(s, e, d)
  {
    if d in s.codes {
      assert CodeOk(s, d, s.codes[d].value);
    }
  }

  lemma UpdateCasRewrites(s: State, pid: nat, d: nat)
    requires Inv(s) && pid in s.calls && s.calls[pid].UpdateCas? && d in s.codes
    ensures Rewrites(s, Go(pid), d) <==> Swapping(s, pid, d)
  {
    assert CallOk(s, pid, s.calls[pid]);
    var c := s.calls[pid];
    assert Operate(s, pid) == UpdateCasStep(s, pid, c.device, c.verdict, c.code, c.rev);
  }

  lemma BrowserLeavesCodes(s: State, pid: nat)
    requires pid in s.calls
    requires var c := s.calls[pid];
             c.GetApproval? || c.DropApproval? || c.CheckPending? || c.UpdateRead? || c.Replied? || c.Done?
    ensures Operate(s, pid).codes == s.codes
  {
  }

  lemma PollLeavesCodes(s: State, pid: nat, d: nat)
    requires pid in s.calls && (s.calls[pid].DropCode? || s.calls[pid].Holding? || s.calls[pid].Claimed?)
    ensures !Rewrites(s, Go(pid), d)
  {
    match s.calls[pid] {
      case DropCode(u, reply) => assert Operate(s, pid) == Set(s, pid, Replied(reply)).(codes := Delete(s.codes, u));
      case Holding(u, client, c, rev) => assert Operate(s, pid) == ConsumeStep(s, pid, u, client, c, rev);
      case Claimed(u, client, c) => assert Operate(s, pid) == MintStep(s, pid, u, client, c);
    }
  }

  lemma GoRewrites(s: State, pid: nat, d: nat)
    requires Inv(s) && pid in s.calls && d in s.codes
    ensures Rewrites(s, Go(pid), d) <==> Swapping(s, pid, d)
  {
    var c := s.calls[pid];
    if c.UpdateCas? {
      UpdateCasRewrites(s, pid, d);
    } else if c.DropCode? || c.Holding? || c.Claimed? {
      PollLeavesCodes(s, pid, d);
    } else {
      BrowserLeavesCodes(s, pid);
    }
  }

  lemma StepRewrites(s: State, e: Event, d: nat)
    requires Inv(s) && d in s.codes
    ensures Rewrites(s, e, d) <==> e.Go? && Swapping(s, e.pid, d)
  {
    if e.Go? && e.pid in s.calls {
      GoRewrites(s, e.pid, d);
    } else if !e.Go? {
      OthersLeaveCodes(s, e, d);
    }
  }

  /** `update_device_code_status` does not look at the status it reads. A code that was
      decided is rewritten exactly by an accepted swap whose re-read saw it decided. */
  lemma DecisionOverwrittenIff(s: State, e: Event, d: nat)
    requires Reachable(s) && d in s.codes && !s.codes[d].value.status.Pending?
    ensures Rewrites(s, e, d) <==>
            e.Go? && Swapping(s, e.pid, d) && !s.calls[e.pid].code.status.Pending?
  {
    ReachableInv(s);
    StepRewrites(s, e, d);
    if e.Go? && Swapping(s, e.pid, d) {
      assert CallOk(s, e.pid, s.calls[e.pid]);
    }
  }

  // ----- a run that overwrites a decision -----

  lemma RunThen(s: State, es: seq<Event>, e: Event)
    ensures Run(s, es + [e]) == Step(Run(s, es), e)
  {
    assert (es + [e])[..|es|] == es;
  }

  const ASKED := DeviceCode("WXYZ", "tv", "openid", EXPIRES_IN, Pending, None, None)
  const APPROVAL := Approval(0, "ada", "tv", Some(2))
  const YES := Approve("ada", Some(2), 3)
  const APPROVED := ASKED.(status := Approved, user := Some("ada"), sid := Some(2))

  /** The login leaves approval 3; its handler is past the check when a lockout passes it too. */
  const BOTH_CHECKED: seq<Event> :=
    [StartDevice("WXYZ", "tv", "openid"), Submit("WXYZ"), LoggedIn(1, "ada"), Confirm(1, 3, true), Go(1), Go(1), Go(1),
     LockOut(2, "WXYZ"), Go(2)]

  lemma LoginRun()
    ensures var s := Run(Start(0, map[]), BOTH_CHECKED[..3]);
            && s.codes == map[0 := Cell(ASKED, 1)] && s.approvals == map[3 := APPROVAL] && s.calls == map[]
            && s.clock == 0 && s.byUserCode == map["WXYZ" := 0]
  {
    var es := BOTH_CHECKED;
    assert es[..0] == [] && es[..1] == es[..0] + [es[0]] && es[..2] == es[..1] + [es[1]]
        && es[..3] == es[..2] + [es[2]];
    RunThen(Start(0, map[]), es[..0], es[0]);
    RunThen(Start(0, map[]), es[..1], es[1]);
    RunThen(Start(0, map[]), es[..2], es[2]);
    var s1 := Run(Start(0, map[]), es[..1]);
    assert s1.codes == map[0 := Cell(ASKED, 1)] && s1.byUserCode == map["WXYZ" := 0] && s1.drawn == 1;
    var s2 := Run(Start(0, map[]), es[..2]);
    assert s2.sessions == map[1 := Session(0, "tv", Some(2))] && s2.drawn == 3;
  }

  ghost predicate AtPage(s: State) {
    && s.codes == map[0 := Cell(ASKED, 1)] && s.clock == 0 && s.byUserCode == map["WXYZ" := 0]
    && s.approvals == map[3 := APPROVAL]
  }

  lemma ConfirmStarts(s: State, s1: State, s2: State)
    requires AtPage(s) && s.calls == map[] && s1 == Step(s, Confirm(1, 3, true)) && s2 == Step(s1, Go(1))
    ensures AtPage(s2) && s2.calls == map[1 := DropApproval(3, APPROVAL, true)]
  {
    assert s1 == Set(s, 1, GetApproval(3, true));
    assert s2 == Set(s1, 1, DropApproval(3, APPROVAL, true));
  }

  lemma ConfirmChecks(s: State, s1: State, s2: State)
    requires AtPage(s) && s.calls == map[1 := DropApproval(3, APPROVAL, true)]
    requires s1 == Step(s, Go(1)) && s2 == Step(s1, Go(1))
    ensures s2.codes == s.codes && s2.clock == 0 && s2.byUserCode == s.byUserCode
    ensures s2.calls == map[1 := UpdateRead(0, YES)]
  {
    assert s1 == Set(s, 1, CheckPending(0, YES, true)).(approvals := s.approvals - {3});
    assert s2 == CheckStep(s1, 1, 0, YES, true);
  }

  lemma ConfirmedRun()
    ensures var s := Run(Start(0, map[]), BOTH_CHECKED[..7]);
            && s.codes == map[0 := Cell(ASKED, 1)] && s.calls == map[1 := UpdateRead(0, YES)]
            && s.clock == 0 && s.byUserCode == map["WXYZ" := 0]
  {
    var es, s0 := BOTH_CHECKED, Start(0, map[]);
    LoginRun();
    assert es[..4] == es[..3] + [es[3]] && es[..5] == es[..4] + [es[4]];
    assert es[..6] == es[..5] + [es[5]] && es[..7] == es[..6] + [es[6]];
    RunThen(s0, es[..3], es[3]);
    RunThen(s0, es[..4], es[4]);
    ConfirmStarts(Run(s0, es[..3]), Run(s0, es[..4]), Run(s0, es[..5]));
    RunThen(s0, es[..5], es[5]);
    RunThen(s0, es[..6], es[6]);
    ConfirmChecks(Run(s0, es[..5]), Run(s0, es[..6]), Run(s0, es[..7]));
  }

  lemma BothCheckedRun()
    ensures var s := Run(Start(0, map[]), BOTH_CHECKED);
            s.codes == map[0 := Cell(ASKED, 1)] && s.calls == map[1 := UpdateRead(0, YES), 2 := UpdateRead(0, Deny)]
  {
    var es, s0 := BOTH_CHECKED, Start(0, map[]);
    ConfirmedRun();
    assert es[..8] == es[..7] + [es[7]] && es == es[..8] + [es[8]];
    RunThen(s0, es[..7], es[7]);
    RunThen(s0, es[..8], es[8]);
    assert Run(s0, es[..8]).calls == map[1 := UpdateRead(0, YES), 2 := CheckPending(0, Deny, false)];
  }

  /** The user's approval is stored, and then denied by the lockout. */
  lemma OverlapOverwrites()
    ensures Run(Start(0, map[]), BOTH_CHECKED + [Go(1), Go(1)]).codes == map[0 := Cell(APPROVED, 2)]
    ensures Run(Start(0, map[]), BOTH_CHECKED + [Go(1), Go(1)] + [Go(2), Go(2)]).codes
         == map[0 := Cell(Decided(APPROVED, Deny), 3)]
  {
    var es, s0 := BOTH_CHECKED, Start(0, map[]);
    BothCheckedRun();
    assert es + [Go(1), Go(1)] == es + [Go(1)] + [Go(1)];
    RunThen(s0, es, Go(1));
    RunThen(s0, es + [Go(1)], Go(1));
    Swapped(Run(s0, es), Run(s0, es + [Go(1)]), 1, ASKED, YES, 1);
    var fs := es + [Go(1), Go(1)];
    assert fs + [Go(2), Go(2)] == fs + [Go(2)] + [Go(2)];
    RunThen(s0, fs, Go(2));
    RunThen(s0, fs + [Go(2)], Go(2));
    Swapped(Run(s0, fs), Run(s0, fs + [Go(2)]), 2, APPROVED, Deny, 2);
  }

  lemma Swapped(s: State, s': State, pid: nat, c: DeviceCode, v: Verdict, rev: nat)
    requires s.codes == map[0 := Cell(c, rev)] && pid in s.calls && s.calls[pid] == UpdateRead(0, v)
    requires s' == Step(s, Go(pid))
    ensures Step(s', Go(pid)).codes == map[0 := Cell(Decided(c, v), rev + 1)]
    ensures Step(s', Go(pid)).calls == s.calls[pid := Done]
  {
    assert s' == Set(s, pid, UpdateCas(0, v, c, rev));
  }

  // ----- no overlap -----

  /** One handler at a time past the check of a device, and what it saw still stands. */
  ghost predicate Alone(s: State) {
    forall p, q, d :: p in s.calls && q in s.calls && p != q && InUpdate(s.calls[p], d) ==> !InUpdate(s.calls[q], d)
  }

  ghost predicate Current(s: State, c: Call) {
    match c
    case UpdateRead(d, _) => d in s.codes ==> s.codes[d].value.status.Pending?
    case UpdateCas(d, _, code, rev) => code.status.Pending? && (d in s.codes ==> s.codes[d].rev == rev)
    case _ => true
  }

  ghost predicate Orderly(s: State) { Alone(s) && forall p :: p in s.calls ==> Current(s, s.calls[p]) }

  ghost predicate Entered(s: State, s': State, pid: nat) {
    && pid in s.calls && pid in s'.calls && Current(s', s'.calls[pid])
    && forall d :: InUpdate(s'.calls[pid], d) ==> InUpdate(s.calls[pid], d) || !Overlap(s, pid, d)
  }

  /** A process that neither is in an update nor comes into one. */
  lemma StaysOut(s: State, s': State, pid: nat, c: Call)
    requires pid in s.calls && pid in s'.calls && s'.calls[pid] == c && !c.UpdateRead? && !c.UpdateCas?
    ensures Entered(s, s', pid)
  {
  }

  lemma CheckEnters(s: State, pid: nat, d: nat, v: Verdict, timed: bool)
    requires pid in s.calls && s.calls[pid] == CheckPending(d, v, timed) && !CheckStep(s, pid, d, v, timed).overlapped
    ensures Entered(s, CheckStep(s, pid, d, v, timed), pid)
  {
  }

  lemma ReadEnters(s: State, pid: nat, d: nat, v: Verdict)
    requires pid in s.calls && s.calls[pid] == UpdateRead(d, v) && Current(s, s.calls[pid])
    ensures Entered(s, UpdateReadStep(s, pid, d, v), pid)
  {
  }

  lemma SwapLeaves(s: State, pid: nat, d: nat, v: Verdict, c: DeviceCode, rev: nat)
    requires pid in s.calls
    ensures Entered(s, UpdateCasStep(s, pid, d, v, c, rev), pid)
  {
    assert UpdateCasStep(s, pid, d, v, c, rev).calls[pid] == Done;
  }

  lemma ConsumeReplies(s: State, pid: nat, d: nat, client: string, c: DeviceCode, rev: nat) returns (next: Call)
    ensures ConsumeStep(s, pid, d, client, c, rev).calls == s.calls[pid := next] && (next.Claimed? || next.Replied?)
  {
    next := if d in s.codes && s.codes[d].rev == rev then Claimed(d, client, c) else Replied(Consumed);
  }

  lemma ConsumeStaysOut(s: State, pid: nat, d: nat, client: string, c: DeviceCode, rev: nat)
    requires pid in s.calls
    ensures Entered(s, ConsumeStep(s, pid, d, client, c, rev), pid)
  {
    var next := ConsumeReplies(s, pid, d, client, c, rev);
    StaysOut(s, ConsumeStep(s, pid, d, client, c, rev), pid, next);
  }

  lemma MintReplies(s: State, pid: nat, d: nat, client: string, c: DeviceCode) returns (reply: Reply)
    ensures MintStep(s, pid, d, client, c).calls == s.calls[pid := Replied(reply)]
  {
    reply := if c.user.Some? && c.user.value in s.users && s.users[c.user.value] then Issued else NotActive;
  }

  lemma MintStaysOut(s: State, pid: nat, d: nat, client: string, c: DeviceCode)
    requires pid in s.calls
    ensures Entered(s, MintStep(s, pid, d, client, c), pid)
  {
    var reply := MintReplies(s, pid, d, client, c);
    StaysOut(s, MintStep(s, pid, d, client, c), pid, Replied(reply));
  }

  lemma PollStaysOut(s: State, pid: nat)
    requires pid in s.calls && (s.calls[pid].DropCode? || s.calls[pid].Holding? || s.calls[pid].Claimed?)
    ensures Entered(s, Operate(s, pid), pid)
  {
    match s.calls[pid] {
      case DropCode(u, reply) => assert Operate(s, pid) == Set(s, pid, Replied(reply)).(codes := Delete(s.codes, u));
      case Holding(u, client, c, rev) => ConsumeStaysOut(s, pid, u, client, c, rev);
      case Claimed(u, client, c) => MintStaysOut(s, pid, u, client, c);
    }
  }

  lemma UpdateEnters(s: State, pid: nat)
    requires pid in s.calls && Current(s, s.calls[pid]) && !Operate(s, pid).overlapped
    requires var c := s.calls[pid]; c.CheckPending? || c.UpdateRead? || c.UpdateCas?
    ensures Entered(s, Operate(s, pid), pid)
  {
    match s.calls[pid] {
      case CheckPending(u, v, timed) => CheckEnters(s, pid, u, v, timed);
      case UpdateRead(u, v) => ReadEnters(s, pid, u, v);
      case UpdateCas(u, v, c, rev) => SwapLeaves(s, pid, u, v, c, rev);
    }
  }

  lemma ApprovalStaysOut(s: State, pid: nat)
    requires pid in s.calls
    requires var c := s.calls[pid]; c.GetApproval? || c.DropApproval? || c.Replied? || c.Done?
    ensures Entered(s, Operate(s, pid), pid)
  {
  }

  /** Only the check lets a handler in, and not beside another one; what it saw is current. */
  lemma GoEnters(s: State, pid: nat)
    requires pid in s.calls && !Operate(s, pid).overlapped && Current(s, s.calls[pid])
    ensures Entered(s, Operate(s, pid), pid)
  {
    var c := s.calls[pid];
    if c.CheckPending? || c.UpdateRead? || c.UpdateCas? {
      UpdateEnters(s, pid);
    } else if c.DropCode? || c.Holding? || c.Claimed? {
      PollStaysOut(s, pid);
    } else {
      ApprovalStaysOut(s, pid);
    }
  }

  lemma AloneKept(s: State, s': State, pid: nat, c: Call)
    requires Alone(s) && s'.calls == s.calls[pid := c]
    requires forall d :: InUpdate(c, d) ==> (pid in s.calls && InUpdate(s.calls[pid], d)) || !Overlap(s, pid, d)
    ensures Alone(s')
  {
    forall p, q, d | p in s'.calls && q in s'.calls && p != q && InUpdate(s'.calls[p], d)
      ensures !InUpdate(s'.calls[q], d)
    {
      if q == pid && InUpdate(c, d) {
        assert !(pid in s.calls && InUpdate(s.calls[pid], d));
        assert p in s.calls && InUpdate(s.calls[p], d);
        assert Overlap(s, pid, d);
      }
    }
  }

  /** Another handler's swap of this device is ruled out, so what a call saw stays. */
  lemma OtherCurrent(s: State, e: Event, p: nat)
    requires Inv(s) && Orderly(s) && p in s.calls && !(e.Go? && e.pid == p)
    requires forall d :: d in Step(s, e).codes && d < s.drawn ==> d in s.codes
    ensures Current(Step(s, e), s.calls[p])
  {
    assert Current(s, s.calls[p]);
    assert CallOk(s, p, s.calls[p]);
    if s.calls[p].UpdateRead? || s.calls[p].UpdateCas? {
      var d := s.calls[p].device;
      assert InUpdate(s.calls[p], d) && d < s.drawn;
      if d in s.codes {
        StepRewrites(s, e, d);
        assert e.Go? && e.pid in s.calls ==> !InUpdate(s.calls[e.pid], d);
      }
    }
  }

  lemma CodesOnlyGo(s: State, e: Event)
    requires Inv(s)
    ensures forall d :: d in Step(s, e).codes && d < s.drawn ==> d in s.codes
  {
    if e.Go? && e.pid in s.calls {
      GoMoves(s, e.pid);
    }
  }

  lemma GoOrderly(s: State, pid: nat)
    requires Inv(s) && Orderly(s) && pid in s.calls && !Operate(s, pid).overlapped
    ensures Orderly(Operate(s, pid))
  {
    var s' := Operate(s, pid);
    GoMoves(s, pid);
    GoEnters(s, pid);
    AloneKept(s, s', pid, s'.calls[pid]);
    forall p | p in s'.calls ensures Current(s', s'.calls[p]) {
      if p != pid {
        OtherCurrent(s, Go(pid), p);
      }
    }
  }

  lemma BeginOrderly(s: State, s': State, pid: nat, c: Call)
    requires Orderly(s) && s' == Set(s, pid, c) && !c.UpdateRead? && !c.UpdateCas?
    ensures Orderly(s')
  {
    AloneKept(s, s', pid, c);
    forall p | p in s'.calls ensures Current(s', s'.calls[p]) {
      if p != pid {
        assert Current(s, s.calls[p]);
      }
    }
  }

  lemma StepOrderly(s: State, e: Event)
    requires Inv(s) && Orderly(s) && !Step(s, e).overlapped
    ensures Orderly(Step(s, e))
  {
    match e {
      case Go(pid) => if pid in s.calls { GoOrderly(s, pid); }
      case LockOut(pid, code) =>
        if pid !in s.calls && code in s.byUserCode {
          BeginOrderly(s, Step(s, e), pid, CheckPending(s.byUserCode[code], Deny, false));
        }
      case Confirm(pid, token, approve) =>
        if pid !in s.calls {
          BeginOrderly(s, Step(s, e), pid, GetApproval(token, approve));
        }
      case Poll(pid, d, client) => if pid !in s.calls { BeginOrderly(s, Step(s, e), pid, Polled(s, d, client)); }
      case _ => NoCallOrderly(s, e);
    }
  }

  lemma NoCallOrderly(s: State, e: Event)
    requires Inv(s) && Orderly(s) && (e.Tick? || e.SetUser? || e.StartDevice? || e.Submit? || e.LoggedIn? || e.Expire?)
    ensures Orderly(Step(s, e))
  {
    CodesOnlyGo(s, e);
    assert Step(s, e).calls == s.calls;
    forall p | p in s.calls ensures Current(Step(s, e), s.calls[p]) {
      OtherCurrent(s, e, p);
    }
  }

  lemma OverlapForever(s: State, e: Event)
    requires s.overlapped
    ensures Step(s, e).overlapped
  {
    if e.Go? && e.pid in s.calls {
      OverlapKept(s, e.pid);
    }
  }

  lemma OverlapKept(s: State, pid: nat)
    requires pid in s.calls && s.overlapped
    ensures Operate(s, pid).overlapped
  {
    match s.calls[pid] {
      case CheckPending(d, v, timed) => assert Operate(s, pid) == CheckStep(s, pid, d, v, timed);
      case UpdateRead(d, v) => assert Operate(s, pid) == UpdateReadStep(s, pid, d, v);
      case UpdateCas(d, v, c, rev) => assert Operate(s, pid) == UpdateCasStep(s, pid, d, v, c, rev);
      case Holding(d, client, c, rev) => assert Operate(s, pid) == ConsumeStep(s, pid, d, client, c, rev);
      case Claimed(d, client, c) => assert Operate(s, pid) == MintStep(s, pid, d, client, c);
      case _ =>
    }
  }

  lemma {:induction false} RunOrderly(clock: nat, users: map<string, bool>, es: seq<Event>)
    requires !Run(Start(clock, users), es).overlapped
    ensures Orderly(Run(Start(clock, users), es))
  {
    if es != [] {
      var s := Run(Start(clock, users), es[..|es| - 1]);
      if s.overlapped {
        OverlapForever(s, es[|es| - 1]);
      }
      RunKeepsInv(clock, users, es[..|es| - 1]);
      RunOrderly(clock, users, es[..|es| - 1]);
      StepOrderly(s, es[|es| - 1]);
    }
  }

  /** Denied, or approved as the login recorded. */
  ghost predicate Settles(s: State, d: nat)
    requires d in s.codes
  {
    var c := s.codes[d].value;
    c.status.Denied?
    || (c.status.Approved? && c.user.Some? && ApprovedBy(s.h, d, c.user.value)
        && MadeFor(s.h, s.h.decisions[d].token, d, c.user.value))
  }

  /** RFC 8628: a stored device code changes only once, from pending to denied, or to
      approved for exactly the user and device the login recorded for the token. */
  lemma StatusMovesOnce(s: State, e: Event, d: nat)
    requires Reachable(s) && !Step(s, e).overlapped && d in s.codes && d in Step(s, e).codes
    ensures var s' := Step(s, e);
            var c, c' := s.codes[d].value, s'.codes[d].value;
            c' == c || (c.status.Pending? && Settles(s', d)
                        && c'.client == c.client && c'.scope == c.scope && c'.expiresAt == c.expiresAt)
  {
    if s.overlapped {
      OverlapForever(s, e);
    }
    var clock, users, es :| s == Run(Start(clock, users), es);
    RunOrderly(clock, users, es);
    ReachableInv(s);
    StepRewrites(s, e, d);
    if e.Go? && Swapping(s, e.pid, d) {
      SwapSettles(s, e.pid, d);
    }
  }

  lemma SwapSettles(s: State, pid: nat, d: nat)
    requires Inv(s) && Orderly(s) && Swapping(s, pid, d) && d in s.codes
    ensures var s' := Operate(s, pid);
            && d in s'.codes && Settles(s', d) && s.codes[d].value.status.Pending?
            && s'.codes[d].value.client == s.codes[d].value.client && s'.codes[d].value.scope == s.codes[d].value.scope
            && s'.codes[d].value.expiresAt == s.codes[d].value.expiresAt
  {
    var c := s.calls[pid];
    assert CallOk(s, pid, c) && Current(s, c);
    assert s.codes[d] == Cell(c.code, c.rev);
    assert Operate(s, pid) == UpdateCasStep(s, pid, d, c.verdict, c.code, c.rev);
    GoKeepsInv(s, pid);
    assert CodeOk(Operate(s, pid), d, Operate(s, pid).codes[d].value);
  }
}
