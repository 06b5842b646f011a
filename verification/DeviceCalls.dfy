/** The device handlers as they run: every execution is a run of the transition system
    in Device. */
module DeviceCalls {
  import opened Kv
  import opened Device

  predicate Owns(e: Event, pid: nat) {
    (e.LockOut? || e.Confirm? || e.Poll? || e.Go?) && e.pid == pid
  }

  predicate ByOthers(es: seq<Event>, pid: nat) { forall i :: 0 <= i < |es| ==> !Owns(es[i], pid) }

  /** A step moves no call but its own. */
  ghost predicate OwnOnly(s: State, s': State, pid: nat) {
    pid in s'.calls && s'.calls == s.calls[pid := s'.calls[pid]]
  }

  lemma BrowserOwn(s: State, pid: nat)
    requires pid in s.calls
    requires var c := s.calls[pid]; c.CheckPending? || c.UpdateRead? || c.UpdateCas?
    ensures OwnOnly(s, Operate(s, pid), pid)
  {
    match s.calls[pid] {
      case CheckPending(d, v, timed) => assert Operate(s, pid) == CheckStep(s, pid, d, v, timed);
      case UpdateRead(d, v) => assert Operate(s, pid) == UpdateReadStep(s, pid, d, v);
      case UpdateCas(d, v, c, rev) => assert Operate(s, pid) == UpdateCasStep(s, pid, d, v, c, rev);
    }
  }

  lemma OnlyOwnEntry(s: State, pid: nat)
    requires pid in s.calls
    ensures OwnOnly(s, Operate(s, pid), pid)
  {
    match s.calls[pid] {
      case CheckPending(_, _, _) => BrowserOwn(s, pid);
      case UpdateRead(_, _) => BrowserOwn(s, pid);
      case UpdateCas(_, _, _, _) => BrowserOwn(s, pid);
      case Holding(_, _, _, _) => PollOwn(s, pid);
      case Claimed(_, _, _) => PollOwn(s, pid);
      case _ =>
    }
  }

  lemma PollOwn(s: State, pid: nat)
    requires pid in s.calls && (s.calls[pid].Holding? || s.calls[pid].Claimed?)
    ensures OwnOnly(s, Operate(s, pid), pid)
  {
    match s.calls[pid] {
      case Holding(d, client, c, rev) => assert Operate(s, pid) == ConsumeStep(s, pid, d, client, c, rev);
      case Claimed(d, client, c) => assert Operate(s, pid) == MintStep(s, pid, d, client, c);
    }
  }

  lemma OthersStep(s: State, e: Event, pid: nat)
    requires !Owns(e, pid)
    ensures pid in Step(s, e).calls <==> pid in s.calls
    ensures pid in s.calls ==> Step(s, e).calls[pid] == s.calls[pid]
  {
    if e.Go? && e.pid in s.calls {
      OnlyOwnEntry(s, e.pid);
    }
  }

  lemma {:induction false} OthersLeave(s: State, es: seq<Event>, pid: nat)
    requires ByOthers(es, pid)
    ensures pid in Run(s, es).calls <==> pid in s.calls
    ensures pid in s.calls ==> Run(s, es).calls[pid] == s.calls[pid]
  {
    if es != [] {
      OthersLeave(s, es[..|es| - 1], pid);
      OthersStep(Run(s, es[..|es| - 1]), es[|es| - 1], pid);
    }
  }

  lemma {:induction false} RunConcat(s: State, es: seq<Event>, fs: seq<Event>)
    ensures Run(s, es + fs) == Run(Run(s, es), fs)
  {
    if fs == [] {
      assert es + fs == es;
    } else {
      RunConcat(s, es, fs[..|fs| - 1]);
      assert (es + fs)[..|es + fs| - 1] == es + fs[..|fs| - 1];
    }
  }

  class DeviceEndpoint {
    var st: State

    constructor (s: State)
      ensures st == s
    {
      st := s;
    }

    /** Any number of steps of browsers, of other polls and of the clock. */
    method Others(pid: nat) returns (ghost es: seq<Event>)
      modifies this
      ensures ByOthers(es, pid) && st == Run(old(st), es)
      ensures pid in st.calls <==> pid in old(st).calls
      ensures pid in st.calls ==> st.calls[pid] == old(st).calls[pid]
    {
      var some: seq<Event> := *;
      es := [];
      if ByOthers(some, pid) {
        es := some;
        OthersLeave(st, some, pid);
        st := Run(st, some);
      }
    }

    ghost method Extended(s0: State, es: seq<Event>, fs: seq<Event>, e: Event) returns (all: seq<Event>)
      requires st == Run(Run(s0, es), fs)
      ensures Run(s0, all) == Step(st, e) && all == es + fs + [e]
    {
      RunConcat(s0, es, fs);
      all := es + fs + [e];
      assert all[..|all| - 1] == es + fs;
    }

    ghost method Joined(s0: State, es: seq<Event>, fs: seq<Event>) returns (all: seq<Event>)
      requires st == Run(Run(s0, es), fs)
      ensures st == Run(s0, all) && all == es + fs
    {
      RunConcat(s0, es, fs);
      all := es + fs;
    }

    method Place(pid: nat, c: Call)
      modifies this
      ensures st == Set(old(st), pid, c)
    {
      st := st.(calls := st.calls[pid := c]);
    }

    method CreateApproval(session: nat, user: string) returns (token: Option<nat>)
      modifies this
      ensures st == Step(old(st), LoggedIn(session, user))
      ensures token.Some? ==> token.value in st.approvals && st.approvals[token.value].user == user
    {
      token := None;
      if session !in st.sessions { return; }
      var se := st.sessions[session];
      var record := Approval(se.device, user, se.client, se.sid);
      token := Some(st.drawn);
      st := st.(sessions := st.sessions - {session}, drawn := st.drawn + 1,
          approvals := st.approvals[st.drawn := record],
                h := st.h.(made := st.h.made[st.drawn := record]));
    }

    // ----- the confirmation page -----

    method TakeApproval(pid: nat, token: nat, approve: bool) returns (a: Option<Approval>)
      requires pid in st.calls && st.calls[pid] == GetApproval(token, approve)
      modifies this
      ensures st == Step(old(st), Go(pid)) && pid in st.calls
      ensures st.calls[pid] == if a.Some? then DropApproval(token, a.value, approve) else Done
    {
      if token in st.approvals {
        a := Some(st.approvals[token]);
        Place(pid, DropApproval(token, a.value, approve));
      } else {
        a := None;
        Place(pid, Done);
      }
    }

    method DeleteApproval(pid: nat, token: nat, a: Approval, approve: bool) returns (v: Verdict)
      requires pid in st.calls && st.calls[pid] == DropApproval(token, a, approve)
      modifies this
      ensures st == Step(old(st), Go(pid)) && pid in st.calls && st.calls[pid] == CheckPending(a.device, v, true)
    {
      v := if approve then Approve(a.user, a.sid, token) else Deny;
      st := st.(approvals := st.approvals - {token});
      Place(pid, CheckPending(a.device, v, true));
    }

    method CheckStatus(pid: nat, d: nat, v: Verdict, timed: bool) returns (ok: bool)
      requires pid in st.calls && st.calls[pid] == CheckPending(d, v, timed)
      modifies this
      ensures st == Step(old(st), Go(pid)) && pid in st.calls && st.calls[pid] == if ok then UpdateRead(d, v) else Done
    {
      ok := d in st.codes;
      if ok && timed && st.clock > st.codes[d].value.expiresAt {
        ok := false;
      } else if ok && !st.codes[d].value.status.Pending? {
        ok := false;
      }
      var overlap := ok && Overlap(st, pid, d);
      st := st.(calls := st.calls[pid := if ok then UpdateRead(d, v) else Done],
                overlapped := st.overlapped || overlap);
    }

    method ReadCode(pid: nat, d: nat, v: Verdict) returns (found: Option<Cell<DeviceCode>>)
      requires pid in st.calls && st.calls[pid] == UpdateRead(d, v)
      modifies this
      ensures st == Step(old(st), Go(pid)) && pid in st.calls
      ensures st.calls[pid] == if found.Some? then UpdateCas(d, v, found.value.value, found.value.rev) else Done
    {
      found := if d in st.codes then Some(st.codes[d]) else None;
      Place(pid, if d in st.codes then UpdateCas(d, v, st.codes[d].value, st.codes[d].rev) else Done);
    }

    static method WithVerdict(c: DeviceCode, v: Verdict) returns (dc: DeviceCode)
      ensures dc == Decided(c, v)
    {
      dc := c;
      match v {
        case Approve(user, sid, _) =>
          dc := dc.(status := Approved, user := Some(user));
          if sid.Some? { dc := dc.(sid := sid); }
        case Deny =>
          dc := dc.(status := Denied, user := None);
      }
    }

    method SwapCode(pid: nat, d: nat, v: Verdict, c: DeviceCode, rev: nat)
      requires pid in st.calls && st.calls[pid] == UpdateCas(d, v, c, rev)
      modifies this
      ensures st == Step(old(st), Go(pid)) && pid in st.calls && st.calls[pid] == Done
    {
      var dc := WithVerdict(c, v);
      if CasOk(st.codes, d, rev) {
        st := st.(codes := Cas(st.codes, d, dc, rev));
        if v.Approve? {
          st := st.(h := st.h.(decisions := st.h.decisions[d := Decision(v.token, v.user)]));
        }
      }
      Place(pid, Done);
    }

    method UpdateStatus(pid: nat, d: nat, v: Verdict) returns (ghost es: seq<Event>)
      requires pid in st.calls && st.calls[pid] == UpdateRead(d, v)
      modifies this
      ensures st == Run(old(st), es) && pid in st.calls && st.calls[pid] == Done
    {
      ghost var fs := Others(pid);
      es := Extended(old(st), [], fs, Go(pid));
      var found := ReadCode(pid, d, v);
      if found.Some? {
        fs := Others(pid);
        es := Extended(old(st), es, fs, Go(pid));
        SwapCode(pid, d, v, found.value.value, found.value.rev);
      }
    }

    method HandleConfirmation(pid: nat, token: nat, approve: bool) returns (ghost trace: seq<Event>)
      requires pid !in st.calls
      modifies this
      ensures st == Run(old(st), trace) && pid in st.calls && st.calls[pid] == Done
    {
      ghost var fs := Others(pid);
      trace := Extended(old(st), [], fs, Confirm(pid, token, approve));
      Place(pid, GetApproval(token, approve));
      fs := Others(pid);
      trace := Extended(old(st), trace, fs, Go(pid));
      var a := TakeApproval(pid, token, approve);
      if a.None? { return; }
      fs := Others(pid);
      trace := Extended(old(st), trace, fs, Go(pid));
      var v := DeleteApproval(pid, token, a.value, approve);
      fs := Decide(pid, a.value.device, v);
      trace := Joined(old(st), trace, fs);
    }

    method Decide(pid: nat, d: nat, v: Verdict) returns (ghost es: seq<Event>)
      requires pid in st.calls && st.calls[pid] == CheckPending(d, v, true)
      modifies this
      ensures st == Run(old(st), es) && pid in st.calls && st.calls[pid] == Done
    {
      ghost var fs := Others(pid);
      es := Extended(old(st), [], fs, Go(pid));
      var ok := CheckStatus(pid, d, v, true);
      if ok {
        fs := UpdateStatus(pid, d, v);
        es := Joined(old(st), es, fs);
      }
    }

    // ----- polling -----

    method ReadForPoll(d: nat, client: string) returns (c: Call)
      ensures c == Polled(st, d, client)
    {
      if d !in st.codes { return Replied(NotFound); }
      var dc, revision := st.codes[d].value, st.codes[d].rev;
      if dc.client != client { return Replied(OtherClient); }
      if st.clock > dc.expiresAt { return DropCode(d, Expired); }
      match dc.status {
        case Pending => return Replied(StillPending);
        case Denied => return DropCode(d, Refused);
        case Approved => return Holding(d, client, dc, revision);
      }
    }

    /** `consume_device_code_cas`. */
    method Consume(pid: nat, d: nat, client: string, c: DeviceCode, rev: nat) returns (ok: bool)
      requires pid in st.calls && st.calls[pid] == Holding(d, client, c, rev)
      modifies this
      ensures st == Step(old(st), Go(pid)) && pid in st.calls
      ensures st.calls[pid] == if ok then Claimed(d, client, c) else Replied(Consumed)
    {
      ok := d in st.codes && st.codes[d].rev == rev;
      if ok {
        st := st.(codes := st.codes - {d}, h := st.h.(won := st.h.won[d := pid]));
        Place(pid, Claimed(d, client, c));
      } else {
        Place(pid, Replied(Consumed));
      }
    }

    method MintTokens(pid: nat, d: nat, client: string, c: DeviceCode) returns (reply: Reply)
      requires pid in st.calls && st.calls[pid] == Claimed(d, client, c)
      modifies this
      ensures st == Step(old(st), Go(pid)) && pid in st.calls && st.calls[pid] == Replied(reply)
      ensures reply == if c.user.Some? && c.user.value in st.users && st.users[c.user.value] then Issued else NotActive
      ensures reply.Issued? ==>
                pid in st.h.mints && c.user.Some? && st.h.mints[pid] == Mint(d, c.user.value, client, c.scope)
    {
      reply := NotActive;
      if c.user.Some? && c.user.value in st.users && st.users[c.user.value] {
        reply := Issued;
        st := st.(h := st.h.(mints := st.h.mints[pid := Mint(d, c.user.value, client, c.scope)]));
      }
      Place(pid, Replied(reply));
    }

    method Redeem(pid: nat, d: nat, client: string, c: DeviceCode, rev: nat) returns (reply: Reply,
        ghost es: seq<Event>)
      requires pid in st.calls && st.calls[pid] == Holding(d, client, c, rev)
      modifies this
      ensures st == Run(old(st), es) && pid in st.calls && st.calls[pid] == Replied(reply)
      ensures reply in {Consumed, NotActive, Issued}
      ensures reply.Issued? ==>
                pid in st.h.mints && c.user.Some? && st.h.mints[pid] == Mint(d, c.user.value, client, c.scope)
    {
      reply := Consumed;
      ghost var fs := Others(pid);
      es := Extended(old(st), [], fs, Go(pid));
      var ok := Consume(pid, d, client, c, rev);
      if ok {
        fs := Others(pid);
        es := Extended(old(st), es, fs, Go(pid));
        reply := MintTokens(pid, d, client, c);
      }
    }

    /** The answer fits the code as it was read, after the steps `before` of others. */
    method HandleDeviceCode(pid: nat, d: nat, client: string)
      returns (reply: Reply, ghost before: seq<Event>, ghost trace: seq<Event>)
      requires pid !in st.calls
      modifies this
      ensures st == Run(old(st), trace) && pid in st.calls && st.calls[pid] == Replied(reply)
      ensures ByOthers(before, pid) && before + [Poll(pid, d, client)] <= trace
      ensures Answers(Run(old(st), before), d, client, reply)
      ensures reply.Issued? ==> pid in st.h.mints && st.h.mints[pid].device == d && st.h.mints[pid].client == client
    {
      before := Others(pid);
      trace := Extended(old(st), [], before, Poll(pid, d, client));
      assert trace == before + [Poll(pid, d, client)];
      var c := ReadForPoll(d, client);
      Place(pid, c);
      ghost var fs := [];
      match c {
        case Replied(now) => reply := now;
        case DropCode(_, after) =>
          reply := after;
          fs := DropPolled(pid, d, after);
        case Holding(_, _, dc, rev) => reply, fs := Redeem(pid, d, client, dc, rev);
      }
      trace := Joined(old(st), trace, fs);
    }

    method DropPolled(pid: nat, d: nat, reply: Reply) returns (ghost es: seq<Event>)
      requires pid in st.calls && st.calls[pid] == DropCode(d, reply)
      modifies this
      ensures st == Run(old(st), es) && pid in st.calls && st.calls[pid] == Replied(reply)
    {
      ghost var fs := Others(pid);
      es := Extended(old(st), [], fs, Go(pid));
      st := st.(codes := st.codes - {d});
      Place(pid, Replied(reply));
    }
  }

  /** What a poll may answer, by the code as it was read. */
  ghost predicate Answers(s: State, d: nat, client: string, reply: Reply) {
    && (reply.NotFound? <==> d !in s.codes)
    && (reply.OtherClient? <==> d in s.codes && s.codes[d].value.client != client)
    && (reply.Expired? <==> d in s.codes && s.codes[d].value.client == client && s.clock > s.codes[d].value.expiresAt)
    && (reply.StillPending? || reply.Refused? || reply.Consumed? || reply.NotActive? || reply.Issued? <==>
          d in s.codes && s.codes[d].value.client == client && s.clock <= s.codes[d].value.expiresAt)
    && (reply.StillPending? ==> s.codes[d].value.status.Pending?)
    && (reply.Refused? ==> s.codes[d].value.status.Denied?)
    && (reply.Consumed? || reply.NotActive? || reply.Issued? ==> s.codes[d].value.status.Approved?)
  }
}
