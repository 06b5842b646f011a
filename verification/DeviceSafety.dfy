/** What every run of the device grant keeps, however handlers and polls overlap: tokens
    are minted only after an approval, and at most once for each device code. */
module DeviceSafety {
  import opened Kv
  import opened Device

  // ----- the invariant -----

  ghost predicate MadeFor(h: History, token: nat, device: nat, user: string) {
    token in h.made && h.made[token].device == device && h.made[token].user == user
  }

  /** The user approved the device; the token was made for just this pair. */
  ghost predicate ApprovedBy(h: History, device: nat, user: string) {
    device in h.decisions && h.decisions[device].user == user
  }

  ghost predicate AsAsked(h: History, d: nat, client: string, scope: string) {
    d in h.started && h.started[d] == Asked(client, scope)
  }

  ghost predicate CodeOk(s: State, d: nat, c: DeviceCode) {
    && d < s.drawn && AsAsked(s.h, d, c.client, c.scope) && d !in s.h.won
    && (c.status.Approved? ==> c.user.Some? && ApprovedBy(s.h, d, c.user.value))
  }

  ghost predicate ApprovalOk(s: State, a: Approval) {
    a.device < s.drawn && a.device in s.h.started && s.h.started[a.device].client == a.client
  }

  ghost predicate VerdictOk(s: State, d: nat, v: Verdict) {
    d < s.drawn && (v.Approve? ==> MadeFor(s.h, v.token, d, v.user))
  }

  /** A record read at a revision: it is what is stored, if nothing was written since. */
  ghost predicate ReadAt(s: State, d: nat, c: DeviceCode, rev: nat) {
    && d < s.drawn && rev > 0 && AsAsked(s.h, d, c.client, c.scope)
    && (d in s.codes ==> rev <= s.codes[d].rev && (rev == s.codes[d].rev ==> s.codes[d].value == c))
  }

  ghost predicate CallOk(s: State, pid: nat, c: Call) {
    match c
    case DropApproval(token, a, _) => token in s.h.made && s.h.made[token] == a && ApprovalOk(s, a)
    case CheckPending(d, v, _) => VerdictOk(s, d, v)
    case UpdateRead(d, v) => VerdictOk(s, d, v)
    case UpdateCas(d, v, code, rev) => VerdictOk(s, d, v) && ReadAt(s, d, code, rev)
    case Holding(d, client, code, rev) => code.client == client && code.status.Approved? && ReadAt(s, d, code, rev)
    case Claimed(d, client, code) =>
      && code.client == client && AsAsked(s.h, d, code.client, code.scope) && d in s.h.won && s.h.won[d] == pid
      && code.user.Some? && ApprovedBy(s.h, d, code.user.value)
    case _ => true
  }

  ghost predicate MintOk(s: State, pid: nat, m: Mint) {
    AsAsked(s.h, m.device, m.client, m.scope) && ApprovedBy(s.h, m.device, m.user) && m.device in s.h.won
        && s.h.won[m.device] == pid
  }

  ghost predicate HistoryOk(s: State) {
    && (forall d :: d in s.h.started ==> d < s.drawn)
    && (forall d :: d in s.h.won ==> d < s.drawn)
    && (forall t :: t in s.h.made ==> t < s.drawn && ApprovalOk(s, s.h.made[t]))
    && (forall d :: d in s.h.decisions ==> d < s.drawn && MadeFor(s.h, s.h.decisions[d].token, d,
        s.h.decisions[d].user))
  }

  ghost predicate TablesOk(s: State) {
    && (forall d :: d in s.codes ==> s.codes[d].rev > 0 && CodeOk(s, d, s.codes[d].value))
    && (forall u :: u in s.byUserCode ==> s.byUserCode[u] in s.h.started)
    && (forall k :: k in s.sessions ==>
          s.sessions[k].device in s.h.started && s.h.started[s.sessions[k].device].client == s.sessions[k].client)
    && (forall t :: t in s.approvals ==> t in s.h.made && s.h.made[t] == s.approvals[t])
  }

  ghost predicate MintsOk(s: State) { forall pid :: pid in s.h.mints ==> MintOk(s, pid, s.h.mints[pid]) }

  ghost predicate Core(s: State) { HistoryOk(s) && TablesOk(s) && MintsOk(s) }

  ghost predicate Inv(s: State) {
    Core(s) && forall pid :: pid in s.calls ==> CallOk(s, pid, s.calls[pid])
  }

  // ----- what any step may change -----

  /** The decision on a consumed code is final. */
  ghost predicate DecisionsStand(s: State, s': State) {
    forall d :: d in s.h.won && d in s.h.decisions ==> d in s'.h.decisions && s'.h.decisions[d] == s.h.decisions[d]
  }

  /** History grows, and no code comes back or changes at one revision. */
  ghost predicate Grows(s: State, s': State) {
    && s.drawn <= s'.drawn
    && (forall d :: d in s.h.started ==> d in s'.h.started && s'.h.started[d] == s.h.started[d])
    && (forall t :: t in s.h.made ==> t in s'.h.made && s'.h.made[t] == s.h.made[t])
    && (forall d :: d in s.h.won ==> d in s'.h.won && s'.h.won[d] == s.h.won[d])
    && DecisionsStand(s, s')
    && (forall d :: d in s'.codes && d < s.drawn ==>
          d in s.codes && s.codes[d].rev <= s'.codes[d].rev
          && (s.codes[d].rev == s'.codes[d].rev ==> s'.codes[d] == s.codes[d]))
  }

  lemma CallKept(s: State, s': State, pid: nat, c: Call)
    requires Grows(s, s') && CallOk(s, pid, c)
    ensures CallOk(s', pid, c)
  {
    match c {
      case UpdateCas(_, _, _, _) =>
      case Holding(_, _, _, _) =>
      case _ =>
    }
  }

  ghost predicate GoodMove(s: State, s': State, pid: nat) {
    && Core(s') && Grows(s, s')
    && pid in s'.calls && CallOk(s', pid, s'.calls[pid]) && s'.calls == s.calls[pid := s'.calls[pid]]
  }

  lemma Moved(s: State, s': State, pid: nat)
    requires Inv(s) && GoodMove(s, s', pid)
    ensures Inv(s')
  {
    forall q | q in s'.calls ensures CallOk(s', q, s'.calls[q]) {
      if q != pid {
        CallKept(s, s', q, s.calls[q]);
      }
    }
  }

  // ----- the tables -----

  lemma CodesKept(s: State, s': State)
    requires TablesOk(s) && s.drawn <= s'.drawn && s'.h.decisions == s.h.decisions
    requires forall d :: d in s.h.started ==> d in s'.h.started && s'.h.started[d] == s.h.started[d]
    requires forall d :: d in s'.codes && d in s.codes && s'.codes[d] == s.codes[d] ==> d !in s'.h.won || d in s.h.won
    ensures forall d :: d in s'.codes && d in s.codes && s'.codes[d] == s.codes[d] ==> CodeOk(s', d, s'.codes[d].value)
  {
    forall d | d in s'.codes && d in s.codes && s'.codes[d] == s.codes[d] ensures CodeOk(s', d, s'.codes[d].value) {
      assert CodeOk(s, d, s.codes[d].value);
    }
  }

  /** Codes, sessions and approvals only removed; history and indices untouched. */
  ghost predicate Quiet(s: State, s': State) {
    && s'.h == s.h && s'.drawn == s.drawn && s'.byUserCode == s.byUserCode
    && (forall d :: d in s'.codes ==> d in s.codes && s'.codes[d] == s.codes[d])
    && (forall k :: k in s'.sessions ==> k in s.sessions && s'.sessions[k] == s.sessions[k])
    && (forall t :: t in s'.approvals ==> t in s.approvals && s'.approvals[t] == s.approvals[t])
  }

  lemma QuietKeepsCore(s: State, s': State)
    requires Core(s) && Quiet(s, s')
    ensures Core(s') && Grows(s, s')
  {
    forall p | p in s'.h.mints ensures MintOk(s', p, s'.h.mints[p]) {
      assert MintOk(s, p, s.h.mints[p]);
    }
  }

  lemma Settled(s: State, s': State, pid: nat, c: Call)
    requires Core(s) && CallOk(s, pid, c) && Quiet(s, s') && s'.calls == s.calls[pid := c]
    ensures GoodMove(s, s', pid)
  {
    QuietKeepsCore(s, s');
    CallKept(s, s', pid, c);
  }

  // ----- one lemma per step -----

  lemma CheckOk(s: State, pid: nat, d: nat, v: Verdict, timed: bool)
    requires Core(s) && VerdictOk(s, d, v)
    ensures GoodMove(s, CheckStep(s, pid, d, v, timed), pid)
  {
    assert CallOk(s, pid, Checked(s, d, v, timed));
    Settled(s, CheckStep(s, pid, d, v, timed), pid, Checked(s, d, v, timed));
  }

  lemma UpdateReadOk(s: State, pid: nat, d: nat, v: Verdict)
    requires Core(s) && pid in s.calls && s.calls[pid] == UpdateRead(d, v) && CallOk(s, pid, s.calls[pid])
    ensures GoodMove(s, UpdateReadStep(s, pid, d, v), pid)
  {
    Settled(s, UpdateReadStep(s, pid, d, v), pid, if d in s.codes
        then UpdateCas(d, v, s.codes[d].value, s.codes[d].rev) else Done);
  }

  ghost predicate Swaps(s: State, s': State, d: nat, v: Verdict, c: DeviceCode, rev: nat) {
    s' == s.(codes := s.codes[d := Cell(Decided(c, v), rev + 1)], calls := s'.calls,
             h := if v.Approve? then s.h.(decisions := s.h.decisions[d := Decision(v.token, v.user)]) else s.h)
  }

  lemma SwapHistory(s: State, s': State, d: nat, v: Verdict, c: DeviceCode, rev: nat)
    requires Core(s) && VerdictOk(s, d, v) && d in s.codes && s.codes[d] == Cell(c, rev) && Swaps(s, s', d, v, c, rev)
    ensures HistoryOk(s')
  {
    assert CodeOk(s, d, c);
  }

  lemma SwapTables(s: State, s': State, d: nat, v: Verdict, c: DeviceCode, rev: nat)
    requires Core(s) && d in s.codes && s.codes[d] == Cell(c, rev) && Swaps(s, s', d, v, c, rev)
    ensures TablesOk(s')
  {
    assert CodeOk(s, d, c);
    forall u | u in s'.codes ensures CodeOk(s', u, s'.codes[u].value) {
      if u != d {
        assert CodeOk(s, u, s.codes[u].value);
      }
    }
  }

  lemma MintsKept(s: State, s': State)
    requires MintsOk(s) && s'.h.mints == s.h.mints
    requires DecisionsStand(s, s')
    requires forall d :: d in s.h.started ==> d in s'.h.started && s'.h.started[d] == s.h.started[d]
    requires forall d :: d in s.h.won ==> d in s'.h.won && s'.h.won[d] == s.h.won[d]
    ensures MintsOk(s')
  {
    forall p | p in s'.h.mints ensures MintOk(s', p, s'.h.mints[p]) {
      assert MintOk(s, p, s.h.mints[p]);
    }
  }

  lemma UpdateCasGrows(s: State, s': State, pid: nat, d: nat, v: Verdict, c: DeviceCode, rev: nat)
    requires TablesOk(s) && pid in s.calls && s.calls[pid] == UpdateCas(d, v, c, rev)
    requires d in s.codes && s.codes[d] == Cell(c, rev) && Swaps(s, s', d, v, c, rev)
    ensures Grows(s, s')
  {
    assert CodeOk(s, d, c);
  }

  lemma UpdateCasCore(s: State, s': State, pid: nat, d: nat, v: Verdict, c: DeviceCode, rev: nat)
    requires Core(s) && pid in s.calls && s.calls[pid] == UpdateCas(d, v, c, rev) && VerdictOk(s, d, v)
    requires d in s.codes && s.codes[d] == Cell(c, rev) && Swaps(s, s', d, v, c, rev)
    ensures Core(s') && Grows(s, s')
  {
    UpdateCasGrows(s, s', pid, d, v, c, rev);
    SwapHistory(s, s', d, v, c, rev);
    SwapTables(s, s', d, v, c, rev);
    MintsKept(s, s');
  }

  lemma UpdateCasOk(s: State, pid: nat, d: nat, v: Verdict, c: DeviceCode, rev: nat)
    requires Core(s) && pid in s.calls && s.calls[pid] == UpdateCas(d, v, c, rev) && CallOk(s, pid, s.calls[pid])
    ensures GoodMove(s, UpdateCasStep(s, pid, d, v, c, rev), pid)
  {
    var s' := UpdateCasStep(s, pid, d, v, c, rev);
    if CasOk(s.codes, d, rev) {
      UpdateCasCore(s, s', pid, d, v, c, rev);
    } else {
      Settled(s, s', pid, Done);
    }
  }

  lemma PolledOk(s: State, pid: nat, d: nat, client: string)
    requires Core(s)
    ensures CallOk(s, pid, Polled(s, d, client))
  {
  }

  lemma ConsumeCore(s: State, s': State, pid: nat, d: nat, c: DeviceCode)
    requires Core(s) && d in s.codes && s.codes[d].value == c
    requires s' == s.(calls := s'.calls, codes := Delete(s.codes, d), h := s.h.(won := s.h.won[d := pid]))
    ensures Core(s') && Grows(s, s')
  {
    assert CodeOk(s, d, c);
    MintsKept(s, s');
    CodesKept(s, s');
  }

  lemma ConsumeWon(s: State, s': State, pid: nat, d: nat, client: string, c: DeviceCode, rev: nat)
    requires Core(s) && CallOk(s, pid, Holding(d, client, c, rev)) && d in s.codes && s.codes[d].rev == rev
    requires s' == s.(calls := s.calls[pid := Claimed(d, client, c)], codes := Delete(s.codes, d),
                      h := s.h.(won := s.h.won[d := pid]))
    ensures GoodMove(s, s', pid)
  {
    assert s.codes[d].value == c;
    assert CodeOk(s, d, c);
    ConsumeCore(s, s', pid, d, c);
  }

  lemma ConsumeOk(s: State, pid: nat, d: nat, client: string, c: DeviceCode, rev: nat)
    requires Core(s) && CallOk(s, pid, Holding(d, client, c, rev))
    ensures GoodMove(s, ConsumeStep(s, pid, d, client, c, rev), pid)
  {
    if d in s.codes && s.codes[d].rev == rev {
      ConsumeWon(s, ConsumeStep(s, pid, d, client, c, rev), pid, d, client, c, rev);
    } else {
      assert ConsumeStep(s, pid, d, client, c, rev) == Set(s, pid, Replied(Consumed));
      Settled(s, Set(s, pid, Replied(Consumed)), pid, Replied(Consumed));
    }
  }

  lemma MintCore(s: State, s': State, pid: nat, m: Mint)
    requires Core(s) && MintOk(s, pid, m) && s' == s.(calls := s'.calls, h := s.h.(mints := s.h.mints[pid := m]))
    ensures Core(s') && Grows(s, s')
  {
    CodesKept(s, s');
    forall p | p in s'.h.mints ensures MintOk(s', p, s'.h.mints[p]) {
      if p != pid {
        assert MintOk(s, p, s.h.mints[p]);
      }
    }
  }

  lemma MintStepOk(s: State, pid: nat, d: nat, client: string, c: DeviceCode)
    requires Core(s) && CallOk(s, pid, Claimed(d, client, c))
    ensures GoodMove(s, MintStep(s, pid, d, client, c), pid)
  {
    if c.user.value in s.users && s.users[c.user.value] {
      Minted(s, MintStep(s, pid, d, client, c), pid, d, client, c);
    } else {
      assert MintStep(s, pid, d, client, c) == Set(s, pid, Replied(NotActive));
      Settled(s, Set(s, pid, Replied(NotActive)), pid, Replied(NotActive));
    }
  }

  lemma Minted(s: State, s': State, pid: nat, d: nat, client: string, c: DeviceCode)
    requires Core(s) && CallOk(s, pid, Claimed(d, client, c))
    requires s' == Set(s, pid, Replied(Issued))
                     .(h := s.h.(mints := s.h.mints[pid := Mint(d, c.user.value, client, c.scope)]))
    ensures GoodMove(s, s', pid)
  {
    assert MintOk(s, pid, Mint(d, c.user.value, client, c.scope));
    MintCore(s, s', pid, Mint(d, c.user.value, client, c.scope));
  }

  lemma BrowserGoOk(s: State, pid: nat)
    requires Core(s) && pid in s.calls && CallOk(s, pid, s.calls[pid])
    requires var c := s.calls[pid];
             c.GetApproval? || c.DropApproval? || c.CheckPending? || c.UpdateRead? || c.UpdateCas?
    ensures GoodMove(s, Operate(s, pid), pid)
  {
    match s.calls[pid] {
      case GetApproval(token, approve) => ApprovalFound(s, pid, token, approve);
      case DropApproval(token, a, approve) => ApprovalTaken(s, pid, token, a, approve);
      case CheckPending(d, v, timed) => CheckOk(s, pid, d, v, timed);
      case UpdateRead(d, v) => UpdateReadOk(s, pid, d, v);
      case UpdateCas(d, v, c, rev) => UpdateCasOk(s, pid, d, v, c, rev);
    }
  }

  lemma ApprovalFound(s: State, pid: nat, token: nat, approve: bool)
    requires Core(s) && pid in s.calls && s.calls[pid] == GetApproval(token, approve)
    ensures GoodMove(s, Operate(s, pid), pid)
  {
    var c := if token in s.approvals then DropApproval(token, s.approvals[token], approve) else Done;
    assert CallOk(s, pid, c);
    Settled(s, Operate(s, pid), pid, c);
  }

  lemma ApprovalTaken(s: State, pid: nat, token: nat, a: Approval, approve: bool)
    requires Core(s) && pid in s.calls && s.calls[pid] == DropApproval(token, a, approve)
             && CallOk(s, pid, s.calls[pid])
    ensures GoodMove(s, Operate(s, pid), pid)
  {
    Settled(s, Operate(s, pid), pid, CheckPending(a.device, if approve then Approve(a.user, a.sid, token) else Deny,
        true));
  }

  lemma PollGoOk(s: State, pid: nat)
    requires Core(s) && pid in s.calls && CallOk(s, pid, s.calls[pid])
    requires var c := s.calls[pid]; c.DropCode? || c.Holding? || c.Claimed? || c.Replied? || c.Done?
    ensures GoodMove(s, Operate(s, pid), pid)
  {
    match s.calls[pid] {
      case DropCode(d, reply) => Settled(s, Operate(s, pid), pid, Replied(reply));
      case Holding(d, client, c, rev) => ConsumeOk(s, pid, d, client, c, rev);
      case Claimed(d, client, c) => MintStepOk(s, pid, d, client, c);
      case Replied(_) => Settled(s, Operate(s, pid), pid, s.calls[pid]);
      case Done => Settled(s, Operate(s, pid), pid, Done);
    }
  }

  // ----- steps without a call -----

  lemma StartTables(s: State, userCode: string, client: string, scope: string)
    requires HistoryOk(s) && TablesOk(s)
    ensures TablesOk(StartStep(s, userCode, client, scope))
  {
    CodesKept(s, StartStep(s, userCode, client, scope));
  }

  lemma StartHistory(s: State, userCode: string, client: string, scope: string)
    requires HistoryOk(s) && (forall d :: d in s.codes ==> d < s.drawn)
    ensures HistoryOk(StartStep(s, userCode, client, scope)) && Grows(s, StartStep(s, userCode, client, scope))
  {
  }

  lemma StartOk(s: State, userCode: string, client: string, scope: string)
    requires Core(s)
    ensures Core(StartStep(s, userCode, client, scope)) && Grows(s, StartStep(s, userCode, client, scope))
  {
    assert forall d :: d in s.codes ==> CodeOk(s, d, s.codes[d].value);
    StartTables(s, userCode, client, scope);
    StartHistory(s, userCode, client, scope);
    MintsKept(s, StartStep(s, userCode, client, scope));
  }

  /** A step that notes a session or an approval and leaves codes and decisions alone. */
  lemma NotedOk(s: State, s': State)
    requires Core(s) && s.drawn <= s'.drawn && s'.codes == s.codes && s'.byUserCode == s.byUserCode
    requires s'.h == s.h.(made := s'.h.made) && (forall t :: t in s.h.made ==>
               t in s'.h.made && s'.h.made[t] == s.h.made[t])
    requires forall t :: t in s'.h.made ==> t < s'.drawn && ApprovalOk(s', s'.h.made[t])
    requires forall k :: k in s'.sessions ==>
               s'.sessions[k].device in s.h.started && s.h.started[s'.sessions[k].device].client ==
                   s'.sessions[k].client
    requires forall t :: t in s'.approvals ==> t in s'.h.made && s'.h.made[t] == s'.approvals[t]
    ensures Core(s') && Grows(s, s')
  {
    MintsKept(s, s');
    CodesKept(s, s');
  }

  lemma SubmitOk(s: State, userCode: string)
    requires Core(s)
    ensures Core(SubmitStep(s, userCode)) && Grows(s, SubmitStep(s, userCode))
  {
    if Enterable(s, userCode) {
      assert CodeOk(s, s.byUserCode[userCode], s.codes[s.byUserCode[userCode]].value);
    }
    NotedOk(s, SubmitStep(s, userCode));
  }

  lemma LoggedInOk(s: State, session: nat, user: string)
    requires Core(s)
    ensures Core(LoggedInStep(s, session, user)) && Grows(s, LoggedInStep(s, session, user))
  {
    if session in s.sessions {
      var se := s.sessions[session];
      ApprovalNoted(s, session, user, Approval(se.device, user, se.client, se.sid));
    } else {
      QuietKeepsCore(s, s);
    }
  }

  lemma ApprovalNoted(s: State, session: nat, user: string, a: Approval)
    requires Core(s) && session in s.sessions
    requires a == Approval(s.sessions[session].device, user, s.sessions[session].client, s.sessions[session].sid)
    ensures Core(LoggedInStep(s, session, user)) && Grows(s, LoggedInStep(s, session, user))
  {
    var s' := LoggedInStep(s, session, user);
    assert s'.h == s.h.(made := s.h.made[s.drawn := a]) && ApprovalOk(s, a);
    NotedOk(s, s');
  }

  lemma Around(s: State, s': State)
    requires Inv(s) && Core(s') && Grows(s, s') && s'.calls == s.calls
    ensures Inv(s')
  {
    forall pid | pid in s.calls ensures CallOk(s', pid, s.calls[pid]) {
      CallKept(s, s', pid, s.calls[pid]);
    }
  }

  lemma GoMoves(s: State, pid: nat)
    requires Inv(s) && pid in s.calls
    ensures GoodMove(s, Operate(s, pid), pid)
  {
    var c := s.calls[pid];
    if c.DropCode? || c.Holding? || c.Claimed? || c.Replied? || c.Done? {
      PollGoOk(s, pid);
    } else {
      BrowserGoOk(s, pid);
    }
  }

  lemma GoKeepsInv(s: State, pid: nat)
    requires Inv(s) && pid in s.calls
    ensures Inv(Operate(s, pid))
  {
    GoMoves(s, pid);
    Moved(s, Operate(s, pid), pid);
  }

  lemma CallKeepsInv(s: State, pid: nat, c: Call)
    requires Inv(s) && pid !in s.calls && CallOk(s, pid, c)
    ensures Inv(Set(s, pid, c))
  {
    Settled(s, Set(s, pid, c), pid, c);
    Moved(s, Set(s, pid, c), pid);
  }

  lemma StartKeepsInv(s: State, userCode: string, client: string, scope: string)
    requires Inv(s)
    ensures Inv(StartStep(s, userCode, client, scope))
  {
    StartOk(s, userCode, client, scope);
    assert s.drawn in s.codes ==> CodeOk(s, s.drawn, s.codes[s.drawn].value);
    Around(s, StartStep(s, userCode, client, scope));
  }

  lemma SubmitKeepsInv(s: State, userCode: string)
    requires Inv(s)
    ensures Inv(SubmitStep(s, userCode))
  {
    SubmitOk(s, userCode);
    Around(s, SubmitStep(s, userCode));
  }

  lemma LoggedInKeepsInv(s: State, session: nat, user: string)
    requires Inv(s)
    ensures Inv(LoggedInStep(s, session, user))
  {
    LoggedInOk(s, session, user);
    Around(s, LoggedInStep(s, session, user));
  }

  lemma StepKeepsInv(s: State, e: Event)
    requires Inv(s)
    ensures Inv(Step(s, e))
  {
    match e {
      case StartDevice(userCode, client, scope) => StartKeepsInv(s, userCode, client, scope);
      case Submit(userCode) => SubmitKeepsInv(s, userCode);
      case LoggedIn(session, user) => LoggedInKeepsInv(s, session, user);
      case LockOut(pid, userCode) =>
        if pid !in s.calls && userCode in s.byUserCode {
          CallKeepsInv(s, pid, CheckPending(s.byUserCode[userCode], Deny, false));
        }
      case Confirm(pid, token, approve) =>
        if pid !in s.calls {
          CallKeepsInv(s, pid, GetApproval(token, approve));
        }
      case Poll(pid, d, client) =>
        if pid !in s.calls {
          PolledOk(s, pid, d, client);
          CallKeepsInv(s, pid, Polled(s, d, client));
        }
      case Go(pid) =>
        if pid in s.calls {
          GoKeepsInv(s, pid);
        }
      case _ => Environment(s, e);
    }
  }

  lemma Environment(s: State, e: Event)
    requires Inv(s) && (e.Tick? || e.SetUser? || e.Expire?)
    ensures Inv(Step(s, e))
  {
    QuietKeepsCore(s, Step(s, e));
    Around(s, Step(s, e));
  }

  lemma {:induction false} RunKeepsInv(clock: nat, users: map<string, bool>, es: seq<Event>)
    ensures Inv(Run(Start(clock, users), es))
  {
    if es != [] {
      RunKeepsInv(clock, users, es[..|es| - 1]);
      StepKeepsInv(Run(Start(clock, users), es[..|es| - 1]), es[|es| - 1]);
    }
  }

  lemma ReachableInv(s: State)
    requires Reachable(s)
    ensures Inv(s)
  {
    var clock, users, es :| s == Run(Start(clock, users), es);
    RunKeepsInv(clock, users, es);
  }

  // ----- the guarantees -----

  ghost predicate Entitled(h: History, m: Mint) {
    && ApprovedBy(h, m.device, m.user)
    && MadeFor(h, h.decisions[m.device].token, m.device, m.user)
    && h.made[h.decisions[m.device].token].client == m.client
    && AsAsked(h, m.device, m.client, m.scope)
  }

  /** RFC 8628 section 3.5: tokens are minted only after an approval, for the user the
      login recorded for that device, with the client and scope the device asked for;
      and at most once for each device code. */
  lemma MintsAreApproved(s: State)
    requires Reachable(s)
    ensures forall pid :: pid in s.h.mints ==> Entitled(s.h, s.h.mints[pid])
    ensures forall p, q :: p in s.h.mints && q in s.h.mints && p != q ==> s.h.mints[p].device != s.h.mints[q].device
  {
    ReachableInv(s);
    forall pid | pid in s.h.mints ensures MintOk(s, pid, s.h.mints[pid]) && Entitled(s.h, s.h.mints[pid]) {
      assert MintOk(s, pid, s.h.mints[pid]);
      assert ApprovalOk(s, s.h.made[s.h.decisions[s.h.mints[pid].device].token]);
    }
  }
}
