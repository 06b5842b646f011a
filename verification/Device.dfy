/** The device grant: codes are started, entered, confirmed and polled, one store
    operation at a time. */
module Device {
  import opened Kv

  const EXPIRES_IN: nat := 300

  datatype Status = Pending | Approved | Denied

  datatype DeviceCode = DeviceCode(
    userCode: string,
    client: string,
    scope: string,
    expiresAt: nat,
    status: Status,
    user: Option<string>,
    sid: Option<nat>)

  /** A login session of the device flow carries the device code. */
  datatype Session = Session(device: nat, client: string, sid: Option<nat>)

  /** What the login leaves for the confirmation page: who may approve which device. */
  datatype Approval = Approval(device: nat, user: string, client: string, sid: Option<nat>)

  /** What a browser handler is about to do to a device code. */
  datatype Verdict = Approve(user: string, sid: Option<nat>, token: nat) | Deny

  /** The answers to a poll, RFC 8628 section 3.5 and 3.4. */
  datatype Reply = NotFound | OtherClient | Expired | StillPending | Refused | Consumed | NotActive | Issued

  datatype Call =
    | GetApproval(token: nat, approve: bool)
    | DropApproval(token: nat, record: Approval, approve: bool)
    | CheckPending(device: nat, verdict: Verdict, timed: bool)
    | UpdateRead(device: nat, verdict: Verdict)
    | UpdateCas(device: nat, verdict: Verdict, code: DeviceCode, rev: nat)
    | DropCode(device: nat, reply: Reply)
    | Holding(device: nat, client: string, code: DeviceCode, rev: nat)
    | Claimed(device: nat, client: string, code: DeviceCode)
    | Replied(reply: Reply)
    | Done

  datatype Mint = Mint(device: nat, user: string, client: string, scope: string)

  datatype Decision = Decision(token: nat, user: string)

  datatype Asked = Asked(client: string, scope: string)

  /** History: what each device asked for, the approvals created, the approval carried
      out for a device, which poll consumed each device code, and the tokens minted by poll. */
  datatype History = History(
    started: map<nat, Asked>,
    made: map<nat, Approval>,
    decisions: map<nat, Decision>,
    won: map<nat, nat>,
    mints: map<nat, Mint>)

  /** `overlapped` says that a browser handler found a device pending while another was
      between that check and its write. */
  datatype State = State(
    clock: nat,
    drawn: nat,
    codes: Table<nat, DeviceCode>,
    byUserCode: map<string, nat>,
    sessions: map<nat, Session>,
    approvals: map<nat, Approval>,
    users: map<string, bool>,
    calls: map<nat, Call>,
    h: History,
    overlapped: bool)

  datatype Event =
    | Tick(seconds: nat)
    | SetUser(user: string, active: bool)
    | StartDevice(userCode: string, client: string, scope: string)
    | Submit(userCode: string)
    | LockOut(pid: nat, userCode: string)
    | LoggedIn(session: nat, user: string)
    | Confirm(pid: nat, token: nat, approve: bool)
    | Poll(pid: nat, device: nat, client: string)
    | Go(pid: nat)
    | Expire(key: nat)

  function Set(s: State, pid: nat, c: Call): State { s.(calls := s.calls[pid := c]) }

  // ----- browser -----

  function StartStep(s: State, userCode: string, client: string, scope: string): State {
    var d := s.drawn;
    s.(drawn := d + 1, byUserCode := s.byUserCode[userCode := d],
        h := s.h.(started := s.h.started[d := Asked(client, scope)]),
       codes := Put(s.codes, d, DeviceCode(userCode, client, scope, s.clock + EXPIRES_IN, Pending, None, None)))
  }

  predicate Enterable(s: State, userCode: string) {
    && userCode in s.byUserCode && s.byUserCode[userCode] in s.codes
    && s.clock <= s.codes[s.byUserCode[userCode]].value.expiresAt
    && s.codes[s.byUserCode[userCode]].value.status.Pending?
  }

  function SubmitStep(s: State, userCode: string): State {
    if !Enterable(s, userCode) then s
    else
      var d := s.byUserCode[userCode];
      s.(drawn := s.drawn + 2,
         sessions := s.sessions[s.drawn := Session(d, s.codes[d].value.client, Some(s.drawn + 1))])
  }

  /** `create_approval`, once the login of a device session is complete. */
  function LoggedInStep(s: State, session: nat, user: string): State {
    if session !in s.sessions then s
    else
      var se := s.sessions[session];
      var a := Approval(se.device, user, se.client, se.sid);
      s.(sessions := s.sessions - {session}, drawn := s.drawn + 1, approvals := s.approvals[s.drawn := a],
         h := s.h.(made := s.h.made[s.drawn := a]))
  }

  predicate InUpdate(c: Call, device: nat) { (c.UpdateRead? || c.UpdateCas?) && c.device == device }

  predicate Overlap(s: State, pid: nat, device: nat) {
    exists q :: q in s.calls && q != pid && InUpdate(s.calls[q], device)
  }

  /** The handler goes on only if the device is still pending. */
  function Checked(s: State, d: nat, v: Verdict, timed: bool): Call {
    if d in s.codes && (timed ==> s.clock <= s.codes[d].value.expiresAt)
        && s.codes[d].value.status.Pending? then UpdateRead(d, v)
    else Done
  }

  function CheckStep(s: State, pid: nat, d: nat, v: Verdict, timed: bool): State {
    Set(s, pid, Checked(s, d, v, timed))
      .(overlapped := s.overlapped || (Checked(s, d, v, timed).UpdateRead? && Overlap(s, pid, d)))
  }

  function Decided(c: DeviceCode, v: Verdict): DeviceCode {
    match v
    case Approve(user, sid, _) => c.(status := Approved, user := Some(user), sid := if sid.Some? then sid else c.sid)
    case Deny => c.(status := Denied, user := None)
  }

  /** `update_device_code_status`: read, then swap, without looking at the status. */
  function UpdateReadStep(s: State, pid: nat, d: nat, v: Verdict): State {
    Set(s, pid, if d in s.codes then UpdateCas(d, v, s.codes[d].value, s.codes[d].rev) else Done)
  }

  function UpdateCasStep(s: State, pid: nat, d: nat, v: Verdict, c: DeviceCode, rev: nat): State {
    if !CasOk(s.codes, d, rev) then Set(s, pid, Done)
    else
      var s' := Set(s, pid, Done).(codes := Cas(s.codes, d, Decided(c, v), rev));
      if v.Approve? then s'.(h := s.h.(decisions := s.h.decisions[d := Decision(v.token, v.user)])) else s'
  }

  // ----- polls -----

  function Polled(s: State, d: nat, client: string): Call {
    if d !in s.codes then Replied(NotFound)
    else if s.codes[d].value.client != client then Replied(OtherClient)
    else if s.clock > s.codes[d].value.expiresAt then DropCode(d, Expired)
    else
      match s.codes[d].value.status
      case Pending => Replied(StillPending)
      case Denied => DropCode(d, Refused)
      case Approved => Holding(d, client, s.codes[d].value, s.codes[d].rev)
  }

  function ConsumeStep(s: State, pid: nat, d: nat, client: string, c: DeviceCode, rev: nat): State {
    if d in s.codes && s.codes[d].rev == rev then
      Set(s, pid, Claimed(d, client, c)).(codes := Delete(s.codes, d), h := s.h.(won := s.h.won[d := pid]))
    else Set(s, pid, Replied(Consumed))
  }

  function MintStep(s: State, pid: nat, d: nat, client: string, c: DeviceCode): State {
    if c.user.Some? && c.user.value in s.users && s.users[c.user.value] then
      Set(s, pid, Replied(Issued)).(h := s.h.(mints := s.h.mints[pid := Mint(d, c.user.value, client, c.scope)]))
    else Set(s, pid, Replied(NotActive))
  }

  function Operate(s: State, pid: nat): State
    requires pid in s.calls
  {
    match s.calls[pid]
    case GetApproval(token, approve) =>
      Set(s, pid, if token in s.approvals then DropApproval(token, s.approvals[token], approve) else Done)
    case DropApproval(token, a, approve) =>
      Set(s, pid, CheckPending(a.device, if approve then Approve(a.user, a.sid, token) else Deny, true))
        .(approvals := s.approvals - {token})
    case CheckPending(d, v, timed) => CheckStep(s, pid, d, v, timed)
    case UpdateRead(d, v) => UpdateReadStep(s, pid, d, v)
    case UpdateCas(d, v, c, rev) => UpdateCasStep(s, pid, d, v, c, rev)
    case DropCode(d, reply) => Set(s, pid, Replied(reply)).(codes := Delete(s.codes, d))
    case Holding(d, client, c, rev) => ConsumeStep(s, pid, d, client, c, rev)
    case Claimed(d, client, c) => MintStep(s, pid, d, client, c)
    case Replied(_) => s
    case Done => s
  }

  function Step(s: State, e: Event): State {
    match e
    case Tick(n) => s.(clock := s.clock + n)
    case SetUser(user, active) => s.(users := s.users[user := active])
    case StartDevice(userCode, client, scope) => StartStep(s, userCode, client, scope)
    case Submit(userCode) => SubmitStep(s, userCode)
    case LockOut(pid, userCode) =>
      if pid in s.calls || userCode !in s.byUserCode then s
      else Set(s, pid, CheckPending(s.byUserCode[userCode], Deny, false))
    case LoggedIn(session, user) => LoggedInStep(s, session, user)
    case Confirm(pid, token, approve) => if pid in s.calls then s else Set(s, pid, GetApproval(token, approve))
    case Poll(pid, d, client) => if pid in s.calls then s else Set(s, pid, Polled(s, d, client))
    case Go(pid) => if pid in s.calls then Operate(s, pid) else s
    case Expire(k) => s.(codes := Delete(s.codes, k), approvals := s.approvals - {k}, sessions := s.sessions - {k})
  }

  function Run(s: State, es: seq<Event>): State {
    if es == [] then s else Step(Run(s, es[..|es| - 1]), es[|es| - 1])
  }

  function Start(clock: nat, users: map<string, bool>): State {
    State(clock, 0, map[], map[], map[], map[], users, map[], History(map[], map[], map[], map[], map[]), false)
  }

  ghost predicate Reachable(s: State) {
    exists clock, users, es :: s == Run(Start(clock, users), es)
  }
}
