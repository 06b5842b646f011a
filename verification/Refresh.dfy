/** Refresh-token families: token requests rotate, replays sweep, all interleaved one
    store operation at a time. A token stands for its hash; `drawn` numbers them. */
module Refresh {
  import opened Kv
  import Authorize

  const SLIDING: nat := 86400 * 30

  /** Whose tokens these are and how they logged in; `jkt` binds them to a key. */
  datatype Login = Login(
    user: string,
    client: string,
    scope: string,
    authTime: nat,
    amr: seq<string>,
    acr: Option<string>,
    requested: Authorize.Requested,
    sid: Option<nat>,
    jkt: Option<string>,
    version: nat)

  datatype Entry = Entry(login: Login, issuedAt: nat, expiresAt: nat)

  datatype Record = Live(entry: Entry) | Spent(user: string)

  /** A token request with the thumbprint of its DPoP proof, if it has one. */
  datatype Request = Request(token: nat, client: string, jkt: Option<string>)

  /** What a new token is for: the first of its family, or the rotation of another,
      checked at time `now`. */
  datatype Source = First | Rotation(req: Request, now: nat)

  datatype Outcome = Issued(token: nat) | Rejected | Replayed

  datatype Call =
    | Holding(req: Request, entry: Entry, rev: nat, now: nat)
    | Dropping(token: nat)
    | DropIndex(token: nat)
    | DropToken(token: nat)
    | Checking(token: nat)
    | CheckingRecord(token: nat)
    | Claimed(req: Request, entry: Entry, now: nat)
    | Saving(entry: Entry, family: nat, source: Source)
    | Indexing(token: nat, user: string, source: Source)
    | Marking(token: nat, user: string, req: Request, now: nat)
    | Deleting(token: nat, req: Request, now: nat)
    | Listing(user: string, replay: bool)
    | Sweeping(user: string, left: set<nat>, replay: bool)
    | Unindexing(user: string, token: nat, left: set<nat>, replay: bool)
    | Done(outcome: Outcome)

  /** Who may bring forth a family's next token. */
  datatype Holder = ByToken(token: nat) | ByCall(pid: nat)

  datatype Success = Success(req: Request, now: nat, token: nat)

  /** History: the first entry of each family, the family and the entry of each token
      ever saved, who holds each family, which call swapped each token, and the
      successful refreshes by call. */
  datatype History = History(
    roots: seq<Entry>,
    family: map<nat, nat>,
    saved: map<nat, Entry>,
    holder: map<nat, Holder>,
    won: map<nat, nat>,
    successes: map<nat, Success>)

  /** `max` is the absolute lifetime of a family. */
  datatype State = State(
    max: nat,
    clock: nat,
    drawn: nat,
    tokens: Table<nat, Record>,
    index: map<nat, string>,
    consumed: map<nat, string>,
    users: map<string, bool>,
    calls: map<nat, Call>,
    h: History)

  datatype Event =
    | Tick(seconds: nat)
    | SetUser(user: string, active: bool)
    | Root(pid: nat, login: Login)
    | Begin(pid: nat, req: Request, granted: bool)
    | Go(pid: nat)
    | SweepOne(pid: nat, token: nat)
    | Expire(token: nat)
    | Forget(token: nat)

  // ----- the entries -----

  function Min(a: nat, b: nat): nat { if a < b then a else b }

  function FamilyIssuedAt(e: Entry, now: nat): nat { if e.issuedAt > 0 then e.issuedAt else now }

  /** A missing authentication time is taken to be now. */
  function Dated(l: Login, clock: nat): Login { if l.authTime == 0 then l.(authTime := clock) else l }

  /** A family starts now, with a sliding month. */
  function RootEntry(l: Login, now: nat): Entry { Entry(Dated(l, now), now, now + SLIDING) }

  function Rotated(e: Entry, now: nat, clock: nat, max: nat): Entry {
    Entry(Dated(e.login, clock), FamilyIssuedAt(e, now), Min(now + SLIDING, FamilyIssuedAt(e, now) + max))
  }

  /** RFC 9449 section 6: a bound token needs a proof with the same key. */
  predicate ProofOk(e: Entry, req: Request) { e.login.jkt.Some? ==> req.jkt == e.login.jkt }

  predicate InTime(e: Entry, now: nat, max: nat) {
    now <= e.expiresAt && now <= FamilyIssuedAt(e, now) + max
  }

  // ----- one store operation at a time -----

  function Set(s: State, pid: nat, c: Call): State { s.(calls := s.calls[pid := c]) }

  /** What the request becomes once its token was read. */
  function Begun(s: State, req: Request): Call {
    if req.token !in s.tokens || s.tokens[req.token].value.Spent? then Checking(req.token)
    else
      var e := s.tokens[req.token].value.entry;
      if e.login.client != req.client || !ProofOk(e, req) then Done(Rejected)
      else if !InTime(e, s.clock, s.max) then Dropping(req.token)
      else Holding(req, e, s.tokens[req.token].rev, s.clock)
  }

  predicate IsSpent(s: State, t: nat) { t in s.tokens && s.tokens[t].value.Spent? }

  predicate IsLive(s: State, t: nat) { t in s.tokens && s.tokens[t].value.Live? }

  /** `get_consumed_refresh`: the marker first, the swapped record if there is none. */
  function MarkerRead(s: State, t: nat): Call {
    if t in s.consumed then Listing(s.consumed[t], true) else CheckingRecord(t)
  }

  function RecordRead(s: State, t: nat): Call {
    if IsSpent(s, t) then Listing(s.tokens[t].value.user, true) else Done(Rejected)
  }

  function FamilyOf(h: History, t: nat): nat { if t in h.family then h.family[t] else 0 }

  function SwapStep(s: State, pid: nat, req: Request, e: Entry, rev: nat, now: nat): State {
    if !CasOk(s.tokens, req.token, rev) then Set(s, pid, Done(Rejected))
    else
      Set(s, pid, Claimed(req, e, now))
        .(tokens := Cas(s.tokens, req.token, Spent(e.login.user), rev),
          h := s.h.(holder := s.h.holder[FamilyOf(s.h, req.token) := ByCall(pid)], won := s.h.won[req.token := pid]))
  }

  /** The swapped token's user must still be active; else the user's tokens go. */
  function UserChecked(s: State, req: Request, e: Entry, now: nat): Call {
    if e.login.user !in s.users then Done(Rejected)
    else if !s.users[e.login.user] then Listing(e.login.user, false)
    else Saving(Rotated(e, now, s.clock, s.max), FamilyOf(s.h, req.token), Rotation(req, now))
  }

  function SaveStep(s: State, pid: nat, e: Entry, family: nat, source: Source): State {
    var t := s.drawn;
    Set(s, pid, Indexing(t, e.login.user, source))
      .(drawn := t + 1, tokens := Put(s.tokens, t, Live(e)),
        h := s.h.(family := s.h.family[t := family], saved := s.h.saved[t := e],
            holder := s.h.holder[family := ByToken(t)]))
  }

  function IndexStep(s: State, pid: nat, t: nat, user: string, source: Source): State {
    Set(s, pid, match source
                case First => Done(Issued(t))
                case Rotation(req, now) => Marking(t, user, req, now))
      .(index := s.index[t := user])
  }

  /** `delete_refresh_token` finds no live entry here, so it deletes the record alone. */
  function DeleteStep(s: State, pid: nat, t: nat, req: Request, now: nat): State {
    Set(s, pid, Done(Issued(t)))
      .(tokens := Delete(s.tokens, req.token), h := s.h.(successes := s.h.successes[pid := Success(req, now, t)]))
  }

  function Indexed(s: State, user: string): set<nat> {
    set t | t in s.index && s.index[t] == user
  }

  function Operate(s: State, pid: nat): State
    requires pid in s.calls
  {
    match s.calls[pid]
    case Holding(req, e, rev, now) => SwapStep(s, pid, req, e, rev, now)
    case Dropping(t) => Set(s, pid, if IsLive(s, t) then DropIndex(t) else DropToken(t))
    case DropIndex(t) => Set(s, pid, DropToken(t)).(index := s.index - {t})
    case DropToken(t) => Set(s, pid, Done(Rejected)).(tokens := Delete(s.tokens, t))
    case Checking(t) => Set(s, pid, MarkerRead(s, t))
    case CheckingRecord(t) => Set(s, pid, RecordRead(s, t))
    case Claimed(req, e, now) => Set(s, pid, UserChecked(s, req, e, now))
    case Saving(e, family, source) => SaveStep(s, pid, e, family, source)
    case Indexing(t, user, source) => IndexStep(s, pid, t, user, source)
    case Marking(t, user, req, now) => Set(s, pid, Deleting(t, req, now)).(consumed := s.consumed[req.token := user])
    case Deleting(t, req, now) => DeleteStep(s, pid, t, req, now)
    case Listing(user, replay) => Set(s, pid, Sweeping(user, Indexed(s, user), replay))
    case Sweeping(user, left, replay) =>
      if left == {} then Set(s, pid, Done(if replay then Replayed else Rejected)) else s
    case Unindexing(user, t, left, replay) => Set(s, pid, Sweeping(user, left, replay)).(index := s.index - {t})
    case Done(_) => s
  }

  /** The sweep deletes a token, then its index entry. */
  function SweepStep(s: State, pid: nat, t: nat): State
    requires pid in s.calls && s.calls[pid].Sweeping?
  {
    var c := s.calls[pid];
    if t in c.left then
      Set(s, pid, Unindexing(c.user, t, c.left - {t}, c.replay)).(tokens := Delete(s.tokens, t))
    else s
  }

  function RootStep(s: State, pid: nat, login: Login): State {
    var f, e := |s.h.roots|, RootEntry(login, s.clock);
    Set(s, pid, Saving(e, f, First)).(h := s.h.(roots := s.h.roots + [e], holder := s.h.holder[f := ByCall(pid)]))
  }

  function Step(s: State, e: Event): State {
    match e
    case Tick(d) => s.(clock := s.clock + d)
    case SetUser(user, active) => s.(users := s.users[user := active])
    case Root(pid, login) => if pid in s.calls then s else RootStep(s, pid, login)
    case Begin(pid, req, granted) =>
      if pid in s.calls then s else Set(s, pid, if granted then Begun(s, req) else Done(Rejected))
    case Go(pid) => if pid in s.calls then Operate(s, pid) else s
    case SweepOne(pid, t) => if pid in s.calls && s.calls[pid].Sweeping? then SweepStep(s, pid, t) else s
    case Expire(t) => s.(tokens := Delete(s.tokens, t), index := s.index - {t})
    case Forget(t) => s.(consumed := s.consumed - {t})
  }

  function Run(s: State, es: seq<Event>): State {
    if es == [] then s else Step(Run(s, es[..|es| - 1]), es[|es| - 1])
  }

  lemma RunThen(s: State, es: seq<Event>, e: Event)
    ensures Run(s, es + [e]) == Step(Run(s, es), e)
  {
    assert (es + [e])[..|es|] == es;
  }

  lemma {:induction false} RunConcat(s: State, es: seq<Event>, fs: seq<Event>)
    ensures Run(s, es + fs) == Run(Run(s, es), fs)
  {
    if fs == [] {
      assert es + fs == es;
    } else {
      RunConcat(s, es, fs[..|fs| - 1]);
      assert (es + fs)[..|es + fs| - 1] == es + fs[..|fs| - 1];
    }
  }

  function Start(max: nat, clock: nat, users: map<string, bool>): State {
    State(max, clock, 0, map[], map[], map[], users, map[], History([], map[], map[], map[], map[], map[]))
  }

  ghost predicate Reachable(s: State) {
    exists max, clock, users, es :: clock > 0 && s == Run(Start(max, clock, users), es)
  }
}
