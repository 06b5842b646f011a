/** The signing-key ring as a transition system: replicas bootstrap, rotate, sign,
    publish and verify, one store operation at a time. A key pair is identified by
    its kid, which `born` numbers in order of generation. */
module KeyRing {
  import opened Kv

  const RETIRED_GRACE_SECS: nat := 3600 + 600
  const TOKEN_LIFETIME: nat := 3600
  const LEEWAY: nat := 30
  const MAX_ATTEMPTS: nat := 5
  const U64_MAX: nat := 0xFFFF_FFFF_FFFF_FFFF

  type Kid = nat

  datatype Alg = RS256 | ES256

  /** `signing-key-v{n}` for RS256 and `signing-key-ec-v{n}` for ES256. */
  datatype KeyName = KeyName(alg: Alg, version: nat)

  datatype Retired = Retired(kid: Kid, name: KeyName, retiredAt: nat)

  datatype Meta = Meta(version: nat, rsaKid: Kid, ecKid: Kid, createdAt: nat, retired: seq<Retired>)

  datatype Jwk = Jwk(alg: Alg, kid: Kid)

  /** A signed token: the claims' `iat`, the kid in its header and the key that
      made its signature, with the ring versions the two reads saw. */
  datatype Token = Token(alg: Alg, iat: nat, headerKid: Kid, headerVersion: nat, signer: Kid, signerVersion: nat)

  // ----- processes -----

  datatype Goal = Publish | Check(token: Token)

  /** What a process does with the ring metadata once it has it. `base` is
      history: the ring version when the rotation began. */
  datatype Cont =
    | Rotating(attempt: nat, now: nat, base: nat)
    | Reading(goal: Goal)
    | Heading(alg: Alg, iat: nat)
    | Signing(alg: Alg, iat: nat, headerKid: Kid, headerVersion: nat)

  datatype Rotation = Rotation(attempt: nat, now: nat, base: nat, meta: Meta, rev: nat)

  /** Which key record a create-or-load is for. */
  datatype Slot =
    | BootRsa(k: Cont)
    | BootEc(k: Cont, rsa: Kid)
    | NextRsa(r: Rotation)
    | NextEc(r: Rotation, rsa: Kid)

  datatype Reader = Reader(goal: Goal, meta: Meta, now: nat, keys: seq<Jwk>)

  datatype Outcome =
    | Rotated(version: nat)
    | LostEveryRace(base: nat)
    | Jwks(reader: Reader)
    | Signed(token: Token)
    | Verified(token: Token, now: nat, ok: bool)
    | Failed

  datatype Proc =
    | CaptureNow(attempt: nat, base: nat)
    | LoadMeta(k: Cont)
    | CreateKey(slot: Slot)
    | AdoptKey(slot: Slot)
    | CreateMeta(k: Cont, rsa: Kid, ec: Kid)
    | ReloadMeta(k: Cont)
    | CasMeta(r: Rotation, rsa: Kid, ec: Kid)
    | Purge(version: nat, names: seq<KeyName>)
    | ReadClock(goal: Goal, meta: Meta)
    | ReadRsa(reader: Reader)
    | ReadEc(reader: Reader)
    | ReadRetired(reader: Reader, i: nat)
    | CheckTime(reader: Reader)
    | LoadSigner(k: Cont, meta: Meta)
    | LoadSignerEc(k: Cont, meta: Meta, rsa: Kid)
    | Done(outcome: Outcome)

  /** History: a committed ring value, the time of the write and its writer. */
  datatype Commit = Commit(meta: Meta, at: nat, writer: nat)

  /** `born` and `log` are history: the name each key pair was generated for, and
      every value the ring pointer has held. */
  datatype State = State(
    clock: nat,
    ring: Option<Cell<Meta>>,
    keys: map<KeyName, Kid>,
    procs: map<nat, Proc>,
    tokens: set<Token>,
    born: seq<KeyName>,
    log: seq<Commit>)

  datatype Task = Rotate | ReadJwks | Sign(alg: Alg) | Verify(token: Token)

  datatype Event = Tick(seconds: nat) | Begin(pid: nat, task: Task) | Go(pid: nat)

  // ----- pure pieces -----

  function SaturatingAdd(a: nat, b: nat): nat {
    if a + b > U64_MAX then U64_MAX else a + b
  }

  predicate RetiredActive(retiredAt: nat, now: nat) {
    SaturatingAdd(retiredAt, RETIRED_GRACE_SECS) > now
  }

  function KidOf(m: Meta, alg: Alg): Kid { if alg == RS256 then m.rsaKid else m.ecKid }

  /** The entries still inside their grace window, in order. */
  function ActiveOnly(rs: seq<Retired>, now: nat): seq<Retired> {
    if rs == [] then []
    else (if RetiredActive(rs[0].retiredAt, now) then [rs[0]] else []) + ActiveOnly(rs[1..], now)
  }

  function ExpiredNames(rs: seq<Retired>, now: nat): seq<KeyName> {
    if rs == [] then []
    else (if RetiredActive(rs[0].retiredAt, now) then [] else [rs[0].name]) + ExpiredNames(rs[1..], now)
  }

  function RetirePair(m: Meta, now: nat): seq<Retired> {
    [Retired(m.rsaKid, KeyName(RS256, m.version), now), Retired(m.ecKid, KeyName(ES256, m.version), now)]
  }

  function NextMeta(m: Meta, now: nat, rsa: Kid, ec: Kid): Meta {
    Meta(m.version + 1, rsa, ec, now, ActiveOnly(m.retired, now) + RetirePair(m, now))
  }

  function FirstMeta(now: nat, rsa: Kid, ec: Kid): Meta { Meta(1, rsa, ec, now, []) }

  function SlotName(slot: Slot): KeyName {
    match slot
    case BootRsa(_) => KeyName(RS256, 1)
    case BootEc(_, _) => KeyName(ES256, 1)
    case NextRsa(r) => KeyName(RS256, r.meta.version + 1)
    case NextEc(r, _) => KeyName(ES256, r.meta.version + 1)
  }

  function AfterKey(slot: Slot, kid: Kid): Proc {
    match slot
    case BootRsa(k) => CreateKey(BootEc(k, kid))
    case BootEc(k, rsa) => CreateMeta(k, rsa, kid)
    case NextRsa(r) => CreateKey(NextEc(r, kid))
    case NextEc(r, rsa) => CasMeta(r, rsa, kid)
  }

  function AfterMeta(k: Cont, m: Meta, rev: nat): Proc {
    match k
    case Rotating(attempt, now, base) => CreateKey(NextRsa(Rotation(attempt, now, base, m, rev)))
    case Reading(goal) => ReadClock(goal, m)
    case Heading(alg, iat) => LoadMeta(Signing(alg, iat, KidOf(m, alg), m.version))
    case Signing(_, _, _, _) => LoadSigner(k, m)
  }

  /** The candidates of the header's algorithm and kid, tried in order: a signature
      verifies only under the key that made it. */
  predicate SignatureOk(t: Token, keys: seq<Jwk>) {
    exists i :: 0 <= i < |keys| && keys[i] == Jwk(t.alg, t.headerKid) && keys[i].kid == t.signer
  }

  predicate TimesOk(t: Token, now: nat) {
    t.iat <= now + LEEWAY && now <= t.iat + TOKEN_LIFETIME + LEEWAY
  }

  function Rejected(goal: Goal, now: nat): Outcome {
    match goal
    case Publish => Failed
    case Check(t) => Verified(t, now, false)
  }

  // ----- one store operation at a time -----

  function Set(s: State, pid: nat, p: Proc): State { s.(procs := s.procs[pid := p]) }

  /** Creates fail when the name is taken; the key pair was generated either way. */
  function CreateStep(s: State, pid: nat, slot: Slot): State {
    var name, kid := SlotName(slot), |s.born|;
    var s := s.(born := s.born + [name]);
    if name in s.keys then Set(s, pid, AdoptKey(slot))
    else Set(s.(keys := s.keys[name := kid]), pid, AfterKey(slot, kid))
  }

  function AdoptStep(s: State, pid: nat, slot: Slot): State {
    var name := SlotName(slot);
    Set(s, pid, if name in s.keys then AfterKey(slot, s.keys[name]) else Done(Failed))
  }

  function CreateMetaStep(s: State, pid: nat, k: Cont, rsa: Kid, ec: Kid): State {
    if s.ring.Some? then Set(s, pid, ReloadMeta(k))
    else
      var m := FirstMeta(s.clock, rsa, ec);
      Set(s.(ring := Some(Cell(m, 1)), log := s.log + [Commit(m, s.clock, pid)]), pid, AfterMeta(k, m, 1))
  }

  function CasMetaStep(s: State, pid: nat, r: Rotation, rsa: Kid, ec: Kid): State {
    if s.ring.Some? && s.ring.value.rev == r.rev then
      var m := NextMeta(r.meta, r.now, rsa, ec);
      Set(s.(ring := Some(Cell(m, r.rev + 1)), log := s.log + [Commit(m, s.clock, pid)]),
          pid, Purge(m.version, ExpiredNames(r.meta.retired, r.now)))
    else if r.attempt + 1 < MAX_ATTEMPTS then Set(s, pid, CaptureNow(r.attempt + 1, r.base))
    else Set(s, pid, Done(LostEveryRace(r.base)))
  }

  function ReadRetiredStep(s: State, pid: nat, rd: Reader, i: nat): State {
    if i >= |rd.meta.retired| then
      Set(s, pid, if rd.goal.Publish? then Done(Jwks(rd)) else CheckTime(rd))
    else
      var r := rd.meta.retired[i];
      if !RetiredActive(r.retiredAt, rd.now) then Set(s.(keys := s.keys - {r.name}), pid, ReadRetired(rd, i + 1))
      else if r.name in s.keys then
        Set(s, pid, ReadRetired(rd.(keys := rd.keys + [Jwk(r.name.alg, s.keys[r.name])]), i + 1))
      else Set(s, pid, ReadRetired(rd, i + 1))
  }

  function Operate(s: State, pid: nat): State
    requires pid in s.procs
  {
    match s.procs[pid]
    case CaptureNow(attempt, base) => Set(s, pid, LoadMeta(Rotating(attempt, s.clock, base)))
    case LoadMeta(k) =>
      Set(s, pid, if s.ring.Some? then AfterMeta(k, s.ring.value.value, s.ring.value.rev) else CreateKey(BootRsa(k)))
    case CreateKey(slot) => CreateStep(s, pid, slot)
    case AdoptKey(slot) => AdoptStep(s, pid, slot)
    case CreateMeta(k, rsa, ec) => CreateMetaStep(s, pid, k, rsa, ec)
    case ReloadMeta(k) =>
      Set(s, pid, if s.ring.Some? then AfterMeta(k, s.ring.value.value, s.ring.value.rev) else Done(Failed))
    case CasMeta(r, rsa, ec) => CasMetaStep(s, pid, r, rsa, ec)
    case Purge(version, names) =>
      if names == [] then Set(s, pid, Done(Rotated(version)))
      else Set(s.(keys := s.keys - {names[0]}), pid, Purge(version, names[1..]))
    case ReadClock(goal, m) => Set(s, pid, ReadRsa(Reader(goal, m, s.clock, [])))
    case ReadRsa(rd) =>
      var name := KeyName(RS256, rd.meta.version);
      Set(s, pid, if name in s.keys then ReadEc(rd.(keys := [Jwk(RS256, s.keys[name])]))
          else Done(Rejected(rd.goal, s.clock)))
    case ReadEc(rd) =>
      var name := KeyName(ES256, rd.meta.version);
      Set(s, pid, ReadRetired(if name in s.keys then rd.(keys := rd.keys + [Jwk(ES256, s.keys[name])]) else rd, 0))
    case ReadRetired(rd, i) => ReadRetiredStep(s, pid, rd, i)
    case CheckTime(rd) =>
      if rd.goal.Publish? then s
      else Set(s, pid, Done(Verified(rd.goal.token, s.clock, SignatureOk(rd.goal.token, rd.keys)
          && TimesOk(rd.goal.token, s.clock))))
    case LoadSigner(k, m) =>
      var name := KeyName(RS256, m.version);
      Set(s, pid, if name in s.keys then LoadSignerEc(k, m, s.keys[name]) else Done(Failed))
    case LoadSignerEc(k, m, rsa) =>
      var name := KeyName(ES256, m.version);
      if name !in s.keys || !k.Signing? then Set(s, pid, Done(Failed))
      else
        var t := Token(k.alg, k.iat, k.headerKid, k.headerVersion, if k.alg == RS256 then rsa else s.keys[name],
            m.version);
        Set(s.(tokens := s.tokens + {t}), pid, Done(Signed(t)))
    case Done(_) => s
  }

  function Step(s: State, e: Event): State {
    match e
    case Tick(d) => if s.clock + d <= U64_MAX then s.(clock := s.clock + d) else s
    case Begin(pid, task) =>
      if pid in s.procs then s
      else
        (match task
         case Rotate => Set(s, pid, CaptureNow(0, |s.log|))
         case ReadJwks => Set(s, pid, LoadMeta(Reading(Publish)))
         case Sign(alg) => Set(s, pid, LoadMeta(Heading(alg, s.clock)))
         case Verify(t) => if t in s.tokens then Set(s, pid, LoadMeta(Reading(Check(t)))) else s)
    case Go(pid) => if pid in s.procs then Operate(s, pid) else s
  }

  function Run(s: State, es: seq<Event>): State {
    if es == [] then s else Step(Run(s, es[..|es| - 1]), es[|es| - 1])
  }

  function Start(clock: nat): State {
    State(clock, None, map[], map[], {}, [], [])
  }

  ghost predicate Reachable(s: State) {
    exists clock, es :: s == Run(Start(clock), es)
  }
}
