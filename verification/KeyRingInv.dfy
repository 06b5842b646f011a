/** What every reachable state of the key ring satisfies. */
module KeyRingInv {
  import opened Kv
  import opened KeyRing

  // ----- reading the history -----

  /** The kid the ring named for `alg` while `v` was its version. */
  function KidAt(log: seq<Commit>, v: nat, alg: Alg): Kid
    requires 1 <= v <= |log|
  {
    KidOf(log[v - 1].meta, alg)
  }

  /** The retirement time recorded when version `v` was replaced. */
  function RetiredAt(log: seq<Commit>, v: nat): nat
    requires 1 <= v < |log|
  {
    log[v].meta.createdAt
  }

  /** Version `v` is current, or retired for less than the grace period. */
  predicate InGrace(log: seq<Commit>, clock: nat, v: nat)
    requires 1 <= v <= |log|
  {
    v == |log| || RetiredActive(RetiredAt(log, v), clock)
  }

  // ----- the log -----

  ghost predicate EntryOk(log: seq<Commit>, r: Retired, version: nat) {
    && 1 <= r.name.version < version <= |log|
    && r.kid == KidAt(log, r.name.version, r.name.alg)
    && r.retiredAt == RetiredAt(log, r.name.version)
  }

  ghost predicate Listed(rs: seq<Retired>, name: KeyName) {
    exists i :: 0 <= i < |rs| && rs[i].name == name
  }

  ghost predicate EntriesOk(log: seq<Commit>, rs: seq<Retired>, version: nat) {
    forall i :: 0 <= i < |rs| ==> EntryOk(log, rs[i], version)
  }

  /** An older version is listed, or its grace was over when this value was written. */
  ghost predicate Complete(log: seq<Commit>, rs: seq<Retired>, version: nat, at: nat)
    requires version <= |log|
  {
    forall v, alg :: 1 <= v < version ==> Listed(rs, KeyName(alg, v)) || !RetiredActive(RetiredAt(log, v), at)
  }

  ghost predicate MetaOk(log: seq<Commit>, n: nat)
    requires n < |log|
  {
    var c := log[n];
    && c.meta.version == n + 1
    && c.meta.createdAt <= c.at
    && EntriesOk(log, c.meta.retired, n + 1)
    && Complete(log, c.meta.retired, n + 1, c.at)
  }

  ghost predicate LogOk(log: seq<Commit>, clock: nat) {
    && (forall n :: 0 <= n < |log| ==> MetaOk(log, n) && log[n].at <= clock)
    && (forall i, j :: 0 <= i <= j < |log| ==> log[i].at <= log[j].at)
  }

  // ----- the store -----

  ghost predicate RingOk(s: State) {
    && (s.ring.None? <==> s.log == [])
    && (s.ring.Some? ==> s.ring.value == Cell(s.log[|s.log| - 1].meta, |s.log|))
  }

  ghost predicate BornAs(born: seq<KeyName>, kid: Kid, name: KeyName) {
    kid < |born| && born[kid] == name
  }

  ghost predicate BornOk(s: State) {
    && (forall name :: name in s.keys ==> BornAs(s.born, s.keys[name], name))
    && (forall v, alg :: 1 <= v <= |s.log| ==> BornAs(s.born, KidAt(s.log, v, alg), KeyName(alg, v)))
  }

  ghost predicate Stored(s: State, v: nat, alg: Alg)
    requires 1 <= v <= |s.log|
  {
    KeyName(alg, v) in s.keys && s.keys[KeyName(alg, v)] == KidAt(s.log, v, alg)
  }

  /** Every generation still in grace has both its records, under its own kids. */
  ghost predicate MaterialOk(s: State) {
    forall v, alg :: 1 <= v <= |s.log| && InGrace(s.log, s.clock, v) ==> Stored(s, v, alg)
  }

  /** Read while `v` was current: the next version came no earlier. */
  ghost predicate ReadInTime(log: seq<Commit>, iat: nat, v: nat) {
    1 <= v <= |log| && (v < |log| ==> iat <= log[v].at)
  }

  ghost predicate TokenOk(s: State, t: Token) {
    && t.iat <= s.clock
    && ReadInTime(s.log, t.iat, t.headerVersion) && ReadInTime(s.log, t.iat, t.signerVersion)
    && t.headerKid == KidAt(s.log, t.headerVersion, t.alg)
    && BornAs(s.born, t.signer, KeyName(t.alg, t.signerVersion))
    && (InGrace(s.log, s.clock, t.signerVersion) ==> t.signer == KidAt(s.log, t.signerVersion, t.alg))
  }

  ghost predicate CoreInv(s: State) {
    && LogOk(s.log, s.clock)
    && RingOk(s)
    && BornOk(s)
    && MaterialOk(s)
    && forall t :: t in s.tokens ==> TokenOk(s, t)
  }

  // ----- the processes -----

  /** The first version a rotation that began at version `base` can meet. */
  function Rotatable(base: nat): nat { if base == 0 then 1 else base }

  /** Every lost attempt is another version in the log. */
  ghost predicate LostSoFar(s: State, attempt: nat, base: nat) {
    attempt < MAX_ATTEMPTS && base <= |s.log| && (attempt > 0 ==> Rotatable(base) + attempt <= |s.log|)
  }

  ghost predicate Checking(k: Cont) { k.Reading? && k.goal.Check? }

  ghost predicate ContOk(s: State, k: Cont) {
    match k
    case Rotating(attempt, now, base) => now <= s.clock && LostSoFar(s, attempt, base)
    case Reading(goal) => goal.Check? ==> goal.token in s.tokens
    case Heading(_, iat) => iat <= s.clock
    case Signing(alg, iat, kid, v) => iat <= s.clock && ReadInTime(s.log, iat, v) && kid == KidAt(s.log, v, alg)
  }

  ghost predicate SnapOk(s: State, m: Meta) {
    1 <= m.version <= |s.log| && m == s.log[m.version - 1].meta
  }

  ghost predicate RotOk(s: State, r: Rotation) {
    && SnapOk(s, r.meta) && r.rev == r.meta.version && r.now <= s.clock
    && r.attempt < MAX_ATTEMPTS && Rotatable(r.base) + r.attempt <= r.meta.version
  }

  /** The record a writer found or made for the version after `n`, while `n` is current. */
  ghost predicate Held(s: State, n: nat, alg: Alg, kid: Kid) {
    n == |s.log| ==> KeyName(alg, n + 1) in s.keys && s.keys[KeyName(alg, n + 1)] == kid
  }

  ghost predicate SlotOk(s: State, slot: Slot) {
    match slot
    case BootRsa(k) => ContOk(s, k) && !Checking(k) && !k.Signing?
    case BootEc(k, rsa) => ContOk(s, k) && !Checking(k) && !k.Signing? && Held(s, 0, RS256, rsa)
    case NextRsa(r) => RotOk(s, r)
    case NextEc(r, rsa) => RotOk(s, r) && Held(s, r.meta.version, RS256, rsa)
  }

  ghost predicate Expired(s: State, name: KeyName) {
    1 <= name.version < |s.log| && !RetiredActive(RetiredAt(s.log, name.version), s.clock)
  }

  ghost predicate GoalOk(s: State, goal: Goal, m: Meta) {
    && SnapOk(s, m)
    && (goal.Check? ==>
        goal.token in s.tokens && goal.token.headerVersion <= m.version && goal.token.signerVersion <= m.version)
  }

  /** The published keys: current RSA, current EC, then the first `i` retired
      entries that are in grace, under their recorded kids. */
  function Expected(m: Meta, now: nat, i: nat): seq<Jwk>
    requires i <= |m.retired|
  {
    if i == 0 then [Jwk(RS256, m.rsaKid), Jwk(ES256, m.ecKid)]
    else
      var r := m.retired[i - 1];
      Expected(m, now, i - 1) + if RetiredActive(r.retiredAt, now) then [Jwk(r.name.alg, r.kid)] else []
  }

  /** No grace period the reader relies on has run out while it read. */
  ghost predicate Untouched(s: State, rd: Reader, i: nat)
    requires SnapOk(s, rd.meta) && i <= |rd.meta.retired|
  {
    && InGrace(s.log, s.clock, rd.meta.version)
    && forall j :: 0 <= j < i && RetiredActive(rd.meta.retired[j].retiredAt, rd.now) ==>
         RetiredActive(rd.meta.retired[j].retiredAt, s.clock)
  }

  ghost predicate ReadSoFar(s: State, rd: Reader, i: nat) {
    && GoalOk(s, rd.goal, rd.meta) && rd.now <= s.clock && i <= |rd.meta.retired|
    && (Untouched(s, rd, i) ==> rd.keys == Expected(rd.meta, rd.now, i))
    && (InGrace(s.log, s.clock, rd.meta.version) ==>
        Jwk(RS256, rd.meta.rsaKid) in rd.keys && Jwk(ES256, rd.meta.ecKid) in rd.keys)
    && forall j :: 0 <= j < i && RetiredActive(rd.meta.retired[j].retiredAt, s.clock) ==>
         Jwk(rd.meta.retired[j].name.alg, rd.meta.retired[j].kid) in rd.keys
  }

  /** A rejection inside the token's lifetime needs a version, retired after the
      token was made, whose grace ran out already. */
  ghost predicate GraceTooShort(log: seq<Commit>, t: Token, now: nat) {
    exists w :: 1 <= w < |log| && t.iat <= log[w].at && !RetiredActive(RetiredAt(log, w), now)
  }

  ghost predicate VerdictOk(s: State, t: Token, now: nat, ok: bool) {
    && t in s.tokens && t.iat <= now <= s.clock
    && (ok ==> t.headerVersion == t.signerVersion && TimesOk(t, now))
    && (!ok && t.headerVersion == t.signerVersion && TimesOk(t, now) ==> GraceTooShort(s.log, t, now))
  }

  ghost predicate WroteVersion(s: State, pid: nat, v: nat) {
    2 <= v <= |s.log| && s.log[v - 1].writer == pid
  }

  ghost predicate OutcomeOk(s: State, pid: nat, o: Outcome) {
    match o
    case Rotated(v) => WroteVersion(s, pid, v)
    case LostEveryRace(base) => Rotatable(base) + MAX_ATTEMPTS <= |s.log|
    case Jwks(rd) => ReadSoFar(s, rd, |rd.meta.retired|)
    case Signed(t) => t in s.tokens
    case Verified(t, now, ok) => VerdictOk(s, t, now, ok)
    case Failed => true
  }

  ghost predicate SignerOk(s: State, k: Cont, m: Meta) {
    k.Signing? && ContOk(s, k) && SnapOk(s, m) && ReadInTime(s.log, k.iat, m.version)
  }

  ghost predicate ProcInv(s: State, pid: nat, p: Proc) {
    match p
    case CaptureNow(attempt, base) => LostSoFar(s, attempt, base)
    case LoadMeta(k) => ContOk(s, k)
    case CreateKey(slot) => SlotOk(s, slot)
    case AdoptKey(slot) => SlotOk(s, slot)
    case CreateMeta(k, rsa, ec) =>
      ContOk(s, k) && !Checking(k) && !k.Signing? && Held(s, 0, RS256, rsa) && Held(s, 0, ES256, ec)
    case ReloadMeta(k) => ContOk(s, k) && !Checking(k) && !k.Signing?
    case CasMeta(r, rsa, ec) => RotOk(s, r) && Held(s, r.meta.version, RS256, rsa) && Held(s, r.meta.version, ES256, ec)
    case Purge(v, names) => WroteVersion(s, pid, v) && forall i :: 0 <= i < |names| ==> Expired(s, names[i])
    case ReadClock(goal, m) => GoalOk(s, goal, m)
    case ReadRsa(rd) => GoalOk(s, rd.goal, rd.meta) && rd.now <= s.clock
    case ReadEc(rd) =>
      && GoalOk(s, rd.goal, rd.meta) && rd.now <= s.clock
      && (InGrace(s.log, s.clock, rd.meta.version) ==> rd.keys == [Jwk(RS256, rd.meta.rsaKid)])
    case ReadRetired(rd, i) => ReadSoFar(s, rd, i)
    case CheckTime(rd) => rd.goal.Check? && ReadSoFar(s, rd, |rd.meta.retired|)
    case LoadSigner(k, m) => SignerOk(s, k, m)
    case LoadSignerEc(k, m, rsa) =>
      && SignerOk(s, k, m) && BornAs(s.born, rsa, KeyName(RS256, m.version))
      && (InGrace(s.log, s.clock, m.version) ==> rsa == m.rsaKid)
    case Done(o) => OutcomeOk(s, pid, o)
  }

  /** The writer of each later version is still purging or has returned it. */
  ghost predicate WriterOk(s: State, v: nat)
    requires 1 <= v <= |s.log|
  {
    var w := s.log[v - 1].writer;
    w in s.procs && ((s.procs[w].Purge? && s.procs[w].version == v) || s.procs[w] == Done(Rotated(v)))
  }

  /** A later value is the next one of its predecessor. */
  ghost predicate Linked(log: seq<Commit>, n: nat)
    requires n < |log|
  {
    var m := log[n].meta;
    if n == 0 then m.retired == [] else m == NextMeta(log[n - 1].meta, m.createdAt, m.rsaKid, m.ecKid)
  }

  ghost predicate AllLinked(log: seq<Commit>) {
    forall n :: 0 <= n < |log| ==> Linked(log, n)
  }

  ghost predicate Inv(s: State) {
    && CoreInv(s)
    && AllLinked(s.log)
    && (forall pid :: pid in s.procs ==> ProcInv(s, pid, s.procs[pid]))
    && (forall v :: 2 <= v <= |s.log| ==> WriterOk(s, v))
  }
}
