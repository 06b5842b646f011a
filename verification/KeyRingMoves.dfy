/** One lemma per place in the program: the operation there is a good move. */
module KeyRingMoves {
  import opened Kv
  import opened KeyRing
  import opened KeyRingInv
  import opened KeyRingFrame
  import opened KeyRingSteps

  lemma AfterMetaOk(s: State, pid: nat, k: Cont, m: Meta, rev: nat)
    requires CoreInv(s) && ContOk(s, k) && s.log != []
    requires m == s.log[|s.log| - 1].meta && rev == |s.log|
    ensures ProcInv(s, pid, AfterMeta(k, m, rev))
  {
    assert MetaOk(s.log, |s.log| - 1);
    match k {
      case Reading(Check(t)) => assert TokenOk(s, t);
      case _ =>
    }
  }

  lemma AfterKeyOk(s: State, pid: nat, slot: Slot, kid: Kid)
    requires CoreInv(s) && SlotOk(s, slot)
    requires SlotName(slot) in s.keys && s.keys[SlotName(slot)] == kid
    ensures ProcInv(s, pid, AfterKey(slot, kid))
  {
  }

  /** Tokens exist only once the ring does. */
  lemma CheckedAfterRing(s: State, k: Cont)
    requires CoreInv(s) && ContOk(s, k)
    ensures Checking(k) ==> s.ring.Some?
  {
    if Checking(k) {
      assert TokenOk(s, k.goal.token);
    }
  }

  lemma LoadMetaMove(s: State, pid: nat)
    requires CoreInv(s) && pid in s.procs && s.procs[pid].LoadMeta? && ProcInv(s, pid, s.procs[pid])
    ensures GoodMove(s, Operate(s, pid), pid)
  {
    var s' := Operate(s, pid);
    var k := s.procs[pid].k;
    OnlyProcs(s, s');
    CheckedAfterRing(s, k);
    if s.ring.Some? {
      AfterMetaOk(s, pid, k, s.ring.value.value, s.ring.value.rev);
    }
    ProcKept(s, s', pid, s'.procs[pid]);
  }

  lemma ReloadMetaMove(s: State, pid: nat)
    requires CoreInv(s) && pid in s.procs && s.procs[pid].ReloadMeta? && ProcInv(s, pid, s.procs[pid])
    ensures GoodMove(s, Operate(s, pid), pid)
  {
    var s' := Operate(s, pid);
    OnlyProcs(s, s');
    if s.ring.Some? {
      AfterMetaOk(s, pid, s.procs[pid].k, s.ring.value.value, s.ring.value.rev);
    }
    ProcKept(s, s', pid, s'.procs[pid]);
  }

  lemma CreateMove(s: State, pid: nat)
    requires CoreInv(s) && pid in s.procs && s.procs[pid].CreateKey? && ProcInv(s, pid, s.procs[pid])
    ensures GoodMove(s, Operate(s, pid), pid)
  {
    var s' := Operate(s, pid);
    var slot := s.procs[pid].slot;
    var name := SlotName(slot);
    if name in s.keys {
      NameBorn(s, s', name);
      SlotKept(s, s', slot);
    } else {
      KeyAdded(s, s', name);
      SlotKept(s, s', slot);
      AfterKeyOk(s', pid, slot, |s.born|);
    }
  }

  lemma AdoptMove(s: State, pid: nat)
    requires CoreInv(s) && pid in s.procs && s.procs[pid].AdoptKey? && ProcInv(s, pid, s.procs[pid])
    ensures GoodMove(s, Operate(s, pid), pid)
  {
    var s' := Operate(s, pid);
    var slot := s.procs[pid].slot;
    OnlyProcs(s, s');
    if SlotName(slot) in s.keys {
      AfterKeyOk(s, pid, slot, s.keys[SlotName(slot)]);
    }
    ProcKept(s, s', pid, s'.procs[pid]);
  }

  lemma CreateMetaMove(s: State, pid: nat)
    requires CoreInv(s) && pid in s.procs && s.procs[pid].CreateMeta? && ProcInv(s, pid, s.procs[pid])
    ensures GoodMove(s, Operate(s, pid), pid)
  {
    var s' := Operate(s, pid);
    var p := s.procs[pid];
    if s.ring.Some? {
      OnlyProcs(s, s');
      ProcKept(s, s', pid, s'.procs[pid]);
    } else {
      var c := Commit(FirstMeta(s.clock, p.rsa, p.ec), s.clock, pid);
      assert MetaOk([] + [c], 0);
      LogGrows(s, c);
      Committed(s, s', c);
      ContKept(s, s', p.k);
      AfterMetaOk(s', pid, p.k, c.meta, 1);
    }
  }

  lemma CasWon(s: State, s': State, pid: nat, r: Rotation, rsa: Kid, ec: Kid)
    requires CoreInv(s) && ProcInv(s, pid, CasMeta(r, rsa, ec)) && r.rev == |s.log|
    requires var m := NextMeta(r.meta, r.now, rsa, ec);
             s' == s.(ring := Some(Cell(m, |s.log| + 1)), log := s.log + [Commit(m, s.clock, pid)], procs := s'.procs)
    ensures CoreInv(s') && Evolves(s, s')
    ensures ProcInv(s', pid, Purge(|s'.log|, ExpiredNames(r.meta.retired, r.now)))
  {
    var c := s'.log[|s.log|];
    NextMetaOk(s, r.meta, r.now, rsa, ec, pid);
    LogGrows(s, c);
    Committed(s, s', c);
    assert MetaOk(s.log, |s.log| - 1);
    EntriesKept(s.log, s'.log, r.meta.retired, |s.log|);
    ListedBefore(s'.log, r.meta.retired, |s.log|);
    ExpiredNamesFacts(s', r.meta.retired, r.now);
  }

  lemma CasMetaMove(s: State, pid: nat)
    requires CoreInv(s) && pid in s.procs && s.procs[pid].CasMeta? && ProcInv(s, pid, s.procs[pid])
    ensures GoodMove(s, Operate(s, pid), pid)
  {
    var p := s.procs[pid];
    var s' := CasMetaStep(s, pid, p.r, p.rsa, p.ec);
    assert Operate(s, pid) == s';
    if s.ring.Some? && s.ring.value.rev == p.r.rev {
      CasWon(s, s', pid, p.r, p.rsa, p.ec);
    } else {
      OnlyProcs(s, s');
    }
  }

  /** Entries below one version are below every later one. */
  lemma ListedBefore(log: seq<Commit>, rs: seq<Retired>, version: nat)
    requires EntriesOk(log, rs, version) && version <= |log|
    ensures EntriesOk(log, rs, |log|)
  {
    forall i | 0 <= i < |rs| ensures EntryOk(log, rs[i], |log|) {
      assert EntryOk(log, rs[i], version);
    }
  }

  lemma PurgeMove(s: State, pid: nat)
    requires CoreInv(s) && pid in s.procs && s.procs[pid].Purge? && ProcInv(s, pid, s.procs[pid])
    ensures GoodMove(s, Operate(s, pid), pid)
  {
    var s' := Operate(s, pid);
    var p := s.procs[pid];
    if p.names == [] {
      OnlyProcs(s, s');
    } else {
      assert Expired(s, p.names[0]);
      KeyPurged(s, s', p.names[0]);
      forall i | 0 <= i < |p.names[1..]| ensures Expired(s', p.names[1..][i]) {
        assert Expired(s, p.names[i + 1]);
      }
    }
  }

  lemma ReadClockMove(s: State, pid: nat)
    requires CoreInv(s) && pid in s.procs && s.procs[pid].ReadClock? && ProcInv(s, pid, s.procs[pid])
    ensures GoodMove(s, Operate(s, pid), pid)
  {
    OnlyProcs(s, Operate(s, pid));
  }

  lemma MissingOutOfGrace(s: State, v: nat, alg: Alg)
    requires CoreInv(s) && 1 <= v <= |s.log|
    ensures KeyName(alg, v) in s.keys || !InGrace(s.log, s.clock, v)
  {
    assert InGrace(s.log, s.clock, v) ==> Stored(s, v, alg);
  }

  /** The current RSA record is missing only once the grace of its version is over. */
  lemma RsaMissing(s: State, rd: Reader, t: Token)
    requires CoreInv(s) && GoalOk(s, rd.goal, rd.meta) && rd.goal == Check(t)
    requires KeyName(RS256, rd.meta.version) !in s.keys
    ensures GraceTooShort(s.log, t, s.clock) && t.iat <= s.clock
  {
    var v := rd.meta.version;
    MissingOutOfGrace(s, v, RS256);
    assert TokenOk(s, t) && t.headerVersion <= v;
    assert s.log[t.headerVersion].at <= s.log[v].at;
  }

  lemma RsaRead(s: State, s': State, pid: nat, rd: Reader)
    requires CoreInv(s) && GoalOk(s, rd.goal, rd.meta) && rd.now <= s.clock
    requires KeyName(RS256, rd.meta.version) in s.keys
    requires s' == Set(s, pid, ReadEc(rd.(keys := [Jwk(RS256, s.keys[KeyName(RS256, rd.meta.version)])])))
    ensures GoodMove(s, s', pid)
  {
    OnlyProcs(s, s');
    assert InGrace(s.log, s.clock, rd.meta.version) ==> Stored(s, rd.meta.version, RS256);
  }

  lemma RsaLost(s: State, s': State, pid: nat, rd: Reader)
    requires CoreInv(s) && GoalOk(s, rd.goal, rd.meta) && KeyName(RS256, rd.meta.version) !in s.keys
    requires s' == Set(s, pid, Done(Rejected(rd.goal, s.clock)))
    ensures GoodMove(s, s', pid)
  {
    OnlyProcs(s, s');
    if rd.goal.Check? {
      RsaMissing(s, rd, rd.goal.token);
    }
  }

  lemma ReadRsaMove(s: State, pid: nat)
    requires CoreInv(s) && pid in s.procs && s.procs[pid].ReadRsa? && ProcInv(s, pid, s.procs[pid])
    ensures GoodMove(s, Operate(s, pid), pid)
  {
    var rd := s.procs[pid].reader;
    if KeyName(RS256, rd.meta.version) in s.keys {
      RsaRead(s, Operate(s, pid), pid, rd);
    } else {
      RsaLost(s, Operate(s, pid), pid, rd);
    }
  }

  lemma ReadEcMove(s: State, pid: nat)
    requires CoreInv(s) && pid in s.procs && s.procs[pid].ReadEc? && ProcInv(s, pid, s.procs[pid])
    ensures GoodMove(s, Operate(s, pid), pid)
  {
    var s' := Operate(s, pid);
    var rd := s.procs[pid].reader;
    OnlyProcs(s, s');
    if InGrace(s.log, s.clock, rd.meta.version) {
      assert Stored(s, rd.meta.version, ES256);
      assert rd.keys + [Jwk(ES256, rd.meta.ecKid)] == [Jwk(RS256, rd.meta.rsaKid), Jwk(ES256, rd.meta.ecKid)];
    }
  }

  /** Extending what was read by one entry. */
  lemma OneMoreEntry(s: State, rd: Reader, i: nat, keys: seq<Jwk>)
    requires ReadSoFar(s, rd, i) && i < |rd.meta.retired|
    requires var r := rd.meta.retired[i];
             && rd.keys <= keys
             && (RetiredActive(r.retiredAt, s.clock) ==> keys == rd.keys + [Jwk(r.name.alg, r.kid)])
             && (!RetiredActive(r.retiredAt, rd.now) ==> keys == rd.keys)
    ensures ReadSoFar(s, rd.(keys := keys), i + 1)
  {
    var rd' := rd.(keys := keys);
    var r := rd.meta.retired[i];
    if Untouched(s, rd', i + 1) {
      assert Untouched(s, rd, i);
    }
    forall j | 0 <= j < i + 1 && RetiredActive(rd.meta.retired[j].retiredAt, s.clock)
      ensures Jwk(rd.meta.retired[j].name.alg, rd.meta.retired[j].kid) in keys
    {
      if j == i {
        assert keys[|rd.keys|] == Jwk(r.name.alg, r.kid);
      }
    }
  }

  lemma SkipEntryMove(s: State, s': State, rd: Reader, i: nat)
    requires CoreInv(s) && ReadSoFar(s, rd, i) && i < |rd.meta.retired|
    requires !RetiredActive(rd.meta.retired[i].retiredAt, rd.now)
    requires s' == s.(keys := s.keys - {rd.meta.retired[i].name}, procs := s'.procs)
    ensures CoreInv(s') && Evolves(s, s') && ReadSoFar(s', rd, i + 1)
  {
    var r := rd.meta.retired[i];
    assert MetaOk(s.log, rd.meta.version - 1);
    assert EntryOk(s.log, r, rd.meta.version);
    KeyPurged(s, s', r.name);
    OneMoreEntry(s, rd, i, rd.keys);
    ReaderKept(s, s', rd, i + 1);
  }

  lemma PushEntryMove(s: State, s': State, rd: Reader, i: nat, keys: seq<Jwk>)
    requires CoreInv(s) && ReadSoFar(s, rd, i) && i < |rd.meta.retired|
    requires RetiredActive(rd.meta.retired[i].retiredAt, rd.now)
    requires var r := rd.meta.retired[i];
             keys == if r.name in s.keys then rd.keys + [Jwk(r.name.alg, s.keys[r.name])] else rd.keys
    requires s' == s.(procs := s'.procs)
    ensures CoreInv(s') && Evolves(s, s') && ReadSoFar(s', rd.(keys := keys), i + 1)
  {
    var r := rd.meta.retired[i];
    assert MetaOk(s.log, rd.meta.version - 1);
    assert EntryOk(s.log, r, rd.meta.version);
    OnlyProcs(s, s');
    if RetiredActive(r.retiredAt, s.clock) {
      assert Stored(s, r.name.version, r.name.alg);
    }
    OneMoreEntry(s, rd, i, keys);
    ReaderKept(s, s', rd.(keys := keys), i + 1);
  }

  lemma SkipMove(s: State, s': State, pid: nat, rd: Reader, i: nat)
    requires CoreInv(s) && ReadSoFar(s, rd, i) && i < |rd.meta.retired|
    requires !RetiredActive(rd.meta.retired[i].retiredAt, rd.now) && s' == ReadRetiredStep(s, pid, rd, i)
    ensures GoodMove(s, s', pid)
  {
    SkipEntryMove(s, s', rd, i);
  }

  lemma PushMove(s: State, s': State, pid: nat, rd: Reader, i: nat)
    requires CoreInv(s) && ReadSoFar(s, rd, i) && i < |rd.meta.retired|
    requires RetiredActive(rd.meta.retired[i].retiredAt, rd.now) && s' == ReadRetiredStep(s, pid, rd, i)
    ensures GoodMove(s, s', pid)
  {
    var r := rd.meta.retired[i];
    var keys := if r.name in s.keys then rd.keys + [Jwk(r.name.alg, s.keys[r.name])] else rd.keys;
    assert s' == Set(s, pid, ReadRetired(rd.(keys := keys), i + 1));
    PushEntryMove(s, s', rd, i, keys);
  }

  lemma EntriesDone(s: State, s': State, pid: nat, rd: Reader, i: nat)
    requires CoreInv(s) && ReadSoFar(s, rd, i) && i >= |rd.meta.retired| && s' == ReadRetiredStep(s, pid, rd, i)
    ensures GoodMove(s, s', pid)
  {
    OnlyProcs(s, s');
    ReaderKept(s, s', rd, i);
  }

  lemma ReadRetiredMove(s: State, pid: nat)
    requires CoreInv(s) && pid in s.procs && s.procs[pid].ReadRetired? && ProcInv(s, pid, s.procs[pid])
    ensures GoodMove(s, Operate(s, pid), pid)
  {
    var rd, i := s.procs[pid].reader, s.procs[pid].i;
    var s' := ReadRetiredStep(s, pid, rd, i);
    assert Operate(s, pid) == s';
    if i >= |rd.meta.retired| {
      EntriesDone(s, s', pid, rd, i);
    } else if !RetiredActive(rd.meta.retired[i].retiredAt, rd.now) {
      SkipMove(s, s', pid, rd, i);
    } else {
      PushMove(s, s', pid, rd, i);
    }
  }

  /** Both reads of the ring saw one version exactly if header kid and key agree. */
  lemma SameVersionSameKid(s: State, t: Token)
    requires CoreInv(s) && t in s.tokens
    ensures t.headerKid == t.signer ==> t.headerVersion == t.signerVersion
  {
    assert TokenOk(s, t);
    assert BornAs(s.born, KidAt(s.log, t.headerVersion, t.alg), KeyName(t.alg, t.headerVersion));
  }

  /** A key missing from what was read, or a wrong signing key, means some grace ran out. */
  lemma MissingKey(s: State, rd: Reader, t: Token)
    requires CoreInv(s) && t in s.tokens && rd.goal == Check(t) && ReadSoFar(s, rd, |rd.meta.retired|)
    requires t.headerVersion == t.signerVersion
    ensures SignatureOk(t, rd.keys) || GraceTooShort(s.log, t, s.clock)
  {
    var v, n := t.headerVersion, rd.meta.version;
    assert TokenOk(s, t) && MetaOk(s.log, n - 1);
    if v < |s.log| && !RetiredActive(RetiredAt(s.log, v), s.clock) {
      return;
    }
    assert InGrace(s.log, s.clock, v) && t.signer == t.headerKid;
    if v == n {
      assert Jwk(t.alg, t.headerKid) in rd.keys;
    } else {
      assert RetiredActive(RetiredAt(s.log, v), s.log[n - 1].at);
      var j :| 0 <= j < |rd.meta.retired| && rd.meta.retired[j].name == KeyName(t.alg, v);
      assert EntryOk(s.log, rd.meta.retired[j], n);
      assert Jwk(t.alg, t.headerKid) in rd.keys;
    }
  }

  lemma VerdictReached(s: State, rd: Reader, t: Token)
    requires CoreInv(s) && t in s.tokens && rd.goal == Check(t) && ReadSoFar(s, rd, |rd.meta.retired|)
    ensures VerdictOk(s, t, s.clock, SignatureOk(t, rd.keys) && TimesOk(t, s.clock))
  {
    assert TokenOk(s, t);
    SameVersionSameKid(s, t);
    if t.headerVersion == t.signerVersion {
      MissingKey(s, rd, t);
    }
  }

  lemma CheckTimeMove(s: State, pid: nat)
    requires CoreInv(s) && pid in s.procs && s.procs[pid].CheckTime? && ProcInv(s, pid, s.procs[pid])
    ensures GoodMove(s, Operate(s, pid), pid)
  {
    OnlyProcs(s, Operate(s, pid));
    VerdictReached(s, s.procs[pid].reader, s.procs[pid].reader.goal.token);
  }

  lemma LoadSignerMove(s: State, pid: nat)
    requires CoreInv(s) && pid in s.procs && s.procs[pid].LoadSigner? && ProcInv(s, pid, s.procs[pid])
    ensures GoodMove(s, Operate(s, pid), pid)
  {
    var s' := Operate(s, pid);
    var m := s.procs[pid].meta;
    OnlyProcs(s, s');
    if InGrace(s.log, s.clock, m.version) {
      assert Stored(s, m.version, RS256);
    }
    SignerKept(s, s', s.procs[pid].k, m);
  }

  lemma TokenIssued(s: State, s': State, t: Token)
    requires CoreInv(s) && TokenOk(s, t) && s' == s.(tokens := s.tokens + {t}, procs := s'.procs)
    ensures CoreInv(s') && Evolves(s, s')
  {
    forall v, alg | 1 <= v <= |s.log| && InGrace(s.log, s.clock, v) ensures Stored(s', v, alg) {
      assert Stored(s, v, alg);
    }
    forall u | u in s'.tokens ensures TokenOk(s', u) {
      TokenKept(s, s', u);
    }
  }

  function Made(k: Cont, m: Meta, rsa: Kid, ec: Kid): Token
    requires k.Signing?
  {
    Token(k.alg, k.iat, k.headerKid, k.headerVersion, if k.alg == RS256 then rsa else ec, m.version)
  }

  lemma NewTokenOk(s: State, k: Cont, m: Meta, rsa: Kid)
    requires CoreInv(s) && SignerOk(s, k, m) && BornAs(s.born, rsa, KeyName(RS256, m.version))
    requires InGrace(s.log, s.clock, m.version) ==> rsa == m.rsaKid
    requires KeyName(ES256, m.version) in s.keys
    ensures TokenOk(s, Made(k, m, rsa, s.keys[KeyName(ES256, m.version)]))
  {
    if InGrace(s.log, s.clock, m.version) {
      assert Stored(s, m.version, ES256);
    }
  }

  lemma SignMove(s: State, s': State, pid: nat, t: Token)
    requires CoreInv(s) && TokenOk(s, t)
    requires s' == Set(s.(tokens := s.tokens + {t}), pid, Done(Signed(t)))
    ensures GoodMove(s, s', pid)
  {
    TokenIssued(s, s', t);
  }

  lemma LoadSignerEcMove(s: State, pid: nat)
    requires CoreInv(s) && pid in s.procs && s.procs[pid].LoadSignerEc? && ProcInv(s, pid, s.procs[pid])
    ensures GoodMove(s, Operate(s, pid), pid)
  {
    var p := s.procs[pid];
    if KeyName(ES256, p.meta.version) in s.keys {
      NewTokenOk(s, p.k, p.meta, p.rsa);
      SignMove(s, Operate(s, pid), pid, Made(p.k, p.meta, p.rsa, s.keys[KeyName(ES256, p.meta.version)]));
    } else {
      OnlyProcs(s, Operate(s, pid));
    }
  }

  lemma StillMove(s: State, pid: nat)
    requires CoreInv(s) && pid in s.procs && (s.procs[pid].Done? || s.procs[pid].CaptureNow?)
             && ProcInv(s, pid, s.procs[pid])
    ensures GoodMove(s, Operate(s, pid), pid)
  {
    OnlyProcs(s, Operate(s, pid));
    if s.procs[pid].Done? {
      assert Operate(s, pid) == s;
      OutcomeKept(s, s, pid, s.procs[pid].outcome);
    }
  }

  lemma WriterMove(s: State, pid: nat)
    requires CoreInv(s) && pid in s.procs && ProcInv(s, pid, s.procs[pid])
    requires var p := s.procs[pid];
             p.LoadMeta? || p.CreateKey? || p.AdoptKey? || p.CreateMeta? || p.ReloadMeta? || p.CasMeta? || p.Purge?
    ensures GoodMove(s, Operate(s, pid), pid)
  {
    match s.procs[pid] {
      case LoadMeta(_) => LoadMetaMove(s, pid);
      case CreateKey(_) => CreateMove(s, pid);
      case AdoptKey(_) => AdoptMove(s, pid);
      case CreateMeta(_, _, _) => CreateMetaMove(s, pid);
      case ReloadMeta(_) => ReloadMetaMove(s, pid);
      case CasMeta(_, _, _) => CasMetaMove(s, pid);
      case Purge(_, _) => PurgeMove(s, pid);
    }
  }

  lemma ReaderMove(s: State, pid: nat)
    requires CoreInv(s) && pid in s.procs && ProcInv(s, pid, s.procs[pid])
    requires var p := s.procs[pid];
             p.ReadClock? || p.ReadRsa? || p.ReadEc? || p.ReadRetired? || p.CheckTime? || p.LoadSigner?
                 || p.LoadSignerEc?
    ensures GoodMove(s, Operate(s, pid), pid)
  {
    match s.procs[pid] {
      case ReadClock(_, _) => ReadClockMove(s, pid);
      case ReadRsa(_) => ReadRsaMove(s, pid);
      case ReadEc(_) => ReadEcMove(s, pid);
      case ReadRetired(_, _) => ReadRetiredMove(s, pid);
      case CheckTime(_) => CheckTimeMove(s, pid);
      case LoadSigner(_, _) => LoadSignerMove(s, pid);
      case LoadSignerEc(_, _, _) => LoadSignerEcMove(s, pid);
    }
  }

  lemma EveryMove(s: State, pid: nat)
    requires CoreInv(s) && pid in s.procs && ProcInv(s, pid, s.procs[pid])
    ensures GoodMove(s, Operate(s, pid), pid)
  {
    var p := s.procs[pid];
    if p.Done? || p.CaptureNow? {
      StillMove(s, pid);
    } else if p.ReadClock? || p.ReadRsa? || p.ReadEc? || p.ReadRetired? || p.CheckTime? || p.LoadSigner?
        || p.LoadSignerEc? {
      ReaderMove(s, pid);
    } else {
      WriterMove(s, pid);
    }
  }
}
