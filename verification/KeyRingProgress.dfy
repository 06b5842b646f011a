/** What a rotation, a signature, a check or a reading of the ring comes to when nothing
    else happens, from whatever state others have left behind. */
module KeyRingProgress {
  import opened Kv
  import opened KeyRing
  import opened KeyRingInv
  import opened KeyRingSafety
  import opened KeyRingAlone

  // ----- purging -----

  /** Exactly the named records go. */
  ghost predicate Without(keys: map<KeyName, Kid>, keys': map<KeyName, Kid>, names: seq<KeyName>) {
    && (forall name :: name in keys' <==> name in keys && name !in names)
    && (forall name :: name in keys' ==> keys'[name] == keys[name])
  }

  ghost predicate Purged(s: State, s': State, pid: nat, names: seq<KeyName>, version: nat) {
    && s'.procs == s.procs[pid := Done(Rotated(version))] && s'.ring == s.ring && s'.log == s.log && s'.clock == s.clock
    && Without(s.keys, s'.keys, names)
  }

  lemma PurgeIs(s: State, pid: nat, version: nat, names: seq<KeyName>)
    requires pid in s.procs && s.procs[pid] == Purge(version, names)
    ensures Step(s, Go(pid)) == if names == [] then Set(s, pid, Done(Rotated(version)))
                                else Set(s.(keys := s.keys - {names[0]}), pid, Purge(version, names[1..]))
  {
  }

  lemma {:induction false} PurgesAll(s: State, pid: nat, version: nat, names: seq<KeyName>) returns (s': State)
    requires pid in s.procs && s.procs[pid] == Purge(version, names)
    ensures Reaches(s, pid, s') && Purged(s, s', pid, names, version)
    decreases |names|
  {
    PurgeIs(s, pid, version, names);
    ReachesNext(s, pid);
    var s1 := Step(s, Go(pid));
    if names == [] {
      s' := s1;
    } else {
      s' := PurgesAll(s1, pid, version, names[1..]);
      ReachesOn(s, pid, s1, s');
      assert forall name :: name in names <==> name == names[0] || name in names[1..];
    }
  }

  lemma {:induction false} ExpiredOlder(rs: seq<Retired>, now: nat, version: nat)
    requires forall i :: 0 <= i < |rs| ==> rs[i].name.version < version
    ensures forall name :: name in ExpiredNames(rs, now) ==> name.version < version
  {
    if rs != [] {
      ExpiredOlder(rs[1..], now, version);
    }
  }

  /** The record belongs to an entry whose grace is over. */
  ghost predicate Overdue(rs: seq<Retired>, name: KeyName, now: nat) {
    exists i :: 0 <= i < |rs| && rs[i].name == name && !RetiredActive(rs[i].retiredAt, now)
  }

  lemma {:induction false} OverdueNames(rs: seq<Retired>, now: nat, name: KeyName)
    ensures name in ExpiredNames(rs, now) <==> Overdue(rs, name, now)
  {
    if rs != [] {
      OverdueNames(rs[1..], now, name);
      if Overdue(rs[1..], name, now) {
        var i :| 0 <= i < |rs[1..]| && rs[1..][i].name == name && !RetiredActive(rs[1..][i].retiredAt, now);
        assert rs[i + 1] == rs[1..][i];
      }
      if Overdue(rs, name, now) {
        var i :| 0 <= i < |rs| && rs[i].name == name && !RetiredActive(rs[i].retiredAt, now);
        if i > 0 {
          assert rs[1..][i - 1] == rs[i];
        }
      }
    }
  }

  // ----- from the ring that was read to the next one -----

  /** The records are those that were there and those of the new version, less the overdue. */
  ghost predicate Cleaned(s: State, s': State, version: nat, rs: seq<Retired>, now: nat) {
    forall name :: name in s'.keys <==> (name in s.keys || name.version == version) && !Overdue(rs, name, now)
  }

  /** The ring names, for its version, the records that are stored for it: those that were there
      before, or else fresh ones. */
  ghost predicate RotatedTo(s: State, s': State, pid: nat, version: nat) {
    && pid in s'.procs && s'.procs[pid] == Done(Rotated(version))
    && s'.ring.Some? && s'.ring.value.rev == version
    && var m := s'.ring.value.value;
    && m.version == version
    && NamedRecord(s, s', KeyName(RS256, version), m.rsaKid) && NamedRecord(s, s', KeyName(ES256, version), m.ecKid)
  }

  ghost predicate NamedRecord(s: State, s': State, name: KeyName, kid: Kid) {
    name in s'.keys && s'.keys[name] == kid && (if name in s.keys then kid == s.keys[name] else kid >= |s.born|)
  }

  lemma CasIs(s: State, pid: nat, r: Rotation, rsa: Kid, ec: Kid)
    requires pid in s.procs && s.procs[pid] == CasMeta(r, rsa, ec)
    ensures Step(s, Go(pid)) == CasMetaStep(s, pid, r, rsa, ec)
  {
  }

  ghost predicate AtRotation(s: State, pid: nat, r: Rotation) {
    && pid in s.procs && s.procs[pid] == CreateKey(NextRsa(r)) && s.ring == Some(Cell(r.meta, r.rev))
    && r.rev == r.meta.version
    && forall i :: 0 <= i < |r.meta.retired| ==> r.meta.retired[i].name.version < r.meta.version
  }

  /** Both keys of the next version are made or found. */
  ghost predicate BothHad(s: State, s': State, pid: nat, r: Rotation, rsa: Kid, ec: Kid) {
    && s'.procs == s.procs[pid := CasMeta(r, rsa, ec)] && s'.ring == s.ring
    && NamedRecord(s, s', KeyName(RS256, r.meta.version + 1), rsa)
    && NamedRecord(s, s', KeyName(ES256, r.meta.version + 1), ec)
    && (forall name :: name in s'.keys <==> name in s.keys || name.version == r.meta.version + 1)
  }

  lemma HasBoth(s: State, pid: nat, r: Rotation) returns (s': State, rsa: Kid, ec: Kid)
    requires AtRotation(s, pid, r)
    ensures Reaches(s, pid, s') && BothHad(s, s', pid, r, rsa, ec)
  {
    var s1;
    s1, rsa := CreatesOrLoads(s, pid, NextRsa(r));
    s', ec := CreatesOrLoads(s1, pid, NextEc(r, rsa));
    ReachesOn(s, pid, s1, s');
    BornGrows(s, pid, s1);
    BothAre(s, s1, s', pid, r, rsa, ec);
  }

  lemma BothAre(s: State, s1: State, s': State, pid: nat, r: Rotation, rsa: Kid, ec: Kid)
    requires KeyHad(s, s1, pid, KeyName(RS256, r.meta.version + 1), rsa, CreateKey(NextEc(r, rsa)))
    requires KeyHad(s1, s', pid, KeyName(ES256, r.meta.version + 1), ec, CasMeta(r, rsa, ec))
    requires |s.born| <= |s1.born|
    ensures BothHad(s, s', pid, r, rsa, ec)
  {
    BothNames(s.keys, s'.keys, r.meta.version + 1, rsa, ec);
  }

  lemma BothNames(keys: map<KeyName, Kid>, keys': map<KeyName, Kid>, version: nat, rsa: Kid, ec: Kid)
    requires keys' == keys[KeyName(RS256, version) := rsa][KeyName(ES256, version) := ec]
    ensures forall name :: name in keys' <==> name in keys || name.version == version
  {
    forall name: KeyName | name.version == version ensures name in keys' {
      match name.alg {
        case RS256 => assert name == KeyName(RS256, version);
        case ES256 => assert name == KeyName(ES256, version);
      }
    }
  }

  /** Both keys made or found, the swap succeeds, and the purge spares them. */
  lemma RotationEnds(s: State, pid: nat, r: Rotation) returns (s': State)
    requires AtRotation(s, pid, r)
    ensures Reaches(s, pid, s') && RotatedTo(s, s', pid, r.meta.version + 1)
            && Cleaned(s, s', r.meta.version + 1, r.meta.retired, r.now)
  {
    var s1, rsa, ec := HasBoth(s, pid, r);
    s' := SwapsAndPurges(s1, pid, r, rsa, ec);
    ReachesOn(s, pid, s1, s');
    EndsRotated(s, s1, s', pid, r, rsa, ec);
    EndsCleaned(s, s1, s', pid, r, rsa, ec);
  }

  /** The ring is swapped, and only older records are purged. */
  ghost predicate Swapped(s: State, s': State, pid: nat, r: Rotation, rsa: Kid, ec: Kid) {
    && pid in s'.procs && s'.procs[pid] == Done(Rotated(r.meta.version + 1))
    && s'.ring == Some(Cell(NextMeta(r.meta, r.now, rsa, ec), r.rev + 1))
    && Without(s.keys, s'.keys, ExpiredNames(r.meta.retired, r.now))
  }

  lemma SwapsAndPurges(s: State, pid: nat, r: Rotation, rsa: Kid, ec: Kid) returns (s': State)
    requires pid in s.procs && s.procs[pid] == CasMeta(r, rsa, ec) && s.ring.Some? && s.ring.value.rev == r.rev
    requires forall i :: 0 <= i < |r.meta.retired| ==> r.meta.retired[i].name.version < r.meta.version
    ensures Reaches(s, pid, s') && Swapped(s, s', pid, r, rsa, ec)
  {
    CasIs(s, pid, r, rsa, ec);
    ReachesNext(s, pid);
    var s1 := SwapDone(s, pid, r, rsa, ec);
    s' := PurgesAll(s1, pid, r.meta.version + 1, ExpiredNames(r.meta.retired, r.now));
    ReachesOn(s, pid, s1, s');
  }

  lemma SwapDone(s: State, pid: nat, r: Rotation, rsa: Kid, ec: Kid) returns (s': State)
    requires s.ring.Some? && s.ring.value.rev == r.rev
    ensures s' == CasMetaStep(s, pid, r, rsa, ec) && s'.keys == s.keys && pid in s'.procs
    ensures s'.ring == Some(Cell(NextMeta(r.meta, r.now, rsa, ec), r.rev + 1))
    ensures s'.procs[pid] == Purge(r.meta.version + 1, ExpiredNames(r.meta.retired, r.now))
  {
    s' := CasMetaStep(s, pid, r, rsa, ec);
  }

  lemma BornGrows(s: State, pid: nat, s': State)
    requires Reaches(s, pid, s')
    ensures |s.born| <= |s'.born|
  {
    var n: nat :| After(s, pid, n) == s';
    BornGrowsBy(s, pid, n);
  }

  lemma {:induction false} BornGrowsBy(s: State, pid: nat, n: nat)
    ensures |s.born| <= |After(s, pid, n).born|
  {
    if n > 0 {
      BornGrowsBy(s, pid, n - 1);
      BornGrowsOnce(After(s, pid, n - 1), pid);
    }
  }

  lemma BornGrowsOnce(s: State, pid: nat)
    ensures |s.born| <= |Step(s, Go(pid)).born|
  {
  }

  lemma EndsRotated(s: State, s1: State, s': State, pid: nat, r: Rotation, rsa: Kid, ec: Kid)
    requires AtRotation(s, pid, r) && BothHad(s, s1, pid, r, rsa, ec) && Swapped(s1, s', pid, r, rsa, ec)
    ensures RotatedTo(s, s', pid, r.meta.version + 1)
  {
    ExpiredOlder(r.meta.retired, r.now, r.meta.version);
  }

  lemma EndsCleaned(s: State, s1: State, s': State, pid: nat, r: Rotation, rsa: Kid, ec: Kid)
    requires BothHad(s, s1, pid, r, rsa, ec) && Swapped(s1, s', pid, r, rsa, ec)
    ensures Cleaned(s, s', r.meta.version + 1, r.meta.retired, r.now)
  {
    forall name ensures name in ExpiredNames(r.meta.retired, r.now) <==> Overdue(r.meta.retired, name, r.now) {
      OverdueNames(r.meta.retired, r.now, name);
    }
  }

  // ----- bootstrap -----

  lemma MetaIs(s: State, pid: nat, k: Cont, rsa: Kid, ec: Kid)
    requires pid in s.procs && s.procs[pid] == CreateMeta(k, rsa, ec) && s.ring.None?
    ensures var m := FirstMeta(s.clock, rsa, ec);
            Step(s, Go(pid)) == Set(s.(ring := Some(Cell(m, 1)), log := s.log + [Commit(m, s.clock, pid)]), pid,
                AfterMeta(k, m, 1))
  {
  }

  /** The first ring, with the records of version 1 as they are stored. */
  ghost predicate Bootstrapped(s: State, s': State, pid: nat, k: Cont) {
    && s'.ring.Some? && s'.ring.value.rev == 1 && s'.clock == s.clock
    && var m := s'.ring.value.value;
    && m.version == 1 && m.retired == [] && s'.procs == s.procs[pid := AfterMeta(k, m, 1)]
    && NamedRecord(s, s', KeyName(RS256, 1), m.rsaKid) && NamedRecord(s, s', KeyName(ES256, 1), m.ecKid)
    && s'.keys == s.keys[KeyName(RS256, 1) := m.rsaKid][KeyName(ES256, 1) := m.ecKid]
  }

  lemma Bootstraps(s: State, pid: nat, k: Cont) returns (s': State)
    requires pid in s.procs && s.procs[pid] == CreateKey(BootRsa(k)) && s.ring.None?
    ensures Reaches(s, pid, s') && Bootstrapped(s, s', pid, k)
  {
    var s1, rsa := CreatesOrLoads(s, pid, BootRsa(k));
    var s2, ec := CreatesOrLoads(s1, pid, BootEc(k, rsa));
    ReachesOn(s, pid, s1, s2);
    MetaIs(s2, pid, k, rsa, ec);
    ReachesNext(s2, pid);
    s' := Step(s2, Go(pid));
    ReachesOn(s, pid, s2, s');
    BornGrows(s, pid, s1);
  }

  lemma LoadIs(s: State, pid: nat, k: Cont)
    requires pid in s.procs && s.procs[pid] == LoadMeta(k)
    ensures Step(s, Go(pid))
         == Set(s, pid, if s.ring.Some? then AfterMeta(k, s.ring.value.value, s.ring.value.rev)
             else CreateKey(BootRsa(k)))
  {
  }

  /** The ring is there; or it is made first. */
  ghost predicate Loaded(s: State, s': State, pid: nat, k: Cont) {
    && s'.ring.Some? && s'.clock == s.clock
    && s'.procs == s.procs[pid := AfterMeta(k, s'.ring.value.value, s'.ring.value.rev)]
    && (if s.ring.Some? then s' == Set(s, pid, AfterMeta(k, s.ring.value.value, s.ring.value.rev))
        else Bootstrapped(Set(s, pid, CreateKey(BootRsa(k))), s', pid, k))
  }

  lemma Loads(s: State, pid: nat, k: Cont) returns (s': State)
    requires pid in s.procs && s.procs[pid] == LoadMeta(k)
    ensures Reaches(s, pid, s') && Loaded(s, s', pid, k)
  {
    LoadIs(s, pid, k);
    ReachesNext(s, pid);
    s' := Step(s, Go(pid));
    if s.ring.None? {
      var s1 := s';
      s' := Bootstraps(s1, pid, k);
      ReachesOn(s, pid, s1, s');
    }
  }

  // ----- a rotation alone -----

  lemma BeginRotate(s: State, pid: nat)
    requires pid !in s.procs
    ensures Step(s, Begin(pid, Rotate)) == Set(s, pid, CaptureNow(0, |s.log|))
    ensures Step(Set(s, pid, CaptureNow(0, |s.log|)), Go(pid)) == Set(s, pid, LoadMeta(Rotating(0, s.clock, |s.log|)))
  {
  }

  lemma RotationReady(s: State, s': State, pid: nat, k: Cont)
    requires Inv(s) && k.Rotating? && Loaded(Set(s, pid, LoadMeta(k)), s', pid, k)
    ensures var m := s'.ring.value.value;
            && AtRotation(s', pid, Rotation(k.attempt, k.now, k.base, m, m.version))
            && m.version == (if s.ring.Some? then |s.log| else 1)
            && (forall name :: name in s'.keys <==> name in s.keys || (s.ring.None? && name.version == 1))
            && (forall name :: name in s.keys ==> s'.keys[name] == s.keys[name])
  {
    if s.ring.Some? {
      assert MetaOk(s.log, |s.log| - 1);
      var m := s.ring.value.value;
      forall i | 0 <= i < |m.retired| ensures m.retired[i].name.version < m.version {
        assert EntryOk(s.log, m.retired[i], |s.log|);
      }
    }
    if s.ring.None? {
      FirstNames(s.keys, s'.keys, s'.ring.value.value);
    }
  }

  lemma FirstNames(keys: map<KeyName, Kid>, keys': map<KeyName, Kid>, m: Meta)
    requires keys' == keys[KeyName(RS256, 1) := m.rsaKid][KeyName(ES256, 1) := m.ecKid]
    requires KeyName(RS256, 1) in keys ==> m.rsaKid == keys[KeyName(RS256, 1)]
    requires KeyName(ES256, 1) in keys ==> m.ecKid == keys[KeyName(ES256, 1)]
    ensures forall name :: name in keys' <==> name in keys || name.version == 1
    ensures forall name :: name in keys ==> keys'[name] == keys[name]
  {
    forall name: KeyName | name.version == 1 ensures name == KeyName(RS256, 1) || name == KeyName(ES256, 1) {
      match name.alg {
        case RS256 => assert name == KeyName(RS256, 1);
        case ES256 => assert name == KeyName(ES256, 1);
      }
    }
  }

  /** From every reachable state a rotation that runs alone ends with the version after the one it
      found, or with version 2 if it had to bootstrap. The ring then names the two records
      stored for that version: those that others left under its names, or else new ones. Of
      the other records exactly those go whose grace was over in the ring that was found. */
  lemma RotateAlone(s: State, pid: nat) returns (s': State)
    requires Reachable(s) && pid !in s.procs
    ensures Reaches(Step(s, Begin(pid, Rotate)), pid, s')
    ensures RotatedTo(s, s', pid, if s.ring.Some? then |s.log| + 1 else 2)
    ensures if s.ring.Some? then Cleaned(s, s', |s.log| + 1, s.ring.value.value.retired, s.clock)
            else FirstRecords(s, s')
  {
    ReachableInv(s);
    BeginRotate(s, pid);
    var s0, k := Set(s, pid, CaptureNow(0, |s.log|)), Rotating(0, s.clock, |s.log|);
    ReachesNext(s0, pid);
    s' := RotateLoaded(s, pid, k);
    ReachesOn(s0, pid, Set(s, pid, LoadMeta(k)), s');
  }

  lemma RotateLoaded(s: State, pid: nat, k: Cont) returns (s': State)
    requires Inv(s) && k == Rotating(0, s.clock, |s.log|)
    ensures Reaches(Set(s, pid, LoadMeta(k)), pid, s')
    ensures RotatedTo(s, s', pid, if s.ring.Some? then |s.log| + 1 else 2)
    ensures if s.ring.Some? then Cleaned(s, s', |s.log| + 1, s.ring.value.value.retired, s.clock)
            else FirstRecords(s, s')
  {
    var s0 := Set(s, pid, LoadMeta(k));
    var s1 := Loads(s0, pid, k);
    RotationReady(s, s1, pid, k);
    var m := s1.ring.value.value;
    s' := RotationEnds(s1, pid, Rotation(k.attempt, k.now, k.base, m, m.version));
    ReachesOn(s0, pid, s1, s');
    BornGrows(s0, pid, s1);
    FromTheStart(s, s1, s', pid, m.version + 1);
    CleanedFromTheStart(s, s1, s', pid, k, m);
  }

  /** The records of versions 1 and 2 are added, and none is taken away. */
  ghost predicate FirstRecords(s: State, s': State) {
    forall name :: name in s'.keys <==> name in s.keys || 1 <= name.version <= 2
  }

  lemma CleanedFromTheStart(s: State, s1: State, s': State, pid: nat, k: Cont, m: Meta)
    requires Inv(s) && k.Rotating? && Loaded(Set(s, pid, LoadMeta(k)), s1, pid, k) && m == s1.ring.value.value
    requires Cleaned(s1, s', m.version + 1, m.retired, k.now) && k.now == s.clock
    ensures if s.ring.Some? then Cleaned(s, s', |s.log| + 1, s.ring.value.value.retired, s.clock)
            else FirstRecords(s, s')
  {
    RotationReady(s, s1, pid, k);
  }

  lemma FromTheStart(s: State, s1: State, s': State, pid: nat, version: nat)
    requires RotatedTo(s1, s', pid, version) && |s.born| <= |s1.born| && version > 1
    requires forall name :: name in s1.keys <==> name in s.keys || (s.ring.None? && name.version == 1)
    requires forall name :: name in s.keys ==> s1.keys[name] == s.keys[name]
    ensures RotatedTo(s, s', pid, version)
  {
  }

  lemma DoneStays(s: State, pid: nat)
    requires pid in s.procs && s.procs[pid].Done?
    ensures Step(s, Go(pid)) == s
  {
  }

  // ----- a signature alone -----

  lemma BeginSign(s: State, pid: nat, alg: Alg)
    requires pid !in s.procs
    ensures Step(s, Begin(pid, Sign(alg))) == Set(s, pid, LoadMeta(Heading(alg, s.clock)))
  {
  }

  lemma RsaIs(s: State, pid: nat, k: Cont, m: Meta)
    requires pid in s.procs && s.procs[pid] == LoadSigner(k, m) && KeyName(RS256, m.version) in s.keys
    ensures Step(s, Go(pid)) == Set(s, pid, LoadSignerEc(k, m, s.keys[KeyName(RS256, m.version)]))
  {
  }

  function TokenBy(s: State, k: Cont, m: Meta, rsa: Kid): Token
    requires k.Signing? && KeyName(ES256, m.version) in s.keys
  {
    Token(k.alg, k.iat, k.headerKid, k.headerVersion, if k.alg == RS256 then rsa
        else s.keys[KeyName(ES256, m.version)], m.version)
  }

  lemma SignIs(s: State, pid: nat, k: Cont, m: Meta, rsa: Kid)
    requires pid in s.procs && s.procs[pid] == LoadSignerEc(k, m, rsa) && k.Signing?
             && KeyName(ES256, m.version) in s.keys
    ensures var t := TokenBy(s, k, m, rsa);
            Step(s, Go(pid)) == Set(s.(tokens := s.tokens + {t}), pid, Done(Signed(t)))
  {
  }

  ghost predicate SignedBy(s: State, s': State, pid: nat, t: Token, m: Meta) {
    && s'.procs == s.procs[pid := Done(Signed(t))] && s'.tokens == s.tokens + {t}
    && s'.ring == s.ring && s'.log == s.log && s'.clock == s.clock
    && t.iat == s.clock && t.headerVersion == t.signerVersion == m.version && t.headerKid == t.signer == KidOf(m, t.alg)
  }

  /** Where the ring exists, a signature made alone is by the current key, under its kid. */
  lemma SignAlone(s: State, pid: nat, alg: Alg) returns (s': State, t: Token)
    requires Reachable(s) && pid !in s.procs && s.ring.Some?
    ensures Reaches(Step(s, Begin(pid, Sign(alg))), pid, s') && t.alg == alg
            && SignedBy(s, s', pid, t, s.ring.value.value)
  {
    CurrentMaterial(s);
    BeginSign(s, pid, alg);
    var m := s.ring.value.value;
    var k := Signing(alg, s.clock, KidOf(m, alg), m.version);
    var s0, s1, s2 := Set(s, pid, LoadMeta(Heading(alg, s.clock))), Set(s, pid, LoadMeta(k)),
        Set(s, pid, LoadSigner(k, m));
    LoadIs(s0, pid, Heading(alg, s.clock));
    ReachesNext(s0, pid);
    LoadIs(s1, pid, k);
    ReachesNext(s1, pid);
    ReachesOn(s0, pid, s1, s2);
    s', t := SignsFrom(s, s2, pid, k, m);
    ReachesOn(s0, pid, s2, s');
  }

  lemma SignsFrom(s: State, s2: State, pid: nat, k: Cont, m: Meta) returns (s': State, t: Token)
    requires s2 == Set(s, pid, LoadSigner(k, m)) && k.Signing? && k.iat == s.clock
    requires k.headerVersion == m.version && k.headerKid == KidOf(m, k.alg)
    requires KeyName(RS256, m.version) in s.keys && s.keys[KeyName(RS256, m.version)] == m.rsaKid
    requires KeyName(ES256, m.version) in s.keys && s.keys[KeyName(ES256, m.version)] == m.ecKid
    ensures Reaches(s2, pid, s') && SignedBy(s, s', pid, t, m) && t.alg == k.alg
  {
    RsaIs(s2, pid, k, m);
    ReachesNext(s2, pid);
    var s3 := Set(s, pid, LoadSignerEc(k, m, m.rsaKid));
    SignIs(s3, pid, k, m, m.rsaKid);
    ReachesNext(s3, pid);
    t := TokenBy(s3, k, m, m.rsaKid);
    s' := Step(s3, Go(pid));
    ReachesOn(s2, pid, s3, s');
  }

  // ----- a reading of the ring alone -----

  /** The reading is over: a key set, or a verdict. */
  ghost predicate ReadOver(s: State, pid: nat, goal: Goal, now: nat, m: Meta) {
    && pid in s.procs && s.procs[pid].Done?
    && match goal
       case Publish => s.procs[pid].outcome.Jwks? && s.procs[pid].outcome.reader.now == now
           && s.procs[pid].outcome.reader.meta == m
       case Check(t) =>
         s.procs[pid].outcome.Verified? && s.procs[pid].outcome.token == t && s.procs[pid].outcome.now == now
  }

  /** The records are those that were there, less those overdue from some entry on. */
  ghost predicate CleanedFrom(s: State, s': State, rs: seq<Retired>, i: nat, now: nat) {
    && (forall name :: name in s'.keys <==> name in s.keys && !OverdueFrom(rs, i, name, now))
    && (forall name :: name in s'.keys ==> s'.keys[name] == s.keys[name])
  }

  ghost predicate OverdueFrom(rs: seq<Retired>, i: nat, name: KeyName, now: nat) {
    exists j :: i <= j < |rs| && rs[j].name == name && !RetiredActive(rs[j].retiredAt, now)
  }

  lemma OneCleaned(s: State, s1: State, s': State, pid: nat, rd: Reader, i: nat)
    requires i < |rd.meta.retired| && s1 == ReadRetiredStep(s, pid, rd, i)
    requires CleanedFrom(s1, s', rd.meta.retired, i + 1, rd.now)
    ensures CleanedFrom(s, s', rd.meta.retired, i, rd.now)
  {
    var r := rd.meta.retired[i];
    forall name ensures OverdueFrom(rd.meta.retired, i, name, rd.now) <==>
                        (r.name == name && !RetiredActive(r.retiredAt, rd.now))
                        || OverdueFrom(rd.meta.retired, i + 1, name, rd.now) {
    }
  }

  lemma BeginRead(s: State, pid: nat)
    requires pid !in s.procs
    ensures Step(s, Begin(pid, ReadJwks)) == Set(s, pid, LoadMeta(Reading(Publish)))
    ensures forall t :: t in s.tokens ==> Step(s, Begin(pid, Verify(t))) == Set(s, pid, LoadMeta(Reading(Check(t))))
  {
  }

  lemma ClockIs(s: State, pid: nat, goal: Goal, m: Meta)
    requires pid in s.procs && s.procs[pid] == ReadClock(goal, m)
    ensures Step(s, Go(pid)) == Set(s, pid, ReadRsa(Reader(goal, m, s.clock, [])))
  {
  }

  lemma ReadRsaIs(s: State, pid: nat, rd: Reader)
    requires pid in s.procs && s.procs[pid] == ReadRsa(rd) && KeyName(RS256, rd.meta.version) in s.keys
    ensures Step(s, Go(pid)) == Set(s, pid, ReadEc(rd.(keys := [Jwk(RS256, s.keys[KeyName(RS256, rd.meta.version)])])))
  {
  }

  lemma ReadEcGoes(s: State, pid: nat, rd: Reader)
    requires pid in s.procs && s.procs[pid] == ReadEc(rd)
    ensures var s' := Step(s, Go(pid));
            && pid in s'.procs && s'.procs[pid].ReadRetired? && s'.procs[pid].i == 0 && s'.clock == s.clock
                && s'.keys == s.keys
            && SameReader(s'.procs[pid].reader, rd)
  {
  }

  ghost predicate SameReader(a: Reader, b: Reader) { a.goal == b.goal && a.meta == b.meta && a.now == b.now }

  lemma RetiredIs(s: State, pid: nat, rd: Reader, i: nat)
    requires pid in s.procs && s.procs[pid] == ReadRetired(rd, i)
    ensures Step(s, Go(pid)) == ReadRetiredStep(s, pid, rd, i)
  {
  }

  lemma TimeIs(s: State, pid: nat, rd: Reader)
    requires pid in s.procs && s.procs[pid] == CheckTime(rd) && rd.goal.Check?
    ensures Step(s, Go(pid))
         == Set(s, pid, Done(Verified(rd.goal.token, s.clock, SignatureOk(rd.goal.token, rd.keys)
             && TimesOk(rd.goal.token, s.clock))))
  {
  }

  lemma RetiredGoes(s: State, pid: nat, rd: Reader, i: nat)
    requires i < |rd.meta.retired|
    ensures var s' := ReadRetiredStep(s, pid, rd, i);
            && pid in s'.procs && s'.procs[pid].ReadRetired? && s'.procs[pid].i == i + 1 && s'.clock == s.clock
            && SameReader(s'.procs[pid].reader, rd)
  {
  }

  lemma {:induction false} ReadsRetired(s: State, pid: nat, rd: Reader, i: nat) returns (s': State)
    requires pid in s.procs && s.procs[pid] == ReadRetired(rd, i) && i <= |rd.meta.retired| && rd.now == s.clock
    ensures Reaches(s, pid, s') && ReadOver(s', pid, rd.goal, s.clock, rd.meta)
    ensures CleanedFrom(s, s', rd.meta.retired, i, rd.now)
    decreases |rd.meta.retired| - i
  {
    RetiredIs(s, pid, rd, i);
    ReachesNext(s, pid);
    var s1 := ReadRetiredStep(s, pid, rd, i);
    if i < |rd.meta.retired| {
      RetiredGoes(s, pid, rd, i);
      s' := ReadsRetired(s1, pid, s1.procs[pid].reader, i + 1);
      ReachesOn(s, pid, s1, s');
      OneCleaned(s, s1, s', pid, rd, i);
    } else if rd.goal.Publish? {
      s' := s1;
    } else {
      TimeIs(s1, pid, rd);
      ReachesNext(s1, pid);
      s' := Step(s1, Go(pid));
      ReachesOn(s, pid, s1, s');
    }
  }

  /** Where the ring exists, a reading that runs alone comes to its key set or its verdict, and
      takes away exactly the records whose grace is over. */
  lemma ReadsAlone(s: State, pid: nat, goal: Goal) returns (s': State)
    requires Reachable(s) && s.ring.Some? && pid !in s.procs
    ensures Reaches(Set(s, pid, LoadMeta(Reading(goal))), pid, s')
            && ReadOver(s', pid, goal, s.clock, s.ring.value.value)
    ensures CleanedFrom(s, s', s.ring.value.value.retired, 0, s.clock)
  {
    CurrentMaterial(s);
    var m := s.ring.value.value;
    var s0, s1 := Set(s, pid, LoadMeta(Reading(goal))), Set(s, pid, ReadClock(goal, m));
    LoadIs(s0, pid, Reading(goal));
    ReachesNext(s0, pid);
    ClockIs(s1, pid, goal, m);
    ReachesNext(s1, pid);
    var rd := Reader(goal, m, s.clock, []);
    var s2 := Set(s, pid, ReadRsa(rd));
    ReachesOn(s0, pid, s1, s2);
    s' := ReadsKeys(s, s2, pid, rd);
    ReachesOn(s0, pid, s2, s');
  }

  lemma ReadsKeys(s: State, s2: State, pid: nat, rd: Reader) returns (s': State)
    requires s2 == Set(s, pid, ReadRsa(rd)) && KeyName(RS256, rd.meta.version) in s.keys && rd.now == s.clock
    ensures Reaches(s2, pid, s') && ReadOver(s', pid, rd.goal, s.clock, rd.meta)
    ensures CleanedFrom(s, s', rd.meta.retired, 0, rd.now)
  {
    ReadRsaIs(s2, pid, rd);
    ReachesNext(s2, pid);
    var s3 := Step(s2, Go(pid));
    ReadEcGoes(s3, pid, s3.procs[pid].reader);
    ReachesNext(s3, pid);
    var s4 := Step(s3, Go(pid));
    ReachesOn(s2, pid, s3, s4);
    s' := ReadsRetired(s4, pid, s4.procs[pid].reader, 0);
    ReachesOn(s2, pid, s4, s');
  }

  /** Where every winning write was in time, a token signed alone and checked alone, `wait`
      seconds later, is accepted exactly for an hour and the leeway. */
  lemma SignThenVerify(s: State, p: nat, q: nat, alg: Alg, wait: nat) returns (s1: State, s2: State, t: Token)
    requires Reachable(s) && p !in s.procs && q !in s.procs && p != q && s.ring.Some?
    requires Timely(s.log) && s.clock + wait < U64_MAX
    ensures Reaches(Step(s, Begin(p, Sign(alg))), p, s1) && p in s1.procs && s1.procs[p] == Done(Signed(t))
            && t in s1.tokens
    ensures Reaches(Step(Step(s1, Tick(wait)), Begin(q, Verify(t))), q, s2)
    ensures q in s2.procs && s2.procs[q] == Done(Verified(t, s.clock + wait, wait <= 3630))
  {
    s1, t := SignAlone(s, p, alg);
    StillReachable(s, Begin(p, Sign(alg)));
    ReachesReachable(Step(s, Begin(p, Sign(alg))), p, s1);
    StillReachable(s1, Tick(wait));
    var later := s1.(clock := s.clock + wait);
    assert Step(s1, Tick(wait)) == later;
    s2 := VerifyAlone(later, q, t);
    var ok := s2.procs[q].outcome.ok;
    LogKept(later, q, t, s2);
    TokenVerifies(s2, q, t, s.clock + wait, ok);
  }

  lemma VerifyAlone(s: State, q: nat, t: Token) returns (s': State)
    requires Reachable(s) && q !in s.procs && s.ring.Some? && t in s.tokens
    ensures Reaches(Step(s, Begin(q, Verify(t))), q, s') && Reachable(s')
    ensures ReadOver(s', q, Check(t), s.clock, s.ring.value.value)
  {
    BeginRead(s, q);
    s' := ReadsAlone(s, q, Check(t));
    StillReachable(s, Begin(q, Verify(t)));
    ReachesReachable(Step(s, Begin(q, Verify(t))), q, s');
  }

  // ----- readers leave the ring alone -----

  /** The process reads for a check, or has finished. */
  ghost predicate OnlyReads(p: Proc) {
    || (p.LoadMeta? && Checking(p.k)) || (p.ReadClock? && p.goal.Check?) || (p.ReadRsa? && p.reader.goal.Check?)
    || (p.ReadEc? && p.reader.goal.Check?) || (p.ReadRetired? && p.reader.goal.Check?) || p.CheckTime?
    || (p.Done? && p.outcome.Verified?)
  }

  lemma ReadKeepsLog(s: State, q: nat)
    requires q in s.procs && OnlyReads(s.procs[q]) && s.ring.Some?
    ensures var s' := Step(s, Go(q));
            q in s'.procs && OnlyReads(s'.procs[q]) && s'.ring == s.ring && s'.log == s.log && s'.clock == s.clock
  {
  }

  lemma {:induction false} ReadsKeepLog(s: State, q: nat, n: nat)
    requires q in s.procs && OnlyReads(s.procs[q]) && s.ring.Some?
    ensures var s' := After(s, q, n);
            q in s'.procs && OnlyReads(s'.procs[q]) && s'.ring == s.ring && s'.log == s.log && s'.clock == s.clock
  {
    if n > 0 {
      ReadsKeepLog(s, q, n - 1);
      ReadKeepsLog(After(s, q, n - 1), q);
    }
  }

  lemma LogKept(s: State, q: nat, t: Token, s': State)
    requires q !in s.procs && s.ring.Some? && t in s.tokens && Reaches(Step(s, Begin(q, Verify(t))), q, s')
    ensures s'.log == s.log && s'.clock == s.clock
  {
    BeginRead(s, q);
    var n: nat :| After(Step(s, Begin(q, Verify(t))), q, n) == s';
    ReadsKeepLog(Step(s, Begin(q, Verify(t))), q, n);
  }
}
