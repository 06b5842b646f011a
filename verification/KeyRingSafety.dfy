/** The guarantees of the signing-key ring, over every run of any number of
    bootstraps, rotations, signatures, JWKS reads and verifications. */
module KeyRingSafety {
  import opened Kv
  import opened KeyRing
  import opened KeyRingInv
  import opened KeyRingFrame
  import opened KeyRingSteps
  import opened KeyRingMoves

  // ----- the invariant holds in every reachable state -----

  lemma WinnerStays(s: State, pid: nat)
    requires pid in s.procs && pid in Operate(s, pid).procs
    ensures var p, p' := s.procs[pid], Operate(s, pid).procs[pid];
            && (p.Purge? ==> (p'.Purge? && p'.version == p.version) || p' == Done(Rotated(p.version)))
            && (p.Done? ==> p' == p)
  {
  }

  lemma WritersKept(s: State, s': State, pid: nat)
    requires forall v :: 2 <= v <= |s.log| ==> WriterOk(s, v)
    requires pid in s.procs && pid in s'.procs && s' == Operate(s, pid)
    requires s'.procs == s.procs[pid := s'.procs[pid]] && s.log <= s'.log
    ensures forall v :: 2 <= v <= |s.log| ==> WriterOk(s', v)
  {
    WinnerStays(s, pid);
    forall v | 2 <= v <= |s.log| ensures WriterOk(s', v) {
      assert WriterOk(s, v);
    }
  }

  /** A version that appears was written by the process that moved. */
  lemma NewWriter(s: State, pid: nat)
    requires RingOk(s) && pid in s.procs && (s.procs[pid].CasMeta? ==> RotOk(s, s.procs[pid].r))
    ensures var s' := Operate(s, pid); forall v :: |s.log| < v <= |s'.log| && 2 <= v ==> WriterOk(s', v)
  {
    if !s.procs[pid].CasMeta? && !s.procs[pid].CreateMeta? {
      LogAfter(s, pid);
    }
  }

  lemma LogAfter(s: State, pid: nat)
    requires pid in s.procs && !s.procs[pid].CasMeta? && !s.procs[pid].CreateMeta?
    ensures Operate(s, pid).log == s.log && Operate(s, pid).ring == s.ring
  {
  }

  lemma LinksAppended(log: seq<Commit>, c: Commit)
    requires AllLinked(log)
    requires if log == [] then c.meta.retired == []
             else c.meta == NextMeta(log[|log| - 1].meta, c.meta.createdAt, c.meta.rsaKid, c.meta.ecKid)
    ensures AllLinked(log + [c])
  {
    forall n | 0 <= n < |log + [c]| ensures Linked(log + [c], n) {
      if n < |log| {
        assert Linked(log, n);
      }
    }
  }

  lemma LinkByCas(s: State, pid: nat, r: Rotation, rsa: Kid, ec: Kid)
    requires RingOk(s) && AllLinked(s.log) && (s.log != [] ==> s.log[|s.log| - 1].meta.version == |s.log|)
    requires RotOk(s, r)
    ensures AllLinked(CasMetaStep(s, pid, r, rsa, ec).log)
  {
    if s.ring.Some? && s.ring.value.rev == r.rev {
      LinksAppended(s.log, Commit(NextMeta(r.meta, r.now, rsa, ec), s.clock, pid));
    }
  }

  lemma LinksKept(s: State, pid: nat)
    requires CoreInv(s) && AllLinked(s.log) && pid in s.procs && ProcInv(s, pid, s.procs[pid])
    ensures AllLinked(Operate(s, pid).log)
  {
    var p := s.procs[pid];
    if p.CasMeta? {
      if s.log != [] {
        assert MetaOk(s.log, |s.log| - 1);
      }
      LinkByCas(s, pid, p.r, p.rsa, p.ec);
    } else if p.CreateMeta? {
      if s.ring.None? {
        LinksAppended(s.log, Commit(FirstMeta(s.clock, p.rsa, p.ec), s.clock, pid));
      }
    } else {
      LogAfter(s, pid);
    }
  }

  lemma OthersKept(s: State, s': State)
    requires Inv(s) && Evolves(s, s')
    ensures forall pid :: pid in s.procs ==> ProcInv(s', pid, s.procs[pid])
  {
    forall pid | pid in s.procs ensures ProcInv(s', pid, s.procs[pid]) {
      ProcKept(s, s', pid, s.procs[pid]);
    }
  }

  lemma WritersSame(s: State, s': State)
    requires forall v :: 2 <= v <= |s.log| ==> WriterOk(s, v)
    requires s'.log == s.log && forall w :: w in s.procs ==> w in s'.procs && s'.procs[w] == s.procs[w]
    ensures forall v :: 2 <= v <= |s'.log| ==> WriterOk(s', v)
  {
    forall v | 2 <= v <= |s'.log| ensures WriterOk(s', v) {
      assert WriterOk(s, v);
    }
  }

  /** A process that starts knows what its first step needs. */
  lemma Begun(s: State, pid: nat, task: Task)
    requires CoreInv(s) && pid !in s.procs
    ensures var s' := Step(s, Begin(pid, task));
            s' == s.(procs := s'.procs) && (s' == s || (s'.procs == s.procs[pid := s'.procs[pid]]
                && ProcInv(s', pid, s'.procs[pid])))
  {
    assert Step(s, Begin(pid, task)) == s || pid in Step(s, Begin(pid, task)).procs;
  }

  lemma BeginKeepsInv(s: State, pid: nat, task: Task)
    requires Inv(s) && pid !in s.procs
    ensures Inv(Step(s, Begin(pid, task)))
  {
    var s' := Step(s, Begin(pid, task));
    Begun(s, pid, task);
    OnlyProcs(s, s');
    OthersKept(s, s');
    WritersSame(s, s');
  }

  lemma TickKeepsInv(s: State, seconds: nat)
    requires Inv(s)
    ensures Inv(Step(s, Tick(seconds)))
  {
    var s' := Step(s, Tick(seconds));
    Ticked(s, s');
    OthersKept(s, s');
    WritersSame(s, s');
  }

  lemma GoKeepsInv(s: State, pid: nat)
    requires Inv(s) && pid in s.procs
    ensures Inv(Operate(s, pid))
  {
    EveryMove(s, pid);
    OthersKept(s, Operate(s, pid));
    WritersKept(s, Operate(s, pid), pid);
    NewWriter(s, pid);
    LinksKept(s, pid);
  }

  lemma StepKeepsInv(s: State, e: Event)
    requires Inv(s)
    ensures Inv(Step(s, e))
  {
    match e {
      case Tick(d) => TickKeepsInv(s, d);
      case Begin(pid, task) =>
        if pid !in s.procs {
          BeginKeepsInv(s, pid, task);
        }
      case Go(pid) =>
        if pid in s.procs {
          GoKeepsInv(s, pid);
        }
    }
  }

  lemma {:induction false} RunKeepsInv(clock: nat, es: seq<Event>)
    ensures Inv(Run(Start(clock), es))
  {
    if es != [] {
      RunKeepsInv(clock, es[..|es| - 1]);
      StepKeepsInv(Run(Start(clock), es[..|es| - 1]), es[|es| - 1]);
    }
  }

  lemma ReachableInv(s: State)
    requires Reachable(s)
    ensures Inv(s)
  {
    var clock, es :| s == Run(Start(clock), es);
    RunKeepsInv(clock, es);
  }

  // ----- key material -----

  /** Once the ring exists, the two records its version names exist and hold
      exactly its kids. */
  lemma CurrentMaterial(s: State)
    requires Reachable(s) && s.ring.Some?
    ensures var m := s.ring.value.value;
            && KeyName(RS256, m.version) in s.keys && s.keys[KeyName(RS256, m.version)] == m.rsaKid
            && KeyName(ES256, m.version) in s.keys && s.keys[KeyName(ES256, m.version)] == m.ecKid
  {
    ReachableInv(s);
    var n := |s.log|;
    assert MetaOk(s.log, n - 1);
    assert Stored(s, n, RS256) && Stored(s, n, ES256);
  }

  /** No purge, however stale the snapshot it works from, removes or replaces a
      retired record that the ring lists and whose grace has not run out. */
  lemma GraceMaterial(s: State, i: nat)
    requires Reachable(s) && s.ring.Some? && i < |s.ring.value.value.retired|
    ensures var r := s.ring.value.value.retired[i];
            RetiredActive(r.retiredAt, s.clock) ==> r.name in s.keys && s.keys[r.name] == r.kid
  {
    ReachableInv(s);
    var n, r := |s.log|, s.ring.value.value.retired[i];
    assert MetaOk(s.log, n - 1);
    assert EntryOk(s.log, r, n);
    if RetiredActive(r.retiredAt, s.clock) {
      assert Stored(s, r.name.version, r.name.alg);
    }
  }

  /** The JWKS of a reader for which no grace ran out meanwhile is the current RSA
      key, the current EC key, then the in-grace entries under their recorded kids. */
  lemma JwksExact(s: State, pid: nat, rd: Reader)
    requires Reachable(s) && pid in s.procs && s.procs[pid] == Done(Jwks(rd))
    requires s.ring.Some? && s.ring.value.value == rd.meta
    requires forall i :: 0 <= i < |rd.meta.retired| && RetiredActive(rd.meta.retired[i].retiredAt, rd.now) ==>
               RetiredActive(rd.meta.retired[i].retiredAt, s.clock)
    ensures rd.keys == Expected(rd.meta, rd.now, |rd.meta.retired|)
  {
    ReachableInv(s);
    assert ProcInv(s, pid, s.procs[pid]);
    assert MetaOk(s.log, |s.log| - 1);
    assert Untouched(s, rd, |rd.meta.retired|);
  }

  // ----- tokens -----

  /** Every rotation that won wrote the ring less than so many seconds after it had
      captured the retirement time. */
  ghost predicate WritesWithin(log: seq<Commit>, seconds: nat) {
    forall w :: 1 <= w < |log| ==> log[w].at < RetiredAt(log, w) + seconds
  }

  /** Less than 570 seconds. */
  ghost predicate Timely(log: seq<Commit>) { WritesWithin(log, RETIRED_GRACE_SECS - TOKEN_LIFETIME - LEEWAY) }

  lemma TimelyGrace(log: seq<Commit>, t: Token, now: nat)
    requires Timely(log) && GraceTooShort(log, t, now) && now < U64_MAX
    ensures !TimesOk(t, now)
  {
    var w :| 1 <= w < |log| && t.iat <= log[w].at && !RetiredActive(RetiredAt(log, w), now);
    assert log[w].at < RetiredAt(log, w) + 570;
  }

  /** Through any number of rotations, a verification accepts a token exactly when
      its two signing reads saw one version and its lifetime, leeway included, is
      not over. */
  lemma TokenVerifies(s: State, pid: nat, t: Token, now: nat, ok: bool)
    requires Reachable(s) && Timely(s.log) && s.clock < U64_MAX
    requires pid in s.procs && s.procs[pid] == Done(Verified(t, now, ok))
    ensures ok <==> t.headerVersion == t.signerVersion && now <= t.iat + TOKEN_LIFETIME + LEEWAY
  {
    ReachableInv(s);
    assert ProcInv(s, pid, s.procs[pid]);
    assert TokenOk(s, t);
    if GraceTooShort(s.log, t, now) {
      TimelyGrace(s.log, t, now);
    }
  }

  /** The key outlives every token signed up to the write that retired it. */
  ghost predicate OutlivesTokens(retiredAt: nat, cas: nat) {
    forall t: Token, now :: t.iat <= cas && TimesOk(t, now) ==> RetiredActive(retiredAt, now)
  }

  /** 570 seconds is the exact margin for a rotation's write at `cas`. */
  lemma GraceMargin(retiredAt: nat, cas: nat)
    requires cas + RETIRED_GRACE_SECS < U64_MAX && retiredAt <= cas
    ensures OutlivesTokens(retiredAt, cas) <==> cas < retiredAt + 570
  {
    if cas >= retiredAt + 570 {
      var t := Token(RS256, cas, 0, 1, 0, 1);
      assert TimesOk(t, cas + TOKEN_LIFETIME + LEEWAY);
    }
  }

  // ----- rotations -----

  /** Version by version, each rotation that reports success wrote exactly the
      version it reports, and each version after the first was written by one. */
  lemma ConsecutiveVersions(s: State)
    requires Reachable(s)
    ensures s.ring.Some? ==> s.ring.value.value.version == s.ring.value.rev == |s.log|
    ensures forall pid, v: nat :: pid in s.procs && s.procs[pid] == Done(Rotated(v)) ==>
              2 <= v <= |s.log| && s.log[v - 1].writer == pid && s.log[v - 1].meta.version == v
    ensures forall v :: 2 <= v <= |s.log| ==> WriterOk(s, v)
  {
    ReachableInv(s);
    forall n | 0 <= n < |s.log| ensures s.log[n].meta.version == n + 1 {
      assert MetaOk(s.log, n);
    }
    forall pid, v: nat | pid in s.procs && s.procs[pid] == Done(Rotated(v)) ensures WroteVersion(s, pid, v) {
      assert ProcInv(s, pid, s.procs[pid]);
    }
  }

  /** The pointer changes only when it is first created, or when a rotation that
      read exactly the current value replaces it by the next version. */
  lemma RingChanges(s: State, e: Event)
    requires Reachable(s) && Step(s, e).ring != s.ring
    ensures e.Go? && e.pid in s.procs && Moves(s, Step(s, e), e.pid)
  {
    ReachableInv(s);
    if e.Go? && e.pid in s.procs {
      MoveChangesRing(s, e.pid);
    }
  }

  ghost predicate Moves(s: State, s': State, pid: nat)
    requires pid in s.procs
  {
    && s'.ring.Some?
    && (s.ring.None? ==> s.procs[pid].CreateMeta? && s'.ring.value.value.version == 1)
    && (s.ring.Some? ==>
          && s.procs[pid].CasMeta?
          && s.procs[pid].r.meta == s.ring.value.value
          && s'.ring.value.value.version == s.ring.value.value.version + 1
          && s'.ring.value.rev == s.ring.value.rev + 1)
  }

  lemma MoveChangesRing(s: State, pid: nat)
    requires Inv(s) && pid in s.procs && Operate(s, pid).ring != s.ring
    ensures Moves(s, Operate(s, pid), pid)
  {
    if s.procs[pid].CasMeta? || s.procs[pid].CreateMeta? {
      assert ProcInv(s, pid, s.procs[pid]);
    } else {
      LogAfter(s, pid);
    }
  }

  /** A rotation that gives up was beaten by five versions that other processes
      wrote while it ran. */
  lemma LostToFiveWrites(s: State, pid: nat, base: nat)
    requires Reachable(s) && pid in s.procs && s.procs[pid] == Done(LostEveryRace(base))
    ensures |s.log| >= Rotatable(base) + MAX_ATTEMPTS
    ensures forall n :: Rotatable(base) <= n < |s.log| ==> s.log[n].writer != pid
  {
    ReachableInv(s);
    assert ProcInv(s, pid, s.procs[pid]);
    forall n | 1 <= n < |s.log| ensures s.log[n].writer != pid {
      assert WriterOk(s, n + 1);
    }
  }

  /** RSA and EC entries side by side, with versions between `low` and `high` in
      increasing order. */
  ghost predicate Pairs(rs: seq<Retired>, low: nat, high: nat) {
    rs == [] ||
    (&& |rs| >= 2
     && low < rs[0].name.version < high
     && rs[0].name.alg == RS256
     && rs[1].name == KeyName(ES256, rs[0].name.version)
     && rs[0].retiredAt == rs[1].retiredAt
     && Pairs(rs[2..], rs[0].name.version, high))
  }

  lemma {:induction false} PairsFiltered(rs: seq<Retired>, low: nat, low': nat, high: nat, now: nat)
    requires Pairs(rs, low, high) && low' <= low
    ensures Pairs(ActiveOnly(rs, now), low', high)
    decreases |rs|
  {
    if rs != [] {
      var rest := ActiveOnly(rs[2..], now);
      TwoFiltered(rs, now);
      if RetiredActive(rs[0].retiredAt, now) {
        PairsFiltered(rs[2..], rs[0].name.version, rs[0].name.version, high, now);
        assert ([rs[0], rs[1]] + rest)[2..] == rest;
      } else {
        PairsFiltered(rs[2..], rs[0].name.version, low', high, now);
      }
    }
  }

  lemma TwoFiltered(rs: seq<Retired>, now: nat)
    requires |rs| >= 2 && rs[0].retiredAt == rs[1].retiredAt
    ensures var rest := ActiveOnly(rs[2..], now);
            ActiveOnly(rs, now) == if RetiredActive(rs[0].retiredAt, now) then [rs[0], rs[1]] + rest else rest
  {
    assert rs[1..][1..] == rs[2..];
    assert ActiveOnly(rs[1..], now) ==
           (if RetiredActive(rs[1].retiredAt, now) then [rs[1]] else []) + ActiveOnly(rs[2..], now);
  }

  lemma {:induction false} PairsAppended(rs: seq<Retired>, low: nat, m: Meta, now: nat)
    requires Pairs(rs, low, m.version) && low < m.version
    ensures Pairs(rs + RetirePair(m, now), low, m.version + 1)
    decreases |rs|
  {
    var all := rs + RetirePair(m, now);
    if rs == [] {
      assert all == RetirePair(m, now) && all[2..] == [];
    } else {
      PairsAppended(rs[2..], rs[0].name.version, m, now);
      assert all[2..] == rs[2..] + RetirePair(m, now);
    }
  }

  lemma PairsNext(m: Meta, now: nat, rsa: Kid, ec: Kid)
    requires m.version > 0 && Pairs(m.retired, 0, m.version)
    ensures Pairs(NextMeta(m, now, rsa, ec).retired, 0, m.version + 1)
  {
    PairsFiltered(m.retired, 0, 0, m.version, now);
    PairsAppended(ActiveOnly(m.retired, now), 0, m, now);
  }

  lemma PairsLinked(log: seq<Commit>, n: nat)
    requires 0 < n < |log| && Linked(log, n) && log[n - 1].meta.version == n
    requires Pairs(log[n - 1].meta.retired, 0, n)
    ensures Pairs(log[n].meta.retired, 0, n + 1)
  {
    PairsNext(log[n - 1].meta, log[n].meta.createdAt, log[n].meta.rsaKid, log[n].meta.ecKid);
  }

  lemma {:induction false} PairsInLog(log: seq<Commit>, n: nat)
    requires n < |log| && forall i :: 0 <= i < |log| ==> Linked(log, i) && log[i].meta.version == i + 1
    ensures Pairs(log[n].meta.retired, 0, n + 1)
  {
    assert Linked(log, n);
    if n > 0 {
      PairsInLog(log, n - 1);
      assert log[n - 1].meta.version == n;
      PairsLinked(log, n);
    }
  }

  /** In every ring value ever written, the retired entries come in RSA/EC pairs,
      each older version at most once. */
  lemma RetiredInPairs(s: State, n: nat)
    requires Reachable(s) && n < |s.log|
    ensures Pairs(s.log[n].meta.retired, 0, n + 1)
  {
    ReachableInv(s);
    forall i | 0 <= i < |s.log| ensures s.log[i].meta.version == i + 1 {
      assert MetaOk(s.log, i);
    }
    PairsInLog(s.log, n);
  }
}
