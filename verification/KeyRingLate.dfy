/** A run in which a rotation writes 570 seconds after it captured its time, and a token
    that has not expired is rejected: no longer delay is safe, and each shorter one is. */
module KeyRingLate {
  import opened Kv
  import opened KeyRing
  import opened KeyRingInv
  import opened KeyRingSafety
  import opened KeyRingAlone

  // ----- the rotation, up to its write -----

  const RSA_1 := KeyName(RS256, 1)
  const EC_1 := KeyName(ES256, 1)
  const RSA_2 := KeyName(RS256, 2)
  const EC_2 := KeyName(ES256, 2)
  const META_1 := Meta(1, 0, 1, 0, [])
  const ROTATING := Rotating(0, 0, 0)
  const ROTATION := Rotation(0, 0, 0, META_1, 1)
  const META_2 := Meta(2, 2, 3, 0, [Retired(0, RSA_1, 0), Retired(1, EC_1, 0)])

  /** Process 1 made both keys of version 2 and is about to swap the ring. */
  function Prepared(clock: nat): State {
    State(clock, Some(Cell(META_1, 1)), map[RSA_1 := 0, EC_1 := 1, RSA_2 := 2, EC_2 := 3],
        map[1 := CasMeta(ROTATION, 2, 3)],
          {}, [RSA_1, EC_1, RSA_2, EC_2], [Commit(META_1, 0, 1)])
  }

  lemma FirstKeys(s: State)
    requires s == Start(0).(procs := map[1 := CaptureNow(0, 0)])
    ensures After(s, 1, 4) == State(0, None, map[RSA_1 := 0, EC_1 := 1], map[1 := CreateMeta(ROTATING, 0, 1)], {},
            [RSA_1, EC_1], [])
  {
    assert After(s, 1, 1) == Set(s, 1, LoadMeta(ROTATING));
    assert After(s, 1, 2) == Set(s, 1, CreateKey(BootRsa(ROTATING)));
    assert After(s, 1, 3) == State(0, None, map[RSA_1 := 0], map[1 := CreateKey(BootEc(ROTATING, 0))], {}, [RSA_1], []);
  }

  lemma NextKeys(s: State)
    requires s == State(0, None, map[RSA_1 := 0, EC_1 := 1], map[1 := CreateMeta(ROTATING, 0, 1)], {}, [RSA_1, EC_1],
             [])
    ensures After(s, 1, 3) == Prepared(0)
  {
    var log := [Commit(META_1, 0, 1)];
    assert After(s, 1, 1) == s.(ring := Some(Cell(META_1, 1)), log := log,
        procs := map[1 := CreateKey(NextRsa(ROTATION))]);
    assert After(s, 1, 2) == After(s, 1, 1).(keys := s.keys[RSA_2 := 2], born := [RSA_1, EC_1, RSA_2],
                                             procs := map[1 := CreateKey(NextEc(ROTATION, 2))]);
  }

  function RotateEvents(): seq<Event> { [Begin(1, Rotate)] + Gos(1, 7) + [Tick(570)] }

  lemma RotateRun()
    ensures Run(Start(0), RotateEvents()) == Prepared(570)
  {
    RunThen(Start(0), [], Begin(1, Rotate));
    assert [] + [Begin(1, Rotate)] == [Begin(1, Rotate)];
    var s := Start(0).(procs := map[1 := CaptureNow(0, 0)]);
    assert Run(Start(0), [Begin(1, Rotate)]) == s;
    RunGos(Start(0), [Begin(1, Rotate)], 1, 7);
    FirstKeys(s);
    NextKeys(After(s, 1, 4));
    AfterMore(s, 1, 4, 3);
    RunThen(Start(0), [Begin(1, Rotate)] + Gos(1, 7), Tick(570));
  }

  // ----- a token, just before the write -----

  const TOKEN := Token(RS256, 570, 0, 1, 0, 1)

  function Signed1(): State {
    var s := Prepared(570);
    s.(procs := s.procs[2 := Done(Signed(TOKEN))], tokens := {TOKEN})
  }

  lemma SignSteps(s: State)
    requires s == Set(Prepared(570), 2, LoadMeta(Heading(RS256, 570)))
    ensures After(s, 2, 4) == Signed1()
  {
    var k := Signing(RS256, 570, 0, 1);
    assert After(s, 2, 1) == Set(Prepared(570), 2, LoadMeta(k));
    assert After(s, 2, 2) == Set(Prepared(570), 2, LoadSigner(k, META_1));
    assert After(s, 2, 3) == Set(Prepared(570), 2, LoadSignerEc(k, META_1, 0));
  }

  function SignEvents(): seq<Event> { RotateEvents() + [Begin(2, Sign(RS256))] + Gos(2, 4) }

  lemma SignRun()
    ensures Run(Start(0), SignEvents()) == Signed1()
  {
    RotateRun();
    RunThen(Start(0), RotateEvents(), Begin(2, Sign(RS256)));
    var s := Set(Prepared(570), 2, LoadMeta(Heading(RS256, 570)));
    assert Step(Prepared(570), Begin(2, Sign(RS256))) == s;
    SignSteps(s);
    RunGos(Start(0), RotateEvents() + [Begin(2, Sign(RS256))], 2, 4);
  }

  // ----- the write, and the end of the grace -----

  /** The ring is swapped; version 1 counts as retired since the captured time. */
  function Swapped1(clock: nat): State {
    var s := Signed1();
    s.(clock := clock, ring := Some(Cell(META_2, 2)), log := s.log + [Commit(META_2, 570, 1)],
       procs := s.procs[1 := Purge(2, [])])
  }

  lemma SwapSteps()
    ensures Step(Step(Signed1(), Go(1)), Tick(3630)) == Swapped1(4200)
  {
    assert NextMeta(META_1, 0, 2, 3) == META_2;
    assert Step(Signed1(), Go(1)) == CasMetaStep(Signed1(), 1, ROTATION, 2, 3);
  }

  /** The process that checks the token has read the current keys. */
  function Looking(i: nat, keys: map<KeyName, Kid>): State {
    var rd := Reader(Check(TOKEN), META_2, 4200, [Jwk(RS256, 2), Jwk(ES256, 3)]);
    Set(Swapped1(4200).(keys := keys), 3, ReadRetired(rd, i))
  }

  lemma CheckStarts(s: State)
    requires s == Set(Swapped1(4200), 3, LoadMeta(Reading(Check(TOKEN))))
    ensures After(s, 3, 4) == Looking(0, Swapped1(4200).keys)
  {
    var t := Swapped1(4200);
    assert After(s, 3, 1) == Set(t, 3, ReadClock(Check(TOKEN), META_2));
    assert After(s, 3, 2) == Set(t, 3, ReadRsa(Reader(Check(TOKEN), META_2, 4200, [])));
    var rd := Reader(Check(TOKEN), META_2, 4200, [Jwk(RS256, 2)]);
    assert After(s, 3, 3) == Set(t, 3, ReadEc(rd));
    assert rd.keys + [Jwk(ES256, 3)] == [Jwk(RS256, 2), Jwk(ES256, 3)];
  }

  lemma RetiredSkipped(i: nat, keys: map<KeyName, Kid>)
    requires i < 2
    ensures Step(Looking(i, keys), Go(3)) == Looking(i + 1, keys - {META_2.retired[i].name})
  {
    var s := Looking(i, keys);
    assert !RetiredActive(META_2.retired[i].retiredAt, 4200);
    assert Step(s, Go(3)) == ReadRetiredStep(s, 3, s.procs[3].reader, i);
  }

  lemma CheckEnds(s: State, keys: map<KeyName, Kid>)
    requires s == Looking(2, keys)
    ensures Judged(After(s, 3, 2))
  {
    var rd := Reader(Check(TOKEN), META_2, 4200, [Jwk(RS256, 2), Jwk(ES256, 3)]);
    assert After(s, 3, 1) == Step(s, Go(3)) == ReadRetiredStep(s, 3, rd, 2) == Set(s, 3, CheckTime(rd));
    assert !SignatureOk(TOKEN, rd.keys);
  }

  ghost predicate Judged(s: State) {
    && TOKEN in s.tokens && 3 in s.procs && s.procs[3] == Done(Verified(TOKEN, 4200, false))
    && s.clock == 4200 && s.log == [Commit(META_1, 0, 1), Commit(META_2, 570, 1)]
  }

  function CheckEvents(): seq<Event> { SignEvents() + [Go(1)] + [Tick(3630)] + [Begin(3, Verify(TOKEN))] + Gos(3, 8) }

  lemma CheckBegins()
    ensures Run(Start(0), SignEvents() + [Go(1)] + [Tick(3630)] + [Begin(3, Verify(TOKEN))])
         == Set(Swapped1(4200), 3, LoadMeta(Reading(Check(TOKEN))))
  {
    var es := SignEvents();
    SignRun();
    RunThen(Start(0), es, Go(1));
    RunThen(Start(0), es + [Go(1)], Tick(3630));
    SwapSteps();
    RunThen(Start(0), es + [Go(1)] + [Tick(3630)], Begin(3, Verify(TOKEN)));
    CheckBegun(Run(Start(0), es + [Go(1)] + [Tick(3630)]));
  }

  lemma CheckBegun(s: State)
    requires s == Swapped1(4200)
    ensures Step(s, Begin(3, Verify(TOKEN))) == Set(s, 3, LoadMeta(Reading(Check(TOKEN))))
  {
  }

  lemma RetiredBothSkipped(keys: map<KeyName, Kid>)
    ensures After(Looking(0, keys), 3, 2) == Looking(2, keys - {RSA_1} - {EC_1})
  {
    RetiredSkipped(0, keys);
    RetiredSkipped(1, keys - {RSA_1});
    assert After(Looking(0, keys), 3, 1) == Step(Looking(0, keys), Go(3));
  }

  lemma CheckSteps(s: State)
    requires s == Set(Swapped1(4200), 3, LoadMeta(Reading(Check(TOKEN))))
    ensures Judged(After(s, 3, 8))
  {
    var keys := Swapped1(4200).keys;
    CheckStarts(s);
    RetiredBothSkipped(keys);
    CheckEnds(Looking(2, keys - {RSA_1} - {EC_1}), keys - {RSA_1} - {EC_1});
    AfterMore(s, 3, 4, 4);
    AfterMore(Looking(0, keys), 3, 2, 2);
  }

  /** The token is signed at second 570 under the version that is current. The rotation
      then writes, 570 seconds after it captured its time. At second 4200 the token is
      within its hour and the leeway, and is rejected. */
  lemma UnexpiredTokenRejected()
    ensures var s := Run(Start(0), CheckEvents());
            && TOKEN in s.tokens && TOKEN.headerVersion == TOKEN.signerVersion
            && 3 in s.procs && s.procs[3] == Done(Verified(TOKEN, 4200, false)) && TimesOk(TOKEN, 4200)
            && s.clock == 4200 && s.log == [Commit(META_1, 0, 1), Commit(META_2, 570, 1)]
  {
    CheckBegins();
    var s := Set(Swapped1(4200), 3, LoadMeta(Reading(Check(TOKEN))));
    CheckSteps(s);
    RunGos(Start(0), SignEvents() + [Go(1)] + [Tick(3630)] + [Begin(3, Verify(TOKEN))], 3, 8);
    assert Judged(Run(Start(0), CheckEvents()));
  }

  // ----- the delay that is safe -----

  /** The process rejected a token that one version signed and that has not expired. */
  ghost predicate RejectsInTime(s: State, pid: nat) {
    && pid in s.procs && s.procs[pid].Done? && s.procs[pid].outcome.Verified? && !s.procs[pid].outcome.ok
    && var t := s.procs[pid].outcome.token;
    && t.headerVersion == t.signerVersion && TimesOk(t, s.procs[pid].outcome.now)
  }

  /** In every run whose rotations write within the delay, each unexpired token verifies. */
  ghost predicate SafeDelay(g: nat) {
    forall s: State, pid :: Reachable(s) && s.clock < U64_MAX && WritesWithin(s.log, g) ==> !RejectsInTime(s, pid)
  }

  /** 570 seconds is the exact bound for the time between a rotation's captured time and its write. */
  lemma SafeUpTo570(g: nat)
    ensures SafeDelay(g) <==> g <= 570
  {
    if g <= 570 {
      forall s: State, pid | Reachable(s) && s.clock < U64_MAX
          && WritesWithin(s.log, g) ensures !RejectsInTime(s, pid) {
        if RejectsInTime(s, pid) {
          var o := s.procs[pid].outcome;
          TokenVerifies(s, pid, o.token, o.now, o.ok);
        }
      }
    } else {
      UnexpiredTokenRejected();
      var s := Run(Start(0), CheckEvents());
      assert Reachable(s) && WritesWithin(s.log, g) && RejectsInTime(s, 3);
    }
  }
}
