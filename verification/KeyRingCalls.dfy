/** The key manager's procedures as the loops they are, over a store that other
    replicas keep changing: every execution is a run of the transition system in
    KeyRing, so the guarantees of its reachable states hold of it. */
module KeyRingCalls {
  import opened Kv
  import opened KeyRing

  predicate ByOthers(es: seq<Event>, pid: nat) {
    forall i :: 0 <= i < |es| ==> es[i].Tick? || es[i].pid != pid
  }

  lemma OthersStep(s: State, e: Event, pid: nat)
    requires e.Tick? || e.pid != pid
    ensures pid in Step(s, e).procs <==> pid in s.procs
    ensures pid in s.procs ==> Step(s, e).procs[pid] == s.procs[pid]
  {
    if e.Go? && e.pid in s.procs {
      OnlyOwnEntry(s, e.pid);
    }
  }

  /** An operation moves no process but the one that makes it. */
  lemma OnlyOwnEntry(s: State, pid: nat)
    requires pid in s.procs
    ensures pid in Operate(s, pid).procs && Operate(s, pid).procs == s.procs[pid := Operate(s, pid).procs[pid]]
  {
    match s.procs[pid] {
      case CreateKey(slot) =>
      case CasMeta(r, rsa, ec) =>
      case ReadRetired(rd, i) => assert Operate(s, pid) == ReadRetiredStep(s, pid, rd, i);
      case _ =>
    }
  }

  lemma {:induction false} OthersLeave(s: State, es: seq<Event>, pid: nat)
    requires ByOthers(es, pid)
    ensures pid in Run(s, es).procs <==> pid in s.procs
    ensures pid in s.procs ==> Run(s, es).procs[pid] == s.procs[pid]
  {
    if es != [] {
      OthersLeave(s, es[..|es| - 1], pid);
      OthersStep(Run(s, es[..|es| - 1]), es[|es| - 1], pid);
    }
  }

  lemma {:induction false} RunConcat(s: State, es: seq<Event>, fs: seq<Event>)
    ensures Run(s, es + fs) == Run(Run(s, es), fs)
  {
    if fs == [] {
      assert es + fs == es;
    } else {
      RunConcat(s, es, fs[..|fs| - 1]);
      assert (es + fs)[..|es + fs| - 1] == es + fs[..|fs| - 1];
    }
  }

  lemma RunOne(s: State, es: seq<Event>, e: Event)
    ensures Run(s, es + [e]) == Step(Run(s, es), e)
  {
    assert (es + [e])[..|es|] == es;
  }

  /** The entries still in grace, collected one by one. */
  method KeepActive(rs: seq<Retired>, now: nat) returns (kept: seq<Retired>)
    ensures kept == ActiveOnly(rs, now)
  {
    kept := [];
    for i := 0 to |rs|
      invariant kept + ActiveOnly(rs[i..], now) == ActiveOnly(rs, now)
    {
      assert rs[i..][1..] == rs[i + 1..];
      if RetiredActive(rs[i].retiredAt, now) {
        kept := kept + [rs[i]];
      }
    }
  }

  class Replica {
    var st: State

    constructor (clock: nat)
      ensures st == Start(clock)
    {
      st := Start(clock);
    }

    /** Any number of steps of other processes, and of the clock. */
    method Others(pid: nat) returns (ghost es: seq<Event>)
      modifies this
      ensures ByOthers(es, pid) && st == Run(old(st), es)
      ensures pid in st.procs <==> pid in old(st).procs
      ensures pid in st.procs ==> st.procs[pid] == old(st).procs[pid]
    {
      var some: seq<Event> := *;
      es := [];
      if ByOthers(some, pid) {
        es := some;
        OthersLeave(st, some, pid);
        st := Run(st, some);
      }
    }

    ghost method Extended(s0: State, es: seq<Event>, fs: seq<Event>, e: Event) returns (all: seq<Event>)
      requires st == Run(Run(s0, es), fs)
      ensures Run(s0, all) == Step(st, e)
    {
      RunConcat(s0, es, fs);
      RunOne(s0, es + fs, e);
      all := es + fs + [e];
    }

    ghost method Joined(s0: State, es: seq<Event>, fs: seq<Event>) returns (all: seq<Event>)
      requires st == Run(Run(s0, es), fs)
      ensures st == Run(s0, all)
    {
      RunConcat(s0, es, fs);
      all := es + fs;
    }

    method Place(pid: nat, p: Proc)
      modifies this
      ensures st == Set(old(st), pid, p)
    {
      st := st.(procs := st.procs[pid := p]);
    }

    // ----- create or adopt a key record -----

    /** `kv_create_raw` of a freshly generated pair. */
    method TryCreateKey(pid: nat, slot: Slot) returns (kid: Kid, created: bool)
      requires pid in st.procs && st.procs[pid] == CreateKey(slot)
      modifies this
      ensures st == Step(old(st), Go(pid)) && pid in st.procs
      ensures st.procs[pid] == if created then AfterKey(slot, kid) else AdoptKey(slot)
      ensures created ==> SlotName(slot) in st.keys && st.keys[SlotName(slot)] == kid
    {
      var name := SlotName(slot);
      kid := |st.born|;
      created := name !in st.keys;
      st := st.(born := st.born + [name]);
      if created {
        st := st.(keys := st.keys[name := kid]);
        Place(pid, AfterKey(slot, kid));
      } else {
        Place(pid, AdoptKey(slot));
      }
    }

    /** The race was lost: load the winner's record, if it is still there. */
    method AdoptKeyRecord(pid: nat, slot: Slot) returns (kid: Option<Kid>)
      requires pid in st.procs && st.procs[pid] == AdoptKey(slot)
      modifies this
      ensures st == Step(old(st), Go(pid)) && pid in st.procs
      ensures st.procs[pid] == if kid.Some? then AfterKey(slot, kid.value) else Done(Failed)
      ensures kid == if SlotName(slot) in st.keys then Some(st.keys[SlotName(slot)]) else None
    {
      kid := None;
      if SlotName(slot) in st.keys {
        kid := Some(st.keys[SlotName(slot)]);
        Place(pid, AfterKey(slot, kid.value));
      } else {
        Place(pid, Done(Failed));
      }
    }

    /** The kid of the record that is stored under the name as the method returns; none only if
        there is none. */
    method CreateOrLoadKey(pid: nat, slot: Slot) returns (kid: Option<Kid>, ghost es: seq<Event>)
      requires pid in st.procs && st.procs[pid] == CreateKey(slot)
      modifies this
      ensures st == Run(old(st), es) && pid in st.procs
      ensures st.procs[pid] == if kid.Some? then AfterKey(slot, kid.value) else Done(Failed)
      ensures kid == if SlotName(slot) in st.keys then Some(st.keys[SlotName(slot)]) else None
    {
      ghost var fs := Others(pid);
      es := Extended(old(st), [], fs, Go(pid));
      var id, created := TryCreateKey(pid, slot);
      kid := Some(id);
      if !created {
        fs := Others(pid);
        es := Extended(old(st), es, fs, Go(pid));
        kid := AdoptKeyRecord(pid, slot);
      }
    }

    // ----- the ring pointer -----

    method GetMeta(pid: nat, k: Cont) returns (found: Option<Cell<Meta>>)
      requires pid in st.procs && (st.procs[pid] == LoadMeta(k) || st.procs[pid] == ReloadMeta(k))
      modifies this
      ensures st == Step(old(st), Go(pid)) && pid in st.procs
      ensures st.procs[pid] == if found.Some? then AfterMeta(k, found.value.value, found.value.rev)
                               else if old(st).procs[pid].LoadMeta? then CreateKey(BootRsa(k)) else Done(Failed)
    {
      found := st.ring;
      match found {
        case Some(cell) => Place(pid, AfterMeta(k, cell.value, cell.rev));
        case None => Place(pid, if st.procs[pid].LoadMeta? then CreateKey(BootRsa(k)) else Done(Failed));
      }
    }

    method TryCreateMeta(pid: nat, k: Cont, rsa: Kid, ec: Kid) returns (made: Option<Cell<Meta>>)
      requires pid in st.procs && st.procs[pid] == CreateMeta(k, rsa, ec)
      modifies this
      ensures st == Step(old(st), Go(pid)) && pid in st.procs
      ensures st.procs[pid] == if made.Some? then AfterMeta(k, made.value.value, made.value.rev) else ReloadMeta(k)
    {
      var meta := Meta(1, rsa, ec, st.clock, []);
      if st.ring.None? {
        made := Some(Cell(meta, 1));
        st := st.(ring := made, log := st.log + [Commit(meta, st.clock, pid)]);
        Place(pid, AfterMeta(k, meta, 1));
      } else {
        made := None;
        Place(pid, ReloadMeta(k));
      }
    }

    method BootstrapMeta(pid: nat, k: Cont) returns (r: Option<Cell<Meta>>, ghost es: seq<Event>)
      requires pid in st.procs && st.procs[pid] == CreateKey(BootRsa(k))
      modifies this
      ensures st == Run(old(st), es) && pid in st.procs
      ensures st.procs[pid] == if r.Some? then AfterMeta(k, r.value.value, r.value.rev) else Done(Failed)
    {
      r := None;
      var rsa, ec;
      ghost var fs;
      rsa, es := CreateOrLoadKey(pid, BootRsa(k));
      if rsa.None? { return; }
      ec, fs := CreateOrLoadKey(pid, BootEc(k, rsa.value));
      es := Joined(old(st), es, fs);
      if ec.None? { return; }
      fs := Others(pid);
      es := Extended(old(st), es, fs, Go(pid));
      r := TryCreateMeta(pid, k, rsa.value, ec.value);
      if r.None? {
        fs := Others(pid);
        es := Extended(old(st), es, fs, Go(pid));
        r := GetMeta(pid, k);
      }
    }

    method LoadMetaWithRevision(pid: nat, k: Cont) returns (r: Option<Cell<Meta>>, ghost es: seq<Event>)
      requires pid in st.procs && st.procs[pid] == LoadMeta(k)
      modifies this
      ensures st == Run(old(st), es) && pid in st.procs
      ensures st.procs[pid] == if r.Some? then AfterMeta(k, r.value.value, r.value.rev) else Done(Failed)
    {
      ghost var fs := Others(pid);
      es := Extended(old(st), [], fs, Go(pid));
      r := GetMeta(pid, k);
      if r.None? {
        r, fs := BootstrapMeta(pid, k);
        es := Joined(old(st), es, fs);
      }
    }

    // ----- rotation -----

    method CaptureTime(pid: nat, attempt: nat, base: nat) returns (now: nat)
      requires pid in st.procs && st.procs[pid] == CaptureNow(attempt, base)
      modifies this
      ensures st == Step(old(st), Go(pid)) && pid in st.procs
      ensures st.procs[pid] == LoadMeta(Rotating(attempt, now, base))
    {
      now := st.clock;
      Place(pid, LoadMeta(Rotating(attempt, now, base)));
    }

    /** Builds the next ring value and swaps it in if the revision still matches. */
    method SwapMeta(pid: nat, r: Rotation, rsa: Kid, ec: Kid) returns (won: bool)
      requires pid in st.procs && st.procs[pid] == CasMeta(r, rsa, ec)
      modifies this
      ensures st == Step(old(st), Go(pid)) && pid in st.procs
      ensures st.procs[pid] == if won then Purge(r.meta.version + 1, ExpiredNames(r.meta.retired, r.now))
                               else if r.attempt + 1 < MAX_ATTEMPTS then CaptureNow(r.attempt + 1, r.base)
                               else Done(LostEveryRace(r.base))
    {
      var retired := KeepActive(r.meta.retired, r.now);
      retired := retired + [Retired(r.meta.rsaKid, KeyName(RS256, r.meta.version), r.now),
                            Retired(r.meta.ecKid, KeyName(ES256, r.meta.version), r.now)];
      var newMeta := Meta(r.meta.version + 1, rsa, ec, r.now, retired);
      won := st.ring.Some? && st.ring.value.rev == r.rev;
      if won {
        st := st.(ring := Some(Cell(newMeta, r.rev + 1)), log := st.log + [Commit(newMeta, st.clock, pid)]);
        Place(pid, Purge(newMeta.version, ExpiredNames(r.meta.retired, r.now)));
      } else if r.attempt + 1 < MAX_ATTEMPTS {
        Place(pid, CaptureNow(r.attempt + 1, r.base));
      } else {
        Place(pid, Done(LostEveryRace(r.base)));
      }
    }

    method DeleteKey(pid: nat, version: nat, names: seq<KeyName>)
      requires pid in st.procs && st.procs[pid] == Purge(version, names) && names != []
      modifies this
      ensures st == Step(old(st), Go(pid)) && pid in st.procs && st.procs[pid] == Purge(version, names[1..])
    {
      st := st.(keys := st.keys - {names[0]});
      Place(pid, Purge(version, names[1..]));
    }

    /** Deletes the records whose grace was over, then reports the new version. */
    method PurgeExpired(pid: nat, version: nat, rs: seq<Retired>, now: nat) returns (ghost es: seq<Event>)
      requires pid in st.procs && st.procs[pid] == Purge(version, ExpiredNames(rs, now))
      modifies this
      ensures st == Run(old(st), es) && pid in st.procs && st.procs[pid] == Done(Rotated(version))
    {
      es := [];
      ghost var fs;
      for i := 0 to |rs|
        invariant st == Run(old(st), es)
        invariant pid in st.procs && st.procs[pid] == Purge(version, ExpiredNames(rs[i..], now))
      {
        assert rs[i..][1..] == rs[i + 1..];
        if !RetiredActive(rs[i].retiredAt, now) {
          fs := Others(pid);
          es := Extended(old(st), es, fs, Go(pid));
          DeleteKey(pid, version, ExpiredNames(rs[i..], now));
        }
      }
      fs := Others(pid);
      es := Extended(old(st), es, fs, Go(pid));
      Place(pid, Done(Rotated(version)));
    }

    /** Stores the new pair before the pointer can name it, or adopts a stored one. */
    method PrepareKeys(pid: nat, r: Rotation) returns (pair: Option<(Kid, Kid)>, ghost es: seq<Event>)
      requires pid in st.procs && st.procs[pid] == CreateKey(NextRsa(r))
      modifies this
      ensures st == Run(old(st), es) && pid in st.procs
      ensures st.procs[pid] == if pair.Some? then CasMeta(r, pair.value.0, pair.value.1) else Done(Failed)
    {
      pair := None;
      var rsa, ec;
      ghost var fs;
      rsa, es := CreateOrLoadKey(pid, NextRsa(r));
      if rsa.None? { return; }
      ec, fs := CreateOrLoadKey(pid, NextEc(r, rsa.value));
      es := Joined(old(st), es, fs);
      if ec.None? { return; }
      pair := Some((rsa.value, ec.value));
    }

    /** Captures the retirement time, then reads the ring. */
    method StartAttempt(pid: nat, attempt: nat, base: nat) returns (r: Option<Rotation>, ghost es: seq<Event>)
      requires pid in st.procs && st.procs[pid] == CaptureNow(attempt, base)
      modifies this
      ensures st == Run(old(st), es) && pid in st.procs
      ensures st.procs[pid] == if r.Some? then CreateKey(NextRsa(r.value)) else Done(Failed)
      ensures r.Some? ==> r.value.attempt == attempt && r.value.base == base
    {
      ghost var fs := Others(pid);
      es := Extended(old(st), [], fs, Go(pid));
      var now := CaptureTime(pid, attempt, base);
      var loaded;
      loaded, fs := LoadMetaWithRevision(pid, Rotating(attempt, now, base));
      es := Joined(old(st), es, fs);
      r := if loaded.Some? then Some(Rotation(attempt, now, base, loaded.value.value, loaded.value.rev)) else None;
    }

    /** One attempt, up to and including the swap. */
    method Attempt(pid: nat, attempt: nat, base: nat) returns (r: Option<Rotation>, won: bool, ghost es: seq<Event>)
      requires pid in st.procs && st.procs[pid] == CaptureNow(attempt, base)
      modifies this
      ensures st == Run(old(st), es) && pid in st.procs
      ensures st.procs[pid] ==
                if r.None? then Done(Failed)
                else if won then Purge(r.value.meta.version + 1, ExpiredNames(r.value.meta.retired, r.value.now))
                else if attempt + 1 < MAX_ATTEMPTS then CaptureNow(attempt + 1, base)
                else Done(LostEveryRace(base))
    {
      won := false;
      var pair;
      ghost var fs;
      r, es := StartAttempt(pid, attempt, base);
      if r.None? { return; }
      pair, fs := PrepareKeys(pid, r.value);
      es := Joined(old(st), es, fs);
      if pair.None? { return None, false, es; }
      fs := Others(pid);
      es := Extended(old(st), es, fs, Go(pid));
      won := SwapMeta(pid, r.value, pair.value.0, pair.value.1);
    }

    method RotateKeys(pid: nat) returns (outcome: Outcome, ghost trace: seq<Event>)
      requires pid !in st.procs
      modifies this
      ensures st == Run(old(st), trace)
      ensures pid in st.procs && st.procs[pid] == Done(outcome)
    {
      ghost var fs := Others(pid);
      trace := Extended(old(st), [], fs, Begin(pid, Rotate));
      var base := |st.log|;
      Place(pid, CaptureNow(0, base));
      var attempt, r, won := 0, None, false;
      while attempt < MAX_ATTEMPTS
        invariant attempt <= MAX_ATTEMPTS && st == Run(old(st), trace) && pid in st.procs
        invariant st.procs[pid] == if attempt < MAX_ATTEMPTS then CaptureNow(attempt, base)
                  else Done(LostEveryRace(base))
      {
        r, won, fs := Attempt(pid, attempt, base);
        trace := Joined(old(st), trace, fs);
        if r.None? {
          return Failed, trace;
        }
        if won {
          fs := PurgeExpired(pid, r.value.meta.version + 1, r.value.meta.retired, r.value.now);
          trace := Joined(old(st), trace, fs);
          return Rotated(r.value.meta.version + 1), trace;
        }
        attempt := attempt + 1;
      }
      outcome := LostEveryRace(base);
    }

    // ----- the published keys -----

    method ReadCurrent(pid: nat, meta: Meta) returns (rd: Option<Reader>, ghost es: seq<Event>)
      requires pid in st.procs && st.procs[pid] == ReadClock(Publish, meta)
      modifies this
      ensures st == Run(old(st), es) && pid in st.procs
      ensures st.procs[pid] == if rd.Some? then ReadRetired(rd.value, 0) else Done(Failed)
      ensures rd.Some? ==> rd.value.goal.Publish? && rd.value.meta == meta
    {
      ghost var fs := Others(pid);
      es := Extended(old(st), [], fs, Go(pid));
      var reader := Reader(Publish, meta, st.clock, []);
      Place(pid, ReadRsa(reader));
      fs := Others(pid);
      es := Extended(old(st), es, fs, Go(pid));
      if KeyName(RS256, meta.version) !in st.keys {
        Place(pid, Done(Failed));
        return None, es;
      }
      reader := reader.(keys := [Jwk(RS256, st.keys[KeyName(RS256, meta.version)])]);
      Place(pid, ReadEc(reader));
      fs := Others(pid);
      es := Extended(old(st), es, fs, Go(pid));
      if KeyName(ES256, meta.version) in st.keys {
        reader := reader.(keys := reader.keys + [Jwk(ES256, st.keys[KeyName(ES256, meta.version)])]);
      }
      Place(pid, ReadRetired(reader, 0));
      rd := Some(reader);
    }

    /** One retired entry: purge it when its grace is over, else publish its record. */
    method ReadEntry(pid: nat, rd: Reader, i: nat) returns (rd': Reader)
      requires pid in st.procs && st.procs[pid] == ReadRetired(rd, i) && i < |rd.meta.retired|
      modifies this
      ensures st == Step(old(st), Go(pid)) && pid in st.procs && st.procs[pid] == ReadRetired(rd', i + 1)
      ensures rd'.goal == rd.goal && rd'.meta == rd.meta
    {
      var r := rd.meta.retired[i];
      ghost var s' := ReadRetiredStep(st, pid, rd, i);
      assert Step(st, Go(pid)) == s';
      rd' := rd;
      if !RetiredActive(r.retiredAt, rd.now) {
        st := st.(keys := st.keys - {r.name});
      } else if r.name in st.keys {
        rd' := rd.(keys := rd.keys + [Jwk(r.name.alg, st.keys[r.name])]);
      }
      Place(pid, ReadRetired(rd', i + 1));
    }

    method ReadEntries(pid: nat, reader: Reader) returns (rd: Reader, ghost es: seq<Event>)
      requires pid in st.procs && st.procs[pid] == ReadRetired(reader, 0) && reader.goal.Publish?
      modifies this
      ensures st == Run(old(st), es) && pid in st.procs && st.procs[pid] == Done(Jwks(rd))
    {
      rd, es := reader, [];
      ghost var fs;
      for i := 0 to |rd.meta.retired|
        invariant st == Run(old(st), es) && pid in st.procs && st.procs[pid] == ReadRetired(rd, i)
        invariant rd.goal.Publish? && rd.meta == reader.meta
      {
        fs := Others(pid);
        es := Extended(old(st), es, fs, Go(pid));
        rd := ReadEntry(pid, rd, i);
      }
      fs := Others(pid);
      es := Extended(old(st), es, fs, Go(pid));
      Place(pid, Done(Jwks(rd)));
    }

    method GetPublicKeys(pid: nat) returns (outcome: Outcome, ghost trace: seq<Event>)
      requires pid !in st.procs
      modifies this
      ensures st == Run(old(st), trace)
      ensures pid in st.procs && st.procs[pid] == Done(outcome) && (outcome.Failed? || outcome.Jwks?)
    {
      outcome := Failed;
      var loaded, reader, rd;
      ghost var fs := Others(pid);
      trace := Extended(old(st), [], fs, Begin(pid, ReadJwks));
      Place(pid, LoadMeta(Reading(Publish)));
      loaded, fs := LoadMetaWithRevision(pid, Reading(Publish));
      trace := Joined(old(st), trace, fs);
      if loaded.None? { return; }
      reader, fs := ReadCurrent(pid, loaded.value.value);
      trace := Joined(old(st), trace, fs);
      if reader.None? { return; }
      rd, fs := ReadEntries(pid, reader.value);
      trace := Joined(old(st), trace, fs);
      outcome := Jwks(rd);
    }
  }
}
