/** One process running alone: what it reaches by its own operations. */
module KeyRingAlone {
  import opened Kv
  import opened KeyRing
  import opened KeyRingInv
  import opened KeyRingSafety

  lemma RunThen(s: State, es: seq<Event>, e: Event)
    ensures Run(s, es + [e]) == Step(Run(s, es), e)
  {
    assert (es + [e])[..|es|] == es;
  }

  /** So many operations of one process. */
  function Gos(pid: nat, n: nat): seq<Event> { if n == 0 then [] else Gos(pid, n - 1) + [Go(pid)] }

  function After(s: State, pid: nat, n: nat): State { if n == 0 then s else Step(After(s, pid, n - 1), Go(pid)) }

  lemma {:induction false} RunGos(s: State, es: seq<Event>, pid: nat, n: nat)
    ensures Run(s, es + Gos(pid, n)) == After(Run(s, es), pid, n)
  {
    if n == 0 {
      assert es + [] == es;
    } else {
      RunGos(s, es, pid, n - 1);
      RunThen(s, es + Gos(pid, n - 1), Go(pid));
      AppendLast(es, Gos(pid, n - 1), Go(pid));
      AfterNext(Run(s, es), After(Run(s, es), pid, n - 1), pid, n - 1);
    }
  }

  lemma AppendLast(es: seq<Event>, fs: seq<Event>, e: Event)
    ensures es + (fs + [e]) == es + fs + [e]
  {
  }

  lemma {:induction false} AfterMore(s: State, pid: nat, n: nat, m: nat)
    ensures After(s, pid, n + m) == After(After(s, pid, n), pid, m)
  {
    if m > 0 {
      AfterMore(s, pid, n, m - 1);
      AfterNext(s, After(s, pid, n + m - 1), pid, n + m - 1);
      AfterNext(After(s, pid, n), After(s, pid, n + m - 1), pid, m - 1);
    }
  }

  lemma AfterNext(s: State, s': State, pid: nat, n: nat)
    requires s' == After(s, pid, n)
    ensures After(s, pid, n + 1) == Step(s', Go(pid))
  {
  }

  // ----- what a process reaches -----

  /** By so many operations of its own, the process brings the system to the state. */
  ghost predicate Reaches(s: State, pid: nat, s': State) { exists n: nat :: After(s, pid, n) == s' }

  lemma ReachesNext(s: State, pid: nat)
    ensures Reaches(s, pid, Step(s, Go(pid)))
  {
    assert After(s, pid, 1) == Step(After(s, pid, 0), Go(pid));
  }

  lemma ReachesOn(s: State, pid: nat, s1: State, s2: State)
    requires Reaches(s, pid, s1) && Reaches(s1, pid, s2)
    ensures Reaches(s, pid, s2)
  {
    var n: nat :| After(s, pid, n) == s1;
    var m: nat :| After(s1, pid, m) == s2;
    AfterMore(s, pid, n, m);
    assert After(s, pid, n + m) == s2;
  }

  lemma ReachesSelf(s: State, pid: nat)
    ensures Reaches(s, pid, s)
  {
    assert After(s, pid, 0) == s;
  }

  lemma StillReachable(s: State, e: Event)
    requires Reachable(s)
    ensures Reachable(Step(s, e))
  {
    var clock, es :| s == Run(Start(clock), es);
    RunThen(Start(clock), es, e);
  }

  lemma ReachesReachable(s: State, pid: nat, s': State)
    requires Reachable(s) && Reaches(s, pid, s')
    ensures Reachable(s')
  {
    var n: nat :| After(s, pid, n) == s';
    var clock, es :| s == Run(Start(clock), es);
    RunGos(Start(clock), es, pid, n);
  }

  // ----- a key record, made or found -----

  /** The record under the name is the one that was there, or else a fresh one; nothing else
      that others see has changed. */
  ghost predicate KeyHad(s: State, s': State, pid: nat, name: KeyName, kid: Kid, p: Proc) {
    && s'.keys == s.keys[name := kid] && kid == (if name in s.keys then s.keys[name] else |s.born|)
    && s'.procs == s.procs[pid := p] && s'.clock == s.clock && s'.ring == s.ring && s'.log == s.log
        && s'.tokens == s.tokens
  }

  lemma CreateIs(s: State, pid: nat, slot: Slot)
    requires pid in s.procs && s.procs[pid] == CreateKey(slot)
    ensures Step(s, Go(pid)) == CreateStep(s, pid, slot)
  {
  }

  lemma AdoptIs(s: State, pid: nat, slot: Slot)
    requires pid in s.procs && s.procs[pid] == AdoptKey(slot)
    ensures Step(s, Go(pid)) == AdoptStep(s, pid, slot)
  {
  }

  /** Creating a key or, if the name is taken, loading the record that took it. */
  lemma CreatesOrLoads(s: State, pid: nat, slot: Slot) returns (s': State, kid: Kid)
    requires pid in s.procs && s.procs[pid] == CreateKey(slot)
    ensures Reaches(s, pid, s') && KeyHad(s, s', pid, SlotName(slot), kid, AfterKey(slot, kid))
  {
    var name := SlotName(slot);
    CreateIs(s, pid, slot);
    ReachesNext(s, pid);
    s' := CreateStep(s, pid, slot);
    kid := |s.born|;
    if name in s.keys {
      var s1 := s';
      AdoptIs(s1, pid, slot);
      ReachesNext(s1, pid);
      kid := s.keys[name];
      s' := AdoptStep(s1, pid, slot);
      ReachesOn(s, pid, s1, s');
      assert s.keys[name := kid] == s.keys;
    }
  }
}
