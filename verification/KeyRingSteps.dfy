/** Every step of every process keeps the key-ring invariant. */
module KeyRingSteps {
  import opened Kv
  import opened KeyRing
  import opened KeyRingInv
  import opened KeyRingFrame

  /** A step did its part: shared facts hold, others' facts survive, and the
      process that moved knows what its new place requires. */
  ghost predicate GoodMove(s: State, s': State, pid: nat) {
    && CoreInv(s') && Evolves(s, s')
    && pid in s'.procs && ProcInv(s', pid, s'.procs[pid])
    && s'.procs == s.procs[pid := s'.procs[pid]]
  }

  // ----- shared state -----

  lemma KeyAdded(s: State, s': State, name: KeyName)
    requires CoreInv(s) && name !in s.keys
    requires s' == s.(keys := s.keys[name := |s.born|], born := s.born + [name], procs := s'.procs)
    ensures CoreInv(s') && Evolves(s, s')
  {
    forall v, alg | 1 <= v <= |s.log| && InGrace(s.log, s.clock, v) ensures Stored(s', v, alg) {
      assert Stored(s, v, alg);
    }
    forall t | t in s.tokens ensures TokenOk(s', t) {
      TokenKept(s, s', t);
    }
  }

  lemma NameBorn(s: State, s': State, name: KeyName)
    requires CoreInv(s)
    requires s' == s.(born := s.born + [name], procs := s'.procs)
    ensures CoreInv(s') && Evolves(s, s')
  {
    forall v, alg | 1 <= v <= |s.log| && InGrace(s.log, s.clock, v) ensures Stored(s', v, alg) {
      assert Stored(s, v, alg);
    }
    forall t | t in s.tokens ensures TokenOk(s', t) {
      TokenKept(s, s', t);
    }
  }

  lemma KeyPurged(s: State, s': State, name: KeyName)
    requires CoreInv(s) && Expired(s, name)
    requires s' == s.(keys := s.keys - {name}, procs := s'.procs)
    ensures CoreInv(s') && Evolves(s, s')
  {
    forall v, alg | 1 <= v <= |s.log| && InGrace(s.log, s.clock, v) ensures Stored(s', v, alg) {
      assert Stored(s, v, alg);
    }
    forall t | t in s.tokens ensures TokenOk(s', t) {
      TokenKept(s, s', t);
    }
  }

  lemma OnlyProcs(s: State, s': State)
    requires CoreInv(s) && s' == s.(procs := s'.procs)
    ensures CoreInv(s') && Evolves(s, s')
  {
    forall v, alg | 1 <= v <= |s.log| && InGrace(s.log, s.clock, v) ensures Stored(s', v, alg) {
      assert Stored(s, v, alg);
    }
  }

  lemma Ticked(s: State, s': State)
    requires CoreInv(s) && s' == s.(clock := s'.clock) && s.clock <= s'.clock
    ensures CoreInv(s') && Evolves(s, s')
  {
    forall v, alg | 1 <= v <= |s.log| && InGrace(s'.log, s'.clock, v) ensures Stored(s', v, alg) {
      GraceEarlier(s, s', v);
      assert Stored(s, v, alg);
    }
    forall t | t in s.tokens ensures TokenOk(s', t) {
      TokenKept(s, s', t);
    }
  }

  // ----- filtering the retired list -----

  lemma {:induction false} ActiveOnlyFacts(rs: seq<Retired>, now: nat)
    ensures forall i :: 0 <= i < |ActiveOnly(rs, now)| ==> ActiveOnly(rs, now)[i] in rs
    ensures forall r :: r in rs && RetiredActive(r.retiredAt, now) ==> r in ActiveOnly(rs, now)
  {
    if rs != [] {
      ActiveOnlyFacts(rs[1..], now);
    }
  }

  lemma {:induction false} ExpiredNamesFacts(s: State, rs: seq<Retired>, now: nat)
    requires EntriesOk(s.log, rs, |s.log|) && now <= s.clock
    ensures forall i :: 0 <= i < |ExpiredNames(rs, now)| ==> Expired(s, ExpiredNames(rs, now)[i])
  {
    if rs != [] {
      assert EntryOk(s.log, rs[0], |s.log|);
      assert EntriesOk(s.log, rs[1..], |s.log|) by {
        forall i | 0 <= i < |rs[1..]| ensures EntryOk(s.log, rs[1..][i], |s.log|) {
          assert rs[1..][i] == rs[i + 1];
        }
      }
      ExpiredNamesFacts(s, rs[1..], now);
    }
  }

  // ----- committing a new version -----

  lemma EntriesKept(log: seq<Commit>, log': seq<Commit>, rs: seq<Retired>, version: nat)
    requires log <= log' && EntriesOk(log, rs, version)
    ensures EntriesOk(log', rs, version)
  {
    forall i | 0 <= i < |rs| ensures EntryOk(log', rs[i], version) {
      assert EntryOk(log, rs[i], version);
    }
  }

  lemma MetaKept(log: seq<Commit>, log': seq<Commit>, n: nat)
    requires log <= log' && n < |log| && MetaOk(log, n)
    ensures MetaOk(log', n)
  {
    EntriesKept(log, log', log[n].meta.retired, n + 1);
  }

  lemma LogGrows(s: State, c: Commit)
    requires LogOk(s.log, s.clock) && c.at == s.clock && MetaOk(s.log + [c], |s.log|)
    ensures LogOk(s.log + [c], s.clock)
  {
    var log' := s.log + [c];
    forall n | 0 <= n < |log'| ensures MetaOk(log', n) && log'[n].at <= s.clock {
      if n < |s.log| {
        assert MetaOk(s.log, n);
        MetaKept(s.log, log', n);
      }
    }
  }

  lemma NextEntries(log: seq<Commit>, log': seq<Commit>, m: Meta, now: nat, rsa: Kid, ec: Kid)
    requires m.version == |log| > 0 && m == log[|log| - 1].meta && EntriesOk(log, m.retired, |log|)
    requires |log'| == |log| + 1 && log <= log' && log'[|log|].meta == NextMeta(m, now, rsa, ec)
    ensures EntriesOk(log', NextMeta(m, now, rsa, ec).retired, |log| + 1)
  {
    var kept := ActiveOnly(m.retired, now);
    ActiveOnlyFacts(m.retired, now);
    EntriesKept(log, log', m.retired, |log|);
    var rs := NextMeta(m, now, rsa, ec).retired;
    forall i | 0 <= i < |rs| ensures EntryOk(log', rs[i], |log| + 1) {
      if i < |kept| {
        assert rs[i] == kept[i] && kept[i] in m.retired;
      }
    }
  }

  lemma NextComplete(s: State, log': seq<Commit>, m: Meta, now: nat, rsa: Kid, ec: Kid, v: nat, alg: Alg)
    requires LogOk(s.log, s.clock) && m.version == |s.log| > 0 && m == s.log[|s.log| - 1].meta && now <= s.clock
    requires |log'| == |s.log| + 1 && s.log <= log' && log'[|s.log|].meta == NextMeta(m, now, rsa, ec)
    requires 1 <= v <= |s.log|
    ensures Listed(NextMeta(m, now, rsa, ec).retired, KeyName(alg, v)) || !RetiredActive(RetiredAt(log', v), s.clock)
  {
    var last := |s.log| - 1;
    var kept := ActiveOnly(m.retired, now);
    var rs := NextMeta(m, now, rsa, ec).retired;
    if v == |s.log| {
      assert rs[|kept| + if alg == RS256 then 0 else 1].name == KeyName(alg, v);
    } else if RetiredActive(RetiredAt(s.log, v), s.clock) {
      assert MetaOk(s.log, last);
      ActiveOnlyFacts(m.retired, now);
      assert Listed(m.retired, KeyName(alg, v));
      var i :| 0 <= i < |m.retired| && m.retired[i].name == KeyName(alg, v);
      assert EntryOk(s.log, m.retired[i], |s.log|) && m.retired[i] in kept;
      var j :| 0 <= j < |kept| && kept[j] == m.retired[i];
      assert rs[j].name == KeyName(alg, v);
    }
  }

  lemma NextMetaOk(s: State, m: Meta, now: nat, rsa: Kid, ec: Kid, pid: nat)
    requires LogOk(s.log, s.clock) && m.version == |s.log| > 0 && m == s.log[|s.log| - 1].meta && now <= s.clock
    ensures MetaOk(s.log + [Commit(NextMeta(m, now, rsa, ec), s.clock, pid)], |s.log|)
  {
    var log' := s.log + [Commit(NextMeta(m, now, rsa, ec), s.clock, pid)];
    assert MetaOk(s.log, |s.log| - 1);
    NextEntries(s.log, log', m, now, rsa, ec);
    forall v, alg | 1 <= v < |s.log| + 1
      ensures Listed(NextMeta(m, now, rsa, ec).retired, KeyName(alg, v)) || !RetiredActive(RetiredAt(log', v), s.clock)
    {
      NextComplete(s, log', m, now, rsa, ec, v, alg);
    }
  }

  /** A new version whose two records are in the store becomes current. */
  lemma Committed(s: State, s': State, c: Commit)
    requires CoreInv(s) && c.at == s.clock && LogOk(s.log + [c], s.clock)
    requires c.meta.version == |s.log| + 1
    requires Held(s, |s.log|, RS256, c.meta.rsaKid) && Held(s, |s.log|, ES256, c.meta.ecKid)
    requires s' == s.(ring := Some(Cell(c.meta, |s.log| + 1)), log := s.log + [c], procs := s'.procs)
    ensures CoreInv(s') && Evolves(s, s')
  {
    forall v, alg | 1 <= v <= |s'.log|
      ensures BornAs(s'.born, KidAt(s'.log, v, alg), KeyName(alg, v))
      ensures InGrace(s'.log, s'.clock, v) ==> Stored(s', v, alg)
    {
      if v <= |s.log| {
        assert BornAs(s.born, KidAt(s.log, v, alg), KeyName(alg, v));
        if InGrace(s'.log, s'.clock, v) {
          GraceEarlier(s, s', v);
          assert Stored(s, v, alg);
        }
      }
    }
    forall t | t in s.tokens ensures TokenOk(s', t) {
      TokenKept(s, s', t);
    }
  }
}
