/** Facts a process relies on survive whatever the other processes do. */
module KeyRingFrame {
  import opened Kv
  import opened KeyRing
  import opened KeyRingInv

  /** What any step may change: history and clock only grow, and while the ring
      stands still the records of the next version stay. */
  ghost predicate Evolves(s: State, s': State) {
    && s.log <= s'.log && s.clock <= s'.clock && s.born <= s'.born && s.tokens <= s'.tokens
    && (forall n :: |s.log| <= n < |s'.log| ==> s.clock <= s'.log[n].at)
    && (|s'.log| == |s.log| ==>
          forall name :: name in s.keys && name.version > |s.log| ==> name in s'.keys && s'.keys[name] == s.keys[name])
  }

  lemma GraceEarlier(s: State, s': State, v: nat)
    requires Evolves(s, s') && 1 <= v <= |s.log| && InGrace(s'.log, s'.clock, v)
    ensures InGrace(s.log, s.clock, v)
  {
  }

  lemma ContKept(s: State, s': State, k: Cont)
    requires Evolves(s, s') && ContOk(s, k)
    ensures ContOk(s', k)
  {
  }

  lemma HeldKept(s: State, s': State, n: nat, alg: Alg, kid: Kid)
    requires Evolves(s, s') && n <= |s.log| && Held(s, n, alg, kid)
    ensures Held(s', n, alg, kid)
  {
  }

  lemma SlotKept(s: State, s': State, slot: Slot)
    requires Evolves(s, s') && SlotOk(s, slot)
    ensures SlotOk(s', slot)
  {
    match slot {
      case BootRsa(k) => ContKept(s, s', k);
      case BootEc(k, rsa) => ContKept(s, s', k); HeldKept(s, s', 0, RS256, rsa);
      case NextRsa(r) =>
      case NextEc(r, rsa) => HeldKept(s, s', r.meta.version, RS256, rsa);
    }
  }

  lemma ReaderKept(s: State, s': State, rd: Reader, i: nat)
    requires Evolves(s, s') && ReadSoFar(s, rd, i)
    ensures ReadSoFar(s', rd, i)
  {
    if InGrace(s'.log, s'.clock, rd.meta.version) {
      GraceEarlier(s, s', rd.meta.version);
    }
  }

  lemma GraceTooShortKept(log: seq<Commit>, log': seq<Commit>, t: Token, now: nat)
    requires log <= log' && GraceTooShort(log, t, now)
    ensures GraceTooShort(log', t, now)
  {
    var w :| 1 <= w < |log| && t.iat <= log[w].at && !RetiredActive(RetiredAt(log, w), now);
    assert RetiredAt(log', w) == RetiredAt(log, w);
  }

  lemma OutcomeKept(s: State, s': State, pid: nat, o: Outcome)
    requires Evolves(s, s') && OutcomeOk(s, pid, o)
    ensures OutcomeOk(s', pid, o)
  {
    match o {
      case Jwks(rd) => ReaderKept(s, s', rd, |rd.meta.retired|);
      case Verified(t, now, ok) =>
        if GraceTooShort(s.log, t, now) {
          GraceTooShortKept(s.log, s'.log, t, now);
        }
      case _ =>
    }
  }

  lemma SignerKept(s: State, s': State, k: Cont, m: Meta)
    requires Evolves(s, s') && SignerOk(s, k, m)
    ensures SignerOk(s', k, m)
  {
    ContKept(s, s', k);
  }

  lemma ProcKept(s: State, s': State, pid: nat, p: Proc)
    requires Evolves(s, s') && ProcInv(s, pid, p)
    ensures ProcInv(s', pid, p)
  {
    match p {
      case CaptureNow(attempt, base) =>
      case LoadMeta(k) => ContKept(s, s', k);
      case CreateKey(slot) => SlotKept(s, s', slot);
      case AdoptKey(slot) => SlotKept(s, s', slot);
      case CreateMeta(k, rsa, ec) =>
        ContKept(s, s', k);
        HeldKept(s, s', 0, RS256, rsa);
        HeldKept(s, s', 0, ES256, ec);
      case ReloadMeta(k) => ContKept(s, s', k);
      case CasMeta(r, rsa, ec) =>
        HeldKept(s, s', r.meta.version, RS256, rsa);
        HeldKept(s, s', r.meta.version, ES256, ec);
      case Purge(v, names) =>
      case ReadClock(goal, m) =>
      case ReadRsa(rd) =>
      case ReadEc(rd) =>
        if InGrace(s'.log, s'.clock, rd.meta.version) {
          GraceEarlier(s, s', rd.meta.version);
        }
      case ReadRetired(rd, i) => ReaderKept(s, s', rd, i);
      case CheckTime(rd) => ReaderKept(s, s', rd, |rd.meta.retired|);
      case LoadSigner(k, m) => SignerKept(s, s', k, m);
      case LoadSignerEc(k, m, rsa) =>
        SignerKept(s, s', k, m);
        if InGrace(s'.log, s'.clock, m.version) {
          GraceEarlier(s, s', m.version);
        }
      case Done(o) => OutcomeKept(s, s', pid, o);
    }
  }

  lemma TokenKept(s: State, s': State, t: Token)
    requires Evolves(s, s') && TokenOk(s, t)
    ensures TokenOk(s', t)
  {
    if InGrace(s'.log, s'.clock, t.signerVersion) {
      GraceEarlier(s, s', t.signerVersion);
    }
  }
}
