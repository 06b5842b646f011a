/** Single use of TOTP codes: a login verifies a step against the clock, then
    records (user, step) with a 90 second lifetime and is accepted only if no
    such record is live. The two halves of different logins interleave. */
module TotpReplay {
  import opened Totp

  const RECORD_TTL: nat := 90

  datatype Use = Use(user: nat, step: nat)

  /** A login that verified its code and has not recorded it yet. */
  datatype Verified = Verified(use: Use, at: nat)

  /** `pending` holds logins between their two halves. `accepted`, `late` and `slowest`
      are history: `late` says that some login recorded a step that its clock no longer
      accepts, `slowest` is the longest time between the two halves of a login. */
  datatype State = State(
    clock: nat,
    records: map<Use, nat>,
    pending: map<nat, Verified>,
    accepted: seq<Use>,
    late: bool,
    slowest: nat)

  datatype Event = Tick(seconds: nat) | Verify(pid: nat, use: Use) | Record(pid: nat)

  predicate Acceptable(step: nat, clock: nat) { step in Candidates(clock) }

  predicate Live(s: State, u: Use) { u in s.records && s.clock < s.records[u] }

  function Noted(s: State, v: Verified): State {
    var delay := if s.clock > v.at then s.clock - v.at else 0;
    s.(late := s.late || !Acceptable(v.use.step, s.clock), slowest := if delay > s.slowest then delay else s.slowest)
  }

  function RecordStep(s: State, pid: nat): State
    requires pid in s.pending
  {
    var u := s.pending[pid].use;
    var s := Noted(s.(pending := s.pending - {pid}), s.pending[pid]);
    if Live(s, u) then s
    else s.(records := s.records[u := s.clock + RECORD_TTL], accepted := s.accepted + [u])
  }

  function Step(s: State, e: Event): State {
    match e
    case Tick(d) => if s.clock + d < U64 then s.(clock := s.clock + d) else s
    case Verify(pid, u) =>
      if pid !in s.pending && Acceptable(u.step, s.clock) then s.(pending := s.pending[pid := Verified(u, s.clock)])
          else s
    case Record(pid) => if pid in s.pending then RecordStep(s, pid) else s
  }

  function Run(s: State, es: seq<Event>): State {
    if es == [] then s else Step(Run(s, es[..|es| - 1]), es[|es| - 1])
  }

  function Start(clock: nat): State { State(clock, map[], map[], [], false, 0) }

  ghost predicate Reachable(s: State) {
    exists clock: nat, es :: clock < U64 && s == Run(Start(clock), es)
  }

  /** The first second at which a step is accepted. */
  function Earliest(step: nat): nat {
    if step == U64 - 1 || step == 0 then 0 else PERIOD * (step - 1)
  }

  /** The first second after which a step is never accepted again. */
  function End(step: nat): nat {
    if step == U64 - 1 then PERIOD else PERIOD * (step + 2)
  }

  lemma AcceptableInterval(step: nat, clock: nat)
    requires clock < U64
    ensures Acceptable(step, clock) <==> Earliest(step) <= clock < End(step)
    ensures End(step) <= Earliest(step) + RECORD_TTL
  {
  }

  ghost predicate Once(uses: seq<Use>) {
    forall i, j :: 0 <= i < j < |uses| ==> uses[i] != uses[j]
  }

  ghost predicate PendingOk(s: State) {
    forall pid :: pid in s.pending ==>
        s.pending[pid].at <= s.clock && Acceptable(s.pending[pid].use.step, s.pending[pid].at)
  }

  ghost predicate RecordsOk(s: State) {
    && (forall u :: u in s.accepted <==> u in s.records)
    && (forall u :: u in s.records ==> s.records[u] >= Earliest(u.step) + RECORD_TTL)
  }

  ghost predicate Inv(s: State) {
    && s.clock < U64 && PendingOk(s) && RecordsOk(s)
    && (!s.late ==> Once(s.accepted))
    && (s.slowest == 0 ==> !s.late)
  }

  lemma RecordKeepsInv(s: State, pid: nat)
    requires Inv(s) && pid in s.pending
    ensures Inv(RecordStep(s, pid))
  {
    var v := s.pending[pid];
    AcceptableInterval(v.use.step, v.at);
    AcceptableInterval(v.use.step, s.clock);
    var s' := RecordStep(s, pid);
    assert PendingOk(s');
    assert RecordsOk(s');
    assert s'.accepted == s.accepted || !Live(s, v.use);
  }

  lemma StepKeepsInv(s: State, e: Event)
    requires Inv(s)
    ensures Inv(Step(s, e))
  {
    match e {
      case Tick(_) =>
      case Verify(_, u) =>
      case Record(pid) =>
        if pid in s.pending {
          RecordKeepsInv(s, pid);
        }
    }
  }

  lemma {:induction false} RunKeepsInv(clock: nat, es: seq<Event>)
    requires clock < U64
    ensures Inv(Run(Start(clock), es))
  {
    if es != [] {
      RunKeepsInv(clock, es[..|es| - 1]);
      StepKeepsInv(Run(Start(clock), es[..|es| - 1]), es[|es| - 1]);
    }
  }

  lemma ReachableInv(s: State)
    requires Reachable(s)
    ensures Inv(s)
  {
    var clock: nat, es :| clock < U64 && s == Run(Start(clock), es);
    RunKeepsInv(clock, es);
  }

  lemma RunThen(s: State, es: seq<Event>, e: Event)
    ensures Run(s, es + [e]) == Step(Run(s, es), e)
  {
    assert (es + [e])[..|es|] == es;
  }

  // ----- when a use is accepted twice -----

  /** Each (user, step) is accepted at most once, if every login records its step
      while the step is still acceptable. */
  lemma AcceptedOnce(s: State)
    requires Reachable(s) && !s.late
    ensures Once(s.accepted)
  {
    ReachableInv(s);
  }

  /** The login's record is accepted although its use was accepted before. */
  ghost predicate Replays(s: State, pid: nat, u: Use) {
    u in s.accepted && Step(s, Record(pid)).accepted == s.accepted + [u]
  }

  /** A use is accepted again at a second of the clock, in some run, exactly from 90 seconds
      after its step was first acceptable; for all but the first step of the epoch and the
      wrapped one, that is the second in which the step ceases to be acceptable. */
  lemma ReplayedFrom(u: Use, c: nat)
    requires c < U64
    ensures (exists s: State, pid :: Reachable(s) && s.clock == c && Replays(s, pid, u))
        <==> c >= Earliest(u.step) + RECORD_TTL
    ensures 0 < u.step < U64 - 1 ==> Earliest(u.step) + RECORD_TTL == End(u.step)
  {
    forall s: State, pid | Reachable(s) && s.clock == c && Replays(s, pid, u) ensures c >= Earliest(u.step)
        + RECORD_TTL {
      ReachableInv(s);
      assert Step(s, Record(pid)).accepted != s.accepted;
      assert pid in s.pending;
      assert (s.accepted + [u])[|s.accepted|] == u;
      assert Step(s, Record(pid)).accepted[|s.accepted|] == s.pending[pid].use;
    }
    if c >= Earliest(u.step) + RECORD_TTL {
      var s := LateRecord(u, c - Earliest(u.step));
      assert Reachable(s) && s.clock == c && Replays(s, 2, u);
    }
  }

  /** The state after a first login at that second, and a second one that verified later. */
  lemma FirstLogin(first: nat, u: Use)
    requires first < U64 && Acceptable(u.step, first)
    ensures Run(Start(first), [Verify(1, u), Record(1)]) == State(first, map[u := first + RECORD_TTL], map[], [u],
            false, 0)
  {
    RunThen(Start(first), [], Verify(1, u));
    RunThen(Start(first), [Verify(1, u)], Record(1));
    assert [Verify(1, u)] + [Record(1)] == [Verify(1, u), Record(1)] && [] + [Verify(1, u)] == [Verify(1, u)];
    assert Run(Start(first), [Verify(1, u)]) == State(first, map[], map[1 := Verified(u, first)], [], false, 0);
  }

  /** A login verifies in the first second of the interval, and records after the record of another ran out. */
  lemma LateRecord(u: Use, wait: nat) returns (s: State)
    requires wait >= RECORD_TTL && Earliest(u.step) + wait < U64
    ensures Reachable(s) && s.clock == Earliest(u.step) + wait && Replays(s, 2, u)
  {
    var first := Earliest(u.step);
    AcceptableInterval(u.step, first);
    FirstLogin(first, u);
    var es := [Verify(1, u), Record(1)];
    RunThen(Start(first), es, Verify(2, u));
    RunThen(Start(first), es + [Verify(2, u)], Tick(wait));
    s := State(first + wait, map[u := first + RECORD_TTL], map[2 := Verified(u, first)], [u], false, 0);
    assert s == Run(Start(first), es + [Verify(2, u)] + [Tick(wait)]);
    assert Step(s, Record(2)) == RecordStep(s, 2);
  }

  // ----- the delay that is safe -----

  ghost predicate SafeDelay(g: nat) {
    forall s: State :: Reachable(s) && s.slowest <= g ==> Once(s.accepted)
  }

  /** Every run whose logins record at most so many seconds after they verify accepts
      each use once, exactly if that is no second at all. */
  lemma OnlyNoDelayIsSafe(g: nat)
    ensures SafeDelay(g) <==> g == 0
  {
    if g == 0 {
      forall s: State | Reachable(s) && s.slowest <= g ensures Once(s.accepted) {
        ReachableInv(s);
      }
    } else {
      var s := SecondLate(Use(0, 1));
      assert s.accepted[0] == s.accepted[1];
      assert Reachable(s) && s.slowest <= g && !Once(s.accepted);
    }
  }

  /** The code is used at the first second of its interval, and again by a login
      that verifies in the last second and records a second later. */
  lemma SecondLate(u: Use) returns (s: State)
    requires 1 <= u.step && PERIOD * (u.step + 2) < U64
    ensures Reachable(s) && s.slowest == 1 && s.accepted == [u, u]
  {
    var first := PERIOD * (u.step - 1);
    var s0, fs := Start(first), [Verify(1, u), Record(1)] + [Tick(89)] + [Verify(2, u)];
    UntilVerified(u, first);
    RunThen(s0, fs, Tick(1));
    RunThen(s0, fs + [Tick(1)], Record(2));
    s := Run(s0, fs + [Tick(1)] + [Record(2)]);
    LastSecond(u, first, Run(s0, fs), Run(s0, fs + [Tick(1)]));
  }

  lemma UntilVerified(u: Use, first: nat)
    requires 1 <= u.step && first == PERIOD * (u.step - 1) && PERIOD * (u.step + 2) < U64
    ensures Run(Start(first), [Verify(1, u), Record(1)] + [Tick(89)] + [Verify(2, u)])
         == State(first + 89, map[u := first + 90], map[2 := Verified(u, first + 89)], [u], false, 0)
  {
    AcceptableInterval(u.step, first);
    AcceptableInterval(u.step, first + 89);
    FirstLogin(first, u);
    var s0, es := Start(first), [Verify(1, u), Record(1)];
    RunThen(s0, es, Tick(89));
    RunThen(s0, es + [Tick(89)], Verify(2, u));
    SecondVerified(u, first, Run(s0, es), Run(s0, es + [Tick(89)]));
  }

  lemma SecondVerified(u: Use, first: nat, s: State, s1: State)
    requires s == State(first, map[u := first + 90], map[], [u], false, 0) && first + 89 < U64
    requires s1 == Step(s, Tick(89)) && Acceptable(u.step, first + 89)
    ensures Step(s1, Verify(2, u))
         == State(first + 89, map[u := first + 90], map[2 := Verified(u, first + 89)], [u], false, 0)
  {
  }

  lemma LastSecond(u: Use, first: nat, s: State, s1: State)
    requires s == State(first + 89, map[u := first + 90], map[2 := Verified(u, first + 89)], [u], false, 0)
    requires first + 90 < U64 && s1 == Step(s, Tick(1))
    ensures Step(s1, Record(2)).accepted == [u, u] && Step(s1, Record(2)).slowest == 1
  {
    assert Step(s1, Record(2)) == RecordStep(s1, 2);
  }

  // ----- logins that are not interrupted -----

  datatype Attempt = Wait(seconds: nat) | Login(pid: nat, use: Use)

  function Events(a: Attempt): seq<Event> {
    match a
    case Wait(n) => [Tick(n)]
    case Login(pid, u) => [Verify(pid, u), Record(pid)]
  }

  function AllEvents(attempts: seq<Attempt>): seq<Event> {
    if attempts == [] then [] else AllEvents(attempts[..|attempts| - 1]) + Events(attempts[|attempts| - 1])
  }

  /** One login after another, each recording at once: no use is accepted twice. */
  lemma UninterruptedOnce(clock: nat, attempts: seq<Attempt>)
    requires clock < U64
    ensures Once(Run(Start(clock), AllEvents(attempts)).accepted)
  {
    UninterruptedInTime(clock, attempts);
    RunKeepsInv(clock, AllEvents(attempts));
  }

  lemma {:induction false} UninterruptedInTime(clock: nat, attempts: seq<Attempt>)
    requires clock < U64
    ensures var s := Run(Start(clock), AllEvents(attempts)); s.slowest == 0 && s.pending == map[]
  {
    if attempts != [] {
      var before, last := AllEvents(attempts[..|attempts| - 1]), attempts[|attempts| - 1];
      UninterruptedInTime(clock, attempts[..|attempts| - 1]);
      match last {
        case Wait(n) => RunThen(Start(clock), before, Tick(n));
        case Login(pid, u) =>
          assert before + Events(last) == before + [Verify(pid, u)] + [Record(pid)];
          RunThen(Start(clock), before, Verify(pid, u));
          RunThen(Start(clock), before + [Verify(pid, u)], Record(pid));
          RecordedAtOnce(Run(Start(clock), before), Run(Start(clock), before + [Verify(pid, u)]), pid, u);
      }
    }
  }

  lemma RecordedAtOnce(s: State, s1: State, pid: nat, u: Use)
    requires s.pending == map[] && s.slowest == 0 && s1 == Step(s, Verify(pid, u))
    ensures Step(s1, Record(pid)).pending == map[] && Step(s1, Record(pid)).slowest == 0
  {
    if pid in s1.pending {
      assert s1.pending == map[pid := Verified(u, s.clock)];
      assert Step(s1, Record(pid)) == RecordStep(s1, pid);
    }
  }

  /** In every reachable state, however late earlier logins recorded: a login that verifies
      and records without interruption is accepted exactly if its step is the one of the
      clock, the one before or the one after, and its use was never accepted before. */
  lemma LoginAlone(s: State, s1: State, s2: State, pid: nat, u: Use)
    requires Reachable(s) && pid !in s.pending && s1 == Step(s, Verify(pid, u)) && s2 == Step(s1, Record(pid))
    ensures s2.accepted
         == s.accepted + if Earliest(u.step) <= s.clock < End(u.step) && u !in s.accepted then [u] else []
    ensures pid !in s2.pending
  {
    ReachableInv(s);
    AcceptableInterval(u.step, s.clock);
    if Acceptable(u.step, s.clock) {
      assert s1.pending[pid] == Verified(u, s.clock);
      assert s2 == RecordStep(s1, pid);
      assert u in s.accepted ==> Live(s, u);
    } else {
      assert s2 == s;
    }
  }
}
