/** The fixed-window limiter `check_rate`: any number of calls that share one key,
    limit and window, interleaved one store operation at a time. */
module RateLimit {
  import opened Kv
  import Decimal
  import Lists
  import Words

  const MAX_RETRIES: nat := 5
  const TTL_MARGIN: nat := 10

  datatype Params = Params(limit: nat, window: nat)

  ghost predicate Legal(p: Params) {
    p.limit <= Decimal.U64_MAX && p.window > 0
  }

  /** The stored counter: decimal text that the store forgets at `expiresAt`. */
  datatype Counter = Counter(text: string, expiresAt: nat)

  datatype Outcome = Allowed(remaining: nat) | Denied | Exhausted

  /** A call in flight. `base` is history: how many calls its window had admitted
      when it began. */
  datatype Call =
    | Reading(now: nat, attempt: nat, base: nat)
    | Writing(now: nat, attempt: nat, base: nat, count: nat, rev: nat)
    | Returned(now: nat, base: nat, outcome: Outcome)

  /** An admitted call: the time it captured and the time its write landed. */
  datatype Admission = Admission(pid: nat, now: nat, at: nat, remaining: nat)

  /** `admits`, `late` and `slowest` are history: the admitted calls in commit order,
      whether some store operation ran after its window had been over for the whole
      margin of ten seconds, and the longest time from the start of a call to one of its
      operations. */
  datatype State = State(
    clock: nat,
    table: Table<nat, Counter>,
    calls: map<nat, Call>,
    admits: seq<Admission>,
    late: bool,
    slowest: nat)

  datatype Event = Tick(seconds: nat) | Begin(pid: nat) | Go(pid: nat)

  // ----- one store operation at a time -----

  function WindowStart(p: Params, now: nat): nat
    requires p.window > 0
  {
    now - now % p.window
  }

  /** A cell past its expiry is gone for every operation. */
  predicate Live(s: State, ws: nat) {
    ws in s.table && s.clock < s.table[ws].value.expiresAt
  }

  function ReadCount(s: State, ws: nat): nat {
    if Live(s, ws) then
      match Decimal.ParseU64(Lists.Trim(s.table[ws].value.text))
      case Some(n) => n
      case None => 0
    else 0
  }

  function ReadRev(s: State, ws: nat): nat {
    if Live(s, ws) then s.table[ws].rev else 0
  }

  predicate WriteAccepted(s: State, ws: nat, rev: nat) {
    if rev == 0 then !Live(s, ws) else Live(s, ws) && s.table[ws].rev == rev
  }

  function AfterRead(p: Params, s: State, c: Call): Call
    requires p.window > 0 && c.Reading?
  {
    var ws := WindowStart(p, c.now);
    if ReadCount(s, ws) >= p.limit then Returned(c.now, c.base, Denied)
    else Writing(c.now, c.attempt, c.base, ReadCount(s, ws), ReadRev(s, ws))
  }

  function AfterLostWrite(c: Call): Call
    requires c.Writing?
  {
    if c.attempt + 1 < MAX_RETRIES then Reading(c.now, c.attempt + 1, c.base)
    else Returned(c.now, c.base, Exhausted)
  }

  function Remaining(p: Params, c: Call): nat
    requires c.Writing?
  {
    if c.count < p.limit then p.limit - c.count - 1 else 0
  }

  function Slower(s: State, now: nat): nat {
    if s.clock > now + s.slowest then s.clock - now else s.slowest
  }

  function Operate(p: Params, s: State, pid: nat): State
    requires p.window > 0 && pid in s.calls && !s.calls[pid].Returned?
  {
    var c := s.calls[pid];
    var s := s.(late := s.late || s.clock >= WindowStart(p, c.now) + p.window + TTL_MARGIN,
                slowest := Slower(s, c.now));
    var ws := WindowStart(p, c.now);
    if c.Reading? then s.(calls := s.calls[pid := AfterRead(p, s, c)])
    else if WriteAccepted(s, ws, c.rev) then
      s.(table := s.table[ws := Cell(Counter(Decimal.Text(c.count + 1), s.clock + p.window + TTL_MARGIN), c.rev + 1)],
         calls := s.calls[pid := Returned(c.now, c.base, Allowed(Remaining(p, c)))],
         admits := s.admits + [Admission(pid, c.now, s.clock, Remaining(p, c))])
    else s.(calls := s.calls[pid := AfterLostWrite(c)])
  }

  function Step(p: Params, s: State, e: Event): State
    requires p.window > 0
  {
    match e
    case Tick(d) => s.(clock := s.clock + d)
    case Begin(pid) =>
      if pid in s.calls then s
      else s.(calls := s.calls[pid := Reading(s.clock, 0, |In(p, s.admits, WindowStart(p, s.clock))|)])
    case Go(pid) =>
      if pid in s.calls && !s.calls[pid].Returned? then Operate(p, s, pid) else s
  }

  function Run(p: Params, s: State, es: seq<Event>): State
    requires p.window > 0
  {
    if es == [] then s else Step(p, Run(p, s, es[..|es| - 1]), es[|es| - 1])
  }

  function Start(clock: nat): State {
    State(clock, map[], map[], [], false, 0)
  }

  /** The admissions that belong to one window, in commit order. */
  function In(p: Params, admits: seq<Admission>, ws: nat): seq<Admission>
    requires p.window > 0
  {
    if admits == [] then []
    else
      var last := admits[|admits| - 1];
      In(p, admits[..|admits| - 1], ws) + if WindowStart(p, last.now) == ws then [last] else []
  }

  // ----- the invariant -----

  ghost predicate WindowInv(p: Params, s: State, ws: nat)
    requires p.window > 0
  {
    var a := In(p, s.admits, ws);
    && |a| <= p.limit
    && (ws !in s.table ==> a == [])
    && (ws in s.table ==>
          && |a| > 0
          && s.table[ws].rev == |a|
          && s.table[ws].value.text == Decimal.Text(|a|)
          && s.table[ws].value.expiresAt >= ws + p.window + TTL_MARGIN)
    && forall k :: 0 <= k < |a| ==> a[k].remaining == p.limit - 1 - k
  }

  ghost predicate Admitted(admits: seq<Admission>, pid: nat, now: nat, remaining: nat) {
    exists i :: 0 <= i < |admits| && admits[i].pid == pid && admits[i].now == now && admits[i].remaining == remaining
  }

  /** What a call knows about its window; every clause survives later admissions. */
  ghost predicate CallInv(p: Params, clock: nat, admits: seq<Admission>, pid: nat, c: Call)
    requires p.window > 0
  {
    var n := |In(p, admits, WindowStart(p, c.now))|;
    && c.now <= clock
    && match c
       case Reading(_, attempt, base) => attempt < MAX_RETRIES && base + attempt <= n
       case Writing(_, attempt, base, count, rev) =>
         attempt < MAX_RETRIES && count == rev < p.limit && base + attempt <= count <= n
       case Returned(now, base, Allowed(remaining)) => Admitted(admits, pid, now, remaining)
       case Returned(_, base, Denied) => n >= p.limit
       case Returned(_, base, Exhausted) => base + MAX_RETRIES <= n
  }

  /** Every admission was returned to the call it names, so no call has two. */
  ghost predicate AdmitsInv(calls: map<nat, Call>, admits: seq<Admission>) {
    && (forall i :: 0 <= i < |admits| ==>
          && admits[i].pid in calls
          && calls[admits[i].pid].Returned?
          && calls[admits[i].pid].now == admits[i].now
          && calls[admits[i].pid].outcome == Allowed(admits[i].remaining))
    && (forall i, j :: 0 <= i < j < |admits| ==> admits[i].pid != admits[j].pid)
  }

  ghost predicate Inv(p: Params, s: State) {
    && Legal(p)
    && (forall ws :: WindowInv(p, s, ws))
    && (forall pid :: pid in s.calls ==> CallInv(p, s.clock, s.admits, pid, s.calls[pid]))
    && AdmitsInv(s.calls, s.admits)
    && Landed(p, s.admits)
  }

  /** A write lands after its call began and before its window's margin is over. */
  ghost predicate Landed(p: Params, admits: seq<Admission>)
    requires p.window > 0
  {
    forall i :: 0 <= i < |admits| ==>
      admits[i].now <= admits[i].at < WindowStart(p, admits[i].now) + p.window + TTL_MARGIN
  }

  lemma WindowBounds(p: Params, now: nat)
    requires p.window > 0
    ensures WindowStart(p, now) <= now < WindowStart(p, now) + p.window
  {
  }

  lemma InAppend(p: Params, admits: seq<Admission>, a: Admission, ws: nat)
    requires p.window > 0
    ensures In(p, admits + [a], ws) == In(p, admits, ws) + if WindowStart(p, a.now) == ws then [a] else []
  {
    assert (admits + [a])[..|admits|] == admits;
  }

  /** Decimal text has nothing to trim. */
  lemma CounterText(n: nat)
    requires n <= Decimal.U64_MAX
    ensures Decimal.ParseU64(Lists.Trim(Decimal.Text(n))) == Some(n)
  {
    var t := Decimal.Text(n);
    assert Decimal.IsDigit(t[0]) && Decimal.IsDigit(t[|t| - 1]);
    Decimal.ParseText(n);
  }

  /** Until the margin after its window is over, the window's cell cannot have expired. */
  lemma InTimeMeansLive(p: Params, s: State, now: nat)
    requires Legal(p) && WindowInv(p, s, WindowStart(p, now))
    requires now <= s.clock < WindowStart(p, now) + p.window + TTL_MARGIN
    ensures var ws := WindowStart(p, now);
            && (Live(s, ws) <==> ws in s.table)
            && ReadCount(s, ws) == ReadRev(s, ws) == |In(p, s.admits, ws)|
  {
    var ws := WindowStart(p, now);
    WindowBounds(p, now);
    if ws in s.table {
      CounterText(|In(p, s.admits, ws)|);
    }
  }

  lemma CallInvLater(p: Params, clock: nat, clock': nat, admits: seq<Admission>, a: Admission, pid: nat, c: Call)
    requires p.window > 0 && clock <= clock' && CallInv(p, clock, admits, pid, c)
    ensures CallInv(p, clock', admits, pid, c)
    ensures CallInv(p, clock', admits + [a], pid, c)
  {
    InAppend(p, admits, a, WindowStart(p, c.now));
    if c.Returned? && c.outcome.Allowed? {
      var i :| 0 <= i < |admits| && admits[i].pid == pid && admits[i].now == c.now
          && admits[i].remaining == c.outcome.remaining;
      assert (admits + [a])[i] == admits[i];
    }
  }

  lemma AdmitKeepsWindow(p: Params, s: State, pid: nat, ws: nat)
    requires Legal(p) && pid in s.calls && s.calls[pid].Writing?
    requires WindowInv(p, s, ws) && WindowInv(p, s, WindowStart(p, s.calls[pid].now))
    requires CallInv(p, s.clock, s.admits, pid, s.calls[pid])
    requires s.clock < WindowStart(p, s.calls[pid].now) + p.window + TTL_MARGIN
    requires WriteAccepted(s, WindowStart(p, s.calls[pid].now), s.calls[pid].rev)
    ensures WindowInv(p, Operate(p, s, pid), ws)
  {
    var c := s.calls[pid];
    InTimeMeansLive(p, s, c.now);
    WindowBounds(p, c.now);
    Admitting(p, s, Operate(p, s, pid), pid, ws);
    if ws == WindowStart(p, c.now) {
      CountedWrite(p, s, Operate(p, s, pid), ws, c, Admission(pid, c.now, s.clock, Remaining(p, c)));
    }
  }

  /** What an accepted write changes, window by window. */
  lemma Admitting(p: Params, s: State, s': State, pid: nat, ws: nat)
    requires p.window > 0 && pid in s.calls && s.calls[pid].Writing? && s' == Operate(p, s, pid)
    requires WriteAccepted(s, WindowStart(p, s.calls[pid].now), s.calls[pid].rev)
    ensures var c := s.calls[pid];
            if ws == WindowStart(p, c.now) then
              && In(p, s'.admits, ws) == In(p, s.admits, ws) + [Admission(pid, c.now, s.clock, Remaining(p, c))]
              && ws in s'.table && s'.table[ws].rev == c.rev + 1
              && s'.table[ws].value == Counter(Decimal.Text(c.count + 1), s.clock + p.window + TTL_MARGIN)
            else
              && In(p, s'.admits, ws) == In(p, s.admits, ws)
              && (ws in s'.table <==> ws in s.table) && (ws in s.table ==> s'.table[ws] == s.table[ws])
  {
    var c := s.calls[pid];
    InAppend(p, s.admits, Admission(pid, c.now, s.clock, Remaining(p, c)), ws);
  }

  lemma CountedWrite(p: Params, s: State, s': State, ws: nat, c: Call, a: Admission)
    requires Legal(p) && WindowInv(p, s, ws) && c.Writing? && a.remaining == Remaining(p, c)
    requires c.count == c.rev == |In(p, s.admits, ws)| < p.limit
    requires In(p, s'.admits, ws) == In(p, s.admits, ws) + [a]
    requires ws in s'.table && s'.table[ws].rev == c.rev + 1 && s'.table[ws].value.text == Decimal.Text(c.count + 1)
    requires s'.table[ws].value.expiresAt >= ws + p.window + TTL_MARGIN
    ensures WindowInv(p, s', ws)
  {
  }

  /** What one operation leaves behind for the call that made it. */
  lemma OperateKeepsCall(p: Params, s: State, pid: nat)
    requires Legal(p) && pid in s.calls && !s.calls[pid].Returned?
    requires WindowInv(p, s, WindowStart(p, s.calls[pid].now))
    requires CallInv(p, s.clock, s.admits, pid, s.calls[pid])
    requires s.clock < WindowStart(p, s.calls[pid].now) + p.window + TTL_MARGIN
    ensures var s' := Operate(p, s, pid); CallInv(p, s'.clock, s'.admits, pid, s'.calls[pid])
  {
    var c := s.calls[pid];
    InTimeMeansLive(p, s, c.now);
    var s' := Operate(p, s, pid);
    if |s'.admits| > |s.admits| {
      assert s'.admits[|s.admits|] == Admission(pid, c.now, s.clock, Remaining(p, c));
    }
  }

  lemma GoKeepsInv(p: Params, s: State, pid: nat)
    requires Inv(p, s) && pid in s.calls && !s.calls[pid].Returned?
    requires !Operate(p, s, pid).late
    ensures Inv(p, Operate(p, s, pid))
  {
    var c := s.calls[pid];
    var s' := Operate(p, s, pid);
    assert WindowInv(p, s, WindowStart(p, c.now));
    OperateKeepsCall(p, s, pid);
    forall w ensures WindowInv(p, s', w) {
      assert WindowInv(p, s, w);
      if c.Writing? && WriteAccepted(s, WindowStart(p, c.now), c.rev) {
        AdmitKeepsWindow(p, s, pid, w);
      }
    }
    forall q | q in s'.calls ensures CallInv(p, s'.clock, s'.admits, q, s'.calls[q]) {
      if q != pid {
        CallInvLater(p, s.clock, s'.clock, s.admits, Admission(pid, c.now, s.clock, if c.Writing? then Remaining(p, c)
            else 0), q, s.calls[q]);
      }
    }
    GoAdmits(p, s, pid);
  }

  lemma GoAdmits(p: Params, s: State, pid: nat)
    requires p.window > 0 && pid in s.calls && !s.calls[pid].Returned? && s.calls[pid].now <= s.clock
    requires AdmitsInv(s.calls, s.admits) && Landed(p, s.admits) && !Operate(p, s, pid).late
    ensures var s' := Operate(p, s, pid); AdmitsInv(s'.calls, s'.admits) && Landed(p, s'.admits)
  {
  }

  lemma StepKeepsInv(p: Params, s: State, e: Event)
    requires Inv(p, s) && !Step(p, s, e).late
    ensures Inv(p, Step(p, s, e))
  {
    var s' := Step(p, s, e);
    if e.Go? && e.pid in s.calls && !s.calls[e.pid].Returned? {
      GoKeepsInv(p, s, e.pid);
    } else {
      forall w ensures WindowInv(p, s', w) {
        assert WindowInv(p, s, w);
      }
      forall q | q in s.calls ensures CallInv(p, s'.clock, s.admits, q, s.calls[q]) {
        CallInvLater(p, s.clock, s'.clock, s.admits, Admission(0, 0, 0, 0), q, s.calls[q]);
      }
    }
  }

  lemma LateForever(p: Params, s: State, e: Event)
    requires p.window > 0 && s.late
    ensures Step(p, s, e).late
  {
  }

  lemma {:induction false} RunKeepsInv(p: Params, clock: nat, es: seq<Event>)
    requires Legal(p) && !Run(p, Start(clock), es).late
    ensures Inv(p, Run(p, Start(clock), es))
  {
    if es != [] {
      var s := Run(p, Start(clock), es[..|es| - 1]);
      if s.late {
        LateForever(p, s, es[|es| - 1]);
      }
      RunKeepsInv(p, clock, es[..|es| - 1]);
      StepKeepsInv(p, s, es[|es| - 1]);
    }
  }

  // ----- what a run guarantees -----

  /** The stored counter is the number of calls admitted in its window, at most
      `limit`; the admitted calls got limit-1, limit-2, ... each exactly once; a
      denied call found its window full. */
  lemma CounterCountsAdmissions(p: Params, clock: nat, es: seq<Event>, ws: nat)
    requires Legal(p) && !Run(p, Start(clock), es).late
    ensures var s := Run(p, Start(clock), es);
            var a := In(p, s.admits, ws);
            && |a| <= p.limit
            && (ws in s.table <==> a != [])
            && (ws in s.table ==> Decimal.ParseU64(s.table[ws].value.text) == Some(|a|))
            && (forall k :: 0 <= k < |a| ==>
                  && a[k].remaining == p.limit - 1 - k
                  && a[k].pid in s.calls
                  && s.calls[a[k].pid].Returned?
                  && s.calls[a[k].pid].outcome == Allowed(a[k].remaining))
            && (forall j, k :: 0 <= j < k < |a| ==> a[j].pid != a[k].pid)
    ensures var s := Run(p, Start(clock), es);
            forall pid :: pid in s.calls && s.calls[pid].Returned? && s.calls[pid].outcome == Denied ==>
              |In(p, s.admits, WindowStart(p, s.calls[pid].now))| == p.limit
  {
    RunKeepsInv(p, clock, es);
    var s := Run(p, Start(clock), es);
    assert WindowInv(p, s, ws);
    InDistinct(p, s.calls, s.admits, ws);
    if ws in s.table {
      Decimal.ParseText(|In(p, s.admits, ws)|);
    }
    forall pid | pid in s.calls && s.calls[pid].Returned? && s.calls[pid].outcome == Denied
      ensures |In(p, s.admits, WindowStart(p, s.calls[pid].now))| == p.limit
    {
      assert WindowInv(p, s, WindowStart(p, s.calls[pid].now));
    }
  }

  lemma {:induction false} InDistinct(p: Params, calls: map<nat, Call>, admits: seq<Admission>, ws: nat)
    requires p.window > 0 && AdmitsInv(calls, admits)
    ensures forall k :: 0 <= k < |In(p, admits, ws)| ==> In(p, admits, ws)[k] in admits
    ensures forall j, k :: 0 <= j < k < |In(p, admits, ws)| ==> In(p, admits, ws)[j].pid != In(p, admits, ws)[k].pid
  {
    if admits != [] {
      var rest := admits[..|admits| - 1];
      assert AdmitsInv(calls, rest);
      InDistinct(p, calls, rest, ws);
      var a := In(p, rest, ws);
      forall k | 0 <= k < |a| ensures a[k] in admits && a[k].pid != admits[|admits| - 1].pid {
        assert a[k] in rest;
        var i :| 0 <= i < |rest| && rest[i] == a[k];
        assert admits[i] == a[k];
      }
    }
  }

  // ----- progress -----

  lemma {:induction false} RunConcat(p: Params, s: State, es: seq<Event>, fs: seq<Event>)
    requires p.window > 0
    ensures Run(p, s, es + fs) == Run(p, Run(p, s, es), fs)
  {
    if fs == [] {
      assert es + fs == es;
    } else {
      RunConcat(p, s, es, fs[..|fs| - 1]);
      assert (es + fs)[..|es + fs| - 1] == es + fs[..|fs| - 1];
    }
  }

  lemma {:induction false} CallKept(p: Params, s: State, es: seq<Event>, pid: nat)
    requires p.window > 0 && pid in s.calls
    ensures var s' := Run(p, s, es);
            pid in s'.calls && s'.calls[pid].base == s.calls[pid].base && s'.calls[pid].now == s.calls[pid].now
  {
    if es != [] {
      CallKept(p, s, es[..|es| - 1], pid);
    }
  }

  /** A call gives up only after five other calls were admitted to its window
      while it ran. */
  lemma ExhaustedMeansFiveOthers(p: Params, clock: nat, before: seq<Event>, pid: nat, during: seq<Event>)
    requires Legal(p)
    requires pid !in Run(p, Start(clock), before).calls
    requires var s' := Run(p, Start(clock), before + [Begin(pid)] + during);
             !s'.late && pid in s'.calls && s'.calls[pid].Returned? && s'.calls[pid].outcome == Exhausted
    ensures var s := Run(p, Start(clock), before);
            var s' := Run(p, Start(clock), before + [Begin(pid)] + during);
            var ws := WindowStart(p, s.clock);
            var past, a := |In(p, s.admits, ws)|, In(p, s'.admits, ws);
            && |a| >= past + MAX_RETRIES
            && (forall k :: 0 <= k < |a| ==> a[k].pid != pid)
            && (forall j, k :: 0 <= j < k < |a| ==> a[j].pid != a[k].pid)
  {
    var s := Run(p, Start(clock), before);
    var mid := Run(p, Start(clock), before + [Begin(pid)]);
    var s' := Run(p, Start(clock), before + [Begin(pid)] + during);
    assert (before + [Begin(pid)])[..|before|] == before;
    RunConcat(p, Start(clock), before + [Begin(pid)], during);
    CallKept(p, mid, during, pid);
    RunKeepsInv(p, clock, before + [Begin(pid)] + during);
    var ws := WindowStart(p, s.clock);
    assert CallInv(p, s'.clock, s'.admits, pid, s'.calls[pid]);
    InDistinct(p, s'.calls, s'.admits, ws);
  }

  // ----- the key of a window's counter -----

  function DbKey(key: string, ws: nat): string {
    "rate:" + key + ":" + Decimal.Text(ws)
  }

  /** Colons inside `key` do not matter: the decimal suffix holds none. */
  lemma DbKeyInjective(key: string, ws: nat, key': string, ws': nat)
    requires DbKey(key, ws) == DbKey(key', ws')
    ensures key == key' && ws == ws'
  {
    var k := DbKey(key, ws);
    var t, t' := Decimal.Text(ws), Decimal.Text(ws');
    LastColon(key, ws);
    LastColon(key', ws');
    assert |t| == |t'|;
    assert t == k[|k| - |t|..] && t' == k[|k| - |t|..];
    assert key == k[5..|k| - |t| - 1] && key' == k[5..|k| - |t| - 1];
    Decimal.TextInjective(ws, ws');
  }

  lemma LastColon(key: string, ws: nat)
    ensures var k, n := DbKey(key, ws), |Decimal.Text(ws)|;
            && k[|k| - n - 1] == ':'
            && forall i :: |k| - n <= i < |k| ==> k[i] != ':'
  {
    var k, t := DbKey(key, ws), Decimal.Text(ws);
    forall i | |k| - |t| <= i < |k| ensures k[i] != ':' {
      assert k[i] == t[i - (|k| - |t|)];
    }
  }
}
