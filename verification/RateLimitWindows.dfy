/** What the fixed windows of `check_rate` mean for sliding ones, and what the ten
    seconds of margin are good for. */
module RateLimitWindows {
  import opened Kv
  import opened RateLimit
  import Decimal
  import Words

  // ----- by the time a call began -----

  /** How many admissions captured a `now` in [from, from + window). */
  function InInterval(p: Params, admits: seq<Admission>, from: nat): nat {
    if admits == [] then 0
    else
      var last := admits[|admits| - 1];
      InInterval(p, admits[..|admits| - 1], from) + if from <= last.now < from + p.window then 1 else 0
  }

  /** An interval one window long meets at most two aligned windows. */
  lemma {:induction false} IntervalMeetsTwoWindows(p: Params, admits: seq<Admission>, from: nat)
    requires p.window > 0
    ensures var ws := WindowStart(p, from);
            InInterval(p, admits, from) <= |In(p, admits, ws)| + |In(p, admits, ws + p.window)|
  {
    if admits != [] {
      var last := admits[|admits| - 1];
      IntervalMeetsTwoWindows(p, admits[..|admits| - 1], from);
      if from <= last.now < from + p.window {
        NextWindow(p, from, last.now);
      }
    }
  }

  lemma NextWindow(p: Params, from: nat, now: nat)
    requires p.window > 0 && from <= now < from + p.window
    ensures WindowStart(p, now) == WindowStart(p, from) || WindowStart(p, now) == WindowStart(p, from) + p.window
  {
    var w := p.window;
    var q, r := from / w, from % w;
    assert from == w * q + r;
    if now < w * q + w {
      Quotient(now, w, q);
    } else {
      assert w * (q + 1) == w * q + w;
      Quotient(now, w, q + 1);
    }
    assert WindowStart(p, from) == w * q;
  }

  lemma Quotient(n: nat, w: nat, q: nat)
    requires w > 0 && w * q <= n < w * q + w
    ensures n - n % w == w * q
  {
    Words.Remainder(n, w, q, n - w * q);
  }

  /** Any interval of `window` seconds holds at most twice the limit. */
  lemma SlidingBound(p: Params, clock: nat, es: seq<Event>, from: nat)
    requires Legal(p) && !Run(p, Start(clock), es).late
    ensures InInterval(p, Run(p, Start(clock), es).admits, from) <= 2 * p.limit
  {
    RunKeepsInv(p, clock, es);
    TwoWindows(p, Run(p, Start(clock), es), from);
  }

  lemma TwoWindows(p: Params, s: State, from: nat)
    requires Inv(p, s)
    ensures InInterval(p, s.admits, from) <= 2 * p.limit
  {
    var ws := WindowStart(p, from);
    IntervalMeetsTwoWindows(p, s.admits, from);
    assert WindowInv(p, s, ws) && WindowInv(p, s, ws + p.window);
  }

  // ----- by the time a write landed -----

  /** How many admissions landed in [from, from + window). */
  function LandedIn(p: Params, admits: seq<Admission>, from: nat): nat {
    if admits == [] then 0
    else
      var last := admits[|admits| - 1];
      LandedIn(p, admits[..|admits| - 1], from) + if from <= last.at < from + p.window then 1 else 0
  }

  /** The admissions of the `n` windows that end with the one of index `k`. */
  function InWindows(p: Params, admits: seq<Admission>, k: int, n: nat): nat
    requires p.window > 0
    decreases n
  {
    if n == 0 then 0
    else (if k >= 0 then |In(p, admits, p.window * k)| else 0) + InWindows(p, admits, k - 1, n - 1)
  }

  lemma MulDistinct(w: nat, i: nat, k: nat)
    requires w > 0 && i != k
    ensures w * i != w * k
  {
    if i < k {
      Words.MulMonotone(w, i + 1, k);
    } else {
      Words.MulMonotone(w, k + 1, i);
    }
    assert w * (i + 1) == w * i + w && w * (k + 1) == w * k + w;
  }

  lemma {:induction false} InWindowsAppend(p: Params, admits: seq<Admission>, a: Admission, i: nat, k: int, n: nat)
    requires p.window > 0 && WindowStart(p, a.now) == p.window * i
    ensures InWindows(p, admits + [a], k, n) == InWindows(p, admits, k, n) + if k - n < i <= k then 1 else 0
    decreases n
  {
    if n > 0 {
      InWindowsAppend(p, admits, a, i, k - 1, n - 1);
      if k >= 0 {
        InAppend(p, admits, a, p.window * k);
        if i != k {
          MulDistinct(p.window, i, k);
        }
      }
    }
  }

  /** How many windows, before its own, a write may land late. */
  function Overhang(w: nat): nat
    requires w > 0
  {
    (w + TTL_MARGIN - 1) / w
  }

  lemma WindowIndex(p: Params, now: nat)
    requires p.window > 0
    ensures WindowStart(p, now) == p.window * (now / p.window)
  {
    Words.DivMod(now, p.window);
  }

  /** A write that lands in the interval is for one of the windows near its start. */
  lemma LandsNear(w: nat, i: nat, q: nat, from: nat, at: nat)
    requires w > 0 && w * i <= at < w * i + w + TTL_MARGIN
    requires w * q <= from < w * q + w && from <= at < from + w
    ensures q + 1 - (Overhang(w) + 2) < i <= q + 1
  {
    assert w * (q + 2) == w * q + 2 * w;
    Words.MulMonotone(w, q + 2, i);
    if q >= i {
      assert w * (q - i) == w * q - w * i;
      assert w * (q - i) < w + TTL_MARGIN;
      DivLess(w, q - i, w + TTL_MARGIN - 1);
    }
  }

  lemma DivLess(w: nat, d: nat, x: nat)
    requires w > 0 && w * d <= x
    ensures d <= x / w
  {
    Words.DivMod(x, w);
    assert w * (x / w + 1) == w * (x / w) + w;
    Words.MulMonotone(w, x / w + 1, d);
  }

  lemma {:induction false} LandedMeetsWindows(p: Params, admits: seq<Admission>, from: nat)
    requires p.window > 0 && Landed(p, admits)
    ensures LandedIn(p, admits, from) <= InWindows(p, admits, from / p.window + 1, Overhang(p.window) + 2)
  {
    if admits != [] {
      var rest, a := admits[..|admits| - 1], admits[|admits| - 1];
      LandedMeetsWindows(p, rest, from);
      assert admits == rest + [a];
      WindowIndex(p, a.now);
      WindowIndex(p, from);
      WindowBounds(p, from);
      WindowBounds(p, a.now);
      InWindowsAppend(p, rest, a, a.now / p.window, from / p.window + 1, Overhang(p.window) + 2);
      if from <= a.at < from + p.window {
        LandsNear(p.window, a.now / p.window, from / p.window, from, a.at);
      }
    }
  }

  lemma {:induction false} InWindowsBound(p: Params, s: State, k: int, n: nat)
    requires Inv(p, s)
    ensures InWindows(p, s.admits, k, n) <= n * p.limit
    decreases n
  {
    if n > 0 {
      InWindowsBound(p, s, k - 1, n - 1);
      if k >= 0 {
        assert WindowInv(p, s, p.window * k);
      }
      assert n * p.limit == (n - 1) * p.limit + p.limit;
    }
  }

  /** The writes that land in any interval of `window` seconds, whenever their calls began:
      at most three times the limit, for windows of ten seconds and more. */
  lemma LandingBound(p: Params, clock: nat, es: seq<Event>, from: nat)
    requires Legal(p) && !Run(p, Start(clock), es).late
    ensures LandedIn(p, Run(p, Start(clock), es).admits, from) <= (Overhang(p.window) + 2) * p.limit
    ensures p.window >= TTL_MARGIN ==> Overhang(p.window) == 1
  {
    RunKeepsInv(p, clock, es);
    var s := Run(p, Start(clock), es);
    LandedMeetsWindows(p, s.admits, from);
    InWindowsBound(p, s, from / p.window + 1, Overhang(p.window) + 2);
    if p.window >= TTL_MARGIN {
      Words.Remainder(p.window + TTL_MARGIN - 1, p.window, 1, TTL_MARGIN - 1);
    }
  }

  // ----- the margin -----

  lemma QuickStep(p: Params, s: State, e: Event)
    requires p.window > 0 && Step(p, s, e).slowest <= TTL_MARGIN
    ensures s.slowest <= TTL_MARGIN && (!s.late ==> !Step(p, s, e).late)
  {
    if e.Go? && e.pid in s.calls {
      WindowBounds(p, s.calls[e.pid].now);
    }
  }

  /** A run in which every store operation comes within ten seconds of the start of its
      call is never late: everything said of runs that are not late holds of it. */
  lemma {:induction false} TenSecondsIsInTime(p: Params, clock: nat, es: seq<Event>)
    requires p.window > 0 && Run(p, Start(clock), es).slowest <= TTL_MARGIN
    ensures !Run(p, Start(clock), es).late
  {
    if es != [] {
      var s := Run(p, Start(clock), es[..|es| - 1]);
      QuickStep(p, s, es[|es| - 1]);
      TenSecondsIsInTime(p, clock, es[..|es| - 1]);
    }
  }

  // ----- without it -----

  lemma RunThen(p: Params, s: State, es: seq<Event>, e: Event)
    requires p.window > 0
    ensures Run(p, s, es + [e]) == Step(p, Run(p, s, es), e)
  {
    assert (es + [e])[..|es|] == es;
  }

  /** So many calls, one after the other. */
  function FillEvents(n: nat): seq<Event> {
    if n == 0 then [] else FillEvents(n - 1) + [Begin(n)] + [Go(n)] + [Go(n)]
  }

  /** In the first second of the first window, `n` calls were admitted. */
  ghost predicate Filled(p: Params, s: State, n: nat)
    requires p.window > 0
  {
    && s.clock == 0 && !s.late && s.slowest == 0 && |In(p, s.admits, 0)| == n
    && (0 in s.table ==> s.table[0].value.expiresAt == p.window + TTL_MARGIN)
    && (forall pid :: pid in s.calls ==> pid <= n)
  }

  lemma ReadsCount(p: Params, s: State, s1: State, n: nat)
    requires Inv(p, s) && Filled(p, s, n) && n < p.limit && s1 == Step(p, s, Begin(n + 1))
    ensures var s2 := Step(p, s1, Go(n + 1));
            s2 == s.(calls := s.calls[n + 1 := Writing(0, 0, n, n, ReadRev(s, 0))])
  {
    assert WindowStart(p, 0) == 0;
    assert s1 == s.(calls := s.calls[n + 1 := Reading(0, 0, n)]);
    InTimeMeansLive(p, s, 0);
  }

  lemma WritesCount(p: Params, s: State, s2: State, n: nat)
    requires Inv(p, s) && Filled(p, s, n) && n < p.limit
    requires s2 == s.(calls := s.calls[n + 1 := Writing(0, 0, n, n, ReadRev(s, 0))])
    ensures Filled(p, Step(p, s2, Go(n + 1)), n + 1)
  {
    assert WindowStart(p, 0) == 0;
    InTimeMeansLive(p, s, 0);
    CountWritten(p, s, s2, Step(p, s2, Go(n + 1)), n);
  }

  lemma CountWritten(p: Params, s: State, s2: State, s3: State, n: nat)
    requires p.window > 0 && WindowStart(p, 0) == 0 && Filled(p, s, n) && (Live(s, 0) <==> 0 in s.table)
    requires 0 in s.table ==> s.table[0].rev > 0
    requires s2 == s.(calls := s.calls[n + 1 := Writing(0, 0, n, n, ReadRev(s, 0))]) && s3 == Step(p, s2, Go(n + 1))
    ensures Filled(p, s3, n + 1)
  {
    assert WriteAccepted(s2, 0, ReadRev(s, 0));
    Admitting(p, s2, s3, n + 1, 0);
  }

  lemma OneMore(p: Params, s: State, s1: State, s2: State, n: nat)
    requires Inv(p, s) && Filled(p, s, n) && n < p.limit
    requires s1 == Step(p, s, Begin(n + 1)) && s2 == Step(p, s1, Go(n + 1))
    ensures Filled(p, Step(p, s2, Go(n + 1)), n + 1)
  {
    ReadsCount(p, s, s1, n);
    WritesCount(p, s, s2, n);
  }

  lemma NoneYet(p: Params)
    requires p.window > 0
    ensures Filled(p, Run(p, Start(0), []), 0)
  {
  }

  lemma FillEventsMore(n: nat)
    ensures FillEvents(n + 1) == FillEvents(n) + [Begin(n + 1)] + [Go(n + 1)] + [Go(n + 1)]
  {
  }

  /** The state after so many calls. */
  function FilledUp(p: Params, n: nat): State
    requires p.window > 0
  {
    Run(p, Start(0), FillEvents(n))
  }

  lemma {:induction false} WindowFills(p: Params, n: nat)
    requires Legal(p) && n <= p.limit
    ensures Filled(p, FilledUp(p, n), n)
  {
    if n == 0 {
      NoneYet(p);
    } else {
      WindowFills(p, n - 1);
      FillOnce(p, n - 1);
    }
  }

  lemma FillOnce(p: Params, n: nat)
    requires Legal(p) && n < p.limit && Filled(p, FilledUp(p, n), n)
    ensures Filled(p, FilledUp(p, n + 1), n + 1)
  {
    RunKeepsInv(p, 0, FillEvents(n));
    OneMoreRun(p, Start(0), FillEvents(n), n);
    FillEventsMore(n);
  }

  lemma OneMoreRun(p: Params, s0: State, es: seq<Event>, n: nat)
    requires Legal(p) && Inv(p, Run(p, s0, es)) && Filled(p, Run(p, s0, es), n) && n < p.limit
    ensures Filled(p, Run(p, s0, es + [Begin(n + 1)] + [Go(n + 1)] + [Go(n + 1)]), n + 1)
  {
    var es1 := es + [Begin(n + 1)];
    var es2 := es1 + [Go(n + 1)];
    RunThen(p, s0, es, Begin(n + 1));
    RunThen(p, s0, es1, Go(n + 1));
    RunThen(p, s0, es2, Go(n + 1));
    OneMore(p, Run(p, s0, es), Run(p, s0, es1), Run(p, s0, es2), n);
  }

  lemma ThreeMore(p: Params, s: State, es: seq<Event>, e1: Event, e2: Event, e3: Event)
    requires p.window > 0
    ensures Run(p, s, es + [e1] + [e2] + [e3]) == Step(p, Step(p, Step(p, Run(p, s, es), e1), e2), e3)
  {
    RunThen(p, s, es, e1);
    RunThen(p, s, es + [e1], e2);
    RunThen(p, s, es + [e1] + [e2], e3);
  }

  /** One more call begins in the window's last second and goes on eleven seconds later. */
  function LateEvents(p: Params): seq<Event>
    requires p.window > 0
  {
    [Tick(p.window - 1), Begin(p.limit + 1), Tick(TTL_MARGIN + 1), Go(p.limit + 1), Go(p.limit + 1)]
  }

  lemma LastSecond(p: Params)
    requires p.window > 0
    ensures WindowStart(p, p.window - 1) == 0
  {
    Words.Remainder(p.window - 1, p.window, 0, p.window - 1);
  }

  lemma LastOneWaits(p: Params, s: State, s1: State, s2: State)
    requires Legal(p) && Filled(p, s, p.limit)
    requires s1 == Step(p, s, Tick(p.window - 1)) && s2 == Step(p, s1, Begin(p.limit + 1))
    ensures var s3 := Step(p, s2, Tick(TTL_MARGIN + 1));
            s3 == s.(clock := p.window + TTL_MARGIN,
                     calls := s.calls[p.limit + 1 := Reading(p.window - 1, 0, p.limit)])
  {
    LastSecond(p);
  }

  lemma LastOneAdmitted(p: Params, s: State, s3: State, s4: State)
    requires Legal(p) && p.limit > 0 && Filled(p, s, p.limit)
    requires s3 == s.(clock := p.window + TTL_MARGIN,
                      calls := s.calls[p.limit + 1 := Reading(p.window - 1, 0, p.limit)])
    requires s4 == Step(p, s3, Go(p.limit + 1))
    ensures var s5 := Step(p, s4, Go(p.limit + 1));
            |In(p, s5.admits, 0)| == p.limit + 1 && s5.slowest == TTL_MARGIN + 1
  {
    LastSecond(p);
    assert !Live(s3, 0);
    assert s4.calls[p.limit + 1] == Writing(p.window - 1, 0, p.limit, 0, 0);
    assert !Live(s4, 0);
    InAppend(p, s.admits, Admission(p.limit + 1, p.window - 1, s3.clock, p.limit - 1), 0);
  }

  /** The margin is needed: from the start, in a window that has admitted its limit, one more
      call is admitted that began in the window's last second and waited eleven seconds. */
  lemma ExpiredWindowAdmitsAgain(p: Params)
    requires Legal(p) && p.limit > 0
    ensures var s := Run(p, Start(0), FillEvents(p.limit) + LateEvents(p));
            |In(p, s.admits, 0)| == p.limit + 1 && s.slowest == TTL_MARGIN + 1
  {
    WindowFills(p, p.limit);
    LateRun(p, Start(0), FillEvents(p.limit));
  }

  lemma LateRun(p: Params, s0: State, es: seq<Event>)
    requires Legal(p) && p.limit > 0 && Filled(p, Run(p, s0, es), p.limit)
    ensures var s := Run(p, s0, es + LateEvents(p)); |In(p, s.admits, 0)| == p.limit + 1 && s.slowest == TTL_MARGIN + 1
  {
    ThreeMore(p, s0, es, Tick(p.window - 1), Begin(p.limit + 1), Tick(TTL_MARGIN + 1));
    var fs := es + [Tick(p.window - 1)] + [Begin(p.limit + 1)] + [Tick(TTL_MARGIN + 1)];
    assert es + LateEvents(p) == fs + [Go(p.limit + 1)] + [Go(p.limit + 1)];
    RunThen(p, s0, fs, Go(p.limit + 1));
    RunThen(p, s0, fs + [Go(p.limit + 1)], Go(p.limit + 1));
    LateAdmission(p, Run(p, s0, es), Run(p, s0, fs));
  }

  lemma LateAdmission(p: Params, s: State, s3: State)
    requires Legal(p) && p.limit > 0 && Filled(p, s, p.limit)
    requires s3 == Step(p, Step(p, Step(p, s, Tick(p.window - 1)), Begin(p.limit + 1)), Tick(TTL_MARGIN + 1))
    ensures var s5 := Step(p, Step(p, s3, Go(p.limit + 1)), Go(p.limit + 1));
            |In(p, s5.admits, 0)| == p.limit + 1 && s5.slowest == TTL_MARGIN + 1
  {
    LastOneWaits(p, s, Step(p, s, Tick(p.window - 1)), Step(p, Step(p, s, Tick(p.window - 1)), Begin(p.limit + 1)));
    LastOneAdmitted(p, s, s3, Step(p, s3, Go(p.limit + 1)));
  }

  // ----- the delay that is safe -----

  ghost predicate Reachable(p: Params, s: State)
    requires p.window > 0
  {
    exists clock: nat, es :: s == Run(p, Start(clock), es)
  }

  ghost predicate KeepsLimit(p: Params, s: State)
    requires p.window > 0
  {
    forall ws :: |In(p, s.admits, ws)| <= p.limit
  }

  /** Every run whose store operations come at most so many seconds after the start of their
      call admits no more than the limit in any window. */
  ghost predicate SafeDelay(p: Params, g: nat)
    requires p.window > 0
  {
    forall s: State :: Reachable(p, s) && s.slowest <= g ==> KeepsLimit(p, s)
  }

  lemma {:induction false} NoneAdmitted(p: Params, clock: nat, es: seq<Event>)
    requires p.window > 0 && p.limit == 0
    ensures var s := Run(p, Start(clock), es);
            s.admits == [] && forall pid :: pid in s.calls ==> !s.calls[pid].Writing?
  {
    if es != [] {
      NoneAdmitted(p, clock, es[..|es| - 1]);
    }
  }

  lemma QuickKeepsLimit(p: Params, s: State)
    requires Legal(p) && Reachable(p, s) && s.slowest <= TTL_MARGIN
    ensures KeepsLimit(p, s)
  {
    var clock: nat, es :| s == Run(p, Start(clock), es);
    TenSecondsIsInTime(p, clock, es);
    RunKeepsInv(p, clock, es);
    forall ws ensures |In(p, s.admits, ws)| <= p.limit {
      assert WindowInv(p, s, ws);
    }
  }

  lemma SomeRunExceeds(p: Params) returns (s: State)
    requires Legal(p) && p.limit > 0
    ensures Reachable(p, s) && s.slowest == TTL_MARGIN + 1 && !KeepsLimit(p, s)
  {
    ExpiredWindowAdmitsAgain(p);
    s := Run(p, Start(0), FillEvents(p.limit) + LateEvents(p));
  }

  /** Ten seconds is the longest delay that is safe, for every window and every limit but zero. */
  lemma OnlyTenSecondsAreSafe(p: Params, g: nat)
    requires Legal(p)
    ensures SafeDelay(p, g) <==> g <= TTL_MARGIN || p.limit == 0
  {
    if g <= TTL_MARGIN {
      forall s: State | Reachable(p, s) && s.slowest <= g ensures KeepsLimit(p, s) {
        QuickKeepsLimit(p, s);
      }
    } else if p.limit == 0 {
      forall s: State | Reachable(p, s) && s.slowest <= g ensures KeepsLimit(p, s) {
        var clock: nat, es :| s == Run(p, Start(clock), es);
        NoneAdmitted(p, clock, es);
      }
    } else {
      var s := SomeRunExceeds(p);
      assert Reachable(p, s) && s.slowest <= g && !KeepsLimit(p, s);
    }
  }

  // ----- a call that runs alone -----

  lemma InWindow(p: Params, s: State)
    requires Inv(p, s)
    ensures var ws := WindowStart(p, s.clock);
            && (Live(s, ws) <==> ws in s.table)
            && ReadCount(s, ws) == ReadRev(s, ws) == |In(p, s.admits, ws)|
            && (|In(p, s.admits, ws)| == 0 <==> ws !in s.table)
            && s.clock < ws + p.window && |In(p, s.admits, ws)| <= p.limit
  {
    assert WindowInv(p, s, WindowStart(p, s.clock));
    WindowBounds(p, s.clock);
    InTimeMeansLive(p, s, s.clock);
  }

  lemma ReadAlone(p: Params, s: State, pid: nat, base: nat)
    requires Inv(p, s) && pid in s.calls && s.calls[pid] == Reading(s.clock, 0, base)
    ensures var n := |In(p, s.admits, WindowStart(p, s.clock))|; var s' := Step(p, s, Go(pid));
            && s'.table == s.table && s'.admits == s.admits && s'.clock == s.clock && pid in s'.calls
            && s'.calls[pid] == if n < p.limit then Writing(s.clock, 0, base, n, n) else Returned(s.clock, base, Denied)
  {
    InWindow(p, s);
  }

  lemma WriteAlone(p: Params, s: State, pid: nat, base: nat, n: nat)
    requires Inv(p, s) && pid in s.calls && s.calls[pid] == Writing(s.clock, 0, base, n, n) && n < p.limit
    requires n == |In(p, s.admits, WindowStart(p, s.clock))|
    ensures var s' := Step(p, s, Go(pid));
            && pid in s'.calls && s'.calls[pid] == Returned(s.clock, base, Allowed(p.limit - 1 - n))
            && s'.admits == s.admits + [Admission(pid, s.clock, s.clock, p.limit - 1 - n)]
  {
    InWindow(p, s);
  }

  lemma StepInv(p: Params, s: State, e: Event)
    requires Inv(p, s) && !s.late && !e.Tick?
    requires e.Go? && e.pid in s.calls && !s.calls[e.pid].Returned? ==> s.calls[e.pid].now == s.clock
    ensures Inv(p, Step(p, s, e)) && !Step(p, s, e).late
  {
    WindowBounds(p, s.clock);
    StepKeepsInv(p, s, e);
  }

  /** A call that nobody interrupts is admitted exactly if its window has room, with what
      is left of the limit as its remaining count; otherwise it is denied. It never runs
      out of retries. */
  lemma CallAlone(p: Params, s: State, s1: State, s2: State, s3: State, pid: nat)
    requires Legal(p) && Reachable(p, s) && !s.late && pid !in s.calls
    requires s1 == Step(p, s, Begin(pid)) && s2 == Step(p, s1, Go(pid)) && s3 == Step(p, s2, Go(pid))
    ensures var n := |In(p, s.admits, WindowStart(p, s.clock))|;
            && n <= p.limit && pid in s3.calls && s3.calls[pid].Returned?
            && s3.calls[pid].outcome == (if n < p.limit then Allowed(p.limit - 1 - n) else Denied)
            && s3.admits == s.admits
                         + if n < p.limit then [Admission(pid, s.clock, s.clock, p.limit - 1 - n)] else []
  {
    TimelyInv(p, s);
    var n := |In(p, s.admits, WindowStart(p, s.clock))|;
    InWindow(p, s);
    StepInv(p, s, Begin(pid));
    BeginAlone(p, s, pid);
    OperatesAlone(p, s1, s2, s3, pid, n);
  }

  lemma TimelyInv(p: Params, s: State)
    requires Legal(p) && Reachable(p, s) && !s.late
    ensures Inv(p, s)
  {
    var clock: nat, es :| s == Run(p, Start(clock), es);
    RunKeepsInv(p, clock, es);
  }

  lemma BeginAlone(p: Params, s: State, pid: nat)
    requires p.window > 0 && pid !in s.calls
    ensures Step(p, s, Begin(pid))
         == s.(calls := s.calls[pid := Reading(s.clock, 0, |In(p, s.admits, WindowStart(p, s.clock))|)])
  {
  }

  lemma OperatesAlone(p: Params, s: State, s2: State, s3: State, pid: nat, n: nat)
    requires Inv(p, s) && !s.late && pid in s.calls && s.calls[pid] == Reading(s.clock, 0, n)
    requires n == |In(p, s.admits, WindowStart(p, s.clock))|
    requires s2 == Step(p, s, Go(pid)) && s3 == Step(p, s2, Go(pid))
    ensures pid in s3.calls
            && s3.calls[pid] == Returned(s.clock, n, if n < p.limit then Allowed(p.limit - 1 - n) else Denied)
    ensures s3.admits == s.admits
                       + if n < p.limit then [Admission(pid, s.clock, s.clock, p.limit - 1 - n)] else []
  {
    ReadAlone(p, s, pid, n);
    StepInv(p, s, Go(pid));
    if n < p.limit {
      WriteAlone(p, s2, pid, n, n);
    } else {
      assert s3 == s2;
    }
  }
}
