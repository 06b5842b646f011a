/** `check_rate` as the loop it is, over a store other calls keep changing: every
    execution is a run of the transition system in RateLimit. */
module RateLimitCalls {
  import opened Kv
  import Decimal
  import Lists
  import opened RateLimit

  predicate ByOthers(es: seq<Event>, pid: nat) {
    forall i :: 0 <= i < |es| ==> es[i].Tick? || es[i].pid != pid
  }

  lemma RunOne(p: Params, s: State, es: seq<Event>, e: Event)
    requires p.window > 0
    ensures Run(p, s, es + [e]) == Step(p, Run(p, s, es), e)
  {
    assert (es + [e])[..|es|] == es;
  }

  lemma {:induction false} OthersLeaveCall(p: Params, s: State, es: seq<Event>, pid: nat)
    requires p.window > 0 && ByOthers(es, pid)
    ensures pid in Run(p, s, es).calls <==> pid in s.calls
    ensures pid in s.calls ==> Run(p, s, es).calls[pid] == s.calls[pid]
    ensures Run(p, s, es).clock >= s.clock
  {
    if es != [] {
      OthersLeaveCall(p, s, es[..|es| - 1], pid);
    }
  }

  class Limiter {
    const p: Params
    var st: State

    constructor (p: Params, clock: nat)
      ensures this.p == p && st == Start(clock)
    {
      this.p := p;
      st := Start(clock);
    }

    /** Any number of steps of other calls, and of the clock. */
    method Others(pid: nat) returns (ghost es: seq<Event>)
      requires p.window > 0
      modifies this
      ensures ByOthers(es, pid) && st == Run(p, old(st), es)
      ensures pid in st.calls <==> pid in old(st).calls
      ensures pid in st.calls ==> st.calls[pid] == old(st).calls[pid]
      ensures st.clock >= old(st).clock
    {
      var some: seq<Event> := *;
      es := [];
      if ByOthers(some, pid) {
        es := some;
        OthersLeaveCall(p, st, some, pid);
        st := Run(p, st, some);
      }
    }

    /** `kv_get_raw_with_revision`, decoded: (0, 0) when there is no live cell. */
    method Get(ws: nat) returns (count: nat, rev: nat)
      ensures count == ReadCount(st, ws) && rev == ReadRev(st, ws)
    {
      count, rev := 0, 0;
      if ws in st.table && st.clock < st.table[ws].value.expiresAt {
        rev := st.table[ws].rev;
        match Decimal.ParseU64(Lists.Trim(st.table[ws].value.text)) {
          case Some(n) => count := n;
          case None =>
        }
      }
    }

    /** `kv_create_raw` when `rev` is 0, else `kv_cas_raw`. */
    method Write(ws: nat, text: string, rev: nat, ttl: nat) returns (ok: bool)
      modifies this
      ensures ok == WriteAccepted(old(st), ws, rev)
      ensures ok ==> st == old(st).(table := old(st).table[ws := Cell(Counter(text, old(st).clock + ttl), rev + 1)])
      ensures !ok ==> st == old(st)
    {
      var present := ws in st.table && st.clock < st.table[ws].value.expiresAt;
      ok := if rev == 0 then !present else present && st.table[ws].rev == rev;
      if ok {
        st := st.(table := st.table[ws := Cell(Counter(text, st.clock + ttl), rev + 1)]);
      }
    }

    /** Moves this call's place in the program; `late` and `slowest` are history. */
    method Mark(pid: nat, c: Call)
      requires p.window > 0
      modifies this
      ensures st == old(st).(calls := old(st).calls[pid := c],
                             late := old(st).late || old(st).clock >= WindowStart(p, c.now) + p.window + TTL_MARGIN,
                             slowest := Slower(old(st), c.now))
    {
      st := st.(calls := st.calls[pid := c], slowest := Slower(st, c.now),
                late := st.late || st.clock >= WindowStart(p, c.now) + p.window + TTL_MARGIN);
    }

    /** The first half of an attempt: read the counter and compare it with the limit. */
    method ReadCounter(pid: nat, ws: nat) returns (full: bool, count: nat, rev: nat)
      requires p.window > 0 && pid in st.calls && st.calls[pid].Reading? && ws == WindowStart(p, st.calls[pid].now)
      modifies this
      ensures st == Step(p, old(st), Go(pid)) && pid in st.calls
      ensures var c := old(st).calls[pid];
              st.calls[pid] == if full then Returned(c.now, c.base, Denied)
                               else Writing(c.now, c.attempt, c.base, count, rev)
      ensures !full ==> count < p.limit
    {
      var c := st.calls[pid];
      count, rev := Get(ws);
      full := count >= p.limit;
      Mark(pid, if full then Returned(c.now, c.base, Denied) else Writing(c.now, c.attempt, c.base, count, rev));
    }

    /** The second half: create or swap the incremented counter. */
    method WriteCounter(pid: nat, ws: nat, count: nat, rev: nat) returns (ok: bool)
      requires p.window > 0 && pid in st.calls && st.calls[pid].Writing? && ws == WindowStart(p, st.calls[pid].now)
      requires count == st.calls[pid].count < p.limit && rev == st.calls[pid].rev
      modifies this
      ensures st == Step(p, old(st), Go(pid)) && pid in st.calls
      ensures var c := old(st).calls[pid];
              st.calls[pid] == if ok then Returned(c.now, c.base, Allowed(p.limit - count - 1)) else AfterLostWrite(c)
    {
      var c := st.calls[pid];
      ok := Write(ws, Decimal.Text(count + 1), rev, p.window + TTL_MARGIN);
      if ok {
        Mark(pid, Returned(c.now, c.base, Allowed(p.limit - count - 1)));
        st := st.(admits := st.admits + [Admission(pid, c.now, st.clock, p.limit - count - 1)]);
      } else {
        Mark(pid, AfterLostWrite(c));
      }
    }

    method CheckRate(pid: nat) returns (outcome: Outcome, ghost trace: seq<Event>)
      requires p.window > 0 && pid !in st.calls
      modifies this
      ensures st == Run(p, old(st), trace)
      ensures pid in st.calls && st.calls[pid].Returned? && st.calls[pid].outcome == outcome
    {
      trace := Others(pid);
      var now := st.clock;
      var windowStart := now - now % p.window;
      var base := |In(p, st.admits, WindowStart(p, now))|;
      RunOne(p, old(st), trace, Begin(pid));
      trace := trace + [Begin(pid)];
      st := st.(calls := st.calls[pid := Reading(now, 0, base)]);
      var attempt := 0;
      while attempt < MAX_RETRIES
        invariant attempt <= MAX_RETRIES && st == Run(p, old(st), trace)
        invariant pid in st.calls
        invariant st.calls[pid] ==
                    if attempt < MAX_RETRIES then Reading(now, attempt, base) else Returned(now, base, Exhausted)
      {
        ghost var es := Others(pid);
        trace := Extended(old(st), trace, es, pid);
        var full, count, revision := ReadCounter(pid, windowStart);
        if full {
          return Denied, trace;
        }
        es := Others(pid);
        trace := Extended(old(st), trace, es, pid);
        var ok := WriteCounter(pid, windowStart, count, revision);
        if ok {
          return Allowed(p.limit - count - 1), trace;
        }
        attempt := attempt + 1;
      }
      outcome := Exhausted;
    }

    ghost method Extended(s0: State, trace: seq<Event>, es: seq<Event>, pid: nat) returns (all: seq<Event>)
      requires p.window > 0 && st == Run(p, Run(p, s0, trace), es)
      ensures Run(p, s0, all) == Step(p, st, Go(pid))
    {
      RunConcat(p, s0, trace, es);
      RunOne(p, s0, trace + es, Go(pid));
      all := trace + es + [Go(pid)];
    }
  }
}
