/** `update_user_rmw` and the recovery-code branch of the second factor as they run:
    every execution is a run of the transition system in Recovery. */
module RecoveryCalls {
  import opened Kv
  import opened Recovery

  predicate ByOthers(es: seq<Event>, pid: nat) {
    forall i :: 0 <= i < |es| ==> es[i].DeleteUser? || es[i].pid != pid
  }

  lemma OthersStep(s: State, e: Event, pid: nat)
    requires e.DeleteUser? || e.pid != pid
    ensures pid in Step(s, e).calls <==> pid in s.calls
    ensures pid in s.calls ==> Step(s, e).calls[pid] == s.calls[pid]
  {
    if e.Go? && e.pid in s.calls && s.calls[e.pid].Writing? {
      var c := s.calls[e.pid];
      assert Step(s, e) == WriteStep(s, e.pid, c.task, c.attempt, c.base, c.user, c.rev);
    }
  }

  lemma {:induction false} OthersLeave(s: State, es: seq<Event>, pid: nat)
    requires ByOthers(es, pid)
    ensures pid in Run(s, es).calls <==> pid in s.calls
    ensures pid in s.calls ==> Run(s, es).calls[pid] == s.calls[pid]
  {
    if es != [] {
      OthersLeave(s, es[..|es| - 1], pid);
      OthersStep(Run(s, es[..|es| - 1]), es[|es| - 1], pid);
    }
  }

  lemma {:induction false} RunConcat(s: State, es: seq<Event>, fs: seq<Event>)
    ensures Run(s, es + fs) == Run(Run(s, es), fs)
  {
    if fs == [] {
      assert es + fs == es;
    } else {
      RunConcat(s, es, fs[..|fs| - 1]);
      assert (es + fs)[..|es + fs| - 1] == es + fs[..|fs| - 1];
    }
  }

  /** `position`, then `remove`: the loop stops at the first match. */
  method FindCode(codes: seq<string>, code: string) returns (pos: Option<nat>)
    ensures pos == Position(codes, code)
  {
    PositionFacts(codes, code);
    for i := 0 to |codes|
      invariant code !in codes[..i]
    {
      if codes[i] == code {
        PositionIs(codes, code, i);
        return Some(i);
      }
    }
    assert codes[..|codes|] == codes;
    return None;
  }

  lemma {:induction false} PositionIs(codes: seq<string>, code: string, i: nat)
    requires i < |codes| && codes[i] == code && code !in codes[..i]
    ensures Position(codes, code) == Some(i)
  {
    if i > 0 {
      assert codes[..i] == [codes[0]] + codes[1..][..i - 1];
      PositionIs(codes[1..], code, i - 1);
    }
  }

  class Users {
    var st: State

    constructor (u: User)
      ensures st == Start(u)
    {
      st := Start(u);
    }

    /** Any number of steps of other calls. */
    method Others(pid: nat) returns (ghost es: seq<Event>)
      modifies this
      ensures ByOthers(es, pid) && st == Run(old(st), es)
      ensures pid in st.calls <==> pid in old(st).calls
      ensures pid in st.calls ==> st.calls[pid] == old(st).calls[pid]
    {
      var some: seq<Event> := *;
      es := [];
      if ByOthers(some, pid) {
        es := some;
        OthersLeave(st, some, pid);
        st := Run(st, some);
      }
    }

    ghost method Extended(s0: State, es: seq<Event>, fs: seq<Event>, e: Event) returns (all: seq<Event>)
      requires st == Run(Run(s0, es), fs)
      ensures Run(s0, all) == Step(st, e)
    {
      RunConcat(s0, es, fs);
      all := es + fs + [e];
      assert all[..|all| - 1] == es + fs;
    }

    /** The closure passed to the read-modify-write. */
    method Apply(task: Task, u: User) returns (changed: Option<User>)
      ensures changed == Modify(task, u)
    {
      match task {
        case Redeem(code) =>
          var pos := FindCode(u.codes, code);
          PositionFacts(u.codes, code);
          changed := if pos.Some? then Some(u.(codes := u.codes[..pos.value] + u.codes[pos.value + 1..])) else None;
        case Touch(rest) => changed := Some(u.(rest := rest));
        case SetUp(codes) => changed := Some(u.(codes := codes));
        case Clear => changed := Some(u.(codes := []));
      }
    }

    method ReadAndModify(pid: nat, task: Task, attempt: nat, base: nat) returns (next: Call)
      requires pid in st.calls && st.calls[pid] == Reading(task, attempt, base)
      modifies this
      ensures st == Step(old(st), Go(pid)) && pid in st.calls && st.calls[pid] == next
      ensures next == Done(task, base, Failed) || next == Done(task, base, Unchanged)
              || (next.Writing? && next.task == task && next.attempt == attempt && next.base == base)
    {
      if st.user.None? {
        next := Done(task, base, Failed);
      } else {
        var changed := Apply(task, st.user.value.value);
        next := if changed.Some? then Writing(task, attempt, base, changed.value, st.user.value.rev)
            else Done(task, base, Unchanged);
      }
      st := st.(calls := st.calls[pid := next]);
    }

    method Commit(pid: nat, task: Task, attempt: nat, base: nat, u: User, rev: nat) returns (ok: bool)
      requires pid in st.calls && st.calls[pid] == Writing(task, attempt, base, u, rev)
      modifies this
      ensures st == Step(old(st), Go(pid)) && pid in st.calls
      ensures st.calls[pid] == if ok then Done(task, base, Committed)
                               else if attempt + 1 < MAX_RETRIES then Reading(task, attempt + 1, base)
                               else Done(task, base, Failed)
    {
      ok := st.user.Some? && st.user.value.rev == rev;
      if ok {
        var next := st.(user := Some(Cell(u, rev + 1)), writers := st.writers + [pid],
            calls := st.calls[pid := Done(task, base, Committed)]);
        st := Booked(next, pid, task, st.user.value.value.codes);
      } else if attempt + 1 < MAX_RETRIES {
        st := st.(calls := st.calls[pid := Reading(task, attempt + 1, base)]);
      } else {
        st := st.(calls := st.calls[pid := Done(task, base, Failed)]);
      }
    }

    method UpdateUserRmw(pid: nat, task: Task) returns (outcome: Outcome, ghost trace: seq<Event>)
      requires pid !in st.calls
      modifies this
      ensures st == Run(old(st), trace) && pid in st.calls && st.calls[pid].Done?
      ensures st.calls[pid].task == task && st.calls[pid].outcome == outcome
    {
      ghost var fs := Others(pid);
      trace := Extended(old(st), [], fs, Begin(pid, task));
      var base := if st.user.Some? then st.user.value.rev else 0;
      st := st.(calls := st.calls[pid := Reading(task, 0, base)]);
      for attempt := 0 to MAX_RETRIES
        invariant st == Run(old(st), trace) && pid in st.calls
        invariant st.calls[pid] == if attempt < MAX_RETRIES then Reading(task, attempt, base)
                  else Done(task, base, Failed)
      {
        fs := Others(pid);
        trace := Extended(old(st), trace, fs, Go(pid));
        var next := ReadAndModify(pid, task, attempt, base);
        if next.Done? {
          return next.outcome, trace;
        }
        fs := Others(pid);
        trace := Extended(old(st), trace, fs, Go(pid));
        var ok := Commit(pid, task, attempt, base, next.user, next.rev);
        if ok {
          return Committed, trace;
        }
      }
      outcome := Failed;
    }

    /** The login counts as a second factor only if the code was found and its removal
        committed. */
    method RedeemCode(pid: nat, code: string) returns (ok: bool, ghost trace: seq<Event>)
      requires pid !in st.calls
      modifies this
      ensures st == Run(old(st), trace)
      ensures pid in st.calls && st.calls[pid].Done? && st.calls[pid].task == Redeem(code)
      ensures ok <==> st.calls[pid].outcome.Committed?
    {
      var outcome;
      outcome, trace := UpdateUserRmw(pid, Redeem(code));
      ok := outcome.Committed?;
    }
  }
}
