/** The refresh handler as it runs: every execution is a run of the transition system
    in Refresh. */
module RefreshCalls {
  import opened Kv
  import opened Refresh

  predicate Owns(e: Event, pid: nat) {
    (e.Root? || e.Begin? || e.Go? || e.SweepOne?) && e.pid == pid
  }

  predicate ByOthers(es: seq<Event>, pid: nat) { forall i :: 0 <= i < |es| ==> !Owns(es[i], pid) }

  lemma RotationOwnEntry(s: State, pid: nat)
    requires pid in s.calls
    requires var c := s.calls[pid]; c.Holding? || c.Saving? || c.Indexing? || c.Deleting?
    ensures pid in Operate(s, pid).calls && Operate(s, pid).calls == s.calls[pid := Operate(s, pid).calls[pid]]
  {
    match s.calls[pid] {
      case Holding(req, e, rev, now) => assert Operate(s, pid) == SwapStep(s, pid, req, e, rev, now);
      case Saving(e, f, source) => assert Operate(s, pid) == SaveStep(s, pid, e, f, source);
      case Indexing(t, user, source) => assert Operate(s, pid) == IndexStep(s, pid, t, user, source);
      case Deleting(t, req, now) => assert Operate(s, pid) == DeleteStep(s, pid, t, req, now);
    }
  }

  lemma OnlyOwnEntry(s: State, pid: nat)
    requires pid in s.calls
    ensures pid in Operate(s, pid).calls && Operate(s, pid).calls == s.calls[pid := Operate(s, pid).calls[pid]]
  {
    var c := s.calls[pid];
    if c.Holding? || c.Saving? || c.Indexing? || c.Deleting? {
      RotationOwnEntry(s, pid);
    } else if c.Claimed? || c.Marking? {
      CheckOwnEntry(s, pid);
    } else {
      RemovalOwnEntry(s, pid);
    }
  }

  lemma CheckOwnEntry(s: State, pid: nat)
    requires pid in s.calls && (s.calls[pid].Claimed? || s.calls[pid].Marking?)
    ensures pid in Operate(s, pid).calls && Operate(s, pid).calls == s.calls[pid := Operate(s, pid).calls[pid]]
  {
  }

  lemma RemovalOwnEntry(s: State, pid: nat)
    requires pid in s.calls
    requires var c := s.calls[pid]; !(c.Holding? || c.Saving? || c.Indexing? || c.Deleting? || c.Claimed? || c.Marking?)
    ensures pid in Operate(s, pid).calls && Operate(s, pid).calls == s.calls[pid := Operate(s, pid).calls[pid]]
  {
    assert s.calls == s.calls[pid := s.calls[pid]];
  }

  lemma OthersStep(s: State, e: Event, pid: nat)
    requires !Owns(e, pid)
    ensures pid in Step(s, e).calls <==> pid in s.calls
    ensures pid in s.calls ==> Step(s, e).calls[pid] == s.calls[pid]
  {
    if e.Go? && e.pid in s.calls {
      OnlyOwnEntry(s, e.pid);
    }
  }

  lemma {:induction false} OthersLeave(s: State, es: seq<Event>, pid: nat)
    requires ByOthers(es, pid)
    ensures pid in Run(s, es).calls <==> pid in s.calls
    ensures pid in s.calls ==> Run(s, es).calls[pid] == s.calls[pid]
  {
    if es != [] {
      OthersLeave(s, es[..|es| - 1], pid);
      OthersStep(Run(s, es[..|es| - 1]), es[|es| - 1], pid);
    }
  }

  class TokenEndpoint {
    var st: State

    constructor (s: State)
      ensures st == s
    {
      st := s;
    }

    /** Any number of steps of other calls, of the clock and of expiring records. */
    method Others(pid: nat) returns (ghost es: seq<Event>)
      modifies this
      ensures ByOthers(es, pid) && st == Run(old(st), es)
      ensures pid in st.calls <==> pid in old(st).calls
      ensures pid in st.calls ==> st.calls[pid] == old(st).calls[pid]
    {
      var some: seq<Event> := *;
      es := [];
      if ByOthers(some, pid) {
        es := some;
        OthersLeave(st, some, pid);
        st := Run(st, some);
      }
    }

    ghost method Extended(s0: State, es: seq<Event>, fs: seq<Event>, e: Event) returns (all: seq<Event>)
      requires st == Run(Run(s0, es), fs)
      ensures Run(s0, all) == Step(st, e)
    {
      RunConcat(s0, es, fs);
      all := es + fs + [e];
      assert all[..|all| - 1] == es + fs;
    }

    ghost method Joined(s0: State, es: seq<Event>, fs: seq<Event>) returns (all: seq<Event>)
      requires st == Run(Run(s0, es), fs)
      ensures st == Run(s0, all)
    {
      RunConcat(s0, es, fs);
      all := es + fs;
    }

    method Place(pid: nat, c: Call)
      modifies this
      ensures st == Set(old(st), pid, c)
    {
      st := st.(calls := st.calls[pid := c]);
    }

    /** The checks before anything is consumed, in order. */
    method CheckToken(req: Request) returns (c: Call)
      ensures c == Begun(st, req)
    {
      if req.token !in st.tokens || st.tokens[req.token].value.Spent? { return Checking(req.token); }
      var entry, revision := st.tokens[req.token].value.entry, st.tokens[req.token].rev;
      if entry.login.client != req.client { return Done(Rejected); }
      match entry.login.jkt {
        case None =>
        case Some(expected) => if req.jkt != Some(expected) { return Done(Rejected); }
      }
      var now := st.clock;
      if now > entry.expiresAt { return Dropping(req.token); }
      var familyIssuedAt := if entry.issuedAt > 0 then entry.issuedAt else now;
      if now > familyIssuedAt + st.max { return Dropping(req.token); }
      return Holding(req, entry, revision, now);
    }

    method SweepToken(pid: nat, t: nat)
      requires pid in st.calls && st.calls[pid].Sweeping? && t in st.calls[pid].left
      modifies this
      ensures st == Step(old(st), SweepOne(pid, t)) && pid in st.calls
      ensures var c := old(st).calls[pid]; st.calls[pid] == Unindexing(c.user, t, c.left - {t}, c.replay)
    {
      var c := st.calls[pid];
      st := st.(tokens := st.tokens - {t});
      Place(pid, Unindexing(c.user, t, c.left - {t}, c.replay));
    }

    method SweepIndex(pid: nat)
      requires pid in st.calls && st.calls[pid].Unindexing?
      modifies this
      ensures st == Step(old(st), Go(pid)) && pid in st.calls
      ensures var c := old(st).calls[pid]; st.calls[pid] == Sweeping(c.user, c.left, c.replay)
    {
      var c := st.calls[pid];
      st := st.(index := st.index - {c.token});
      Place(pid, Sweeping(c.user, c.left, c.replay));
    }

    method ListTokens(pid: nat, user: string, replay: bool) returns (found: set<nat>)
      requires pid in st.calls && st.calls[pid] == Listing(user, replay)
      modifies this
      ensures st == Step(old(st), Go(pid)) && pid in st.calls && st.calls[pid] == Sweeping(user, found, replay)
    {
      found := set t | t in st.index && st.index[t] == user;
      Place(pid, Sweeping(user, found, replay));
    }

    method SweepTokens(pid: nat, user: string, found: set<nat>, replay: bool) returns (ghost es: seq<Event>)
      requires pid in st.calls && st.calls[pid] == Sweeping(user, found, replay)
      modifies this
      ensures st == Run(old(st), es) && pid in st.calls && st.calls[pid] == Sweeping(user, {}, replay)
    {
      es := [];
      var left := found;
      while left != {}
        invariant st == Run(old(st), es) && pid in st.calls && st.calls[pid] == Sweeping(user, left, replay)
        decreases |left|
      {
        var t :| t in left;
        ghost var fs := Others(pid);
        es := Extended(old(st), es, fs, SweepOne(pid, t));
        SweepToken(pid, t);
        fs := Others(pid);
        es := Extended(old(st), es, fs, Go(pid));
        SweepIndex(pid);
        left := left - {t};
      }
    }

    /** `delete_user_refresh_tokens`: list the user's index, then delete one by one. */
    method DeleteUserTokens(pid: nat, user: string, replay: bool) returns (ghost es: seq<Event>)
      requires pid in st.calls && st.calls[pid] == Listing(user, replay)
      modifies this
      ensures st == Run(old(st), es) && pid in st.calls && st.calls[pid] == Done(if replay then Replayed else Rejected)
    {
      ghost var fs := Others(pid);
      es := Extended(old(st), [], fs, Go(pid));
      var found := ListTokens(pid, user, replay);
      fs := SweepTokens(pid, user, found, replay);
      es := Joined(old(st), es, fs);
      fs := Others(pid);
      es := Extended(old(st), es, fs, Go(pid));
      Place(pid, Done(if replay then Replayed else Rejected));
    }

    /** `consume_refresh_token`. */
    method Consume(pid: nat) returns (ok: bool)
      requires pid in st.calls && st.calls[pid].Holding?
      modifies this
      ensures st == Step(old(st), Go(pid)) && pid in st.calls
      ensures var c := old(st).calls[pid];
              st.calls[pid] == if ok then Claimed(c.req, c.entry, c.now) else Done(Rejected)
    {
      var c := st.calls[pid];
      var t := c.req.token;
      ok := if t in st.tokens then st.tokens[t].rev == c.rev else c.rev == 0;
      if ok {
        st := st.(tokens := st.tokens[t := Cell(Spent(c.entry.login.user), c.rev + 1)],
                  h := st.h.(holder := st.h.holder[FamilyOf(st.h, t) := ByCall(pid)], won := st.h.won[t := pid]));
        Place(pid, Claimed(c.req, c.entry, c.now));
      } else {
        Place(pid, Done(Rejected));
      }
    }

    method CheckUser(pid: nat)
      requires pid in st.calls && st.calls[pid].Claimed?
      modifies this
      ensures st == Step(old(st), Go(pid)) && pid in st.calls
      ensures var c := old(st).calls[pid]; st.calls[pid] == UserChecked(old(st), c.req, c.entry, c.now)
    {
      var c := st.calls[pid];
      var user := c.entry.login.user;
      if user !in st.users {
        Place(pid, Done(Rejected));
      } else if !st.users[user] {
        Place(pid, Listing(user, false));
      } else {
        var familyIssuedAt := if c.entry.issuedAt > 0 then c.entry.issuedAt else c.now;
        var expiresAt := if c.now + SLIDING < familyIssuedAt + st.max then c.now + SLIDING else familyIssuedAt + st.max;
        var login := if c.entry.login.authTime == 0 then c.entry.login.(authTime := st.clock) else c.entry.login;
        Place(pid, Saving(Entry(login, familyIssuedAt, expiresAt), FamilyOf(st.h, c.req.token),
            Rotation(c.req, c.now)));
      }
    }

    /** `save_refresh_token`, first half. */
    method Save(pid: nat) returns (t: nat)
      requires pid in st.calls && st.calls[pid].Saving?
      modifies this
      ensures st == Step(old(st), Go(pid)) && pid in st.calls
      ensures var c := old(st).calls[pid]; st.calls[pid] == Indexing(t, c.entry.login.user, c.source)
    {
      var c := st.calls[pid];
      t := st.drawn;
      st := st.(drawn := t + 1, tokens := Put(st.tokens, t, Live(c.entry)),
                h := st.h.(family := st.h.family[t := c.family], saved := st.h.saved[t := c.entry],
                           holder := st.h.holder[c.family := ByToken(t)]));
      Place(pid, Indexing(t, c.entry.login.user, c.source));
    }

    method SaveIndex(pid: nat, t: nat, user: string, req: Request, now: nat)
      requires pid in st.calls && st.calls[pid] == Indexing(t, user, Rotation(req, now))
      modifies this
      ensures st == Step(old(st), Go(pid)) && pid in st.calls && st.calls[pid] == Marking(t, user, req, now)
    {
      st := st.(index := st.index[t := user]);
      Place(pid, Marking(t, user, req, now));
    }

    method MarkConsumed(pid: nat, t: nat, user: string, req: Request, now: nat)
      requires pid in st.calls && st.calls[pid] == Marking(t, user, req, now)
      modifies this
      ensures st == Step(old(st), Go(pid)) && pid in st.calls && st.calls[pid] == Deleting(t, req, now)
    {
      st := st.(consumed := st.consumed[req.token := user]);
      Place(pid, Deleting(t, req, now));
    }

    method DeleteSpent(pid: nat, t: nat, req: Request, now: nat)
      requires pid in st.calls && st.calls[pid] == Deleting(t, req, now)
      modifies this
      ensures st == Step(old(st), Go(pid)) && pid in st.calls && st.calls[pid] == Done(Issued(t))
    {
      st := st.(tokens := st.tokens - {req.token}, h := st.h.(successes :=
          st.h.successes[pid := Success(req, now, t)]));
      Place(pid, Done(Issued(t)));
    }

    /** From the new entry to the response. */
    method IssueNext(pid: nat, req: Request, now: nat) returns (t: nat, ghost es: seq<Event>)
      requires pid in st.calls && st.calls[pid].Saving? && st.calls[pid].source == Rotation(req, now)
      modifies this
      ensures st == Run(old(st), es) && pid in st.calls && st.calls[pid] == Done(Issued(t))
    {
      var user := st.calls[pid].entry.login.user;
      ghost var fs := Others(pid);
      es := Extended(old(st), [], fs, Go(pid));
      t := Save(pid);
      fs := Others(pid);
      es := Extended(old(st), es, fs, Go(pid));
      SaveIndex(pid, t, user, req, now);
      fs := Others(pid);
      es := Extended(old(st), es, fs, Go(pid));
      MarkConsumed(pid, t, user, req, now);
      fs := Others(pid);
      es := Extended(old(st), es, fs, Go(pid));
      DeleteSpent(pid, t, req, now);
    }

    /** From the swapped token on. */
    method Rotate(pid: nat, req: Request, entry: Entry, now: nat) returns (outcome: Outcome, ghost es: seq<Event>)
      requires pid in st.calls && st.calls[pid] == Claimed(req, entry, now)
      modifies this
      ensures st == Run(old(st), es) && pid in st.calls && st.calls[pid] == Done(outcome)
    {
      ghost var fs := Others(pid);
      es := Extended(old(st), [], fs, Go(pid));
      CheckUser(pid);
      outcome := Rejected;
      if st.calls[pid].Listing? {
        fs := DeleteUserTokens(pid, entry.login.user, false);
        es := Joined(old(st), es, fs);
      } else if st.calls[pid].Saving? {
        var t;
        t, fs := IssueNext(pid, req, now);
        es := Joined(old(st), es, fs);
        outcome := Issued(t);
      }
    }

    /** First half of `get_consumed_refresh`. */
    method ReadMarker(pid: nat, t: nat)
      requires pid in st.calls && st.calls[pid] == Checking(t)
      modifies this
      ensures st == Step(old(st), Go(pid)) && pid in st.calls && st.calls[pid] == MarkerRead(old(st), t)
    {
      if t in st.consumed {
        Place(pid, Listing(st.consumed[t], true));
      } else {
        Place(pid, CheckingRecord(t));
      }
    }

    method ReadRecord(pid: nat, t: nat)
      requires pid in st.calls && st.calls[pid] == CheckingRecord(t)
      modifies this
      ensures st == Step(old(st), Go(pid)) && pid in st.calls && st.calls[pid] == RecordRead(old(st), t)
    {
      if t in st.tokens && st.tokens[t].value.Spent? {
        Place(pid, Listing(st.tokens[t].value.user, true));
      } else {
        Place(pid, Done(Rejected));
      }
    }

    /** No live token: a replay, if the token was consumed before. */
    method CheckReplay(pid: nat, t: nat) returns (outcome: Outcome, ghost es: seq<Event>)
      requires pid in st.calls && st.calls[pid] == Checking(t)
      modifies this
      ensures st == Run(old(st), es) && pid in st.calls && st.calls[pid] == Done(outcome)
    {
      ghost var fs := Others(pid);
      es := Extended(old(st), [], fs, Go(pid));
      ReadMarker(pid, t);
      if st.calls[pid].CheckingRecord? {
        fs := Others(pid);
        es := Extended(old(st), es, fs, Go(pid));
        ReadRecord(pid, t);
      }
      outcome := Rejected;
      if st.calls[pid].Listing? {
        outcome := Replayed;
        fs := DeleteUserTokens(pid, st.calls[pid].user, true);
        es := Joined(old(st), es, fs);
      }
    }

    /** `delete_refresh_token` for an expired token: its index entry goes only if the entry is there. */
    method DropExpired(pid: nat, t: nat) returns (ghost es: seq<Event>)
      requires pid in st.calls && st.calls[pid] == Dropping(t)
      modifies this
      ensures st == Run(old(st), es) && pid in st.calls && st.calls[pid] == Done(Rejected)
    {
      ghost var fs := Others(pid);
      es := Extended(old(st), [], fs, Go(pid));
      if t in st.tokens && st.tokens[t].value.Live? {
        Place(pid, DropIndex(t));
        fs := Others(pid);
        es := Extended(old(st), es, fs, Go(pid));
        st := st.(index := st.index - {t});
      }
      Place(pid, DropToken(t));
      fs := Others(pid);
      es := Extended(old(st), es, fs, Go(pid));
      st := st.(tokens := st.tokens - {t});
      Place(pid, Done(Rejected));
    }

    method HandleRefresh(pid: nat, req: Request) returns (outcome: Outcome, ghost trace: seq<Event>)
      requires pid !in st.calls
      modifies this
      ensures st == Run(old(st), trace) && pid in st.calls && st.calls[pid] == Done(outcome)
    {
      outcome := Rejected;
      ghost var fs := Others(pid);
      trace := Extended(old(st), [], fs, Begin(pid, req, true));
      var c := CheckToken(req);
      Place(pid, c);
      match c {
        case Checking(t) =>
          outcome, fs := CheckReplay(pid, t);
          trace := Joined(old(st), trace, fs);
        case Dropping(t) =>
          fs := DropExpired(pid, t);
          trace := Joined(old(st), trace, fs);
        case Holding(_, entry, _, now) =>
          outcome, fs := Redeem(pid, req, entry, now);
          trace := Joined(old(st), trace, fs);
        case _ =>
      }
    }

    method Redeem(pid: nat, req: Request, entry: Entry, now: nat) returns (outcome: Outcome, ghost es: seq<Event>)
      requires pid in st.calls && st.calls[pid].Holding?
      requires st.calls[pid].req == req && st.calls[pid].entry == entry && st.calls[pid].now == now
      modifies this
      ensures st == Run(old(st), es) && pid in st.calls && st.calls[pid] == Done(outcome)
    {
      outcome := Rejected;
      ghost var fs := Others(pid);
      es := Extended(old(st), [], fs, Go(pid));
      var ok := Consume(pid);
      if ok {
        outcome, fs := Rotate(pid, req, entry, now);
        es := Joined(old(st), es, fs);
      }
    }
  }
}
