/** What a refresh does when nothing comes in between: whom it answers, and for how long
    the token it issues is good. */
module RefreshProgress {
  import opened Kv
  import opened Refresh
  import opened RefreshSafety
  import opened RefreshFamilies
  import opened RefreshReplay

  // ----- one operation at a time -----

  lemma RunTwo(s: State, e1: Event, e2: Event)
    ensures Run(s, [e1, e2]) == Step(Step(s, e1), e2)
  {
    OneStep(s, e1);
    RunThen(s, [e1], e2);
    assert [e1] + [e2] == [e1, e2];
  }

  lemma BeginIs(s: State, pid: nat, req: Request)
    requires pid !in s.calls
    ensures Step(s, Begin(pid, req, true)) == Set(s, pid, Begun(s, req))
  {
  }

  lemma SwapIs(s: State, pid: nat, req: Request, e: Entry, rev: nat, now: nat)
    requires pid in s.calls && s.calls[pid] == Holding(req, e, rev, now)
    ensures Step(s, Go(pid)) == SwapStep(s, pid, req, e, rev, now)
  {
  }

  lemma UserIs(s: State, pid: nat, req: Request, e: Entry, now: nat)
    requires pid in s.calls && s.calls[pid] == Claimed(req, e, now)
    ensures Step(s, Go(pid)) == Set(s, pid, UserChecked(s, req, e, now))
  {
  }

  lemma SaveIs(s: State, pid: nat, e: Entry, f: nat, source: Source)
    requires pid in s.calls && s.calls[pid] == Saving(e, f, source)
    ensures Step(s, Go(pid)) == SaveStep(s, pid, e, f, source)
  {
  }

  lemma IndexIs(s: State, pid: nat, t: nat, user: string, source: Source)
    requires pid in s.calls && s.calls[pid] == Indexing(t, user, source)
    ensures Step(s, Go(pid)) == IndexStep(s, pid, t, user, source)
  {
  }

  lemma MarkIs(s: State, pid: nat, t: nat, user: string, req: Request, now: nat)
    requires pid in s.calls && s.calls[pid] == Marking(t, user, req, now)
    ensures Step(s, Go(pid)) == Set(s, pid, Deleting(t, req, now)).(consumed := s.consumed[req.token := user])
  {
  }

  lemma DeleteIs(s: State, pid: nat, t: nat, req: Request, now: nat)
    requires pid in s.calls && s.calls[pid] == Deleting(t, req, now)
    ensures Step(s, Go(pid)) == DeleteStep(s, pid, t, req, now)
  {
  }

  // ----- a refresh that is granted -----

  /** The next token of the family is issued: live, with this entry; the old one is gone, and marked. */
  ghost predicate Refreshed(s: State, s': State, pid: nat, spent: nat, next: nat, f: nat, e: Entry) {
    && pid in s'.calls && s'.calls[pid] == Done(Issued(next)) && s'.calls == s.calls[pid := s'.calls[pid]]
    && next in s'.tokens && s'.tokens[next].value == Live(e) && spent !in s'.tokens && spent in s'.consumed
    && s'.clock == s.clock && s'.max == s.max && s'.users == s.users
    && next in s'.h.family && s'.h.family[next] == f && s'.h.roots == s.h.roots
  }

  lemma MarkedRefreshed(s: State, pid: nat, t: nat, user: string, req: Request, now: nat, f: nat, e: Entry)
    requires pid in s.calls && s.calls[pid] == Marking(t, user, req, now) && t != req.token
    requires t in s.tokens && s.tokens[t].value == Live(e) && t in s.h.family && s.h.family[t] == f
    ensures Refreshed(s, Run(s, [Go(pid), Go(pid)]), pid, req.token, t, f, e)
  {
    RunTwo(s, Go(pid), Go(pid));
    MarkIs(s, pid, t, user, req, now);
    DeleteIs(Step(s, Go(pid)), pid, t, req, now);
  }

  lemma SavedRefreshed(s: State, pid: nat, e: Entry, f: nat, req: Request, now: nat)
    requires pid in s.calls && s.calls[pid] == Saving(e, f, Rotation(req, now)) && req.token < s.drawn
    ensures Refreshed(s, Run(s, [Go(pid), Go(pid)] + [Go(pid), Go(pid)]), pid, req.token, s.drawn, f, e)
  {
    RunTwo(s, Go(pid), Go(pid));
    SaveIs(s, pid, e, f, Rotation(req, now));
    var s1 := SaveStep(s, pid, e, f, Rotation(req, now));
    IndexIs(s1, pid, s.drawn, e.login.user, Rotation(req, now));
    RunConcat(s, [Go(pid), Go(pid)], [Go(pid), Go(pid)]);
    MarkedRefreshed(Run(s, [Go(pid), Go(pid)]), pid, s.drawn, e.login.user, req, now, f, e);
  }

  function SixGos(pid: nat): seq<Event> { [Go(pid), Go(pid)] + ([Go(pid), Go(pid)] + [Go(pid), Go(pid)]) }

  lemma HeldRefreshed(s: State, pid: nat, req: Request, e: Entry, rev: nat, now: nat)
    requires pid in s.calls && s.calls[pid] == Holding(req, e, rev, now) && CasOk(s.tokens, req.token, rev)
    requires req.token < s.drawn && e.login.user in s.users && s.users[e.login.user]
    ensures Refreshed(s, Run(s, SixGos(pid)), pid, req.token, s.drawn, FamilyOf(s.h, req.token),
                      Rotated(e, now, s.clock, s.max))
  {
    RunTwo(s, Go(pid), Go(pid));
    SwapIs(s, pid, req, e, rev, now);
    var s1 := SwapStep(s, pid, req, e, rev, now);
    UserIs(s1, pid, req, e, now);
    RunConcat(s, [Go(pid), Go(pid)], [Go(pid), Go(pid)] + [Go(pid), Go(pid)]);
    var s2 := Run(s, [Go(pid), Go(pid)]);
    SavedRefreshed(s2, pid, Rotated(e, now, s.clock, s.max), FamilyOf(s1.h, req.token), req, now);
  }

  // ----- a refresh that is not -----

  /** A call that will not issue a token. */
  predicate Refusing(c: Call) {
    || c.Dropping? || c.DropIndex? || c.DropToken? || c.Listing? || c.Sweeping? || c.Unindexing?
    || (c.Done? && !c.outcome.Issued?)
  }

  lemma StillDropping(s: State, pid: nat)
    requires pid in s.calls && (s.calls[pid].Dropping? || s.calls[pid].DropIndex? || s.calls[pid].DropToken?)
    ensures pid in Step(s, Go(pid)).calls && Refusing(Step(s, Go(pid)).calls[pid])
  {
  }

  lemma StillRefusing(s: State, pid: nat)
    requires pid in s.calls && Refusing(s.calls[pid])
    ensures pid in Step(s, Go(pid)).calls && Refusing(Step(s, Go(pid)).calls[pid])
  {
    if s.calls[pid].Dropping? || s.calls[pid].DropIndex? || s.calls[pid].DropToken? {
      StillDropping(s, pid);
    }
  }

  lemma RefusedAfterTwo(s: State, pid: nat)
    requires pid in s.calls && Refusing(s.calls[pid])
    ensures var s' := Run(s, [Go(pid), Go(pid)]); pid in s'.calls && Refusing(s'.calls[pid])
  {
    RunTwo(s, Go(pid), Go(pid));
    StillRefusing(s, pid);
    StillRefusing(Step(s, Go(pid)), pid);
  }

  lemma RefusedAfterSix(s: State, pid: nat)
    requires pid in Run(s, [Go(pid), Go(pid)]).calls && Refusing(Run(s, [Go(pid), Go(pid)]).calls[pid])
    ensures var s' := Run(s, SixGos(pid)); pid in s'.calls && Refusing(s'.calls[pid])
  {
    RunConcat(s, [Go(pid), Go(pid)], [Go(pid), Go(pid)] + [Go(pid), Go(pid)]);
    var s2 := Run(s, [Go(pid), Go(pid)]);
    RunConcat(s2, [Go(pid), Go(pid)], [Go(pid), Go(pid)]);
    RefusedAfterTwo(s2, pid);
    RefusedAfterTwo(Run(s2, [Go(pid), Go(pid)]), pid);
  }

  /** The token was swapped, and its user turns out not to be active. */
  lemma InactiveRefused(s: State, pid: nat, req: Request, e: Entry, rev: nat, now: nat)
    requires pid in s.calls && s.calls[pid] == Holding(req, e, rev, now) && CasOk(s.tokens, req.token, rev)
    requires !(e.login.user in s.users && s.users[e.login.user])
    ensures var s' := Run(s, [Go(pid), Go(pid)]); pid in s'.calls && Refusing(s'.calls[pid])
  {
    RunTwo(s, Go(pid), Go(pid));
    SwapIs(s, pid, req, e, rev, now);
    UserIs(SwapStep(s, pid, req, e, rev, now), pid, req, e, now);
  }

  // ----- exactly when -----

  /** A request that fits the family and comes in time, in terms of the family's first entry. */
  ghost predicate Grantable(s: State, f: nat, t: nat, req: Request)
    requires f < |s.h.roots| && t in s.h.saved
  {
    var root := s.h.roots[f];
    && req.client == root.login.client && (root.login.jkt.Some? ==> req.jkt == root.login.jkt)
    && root.login.user in s.users && s.users[root.login.user]
    && s.clock <= s.h.saved[t].expiresAt && s.clock <= root.issuedAt + s.max
  }

  function RefreshEvents(pid: nat, req: Request): seq<Event> { [Begin(pid, req, true)] + SixGos(pid) }

  ghost predicate IsIssued(s: State, pid: nat) {
    pid in s.calls && s.calls[pid].Done? && s.calls[pid].outcome.Issued?
  }

  /** The entry of a live token, and what a request for it becomes. */
  lemma LiveBegun(s: State, f: nat, req: Request)
    requires Inv(s) && LiveIn(s, f, req.token)
    ensures f < |s.h.roots| && req.token in s.h.saved && req.token < s.drawn
    ensures s.tokens[req.token].value.entry == s.h.saved[req.token] && s.h.saved[req.token].login == s.h.roots[f].login
    ensures s.h.saved[req.token].issuedAt == s.h.roots[f].issuedAt > 0
    ensures var e, root := s.h.saved[req.token], s.h.roots[f];
            Begun(s, req) == if root.login.client != req.client || !(root.login.jkt.Some? ==> req.jkt == root.login.jkt)
                             then Done(Rejected)
                             else if s.clock <= e.expiresAt && s.clock <= root.issuedAt + s.max
                             then Holding(req, e, s.tokens[req.token].rev, s.clock) else Dropping(req.token)
  {
    assert TokenOk(s, req.token) && SavedOk(s, req.token);
  }

  /** An uninterrupted request for the family's live token is answered with a new token exactly
      if client and key are the family's, its user is active, and both the token and the family
      are in time. */
  lemma RefreshAlone(s: State, pid: nat, f: nat, req: Request)
    requires Reachable(s) && pid !in s.calls && LiveIn(s, f, req.token)
    ensures f < |s.h.roots| && req.token in s.h.saved
    ensures var s' := Run(s, RefreshEvents(pid, req));
            && (IsIssued(s', pid) <==> Grantable(s, f, req.token, req))
            && (IsIssued(s', pid) ==> s'.calls[pid].outcome == Issued(s.drawn))
  {
    ReachableInv(s);
    LiveBegun(s, f, req);
    OneStep(s, Begin(pid, req, true));
    BeginIs(s, pid, req);
    RunConcat(s, [Begin(pid, req, true)], SixGos(pid));
    BegunAnswered(s, Set(s, pid, Begun(s, req)), pid, f, req);
  }

  lemma BegunAnswered(s: State, s1: State, pid: nat, f: nat, req: Request)
    requires Inv(s) && LiveIn(s, f, req.token) && s1 == Set(s, pid, Begun(s, req))
    ensures f < |s.h.roots| && req.token in s.h.saved
    ensures var s' := Run(s1, SixGos(pid));
            if Grantable(s, f, req.token, req) then
              Refreshed(s1, s', pid, req.token, s.drawn, f, Rotated(s.h.saved[req.token], s.clock, s.clock, s.max))
            else !IsIssued(s', pid)
  {
    LiveBegun(s, f, req);
    var e, rev := s.h.saved[req.token], s.tokens[req.token].rev;
    if Begun(s, req).Holding? {
      if e.login.user in s.users && s.users[e.login.user] {
        HeldRefreshed(s1, pid, req, e, rev, s.clock);
      } else {
        InactiveRefused(s1, pid, req, e, rev, s.clock);
        RefusedAfterSix(s1, pid);
      }
    } else {
      RefusedAfterTwo(s1, pid);
      RefusedAfterSix(s1, pid);
    }
  }

  // ----- how long the next token is good -----

  /** The request fits the family that began with `root`, and its user is active. */
  ghost predicate Fits(s: State, root: Entry, req: Request) {
    && req.client == root.login.client && (root.login.jkt.Some? ==> req.jkt == root.login.jkt)
    && root.login.user in s.users && s.users[root.login.user]
  }

  lemma RefreshedToken(s: State, pid: nat, f: nat, req: Request)
    requires Reachable(s) && pid !in s.calls && LiveIn(s, f, req.token)
             && IsIssued(Run(s, RefreshEvents(pid, req)), pid)
    ensures f < |s.h.roots| && req.token in s.h.saved
    ensures Refreshed(Set(s, pid, Begun(s, req)), Run(s, RefreshEvents(pid, req)), pid, req.token, s.drawn, f,
                      Rotated(s.h.saved[req.token], s.clock, s.clock, s.max))
  {
    ReachableInv(s);
    LiveBegun(s, f, req);
    OneStep(s, Begin(pid, req, true));
    BeginIs(s, pid, req);
    RunConcat(s, [Begin(pid, req, true)], SixGos(pid));
    BegunAnswered(s, Set(s, pid, Begun(s, req)), pid, f, req);
  }

  /** A live token with this entry, presented alone after a while. */
  lemma LaterRefresh(s: State, q: nat, f: nat, e: Entry, next: Request, wait: nat)
    requires Reachable(s) && q !in s.calls && LiveIn(s, f, next.token) && s.tokens[next.token].value.entry == e
    ensures f < |s.h.roots|
    ensures IsIssued(Run(Step(s, Tick(wait)), RefreshEvents(q, next)), q) <==>
              && Fits(s, s.h.roots[f], next)
              && s.clock + wait <= e.expiresAt && s.clock + wait <= s.h.roots[f].issuedAt + s.max
  {
    ReachableInv(s);
    LiveBegun(s, f, next);
    Then(s, Tick(wait));
    RefreshAlone(Step(s, Tick(wait)), q, f, next);
  }

  /** A token issued by a refresh can be refreshed alone, `wait` seconds later, exactly up to
      thirty days after that refresh and up to the end of the family, whichever comes first. */
  lemma RefreshAgain(s: State, p: nat, q: nat, f: nat, req: Request, next: Request, wait: nat)
    requires Reachable(s) && p !in s.calls && q !in s.calls && p != q && LiveIn(s, f, req.token)
    requires IsIssued(Run(s, RefreshEvents(p, req)), p) && next.token == s.drawn
    ensures f < |s.h.roots|
    ensures var s1 := Step(Run(s, RefreshEvents(p, req)), Tick(wait));
            var s2 := Run(s1, RefreshEvents(q, next));
            IsIssued(s2, q) <==>
              && Fits(s, s.h.roots[f], next)
              && wait <= 2_592_000 && s.clock + wait <= s.h.roots[f].issuedAt + s.max
  {
    ReachableInv(s);
    RefreshedToken(s, p, f, req);
    LiveBegun(s, f, req);
    Onward(s, RefreshEvents(p, req));
    LaterRefresh(Run(s, RefreshEvents(p, req)), q, f, Rotated(s.h.saved[req.token], s.clock, s.clock, s.max), next,
        wait);
    RotatedInherits(s, f, s.h.saved[req.token], s.clock);
  }

  // ----- the first token -----

  lemma RootIs(s: State, pid: nat, login: Login)
    requires pid !in s.calls
    ensures Step(s, Root(pid, login)) == RootStep(s, pid, login)
  {
  }

  function RootEvents(pid: nat, login: Login): seq<Event> { [Root(pid, login)] + [Go(pid), Go(pid)] }

  /** The family's first token is issued. */
  ghost predicate RootIssued(s: State, s': State, pid: nat, root: Entry) {
    && pid in s'.calls && s'.calls[pid] == Done(Issued(s.drawn)) && s'.calls == s.calls[pid := s'.calls[pid]]
    && s'.h.roots == s.h.roots + [root]
    && LiveIn(s', |s.h.roots|, s.drawn) && s'.tokens[s.drawn].value.entry == root
    && s'.clock == s.clock && s'.max == s.max && s'.users == s.users
  }

  /** The first token of a new family, as the login asks, good for thirty days; a missing
      authentication time is now. */
  lemma RootAlone(s: State, pid: nat, login: Login)
    requires pid !in s.calls
    ensures RootIssued(s, Run(s, RootEvents(pid, login)), pid,
            Entry(DatedLogin(login, s.clock), s.clock, s.clock + 2_592_000))
  {
    RootRun(s, pid, login);
    RootFinished(s, RootStep(s, pid, login), pid, login);
  }

  lemma RootFinished(s: State, s1: State, pid: nat, login: Login)
    requires s1 == RootStep(s, pid, login)
    ensures RootIssued(s, Run(s1, [Go(pid), Go(pid)]), pid, Entry(DatedLogin(login, s.clock), s.clock,
            s.clock + 2_592_000))
  {
    var e, f := RootEntry(login, s.clock), |s.h.roots|;
    RunTwo(s1, Go(pid), Go(pid));
    SaveIs(s1, pid, e, f, First);
    var s2 := SaveStep(s1, pid, e, f, First);
    IndexIs(s2, pid, s.drawn, e.login.user, First);
    RootWritten(s, s1, s2, pid, login);
  }

  lemma RootWritten(s: State, s1: State, s2: State, pid: nat, login: Login)
    requires var e := RootEntry(login, s.clock);
             s1 == RootStep(s, pid, login) && s2 == SaveStep(s1, pid, e, |s.h.roots|, First)
    ensures RootIssued(s, IndexStep(s2, pid, s.drawn, login.user, First), pid,
                       Entry(DatedLogin(login, s.clock), s.clock, s.clock + 2_592_000))
  {
    RootEntryIs(login, s.clock);
  }

  function DatedLogin(login: Login, clock: nat): Login {
    login.(authTime := if login.authTime == 0 then clock else login.authTime)
  }

  lemma RootEntryIs(login: Login, clock: nat)
    ensures RootEntry(login, clock) == Entry(DatedLogin(login, clock), clock, clock + 2_592_000)
  {
  }

  lemma RootRun(s: State, pid: nat, login: Login)
    requires pid !in s.calls
    ensures Run(s, RootEvents(pid, login)) == Run(RootStep(s, pid, login), [Go(pid), Go(pid)])
  {
    OneStep(s, Root(pid, login));
    RootIs(s, pid, login);
    RunConcat(s, [Root(pid, login)], [Go(pid), Go(pid)]);
  }

  /** It can be refreshed alone exactly by its client, with its key, for an active user, up to
      thirty days on and up to the end of the family. */
  lemma FirstRefresh(s: State, p: nat, q: nat, login: Login, next: Request, wait: nat)
    requires Reachable(s) && p !in s.calls && q !in s.calls && p != q && next.token == s.drawn
    ensures var s1 := Step(Run(s, RootEvents(p, login)), Tick(wait));
            var s2 := Run(s1, RefreshEvents(q, next));
            IsIssued(s2, q) <==>
              && next.client == login.client && (login.jkt.Some? ==> next.jkt == login.jkt)
              && login.user in s.users && s.users[login.user] && wait <= 2_592_000 && wait <= s.max
  {
    RootAlone(s, p, login);
    Onward(s, RootEvents(p, login));
    var root := Entry(DatedLogin(login, s.clock), s.clock, s.clock + 2_592_000);
    LaterRefresh(Run(s, RootEvents(p, login)), q, |s.h.roots|, root, next, wait);
  }
}
