/** What the refresh grant guarantees over every run: one live token and one response
    per token, chains that keep their root, and families that end for good. */
module RefreshFamilies {
  import opened Kv
  import opened Refresh
  import opened RefreshSafety

  ghost predicate LiveIn(s: State, f: nat, t: nat) {
    t in s.tokens && s.tokens[t].value.Live? && t in s.h.family && s.h.family[t] == f
  }

  /** A call that has swapped a token of the family, or started it, and not yet saved the next. */
  ghost predicate Owes(s: State, f: nat, pid: nat) {
    pid in s.calls &&
    match s.calls[pid]
    case Claimed(req, _, _) => FamilyOf(s.h, req.token) == f
    case Saving(_, family, _) => family == f
    case _ => false
  }

  ghost predicate Single(s: State, f: nat) {
    && (forall t, u :: LiveIn(s, f, t) && LiveIn(s, f, u) ==> t == u)
    && (forall t, pid :: LiveIn(s, f, t) ==> !Owes(s, f, pid))
    && (forall p, q :: Owes(s, f, p) && Owes(s, f, q) ==> p == q)
  }

  lemma AtMostOne(s: State, f: nat)
    requires Inv(s)
    ensures Single(s, f)
  {
    forall t | LiveIn(s, f, t) ensures Held(s.h, f, ByToken(t)) {
      assert TokenOk(s, t);
    }
    forall pid | Owes(s, f, pid) ensures Held(s.h, f, ByCall(pid)) {
      assert CallOk(s, pid, s.calls[pid]);
    }
  }

  /** At any time a family has at most one live token, and none while a call is
      about to save the next. */
  lemma OneLiveToken(s: State, f: nat)
    requires Reachable(s)
    ensures Single(s, f)
  {
    ReachableInv(s);
    AtMostOne(s, f);
  }

  /** RFC 6749 section 6: each refresh token yields at most one response, ever; once
      swapped it is never live again. */
  lemma OncePerToken(s: State)
    requires Reachable(s)
    ensures forall p, q :: p in s.h.successes && q in s.h.successes && p != q ==>
              s.h.successes[p].req.token != s.h.successes[q].req.token
    ensures forall p :: p in s.h.successes && s.h.successes[p].req.token in s.tokens ==>
              s.tokens[s.h.successes[p].req.token].value.Spent?
  {
    ReachableInv(s);
    forall p | p in s.h.successes
      ensures Won(s.h, s.h.successes[p].req.token, p)
      ensures s.h.successes[p].req.token in s.tokens ==> TokenOk(s, s.h.successes[p].req.token)
    {
      assert SuccessOk(s, p, s.h.successes[p]);
    }
  }

  /** A successful refresh in terms of the family's first entry. */
  ghost predicate Faithful(s: State, r: Success) {
    && r.req.token in s.h.family && r.token in s.h.family
    && s.h.family[r.token] == s.h.family[r.req.token] < |s.h.roots|
    && r.token in s.h.saved && r.req.token in s.h.saved
    && var root, used, next := s.h.roots[s.h.family[r.token]], s.h.saved[r.req.token], s.h.saved[r.token];
    && used.login == next.login == root.login && next.issuedAt == root.issuedAt
    && r.req.client == root.login.client
    && (root.login.jkt.Some? ==> r.req.jkt == root.login.jkt)
    && r.now <= root.issuedAt + s.max && r.now <= used.expiresAt
    && next.expiresAt == Until(r.now, root.issuedAt + s.max)
  }

  /** However long the chain, a refresh happens within the absolute lifetime that
      began with its first token, for that token's client, with the key it is bound
      to; its successor keeps user, client, scope, amr, acr, sid and authentication
      time of the first, and expires within the same lifetime. */
  lemma ChainKeepsRoot(s: State, pid: nat)
    requires Reachable(s) && pid in s.h.successes
    ensures Faithful(s, s.h.successes[pid])
  {
    ReachableInv(s);
    var r := s.h.successes[pid];
    assert SuccessOk(s, pid, r);
    assert SavedOk(s, r.token) && SavedOk(s, r.req.token);
  }

  // ----- replay -----

  /** Presenting a swapped token is never taken for a refresh. */
  lemma SwappedIsChecked(s: State, req: Request)
    requires Inv(s) && req.token in s.h.won
    ensures Begun(s, req) == Checking(req.token)
  {
    if req.token in s.tokens {
      assert TokenOk(s, req.token);
    }
  }

  /** A replay found by either lookup goes after the user whose family it is. */
  lemma ReplayNamesOwner(s: State, pid: nat, t: nat)
    requires Reachable(s) && pid in s.calls && (s.calls[pid] == Checking(t) || s.calls[pid] == CheckingRecord(t))
    requires Operate(s, pid).calls[pid].Listing?
    ensures t in s.h.family && s.h.family[t] < |s.h.roots|
    ensures Operate(s, pid).calls[pid] == Listing(s.h.roots[s.h.family[t]].login.user, true)
  {
    ReachableInv(s);
    if t in s.tokens {
      assert TokenOk(s, t);
    }
    if t in s.consumed {
      assert MarksOwner(s, t);
    }
    if t in s.h.saved {
      assert SavedOk(s, t);
    }
  }

  /** No live token, and no call that would bring one forth. */
  ghost predicate Ended(s: State, f: nat) {
    (forall t :: !LiveIn(s, f, t)) && (forall pid :: !Owes(s, f, pid))
  }

  lemma EndedStays(s: State, e: Event, f: nat)
    requires Inv(s) && Ended(s, f) && f < |s.h.roots|
    ensures Ended(Step(s, e), f)
  {
    var s' := Step(s, e);
    StepKeepsInv(s, e);
    forall t ensures !LiveIn(s', f, t) {
      if LiveIn(s', f, t) {
        LiveBefore(s, e, f, t);
      }
    }
    forall pid ensures !Owes(s', f, pid) {
      if Owes(s', f, pid) {
        OwedBefore(s, e, f, pid);
      }
    }
  }

  /** A token appears live only by the save of a call that owed it. */
  lemma LiveBefore(s: State, e: Event, f: nat, t: nat)
    requires Inv(s) && LiveIn(Step(s, e), f, t)
    ensures LiveIn(s, f, t) || (e.Go? && Owes(s, f, e.pid))
  {
    if t in s.tokens {
      assert TokenOk(s, t);
    }
    if e.Go? && e.pid in s.calls {
      OnlySaveCreates(s, e.pid);
    }
  }

  ghost predicate CreatesNone(s: State, s': State) {
    && s'.h.family == s.h.family
    && forall t :: t in s'.tokens && s'.tokens[t].value.Live? ==> t in s.tokens && s'.tokens[t] == s.tokens[t]
  }

  lemma SaveCreates(s: State, pid: nat)
    requires pid in s.calls && s.calls[pid].Saving?
    ensures var s' := Operate(s, pid);
            && s'.h.family == s.h.family[s.drawn := s.calls[pid].family]
            && forall t :: t in s'.tokens && t != s.drawn ==> t in s.tokens && s'.tokens[t] == s.tokens[t]
  {
    var c := s.calls[pid];
    assert Operate(s, pid) == SaveStep(s, pid, c.entry, c.family, c.source);
  }

  lemma RefreshCreatesNone(s: State, pid: nat)
    requires pid in s.calls
    requires var c := s.calls[pid]; c.Holding? || c.Claimed? || c.Indexing? || c.Marking? || c.Deleting?
    ensures CreatesNone(s, Operate(s, pid))
  {
    match s.calls[pid] {
      case Holding(req, e, rev, now) => assert Operate(s, pid) == SwapStep(s, pid, req, e, rev, now);
      case Indexing(t, user, source) => assert Operate(s, pid) == IndexStep(s, pid, t, user, source);
      case Deleting(t, req, now) => assert Operate(s, pid) == DeleteStep(s, pid, t, req, now);
      case _ =>
    }
  }

  lemma RemovalCreatesNone(s: State, pid: nat)
    requires pid in s.calls
    requires var c := s.calls[pid]; !(c.Holding? || c.Claimed? || c.Indexing? || c.Marking? || c.Deleting? || c.Saving?)
    ensures CreatesNone(s, Operate(s, pid))
  {
  }

  lemma OnlySaveCreates(s: State, pid: nat)
    requires pid in s.calls
    ensures var s' := Operate(s, pid);
            if s.calls[pid].Saving? then
              && s'.h.family == s.h.family[s.drawn := s.calls[pid].family]
              && forall t :: t in s'.tokens && t != s.drawn ==> t in s.tokens && s'.tokens[t] == s.tokens[t]
            else CreatesNone(s, s')
  {
    var c := s.calls[pid];
    if c.Saving? {
      SaveCreates(s, pid);
    } else if c.Holding? || c.Claimed? || c.Indexing? || c.Marking? || c.Deleting? {
      RefreshCreatesNone(s, pid);
    } else {
      RemovalCreatesNone(s, pid);
    }
  }

  /** A call comes to owe a family only by starting it or by swapping its live token. */
  lemma OwedBefore(s: State, e: Event, f: nat, pid: nat)
    requires Inv(s) && f < |s.h.roots| && Owes(Step(s, e), f, pid)
    ensures Owes(s, f, pid) || exists t :: LiveIn(s, f, t)
  {
    if e.Go? && e.pid in s.calls {
      if e.pid == pid {
        OwedByGo(s, f, pid);
        assert CallOk(s, pid, s.calls[pid]);
        if s.calls[pid].Holding? {
          SwapNeedsLive(s, pid);
        }
      } else {
        OthersOwed(s, f, e.pid, pid);
      }
    }
  }

  lemma SwapNeedsLive(s: State, pid: nat)
    requires Inv(s) && pid in s.calls && s.calls[pid].Holding? && CallOk(s, pid, s.calls[pid])
    ensures var c := s.calls[pid]; CasOk(s.tokens, c.req.token, c.rev) ==>
            LiveIn(s, FamilyOf(s.h, c.req.token), c.req.token)
  {
  }

  /** Another call's step moves no call but its own. */
  lemma OthersOwed(s: State, f: nat, mover: nat, pid: nat)
    requires Inv(s) && mover in s.calls && mover != pid && Owes(Operate(s, mover), f, pid)
    ensures Owes(s, f, pid)
  {
    GoMove(s, mover);
    assert CallOk(s, pid, s.calls[pid]);
  }

  lemma OwedByGo(s: State, f: nat, pid: nat)
    requires pid in s.calls && Owes(Operate(s, pid), f, pid)
    ensures || Owes(s, f, pid)
            || (s.calls[pid].Holding? && CasOk(s.tokens, s.calls[pid].req.token, s.calls[pid].rev)
                && FamilyOf(s.h, s.calls[pid].req.token) == f)
  {
    match s.calls[pid] {
      case Holding(req, e, rev, now) => assert Operate(s, pid) == SwapStep(s, pid, req, e, rev, now);
      case _ =>
    }
  }

  lemma {:induction false} EndedForever(s: State, es: seq<Event>, f: nat)
    requires Inv(s) && Ended(s, f) && f < |s.h.roots|
    ensures Ended(Run(s, es), f)
  {
    if es != [] {
      EndedForever(s, es[..|es| - 1], f);
      InvRun(s, es[..|es| - 1]);
      EndedStays(Run(s, es[..|es| - 1]), es[|es| - 1], f);
    }
  }

  lemma RootsGrow(s: State, e: Event)
    requires Inv(s)
    ensures |s.h.roots| <= |Step(s, e).h.roots|
  {
    if e.Go? && e.pid in s.calls {
      assert CallOk(s, e.pid, s.calls[e.pid]);
      GoMove(s, e.pid);
    }
  }

  lemma {:induction false} InvRun(s: State, es: seq<Event>)
    requires Inv(s)
    ensures Inv(Run(s, es)) && |s.h.roots| <= |Run(s, es).h.roots|
  {
    if es != [] {
      InvRun(s, es[..|es| - 1]);
      StepKeepsInv(Run(s, es[..|es| - 1]), es[|es| - 1]);
      RootsGrow(Run(s, es[..|es| - 1]), es[|es| - 1]);
    }
  }
}
