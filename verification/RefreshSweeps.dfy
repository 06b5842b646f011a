/** How far a revocation reaches: exactly which families outlive the sweep of a user's
    tokens, whatever happens between its listing and its last deletion. */
module RefreshSweeps {
  import opened Kv
  import opened Refresh
  import opened RefreshSafety
  import opened RefreshFamilies

  /** The tokens that a sweep has listed and not deleted yet. */
  function Left(c: Call): set<nat> {
    match c
    case Sweeping(_, left, _) => left
    case Unindexing(_, _, left, _) => left
    case _ => {}
  }

  predicate Listed(c: Call) { c.Sweeping? || c.Unindexing? || c.Done? }

  /** The family has a live token that the sweep `q` will not delete, or is about to get one. */
  ghost predicate Escaping(s: State, q: nat, f: nat)
    requires q in s.calls
  {
    (exists p :: Owes(s, f, p)) || (exists t :: LiveIn(s, f, t) && t !in Left(s.calls[q]))
  }

  // ----- the steps that matter -----

  /** A rotation swaps the family's token. */
  ghost predicate SwapsToken(s: State, e: Event, f: nat) {
    && e.Go? && e.pid in s.calls && s.calls[e.pid].Holding?
    && CasOk(s.tokens, s.calls[e.pid].req.token, s.calls[e.pid].rev)
    && FamilyOf(s.h, s.calls[e.pid].req.token) == f
  }

  /** A rotation that swapped the family's token finds its user gone or inactive. */
  ghost predicate GivesUp(s: State, e: Event, f: nat) {
    && e.Go? && Owes(s, f, e.pid) && s.calls[e.pid].Claimed?
    && var user := s.calls[e.pid].entry.login.user;
       !(user in s.users && s.users[user])
  }

  /** The record goes: by its lifetime, as expired, or in a sweep. */
  predicate Deletes(s: State, e: Event, t: nat) {
    || e == Expire(t)
    || (e.Go? && e.pid in s.calls && s.calls[e.pid] == DropToken(t))
    || (e.SweepOne? && e.token == t && e.pid in s.calls && s.calls[e.pid].Sweeping? && t in s.calls[e.pid].left)
  }

  /** What escaped the sweep `q` is lost all the same. */
  ghost predicate Loses(s: State, e: Event, q: nat, f: nat)
    requires q in s.calls
  {
    GivesUp(s, e, f) || exists t :: LiveIn(s, f, t) && t !in Left(s.calls[q]) && Deletes(s, e, t)
  }

  // ----- calls move one at a time -----

  predicate OwnStep(e: Event, pid: nat) { (e.Go? || e.SweepOne?) && e.pid == pid }

  lemma GoLeavesOthers(s: State, pid: nat)
    requires Inv(s) && pid in s.calls
    ensures var s' := Operate(s, pid); pid in s'.calls && s'.calls == s.calls[pid := s'.calls[pid]]
    ensures forall t :: t in s.h.family ==>
              t in Operate(s, pid).h.family && Operate(s, pid).h.family[t] == s.h.family[t]
  {
    assert CallOk(s, pid, s.calls[pid]);
    GoMove(s, pid);
  }

  lemma StepLeavesOthers(s: State, e: Event, q: nat)
    requires Inv(s) && q in s.calls && !OwnStep(e, q)
    ensures q in Step(s, e).calls && Step(s, e).calls[q] == s.calls[q]
    ensures forall t :: t in s.h.family ==> t in Step(s, e).h.family && Step(s, e).h.family[t] == s.h.family[t]
  {
    if e.Go? {
      if e.pid in s.calls {
        GoLeavesOthers(s, e.pid);
      }
    } else {
      EventLeavesOthers(s, e, q);
    }
  }

  lemma EventLeavesOthers(s: State, e: Event, q: nat)
    requires q in s.calls && !OwnStep(e, q) && !e.Go?
    ensures q in Step(s, e).calls && Step(s, e).calls[q] == s.calls[q] && Step(s, e).h.family == s.h.family
  {
  }

  ghost predicate Narrows(s: State, s': State, q: nat) {
    && q in s.calls && q in s'.calls && Listed(s'.calls[q]) && Left(s'.calls[q]) <= Left(s.calls[q])
    && forall t :: t in Left(s.calls[q]) && t !in Left(s'.calls[q]) ==> t !in s'.tokens
  }

  lemma SweepNarrows(s: State, q: nat)
    requires q in s.calls && Listed(s.calls[q])
    ensures Narrows(s, Operate(s, q), q)
  {
  }

  lemma DeletionNarrows(s: State, q: nat, t: nat)
    requires q in s.calls && Listed(s.calls[q])
    ensures Narrows(s, Step(s, SweepOne(q, t)), q)
  {
  }

  lemma SweepMovesOne(s: State, q: nat, e: Event)
    requires Inv(s) && q in s.calls && Listed(s.calls[q])
    ensures Narrows(s, Step(s, e), q)
  {
    if OwnStep(e, q) {
      if e.Go? {
        SweepNarrows(s, q);
      } else {
        DeletionNarrows(s, q, e.token);
      }
    } else {
      StepLeavesOthers(s, e, q);
    }
  }

  lemma OwesUnmoved(s: State, e: Event, f: nat, p: nat)
    requires Inv(s) && Owes(s, f, p) && e != Go(p)
    ensures Owes(Step(s, e), f, p)
  {
    assert CallOk(s, p, s.calls[p]);
    if OwnStep(e, p) {
      assert Step(s, e) == s;
    } else {
      StepLeavesOthers(s, e, p);
    }
  }

  lemma OwedSaved(s: State, f: nat, p: nat, q: nat)
    requires Inv(s) && Owes(s, f, p) && !GivesUp(s, Go(p), f) && q in s.calls && Listed(s.calls[q])
    ensures var s' := Operate(s, p); q in s'.calls && Escaping(s', q, f)
  {
    SweepMovesOne(s, q, Go(p));
    assert CallOk(s, q, s.calls[q]);
    var s' := Operate(s, p);
    match s.calls[p] {
      case Claimed(req, e, now) =>
        assert s' == Set(s, p, UserChecked(s, req, e, now));
        assert Owes(s', f, p);
      case Saving(e, family, source) =>
        assert s' == SaveStep(s, p, e, family, source);
        assert LiveIn(s', f, s.drawn);
    }
  }

  /** A live token stays unless it is deleted or swapped. */
  lemma LiveStays(s: State, e: Event, f: nat, t: nat)
    requires Inv(s) && LiveIn(s, f, t) && !Deletes(s, e, t) && !SwapsToken(s, e, f)
    ensures LiveIn(Step(s, e), f, t)
  {
    assert TokenOk(s, t);
    if e.Go? && e.pid in s.calls {
      LiveStaysByGo(s, e.pid, f, t);
    }
  }

  lemma LiveStaysByGo(s: State, pid: nat, f: nat, t: nat)
    requires Inv(s) && LiveIn(s, f, t) && TokenOk(s, t) && pid in s.calls
    requires !Deletes(s, Go(pid), t) && !SwapsToken(s, Go(pid), f)
    ensures LiveIn(Operate(s, pid), f, t)
  {
    var c := s.calls[pid];
    assert CallOk(s, pid, c);
    if c.Holding? || c.Saving? {
      LiveStaysByWrite(s, pid, f, t);
    } else if c.Indexing? || c.Deleting? {
      LiveStaysByEnd(s, pid, f, t);
    } else {
      LiveUntouched(s, pid, f, t);
    }
  }

  lemma LiveStaysByWrite(s: State, pid: nat, f: nat, t: nat)
    requires LiveIn(s, f, t) && t < s.drawn && pid in s.calls && (s.calls[pid].Holding? || s.calls[pid].Saving?)
    requires !SwapsToken(s, Go(pid), f)
    ensures LiveIn(Operate(s, pid), f, t)
  {
    match s.calls[pid] {
      case Holding(req, e, rev, now) => assert Operate(s, pid) == SwapStep(s, pid, req, e, rev, now);
      case Saving(e, family, source) => assert Operate(s, pid) == SaveStep(s, pid, e, family, source);
    }
  }

  lemma LiveStaysByEnd(s: State, pid: nat, f: nat, t: nat)
    requires LiveIn(s, f, t) && t !in s.h.won && pid in s.calls
    requires s.calls[pid].Indexing? || (s.calls[pid].Deleting? && s.calls[pid].req.token in s.h.won)
    ensures LiveIn(Operate(s, pid), f, t)
  {
    match s.calls[pid] {
      case Indexing(u, user, source) => assert Operate(s, pid) == IndexStep(s, pid, u, user, source);
      case Deleting(u, req, now) => assert Operate(s, pid) == DeleteStep(s, pid, u, req, now);
    }
  }

  lemma LiveUntouched(s: State, pid: nat, f: nat, t: nat)
    requires LiveIn(s, f, t) && pid in s.calls && !Deletes(s, Go(pid), t)
    requires var c := s.calls[pid]; !(c.Holding? || c.Saving? || c.Indexing? || c.Deleting?)
    ensures LiveIn(Operate(s, pid), f, t)
  {
  }

  // ----- one step -----

  lemma SwapEscapes(s: State, e: Event, q: nat, f: nat)
    requires q in s.calls && q in Step(s, e).calls && SwapsToken(s, e, f)
    ensures Escaping(Step(s, e), q, f)
  {
    var c := s.calls[e.pid];
    assert Step(s, e) == SwapStep(s, e.pid, c.req, c.entry, c.rev, c.now);
    assert Owes(Step(s, e), f, e.pid);
  }

  lemma EscapeLasts(s: State, e: Event, q: nat, f: nat)
    requires Inv(s) && q in s.calls && Listed(s.calls[q]) && Escaping(s, q, f) && !Loses(s, e, q, f)
    ensures q in Step(s, e).calls && Escaping(Step(s, e), q, f)
  {
    SweepMovesOne(s, q, e);
    if SwapsToken(s, e, f) {
      SwapEscapes(s, e, q, f);
    } else if p :| Owes(s, f, p) {
      if e == Go(p) {
        OwedSaved(s, f, p, q);
      } else {
        OwesUnmoved(s, e, f, p);
      }
    } else {
      var t :| LiveIn(s, f, t) && t !in Left(s.calls[q]);
      LiveStays(s, e, f, t);
    }
  }

  lemma OwedBySwap(s: State, e: Event, f: nat, p: nat)
    requires Inv(s) && f < |s.h.roots| && Owes(Step(s, e), f, p) && !Owes(s, f, p)
    ensures SwapsToken(s, e, f)
  {
    if e.Go? && e.pid in s.calls {
      if e.pid == p {
        OwedByGo(s, f, p);
      } else {
        OthersOwed(s, f, e.pid, p);
      }
    }
  }

  lemma EscapeBefore(s: State, e: Event, q: nat, f: nat)
    requires Inv(s) && q in s.calls && Listed(s.calls[q]) && f < |s.h.roots|
    requires q in Step(s, e).calls && Escaping(Step(s, e), q, f)
    ensures Escaping(s, q, f) || SwapsToken(s, e, f)
  {
    var s' := Step(s, e);
    SweepMovesOne(s, q, e);
    if p :| Owes(s', f, p) {
      if !Owes(s, f, p) {
        OwedBySwap(s, e, f, p);
      }
    } else {
      var t :| LiveIn(s', f, t) && t !in Left(s'.calls[q]);
      LiveBefore(s, e, f, t);
    }
  }

  lemma GivenUp(s: State, e: Event, q: nat, f: nat)
    requires Inv(s) && q in s.calls && Listed(s.calls[q]) && f < |s.h.roots| && GivesUp(s, e, f)
    ensures q in Step(s, e).calls && !Escaping(Step(s, e), q, f)
  {
    AtMostOne(s, f);
    SweepMovesOne(s, q, e);
    var c, s' := s.calls[e.pid], Step(s, e);
    assert s' == Set(s, e.pid, UserChecked(s, c.req, c.entry, c.now));
    assert forall t :: !LiveIn(s', f, t) by {
      assert forall t :: LiveIn(s', f, t) <==> LiveIn(s, f, t);
    }
    forall p ensures !Owes(s', f, p) {
      if Owes(s', f, p) {
        OwedBySwapOrBefore(s, e, f, p);
      }
    }
  }

  lemma OwedBySwapOrBefore(s: State, e: Event, f: nat, p: nat)
    requires Inv(s) && f < |s.h.roots| && Owes(Step(s, e), f, p)
    ensures Owes(s, f, p) || SwapsToken(s, e, f)
  {
    if !Owes(s, f, p) {
      OwedBySwap(s, e, f, p);
    }
  }

  lemma DeletedNow(s: State, e: Event, t: nat)
    requires Deletes(s, e, t)
    ensures t !in Step(s, e).tokens
  {
  }

  lemma Deleted(s: State, e: Event, q: nat, f: nat, t: nat)
    requires Inv(s) && q in s.calls && Listed(s.calls[q]) && f < |s.h.roots|
    requires LiveIn(s, f, t) && t !in Left(s.calls[q]) && Deletes(s, e, t)
    ensures q in Step(s, e).calls && !Escaping(Step(s, e), q, f)
  {
    AtMostOne(s, f);
    SweepMovesOne(s, q, e);
    var s' := Step(s, e);
    DeletedNow(s, e, t);
    forall u ensures !LiveIn(s', f, u) {
      if LiveIn(s', f, u) {
        LiveBefore(s, e, f, u);
      }
    }
    forall p ensures !Owes(s', f, p) {
      if Owes(s', f, p) {
        OwedBySwapOrBefore(s, e, f, p);
      }
    }
  }

  /** A family is beyond the sweep after a step exactly if its token was swapped in that
      step, or it was beyond the sweep before and was not lost. */
  lemma EscapeStep(s: State, e: Event, q: nat, f: nat)
    requires Inv(s) && q in s.calls && Listed(s.calls[q]) && f < |s.h.roots|
    ensures q in Step(s, e).calls && Listed(Step(s, e).calls[q])
    ensures Escaping(Step(s, e), q, f) <==> SwapsToken(s, e, f) || (Escaping(s, q, f) && !Loses(s, e, q, f))
  {
    SweepMovesOne(s, q, e);
    if SwapsToken(s, e, f) {
      SwapEscapes(s, e, q, f);
    } else if Loses(s, e, q, f) {
      if GivesUp(s, e, f) {
        GivenUp(s, e, q, f);
      } else {
        var t :| LiveIn(s, f, t) && t !in Left(s.calls[q]) && Deletes(s, e, t);
        Deleted(s, e, q, f, t);
      }
    } else if Escaping(s, q, f) {
      EscapeLasts(s, e, q, f);
    } else if Escaping(Step(s, e), q, f) {
      EscapeBefore(s, e, q, f);
    }
  }

  // ----- a whole sweep -----

  /** When the listing came, a call was about to save the family's next token, or its
      live token had not been indexed. */
  ghost predicate Overlooked(s: State, f: nat) {
    (exists p :: Owes(s, f, p)) || (exists t :: LiveIn(s, f, t) && t !in s.index)
  }

  /** The i-th step of the run swapped the family's token; or, for none, the listing overlooked it. */
  ghost predicate EscapesAt(s: State, es: seq<Event>, q: nat, f: nat, i: nat)
    requires i <= |es| && q in s.calls
  {
    if i == 0 then Escaping(s, q, f) else SwapsToken(Run(s, es[..i - 1]), es[i - 1], f)
  }

  ghost predicate LostAt(s: State, es: seq<Event>, q: nat, f: nat, j: nat)
    requires j < |es|
  {
    q in Run(s, es[..j]).calls && Loses(Run(s, es[..j]), es[j], q, f)
  }

  ghost predicate KeptFrom(s: State, es: seq<Event>, q: nat, f: nat, i: nat) {
    forall j :: i <= j < |es| ==> !LostAt(s, es, q, f, j)
  }

  ghost predicate Escapes(s: State, es: seq<Event>, q: nat, f: nat)
    requires q in s.calls
  {
    exists i :: 0 <= i <= |es| && EscapesAt(s, es, q, f, i) && KeptFrom(s, es, q, f, i)
  }

  lemma EscapesAtPrefix(s: State, es: seq<Event>, q: nat, f: nat, i: nat)
    requires q in s.calls && i < |es|
    ensures EscapesAt(s, es[..|es| - 1], q, f, i) <==> EscapesAt(s, es, q, f, i)
  {
    if i > 0 {
      assert es[..|es| - 1][..i - 1] == es[..i - 1];
    }
  }

  lemma KeptPrefix(s: State, es: seq<Event>, q: nat, f: nat, i: nat)
    requires i < |es|
    ensures KeptFrom(s, es, q, f, i) <==>
            KeptFrom(s, es[..|es| - 1], q, f, i) && !LostAt(s, es, q, f, |es| - 1)
  {
    var before := es[..|es| - 1];
    forall j | 0 <= j < |before| ensures LostAt(s, before, q, f, j) <==> LostAt(s, es, q, f, j) {
      assert before[..j] == es[..j];
    }
    if KeptFrom(s, es, q, f, i) {
      forall j | i <= j < |before| ensures !LostAt(s, before, q, f, j) {
        assert !LostAt(s, es, q, f, j);
      }
    }
    if KeptFrom(s, before, q, f, i) && !LostAt(s, es, q, f, |es| - 1) {
      forall j | i <= j < |es| ensures !LostAt(s, es, q, f, j) {
        assert j < |before| ==> !LostAt(s, before, q, f, j);
      }
    }
  }

  /** What the last step of a run adds. */
  lemma EscapesThen(s: State, es: seq<Event>, q: nat, f: nat)
    requires q in s.calls && es != []
    ensures Escapes(s, es, q, f) <==>
            || SwapsToken(Run(s, es[..|es| - 1]), es[|es| - 1], f)
            || (Escapes(s, es[..|es| - 1], q, f) && !LostAt(s, es, q, f, |es| - 1))
  {
    var n, before := |es|, es[..|es| - 1];
    if SwapsToken(Run(s, before), es[n - 1], f) {
      assert EscapesAt(s, es, q, f, n) && KeptFrom(s, es, q, f, n);
    } else if Escapes(s, es, q, f) {
      var i :| 0 <= i <= n && EscapesAt(s, es, q, f, i) && KeptFrom(s, es, q, f, i);
      EscapesAtPrefix(s, es, q, f, i);
      KeptPrefix(s, es, q, f, i);
      assert EscapesAt(s, before, q, f, i) && KeptFrom(s, before, q, f, i);
    }
    if Escapes(s, before, q, f) && !LostAt(s, es, q, f, n - 1) {
      var i :| 0 <= i <= |before| && EscapesAt(s, before, q, f, i) && KeptFrom(s, before, q, f, i);
      EscapesAtPrefix(s, es, q, f, i);
      KeptPrefix(s, es, q, f, i);
      assert EscapesAt(s, es, q, f, i) && KeptFrom(s, es, q, f, i);
    }
  }

  lemma {:induction false} EscapingRun(s: State, es: seq<Event>, q: nat, f: nat)
    requires Inv(s) && q in s.calls && Listed(s.calls[q]) && f < |s.h.roots|
    ensures var s1 := Run(s, es); q in s1.calls && Listed(s1.calls[q]) && (Escaping(s1, q, f) <==> Escapes(s, es, q, f))
  {
    if es == [] {
      assert EscapesAt(s, es, q, f, 0) <==> Escaping(s, q, f);
      assert KeptFrom(s, es, q, f, 0);
    } else {
      var before, e := es[..|es| - 1], es[|es| - 1];
      EscapingRun(s, before, q, f);
      InvRun(s, before);
      EscapeStep(Run(s, before), e, q, f);
      EscapesThen(s, es, q, f);
    }
  }

  /** What the listing reaches: the indexed tokens. */
  lemma ListingReaches(s: State, q: nat, f: nat)
    requires Inv(s) && f < |s.h.roots| && q in s.calls && s.calls[q].Listing?
             && s.calls[q].user == s.h.roots[f].login.user
    ensures var s' := Step(s, Go(q)); q in s'.calls && Listed(s'.calls[q]) && (Escaping(s', q, f) <==> Overlooked(s, f))
  {
    var s' := Step(s, Go(q));
    ListStep(s, q);
    ListingChangesNone(s, s', q, f, Indexed(s, s.calls[q].user));
    forall t | LiveIn(s, f, t) ensures t in Indexed(s, s.calls[q].user) <==> t in s.index {
      LiveListed(s, f, t);
    }
  }

  lemma ListingChangesNone(s: State, s': State, q: nat, f: nat, left: set<nat>)
    requires q in s.calls && s.calls[q].Listing? && s' == Set(s, q, Sweeping(s.calls[q].user, left, s.calls[q].replay))
    ensures forall p :: Owes(s', f, p) <==> Owes(s, f, p)
    ensures forall t :: LiveIn(s', f, t) <==> LiveIn(s, f, t)
  {
  }

  lemma ListStep(s: State, q: nat)
    requires q in s.calls && s.calls[q].Listing?
    ensures Step(s, Go(q)) == Set(s, q, Sweeping(s.calls[q].user, Indexed(s, s.calls[q].user), s.calls[q].replay))
  {
  }

  lemma LiveListed(s: State, f: nat, t: nat)
    requires Inv(s) && LiveIn(s, f, t)
    ensures f < |s.h.roots| && (t in Indexed(s, s.h.roots[f].login.user) <==> t in s.index)
  {
    assert TokenOk(s, t) && SavedOk(s, t);
    assert t in s.index ==> IndexOk(s, t);
  }

  ghost predicate SweepOver(s: State, q: nat) {
    q in s.calls && Listed(s.calls[q]) && Left(s.calls[q]) == {}
  }

  ghost predicate ListsFamily(s: State, q: nat, f: nat) {
    f < |s.h.roots| && q in s.calls && s.calls[q].Listing? && s.calls[q].user == s.h.roots[f].login.user
  }

  /** The call's listing is the next step; then anything happens, the sweep's own deletions
      among it. The family outlives the sweep exactly if the listing overlooked it or a
      rotation swapped its token later, and from then on what escaped was not lost. */
  lemma FamilyOutlivesSweep(s: State, q: nat, f: nat, es: seq<Event>)
    requires Reachable(s) && ListsFamily(s, q, f)
    ensures var s' := Step(s, Go(q));
            && q in s'.calls
            && (SweepOver(Run(s', es), q) ==> (Ended(Run(s', es), f) <==> !Escapes(s', es, q, f)))
            && (EscapesAt(s', es, q, f, 0) <==> Overlooked(s, f))
  {
    ReachableInv(s);
    StepKeepsInv(s, Go(q));
    ListingReaches(s, q, f);
    EscapingRun(Step(s, Go(q)), es, q, f);
  }

  /** No step of the run swaps the family's token. */
  ghost predicate NoSwap(s: State, es: seq<Event>, f: nat) {
    forall i :: 0 <= i < |es| ==> !SwapsToken(Run(s, es[..i]), es[i], f)
  }

  /** A sweep ends a family that its listing did not overlook and whose token no rotation
      swaps meanwhile; and if none that escapes is lost by itself, it ends no other. */
  lemma SweepEndsFamily(s: State, q: nat, f: nat, es: seq<Event>)
    requires Reachable(s) && ListsFamily(s, q, f)
    ensures var s' := Step(s, Go(q));
            SweepOver(Run(s', es), q) ==>
            && (!Overlooked(s, f) && NoSwap(s', es, f) ==> Ended(Run(s', es), f))
            && (KeptFrom(s', es, q, f, 0) ==> (Ended(Run(s', es), f) <==> !Overlooked(s, f) && NoSwap(s', es, f)))
  {
    var s' := Step(s, Go(q));
    FamilyOutlivesSweep(s, q, f, es);
    if !Overlooked(s, f) && NoSwap(s', es, f) {
      forall i | 0 <= i <= |es| ensures !EscapesAt(s', es, q, f, i) {
        assert i > 0 ==> !SwapsToken(Run(s', es[..i - 1]), es[i - 1], f);
      }
    }
    if KeptFrom(s', es, q, f, 0) && Overlooked(s, f) {
      assert EscapesAt(s', es, q, f, 0);
    }
    if KeptFrom(s', es, q, f, 0) && !NoSwap(s', es, f) {
      var i :| 0 <= i < |es| && SwapsToken(Run(s', es[..i]), es[i], f);
      assert EscapesAt(s', es, q, f, i + 1) && KeptFrom(s', es, q, f, i + 1);
    }
  }
}
