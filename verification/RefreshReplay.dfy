/** What replay detection cannot promise: runs in which a replay is found and its sweep
    completes, and yet the family lives on. */
module RefreshReplay {
  import opened Kv
  import opened Refresh
  import opened RefreshSafety
  import opened RefreshFamilies
  import opened RefreshSweeps

  // ----- building runs -----

  lemma Then(s: State, e: Event)
    requires Reachable(s)
    ensures Reachable(Step(s, e))
  {
    var max, clock, users, es :| clock > 0 && s == Run(Start(max, clock, users), es);
    RunThen(Start(max, clock, users), es, e);
  }

  lemma {:induction false} Onward(s: State, es: seq<Event>)
    requires Reachable(s)
    ensures Reachable(Run(s, es))
  {
    if es != [] {
      Onward(s, es[..|es| - 1]);
      Then(Run(s, es[..|es| - 1]), es[|es| - 1]);
    }
  }

  lemma OneStep(s: State, e: Event)
    ensures Run(s, [e]) == Step(s, e)
  {
    RunThen(s, [], e);
    assert [] + [e] == [e];
  }

  lemma FreshCall(calls: map<nat, Call>) returns (p: nat)
    ensures p !in calls
  {
    p := Above(calls.Keys);
  }

  lemma Above(ids: set<nat>) returns (p: nat)
    ensures forall i :: i in ids ==> i < p
    decreases |ids|
  {
    if ids == {} {
      p := 0;
    } else {
      var i :| i in ids;
      var q := Above(ids - {i});
      p := if i < q then q else i + 1;
      forall j | j in ids ensures j < p {
        assert j == i || j in ids - {i};
      }
    }
  }

  // ----- a sweep left alone -----

  function Swept(s: State, q: nat, left: set<nat>, replay: bool): State {
    s.(calls := s.calls[q := Done(if replay then Replayed else Rejected)], tokens := s.tokens - left,
        index := s.index - left)
  }

  function SweptOne(s: State, q: nat, t: nat): State
    requires q in s.calls && s.calls[q].Sweeping?
  {
    var c := s.calls[q];
    s.(calls := s.calls[q := Sweeping(c.user, c.left - {t}, c.replay)], tokens := s.tokens - {t},
        index := s.index - {t})
  }

  lemma TokenSwept(s: State, s1: State, q: nat, t: nat)
    requires q in s.calls && s.calls[q].Sweeping? && t in s.calls[q].left && s1 == Step(s, SweepOne(q, t))
    ensures var c := s.calls[q];
            s1 == Set(s, q, Unindexing(c.user, t, c.left - {t}, c.replay)).(tokens := s.tokens - {t})
  {
  }

  lemma IndexSwept(s1: State, s2: State, q: nat, t: nat)
    requires q in s1.calls && s1.calls[q].Unindexing? && s1.calls[q].token == t && s2 == Step(s1, Go(q))
    ensures var c := s1.calls[q];
            s2 == Set(s1, q, Sweeping(c.user, c.left, c.replay)).(index := s1.index - {t})
  {
  }

  lemma SweepPair(s: State, q: nat, t: nat)
    requires q in s.calls && s.calls[q].Sweeping? && t in s.calls[q].left
    ensures Run(s, [SweepOne(q, t), Go(q)]) == SweptOne(s, q, t)
  {
    OneStep(s, SweepOne(q, t));
    RunThen(s, [SweepOne(q, t)], Go(q));
    assert [SweepOne(q, t)] + [Go(q)] == [SweepOne(q, t), Go(q)];
    var s1 := Step(s, SweepOne(q, t));
    TokenSwept(s, s1, q, t);
    IndexSwept(s1, Step(s1, Go(q)), q, t);
  }

  lemma SweptRest(s: State, q: nat, t: nat)
    requires q in s.calls && s.calls[q].Sweeping? && t in s.calls[q].left
    ensures var c := s.calls[q]; Swept(SweptOne(s, q, t), q, c.left - {t}, c.replay) == Swept(s, q, c.left, c.replay)
  {
    var left := s.calls[q].left;
    assert s.tokens - {t} - (left - {t}) == s.tokens - left;
    assert s.index - {t} - (left - {t}) == s.index - left;
  }

  lemma {:induction false} SweepAlone(s: State, q: nat) returns (es: seq<Event>)
    requires q in s.calls && s.calls[q].Sweeping?
    ensures Run(s, es) == Swept(s, q, s.calls[q].left, s.calls[q].replay)
    decreases |s.calls[q].left|
  {
    var left := s.calls[q].left;
    if left == {} {
      es := [Go(q)];
      OneStep(s, Go(q));
      assert s.tokens - {} == s.tokens && s.index - {} == s.index;
    } else {
      var t :| t in left;
      SweepPair(s, q, t);
      SweptRest(s, q, t);
      var rest := SweepAlone(SweptOne(s, q, t), q);
      RunConcat(s, [SweepOne(q, t), Go(q)], rest);
      es := [SweepOne(q, t), Go(q)] + rest;
    }
  }

  lemma ListAndSweep(s: State, q: nat) returns (es: seq<Event>)
    requires q in s.calls && s.calls[q].Listing?
    ensures Run(s, es) == Swept(s, q, Indexed(s, s.calls[q].user), s.calls[q].replay)
  {
    var c := s.calls[q];
    OneStep(s, Go(q));
    var s' := Set(s, q, Sweeping(c.user, Indexed(s, c.user), c.replay));
    assert Step(s, Go(q)) == s';
    var rest := SweepAlone(s', q);
    RunConcat(s, [Go(q)], rest);
    es := [Go(q)] + rest;
  }

  // ----- a sweep by itself guarantees nothing -----

  lemma OverlookedOutlives(s: State, q: nat, f: nat) returns (es: seq<Event>)
    requires Inv(s) && ListsFamily(s, q, f) && Overlooked(s, f)
    ensures SweepOver(Run(s, es), q) && !Ended(Run(s, es), f)
  {
    es := ListAndSweep(s, q);
    var s1 := Run(s, es);
    if p :| Owes(s, f, p) {
      assert Owes(s1, f, p);
    } else {
      var t :| LiveIn(s, f, t) && t !in s.index;
      assert LiveIn(s1, f, t);
    }
  }

  /** A fresh request for a live token. */
  function RequestFor(t: nat, e: Entry): Request { Request(t, e.login.client, e.login.jkt) }

  lemma SwapFirst(s: State, q: nat, f: nat, t: nat, p: nat) returns (es: seq<Event>)
    requires Inv(s) && ListsFamily(s, q, f) && LiveIn(s, f, t) && p !in s.calls
    requires InTime(s.tokens[t].value.entry, s.clock, s.max)
    ensures ListsFamily(Run(s, es), q, f) && Overlooked(Run(s, es), f)
  {
    assert TokenOk(s, t);
    var e, rev := s.tokens[t].value.entry, s.tokens[t].rev;
    var req := RequestFor(t, e);
    var s1 := Step(s, Begin(p, req, true));
    assert s1 == Set(s, p, Holding(req, e, rev, s.clock));
    es := [Begin(p, req, true)] + [Go(p)];
    OneStep(s, Begin(p, req, true));
    RunThen(s, [Begin(p, req, true)], Go(p));
    SwapOwes(s1, p, f);
    assert Owes(Run(s, es), f, p);
  }

  lemma SwapOwes(s: State, p: nat, f: nat)
    requires SwapsToken(s, Go(p), f)
    ensures var s' := Step(s, Go(p));
            && Owes(s', f, p) && s'.h.roots == s.h.roots && s'.calls == s.calls[p := s'.calls[p]]
  {
    var c := s.calls[p];
    assert Step(s, Go(p)) == SwapStep(s, p, c.req, c.entry, c.rev, c.now);
  }

  lemma DropFirst(s: State, q: nat, f: nat, t: nat, p: nat) returns (es: seq<Event>)
    requires Inv(s) && ListsFamily(s, q, f) && LiveIn(s, f, t) && p !in s.calls
    requires !InTime(s.tokens[t].value.entry, s.clock, s.max)
    ensures ListsFamily(Run(s, es), q, f) && Overlooked(Run(s, es), f)
  {
    var req := RequestFor(t, s.tokens[t].value.entry);
    es := [Begin(p, req, true)] + [Go(p)] + [Go(p)];
    OneStep(s, Begin(p, req, true));
    RunThen(s, [Begin(p, req, true)], Go(p));
    RunThen(s, [Begin(p, req, true)] + [Go(p)], Go(p));
    var s1 := Set(s, p, Dropping(t));
    assert Step(s, Begin(p, req, true)) == s1;
    IndexDropped(s, s1, Step(s1, Go(p)), p, t);
    assert LiveIn(Run(s, es), f, t) && t !in Run(s, es).index;
  }

  lemma IndexDropped(s: State, s1: State, s2: State, p: nat, t: nat)
    requires s1 == Set(s, p, Dropping(t)) && IsLive(s, t) && s2 == Step(s1, Go(p))
    ensures Step(s2, Go(p)) == Set(s, p, DropToken(t)).(index := s.index - {t})
  {
    assert s2 == Set(s, p, DropIndex(t));
  }

  ghost predicate SweepIsEnough(s: State, q: nat, f: nat) {
    forall es :: SweepOver(Run(s, es), q) ==> Ended(Run(s, es), f)
  }

  /** Whatever else may run beside it, a sweep that is about to list is sure to end a family
      exactly if the family has ended already. */
  lemma SweepGuarantees(s: State, q: nat, f: nat)
    requires Reachable(s) && ListsFamily(s, q, f)
    ensures SweepIsEnough(s, q, f) <==> Ended(s, f)
  {
    ReachableInv(s);
    if Ended(s, f) {
      forall es | SweepOver(Run(s, es), q) ensures Ended(Run(s, es), f) {
        EndedForever(s, es, f);
      }
    } else {
      var es := SomeSweepFails(s, q, f);
      assert SweepOver(Run(s, es), q) && !Ended(Run(s, es), f);
    }
  }

  lemma SomeSweepFails(s: State, q: nat, f: nat) returns (es: seq<Event>)
    requires Inv(s) && ListsFamily(s, q, f) && !Ended(s, f)
    ensures SweepOver(Run(s, es), q) && !Ended(Run(s, es), f)
  {
    var before: seq<Event> := [];
    if !Overlooked(s, f) {
      var t :| LiveIn(s, f, t);
      var p := FreshCall(s.calls);
      if InTime(s.tokens[t].value.entry, s.clock, s.max) {
        before := SwapFirst(s, q, f, t, p);
      } else {
        before := DropFirst(s, q, f, t, p);
      }
    }
    InvRun(s, before);
    var rest := OverlookedOutlives(Run(s, before), q, f);
    RunConcat(s, before, rest);
    es := before + rest;
  }

  // ----- a replay that is found -----

  /** Presenting a swapped token, with nothing in between: found out as a replay. */
  lemma ReplayFound(s: State, q: nat, req: Request) returns (es: seq<Event>, user: string)
    requires Inv(s) && q !in s.calls && req.token in s.h.won
    requires req.token in s.consumed || req.token in s.tokens
    ensures Run(s, es) == Set(s, q, Listing(user, true))
  {
    var t := req.token;
    SwappedIsChecked(s, req);
    Looked(s, q, req);
    es := [Begin(q, req, true)] + [Go(q)];
    if t in s.consumed {
      user := s.consumed[t];
    } else {
      assert TokenOk(s, t);
      user := s.tokens[t].value.user;
      RunThen(s, es, Go(q));
      es := es + [Go(q)];
      RecordFound(s, Set(s, q, CheckingRecord(t)), q, t);
    }
  }

  /** The first lookup. */
  lemma Looked(s: State, q: nat, req: Request)
    requires q !in s.calls && Begun(s, req) == Checking(req.token)
    ensures Run(s, [Begin(q, req, true)] + [Go(q)]) == Set(s, q, MarkerRead(s, req.token))
  {
    OneStep(s, Begin(q, req, true));
    RunThen(s, [Begin(q, req, true)], Go(q));
    MarkerLooked(s, Set(s, q, Checking(req.token)), q, req.token);
  }

  lemma MarkerLooked(s: State, s1: State, q: nat, t: nat)
    requires s1 == Set(s, q, Checking(t))
    ensures Step(s1, Go(q)) == Set(s, q, MarkerRead(s, t))
  {
    assert MarkerRead(s1, t) == MarkerRead(s, t);
  }

  lemma RecordFound(s: State, s2: State, q: nat, t: nat)
    requires s2 == Set(s, q, CheckingRecord(t)) && IsSpent(s, t)
    ensures Step(s2, Go(q)) == Set(s, q, Listing(s.tokens[t].value.user, true))
  {
  }

  /** A rotation that has swapped its token finishes: the next one is live. */
  lemma RotationFinishes(s: State, p: nat)
    requires p in s.calls && s.calls[p].Claimed?
    requires var u := s.calls[p].entry.login.user; u in s.users && s.users[u]
    ensures var s2 := Run(s, [Go(p), Go(p)]);
            && LiveIn(s2, FamilyOf(s.h, s.calls[p].req.token), s.drawn)
            && forall q :: q in s.calls && q != p ==> q in s2.calls && s2.calls[q] == s.calls[q]
  {
    var c := s.calls[p];
    var s1 := Set(s, p, UserChecked(s, c.req, c.entry, c.now));
    assert Step(s, Go(p)) == s1;
    OneStep(s, Go(p));
    RunThen(s, [Go(p)], Go(p));
    assert [Go(p)] + [Go(p)] == [Go(p), Go(p)];
    var d := s1.calls[p];
    assert Step(s1, Go(p)) == SaveStep(s1, p, d.entry, d.family, d.source);
  }

  /** Revoking the family on replay is not certain: whenever a token comes back while
      its own rotation `p` is between swap and save, the replay `q` can be found and its
      whole sweep run, and still the rotation then gives the family a new live token. */
  lemma ReplayMissesRotation(s: State, p: nat, q: nat, req: Request) returns (es: seq<Event>)
    requires Reachable(s) && p in s.calls && s.calls[p].Claimed? && q !in s.calls && req.token == s.calls[p].req.token
    requires req.token in s.consumed || req.token in s.tokens
    requires var u := s.calls[p].entry.login.user; u in s.users && s.users[u]
    ensures var s1 := Run(s, es);
            q in s1.calls && s1.calls[q] == Done(Replayed) && LiveIn(s1, FamilyOf(s.h, req.token), s.drawn)
  {
    ReachableInv(s);
    assert CallOk(s, p, s.calls[p]);
    var found, user := ReplayFound(s, q, req);
    var s1 := Set(s, q, Listing(user, true));
    var rest := ListedThenSaved(s1, p, q);
    RunConcat(s, found, rest);
    es := found + rest;
  }

  lemma ListedThenSaved(s: State, p: nat, q: nat) returns (es: seq<Event>)
    requires p in s.calls && s.calls[p].Claimed? && q in s.calls && s.calls[q].Listing? && s.calls[q].replay
    requires var u := s.calls[p].entry.login.user; u in s.users && s.users[u]
    ensures var s1 := Run(s, es);
            SweepOver(s1, q) && s1.calls[q] == Done(Replayed)
                && LiveIn(s1, FamilyOf(s.h, s.calls[p].req.token), s.drawn)
  {
    var c := s.calls[q];
    OneStep(s, Go(q));
    var s1 := Set(s, q, Sweeping(c.user, Indexed(s, c.user), c.replay));
    assert Step(s, Go(q)) == s1;
    var rest := SweptThenSaved(s1, p, q);
    RunConcat(s, [Go(q)], rest);
    es := [Go(q)] + rest;
  }

  /** So it does if the rotation swaps after the sweep has listed the token. */
  lemma SwapDuringSweep(s: State, p: nat, q: nat) returns (es: seq<Event>)
    requires Inv(s) && q in s.calls && s.calls[q].Listing? && s.calls[q].replay && p in s.calls && s.calls[p].Holding?
    requires SwapsToken(s, Go(p), FamilyOf(s.h, s.calls[p].req.token))
    requires var u := s.calls[p].entry.login.user; u in s.users && s.users[u]
    ensures var s1 := Run(Step(s, Go(q)), es);
            SweepOver(s1, q) && s1.calls[q] == Done(Replayed)
                && LiveIn(s1, FamilyOf(s.h, s.calls[p].req.token), s.drawn)
  {
    var c, l := s.calls[p], s.calls[q];
    var s1 := Set(s, q, Sweeping(l.user, Indexed(s, l.user), l.replay));
    assert Step(s, Go(q)) == s1;
    var s2 := SwappedThen(s1, p);
    var rest := SweptThenSaved(s2, p, q);
    RunConcat(s1, [Go(p)], rest);
    es := [Go(p)] + rest;
  }

  lemma SweptThenSaved(s: State, p: nat, q: nat) returns (es: seq<Event>)
    requires p in s.calls && s.calls[p].Claimed? && q in s.calls && s.calls[q].Sweeping? && s.calls[q].replay
    requires var u := s.calls[p].entry.login.user; u in s.users && s.users[u]
    ensures var s1 := Run(s, es);
            SweepOver(s1, q) && s1.calls[q] == Done(Replayed)
                && LiveIn(s1, FamilyOf(s.h, s.calls[p].req.token), s.drawn)
  {
    var sweep := SweepAlone(s, q);
    var s3 := Swept(s, q, s.calls[q].left, true);
    assert p in s3.calls && s3.calls[p] == s.calls[p] && q in s3.calls && s3.calls[q] == Done(Replayed);
    RotationFinishes(s3, p);
    RunConcat(s, sweep, [Go(p), Go(p)]);
    es := sweep + [Go(p), Go(p)];
  }

  lemma SwappedThen(s: State, p: nat) returns (s': State)
    requires p in s.calls && s.calls[p].Holding? && CasOk(s.tokens, s.calls[p].req.token, s.calls[p].rev)
    ensures var c := s.calls[p];
            && s' == Run(s, [Go(p)]) && s'.calls == s.calls[p := Claimed(c.req, c.entry, c.now)]
            && s'.h.family == s.h.family && s'.drawn == s.drawn && s'.users == s.users
  {
    var c := s.calls[p];
    OneStep(s, Go(p));
    s' := Step(s, Go(p));
    assert s' == SwapStep(s, p, c.req, c.entry, c.rev, c.now);
  }

  /** Nor is a replay always found: between its two lookups the rotation `p` writes the
      marker that was missing at the first and deletes the record that is missing at the second. */
  lemma ReplayUnnoticed(s: State, p: nat, q: nat, client: string, jkt: Option<string>) returns (s1: State)
    requires Reachable(s) && p in s.calls && s.calls[p].Marking? && q !in s.calls
    requires s.calls[p].req.token !in s.consumed && s.calls[p].req.token in s.tokens
    ensures s1 == Run(s, [Begin(q, Request(s.calls[p].req.token, client, jkt), true), Go(q), Go(p), Go(p), Go(q)])
    ensures q in s1.calls && s1.calls[q] == Done(Rejected) && p in s1.calls
            && s1.calls[p] == Done(Issued(s.calls[p].token))
  {
    ReachableInv(s);
    assert CallOk(s, p, s.calls[p]);
    var req := Request(s.calls[p].req.token, client, jkt);
    SwappedIsChecked(s, req);
    UnnoticedRun(s, p, q, req);
    s1 := Run(s, [Begin(q, req, true), Go(q), Go(p), Go(p), Go(q)]);
  }

  lemma UnnoticedRun(s: State, p: nat, q: nat, req: Request)
    requires p in s.calls && s.calls[p].Marking? && q !in s.calls && req.token == s.calls[p].req.token
    requires req.token !in s.consumed && Begun(s, req) == Checking(req.token)
    ensures var s1 := Run(s, [Begin(q, req, true), Go(q), Go(p), Go(p), Go(q)]);
            q in s1.calls && s1.calls[q] == Done(Rejected) && p in s1.calls
                && s1.calls[p] == Done(Issued(s.calls[p].token))
  {
    Looked(s, q, req);
    var s2 := Set(s, q, CheckingRecord(req.token));
    var first := [Begin(q, req, true)] + [Go(q)];
    assert [Begin(q, req, true), Go(q), Go(p), Go(p), Go(q)] == first + [Go(p)] + [Go(p)] + [Go(q)];
    ThreeMore(s, first, Go(p), Go(p), Go(q));
    MarkedAndDeleted(s2, Step(s2, Go(p)), Step(Step(s2, Go(p)), Go(p)), p, q);
  }

  lemma ThreeMore(s: State, es: seq<Event>, e1: Event, e2: Event, e3: Event)
    ensures Run(s, es + [e1] + [e2] + [e3]) == Step(Step(Step(Run(s, es), e1), e2), e3)
  {
    RunThen(s, es, e1);
    RunThen(s, es + [e1], e2);
    RunThen(s, es + [e1] + [e2], e3);
  }

  lemma MarkedAndDeleted(s: State, s1: State, s2: State, p: nat, q: nat)
    requires p in s.calls && q in s.calls && p != q && s.calls[p].Marking?
             && s.calls[q] == CheckingRecord(s.calls[p].req.token)
    requires s1 == Step(s, Go(p)) && s2 == Step(s1, Go(p))
    ensures var s3 := Step(s2, Go(q));
            p in s3.calls && q in s3.calls && s3.calls[q] == Done(Rejected)
                && s3.calls[p] == Done(Issued(s.calls[p].token))
  {
    var c := s.calls[p];
    assert s1 == Set(s, p, Deleting(c.token, c.req, c.now)).(consumed := s.consumed[c.req.token := c.user]);
    assert s2 == DeleteStep(s1, p, c.token, c.req, c.now);
    assert s2.calls[q] == CheckingRecord(c.req.token) && c.req.token !in s2.tokens;
  }
}
