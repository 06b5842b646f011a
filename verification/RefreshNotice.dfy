/** When a token that comes back is found out: exactly which replays can be answered as
    unknown, while neither the marker nor the record runs out. */
module RefreshNotice {
  import opened Kv
  import opened Refresh
  import opened RefreshSafety
  import opened RefreshSweeps
  import opened RefreshReplay

  /** The call may yet delete the token's record, or index it for a sweep to do so. */
  predicate MayDelete(c: Call, t: nat) {
    match c
    case Dropping(u) => u == t
    case DropIndex(u) => u == t
    case DropToken(u) => u == t
    case Claimed(req, _, _) => req.token == t
    case Saving(_, _, source) => source.Rotation? && source.req.token == t
    case Indexing(u, _, source) => u == t || (source.Rotation? && source.req.token == t)
    case Marking(_, _, req, _) => req.token == t
    case Deleting(_, req, _) => req.token == t
    case Sweeping(_, left, _) => t in left
    case Unindexing(_, _, left, _) => t in left
    case _ => false
  }

  ghost predicate Deletable(s: State, t: nat) {
    t in s.index || exists p :: p in s.calls && MayDelete(s.calls[p], t)
  }

  /** The record of a swapped token is there to stay. */
  ghost predicate Lasting(s: State, t: nat) { IsSpent(s, t) && !Deletable(s, t) }

  /** Neither the marker of the token nor its record reaches the end of its lifetime. */
  ghost predicate Undisturbed(es: seq<Event>, t: nat) {
    forall i :: 0 <= i < |es| ==> es[i] != Forget(t) && es[i] != Expire(t)
  }

  ghost predicate AnsweredUnknown(s: State, q: nat) { q in s.calls && s.calls[q] == Done(Rejected) }

  // ----- a record that lasts -----

  lemma SwapLasts(s: State, pid: nat, t: nat)
    requires Inv(s) && Lasting(s, t) && pid in s.calls && s.calls[pid].Holding?
    ensures Lasting(Operate(s, pid), t)
  {
    var c := s.calls[pid];
    assert CallOk(s, pid, c);
    var s' := SwapStep(s, pid, c.req, c.entry, c.rev, c.now);
    assert Operate(s, pid) == s';
    OneMoved(s, s', pid, t);
  }

  /** One call moved, to a place from which it will not delete the record. */
  lemma OneMoved(s: State, s': State, pid: nat, t: nat)
    requires Lasting(s, t) && IsSpent(s', t) && t !in s'.index
    requires pid in s'.calls && s'.calls == s.calls[pid := s'.calls[pid]] && !MayDelete(s'.calls[pid], t)
    ensures Lasting(s', t)
  {
    forall p | p in s'.calls ensures !MayDelete(s'.calls[p], t) {
    }
  }

  lemma SaveLasts(s: State, pid: nat, t: nat)
    requires Inv(s) && Lasting(s, t) && pid in s.calls && s.calls[pid].Saving?
    ensures Lasting(Operate(s, pid), t)
  {
    var c := s.calls[pid];
    assert TokenOk(s, t) && !MayDelete(c, t);
    var s' := SaveStep(s, pid, c.entry, c.family, c.source);
    assert Operate(s, pid) == s';
    OneMoved(s, s', pid, t);
  }

  lemma IndexLasts(s: State, pid: nat, t: nat)
    requires Lasting(s, t) && pid in s.calls && s.calls[pid].Indexing?
    ensures Lasting(Operate(s, pid), t)
  {
    var c := s.calls[pid];
    assert !MayDelete(c, t);
    var s' := IndexStep(s, pid, c.token, c.user, c.source);
    assert Operate(s, pid) == s';
    OneMoved(s, s', pid, t);
  }

  lemma DeleteLasts(s: State, pid: nat, t: nat)
    requires Lasting(s, t) && pid in s.calls && s.calls[pid].Deleting?
    ensures Lasting(Operate(s, pid), t)
  {
    var c := s.calls[pid];
    assert !MayDelete(c, t);
    var s' := DeleteStep(s, pid, c.token, c.req, c.now);
    assert Operate(s, pid) == s';
    OneMoved(s, s', pid, t);
  }

  lemma ClaimedLasts(s: State, pid: nat, t: nat)
    requires Lasting(s, t) && pid in s.calls && (s.calls[pid].Claimed? || s.calls[pid].Marking?)
    ensures Lasting(Operate(s, pid), t)
  {
    assert !MayDelete(s.calls[pid], t);
    OneMoved(s, Operate(s, pid), pid, t);
  }

  lemma RemovalLasts(s: State, pid: nat, t: nat)
    requires Lasting(s, t) && pid in s.calls
    requires var c := s.calls[pid]; c.Dropping? || c.DropIndex? || c.DropToken? || c.Sweeping? || c.Unindexing?
    ensures Lasting(Operate(s, pid), t)
  {
    assert !MayDelete(s.calls[pid], t);
    OneMoved(s, Operate(s, pid), pid, t);
  }

  lemma LookupLasts(s: State, pid: nat, t: nat)
    requires Lasting(s, t) && pid in s.calls
    requires var c := s.calls[pid]; c.Checking? || c.CheckingRecord? || c.Listing? || c.Done?
    ensures Lasting(Operate(s, pid), t)
  {
    assert !MayDelete(s.calls[pid], t);
    OneMoved(s, Operate(s, pid), pid, t);
  }

  lemma GoLasts(s: State, pid: nat, t: nat)
    requires Inv(s) && Lasting(s, t) && pid in s.calls
    ensures Lasting(Operate(s, pid), t)
  {
    match s.calls[pid] {
      case Holding(_, _, _, _) => SwapLasts(s, pid, t);
      case Saving(_, _, _) => SaveLasts(s, pid, t);
      case Indexing(_, _, _) => IndexLasts(s, pid, t);
      case Deleting(_, _, _) => DeleteLasts(s, pid, t);
      case Claimed(_, _, _) => ClaimedLasts(s, pid, t);
      case Marking(_, _, _, _) => ClaimedLasts(s, pid, t);
      case Checking(_) => LookupLasts(s, pid, t);
      case CheckingRecord(_) => LookupLasts(s, pid, t);
      case Listing(_, _) => LookupLasts(s, pid, t);
      case Done(_) => LookupLasts(s, pid, t);
      case _ => RemovalLasts(s, pid, t);
    }
  }

  lemma SweepLasts(s: State, pid: nat, u: nat, t: nat)
    requires Lasting(s, t) && pid in s.calls && s.calls[pid].Sweeping?
    ensures Lasting(SweepStep(s, pid, u), t)
  {
    assert !MayDelete(s.calls[pid], t);
    OneMoved(s, SweepStep(s, pid, u), pid, t);
  }

  lemma BeginLasts(s: State, pid: nat, req: Request, granted: bool, t: nat)
    requires Lasting(s, t) && pid !in s.calls
    ensures Lasting(Step(s, Begin(pid, req, granted)), t)
  {
    OneMoved(s, Step(s, Begin(pid, req, granted)), pid, t);
  }

  lemma RootLasts(s: State, pid: nat, login: Login, t: nat)
    requires Lasting(s, t) && pid !in s.calls
    ensures Lasting(RootStep(s, pid, login), t)
  {
    OneMoved(s, RootStep(s, pid, login), pid, t);
  }

  lemma EnvironmentLasts(s: State, e: Event, t: nat)
    requires Lasting(s, t) && (e.Tick? || e.SetUser? || e.Expire? || e.Forget?) && e != Expire(t)
    ensures Lasting(Step(s, e), t)
  {
    assert forall p :: p in s.calls ==> !MayDelete(s.calls[p], t);
  }

  lemma StepLasts(s: State, e: Event, t: nat)
    requires Inv(s) && Lasting(s, t) && e != Expire(t)
    ensures Lasting(Step(s, e), t)
  {
    match e {
      case Go(pid) =>
        if pid in s.calls {
          GoLasts(s, pid, t);
        }
      case SweepOne(pid, u) =>
        if pid in s.calls && s.calls[pid].Sweeping? {
          SweepLasts(s, pid, u, t);
        }
      case Begin(pid, req, granted) =>
        if pid !in s.calls {
          BeginLasts(s, pid, req, granted, t);
        }
      case Root(pid, login) =>
        if pid !in s.calls {
          RootLasts(s, pid, login, t);
        }
      case _ => EnvironmentLasts(s, e, t);
    }
  }

  // ----- a replay that is certain to be noticed -----

  /** The lookup of call `q` has noticed the replay, or will. */
  ghost predicate Caught(s: State, q: nat, t: nat) {
    && q in s.calls
    && match s.calls[q]
       case Checking(u) => u == t && (t in s.consumed || Lasting(s, t))
       case CheckingRecord(u) => u == t && Lasting(s, t)
       case Listing(_, replay) => replay
       case Sweeping(_, _, replay) => replay
       case Unindexing(_, _, _, replay) => replay
       case Done(outcome) => outcome == Replayed
       case _ => false
  }

  lemma LookupCaught(s: State, q: nat, t: nat)
    requires Caught(s, q, t) && (s.calls[q].Checking? || s.calls[q].CheckingRecord?)
    ensures Caught(Operate(s, q), q, t)
  {
    if s.calls[q].Checking? {
      assert Operate(s, q) == Set(s, q, MarkerRead(s, t));
      if t !in s.consumed {
        OneMoved(s, Operate(s, q), q, t);
      }
    } else {
      assert Operate(s, q) == Set(s, q, RecordRead(s, t));
    }
  }

  lemma SweepCaught(s: State, e: Event, q: nat, t: nat)
    requires Caught(s, q, t) && OwnStep(e, q) && !s.calls[q].Checking? && !s.calls[q].CheckingRecord?
    ensures Caught(Step(s, e), q, t)
  {
  }

  lemma OwnStepCaught(s: State, e: Event, q: nat, t: nat)
    requires Inv(s) && Caught(s, q, t) && OwnStep(e, q)
    ensures Caught(Step(s, e), q, t)
  {
    if s.calls[q].Checking? || s.calls[q].CheckingRecord? {
      if e.Go? {
        LookupCaught(s, q, t);
      }
    } else {
      SweepCaught(s, e, q, t);
    }
  }

  lemma StepCaught(s: State, e: Event, q: nat, t: nat)
    requires Inv(s) && Caught(s, q, t) && e != Forget(t) && e != Expire(t)
    ensures Caught(Step(s, e), q, t)
  {
    if OwnStep(e, q) {
      OwnStepCaught(s, e, q, t);
    } else {
      StepLeavesOthers(s, e, q);
      if Lasting(s, t) {
        StepLasts(s, e, t);
      }
      if t in s.consumed {
        MarkerStays(s, e, t);
      }
    }
  }

  lemma MarkerStays(s: State, e: Event, t: nat)
    requires t in s.consumed && e != Forget(t)
    ensures t in Step(s, e).consumed
  {
    if e.Go? && e.pid in s.calls {
      OperateKeepsMarker(s, e.pid, t);
    }
  }

  lemma OperateKeepsMarker(s: State, pid: nat, t: nat)
    requires t in s.consumed && pid in s.calls
    ensures t in Operate(s, pid).consumed
  {
    var c := s.calls[pid];
    if c.Holding? || c.Saving? || c.Indexing? || c.Deleting? {
      WriteKeepsMarker(s, pid, t);
    } else {
      RestKeepsMarker(s, pid, t);
    }
  }

  lemma WriteKeepsMarker(s: State, pid: nat, t: nat)
    requires t in s.consumed && pid in s.calls
    requires var c := s.calls[pid]; c.Holding? || c.Saving? || c.Indexing? || c.Deleting?
    ensures t in Operate(s, pid).consumed
  {
    match s.calls[pid] {
      case Holding(req, e, rev, now) => assert Operate(s, pid) == SwapStep(s, pid, req, e, rev, now);
      case Saving(e, family, source) => assert Operate(s, pid) == SaveStep(s, pid, e, family, source);
      case Indexing(u, user, source) => assert Operate(s, pid) == IndexStep(s, pid, u, user, source);
      case Deleting(u, req, now) => assert Operate(s, pid) == DeleteStep(s, pid, u, req, now);
    }
  }

  lemma RestKeepsMarker(s: State, pid: nat, t: nat)
    requires t in s.consumed && pid in s.calls
    requires var c := s.calls[pid]; !(c.Holding? || c.Saving? || c.Indexing? || c.Deleting?)
    ensures t in Operate(s, pid).consumed
  {
  }

  lemma {:induction false} RunCaught(s: State, es: seq<Event>, q: nat, t: nat)
    requires Inv(s) && Caught(s, q, t) && Undisturbed(es, t)
    ensures Inv(Run(s, es)) && Caught(Run(s, es), q, t)
  {
    if es != [] {
      RunCaught(s, es[..|es| - 1], q, t);
      StepCaught(Run(s, es[..|es| - 1]), es[|es| - 1], q, t);
      StepKeepsInv(Run(s, es[..|es| - 1]), es[|es| - 1]);
    }
  }

  // ----- a record that can be deleted in between -----

  /** The lookup has missed the marker and goes on to the record. */
  ghost predicate AtRecord(s: State, q: nat, t: nat) { q in s.calls && s.calls[q] == CheckingRecord(t) }

  /** A step of others on the way to the deletion. */
  lemma Onwards(s: State, e: Event, q: nat, t: nat)
    requires Inv(s) && AtRecord(s, q, t) && !OwnStep(e, q)
    ensures Inv(Step(s, e)) && AtRecord(Step(s, e), q, t)
  {
    StepKeepsInv(s, e);
    StepLeavesOthers(s, e, q);
  }

  lemma After(s: State, e: Event, es: seq<Event>)
    ensures Run(s, [e] + es) == Run(Step(s, e), es)
  {
    OneStep(s, e);
    RunConcat(s, [e], es);
  }

  /** How far a call is from the deletion. */
  function Distance(c: Call): nat {
    match c
    case Claimed(_, _, _) => 5
    case Saving(_, _, _) => 4
    case Indexing(_, _, _) => 3
    case Marking(_, _, _, _) => 2
    case Dropping(_) => 3
    case DropIndex(_) => 2
    case Unindexing(_, _, _, _) => 2
    case _ => 1
  }

  /** The call got closer, or the token is indexed, or the record has gone. */
  ghost predicate Closer(s: State, s': State, p: nat, t: nat) {
    || !IsSpent(s', t) || t in s'.index
    || (p in s.calls && p in s'.calls && MayDelete(s'.calls[p], t) && Distance(s'.calls[p]) < Distance(s.calls[p]))
  }

  lemma SavingCloser(s: State, p: nat, t: nat)
    requires IsSpent(s, t) && t < s.drawn && p in s.calls && MayDelete(s.calls[p], t) && s.calls[p].Saving?
    ensures Closer(s, Operate(s, p), p, t)
  {
    var c := s.calls[p];
    var s' := SaveStep(s, p, c.entry, c.family, c.source);
    assert Operate(s, p) == s';
    assert s'.calls[p] == Indexing(s.drawn, c.entry.login.user, c.source);
  }

  lemma IndexingCloser(s: State, p: nat, t: nat)
    requires IsSpent(s, t) && p in s.calls && MayDelete(s.calls[p], t) && s.calls[p].Indexing?
    ensures Closer(s, Operate(s, p), p, t)
  {
    var c := s.calls[p];
    var s' := IndexStep(s, p, c.token, c.user, c.source);
    assert Operate(s, p) == s';
    if c.token != t {
      assert s'.calls[p] == Marking(c.token, c.user, c.source.req, c.source.now);
    }
  }

  lemma DeletingCloser(s: State, p: nat, t: nat)
    requires p in s.calls && MayDelete(s.calls[p], t) && s.calls[p].Deleting?
    ensures Closer(s, Operate(s, p), p, t)
  {
    var c := s.calls[p];
    assert Operate(s, p) == DeleteStep(s, p, c.token, c.req, c.now);
  }

  lemma RemovalCloser(s: State, p: nat, t: nat)
    requires p in s.calls && MayDelete(s.calls[p], t)
    requires var c := s.calls[p]; c.Dropping? || c.DropIndex? || c.DropToken? || c.Unindexing? || c.Marking?
    requires IsSpent(s, t)
    ensures Closer(s, Operate(s, p), p, t)
  {
  }

  lemma SweepCloser(s: State, p: nat, t: nat)
    requires p in s.calls && s.calls[p].Sweeping? && MayDelete(s.calls[p], t)
    ensures !IsSpent(SweepStep(s, p, t), t)
  {
  }

  /** A rotation whose user is made active goes on to save. */
  lemma ClaimedCloser(s: State, s1: State, p: nat, t: nat)
    requires p in s.calls && s.calls[p].Claimed? && MayDelete(s.calls[p], t)
    requires s1 == Step(s, SetUser(s.calls[p].entry.login.user, true))
    ensures Closer(s1, Step(s1, Go(p)), p, t)
  {
    var c := s.calls[p];
    assert Step(s1, Go(p)) == Set(s1, p, UserChecked(s1, c.req, c.entry, c.now));
  }

  lemma NextCloser(s: State, p: nat, t: nat) returns (e: Event)
    requires Inv(s) && IsSpent(s, t) && p in s.calls && MayDelete(s.calls[p], t) && !s.calls[p].Claimed?
    ensures Closer(s, Step(s, e), p, t) && (e == Go(p) || e == SweepOne(p, t))
  {
    var c := s.calls[p];
    e := Go(p);
    if c.Saving? {
      assert TokenOk(s, t);
      SavingCloser(s, p, t);
    } else if c.Indexing? {
      IndexingCloser(s, p, t);
    } else if c.Deleting? {
      DeletingCloser(s, p, t);
    } else if c.Sweeping? {
      e := SweepOne(p, t);
      SweepCloser(s, p, t);
    } else {
      RemovalCloser(s, p, t);
    }
  }

  ghost predicate Gone(s: State, es: seq<Event>, q: nat, t: nat) {
    Undisturbed(es, t) && AtRecord(Run(s, es), q, t) && !IsSpent(Run(s, es), t)
  }

  lemma GoneAfter(s: State, e: Event, es: seq<Event>, q: nat, t: nat)
    requires Gone(Step(s, e), es, q, t) && e != Forget(t) && e != Expire(t)
    ensures Gone(s, [e] + es, q, t)
  {
    After(s, e, es);
  }

  lemma SameOwner(s: State, t: nat)
    requires Inv(s) && IsSpent(s, t) && t in s.index
    ensures s.tokens[t].value.user == s.index[t] && (t in s.consumed ==> s.consumed[t] == s.index[t])
  {
    assert TokenOk(s, t) && IndexOk(s, t);
    assert t in s.consumed ==> MarksOwner(s, t);
  }

  lemma FoundOut(s: State, p: nat, t: nat) returns (es: seq<Event>)
    requires Inv(s) && IsSpent(s, t) && t in s.index && p !in s.calls
    ensures Run(s, es) == Set(s, p, Listing(s.index[t], true)) && Undisturbed(es, t)
  {
    SameOwner(s, t);
    es := [Begin(p, Request(t, "", None), true)] + [Go(p)];
    Presented(s, p, t);
    if t !in s.consumed {
      var s2, s3 := Set(s, p, CheckingRecord(t)), Set(s, p, Listing(s.index[t], true));
      RecordFound(s, s2, p, t);
      Extended(s, es, Go(p), s2, s3);
      es := es + [Go(p)];
    }
  }

  lemma Extended(s: State, es: seq<Event>, e: Event, s1: State, s2: State)
    requires Run(s, es) == s1 && Step(s1, e) == s2
    ensures Run(s, es + [e]) == s2
  {
    RunThen(s, es, e);
  }

  lemma Presented(s: State, p: nat, t: nat)
    requires IsSpent(s, t) && p !in s.calls
    ensures Run(s, [Begin(p, Request(t, "", None), true)] + [Go(p)]) == Set(s, p, MarkerRead(s, t))
  {
    Looked(s, p, Request(t, "", None));
  }

  lemma ListedGone(s: State, p: nat, q: nat, t: nat)
    requires AtRecord(s, q, t) && p in s.calls && p != q && t in s.index && s.calls[p] == Listing(s.index[t], true)
    ensures Gone(s, [Go(p), SweepOne(p, t)], q, t)
  {
    var s1 := Set(s, p, Sweeping(s.index[t], Indexed(s, s.index[t]), true));
    assert Step(s, Go(p)) == s1;
    assert [Go(p), SweepOne(p, t)] == [Go(p)] + [SweepOne(p, t)];
    After(s, Go(p), [SweepOne(p, t)]);
    OneStep(s1, SweepOne(p, t));
    assert Step(s1, SweepOne(p, t)) == SweepStep(s1, p, t);
  }

  /** The token is presented once more, found out, and swept with the user's other tokens. */
  lemma SecondReplay(s: State, q: nat, t: nat) returns (es: seq<Event>)
    requires Inv(s) && AtRecord(s, q, t) && IsSpent(s, t) && t in s.index
    ensures Gone(s, es, q, t)
  {
    var p := FreshCall(s.calls);
    var found := FoundOut(s, p, t);
    ListedGone(Set(s, p, Listing(s.index[t], true)), p, q, t);
    RunConcat(s, found, [Go(p), SweepOne(p, t)]);
    es := found + [Go(p), SweepOne(p, t)];
  }

  lemma {:induction false} DeletedBy(s: State, p: nat, q: nat, t: nat) returns (es: seq<Event>)
    requires Inv(s) && AtRecord(s, q, t) && p in s.calls && MayDelete(s.calls[p], t)
    ensures Gone(s, es, q, t)
    decreases Distance(s.calls[p])
  {
    if !IsSpent(s, t) {
      es := [];
    } else if t in s.index {
      es := SecondReplay(s, q, t);
    } else if s.calls[p].Claimed? {
      var active := SetUser(s.calls[p].entry.login.user, true);
      var s1 := Step(s, active);
      Onwards(s, active, q, t);
      ClaimedCloser(s, s1, p, t);
      Onwards(s1, Go(p), q, t);
      var rest := ContinuedBy(s1, Step(s1, Go(p)), p, q, t);
      GoneAfter(s1, Go(p), rest, q, t);
      GoneAfter(s, active, [Go(p)] + rest, q, t);
      es := [active] + ([Go(p)] + rest);
    } else {
      var e := NextCloser(s, p, t);
      Onwards(s, e, q, t);
      var rest := ContinuedBy(s, Step(s, e), p, q, t);
      GoneAfter(s, e, rest, q, t);
      es := [e] + rest;
    }
  }

  lemma ContinuedBy(s: State, s': State, p: nat, q: nat, t: nat) returns (es: seq<Event>)
    requires p in s.calls && Inv(s') && AtRecord(s', q, t) && Closer(s, s', p, t)
    ensures Gone(s', es, q, t)
    decreases Distance(s.calls[p]), 0
  {
    if !IsSpent(s', t) {
      es := [];
    } else if t in s'.index {
      es := SecondReplay(s', q, t);
    } else {
      es := DeletedBy(s', p, q, t);
    }
  }

  // ----- exactly when -----

  /** The marker is missing, and so is the record, or something may delete it first. */
  ghost predicate MayMiss(s: State, t: nat) { t !in s.consumed && !Lasting(s, t) }

  lemma GoneIsUnknown(s: State, q: nat, t: nat, es: seq<Event>)
    requires Gone(s, es, q, t)
    ensures Undisturbed(es + [Go(q)], t) && AnsweredUnknown(Run(s, es + [Go(q)]), q)
  {
    RunThen(s, es, Go(q));
    var s' := Run(s, es);
    assert Step(s', Go(q)) == Set(s', q, RecordRead(s', t));
  }

  lemma GoneSomehow(s: State, q: nat, t: nat) returns (es: seq<Event>)
    requires Inv(s) && AtRecord(s, q, t) && !Lasting(s, t)
    ensures Gone(s, es, q, t)
  {
    es := [];
    if IsSpent(s, t) {
      if t in s.index {
        es := SecondReplay(s, q, t);
      } else {
        var p :| p in s.calls && MayDelete(s.calls[p], t);
        es := DeletedBy(s, p, q, t);
      }
    }
  }

  lemma MarkerMissed(s: State, s1: State, q: nat, t: nat)
    requires q in s.calls && s.calls[q] == Checking(t) && MayMiss(s, t) && s1 == Step(s, Go(q))
    ensures AtRecord(s1, q, t) && !Lasting(s1, t)
  {
    assert s1 == Set(s, q, CheckingRecord(t));
    if Lasting(s1, t) {
      assert forall p :: p in s.calls && p != q ==> !MayDelete(s1.calls[p], t);
    }
  }

  lemma Missed(s: State, q: nat, t: nat) returns (es: seq<Event>)
    requires Inv(s) && q in s.calls && s.calls[q] == Checking(t) && MayMiss(s, t)
    ensures Undisturbed(es, t) && AnsweredUnknown(Run(s, es), q)
  {
    var s1 := Step(s, Go(q));
    StepKeepsInv(s, Go(q));
    MarkerMissed(s, s1, q, t);
    var gone := GoneSomehow(s1, q, t);
    GoneIsUnknown(s1, q, t, gone);
    After(s, Go(q), gone + [Go(q)]);
    es := [Go(q)] + (gone + [Go(q)]);
  }

  /** A call that looks a token up can answer it as unknown, with neither marker nor record
      running out, exactly if the marker is not there and the record is not there either, or
      may be deleted first: by a rotation of the token that has not ended, by the removal of
      an expired token, or by a sweep that has listed it or finds it in the index. In all
      other cases a replay is noticed in every run. */
  lemma MissedIff(s: State, q: nat, t: nat)
    requires Reachable(s) && q in s.calls && s.calls[q] == Checking(t)
    ensures (exists es :: Undisturbed(es, t) && AnsweredUnknown(Run(s, es), q)) <==> MayMiss(s, t)
  {
    ReachableInv(s);
    if MayMiss(s, t) {
      var es := Missed(s, q, t);
      assert Undisturbed(es, t) && AnsweredUnknown(Run(s, es), q);
    } else {
      forall es | Undisturbed(es, t) ensures !AnsweredUnknown(Run(s, es), q) {
        RunCaught(s, es, q, t);
      }
    }
  }
}
