/** The guarantees of refresh-token families, over every run. */
module RefreshSafety {
  import opened Kv
  import opened Refresh

  // ----- the invariant -----

  ghost predicate Known(h: History, t: nat) {
    t in h.family && h.family[t] < |h.roots| && t in h.saved
  }

  /** An entry of a family is its first entry, but for the expiry. */
  ghost predicate Inherits(s: State, f: nat, e: Entry) {
    && f < |s.h.roots|
    && e.login == s.h.roots[f].login && e.issuedAt == s.h.roots[f].issuedAt
  }

  ghost predicate Held(h: History, f: nat, who: Holder) { f in h.holder && h.holder[f] == who }

  ghost predicate Won(h: History, t: nat, pid: nat) { t in h.won && h.won[t] == pid }

  ghost predicate TokenOk(s: State, t: nat)
    requires t in s.tokens
  {
    && t < s.drawn && s.tokens[t].rev > 0 && Known(s.h, t)
    && (s.tokens[t].value.Live? ==>
          && s.tokens[t].value.entry == s.h.saved[t]
          && Held(s.h, s.h.family[t], ByToken(t))
          && t !in s.h.won)
    && (s.tokens[t].value.Spent? ==> s.tokens[t].value.user == s.h.saved[t].login.user)
  }

  ghost predicate SavedOk(s: State, t: nat)
    requires t in s.h.saved
  {
    t < s.drawn && Known(s.h, t) && Inherits(s, s.h.family[t], s.h.saved[t])
  }

  /** The checks a refresh passed, in terms of the family's first entry. */
  ghost predicate Checked(s: State, req: Request, now: nat) {
    && Known(s.h, req.token) && now <= s.clock
    && var root := s.h.roots[s.h.family[req.token]];
    && req.client == root.login.client
    && (root.login.jkt.Some? ==> req.jkt == root.login.jkt)
    && now <= root.issuedAt + s.max && now <= s.h.saved[req.token].expiresAt
  }

  ghost predicate Swapped(s: State, pid: nat, req: Request, now: nat) {
    Checked(s, req, now) && Won(s.h, req.token, pid)
  }

  /** Thirty days after a refresh, but no later than the end of the family. */
  function Until(now: nat, end: nat): nat { if now + 2_592_000 < end then now + 2_592_000 else end }

  /** A saved rotation of the token in `req`. */
  ghost predicate Successor(s: State, pid: nat, t: nat, req: Request, now: nat) {
    && Swapped(s, pid, req, now)
    && Known(s.h, t) && s.h.family[t] == s.h.family[req.token]
    && s.h.saved[t].expiresAt == Until(now, s.h.roots[s.h.family[t]].issuedAt + s.max)
  }

  ghost predicate HoldingOk(s: State, c: Call)
    requires c.Holding?
  {
    && Checked(s, c.req, c.now) && c.rev > 0 && c.req.token < s.drawn && c.entry == s.h.saved[c.req.token]
    && (c.req.token in s.tokens ==>
          c.rev <= s.tokens[c.req.token].rev
          && (c.rev == s.tokens[c.req.token].rev ==> s.tokens[c.req.token].value == Live(c.entry)))
  }

  ghost predicate CallOk(s: State, pid: nat, c: Call) {
    match c
    case Holding(_, _, _, _) => HoldingOk(s, c)
    case Claimed(req, e, now) =>
      Swapped(s, pid, req, now) && e == s.h.saved[req.token] && Held(s.h, s.h.family[req.token], ByCall(pid))
    case Saving(e, f, First) => Inherits(s, f, e) && Held(s.h, f, ByCall(pid))
    case Saving(e, f, Rotation(req, now)) =>
      && Inherits(s, f, e) && Held(s.h, f, ByCall(pid))
      && Swapped(s, pid, req, now) && s.h.family[req.token] == f
          && e.expiresAt == Until(now, s.h.roots[f].issuedAt + s.max)
    case Indexing(t, user, First) => Known(s.h, t) && user == s.h.saved[t].login.user
    case Indexing(t, user, Rotation(req, now)) => Successor(s, pid, t, req, now) && user == s.h.saved[t].login.user
    case Marking(t, user, req, now) => Successor(s, pid, t, req, now) && user == s.h.saved[req.token].login.user
    case Deleting(t, req, now) => Successor(s, pid, t, req, now)
    case Sweeping(_, left, _) => forall t :: t in left ==> t < s.drawn
    case Unindexing(_, _, left, _) => forall t :: t in left ==> t < s.drawn
    case _ => true
  }

  ghost predicate RootsOk(s: State) {
    forall f :: 0 <= f < |s.h.roots| ==>
      s.h.roots[f].issuedAt > 0 && s.h.roots[f].login.authTime > 0
          && s.h.roots[f].expiresAt == s.h.roots[f].issuedAt + SLIDING
  }

  ghost predicate HistoryOk(s: State) {
    && (forall f :: f in s.h.holder ==> f < |s.h.roots|)
    && (forall t :: t in s.h.won ==> Known(s.h, t))
    && (forall t :: t in s.h.family ==> t < s.drawn)
    && (forall t :: t in s.h.saved ==> SavedOk(s, t))
  }

  ghost predicate SuccessOk(s: State, pid: nat, r: Success) {
    Successor(s, pid, r.token, r.req, r.now)
  }

  ghost predicate IndexOk(s: State, t: nat)
    requires t in s.index
  {
    t in s.h.saved && s.index[t] == s.h.saved[t].login.user
  }

  ghost predicate TokensOk(s: State) { forall t :: t in s.tokens ==> TokenOk(s, t) }

  ghost predicate IndexesOk(s: State) { forall t :: t in s.index ==> IndexOk(s, t) }

  /** A marker names the user of the token it stands for. */
  ghost predicate MarksOwner(s: State, t: nat)
    requires t in s.consumed
  {
    t in s.h.saved && s.consumed[t] == s.h.saved[t].login.user
  }

  ghost predicate ConsumedOk(s: State) { forall t :: t in s.consumed ==> MarksOwner(s, t) }

  ghost predicate SuccessesOk(s: State) {
    forall pid :: pid in s.h.successes ==> SuccessOk(s, pid, s.h.successes[pid])
  }

  ghost predicate Core(s: State) {
    && s.clock > 0 && RootsOk(s) && HistoryOk(s) && TokensOk(s) && IndexesOk(s) && ConsumedOk(s) && SuccessesOk(s)
  }

  ghost predicate Inv(s: State) {
    Core(s) && forall pid :: pid in s.calls ==> CallOk(s, pid, s.calls[pid])
  }

  // ----- what a step may change -----

  /** History grows, and no token comes back or changes at one revision. */
  ghost predicate Grows(s: State, s': State) {
    && s'.max == s.max && s.clock <= s'.clock && s.drawn <= s'.drawn
    && s.h.roots <= s'.h.roots
    && (forall t :: t in s.h.family ==> t in s'.h.family && s'.h.family[t] == s.h.family[t])
    && (forall t :: t in s.h.saved ==> t in s'.h.saved && s'.h.saved[t] == s.h.saved[t])
    && (forall t :: t in s.h.won ==> t in s'.h.won && s'.h.won[t] == s.h.won[t])
    && (forall t :: t in s'.tokens && t < s.drawn ==>
          t in s.tokens && s.tokens[t].rev <= s'.tokens[t].rev
          && (s.tokens[t].rev == s'.tokens[t].rev ==> s'.tokens[t] == s.tokens[t]))
  }

  /** Only the call `pid` may take a family over or hand it on. */
  ghost predicate OthersHold(s: State, s': State, pid: nat) {
    forall f, q :: q != pid && Held(s.h, f, ByCall(q)) ==> Held(s'.h, f, ByCall(q))
  }

  ghost predicate KeepsHolding(s: State, s': State, pid: nat) {
    forall f :: Held(s.h, f, ByCall(pid)) ==> Held(s'.h, f, ByCall(pid))
  }

  lemma CallKept(s: State, s': State, pid: nat, c: Call)
    requires Grows(s, s') && KeepsHolding(s, s', pid) && CallOk(s, pid, c)
    ensures CallOk(s', pid, c)
  {
    match c {
      case Claimed(req, e, now) => assert Held(s'.h, s.h.family[req.token], ByCall(pid));
      case Saving(e, f, First) => assert Held(s'.h, f, ByCall(pid));
      case Saving(e, f, Rotation(req, now)) => assert Held(s'.h, f, ByCall(pid));
      case _ =>
    }
  }

  ghost predicate GoodMove(s: State, s': State, pid: nat) {
    && Core(s') && Grows(s, s') && OthersHold(s, s', pid)
    && pid in s'.calls && CallOk(s', pid, s'.calls[pid]) && s'.calls == s.calls[pid := s'.calls[pid]]
  }

  lemma Moved(s: State, s': State, pid: nat)
    requires Inv(s) && GoodMove(s, s', pid)
    ensures Inv(s')
  {
    forall q | q in s'.calls ensures CallOk(s', q, s'.calls[q]) {
      if q != pid {
        CallKept(s, s', q, s.calls[q]);
      }
    }
  }

  /** Entries, index and successes noted before stay right. */
  lemma NotesKept(s: State, s': State)
    requires Core(s) && Grows(s, s')
    ensures forall t :: t in s.h.saved ==> SavedOk(s', t)
    ensures s'.index == s.index ==> IndexesOk(s')
    ensures s'.consumed == s.consumed ==> ConsumedOk(s')
    ensures s'.h.successes == s.h.successes ==> SuccessesOk(s')
  {
    forall t | t in s.h.saved ensures SavedOk(s', t) {
      assert SavedOk(s, t);
    }
    IndexKept(s, s');
    ConsumedKept(s, s');
    SuccessesKept(s, s');
  }

  lemma ConsumedKept(s: State, s': State)
    requires ConsumedOk(s) && Grows(s, s')
    ensures forall t :: t in s.consumed ==> t in s'.h.saved && s.consumed[t] == s'.h.saved[t].login.user
  {
    forall t | t in s.consumed ensures t in s'.h.saved && s.consumed[t] == s'.h.saved[t].login.user {
      assert MarksOwner(s, t);
    }
  }

  lemma IndexKept(s: State, s': State)
    requires IndexesOk(s) && Grows(s, s')
    ensures forall t :: t in s.index ==> t in s'.h.saved && s.index[t] == s'.h.saved[t].login.user
  {
    forall t | t in s.index ensures t in s'.h.saved && s.index[t] == s'.h.saved[t].login.user {
      assert IndexOk(s, t);
    }
  }

  lemma SuccessesKept(s: State, s': State)
    requires SuccessesOk(s) && Grows(s, s')
    ensures forall q :: q in s.h.successes ==> SuccessOk(s', q, s.h.successes[q])
  {
    forall q | q in s.h.successes ensures SuccessOk(s', q, s.h.successes[q]) {
      assert SuccessOk(s, q, s.h.successes[q]);
    }
  }

  /** Tokens only removed; markers, index and clock may change. */
  ghost predicate Quiet(s: State, s': State) {
    && s.clock <= s'.clock && s'.drawn == s.drawn && s'.max == s.max && s'.h == s.h
    && (forall t :: t in s'.tokens ==> t in s.tokens && s'.tokens[t] == s.tokens[t])
    && (forall t :: t in s'.index ==> (t in s.index && s'.index[t] == s.index[t]) || IndexOk(s', t))
    && (forall t :: t in s'.consumed ==> (t in s.consumed && s'.consumed[t] == s.consumed[t]) || MarksOwner(s', t))
  }

  lemma QuietKeepsCore(s: State, s': State)
    requires Core(s) && Quiet(s, s')
    ensures Core(s') && Grows(s, s')
  {
    QuietKeepsTokens(s, s');
    NotesKept(s, s');
    IndexKept(s, s');
    ConsumedKept(s, s');
    SuccessesKept(s, s');
  }

  lemma QuietKeepsTokens(s: State, s': State)
    requires TokensOk(s) && Quiet(s, s')
    ensures TokensOk(s')
  {
    forall t | t in s'.tokens ensures TokenOk(s', t) {
      assert TokenOk(s, t);
    }
  }

  lemma QuietKeepsCall(s: State, s': State, pid: nat, c: Call)
    requires Quiet(s, s') && CallOk(s, pid, c) && (forall t :: t in s.tokens ==> s.tokens[t].rev > 0)
    ensures CallOk(s', pid, c)
  {
    match c {
      case Holding(_, _, _, _) =>
      case Claimed(_, _, _) =>
      case Saving(_, _, source) => match source { case First => case Rotation(_, _) => }
      case Indexing(_, _, source) => match source { case First => case Rotation(_, _) => }
      case _ =>
    }
  }

  /** A quiet step that leaves its call at `c`. */
  lemma Settled(s: State, s': State, pid: nat, c: Call)
    requires Core(s) && CallOk(s, pid, c) && Quiet(s, s') && s'.calls == s.calls[pid := c]
    ensures GoodMove(s, s', pid)
  {
    QuietKeepsCore(s, s');
    assert forall t :: t in s.tokens ==> TokenOk(s, t);
    QuietKeepsCall(s, s', pid, c);
  }

  // ----- one lemma per step -----

  lemma BegunOk(s: State, pid: nat, req: Request)
    requires Core(s)
    ensures CallOk(s, pid, Begun(s, req))
  {
    if req.token in s.tokens {
      assert TokenOk(s, req.token);
      if s.tokens[req.token].value.Live? {
        assert SavedOk(s, req.token);
      }
    }
  }

  ghost predicate SwapsOne(s: State, s': State, pid: nat, t: nat, e: Entry, rev: nat)
    requires t in s.h.family
  {
    s' == s.(tokens := Cas(s.tokens, t, Spent(e.login.user), rev), calls := s'.calls,
             h := s.h.(holder := s.h.holder[s.h.family[t] := ByCall(pid)], won := s.h.won[t := pid]))
  }

  lemma SwapGrows(s: State, s': State, pid: nat, t: nat, e: Entry, rev: nat)
    requires TokensOk(s) && Known(s.h, t) && t in s.tokens && s.tokens[t] == Cell(Live(e), rev)
             && SwapsOne(s, s', pid, t, e, rev)
    ensures Grows(s, s') && OthersHold(s, s', pid)
  {
    assert TokenOk(s, t);
  }

  lemma SwapTokens(s: State, s': State, pid: nat, t: nat, e: Entry, rev: nat)
    requires TokensOk(s) && Known(s.h, t) && t in s.tokens && s.tokens[t] == Cell(Live(e), rev)
             && SwapsOne(s, s', pid, t, e, rev)
    ensures TokensOk(s')
  {
    assert TokenOk(s, t);
    forall u | u in s'.tokens ensures TokenOk(s', u) {
      assert TokenOk(s, u);
    }
  }

  lemma SwapCore(s: State, s': State, pid: nat, t: nat, e: Entry, rev: nat)
    requires Core(s) && Known(s.h, t) && t in s.tokens && s.tokens[t] == Cell(Live(e), rev)
             && SwapsOne(s, s', pid, t, e, rev)
    ensures Core(s') && Grows(s, s') && OthersHold(s, s', pid)
  {
    SwapGrows(s, s', pid, t, e, rev);
    SwapTokens(s, s', pid, t, e, rev);
    NotesKept(s, s');
    assert HistoryOk(s');
  }

  lemma SwapMove(s: State, pid: nat, req: Request, e: Entry, rev: nat, now: nat)
    requires Core(s) && HoldingOk(s, Holding(req, e, rev, now))
    ensures GoodMove(s, SwapStep(s, pid, req, e, rev, now), pid)
  {
    var s' := SwapStep(s, pid, req, e, rev, now);
    if CasOk(s.tokens, req.token, rev) {
      SwapCore(s, s', pid, req.token, e, rev);
    } else {
      Settled(s, s', pid, Done(Rejected));
    }
  }

  lemma UserCheckedOk(s: State, pid: nat, req: Request, e: Entry, now: nat)
    requires Core(s) && CallOk(s, pid, Claimed(req, e, now))
    ensures CallOk(s, pid, UserChecked(s, req, e, now))
  {
    assert SavedOk(s, req.token);
    RotatedInherits(s, s.h.family[req.token], e, now);
  }

  lemma RotatedInherits(s: State, f: nat, e: Entry, now: nat)
    requires RootsOk(s) && Inherits(s, f, e)
    ensures Inherits(s, f, Rotated(e, now, s.clock, s.max))
    ensures Rotated(e, now, s.clock, s.max).expiresAt == Until(now, s.h.roots[f].issuedAt + s.max)
  {
  }

  ghost predicate SavesOne(s: State, s': State, e: Entry, f: nat) {
    s' == s.(drawn := s.drawn + 1, tokens := Put(s.tokens, s.drawn, Live(e)), calls := s'.calls,
             h := s.h.(family := s.h.family[s.drawn := f], saved := s.h.saved[s.drawn := e],
                       holder := s.h.holder[f := ByToken(s.drawn)]))
  }

  lemma SaveGrows(s: State, s': State, pid: nat, e: Entry, f: nat)
    requires Core(s) && Held(s.h, f, ByCall(pid)) && SavesOne(s, s', e, f)
    ensures Grows(s, s') && OthersHold(s, s', pid)
  {
    assert forall t :: t in s.tokens ==> TokenOk(s, t);
    assert forall t :: t in s.h.saved ==> SavedOk(s, t);
  }

  lemma SaveTokens(s: State, s': State, pid: nat, e: Entry, f: nat)
    requires TokensOk(s) && Inherits(s, f, e) && Held(s.h, f, ByCall(pid)) && SavesOne(s, s', e, f)
    requires forall t :: t in s.h.won ==> t < s.drawn
    ensures TokensOk(s')
  {
    forall t | t in s'.tokens ensures TokenOk(s', t) {
      if t != s.drawn {
        assert TokenOk(s, t);
      }
    }
  }

  lemma SaveHistory(s: State, s': State, e: Entry, f: nat)
    requires HistoryOk(s) && Inherits(s, f, e) && SavesOne(s, s', e, f)
             && (forall t :: t in s.h.saved ==> SavedOk(s', t))
    ensures HistoryOk(s')
  {
    assert SavedOk(s', s.drawn);
  }

  lemma SaveCore(s: State, s': State, pid: nat, e: Entry, f: nat)
    requires Core(s) && Inherits(s, f, e) && Held(s.h, f, ByCall(pid)) && SavesOne(s, s', e, f)
    ensures Core(s') && Grows(s, s') && OthersHold(s, s', pid)
  {
    SaveGrows(s, s', pid, e, f);
    NotesKept(s, s');
    SaveTokens(s, s', pid, e, f);
    SaveHistory(s, s', e, f);
  }

  lemma SaveMove(s: State, pid: nat, e: Entry, f: nat, source: Source)
    requires Core(s) && CallOk(s, pid, Saving(e, f, source))
    ensures GoodMove(s, SaveStep(s, pid, e, f, source), pid)
  {
    var s' := SaveStep(s, pid, e, f, source);
    assert Inherits(s, f, e) && Held(s.h, f, ByCall(pid));
    SaveCore(s, s', pid, e, f);
    SavedCallOk(s, s', pid, e, f, source);
  }

  lemma SavedCallOk(s: State, s': State, pid: nat, e: Entry, f: nat, source: Source)
    requires CallOk(s, pid, Saving(e, f, source)) && Grows(s, s') && SavesOne(s, s', e, f)
    ensures CallOk(s', pid, Indexing(s.drawn, e.login.user, source))
  {
    match source {
      case First =>
      case Rotation(req, now) => assert Swapped(s, pid, req, now);
    }
  }

  lemma DeleteMove(s: State, pid: nat, t: nat, req: Request, now: nat)
    requires Core(s) && CallOk(s, pid, Deleting(t, req, now))
    ensures GoodMove(s, DeleteStep(s, pid, t, req, now), pid)
  {
    RecordDropped(s, pid, req.token, Done(Issued(t)));
    var s1 := Set(s, pid, Done(Issued(t))).(tokens := Delete(s.tokens, req.token));
    assert SuccessOk(s1, pid, Success(req, now, t));
    SuccessNoted(s1, DeleteStep(s, pid, t, req, now), pid, Success(req, now, t));
  }

  lemma RecordDropped(s: State, pid: nat, t: nat, c: Call)
    requires Core(s) && CallOk(s, pid, c)
    ensures GoodMove(s, Set(s, pid, c).(tokens := Delete(s.tokens, t)), pid)
  {
    Settled(s, Set(s, pid, c).(tokens := Delete(s.tokens, t)), pid, c);
  }

  lemma SuccessNoted(s: State, s': State, pid: nat, r: Success)
    requires Core(s) && SuccessOk(s, pid, r) && s' == s.(h := s.h.(successes := s.h.successes[pid := r]))
    ensures Core(s') && Grows(s, s')
  {
    SuccessesNoted(s, s', pid, r);
    TokensNoted(s, s');
    NotesKept(s, s');
  }

  lemma SuccessesNoted(s: State, s': State, pid: nat, r: Success)
    requires SuccessesOk(s) && SuccessOk(s, pid, r) && s' == s.(h := s.h.(successes := s.h.successes[pid := r]))
    ensures SuccessesOk(s') && Grows(s, s')
  {
    forall q | q in s'.h.successes ensures SuccessOk(s', q, s'.h.successes[q]) {
      if q != pid {
        assert SuccessOk(s, q, s.h.successes[q]);
      }
    }
  }

  lemma TokensNoted(s: State, s': State)
    requires TokensOk(s) && s' == s.(h := s.h.(successes := s'.h.successes))
    ensures TokensOk(s')
  {
    forall t | t in s'.tokens ensures TokenOk(s', t) {
      assert TokenOk(s, t);
    }
  }

  lemma RootMove(s: State, pid: nat, login: Login)
    requires Core(s)
    ensures GoodMove(s, RootStep(s, pid, login), pid)
  {
    var s' := RootStep(s, pid, login);
    NotesKept(s, s');
    RootTokens(s, s', pid);
  }

  lemma RootTokens(s: State, s': State, pid: nat)
    requires Core(s) && Grows(s, s') && s'.tokens == s.tokens && s'.drawn == s.drawn
    requires s'.h.saved == s.h.saved && s'.h.won == s.h.won && s'.h.holder == s.h.holder[|s.h.roots| := ByCall(pid)]
    ensures TokensOk(s')
  {
    forall t | t in s'.tokens ensures TokenOk(s', t) {
      assert TokenOk(s, t);
    }
  }

  /** The removal of an expired token. */
  lemma DropMove(s: State, pid: nat)
    requires Core(s) && pid in s.calls && (s.calls[pid].Dropping? || s.calls[pid].DropIndex? || s.calls[pid].DropToken?)
    ensures GoodMove(s, Operate(s, pid), pid)
  {
    match s.calls[pid] {
      case Dropping(t) => Settled(s, Operate(s, pid), pid, if IsLive(s, t) then DropIndex(t) else DropToken(t));
      case DropIndex(t) => Settled(s, Operate(s, pid), pid, DropToken(t));
      case DropToken(_) => Settled(s, Operate(s, pid), pid, Done(Rejected));
    }
  }

  lemma CheckMove(s: State, pid: nat)
    requires Core(s) && pid in s.calls && (s.calls[pid].Checking? || s.calls[pid].CheckingRecord?)
    ensures GoodMove(s, Operate(s, pid), pid)
  {
    match s.calls[pid] {
      case Checking(t) => Settled(s, Operate(s, pid), pid, MarkerRead(s, t));
      case CheckingRecord(t) => Settled(s, Operate(s, pid), pid, RecordRead(s, t));
    }
  }

  lemma ListMove(s: State, pid: nat, user: string, replay: bool)
    requires Core(s) && pid in s.calls && s.calls[pid] == Listing(user, replay)
    ensures GoodMove(s, Operate(s, pid), pid)
  {
    forall t | t in Indexed(s, user) ensures t < s.drawn {
      assert IndexOk(s, t) && SavedOk(s, t);
    }
    Settled(s, Operate(s, pid), pid, Sweeping(user, Indexed(s, user), replay));
  }

  lemma SweptMove(s: State, pid: nat)
    requires Core(s) && pid in s.calls && s.calls[pid].Sweeping? && CallOk(s, pid, s.calls[pid])
    ensures GoodMove(s, Operate(s, pid), pid)
  {
    var c := s.calls[pid];
    if c.left == {} {
      assert Operate(s, pid) == Set(s, pid, Done(if c.replay then Replayed else Rejected));
      Settled(s, Operate(s, pid), pid, Done(if c.replay then Replayed else Rejected));
    } else {
      assert Operate(s, pid) == s;
      Settled(s, s, pid, c);
    }
  }

  lemma UnindexMove(s: State, pid: nat)
    requires Core(s) && pid in s.calls && s.calls[pid].Unindexing? && CallOk(s, pid, s.calls[pid])
    ensures GoodMove(s, Operate(s, pid), pid)
  {
    var c := s.calls[pid];
    Settled(s, Operate(s, pid), pid, Sweeping(c.user, c.left, c.replay));
  }

  lemma DoneMove(s: State, pid: nat)
    requires Core(s) && pid in s.calls && s.calls[pid].Done?
    ensures GoodMove(s, Operate(s, pid), pid)
  {
    Settled(s, Operate(s, pid), pid, s.calls[pid]);
  }

  lemma IndexMove(s: State, pid: nat, t: nat, user: string, source: Source)
    requires Core(s) && CallOk(s, pid, Indexing(t, user, source))
    ensures GoodMove(s, IndexStep(s, pid, t, user, source), pid)
  {
    match source {
      case First => IndexedMove(s, pid, t, user, Done(Issued(t)));
      case Rotation(req, now) =>
        SameOwner(s, pid, t, req, now);
        IndexedMove(s, pid, t, user, Marking(t, user, req, now));
    }
  }

  lemma SameOwner(s: State, pid: nat, t: nat, req: Request, now: nat)
    requires HistoryOk(s) && Successor(s, pid, t, req, now)
    ensures s.h.saved[t].login.user == s.h.saved[req.token].login.user
  {
    assert SavedOk(s, t) && SavedOk(s, req.token);
  }

  lemma IndexedMove(s: State, pid: nat, t: nat, user: string, c: Call)
    requires Core(s) && CallOk(s, pid, c) && Known(s.h, t) && user == s.h.saved[t].login.user
    ensures GoodMove(s, Set(s, pid, c).(index := s.index[t := user]), pid)
  {
    Settled(s, Set(s, pid, c).(index := s.index[t := user]), pid, c);
  }

  lemma MarkMove(s: State, pid: nat, t: nat, user: string, req: Request, now: nat)
    requires Core(s) && pid in s.calls && s.calls[pid] == Marking(t, user, req, now) && CallOk(s, pid, s.calls[pid])
    ensures GoodMove(s, Operate(s, pid), pid)
  {
    Settled(s, Operate(s, pid), pid, Deleting(t, req, now));
  }

  lemma SweepMove(s: State, pid: nat, t: nat)
    requires Core(s) && pid in s.calls && s.calls[pid].Sweeping? && CallOk(s, pid, s.calls[pid])
    ensures GoodMove(s, SweepStep(s, pid, t), pid)
  {
    var c := s.calls[pid];
    if t in c.left {
      TokenSweptMove(s, SweepStep(s, pid, t), pid, t, Unindexing(c.user, t, c.left - {t}, c.replay));
    } else {
      Settled(s, s, pid, c);
    }
  }

  lemma TokenSweptMove(s: State, s': State, pid: nat, t: nat, c: Call)
    requires Core(s) && CallOk(s, pid, c) && s' == Set(s, pid, c).(tokens := Delete(s.tokens, t))
    ensures GoodMove(s, s', pid)
  {
    Settled(s, s', pid, c);
  }

  lemma RotationMove(s: State, pid: nat)
    requires Core(s) && pid in s.calls && CallOk(s, pid, s.calls[pid])
    requires var c := s.calls[pid]; c.Holding? || c.Claimed? || c.Indexing? || c.Marking? || c.Saving? || c.Deleting?
    ensures GoodMove(s, Operate(s, pid), pid)
  {
    match s.calls[pid] {
      case Holding(req, e, rev, now) => SwapMove(s, pid, req, e, rev, now);
      case Claimed(req, e, now) => ClaimedMove(s, pid, req, e, now);
      case Indexing(t, user, source) => IndexMove(s, pid, t, user, source);
      case Marking(t, user, req, now) => MarkMove(s, pid, t, user, req, now);
      case Saving(e, f, source) => SaveMove(s, pid, e, f, source);
      case Deleting(t, req, now) => DeleteMove(s, pid, t, req, now);
    }
  }

  lemma ClaimedMove(s: State, pid: nat, req: Request, e: Entry, now: nat)
    requires Core(s) && pid in s.calls && s.calls[pid] == Claimed(req, e, now) && CallOk(s, pid, s.calls[pid])
    ensures GoodMove(s, Operate(s, pid), pid)
  {
    UserCheckedOk(s, pid, req, e, now);
    Settled(s, Operate(s, pid), pid, UserChecked(s, req, e, now));
  }

  lemma GoMove(s: State, pid: nat)
    requires Core(s) && pid in s.calls && CallOk(s, pid, s.calls[pid])
    ensures GoodMove(s, Operate(s, pid), pid)
  {
    var c := s.calls[pid];
    if c.Holding? || c.Claimed? || c.Indexing? || c.Marking? || c.Saving? || c.Deleting? {
      RotationMove(s, pid);
    } else {
      RemovalMove(s, pid);
    }
  }

  lemma RemovalMove(s: State, pid: nat)
    requires Core(s) && pid in s.calls && CallOk(s, pid, s.calls[pid])
    requires var c := s.calls[pid]; !(c.Holding? || c.Claimed? || c.Indexing? || c.Marking? || c.Saving? || c.Deleting?)
    ensures GoodMove(s, Operate(s, pid), pid)
  {
    match s.calls[pid] {
      case Dropping(_) => DropMove(s, pid);
      case DropIndex(_) => DropMove(s, pid);
      case DropToken(_) => DropMove(s, pid);
      case Checking(_) => CheckMove(s, pid);
      case CheckingRecord(_) => CheckMove(s, pid);
      case Listing(user, replay) => ListMove(s, pid, user, replay);
      case Sweeping(_, _, _) => SweptMove(s, pid);
      case Unindexing(_, _, _, _) => UnindexMove(s, pid);
      case Done(_) => DoneMove(s, pid);
    }
  }

  lemma BeginMove(s: State, pid: nat, req: Request, granted: bool)
    requires Core(s) && pid !in s.calls
    ensures GoodMove(s, Step(s, Begin(pid, req, granted)), pid)
  {
    BegunOk(s, pid, req);
    Settled(s, Step(s, Begin(pid, req, granted)), pid, if granted then Begun(s, req) else Done(Rejected));
  }

  lemma StepKeepsInv(s: State, e: Event)
    requires Inv(s)
    ensures Inv(Step(s, e))
  {
    match e {
      case Root(pid, login) =>
        if pid !in s.calls {
          RootMove(s, pid, login);
          Moved(s, Step(s, e), pid);
        }
      case Begin(pid, req, granted) =>
        if pid !in s.calls {
          BeginMove(s, pid, req, granted);
          Moved(s, Step(s, e), pid);
        }
      case Go(pid) =>
        if pid in s.calls {
          GoMove(s, pid);
          Moved(s, Operate(s, pid), pid);
        }
      case SweepOne(pid, t) =>
        if pid in s.calls && s.calls[pid].Sweeping? {
          SweepMove(s, pid, t);
          Moved(s, SweepStep(s, pid, t), pid);
        }
      case _ => Environment(s, e);
    }
  }

  lemma Environment(s: State, e: Event)
    requires Inv(s) && (e.Tick? || e.SetUser? || e.Expire? || e.Forget?)
    ensures Inv(Step(s, e))
  {
    var s' := Step(s, e);
    QuietKeepsCore(s, s');
    forall pid | pid in s.calls ensures CallOk(s', pid, s'.calls[pid]) {
      CallKept(s, s', pid, s.calls[pid]);
    }
  }

  lemma {:induction false} RunKeepsInv(max: nat, clock: nat, users: map<string, bool>, es: seq<Event>)
    requires clock > 0
    ensures Inv(Run(Start(max, clock, users), es))
  {
    if es != [] {
      RunKeepsInv(max, clock, users, es[..|es| - 1]);
      StepKeepsInv(Run(Start(max, clock, users), es[..|es| - 1]), es[|es| - 1]);
    }
  }

  lemma ReachableInv(s: State)
    requires Reachable(s)
    ensures Inv(s)
  {
    var max, clock, users, es :| clock > 0 && s == Run(Start(max, clock, users), es);
    RunKeepsInv(max, clock, users, es);
  }
}
