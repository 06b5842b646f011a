/** Runs from the start in which revocation on replay fails. */
module RefreshRuns {
  import opened Kv
  import opened Refresh
  import opened RefreshSafety
  import opened RefreshFamilies
  import opened RefreshSweeps
  import opened RefreshReplay

  /** A login whose user is active, and the clock it happens at. */
  datatype Setting = Setting(max: nat, clock: nat, users: map<string, bool>, login: Login)

  ghost predicate Active(g: Setting) { g.clock > 0 && g.login.user in g.users && g.users[g.login.user] }

  function Begins(g: Setting): State { Start(g.max, g.clock, g.users) }

  function Entry0(g: Setting): Entry { RootEntry(g.login, g.clock) }

  function Entry1(g: Setting): Entry { Rotated(Entry0(g), g.clock, g.clock, g.max) }

  /** The family's first token is issued. */
  function Rooted(g: Setting): State {
    State(g.max, g.clock, 1, map[0 := Cell(Live(Entry0(g)), 1)], map[0 := g.login.user], map[], g.users,
          map[0 := Done(Issued(0))],
          History([Entry0(g)], map[0 := 0], map[0 := Entry0(g)], map[0 := ByToken(0)], map[], map[]))
  }

  function RootEvents(g: Setting): seq<Event> { [Root(0, g.login)] + [Go(0)] + [Go(0)] }

  lemma RootedRun(g: Setting)
    ensures Run(Begins(g), RootEvents(g)) == Rooted(g)
  {
    var s0, e := Begins(g), Entry0(g);
    OneStep(s0, Root(0, g.login));
    RunThen(s0, [Root(0, g.login)], Go(0));
    RunThen(s0, [Root(0, g.login)] + [Go(0)], Go(0));
    var s1 := Set(s0, 0, Saving(e, 0, First)).(h := s0.h.(roots := [e], holder := map[0 := ByCall(0)]));
    assert Step(s0, Root(0, g.login)) == s1;
    var s2 := SaveStep(s1, 0, e, 0, First);
    assert Step(s1, Go(0)) == s2;
    RootIndexed(g, s2);
  }

  lemma RootIndexed(g: Setting, s: State)
    requires s == Rooted(g).(index := map[], calls := map[0 := Indexing(0, g.login.user, First)])
    ensures Step(s, Go(0)) == Rooted(g)
  {
  }

  /** The first token is presented and swapped. */
  function Swapped0(g: Setting): State {
    var s, req := Rooted(g), RequestFor(0, Entry0(g));
    s.(tokens := map[0 := Cell(Spent(g.login.user), 2)],
       calls := map[0 := Done(Issued(0)), 1 := Claimed(req, Entry0(g), g.clock)],
       h := s.h.(holder := map[0 := ByCall(1)], won := map[0 := 1]))
  }

  function SwapEvents(g: Setting): seq<Event> { [Begin(1, RequestFor(0, Entry0(g)), true)] + [Go(1)] }

  lemma SwappedRun(g: Setting)
    requires g.clock > 0
    ensures Run(Rooted(g), SwapEvents(g)) == Swapped0(g)
  {
    var s, req := Rooted(g), RequestFor(0, Entry0(g));
    OneStep(s, Begin(1, req, true));
    RunThen(s, [Begin(1, req, true)], Go(1));
    var s1 := Set(s, 1, Holding(req, Entry0(g), 1, g.clock));
    assert Step(s, Begin(1, req, true)) == s1;
    assert Step(s1, Go(1)) == SwapStep(s1, 1, req, Entry0(g), 1, g.clock);
    SwapWritten(g, s1, SwapStep(s1, 1, req, Entry0(g), 1, g.clock));
  }

  lemma SwapWritten(g: Setting, s1: State, s2: State)
    requires var req := RequestFor(0, Entry0(g));
             && s1 == Set(Rooted(g), 1, Holding(req, Entry0(g), 1, g.clock))
             && s2 == SwapStep(s1, 1, req, Entry0(g), 1, g.clock)
    ensures s2 == Swapped0(g)
  {
  }

  lemma ReachedBy(g: Setting, es: seq<Event>)
    requires g.clock > 0
    ensures Reachable(Run(Begins(g), es))
  {
  }

  /** From the start, in one run: a token is issued, its rotation swaps it, it is presented
      again, the replay is found and all the user's tokens are swept; then the rotation
      saves token 1, live in the same family. */
  lemma MissedRotation(g: Setting) returns (es: seq<Event>)
    requires Active(g)
    ensures var s := Run(Begins(g), es); 2 in s.calls && s.calls[2] == Done(Replayed) && LiveIn(s, 0, 1)
  {
    RootedRun(g);
    SwappedRun(g);
    RunConcat(Begins(g), RootEvents(g), SwapEvents(g));
    var before := RootEvents(g) + SwapEvents(g);
    ReachedBy(g, before);
    var after := ReplayMissesRotation(Swapped0(g), 1, 2, RequestFor(0, Entry0(g)));
    RunConcat(Begins(g), before, after);
    es := before + after;
  }

  /** The second token is saved and indexed; the first is not marked yet. */
  function Saved1(g: Setting): State {
    var s, req := Swapped0(g), RequestFor(0, Entry0(g));
    s.(tokens := map[0 := Cell(Spent(g.login.user), 2), 1 := Cell(Live(Entry1(g)), 1)], drawn := 2,
       index := map[0 := g.login.user, 1 := g.login.user],
       calls := map[0 := Done(Issued(0)), 1 := Marking(1, g.login.user, req, g.clock)],
       h := s.h.(family := map[0 := 0, 1 := 0], saved := map[0 := Entry0(g), 1 := Entry1(g)],
           holder := map[0 := ByToken(1)]))
  }

  lemma UserFound(g: Setting, s1: State)
    requires Active(g) && s1 == Step(Swapped0(g), Go(1))
    ensures s1 == Set(Swapped0(g), 1, Saving(Entry1(g), 0, Rotation(RequestFor(0, Entry0(g)), g.clock)))
  {
  }

  /** The second token is saved; its index entry is not. */
  function Unindexed1(g: Setting): State {
    Saved1(g).(index := map[0 := g.login.user],
               calls := map[0 := Done(Issued(0)),
                            1 := Indexing(1, g.login.user, Rotation(RequestFor(0, Entry0(g)), g.clock))])
  }

  lemma EntrySaved(g: Setting, s1: State)
    requires s1 == Set(Swapped0(g), 1, Saving(Entry1(g), 0, Rotation(RequestFor(0, Entry0(g)), g.clock)))
    ensures Step(s1, Go(1)) == Unindexed1(g)
  {
    assert Step(s1, Go(1)) == SaveStep(s1, 1, Entry1(g), 0, s1.calls[1].source);
    SaveWritten(g, s1, SaveStep(s1, 1, Entry1(g), 0, s1.calls[1].source));
  }

  lemma SaveWritten(g: Setting, s1: State, s2: State)
    requires s1 == Set(Swapped0(g), 1, Saving(Entry1(g), 0, Rotation(RequestFor(0, Entry0(g)), g.clock)))
    requires s2 == SaveStep(s1, 1, Entry1(g), 0, s1.calls[1].source)
    ensures s2 == Unindexed1(g)
  {
    SavePut(g, s1.tokens, s2.tokens);
    SaveNoted(g, s1.h, s2.h);
  }

  lemma SavePut(g: Setting, ts: Table<nat, Record>, ts': Table<nat, Record>)
    requires ts == Swapped0(g).tokens && ts' == Put(ts, 1, Live(Entry1(g)))
    ensures ts' == Unindexed1(g).tokens
  {
  }

  lemma SaveNoted(g: Setting, h: History, h': History)
    requires h == Swapped0(g).h
    requires h' == h.(family := h.family[1 := 0], saved := h.saved[1 := Entry1(g)], holder := h.holder[0 := ByToken(1)])
    ensures h' == Unindexed1(g).h
  {
  }

  lemma EntryIndexed(g: Setting)
    ensures Step(Unindexed1(g), Go(1)) == Saved1(g)
  {
    var s := Unindexed1(g);
    assert Step(s, Go(1)) == IndexStep(s, 1, 1, g.login.user, s.calls[1].source);
  }

  function SaveEvents(g: Setting): seq<Event> {
    RootEvents(g) + SwapEvents(g) + [Go(1)] + [Go(1)] + [Go(1)]
  }

  lemma SavedRun(g: Setting)
    requires Active(g)
    ensures Run(Begins(g), SaveEvents(g)) == Saved1(g)
  {
    RootedRun(g);
    SwappedRun(g);
    RunConcat(Begins(g), RootEvents(g), SwapEvents(g));
    ThreeMore(Begins(g), RootEvents(g) + SwapEvents(g), Go(1), Go(1), Go(1));
    var s1 := Step(Swapped0(g), Go(1));
    UserFound(g, s1);
    EntrySaved(g, s1);
    EntryIndexed(g);
  }

  function UnnoticedEvents(g: Setting): seq<Event> {
    [Begin(2, RequestFor(0, Entry0(g)), true), Go(2), Go(1), Go(1), Go(2)]
  }

  /** In one run from the start a swapped token is presented again and answered as an
      unknown one. */
  lemma UnnoticedReplay(g: Setting)
    requires Active(g)
    ensures 0 in Run(Begins(g), SaveEvents(g)).h.won
    ensures var s := Run(Begins(g), SaveEvents(g) + UnnoticedEvents(g));
            2 in s.calls && s.calls[2] == Done(Rejected) && 1 in s.calls && s.calls[1] == Done(Issued(1))
  {
    SavedRun(g);
    ReachedBy(g, SaveEvents(g));
    var s1 := ReplayUnnoticed(Saved1(g), 1, 2, g.login.client, g.login.jkt);
    RunConcat(Begins(g), SaveEvents(g), UnnoticedEvents(g));
  }

  /** The rotation is over; token 1 is about to be rotated, and token 0 comes back. */
  function Rotated0(g: Setting): State {
    var s := Saved1(g);
    s.(tokens := map[1 := Cell(Live(Entry1(g)), 1)], consumed := map[0 := g.login.user],
       calls := map[0 := Done(Issued(0)), 1 := Done(Issued(1))],
       h := s.h.(successes := map[1 := Success(RequestFor(0, Entry0(g)), g.clock, 1)]))
  }

  function Marked0(g: Setting): State {
    Set(Saved1(g), 1, Deleting(1, RequestFor(0, Entry0(g)), g.clock)).(consumed := map[0 := g.login.user])
  }

  lemma TokenMarked(g: Setting)
    ensures Step(Saved1(g), Go(1)) == Marked0(g)
  {
  }

  lemma TokenDeleted(g: Setting)
    ensures Step(Marked0(g), Go(1)) == Rotated0(g)
  {
    var s := Marked0(g);
    assert Step(s, Go(1)) == DeleteStep(s, 1, 1, RequestFor(0, Entry0(g)), g.clock);
  }

  function BeforeSweep(g: Setting): State {
    var s := Rotated0(g);
    s.(calls := s.calls[3 := Holding(RequestFor(1, Entry1(g)), Entry1(g), 1, g.clock)][2 :=
        Listing(g.login.user, true)])
  }

  lemma SecondPresented(g: Setting, s1: State)
    requires g.clock > 0 && s1 == Step(Rotated0(g), Begin(3, RequestFor(1, Entry1(g)), true))
    ensures s1 == Set(Rotated0(g), 3, Holding(RequestFor(1, Entry1(g)), Entry1(g), 1, g.clock))
  {
    assert InTime(Entry1(g), g.clock, g.max);
  }

  lemma FirstComesBack(g: Setting, s1: State, s2: State)
    requires s1 == Set(Rotated0(g), 3, Holding(RequestFor(1, Entry1(g)), Entry1(g), 1, g.clock))
    requires s2 == Step(s1, Begin(2, RequestFor(0, Entry0(g)), true))
    ensures Step(s2, Go(2)) == BeforeSweep(g)
  {
    assert s2 == Set(s1, 2, Checking(0));
    MarkerLooked(s1, s2, 2, 0);
  }

  function BeforeSweepEvents(g: Setting): seq<Event> {
    SaveEvents(g) + [Go(1)] + [Go(1)]
      + [Begin(3, RequestFor(1, Entry1(g)), true)] + [Begin(2, RequestFor(0, Entry0(g)), true)] + [Go(2)]
  }

  lemma BeforeSweepRun(g: Setting)
    requires Active(g)
    ensures Run(Begins(g), BeforeSweepEvents(g)) == BeforeSweep(g)
  {
    var s0, es := Begins(g), SaveEvents(g);
    SavedRun(g);
    RunThen(s0, es, Go(1));
    RunThen(s0, es + [Go(1)], Go(1));
    TokenMarked(g);
    TokenDeleted(g);
    ThreeMore(s0, es + [Go(1)] + [Go(1)], Begin(3, RequestFor(1, Entry1(g)), true),
        Begin(2, RequestFor(0, Entry0(g)), true), Go(2));
    var s1 := Step(Rotated0(g), Begin(3, RequestFor(1, Entry1(g)), true));
    SecondPresented(g, s1);
    FirstComesBack(g, s1, Step(s1, Begin(2, RequestFor(0, Entry0(g)), true)));
  }

  /** From the start: when the listing comes, no rotation is under way and the family's live
      token is indexed, so nothing is overlooked. A rotation swaps the token after the
      listing, the sweep reports the replay, and token 2 is saved, live in the family. */
  lemma SwappedDuringSweep(g: Setting) returns (es: seq<Event>)
    requires Active(g)
    ensures var s := Run(Begins(g), BeforeSweepEvents(g));
            && Reachable(s) && ListsFamily(s, 2, 0) && !Overlooked(s, 0)
            && var s1 := Run(Step(s, Go(2)), es);
            SweepOver(s1, 2) && s1.calls[2] == Done(Replayed) && LiveIn(s1, 0, 2)
  {
    BeforeSweepRun(g);
    ReachedBy(g, BeforeSweepEvents(g));
    var s := BeforeSweep(g);
    ReachableInv(s);
    NothingOverlooked(g);
    es := SwapDuringSweep(s, 3, 2);
  }

  lemma NothingOverlooked(g: Setting)
    ensures ListsFamily(BeforeSweep(g), 2, 0) && !Overlooked(BeforeSweep(g), 0)
  {
    var s := BeforeSweep(g);
    forall p ensures !Owes(s, 0, p) {
      if p in s.calls {
        assert p == 0 || p == 1 || p == 2 || p == 3;
      }
    }
  }
}
