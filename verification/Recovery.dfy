/** Recovery codes: logins redeem them through a read-modify-write with compare-and-swap
    retries, while others touch the same user record. */
module Recovery {
  import opened Kv

  const MAX_RETRIES: nat := 5

  /** `rest` stands for every other field of the user. */
  datatype User = User(codes: seq<string>, rest: nat)

  /** What a read-modify-write wants: to redeem a code, to change something else, to
      set up a new batch of codes, or to clear them. */
  datatype Task = Redeem(code: string) | Touch(rest: nat) | SetUp(codes: seq<string>) | Clear

  datatype Outcome = Committed | Unchanged | Failed

  /** `base` is history: the revision of the record when the call began. */
  datatype Call =
    | Reading(task: Task, attempt: nat, base: nat)
    | Writing(task: Task, attempt: nat, base: nat, user: User, rev: nat)
    | Done(task: Task, base: nat, outcome: Outcome)

  datatype Win = Win(pid: nat, code: string)

  /** `issued`, `discarded`, `wins` and `writers` are history: every code ever set up,
      those replaced or cleared unused, the redemptions in commit order, and the calls
      whose writes were committed, in that order. */
  datatype State = State(
    user: Option<Cell<User>>,
    calls: map<nat, Call>,
    issued: multiset<string>,
    discarded: multiset<string>,
    wins: seq<Win>,
    writers: seq<nat>)

  datatype Event = Begin(pid: nat, task: Task) | Go(pid: nat) | DeleteUser

  /** The first position of a code. */
  function Position(codes: seq<string>, code: string): Option<nat> {
    if codes == [] then None
    else if codes[0] == code then Some(0)
    else match Position(codes[1..], code) case Some(i) => Some(i + 1) case None => None
  }

  function RemoveAt(codes: seq<string>, i: nat): seq<string>
    requires i < |codes|
  {
    codes[..i] + codes[i + 1..]
  }

  /** The closure: the record to commit, or nothing to change. */
  function Modify(task: Task, u: User): Option<User> {
    match task
    case Redeem(code) =>
      (match Position(u.codes, code)
       case Some(i) => if i < |u.codes| then Some(u.(codes := RemoveAt(u.codes, i))) else None
       case None => None)
    case Touch(rest) => Some(u.(rest := rest))
    case SetUp(codes) => Some(u.(codes := codes))
    case Clear => Some(u.(codes := []))
  }

  function Set(s: State, pid: nat, c: Call): State { s.(calls := s.calls[pid := c]) }

  function ReadStep(s: State, pid: nat, task: Task, attempt: nat, base: nat): State {
    if s.user.None? then Set(s, pid, Done(task, base, Failed))
    else
      match Modify(task, s.user.value.value)
      case None => Set(s, pid, Done(task, base, Unchanged))
      case Some(u) => Set(s, pid, Writing(task, attempt, base, u, s.user.value.rev))
  }

  /** Books what a committed write did to the codes that were there. */
  function Booked(s: State, pid: nat, task: Task, before: seq<string>): State {
    match task
    case Redeem(code) => s.(wins := s.wins + [Win(pid, code)])
    case Touch(_) => s
    case SetUp(codes) => s.(issued := s.issued + multiset(codes), discarded := s.discarded + multiset(before))
    case Clear => s.(discarded := s.discarded + multiset(before))
  }

  function WriteStep(s: State, pid: nat, task: Task, attempt: nat, base: nat, u: User, rev: nat): State {
    if s.user.Some? && s.user.value.rev == rev then
      Booked(Set(s.(user := Some(Cell(u, rev + 1)), writers := s.writers + [pid]), pid, Done(task, base, Committed)),
             pid, task, s.user.value.value.codes)
    else if attempt + 1 < MAX_RETRIES then Set(s, pid, Reading(task, attempt + 1, base))
    else Set(s, pid, Done(task, base, Failed))
  }

  function Step(s: State, e: Event): State {
    match e
    case Begin(pid, task) =>
      if pid in s.calls then s
      else Set(s, pid, Reading(task, 0, if s.user.Some? then s.user.value.rev else 0))
    case Go(pid) =>
      if pid !in s.calls then s
      else
        (match s.calls[pid]
         case Reading(task, attempt, base) => ReadStep(s, pid, task, attempt, base)
         case Writing(task, attempt, base, u, rev) => WriteStep(s, pid, task, attempt, base, u, rev)
         case Done(_, _, _) => s)
    case DeleteUser => s.(user := None)
  }

  function Run(s: State, es: seq<Event>): State {
    if es == [] then s else Step(Run(s, es[..|es| - 1]), es[|es| - 1])
  }

  /** A user whose record was just created with these codes. */
  function Start(u: User): State {
    State(Some(Cell(u, 1)), map[], multiset(u.codes), multiset{}, [], [])
  }

  // ----- conservation -----

  function Redeemed(wins: seq<Win>): multiset<string> {
    if wins == [] then multiset{} else Redeemed(wins[..|wins| - 1]) + multiset{wins[|wins| - 1].code}
  }

  lemma {:induction false} PositionFacts(codes: seq<string>, code: string)
    ensures Position(codes, code).None? <==> code !in codes
    ensures match Position(codes, code)
            case Some(i) => i < |codes| && codes[i] == code && code !in codes[..i]
            case None => true
  {
    if codes != [] {
      PositionFacts(codes[1..], code);
      assert codes == [codes[0]] + codes[1..];
      match Position(codes[1..], code) {
        case Some(i) => assert codes[..i + 1] == [codes[0]] + codes[1..][..i];
        case None =>
      }
    }
  }

  lemma RemoveOne(codes: seq<string>, i: nat)
    requires i < |codes|
    ensures multiset(codes) == multiset(RemoveAt(codes, i)) + multiset{codes[i]}
  {
    assert codes == codes[..i] + ([codes[i]] + codes[i + 1..]);
  }

  /** Redeeming takes exactly one occurrence, and only if there is one. */
  lemma RedeemTakesOne(u: User, code: string)
    ensures Modify(Redeem(code), u).Some? <==> code in u.codes
    ensures match Modify(Redeem(code), u)
            case Some(v) => multiset(u.codes) == multiset(v.codes) + multiset{code} && v.rest == u.rest
            case None => true
  {
    PositionFacts(u.codes, code);
    match Position(u.codes, code) {
      case Some(i) => RemoveOne(u.codes, i);
      case None =>
    }
  }

  lemma RedeemedAppend(wins: seq<Win>, w: Win)
    ensures Redeemed(wins + [w]) == Redeemed(wins) + multiset{w.code}
  {
    assert (wins + [w])[..|wins|] == wins;
  }

  ghost predicate Balanced(s: State) {
    s.user.Some? ==> s.issued == multiset(s.user.value.value.codes) + Redeemed(s.wins) + s.discarded
  }

  ghost predicate HasWin(wins: seq<Win>, pid: nat, code: string) {
    exists i :: 0 <= i < |wins| && wins[i] == Win(pid, code)
  }

  ghost predicate CallOk(s: State, pid: nat, c: Call) {
    && (s.user.Some? ==> c.base > 0)
    && match c
       case Reading(task, attempt, base) =>
         attempt < MAX_RETRIES && (s.user.Some? ==> base + attempt <= s.user.value.rev)
       case Writing(task, attempt, base, u, rev) =>
         && attempt < MAX_RETRIES && base + attempt <= rev
         && (s.user.Some? ==>
               rev <= s.user.value.rev && (rev == s.user.value.rev ==> Modify(task, s.user.value.value) == Some(u)))
       case Done(task, base, Committed) => task.Redeem? ==> HasWin(s.wins, pid, task.code)
       case Done(task, base, Failed) => s.user.Some? ==> base + MAX_RETRIES <= s.user.value.rev
       case Done(_, _, Unchanged) => true
  }

  ghost predicate WinsOk(s: State) {
    && (forall i :: 0 <= i < |s.wins| ==>
          s.wins[i].pid in s.calls && s.calls[s.wins[i].pid].Done?
          && s.calls[s.wins[i].pid].task == Redeem(s.wins[i].code) && s.calls[s.wins[i].pid].outcome.Committed?)
    && (forall i, j :: 0 <= i < j < |s.wins| ==> s.wins[i].pid != s.wins[j].pid)
  }

  /** One committed write for each revision, each by a call of its own. */
  ghost predicate WritersOk(s: State) {
    && (s.user.Some? ==> s.user.value.rev == |s.writers| + 1)
    && (forall i :: 0 <= i < |s.writers| ==> Wrote(s, s.writers[i]))
    && (forall i, j :: 0 <= i < j < |s.writers| ==> s.writers[i] != s.writers[j])
  }

  ghost predicate Wrote(s: State, pid: nat) {
    pid in s.calls && s.calls[pid].Done? && s.calls[pid].outcome.Committed?
  }

  ghost predicate CallsOk(s: State) { forall pid :: pid in s.calls ==> CallOk(s, pid, s.calls[pid]) }

  ghost predicate Inv(s: State) { Balanced(s) && WinsOk(s) && WritersOk(s) && CallsOk(s) }

  lemma WinKept(wins: seq<Win>, wins': seq<Win>, pid: nat, code: string)
    requires wins <= wins' && HasWin(wins, pid, code)
    ensures HasWin(wins', pid, code)
  {
    var i :| 0 <= i < |wins| && wins[i] == Win(pid, code);
    assert wins'[i] == wins[i];
  }

  /** The record moves on, or goes; nothing a call knows is lost. */
  lemma CallKept(s: State, s': State, pid: nat, c: Call)
    requires CallOk(s, pid, c) && s.wins <= s'.wins
    requires s'.user.Some? ==> s.user.Some? && (s'.user == s.user || s.user.value.rev < s'.user.value.rev)
    ensures CallOk(s', pid, c)
  {
    match c {
      case Done(task, base, Committed) =>
        if task.Redeem? {
          WinKept(s.wins, s'.wins, pid, task.code);
        }
      case _ =>
    }
  }

  lemma CommitBalances(s: State, pid: nat, task: Task, attempt: nat, base: nat, u: User, rev: nat)
    requires Balanced(s) && CallOk(s, pid, Writing(task, attempt, base, u, rev)) && s.user.Some?
             && s.user.value.rev == rev
    ensures Balanced(WriteStep(s, pid, task, attempt, base, u, rev))
  {
    match task {
      case Redeem(code) =>
        RedeemTakesOne(s.user.value.value, code);
        RedeemedAppend(s.wins, Win(pid, code));
      case _ =>
    }
  }

  /** One call moves; what the others know survives. */
  lemma Moved(s: State, s': State, pid: nat)
    requires CallsOk(s) && s.wins <= s'.wins && pid in s'.calls && s'.calls == s.calls[pid := s'.calls[pid]]
    requires s'.user.Some? ==> s.user.Some? && (s'.user == s.user || s.user.value.rev < s'.user.value.rev)
    requires CallOk(s', pid, s'.calls[pid])
    ensures CallsOk(s')
  {
    forall q | q in s'.calls ensures CallOk(s', q, s'.calls[q]) {
      if q != pid {
        CallKept(s, s', q, s.calls[q]);
      }
    }
  }

  /** A call still at work has no win yet, and may get one as it ends. */
  lemma WinsKept(s: State, s': State, pid: nat, won: seq<Win>)
    requires WinsOk(s) && (pid in s.calls ==> !s.calls[pid].Done?) && pid in s'.calls
             && s'.calls == s.calls[pid := s'.calls[pid]]
    requires s'.wins == s.wins + won && |won| <= 1
    requires |won| == 1 ==>
               s'.calls[pid].Done? && won[0].pid == pid && s'.calls[pid].task == Redeem(won[0].code)
                   && s'.calls[pid].outcome.Committed?
    ensures WinsOk(s')
  {
    forall i | 0 <= i < |s.wins| ensures s.wins[i].pid != pid {
    }
  }

  lemma WriterAdded(s: State, s': State, pid: nat)
    requires WritersOk(s) && pid in s.calls && !s.calls[pid].Done? && s.user.Some? && s'.user.Some?
    requires s'.writers == s.writers + [pid] && s'.user.value.rev == s.user.value.rev + 1
    requires Wrote(s', pid) && s'.calls == s.calls[pid := s'.calls[pid]]
    ensures WritersOk(s')
  {
    forall i | 0 <= i < |s.writers| ensures s.writers[i] != pid && Wrote(s', s.writers[i]) {
      assert Wrote(s, s.writers[i]);
    }
  }

  lemma CommitKeepsInv(s: State, pid: nat, task: Task, attempt: nat, base: nat, u: User, rev: nat)
    requires Inv(s) && pid in s.calls && s.calls[pid] == Writing(task, attempt, base, u, rev)
    requires s.user.Some? && s.user.value.rev == rev
    ensures Inv(WriteStep(s, pid, task, attempt, base, u, rev))
  {
    assert CallOk(s, pid, s.calls[pid]);
    CommitBalances(s, pid, task, attempt, base, u, rev);
    var won := if task.Redeem? then [Win(pid, task.code)] else [];
    CommitIs(s, pid, task, attempt, base, u, rev, won);
    CommitKeeps(s, WriteStep(s, pid, task, attempt, base, u, rev), pid, task, base, u, rev, won);
  }

  lemma CommitIs(s: State, pid: nat, task: Task, attempt: nat, base: nat, u: User, rev: nat, won: seq<Win>)
    requires s.user.Some? && s.user.value.rev == rev
    requires won == if task.Redeem? then [Win(pid, task.code)] else []
    ensures var s' := WriteStep(s, pid, task, attempt, base, u, rev);
            && s'.calls == s.calls[pid := Done(task, base, Committed)] && s'.wins == s.wins + won
            && s'.writers == s.writers + [pid] && s'.user == Some(Cell(u, rev + 1))
  {
  }

  lemma CommitKeeps(s: State, s': State, pid: nat, task: Task, base: nat, u: User, rev: nat, won: seq<Win>)
    requires Inv(s) && pid in s.calls && !s.calls[pid].Done? && s.user.Some? && s.user.value.rev == rev
    requires won == if task.Redeem? then [Win(pid, task.code)] else []
    requires s'.calls == s.calls[pid := Done(task, base, Committed)] && s'.wins == s.wins + won
    requires s'.writers == s.writers + [pid] && s'.user == Some(Cell(u, rev + 1)) && base > 0 && Balanced(s')
    ensures Inv(s')
  {
    WinsKept(s, s', pid, won);
    if task.Redeem? {
      assert s'.wins[|s.wins|] == Win(pid, task.code);
    }
    WriterAdded(s, s', pid);
    Moved(s, s', pid);
  }

  /** A step that moves one call and leaves the record alone. */
  lemma QuietKeepsInv(s: State, pid: nat, c: Call)
    requires Inv(s) && CallOk(s, pid, c) && (pid in s.calls ==> !s.calls[pid].Done?)
    ensures Inv(Set(s, pid, c))
  {
    var s' := Set(s, pid, c);
    assert s'.wins == s.wins + [];
    WinsKept(s, s', pid, []);
    forall i | 0 <= i < |s.writers| ensures Wrote(s', s.writers[i]) {
      assert Wrote(s, s.writers[i]);
    }
    Moved(s, s', pid);
  }

  lemma ReadKeepsInv(s: State, pid: nat, task: Task, attempt: nat, base: nat)
    requires Inv(s) && pid in s.calls && s.calls[pid] == Reading(task, attempt, base)
    ensures Inv(ReadStep(s, pid, task, attempt, base))
  {
    assert CallOk(s, pid, s.calls[pid]);
    QuietKeepsInv(s, pid, ReadStep(s, pid, task, attempt, base).calls[pid]);
  }

  lemma LostWriteKeepsInv(s: State, pid: nat, c: Call)
    requires Inv(s) && pid in s.calls && s.calls[pid].Writing?
             && !(s.user.Some? && s.user.value.rev == s.calls[pid].rev)
    requires var w := s.calls[pid];
             c == if w.attempt + 1 < MAX_RETRIES then Reading(w.task, w.attempt + 1, w.base)
                 else Done(w.task, w.base, Failed)
    ensures Inv(Set(s, pid, c))
  {
    assert CallOk(s, pid, s.calls[pid]);
    QuietKeepsInv(s, pid, c);
  }

  lemma WriteKeepsInv(s: State, pid: nat, task: Task, attempt: nat, base: nat, u: User, rev: nat)
    requires Inv(s) && pid in s.calls && s.calls[pid] == Writing(task, attempt, base, u, rev)
    ensures Inv(WriteStep(s, pid, task, attempt, base, u, rev))
  {
    if s.user.Some? && s.user.value.rev == rev {
      CommitKeepsInv(s, pid, task, attempt, base, u, rev);
    } else {
      LostWriteKeepsInv(s, pid, if attempt + 1 < MAX_RETRIES then Reading(task, attempt + 1, base)
          else Done(task, base, Failed));
    }
  }

  lemma GoKeepsInv(s: State, pid: nat)
    requires Inv(s) && pid in s.calls
    ensures Inv(Step(s, Go(pid)))
  {
    match s.calls[pid] {
      case Reading(task, attempt, base) => ReadKeepsInv(s, pid, task, attempt, base);
      case Writing(task, attempt, base, u, rev) => WriteKeepsInv(s, pid, task, attempt, base, u, rev);
      case Done(_, _, _) =>
    }
  }

  lemma StepKeepsInv(s: State, e: Event)
    requires Inv(s)
    ensures Inv(Step(s, e))
  {
    match e {
      case Begin(pid, task) =>
        if pid !in s.calls {
          QuietKeepsInv(s, pid, Reading(task, 0, if s.user.Some? then s.user.value.rev else 0));
        }
      case Go(pid) =>
        if pid in s.calls {
          GoKeepsInv(s, pid);
        }
      case DeleteUser =>
        forall q | q in s.calls ensures CallOk(Step(s, e), q, s.calls[q]) {
          CallKept(s, Step(s, e), q, s.calls[q]);
        }
        assert forall i :: 0 <= i < |s.writers| ==> Wrote(s, s.writers[i]);
    }
  }

  lemma {:induction false} RunKeepsInv(u: User, es: seq<Event>)
    ensures Inv(Run(Start(u), es))
  {
    if es != [] {
      RunKeepsInv(u, es[..|es| - 1]);
      StepKeepsInv(Run(Start(u), es[..|es| - 1]), es[|es| - 1]);
    }
  }

  ghost predicate Reachable(s: State) {
    exists u, es :: s == Run(Start(u), es)
  }

  lemma ReachableInv(s: State)
    requires Reachable(s)
    ensures Inv(s)
  {
    var u, es :| s == Run(Start(u), es);
    RunKeepsInv(u, es);
  }

  // ----- the guarantees -----

  /** Under any interleaving, the codes left, the codes redeemed and the codes thrown
      away are together the codes ever set up; the redemptions are one for each call
      that reports success, of the code it presented. */
  lemma Conservation(s: State)
    requires Reachable(s)
    ensures s.user.Some? ==> s.issued == multiset(s.user.value.value.codes) + Redeemed(s.wins) + s.discarded
    ensures forall i, j :: 0 <= i < j < |s.wins| ==> s.wins[i].pid != s.wins[j].pid
    ensures forall pid, code :: pid in s.calls && s.calls[pid].Done? && s.calls[pid].task == Redeem(code) ==>
              (s.calls[pid].outcome.Committed? <==> HasWin(s.wins, pid, code))
  {
    ReachableInv(s);
    forall pid | pid in s.calls ensures CallOk(s, pid, s.calls[pid]) {
    }
  }

  /** The write of a successful redemption removes that code once and nothing else. */
  lemma SuccessIsOneRemoval(s: State, pid: nat, code: string)
    requires Reachable(s) && pid in s.calls && s.calls[pid].Writing? && s.calls[pid].task == Redeem(code)
    requires var s' := Step(s, Go(pid));
             pid in s'.calls && s'.calls[pid] == Done(Redeem(code), s.calls[pid].base, Committed)
    ensures var s' := Step(s, Go(pid));
            && s.user.Some? && s'.user.Some?
            && multiset(s.user.value.value.codes) == multiset(s'.user.value.value.codes) + multiset{code}
            && s'.user.value.value.rest == s.user.value.value.rest
  {
    ReachableInv(s);
    assert CallOk(s, pid, s.calls[pid]);
    RedeemTakesOne(s.user.value.value, code);
  }

  /** The commits since the call began, by others, one each. */
  ghost predicate BeatenBy(s: State, pid: nat, others: seq<nat>) {
    && (forall i :: 0 <= i < |others| ==> others[i] != pid && Wrote(s, others[i]))
    && (forall i, j :: 0 <= i < j < |others| ==> others[i] != others[j])
  }

  /** A call that gives up while the user exists was beaten by at least five other calls,
      whose writes were committed after it began: revision `base` was the one it began at. */
  lemma GivesUpAfterFive(s: State, pid: nat)
    requires Reachable(s) && s.user.Some? && pid in s.calls && s.calls[pid].Done? && s.calls[pid].outcome.Failed?
    ensures s.user.value.rev == |s.writers| + 1
    ensures var base := s.calls[pid].base;
            0 < base && base + MAX_RETRIES <= |s.writers| + 1 && BeatenBy(s, pid, s.writers[base - 1..])
  {
    ReachableInv(s);
    assert CallOk(s, pid, s.calls[pid]);
    assert forall i :: 0 <= i < |s.writers| ==> Wrote(s, s.writers[i]);
  }

  /** A redemption that nobody interrupts: presented to a user who has the code it is
      redeemed, by taking out its first occurrence; presented to any other it changes
      nothing. */
  lemma RedeemAlone(s: State, s1: State, s2: State, s3: State, pid: nat, code: string)
    requires s.user.Some? && pid !in s.calls
    requires s1 == Step(s, Begin(pid, Redeem(code))) && s2 == Step(s1, Go(pid)) && s3 == Step(s2, Go(pid))
    ensures s3.user.Some? && pid in s3.calls && s3.calls[pid].Done?
    ensures var codes, u := s.user.value.value.codes, s3.user.value.value;
            && (s3.calls[pid].outcome.Committed? <==> code in codes)
            && (code in codes ==>
                  && Drops(codes, u.codes, code) && u.rest == s.user.value.value.rest
                  && s3.wins == s.wins + [Win(pid, code)])
            && (code !in codes ==> s3.calls[pid].outcome.Unchanged? && s3.user == s.user && s3.wins == s.wins)
  {
    var codes := s.user.value.value.codes;
    PositionFacts(codes, code);
    match Position(codes, code) {
      case Some(i) =>
        assert s3.user.value.value.codes == RemoveAt(codes, i);
        assert codes == codes[..i] + [code] + codes[i + 1..];
        assert DropsAt(codes, s3.user.value.value.codes, code, codes[..i], codes[i + 1..]);
      case None =>
    }
  }

  ghost predicate DropsAt(codes: seq<string>, left: seq<string>, code: string, head: seq<string>, tail: seq<string>) {
    codes == head + [code] + tail && left == head + tail && code !in head
  }

  /** What is left after the first occurrence of a code is taken out. */
  ghost predicate Drops(codes: seq<string>, left: seq<string>, code: string) {
    exists head, tail :: DropsAt(codes, left, code, head, tail)
  }
}
