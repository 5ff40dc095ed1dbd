/** When the work already in flight can still take a stored session away: a sign-out that ends late. */
module NativeAuthSignOut {
  import opened Text
  import opened NativeAuth
  import opened NativeAuthSafety
  import opened NativeAuthOutlived

  // --- a sign-in that has not cleared the old session yet is alone --------------------------------

  predicate ListeningNow(s: State, b: Pid) {
    b in s.actions && s.actions[b].kind.Begin? && s.actions[b].pc.Listening? && s.actions[b].epoch == s.storage.generation
  }

  /** A callback of this generation that found no verifier, or will find none. */
  predicate Fruitless(a: Action, consumed: nat) {
    && a.kind.Exchange? && a.consumed == consumed
    && (match a.pc
        case Taking(_, _) => true
        case Failing => true
        case Leaving(auth) => auth.NoVerifier?
        case Concluding(auth) => auth.NoVerifier?
        case Ended(ok) => !ok
        case _ => false)
  }

  /** While a sign-in still listens, the card says so, no verifier is pending, and nothing else of its generation gets anywhere. */
  ghost predicate ListensAlone(s: State) {
    forall b :: ListeningNow(s, b) ==>
      && s.status.SigningIn? && s.storage.verifier.None?
      && forall p :: p in s.actions && p != b && s.actions[p].epoch == s.storage.generation ==> Fruitless(s.actions[p], s.storage.consumed)
  }

  lemma FruitlessTurn(s: State, pid: Pid, choice: Choice)
    requires pid in s.actions && s.storage.verifier.None? && Fruitless(s.actions[pid], s.storage.consumed)
    ensures var t := Apply(s, Advance(pid, choice));
            && t.status == s.status && t.storage.verifier.None? && t.storage.consumed == s.storage.consumed
            && Fruitless(t.actions[pid], t.storage.consumed)
  {
  }

  lemma OldTurn(s: State, pid: Pid, choice: Choice)
    requires pid in s.actions && Fits(s.actions[pid])
    requires s.actions[pid].epoch != s.storage.generation || s.actions[pid].kind.SignOut?
    ensures var t := Apply(s, Advance(pid, choice));
            t.status == s.status && t.storage.verifier == s.storage.verifier && t.storage.consumed == s.storage.consumed
  {
    if !s.actions[pid].kind.SignOut? { OldWritesNothing(s, pid, choice); }
  }

  lemma AdvanceListens(s: State, pid: Pid, choice: Choice)
    requires Inv(s) && ListensAlone(s) && pid in s.actions
    ensures ListensAlone(Apply(s, Advance(pid, choice)))
  {
    hide Apply, Fruitless, LockInv, Fits;
    var t := Apply(s, Advance(pid, choice));
    OnlyOwn(s, pid, choice);
    EpochsBelow(s);
    forall b | ListeningNow(t, b)
      ensures t.status.SigningIn? && t.storage.verifier.None?
      ensures forall p :: p in t.actions && p != b && t.actions[p].epoch == t.storage.generation ==> Fruitless(t.actions[p], t.storage.consumed)
    {
      ListeningBefore(s, pid, choice, b);
      if s.actions[pid].epoch == s.storage.generation && pid != b {
        FruitlessTurn(s, pid, choice);
      } else if pid != b {
        OldTurn(s, pid, choice);
      }
    }
  }

  /** A sign-in seen listening after a turn was listening before it, and the turn was not its own. */
  lemma ListeningBefore(s: State, pid: Pid, choice: Choice, b: Pid)
    requires pid in s.actions && (forall p :: p in s.actions ==> s.actions[p].epoch <= s.storage.generation)
    requires ListeningNow(Apply(s, Advance(pid, choice)), b)
    ensures ListeningNow(s, b) && b != pid && Apply(s, Advance(pid, choice)).storage.generation == s.storage.generation
  {
    hide Apply;
    OnlyOwn(s, pid, choice);
    LeavesListening(s, pid, choice);
  }

  lemma LeavesListening(s: State, pid: Pid, choice: Choice)
    requires pid in s.actions
    ensures !(Apply(s, Advance(pid, choice)).actions[pid].pc.Listening? && s.actions[pid].kind.Begin?)
  {
    hide Guarded, Invalidated;
  }

  /** Starting a callback or a read leaves the listening sign-in as alone as it was. */
  lemma JoinListens(s: State, event: Event)
    requires ListensAlone(s) && Enabled(s, event) && (event.Callback? || event.GetUser?)
    ensures ListensAlone(Apply(s, event))
  {
    var t := Apply(s, event);
    forall b | ListeningNow(t, b)
      ensures t.status.SigningIn? && t.storage.verifier.None?
      ensures forall p :: p in t.actions && p != b && t.actions[p].epoch == t.storage.generation ==> Fruitless(t.actions[p], t.storage.consumed)
    {
      assert b != event.pid && t.actions[b] == s.actions[b];
      assert ListeningNow(s, b);
    }
  }

  /** A new generation leaves every older action behind. */
  lemma FreshListens(s: State, event: Event)
    requires (forall p :: p in s.actions ==> s.actions[p].epoch <= s.storage.generation) && Enabled(s, event)
    requires event.BeginSignIn? || event.StartSignOut? || event.Abandon? || event.Dispose?
    ensures ListensAlone(Apply(s, event))
  {
    hide Fruitless;
  }

  lemma StartListens(s: State, event: Event)
    requires Inv(s) && ListensAlone(s) && Enabled(s, event) && !event.Advance?
    ensures ListensAlone(Apply(s, event))
  {
    hide Inv, ListensAlone, Apply, Enabled;
    EpochsBelow(s);
    if event.Callback? || event.GetUser? { JoinListens(s, event); } else { FreshListens(s, event); }
  }

  lemma {:induction false} RunListens(s: State, events: seq<Event>)
    requires Inv(s) && ListensAlone(s) && ValidRun(s, events)
    ensures Inv(Run(s, events)) && ListensAlone(Run(s, events))
    decreases |events|
  {
    hide Inv, ListensAlone, Apply, Enabled;
    if events != [] {
      ApplyKeeps(s, events[0]);
      if events[0].Advance? { AdvancesListen(s, events[0]); } else { StartListens(s, events[0]); }
      RunListens(Apply(s, events[0]), events[1..]);
    }
  }

  lemma AdvancesListen(s: State, event: Event)
    requires Inv(s) && ListensAlone(s) && Enabled(s, event) && event.Advance?
    ensures ListensAlone(Apply(s, event))
  {
    hide Inv, ListensAlone, Apply;
    AdvanceListens(s, event.pid, event.choice);
  }

  lemma ReachableListens(s: State)
    requires Reachable(s)
    ensures Inv(s) && ListensAlone(s)
  {
    hide ValidRun, Run;
    var start: State, events: seq<Event> :| Launch(start) && ValidRun(start, events) && s == Run(start, events);
    RunListens(start, events);
  }

  // --- what can take a stored session away -----------------------------------------------------------

  predicate Works(t: Storage) {
    !t.failed && !t.disposed
  }

  predicate LogsOut(s: State, pid: Pid) {
    pid in s.actions && s.actions[pid].kind.SignOut? && s.actions[pid].pc.LoggingOut?
  }

  /** Nobody signs out or begins anew, and no refresh finds the session unusable. */
  predicate Ordinary(s: State, event: Event) {
    match event
    case BeginSignIn(_, _) => false
    case StartSignOut(_, _, _) => false
    case Advance(pid, choice) => pid in s.actions && s.actions[pid].pc.Refreshing? ==> choice.ok
    case _ => true
  }

  predicate OrdinaryRun(s: State, events: seq<Event>)
    decreases |events|
  {
    events == [] || (Enabled(s, events[0]) && Ordinary(s, events[0]) && OrdinaryRun(Apply(s, events[0]), events[1..]))
  }

  /** A session is stored, and nothing in flight is about to clear it. */
  ghost predicate SessionSafe(s: State) {
    && s.storage.session.Some?
    && (forall b :: !ListeningNow(s, b))
    && (Works(s.storage) ==> forall p :: !LogsOut(s, p))
  }

  lemma TurnKeepsSession(s: State, pid: Pid, choice: Choice)
    requires pid in s.actions && SessionSafe(s) && Ordinary(s, Advance(pid, choice))
    ensures Apply(s, Advance(pid, choice)).storage.session.Some?
  {
    match s.actions[pid].kind
    case Exchange => ExchangeKeepsSession(s, pid, choice);
    case Begin => BeginKeepsSession(s, pid, choice);
    case Read => ReadKeepsSession(s, pid, choice);
    case SignOut => assert LogsOut(s, pid) <==> s.actions[pid].pc.LoggingOut?;
  }

  lemma ExchangeKeepsSession(s: State, pid: Pid, choice: Choice)
    requires pid in s.actions && s.storage.session.Some?
    ensures ExchangeNext(s, pid, s.actions[pid], choice).storage.session.Some?
  {
    hide Unlocked;
    UnlockedOnly(s.actions[pid].epoch);
  }

  lemma BeginKeepsSession(s: State, pid: Pid, choice: Choice)
    requires pid in s.actions && s.actions[pid].kind.Begin? && s.storage.session.Some? && !ListeningNow(s, pid)
    ensures BeginNext(s, pid, s.actions[pid], choice).storage.session.Some?
  {
  }

  lemma ReadKeepsSession(s: State, pid: Pid, choice: Choice)
    requires pid in s.actions && s.storage.session.Some? && Ordinary(s, Advance(pid, choice))
    ensures ReadNext(s, pid, s.actions[pid], choice).storage.session.Some?
  {
  }

  lemma AdvanceKeepsSafe(s: State, pid: Pid, choice: Choice)
    requires Inv(s) && pid in s.actions && SessionSafe(s) && Ordinary(s, Advance(pid, choice))
    ensures SessionSafe(Apply(s, Advance(pid, choice)))
  {
    hide Apply, Inv, Ordinary;
    var t := Apply(s, Advance(pid, choice));
    EpochsBelow(s);
    OnlyOwn(s, pid, choice);
    TurnKeepsSession(s, pid, choice);
    forall b ensures !ListeningNow(t, b) {
      if ListeningNow(t, b) { ListeningBefore(s, pid, choice, b); }
    }
    forall p | LogsOut(t, p) ensures LogsOut(s, p) {
      if p == pid { LoggedOutBefore(s, pid, choice); }
    }
  }

  lemma LoggedOutBefore(s: State, pid: Pid, choice: Choice)
    requires pid in s.actions
    ensures LogsOut(Apply(s, Advance(pid, choice)), pid) ==> LogsOut(s, pid)
  {
    OnlyOwn(s, pid, choice);
    hide ExchangeNext, BeginNext, ReadNext;
  }

  lemma OtherKeepsSafe(s: State, event: Event)
    requires Inv(s) && SessionSafe(s) && Enabled(s, event) && Ordinary(s, event) && !event.Advance?
    ensures SessionSafe(Apply(s, event))
  {
    EpochsBelow(s);
    var t := Apply(s, event);
    forall b ensures !ListeningNow(t, b) {
      if ListeningNow(t, b) { assert ListeningNow(s, b); }
    }
    forall p ensures LogsOut(t, p) ==> LogsOut(s, p) {}
  }

  lemma {:induction false} SafeForever(s: State, events: seq<Event>)
    requires Inv(s) && SessionSafe(s) && OrdinaryRun(s, events)
    ensures Run(s, events).storage.session.Some?
    decreases |events|
  {
    hide Inv, Apply, Enabled, Ordinary;
    if events != [] {
      ApplyKeeps(s, events[0]);
      if events[0].Advance? { AdvancesSafe(s, events[0]); } else { OtherKeepsSafe(s, events[0]); }
      SafeForever(Apply(s, events[0]), events[1..]);
    }
  }

  lemma AdvancesSafe(s: State, event: Event)
    requires Inv(s) && SessionSafe(s) && Enabled(s, event) && Ordinary(s, event) && event.Advance?
    ensures SessionSafe(Apply(s, event))
  {
    hide Inv, SessionSafe, Apply, Ordinary;
    AdvanceKeepsSafe(s, event.pid, event.choice);
  }

  lemma LateClear(s: State, pid: Pid)
    requires LogsOut(s, pid) && Works(s.storage)
    ensures OrdinaryRun(s, [Go(pid, 0)]) && Run(s, [Go(pid, 0)]).storage.session.None?
  {
    var t := Apply(s, Go(pid, 0));
    assert [Go(pid, 0)][1..] == [];
    assert OrdinaryRun(t, []) && Run(t, []) == t;
  }

  /**
   * While somebody is shown as signed in on a stored session, what is in flight can take that session
   * away, with nobody signing out or beginning anew and no refresh failing, if and only if some
   * sign-out still waits for its hosted logout and the store works.
   */
  lemma ShownSessionIsLostIffLogoutPends(s: State)
    requires Reachable(s) && s.status.SignedIn? && s.storage.session.Some?
    ensures (exists events :: OrdinaryRun(s, events) && Run(s, events).storage.session.None?)
            <==> Works(s.storage) && exists pid :: LogsOut(s, pid)
  {
    hide Inv, OrdinaryRun, Run;
    ReachableListens(s);
    if Works(s.storage) && exists pid :: LogsOut(s, pid) {
      var pid :| LogsOut(s, pid);
      LateClear(s, pid);
      assert exists events :: OrdinaryRun(s, events) && Run(s, events).storage.session.None?;
    } else {
      assert SessionSafe(s);
      forall events | OrdinaryRun(s, events) ensures Run(s, events).storage.session.Some? {
        SafeForever(s, events);
      }
      assert !exists events :: OrdinaryRun(s, events) && Run(s, events).storage.session.None?;
    }
  }
}
