/** What an exchange can still do once a sign-in it belongs to was abandoned, or the person signed out. */
module NativeAuthOutlived {
  import opened Text
  import opened NativeAuth
  import opened NativeAuthSafety

  /** Exchange `x` is out: nothing current carries its session, and none of its can be read. */
  ghost predicate Out(s: State, x: Pid) {
    && LiveOrEnded(s, x) && s.actions[x].epoch < s.storage.generation
    && !ShownAs(s, x)
    && (Stores(s.storage.session, x) ==> s.storage.failed || s.storage.disposed)
    && (forall p :: p in s.actions && Stores(Carried(s.actions[p]), x) ==> s.actions[p].epoch < s.storage.generation)
  }

  predicate LiveOrEnded(s: State, x: Pid) {
    x in s.actions && s.actions[x].kind.Exchange?
  }

  lemma AdvanceKeepsOut(s: State, pid: Pid, choice: Choice, x: Pid)
    requires Out(s, x) && pid in s.actions && s.actions[pid].epoch <= s.storage.generation
    ensures Out(Apply(s, Advance(pid, choice)), x)
  {
    hide Apply, Carried, ShownAs;
    OnlyOwn(s, pid, choice);
    TurnTraced(s, pid, choice, x);
  }

  lemma StartKeepsOut(s: State, event: Event, x: Pid)
    requires Out(s, x) && Enabled(s, event) && !event.Advance?
    ensures Out(Apply(s, event), x)
  {
    var t := Apply(s, event);
    forall p | p in t.actions && Stores(Carried(t.actions[p]), x) ensures p in s.actions && t.actions[p] == s.actions[p] {}
  }

  lemma {:induction false} OutForever(s: State, events: seq<Event>, x: Pid)
    requires Inv(s) && Out(s, x) && ValidRun(s, events)
    ensures !ShownAs(Run(s, events), x)
    decreases |events|
  {
    hide Inv, Apply, Enabled;
    if events != [] {
      ApplyKeeps(s, events[0]);
      EpochsBelow(s);
      if events[0].Advance? { AdvancesOut(s, events[0], x); } else { StartKeepsOut(s, events[0], x); }
      OutForever(Apply(s, events[0]), events[1..], x);
    }
  }

  lemma AdvancesOut(s: State, event: Event, x: Pid)
    requires Inv(s) && Out(s, x) && Enabled(s, event) && event.Advance?
    ensures Out(Apply(s, event), x)
  {
    hide Apply, Out;
    AdvanceKeepsOut(s, event.pid, event.choice, x);
  }

  lemma EpochsBelow(s: State)
    requires Inv(s)
    ensures forall p :: p in s.actions ==> s.actions[p].epoch <= s.storage.generation
  {
  }

  /** A session left in the store is shown by the next read of it. */
  lemma KeptIsShown(s: State, pid: Pid, x: Pid) returns (events: seq<Event>)
    requires pid !in s.actions && Stores(s.storage.session, x) && !s.storage.failed && !s.storage.disposed
    requires !s.status.SigningIn? && s.handling.None? && s.reading.None?
    ensures ValidRun(s, events) && ShownAs(Run(s, events), x)
  {
    var go := Advance(pid, Choice(true, 0, false, 0));
    var s1 := Apply(s, GetUser(pid));
    var s2 := Apply(s1, go);
    var s3 := Apply(s2, go);
    var s4 := Apply(s3, go);
    var s5 := Apply(s4, go);
    assert s3.actions[pid].pc == LeavingRead(s.storage.session);
    assert ShownAs(s5, x);
    RunCons(s4, go, []);
    RunCons(s3, go, [go]);
    RunCons(s2, go, [go, go]);
    RunCons(s1, go, [go, go, go]);
    RunCons(s, GetUser(pid), [go, go, go, go]);
    events := [GetUser(pid)] + [go, go, go, go];
  }

  /**
   * Abandoning a live exchange keeps it from ever signing anyone in, unless its session was in the
   * store already: then a later read still shows it. Exactly that, and a store that still works.
   */
  lemma AbandonedSignsInIffStored(s: State, x: Pid, breaks: bool, pid: Pid)
    requires Reachable(s) && LiveExchange(s, x) && pid !in s.actions
    ensures var t := Abandoned(s, breaks);
            (exists events :: ValidRun(t, events) && ShownAs(Run(t, events), x))
            <==> Stores(s.storage.session, x) && !s.storage.failed && !s.storage.disposed && !breaks
  {
    hide ValidRun, Run, Apply, Inv;
    var t := Abandoned(s, breaks);
    ReachableInv(s);
    AbandonKeeps(s, breaks);
    if Stores(s.storage.session, x) && !s.storage.failed && !s.storage.disposed && !breaks {
      var events := KeptIsShown(t, pid, x);
      assert exists events :: ValidRun(t, events) && ShownAs(Run(t, events), x);
    } else {
      AbandonIsOut(s, x, breaks);
      forall events | ValidRun(t, events) ensures !ShownAs(Run(t, events), x) {
        OutForever(t, events, x);
      }
      assert !exists events :: ValidRun(t, events) && ShownAs(Run(t, events), x);
    }
  }

  lemma AbandonKeeps(s: State, breaks: bool)
    requires Inv(s)
    ensures Inv(Abandoned(s, breaks))
  {
    hide Inv;
    ApplyKeeps(s, Abandon(breaks));
  }

  lemma AbandonIsOut(s: State, x: Pid, breaks: bool)
    requires Inv(s) && LiveExchange(s, x)
    requires !(Stores(s.storage.session, x) && !s.storage.failed && !s.storage.disposed && !breaks)
    ensures Out(Abandoned(s, breaks), x)
  {
    hide Carried;
  }

  /** Signing out needs no such condition: whatever exchange was live, stored or not, it never signs anyone in. */
  lemma SignedOutStaysOut(s: State, x: Pid, pid: Pid, clearBreaks: bool, events: seq<Event>)
    requires Reachable(s) && LiveExchange(s, x) && Enabled(s, StartSignOut(pid, false, clearBreaks))
    requires ValidRun(SigningOut(s, pid, false, clearBreaks), events)
    ensures !ShownAs(Run(SigningOut(s, pid, false, clearBreaks), events), x)
  {
    hide ValidRun, Run, Inv, Enabled;
    ReachableInv(s);
    ApplyKeeps(s, StartSignOut(pid, false, clearBreaks));
    SignOutIsOut(s, x, pid, clearBreaks);
    OutForever(SigningOut(s, pid, false, clearBreaks), events, x);
  }

  lemma SignOutIsOut(s: State, x: Pid, pid: Pid, clearBreaks: bool)
    requires Inv(s) && LiveExchange(s, x) && Enabled(s, StartSignOut(pid, false, clearBreaks))
    ensures Out(SigningOut(s, pid, false, clearBreaks), x)
  {
  }

  /**
   * A sign-out whose deletion fails throws and leaves the card as it is, but it outlives the exchange
   * all the same: what was not shown already is never shown.
   */
  lemma SignOutOutlived(s: State, x: Pid, pid: Pid, breaks: bool, clearBreaks: bool)
    requires Reachable(s) && LiveExchange(s, x) && Enabled(s, StartSignOut(pid, breaks, clearBreaks))
    ensures var t := SigningOut(s, pid, breaks, clearBreaks);
            (exists events :: ValidRun(t, events) && ShownAs(Run(t, events), x)) <==> breaks && ShownAs(s, x)
  {
    hide ValidRun, Run, Inv, Enabled;
    var t := SigningOut(s, pid, breaks, clearBreaks);
    ReachableInv(s);
    ApplyKeeps(s, StartSignOut(pid, breaks, clearBreaks));
    if breaks && ShownAs(s, x) {
      StillShown(t);
      assert exists events :: ValidRun(t, events) && ShownAs(Run(t, events), x);
    } else {
      if breaks { FailedSignOutIsOut(s, x, pid, clearBreaks); } else { SignOutIsOut(s, x, pid, clearBreaks); }
      forall events | ValidRun(t, events) ensures !ShownAs(Run(t, events), x) {
        OutForever(t, events, x);
      }
      assert !exists events :: ValidRun(t, events) && ShownAs(Run(t, events), x);
    }
  }

  lemma StillShown(s: State)
    ensures ValidRun(s, []) && Run(s, []) == s
  {
  }

  lemma FailedSignOutIsOut(s: State, x: Pid, pid: Pid, clearBreaks: bool)
    requires Inv(s) && LiveExchange(s, x) && !ShownAs(s, x)
    ensures Out(SigningOut(s, pid, true, clearBreaks), x)
  {
    hide Carried;
  }

  /**
   * A newer sign-in outlives an older exchange the same way: only a session already stored can still be
   * shown, and only if the deletion of the old verifier did not break the store.
   */
  lemma NewerSignInOutlivesIffNotStored(s: State, x: Pid, pid: Pid, reader: Pid, breaks: bool)
    requires Reachable(s) && LiveExchange(s, x) && Enabled(s, BeginSignIn(pid, breaks)) && reader !in s.actions && reader != pid
    ensures var t := Begun(s, pid, breaks);
            (exists events :: ValidRun(t, events) && ShownAs(Run(t, events), x)) <==> Stores(s.storage.session, x) && !breaks
  {
    hide ValidRun, Run, Inv, Enabled;
    var t := Begun(s, pid, breaks);
    ReachableInv(s);
    ApplyKeeps(s, BeginSignIn(pid, breaks));
    if Stores(s.storage.session, x) && !breaks {
      BeginWorks(s, pid);
      var later := KeptIsShown(Abandoned(t, false), reader, x);
      AbandonEnabled(t);
      RunCons(t, Abandon(false), later);
      assert exists events :: ValidRun(t, events) && ShownAs(Run(t, events), x);
    } else {
      BeginIsOut(s, x, pid, breaks);
      forall events | ValidRun(t, events) ensures !ShownAs(Run(t, events), x) {
        OutForever(t, events, x);
      }
      assert !exists events :: ValidRun(t, events) && ShownAs(Run(t, events), x);
    }
  }

  lemma BeginWorks(s: State, pid: Pid)
    requires Enabled(s, BeginSignIn(pid, false))
    ensures !s.storage.failed && !s.storage.disposed
  {
  }

  lemma AbandonEnabled(s: State)
    ensures Enabled(s, Abandon(false))
  {
  }

  lemma BeginIsOut(s: State, x: Pid, pid: Pid, breaks: bool)
    requires Inv(s) && LiveExchange(s, x) && Enabled(s, BeginSignIn(pid, breaks)) && !(Stores(s.storage.session, x) && !breaks)
    ensures Out(Begun(s, pid, breaks), x)
  {
  }

  // --- a sign-out that ends late ---------------------------------------------------------------------

  function Go(pid: Pid, k: nat): Event {
    Advance(pid, Choice(true, 0, false, k))
  }

  predicate SigningInBeside(s: State, k: nat) {
    && 2 !in s.actions && 3 !in s.actions && 0 in s.actions && s.actions[0].kind.SignOut? && s.actions[0].pc.LoggingOut?
    && s.storage.verifier == Some(k) && !s.storage.failed && !s.storage.disposed && s.handling.None?
  }

  /** A sign-in starts while the hosted logout of a sign-out is still being waited for. */
  lemma SignInBesideLogout(s: State, k: nat) returns (events: seq<Event>)
    requires Launch(s)
    ensures ValidRun(s, events) && SigningInBeside(Run(s, events), k)
  {
    var go := Go(1, k);
    var s1 := Apply(s, StartSignOut(0, false, false));
    var s2 := Apply(s1, BeginSignIn(1, false));
    var s3 := Apply(s2, go);
    var s4 := Apply(s3, go);
    assert s4.actions[1].pc == Opening && SigningInBeside(s4, k);
    RunCons(s3, go, []);
    RunCons(s2, go, [go]);
    RunCons(s1, BeginSignIn(1, false), [go, go]);
    RunCons(s, StartSignOut(0, false, false), [BeginSignIn(1, false), go, go]);
    events := [StartSignOut(0, false, false)] + [BeginSignIn(1, false), go, go];
  }

  predicate SignedInBeside(s: State) {
    && 0 in s.actions && s.actions[0].kind.SignOut? && s.actions[0].pc.LoggingOut?
    && ShownAs(s, 2) && !s.storage.failed && !s.storage.disposed
  }

  lemma SignInCompletes(s: State, k: nat) returns (events: seq<Event>)
    requires SigningInBeside(s, k)
    ensures ValidRun(s, events) && SignedInBeside(Run(s, events))
  {
    var go := Go(2, k);
    var s1 := Apply(s, Callback(2, k, false));
    var s2 := Apply(s1, go);
    var s3 := Apply(s2, go);
    var s4 := Apply(s3, go);
    var s5 := Apply(s4, go);
    var s6 := Apply(s5, go);
    assert s4.actions[2].pc == Leaving(User(Session(0, Some(2))));
    assert SignedInBeside(s6);
    RunCons(s5, go, []);
    RunCons(s4, go, [go]);
    RunCons(s3, go, [go, go]);
    RunCons(s2, go, [go, go, go]);
    RunCons(s1, go, [go, go, go, go]);
    RunCons(s, Callback(2, k, false), [go, go, go, go, go]);
    events := [Callback(2, k, false)] + [go, go, go, go, go];
  }

  lemma LogoutAnswers(s: State)
    requires SignedInBeside(s)
    ensures ValidRun(s, [Go(0, 0)])
    ensures var t := Run(s, [Go(0, 0)]); ShownAs(t, 2) && t.storage.session.None? && !t.storage.failed
  {
    RunCons(s, Go(0, 0), []);
    assert [Go(0, 0)] + [] == [Go(0, 0)];
  }

  /**
   * The last clear of a sign-out runs under whatever generation is current when the hosted logout
   * answers, so it takes the session of a sign-in made meanwhile, which is still shown as signed in.
   */
  lemma LateSignOutTakesNewSession(s: State, k: nat) returns (events: seq<Event>)
    requires Launch(s)
    ensures ValidRun(s, events)
    ensures var t := Run(s, events); ShownAs(t, 2) && t.storage.session.None? && !t.storage.failed
  {
    hide Launch, ValidRun, Run, Apply, SigningInBeside, SignedInBeside;
    var first := SignInBesideLogout(s, k);
    var second := SignInCompletes(Run(s, first), k);
    RunConcat(s, first, second);
    LogoutAnswers(Run(s, first + second));
    RunConcat(s, first + second, [Go(0, 0)]);
    events := first + second + [Go(0, 0)];
  }

  // --- an abandoned sign-in that is shown all the same -------------------------------------------------

  /** The callback has stored its session and not yet come back from `run`. */
  lemma StoredAndLive(s: State, k: nat) returns (events: seq<Event>)
    requires Launch(s)
    ensures ValidRun(s, events)
    ensures var t := Run(s, events);
            LiveExchange(t, 2) && Stores(t.storage.session, 2) && !t.storage.failed && !t.storage.disposed && 3 !in t.actions
  {
    hide Launch, ValidRun, Run, Apply, SigningInBeside, LiveExchange, Stores;
    var first := SignInBesideLogout(s, k);
    var later := CallbackStores(Run(s, first), k);
    RunConcat(s, first, later);
    events := first + later;
  }

  lemma CallbackStores(s: State, k: nat) returns (events: seq<Event>)
    requires SigningInBeside(s, k)
    ensures ValidRun(s, events)
    ensures var t := Run(s, events);
            LiveExchange(t, 2) && Stores(t.storage.session, 2) && !t.storage.failed && !t.storage.disposed && 3 !in t.actions
  {
    var go := Go(2, k);
    var s1 := Apply(s, Callback(2, k, false));
    var s2 := Apply(s1, go);
    var s3 := Apply(s2, go);
    var s4 := Apply(s3, go);
    assert s4.actions[2].pc == Leaving(User(Session(0, Some(2))));
    RunCons(s3, go, []);
    RunCons(s2, go, [go]);
    RunCons(s1, go, [go, go]);
    RunCons(s, Callback(2, k, false), [go, go, go]);
    events := [Callback(2, k, false)] + [go, go, go];
  }

  /** The failing input: a sign-in is abandoned after that write, and the next read shows it as signed in. */
  lemma AbandonedIsShown(s: State, k: nat) returns (before: seq<Event>, after: seq<Event>)
    requires Launch(s)
    ensures ValidRun(s, before) && LiveExchange(Run(s, before), 2)
    ensures ValidRun(Abandoned(Run(s, before), false), after) && ShownAs(Run(Abandoned(Run(s, before), false), after), 2)
  {
    hide Launch, ValidRun, Run, LiveExchange, ShownAs, Stores;
    before := StoredAndLive(s, k);
    after := KeptIsShown(Abandoned(Run(s, before), false), 3, 2);
  }
}
