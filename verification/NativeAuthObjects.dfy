/**
 * The token store and the sign-in as objects. Each turn between awaits is a method, each whole call
 * is assembled from them, and every one is proved to be a valid run of the step-by-step model.
 */
module NativeAuthObjects {
  import opened Text
  import opened NativeAuth

  class TokenStorage {
    var generation: nat
    var disposed: bool
    var failed: bool
    var consumed: nat
    var session: Option<Session>
    var verifier: Option<nat>

    function Model(): Storage
      reads this
    {
      Storage(generation, disposed, failed, consumed, session, verifier)
    }

    constructor (kept: Option<Session>, pending: Option<nat>)
      ensures Model() == Storage(0, false, false, 0, kept, pending)
    {
      generation, disposed, failed, consumed := 0, false, false, 0;
      session, verifier := kept, pending;
    }

    /** Throws, as false, out of date or once the store failed. */
    method AssertCurrent(epoch: nat) returns (ok: bool)
      ensures ok == Current(Model(), epoch)
    {
      ok := !failed && !disposed && generation == epoch;
    }

    method SetSession(epoch: nat, value: Session, breaks: bool) returns (ok: bool)
      modifies this
      ensures Model() == Guarded(old(Model()), epoch, Write.SetSession(value), breaks)
      ensures ok == Writes(old(Model()), epoch, breaks)
    {
      ok := AssertCurrent(epoch);
      if !ok { return; }
      if breaks { failed := true; return false; }
      session := Some(value);
    }

    method ClearSession(epoch: nat, breaks: bool) returns (ok: bool)
      modifies this
      ensures Model() == Guarded(old(Model()), epoch, Write.ClearSession, breaks)
      ensures ok == Writes(old(Model()), epoch, breaks)
    {
      ok := AssertCurrent(epoch);
      if !ok { return; }
      if breaks { failed := true; return false; }
      session := None;
    }

    /** One pending ceremony at a time. */
    method SetPendingVerifier(epoch: nat, key: nat, breaks: bool) returns (ok: bool)
      modifies this
      ensures Model() == Guarded(old(Model()), epoch, SetVerifier(key), breaks)
      ensures ok == Writes(old(Model()), epoch, breaks)
    {
      ok := AssertCurrent(epoch);
      if !ok { return; }
      if breaks { failed := true; return false; }
      verifier := Some(key);
    }

    /** A verifier is taken at most once, and counted. */
    method TakePendingVerifier(epoch: nat, key: nat, breaks: bool) returns (ok: bool, taken: bool)
      modifies this
      ensures Model() == Guarded(old(Model()), epoch, TakeVerifier(key), breaks)
      ensures ok == Writes(old(Model()), epoch, breaks)
      ensures taken <==> ok && old(verifier) == Some(key)
      ensures taken ==> verifier.None? && consumed == old(consumed) + 1
    {
      taken := false;
      ok := AssertCurrent(epoch);
      if !ok { return; }
      if breaks { failed := true; return false, false; }
      if verifier == Some(key) {
        taken, verifier, consumed := true, None, consumed + 1;
      }
    }

    method Invalidate(breaks: bool) returns (ok: bool)
      modifies this
      ensures Model() == Invalidated(old(Model()), breaks)
      ensures ok == !breaks
    {
      generation := generation + 1;
      if breaks { failed := true; } else { verifier := None; }
      ok := !breaks;
    }

    method Dispose()
      modifies this
      ensures Model() == old(Model()).(generation := old(generation) + 1, disposed := true)
    {
      generation, disposed := generation + 1, true;
    }
  }

  // --- runs ---------------------------------------------------------------------------------------

  /** Some valid run leads from `s` to `t`. */
  ghost predicate Reaches(s: State, t: State) {
    exists events: seq<Event> :: ValidRun(s, events) && Run(s, events) == t
  }

  lemma ReachesNow(s: State)
    ensures Reaches(s, s)
  {
    assert ValidRun(s, []) && Run(s, []) == s;
  }

  lemma ReachesNext(s: State, t: State, event: Event)
    requires Reaches(s, t) && Enabled(t, event)
    ensures Reaches(s, Apply(t, event))
  {
    hide Enabled, Apply, ValidRun, Run;
    var events: seq<Event> :| ValidRun(s, events) && Run(s, events) == t;
    OneEvent(Run(s, events), event);
    RunConcat(s, events, [event]);
  }

  lemma ReachesTurn(s: State, t: State, pid: Pid, choice: Choice)
    requires Reaches(s, t) && pid in t.actions
    ensures Reaches(s, Apply(t, Advance(pid, choice)))
  {
    hide Apply, Reaches;
    ReachesNext(s, t, Advance(pid, choice));
  }

  /** What is reached from a reachable state is reachable, so every promise about runs is the object's. */
  lemma ReachedIsReachable(s: State, t: State)
    requires Reachable(s) && Reaches(s, t)
    ensures Reachable(t)
  {
    hide ValidRun, Run;
    var start: State, before: seq<Event> :| Launch(start) && ValidRun(start, before) && s == Run(start, before);
    var events: seq<Event> :| ValidRun(s, events) && Run(s, events) == t;
    RunConcat(start, before, events);
  }

  /** One action moved on; it is the same call still. */
  ghost predicate OnlyMoved(before: map<Pid, Action>, after: map<Pid, Action>, pid: Pid) {
    pid in before && pid in after && after == before[pid := before[pid].(pc := after[pid].pc)]
  }

  /** `actions` is the work waiting at an await; the host resumes it, so it is not stored here. */
  class SignIn {
    const storage: TokenStorage
    var status: Status
    var handling: Option<nat>
    var attempt: Option<Pid>
    var reading: Option<Pid>
    ghost var actions: map<Pid, Action>

    ghost function Model(): State
      reads this, storage
    {
      State(storage.Model(), status, handling, attempt, reading, actions)
    }

    constructor (storage: TokenStorage)
      ensures this.storage == storage
      ensures Model() == State(storage.Model(), SignedOut, None, None, None, map[])
    {
      this.storage := storage;
      status, handling, attempt, reading, actions := SignedOut, None, None, None, map[];
    }

    method BeginSignIn(pid: Pid, breaks: bool) returns (ok: bool)
      requires pid !in actions
      modifies this, storage
      ensures ok <==> old(!storage.disposed && !storage.failed && !status.SigningIn? && !status.SignedIn? && handling.None?) && !breaks
      ensures ok ==> Model() == Begun(old(Model()), pid, false) && Enabled(old(Model()), NativeAuth.BeginSignIn(pid, false))
      ensures !ok ==> actions == old(actions)
      ensures !ok ==> Model() == if Enabled(old(Model()), NativeAuth.BeginSignIn(pid, true)) then Begun(old(Model()), pid, true) else old(Model())
    {
      if storage.disposed || storage.failed || status.SigningIn? || handling.Some? || status.SignedIn? { return false; }
      attempt := None;
      ok := storage.Invalidate(breaks);
      if !ok { return; }
      reading, status := None, SigningIn;
      actions := actions[pid := Action(Begin, storage.generation, storage.consumed, Listening)];
    }

    method SignOut(pid: Pid, breaks: bool, clearBreaks: bool) returns (ok: bool)
      requires pid !in actions
      modifies this, storage
      ensures Model() == if old(storage.disposed) then old(Model()) else SigningOut(old(Model()), pid, breaks, clearBreaks)
      ensures ok <==> !old(storage.disposed) && !breaks
    {
      if storage.disposed { return false; }
      attempt := None;
      ok := storage.Invalidate(breaks);
      if !ok { return; }
      handling, reading, status := None, None, SignedOut;
      var cleared := storage.ClearSession(storage.generation, clearBreaks);
      actions := actions[pid := Action(Kind.SignOut, storage.generation, storage.consumed, LoggingOut)];
    }

    /** The generation advances, and the lock is free for the next attempt's callback. */
    method Abandon(breaks: bool)
      modifies this, storage
      ensures Model() == Abandoned(old(Model()), breaks)
      ensures handling.None? && storage.generation == old(storage.generation) + 1
    {
      attempt := None;
      var deleted := storage.Invalidate(breaks);
      handling, reading, status := None, None, Unfinished;
    }

    /** A callback that is let in takes the lock under its own epoch. */
    method HandleCallback(pid: Pid, key: nat, refused: bool) returns (entered: bool)
      requires pid !in actions
      modifies this
      ensures entered == Enabled(old(Model()), Callback(pid, key, refused))
      ensures Model() == if entered then Apply(old(Model()), Callback(pid, key, refused)) else old(Model())
    {
      if storage.disposed || handling.Some? { return false; }
      handling := Some(storage.generation);
      actions := actions[pid := Action(Exchange, storage.generation, storage.consumed, Taking(key, refused))];
      return true;
    }

    /** What the exchange does when `run` hands its result back, its own cleanup included. */
    method ConcludeCallback(pid: Pid, epoch: nat, auth: Auth, choice: Choice) returns (finished: bool, failing: bool)
      requires pid in actions && actions[pid].kind.Exchange? && actions[pid].epoch == epoch && actions[pid].pc == Concluding(auth)
      modifies this
      ensures Model() == Apply(old(Model()), Advance(pid, choice))
      ensures finished <==> actions[pid].pc == Ended(true)
      ensures failing <==> actions[pid].pc.Failing?
      ensures OnlyMoved(old(actions), actions, pid)
    {
      failing := false;
      if auth.NoVerifier? || storage.generation != epoch || storage.disposed {
        finished := false;
      } else if auth.User? && !choice.ok {
        actions := actions[pid := actions[pid].(pc := Failing)];
        return false, true;
      } else {
        status := if auth.User? then SignedIn(auth.session) else Unfinished;
        attempt := None;
        finished := true;
      }
      actions := actions[pid := actions[pid].(pc := Ended(finished))];
      if handling == Some(epoch) { handling := None; }
    }

    /** What the exchange does when it threw. */
    method FailCallback(pid: Pid, epoch: nat, consumed: nat, choice: Choice)
      requires pid in actions && actions[pid] == Action(Exchange, epoch, consumed, Failing)
      modifies this
      ensures Model() == Apply(old(Model()), Advance(pid, choice))
      ensures OnlyMoved(old(actions), actions, pid) && actions[pid].pc == Ended(false)
    {
      if storage.generation == epoch && storage.consumed != consumed {
        status, attempt := Unfinished, None;
      }
      actions := actions[pid := actions[pid].(pc := Ended(false))];
      if handling == Some(epoch) { handling := None; }
    }

    // --- the other turns of a callback ---------------------------------------------------------------

    method TakeVerifier(pid: Pid, epoch: nat, key: nat, refused: bool, choice: Choice) returns (next: Pc)
      requires pid in actions && actions[pid].kind.Exchange? && actions[pid].epoch == epoch && actions[pid].pc == Taking(key, refused)
      modifies this, storage
      ensures Model() == Apply(old(Model()), Advance(pid, choice))
      ensures OnlyMoved(old(actions), actions, pid) && next == actions[pid].pc
    {
      var ok, taken := storage.TakePendingVerifier(epoch, key, choice.breaks);
      if !ok {
        next := Failing;
      } else if taken {
        next := if refused then Leaving(NoUser) else AtProvider;
      } else {
        next := if refused then Leaving(NoVerifier) else Failing;
      }
      actions := actions[pid := actions[pid].(pc := next)];
    }

    method AskProvider(pid: Pid, choice: Choice) returns (next: Pc)
      requires pid in actions && actions[pid].kind.Exchange? && actions[pid].pc.AtProvider?
      modifies this
      ensures Model() == Apply(old(Model()), Advance(pid, choice))
      ensures OnlyMoved(old(actions), actions, pid) && next == actions[pid].pc
      ensures unchanged(storage)
    {
      next := if choice.ok then Storing(Session(choice.account, Some(pid))) else Failing;
      actions := actions[pid := actions[pid].(pc := next)];
    }

    method StoreSession(pid: Pid, epoch: nat, session: Session, choice: Choice) returns (next: Pc)
      requires pid in actions && actions[pid].kind.Exchange? && actions[pid].epoch == epoch && actions[pid].pc == Storing(session)
      modifies this, storage
      ensures Model() == Apply(old(Model()), Advance(pid, choice))
      ensures OnlyMoved(old(actions), actions, pid) && next == actions[pid].pc
    {
      var ok := storage.SetSession(epoch, session, choice.breaks);
      next := if ok then Leaving(User(session)) else Failing;
      actions := actions[pid := actions[pid].(pc := next)];
    }

    method LeaveRun(pid: Pid, epoch: nat, auth: Auth, choice: Choice) returns (next: Pc)
      requires pid in actions && actions[pid].kind.Exchange? && actions[pid].epoch == epoch && actions[pid].pc == Leaving(auth)
      modifies this
      ensures Model() == Apply(old(Model()), Advance(pid, choice))
      ensures OnlyMoved(old(actions), actions, pid) && next == actions[pid].pc
    {
      var ok := storage.AssertCurrent(epoch);
      next := if ok then Concluding(auth) else Failing;
      actions := actions[pid := actions[pid].(pc := next)];
    }

    // --- the other turns of a sign-in ----------------------------------------------------------------

    method Listen(pid: Pid, epoch: nat, choice: Choice) returns (next: Pc)
      requires pid in actions && actions[pid].kind.Begin? && actions[pid].epoch == epoch && actions[pid].pc.Listening?
      modifies this, storage
      ensures Model() == Apply(old(Model()), Advance(pid, choice))
      ensures OnlyMoved(old(actions), actions, pid) && next == actions[pid].pc
    {
      if storage.generation != epoch || storage.disposed {
        next := FailingBegin;
      } else {
        attempt := Some(pid);
        var ok := storage.ClearSession(epoch, choice.breaks);
        next := if ok then Sealing else FailingBegin;
      }
      actions := actions[pid := actions[pid].(pc := next)];
    }

    method Seal(pid: Pid, epoch: nat, choice: Choice) returns (next: Pc)
      requires pid in actions && actions[pid].kind.Begin? && actions[pid].epoch == epoch && actions[pid].pc.Sealing?
      modifies this, storage
      ensures Model() == Apply(old(Model()), Advance(pid, choice))
      ensures OnlyMoved(old(actions), actions, pid) && next == actions[pid].pc
    {
      var ok := storage.SetPendingVerifier(epoch, choice.key, choice.breaks);
      next := if ok then Opening else FailingBegin;
      actions := actions[pid := actions[pid].(pc := next)];
    }

    method OpenBrowser(pid: Pid, choice: Choice) returns (next: Pc)
      requires pid in actions && actions[pid].kind.Begin? && actions[pid].pc.Opening?
      modifies this
      ensures Model() == Apply(old(Model()), Advance(pid, choice))
      ensures OnlyMoved(old(actions), actions, pid) && next == actions[pid].pc
    {
      next := if choice.ok then LeavingBegin else FailingBegin;
      actions := actions[pid := actions[pid].(pc := next)];
    }

    method LeaveBegin(pid: Pid, epoch: nat, choice: Choice) returns (next: Pc)
      requires pid in actions && actions[pid].kind.Begin? && actions[pid].epoch == epoch && actions[pid].pc.LeavingBegin?
      modifies this
      ensures Model() == Apply(old(Model()), Advance(pid, choice))
      ensures OnlyMoved(old(actions), actions, pid) && next == actions[pid].pc
    {
      var ok := storage.AssertCurrent(epoch);
      next := if ok then Ended(true) else FailingBegin;
      actions := actions[pid := actions[pid].(pc := next)];
    }

    /** A sign-in that failed ends its own generation, and no other. */
    method FailBegin(pid: Pid, epoch: nat, choice: Choice)
      requires pid in actions && actions[pid].kind.Begin? && actions[pid].epoch == epoch && actions[pid].pc.FailingBegin?
      modifies this, storage
      ensures Model() == Apply(old(Model()), Advance(pid, choice))
      ensures OnlyMoved(old(actions), actions, pid) && actions[pid].pc == Ended(false)
      ensures storage.generation == old(storage.generation) + (if old(storage.generation) == epoch then 1 else 0)
    {
      if storage.generation == epoch {
        attempt := None;
        var ok := storage.Invalidate(choice.breaks);
        if ok { status := SignedOut; }
      }
      actions := actions[pid := actions[pid].(pc := Ended(false))];
    }

    /** After the hosted logout the session is cleared once more, under the generation current now. */
    method LoggedOut(pid: Pid, choice: Choice)
      requires pid in actions && actions[pid].kind.SignOut? && actions[pid].pc.LoggingOut?
      modifies this, storage
      ensures Model() == Apply(old(Model()), Advance(pid, choice))
      ensures OnlyMoved(old(actions), actions, pid) && actions[pid].pc.Ended?
    {
      var cleared := storage.ClearSession(storage.generation, choice.breaks);
      actions := actions[pid := actions[pid].(pc := Ended(choice.ok))];
    }

    // --- the turns of a read ---------------------------------------------------------------------------

    /** One read at a time, and none while a sign-in is under way. */
    method GetUser(pid: Pid) returns (entered: bool)
      requires pid !in actions
      modifies this
      ensures entered == Enabled(old(Model()), NativeAuth.GetUser(pid))
      ensures Model() == if entered then Apply(old(Model()), NativeAuth.GetUser(pid)) else old(Model())
    {
      if storage.disposed || storage.failed || status.SigningIn? || handling.Some? || reading.Some? { return false; }
      reading := Some(pid);
      actions := actions[pid := Action(Read, storage.generation, storage.consumed, ReadingSession)];
      return true;
    }

    method ReadSession(pid: Pid, epoch: nat, choice: Choice) returns (next: Pc)
      requires pid in actions && actions[pid].kind.Read? && actions[pid].epoch == epoch && actions[pid].pc.ReadingSession?
      modifies this
      ensures Model() == Apply(old(Model()), Advance(pid, choice))
      ensures OnlyMoved(old(actions), actions, pid) && next == actions[pid].pc
    {
      var ok := storage.AssertCurrent(epoch);
      next := if !ok then Ended(false) else if storage.session.Some? then Refreshing(storage.session.value) else LeavingRead(None);
      actions := actions[pid := actions[pid].(pc := next)];
      if !ok && reading == Some(pid) { reading := None; }
    }

    /** The session is kept, refreshed, or dropped when it can no longer be used. */
    method RefreshSession(pid: Pid, epoch: nat, kept: Session, choice: Choice) returns (next: Pc)
      requires pid in actions && actions[pid].kind.Read? && actions[pid].epoch == epoch && actions[pid].pc == Refreshing(kept)
      modifies this, storage
      ensures Model() == Apply(old(Model()), Advance(pid, choice))
      ensures OnlyMoved(old(actions), actions, pid) && next == actions[pid].pc
    {
      var ok;
      if choice.ok { ok := storage.SetSession(epoch, kept, choice.breaks); } else { ok := storage.ClearSession(epoch, choice.breaks); }
      next := if ok then LeavingRead(if choice.ok then Some(kept) else None) else Ended(false);
      actions := actions[pid := actions[pid].(pc := next)];
      if !ok && reading == Some(pid) { reading := None; }
    }

    method LeaveRead(pid: Pid, epoch: nat, read: Option<Session>, choice: Choice) returns (next: Pc)
      requires pid in actions && actions[pid].kind.Read? && actions[pid].epoch == epoch && actions[pid].pc == LeavingRead(read)
      modifies this
      ensures Model() == Apply(old(Model()), Advance(pid, choice))
      ensures OnlyMoved(old(actions), actions, pid) && next == actions[pid].pc
    {
      var ok := storage.AssertCurrent(epoch);
      next := if ok then Displaying(read) else Ended(false);
      actions := actions[pid := actions[pid].(pc := next)];
      if !ok && reading == Some(pid) { reading := None; }
    }

    method Display(pid: Pid, epoch: nat, read: Option<Session>, choice: Choice) returns (next: Pc)
      requires pid in actions && actions[pid].kind.Read? && actions[pid].epoch == epoch && actions[pid].pc == Displaying(read)
      modifies this
      ensures Model() == Apply(old(Model()), Advance(pid, choice))
      ensures OnlyMoved(old(actions), actions, pid) && next == actions[pid].pc
    {
      var ok := storage.generation == epoch && !storage.disposed;
      if ok { status := if read.Some? then SignedIn(read.value) else SignedOut; }
      next := Ended(ok);
      actions := actions[pid := actions[pid].(pc := next)];
      if reading == Some(pid) { reading := None; }
    }

    // --- whole calls, with nobody else moving ------------------------------------------------------------

    /** A sign-in from its first turn to its last; true once the browser has the page and the attempt waits. */
    method RunBegin(pid: Pid, breaks: bool, listen: Choice, seal: Choice, open: Choice, leave: Choice, fail: Choice) returns (waits: bool)
      requires pid !in actions
      modifies this, storage
      ensures Reaches(old(Model()), Model())
      ensures waits <==>
                && old(!storage.disposed && !storage.failed && !status.SigningIn? && !status.SignedIn? && handling.None?)
                && !breaks && !listen.breaks && !seal.breaks && open.ok
      ensures waits ==> storage.verifier == Some(seal.key) && storage.session.None? && status.SigningIn? && attempt == Some(pid) && handling.None?
      ensures waits ==> storage.generation == old(storage.generation) + 1 && !storage.failed && !storage.disposed
      ensures pid in actions && !waits ==>
                storage.generation == old(storage.generation) + 2 && attempt.None? && (!fail.breaks ==> status.SignedOut?)
    {
      hide Apply, Reaches, Begun, Enabled;
      ghost var was := Model();
      ReachesNow(was);
      waits := BeginSignIn(pid, breaks);
      BeganReaches(was, pid, waits, Model());
      if !waits { return; }
      BegunIs(was, pid);
      var epoch := storage.generation;
      ReachesTurn(was, Model(), pid, listen);
      label Listening:
      var next := Listen(pid, epoch, listen);
      ListenIs(old@Listening(Model()), pid, listen);
      if next.Sealing? {
        ReachesTurn(was, Model(), pid, seal);
        label Sealing:
        next := Seal(pid, epoch, seal);
        SealIs(old@Sealing(Model()), pid, seal);
      }
      if next.Opening? {
        ReachesTurn(was, Model(), pid, open);
        label Opening:
        next := OpenBrowser(pid, open);
        OpenIs(old@Opening(Model()), pid, open);
      }
      if next.LeavingBegin? {
        ReachesTurn(was, Model(), pid, leave);
        label Leaving:
        next := LeaveBegin(pid, epoch, leave);
        LeaveBeginIs(old@Leaving(Model()), pid, leave);
      }
      waits := next == Ended(true);
      if !waits {
        ReachesTurn(was, Model(), pid, fail);
        label Failing:
        FailBegin(pid, epoch, fail);
        FailedBeginIs(old@Failing(Model()), pid, fail);
      }
    }

    /** The exchange inside `run`: what it hands back, or that it threw. */
    method RunExchange(ghost was: State, pid: Pid, epoch: nat, consumed: nat, key: nat, refused: bool, take: Choice, ask: Choice, store: Choice, leave: Choice)
      returns (next: Pc)
      requires pid in actions && actions[pid] == Action(Exchange, epoch, consumed, Taking(key, refused))
      requires Reaches(was, Model())
      modifies this, storage
      ensures Reaches(was, Model())
      ensures pid in actions && actions[pid] == Action(Exchange, epoch, consumed, next) && (next.Failing? || next.Concluding?)
      ensures handling == old(handling) && status == old(status) && storage.generation == old(storage.generation)
      ensures storage.consumed == old(storage.consumed)
                + (if Writes(old(storage.Model()), epoch, take.breaks) && old(storage.verifier) == Some(key) then 1 else 0)
      ensures next.Concluding? <==>
                Writes(old(storage.Model()), epoch, take.breaks) && (refused || (old(storage.verifier) == Some(key) && ask.ok && !store.breaks))
      ensures next.Concluding? ==> Current(storage.Model(), epoch) && next.auth.User? == !refused
      ensures next.Concluding? ==> (next.auth.NoVerifier? <==> old(storage.verifier) != Some(key))
      ensures next.Concluding? && next.auth.User? ==> storage.session == Some(next.auth.session) && old(storage.verifier) == Some(key)
    {
      hide Apply, Reaches;
      ReachesTurn(was, Model(), pid, take);
      label Taking:
      next := TakeVerifier(pid, epoch, key, refused, take);
      TakenIs(old@Taking(Model()), pid, take);
      if next.AtProvider? {
        ReachesTurn(was, Model(), pid, ask);
        label Asking:
        next := AskProvider(pid, ask);
        AskedIs(old@Asking(Model()), pid, ask);
      }
      if next.Storing? {
        ReachesTurn(was, Model(), pid, store);
        label Storing:
        next := StoreSession(pid, epoch, next.session, store);
        StoredIs(old@Storing(Model()), pid, store);
      }
      if next.Leaving? {
        ReachesTurn(was, Model(), pid, leave);
        label Leaving:
        next := LeaveRun(pid, epoch, next.auth, leave);
        LeftIs(old@Leaving(Model()), pid, leave);
      }
    }

    /**
     * A callback from its first turn to its last; true once it is done with. One let in gives the
     * lock back, and a sign-in it shows is the one it stored.
     */
    method RunCallback(pid: Pid, key: nat, refused: bool, take: Choice, ask: Choice, store: Choice, leave: Choice, conclude: Choice, fail: Choice)
      returns (entered: bool, finished: bool)
      requires pid !in actions
      modifies this, storage
      ensures Reaches(old(Model()), Model())
      ensures entered <==> !old(storage.disposed) && old(handling).None?
      ensures entered ==> pid in actions && actions[pid].pc == Ended(finished) && handling.None?
      ensures !entered ==> Model() == old(Model()) && !finished
      ensures finished <==>
                && entered && !old(storage.failed) && !take.breaks && old(storage.verifier) == Some(key)
                && (refused || (ask.ok && !store.breaks && conclude.ok))
      ensures finished && !refused ==> status.SignedIn? && storage.session == Some(status.session) && old(storage.verifier) == Some(key)
      ensures finished && refused ==> status.Unfinished?
      ensures entered && !finished ==>
                status == if !old(storage.failed) && !take.breaks && old(storage.verifier) == Some(key) then Unfinished else old(status)
    {
      hide Apply, Reaches;
      ghost var was := Model();
      ReachesNow(was);
      entered := HandleCallback(pid, key, refused);
      finished := false;
      if !entered { return; }
      ReachesNext(was, was, Callback(pid, key, refused));
      EnteredIs(was, pid, key, refused);
      var epoch, consumed := storage.generation, storage.consumed;
      var next := RunExchange(was, pid, epoch, consumed, key, refused, take, ask, store, leave);
      var failing := next.Failing?;
      if next.Concluding? {
        ReachesTurn(was, Model(), pid, conclude);
        label Concluding:
        finished, failing := ConcludeCallback(pid, epoch, next.auth, conclude);
        ConcludedIs(old@Concluding(Model()), pid, conclude);
      }
      if failing {
        ReachesTurn(was, Model(), pid, fail);
        label Failing:
        FailCallback(pid, epoch, consumed, fail);
        FailedIs(old@Failing(Model()), pid, fail);
      }
    }

    /**
     * A read from its first turn to its last. It shows the session the store has, which the provider may have
     * refreshed, or nobody if there is none or it could not be used any more.
     */
    method RunRead(pid: Pid, read: Choice, refresh: Choice, leave: Choice, display: Choice) returns (entered: bool, shown: bool)
      requires pid !in actions
      modifies this, storage
      ensures Reaches(old(Model()), Model())
      ensures entered <==> old(!storage.disposed && !storage.failed && !status.SigningIn? && handling.None? && reading.None?)
      ensures !entered ==> Model() == old(Model()) && !shown
      ensures entered ==> reading.None? && (shown <==> old(storage.session).None? || !refresh.breaks)
      ensures shown ==> storage.session == if refresh.ok then old(storage.session) else None
      ensures shown ==> status == if storage.session.Some? then SignedIn(storage.session.value) else SignedOut
      ensures entered && !shown ==> status == old(status) && storage.failed
    {
      hide Apply, Reaches, Enabled;
      ghost var was := Model();
      ReachesNow(was);
      entered := GetUser(pid);
      ReadEnabled(was, pid);
      shown := false;
      if !entered { return; }
      ReachesNext(was, was, NativeAuth.GetUser(pid));
      ReadBegunIs(was, pid);
      var epoch := storage.generation;
      ReachesTurn(was, Model(), pid, read);
      label Reading:
      var next := ReadSession(pid, epoch, read);
      ReadIs(old@Reading(Model()), pid, read);
      if next.Refreshing? {
        ReachesTurn(was, Model(), pid, refresh);
        label Refreshing:
        next := RefreshSession(pid, epoch, next.kept, refresh);
        RefreshedIs(old@Refreshing(Model()), pid, refresh);
      }
      if next.LeavingRead? {
        ReachesTurn(was, Model(), pid, leave);
        label Leaving:
        next := LeaveRead(pid, epoch, next.read, leave);
        ReadLeftIs(old@Leaving(Model()), pid, leave);
        ReachesTurn(was, Model(), pid, display);
        label Displaying:
        next := Display(pid, epoch, next.read, display);
        DisplayedIs(old@Displaying(Model()), pid, display);
        shown := true;
      }
    }

    /** A sign-out from its first turn to its last. */
    method RunSignOut(pid: Pid, breaks: bool, clearBreaks: bool, logout: Choice) returns (done: bool)
      requires pid !in actions
      modifies this, storage
      ensures Reaches(old(Model()), Model())
      ensures done <==> !old(storage.disposed) && !breaks
      ensures done ==> status.SignedOut? && handling.None? && storage.generation == old(storage.generation) + 1
      ensures done && !storage.failed ==> storage.session.None?
    {
      hide Apply, Reaches, SigningOut, Enabled;
      ghost var was := Model();
      ReachesNow(was);
      done := SignOut(pid, breaks, clearBreaks);
      SignedOutReaches(was, pid, breaks, clearBreaks);
      if !done { return; }
      SigningOutIs(was, pid, clearBreaks);
      ReachesTurn(was, Model(), pid, logout);
      label LoggingOut:
      LoggedOut(pid, logout);
      LoggedOutIs(old@LoggingOut(Model()), pid, logout);
    }
  }

  // --- what single turns leave ----------------------------------------------------------------------

  lemma BeganReaches(s: State, pid: Pid, waits: bool, t: State)
    requires pid !in s.actions
    requires waits ==> t == Begun(s, pid, false) && Enabled(s, Event.BeginSignIn(pid, false))
    requires !waits ==> t == if Enabled(s, Event.BeginSignIn(pid, true)) then Begun(s, pid, true) else s
    ensures Reaches(s, t)
  {
    hide Reaches, Enabled, Begun;
    ReachesNow(s);
    if waits { ReachesNext(s, s, Event.BeginSignIn(pid, false)); }
    else if Enabled(s, Event.BeginSignIn(pid, true)) { ReachesNext(s, s, Event.BeginSignIn(pid, true)); }
  }

  lemma BegunIs(s: State, pid: Pid)
    requires Enabled(s, Event.BeginSignIn(pid, false))
    ensures var t := Begun(s, pid, false);
            && pid in t.actions && t.actions[pid].kind.Begin? && t.actions[pid].pc.Listening? && t.actions[pid].epoch == t.storage.generation
            && t.storage.generation == s.storage.generation + 1 && t.status.SigningIn? && t.handling.None?
            && Current(t.storage, t.storage.generation)
  {
  }

  lemma ListenIs(s: State, pid: Pid, choice: Choice)
    requires pid in s.actions && s.actions[pid].kind.Begin? && s.actions[pid].pc.Listening? && s.actions[pid].epoch == s.storage.generation
    ensures var t := Apply(s, Advance(pid, choice));
            && t.actions[pid].pc == (if Writes(s.storage, s.storage.generation, choice.breaks) then Sealing else FailingBegin)
            && t.status == s.status && t.handling == s.handling && t.storage.generation == s.storage.generation
            && (t.actions[pid].pc.Sealing? ==> t.storage.session.None? && t.attempt == Some(pid) && !t.storage.failed && !t.storage.disposed)
  {
  }

  lemma SealIs(s: State, pid: Pid, choice: Choice)
    requires pid in s.actions && s.actions[pid].kind.Begin? && s.actions[pid].pc.Sealing?
    ensures var t := Apply(s, Advance(pid, choice));
            && t.actions[pid].pc == (if Writes(s.storage, s.actions[pid].epoch, choice.breaks) then Opening else FailingBegin)
            && t.status == s.status && t.handling == s.handling && t.attempt == s.attempt && t.storage.generation == s.storage.generation
            && (t.actions[pid].pc.Opening? ==> t.storage == s.storage.(verifier := Some(choice.key)))
  {
  }

  lemma OpenIs(s: State, pid: Pid, choice: Choice)
    requires pid in s.actions && s.actions[pid].kind.Begin? && s.actions[pid].pc.Opening?
    ensures var t := Apply(s, Advance(pid, choice));
            && t.actions[pid].pc == (if choice.ok then LeavingBegin else FailingBegin)
            && t.storage == s.storage && t.status == s.status && t.handling == s.handling && t.attempt == s.attempt
  {
  }

  lemma LeaveBeginIs(s: State, pid: Pid, choice: Choice)
    requires pid in s.actions && s.actions[pid].kind.Begin? && s.actions[pid].pc.LeavingBegin?
    ensures var t := Apply(s, Advance(pid, choice));
            && t.actions[pid].pc == (if Current(s.storage, s.actions[pid].epoch) then Ended(true) else FailingBegin)
            && t.storage == s.storage && t.status == s.status && t.handling == s.handling && t.attempt == s.attempt
  {
  }

  lemma FailedBeginIs(s: State, pid: Pid, choice: Choice)
    requires pid in s.actions && s.actions[pid].kind.Begin? && s.actions[pid].pc.FailingBegin? && s.actions[pid].epoch == s.storage.generation
    ensures var t := Apply(s, Advance(pid, choice));
            t.attempt.None? && t.storage.generation == s.storage.generation + 1 && (!choice.breaks ==> t.status.SignedOut?)
  {
  }

  lemma EnteredIs(s: State, pid: Pid, key: nat, refused: bool)
    ensures var t := Apply(s, Callback(pid, key, refused));
            && t.storage == s.storage && t.handling == Some(s.storage.generation) && t.status == s.status && pid in t.actions
            && t.actions[pid] == Action(Exchange, s.storage.generation, s.storage.consumed, Taking(key, refused))
  {
  }

  lemma TakenIs(s: State, pid: Pid, choice: Choice)
    requires pid in s.actions && s.actions[pid].kind.Exchange? && s.actions[pid].pc.Taking?
    ensures var t := Apply(s, Advance(pid, choice));
            var pc := t.actions[pid].pc;
            && t.handling == s.handling && t.status == s.status && t.storage.generation == s.storage.generation
            && t.storage.consumed == s.storage.consumed
                 + (if Writes(s.storage, s.actions[pid].epoch, choice.breaks) && s.storage.verifier == Some(s.actions[pid].pc.key) then 1 else 0)
            && (pc.Failing? || Current(t.storage, s.actions[pid].epoch))
            && pc == (if !Writes(s.storage, s.actions[pid].epoch, choice.breaks) then Failing
                      else if s.storage.verifier == Some(s.actions[pid].pc.key) then (if s.actions[pid].pc.refused then Leaving(NoUser) else AtProvider)
                      else if s.actions[pid].pc.refused then Leaving(NoVerifier) else Failing)
  {
  }

  lemma AskedIs(s: State, pid: Pid, choice: Choice)
    requires pid in s.actions && s.actions[pid].kind.Exchange? && s.actions[pid].pc.AtProvider?
    ensures var t := Apply(s, Advance(pid, choice));
            && t.handling == s.handling && t.storage == s.storage && t.status == s.status
            && t.actions[pid].pc == if choice.ok then Storing(Session(choice.account, Some(pid))) else Failing
  {
  }

  lemma StoredIs(s: State, pid: Pid, choice: Choice)
    requires pid in s.actions && s.actions[pid].kind.Exchange? && s.actions[pid].pc.Storing?
    ensures var t := Apply(s, Advance(pid, choice));
            var session := s.actions[pid].pc.session;
            && t.handling == s.handling && t.status == s.status
            && t.storage.consumed == s.storage.consumed && t.storage.generation == s.storage.generation
            && (if Writes(s.storage, s.actions[pid].epoch, choice.breaks)
                then t.actions[pid].pc == Leaving(User(session)) && t.storage.session == Some(session) && Current(t.storage, s.actions[pid].epoch)
                else t.actions[pid].pc.Failing?)
  {
  }

  lemma LeftIs(s: State, pid: Pid, choice: Choice)
    requires pid in s.actions && s.actions[pid].kind.Exchange? && s.actions[pid].pc.Leaving?
    ensures var t := Apply(s, Advance(pid, choice));
            && t.handling == s.handling && t.storage == s.storage && t.status == s.status
            && t.actions[pid].pc == if Current(s.storage, s.actions[pid].epoch) then Concluding(s.actions[pid].pc.auth) else Failing
  {
  }

  lemma ConcludedIs(s: State, pid: Pid, choice: Choice)
    requires pid in s.actions && s.actions[pid].kind.Exchange? && s.actions[pid].pc.Concluding?
    requires s.handling == Some(s.actions[pid].epoch)
    ensures var t := Apply(s, Advance(pid, choice));
            var auth := s.actions[pid].pc.auth;
            && t.storage == s.storage
            && (if t.actions[pid].pc.Failing? then t.handling == s.handling else t.actions[pid].pc.Ended? && t.handling.None?)
            && (t.actions[pid].pc != Ended(true) ==> t.status == s.status)
            && (t.actions[pid].pc == Ended(true) ==> t.status == if auth.User? then SignedIn(auth.session) else Unfinished)
            && (Current(s.storage, s.actions[pid].epoch) ==>
                  && (t.actions[pid].pc == Ended(true) <==> !auth.NoVerifier? && (auth.User? ==> choice.ok))
                  && (t.actions[pid].pc.Failing? <==> auth.User? && !choice.ok))
  {
  }

  lemma FailedIs(s: State, pid: Pid, choice: Choice)
    requires pid in s.actions && s.actions[pid].kind.Exchange? && s.actions[pid].pc.Failing?
    requires s.handling == Some(s.actions[pid].epoch)
    ensures var t := Apply(s, Advance(pid, choice));
            && t.handling.None? && t.actions[pid].pc == Ended(false)
            && t.status == if s.storage.generation == s.actions[pid].epoch && s.storage.consumed != s.actions[pid].consumed then Unfinished else s.status
  {
  }

  lemma ReadEnabled(s: State, pid: Pid)
    requires pid !in s.actions
    ensures Enabled(s, Event.GetUser(pid)) <==>
              !s.storage.disposed && !s.storage.failed && !s.status.SigningIn? && s.handling.None? && s.reading.None?
  {
  }

  lemma ReadBegunIs(s: State, pid: Pid)
    ensures var t := Apply(s, Event.GetUser(pid));
            && t.storage == s.storage && t.status == s.status && t.reading == Some(pid) && pid in t.actions
            && t.actions[pid] == Action(Read, s.storage.generation, s.storage.consumed, ReadingSession)
  {
  }

  lemma ReadIs(s: State, pid: Pid, choice: Choice)
    requires pid in s.actions && s.actions[pid].kind.Read? && s.actions[pid].pc.ReadingSession? && Current(s.storage, s.actions[pid].epoch)
    ensures var t := Apply(s, Advance(pid, choice));
            && t.storage == s.storage && t.status == s.status && t.reading == s.reading
            && t.actions[pid].pc == if s.storage.session.Some? then Refreshing(s.storage.session.value) else LeavingRead(None)
  {
  }

  lemma RefreshedIs(s: State, pid: Pid, choice: Choice)
    requires pid in s.actions && s.actions[pid].kind.Read? && s.actions[pid].pc.Refreshing? && Current(s.storage, s.actions[pid].epoch)
    ensures var t, kept := Apply(s, Advance(pid, choice)), s.actions[pid].pc.kept;
            && t.status == s.status
            && (choice.breaks ==> t.storage.failed && t.actions[pid].pc.Ended? && (s.reading == Some(pid) ==> t.reading.None?))
            && (!choice.breaks ==>
                  && t.storage == s.storage.(session := if choice.ok then Some(kept) else None) && t.reading == s.reading
                  && t.actions[pid].pc == LeavingRead(if choice.ok then Some(kept) else None))
  {
  }

  lemma ReadLeftIs(s: State, pid: Pid, choice: Choice)
    requires pid in s.actions && s.actions[pid].kind.Read? && s.actions[pid].pc.LeavingRead? && Current(s.storage, s.actions[pid].epoch)
    ensures var t := Apply(s, Advance(pid, choice));
            t.storage == s.storage && t.status == s.status && t.reading == s.reading && t.actions[pid].pc == Displaying(s.actions[pid].pc.read)
  {
  }

  lemma DisplayedIs(s: State, pid: Pid, choice: Choice)
    requires pid in s.actions && s.actions[pid].kind.Read? && s.actions[pid].pc.Displaying? && Current(s.storage, s.actions[pid].epoch)
    ensures var t, read := Apply(s, Advance(pid, choice)), s.actions[pid].pc.read;
            && t.storage == s.storage && (s.reading == Some(pid) ==> t.reading.None?)
            && t.status == if read.Some? then SignedIn(read.value) else SignedOut
  {
  }

  lemma SignedOutReaches(s: State, pid: Pid, breaks: bool, clearBreaks: bool)
    requires pid !in s.actions
    ensures Reaches(s, if s.storage.disposed then s else SigningOut(s, pid, breaks, clearBreaks))
  {
    hide Reaches, SigningOut;
    ReachesNow(s);
    if !s.storage.disposed { ReachesNext(s, s, StartSignOut(pid, breaks, clearBreaks)); }
  }

  lemma SigningOutIs(s: State, pid: Pid, clearBreaks: bool)
    ensures var t := SigningOut(s, pid, false, clearBreaks);
            && pid in t.actions && t.actions[pid].kind.SignOut? && t.actions[pid].pc.LoggingOut?
            && t.status.SignedOut? && t.handling.None? && t.storage.generation == s.storage.generation + 1
            && t.storage.disposed == s.storage.disposed && (t.storage.failed || t.storage.disposed || t.storage.session.None?)
  {
  }

  lemma LoggedOutIs(s: State, pid: Pid, choice: Choice)
    requires pid in s.actions && s.actions[pid].kind.SignOut? && s.actions[pid].pc.LoggingOut?
    ensures var t := Apply(s, Advance(pid, choice));
            && t.status == s.status && t.handling == s.handling && t.storage.generation == s.storage.generation
            && (s.storage.session.None? ==> t.storage.session.None?) && (s.storage.failed ==> t.storage.failed)
  {
  }
}
