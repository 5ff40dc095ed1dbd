/** Native sign-in: overlapping actions over one token store, cut at every await. */
module NativeAuth {
  import opened Text

  type Pid = nat

  /** A signed-in account, and which call stored it, if one did since the launch. */
  datatype Session = Session(account: nat, by_: Option<Pid>)

  // --- the token store ------------------------------------------------------------------------

  /** `consumed` counts verifiers taken; the store never keeps more than one pending verifier. */
  datatype Storage = Storage(
    generation: nat, disposed: bool, failed: bool, consumed: nat, session: Option<Session>, verifier: Option<nat>)

  /** What every read and write made under `epoch` checks first. */
  predicate Current(t: Storage, epoch: nat) {
    !t.failed && !t.disposed && t.generation == epoch
  }

  datatype Write = SetSession(session: Session) | ClearSession | SetVerifier(key: nat) | TakeVerifier(key: nat)

  /** The write alone. Setting a verifier drops any other; taking one counts it. */
  function Written(t: Storage, w: Write): Storage {
    match w
    case SetSession(session) => t.(session := Some(session))
    case ClearSession => t.(session := None)
    case SetVerifier(key) => t.(verifier := Some(key))
    case TakeVerifier(key) => if t.verifier == Some(key) then t.(verifier := None, consumed := t.consumed + 1) else t
  }

  /** A guarded write: refused out of date; a store that breaks fails for good. */
  function Guarded(t: Storage, epoch: nat, w: Write, breaks: bool): Storage {
    if !Current(t, epoch) then t else if breaks then t.(failed := true) else Written(t, w)
  }

  predicate Writes(t: Storage, epoch: nat, breaks: bool) {
    Current(t, epoch) && !breaks
  }

  /** The generation advances first, so even a failed deletion stops old work. */
  function Invalidated(t: Storage, breaks: bool): Storage {
    var next := t.(generation := t.generation + 1);
    if breaks then next.(failed := true) else next.(verifier := None)
  }

  // --- the actions -------------------------------------------------------------------------------

  datatype Status = SignedOut | Unfinished | SigningIn | SignedIn(session: Session)

  /** What `run` hands back: no matching verifier, the provider's error, or a signed-in user. */
  datatype Auth = NoVerifier | NoUser | User(session: Session)

  datatype Pc =
    | Taking(key: nat, refused: bool)
    | AtProvider
    | Storing(session: Session)
    | Leaving(auth: Auth)
    | Concluding(auth: Auth)
    | Failing
    | Listening
    | Sealing
    | Opening
    | LeavingBegin
    | FailingBegin
    | ReadingSession
    | Refreshing(kept: Session)
    | LeavingRead(read: Option<Session>)
    | Displaying(read: Option<Session>)
    | LoggingOut
    | Ended(ok: bool)

  datatype Kind = Exchange | Begin | Read | SignOut

  /** One call: the generation it started in, and the count of consumed verifiers it saw then. */
  datatype Action = Action(kind: Kind, epoch: nat, consumed: nat, pc: Pc)

  /** `handling` is the lock: the epoch of the callback being handled. `attempt` is the waiting attempt. */
  datatype State = State(
    storage: Storage, status: Status, handling: Option<nat>, attempt: Option<Pid>, reading: Option<Pid>, actions: map<Pid, Action>)

  /** What the world decides at a step: success, the account the provider names, a breaking store. */
  datatype Choice = Choice(ok: bool, account: nat, breaks: bool, key: nat)

  datatype Event =
    | Callback(pid: Pid, key: nat, refused: bool)
    | BeginSignIn(pid: Pid, breaks: bool)
    | GetUser(pid: Pid)
    | StartSignOut(pid: Pid, breaks: bool, clearBreaks: bool)
    | Abandon(breaks: bool)
    | Dispose
    | Advance(pid: Pid, choice: Choice)

  predicate Enabled(s: State, event: Event) {
    match event
    case Callback(pid, _, _) => pid !in s.actions && !s.storage.disposed && s.handling.None?
    case BeginSignIn(pid, _) =>
      && pid !in s.actions && !s.storage.disposed && !s.storage.failed
      && !s.status.SigningIn? && s.handling.None? && !s.status.SignedIn?
    case GetUser(pid) =>
      && pid !in s.actions && !s.storage.disposed && !s.storage.failed
      && !s.status.SigningIn? && s.handling.None? && s.reading.None?
    case StartSignOut(pid, _, _) => pid !in s.actions && !s.storage.disposed
    case Abandon(_) => true
    case Dispose => true
    case Advance(pid, _) => pid in s.actions
  }

  /** The lock is released only while it still holds the caller's own epoch. */
  function Unlocked(s: State, epoch: nat): State {
    if s.handling == Some(epoch) then s.(handling := None) else s
  }

  function At(s: State, pid: Pid, a: Action, pc: Pc): State {
    s.(actions := s.actions[pid := a.(pc := pc)])
  }

  function NoLongerReading(s: State, pid: Pid): State {
    if s.reading == Some(pid) then s.(reading := None) else s
  }

  // --- starting ------------------------------------------------------------------------------------

  function Begun(s: State, pid: Pid, breaks: bool): State {
    var t := s.(attempt := None, storage := Invalidated(s.storage, breaks));
    if breaks then t
    else t.(reading := None, status := SigningIn,
            actions := s.actions[pid := Action(Begin, t.storage.generation, t.storage.consumed, Listening)])
  }

  /** Sign-out clears the session in the same turn as it advances the generation. */
  function SigningOut(s: State, pid: Pid, breaks: bool, clearBreaks: bool): State {
    var t := s.(attempt := None, storage := Invalidated(s.storage, breaks));
    if breaks then t
    else
      var storage := Guarded(t.storage, t.storage.generation, ClearSession, clearBreaks);
      t.(handling := None, reading := None, status := SignedOut, storage := storage,
         actions := s.actions[pid := Action(SignOut, storage.generation, storage.consumed, LoggingOut)])
  }

  function Abandoned(s: State, breaks: bool): State {
    s.(attempt := None, storage := Invalidated(s.storage, breaks), handling := None, reading := None, status := Unfinished)
  }

  // --- one turn of each action -----------------------------------------------------------------------

  function ExchangeNext(s: State, pid: Pid, a: Action, choice: Choice): State {
    var t := s.storage;
    match a.pc
    case Taking(key, refused) =>
      var pc :=
        if !Writes(t, a.epoch, choice.breaks) then Failing
        else if t.verifier == Some(key) then (if refused then Leaving(NoUser) else AtProvider)
        else if refused then Leaving(NoVerifier) else Failing;
      At(s.(storage := Guarded(t, a.epoch, TakeVerifier(key), choice.breaks)), pid, a, pc)
    case AtProvider => At(s, pid, a, if choice.ok then Storing(Session(choice.account, Some(pid))) else Failing)
    case Storing(session) =>
      At(s.(storage := Guarded(t, a.epoch, SetSession(session), choice.breaks)), pid, a,
         if Writes(t, a.epoch, choice.breaks) then Leaving(User(session)) else Failing)
    case Leaving(auth) => At(s, pid, a, if Current(t, a.epoch) then Concluding(auth) else Failing)
    case Concluding(auth) =>
      if auth.NoVerifier? || t.generation != a.epoch || t.disposed then Unlocked(At(s, pid, a, Ended(false)), a.epoch)
      else if auth.User? && !choice.ok then At(s, pid, a, Failing)
      else
        var status := if auth.User? then SignedIn(auth.session) else Unfinished;
        Unlocked(At(s.(status := status, attempt := None), pid, a, Ended(true)), a.epoch)
    case Failing =>
      if t.generation == a.epoch && t.consumed != a.consumed
      then Unlocked(At(s.(status := Unfinished, attempt := None), pid, a, Ended(false)), a.epoch)
      else Unlocked(At(s, pid, a, Ended(false)), a.epoch)
    case _ => s
  }

  function BeginNext(s: State, pid: Pid, a: Action, choice: Choice): State {
    var t := s.storage;
    match a.pc
    case Listening =>
      if t.generation != a.epoch || t.disposed then At(s, pid, a, FailingBegin)
      else At(s.(attempt := Some(pid), storage := Guarded(t, a.epoch, ClearSession, choice.breaks)), pid, a,
              if Writes(t, a.epoch, choice.breaks) then Sealing else FailingBegin)
    case Sealing =>
      At(s.(storage := Guarded(t, a.epoch, SetVerifier(choice.key), choice.breaks)), pid, a,
         if Writes(t, a.epoch, choice.breaks) then Opening else FailingBegin)
    case Opening => At(s, pid, a, if choice.ok then LeavingBegin else FailingBegin)
    case LeavingBegin => At(s, pid, a, if Current(t, a.epoch) then Ended(true) else FailingBegin)
    case FailingBegin =>
      if t.generation != a.epoch then At(s, pid, a, Ended(false))
      else
        var u := s.(attempt := None, storage := Invalidated(t, choice.breaks));
        At(if choice.breaks then u else u.(status := SignedOut), pid, a, Ended(false))
    case _ => s
  }

  /** The SDK may refresh the session it kept, or drop one it can no longer use. */
  function ReadNext(s: State, pid: Pid, a: Action, choice: Choice): State {
    var t := s.storage;
    match a.pc
    case ReadingSession =>
      if !Current(t, a.epoch) then NoLongerReading(At(s, pid, a, Ended(false)), pid)
      else At(s, pid, a, if t.session.Some? then Refreshing(t.session.value) else LeavingRead(None))
    case Refreshing(kept) =>
      var write := if choice.ok then SetSession(kept) else ClearSession;
      var after := At(s.(storage := Guarded(t, a.epoch, write, choice.breaks)), pid, a,
                      if Writes(t, a.epoch, choice.breaks) then LeavingRead(if choice.ok then Some(kept) else None) else Ended(false));
      if Writes(t, a.epoch, choice.breaks) then after else NoLongerReading(after, pid)
    case LeavingRead(read) =>
      if Current(t, a.epoch) then At(s, pid, a, Displaying(read)) else NoLongerReading(At(s, pid, a, Ended(false)), pid)
    case Displaying(read) =>
      if t.generation != a.epoch || t.disposed then NoLongerReading(At(s, pid, a, Ended(false)), pid)
      else
        var status := if read.Some? then SignedIn(read.value) else SignedOut;
        NoLongerReading(At(s.(status := status), pid, a, Ended(true)), pid)
    case _ => s
  }

  /** After the hosted logout, the session is cleared again, under whatever generation is current then. */
  function SignOutNext(s: State, pid: Pid, a: Action, choice: Choice): State {
    match a.pc
    case LoggingOut =>
      At(s.(storage := Guarded(s.storage, s.storage.generation, ClearSession, choice.breaks)), pid, a, Ended(choice.ok))
    case _ => s
  }

  function Advanced(s: State, pid: Pid, choice: Choice): State
    requires pid in s.actions
  {
    var a := s.actions[pid];
    match a.kind
    case Exchange => ExchangeNext(s, pid, a, choice)
    case Begin => BeginNext(s, pid, a, choice)
    case Read => ReadNext(s, pid, a, choice)
    case SignOut => SignOutNext(s, pid, a, choice)
  }

  function Apply(s: State, event: Event): State {
    match event
    case Callback(pid, key, refused) =>
      s.(handling := Some(s.storage.generation),
         actions := s.actions[pid := Action(Exchange, s.storage.generation, s.storage.consumed, Taking(key, refused))])
    case BeginSignIn(pid, breaks) => Begun(s, pid, breaks)
    case GetUser(pid) =>
      s.(reading := Some(pid), actions := s.actions[pid := Action(Read, s.storage.generation, s.storage.consumed, ReadingSession)])
    case StartSignOut(pid, breaks, clearBreaks) => SigningOut(s, pid, breaks, clearBreaks)
    case Abandon(breaks) => Abandoned(s, breaks)
    case Dispose => s.(attempt := None, storage := s.storage.(generation := s.storage.generation + 1, disposed := true))
    case Advance(pid, choice) => if pid in s.actions then Advanced(s, pid, choice) else s
  }

  predicate ValidRun(s: State, events: seq<Event>)
    decreases |events|
  {
    events == [] || (Enabled(s, events[0]) && ValidRun(Apply(s, events[0]), events[1..]))
  }

  function Run(s: State, events: seq<Event>): State
    decreases |events|
  {
    if events == [] then s else Run(Apply(s, events[0]), events[1..])
  }

  lemma OneEvent(s: State, event: Event)
    requires Enabled(s, event)
    ensures ValidRun(s, [event]) && Run(s, [event]) == Apply(s, event)
  {
    hide Enabled, Apply;
    assert [event][1..] == [];
  }

  lemma RunCons(s: State, event: Event, events: seq<Event>)
    requires Enabled(s, event) && ValidRun(Apply(s, event), events)
    ensures ValidRun(s, [event] + events) && Run(s, [event] + events) == Run(Apply(s, event), events)
  {
    hide Enabled, Apply;
    assert ([event] + events)[1..] == events;
  }

  lemma {:induction false} RunConcat(s: State, a: seq<Event>, b: seq<Event>)
    requires ValidRun(s, a) && ValidRun(Run(s, a), b)
    ensures ValidRun(s, a + b) && Run(s, a + b) == Run(Run(s, a), b)
    decreases |a|
  {
    hide Enabled, Apply;
    if a == [] {
      assert a + b == b;
    } else {
      RunConcat(Apply(s, a[0]), a[1..], b);
      assert a + b == [a[0]] + (a[1..] + b);
      RunCons(s, a[0], a[1..] + b);
    }
  }

  /** A fresh launch, over whatever session and verifier the store kept. */
  predicate Launch(s: State) {
    && s.storage.generation == 0 && !s.storage.disposed && !s.storage.failed && s.storage.consumed == 0
    && (s.storage.session.Some? ==> s.storage.session.value.by_.None?)
    && s.status.SignedOut? && s.handling.None? && s.attempt.None? && s.reading.None? && s.actions == map[]
  }

  ghost predicate Reachable(s: State) {
    exists start: State, events: seq<Event> :: Launch(start) && ValidRun(start, events) && s == Run(start, events)
  }
}
