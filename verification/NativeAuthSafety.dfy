/** Generation fencing and the epoch-valued lock, over every interleaving of sign-in actions. */
module NativeAuthSafety {
  import opened Text
  import opened NativeAuth

  predicate LiveExchange(s: State, pid: Pid) {
    pid in s.actions && s.actions[pid].kind.Exchange? && !s.actions[pid].pc.Ended?
  }

  /** Each kind of call goes through its own turns. */
  predicate Fits(a: Action) {
    match a.pc
    case Ended(_) => true
    case Taking(_, _) => a.kind.Exchange?
    case AtProvider => a.kind.Exchange?
    case Storing(_) => a.kind.Exchange?
    case Leaving(_) => a.kind.Exchange?
    case Concluding(_) => a.kind.Exchange?
    case Failing => a.kind.Exchange?
    case ReadingSession => a.kind.Read?
    case Refreshing(_) => a.kind.Read?
    case LeavingRead(_) => a.kind.Read?
    case Displaying(_) => a.kind.Read?
    case LoggingOut => a.kind.SignOut?
    case _ => a.kind.Begin?
  }

  ghost predicate LockInv(s: State) {
    && (forall pid :: pid in s.actions ==> s.actions[pid].epoch <= s.storage.generation)
    && (forall pid :: LiveExchange(s, pid) && s.actions[pid].epoch == s.storage.generation ==> s.handling == Some(s.storage.generation))
    && (forall p, q :: LiveExchange(s, p) && LiveExchange(s, q) && s.actions[p].epoch == s.actions[q].epoch ==> p == q)
    && (s.handling.Some? ==> exists pid :: LiveExchange(s, pid) && s.actions[pid].epoch == s.handling.value)
  }

  // --- one turn --------------------------------------------------------------------------------

  /** A turn changes its own action only, and never its kind or epoch. */
  ghost predicate OwnTurn(s: State, t: State, pid: Pid) {
    && pid in s.actions && t.actions.Keys == s.actions.Keys
    && (forall p :: p in s.actions && p != pid ==> t.actions[p] == s.actions[p])
    && t.actions[pid].kind == s.actions[pid].kind && t.actions[pid].epoch == s.actions[pid].epoch
    && t.storage.generation >= s.storage.generation
    && (s.storage.failed ==> t.storage.failed) && t.storage.disposed == s.storage.disposed
  }

  lemma StorageOnlyFails(t: Storage, epoch: nat, w: Write, breaks: bool)
    ensures var u := Guarded(t, epoch, w, breaks);
            u.generation == t.generation && u.disposed == t.disposed && (t.failed ==> u.failed)
  {
  }

  lemma ExchangeTurn(s: State, pid: Pid, choice: Choice)
    requires pid in s.actions
    ensures OwnTurn(s, ExchangeNext(s, pid, s.actions[pid], choice), pid)
  {
    hide Guarded, Current, Writes;
    var a, t := s.actions[pid], s.storage;
    if a.pc.Taking? { StorageOnlyFails(t, a.epoch, TakeVerifier(a.pc.key), choice.breaks); }
    if a.pc.Storing? { StorageOnlyFails(t, a.epoch, SetSession(a.pc.session), choice.breaks); }
  }

  lemma BeginTurn(s: State, pid: Pid, choice: Choice)
    requires pid in s.actions
    ensures OwnTurn(s, BeginNext(s, pid, s.actions[pid], choice), pid)
  {
    hide Guarded, Current, Writes;
    var a, t := s.actions[pid], s.storage;
    StorageOnlyFails(t, a.epoch, ClearSession, choice.breaks);
    StorageOnlyFails(t, a.epoch, SetVerifier(choice.key), choice.breaks);
  }

  lemma ReadTurn(s: State, pid: Pid, choice: Choice)
    requires pid in s.actions
    ensures OwnTurn(s, ReadNext(s, pid, s.actions[pid], choice), pid)
  {
    hide Guarded, Current, Writes;
    var a, t := s.actions[pid], s.storage;
    StorageOnlyFails(t, a.epoch, ClearSession, choice.breaks);
    if a.pc.Refreshing? { StorageOnlyFails(t, a.epoch, SetSession(a.pc.kept), choice.breaks); }
  }

  lemma OnlyOwn(s: State, pid: Pid, choice: Choice)
    requires pid in s.actions
    ensures OwnTurn(s, Apply(s, Advance(pid, choice)), pid)
  {
    hide ExchangeNext, BeginNext, ReadNext, OwnTurn;
    match s.actions[pid].kind
    case Exchange => ExchangeTurn(s, pid, choice);
    case Begin => BeginTurn(s, pid, choice);
    case Read => ReadTurn(s, pid, choice);
    case SignOut => SignOutTurn(s, pid, choice);
  }

  lemma SignOutTurn(s: State, pid: Pid, choice: Choice)
    requires pid in s.actions
    ensures OwnTurn(s, SignOutNext(s, pid, s.actions[pid], choice), pid)
  {
  }

  /** Only an exchange's own end touches the lock, and only while the lock holds its epoch. */
  lemma LockTurn(s: State, pid: Pid, choice: Choice)
    requires pid in s.actions
    ensures var t := Apply(s, Advance(pid, choice));
            || t.handling == s.handling
            || (s.actions[pid].kind.Exchange? && s.handling == Some(s.actions[pid].epoch) && t.handling.None? && t.actions[pid].pc.Ended?)
  {
  }

  lemma EndUnlocks(s: State, pid: Pid, choice: Choice)
    requires LiveExchange(s, pid)
    ensures var t := Apply(s, Advance(pid, choice));
            t.actions[pid].pc.Ended? ==> t.handling == (if s.handling == Some(s.actions[pid].epoch) then None else s.handling)
  {
  }

  lemma EndedStays(s: State, pid: Pid, choice: Choice)
    requires pid in s.actions && s.actions[pid].pc.Ended?
    ensures Apply(s, Advance(pid, choice)) == s
  {
  }

  lemma AdvanceKeepsLock(s: State, pid: Pid, choice: Choice)
    requires LockInv(s) && pid in s.actions
    ensures LockInv(Apply(s, Advance(pid, choice)))
  {
    hide Apply;
    var t := Apply(s, Advance(pid, choice));
    if s.actions[pid].pc.Ended? {
      EndedStays(s, pid, choice);
      return;
    }
    OnlyOwn(s, pid, choice);
    LockTurn(s, pid, choice);
    if LiveExchange(s, pid) { EndUnlocks(s, pid, choice); }
    forall p | LiveExchange(t, p) ensures LiveExchange(s, p) {}
    if t.handling.Some? {
      var p :| LiveExchange(s, p) && s.actions[p].epoch == s.handling.value;
      assert LiveExchange(t, p);
    }
  }

  lemma CallbackKeepsLock(s: State, event: Event)
    requires LockInv(s) && Enabled(s, event) && event.Callback?
    ensures LockInv(Apply(s, event))
  {
    var t := Apply(s, event);
    assert LiveExchange(t, event.pid);
    forall p | LiveExchange(t, p) && p != event.pid ensures LiveExchange(s, p) && t.actions[p] == s.actions[p] {}
  }

  /** Anything else that starts is no exchange, and the lock is only let go as the generation advances. */
  ghost predicate Elsewhere(s: State, t: State) {
    && (forall p :: p in s.actions ==> p in t.actions && t.actions[p] == s.actions[p])
    && (forall p :: p in t.actions && p !in s.actions ==> !t.actions[p].kind.Exchange? && t.actions[p].epoch <= t.storage.generation)
    && (if t.storage.generation == s.storage.generation then t.handling == s.handling
        else t.storage.generation > s.storage.generation && (t.handling == s.handling || t.handling.None?))
  }

  lemma ElsewhereKeepsLock(s: State, t: State)
    requires LockInv(s) && Elsewhere(s, t)
    ensures LockInv(t)
  {
    forall p | LiveExchange(t, p) ensures LiveExchange(s, p) && t.actions[p] == s.actions[p] {}
    if t.handling.Some? {
      var p :| LiveExchange(s, p) && s.actions[p].epoch == s.handling.value;
      assert LiveExchange(t, p);
    }
  }

  lemma OtherElsewhere(s: State, event: Event)
    requires Enabled(s, event) && !event.Callback? && !event.Advance?
    ensures Elsewhere(s, Apply(s, event))
  {
  }

  // --- each kind of call goes through its own turns -------------------------------------------------

  predicate AllFit(s: State) {
    forall pid :: pid in s.actions ==> Fits(s.actions[pid])
  }

  lemma ExchangeFits(s: State, pid: Pid, choice: Choice)
    requires pid in s.actions && Fits(s.actions[pid])
    ensures s.actions[pid].kind.Exchange? ==> Fits(ExchangeNext(s, pid, s.actions[pid], choice).actions[pid])
  {
    hide Guarded, Current, Writes;
  }

  lemma BeginFits(s: State, pid: Pid, choice: Choice)
    requires pid in s.actions && Fits(s.actions[pid])
    ensures s.actions[pid].kind.Begin? ==> Fits(BeginNext(s, pid, s.actions[pid], choice).actions[pid])
  {
    hide Guarded, Current, Writes, Invalidated;
  }

  lemma ReadFits(s: State, pid: Pid, choice: Choice)
    requires pid in s.actions && Fits(s.actions[pid])
    ensures s.actions[pid].kind.Read? ==> Fits(ReadNext(s, pid, s.actions[pid], choice).actions[pid])
  {
    hide Guarded, Current, Writes;
  }

  lemma TurnFits(s: State, pid: Pid, choice: Choice)
    requires AllFit(s) && pid in s.actions
    ensures AllFit(Apply(s, Advance(pid, choice)))
  {
    hide ExchangeNext, BeginNext, ReadNext, Fits;
    OnlyOwn(s, pid, choice);
    match s.actions[pid].kind
    case Exchange => ExchangeFits(s, pid, choice);
    case Begin => BeginFits(s, pid, choice);
    case Read => ReadFits(s, pid, choice);
    case SignOut => SignOutFits(s, pid, choice);
  }

  lemma SignOutFits(s: State, pid: Pid, choice: Choice)
    requires pid in s.actions && Fits(s.actions[pid])
    ensures s.actions[pid].kind.SignOut? ==> Fits(SignOutNext(s, pid, s.actions[pid], choice).actions[pid])
  {
  }

  lemma StartFits(s: State, event: Event)
    requires AllFit(s) && !event.Advance?
    ensures AllFit(Apply(s, event))
  {
    hide Guarded, Invalidated;
  }

  ghost predicate Inv(s: State) {
    LockInv(s) && AllFit(s)
  }

  lemma {:induction false} RunKeeps(s: State, events: seq<Event>)
    requires Inv(s) && ValidRun(s, events)
    ensures Inv(Run(s, events))
    decreases |events|
  {
    hide Inv, Apply, Enabled;
    if events != [] {
      ApplyKeeps(s, events[0]);
      RunKeeps(Apply(s, events[0]), events[1..]);
    }
  }

  lemma ApplyKeeps(s: State, event: Event)
    requires Inv(s) && Enabled(s, event)
    ensures Inv(Apply(s, event))
  {
    hide LockInv, AllFit, Apply, Elsewhere;
    if event.Advance? {
      AdvanceKeepsLock(s, event.pid, event.choice);
      TurnFits(s, event.pid, event.choice);
    } else {
      StartFits(s, event);
      if event.Callback? {
        CallbackKeepsLock(s, event);
      } else {
        OtherElsewhere(s, event);
        ElsewhereKeepsLock(s, Apply(s, event));
      }
    }
  }

  lemma ReachableInv(s: State)
    requires Reachable(s)
    ensures Inv(s)
  {
    hide ValidRun, Run;
    var start: State, events: seq<Event> :| Launch(start) && ValidRun(start, events) && s == Run(start, events);
    RunKeeps(start, events);
  }

  // --- the lock's promises -----------------------------------------------------------------------

  /**
   * At most one exchange is live per generation; the live exchange of this generation holds the
   * lock; and a lock that is held is held by a live exchange, so it is never leaked.
   */
  lemma OneExchangePerGeneration(s: State, p: Pid, q: Pid)
    requires Reachable(s)
    ensures LiveExchange(s, p) && LiveExchange(s, q) && s.actions[p].epoch == s.actions[q].epoch ==> p == q
    ensures LiveExchange(s, p) && s.actions[p].epoch == s.storage.generation ==> s.handling == Some(s.storage.generation)
    ensures s.handling.Some? ==> exists pid :: LiveExchange(s, pid) && s.actions[pid].epoch == s.handling.value
  {
    ReachableInv(s);
  }

  /** Whatever an older exchange does, its cleanup included, the lock of a newer one stays. */
  lemma OldCleanupKeepsLock(s: State, p: Pid, q: Pid, choice: Choice)
    requires Reachable(s) && LiveExchange(s, p) && LiveExchange(s, q) && p != q && s.handling == Some(s.actions[q].epoch)
    ensures Apply(s, Advance(p, choice)).handling == s.handling
  {
    hide Apply;
    ReachableInv(s);
    LockTurn(s, p, choice);
  }

  // --- generation fencing ---------------------------------------------------------------------------

  predicate Fenced(s: State, pid: Pid) {
    pid in s.actions && !s.actions[pid].kind.SignOut? && s.actions[pid].epoch != s.storage.generation
  }

  /** An action of an earlier generation writes nothing, shows nothing and is never handed its result. */
  lemma OldWritesNothing(s: State, pid: Pid, choice: Choice)
    requires Fenced(s, pid) && Fits(s.actions[pid])
    ensures var t := Apply(s, Advance(pid, choice));
            && t.storage == s.storage && t.status == s.status && t.attempt == s.attempt
            && !t.actions[pid].pc.Concluding? && !t.actions[pid].pc.Displaying?
            && (t.actions[pid].pc == Ended(true) ==> s.actions[pid].pc == Ended(true))
  {
  }

  lemma FencedStays(s: State, event: Event, pid: Pid)
    requires Inv(s) && Enabled(s, event) && Fenced(s, pid)
    ensures var t := Apply(s, event);
            Fenced(t, pid) && (t.actions[pid].pc == Ended(true) ==> s.actions[pid].pc == Ended(true))
  {
    if event.Advance? {
      hide Apply;
      OnlyOwn(s, event.pid, event.choice);
      if event.pid == pid { OldWritesNothing(s, pid, event.choice); }
    }
  }

  /** And that is for good: once the generation has moved on, no run lets the action succeed. */
  lemma {:induction false} FencedForever(s: State, events: seq<Event>, pid: Pid)
    requires Inv(s) && ValidRun(s, events) && Fenced(s, pid) && s.actions[pid].pc != Ended(true)
    ensures var t := Run(s, events); Fenced(t, pid) && t.actions[pid].pc != Ended(true)
    decreases |events|
  {
    hide Inv, Apply, Enabled, Fenced;
    if events != [] {
      ApplyKeeps(s, events[0]);
      FencedStays(s, events[0], pid);
      FencedForever(Apply(s, events[0]), events[1..], pid);
    }
  }

  // --- what an outlived exchange can still do ---------------------------------------------------------

  predicate Stores(session: Option<Session>, x: Pid) {
    session.Some? && session.value.by_ == Some(x)
  }

  /** The session this action carries, on its way to the store or to the screen. */
  function Carried(a: Action): Option<Session> {
    match a.pc
    case Storing(session) => Some(session)
    case Leaving(auth) => if auth.User? then Some(auth.session) else None
    case Concluding(auth) => if auth.User? then Some(auth.session) else None
    case Refreshing(kept) => Some(kept)
    case LeavingRead(read) => read
    case Displaying(read) => read
    case _ => None
  }

  predicate ShownAs(s: State, x: Pid) {
    s.status.SignedIn? && s.status.session.by_ == Some(x)
  }

  /** What one turn can newly carry, store or show of exchange `x`: what it carried, or the stored session. */
  ghost predicate Traced(s: State, t: State, pid: Pid, x: Pid) {
    && pid in s.actions && pid in t.actions
    && (Stores(t.storage.session, x) ==>
          Stores(s.storage.session, x) || (Stores(Carried(s.actions[pid]), x) && s.actions[pid].epoch == s.storage.generation))
    && (ShownAs(t, x) ==>
          ShownAs(s, x) || (Stores(Carried(s.actions[pid]), x) && s.actions[pid].epoch == s.storage.generation))
    && (Stores(Carried(t.actions[pid]), x) ==>
          || pid == x
          || Stores(Carried(s.actions[pid]), x)
          || (Stores(s.storage.session, x) && Current(s.storage, s.actions[pid].epoch)))
  }

  lemma ExchangeTraced(s: State, pid: Pid, choice: Choice, x: Pid)
    requires pid in s.actions
    ensures Traced(s, ExchangeNext(s, pid, s.actions[pid], choice), pid, x)
  {
    hide Guarded, Writes, Unlocked;
    var a, t := s.actions[pid], s.storage;
    if a.pc.Taking? { GuardedSession(t, a.epoch, TakeVerifier(a.pc.key), choice.breaks); }
    if a.pc.Storing? { GuardedSession(t, a.epoch, SetSession(a.pc.session), choice.breaks); }
    UnlockedOnly(a.epoch);
  }

  lemma GuardedSession(t: Storage, epoch: nat, w: Write, breaks: bool)
    ensures var u := Guarded(t, epoch, w, breaks);
            || u.session == t.session
            || (Current(t, epoch) && u.session == (if w.SetSession? then Some(w.session) else None))
  {
  }

  lemma UnlockedOnly(epoch: nat)
    ensures forall t :: Unlocked(t, epoch).actions == t.actions && Unlocked(t, epoch).storage == t.storage && Unlocked(t, epoch).status == t.status
  {
  }

  lemma BeginTraced(s: State, pid: Pid, choice: Choice, x: Pid)
    requires pid in s.actions
    ensures Traced(s, BeginNext(s, pid, s.actions[pid], choice), pid, x)
  {
  }

  lemma ReadTraced(s: State, pid: Pid, choice: Choice, x: Pid)
    requires pid in s.actions
    ensures Traced(s, ReadNext(s, pid, s.actions[pid], choice), pid, x)
  {
  }

  lemma SignOutTraced(s: State, pid: Pid, choice: Choice, x: Pid)
    requires pid in s.actions
    ensures Traced(s, SignOutNext(s, pid, s.actions[pid], choice), pid, x)
  {
  }

  lemma TurnTraced(s: State, pid: Pid, choice: Choice, x: Pid)
    requires pid in s.actions
    ensures Traced(s, Apply(s, Advance(pid, choice)), pid, x)
  {
    hide ExchangeNext, BeginNext, ReadNext, SignOutNext, Traced;
    match s.actions[pid].kind
    case Exchange => ExchangeTraced(s, pid, choice, x);
    case Begin => BeginTraced(s, pid, choice, x);
    case Read => ReadTraced(s, pid, choice, x);
    case SignOut => SignOutTraced(s, pid, choice, x);
  }
}
