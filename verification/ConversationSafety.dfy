/**
 * Safety of sending over every run; and no second identity for an unresolved message, over every
 * run in which nothing is posted while the mirror has no record.
 */
module ConversationSafety {
  import opened Text
  import opened ConversationSend

  // --- the invariant ------------------------------------------------------------------------------

  predicate Bound(s: Store, pending: Pending) {
    pending.id in s.bodies && s.bodies[pending.id] == pending.input
  }

  /** Every id posted and not resolved is the one the mirror holds. */
  ghost predicate OneUnresolved(s: Store) {
    forall i :: 0 <= i < |s.posts| ==> s.posts[i].pending.id in s.resolved || s.mirror == Holding(s.posts[i].pending)
  }

  /** Every record of an id carries the input it was minted for; only answered ids are remembered as last. */
  ghost predicate Bodies(s: Store) {
    && (s.mirror.Holding? ==> Bound(s, s.mirror.claim))
    && (forall i :: 0 <= i < |s.posts| ==> Bound(s, s.posts[i].pending))
    && (forall w :: w in s.views ==> s.views[w].claim.Some? ==> Bound(s, s.views[w].claim.value))
    && (forall w :: w in s.views ==> s.views[w].last.Some? ==> HasAnswer(s, s.views[w].last.value))
  }

  predicate WasRefused(s: Store, id: Id) {
    id in s.resolved && s.resolved[id].RefusedFirst?
  }

  predicate SameIdPosts(posts: seq<Post>, i: nat, j: nat) {
    i < |posts| && j < |posts| && posts[i].pending.id == posts[j].pending.id
  }

  /** An id counts as refused only while the one request sent under it is the refused one. */
  ghost predicate RefusalsStand(s: Store) {
    forall i: nat, j: nat :: SameIdPosts(s.posts, i, j) && i != j ==> !WasRefused(s, s.posts[i].pending.id)
  }

  /** What a post under an unset mirror gives up. */
  ghost predicate Tracked(s: Store) {
    (s.mirror.Unset? ==> s.posts == []) && OneUnresolved(s)
  }

  /** The mirror holds this id's claim, whatever its input. */
  predicate Mirrors(s: Store, id: Id) {
    s.mirror.Holding? && s.mirror.claim.id == id
  }

  predicate UnsetOr(s: Store, mirror: Mirror) {
    s.mirror.Unset? || s.mirror == mirror
  }

  /** What a cleanup relies on: the person gave the id up, the server refused it, or the server answered it. */
  predicate ToSettle(s: Store, id: Id, after: After) {
    match after
    case ThenDiscarded(_) => true
    case ThenRefused => id in s.resolved && !s.resolved[id].DiscardedByPerson?
    case _ => HasAnswer(s, id)
  }

  ghost predicate NotYetMinted(s: Store, c: Call) {
    c.kind.Send? ==> c.kind.newId !in s.bodies
  }

  ghost predicate OnlyLast(s: Store, id: Id, count: nat) {
    && count <= |s.posts|
    && forall i :: 0 <= i < |s.posts| - count ==> s.posts[i].pending.id != id
  }

  /** What a call inside the lock relies on. */
  ghost predicate CallInv(s: Store, c: Call) {
    match c.pc
    case Waiting => NotYetMinted(s, c) && (c.kind.Cleanup? ==> HasAnswer(s, c.kind.id))
    case ReadClaim => NotYetMinted(s, c) && !c.kind.Cleanup?
    case ClearRead(id, after) =>
      && ToSettle(s, id, after)
      && (after.ThenSend? ==> NotYetMinted(s, c) && c.kind.Send? && (s.mirror.Unset? || Mirrors(s, id)))
      && (after.ThenDiscarded? ==> c.kind == Discard(id))
    case ClearWrite(id, after) =>
      && (s.mirror.Unset? || Mirrors(s, id)) && ToSettle(s, id, after)
      && (after.ThenSend? ==> NotYetMinted(s, c) && c.kind.Send?)
      && (after.ThenDiscarded? ==> c.kind == Discard(id))
    case Saving(pending, minted) =>
      && Bound(s, pending) && c.kind.Send? && pending.input == c.kind.input
      && (if minted then UnsetOr(s, Settled) && pending.id == c.kind.newId && OnlyLast(s, pending.id, 0)
          else UnsetOr(s, Holding(pending)))
    case Posting(pending, uncertain, attempt) =>
      && Sends(c, pending) && Bound(s, pending) && Backed(s, c, pending) && attempt <= 1
      && (uncertain || OnlyLast(s, pending.id, 0))
    case Awaiting(pending, uncertain, attempt) =>
      && Sends(c, pending) && Bound(s, pending) && Backed(s, c, pending) && attempt <= 1
      && Posted(s, pending.id)
      && (uncertain || OnlyLast(s, pending.id, 1))
    case Reading(id) => c.kind == Resend(id)
    case Done(_) => true
  }

  /** The mirror holds what is being sent; only a resend may find it unset. */
  predicate Backed(s: Store, c: Call, pending: Pending) {
    s.mirror == Holding(pending) || (s.mirror.Unset? && c.kind.Resend?)
  }

  predicate Sends(c: Call, pending: Pending) {
    match c.kind
    case Send(input, _) => pending.input == input
    case Resend(id) => pending.id == id
    case _ => false
  }

  ghost predicate CallsInv(s: State) {
    && (forall pid :: pid in s.calls ==> s.calls[pid].pid == pid && CallInv(s.store, s.calls[pid]))
    && (forall pid :: pid in s.calls && Inside(s.calls[pid]) ==> s.lock == Some(pid))
    && (forall pid :: pid in s.calls && s.calls[pid].kind.Send? ==> s.calls[pid].kind.newId in s.issued)
    && (forall p, q :: p in s.calls && q in s.calls && SameId(s.calls[p], s.calls[q]) ==> p == q)
    && (forall id :: id in s.store.bodies ==> id in s.issued)
  }

  predicate SameId(c: Call, o: Call) {
    c.kind.Send? && o.kind.Send? && c.kind.newId == o.kind.newId
  }

  ghost predicate Inv(s: State) {
    Bodies(s.store) && RefusalsStand(s.store) && CallsInv(s)
  }

  // --- one step of the lock holder ------------------------------------------------------------------

  lemma ViewsBound(s: Store, w: Window, view: View)
    requires Bodies(s)
    requires view.claim.Some? ==> Bound(s, view.claim.value)
    requires view.last.Some? ==> HasAnswer(s, view.last.value)
    ensures Bodies(s.(views := s.views[w := view]))
  {
  }

  lemma SyncedBodies(s: Store, w: Window)
    requires Bodies(s)
    ensures Bodies(Synced(s, w))
  {
    ViewsBound(s, w, ViewOf(s, w).(claim := Held(s, w)));
  }

  lemma MintedInv(s: Store, w: Window, pc: Pc)
    requires Bodies(s) && (pc.Saving? && pc.minted ==> pc.pending.id !in s.bodies)
    ensures Bodies(WithMinted(s, w, pc))
    ensures pc.Saving? && pc.minted ==> Bound(WithMinted(s, w, pc), pc.pending) && OnlyLast(WithMinted(s, w, pc), pc.pending.id, 0)
  {
    if pc.Saving? && pc.minted {
      var t := s.(bodies := s.bodies[pc.pending.id := pc.pending.input]);
      assert Bodies(t);
      ViewsBound(t, w, ViewOf(t, w).(claim := Some(pc.pending)));
    }
  }

  lemma StepWaiting(s: Store, c: Call, choice: Choice)
    requires Bodies(s) && CallInv(s, c) && c.pc.Waiting?
    ensures StoreNext(s, c, choice) == s && CallInv(s, CallNext(s, c, choice))
  {
  }

  lemma StepReadClaim(s: Store, c: Call, choice: Choice)
    requires Bodies(s) && CallInv(s, c) && c.pc.ReadClaim?
    ensures Bodies(StoreNext(s, c, choice)) && CallInv(StoreNext(s, c, choice), CallNext(s, c, choice))
  {
    SyncedBodies(s, c.window);
    MintedInv(Synced(s, c.window), c.window, PcNext(s, c, choice));
  }

  lemma StepClearRead(s: Store, c: Call, choice: Choice)
    requires Bodies(s) && CallInv(s, c) && c.pc.ClearRead?
    ensures Bodies(StoreNext(s, c, choice)) && CallInv(StoreNext(s, c, choice), CallNext(s, c, choice))
  {
    SyncedBodies(s, c.window);
    var t := Synced(s, c.window);
    ViewsBound(t, c.window, ViewOf(t, c.window).(claim := None));
    if !Holds(s, c.window, c.pc.id) {
      AfterInv(t, c, c.pc.id, c.pc.after, choice.stopped);
    }
  }

  /** Once nothing the mirror holds is in the way, finishing a cleanup keeps everything. */
  lemma AfterInv(s: Store, c: Call, id: Id, after: After, stopped: bool)
    requires Bodies(s) && ToSettle(s, id, after)
    requires after.ThenSend? ==> NotYetMinted(s, c) && c.kind.Send? && UnsetOr(s, Settled)
    ensures var t := WithAfter(s, c.window, c.kind, id, after, stopped);
            Bodies(t) && CallInv(t, c.(pc := AfterClear(c.kind, after, stopped)))
  {
    if after.ThenConfirmed? {
      ViewsBound(s, c.window, ViewOf(s, c.window).(last := Some(id)));
    }
    if after.ThenSend? {
      MintedInv(s, c.window, Decided(c.kind, None, stopped));
    }
  }

  lemma ResolvedMore(s: Store, id: Id, how: How)
    requires Bodies(s)
    ensures var t := Resolve(s, id, how);
            Bodies(t) && id in t.resolved && (t.resolved[id] == how || HasAnswer(t, id))
  {
  }

  lemma SettledBodies(s: Store)
    requires Bodies(s)
    ensures Bodies(s.(mirror := Settled))
  {
  }

  lemma StepClearWrite(s: Store, c: Call, choice: Choice)
    requires Bodies(s) && CallInv(s, c) && c.pc.ClearWrite?
    ensures Bodies(StoreNext(s, c, choice)) && CallInv(StoreNext(s, c, choice), CallNext(s, c, choice))
  {
    hide Bodies;
    var id, after := c.pc.id, c.pc.after;
    var t := if after.ThenDiscarded? then Resolve(s, id, DiscardedByPerson) else s;
    ResolvedMore(s, id, DiscardedByPerson);
    SettledBodies(t);
    assert t.(mirror := Settled) == if after.ThenDiscarded? then Resolve(s.(mirror := Settled), id, DiscardedByPerson) else s.(mirror := Settled);
    AfterInv(t.(mirror := Settled), c, id, after, choice.stopped);
  }

  lemma StepSaving(s: Store, c: Call, choice: Choice)
    requires Bodies(s) && CallInv(s, c) && c.pc.Saving?
    ensures Bodies(StoreNext(s, c, choice)) && CallInv(StoreNext(s, c, choice), CallNext(s, c, choice))
  {
  }

  lemma StepPosting(s: Store, c: Call, choice: Choice)
    requires Bodies(s) && CallInv(s, c) && c.pc.Posting?
    ensures Bodies(StoreNext(s, c, choice)) && CallInv(StoreNext(s, c, choice), CallNext(s, c, choice))
  {
    var t := StoreNext(s, c, choice);
    assert t.posts[|s.posts|].pending == c.pc.pending;
  }

  lemma StepAwaiting(s: Store, c: Call, choice: Choice)
    requires Bodies(s) && CallInv(s, c) && c.pc.Awaiting?
    ensures Bodies(StoreNext(s, c, choice)) && CallInv(StoreNext(s, c, choice), CallNext(s, c, choice))
  {
    hide Bodies;
    ResolvedMore(s, c.pc.pending.id, Confirmed);
    ResolvedMore(s, c.pc.pending.id, RefusedFirst);
  }

  lemma StepReading(s: Store, c: Call, choice: Choice)
    requires Bodies(s) && CallInv(s, c) && c.pc.Reading?
    ensures Bodies(StoreNext(s, c, choice)) && CallInv(StoreNext(s, c, choice), CallNext(s, c, choice))
  {
    ResolvedMore(s, c.pc.id, ReadBack);
    var t := Resolve(s, c.pc.id, ReadBack);
    ViewsBound(t, c.window, ViewOf(t, c.window).(last := Some(c.pc.id)));
  }

  lemma StepKept(s: Store, c: Call, choice: Choice)
    requires Bodies(s) && CallInv(s, c)
    ensures Bodies(StoreNext(s, c, choice)) && CallInv(StoreNext(s, c, choice), CallNext(s, c, choice))
  {
    hide Bodies, RefusalsStand, CallInv, StoreNext, PcNext;
    match c.pc
    case Waiting => StepWaiting(s, c, choice);
    case ReadClaim => StepReadClaim(s, c, choice);
    case ClearRead(_, _) => StepClearRead(s, c, choice);
    case ClearWrite(_, _) => StepClearWrite(s, c, choice);
    case Saving(_, _) => StepSaving(s, c, choice);
    case Posting(_, _, _) => StepPosting(s, c, choice);
    case Awaiting(_, _, _) => StepAwaiting(s, c, choice);
    case Reading(_) => StepReading(s, c, choice);
    case Done(_) => StepDone(s, c, choice);
  }

  lemma StepDone(s: Store, c: Call, choice: Choice)
    requires c.pc.Done?
    ensures StoreNext(s, c, choice) == s && CallNext(s, c, choice) == c
  {
  }

  // --- what a step leaves alone ---------------------------------------------------------------------

  /** The only id a step can bind to a body is the one its own call was given to mint. */
  lemma StepBinds(s: Store, c: Call, choice: Choice)
    ensures forall id :: id in StoreNext(s, c, choice).bodies ==> id in s.bodies || (c.kind.Send? && id == c.kind.newId)
  {
  }

  lemma StepResolves(s: Store, c: Call, choice: Choice)
    ensures forall id :: HasAnswer(s, id) ==> HasAnswer(StoreNext(s, c, choice), id)
  {
    hide Decided;
  }

  /** Only a request sent again unsettles an id. */
  lemma StepSettles(s: Store, c: Call, choice: Choice)
    requires !c.pc.Posting?
    ensures forall id :: id in s.resolved ==> id in StoreNext(s, c, choice).resolved
  {
    hide Decided;
  }

  lemma OutsideKept(s: Store, t: Store, c: Call)
    requires CallInv(s, c) && !Inside(c)
    requires c.kind.Send? ==> (c.kind.newId in t.bodies ==> c.kind.newId in s.bodies)
    requires forall id :: HasAnswer(s, id) ==> HasAnswer(t, id)
    ensures CallInv(t, c)
  {
  }

  lemma AdvanceKeeps(s: State, pid: Pid, choice: Choice)
    requires Inv(s) && Enabled(s, Advance(pid, choice))
    ensures Inv(Apply(s, Advance(pid, choice)))
  {
    hide Bodies, RefusalsStand, CallInv, StoreNext, PcNext;
    var c := s.calls[pid];
    if c.pc.Done? {
      StepDone(s.store, c, choice);
      assert Apply(s, Advance(pid, choice)) == s;
      return;
    }
    StepKept(s.store, c, choice);
    StepRefuses(s.store, c, choice);
    WaitingStays(s, pid, choice);
    OthersKept(s, pid, choice);
    CallMoves(s, pid, choice);
  }

  lemma StepRefuses(s: Store, c: Call, choice: Choice)
    requires CallInv(s, c) && RefusalsStand(s)
    ensures RefusalsStand(StoreNext(s, c, choice))
  {
    hide CallInv, WasRefused, Decided, PcNext, Held, ViewOf, WithAfter, Resolve;
    if c.pc.Posting? { PostRefuses(s, c.pid, c.pc.pending); }
    else if c.pc.Awaiting? { AnswerRefuses(s, c, choice); }
    else { OtherRefuses(s, c, choice); }
  }

  lemma PostRefuses(s: Store, pid: Pid, pending: Pending)
    requires RefusalsStand(s)
    ensures RefusalsStand(WithPost(s, pid, pending))
  {
    var t := WithPost(s, pid, pending);
    forall i: nat, j: nat | SameIdPosts(t.posts, i, j) && i != j ensures !WasRefused(t, t.posts[i].pending.id) {
      if i < |s.posts| && j < |s.posts| { assert SameIdPosts(s.posts, i, j); }
    }
  }

  lemma AnswerRefuses(s: Store, c: Call, choice: Choice)
    requires CallInv(s, c) && c.pc.Awaiting? && RefusalsStand(s)
    ensures RefusalsStand(StoreNext(s, c, choice))
  {
  }

  /** Only an answer records a refusal. */
  lemma OtherRefuses(s: Store, c: Call, choice: Choice)
    requires !c.pc.Posting? && !c.pc.Awaiting?
    ensures var t := StoreNext(s, c, choice); t.posts == s.posts && forall id :: WasRefused(t, id) ==> WasRefused(s, id)
  {
    hide Decided, PcNext, Held, ViewOf;
  }

  lemma CallMoves(s: State, pid: Pid, choice: Choice)
    requires CallsInv(s) && Enabled(s, Advance(pid, choice))
    requires CallInv(StoreNext(s.store, s.calls[pid], choice), CallNext(s.store, s.calls[pid], choice))
    requires forall p :: p in s.calls && p != pid ==> !Inside(s.calls[p]) && CallInv(StoreNext(s.store, s.calls[pid], choice), s.calls[p])
    ensures CallsInv(Apply(s, Advance(pid, choice)))
  {
    hide CallInv, StoreNext, PcNext, NotYetMinted;
    StepBinds(s.store, s.calls[pid], choice);
  }

  lemma OthersKept(s: State, pid: Pid, choice: Choice)
    requires CallsInv(s) && pid in s.calls && forall p :: p in s.calls && p != pid ==> !Inside(s.calls[p])
    ensures forall p :: p in s.calls && p != pid ==> CallInv(StoreNext(s.store, s.calls[pid], choice), s.calls[p])
  {
    hide CallInv, StoreNext, HasAnswer;
    StepBinds(s.store, s.calls[pid], choice);
    StepResolves(s.store, s.calls[pid], choice);
    forall p | p in s.calls && p != pid ensures CallInv(StoreNext(s.store, s.calls[pid], choice), s.calls[p]) {
      assert !SameId(s.calls[p], s.calls[pid]);
      OutsideKept(s.store, StoreNext(s.store, s.calls[pid], choice), s.calls[p]);
    }
  }

  /** While a call moves inside the lock, or takes it, no other call is inside. */
  lemma WaitingStays(s: State, pid: Pid, choice: Choice)
    requires CallsInv(s) && Enabled(s, Advance(pid, choice)) && !s.calls[pid].pc.Done?
    ensures forall p :: p in s.calls && p != pid ==> !Inside(s.calls[p])
  {
    hide CallInv;
  }

  lemma StartKeeps(s: State, call: Call)
    requires Inv(s) && Enabled(s, Start(call))
    ensures Inv(Apply(s, Start(call)))
  {
    hide OneUnresolved;
    var t := Apply(s, Start(call));
    assert CallInv(t.store, call);
    forall p | p in s.calls ensures !SameId(s.calls[p], call) && !SameId(call, s.calls[p]) {}
  }

  lemma CloseKeeps(s: State, pid: Pid)
    requires Inv(s)
    ensures Inv(Apply(s, Close(pid)))
  {
    hide Bodies, RefusalsStand, CallInv;
  }

  lemma DriftKeeps(s: State, window: Window, view: View)
    requires Inv(s) && Enabled(s, Drift(window, view))
    ensures Inv(Apply(s, Drift(window, view)))
  {
    ViewsBound(s.store, window, view);
    forall pid | pid in s.calls ensures CallInv(Apply(s, Drift(window, view)).store, s.calls[pid]) {
      DriftOutside(s.store, window, view, s.calls[pid]);
    }
  }

  /** No call relies on what any window's copy of local storage says. */
  lemma DriftOutside(s: Store, window: Window, view: View, c: Call)
    requires CallInv(s, c)
    ensures CallInv(s.(views := s.views[window := view]), c)
  {
  }

  lemma ApplyKeeps(s: State, event: Event)
    requires Inv(s) && Enabled(s, event)
    ensures Inv(Apply(s, event))
  {
    hide Inv, Enabled, Apply;
    match event
    case Start(call) => StartKeeps(s, call);
    case Advance(pid, choice) => AdvanceKeeps(s, pid, choice);
    case Close(pid) => CloseKeeps(s, pid);
    case Drift(window, view) => DriftKeeps(s, window, view);
  }

  lemma {:induction false} RunKeeps(s: State, events: seq<Event>)
    requires Inv(s) && ValidRun(s, events)
    ensures Inv(Run(s, events))
    decreases |events|
  {
    hide Inv, Enabled, Apply;
    if events != [] {
      ApplyKeeps(s, events[0]);
      RunKeeps(Apply(s, events[0]), events[1..]);
    }
  }

  /** Where a run may begin: no call open, and records that say what they were minted for. */
  ghost predicate Opened(s: State) {
    && s.calls == map[] && s.lock.None?
    && Bodies(s.store) && RefusalsStand(s.store)
    && (forall id :: id in s.store.bodies || id in s.store.resolved ==> id in s.issued)
  }

  ghost predicate Reachable(s: State) {
    exists start: State, events: seq<Event> :: Opened(start) && ValidRun(start, events) && s == Run(start, events)
  }

  lemma ReachableInv(s: State)
    requires Reachable(s)
    ensures Inv(s)
  {
    hide ValidRun, Run, Bodies, RefusalsStand, CallInv;
    var start: State, events: seq<Event> :| Opened(start) && ValidRun(start, events) && s == Run(start, events);
    RunKeeps(start, events);
  }

  // --- runs that post only what the mirror holds --------------------------------------------------------

  /** Nothing is posted while the mirror has no record of the conversation. */
  predicate Guarded(s: State, event: Event) {
    event.Advance? && event.pid in s.calls && s.calls[event.pid].pc.Posting? ==> !s.store.mirror.Unset?
  }

  predicate GuardedRun(s: State, events: seq<Event>)
    decreases |events|
  {
    events == [] || (Enabled(s, events[0]) && Guarded(s, events[0]) && GuardedRun(Apply(s, events[0]), events[1..]))
  }

  lemma ClearTracks(s: Store, c: Call, choice: Choice)
    requires CallInv(s, c) && Tracked(s) && c.pc.ClearWrite?
    ensures Tracked(StoreNext(s, c, choice))
  {
    hide Decided;
  }

  lemma SaveTracks(s: Store, c: Call, choice: Choice)
    requires CallInv(s, c) && Tracked(s) && c.pc.Saving?
    ensures Tracked(StoreNext(s, c, choice))
  {
  }

  lemma PostTracks(s: Store, c: Call, choice: Choice)
    requires Bodies(s) && CallInv(s, c) && Tracked(s) && c.pc.Posting? && !s.mirror.Unset?
    ensures Tracked(StoreNext(s, c, choice))
  {
  }

  lemma OtherTracks(s: Store, c: Call, choice: Choice)
    requires Tracked(s) && !c.pc.ClearWrite? && !c.pc.Saving? && !c.pc.Posting?
    ensures Tracked(StoreNext(s, c, choice))
  {
    hide Decided;
    StepSettles(s, c, choice);
  }

  lemma ApplyTracks(s: State, event: Event)
    requires Inv(s) && Tracked(s.store) && Enabled(s, event) && Guarded(s, event)
    ensures Tracked(Apply(s, event).store)
  {
    hide Bodies, CallInv, Tracked, StoreNext, PcNext;
    match event
    case Advance(pid, choice) =>
      var c := s.calls[pid];
      if c.pc.ClearWrite? { ClearTracks(s.store, c, choice); }
      else if c.pc.Saving? { SaveTracks(s.store, c, choice); }
      else if c.pc.Posting? { PostTracks(s.store, c, choice); }
      else { OtherTracks(s.store, c, choice); }
    case Drift(window, view) => DriftTracks(s.store, window, view);
    case _ =>
  }

  lemma DriftTracks(s: Store, window: Window, view: View)
    requires Tracked(s)
    ensures Tracked(s.(views := s.views[window := view]))
  {
  }

  lemma {:induction false} RunTracks(s: State, events: seq<Event>)
    requires Inv(s) && Tracked(s.store) && GuardedRun(s, events)
    ensures Inv(Run(s, events)) && Tracked(Run(s, events).store)
    decreases |events|
  {
    hide Inv, Enabled, Apply, Guarded, Tracked;
    if events != [] {
      ApplyKeeps(s, events[0]);
      ApplyTracks(s, events[0]);
      RunTracks(Apply(s, events[0]), events[1..]);
    }
  }

  // --- the promises ------------------------------------------------------------------------------------

  /** Where such a run may begin. */
  ghost predicate Rest(s: State) {
    Opened(s) && Tracked(s.store)
  }

  /** `s` is reached without ever posting while the mirror had no record of the conversation. */
  ghost predicate Reached(s: State) {
    exists start: State, events: seq<Event> :: Rest(start) && GuardedRun(start, events) && s == Run(start, events)
  }

  lemma ReachedInv(s: State)
    requires Reached(s)
    ensures Inv(s) && Tracked(s.store)
  {
    hide GuardedRun, Run, Bodies, RefusalsStand, CallInv, Tracked;
    var start: State, events: seq<Event> :| Rest(start) && GuardedRun(start, events) && s == Run(start, events);
    RunTracks(start, events);
  }

  /** A mirror that has a record keeps having one, so from then on every run is such a run. */
  lemma {:induction false} MirroredRunsAreGuarded(s: State, events: seq<Event>)
    requires ValidRun(s, events) && !s.store.mirror.Unset?
    ensures GuardedRun(s, events)
    decreases |events|
  {
    hide Enabled, Apply;
    if events != [] {
      MirrorStays(s, events[0]);
      MirroredRunsAreGuarded(Apply(s, events[0]), events[1..]);
    }
  }

  lemma MirrorStays(s: State, event: Event)
    requires !s.store.mirror.Unset?
    ensures !Apply(s, event).store.mirror.Unset?
  {
    hide PcNext, Decided;
  }

  /** Only `resendPending` ever comes to a post while the mirror has no record. */
  lemma OnlyResendsPostUnmirrored(s: State, event: Event)
    requires Reachable(s) && Enabled(s, event) && !Guarded(s, event)
    ensures event.Advance? && event.pid in s.calls && s.calls[event.pid].kind.Resend?
  {
    hide Bodies, RefusalsStand;
    ReachableInv(s);
    assert CallInv(s.store, s.calls[event.pid]);
  }

  /** The call is about to make a newly minted command the pending one. */
  predicate Mints(s: State, pid: Pid) {
    pid in s.calls && s.calls[pid].pc.Saving? && s.calls[pid].pc.minted
  }

  /** A request went out under the id, and it was not answered, refused or discarded since. */
  predicate Unresolved(s: Store, id: Id) {
    Posted(s, id) && id !in s.resolved
  }

  /**
   * No second identity: a call about to save a minted command finds every id ever posted answered, or
   * refused on a first certain attempt or discarded and not sent since; and two unresolved ids are one.
   */
  lemma NoSecondIdentity(s: State, pid: Pid, id: Id, other: Id)
    requires Reached(s)
    ensures Mints(s, pid) ==> !Unresolved(s.store, id)
    ensures Unresolved(s.store, id) && Unresolved(s.store, other) ==> id == other
  {
    hide Bodies;
    ReachedInv(s);
    if Mints(s, pid) { assert CallInv(s.store, s.calls[pid]); }
  }

  /**
   * Write-ahead: whoever posts was alone in the lock, and its command and input were saved when they
   * were minted; the mirror still holds exactly them unless a resend found it unset. A post unsettles every
   * id but an answered one.
   */
  lemma PostedIsSaved(s: State, pid: Pid, choice: Choice)
    requires Reachable(s) && pid in s.calls && s.calls[pid].pc.Posting?
    ensures Bound(s.store, s.calls[pid].pc.pending)
    ensures s.store.mirror == Holding(s.calls[pid].pc.pending) <==> Guarded(s, Advance(pid, choice))
    ensures !Guarded(s, Advance(pid, choice)) ==> s.calls[pid].kind.Resend?
    ensures var id, t := s.calls[pid].pc.pending.id, Apply(s, Advance(pid, choice)).store; Unresolved(t, id) <==> !HasAnswer(s.store, id)
    ensures forall p :: p in s.calls && p != pid ==> !Inside(s.calls[p])
  {
    hide Bodies, RefusalsStand;
    ReachableInv(s);
    assert CallInv(s.store, s.calls[pid]);
    PostUnsettles(s.store, s.calls[pid].pid, s.calls[pid].pc.pending);
  }

  lemma PostUnsettles(s: Store, pid: Pid, pending: Pending)
    ensures Unresolved(WithPost(s, pid, pending), pending.id) <==> !HasAnswer(s, pending.id)
  {
    assert WithPost(s, pid, pending).posts[|s.posts|].pending == pending;
  }

  /** Body binding: all requests under one id carry one body. */
  lemma OneBodyPerId(s: State, i: nat, j: nat)
    requires Reachable(s) && i < |s.store.posts| && j < |s.store.posts|
    requires s.store.posts[i].pending.id == s.store.posts[j].pending.id
    ensures s.store.posts[i].pending == s.store.posts[j].pending
  {
    hide CallsInv;
    ReachableInv(s);
  }

  /** A refusal settles an id only when that id was sent once, by the send that minted it. */
  lemma RefusedOnceOnly(s: State, pid: Pid, choice: Choice)
    requires Reachable(s) && pid in s.calls
    requires var id := s.calls[pid].pc; id.Awaiting? && !id.uncertain && choice.answer.FinalError?
    ensures var c := s.calls[pid];
            && c.pc.pending.id in Apply(s, Advance(pid, choice)).store.resolved
            && forall i :: 0 <= i < |s.store.posts| && s.store.posts[i].pending.id == c.pc.pending.id ==> i == |s.store.posts| - 1
  {
    hide Bodies, RefusalsStand;
    ReachableInv(s);
    assert CallInv(s.store, s.calls[pid]);
  }

  /** And it settles it no longer once anything more is sent under that id. */
  lemma RefusedIsNotSentAgain(s: State, i: nat, j: nat)
    requires Reachable(s) && SameIdPosts(s.store.posts, i, j) && i != j
    ensures !WasRefused(s.store, s.store.posts[i].pending.id)
  {
    hide Bodies, CallsInv;
    ReachableInv(s);
  }

  /** A send posts the person's input, and `resendPending` only the command it was given. */
  lemma PostsItsOwn(s: State, pid: Pid)
    requires Reachable(s) && pid in s.calls && s.calls[pid].pc.Posting?
    ensures match s.calls[pid].kind
            case Send(input, _) => s.calls[pid].pc.pending.input == input
            case Resend(id) => s.calls[pid].pc.pending.id == id
            case _ => false
  {
    hide Bodies, RefusalsStand;
    ReachableInv(s);
    assert CallInv(s.store, s.calls[pid]);
  }

  /**
   * A cleanup empties the mirror only of an id the server answered, of the id whose first and only send
   * it just refused, or of the very id the person discarded.
   */
  lemma ClearsOnlyItsOwn(s: State, pid: Pid)
    requires Reachable(s) && pid in s.calls && s.calls[pid].pc.ClearWrite?
    ensures var pc := s.calls[pid].pc;
            && (s.store.mirror.Unset? || Mirrors(s.store, pc.id))
            && (HasAnswer(s.store, pc.id) || (pc.after.ThenRefused? && WasRefused(s.store, pc.id))
                || s.calls[pid].kind == Discard(pc.id))
  {
    hide Bodies, RefusalsStand;
    ReachableInv(s);
    assert CallInv(s.store, s.calls[pid]);
  }

  /** When a send returns confirmed, its id is answered, out of the mirror, and remembered by its window as the last. */
  lemma SentIsSettled(s: State, pid: Pid, choice: Choice)
    requires Reachable(s) && Enabled(s, Advance(pid, choice)) && !s.calls[pid].pc.Done?
    requires Apply(s, Advance(pid, choice)).calls[pid].pc == Done(Sent)
    ensures var pc, t := s.calls[pid].pc, Apply(s, Advance(pid, choice));
            && (pc.ClearRead? || pc.ClearWrite?)
            && HasAnswer(t.store, pc.id) && !Mirrors(t.store, pc.id)
            && ViewOf(t.store, s.calls[pid].window).last == Some(pc.id)
            && t.lock.None?
  {
    hide Bodies, RefusalsStand;
    ReachableInv(s);
    assert CallInv(s.store, s.calls[pid]);
  }

  // --- a confirmed call is over ---------------------------------------------------------------------------

  predicate Settling(c: Call) {
    match c.pc
    case ClearRead(_, after) => !after.ThenSend?
    case ClearWrite(_, after) => !after.ThenSend?
    case Done(_) => true
    case _ => false
  }

  function PostsBy(s: Store, pid: Pid): nat {
    |set i | 0 <= i < |s.posts| && s.posts[i].by_ == pid|
  }

  /** Every call is kept under its own number. */
  ghost predicate Labelled(s: State) {
    forall p :: p in s.calls ==> s.calls[p].pid == p
  }

  lemma SettlingStep(s: State, event: Event, pid: Pid)
    requires Labelled(s) && Enabled(s, event) && pid in s.calls && Settling(s.calls[pid])
    ensures var t := Apply(s, event);
            && Labelled(t)
            && (pid in t.calls ==> Settling(t.calls[pid]) && PostsBy(t.store, pid) == PostsBy(s.store, pid))
  {
    hide PostsBy, Settling, StoreNext, PcNext;
    var t := Apply(s, event);
    if event.Advance? {
      SettlingPosts(s.store, s.calls[event.pid], event.choice, pid);
      SettlingGoesOn(s.store, s.calls[pid], event.choice);
    } else {
      SamePosts(s.store, t.store, pid);
    }
  }

  lemma SamePosts(s: Store, t: Store, pid: Pid)
    requires t.posts == s.posts
    ensures PostsBy(t, pid) == PostsBy(s, pid)
  {
  }

  lemma SettlingGoesOn(s: Store, c: Call, choice: Choice)
    requires Settling(c)
    ensures Settling(CallNext(s, c, choice))
  {
    hide Decided;
  }

  lemma SettlingPosts(s: Store, c: Call, choice: Choice, pid: Pid)
    requires c.pid == pid ==> Settling(c)
    ensures PostsBy(StoreNext(s, c, choice), pid) == PostsBy(s, pid)
  {
    hide Decided, PcNext;
    var t := StoreNext(s, c, choice);
    if c.pc.Posting? {
      assert (set i | 0 <= i < |t.posts| && t.posts[i].by_ == pid) == (set i | 0 <= i < |s.posts| && s.posts[i].by_ == pid);
    } else {
      PostsOnlyWhenPosting(s, c, choice);
      SamePosts(s, t, pid);
    }
  }

  lemma PostsOnlyWhenPosting(s: Store, c: Call, choice: Choice)
    requires !c.pc.Posting?
    ensures StoreNext(s, c, choice).posts == s.posts
  {
    hide Decided, PcNext, Held, ViewOf, HasAnswer;
  }

  /** After the server confirmed a call's send, or finally refused it, that call never posts again. */
  lemma {:induction false} SettledNeverReposts(s: State, events: seq<Event>, pid: Pid)
    requires Labelled(s) && ValidRun(s, events) && pid in s.calls && Settling(s.calls[pid])
    requires forall i :: 0 <= i < |events| ==> events[i] != Close(pid)
    ensures PostsBy(Run(s, events).store, pid) == PostsBy(s.store, pid)
    decreases |events|
  {
    hide Labelled, Settling, PostsBy, StoreNext, PcNext;
    if events != [] {
      SettlingStep(s, events[0], pid);
      assert pid in Apply(s, events[0]).calls;
      SettledNeverReposts(Apply(s, events[0]), events[1..], pid);
    }
  }
}
