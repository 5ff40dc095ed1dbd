/**
 * The sending functions in the form they are written, over the stores a window works on. Each is
 * proved to be a run of the step-by-step protocol in which nobody else moves.
 */
module ConversationWindow {
  import opened Text
  import opened ConversationSend

  /** What the world will answer one call: a Stop at each place one is looked at, the two replies, the record. */
  datatype Script = Script(stopWaiting: bool, stopDeciding: bool, first: Answer, stopBetween: bool, second: Answer, lookup: Lookup)

  function ChoiceAt(script: Script, pc: Pc): Choice {
    match pc
    case Waiting => Choice(script.stopWaiting, script.first, script.lookup)
    case Awaiting(_, _, attempt) =>
      Choice(script.stopBetween, if attempt == 0 then script.first else script.second, script.lookup)
    case _ => Choice(script.stopDeciding, script.first, script.lookup)
  }

  function CallRun(s: Store, c: Call, script: Script, n: nat): (Store, Call)
    decreases n
  {
    if n == 0 then (s, c)
    else
      var (t, d) := CallRun(s, c, script, n - 1);
      (StoreNext(t, d, ChoiceAt(script, d.pc)), CallNext(t, d, ChoiceAt(script, d.pc)))
  }

  /** Running the call `c` on `s`, with nobody else moving, leads to `d` on `t`. */
  ghost predicate Runs(s: Store, c: Call, script: Script, t: Store, d: Call) {
    exists n: nat :: CallRun(s, c, script, n) == (t, d)
  }

  lemma RunsNow(s: Store, c: Call, script: Script)
    ensures Runs(s, c, script, s, c)
  {
    assert CallRun(s, c, script, 0) == (s, c);
  }

  lemma RunsStep(s: Store, c: Call, script: Script, t: Store, d: Call)
    requires Runs(s, c, script, t, d)
    ensures Runs(s, c, script, StoreNext(t, d, ChoiceAt(script, d.pc)), CallNext(t, d, ChoiceAt(script, d.pc)))
  {
    hide StoreNext, CallNext, ChoiceAt;
    var n: nat :| CallRun(s, c, script, n) == (t, d);
    assert CallRun(s, c, script, n + 1) == (StoreNext(t, d, ChoiceAt(script, d.pc)), CallNext(t, d, ChoiceAt(script, d.pc)));
  }

  // --- the parts of a call --------------------------------------------------------------------------

  /** What a whole cleanup leaves in the shared store and this window's copy. */
  function Cleared(s: Store, w: Window, id: Id, after: After): Store {
    if !Holds(s, w, id) then Synced(s, w)
    else
      var settled := WithClaim(Synced(s, w), w, None).(mirror := Settled);
      if after.ThenDiscarded? then Resolve(settled, id, DiscardedByPerson) else settled
  }

  lemma ClearRuns(s: Store, c: Call, script: Script, t: Store, d: Call)
    requires Runs(s, c, script, t, d) && d.pc.ClearRead?
    ensures var id, after, stop := d.pc.id, d.pc.after, script.stopDeciding;
            Runs(s, c, script, WithAfter(Cleared(t, d.window, id, after), d.window, d.kind, id, after, stop), d.(pc := AfterClear(d.kind, after, stop)))
  {
    hide Runs, WithAfter, AfterClear, Synced;
    RunsStep(s, c, script, t, d);
    if Holds(t, d.window, d.pc.id) {
      RunsStep(s, c, script, WithClaim(Synced(t, d.window), d.window, None), d.(pc := ClearWrite(d.pc.id, d.pc.after)));
    }
  }

  /** The call, run from `c`, has stopped with `outcome`. */
  ghost predicate Finishes(s: Store, c: Call, script: Script, t: Store, outcome: Outcome) {
    Runs(s, c, script, t, c.(pc := Done(outcome)))
  }

  lemma ReadClaimRuns(s: Store, c: Call, script: Script, t: Store)
    requires Runs(s, c, script, t, c.(pc := ReadClaim)) && !c.kind.Cleanup?
    ensures var claim, w, synced := Held(t, c.window), c.window, Synced(t, c.window);
            match c.kind
            case Send(input, _) =>
              if claim.Some? && ViewOf(t, w).last == Some(claim.value.id)
              then Runs(s, c, script, synced, c.(pc := ClearRead(claim.value.id, ThenSend)))
              else var pc := Decided(c.kind, claim, script.stopDeciding); Runs(s, c, script, WithMinted(synced, w, pc), c.(pc := pc))
            case Resend(id) =>
              Runs(s, c, script, synced, c.(pc := if Holds(t, w, id) then Posting(claim.value, true, 0) else Reading(id)))
            case Discard(id) => Runs(s, c, script, synced, c.(pc := ClearRead(id, ThenDiscarded(Holds(t, w, id)))))
            case Cleanup(_) => true
  {
    hide Runs, Decided, Synced;
    RunsStep(s, c, script, t, c.(pc := ReadClaim));
  }

  lemma SaveRuns(s: Store, c: Call, script: Script, t: Store, pending: Pending, minted: bool)
    requires Runs(s, c, script, t, c.(pc := Saving(pending, minted)))
    ensures Runs(s, c, script, t.(mirror := Holding(pending)), c.(pc := Posting(pending, !minted, 0)))
  {
    hide Runs;
    RunsStep(s, c, script, t, c.(pc := Saving(pending, minted)));
  }

  function ReplyTo(script: Script, attempt: nat): Answer {
    if attempt == 0 then script.first else script.second
  }

  /** One attempt: the request goes out and its answer is judged. */
  lemma AttemptRuns(s: Store, c: Call, script: Script, t: Store, pending: Pending, uncertain: bool, attempt: nat)
    requires Runs(s, c, script, t, c.(pc := Posting(pending, uncertain, attempt)))
    ensures var u := WithPost(t, c.pid, pending);
            match ReplyTo(script, attempt)
            case Confirms =>
              var v := Cleared(Resolve(u, pending.id, Confirmed), c.window, pending.id, ThenConfirmed);
              Finishes(s, c, script, WithLast(v, c.window, pending.id), Sent)
            case FinalError =>
              if uncertain then Finishes(s, c, script, u, RefusedAfterUncertain)
              else Finishes(s, c, script, Cleared(Resolve(u, pending.id, RefusedFirst), c.window, pending.id, ThenRefused), Refused)
            case Unknown =>
              if script.stopBetween || attempt > 0 then Finishes(s, c, script, u, Unconfirmed)
              else Runs(s, c, script, u, c.(pc := Posting(pending, true, 1)))
  {
    hide Runs, Cleared, Resolve, WithLast;
    RunsStep(s, c, script, t, c.(pc := Posting(pending, uncertain, attempt)));
    var u := WithPost(t, c.pid, pending);
    RunsStep(s, c, script, u, c.(pc := Awaiting(pending, uncertain, attempt)));
    if ReplyTo(script, attempt).Confirms? {
      ClearRuns(s, c, script, Resolve(u, pending.id, Confirmed), c.(pc := ClearRead(pending.id, ThenConfirmed)));
    }
    if ReplyTo(script, attempt).FinalError? && !uncertain {
      ClearRuns(s, c, script, Resolve(u, pending.id, RefusedFirst), c.(pc := ClearRead(pending.id, ThenRefused)));
    }
  }

  lemma ReadingRuns(s: Store, c: Call, script: Script, t: Store, id: Id)
    requires Runs(s, c, script, t, c.(pc := Reading(id)))
    ensures match script.lookup
            case Found => Finishes(s, c, script, WithLast(Resolve(t, id, ReadBack), c.window, id), Answered)
            case Missing => Finishes(s, c, script, t, Elsewhere)
            case LookupFailed => Finishes(s, c, script, t, Failed)
  {
    hide Runs;
    RunsStep(s, c, script, t, c.(pc := Reading(id)));
  }

  // --- the object --------------------------------------------------------------------------------------

  class Conversation {
    var mirror: Mirror
    var views: map<Window, View>
    ghost var posts: seq<Post>
    ghost var resolved: map<Id, How>
    ghost var bodies: map<Id, Input>

    ghost function Model(): Store
      reads this
    {
      Store(mirror, views, posts, resolved, bodies)
    }

    constructor ()
      ensures Model() == Store(Unset, map[], [], map[], map[])
    {
      mirror, views, posts, resolved, bodies := Unset, map[], [], map[], map[];
    }

    method View(w: Window) returns (view: ConversationSend.View)
      ensures view == ViewOf(Model(), w)
    {
      view := if w in views then views[w] else ConversationSend.View(None, None);
    }

    /** The claim the lock holder decides on; its own copy is brought up to date with the mirror. */
    method HeldClaim(w: Window) returns (claim: Option<Pending>)
      modifies this`views
      ensures claim == Held(old(Model()), w)
      ensures Model() == Synced(old(Model()), w)
    {
      var view := View(w);
      match mirror
      case Unset =>
        claim := view.claim;
      case Settled =>
        claim := None;
        views := views[w := view.(claim := None)];
      case Holding(held) =>
        claim := Some(held);
        views := views[w := view.(claim := Some(held))];
    }

    ghost method Settle(id: Id, how: How)
      modifies this`resolved
      ensures Model() == Resolve(old(Model()), id, how)
    {
      if !HasAnswer(Model(), id) { resolved := resolved[id := how]; }
    }

    /** Leaves the state `Cleared`: empty if `id` was held, in step with the mirror otherwise. */
    method Clear(w: Window, id: Id, ghost after: After)
      modifies this
      ensures Model() == Cleared(old(Model()), w, id, after)
    {
      var claim := HeldClaim(w);
      if claim.Some? && claim.value.id == id {
        var view := View(w);
        views := views[w := view.(claim := None)];
        mirror := Settled;
        if after.ThenDiscarded? { Settle(id, DiscardedByPerson); }
      }
    }

    method RememberLast(w: Window, id: Id)
      modifies this`views
      ensures Model() == WithLast(old(Model()), w, id)
    {
      var view := View(w);
      views := views[w := view.(last := Some(id))];
    }

    /** At most two requests, the second only after an uncertain first. */
    method Dispatch(ghost s: Store, ghost c: Call, w: Window, pending: Pending, uncertainBefore: bool, script: Script) returns (outcome: Outcome)
      requires Runs(s, c, script, Model(), c.(pc := Posting(pending, uncertainBefore, 0))) && c.window == w
      modifies this
      ensures Finishes(s, c, script, Model(), outcome)
    {
      hide Runs, Cleared, ChoiceAt;
      var uncertain, attempt := uncertainBefore, 0;
      while attempt < 2
        invariant attempt <= 2
        invariant attempt < 2 ==> Runs(s, c, script, Model(), c.(pc := Posting(pending, uncertain, attempt)))
        invariant attempt == 2 ==> Finishes(s, c, script, Model(), Unconfirmed)
      {
        AttemptRuns(s, c, script, Model(), pending, uncertain, attempt);
        resolved := if HasAnswer(Model(), pending.id) then resolved else resolved - {pending.id};
        posts := posts + [Post(c.pid, pending)];
        var answer := ReplyTo(script, attempt);
        if answer == Confirms {
          Settle(pending.id, Confirmed);
          Clear(w, pending.id, ThenConfirmed);
          RememberLast(w, pending.id);
          return Sent;
        }
        if answer == FinalError {
          if uncertain { return RefusedAfterUncertain; }
          Settle(pending.id, RefusedFirst);
          Clear(w, pending.id, ThenRefused);
          return Refused;
        }
        if script.stopBetween { return Unconfirmed; }
        uncertain := true;
        attempt := attempt + 1;
      }
      return Unconfirmed;
    }

    method SendMessage(ghost pid: Pid, w: Window, input: Input, newId: Id, script: Script) returns (outcome: Outcome)
      modifies this
      ensures Finishes(old(Model()), Call(pid, w, Send(input, newId), Waiting), script, Model(), outcome)
    {
      hide Runs, Cleared, Synced, PcNext, StoreNext;
      ghost var s, c := Model(), Call(pid, w, Send(input, newId), Waiting);
      Begins(s, c, script);
      ReadClaimRuns(s, c, script, s);
      var view := View(w);
      var claim := HeldClaim(w);
      if claim.Some? && view.last == Some(claim.value.id) {
        ClearRuns(s, c, script, Model(), c.(pc := ClearRead(claim.value.id, ThenSend)));
        Clear(w, claim.value.id, ThenSend);
        claim := None;
      }
      if claim.Some? && claim.value.input != input { return Earlier; }
      if script.stopDeciding { return Stopped; }
      var pending;
      if claim.Some? {
        pending := claim.value;
      } else {
        pending := Pending(newId, input);
        bodies := bodies[newId := input];
        view := View(w);
        views := views[w := view.(claim := Some(pending))];
      }
      SaveRuns(s, c, script, Model(), pending, claim.None?);
      mirror := Holding(pending);
      outcome := Dispatch(s, c, w, pending, claim.Some?, script);
    }

    /** Sends again only the command it is given, while the claim still holds it. */
    method ResendPending(ghost pid: Pid, w: Window, id: Id, script: Script) returns (outcome: Outcome)
      modifies this
      ensures Finishes(old(Model()), Call(pid, w, Resend(id), Waiting), script, Model(), outcome)
    {
      hide Runs, Cleared, Synced, PcNext, StoreNext;
      ghost var s, c := Model(), Call(pid, w, Resend(id), Waiting);
      Begins(s, c, script);
      if script.stopWaiting { return Stopped; }
      ReadClaimRuns(s, c, script, s);
      var claim := HeldClaim(w);
      if claim.Some? && claim.value.id == id {
        outcome := Dispatch(s, c, w, claim.value, true, script);
        return;
      }
      ReadingRuns(s, c, script, Model(), id);
      match script.lookup
      case Found =>
        Settle(id, ReadBack);
        RememberLast(w, id);
        outcome := Answered;
      case Missing =>
        outcome := Elsewhere;
      case LookupFailed =>
        outcome := Failed;
    }

    /** `held` says whether `id` was the pending command; no other command is touched. */
    method DiscardPendingMessage(ghost pid: Pid, w: Window, id: Id, script: Script) returns (held: bool)
      modifies this
      ensures Finishes(old(Model()), Call(pid, w, Discard(id), Waiting), script, Model(), GaveUp(held))
      ensures held == Holds(old(Model()), w, id)
    {
      hide Runs, Cleared, Synced, PcNext, StoreNext;
      ghost var s, c := Model(), Call(pid, w, Discard(id), Waiting);
      Begins(s, c, script);
      ReadClaimRuns(s, c, script, s);
      var claim := HeldClaim(w);
      held := claim.Some? && claim.value.id == id;
      ClearRuns(s, c, script, Model(), c.(pc := ClearRead(id, ThenDiscarded(held))));
      Clear(w, id, ThenDiscarded(held));
    }
  }

  lemma Begins(s: Store, c: Call, script: Script)
    requires c.pc.Waiting?
    ensures Runs(s, c, script, s, c.(pc := Granted(c.kind, script.stopWaiting)))
  {
    hide Runs;
    RunsNow(s, c, script);
    RunsStep(s, c, script, s, c);
  }
}
