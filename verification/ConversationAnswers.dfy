/** What a send, a resend and a discard answer, and what they post, from the store they find and the replies they get. */
module ConversationAnswers {
  import opened Text
  import opened ConversationSend
  import opened ConversationWindow

  // --- one outcome --------------------------------------------------------------------------------

  lemma {:induction false} DoneForGood(s: Store, c: Call, script: Script, m: nat, n: nat)
    requires m <= n && CallRun(s, c, script, m).1.pc.Done?
    ensures CallRun(s, c, script, n) == CallRun(s, c, script, m)
    decreases n - m
  {
    hide StoreNext, PcNext;
    if m < n {
      DoneForGood(s, c, script, m, n - 1);
      DoneStays(CallRun(s, c, script, m).0, CallRun(s, c, script, m).1, script);
    }
  }

  lemma DoneStays(s: Store, c: Call, script: Script)
    requires c.pc.Done?
    ensures StoreNext(s, c, ChoiceAt(script, c.pc)) == s && CallNext(s, c, ChoiceAt(script, c.pc)) == c
  {
  }

  /** A call run alone finishes in one way only. */
  lemma FinishesOnce(s: Store, c: Call, script: Script, t: Store, o: Outcome, u: Store, q: Outcome)
    requires Finishes(s, c, script, t, o) && Finishes(s, c, script, u, q)
    ensures t == u && o == q
  {
    hide CallRun;
    var m: nat :| CallRun(s, c, script, m) == (t, c.(pc := Done(o)));
    var n: nat :| CallRun(s, c, script, n) == (u, c.(pc := Done(q)));
    if m <= n { DoneForGood(s, c, script, m, n); } else { DoneForGood(s, c, script, n, m); }
  }

  // --- the requests of one dispatch -----------------------------------------------------------------

  /** A second request goes out after an uncertain first, unless the person stops between. */
  predicate AsksAgain(script: Script) {
    script.first.Unknown? && !script.stopBetween
  }

  function Requests(script: Script, post: Post): seq<Post> {
    if AsksAgain(script) then [post, post] else [post]
  }

  function Closed(s: Store, c: Call, pending: Pending, how: How, after: After): Store {
    var t := Cleared(Resolve(s, pending.id, how), c.window, pending.id, after);
    if how.Confirmed? then WithLast(t, c.window, pending.id) else t
  }

  /** Where the requests leave the store, and what is answered. */
  function Dispatched(s: Store, c: Call, script: Script, pending: Pending, uncertain: bool): (Store, Outcome) {
    var t := WithPost(s, c.pid, pending);
    match script.first
    case Confirms => (Closed(t, c, pending, Confirmed, ThenConfirmed), Sent)
    case FinalError => if uncertain then (t, RefusedAfterUncertain) else (Closed(t, c, pending, RefusedFirst, ThenRefused), Refused)
    case Unknown =>
      if script.stopBetween then (t, Unconfirmed)
      else
        var u := WithPost(t, c.pid, pending);
        match script.second
        case Confirms => (Closed(u, c, pending, Confirmed, ThenConfirmed), Sent)
        case FinalError => (u, RefusedAfterUncertain)
        case Unknown => (u, Unconfirmed)
  }

  lemma DispatchRuns(s: Store, c: Call, script: Script, t: Store, pending: Pending, uncertain: bool)
    requires Runs(s, c, script, t, c.(pc := Posting(pending, uncertain, 0)))
    ensures var (u, outcome) := Dispatched(t, c, script, pending, uncertain); Finishes(s, c, script, u, outcome)
  {
    hide Runs, Cleared, Resolve, WithLast, WithPost;
    AttemptRuns(s, c, script, t, pending, uncertain, 0);
    if AsksAgain(script) { AttemptRuns(s, c, script, WithPost(t, c.pid, pending), pending, true, 1); }
  }

  /** The answer of a dispatch is settled by the replies and by whether the command was sent before. */
  lemma DispatchAnswers(s: Store, c: Call, script: Script, pending: Pending, uncertain: bool)
    ensures var (t, outcome) := Dispatched(s, c, script, pending, uncertain);
            && t.posts == s.posts + Requests(script, Post(c.pid, pending)) && t.bodies == s.bodies
            && (outcome == Sent <==> script.first.Confirms? || (AsksAgain(script) && script.second.Confirms?))
            && (outcome == Refused <==> script.first.FinalError? && !uncertain)
            && (outcome == RefusedAfterUncertain <==> (script.first.FinalError? && uncertain) || (AsksAgain(script) && script.second.FinalError?))
            && (outcome == Unconfirmed <==> script.first.Unknown? && (script.stopBetween || script.second.Unknown?))
            && outcome in [Sent, Refused, RefusedAfterUncertain, Unconfirmed]
            && (outcome == Sent ==> ViewOf(t, c.window).last == Some(pending.id))
  {
    hide Held;
  }

  /** A settled command leaves the mirror; an unsettled one leaves it as it was. */
  lemma DispatchMirror(s: Store, c: Call, script: Script, pending: Pending, uncertain: bool)
    requires Held(s, c.window) == Some(pending)
    ensures var (t, outcome) := Dispatched(s, c, script, pending, uncertain);
            t.mirror == if outcome == Sent || outcome == Refused then Settled else s.mirror
  {
  }

  // --- a send ------------------------------------------------------------------------------------------

  /** The claim a window finds is of the last message it saw answered: a cleanup that failed. */
  predicate LeftBehind(s: Store, w: Window) {
    Held(s, w).Some? && ViewOf(s, w).last == Some(Held(s, w).value.id)
  }

  /** The message still pending, a claim left behind apart. */
  function Pends(s: Store, w: Window): Option<Pending> {
    if LeftBehind(s, w) then None else Held(s, w)
  }

  /** The store once the claim was read, and cleared if it was left behind. */
  function Found(s: Store, w: Window): Store {
    if LeftBehind(s, w) then Cleared(Synced(s, w), w, Held(s, w).value.id, ThenSend) else Synced(s, w)
  }

  lemma FoundIs(s: Store, w: Window)
    ensures var t := Found(s, w);
            && t.posts == s.posts && t.bodies == s.bodies && t.resolved == s.resolved
            && t.mirror == (if LeftBehind(s, w) then Settled else s.mirror)
  {
  }

  lemma SyncedHolds(s: Store, w: Window)
    ensures Held(Synced(s, w), w) == Held(s, w)
  {
  }

  lemma ReadStage(s: Store, c: Call, script: Script)
    requires c.pc.Waiting? && c.kind.Send?
    ensures var pc := Decided(c.kind, Pends(s, c.window), script.stopDeciding);
            Runs(s, c, script, WithMinted(Found(s, c.window), c.window, pc), c.(pc := pc))
  {
    hide Runs, Cleared, Synced, Decided, WithMinted;
    var w := c.window;
    Begins(s, c, script);
    ReadClaimRuns(s, c, script, s);
    if LeftBehind(s, w) {
      ClearRuns(s, c, script, Synced(s, w), c.(pc := ClearRead(Held(s, w).value.id, ThenSend)));
    }
  }

  /** The whole send: what it decides on, and the dispatch of it. */
  function SendResult(s: Store, c: Call, script: Script): (Store, Outcome)
    requires c.kind.Send?
  {
    var pc := Decided(c.kind, Pends(s, c.window), script.stopDeciding);
    var t := WithMinted(Found(s, c.window), c.window, pc);
    match pc
    case Done(outcome) => (t, outcome)
    case Saving(pending, minted) => Dispatched(t.(mirror := Holding(pending)), c, script, pending, !minted)
    case _ => (t, Failed)
  }

  lemma SendRuns(s: Store, c: Call, script: Script)
    requires c.pc.Waiting? && c.kind.Send?
    ensures var (t, outcome) := SendResult(s, c, script); Finishes(s, c, script, t, outcome)
  {
    hide Runs, Found, Pends, WithMinted, Dispatched;
    ReadStage(s, c, script);
    var pc := Decided(c.kind, Pends(s, c.window), script.stopDeciding);
    var t := WithMinted(Found(s, c.window), c.window, pc);
    if pc.Saving? {
      SaveRuns(s, c, script, t, pc.pending, pc.minted);
      DispatchRuns(s, c, script, t.(mirror := Holding(pc.pending)), pc.pending, !pc.minted);
    }
  }

  lemma MintedIs(s: Store, w: Window, pc: Pc)
    ensures var t := WithMinted(s, w, pc); t.posts == s.posts && t.mirror == s.mirror && t.resolved == s.resolved
    ensures !(pc.Saving? && pc.minted) ==> WithMinted(s, w, pc) == s
    ensures pc.Saving? && pc.minted ==> WithMinted(s, w, pc).bodies == s.bodies[pc.pending.id := pc.pending.input]
  {
  }

  /**
   * What a send run alone answers. It is turned away as earlier if and only if another input is pending. Else,
   * unless stopped, it posts the pending command under its own id and body, or a new command under the new id,
   * never both; one reply settles it, or a second request after an uncertain first.
   */
  lemma SendAnswers(s: Store, pid: Pid, w: Window, input: Input, newId: Id, script: Script, t: Store, outcome: Outcome)
    requires Finishes(s, Call(pid, w, Send(input, newId), Waiting), script, t, outcome)
    ensures var pends := Pends(s, w);
            && (outcome == Earlier <==> pends.Some? && pends.value.input != input)
            && (outcome == Stopped <==> outcome != Earlier && script.stopDeciding)
            && (outcome in [Earlier, Stopped] ==>
                  t.posts == s.posts && t.bodies == s.bodies && t.mirror == if LeftBehind(s, w) then Settled else s.mirror)
            && (outcome !in [Earlier, Stopped] ==>
                  var sent := Pending(if pends.Some? then pends.value.id else newId, input);
                  && t.posts == s.posts + Requests(script, Post(pid, sent))
                  && t.bodies == (if pends.Some? then s.bodies else s.bodies[newId := input])
                  && (outcome == Sent <==> script.first.Confirms? || (AsksAgain(script) && script.second.Confirms?))
                  && (outcome == Refused <==> script.first.FinalError? && pends.None?)
                  && (outcome == RefusedAfterUncertain <==> (script.first.FinalError? && pends.Some?) || (AsksAgain(script) && script.second.FinalError?))
                  && (outcome == Unconfirmed <==> script.first.Unknown? && (script.stopBetween || script.second.Unknown?))
                  && outcome in [Sent, Refused, RefusedAfterUncertain, Unconfirmed]
                  && (outcome == Sent ==> ViewOf(t, w).last == Some(sent.id))
                  && t.mirror == if outcome in [Sent, Refused] then Settled else Holding(sent))
  {
    hide Runs, CallRun, Found, Dispatched, Pends, WithMinted, LeftBehind, Requests, AsksAgain, Finishes;
    var c := Call(pid, w, Send(input, newId), Waiting);
    var (u, o) := SendResult(s, c, script);
    SendRuns(s, c, script);
    FinishesOnce(s, c, script, t, outcome, u, o);
    FoundIs(s, w);
    var pc := Decided(c.kind, Pends(s, w), script.stopDeciding);
    MintedIs(Found(s, w), w, pc);
    if pc.Saving? {
      var saved := WithMinted(Found(s, w), w, pc).(mirror := Holding(pc.pending));
      DispatchAnswers(saved, c, script, pc.pending, !pc.minted);
      DispatchMirror(saved, c, script, pc.pending, !pc.minted);
    }
  }

  // --- a resend ------------------------------------------------------------------------------------------

  function LookedUp(s: Store, c: Call, id: Id, lookup: Lookup): (Store, Outcome) {
    match lookup
    case Found => (WithLast(Resolve(s, id, ReadBack), c.window, id), Answered)
    case Missing => (s, Elsewhere)
    case LookupFailed => (s, Failed)
  }

  function ResendResult(s: Store, c: Call, script: Script): (Store, Outcome)
    requires c.kind.Resend?
  {
    if script.stopWaiting then (s, Stopped)
    else if Holds(s, c.window, c.kind.id) then Dispatched(Synced(s, c.window), c, script, Held(s, c.window).value, true)
    else LookedUp(Synced(s, c.window), c, c.kind.id, script.lookup)
  }

  lemma ResendRuns(s: Store, c: Call, script: Script)
    requires c.pc.Waiting? && c.kind.Resend?
    ensures var (t, outcome) := ResendResult(s, c, script); Finishes(s, c, script, t, outcome)
  {
    hide Runs, Dispatched, Synced, Resolve, WithLast;
    Begins(s, c, script);
    if !script.stopWaiting {
      ReadClaimRuns(s, c, script, s);
      if Holds(s, c.window, c.kind.id) {
        DispatchRuns(s, c, script, Synced(s, c.window), Held(s, c.window).value, true);
      } else {
        ReadingRuns(s, c, script, Synced(s, c.window), c.kind.id);
      }
    }
  }

  /** A resend posts the command it was given, and only while it is held; otherwise it reads what became of it. */
  lemma ResendAnswers(s: Store, pid: Pid, w: Window, id: Id, script: Script, t: Store, outcome: Outcome)
    requires Finishes(s, Call(pid, w, Resend(id), Waiting), script, t, outcome)
    ensures && (outcome == Stopped <==> script.stopWaiting) && (outcome == Stopped ==> t == s)
            && t.bodies == s.bodies
            && (!script.stopWaiting && !Holds(s, w, id) ==>
                  && t.posts == s.posts && t.mirror == s.mirror
                  && outcome == (match script.lookup case Found => Answered case Missing => Elsewhere case LookupFailed => Failed)
                  && (outcome == Answered ==> ViewOf(t, w).last == Some(id)))
            && (!script.stopWaiting && Holds(s, w, id) ==>
                  && t.posts == s.posts + Requests(script, Post(pid, Held(s, w).value))
                  && (outcome == Sent <==> script.first.Confirms? || (AsksAgain(script) && script.second.Confirms?))
                  && (outcome == RefusedAfterUncertain <==> script.first.FinalError? || (AsksAgain(script) && script.second.FinalError?))
                  && (outcome == Unconfirmed <==> script.first.Unknown? && (script.stopBetween || script.second.Unknown?))
                  && outcome in [Sent, RefusedAfterUncertain, Unconfirmed]
                  && (outcome == Sent ==> ViewOf(t, w).last == Some(id))
                  && t.mirror == if outcome == Sent then Settled else s.mirror)
  {
    hide Runs, CallRun, Dispatched, Requests, AsksAgain, Finishes;
    var c := Call(pid, w, Resend(id), Waiting);
    var (u, o) := ResendResult(s, c, script);
    ResendRuns(s, c, script);
    FinishesOnce(s, c, script, t, outcome, u, o);
    if Holds(s, w, id) {
      SyncedHolds(s, w);
      DispatchAnswers(Synced(s, w), c, script, Held(s, w).value, true);
      DispatchMirror(Synced(s, w), c, script, Held(s, w).value, true);
    }
  }

  // --- a discard -----------------------------------------------------------------------------------------

  /** A discard answers whether the window held the command; then, and only then, it empties the mirror. */
  lemma DiscardAnswers(s: Store, pid: Pid, w: Window, id: Id, script: Script, t: Store, outcome: Outcome)
    requires Finishes(s, Call(pid, w, Discard(id), Waiting), script, t, outcome)
    ensures outcome == GaveUp(Holds(s, w, id)) && t.posts == s.posts && t.bodies == s.bodies
    ensures t.mirror == if Holds(s, w, id) then Settled else s.mirror
    ensures Holds(s, w, id) ==> Held(t, w).None? && id in t.resolved
  {
    hide Runs, CallRun, Finishes;
    var c := Call(pid, w, Discard(id), Waiting);
    var held := Holds(s, w, id);
    DiscardRuns(s, c, script);
    FinishesOnce(s, c, script, t, outcome, Cleared(Synced(s, w), w, id, ThenDiscarded(held)), GaveUp(held));
    SyncedHolds(s, w);
  }

  lemma DiscardRuns(s: Store, c: Call, script: Script)
    requires c.pc.Waiting? && c.kind.Discard?
    ensures var held := Holds(s, c.window, c.kind.id);
            Finishes(s, c, script, Cleared(Synced(s, c.window), c.window, c.kind.id, ThenDiscarded(held)), GaveUp(held))
  {
    hide Runs, Synced, Cleared, Holds;
    Begins(s, c, script);
    ReadClaimRuns(s, c, script, s);
    ClearRuns(s, c, script, Synced(s, c.window), c.(pc := ClearRead(c.kind.id, ThenDiscarded(Holds(s, c.window, c.kind.id)))));
  }

  // --- a cleanup -----------------------------------------------------------------------------------------

  /** A late cleanup empties the mirror of its own command alone, and posts nothing. */
  lemma CleanupAnswers(s: Store, pid: Pid, w: Window, id: Id, script: Script, t: Store, outcome: Outcome)
    requires Finishes(s, Call(pid, w, Cleanup(id), Waiting), script, t, outcome)
    ensures outcome == Cleaned && t.posts == s.posts && t.bodies == s.bodies && t.resolved == s.resolved
    ensures t.mirror == if Holds(s, w, id) then Settled else s.mirror
  {
    hide Runs, CallRun, Finishes;
    var c := Call(pid, w, Cleanup(id), Waiting);
    CleanupRuns(s, c, script);
    FinishesOnce(s, c, script, t, outcome, Cleared(s, w, id, ThenCleaned), Cleaned);
  }

  lemma CleanupRuns(s: Store, c: Call, script: Script)
    requires c.pc.Waiting? && c.kind.Cleanup?
    ensures Finishes(s, c, script, Cleared(s, c.window, c.kind.id, ThenCleaned), Cleaned)
  {
    hide Runs, Cleared;
    Begins(s, c, script);
    ClearRuns(s, c, script, s, c.(pc := ClearRead(c.kind.id, ThenCleaned)));
  }
}
