/** The promise of one identity holds exactly for conversations the mirror has a record of. */
module ConversationMirror {
  import opened Text
  import opened ConversationSend
  import opened ConversationSafety

  /** A second command is being made pending while an earlier one may have been accepted. */
  ghost predicate Doubled(s: State) {
    exists pid, id :: Mints(s, pid) && Unresolved(s.store, id)
  }

  const GO: Choice := Choice(false, Unknown, Missing)
  const NO_COPY: View := View(None, None)

  predicate Quiet(s: State) {
    s.calls == map[] && s.lock.None? && s.store.mirror.Unset?
  }

  /** Window 0 sees nothing, writes its new claim to local storage, and closes before the mirror is written. */
  lemma LocalOnly(s: State, input: Input, id: Id) returns (events: seq<Event>)
    requires Quiet(s) && id !in s.issued
    ensures ValidRun(s, events)
    ensures var t := Run(s, events);
            && Quiet(t) && t.issued == s.issued + {id}
            && ViewOf(t.store, 0).claim == Some(Pending(id, input))
            && t.store.posts == s.store.posts && t.store.resolved == s.store.resolved
  {
    var call := Call(0, 0, Send(input, id), Waiting);
    var e1, e2, e3, e4 := Drift(0, NO_COPY), Start(call), Advance(0, GO), Close(0);
    var s1 := Apply(s, e1);
    var s2 := Apply(s1, e2);
    var s3 := Apply(s2, e3);
    var s4 := Apply(s3, e3);
    var s5 := Apply(s4, e4);
    assert s4.calls[0].pc == Saving(Pending(id, input), true);
    assert s5.calls == map[];
    RunCons(s4, e4, []);
    RunCons(s3, e3, [e4]);
    RunCons(s2, e3, [e3, e4]);
    RunCons(s1, e2, [e3, e3, e4]);
    RunCons(s, e1, [e2, e3, e3, e4]);
    events := [e1] + [e2, e3, e3, e4];
  }

  /** Opened again, the window sends that claim; nothing puts it into the mirror. */
  lemma ResentUnmirrored(s: State, pending: Pending) returns (events: seq<Event>)
    requires Quiet(s) && ViewOf(s.store, 0).claim == Some(pending) && pending.id !in s.store.resolved
    ensures ValidRun(s, events)
    ensures var t := Run(s, events);
            && Quiet(t) && t.issued == s.issued && t.store.resolved == s.store.resolved
            && Posted(t.store, pending.id)
  {
    var e1, e2, e3 := Start(Call(1, 0, Resend(pending.id), Waiting)), Advance(1, GO), Close(1);
    var s1 := Apply(s, e1);
    var s2 := Apply(s1, e2);
    var s3 := Apply(s2, e2);
    var s4 := Apply(s3, e2);
    var s5 := Apply(s4, e3);
    assert s3.calls[1].pc == Posting(pending, true, 0);
    assert s5.store.posts[|s.store.posts|].pending == pending;
    assert s5.calls == map[];
    RunCons(s4, e3, []);
    RunCons(s3, e2, [e3]);
    RunCons(s2, e2, [e2, e3]);
    RunCons(s1, e2, [e2, e2, e3]);
    RunCons(s, e1, [e2, e2, e2, e3]);
    events := [e1] + [e2, e2, e2, e3];
  }

  /** Window 1, whose copy has not caught up, mints another command. */
  lemma MintsAnother(s: State, input: Input, id: Id) returns (events: seq<Event>)
    requires Quiet(s) && id !in s.issued
    ensures ValidRun(s, events)
    ensures var t := Run(s, events); Mints(t, 2) && t.store.posts == s.store.posts && t.store.resolved == s.store.resolved
  {
    var e1, e2, e3 := Drift(1, NO_COPY), Start(Call(2, 1, Send(input, id), Waiting)), Advance(2, GO);
    var s1 := Apply(s, e1);
    var s2 := Apply(s1, e2);
    var s3 := Apply(s2, e3);
    var s4 := Apply(s3, e3);
    assert s4.calls[2].pc == Saving(Pending(id, input), true);
    RunCons(s3, e3, []);
    RunCons(s2, e3, [e3]);
    RunCons(s1, e2, [e3, e3]);
    RunCons(s, e1, [e2, e3, e3]);
    events := [e1] + [e2, e3, e3];
  }

  lemma UnsetDoubles(s: State, input: Input, id: Id, other: Id) returns (events: seq<Event>)
    requires Rest(s) && s.store.mirror.Unset?
    requires id !in s.issued && other !in s.issued && id != other
    ensures ValidRun(s, events) && Doubled(Run(s, events))
  {
    hide Apply, Enabled, Bodies, RefusalsStand;
    assert Quiet(s);
    var first := LocalOnly(s, input, id);
    var t := Run(s, first);
    var second := ResentUnmirrored(t, Pending(id, input));
    var u := Run(t, second);
    var third := MintsAnother(u, input, other);
    RunConcat(s, first, second);
    RunConcat(s, first + second, third);
    events := first + second + third;
    var last := Run(s, events);
    assert Posted(last.store, id);
    assert Mints(last, 2) && Unresolved(last.store, id);
  }

  /**
   * From a state at rest, no run ever doubles a message if and only if the mirror has a record of
   * the conversation: `resendPending` posts a claim without putting it into an unset mirror.
   */
  lemma OneIdentityIffMirrored(s: State, input: Input, id: Id, other: Id)
    requires Rest(s)
    requires id !in s.issued && other !in s.issued && id != other
    ensures (forall events :: ValidRun(s, events) ==> !Doubled(Run(s, events))) <==> !s.store.mirror.Unset?
  {
    hide Apply, Enabled, Bodies, RefusalsStand, OneUnresolved, Rest, ValidRun, Run;
    if s.store.mirror.Unset? {
      var events := UnsetDoubles(s, input, id, other);
    } else {
      forall events | ValidRun(s, events) ensures !Doubled(Run(s, events)) {
        MirroredRunsAreGuarded(s, events);
        DoubledOnlyUnmirrored(s, events);
      }
    }
  }

  /**
   * A new conversation is safe all the same: a run doubles a message only if, somewhere in it,
   * something was posted while the mirror had no record.
   */
  lemma DoubledOnlyUnmirrored(s: State, events: seq<Event>)
    requires Rest(s) && GuardedRun(s, events)
    ensures !Doubled(Run(s, events))
  {
    hide Rest, GuardedRun, Run, Unresolved;
    var t := Run(s, events);
    assert Reached(t);
    forall pid, id ensures !(Mints(t, pid) && Unresolved(t.store, id)) {
      NoSecondIdentity(t, pid, id, id);
    }
  }
}
