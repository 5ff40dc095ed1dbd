/** Hot files stay with the integrator: no other attempt on them is ever published without a handoff. */
module HotClaims {
  import opened Text
  import opened Paths
  import opened PathSets
  import opened Records
  import opened Directory
  import opened HotFiles
  import opened ClaimProtocol
  import opened ClaimInvariant
  import opened ClaimSteps
  import opened ClaimSafety
  import opened ClaimPromises

  /** Some path lies at or below both a path of the claim and a charter file. */
  ghost predicate TouchesHot(claim: Claim) {
    exists shared :: Covers(claim, shared) && InCharter(shared)
  }

  /** The integrator's own, or exactly what a recorded handoff of the integrator authorizes. */
  ghost predicate Allowed(d: Dir, claim: Claim) {
    claim.owner.role == INTEGRATOR || (claim.handoffFrom.Some? && AuthorizedUse(d, claim.handoffFrom.value, claim))
  }

  ghost predicate AttemptsAllowed(d: Dir) {
    forall id :: id in d.attempts && TouchesHot(d.attempts[id]) ==> Allowed(d, d.attempts[id])
  }

  /** A call about to publish has been let past its hot paths. */
  ghost predicate Checked(c: ClaimCall) {
    c.pc.PublishAttempt? && AnyHot(c.scope) ==> c.input.owner.role == INTEGRATOR || c.handoff.Some?
  }

  ghost predicate CallsChecked(s: State) {
    forall p :: Calls(s, p) ==> Checked(CallOf(s, p))
  }

  ghost predicate HotInv(s: State) {
    AttemptsAllowed(s.dir) && CallsChecked(s)
  }

  // --- what a claim's hot paths are ---------------------------------------------------------------

  /** A reduced set has a hot path if and only if its recorded spellings touch the charter. */
  lemma HotScope(c: ClaimCall)
    requires Prepared(c)
    ensures AnyHot(c.scope) <==> TouchesHot(ClaimOf(c))
  {
    hide Canonical, CanonicalSet, IsHot, InCharter, KeyContains, ClaimOf, RecordedKeys;
    ScopeKeys(c);
    ReducedAreCanonical(c.input.paths);
    var keys := Keys(c.scope);
    if i :| 0 <= i < |c.scope| && IsHot(c.scope[i].path) {
      HotIff(c.scope[i].path);
      var shared :| KeyContains(keys[i], shared) && InCharter(shared);
      assert Covers(ClaimOf(c), shared);
    }
    if shared :| Covers(ClaimOf(c), shared) && InCharter(shared) {
      var i :| 0 <= i < |keys| && KeyContains(keys[i], shared);
      HotIff(c.scope[i].path);
    }
  }

  // --- one step -------------------------------------------------------------------------------------

  lemma AllowedStays(d: Dir, e: Dir, claim: Claim)
    requires Grows(d, e) && Allowed(d, claim)
    ensures Allowed(e, claim)
  {
    hide Authorizes, CanonicalSet, RecordedKeys;
  }

  lemma QuietAllowed(d: Dir, e: Dir)
    requires Grows(d, e) && e.attempts == d.attempts && AttemptsAllowed(d)
    ensures AttemptsAllowed(e)
  {
    hide Grows, Allowed, TouchesHot;
    forall id | id in e.attempts && TouchesHot(e.attempts[id]) ensures Allowed(e, e.attempts[id]) {
      AllowedStays(d, e, e.attempts[id]);
    }
  }

  lemma PublishAllowed(d: Dir, c: ClaimCall)
    requires Base(d, c) && c.pc.PublishAttempt? && Checked(c) && AttemptsAllowed(d)
    ensures AttemptsAllowed(Publish(d, PutAttempt(ClaimOf(c))))
  {
    hide Allowed, TouchesHot, Grows, AnyHot, ClaimOf, Base;
    PreparedIs(d, c);
    var e := Publish(d, PutAttempt(ClaimOf(c)));
    PublishGrows(d, PutAttempt(ClaimOf(c)));
    HotScope(c);
    forall id | id in e.attempts && TouchesHot(e.attempts[id]) ensures Allowed(e, e.attempts[id]) {
      if id in d.attempts { AllowedStays(d, e, d.attempts[id]); } else { OwnAllowed(d, e, c); }
    }
  }

  lemma PreparedIs(d: Dir, c: ClaimCall)
    requires Base(d, c)
    ensures Prepared(c)
  {
    hide Prepared, HandoffSound;
  }

  lemma BaseIs(d: Dir, earlier: map<Id, Claim>, c: ClaimCall)
    requires ClaimInv(d, earlier, c) && c.pc.PublishAttempt?
    ensures Base(d, c)
  {
    hide Base;
  }

  lemma OwnAllowed(d: Dir, e: Dir, c: ClaimCall)
    requires Base(d, c) && Grows(d, e) && (c.input.owner.role == INTEGRATOR || c.handoff.Some?)
    ensures Allowed(e, ClaimOf(c))
  {
    hide Grows, AuthorizedUse, Base;
    if c.handoff.Some? { UseIsAuthorized(d, c); }
    assert Allowed(d, ClaimOf(c));
    AllowedStays(d, e, ClaimOf(c));
  }

  lemma OthersPublishNoAttempt(d: Dir, w: Write)
    requires !w.PutAttempt?
    ensures Publish(d, w).attempts == d.attempts
  {
  }

  lemma ClaimAllowed(s: State, p: Pid)
    requires Inv(s) && HotInv(s) && Calls(s, p)
    ensures AttemptsAllowed(Publish(s.dir, ClaimWrite(CallOf(s, p))))
  {
    hide Inv, AttemptsAllowed, Publish, ClaimOf, Checked, ReleaseWrite, ClaimInv;
    var c := CallOf(s, p);
    ClaimIs(s, p);
    if c.pc.PublishAttempt? {
      BaseIs(s.dir, s.earlier, c);
      PublishAllowed(s.dir, c);
    } else {
      WritesNoAttempt(c);
      OthersPublishNoAttempt(s.dir, ClaimWrite(c));
      PublishGrows(s.dir, ClaimWrite(c));
      QuietAllowed(s.dir, Publish(s.dir, ClaimWrite(c)));
    }
  }

  lemma WritesNoAttempt(c: ClaimCall)
    ensures ClaimWrite(c).PutAttempt? ==> c.pc.PublishAttempt?
  {
    hide ClaimOf, ReleaseRecord;
  }

  /** The only way to the publication is past the check. */
  lemma NextChecked(d: Dir, c: ClaimCall, choice: Choice)
    requires Checked(c)
    ensures Checked(ClaimNext(d, c, choice))
  {
    hide AnyHot, Authorizes, CanonicalSet, Complete, NonEmpty, Unlockable, SearchNext, ReleaseNext, GiveBackCall;
  }

  lemma EventHot(s: State, event: Event)
    requires Inv(s) && Enabled(s, event) && HotInv(s)
    ensures HotInv(Apply(s, event))
  {
    EventCalls(s, event);
    EventAttempts(s, event);
  }

  lemma EventCalls(s: State, event: Event)
    requires Enabled(s, event) && CallsChecked(s)
    ensures CallsChecked(Apply(s, event))
  {
    hide Publish, ClaimNext, ReleaseNext, ClaimWrite, ReleaseWrite, AnyHot, Authoritative, RecordOf;
    var t := Apply(s, event);
    forall p | Calls(t, p) ensures Checked(CallOf(t, p)) {
      if Calls(s, p) {
        assert Checked(CallOf(s, p));
        if event.Advance? && event.pid == p { NextChecked(s.dir, CallOf(s, p), event.choice); }
      }
    }
  }

  lemma EventAttempts(s: State, event: Event)
    requires Inv(s) && Enabled(s, event) && HotInv(s)
    ensures AttemptsAllowed(Apply(s, event).dir)
  {
    hide Inv, AttemptsAllowed, Grows, Publish, ClaimNext, ReleaseNext, ClaimWrite, Authoritative, RecordOf, Checked, ReleaseRecord;
    EventGrows(s, event);
    match event
    case Start(_, _) =>
    case Crash(_) =>
    case Foreign(later, release) =>
      OthersPublishNoAttempt(s.dir, if later then PutLaterRelease(release) else PutFirstRelease(release));
      QuietAllowed(s.dir, Apply(s, event).dir);
    case Offer(handoff) =>
      OthersPublishNoAttempt(s.dir, PutHandoff(handoff));
      QuietAllowed(s.dir, Apply(s, event).dir);
    case Advance(pid, choice) =>
      match s.procs[pid]
      case Claiming(c) => ClaimAllowed(s, pid);
      case Releasing(r) =>
        OthersPublishNoAttempt(s.dir, ReleaseWrite(r));
        QuietAllowed(s.dir, Apply(s, event).dir);
  }

  lemma {:induction false} RunHot(s: State, events: seq<Event>)
    requires Inv(s) && ValidRun(s, events) && HotInv(s)
    ensures HotInv(Run(s, events))
    decreases |events|
  {
    hide Inv, Enabled, Apply, HotInv;
    if events != [] {
      ApplyKeeps(s, events[0]);
      EventHot(s, events[0]);
      RunHot(Apply(s, events[0]), events[1..]);
    }
  }

  /**
   * In every reachable state, an attempt that touches a charter file belongs to the integrator, or names a
   * handoff the integrator issued that authorizes exactly its owner, node, base and paths.
   */
  lemma HotAttemptsAreAllowed(s: State, id: Id, shared: string)
    requires Reachable(s) && id in s.dir.attempts && Covers(s.dir.attempts[id], shared) && InCharter(shared)
    ensures var a := s.dir.attempts[id];
            a.owner.role == INTEGRATOR
            || (&& a.handoffFrom.Some? && a.handoffFrom.value in s.dir.handoffs && CanonicalSet(a.paths).Ok?
                && var h := s.dir.handoffs[a.handoffFrom.value];
                   && Complete(h.issuedBy) && h.issuedBy.role == INTEGRATOR && SameOwner(h.recipient, a.owner)
                   && h.id == a.handoffFrom.value && h.program == PROGRAM && h.node == a.node && h.baseSha == a.baseSha
                   && CanonicalSet(h.paths).Ok? && SameScope(CanonicalSet(h.paths).value, CanonicalSet(a.paths).value))
  {
    hide Inv, ValidRun, Run, CanonicalSet, RecordedKeys, Covers, InCharter, Complete, SameOwner, SameScope;
    var earlier: map<Id, Claim>, events: seq<Event> :|
      EarlierClaims(earlier) && ValidRun(Initial(earlier), events) && s == Run(Initial(earlier), events);
    InitialInv(earlier);
    RunHot(Initial(earlier), events);
    assert TouchesHot(s.dir.attempts[id]);
    if s.dir.attempts[id].owner.role != INTEGRATOR { assert Allowed(s.dir, s.dir.attempts[id]); }
  }
}
