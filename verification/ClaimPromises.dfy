/** What callers of `claimPaths` and `releaseClaim` may rely on, in every reachable state. */
module ClaimPromises {
  import opened Text
  import opened PathSets
  import opened Records
  import opened Directory
  import opened ClaimProtocol
  import opened ClaimInvariant
  import opened ClaimSteps
  import opened ClaimSafety

  // --- the order ---------------------------------------------------------------------------

  ghost predicate Calls(s: State, pid: Pid) {
    pid in s.procs && s.procs[pid].Claiming?
  }

  function CallOf(s: State, pid: Pid): ClaimCall
    requires pid in s.procs && s.procs[pid].Claiming?
  {
    s.procs[pid].claimCall
  }

  /** Published numbers are exactly 0..n-1, and an attempt that lands at n finds every smaller one published. */
  lemma DenseOrder(s: State, pid: Pid)
    requires Reachable(s)
    ensures forall n: nat :: n in s.dir.order <==> n < |s.dir.order|
    ensures Calls(s, pid) && CallOf(s, pid).pc.LinkOrder? ==>
              forall m: nat :: m < CallOf(s, pid).pc.next ==> m in s.dir.order && s.dir.order[m].id != CallOf(s, pid).id
    ensures Calls(s, pid) && CallOf(s, pid).pc.Search? ==>
              forall m: nat :: m <= CallOf(s, pid).seqNo ==> m in s.dir.order
  {
    hide OrderSound, RecordsSound, WinnersSound, UsesSound, Base, SearchInv, HasWon;
    ReachableInv(s);
    if Calls(s, pid) { ClaimIs(s, pid); }
  }

  /** Each failed link is paid for by an entry another call published since the directory was listed. */
  lemma FailedLinksArePaidFor(s: State, events: seq<Event>, pid: Pid)
    requires Inv(s) && ValidRun(s, events)
    requires Calls(s, pid) && CallOf(s, pid).pc == LinkOrder(|s.dir.order|)
    requires var t := Run(s, events); Calls(t, pid) && CallOf(t, pid).pc.LinkOrder? && CallOf(t, pid).id == CallOf(s, pid).id
    ensures var t := Run(s, events);
            && CallOf(t, pid).pc.next - CallOf(s, pid).pc.next <= |t.dir.order| - |s.dir.order|
            && (forall n :: n in t.dir.order && n !in s.dir.order ==> t.dir.order[n].id != CallOf(s, pid).id)
  {
    hide OrderSound, RecordsSound, WinnersSound, UsesSound, Base, SearchInv, HasWon, Grows, ValidRun, Run;
    RunKeeps(s, events);
    ClaimIs(Run(s, events), pid);
  }

  // --- handoffs -----------------------------------------------------------------------------

  /** A claim returned under a handoff is that handoff's one recorded user, and is exactly what it authorizes. */
  lemma HandoffAuthorizesItsUser(s: State, pid: Pid)
    requires Reachable(s) && Calls(s, pid)
    requires CallOf(s, pid).pc.Done? && CallOf(s, pid).pc.result.Claimed?
    ensures var c := CallOf(s, pid);
            && HasWon(s.dir, c.id) && c.pc.result.claim.id == c.id
            && (c.pc.result.claim.handoffFrom.Some? ==>
                  var h := c.pc.result.claim.handoffFrom.value;
                  && h in s.dir.uses && s.dir.uses[h] == c.id
                  && h in s.dir.handoffs
                  && Authorizes(s.dir.handoffs[h], h, c.input.owner, c.input.node, c.input.baseSha, c.scope))
  {
    hide DirInv, Prepared, Authorizes;
    ReachableInv(s);
    ClaimIs(s, pid);
    HandoffOfClaim(CallOf(s, pid));
    NoHandoffOfClaim(CallOf(s, pid));
  }

  /**
   * And the directory keeps saying so, whatever became of the call: each handoff's recorded user won
   * under it, and is the owner, node, base and reduced paths its record authorizes.
   */
  lemma RecordedUserIsAuthorized(s: State, h: Id)
    requires Reachable(s) && h in s.dir.uses
    ensures var d, id := s.dir, s.dir.uses[h];
            && HasWon(d, id) && id in d.attempts && d.attempts[id].handoffFrom == Some(h)
            && h in d.handoffs && CanonicalSet(d.attempts[id].paths).Ok?
            && Authorizes(d.handoffs[h], h, d.attempts[id].owner, d.attempts[id].node, d.attempts[id].baseSha, CanonicalSet(d.attempts[id].paths).value)
  {
    hide Reachable, Authorizes, CanonicalSet, Dense, OrderSound, RecordsSound, WinnersSound, ProcInv, RecordedKeys;
    ReachableInv(s);
  }

  lemma NoHandoffOfClaim(c: ClaimCall)
    ensures ClaimOf(c).handoffFrom.Some? <==> c.handoff.Some?
  {
  }

  /** Two returned claims that name one handoff are one call's. */
  lemma HandoffUsedOnce(s: State, p: Pid, q: Pid)
    requires Reachable(s) && Calls(s, p) && Calls(s, q)
    requires CallOf(s, p).pc.Done? && CallOf(s, p).pc.result.Claimed? && CallOf(s, p).pc.result.claim.handoffFrom.Some?
    requires CallOf(s, q).pc.Done? && CallOf(s, q).pc.result.Claimed?
    requires CallOf(s, p).pc.result.claim.handoffFrom == CallOf(s, q).pc.result.claim.handoffFrom
    ensures p == q
  {
    hide DirInv, Base, Authorizes;
    HandoffAuthorizesItsUser(s, p);
    HandoffAuthorizesItsUser(s, q);
    ReachableInv(s);
    ClaimIs(s, p);
    ClaimIs(s, q);
    assert Owns(s.procs[p], CallOf(s, p).id) && Owns(s.procs[q], CallOf(s, q).id);
  }

  /**
   * An attempt that won and then found its handoff spent has given its paths back when it returns;
   * it throws instead only if the claim is over already or both release names are occupied.
   */
  lemma SpentHandoffGivesBack(s: State, pid: Pid)
    requires Reachable(s) && Calls(s, pid) && CallOf(s, pid).pc.Done?
    ensures var c := CallOf(s, pid);
            && (c.pc.result.HandoffSpent? ==> Released(s.dir, ClaimOf(c)) && !Active(s.dir, ClaimOf(c)))
            && (c.pc.result.GiveBackThrew? ==> Released(s.dir, ClaimOf(c)) || BothNamesTaken(s.dir, ClaimOf(c)))
            && (c.pc.result.Held? || c.pc.result.EndedBefore? ==> !Active(s.dir, ClaimOf(c)))
  {
    hide DirInv, Base, Released, BothNamesTaken, ClaimOf;
    ReachableInv(s);
    ClaimIs(s, pid);
  }

  // --- releases -----------------------------------------------------------------------------

  /** After a successful release the claim is over, then and in every later state. */
  lemma ReleasedForGood(s: State, events: seq<Event>, pid: Pid)
    requires Reachable(s) && ValidRun(s, events)
    requires pid in s.procs && s.procs[pid].Releasing? && s.procs[pid].releaseCall.pc.Ended?
    ensures Released(Run(s, events).dir, s.procs[pid].releaseCall.claim)
  {
    hide DirInv, ValidRun, Run, Released, Grows;
    ReachableInv(s);
    ReleaseIs(s, pid);
    RunKeeps(s, events);
    FactsStay(s.dir, Run(s, events).dir, s.procs[pid].releaseCall.claim);
  }

  /** The release call a step of `proc` would run, if it runs one. */
  function Acting(proc: Proc): Option<ReleaseCall> {
    match proc
    case Releasing(r) => Some(r)
    case Claiming(c) => if c.pc.GiveBack? then Some(c.pc.release) else None
  }

  predicate Entitled(claim: Claim, by_: Owner, note: string) {
    SameOwner(claim.owner, by_) || (Complete(by_) && by_.role == INTEGRATOR && NonEmpty(note))
  }

  /** A record ends a claim if and only if it is written for it by someone entitled. */
  lemma AuthorityIsEntitlement(release: Release, claim: Claim)
    ensures Authoritative(release, claim) <==> release.claimId == claim.id && Entitled(claim, release.releasedBy, release.note)
  {
    hide NonEmpty;
  }

  /** Whatever occupies the release names, only the holder or the integrator with a reason ends a claim. */
  lemma OnlyEntitledEnd(s: State, event: Event, claim: Claim)
    requires Reachable(s) && Enabled(s, event)
    requires Known(s.dir, claim.id) && RecordOf(s.dir, claim.id) == claim
    requires !Released(s.dir, claim) && Released(Apply(s, event).dir, claim)
    ensures event.Advance? && event.pid in s.procs && Acting(s.procs[event.pid]).Some?
    ensures var r := Acting(s.procs[event.pid]).value;
            r.claimId == claim.id && (r.pc.PublishFirst? || r.pc.PublishLater?) && Entitled(claim, r.by_, r.note)
  {
    hide Inv, Released, Publish, ClaimNext, ReleaseNext, ClaimWrite, ReleaseWrite, RecordOf, Known, Authoritative, Entitled, Reachable;
    ReachableInv(s);
    match event
    case Start(_, _) =>
    case Crash(_) =>
    case Foreign(later, release) => ForeignEndsNothing(s, later, release, claim);
    case Offer(handoff) => OtherWritesEndNothing(s.dir, PutHandoff(handoff), claim);
    case Advance(pid, choice) =>
      match s.procs[pid]
      case Claiming(c) => GiveBackIsEntitled(s, pid, claim);
      case Releasing(r) =>
        ReleaseIs(s, pid);
        EndingIsEntitled(s, r, claim);
  }

  lemma OtherWritesEndNothing(d: Dir, w: Write, claim: Claim)
    requires !w.PutFirstRelease? && !w.PutLaterRelease?
    ensures Released(Publish(d, w), claim) == Released(d, claim)
  {
    hide Authoritative;
  }

  lemma ForeignEndsNothing(s: State, later: bool, release: Release, claim: Claim)
    requires Enabled(s, Foreign(later, release)) && Known(s.dir, claim.id) && RecordOf(s.dir, claim.id) == claim
    ensures Released(Apply(s, Foreign(later, release)).dir, claim) == Released(s.dir, claim)
  {
    hide SameOwner, Complete, NonEmpty;
  }

  lemma GiveBackIsEntitled(s: State, pid: Pid, claim: Claim)
    requires Inv(s) && pid in s.procs && s.procs[pid].Claiming?
    requires Known(s.dir, claim.id) && RecordOf(s.dir, claim.id) == claim
    requires var c := s.procs[pid].claimCall; !Released(s.dir, claim) && Released(Publish(s.dir, ClaimWrite(c)), claim)
    ensures var c := s.procs[pid].claimCall;
            && c.pc.GiveBack? && c.pc.release.claimId == claim.id
            && (c.pc.release.pc.PublishFirst? || c.pc.release.pc.PublishLater?)
            && Entitled(claim, c.pc.release.by_, c.pc.release.note)
  {
    hide Inv, Released, Publish, RecordOf, Known, Authoritative, Entitled, ClaimOf, ReleaseWrite, SearchInv, Base, Trying, Winning, ResultSound;
    var c := s.procs[pid].claimCall;
    ClaimIs(s, pid);
    if c.pc.GiveBack? {
      GivingBackIs(s.dir, c, c.pc.release);
      EndingIsEntitled(s, c.pc.release, claim);
    } else {
      OtherWritesEndNothing(s.dir, ClaimWrite(c), claim);
    }
  }

  lemma EndingIsEntitled(s: State, r: ReleaseCall, claim: Claim)
    requires Inv(s) && ReleaseInv(s.dir, r)
    requires Known(s.dir, claim.id) && RecordOf(s.dir, claim.id) == claim
    requires !Released(s.dir, claim) && Released(Publish(s.dir, ReleaseWrite(r)), claim)
    ensures r.claimId == claim.id && (r.pc.PublishFirst? || r.pc.PublishLater?) && Entitled(claim, r.by_, r.note)
  {
    hide Inv, Released, Publish, RecordOf, Known, Entitled, ReleaseInv, MayPublish;
    if r.pc.PublishFirst? {
      ReleaseWritesOwn(s.dir, ReleaseWrite(r), r.claimId, claim);
      MayPublishIsEntitled(s, r, r.pc.authority, claim);
    } else if r.pc.PublishLater? {
      ReleaseWritesOwn(s.dir, ReleaseWrite(r), r.claimId, claim);
      MayPublishIsEntitled(s, r, r.pc.authority, claim);
    } else {
      OtherWritesEndNothing(s.dir, ReleaseWrite(r), claim);
    }
  }

  lemma ReleaseWritesOwn(d: Dir, w: Write, id: Id, claim: Claim)
    requires (w.PutFirstRelease? || w.PutLaterRelease?) && w.release.claimId == id
    requires !Released(d, claim) && Released(Publish(d, w), claim)
    ensures claim.id == id
  {
    hide Authoritative;
  }

  lemma MayPublishIsEntitled(s: State, r: ReleaseCall, authority: Authority, claim: Claim)
    requires Inv(s) && ReleaseInv(s.dir, r)
    requires r.pc == PublishFirst(authority) || r.pc == PublishLater(authority)
    requires r.claimId == claim.id && Known(s.dir, claim.id) && RecordOf(s.dir, claim.id) == claim
    ensures Entitled(claim, r.by_, r.note)
  {
    hide Dense, OrderSound, WinnersSound, UsesSound, SameOwner, Complete, NonEmpty, ProcInv, RecordedKeys, Released;
    assert r.claim == claim;
  }
}
