/** Releases come after decisions: no undecided attempt is released. */
module ClaimReleases {
  import opened Text
  import opened PathSets
  import opened Records
  import opened Directory
  import opened ClaimProtocol
  import opened ClaimInvariant
  import opened ClaimSteps
  import opened ClaimSafety

  ghost predicate ReleasesKnown(d: Dir) {
    forall id :: id in d.firstReleases || id in d.laterReleases ==> Known(d, id)
  }

  ghost predicate ReleasedDecided(d: Dir) {
    forall id :: id in d.attempts && Released(d, d.attempts[id]) ==> id in d.decisions
  }

  ghost predicate FiledDecided(d: Dir) {
    forall id :: id in d.claimFiles && id in d.attempts ==> id in d.decisions
  }

  ghost predicate Decides(d: Dir) {
    ReleasesKnown(d) && ReleasedDecided(d) && FiledDecided(d)
  }

  /** A release of `claim` may go under either name: it is recorded, and decided if it is an attempt. */
  predicate MayRelease(d: Dir, id: Id) {
    Known(d, id) && (id in d.attempts ==> id in d.decisions)
  }

  lemma ReleasePut(d: Dir, w: Write)
    requires Decides(d) && forall id :: id in d.attempts ==> d.attempts[id].id == id
    requires (w.PutFirstRelease? || w.PutLaterRelease?)
    requires MayRelease(d, w.release.claimId)
             || (Known(d, w.release.claimId) && !Authoritative(w.release, RecordOf(d, w.release.claimId)))
    ensures Decides(Publish(d, w))
  {
    hide SameOwner, Complete, NonEmpty;
    var e := Publish(d, w);
    forall id | id in e.attempts && Released(e, e.attempts[id]) ensures id in e.decisions {
      if !Released(d, d.attempts[id]) { assert id == w.release.claimId; }
    }
  }

  lemma AttemptPut(d: Dir, claim: Claim)
    requires Decides(d) && !Known(d, claim.id)
    ensures Decides(Publish(d, PutAttempt(claim)))
  {
    hide Authoritative;
  }

  lemma QuietPut(d: Dir, w: Write)
    requires Decides(d)
    requires w.Nothing? || w.PutOrder? || w.PutDecision? || w.PutUse? || w.PutHandoff? || (w.PutClaimFile? && w.claim.id in d.decisions)
    ensures Decides(Publish(d, w))
  {
    hide Authoritative;
  }

  lemma ReleaseMay(d: Dir, r: ReleaseCall)
    requires ReleaseInv(d, r) && FiledDecided(d) && (r.pc.PublishFirst? || r.pc.PublishLater?)
    ensures MayRelease(d, r.claimId)
  {
    hide Authorized, Complete, EndedFirst;
  }

  lemma ReleaseStepDecides(d: Dir, r: ReleaseCall)
    requires ReleaseInv(d, r) && Decides(d) && forall id :: id in d.attempts ==> d.attempts[id].id == id
    ensures Decides(Publish(d, ReleaseWrite(r)))
  {
    hide ReleaseInv, Publish, Authoritative, ReleasesKnown, ReleasedDecided, MayRelease;
    if r.pc.PublishFirst? || r.pc.PublishLater? {
      ReleaseMay(d, r);
      ReleasePut(d, ReleaseWrite(r));
    } else {
      QuietPut(d, ReleaseWrite(r));
    }
  }

  lemma ClaimStepDecides(d: Dir, earlier: map<Id, Claim>, c: ClaimCall)
    requires DirInv(d, earlier) && ClaimInv(d, earlier, c) && Decides(d)
    ensures Decides(Publish(d, ClaimWrite(c)))
  {
    hide DirInv, ClaimInv, Publish, Decides, ReleaseWrite, ClaimOf;
    IdsAreSound(d, earlier);
    if c.pc.GiveBack? {
      GivingBackReleases(d, earlier, c);
      ReleaseStepDecides(d, c.pc.release);
    } else if c.pc.PublishAttempt? {
      if c.id in d.attempts {
        AlreadyThere(d, c);
      } else {
        FreshIsUnknown(d, earlier, c);
        AttemptPut(d, ClaimOf(c));
      }
    } else {
      FilerDecided(d, earlier, c);
      QuietPut(d, ClaimWrite(c));
    }
  }

  lemma AlreadyThere(d: Dir, c: ClaimCall)
    requires c.pc.PublishAttempt? && c.id in d.attempts
    ensures Publish(d, ClaimWrite(c)) == d
  {
    hide ClaimOf;
  }

  lemma GivingBackReleases(d: Dir, earlier: map<Id, Claim>, c: ClaimCall)
    requires ClaimInv(d, earlier, c) && c.pc.GiveBack?
    ensures ReleaseInv(d, c.pc.release)
  {
    hide Winning, ReleaseInv, ClaimOf;
  }

  lemma FreshIsUnknown(d: Dir, earlier: map<Id, Claim>, c: ClaimCall)
    requires DirInv(d, earlier) && ClaimInv(d, earlier, c) && c.pc.PublishAttempt? && c.id !in d.attempts
    ensures !Known(d, c.id)
  {
    hide Dense, OrderSound, WinnersSound, UsesSound, Base, RecordedKeys;
  }

  lemma FilerDecided(d: Dir, earlier: map<Id, Claim>, c: ClaimCall)
    requires ClaimInv(d, earlier, c)
    ensures c.pc.PublishClaimFile? ==> c.id in d.decisions
  {
    hide Base, ClaimOf;
  }

  lemma EventDecides(s: State, event: Event)
    requires Inv(s) && Enabled(s, event) && Decides(s.dir)
    ensures Decides(Apply(s, event).dir)
  {
    hide Inv, Decides, Publish, ClaimNext, ReleaseNext, ClaimWrite, ReleaseWrite, Authoritative, RecordOf, Known;
    DirIs(s);
    match event
    case Start(_, _) =>
    case Crash(_) =>
    case Advance(pid, choice) => AdvanceDecides(s, pid, choice);
    case Foreign(later, release) => ReleasePut(s.dir, if later then PutLaterRelease(release) else PutFirstRelease(release));
    case Offer(handoff) => QuietPut(s.dir, PutHandoff(handoff));
  }

  lemma AdvanceDecides(s: State, pid: Pid, choice: Choice)
    requires Inv(s) && pid in s.procs && Decides(s.dir)
    ensures Decides(Apply(s, Advance(pid, choice)).dir)
  {
    hide Inv, Decides, Publish, ClaimNext, ReleaseNext, ClaimWrite, ReleaseWrite;
    DirIs(s);
    match s.procs[pid]
    case Claiming(c) =>
      ClaimIs(s, pid);
      ClaimStepDecides(s.dir, s.earlier, c);
    case Releasing(r) =>
      ReleaseIs(s, pid);
      ReleaseStepDecides(s.dir, r);
  }

  lemma DirIs(s: State)
    requires Inv(s)
    ensures DirInv(s.dir, s.earlier) && forall id :: id in s.dir.attempts ==> s.dir.attempts[id].id == id
  {
    hide Dense, OrderSound, WinnersSound, UsesSound, ProcInv, RecordedKeys;
  }

  lemma {:induction false} RunDecides(s: State, events: seq<Event>)
    requires Inv(s) && ValidRun(s, events) && Decides(s.dir)
    ensures Decides(Run(s, events).dir)
    decreases |events|
  {
    hide Inv, Enabled, Apply, Decides;
    if events != [] {
      ApplyKeeps(s, events[0]);
      EventDecides(s, events[0]);
      RunDecides(Apply(s, events[0]), events[1..]);
    }
  }

  /** In every reachable state a released attempt has decided, so one that has not decided still stands. */
  lemma ReleasedHasDecided(s: State, id: Id)
    requires Reachable(s) && id in s.dir.attempts && Released(s.dir, s.dir.attempts[id])
    ensures id in s.dir.decisions
  {
    hide Inv, ValidRun, Run, Released;
    var earlier: map<Id, Claim>, events: seq<Event> :|
      EarlierClaims(earlier) && ValidRun(Initial(earlier), events) && s == Run(Initial(earlier), events);
    InitialInv(earlier);
    RunDecides(Initial(earlier), events);
  }
}
