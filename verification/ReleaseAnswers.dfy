/** What `releaseClaim` answers, and what it leaves in the directory, from the directory it finds. */
module ReleaseAnswers {
  import opened Text
  import opened PathSets
  import opened Records
  import opened Directory
  import opened ClaimProtocol
  import opened ClaimPromises
  import opened ClaimRecovery
  import opened Rendezvous

  // --- one outcome --------------------------------------------------------------------------------

  predicate Over(r: ReleaseCall) {
    r.pc.Ended? || r.pc.Threw?
  }

  lemma {:induction false} OverForGood(d: Dir, r: ReleaseCall, m: nat, n: nat)
    requires m <= n && Over(ReleaseRun(d, r, m).1)
    ensures ReleaseRun(d, r, n) == ReleaseRun(d, r, m)
    decreases n - m
  {
    hide ReleaseRun, ReleaseNext, ReleaseWrite, Publish;
    if m < n {
      OverForGood(d, r, m, n - 1);
      RunOnce(d, r, n - 1);
      EndedStays(ReleaseRun(d, r, m).0, ReleaseRun(d, r, m).1);
    }
  }

  /** A call run alone stops in one way only. */
  lemma StopsOnce(d: Dir, start: ReleaseCall, e: Dir, r: Result<Release, Refused>, f: Dir, q: Result<Release, Refused>)
    requires Stopped(d, start, e, r) && Stopped(d, start, f, q)
    ensures e == f && r == q
  {
    hide ReleaseRun;
    var a :| Releases(d, start, e, a) && a.pc == (match r case Ok(release) => Ended(release) case Err(why) => Threw(why));
    var b :| Releases(d, start, f, b) && b.pc == (match q case Ok(release) => Ended(release) case Err(why) => Threw(why));
    var m: nat :| ReleaseRun(d, start, m) == (e, a);
    var n: nat :| ReleaseRun(d, start, n) == (f, b);
    if m <= n { OverForGood(d, start, m, n); } else { OverForGood(d, start, n, m); }
  }

  // --- the stages -----------------------------------------------------------------------------------

  /** Where a release goes, the names being read in order, and what is answered. */
  function Recorded(d: Dir, claim: Claim, release: Release): (Dir, Result<Release, Refused>) {
    if claim.id !in d.firstReleases then (Put(d, PutFirstRelease(release)), Ok(release))
    else if EndedFirst(d, claim) then (d, Err(AlreadyReleased))
    else if claim.id !in d.laterReleases then (Put(d, PutLaterRelease(release)), Ok(release))
    else (d, Err(if EndedLater(d, claim) then AlreadyReleased else BothTaken))
  }

  lemma RecordStage(was: Dir, start: ReleaseCall, d: Dir, r: ReleaseCall)
    requires Releases(was, start, d, r) && r.pc.PublishFirst? && r.claim.id == r.claimId
    ensures var (e, answer) := Recorded(d, r.claim, ReleaseRecord(r, r.pc.authority)); Stopped(was, start, e, answer)
  {
    hide Releases, Authoritative;
    ReleasesStep(was, start, d, r);
    var next := ReleaseNext(d, r);
    if r.claimId in d.firstReleases {
      ReleasesStep(was, start, d, next);
      var later := ReleaseNext(d, next);
      if !EndedFirst(d, r.claim) {
        ReleasesStep(was, start, d, later);
        var last := ReleaseNext(d, later);
        if r.claimId in d.laterReleases {
          ReleasesStep(was, start, d, last);
          StopsHere(was, start, d, ReleaseNext(d, last));
        } else {
          StopsHere(was, start, Publish(d, ReleaseWrite(later)), last);
        }
      } else {
        StopsHere(was, start, d, later);
      }
    } else {
      StopsHere(was, start, Publish(d, ReleaseWrite(r)), next);
    }
  }

  /** The attempt is over as far as deciding goes: someone decided, and not in its favour. */
  predicate HoldsNone(d: Dir, id: Id) {
    id in d.attempts && id in d.decisions && d.decisions[id] != Won
  }

  /** The directory once an undecided attempt is recorded as abandoned. */
  function Settled(d: Dir, id: Id): Dir {
    if id in d.attempts then Publish(d, PutDecision(id, Abandoned)) else d
  }

  lemma DecideStage(was: Dir, start: ReleaseCall, d: Dir, r: ReleaseCall)
    requires Releases(was, start, d, r) && r.pc.DecideAbandoned? && r.claim.id == r.claimId && r.claimId in d.attempts
    ensures if HoldsNone(d, r.claimId) then Stopped(was, start, d, Err(HoldsNothing(d.decisions[r.claimId])))
            else var (e, answer) := Recorded(Settled(d, r.claimId), r.claim, ReleaseRecord(r, r.pc.authority)); Stopped(was, start, e, answer)
  {
    hide Releases, Authoritative, Recorded;
    ReleasesStep(was, start, d, r);
    var next := ReleaseNext(d, r);
    if r.claimId in d.decisions {
      ReleasesStep(was, start, d, next);
      var after := ReleaseNext(d, next);
      if HoldsNone(d, r.claimId) {
        StopsHere(was, start, d, after);
      } else {
        RecordStage(was, start, d, after);
      }
    } else {
      RecordStage(was, start, Settled(d, r.claimId), next);
    }
  }

  function AuthorityOf(claim: Claim, by_: Owner): Authority {
    if SameOwner(claim.owner, by_) then Holder else Integrator
  }

  /** What becomes of a claim on record. */
  function Ending(d: Dir, claim: Claim, by_: Owner, note: string): (Dir, Result<Release, Refused>) {
    if Released(d, claim) then (d, Err(AlreadyReleased))
    else if !SameOwner(claim.owner, by_) && by_.role != INTEGRATOR then (d, Err(NotHolder))
    else if !SameOwner(claim.owner, by_) && !NonEmpty(note) then (d, Err(NeedsReason))
    else if HoldsNone(d, claim.id) then (d, Err(HoldsNothing(d.decisions[claim.id])))
    else Recorded(Settled(d, claim.id), claim, Release(claim.id, by_, AuthorityOf(claim, by_), note))
  }

  lemma CheckStage(was: Dir, start: ReleaseCall, d: Dir, r: ReleaseCall)
    requires Releases(was, start, d, r) && r.pc.CheckFirst? && r.claim.id == r.claimId && (r.ordered <==> r.claimId in d.attempts)
    ensures var (e, answer) := Ending(d, r.claim, r.by_, r.note); Stopped(was, start, e, answer)
  {
    hide Releases, EndedFirst, EndedLater, SameOwner, NonEmpty, Recorded;
    ReleasesStep(was, start, d, r);
    var later := ReleaseNext(d, r);
    if EndedFirst(d, r.claim) {
      StopsHere(was, start, d, later);
    } else {
      ReleasesStep(was, start, d, later);
      var next := ReleaseNext(d, later);
      if next.pc.Threw? {
        StopsHere(was, start, d, next);
      } else if r.ordered {
        DecideStage(was, start, d, next);
      } else {
        RecordStage(was, start, d, next);
      }
    }
  }

  /** The whole call, from the directory it finds. */
  function Answer(d: Dir, claimId: Id, by_: Owner, note: string): (Dir, Result<Release, Refused>) {
    if !Complete(by_) then (d, Err(IncompleteOwner))
    else if !Known(d, claimId) then (d, Err(NoClaim))
    else Ending(d, RecordOf(d, claimId), by_, note)
  }

  lemma WholeCall(d: Dir, claimId: Id, by_: Owner, note: string, unread: Claim)
    requires Known(d, claimId) ==> RecordOf(d, claimId).id == claimId
    ensures var (e, answer) := Answer(d, claimId, by_, note);
            Stopped(d, ReleaseCall(claimId, by_, note, unread, false, Enter), e, answer)
  {
    hide Releases, Complete, Ending;
    var start := ReleaseCall(claimId, by_, note, unread, false, Enter);
    ReleasesNow(d, start);
    ReleasesStep(d, start, d, start);
    var attempt := ReleaseNext(d, start);
    if !Complete(by_) {
      StopsHere(d, start, d, attempt);
    } else {
      ReleasesStep(d, start, d, attempt);
      var read := ReleaseNext(d, attempt);
      if claimId in d.attempts {
        CheckStage(d, start, d, read);
      } else {
        ReleasesStep(d, start, d, read);
        var file := ReleaseNext(d, read);
        if claimId in d.claimFiles { CheckStage(d, start, d, file); } else { StopsHere(d, start, d, file); }
      }
    }
  }

  // --- the answers ------------------------------------------------------------------------------------

  lemma NamesUnread(d: Dir, claim: Claim)
    ensures var e := Settled(d, claim.id);
            && e.firstReleases == d.firstReleases && e.laterReleases == d.laterReleases
            && Released(e, claim) == Released(d, claim) && BothNamesTaken(e, claim) == BothNamesTaken(d, claim)
  {
    hide Authoritative;
  }

  lemma RecordAnswers(d: Dir, claim: Claim, release: Release)
    requires release.claimId == claim.id && Authoritative(release, claim) && !Released(d, claim)
    ensures var (e, r) := Recorded(d, claim, release);
            && (r == Err(BothTaken) <==> BothNamesTaken(d, claim)) && (r.Err? ==> r == Err(BothTaken) && e == d)
            && (r.Ok? ==> r.value == release && Released(e, claim)
                          && e == Put(d, if claim.id in d.firstReleases then PutLaterRelease(release) else PutFirstRelease(release)))
  {
    hide Authoritative;
  }

  lemma OwnAuthority(claim: Claim, by_: Owner, note: string)
    requires Complete(by_) && Entitled(claim, by_, note)
    ensures Authoritative(Release(claim.id, by_, AuthorityOf(claim, by_), note), claim)
  {
    hide NonEmpty;
    SameOwnerSymmetric(claim.owner, by_);
  }

  lemma SameOwnerSymmetric(a: Owner, b: Owner)
    ensures SameOwner(a, b) == SameOwner(b, a)
  {
  }

  /** Run alone, a release call is answered by exactly one of these, each when and only when its reason holds. */
  lemma ReleaseAnswers(d: Dir, claimId: Id, by_: Owner, note: string, unread: Claim, e: Dir, r: Result<Release, Refused>)
    requires Known(d, claimId) ==> RecordOf(d, claimId).id == claimId
    requires Stopped(d, ReleaseCall(claimId, by_, note, unread, false, Enter), e, r)
    ensures r == Err(IncompleteOwner) <==> !Complete(by_)
    ensures r == Err(NoClaim) <==> Complete(by_) && !Known(d, claimId)
    ensures Complete(by_) && Known(d, claimId) ==>
              var claim := RecordOf(d, claimId);
              && (r == Err(AlreadyReleased) <==> Released(d, claim))
              && (r == Err(NotHolder) <==> !Released(d, claim) && !SameOwner(claim.owner, by_) && by_.role != INTEGRATOR)
              && (r == Err(NeedsReason) <==> !Released(d, claim) && !SameOwner(claim.owner, by_) && by_.role == INTEGRATOR && !NonEmpty(note))
              && (forall x :: r == Err(HoldsNothing(x)) <==>
                    !Released(d, claim) && Entitled(claim, by_, note) && HoldsNone(d, claimId) && d.decisions[claimId] == x)
              && (r == Err(BothTaken) <==> Entitled(claim, by_, note) && !HoldsNone(d, claimId) && BothNamesTaken(d, claim))
              && (r.Ok? <==> Entitled(claim, by_, note) && !HoldsNone(d, claimId) && !Released(d, claim) && !BothNamesTaken(d, claim))
  {
    hide Complete, SameOwner, NonEmpty, Stopped, EndedFirst, EndedLater, Recorded, Settled;
    var (f, answer) := Answer(d, claimId, by_, note);
    WholeCall(d, claimId, by_, note, unread);
    StopsOnce(d, ReleaseCall(claimId, by_, note, unread, false, Enter), e, r, f, answer);
    if Complete(by_) && Known(d, claimId) { RecordAnswered(d, RecordOf(d, claimId), by_, note); }
  }

  lemma RecordAnswered(d: Dir, claim: Claim, by_: Owner, note: string)
    requires Complete(by_)
    ensures !Released(d, claim) && Entitled(claim, by_, note) && !HoldsNone(d, claim.id) ==>
              var (e, r) := Ending(d, claim, by_, note);
              && (r == Err(BothTaken) <==> BothNamesTaken(d, claim)) && (r.Err? ==> r == Err(BothTaken) && e == Settled(d, claim.id))
              && (r.Ok? ==> r.value == Release(claim.id, by_, AuthorityOf(claim, by_), note) && Released(e, claim)
                            && e == Put(Settled(d, claim.id), if claim.id in d.firstReleases then PutLaterRelease(r.value) else PutFirstRelease(r.value)))
  {
    hide Complete, SameOwner, NonEmpty, Authoritative, EndedFirst, EndedLater, Recorded, Settled;
    if !Released(d, claim) && Entitled(claim, by_, note) && !HoldsNone(d, claim.id) {
      NamesUnread(d, claim);
      OwnAuthority(claim, by_, note);
      RecordAnswers(Settled(d, claim.id), claim, Release(claim.id, by_, AuthorityOf(claim, by_), note));
    }
  }

  /**
   * And what it leaves: one release record under the first free name after an undecided attempt is recorded
   * as abandoned; that decision alone when both names are taken; and nothing at all when it is refused.
   */
  lemma ReleaseLeaves(d: Dir, claimId: Id, by_: Owner, note: string, unread: Claim, e: Dir, r: Result<Release, Refused>)
    requires Known(d, claimId) ==> RecordOf(d, claimId).id == claimId
    requires Stopped(d, ReleaseCall(claimId, by_, note, unread, false, Enter), e, r)
    ensures r.Ok? ==>
              && Known(d, claimId) && Released(e, RecordOf(d, claimId))
              && r.value == Release(claimId, by_, AuthorityOf(RecordOf(d, claimId), by_), note)
              && e == Put(Settled(d, claimId), if claimId in d.firstReleases then PutLaterRelease(r.value) else PutFirstRelease(r.value))
    ensures r == Err(BothTaken) ==> e == Settled(d, claimId)
    ensures r.Err? && r != Err(BothTaken) ==> e == d
  {
    hide Complete, SameOwner, NonEmpty, Stopped, EndedFirst, EndedLater, Recorded, Settled;
    var (f, answer) := Answer(d, claimId, by_, note);
    WholeCall(d, claimId, by_, note, unread);
    StopsOnce(d, ReleaseCall(claimId, by_, note, unread, false, Enter), e, r, f, answer);
    if Complete(by_) && Known(d, claimId) { RecordAnswered(d, RecordOf(d, claimId), by_, note); }
  }
}
