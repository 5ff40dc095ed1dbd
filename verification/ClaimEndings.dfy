/** A release ends only a claim that won, or an attempt that the very call which releases it abandoned. */
module ClaimEndings {
  import opened Text
  import opened PathSets
  import opened Records
  import opened Directory
  import opened ClaimProtocol
  import opened ClaimInvariant
  import opened ClaimSteps
  import opened ClaimSafety
  import opened ClaimPromises
  import opened ClaimReleases
  import opened ClaimRefusals

  // --- lost attempts bear no release ------------------------------------------------------------

  ghost predicate LostUnreleased(d: Dir) {
    forall id :: id in d.attempts && id in d.decisions && d.decisions[id] == Lost ==> !Released(d, d.attempts[id])
  }

  ghost predicate FiledWon(d: Dir) {
    forall id :: id in d.claimFiles && id in d.attempts ==> HasWon(d, id)
  }

  /** A release of this id would not be one of a refused or undecided attempt. */
  predicate MayBear(d: Dir, id: Id) {
    id in d.attempts ==> id in d.decisions && d.decisions[id] != Lost
  }

  predicate Publishing(r: ReleaseCall) {
    r.pc.PublishFirst? || r.pc.ReadFirstTaken? || r.pc.PublishLater?
  }

  ghost predicate CallBears(d: Dir, r: ReleaseCall) {
    Publishing(r) ==> MayBear(d, r.claimId)
  }

  ghost predicate EndInv(s: State) {
    && LostUnreleased(s.dir) && FiledWon(s.dir) && Decides(s.dir)
    && (forall p :: p in s.procs && Acting(s.procs[p]).Some? ==> CallBears(s.dir, Acting(s.procs[p]).value))
  }

  lemma BearsOn(d: Dir, e: Dir, id: Id)
    requires Grows(d, e) && MayBear(d, id) && (id in e.attempts ==> id in d.attempts)
    ensures MayBear(e, id)
  {
  }

  /** The call's own step: past its decision it may publish. */
  lemma StepBears(d: Dir, earlier: map<Id, Claim>, r: ReleaseCall)
    requires ReleaseInv(d, r) && RecordsSound(d, earlier) && FiledWon(d) && CallBears(d, r)
    ensures CallBears(Publish(d, ReleaseWrite(r)), ReleaseNext(d, r))
  {
    hide ReleaseInv, MayBear, RecordsSound, FiledWon, Publish, ReleaseWrite;
    WriteBears(d, r);
    if Publishing(ReleaseNext(d, r)) && !Publishing(r) { FirstBears(d, earlier, r); }
    SameId(d, r);
  }

  lemma SameId(d: Dir, r: ReleaseCall)
    ensures ReleaseNext(d, r).claimId == r.claimId
    ensures Publishing(ReleaseNext(d, r)) && !Publishing(r) ==> r.pc.DecideAbandoned? || r.pc.ReadDecided? || (r.pc.CheckLater? && !r.ordered)
  {
    hide Authorized, Complete, EndedFirst, EndedLater;
  }

  lemma WriteBears(d: Dir, r: ReleaseCall)
    ensures MayBear(d, r.claimId) ==> MayBear(Publish(d, ReleaseWrite(r)), r.claimId)
  {
    hide ReleaseWrite, Publish, Grows;
    QuietRelease(d, r);
    if MayBear(d, r.claimId) { BearsOn(d, Publish(d, ReleaseWrite(r)), r.claimId); }
  }

  lemma FirstBears(d: Dir, earlier: map<Id, Claim>, r: ReleaseCall)
    requires ReleaseInv(d, r) && RecordsSound(d, earlier) && FiledWon(d)
    requires Publishing(ReleaseNext(d, r)) && !Publishing(r)
    ensures MayBear(Publish(d, ReleaseWrite(r)), r.claimId)
  {
    hide RecordsSound, Authorized, Complete, EndedFirst, EndedLater;
    SameId(d, r);
  }

  lemma ReleasePutKeeps(d: Dir, w: Write)
    requires IdsSound(d) && LostUnreleased(d) && (w.PutFirstRelease? || w.PutLaterRelease?)
    requires MayBear(d, w.release.claimId)
             || (Known(d, w.release.claimId) && !Authoritative(w.release, RecordOf(d, w.release.claimId)))
    ensures LostUnreleased(Publish(d, w))
  {
    hide SameOwner, Complete, NonEmpty;
  }

  lemma OtherPutKeeps(d: Dir, w: Write)
    requires Decides(d) && LostUnreleased(d) && !w.PutFirstRelease? && !w.PutLaterRelease?
    requires w.PutAttempt? ==> !Known(d, w.claim.id)
    ensures LostUnreleased(Publish(d, w))
  {
    hide Authoritative, FiledDecided;
  }

  lemma FilesKept(d: Dir, w: Write)
    requires FiledWon(d) && (w.PutAttempt? ==> Known(d, w.claim.id) ==> w.claim.id in d.attempts) && (w.PutClaimFile? ==> HasWon(d, w.claim.id))
    ensures FiledWon(Publish(d, w))
  {
  }

  // --- one event --------------------------------------------------------------------------------------

  /** A release under way may go on whatever another call publishes. */
  lemma OtherBears(d: Dir, earlier: map<Id, Claim>, e: Dir, r: ReleaseCall)
    requires Grows(d, e) && ReleaseInv(d, r) && CallBears(d, r)
    requires forall id :: id in e.attempts && id !in d.attempts ==> !Known(d, id)
    ensures CallBears(e, r)
  {
    hide Grows, Authorized, Complete, EndedFirst;
    if Publishing(r) { BearsOn(d, e, r.claimId); }
  }

  /** What an event may add to the attempts was on no record before. */
  lemma NewAttemptIsUnknown(s: State, event: Event)
    requires Inv(s) && Enabled(s, event)
    ensures forall id :: id in Apply(s, event).dir.attempts && id !in s.dir.attempts ==> !Known(s.dir, id)
  {
    hide Inv, ClaimNext, ReleaseNext, ReleaseWrite, Publish, Authoritative, RecordOf, Known, ClaimWrite;
    match event
    case Start(_, _) =>
    case Crash(_) =>
    case Foreign(later, release) => AttemptsAre(s.dir, if later then PutLaterRelease(release) else PutFirstRelease(release));
    case Offer(handoff) => AttemptsAre(s.dir, PutHandoff(handoff));
    case Advance(pid, choice) =>
      match s.procs[pid]
      case Claiming(c) =>
        AttemptsAre(s.dir, ClaimWrite(c));
        ClaimIs(s, pid);
        DirIs(s);
        OwnIsUnknown(s.dir, s.earlier, c);
      case Releasing(r) =>
        AttemptsAre(s.dir, ReleaseWrite(r));
        QuietRelease(s.dir, r);
  }

  lemma AttemptsAre(d: Dir, w: Write)
    ensures forall id :: id in Publish(d, w).attempts && id !in d.attempts ==> w.PutAttempt? && w.claim.id == id
  {
  }

  lemma OwnIsUnknown(d: Dir, earlier: map<Id, Claim>, c: ClaimCall)
    requires DirInv(d, earlier) && ClaimInv(d, earlier, c)
    ensures ClaimWrite(c).PutAttempt? && ClaimWrite(c).claim.id !in d.attempts ==> !Known(d, ClaimWrite(c).claim.id)
  {
    hide DirInv, ClaimInv, ClaimOf, ReleaseRecord, Known;
    if ClaimWrite(c).PutAttempt? && c.id !in d.attempts { FreshIsUnknown(d, earlier, c); }
  }

  /** A winner giving its paths back releases a claim that won. */
  lemma GivingBackBears(d: Dir, earlier: map<Id, Claim>, c: ClaimCall)
    requires ClaimInv(d, earlier, c) && c.pc.GiveBack?
    ensures MayBear(d, c.pc.release.claimId) && ReleaseInv(d, c.pc.release)
  {
    hide ClaimOf, Base, ReleaseInv;
  }

  lemma CallsBear(s: State, event: Event)
    requires Inv(s) && Enabled(s, event) && EndInv(s)
    ensures var t := Apply(s, event); forall p :: p in t.procs && Acting(t.procs[p]).Some? ==> CallBears(t.dir, Acting(t.procs[p]).value)
  {
    hide Inv, Enabled, CallBears, LostUnreleased, FiledWon, Decides, Apply;
    var t := Apply(s, event);
    ApplyKeeps(s, event);
    forall p | p in t.procs && Acting(t.procs[p]).Some? ensures CallBears(t.dir, Acting(t.procs[p]).value) {
      if t.procs[p].Claiming? {
        ClaimIs(t, p);
        GivingBackBears(t.dir, t.earlier, t.procs[p].claimCall);
        ByWinner(t.dir, t.procs[p].claimCall.pc.release);
      } else {
        ReleaseBears(s, event, p);
      }
    }
  }

  lemma ByWinner(d: Dir, r: ReleaseCall)
    requires MayBear(d, r.claimId)
    ensures CallBears(d, r)
  {
  }

  lemma ReleaseBears(s: State, event: Event, p: Pid)
    requires Inv(s) && Enabled(s, event) && EndInv(s)
    requires p in Apply(s, event).procs && Apply(s, event).procs[p].Releasing?
    ensures CallBears(Apply(s, event).dir, Apply(s, event).procs[p].releaseCall)
  {
    hide Inv, CallBears, LostUnreleased, Decides, Publish, ReleaseNext, ReleaseWrite, ClaimNext, ClaimWrite, Grows, Known, RecordOf, Authoritative, ReleaseInv;
    EventGrows(s, event);
    NewAttemptIsUnknown(s, event);
    if p in s.procs && s.procs[p].Releasing? {
      assert Acting(s.procs[p]) == Some(s.procs[p].releaseCall);
      ReleaseIs(s, p);
      RecordsHold(s);
      if event.Advance? && event.pid == p {
        StepBears(s.dir, s.earlier, s.procs[p].releaseCall);
      } else {
        OtherBears(s.dir, s.earlier, Apply(s, event).dir, s.procs[p].releaseCall);
      }
    } else {
      StartsClean(s, event, p);
    }
  }

  lemma RecordsHold(s: State)
    requires Inv(s)
    ensures RecordsSound(s.dir, s.earlier) && IdsSound(s.dir)
  {
    hide Dense, OrderSound, WinnersSound, UsesSound, ProcInv, RecordedKeys;
  }

  lemma StartsClean(s: State, event: Event, p: Pid)
    requires Enabled(s, event) && p in Apply(s, event).procs && Apply(s, event).procs[p].Releasing?
    requires !(p in s.procs && s.procs[p].Releasing?)
    ensures CallBears(Apply(s, event).dir, Apply(s, event).procs[p].releaseCall)
  {
    hide Publish, ReleaseNext, ReleaseWrite, ClaimNext, ClaimWrite, Authoritative, RecordOf;
  }

  lemma ReleaseDirEnds(d: Dir, r: ReleaseCall)
    requires IdsSound(d) && LostUnreleased(d) && FiledWon(d) && Decides(d) && CallBears(d, r)
    ensures LostUnreleased(Publish(d, ReleaseWrite(r))) && FiledWon(Publish(d, ReleaseWrite(r)))
  {
    hide IdsSound, LostUnreleased, FiledWon, Decides, Publish, Authoritative, Known, RecordOf, MayBear;
    FilesKept(d, ReleaseWrite(r));
    if r.pc.PublishFirst? || r.pc.PublishLater? { ReleasePutKeeps(d, ReleaseWrite(r)); } else { OtherPutKeeps(d, ReleaseWrite(r)); }
  }

  lemma ClaimDirEnds(d: Dir, earlier: map<Id, Claim>, c: ClaimCall)
    requires DirInv(d, earlier) && IdsSound(d) && ClaimInv(d, earlier, c) && LostUnreleased(d) && FiledWon(d) && Decides(d)
    requires c.pc.GiveBack? ==> CallBears(d, c.pc.release)
    ensures LostUnreleased(Publish(d, ClaimWrite(c))) && FiledWon(Publish(d, ClaimWrite(c)))
  {
    hide DirInv, IdsSound, ClaimInv, LostUnreleased, FiledWon, Decides, Publish, ReleaseWrite, ClaimOf, Known, CallBears;
    if c.pc.GiveBack? {
      ReleaseDirEnds(d, c.pc.release);
    } else if c.pc.PublishAttempt? && c.id in d.attempts {
      AlreadyThere(d, c);
    } else {
      OwnIsUnknown(d, earlier, c);
      FilerWon(d, earlier, c);
      FilesKept(d, ClaimWrite(c));
      OtherPutKeeps(d, ClaimWrite(c));
    }
  }

  lemma FilerWon(d: Dir, earlier: map<Id, Claim>, c: ClaimCall)
    requires ClaimInv(d, earlier, c)
    ensures c.pc.PublishClaimFile? ==> HasWon(d, c.id)
  {
    hide Base, ClaimOf;
  }

  lemma EventEnds(s: State, event: Event)
    requires Inv(s) && Enabled(s, event) && EndInv(s)
    ensures EndInv(Apply(s, event))
  {
    hide Inv, LostUnreleased, FiledWon, Decides, CallBears, Apply;
    CallsBear(s, event);
    EventDecides(s, event);
    DirEnds(s, event);
  }

  lemma DirEnds(s: State, event: Event)
    requires Inv(s) && Enabled(s, event) && EndInv(s)
    ensures LostUnreleased(Apply(s, event).dir) && FiledWon(Apply(s, event).dir)
  {
    hide Inv, LostUnreleased, FiledWon, Decides, CallBears, Publish, ReleaseNext, ReleaseWrite, ClaimNext, ClaimWrite, Known, RecordOf, Authoritative, IdsSound;
    RecordsHold(s);
    match event
    case Start(_, _) =>
    case Crash(_) =>
    case Foreign(later, release) =>
      var w := if later then PutLaterRelease(release) else PutFirstRelease(release);
      ReleasePutKeeps(s.dir, w);
      FilesKept(s.dir, w);
    case Offer(handoff) =>
      OtherPutKeeps(s.dir, PutHandoff(handoff));
      FilesKept(s.dir, PutHandoff(handoff));
    case Advance(pid, choice) =>
      match s.procs[pid]
      case Claiming(c) =>
        ClaimIs(s, pid);
        DirIs(s);
        if c.pc.GiveBack? { assert Acting(s.procs[pid]) == Some(c.pc.release); }
        ClaimDirEnds(s.dir, s.earlier, c);
      case Releasing(r) =>
        assert Acting(s.procs[pid]) == Some(r);
        ReleaseDirEnds(s.dir, r);
  }

  lemma {:induction false} RunEnds(s: State, events: seq<Event>)
    requires Inv(s) && ValidRun(s, events) && EndInv(s)
    ensures EndInv(Run(s, events))
    decreases |events|
  {
    hide Inv, Enabled, Apply, EndInv;
    if events != [] {
      ApplyKeeps(s, events[0]);
      EventEnds(s, events[0]);
      RunEnds(Apply(s, events[0]), events[1..]);
    }
  }

  lemma ReachableEnds(s: State)
    requires Reachable(s)
    ensures EndInv(s)
  {
    hide Inv, ValidRun, Run, LostUnreleased, FiledWon, Decides;
    var earlier: map<Id, Claim>, events: seq<Event> :|
      EarlierClaims(earlier) && ValidRun(Initial(earlier), events) && s == Run(Initial(earlier), events);
    InitialInv(earlier);
    InitialEnds(earlier);
    RunEnds(Initial(earlier), events);
  }

  lemma InitialEnds(earlier: map<Id, Claim>)
    ensures EndInv(Initial(earlier))
  {
  }

  /** In every reachable state no refused attempt bears a release, whichever calls tried to release it. */
  lemma LostBearsNoRelease(s: State, id: Id)
    requires Reachable(s) && id in s.dir.attempts && id in s.dir.decisions && s.dir.decisions[id] == Lost
    ensures !Released(s.dir, s.dir.attempts[id])
  {
    hide Reachable, Released, FiledWon, Decides, CallBears;
    ReachableEnds(s);
  }

  // --- which call abandoned it ---------------------------------------------------------------------------

  /** At this step the release call `p` records the undecided attempt `id` as abandoned. */
  predicate AbandonsAt(t: State, event: Event, p: Pid, id: Id) {
    && event.Advance? && event.pid == p && p in t.procs && t.procs[p].Releasing?
    && t.procs[p].releaseCall.pc.DecideAbandoned? && t.procs[p].releaseCall.claimId == id && id !in t.dir.decisions
  }

  ghost predicate Abandoned(s: State, events: seq<Event>, p: Pid, id: Id) {
    exists k: nat :: k < |events| && AbandonsAt(Run(s, events[..k]), events[k], p, id)
  }

  predicate PastDeciding(r: ReleaseCall) {
    r.ordered && (Publishing(r) || r.pc.ReadLaterTaken? || r.pc.Ended?)
  }

  /** A release of an attempt past its decision is of a winner, or of what this very call abandoned. */
  ghost predicate OwnOrWon(s: State, events: seq<Event>, p: Pid) {
    var t := Run(s, events);
    p in t.procs && t.procs[p].Releasing? && PastDeciding(t.procs[p].releaseCall) ==>
      HasWon(t.dir, t.procs[p].releaseCall.claimId) || Abandoned(s, events, p, t.procs[p].releaseCall.claimId)
  }

  lemma StillAbandoned(s: State, events: seq<Event>, p: Pid, id: Id)
    requires events != []
    ensures Abandoned(s, events[..|events| - 1], p, id) ==> Abandoned(s, events, p, id)
    ensures AbandonsAt(Run(s, events[..|events| - 1]), events[|events| - 1], p, id) ==> Abandoned(s, events, p, id)
  {
    hide Run, AbandonsAt;
    var init := events[..|events| - 1];
    if Abandoned(s, init, p, id) {
      var k: nat :| k < |init| && AbandonsAt(Run(s, init[..k]), init[k], p, id);
      assert events[..k] == init[..k] && events[k] == init[k];
    }
    assert events[..|init|] == init;
  }

  lemma DecidesPast(d: Dir, r: ReleaseCall)
    requires ReleaseInv(d, r) && PastDeciding(ReleaseNext(d, r)) && !PastDeciding(r)
    ensures (r.pc.DecideAbandoned? && r.claimId !in d.decisions) || HasWon(Publish(d, ReleaseWrite(r)), r.claimId)
  {
    hide Authorized, Complete, EndedFirst, EndedLater;
  }

  lemma StepOwns(s: State, events: seq<Event>, p: Pid)
    requires Inv(s) && events != [] && ValidRun(s, events) && OwnOrWon(s, events[..|events| - 1], p)
    ensures OwnOrWon(s, events, p)
  {
    hide Inv, Abandoned, AbandonsAt, ValidRun, Run, ClaimNext, ClaimWrite, ReleaseNext, ReleaseWrite, Publish, Known, RecordOf, Authoritative, PastDeciding, Grows, ReleaseInv;
    var init, last := events[..|events| - 1], events[|events| - 1];
    var t := Run(s, init);
    RunSnoc(s, events);
    RunKeeps(s, init);
    EventGrows(t, last);
    var u := Apply(t, last);
    if p in u.procs && u.procs[p].Releasing? && PastDeciding(u.procs[p].releaseCall) {
      var id := u.procs[p].releaseCall.claimId;
      StillAbandoned(s, events, p, id);
      WonStays(t.dir, u.dir, id);
      if last.Advance? && last.pid == p {
        ReleaseIs(t, p);
        SameId(t.dir, t.procs[p].releaseCall);
        if !PastDeciding(t.procs[p].releaseCall) {
          DecidesPast(t.dir, t.procs[p].releaseCall);
          AbandonsNow(t, last, p);
        }
      } else if !(p in t.procs) {
        NotPastAtStart(t, last, p);
      }
    }
  }

  lemma WonStays(d: Dir, e: Dir, id: Id)
    requires Grows(d, e)
    ensures HasWon(d, id) ==> HasWon(e, id)
  {
  }

  lemma AbandonsNow(t: State, event: Event, p: Pid)
    requires event.Advance? && event.pid == p && p in t.procs && t.procs[p].Releasing?
    ensures t.procs[p].releaseCall.pc.DecideAbandoned? && t.procs[p].releaseCall.claimId !in t.dir.decisions ==>
              AbandonsAt(t, event, p, t.procs[p].releaseCall.claimId)
  {
  }

  lemma NotPastAtStart(t: State, event: Event, p: Pid)
    requires Enabled(t, event) && p !in t.procs && p in Apply(t, event).procs && Apply(t, event).procs[p].Releasing?
    ensures !PastDeciding(Apply(t, event).procs[p].releaseCall)
  {
    hide Publish, ReleaseNext, ReleaseWrite, ClaimNext, ClaimWrite, Authoritative, RecordOf, Known;
  }

  lemma {:induction false} RunOwns(s: State, events: seq<Event>, p: Pid)
    requires Inv(s) && ValidRun(s, events) && p !in s.procs
    ensures OwnOrWon(s, events, p)
    decreases |events|
  {
    hide Inv, Abandoned, Enabled, Apply;
    if events != [] {
      RunSnoc(s, events);
      RunOwns(s, events[..|events| - 1], p);
      StepOwns(s, events, p);
    }
  }

  /**
   * Over every run that sees the call begin: a release call succeeds only if what it ends is a claim of the
   * earlier tool, or won, or was recorded as abandoned by this very call while it was undecided.
   */
  lemma EndsOwnOrWon(s: State, events: seq<Event>, p: Pid)
    requires Reachable(s) && ValidRun(s, events) && p !in s.procs
    requires var t := Run(s, events); p in t.procs && t.procs[p].Releasing? && t.procs[p].releaseCall.pc.Ended?
    ensures var t, id := Run(s, events), Run(s, events).procs[p].releaseCall.claimId;
            IsEarlier(t.earlier, t.procs[p].releaseCall.claim) || HasWon(t.dir, id) || Abandoned(s, events, p, id)
  {
    hide Inv, Reachable, Abandoned, ValidRun, Run, LostUnreleased, Decides, CallBears, Authoritative, Released;
    ReachableInv(s);
    RunKeeps(s, events);
    RunOwns(s, events, p);
    ReachesLater(s, events);
    var t := Run(s, events);
    ReachableEnds(t);
    ReleaseIs(t, p);
    RecordsHold(t);
    if !t.procs[p].releaseCall.ordered { FiledIs(t, t.procs[p].releaseCall); }
  }

  lemma FiledIs(s: State, r: ReleaseCall)
    requires RecordsSound(s.dir, s.earlier) && FiledWon(s.dir) && ReleaseInv(s.dir, r) && r.pc.Ended? && !r.ordered
    ensures IsEarlier(s.earlier, r.claim) || HasWon(s.dir, r.claimId)
  {
    hide Authoritative, RecordedKeys;
  }
}
