/** Which undecided attempts can still win, and the run in which they do. */
module ClaimChances {
  import opened Text
  import opened PathSets
  import opened Records
  import opened Directory
  import opened ClaimProtocol
  import opened ClaimInvariant
  import opened ClaimSteps
  import opened ClaimSafety
  import opened ClaimPromises
  import opened ClaimProgress
  import opened ClaimRefusals
  import opened ClaimReleases
  import opened ClaimRecovery

  // --- what an attempt still needs -------------------------------------------------------------

  /** Not held for good: a won claim with both of its release names lost can never be over. */
  predicate MayFinish(d: Dir, claim: Claim) {
    !(HasWon(d, claim.id) && BothNamesTaken(d, claim))
  }

  /** A search that has read the first name in vain must still be able to find the later one. */
  predicate MayEndLater(d: Dir, claim: Claim) {
    EndedLater(d, claim) || (!EndedFirst(d, claim) && claim.id !in d.laterReleases)
  }

  ghost predicate RivalsMayFinish(d: Dir, earlier: map<Id, Claim>, claim: Claim, seqNo: nat) {
    && (forall m :: m in d.order && m < seqNo && Overlap(d.order[m], claim) ==> MayFinish(d, d.order[m]))
    && (forall id :: id in earlier && Overlap(earlier[id], claim) ==> !BothNamesTaken(d, earlier[id]))
  }

  /** What the search has already read does not condemn the attempt. */
  ghost predicate SearchMayPass(d: Dir, claim: Claim, s: SearchPc) {
    match s
    case NextEarlier(_, _, found) => NoneOverlaps(found, claim)
    case EarlierFirst(_, _, _, found) => NoneOverlaps(found, claim)
    case EarlierLater(_, current, _, found) => NoneOverlaps(found, claim) && (Overlap(current, claim) ==> MayEndLater(d, current))
    case ReadLater(_, entry) => MayEndLater(d, entry)
    case Blocked(_) => false
    case _ => true
  }

  ghost predicate CallMayWin(d: Dir, earlier: map<Id, Claim>, c: ClaimCall) {
    && RivalsMayFinish(d, earlier, ClaimOf(c), c.seqNo)
    && (match c.pc
        case Search(search) => SearchMayPass(d, ClaimOf(c), search)
        case DecideWon => true
        case _ => false)
  }

  /** The call is alive and searching, or about to decide, and nothing stands in its way for good. */
  ghost predicate MayWin(s: State, p: Pid) {
    Calls(s, p) && CallMayWin(s.dir, s.earlier, CallOf(s, p))
  }

  ghost predicate HasChance(s: State, id: Id) {
    exists p :: MayWin(s, p) && CallOf(s, p).id == id
  }

  // --- a lost chance never comes back -------------------------------------------------------------

  lemma RivalsMightFinish(d: Dir, e: Dir, earlier: map<Id, Claim>, claim: Claim, seqNo: nat)
    requires Grows(d, e) && RivalsMayFinish(e, earlier, claim, seqNo)
    ensures RivalsMayFinish(d, earlier, claim, seqNo)
  {
    hide Overlap, Grows, HasWon, BothNamesTaken;
    forall m | m in d.order && m < seqNo && Overlap(d.order[m], claim) ensures MayFinish(d, d.order[m]) {
      EntryStaysPut(d, e, m);
      FactsStay(d, e, d.order[m]);
    }
    forall id | id in earlier && Overlap(earlier[id], claim) ensures !BothNamesTaken(d, earlier[id]) {
      FactsStay(d, e, earlier[id]);
    }
  }

  lemma EntryStaysPut(d: Dir, e: Dir, m: nat)
    requires Grows(d, e) && m in d.order
    ensures m in e.order && e.order[m] == d.order[m]
  {
  }

  predicate OnRecord(d: Dir, claim: Claim) {
    Known(d, claim.id) && RecordOf(d, claim.id) == claim
  }

  lemma LaterIsSecond(d: Dir, earlier: map<Id, Claim>, r: ReleaseCall, claim: Claim)
    requires RecordsSound(d, earlier) && ReleaseInv(d, r) && r.pc.PublishLater?
    requires OnRecord(d, claim) && r.claimId == claim.id
    ensures !EndedFirst(d, claim)
  {
    hide RecordedKeys, EndedFirst, Authorized, Complete;
    assert r.claim == claim;
  }

  /** Once a claim is over under its first name, nothing with authority appears under the later one. */
  lemma ReleaseLeavesLater(d: Dir, earlier: map<Id, Claim>, r: ReleaseCall, claim: Claim)
    requires RecordsSound(d, earlier) && ReleaseInv(d, r)
    requires OnRecord(d, claim) && EndedFirst(d, claim) && !EndedLater(d, claim)
    ensures !EndedLater(Publish(d, ReleaseWrite(r)), claim)
  {
    hide RecordsSound, ReleaseInv, EndedFirst, EndedLater, Publish, Authoritative, OnRecord;
    if r.pc.PublishLater? && r.claimId == claim.id {
      LaterIsSecond(d, earlier, r, claim);
    } else {
      OtherLeavesLater(d, ReleaseWrite(r), claim);
    }
  }

  lemma OtherLeavesLater(d: Dir, w: Write, claim: Claim)
    requires !w.PutLaterRelease? || w.release.claimId != claim.id || !Authoritative(w.release, claim)
    ensures EndedLater(d, claim) == EndedLater(Publish(d, w), claim)
  {
    hide Authoritative;
  }

  lemma EventLeavesLater(s: State, event: Event, claim: Claim)
    requires Inv(s) && Enabled(s, event)
    requires OnRecord(s.dir, claim) && EndedFirst(s.dir, claim) && !EndedLater(s.dir, claim)
    ensures !EndedLater(Apply(s, event).dir, claim)
  {
    hide Inv, Publish, ClaimNext, ReleaseNext, ClaimWrite, ReleaseWrite, RecordsSound, Authoritative, EndedFirst, EndedLater, OnRecord, ReleaseInv;
    RecordsAre(s);
    match event
    case Start(_, _) =>
    case Crash(_) =>
    case Foreign(later, release) => ForeignLeavesLater(s, later, release, claim);
    case Offer(handoff) => OtherLeavesLater(s.dir, PutHandoff(handoff), claim);
    case Advance(pid, choice) =>
      match s.procs[pid]
      case Claiming(c) => ClaimLeavesLater(s, pid, claim);
      case Releasing(r) =>
        ReleaseIs(s, pid);
        ReleaseLeavesLater(s.dir, s.earlier, r, claim);
  }

  lemma ForeignLeavesLater(s: State, later: bool, release: Release, claim: Claim)
    requires Enabled(s, Foreign(later, release)) && OnRecord(s.dir, claim)
    ensures EndedLater(Apply(s, Foreign(later, release)).dir, claim) == EndedLater(s.dir, claim)
  {
    hide Publish, Authoritative, EndedLater;
    OtherLeavesLater(s.dir, if later then PutLaterRelease(release) else PutFirstRelease(release), claim);
  }

  lemma RecordsAre(s: State)
    requires Inv(s)
    ensures RecordsSound(s.dir, s.earlier)
  {
    hide Dense, OrderSound, WinnersSound, UsesSound, ProcInv, RecordsSound;
  }

  lemma ClaimLeavesLater(s: State, pid: Pid, claim: Claim)
    requires Inv(s) && Calls(s, pid)
    requires OnRecord(s.dir, claim) && EndedFirst(s.dir, claim) && !EndedLater(s.dir, claim)
    ensures !EndedLater(Publish(s.dir, ClaimWrite(CallOf(s, pid))), claim)
  {
    hide Inv, Publish, RecordsSound, Authoritative, EndedFirst, EndedLater, OnRecord, ReleaseInv, ReleaseWrite, ClaimOf, SearchInv, Base, Trying, Winning, ResultSound;
    RecordsAre(s);
    var c := CallOf(s, pid);
    ClaimIs(s, pid);
    if c.pc.GiveBack? {
      GivingBackIs(s.dir, c, c.pc.release);
      ReleaseLeavesLater(s.dir, s.earlier, c.pc.release, claim);
    } else {
      OtherLeavesLater(s.dir, ClaimWrite(c), claim);
    }
  }

  lemma MightEndLater(s: State, event: Event, claim: Claim)
    requires Inv(s) && Enabled(s, event) && OnRecord(s.dir, claim)
    requires MayEndLater(Apply(s, event).dir, claim)
    ensures MayEndLater(s.dir, claim)
  {
    hide Inv, Enabled, Apply, Authoritative, OnRecord;
    EventGrows(s, event);
    if !EndedLater(s.dir, claim) && EndedFirst(s.dir, claim) { EventLeavesLater(s, event, claim); }
  }

  /** The claim a search is reading the names of belongs to the earlier tool. */
  ghost predicate ReadsEarlier(earlier: map<Id, Claim>, s: SearchPc) {
    match s
    case EarlierFirst(_, current, _, _) => IsEarlier(earlier, current)
    case EarlierLater(_, current, _, _) => IsEarlier(earlier, current)
    case _ => true
  }

  lemma SearchReadsEarlier(s: State, p: Pid)
    requires Reachable(s) && Calls(s, p) && CallOf(s, p).pc.Search?
    ensures ReadsEarlier(s.earlier, CallOf(s, p).pc.search)
  {
    hide ValidRun, Run, Moments, LastReads, Inv, FoundHeld, FirstNameMissed;
    var earlier: map<Id, Claim>, events: seq<Event> :|
      EarlierClaims(earlier) && ValidRun(Initial(earlier), events) && s == Run(Initial(earlier), events);
    InitialInv(earlier);
    RunSees(Initial(earlier), events, p);
  }

  lemma EarlierIsRecorded(s: State, claim: Claim)
    requires Inv(s) && IsEarlier(s.earlier, claim)
    ensures OnRecord(s.dir, claim)
  {
    hide Dense, OrderSound, WinnersSound, UsesSound, ProcInv, RecordedKeys;
  }

  lemma EntryIsRecorded(s: State, n: nat)
    requires Inv(s) && n in s.dir.order
    ensures OnRecord(s.dir, s.dir.order[n])
  {
    hide Dense, RecordsSound, WinnersSound, UsesSound, ProcInv;
  }

  /** A search the event leaves alone had every chance before it that it has after it. */
  lemma MightPass(s: State, event: Event, p: Pid)
    requires Reachable(s) && Enabled(s, event) && Calls(s, p) && CallOf(s, p).pc.Search?
    requires SearchMayPass(Apply(s, event).dir, ClaimOf(CallOf(s, p)), CallOf(s, p).pc.search)
    ensures SearchMayPass(s.dir, ClaimOf(CallOf(s, p)), CallOf(s, p).pc.search)
  {
    hide Inv, Reachable, Enabled, Apply, MayEndLater, OnRecord, ClaimOf, Overlap, NoneOverlaps;
    ReachableInv(s);
    SearchReadsEarlier(s, p);
    match CallOf(s, p).pc.search
    case EarlierLater(_, current, _, _) =>
      EarlierIsRecorded(s, current);
      if MayEndLater(Apply(s, event).dir, current) { MightEndLater(s, event, current); }
    case ReadLater(at, entry) =>
      JudgesEntry(s, p);
      EntryIsRecorded(s, at);
      MightEndLater(s, event, entry);
    case _ =>
  }

  lemma JudgesEntry(s: State, p: Pid)
    requires Inv(s) && Calls(s, p) && CallOf(s, p).pc.Search? && CallOf(s, p).pc.search.ReadLater?
    ensures var search := CallOf(s, p).pc.search; search.at in s.dir.order && s.dir.order[search.at] == search.entry
    ensures HasWon(s.dir, CallOf(s, p).pc.search.entry.id)
  {
    hide Inv, Scanned, Overlap, Base, HasWon;
    ClaimIs(s, p);
  }

  /** Nor does a call's own read bring a chance it did not have. */
  lemma ReadMightPass(d: Dir, claim: Claim, seqNo: nat, wanted: seq<string>, s: SearchPc, choice: Choice)
    requires RecordedKeys(claim.paths) == Keyed(wanted) && !s.Blocked?
    requires SearchMayPass(d, claim, SearchNext(d, seqNo, wanted, s, choice))
    ensures SearchMayPass(d, claim, s)
  {
    hide RecordedKeys, Overlap, OverlapsAny, EndedFirst, EndedLater;
    if s.NextEarlier? {
      forall f | f in s.found ensures OverlapsAny(RecordedKeys(f.paths), wanted) == Overlap(f, claim) { OverlapByKeys(f, claim, wanted); }
    }
  }

  lemma SearchGoesOn(s: State, p: Pid, choice: Choice)
    requires Inv(s) && Calls(s, p) && CallOf(s, p).pc.Search?
    ensures var c, t := CallOf(s, p), Apply(s, Advance(p, choice));
            && t.dir == s.dir && t.earlier == s.earlier && Calls(t, p)
            && CallOf(t, p) == c.(pc := AfterSearch(SearchNext(s.dir, c.seqNo, Keys(c.scope), c.pc.search, choice)))
            && RecordedKeys(ClaimOf(c).paths) == Keyed(Keys(c.scope)) && !c.pc.search.Blocked?
  {
    hide Inv, SearchNext, AfterSearch, Base, SearchInv, ClaimOf, HasWon, InOrder;
    ClaimIs(s, p);
    BaseKeys(s.dir, CallOf(s, p));
  }

  lemma MoverMightWin(s: State, p: Pid, choice: Choice)
    requires Inv(s) && Calls(s, p) && MayWin(Apply(s, Advance(p, choice)), p)
    requires Linked(s.dir, CallOf(s, p).id)
    ensures MayWin(s, p)
  {
    hide Inv, SearchNext, ClaimOf, RivalsMayFinish, SearchMayPass, Linked, Apply, RecordedKeys;
    var c, t := CallOf(s, p), Apply(s, Advance(p, choice));
    if c.pc.Search? {
      SearchGoesOn(s, p, choice);
      OnlyMoved(s.dir, c, CallOf(t, p));
      var next := SearchNext(s.dir, c.seqNo, Keys(c.scope), c.pc.search, choice);
      ClearPasses(s.dir, ClaimOf(c), next);
      ReadMightPass(s.dir, ClaimOf(c), c.seqNo, Keys(c.scope), c.pc.search, choice);
    } else {
      OnlySearchersMayWin(s, p, choice);
    }
  }

  lemma ClearPasses(d: Dir, claim: Claim, s: SearchPc)
    ensures s.Clear? ==> SearchMayPass(d, claim, s)
  {
  }

  lemma OnlySearchersMayWin(s: State, p: Pid, choice: Choice)
    requires Inv(s) && Calls(s, p) && Linked(s.dir, CallOf(s, p).id) && !CallOf(s, p).pc.Search?
    ensures !MayWin(Apply(s, Advance(p, choice)), p)
  {
    hide Inv, Linked, Authorizes, CanonicalSet, ReleaseNext, GiveBackCall, Unlockable, AnyHot, Complete, NonEmpty, RivalsMayFinish, SearchInv, Base, Publish;
    ClaimIs(s, p);
  }

  lemma ChanceWasThere(s: State, event: Event, id: Id)
    requires Reachable(s) && Enabled(s, event) && Linked(s.dir, id) && HasChance(Apply(s, event), id)
    ensures HasChance(s, id)
  {
    hide Inv, Reachable, CallMayWin, Linked, Apply;
    var p :| MayWin(Apply(s, event), p) && CallOf(Apply(s, event), p).id == id;
    ReachableInv(s);
    if event.Advance? && event.pid == p {
      SameCall(s, p, event.choice);
      MoverMightWin(s, p, event.choice);
    } else {
      OtherMightWin(s, event, p);
    }
    assert MayWin(s, p) && CallOf(s, p).id == id;
  }

  lemma SameCall(s: State, p: Pid, choice: Choice)
    requires MayWin(Apply(s, Advance(p, choice)), p)
    ensures Calls(s, p) && CallOf(s, p).id == CallOf(Apply(s, Advance(p, choice)), p).id
  {
    hide ClaimNext, ReleaseNext, Publish, CallMayWin;
    if Calls(s, p) { NextOwner(s.dir, CallOf(s, p), choice); }
  }

  lemma OtherMightWin(s: State, event: Event, p: Pid)
    requires Reachable(s) && Enabled(s, event) && MayWin(Apply(s, event), p) && !(event.Advance? && event.pid == p)
    ensures MayWin(s, p) && CallOf(s, p) == CallOf(Apply(s, event), p)
  {
    hide Inv, Reachable, RivalsMayFinish, SearchMayPass, ClaimOf, Grows;
    ReachableInv(s);
    StaysPut(s, event, p);
    var c := CallOf(s, p);
    EventGrows(s, event);
    RivalsMightFinish(s.dir, Apply(s, event).dir, s.earlier, ClaimOf(c), c.seqNo);
    if c.pc.Search? { MightPass(s, event, p); }
  }

  lemma StaysPut(s: State, event: Event, p: Pid)
    requires Enabled(s, event) && MayWin(Apply(s, event), p) && !(event.Advance? && event.pid == p)
    ensures Calls(s, p) && CallOf(s, p) == CallOf(Apply(s, event), p) && Apply(s, event).earlier == s.earlier
  {
    hide ClaimNext, ReleaseNext, Publish, ClaimWrite, ReleaseWrite, RivalsMayFinish;
  }

  /** Only a call about to decide makes its attempt win. */
  lemma WinnerHadChance(s: State, event: Event, id: Id)
    requires Inv(s) && Enabled(s, event) && !HasWon(s.dir, id) && HasWon(Apply(s, event).dir, id)
    ensures HasChance(s, id)
  {
    hide Inv, ClaimNext, ReleaseNext, ClaimWrite, ReleaseWrite, Publish, Known, RecordOf, Authoritative, HasWon, MayWin;
    match event
    case Start(_, _) =>
    case Crash(_) =>
    case Foreign(later, release) => WritesWin(s.dir, if later then PutLaterRelease(release) else PutFirstRelease(release), id);
    case Offer(handoff) => WritesWin(s.dir, PutHandoff(handoff), id);
    case Advance(pid, choice) =>
      match s.procs[pid]
      case Claiming(c) =>
        WritesWin(s.dir, ClaimWrite(c), id);
        OnlyDecidingWrites(c);
        DecidingMayWin(s, pid);
        assert MayWin(s, pid) && CallOf(s, pid).id == id;
      case Releasing(r) =>
        WritesWin(s.dir, ReleaseWrite(r), id);
        ReleasesDecideNoWin(r);
  }

  lemma WritesWin(d: Dir, w: Write, id: Id)
    ensures !HasWon(d, id) && HasWon(Publish(d, w), id) ==> w == PutDecision(id, Won)
  {
  }

  lemma ReleasesDecideNoWin(r: ReleaseCall)
    ensures !(ReleaseWrite(r).PutDecision? && ReleaseWrite(r).decision == Won)
  {
    hide ReleaseRecord;
  }

  lemma OnlyDecidingWrites(c: ClaimCall)
    ensures ClaimWrite(c).PutDecision? && ClaimWrite(c).decision == Won ==> c.pc.DecideWon? && ClaimWrite(c).id == c.id
  {
    hide ReleaseWrite, ClaimOf;
    if c.pc.GiveBack? { ReleasesDecideNoWin(c.pc.release); }
  }

  lemma DecidingMayWin(s: State, p: Pid)
    requires Inv(s) && Calls(s, p)
    ensures CallOf(s, p).pc.DecideWon? ==> MayWin(s, p)
  {
    hide Inv, Overlap, Released, ClaimOf, Base, InOrder;
    ClaimIs(s, p);
  }

  lemma {:induction false} NeverWins(s: State, events: seq<Event>, id: Id)
    requires Reachable(s) && ValidRun(s, events) && Linked(s.dir, id) && !HasWon(s.dir, id)
    requires id !in s.dir.decisions ==> !HasChance(s, id)
    ensures !HasWon(Run(s, events).dir, id)
    decreases |events|
  {
    hide Inv, Enabled, Apply, Reachable, HasChance, Grows;
    if events != [] {
      var t := Apply(s, events[0]);
      ReachableInv(s);
      ApplyKeeps(s, events[0]);
      ReachesNext(s, events[0]);
      DecisionsStay(s.dir, t.dir, id);
      if id !in s.dir.decisions {
        if HasWon(t.dir, id) { WinnerHadChance(s, events[0], id); }
        if HasChance(t, id) { ChanceWasThere(s, events[0], id); }
      }
      NeverWins(t, events[1..], id);
    }
  }

  lemma DecisionsStay(d: Dir, e: Dir, id: Id)
    requires Grows(d, e)
    ensures id in d.decisions ==> id in e.decisions && e.decisions[id] == d.decisions[id]
    ensures Linked(d, id) ==> Linked(e, id)
  {
    if Linked(d, id) {
      var n :| n in d.order && d.order[n].id == id;
      assert n in e.order && e.order[n].id == id;
    }
  }
}
