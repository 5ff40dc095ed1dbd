/** Each step of a claim call keeps the directory sound and the call's own knowledge true. */
module ClaimSteps {
  import opened Text
  import opened Paths
  import opened PathSets
  import opened Records
  import opened Directory
  import opened ClaimProtocol
  import opened ClaimInvariant

  ghost predicate NamesAll(d: Dir, choice: Choice) {
    forall id :: id in choice.names <==> id in d.claimFiles
  }

  ghost predicate StepKept(d: Dir, earlier: map<Id, Claim>, c: ClaimCall, choice: Choice) {
    var e := Publish(d, ClaimWrite(c));
    DirInv(e, earlier) && ClaimInv(e, earlier, ClaimNext(d, c, choice))
  }

  lemma ScopeKeys(c: ClaimCall)
    requires Prepared(c)
    ensures RecordedKeys(ClaimOf(c).paths) == Keyed(Keys(c.scope))
    ensures forall other: Claim :: Overlap(other, ClaimOf(c)) <==> OverlapsAny(RecordedKeys(other.paths), Keys(c.scope))
  {
    StoredKeysAreDecidedKeys(c.input.paths);
  }

  lemma BeginKept(d: Dir, earlier: map<Id, Claim>, c: ClaimCall, choice: Choice)
    requires DirInv(d, earlier) && ClaimInv(d, earlier, c)
    requires c.pc.Begin?
    ensures StepKept(d, earlier, c, choice)
  {
    hide DirInv, Authorizes, CanonicalSet, Complete, NonEmpty, LockNameLength, IsHot;
  }

  lemma HandoffReadKept(d: Dir, earlier: map<Id, Claim>, c: ClaimCall, choice: Choice)
    requires DirInv(d, earlier) && ClaimInv(d, earlier, c)
    requires c.pc.ReadHandoff?
    ensures StepKept(d, earlier, c, choice)
  {
    hide DirInv, CanonicalSet, Complete, SameOwner;
  }

  lemma HandoffUseReadKept(d: Dir, earlier: map<Id, Claim>, c: ClaimCall, choice: Choice)
    requires DirInv(d, earlier) && ClaimInv(d, earlier, c)
    requires c.pc.ReadHandoffUse?
    ensures StepKept(d, earlier, c, choice)
  {
    hide DirInv, Authorizes, CanonicalSet, Complete, IsHot;
  }

  lemma PublishingKept(d: Dir, earlier: map<Id, Claim>, c: ClaimCall, choice: Choice)
    requires DirInv(d, earlier) && ClaimInv(d, earlier, c)
    requires c.pc.PublishAttempt?
    ensures StepKept(d, earlier, c, choice)
  {
    hide DirInv, Base, ClaimOf, Linked, RecordedKeys, Grows, HasWon;
    var claim := ClaimOf(c);
    if c.id !in d.attempts {
      BaseKeys(d, c);
      NotLinkedNotWon(d, earlier, c.id);
      DirKeptAttempt(d, earlier, claim);
      PublishedTries(d, Put(d, PutAttempt(claim)), c);
    }
  }

  lemma NotLinkedNotWon(d: Dir, earlier: map<Id, Claim>, id: Id)
    requires DirInv(d, earlier) && id !in d.attempts
    ensures !Linked(d, id) && !HasWon(d, id)
  {
    hide Scanned, EarlierClear, RecordedKeys;
  }

  lemma ListingOrderKept(d: Dir, earlier: map<Id, Claim>, c: ClaimCall, choice: Choice)
    requires DirInv(d, earlier) && ClaimInv(d, earlier, c)
    requires c.pc.ListOrder?
    ensures StepKept(d, earlier, c, choice)
  {
    hide DirInv, Base, ClaimOf, Linked, HasWon;
    OnlyMoved(d, c, ClaimNext(d, c, choice));
  }

  lemma LinkingKept(d: Dir, earlier: map<Id, Claim>, c: ClaimCall, choice: Choice)
    requires DirInv(d, earlier) && ClaimInv(d, earlier, c)
    requires c.pc.LinkOrder?
    ensures StepKept(d, earlier, c, choice)
  {
    hide DirInv, Base, ClaimOf, Linked, Grows, HasWon;
    var next, claim := c.pc.next, ClaimOf(c);
    OnlyMoved(d, c, ClaimNext(d, c, choice));
    if next in d.order {
      OrderBound(d, earlier, next);
    } else {
      DirKeptOrder(d, earlier, next, claim);
      PutGrows(d, PutOrder(next, claim));
      LinkedSearches(d, Put(d, PutOrder(next, claim)), c, next);
    }
  }

  lemma LinkedSearches(d: Dir, e: Dir, c: ClaimCall, next: nat)
    requires Trying(d, c) && Grows(d, e) && e.order == d.order[next := ClaimOf(c)] && e.decisions == d.decisions
    ensures var n := c.(seqNo := next, pc := Search(ListEarlier(false)));
            Trying(e, n) && InOrder(e, n)
  {
    hide CanonicalSet, Authorizes, Complete;
    assert ClaimOf(c.(seqNo := next, pc := Search(ListEarlier(false)))) == ClaimOf(c);
  }

  /** Moving the program counter changes none of the facts about a call. */
  lemma OnlyMoved(d: Dir, c: ClaimCall, n: ClaimCall)
    ensures n == c.(pc := n.pc) ==>
              && (Trying(d, c) <==> Trying(d, n))
              && (Winning(d, c) <==> Winning(d, n))
              && (Base(d, c) <==> Base(d, n))
              && (InOrder(d, c) <==> InOrder(d, n))
              && ClaimOf(n) == ClaimOf(c)
  {
    hide CanonicalSet, Authorizes, Complete;
  }

  lemma BaseKeys(d: Dir, c: ClaimCall)
    requires Base(d, c)
    ensures RecordedKeys(ClaimOf(c).paths) == Keyed(Keys(c.scope))
  {
    hide CanonicalSet, Authorizes, Complete, RecordedKeys;
    ScopeKeys(c);
  }

  lemma PublishedTries(d: Dir, e: Dir, c: ClaimCall)
    requires Base(d, c) && !HasWon(d, c.id) && !Linked(d, c.id)
    requires c.id !in d.attempts && e == Put(d, PutAttempt(ClaimOf(c)))
    ensures Trying(e, c.(mine := true, pc := ListOrder)) && !Linked(e, c.id)
  {
    hide CanonicalSet, Authorizes, Complete;
    assert ClaimOf(c.(mine := true, pc := ListOrder)) == ClaimOf(c);
  }

  lemma OrderBound(d: Dir, earlier: map<Id, Claim>, next: nat)
    requires DirInv(d, earlier) && next in d.order
    ensures next + 1 <= |d.order|
  {
    hide OrderSound, RecordsSound, WinnersSound, UsesSound;
  }

  // --- the search ------------------------------------------------------------------------------

  lemma NextSeen(d: Dir, earlier: map<Id, Claim>, claim: Claim, todo: seq<Id>, found: seq<Claim>)
    requires RecordsSound(d, earlier) && todo != [] && EarlierSeen(d, earlier, claim, todo, found, {})
    ensures if todo[0] in d.attempts || todo[0] !in d.claimFiles then EarlierSeen(d, earlier, claim, todo[1..], found, {})
            else EarlierSeen(d, earlier, claim, todo[1..], found, {d.claimFiles[todo[0]]})
  {
    hide Overlap, Released, RecordedKeys;
    assert todo == [todo[0]] + todo[1..];
  }

  lemma CurrentSeen(d: Dir, earlier: map<Id, Claim>, claim: Claim, todo: seq<Id>, found: seq<Claim>, current: Claim)
    requires EarlierSeen(d, earlier, claim, todo, found, {current})
    ensures Released(d, current) ==> EarlierSeen(d, earlier, claim, todo, found, {})
    ensures EarlierSeen(d, earlier, claim, todo, found + [current], {})
  {
    hide Released, Overlap;
  }

  lemma VerdictClears(d: Dir, earlier: map<Id, Claim>, claim: Claim, wanted: seq<string>, found: seq<Claim>)
    requires RecordedKeys(claim.paths) == Keyed(wanted) && EarlierSeen(d, earlier, claim, [], found, {})
    ensures FirstOverlapping(found, wanted).None? ==> EarlierClear(d, earlier, claim)
  {
    hide Released, OverlapsAny, RecordedKeys, FirstOverlapping;
  }

  lemma ScanAdvances(d: Dir, claim: Claim, at: nat)
    requires Scanned(d, claim, at)
    requires at in d.order && Overlap(d.order[at], claim) ==> Finished(d, d.order[at])
    ensures Scanned(d, claim, at + 1)
  {
    hide Overlap, Finished;
  }

  lemma ListingSearchKept(d: Dir, earlier: map<Id, Claim>, claim: Claim, seqNo: nat, wanted: seq<string>, s: SearchPc, choice: Choice)
    requires RecordsSound(d, earlier) && NamesAll(d, choice) && RecordedKeys(claim.paths) == Keyed(wanted)
    requires SearchInv(d, earlier, claim, seqNo, s)
    requires s.ListEarlier? || s.NextEarlier? || s.EarlierFirst? || s.EarlierLater?
    ensures SearchInv(d, earlier, claim, seqNo, SearchNext(d, seqNo, wanted, s, choice))
  {
    hide Scanned, EarlierSeen, EarlierClear, FirstOverlapping, RecordsSound, NamesAll, EndedFirst, EndedLater, RecordedKeys, Judging;
    match s
    case ListEarlier(_) => NamesSeen(d, earlier, claim, choice);
    case NextEarlier(last, todo, found) =>
      if todo == [] {
        VerdictClears(d, earlier, claim, wanted, found);
        assert Scanned(d, claim, 0) by { NothingScanned(d, claim); }
      } else {
        NextSeen(d, earlier, claim, todo, found);
      }
    case EarlierFirst(_, current, todo, found) => CurrentSeen(d, earlier, claim, todo, found, current);
    case EarlierLater(_, current, todo, found) => CurrentSeen(d, earlier, claim, todo, found, current);
  }

  lemma NothingScanned(d: Dir, claim: Claim)
    ensures Scanned(d, claim, 0)
  {
    hide Overlap, Finished;
  }

  lemma NamesSeen(d: Dir, earlier: map<Id, Claim>, claim: Claim, choice: Choice)
    requires RecordsSound(d, earlier) && NamesAll(d, choice)
    ensures EarlierSeen(d, earlier, claim, choice.names, [], {})
  {
    hide Overlap, Released, RecordedKeys;
  }

  lemma OrderSearchKept(d: Dir, earlier: map<Id, Claim>, claim: Claim, seqNo: nat, wanted: seq<string>, s: SearchPc, choice: Choice)
    requires RecordedKeys(claim.paths) == Keyed(wanted)
    requires SearchInv(d, earlier, claim, seqNo, s)
    requires s.ReadEntry? || s.ReadDecision? || s.ReadFirst? || s.ReadLater?
    ensures SearchInv(d, earlier, claim, seqNo, SearchNext(d, seqNo, wanted, s, choice))
  {
    hide Scanned, RecordedKeys, OverlapsAny, EndedFirst, EndedLater;
    if s.at in d.order && (Overlap(d.order[s.at], claim) ==> Finished(d, d.order[s.at])) {
      ScanAdvances(d, claim, s.at);
    }
  }

  /** Each read of the search keeps what it has established. */
  lemma SearchKept(d: Dir, earlier: map<Id, Claim>, claim: Claim, seqNo: nat, wanted: seq<string>, s: SearchPc, choice: Choice)
    requires RecordsSound(d, earlier) && NamesAll(d, choice) && RecordedKeys(claim.paths) == Keyed(wanted)
    requires SearchInv(d, earlier, claim, seqNo, s)
    ensures SearchInv(d, earlier, claim, seqNo, SearchNext(d, seqNo, wanted, s, choice))
  {
    hide RecordsSound, NamesAll, SearchInv;
    match s
    case ListEarlier(_) => ListingSearchKept(d, earlier, claim, seqNo, wanted, s, choice);
    case NextEarlier(_, _, _) => ListingSearchKept(d, earlier, claim, seqNo, wanted, s, choice);
    case EarlierFirst(_, _, _, _) => ListingSearchKept(d, earlier, claim, seqNo, wanted, s, choice);
    case EarlierLater(_, _, _, _) => ListingSearchKept(d, earlier, claim, seqNo, wanted, s, choice);
    case Blocked(_) =>
    case Clear =>
    case _ => OrderSearchKept(d, earlier, claim, seqNo, wanted, s, choice);
  }

  lemma SearchingKept(d: Dir, earlier: map<Id, Claim>, c: ClaimCall, choice: Choice)
    requires DirInv(d, earlier) && ClaimInv(d, earlier, c) && NamesAll(d, choice)
    requires c.pc.Search?
    ensures StepKept(d, earlier, c, choice)
  {
    hide Dense, OrderSound, RecordsSound, WinnersSound, UsesSound, ClaimOf, Base, SearchInv, SearchNext, InOrder, NamesAll, HasWon;
    var s := c.pc.search;
    BaseKeys(d, c);
    OnlyMoved(d, c, ClaimNext(d, c, choice));
    SearchKept(d, earlier, ClaimOf(c), c.seqNo, Keys(c.scope), s, choice);
  }

  lemma HandoffOfClaim(c: ClaimCall)
    ensures c.handoff.Some? ==> ClaimOf(c).handoffFrom == Some(c.handoff.value.id)
  {
  }

  lemma GiveBackOver(d: Dir, c: ClaimCall, n: ClaimCall, r: ReleaseCall)
    requires GivingBack(d, c, r) && n == c.(pc := n.pc) && n.pc.Done?
    requires (r.pc.Ended? && n.pc.result.HandoffSpent?) || (r.pc.Threw? && n.pc.result.GiveBackThrew?)
    ensures ResultSound(d, n, n.pc.result) && n.mine && n.id in d.attempts
  {
    hide Winning, ClaimOf, Released, BothNamesTaken, ReleaseInv;
    OnlyMoved(d, c, n);
    GiveBackResult(d, c, r);
    MineIs(d, c);
  }

  lemma MineIs(d: Dir, c: ClaimCall)
    requires Winning(d, c)
    ensures c.mine && c.id in d.attempts
  {
    hide Base, HasWon;
  }

  lemma GiveBackResult(d: Dir, c: ClaimCall, r: ReleaseCall)
    requires GivingBack(d, c, r)
    ensures r.pc.Ended? ==> Released(d, ClaimOf(c))
    ensures r.pc.Threw? ==> Released(d, ClaimOf(c)) || BothNamesTaken(d, ClaimOf(c))
  {
    hide Winning, ClaimOf, Released, BothNamesTaken, Authorized, Authoritative, HasRead, Complete;
  }

  lemma GiveBackGoesOn(d: Dir, e: Dir, c: ClaimCall, n: ClaimCall, r: ReleaseCall)
    requires GivingBack(d, c, r) && !r.pc.Ended? && !r.pc.Threw? && n == c.(pc := n.pc)
    requires Winning(e, n) && ReleaseInv(e, ReleaseNext(d, r))
    ensures GivingBack(e, n, ReleaseNext(d, r)) && n.mine && n.id in e.attempts
  {
    GiveBackStep(d, c, r);
    hide Winning, ClaimOf, ReleaseInv, ReleaseNext, ReadsWinner;
    OnlyMoved(d, c, n);
    MineIs(e, n);
  }

  lemma LosingKept(d: Dir, earlier: map<Id, Claim>, c: ClaimCall, choice: Choice)
    requires DirInv(d, earlier) && ClaimInv(d, earlier, c)
    requires c.pc.DecideLost?
    ensures StepKept(d, earlier, c, choice)
  {
    hide DirInv, Base, Grows, ClaimOf, Scanned, InOrder;
    var e := Publish(d, PutDecision(c.id, Lost));
    PublishGrows(d, PutDecision(c.id, Lost));
    DirKeptQuiet(d, e, earlier);
  }

  lemma DecidingKept(d: Dir, earlier: map<Id, Claim>, c: ClaimCall, choice: Choice)
    requires DirInv(d, earlier) && ClaimInv(d, earlier, c)
    requires c.pc.DecideWon?
    ensures StepKept(d, earlier, c, choice)
  {
    hide DirInv, Base, ClaimOf, Overlap, EarlierClear, Scanned, Grows;
    var n := ClaimNext(d, c, choice);
    OnlyMoved(d, c, n);
    if c.id !in d.decisions {
      DirKeptWin(d, earlier, c.seqNo);
      PutGrows(d, PutDecision(c.id, Won));
      WonWins(d, Put(d, PutDecision(c.id, Won)), c, n.pc);
    }
  }

  lemma WonWins(d: Dir, e: Dir, c: ClaimCall, pc: ClaimPc)
    requires Trying(d, c) && Grows(d, e) && HasWon(e, c.id)
    ensures Winning(e, c.(pc := pc))
  {
    hide CanonicalSet, Authorizes, Complete;
    assert ClaimOf(c.(pc := pc)) == ClaimOf(c);
  }

  lemma ReadingOwnKept(d: Dir, earlier: map<Id, Claim>, c: ClaimCall, choice: Choice)
    requires DirInv(d, earlier) && ClaimInv(d, earlier, c)
    requires c.pc.ReadOwnDecision?
    ensures StepKept(d, earlier, c, choice)
  {
    hide DirInv, Base, ClaimOf, Scanned, InOrder;
  }

  lemma UsingKept(d: Dir, earlier: map<Id, Claim>, c: ClaimCall, choice: Choice)
    requires DirInv(d, earlier) && ClaimInv(d, earlier, c)
    requires c.pc.PublishUse?
    ensures StepKept(d, earlier, c, choice)
  {
    hide DirInv, Base, ClaimOf, Grows, HasWon, AuthorizedUse;
    var n := ClaimNext(d, c, choice);
    OnlyMoved(d, c, n);
    var h := c.handoff.value.id;
    if h !in d.uses {
      HandoffOfClaim(c);
      UseIsAuthorized(d, c);
      DirKeptUse(d, earlier, h, ClaimOf(c));
      PutGrows(d, PutUse(h, c.id));
      StillWinning(d, Put(d, PutUse(h, c.id)), n);
    }
  }

  lemma UseIsAuthorized(d: Dir, c: ClaimCall)
    requires Base(d, c) && c.handoff.Some?
    ensures AuthorizedUse(d, c.handoff.value.id, ClaimOf(c))
  {
    hide CanonicalSet, Authorizes, Complete, RecordedKeys;
    ReductionIsIdempotent(c.input.paths);
    ScopeKeys(c);
  }

  lemma StillWinning(d: Dir, e: Dir, c: ClaimCall)
    requires Winning(d, c) && Grows(d, e)
    ensures Winning(e, c)
  {
    hide CanonicalSet, Authorizes, Complete;
  }

  lemma ReadingUseKept(d: Dir, earlier: map<Id, Claim>, c: ClaimCall, choice: Choice)
    requires DirInv(d, earlier) && ClaimInv(d, earlier, c)
    requires c.pc.ReadUse?
    ensures StepKept(d, earlier, c, choice)
  {
    hide DirInv, ClaimOf, Base, HasWon, Authorized, HasRead, Complete;
    OnlyMoved(d, c, ClaimNext(d, c, choice));
    BaseOwner(d, c);
  }

  lemma BaseOwner(d: Dir, c: ClaimCall)
    requires Base(d, c)
    ensures Complete(c.input.owner)
  {
    hide Prepared, HandoffSound;
  }

  lemma GiveBackStops(d: Dir, earlier: map<Id, Claim>, c: ClaimCall, choice: Choice)
    requires DirInv(d, earlier) && ClaimInv(d, earlier, c)
    requires c.pc.GiveBack? && (c.pc.release.pc.Ended? || c.pc.release.pc.Threw?)
    ensures StepKept(d, earlier, c, choice)
  {
    hide DirInv, ClaimOf, ReleaseNext, ReleaseWrite, GivingBack, Publish, ResultSound;
    NoMoreWrites(d, c.pc.release);
    GiveBackOver(d, c, ClaimNext(d, c, choice), c.pc.release);
  }

  lemma GiveBackContinues(d: Dir, earlier: map<Id, Claim>, c: ClaimCall, choice: Choice)
    requires DirInv(d, earlier) && ClaimInv(d, earlier, c)
    requires c.pc.GiveBack? && !c.pc.release.pc.Ended? && !c.pc.release.pc.Threw?
    ensures StepKept(d, earlier, c, choice)
  {
    hide DirInv, ClaimOf, Grows, ReleaseNext, ReleaseWrite, ReleaseKept, GivingBack, Publish, ResultSound, Winning, ReleaseInv, HasWon, IdsSound;
    var r, n := c.pc.release, ClaimNext(d, c, choice);
    var e := Publish(d, ReleaseWrite(r));
    QuietRelease(d, r);
    DirKeptQuiet(d, e, earlier);
    IdsAreSound(d, earlier);
    GivingBackIs(d, c, r);
    ReleaseStepKeeps(d, r);
    KeptIs(d, r);
    OnlyMoved(d, c, n);
    StillWinning(d, e, n);
    GiveBackGoesOn(d, e, c, n, r);
  }

  lemma GivingBackKept(d: Dir, earlier: map<Id, Claim>, c: ClaimCall, choice: Choice)
    requires DirInv(d, earlier) && ClaimInv(d, earlier, c)
    requires c.pc.GiveBack?
    ensures StepKept(d, earlier, c, choice)
  {
    hide DirInv, ClaimInv, StepKept;
    if c.pc.release.pc.Ended? || c.pc.release.pc.Threw? {
      GiveBackStops(d, earlier, c, choice);
    } else {
      GiveBackContinues(d, earlier, c, choice);
    }
  }

  lemma NoMoreWrites(d: Dir, r: ReleaseCall)
    requires r.pc.Ended? || r.pc.Threw?
    ensures Publish(d, ReleaseWrite(r)) == d
  {
  }

  lemma GivingBackIs(d: Dir, c: ClaimCall, r: ReleaseCall)
    requires GivingBack(d, c, r)
    ensures Winning(d, c) && ReleaseInv(d, r)
  {
    hide Winning, ReleaseInv;
  }

  lemma KeptIs(d: Dir, r: ReleaseCall)
    requires ReleaseKept(d, r)
    ensures ReleaseInv(Publish(d, ReleaseWrite(r)), ReleaseNext(d, r))
  {
  }

  lemma IdsAreSound(d: Dir, earlier: map<Id, Claim>)
    requires DirInv(d, earlier)
    ensures IdsSound(d)
  {
    hide Dense, OrderSound, WinnersSound, UsesSound, RecordedKeys;
  }

  lemma QuietRelease(d: Dir, r: ReleaseCall)
    ensures var e := Publish(d, ReleaseWrite(r));
            && Grows(d, e)
            && e.attempts == d.attempts && e.order == d.order && e.claimFiles == d.claimFiles && e.uses == d.uses
            && (forall id :: HasWon(e, id) ==> HasWon(d, id))
  {
    PublishGrows(d, ReleaseWrite(r));
    QuietWrite(d, ReleaseWrite(r));
  }

  lemma QuietWrite(d: Dir, w: Write)
    requires w.Nothing? || w.PutFirstRelease? || w.PutLaterRelease? || (w.PutDecision? && w.decision != Won)
    ensures var e := Publish(d, w);
            && e.attempts == d.attempts && e.order == d.order && e.claimFiles == d.claimFiles && e.uses == d.uses
            && (forall id :: HasWon(e, id) ==> HasWon(d, id))
  {
  }

  /** A winner giving its own claim back reads its attempt and is the holder. */
  lemma GiveBackStep(d: Dir, c: ClaimCall, r: ReleaseCall)
    requires GivingBack(d, c, r) && !r.pc.Ended? && !r.pc.Threw?
    ensures var n := ReleaseNext(d, r);
            && n.claimId == c.id && n.by_ == c.input.owner
            && !n.pc.ReadClaimFile?
            && (ReadsWinner(n) ==> n.claim == ClaimOf(c) && n.ordered)
            && (n.pc.Threw? ==> n.pc.why.AlreadyReleased? || n.pc.why.BothTaken?)
  {
    hide EndedFirst, EndedLater, CanonicalSet, Authorizes, ReleaseInv, Authorized, ClaimOf, Complete, Base;
    OwnClaim(c, r);
  }

  lemma OwnClaim(c: ClaimCall, r: ReleaseCall)
    requires Complete(c.input.owner)
    ensures r.claim == ClaimOf(c) && r.by_ == c.input.owner ==> Authorized(r) == Ok(Holder)
  {
  }

  lemma PublishingFileKept(d: Dir, earlier: map<Id, Claim>, c: ClaimCall, choice: Choice)
    requires DirInv(d, earlier) && ClaimInv(d, earlier, c)
    requires c.pc.PublishClaimFile?
    ensures StepKept(d, earlier, c, choice)
  {
    hide DirInv, Base, ClaimOf, Grows, HasWon;
    var n := ClaimNext(d, c, choice);
    OnlyMoved(d, c, n);
    PublishGrows(d, PutClaimFile(ClaimOf(c)));
    if c.id !in d.claimFiles { DirKeptClaimFile(d, earlier, ClaimOf(c)); }
    StillWinning(d, Publish(d, PutClaimFile(ClaimOf(c))), n);
  }

  /** Every step of a claim call, whatever the other calls have done so far. */
  lemma ClaimStepKeeps(d: Dir, earlier: map<Id, Claim>, c: ClaimCall, choice: Choice)
    requires DirInv(d, earlier) && ClaimInv(d, earlier, c) && NamesAll(d, choice)
    ensures StepKept(d, earlier, c, choice)
  {
    hide DirInv, ClaimInv, NamesAll, StepKept;
    match c.pc
    case Begin => BeginKept(d, earlier, c, choice);
    case ReadHandoff(_) => HandoffReadKept(d, earlier, c, choice);
    case ReadHandoffUse(_) => HandoffUseReadKept(d, earlier, c, choice);
    case PublishAttempt => PublishingKept(d, earlier, c, choice);
    case ListOrder => ListingOrderKept(d, earlier, c, choice);
    case LinkOrder(_) => LinkingKept(d, earlier, c, choice);
    case Search(_) => SearchingKept(d, earlier, c, choice);
    case DecideLost(_) => LosingKept(d, earlier, c, choice);
    case DecideWon => DecidingKept(d, earlier, c, choice);
    case ReadOwnDecision => ReadingOwnKept(d, earlier, c, choice);
    case PublishUse => UsingKept(d, earlier, c, choice);
    case ReadUse => ReadingUseKept(d, earlier, c, choice);
    case GiveBack(_, _) => GivingBackKept(d, earlier, c, choice);
    case PublishClaimFile => PublishingFileKept(d, earlier, c, choice);
    case Done(_) => DoneKept(d, earlier, c, choice);
  }

  lemma DoneKept(d: Dir, earlier: map<Id, Claim>, c: ClaimCall, choice: Choice)
    requires DirInv(d, earlier) && ClaimInv(d, earlier, c)
    requires c.pc.Done?
    ensures StepKept(d, earlier, c, choice)
  {
    hide DirInv, ResultSound;
  }
}
