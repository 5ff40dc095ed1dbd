/** What every step of every call keeps. */
module ClaimInvariant {
  import opened Text
  import opened Paths
  import opened PathSets
  import opened Records
  import opened Directory
  import opened ClaimProtocol

  // --- the directory ---------------------------------------------------------------------

  ghost predicate Dense(d: Dir) {
    forall n: nat :: n in d.order <==> n < |d.order|
  }

  ghost predicate OrderSound(d: Dir) {
    && (forall n :: n in d.order ==> d.order[n].id in d.attempts && d.attempts[d.order[n].id] == d.order[n])
    && (forall m, n :: m in d.order && n in d.order && d.order[m].id == d.order[n].id ==> m == n)
  }

  ghost predicate RecordsSound(d: Dir, earlier: map<Id, Claim>) {
    && (forall id :: id in d.attempts ==> d.attempts[id].id == id && id !in earlier && RecordedKeys(d.attempts[id].paths).Keyed?)
    && (forall id :: id in earlier ==> id in d.claimFiles && d.claimFiles[id] == earlier[id] && earlier[id].id == id)
    && (forall id :: id in d.claimFiles ==> id in earlier || (id in d.attempts && d.claimFiles[id] == d.attempts[id]))
  }

  ghost predicate Linked(d: Dir, id: Id) {
    exists n :: n in d.order && d.order[n].id == id
  }

  /** Every earlier overlapping attempt below `bound` is over. */
  ghost predicate Scanned(d: Dir, claim: Claim, bound: nat) {
    forall i :: i in d.order && i < bound && Overlap(d.order[i], claim) ==> Finished(d, d.order[i])
  }

  ghost predicate EarlierClear(d: Dir, earlier: map<Id, Claim>, claim: Claim) {
    forall id :: id in earlier && Overlap(earlier[id], claim) ==> Released(d, earlier[id])
  }

  /** A winner is linked, and everything it had to yield to was over when it won. */
  ghost predicate WinnersSound(d: Dir, earlier: map<Id, Claim>) {
    && (forall id :: HasWon(d, id) ==> Linked(d, id))
    && (forall n :: n in d.order && HasWon(d, d.order[n].id) ==>
          Scanned(d, d.order[n], n) && EarlierClear(d, earlier, d.order[n]))
  }

  /** The handoff's record authorizes exactly this claim: its owner, node, base and reduced paths. */
  ghost predicate AuthorizedUse(d: Dir, h: Id, claim: Claim) {
    && h in d.handoffs && CanonicalSet(claim.paths).Ok?
    && Authorizes(d.handoffs[h], h, claim.owner, claim.node, claim.baseSha, CanonicalSet(claim.paths).value)
    && RecordedKeys(claim.paths) == Keyed(Keys(CanonicalSet(claim.paths).value))
  }

  /** Each handoff's recorded user won under it and is what it authorizes. */
  ghost predicate UsesSound(d: Dir) {
    forall h :: h in d.uses ==>
      && HasWon(d, d.uses[h]) && d.uses[h] in d.attempts
      && d.attempts[d.uses[h]].handoffFrom == Some(h) && AuthorizedUse(d, h, d.attempts[d.uses[h]])
  }

  ghost predicate DirInv(d: Dir, earlier: map<Id, Claim>) {
    Dense(d) && OrderSound(d) && RecordsSound(d, earlier) && WinnersSound(d, earlier) && UsesSound(d)
  }

  // --- one release call --------------------------------------------------------------------

  ghost predicate HasRead(d: Dir, r: ReleaseCall) {
    && r.claim.id == r.claimId
    && (if r.ordered then r.claimId in d.attempts && d.attempts[r.claimId] == r.claim
        else r.claimId in d.claimFiles && d.claimFiles[r.claimId] == r.claim)
  }

  ghost predicate MayPublish(d: Dir, r: ReleaseCall, authority: Authority) {
    HasRead(d, r) && Complete(r.by_) && Authorized(r) == Ok(authority)
  }

  ghost predicate ReleaseInv(d: Dir, r: ReleaseCall) {
    match r.pc
    case Enter => true
    case ReadAttempt => Complete(r.by_)
    case ReadClaimFile => Complete(r.by_)
    case CheckFirst => Complete(r.by_) && HasRead(d, r)
    case CheckLater => Complete(r.by_) && HasRead(d, r)
    case DecideAbandoned(authority) => MayPublish(d, r, authority)
    case ReadDecided(authority) => MayPublish(d, r, authority) && r.claimId in d.decisions
    case PublishFirst(authority) => MayPublish(d, r, authority) && (r.ordered ==> r.claimId in d.decisions)
    case ReadFirstTaken(authority) => MayPublish(d, r, authority) && (r.ordered ==> r.claimId in d.decisions) && r.claimId in d.firstReleases
    case PublishLater(authority) =>
      && MayPublish(d, r, authority) && (r.ordered ==> r.claimId in d.decisions)
      && r.claimId in d.firstReleases && !EndedFirst(d, r.claim)
    case ReadLaterTaken => HasRead(d, r) && r.claimId in d.firstReleases && !EndedFirst(d, r.claim) && r.claimId in d.laterReleases
    case Ended(release) => HasRead(d, r) && Authoritative(release, r.claim) && Released(d, r.claim)
    case Threw(AlreadyReleased) => HasRead(d, r) && Released(d, r.claim)
    case Threw(BothTaken) => HasRead(d, r) && BothNamesTaken(d, r.claim)
    case Threw(HoldsNothing(decision)) => HasRead(d, r) && decision != Won && r.claimId in d.decisions && d.decisions[r.claimId] == decision
    case Threw(NotHolder) => HasRead(d, r) && !SameOwner(r.claim.owner, r.by_) && r.by_.role != INTEGRATOR
    case Threw(NeedsReason) => HasRead(d, r) && !SameOwner(r.claim.owner, r.by_) && !NonEmpty(r.note)
    case Threw(IncompleteOwner) => !Complete(r.by_)
    case Threw(NoClaim) => true
  }

  lemma AuthorizedIsAuthoritative(r: ReleaseCall, authority: Authority)
    requires Complete(r.by_) && r.claim.id == r.claimId && Authorized(r) == Ok(authority)
    ensures Authoritative(ReleaseRecord(r, authority), r.claim)
  {
  }

  lemma ReleaseStays(d: Dir, e: Dir, r: ReleaseCall)
    requires Grows(d, e) && ReleaseInv(d, r)
    ensures ReleaseInv(e, r)
  {
  }

  ghost predicate IdsSound(d: Dir) {
    && (forall id :: id in d.attempts ==> d.attempts[id].id == id)
    && (forall id :: id in d.claimFiles ==> d.claimFiles[id].id == id)
  }

  ghost predicate ReleaseKept(d: Dir, r: ReleaseCall) {
    ReleaseInv(Publish(d, ReleaseWrite(r)), ReleaseNext(d, r))
  }

  lemma ReleaseKeptReading(d: Dir, r: ReleaseCall)
    requires IdsSound(d) && ReleaseInv(d, r)
    requires r.pc.Enter? || r.pc.ReadAttempt? || r.pc.ReadClaimFile? || r.pc.CheckFirst? || r.pc.CheckLater?
    ensures ReleaseKept(d, r)
  {
    hide SameOwner, Complete, NonEmpty;
  }

  lemma ReleaseKeptTaken(d: Dir, r: ReleaseCall)
    requires IdsSound(d) && ReleaseInv(d, r)
    requires r.pc.ReadDecided? || r.pc.ReadFirstTaken? || r.pc.ReadLaterTaken? || r.pc.Ended? || r.pc.Threw?
    ensures ReleaseKept(d, r)
  {
    hide SameOwner, Complete, NonEmpty;
  }

  lemma ReleaseKeptDeciding(d: Dir, r: ReleaseCall)
    requires ReleaseInv(d, r) && r.pc.DecideAbandoned?
    ensures ReleaseKept(d, r)
  {
    hide SameOwner, Complete, NonEmpty;
  }

  lemma ReleaseKeptFirst(d: Dir, r: ReleaseCall)
    requires ReleaseInv(d, r) && r.pc.PublishFirst?
    ensures ReleaseKept(d, r)
  {
    hide SameOwner, Complete, NonEmpty;
    AuthorizedIsAuthoritative(r, r.pc.authority);
  }

  lemma ReleaseKeptLater(d: Dir, r: ReleaseCall)
    requires ReleaseInv(d, r) && r.pc.PublishLater?
    ensures ReleaseKept(d, r)
  {
    hide SameOwner, Complete, NonEmpty;
    AuthorizedIsAuthoritative(r, r.pc.authority);
  }

  lemma ReleaseStepKeeps(d: Dir, r: ReleaseCall)
    requires IdsSound(d) && ReleaseInv(d, r)
    ensures ReleaseKept(d, r)
  {
    match r.pc
    case DecideAbandoned(_) => ReleaseKeptDeciding(d, r);
    case PublishFirst(_) => ReleaseKeptFirst(d, r);
    case PublishLater(_) => ReleaseKeptLater(d, r);
    case Enter => ReleaseKeptReading(d, r);
    case ReadAttempt => ReleaseKeptReading(d, r);
    case ReadClaimFile => ReleaseKeptReading(d, r);
    case CheckFirst => ReleaseKeptReading(d, r);
    case CheckLater => ReleaseKeptReading(d, r);
    case _ => ReleaseKeptTaken(d, r);
  }

  // --- one claim call ------------------------------------------------------------------------

  /** The call's scope is the reduced set of its input, so its record is re-read as `Keys(scope)`. */
  ghost predicate Prepared(c: ClaimCall) {
    CanonicalSet(c.input.paths) == Ok(c.scope) && c.scope != []
  }

  ghost predicate HandoffSound(d: Dir, c: ClaimCall, handoff: Handoff) {
    && c.input.handoffFrom == Some(handoff.id)
    && handoff.id in d.handoffs && d.handoffs[handoff.id] == handoff
    && Authorizes(handoff, handoff.id, c.input.owner, c.input.node, c.input.baseSha, c.scope)
  }

  ghost predicate Base(d: Dir, c: ClaimCall) {
    && Prepared(c) && Complete(c.input.owner)
    && (c.handoff.Some? ==> HandoffSound(d, c, c.handoff.value))
  }

  /** The attempt is published by this call and has not won. */
  ghost predicate Trying(d: Dir, c: ClaimCall) {
    && Base(d, c) && c.mine
    && c.id in d.attempts && d.attempts[c.id] == ClaimOf(c)
    && !HasWon(d, c.id)
  }

  ghost predicate InOrder(d: Dir, c: ClaimCall) {
    c.seqNo in d.order && d.order[c.seqNo] == ClaimOf(c)
  }

  /** Everything listed from the earlier tool is still to do, found held, released or disjoint. */
  ghost predicate EarlierSeen(d: Dir, earlier: map<Id, Claim>, claim: Claim, todo: seq<Id>, found: seq<Claim>, current: set<Claim>) {
    forall id :: id in earlier ==>
      || id in todo || earlier[id] in found || earlier[id] in current
      || (Overlap(earlier[id], claim) ==> Released(d, earlier[id]))
  }

  ghost predicate Judging(d: Dir, claim: Claim, seqNo: nat, at: nat, entry: Claim) {
    Scanned(d, claim, at) && at < seqNo && at in d.order && d.order[at] == entry && Overlap(entry, claim)
  }

  /** What the search for a blocking claim has established so far. */
  ghost predicate SearchInv(d: Dir, earlier: map<Id, Claim>, claim: Claim, seqNo: nat, s: SearchPc) {
    match s
    case ListEarlier(last) => last ==> Scanned(d, claim, seqNo)
    case NextEarlier(last, todo, found) =>
      (last ==> Scanned(d, claim, seqNo)) && EarlierSeen(d, earlier, claim, todo, found, {})
    case EarlierFirst(last, current, todo, found) =>
      (last ==> Scanned(d, claim, seqNo)) && EarlierSeen(d, earlier, claim, todo, found, {current})
    case EarlierLater(last, current, todo, found) =>
      (last ==> Scanned(d, claim, seqNo)) && EarlierSeen(d, earlier, claim, todo, found, {current})
    case ReadEntry(at) => at <= seqNo && Scanned(d, claim, at)
    case ReadDecision(at, entry) => Judging(d, claim, seqNo, at, entry)
    case ReadFirst(at, entry) => Judging(d, claim, seqNo, at, entry) && HasWon(d, entry.id)
    case ReadLater(at, entry) => Judging(d, claim, seqNo, at, entry) && HasWon(d, entry.id)
    case Blocked(_) => true
    case Clear => Scanned(d, claim, seqNo) && EarlierClear(d, earlier, claim)
  }

  ghost predicate Winning(d: Dir, c: ClaimCall) {
    && Base(d, c) && c.mine
    && c.id in d.attempts && d.attempts[c.id] == ClaimOf(c)
    && HasWon(d, c.id)
  }

  /** A winner's handoff, if it had one, records this claim as its one user. */
  ghost predicate UsedHandoff(d: Dir, c: ClaimCall) {
    c.handoff.Some? ==> c.handoff.value.id in d.uses && d.uses[c.handoff.value.id] == c.id
  }

  ghost predicate ReadsWinner(r: ReleaseCall) {
    !r.pc.Enter? && !r.pc.ReadAttempt?
  }

  ghost predicate GivingBack(d: Dir, c: ClaimCall, r: ReleaseCall) {
    && Winning(d, c) && ReleaseInv(d, r)
    && r.claimId == c.id && r.by_ == c.input.owner && Complete(r.by_)
    && !r.pc.ReadClaimFile?
    && (ReadsWinner(r) ==> r.claim == ClaimOf(c) && r.ordered)
    && (r.pc.Threw? ==> r.pc.why.AlreadyReleased? || r.pc.why.BothTaken?)
  }

  ghost predicate ResultSound(d: Dir, c: ClaimCall, result: ClaimResult) {
    match result
    case Claimed(claim) => Winning(d, c) && UsedHandoff(d, c) && claim == ClaimOf(c)
    case HandoffSpent(_) => Winning(d, c) && Released(d, ClaimOf(c))
    case GiveBackThrew(why) => Winning(d, c) && (Released(d, ClaimOf(c)) || BothNamesTaken(d, ClaimOf(c)))
    case Held(_) => c.mine && c.id in d.decisions && d.decisions[c.id] != Won
    case EndedBefore(decision) => c.mine && decision != Won && c.id in d.decisions && d.decisions[c.id] == decision
    case _ => !c.mine
  }

  ghost predicate ClaimInv(d: Dir, earlier: map<Id, Claim>, c: ClaimCall) {
    && (c.mine ==> c.id in d.attempts) && c.id !in earlier
    && (match c.pc
        case Begin => !c.mine && c.handoff.None?
        case ReadHandoff(handoffId) => !c.mine && Base(d, c) && c.handoff.None? && c.input.handoffFrom == Some(handoffId)
        case ReadHandoffUse(handoff) => !c.mine && Base(d, c) && c.handoff.None? && HandoffSound(d, c, handoff)
        case PublishAttempt => !c.mine && Base(d, c)
        case ListOrder => Trying(d, c) && !Linked(d, c.id)
        case LinkOrder(next) => Trying(d, c) && !Linked(d, c.id) && next <= |d.order|
        case Search(search) =>
          && Trying(d, c) && InOrder(d, c) && SearchInv(d, earlier, ClaimOf(c), c.seqNo, search)
          && !search.Blocked? && !search.Clear?
        case DecideLost(_) => Trying(d, c) && InOrder(d, c)
        case DecideWon => Trying(d, c) && InOrder(d, c) && SearchInv(d, earlier, ClaimOf(c), c.seqNo, Clear)
        case ReadOwnDecision => Trying(d, c) && InOrder(d, c) && c.id in d.decisions
        case PublishUse => Winning(d, c) && c.handoff.Some?
        case ReadUse => Winning(d, c) && c.handoff.Some? && c.handoff.value.id in d.uses
        case GiveBack(_, release) => GivingBack(d, c, release)
        case PublishClaimFile => Winning(d, c) && UsedHandoff(d, c)
        case Done(result) => ResultSound(d, c, result))
  }

  // --- what one call's step leaves to the others -------------------------------------------------

  /** Growth that neither links nor elects the attempt `id`. */
  ghost predicate Rely(d: Dir, e: Dir, id: Id) {
    && Grows(d, e)
    && (Linked(e, id) ==> Linked(d, id))
    && (HasWon(e, id) ==> HasWon(d, id))
    && |d.order| <= |e.order|
  }

  lemma ScannedStays(d: Dir, e: Dir, claim: Claim, bound: nat)
    requires Grows(d, e) && Scanned(d, claim, bound) && Dense(d) && bound <= |d.order|
    ensures Scanned(e, claim, bound)
  {
    hide Overlap, Released;
    forall i | i in e.order && i < bound && Overlap(e.order[i], claim) ensures Finished(e, e.order[i]) {
      assert i in d.order;
      FactsStay(d, e, d.order[i]);
    }
  }

  lemma EarlierStays(d: Dir, e: Dir, earlier: map<Id, Claim>, claim: Claim, todo: seq<Id>, found: seq<Claim>, current: set<Claim>)
    requires Grows(d, e) && EarlierSeen(d, earlier, claim, todo, found, current)
    ensures EarlierSeen(e, earlier, claim, todo, found, current)
  {
    hide Overlap, Released;
    forall id | id in earlier ensures Released(d, earlier[id]) ==> Released(e, earlier[id]) {
      FactsStay(d, e, earlier[id]);
    }
  }

  lemma ClearStays(d: Dir, e: Dir, earlier: map<Id, Claim>, claim: Claim)
    requires Grows(d, e) && EarlierClear(d, earlier, claim)
    ensures EarlierClear(e, earlier, claim)
  {
    hide Overlap, Released;
    forall id | id in earlier && Overlap(earlier[id], claim) ensures Released(e, earlier[id]) {
      FactsStay(d, e, earlier[id]);
    }
  }

  /** What a search has established is never undone. */
  lemma SearchStays(d: Dir, e: Dir, earlier: map<Id, Claim>, claim: Claim, seqNo: nat, s: SearchPc)
    requires Dense(d) && seqNo <= |d.order| && Grows(d, e) && SearchInv(d, earlier, claim, seqNo, s)
    ensures SearchInv(e, earlier, claim, seqNo, s)
  {
    hide Dense, Overlap, Released, Finished, Scanned, EarlierSeen, EarlierClear;
    match s
    case ListEarlier(last) => if last { ScannedStays(d, e, claim, seqNo); }
    case NextEarlier(last, todo, found) =>
      if last { ScannedStays(d, e, claim, seqNo); }
      EarlierStays(d, e, earlier, claim, todo, found, {});
    case EarlierFirst(last, current, todo, found) =>
      if last { ScannedStays(d, e, claim, seqNo); }
      EarlierStays(d, e, earlier, claim, todo, found, {current});
    case EarlierLater(last, current, todo, found) =>
      if last { ScannedStays(d, e, claim, seqNo); }
      EarlierStays(d, e, earlier, claim, todo, found, {current});
    case ReadEntry(at) => ScannedStays(d, e, claim, at);
    case ReadDecision(at, _) => ScannedStays(d, e, claim, at);
    case ReadFirst(at, _) => ScannedStays(d, e, claim, at);
    case ReadLater(at, _) => ScannedStays(d, e, claim, at);
    case Blocked(_) =>
    case Clear =>
      ScannedStays(d, e, claim, seqNo);
      ClearStays(d, e, earlier, claim);
  }

  lemma TryingStays(d: Dir, e: Dir, c: ClaimCall)
    requires Grows(d, e) && (c.mine ==> Rely(d, e, c.id))
    ensures Base(d, c) ==> Base(e, c)
    ensures Trying(d, c) ==> Trying(e, c)
    ensures Trying(d, c) && InOrder(d, c) ==> InOrder(e, c)
    ensures Winning(d, c) ==> Winning(e, c)
    ensures UsedHandoff(d, c) ==> UsedHandoff(e, c)
  {
    hide Authorizes, CanonicalSet, Complete;
  }

  lemma BelowOrder(d: Dir, c: ClaimCall)
    requires Dense(d) && InOrder(d, c)
    ensures c.seqNo <= |d.order|
  {
  }

  /** No step of another call disturbs what this one knows. */
  lemma ClaimStays(d: Dir, e: Dir, earlier: map<Id, Claim>, c: ClaimCall)
    requires Dense(d) && Grows(d, e) && (c.mine ==> Rely(d, e, c.id)) && ClaimInv(d, earlier, c)
    ensures ClaimInv(e, earlier, c)
  {
    hide Authorizes, CanonicalSet, ReleaseInv, SearchInv, ClaimOf, Base, Released, BothNamesTaken, InOrder, Dense;
    TryingStays(d, e, c);
    FactsStay(d, e, ClaimOf(c));
    if c.pc.Search? { BelowOrder(d, c); SearchStays(d, e, earlier, ClaimOf(c), c.seqNo, c.pc.search); }
    if c.pc.DecideWon? { BelowOrder(d, c); SearchStays(d, e, earlier, ClaimOf(c), c.seqNo, Clear); }
    if c.pc.GiveBack? { ReleaseStays(d, e, c.pc.release); }
  }

  // --- the directory after one write ---------------------------------------------------------------

  /** Growth that elects nobody keeps the winners sound. */
  lemma WinnersStay(d: Dir, e: Dir, earlier: map<Id, Claim>)
    requires Dense(d) && WinnersSound(d, earlier) && Grows(d, e) && Dense(e)
    requires forall id :: HasWon(e, id) ==> HasWon(d, id)
    requires forall n :: n in e.order && n !in d.order ==> !HasWon(e, e.order[n].id)
    ensures WinnersSound(e, earlier)
  {
    hide Overlap, Released, Finished;
    forall id | HasWon(e, id) ensures Linked(e, id) {
      var n :| n in d.order && d.order[n].id == id;
      assert n in e.order;
    }
    forall n | n in e.order && HasWon(e, e.order[n].id) ensures Scanned(e, e.order[n], n) && EarlierClear(e, earlier, e.order[n]) {
      assert n in d.order;
      ScannedStays(d, e, d.order[n], n);
      ClearStays(d, e, earlier, d.order[n]);
    }
  }

  lemma OrderStays(d: Dir, e: Dir)
    requires Dense(d) && OrderSound(d) && Grows(d, e) && e.order == d.order
    ensures Dense(e) && OrderSound(e)
  {
  }

  lemma RecordsStay(d: Dir, e: Dir, earlier: map<Id, Claim>)
    requires RecordsSound(d, earlier) && e.attempts == d.attempts && e.claimFiles == d.claimFiles
    ensures RecordsSound(e, earlier)
  {
  }

  lemma UsesStay(d: Dir, e: Dir)
    requires UsesSound(d) && Grows(d, e) && e.uses == d.uses
    ensures UsesSound(e)
  {
    hide Authorizes, CanonicalSet, RecordedKeys;
  }

  /** A write to the decisions or releases that elects nobody. */
  lemma DirKeptQuiet(d: Dir, e: Dir, earlier: map<Id, Claim>)
    requires DirInv(d, earlier) && Grows(d, e)
    requires e.attempts == d.attempts && e.order == d.order && e.claimFiles == d.claimFiles && e.uses == d.uses
    requires forall id :: HasWon(e, id) ==> HasWon(d, id)
    ensures DirInv(e, earlier)
  {
    hide Dense, OrderSound, RecordsSound, WinnersSound, UsesSound, Grows;
    OrderStays(d, e);
    RecordsStay(d, e, earlier);
    UsesStay(d, e);
    WinnersStay(d, e, earlier);
  }

  lemma RecordsGainAttempt(d: Dir, earlier: map<Id, Claim>, claim: Claim)
    requires RecordsSound(d, earlier) && claim.id !in d.attempts && claim.id !in earlier && RecordedKeys(claim.paths).Keyed?
    ensures RecordsSound(Put(d, PutAttempt(claim)), earlier)
  {
    hide RecordedKeys;
  }

  lemma RecordsGainFile(d: Dir, earlier: map<Id, Claim>, claim: Claim)
    requires RecordsSound(d, earlier) && claim.id in d.attempts && d.attempts[claim.id] == claim && claim.id !in d.claimFiles
    ensures RecordsSound(Put(d, PutClaimFile(claim)), earlier)
  {
    hide RecordedKeys;
  }

  lemma DirKeptAttempt(d: Dir, earlier: map<Id, Claim>, claim: Claim)
    requires DirInv(d, earlier) && claim.id !in d.attempts && claim.id !in earlier && RecordedKeys(claim.paths).Keyed?
    ensures DirInv(Put(d, PutAttempt(claim)), earlier)
  {
    hide Dense, OrderSound, RecordsSound, WinnersSound, UsesSound, Grows;
    var e := Put(d, PutAttempt(claim));
    PutGrows(d, PutAttempt(claim));
    OrderStays(d, e);
    RecordsGainAttempt(d, earlier, claim);
    UsesStay(d, e);
    WinnersStay(d, e, earlier);
  }

  lemma OrderExtends(d: Dir, next: nat, claim: Claim)
    requires Dense(d) && OrderSound(d) && next !in d.order && next <= |d.order|
    requires claim.id in d.attempts && d.attempts[claim.id] == claim && !Linked(d, claim.id)
    ensures var e := Put(d, PutOrder(next, claim));
            Dense(e) && OrderSound(e) && next == |d.order| && |e.order| == next + 1
  {
    var e := Put(d, PutOrder(next, claim));
    assert |e.order| == |d.order| + 1;
  }

  lemma DirKeptOrder(d: Dir, earlier: map<Id, Claim>, next: nat, claim: Claim)
    requires DirInv(d, earlier) && next !in d.order && next <= |d.order|
    requires claim.id in d.attempts && d.attempts[claim.id] == claim && !Linked(d, claim.id) && !HasWon(d, claim.id)
    ensures DirInv(Put(d, PutOrder(next, claim)), earlier)
    ensures next == |d.order| && |Put(d, PutOrder(next, claim)).order| == next + 1
  {
    hide Dense, OrderSound, RecordsSound, WinnersSound, UsesSound, Grows;
    var e := Put(d, PutOrder(next, claim));
    PutGrows(d, PutOrder(next, claim));
    OrderExtends(d, next, claim);
    RecordsStay(d, e, earlier);
    UsesStay(d, e);
    WinnersStay(d, e, earlier);
  }

  lemma WinnersGain(d: Dir, earlier: map<Id, Claim>, at: nat)
    requires Dense(d) && OrderSound(d) && WinnersSound(d, earlier) && at in d.order && d.order[at].id !in d.decisions
    requires Scanned(d, d.order[at], at) && EarlierClear(d, earlier, d.order[at])
    ensures WinnersSound(Put(d, PutDecision(d.order[at].id, Won)), earlier)
  {
    hide Scanned, EarlierClear, Grows;
    var claim := d.order[at];
    var e := Put(d, PutDecision(claim.id, Won));
    PutGrows(d, PutDecision(claim.id, Won));
    forall n | n in e.order && HasWon(e, e.order[n].id) ensures Scanned(e, e.order[n], n) && EarlierClear(e, earlier, e.order[n]) {
      assert n == at || HasWon(d, d.order[n].id);
      ScannedStays(d, e, d.order[n], n);
      ClearStays(d, e, earlier, d.order[n]);
    }
    forall id | HasWon(e, id) ensures Linked(e, id) {
      assert id == claim.id || HasWon(d, id);
      assert e.order[at].id == claim.id;
    }
  }

  lemma DirKeptWin(d: Dir, earlier: map<Id, Claim>, at: nat)
    requires DirInv(d, earlier) && at in d.order && d.order[at].id !in d.decisions
    requires Scanned(d, d.order[at], at) && EarlierClear(d, earlier, d.order[at])
    ensures DirInv(Put(d, PutDecision(d.order[at].id, Won)), earlier)
  {
    hide Dense, OrderSound, RecordsSound, WinnersSound, UsesSound, Grows, Scanned, EarlierClear;
    var e := Put(d, PutDecision(d.order[at].id, Won));
    PutGrows(d, PutDecision(d.order[at].id, Won));
    OrderStays(d, e);
    RecordsStay(d, e, earlier);
    UsesStay(d, e);
    WinnersGain(d, earlier, at);
  }

  lemma DirKeptClaimFile(d: Dir, earlier: map<Id, Claim>, claim: Claim)
    requires DirInv(d, earlier) && claim.id in d.attempts && d.attempts[claim.id] == claim && claim.id !in d.claimFiles
    ensures DirInv(Put(d, PutClaimFile(claim)), earlier)
  {
    hide Dense, OrderSound, RecordsSound, WinnersSound, UsesSound, Grows;
    var e := Put(d, PutClaimFile(claim));
    PutGrows(d, PutClaimFile(claim));
    OrderStays(d, e);
    RecordsGainFile(d, earlier, claim);
    UsesStay(d, e);
    WinnersStay(d, e, earlier);
  }

  lemma UsesGain(d: Dir, handoffId: Id, claim: Claim)
    requires UsesSound(d) && handoffId !in d.uses
    requires HasWon(d, claim.id) && claim.id in d.attempts && d.attempts[claim.id] == claim && claim.handoffFrom == Some(handoffId)
    requires AuthorizedUse(d, handoffId, claim)
    ensures UsesSound(Put(d, PutUse(handoffId, claim.id)))
  {
    hide Authorizes, CanonicalSet, RecordedKeys;
  }

  lemma DirKeptUse(d: Dir, earlier: map<Id, Claim>, handoffId: Id, claim: Claim)
    requires DirInv(d, earlier) && handoffId !in d.uses
    requires HasWon(d, claim.id) && claim.id in d.attempts && d.attempts[claim.id] == claim && claim.handoffFrom == Some(handoffId)
    requires AuthorizedUse(d, handoffId, claim)
    ensures DirInv(Put(d, PutUse(handoffId, claim.id)), earlier)
  {
    hide Dense, OrderSound, RecordsSound, WinnersSound, UsesSound, Grows, AuthorizedUse;
    var e := Put(d, PutUse(handoffId, claim.id));
    PutGrows(d, PutUse(handoffId, claim.id));
    OrderStays(d, e);
    RecordsStay(d, e, earlier);
    UsesGain(d, handoffId, claim);
    WinnersStay(d, e, earlier);
  }
}
