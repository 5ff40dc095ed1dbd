/** The shared coordination directory: tables of write-once names. */
module Directory {
  import opened Text
  import opened Records

  /**
   * `order` holds the hard links in `claims/order`, so an entry is the attempt record itself.
   * `claimFiles` holds the earlier tool's claims and, later, every claim that won.
   */
  datatype Dir = Dir(
    attempts: map<Id, Claim>,
    order: map<nat, Claim>,
    decisions: map<Id, Decision>,
    claimFiles: map<Id, Claim>,
    firstReleases: map<Id, Release>,
    laterReleases: map<Id, Release>,
    handoffs: map<Id, Handoff>,
    uses: map<Id, Id>)

  /** One exclusive publication: a record and the name it goes under. */
  datatype Write =
    | Nothing
    | PutAttempt(claim: Claim)
    | PutOrder(at: nat, claim: Claim)
    | PutDecision(id: Id, decision: Decision)
    | PutClaimFile(claim: Claim)
    | PutFirstRelease(release: Release)
    | PutLaterRelease(release: Release)
    | PutHandoff(handoff: Handoff)
    | PutUse(handoffId: Id, claimId: Id)

  predicate Taken(d: Dir, w: Write) {
    match w
    case Nothing => true
    case PutAttempt(claim) => claim.id in d.attempts
    case PutOrder(at, _) => at in d.order
    case PutDecision(id, _) => id in d.decisions
    case PutClaimFile(claim) => claim.id in d.claimFiles
    case PutFirstRelease(release) => release.claimId in d.firstReleases
    case PutLaterRelease(release) => release.claimId in d.laterReleases
    case PutHandoff(handoff) => handoff.id in d.handoffs
    case PutUse(handoffId, _) => handoffId in d.uses
  }

  function Put(d: Dir, w: Write): Dir {
    match w
    case Nothing => d
    case PutAttempt(claim) => d.(attempts := d.attempts[claim.id := claim])
    case PutOrder(at, claim) => d.(order := d.order[at := claim])
    case PutDecision(id, decision) => d.(decisions := d.decisions[id := decision])
    case PutClaimFile(claim) => d.(claimFiles := d.claimFiles[claim.id := claim])
    case PutFirstRelease(release) => d.(firstReleases := d.firstReleases[release.claimId := release])
    case PutLaterRelease(release) => d.(laterReleases := d.laterReleases[release.claimId := release])
    case PutHandoff(handoff) => d.(handoffs := d.handoffs[handoff.id := handoff])
    case PutUse(handoffId, claimId) => d.(uses := d.uses[handoffId := claimId])
  }

  /** The name appears with complete contents if it was free; a second publisher changes nothing. */
  function Publish(d: Dir, w: Write): Dir {
    if Taken(d, w) then d else Put(d, w)
  }

  /** A release record under the first name, or the later one, that ends `claim`. */
  predicate EndedFirst(d: Dir, claim: Claim) {
    claim.id in d.firstReleases && Authoritative(d.firstReleases[claim.id], claim)
  }

  predicate EndedLater(d: Dir, claim: Claim) {
    claim.id in d.laterReleases && Authoritative(d.laterReleases[claim.id], claim)
  }

  predicate Released(d: Dir, claim: Claim) {
    EndedFirst(d, claim) || EndedLater(d, claim)
  }

  /** Both release names are occupied by records that end nothing. */
  predicate BothNamesTaken(d: Dir, claim: Claim) {
    claim.id in d.firstReleases && claim.id in d.laterReleases && !Released(d, claim)
  }

  predicate HasWon(d: Dir, id: Id) {
    id in d.decisions && d.decisions[id] == Won
  }

  /** Holding its paths now. */
  predicate Active(d: Dir, claim: Claim) {
    HasWon(d, claim.id) && !Released(d, claim)
  }

  /** Lost, abandoned or released: it can never hold its paths again. */
  predicate Finished(d: Dir, claim: Claim) {
    claim.id in d.decisions && (d.decisions[claim.id] == Won ==> Released(d, claim))
  }

  ghost predicate Submap<K(!new), V>(m: map<K, V>, n: map<K, V>) {
    forall k :: k in m ==> k in n && n[k] == m[k]
  }

  /** Nothing published is ever changed or removed. */
  ghost predicate Grows(d: Dir, e: Dir) {
    && Submap(d.attempts, e.attempts) && Submap(d.order, e.order)
    && Submap(d.decisions, e.decisions) && Submap(d.claimFiles, e.claimFiles)
    && Submap(d.firstReleases, e.firstReleases) && Submap(d.laterReleases, e.laterReleases)
    && Submap(d.handoffs, e.handoffs) && Submap(d.uses, e.uses)
  }

  lemma FactsStay(d: Dir, e: Dir, claim: Claim)
    requires Grows(d, e)
    ensures Released(d, claim) ==> Released(e, claim)
    ensures Finished(d, claim) ==> Finished(e, claim)
    ensures BothNamesTaken(d, claim) ==> BothNamesTaken(e, claim)
    ensures HasWon(d, claim.id) ==> HasWon(e, claim.id)
  {
  }

  lemma GrowsTransitive(d: Dir, e: Dir, f: Dir)
    requires Grows(d, e) && Grows(e, f)
    ensures Grows(d, f)
  {
  }

  lemma PutGrows(d: Dir, w: Write)
    requires !Taken(d, w)
    ensures Grows(d, Put(d, w))
  {
    match w
    case PutAttempt(claim) => assert Submap(d.attempts, Put(d, w).attempts);
    case PutOrder(at, claim) => assert Submap(d.order, Put(d, w).order);
    case PutDecision(id, decision) => assert Submap(d.decisions, Put(d, w).decisions);
    case PutClaimFile(claim) => assert Submap(d.claimFiles, Put(d, w).claimFiles);
    case PutFirstRelease(release) => assert Submap(d.firstReleases, Put(d, w).firstReleases);
    case PutLaterRelease(release) => assert Submap(d.laterReleases, Put(d, w).laterReleases);
    case PutHandoff(handoff) => assert Submap(d.handoffs, Put(d, w).handoffs);
    case PutUse(handoffId, claimId) => assert Submap(d.uses, Put(d, w).uses);
  }

  lemma PublishGrows(d: Dir, w: Write)
    ensures Grows(d, Publish(d, w))
  {
    if !Taken(d, w) { PutGrows(d, w); }
  }
}
