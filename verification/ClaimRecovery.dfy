/** A claim can always be ended by those entitled to, unless both of its release names are lost. */
module ClaimRecovery {
  import opened PathSets
  import opened Text
  import opened Records
  import opened Directory
  import opened ClaimProtocol
  import opened ClaimInvariant
  import opened ClaimSteps
  import opened ClaimSafety
  import opened ClaimPromises

  /** `n` steps of one release call with nobody else moving. */
  function ReleaseRun(d: Dir, r: ReleaseCall, n: nat): (Dir, ReleaseCall)
    decreases n
  {
    if n == 0 then (d, r) else ReleaseRun(Publish(d, ReleaseWrite(r)), ReleaseNext(d, r), n - 1)
  }

  ghost predicate Ends(d: Dir, r: ReleaseCall, n: nat) {
    var (e, last) := ReleaseRun(d, r, n);
    last.pc.Ended? && last.claim == r.claim && Released(e, r.claim)
  }

  lemma OneMore(d: Dir, r: ReleaseCall, n: nat)
    ensures Ends(Publish(d, ReleaseWrite(r)), ReleaseNext(d, r), n) && ReleaseNext(d, r).claim == r.claim ==> Ends(d, r, n + 1)
  {
    hide ReleaseNext, ReleaseWrite, Publish, Released;
  }

  ghost predicate Endable(d: Dir, claim: Claim) {
    && !Released(d, claim)
    && (claim.id in d.attempts && claim.id in d.decisions ==> d.decisions[claim.id] == Won)
    && !(claim.id in d.firstReleases && claim.id in d.laterReleases)
  }

  lemma EndsNow(d: Dir, r: ReleaseCall)
    requires r.pc.Ended? && Released(d, r.claim)
    ensures Ends(d, r, 0)
  {
    hide Released;
  }

  lemma OwnFirst(d: Dir, r: ReleaseCall, authority: Authority)
    requires r.claim.id == r.claimId && Authoritative(ReleaseRecord(r, authority), r.claim)
    requires r.claimId !in d.firstReleases
    ensures Released(Publish(d, PutFirstRelease(ReleaseRecord(r, authority))), r.claim)
  {
    hide Authoritative;
  }

  lemma OwnLater(d: Dir, r: ReleaseCall, authority: Authority)
    requires r.claim.id == r.claimId && Authoritative(ReleaseRecord(r, authority), r.claim)
    requires r.claimId !in d.laterReleases
    ensures Released(Publish(d, PutLaterRelease(ReleaseRecord(r, authority))), r.claim)
  {
    hide Authoritative;
  }

  lemma PublishEnds(d: Dir, r: ReleaseCall) returns (n: nat)
    requires r.pc.PublishFirst? && r.claim.id == r.claimId && Complete(r.by_) && Authorized(r) == Ok(r.pc.authority)
    requires !Released(d, r.claim) && !(r.claimId in d.firstReleases && r.claimId in d.laterReleases)
    ensures Ends(d, r, n)
  {
    hide Authoritative, Authorized, Ends, Complete, Publish;
    AuthorizedIsAuthoritative(r, r.pc.authority);
    if r.claimId !in d.firstReleases {
      OwnFirst(d, r, r.pc.authority);
      EndsNow(Publish(d, ReleaseWrite(r)), ReleaseNext(d, r));
      OneMore(d, r, 0);
      n := 1;
    } else {
      n := TakenEnds(d, r);
    }
  }

  lemma TakenEnds(d: Dir, r: ReleaseCall) returns (n: nat)
    requires r.pc.PublishFirst? && r.claim.id == r.claimId && Authoritative(ReleaseRecord(r, r.pc.authority), r.claim)
    requires !Released(d, r.claim) && r.claimId in d.firstReleases && r.claimId !in d.laterReleases
    ensures Ends(d, r, n)
  {
    hide Authoritative, Ends, EndedLater;
    var taken := ReleaseNext(d, r);
    var later := ReleaseNext(d, taken);
    assert later.pc == PublishLater(r.pc.authority);
    assert ReleaseRecord(later, r.pc.authority) == ReleaseRecord(r, r.pc.authority);
    OwnLater(d, later, r.pc.authority);
    EndsNow(Publish(d, ReleaseWrite(later)), ReleaseNext(d, later));
    OneMore(d, later, 0);
    OneMore(d, taken, 1);
    OneMore(d, r, 2);
    n := 3;
  }

  lemma DecideEnds(d: Dir, r: ReleaseCall) returns (n: nat)
    requires r.pc.DecideAbandoned? && r.claim.id == r.claimId && Complete(r.by_) && Authorized(r) == Ok(r.pc.authority)
    requires Endable(d, r.claim) && r.claimId in d.attempts
    ensures Ends(d, r, n)
  {
    hide Authoritative, Ends, Authorized, Complete, EndedFirst, EndedLater;
    var e, next := Publish(d, ReleaseWrite(r)), ReleaseNext(d, r);
    SameAuthority(r, next);
    DecidingReleasesNothing(d, r.claim);
    if r.claimId in d.decisions {
      var publish := ReleaseNext(d, next);
      SameAuthority(r, publish);
      n := PublishEnds(d, publish);
      OneMore(d, next, n);
      n := n + 1;
    } else {
      n := PublishEnds(e, next);
    }
    OneMore(d, r, n);
    n := n + 1;
  }

  lemma CheckedEnds(d: Dir, r: ReleaseCall) returns (n: nat)
    requires r.pc.CheckFirst? && r.claim.id == r.claimId && Complete(r.by_) && Authorized(r).Ok?
    requires Endable(d, r.claim) && (r.ordered ==> r.claimId in d.attempts)
    ensures Ends(d, r, n)
  {
    hide Authoritative, Ends, Authorized, Complete, EndedFirst, EndedLater;
    var later := ReleaseNext(d, r);
    SameAuthority(r, later);
    var next := ReleaseNext(d, later);
    SameAuthority(r, next);
    if r.ordered {
      n := DecideEnds(d, next);
    } else {
      n := PublishEnds(d, next);
    }
    OneMore(d, later, n);
    OneMore(d, r, n + 1);
    n := n + 2;
  }

  lemma SameAuthority(r: ReleaseCall, t: ReleaseCall)
    requires t.claim == r.claim && t.by_ == r.by_ && t.note == r.note
    ensures Authorized(t) == Authorized(r)
  {
    hide SameOwner, NonEmpty;
  }

  lemma DecidingReleasesNothing(d: Dir, claim: Claim)
    ensures Released(Publish(d, PutDecision(claim.id, Abandoned)), claim) == Released(d, claim)
  {
    hide Authoritative;
  }

  /** From any reachable state, someone entitled can end an unfinished claim by one call. */
  lemma CanBeEnded(s: State, claim: Claim, by_: Owner, note: string, pid: Pid, names: seq<Id>) returns (events: seq<Event>)
    requires Reachable(s) && pid !in s.procs && forall id :: id in names <==> id in s.dir.claimFiles
    requires Known(s.dir, claim.id) && RecordOf(s.dir, claim.id) == claim
    requires Complete(by_) && Entitled(claim, by_, note) && Endable(s.dir, claim)
    ensures ValidRun(s, events) && Released(Run(s, events).dir, claim)
  {
    hide Reachable, Inv, Entitled, Complete, Endable, Ends, ReleaseRun, Known, RecordOf;
    ReachableInv(s);
    RecordIds(s);
    var r := ReleaseCall(claim.id, by_, note, claim, false, Enter);
    var n := EnterEnds(s.dir, r);
    EndsReleases(s.dir, r, n);
    var started := Apply(s, Start(pid, Releasing(r)));
    var later := RunAlone(started, pid, names, n);
    events := [Start(pid, Releasing(r))] + later;
    assert events[1..] == later;
  }

  lemma EndsReleases(d: Dir, r: ReleaseCall, n: nat)
    requires Ends(d, r, n)
    ensures Released(ReleaseRun(d, r, n).0, r.claim)
  {
  }

  lemma EnterEnds(d: Dir, r: ReleaseCall) returns (n: nat)
    requires r.pc.Enter? && Known(d, r.claimId) && RecordOf(d, r.claimId) == r.claim && r.claim.id == r.claimId
    requires Complete(r.by_) && Entitled(r.claim, r.by_, r.note) && Endable(d, r.claim)
    ensures Ends(d, r, n)
  {
    hide Entitled, Complete, Endable, Ends;
    var attempt := ReleaseNext(d, r);
    var read := ReleaseNext(d, attempt);
    if r.claimId in d.attempts {
      EntitledIsAuthorized(r.claim, read);
      n := CheckedEnds(d, read);
    } else {
      var check := ReleaseNext(d, read);
      EntitledIsAuthorized(r.claim, check);
      n := CheckedEnds(d, check);
      OneMore(d, read, n);
      n := n + 1;
    }
    OneMore(d, attempt, n);
    OneMore(d, r, n + 1);
    n := n + 2;
  }

  lemma RecordIds(s: State)
    requires Inv(s)
    ensures forall id :: Known(s.dir, id) ==> RecordOf(s.dir, id).id == id
  {
    hide Dense, OrderSound, WinnersSound, UsesSound, ProcInv, RecordedKeys;
  }

  lemma EntitledIsAuthorized(claim: Claim, r: ReleaseCall)
    requires r.claim == claim && Complete(r.by_) && Entitled(claim, r.by_, r.note)
    ensures Authorized(r).Ok?
  {
    hide SameOwner, NonEmpty, Complete;
  }

  lemma {:induction false} RunAlone(s: State, pid: Pid, names: seq<Id>, n: nat) returns (events: seq<Event>)
    requires pid in s.procs && s.procs[pid].Releasing?
    requires forall id :: id in names <==> id in s.dir.claimFiles
    ensures ValidRun(s, events)
    ensures var (d, r) := ReleaseRun(s.dir, s.procs[pid].releaseCall, n); Run(s, events) == State(d, s.procs[pid := Releasing(r)], s.earlier)
    decreases n
  {
    hide ReleaseNext, ReleaseWrite, Publish;
    if n == 0 {
      events := [];
    } else {
      var event := Advance(pid, Choice(false, names));
      var t := Apply(s, event);
      QuietRelease(s.dir, s.procs[pid].releaseCall);
      var later := RunAlone(t, pid, names, n - 1);
      events := [event] + later;
      assert events[1..] == later;
    }
  }

  /** And only then: with both names occupied by records that end nothing, no run ever ends it. */
  lemma LostNamesAreFinal(s: State, events: seq<Event>, claim: Claim)
    requires Reachable(s) && ValidRun(s, events) && BothNamesTaken(s.dir, claim)
    ensures !Released(Run(s, events).dir, claim)
  {
    hide Inv, Reachable, ValidRun, Run, Grows, Released;
    ReachableInv(s);
    RunKeeps(s, events);
    FactsStay(s.dir, Run(s, events).dir, claim);
  }
}
