/**
 * The directory as an object, with `claimPaths`, `releaseClaim` and their parts in the form they
 * are written. Each is proved to be an uninterrupted run of the step-by-step protocol.
 */
module Rendezvous {
  import opened Text
  import opened Paths
  import opened PathSets
  import opened Records
  import opened Directory
  import opened ClaimProtocol
  import opened ClaimRecovery

  // --- uninterrupted runs ---------------------------------------------------------------------

  /** Running the release call `r` on `d`, with nobody else moving, leads to `last` on `e`. */
  ghost predicate Releases(d: Dir, r: ReleaseCall, e: Dir, last: ReleaseCall) {
    exists n: nat :: ReleaseRun(d, r, n) == (e, last)
  }

  lemma ReleasesNow(d: Dir, r: ReleaseCall)
    ensures Releases(d, r, d, r)
  {
    assert ReleaseRun(d, r, 0) == (d, r);
  }

  lemma {:induction false} RunOnce(d: Dir, r: ReleaseCall, n: nat)
    ensures var (e, t) := ReleaseRun(d, r, n);
            ReleaseRun(d, r, n + 1) == (Publish(e, ReleaseWrite(t)), ReleaseNext(e, t))
    decreases n
  {
    hide ReleaseNext, ReleaseWrite, Publish;
    if n == 0 {
      assert ReleaseRun(Publish(d, ReleaseWrite(r)), ReleaseNext(d, r), 0) == (Publish(d, ReleaseWrite(r)), ReleaseNext(d, r));
    } else {
      RunOnce(Publish(d, ReleaseWrite(r)), ReleaseNext(d, r), n - 1);
    }
  }

  lemma ReleasesStep(d: Dir, r: ReleaseCall, e: Dir, t: ReleaseCall)
    requires Releases(d, r, e, t)
    ensures Releases(d, r, Publish(e, ReleaseWrite(t)), ReleaseNext(e, t))
  {
    hide ReleaseRun, ReleaseNext, ReleaseWrite, Publish;
    var n: nat :| ReleaseRun(d, r, n) == (e, t);
    RunOnce(d, r, n);
  }

  /** The call, run from `start`, has stopped with the outcome `r`. */
  ghost predicate Stopped(d: Dir, start: ReleaseCall, e: Dir, r: Result<Release, Refused>) {
    exists last :: Releases(d, start, e, last) && last.pc == (match r case Ok(release) => Ended(release) case Err(why) => Threw(why))
  }

  lemma StopsHere(d: Dir, start: ReleaseCall, e: Dir, last: ReleaseCall)
    requires Releases(d, start, e, last)
    ensures last.pc.Ended? ==> Stopped(d, start, e, Ok(last.pc.release))
    ensures last.pc.Threw? ==> Stopped(d, start, e, Err(last.pc.why))
  {
    hide Releases;
  }

  function SearchRun(d: Dir, seqNo: nat, wanted: seq<string>, s: SearchPc, choice: Choice, n: nat): SearchPc
    decreases n
  {
    if n == 0 then s else SearchNext(d, seqNo, wanted, SearchRun(d, seqNo, wanted, s, choice, n - 1), choice)
  }

  ghost predicate Searches(d: Dir, seqNo: nat, wanted: seq<string>, choice: Choice, s: SearchPc, t: SearchPc) {
    exists n: nat :: SearchRun(d, seqNo, wanted, s, choice, n) == t
  }

  lemma SearchesNow(d: Dir, seqNo: nat, wanted: seq<string>, choice: Choice, s: SearchPc)
    ensures Searches(d, seqNo, wanted, choice, s, s)
  {
    assert SearchRun(d, seqNo, wanted, s, choice, 0) == s;
  }

  lemma SearchesStep(d: Dir, seqNo: nat, wanted: seq<string>, choice: Choice, s: SearchPc, t: SearchPc)
    requires Searches(d, seqNo, wanted, choice, s, t)
    ensures Searches(d, seqNo, wanted, choice, s, SearchNext(d, seqNo, wanted, t, choice))
  {
    hide SearchNext;
    var n: nat :| SearchRun(d, seqNo, wanted, s, choice, n) == t;
    assert SearchRun(d, seqNo, wanted, s, choice, n + 1) == SearchNext(d, seqNo, wanted, t, choice);
  }

  function ClaimRun(d: Dir, c: ClaimCall, choice: Choice, n: nat): (Dir, ClaimCall)
    decreases n
  {
    if n == 0 then (d, c)
    else
      var (e, t) := ClaimRun(d, c, choice, n - 1);
      (Publish(e, ClaimWrite(t)), ClaimNext(e, t, choice))
  }

  /** Running the claim call `c` on `d`, with nobody else moving, leads to `last` on `e`. */
  ghost predicate Claims(d: Dir, c: ClaimCall, choice: Choice, e: Dir, last: ClaimCall) {
    exists n: nat :: ClaimRun(d, c, choice, n) == (e, last)
  }

  lemma ClaimsNow(d: Dir, c: ClaimCall, choice: Choice)
    ensures Claims(d, c, choice, d, c)
  {
    assert ClaimRun(d, c, choice, 0) == (d, c);
  }

  lemma ClaimsStep(d: Dir, c: ClaimCall, choice: Choice, e: Dir, t: ClaimCall)
    requires Claims(d, c, choice, e, t)
    ensures Claims(d, c, choice, Publish(e, ClaimWrite(t)), ClaimNext(e, t, choice))
  {
    hide ClaimNext, ClaimWrite, Publish;
    var n: nat :| ClaimRun(d, c, choice, n) == (e, t);
    assert ClaimRun(d, c, choice, n + 1) == (Publish(e, ClaimWrite(t)), ClaimNext(e, t, choice));
  }

  /** A finished search takes the call that runs it to its decision. */
  lemma {:induction false} SearchingClaims(d: Dir, c: ClaimCall, choice: Choice, e: Dir, t: ClaimCall, n: nat)
    requires Claims(d, c, choice, e, t) && t.pc == Search(ListEarlier(false))
    ensures var found := SearchRun(e, t.seqNo, Keys(t.scope), ListEarlier(false), choice, n);
            Claims(d, c, choice, e, t.(pc := AfterSearch(found)))
    decreases n
  {
    hide SearchNext, Claims, Keys;
    if n == 0 {
      assert t.(pc := Search(ListEarlier(false))) == t;
    } else {
      SearchingClaims(d, c, choice, e, t, n - 1);
      var before := SearchRun(e, t.seqNo, Keys(t.scope), ListEarlier(false), choice, n - 1);
      if before.Blocked? || before.Clear? {
        OverStays(e, t.seqNo, Keys(t.scope), before, choice);
      } else {
        ClaimsStep(d, c, choice, e, t.(pc := Search(before)));
      }
    }
  }

  lemma OverStays(d: Dir, seqNo: nat, wanted: seq<string>, s: SearchPc, choice: Choice)
    requires s.Blocked? || s.Clear?
    ensures SearchNext(d, seqNo, wanted, s, choice) == s
  {
  }

  lemma SearchedClaims(d: Dir, c: ClaimCall, choice: Choice, e: Dir, t: ClaimCall, found: SearchPc)
    requires Claims(d, c, choice, e, t) && t.pc == Search(ListEarlier(false))
    requires Searches(e, t.seqNo, Keys(t.scope), choice, ListEarlier(false), found)
    ensures Claims(d, c, choice, e, t.(pc := AfterSearch(found)))
  {
    hide SearchRun, Claims, Keys;
    var n: nat :| SearchRun(e, t.seqNo, Keys(t.scope), ListEarlier(false), choice, n) == found;
    SearchingClaims(d, c, choice, e, t, n);
  }

  /** A claim giving its paths back runs the release call it holds. */
  lemma {:induction false} GivingBackClaims(d: Dir, c: ClaimCall, choice: Choice, e: Dir, t: ClaimCall, n: nat)
    requires Claims(d, c, choice, e, t) && t.pc.GiveBack?
    ensures var (f, last) := ReleaseRun(e, t.pc.release, n);
            Claims(d, c, choice, f, t.(pc := GiveBack(t.pc.user, last)))
    decreases n
  {
    hide ReleaseNext, ReleaseWrite, Publish, Claims;
    if n == 0 {
      assert t.(pc := GiveBack(t.pc.user, t.pc.release)) == t;
    } else {
      GivingBackClaims(d, c, choice, e, t, n - 1);
      RunOnce(e, t.pc.release, n - 1);
      var (f, before) := ReleaseRun(e, t.pc.release, n - 1);
      if before.pc.Ended? || before.pc.Threw? {
        EndedStays(f, before);
      } else {
        ClaimsStep(d, c, choice, f, t.(pc := GiveBack(t.pc.user, before)));
      }
    }
  }

  lemma EndedStays(d: Dir, r: ReleaseCall)
    requires r.pc.Ended? || r.pc.Threw?
    ensures Publish(d, ReleaseWrite(r)) == d && ReleaseNext(d, r) == r
  {
  }

  lemma GaveBackClaims(d: Dir, c: ClaimCall, choice: Choice, e: Dir, t: ClaimCall, f: Dir, last: ReleaseCall)
    requires Claims(d, c, choice, e, t) && t.pc.GiveBack? && Releases(e, t.pc.release, f, last)
    ensures Claims(d, c, choice, f, t.(pc := GiveBack(t.pc.user, last)))
  {
    hide ReleaseRun, Claims;
    var n: nat :| ReleaseRun(e, t.pc.release, n) == (f, last);
    GivingBackClaims(d, c, choice, e, t, n);
  }

  // --- the parts of a search --------------------------------------------------------------------

  datatype Outcome = StillHeld | DoneWith | StillUndecided

  /** How an entry stands, read at one moment. */
  function OutcomeOf(d: Dir, entry: Claim): Outcome {
    if Finished(d, entry) then DoneWith else if HasWon(d, entry.id) then StillHeld else StillUndecided
  }

  function AfterOutcome(d: Dir, at: nat, entry: Claim): SearchPc {
    match OutcomeOf(d, entry)
    case DoneWith => ReadEntry(at + 1)
    case StillHeld => Blocked(HeldBy(entry))
    case StillUndecided => Blocked(Undecided(entry))
  }

  lemma ListStep(d: Dir, seqNo: nat, wanted: seq<string>, choice: Choice, s: SearchPc, last: bool)
    requires Searches(d, seqNo, wanted, choice, s, ListEarlier(last))
    ensures Searches(d, seqNo, wanted, choice, s, NextEarlier(last, choice.names, []))
  {
    hide Searches;
    SearchesStep(d, seqNo, wanted, choice, s, ListEarlier(last));
  }

  lemma EarlierStep(d: Dir, seqNo: nat, wanted: seq<string>, choice: Choice, s: SearchPc, last: bool, todo: seq<Id>, found: seq<Claim>)
    requires todo != [] && Searches(d, seqNo, wanted, choice, s, NextEarlier(last, todo, found))
    ensures var skip := todo[0] in d.attempts || todo[0] !in d.claimFiles || Released(d, d.claimFiles[todo[0]]);
            Searches(d, seqNo, wanted, choice, s, NextEarlier(last, todo[1..], if skip then found else found + [d.claimFiles[todo[0]]]))
  {
    hide Searches, EndedFirst, EndedLater;
    SearchesStep(d, seqNo, wanted, choice, s, NextEarlier(last, todo, found));
    if !(todo[0] in d.attempts || todo[0] !in d.claimFiles) {
      var claim := d.claimFiles[todo[0]];
      SearchesStep(d, seqNo, wanted, choice, s, EarlierFirst(last, claim, todo[1..], found));
      if !EndedFirst(d, claim) {
        SearchesStep(d, seqNo, wanted, choice, s, EarlierLater(last, claim, todo[1..], found));
      }
    }
  }

  lemma VerdictStep(d: Dir, seqNo: nat, wanted: seq<string>, choice: Choice, s: SearchPc, last: bool, found: seq<Claim>)
    requires Searches(d, seqNo, wanted, choice, s, NextEarlier(last, [], found))
    ensures Searches(d, seqNo, wanted, choice, s, EarlierVerdict(wanted, last, found))
  {
    hide Searches, EarlierVerdict;
    SearchesStep(d, seqNo, wanted, choice, s, NextEarlier(last, [], found));
  }

  lemma EntryStep(d: Dir, seqNo: nat, wanted: seq<string>, choice: Choice, s: SearchPc, at: nat)
    requires Searches(d, seqNo, wanted, choice, s, ReadEntry(at))
    ensures Searches(d, seqNo, wanted, choice, s,
              if at >= seqNo then ListEarlier(true)
              else if at !in d.order then Blocked(MissingEntry(at))
              else if OverlapsAny(RecordedKeys(d.order[at].paths), wanted) then ReadDecision(at, d.order[at])
              else ReadEntry(at + 1))
  {
    hide Searches, OverlapsAny, RecordedKeys;
    SearchesStep(d, seqNo, wanted, choice, s, ReadEntry(at));
  }

  lemma OutcomeStep(d: Dir, seqNo: nat, wanted: seq<string>, choice: Choice, s: SearchPc, at: nat, entry: Claim)
    requires choice.timeout && Searches(d, seqNo, wanted, choice, s, ReadDecision(at, entry))
    ensures Searches(d, seqNo, wanted, choice, s, AfterOutcome(d, at, entry))
  {
    hide Searches, EndedFirst, EndedLater;
    SearchesStep(d, seqNo, wanted, choice, s, ReadDecision(at, entry));
    if HasWon(d, entry.id) {
      SearchesStep(d, seqNo, wanted, choice, s, ReadFirst(at, entry));
      if !EndedFirst(d, entry) { SearchesStep(d, seqNo, wanted, choice, s, ReadLater(at, entry)); }
    }
  }

  // --- the parts of a claim ---------------------------------------------------------------------

  function FreshCall(input: ClaimInput, id: Id): ClaimCall {
    ClaimCall(input, id, [], None, false, 0, Begin)
  }

  /** The call, run from `start`, has stopped with `result`. */
  ghost predicate Concluded(d: Dir, start: ClaimCall, choice: Choice, e: Dir, result: ClaimResult) {
    exists last :: Claims(d, start, choice, e, last) && last.pc == Done(result)
  }

  lemma ConcludesHere(d: Dir, start: ClaimCall, choice: Choice, e: Dir, last: ClaimCall)
    requires Claims(d, start, choice, e, last) && last.pc.Done?
    ensures Concluded(d, start, choice, e, last.pc.result)
  {
    hide Claims;
  }

  /** A step that publishes nothing. */
  lemma ReadStep(d: Dir, c: ClaimCall, choice: Choice, e: Dir, t: ClaimCall)
    requires Claims(d, c, choice, e, t) && ClaimWrite(t).Nothing?
    ensures Claims(d, c, choice, e, ClaimNext(e, t, choice))
  {
    hide Claims, ClaimNext, ClaimWrite;
    ClaimsStep(d, c, choice, e, t);
  }

  lemma {:induction false} LinkingClaims(d: Dir, c: ClaimCall, choice: Choice, e: Dir, t: ClaimCall, seqNo: nat)
    requires Claims(d, c, choice, e, t) && t.pc.LinkOrder? && t.pc.next <= seqNo && seqNo !in e.order
    requires forall n: nat :: t.pc.next <= n < seqNo ==> n in e.order
    ensures Claims(d, c, choice, Publish(e, PutOrder(seqNo, ClaimOf(t))), t.(seqNo := seqNo, pc := Search(ListEarlier(false))))
    decreases seqNo - t.pc.next
  {
    hide Claims, ClaimOf;
    ClaimsStep(d, c, choice, e, t);
    if t.pc.next < seqNo {
      var next := t.(pc := LinkOrder(t.pc.next + 1));
      LinkingClaims(d, c, choice, e, next, seqNo);
      assert next.(seqNo := seqNo, pc := Search(ListEarlier(false))) == t.(seqNo := seqNo, pc := Search(ListEarlier(false)));
      SameClaim(t, next);
    }
  }

  lemma SameClaim(a: ClaimCall, b: ClaimCall)
    requires a.id == b.id && a.input == b.input && a.scope == b.scope && a.handoff == b.handoff
    ensures ClaimOf(a) == ClaimOf(b)
  {
  }

  lemma AuthorizesById(handoff: Handoff, handoffId: Id, owner: Owner, node: string, baseSha: string, scope: seq<CanonicalPath>)
    requires Authorizes(handoff, handoffId, owner, node, baseSha, scope)
    ensures handoff.id == handoffId
  {
    hide SameOwner, Complete, CanonicalSet, SameScope;
  }

  predicate Unusable(input: ClaimInput, reduced: Result<seq<CanonicalPath>, Refusal>) {
    !Complete(input.owner) || !NonEmpty(input.node) || !NonEmpty(input.baseSha) || reduced.Err? || reduced.value == [] || Unlockable(reduced.value)
  }

  lemma BeganClaims(d: Dir, choice: Choice, input: ClaimInput, id: Id)
    ensures var reduced, c := CanonicalSet(input.paths), FreshCall(input, id);
            Claims(d, c, choice, d,
              if Unusable(input, reduced) then c.(pc := Done(InvalidInput))
              else if input.handoffFrom.Some? then c.(scope := reduced.value, pc := ReadHandoff(input.handoffFrom.value))
              else CheckHot(c.(scope := reduced.value)))
  {
    hide Claims, CanonicalSet, Complete, NonEmpty, Unlockable, CheckHot;
    ClaimsNow(d, FreshCall(input, id), choice);
    ReadStep(d, FreshCall(input, id), choice, d, FreshCall(input, id));
  }

  predicate Applicable(d: Dir, handoffId: Id, owner: Owner, node: string, baseSha: string, scope: seq<CanonicalPath>) {
    handoffId in d.handoffs && Authorizes(d.handoffs[handoffId], handoffId, owner, node, baseSha, scope) && handoffId !in d.uses
  }

  lemma HandoffClaims(d: Dir, c: ClaimCall, choice: Choice, t: ClaimCall)
    requires Claims(d, c, choice, d, t) && t.pc.ReadHandoff?
    ensures var handoffId := t.pc.handoffId;
            if Applicable(d, handoffId, t.input.owner, t.input.node, t.input.baseSha, t.scope)
            then Claims(d, c, choice, d, t.(handoff := Some(d.handoffs[handoffId]), pc := PublishAttempt))
            else Claims(d, c, choice, d, t.(pc := Done(HandoffInvalid)))
  {
    hide Claims, Authorizes, AnyHot;
    ReadStep(d, c, choice, d, t);
    var read := ClaimNext(d, t, choice);
    if read.pc.ReadHandoffUse? {
      AuthorizesById(read.pc.handoff, t.pc.handoffId, t.input.owner, t.input.node, t.input.baseSha, t.scope);
      ReadStep(d, c, choice, d, read);
    }
  }

  lemma PutAttemptAt(d: Dir, claim: Claim)
    ensures var e := Publish(d, PutAttempt(claim));
            && e.claimFiles == d.claimFiles && claim.id in e.attempts
            && (if claim.id in d.attempts then e == d else e.attempts[claim.id] == claim)
  {
  }

  lemma PutOrderAt(d: Dir, seqNo: nat, claim: Claim)
    ensures var e := Publish(d, PutOrder(seqNo, claim)); e.claimFiles == d.claimFiles && e.attempts == d.attempts
  {
  }

  lemma PutDecisionAt(d: Dir, id: Id, decision: Decision)
    ensures var e := Publish(d, PutDecision(id, decision)); e.claimFiles == d.claimFiles && e.attempts == d.attempts
  {
  }

  lemma PutUseAt(d: Dir, handoffId: Id, id: Id)
    ensures var e := Publish(d, PutUse(handoffId, id));
            e.claimFiles == d.claimFiles && e.attempts == d.attempts && handoffId in e.uses
  {
  }

  lemma AttemptClaims(d: Dir, c: ClaimCall, choice: Choice, e: Dir, t: ClaimCall)
    requires Claims(d, c, choice, e, t) && t.pc.PublishAttempt?
    ensures var f := Publish(e, PutAttempt(ClaimOf(t)));
            Claims(d, c, choice, f,
              if t.id in e.attempts then t.(pc := Done(IdTaken)) else t.(mine := true, pc := LinkOrder(|f.order|)))
  {
    hide Claims, ClaimOf;
    ClaimsStep(d, c, choice, e, t);
    if t.id !in e.attempts {
      ReadStep(d, c, choice, Publish(e, PutAttempt(ClaimOf(t))), t.(mine := true, pc := ListOrder));
    }
  }

  lemma LostClaims(d: Dir, c: ClaimCall, choice: Choice, e: Dir, t: ClaimCall)
    requires Claims(d, c, choice, e, t) && t.pc.DecideLost?
    ensures Concluded(d, c, choice, Publish(e, PutDecision(t.id, Lost)), Held(t.pc.block))
  {
    hide Claims;
    ClaimsStep(d, c, choice, e, t);
    ConcludesHere(d, c, choice, Publish(e, PutDecision(t.id, Lost)), t.(pc := Done(Held(t.pc.block))));
  }

  lemma WonClaims(d: Dir, c: ClaimCall, choice: Choice, e: Dir, t: ClaimCall)
    requires Claims(d, c, choice, e, t) && t.pc.DecideWon?
    ensures var f := Publish(e, PutDecision(t.id, Won));
            if t.id in e.decisions && e.decisions[t.id] != Won then Concluded(d, c, choice, f, EndedBefore(e.decisions[t.id]))
            else Claims(d, c, choice, f, t.(pc := AfterWinning(t)))
  {
    hide Claims;
    ClaimsStep(d, c, choice, e, t);
    if t.id in e.decisions {
      ReadStep(d, c, choice, e, t.(pc := ReadOwnDecision));
      if e.decisions[t.id] != Won {
        ConcludesHere(d, c, choice, e, t.(pc := Done(EndedBefore(e.decisions[t.id]))));
      }
    }
  }

  lemma UsedClaims(d: Dir, c: ClaimCall, choice: Choice, e: Dir, t: ClaimCall)
    requires Claims(d, c, choice, e, t) && t.pc.PublishUse? && t.handoff.Some?
    ensures Claims(d, c, choice, Publish(e, PutUse(t.handoff.value.id, t.id)),
              t.(pc := if t.handoff.value.id in e.uses then ReadUse else PublishClaimFile))
  {
    hide Claims;
    ClaimsStep(d, c, choice, e, t);
  }

  lemma FiledClaims(d: Dir, c: ClaimCall, choice: Choice, e: Dir, t: ClaimCall)
    requires Claims(d, c, choice, e, t) && t.pc.PublishClaimFile?
    ensures Concluded(d, c, choice, Publish(e, PutClaimFile(ClaimOf(t))), Claimed(ClaimOf(t)))
  {
    hide Claims, ClaimOf;
    ClaimsStep(d, c, choice, e, t);
    ConcludesHere(d, c, choice, Publish(e, PutClaimFile(ClaimOf(t))), t.(pc := Done(Claimed(ClaimOf(t)))));
  }

  // --- the object -----------------------------------------------------------------------------

  class Rendezvous {
    var attempts: map<Id, Claim>
    var order: map<nat, Claim>
    var decisions: map<Id, Decision>
    var claimFiles: map<Id, Claim>
    var firstReleases: map<Id, Release>
    var laterReleases: map<Id, Release>
    var handoffs: map<Id, Handoff>
    var uses: map<Id, Id>

    ghost function Model(): Dir
      reads this
    {
      Dir(attempts, order, decisions, claimFiles, firstReleases, laterReleases, handoffs, uses)
    }

    constructor (earlier: map<Id, Claim>)
      ensures Model() == Initial(earlier).dir
    {
      attempts, order, decisions, claimFiles := map[], map[], map[], earlier;
      firstReleases, laterReleases, handoffs, uses := map[], map[], map[], map[];
    }

    /** Put-if-absent: false, and nothing changed, when the name was taken. */
    method PublishExclusive(w: Write) returns (ok: bool)
      modifies this
      ensures ok == !Taken(old(Model()), w)
      ensures Model() == Publish(old(Model()), w)
    {
      match w
      case Nothing =>
        ok := false;
      case PutAttempt(claim) =>
        ok := claim.id !in attempts;
        if ok { attempts := attempts[claim.id := claim]; }
      case PutOrder(at, claim) =>
        ok := at !in order;
        if ok { order := order[at := claim]; }
      case PutDecision(id, decision) =>
        ok := id !in decisions;
        if ok { decisions := decisions[id := decision]; }
      case PutClaimFile(claim) =>
        ok := claim.id !in claimFiles;
        if ok { claimFiles := claimFiles[claim.id := claim]; }
      case PutFirstRelease(release) =>
        ok := release.claimId !in firstReleases;
        if ok { firstReleases := firstReleases[release.claimId := release]; }
      case PutLaterRelease(release) =>
        ok := release.claimId !in laterReleases;
        if ok { laterReleases := laterReleases[release.claimId := release]; }
      case PutHandoff(handoff) =>
        ok := handoff.id !in handoffs;
        if ok { handoffs := handoffs[handoff.id := handoff]; }
      case PutUse(handoffId, claimId) =>
        ok := handoffId !in uses;
        if ok { uses := uses[handoffId := claimId]; }
    }

    /** Publishes `decision` if none is recorded; `decided` is the recorded one and `mine` says whose it is. */
    method Decide(claimId: Id, decision: Decision) returns (decided: Decision, mine: bool)
      modifies this
      ensures Model() == Publish(old(Model()), PutDecision(claimId, decision))
      ensures mine <==> claimId !in old(decisions)
      ensures decided == (if claimId in old(decisions) then old(decisions)[claimId] else decision)
    {
      mine := PublishExclusive(PutDecision(claimId, decision));
      decided := if mine then decision else decisions[claimId];
    }

    /** Links the attempt under the lowest free number it finds from the listed count on. */
    method PublishInOrder(claim: Claim) returns (seqNo: nat)
      modifies this
      ensures seqNo !in old(order) && |old(order)| <= seqNo
      ensures forall n :: |old(order)| <= n < seqNo ==> n in old(order)
      ensures Model() == Publish(old(Model()), PutOrder(seqNo, claim))
    {
      seqNo := |order|;
      ghost var above := set n | n in order && n >= seqNo;
      while seqNo in order
        invariant unchanged(this)
        invariant |order| <= seqNo
        invariant forall n :: |order| <= n < seqNo ==> n in order
        invariant above == set n | n in order && n >= seqNo
        decreases above
      {
        assert seqNo in above;
        above := above - {seqNo};
        seqNo := seqNo + 1;
      }
      var linked := PublishExclusive(PutOrder(seqNo, claim));
    }

    /** An authoritative record under either name; None exactly when there is no such record. */
    method ReleaseOf(claim: Claim) returns (release: Option<Release>)
      ensures release.Some? <==> Released(Model(), claim)
      ensures release.Some? ==> Authoritative(release.value, claim)
    {
      if claim.id in firstReleases && Authoritative(firstReleases[claim.id], claim) {
        return Some(firstReleases[claim.id]);
      }
      if claim.id in laterReleases && Authoritative(laterReleases[claim.id], claim) {
        return Some(laterReleases[claim.id]);
      }
      return None;
    }

    /** Ends a claim. The result is where the step-by-step call stops, which it does in one way only. */
    method ReleaseClaim(claimId: Id, by_: Owner, note: string, unread: Claim) returns (r: Result<Release, Refused>)
      requires claimId in attempts ==> attempts[claimId].id == claimId
      requires claimId in claimFiles ==> claimFiles[claimId].id == claimId
      modifies this
      ensures Stopped(old(Model()), ReleaseCall(claimId, by_, note, unread, false, Enter), Model(), r)
    {
      hide Releases, Complete;
      ghost var was := Model();
      ghost var start := ReleaseCall(claimId, by_, note, unread, false, Enter);
      ghost var now := start;
      ReleasesNow(was, start);

      ReleasesStep(was, start, was, now);
      now := ReleaseNext(was, now);
      if !Complete(by_) { StopsHere(was, start, was, now); return Err(IncompleteOwner); }
      ReleasesStep(was, start, was, now);
      now := ReleaseNext(was, now);
      var claim;
      var ordered := claimId in attempts;
      if ordered {
        claim := attempts[claimId];
      } else {
        ReleasesStep(was, start, was, now);
        now := ReleaseNext(was, now);
        if claimId !in claimFiles { StopsHere(was, start, was, now); return Err(NoClaim); }
        claim := claimFiles[claimId];
      }
      assert now == ReleaseCall(claimId, by_, note, claim, ordered, CheckFirst);
      r := EndClaim(start, claimId, by_, note, claim, ordered);
    }

    method EndClaim(ghost start: ReleaseCall, claimId: Id, by_: Owner, note: string, claim: Claim, ordered: bool)
      returns (r: Result<Release, Refused>)
      requires Releases(Model(), start, Model(), ReleaseCall(claimId, by_, note, claim, ordered, CheckFirst))
      requires claim.id == claimId
      modifies this
      ensures Stopped(old(Model()), start, Model(), r)
    {
      hide Authoritative, SameOwner, NonEmpty, Releases;
      ghost var was := Model();
      ghost var now := ReleaseCall(claimId, by_, note, claim, ordered, CheckFirst);
      var ended := ReleaseOf(claim);
      ReleasesStep(was, start, was, now);
      now := ReleaseNext(was, now);
      if ended.Some? {
        if now.pc.CheckLater? {
          ReleasesStep(was, start, was, now);
          now := ReleaseNext(was, now);
        }
        StopsHere(was, start, was, now);
        return Err(AlreadyReleased);
      }
      ReleasesStep(was, start, was, now);
      now := ReleaseNext(was, now);
      var authority;
      if SameOwner(claim.owner, by_) {
        authority := Holder;
      } else if by_.role == INTEGRATOR {
        if !NonEmpty(note) { StopsHere(was, start, was, now); return Err(NeedsReason); }
        authority := Integrator;
      } else {
        StopsHere(was, start, was, now);
        return Err(NotHolder);
      }
      if ordered {
        r := EndAttempt(start, claimId, by_, note, claim, authority);
      } else {
        r := PublishRelease(was, start, claimId, by_, note, claim, ordered, authority);
      }
    }

    method EndAttempt(ghost start: ReleaseCall, claimId: Id, by_: Owner, note: string, claim: Claim, authority: Authority)
      returns (r: Result<Release, Refused>)
      requires Releases(Model(), start, Model(), ReleaseCall(claimId, by_, note, claim, true, DecideAbandoned(authority)))
      requires claim.id == claimId
      modifies this
      ensures Stopped(old(Model()), start, Model(), r)
    {
      hide Authoritative, Releases;
      ghost var was := Model();
      ghost var now := ReleaseCall(claimId, by_, note, claim, true, DecideAbandoned(authority));
      var decision, mine := Decide(claimId, Abandoned);
      ReleasesStep(was, start, was, now);
      now := ReleaseNext(was, now);
      if !mine {
        ReleasesStep(was, start, was, now);
        now := ReleaseNext(was, now);
        if decision != Won {
          StopsHere(was, start, Model(), now);
          return Err(HoldsNothing(decision));
        }
      }
      r := PublishRelease(was, start, claimId, by_, note, claim, true, authority);
    }

    method PublishRelease(ghost was: Dir, ghost start: ReleaseCall, claimId: Id, by_: Owner, note: string, claim: Claim, ordered: bool, authority: Authority)
      returns (r: Result<Release, Refused>)
      requires Releases(was, start, Model(), ReleaseCall(claimId, by_, note, claim, ordered, PublishFirst(authority)))
      requires claim.id == claimId
      modifies this
      ensures Stopped(was, start, Model(), r)
    {
      hide Authoritative, Releases;
      ghost var d := Model();
      ghost var now := ReleaseCall(claimId, by_, note, claim, ordered, PublishFirst(authority));
      var release := Release(claimId, by_, authority, note);
      var published := PublishExclusive(PutFirstRelease(release));
      ReleasesStep(was, start, d, now);
      now := ReleaseNext(d, now);
      if !published {
        d := Model();
        ReleasesStep(was, start, d, now);
        now := ReleaseNext(d, now);
        if Authoritative(firstReleases[claimId], claim) {
          StopsHere(was, start, Model(), now);
          return Err(AlreadyReleased);
        }
        published := PublishExclusive(PutLaterRelease(release));
        ReleasesStep(was, start, d, now);
        now := ReleaseNext(d, now);
        if !published {
          d := Model();
          ReleasesStep(was, start, d, now);
          now := ReleaseNext(d, now);
          StopsHere(was, start, Model(), now);
          return Err(if Authoritative(laterReleases[claimId], claim) then AlreadyReleased else BothTaken);
        }
      }
      StopsHere(was, start, Model(), now);
      return Ok(release);
    }

    /** The earlier tool's claims that are not over, in the order they are listed. */
    method EarlierActive(names: seq<Id>, ghost seqNo: nat, ghost wanted: seq<string>, ghost choice: Choice, ghost last: bool)
      returns (found: seq<Claim>)
      requires choice.names == names
      requires Searches(Model(), seqNo, wanted, choice, ListEarlier(false), ListEarlier(last))
      ensures Searches(Model(), seqNo, wanted, choice, ListEarlier(false), NextEarlier(last, [], found))
    {
      hide Searches, Released, SearchNext;
      ghost var d, s := Model(), ListEarlier(false);
      found := [];
      ListStep(d, seqNo, wanted, choice, s, last);
      assert names[0..] == names;
      for i := 0 to |names|
        invariant Searches(d, seqNo, wanted, choice, s, NextEarlier(last, names[i..], found))
      {
        assert names[i..][1..] == names[i + 1..];
        EarlierStep(d, seqNo, wanted, choice, s, last, names[i..], found);
        if names[i] in attempts || names[i] !in claimFiles { continue; }
        var ended := ReleaseOf(claimFiles[names[i]]);
        if ended.None? { found := found + [claimFiles[names[i]]]; }
      }
      assert names[|names|..] == [];
    }

    /** Equals `OutcomeOf` at this moment: no polling, since nothing else moves here. */
    method SettledOutcome(entry: Claim) returns (outcome: Outcome)
      ensures outcome == OutcomeOf(Model(), entry)
    {
      hide Released;
      if entry.id !in decisions { return StillUndecided; }
      if decisions[entry.id] != Won { return DoneWith; }
      var ended := ReleaseOf(entry);
      outcome := if ended.Some? then DoneWith else StillHeld;
    }

    /** The earliest overlapping entry below `seqNo` that is not over; an undecided one is waited for no longer. */
    method FirstOpenEntry(seqNo: nat, wanted: seq<string>, ghost choice: Choice) returns (block: Option<Block>)
      requires choice.timeout && Searches(Model(), seqNo, wanted, choice, ListEarlier(false), ReadEntry(0))
      ensures Searches(Model(), seqNo, wanted, choice, ListEarlier(false), if block.Some? then Blocked(block.value) else ReadEntry(seqNo))
    {
      hide Searches, SearchNext, OutcomeOf, OverlapsAny, RecordedKeys, FirstOverlapping;
      ghost var d, s := Model(), ListEarlier(false);
      for at := 0 to seqNo
        invariant Searches(d, seqNo, wanted, choice, s, ReadEntry(at))
      {
        EntryStep(d, seqNo, wanted, choice, s, at);
        if at !in order { return Some(MissingEntry(at)); }
        if OverlapsAny(RecordedKeys(order[at].paths), wanted) {
          var outcome := SettledOutcome(order[at]);
          OutcomeStep(d, seqNo, wanted, choice, s, at, order[at]);
          if outcome == StillHeld { return Some(HeldBy(order[at])); }
          if outcome == StillUndecided { return Some(Undecided(order[at])); }
        }
      }
      return None;
    }

    /** Runs all three stages of the search; None stands for `Clear`. */
    method FirstBlocking(seqNo: nat, wanted: seq<string>, names: seq<Id>) returns (block: Option<Block>)
      ensures Searches(Model(), seqNo, wanted, Choice(true, names), ListEarlier(false),
                       match block case Some(b) => Blocked(b) case None => Clear)
    {
      hide Searches, SearchNext, OverlapsAny, RecordedKeys, FirstOverlapping;
      ghost var d, choice, s := Model(), Choice(true, names), ListEarlier(false);
      SearchesNow(d, seqNo, wanted, choice, s);
      var found := EarlierActive(names, seqNo, wanted, choice, false);
      VerdictStep(d, seqNo, wanted, choice, s, false, found);
      var early := FirstOverlapping(found, wanted);
      if early.Some? { return Some(HeldBy(early.value)); }
      block := FirstOpenEntry(seqNo, wanted, choice);
      if block.Some? { return; }
      EntryStep(d, seqNo, wanted, choice, s, seqNo);
      found := EarlierActive(names, seqNo, wanted, choice, true);
      VerdictStep(d, seqNo, wanted, choice, s, true, found);
      var late := FirstOverlapping(found, wanted);
      block := if late.Some? then Some(HeldBy(late.value)) else None;
    }

    /** Some exactly when `Applicable` holds, and then the record itself. */
    method ApplicableHandoff(handoffId: Id, owner: Owner, node: string, baseSha: string, scope: seq<CanonicalPath>) returns (handoff: Option<Handoff>)
      ensures handoff.Some? <==> Applicable(Model(), handoffId, owner, node, baseSha, scope)
      ensures handoff.Some? ==> handoffId in handoffs && handoff.value == handoffs[handoffId]
    {
      hide Authorizes;
      if handoffId in handoffs && Authorizes(handoffs[handoffId], handoffId, owner, node, baseSha, scope) && handoffId !in uses {
        return Some(handoffs[handoffId]);
      }
      return None;
    }

    /**
     * Claims paths for one node. With nobody else moving, the result and the directory are those
     * the step-by-step call reaches; `names` is the order the claim files are listed in.
     */
    method ClaimPaths(input: ClaimInput, id: Id, names: seq<Id>) returns (result: ClaimResult)
      requires id in claimFiles ==> claimFiles[id].id == id
      modifies this
      ensures Concluded(old(Model()), FreshCall(input, id), Choice(true, names), Model(), result)
    {
      hide Claims, Complete, NonEmpty, CanonicalSet, Unlockable, AnyHot, Applicable, ClaimNext, ClaimWrite, Prepare;
      ghost var was, start, choice := Model(), FreshCall(input, id), Choice(true, names);
      BeganClaims(was, choice, input, id);
      var reduced := CanonicalizeSet(input.paths);
      if Unusable(input, reduced) {
        ConcludesHere(was, start, choice, was, start.(pc := Done(InvalidInput)));
        return InvalidInput;
      }
      var handoff := None;
      if input.handoffFrom.Some? {
        ghost var read := start.(scope := reduced.value, pc := ReadHandoff(input.handoffFrom.value));
        HandoffClaims(was, start, choice, read);
        handoff := ApplicableHandoff(input.handoffFrom.value, input.owner, input.node, input.baseSha, reduced.value);
        if handoff.None? {
          ConcludesHere(was, start, choice, was, read.(pc := Done(HandoffInvalid)));
          return HandoffInvalid;
        }
      }
      if AnyHot(reduced.value) && input.owner.role != INTEGRATOR && handoff.None? {
        ConcludesHere(was, start, choice, was, start.(scope := reduced.value, pc := Done(IntegratorOwned)));
        return IntegratorOwned;
      }
      result := Attempt(start, choice, input, id, reduced.value, handoff, names);
    }

    method Attempt(ghost start: ClaimCall, ghost choice: Choice, input: ClaimInput, id: Id, scope: seq<CanonicalPath>, handoff: Option<Handoff>, names: seq<Id>)
      returns (result: ClaimResult)
      requires choice == Choice(true, names)
      requires Claims(Model(), start, choice, Model(), ClaimCall(input, id, scope, handoff, false, 0, PublishAttempt))
      requires id in claimFiles ==> claimFiles[id].id == id
      modifies this
      ensures Concluded(old(Model()), start, choice, Model(), result)
    {
      hide Claims, Spellings, ClaimNext, ClaimWrite, Publish;
      ghost var was, now := Model(), ClaimCall(input, id, scope, handoff, false, 0, PublishAttempt);
      var claim := Claim(id, input.node, input.owner, Spellings(scope), input.baseSha, if handoff.Some? then Some(handoff.value.id) else None);
      AttemptClaims(was, start, choice, was, now);
      var published := PublishExclusive(PutAttempt(claim));
      PutAttemptAt(was, claim);
      if !published {
        ConcludesHere(was, start, choice, was, now.(pc := Done(IdTaken)));
        return IdTaken;
      }
      now := now.(mine := true, pc := LinkOrder(|Model().order|));
      ghost var listed := Model();
      var seqNo := PublishInOrder(claim);
      LinkingClaims(was, start, choice, listed, now, seqNo);
      PutOrderAt(listed, seqNo, claim);
      result := DecideAttempt(was, start, choice, input, claim, scope, handoff, seqNo, names);
    }

    method DecideAttempt(ghost was: Dir, ghost start: ClaimCall, ghost choice: Choice, input: ClaimInput, claim: Claim, scope: seq<CanonicalPath>,
                         handoff: Option<Handoff>, seqNo: nat, names: seq<Id>)
      returns (result: ClaimResult)
      requires choice == Choice(true, names)
      requires var now := ClaimCall(input, claim.id, scope, handoff, true, seqNo, Search(ListEarlier(false)));
               claim == ClaimOf(now) && Claims(was, start, choice, Model(), now)
      requires claim.id in claimFiles ==> claimFiles[claim.id].id == claim.id
      requires claim.id in attempts && attempts[claim.id] == claim
      modifies this
      ensures Concluded(was, start, choice, Model(), result)
    {
      hide Claims, Keys, Searches, ClaimOf, ClaimNext, ClaimWrite, Publish;
      ghost var d, now := Model(), ClaimCall(input, claim.id, scope, handoff, true, seqNo, Search(ListEarlier(false)));
      var block := FirstBlocking(seqNo, Keys(scope), names);
      SearchedClaims(was, start, choice, d, now, match block case Some(b) => Blocked(b) case None => Clear);
      if block.Some? {
        LostClaims(was, start, choice, d, now.(pc := DecideLost(block.value)));
        var lost, _ := Decide(claim.id, Lost);
        return Held(block.value);
      }
      WonClaims(was, start, choice, d, now.(pc := DecideWon));
      PutDecisionAt(d, claim.id, Won);
      var decision, _ := Decide(claim.id, Won);
      if decision != Won { return EndedBefore(decision); }
      now := now.(pc := AfterWinning(now));
      SameClaim(now, ClaimCall(input, claim.id, scope, handoff, true, seqNo, Search(ListEarlier(false))));
      result := KeepClaim(was, start, choice, input, claim, scope, handoff, seqNo);
    }

    /** A winner uses its handoff, or gives its paths back when another claim used it first. */
    method KeepClaim(ghost was: Dir, ghost start: ClaimCall, ghost choice: Choice, input: ClaimInput, claim: Claim, scope: seq<CanonicalPath>,
                     handoff: Option<Handoff>, seqNo: nat)
      returns (result: ClaimResult)
      requires var pc := if handoff.Some? then PublishUse else PublishClaimFile;
               var now := ClaimCall(input, claim.id, scope, handoff, true, seqNo, pc);
               claim == ClaimOf(now) && Claims(was, start, choice, Model(), now)
      requires claim.id in claimFiles ==> claimFiles[claim.id].id == claim.id
      requires claim.id in attempts && attempts[claim.id] == claim
      modifies this
      ensures Concluded(was, start, choice, Model(), result)
    {
      hide Claims, ClaimOf, ClaimNext, ClaimWrite, Publish;
      ghost var d, now := Model(), ClaimCall(input, claim.id, scope, handoff, true, seqNo, if handoff.Some? then PublishUse else PublishClaimFile);
      if handoff.Some? {
        UsedClaims(was, start, choice, d, now);
        PutUseAt(d, handoff.value.id, claim.id);
        var used := PublishExclusive(PutUse(handoff.value.id, claim.id));
        now := now.(pc := if used then PublishClaimFile else ReadUse);
        SameClaim(now, ClaimCall(input, claim.id, scope, handoff, true, seqNo, PublishUse));
        if !used {
          result := GivePathsBack(was, start, choice, input, claim, scope, handoff.value, seqNo);
          return;
        }
      }
      FiledClaims(was, start, choice, Model(), now);
      var filed := PublishExclusive(PutClaimFile(claim));
      return Claimed(claim);
    }

    method GivePathsBack(ghost was: Dir, ghost start: ClaimCall, ghost choice: Choice, input: ClaimInput, claim: Claim, scope: seq<CanonicalPath>,
                         handoff: Handoff, seqNo: nat)
      returns (result: ClaimResult)
      requires var now := ClaimCall(input, claim.id, scope, Some(handoff), true, seqNo, ReadUse);
               claim == ClaimOf(now) && Claims(was, start, choice, Model(), now)
      requires handoff.id in uses
      requires claim.id in claimFiles ==> claimFiles[claim.id].id == claim.id
      requires claim.id in attempts && attempts[claim.id] == claim
      modifies this
      ensures Concluded(was, start, choice, Model(), result)
    {
      hide Claims, ClaimOf, Releases;
      ghost var d := Model();
      ghost var now := ClaimCall(input, claim.id, scope, Some(handoff), true, seqNo, ReadUse);
      var user := uses[handoff.id];
      ReadStep(was, start, choice, d, now);
      now := ClaimNext(d, now, choice);
      var ended := ReleaseClaim(claim.id, input.owner, GIVE_BACK_NOTE, claim);
      ghost var last :| Releases(d, now.pc.release, Model(), last) && last.pc == (match ended case Ok(release) => Ended(release) case Err(why) => Threw(why));
      GaveBackClaims(was, start, choice, d, now, Model(), last);
      now := now.(pc := GiveBack(Some(user), last));
      EndedStays(Model(), last);
      ClaimsStep(was, start, choice, Model(), now);
      ConcludesHere(was, start, choice, Model(), ClaimNext(Model(), now, choice));
      result := match ended case Ok(_) => HandoffSpent(Some(user)) case Err(why) => GiveBackThrew(why);
    }
  }
}
