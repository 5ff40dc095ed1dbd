/** What `claimPaths` answers, and what it leaves in the directory, from the directory it finds. */
module ClaimAnswers {
  import opened Text
  import opened Paths
  import opened PathSets
  import opened Records
  import opened Directory
  import opened HotFiles
  import opened HotClaims
  import opened ClaimProtocol
  import opened ClaimInvariant
  import opened ClaimSteps
  import opened ClaimRefusals
  import opened Rendezvous

  // --- one outcome --------------------------------------------------------------------------------

  lemma {:induction false} DoneForGood(d: Dir, c: ClaimCall, choice: Choice, m: nat, n: nat)
    requires m <= n && ClaimRun(d, c, choice, m).1.pc.Done?
    ensures ClaimRun(d, c, choice, n) == ClaimRun(d, c, choice, m)
    decreases n - m
  {
    hide ClaimWrite, ClaimNext, Publish;
    if m < n {
      DoneForGood(d, c, choice, m, n - 1);
      DoneStill(ClaimRun(d, c, choice, m).0, ClaimRun(d, c, choice, m).1, choice);
    }
  }

  lemma DoneStill(d: Dir, c: ClaimCall, choice: Choice)
    requires c.pc.Done?
    ensures Publish(d, ClaimWrite(c)) == d && ClaimNext(d, c, choice) == c
  {
  }

  /** A call run alone is done in one way only. */
  lemma ConcludesOnce(d: Dir, start: ClaimCall, choice: Choice, e: Dir, r: ClaimResult, f: Dir, q: ClaimResult)
    requires Concluded(d, start, choice, e, r) && Concluded(d, start, choice, f, q)
    ensures e == f && r == q
  {
    hide ClaimRun;
    var a :| Claims(d, start, choice, e, a) && a.pc == Done(r);
    var b :| Claims(d, start, choice, f, b) && b.pc == Done(q);
    var m: nat :| ClaimRun(d, start, choice, m) == (e, a);
    var n: nat :| ClaimRun(d, start, choice, n) == (f, b);
    if m <= n { DoneForGood(d, start, choice, m, n); } else { DoneForGood(d, start, choice, n, m); }
  }

  // --- the search ----------------------------------------------------------------------------------

  /** A claim of the earlier tool that is not over. */
  predicate EarlierHeld(d: Dir, id: Id) {
    id in d.claimFiles && id !in d.attempts && !Released(d, d.claimFiles[id])
  }

  function HeldOf(d: Dir, names: seq<Id>): (r: seq<Claim>)
    ensures forall claim :: claim in r <==> exists id :: id in names && EarlierHeld(d, id) && d.claimFiles[id] == claim
  {
    if names == [] then []
    else
      assert forall id :: id in names <==> id == names[0] || id in names[1..];
      (if EarlierHeld(d, names[0]) then [d.claimFiles[names[0]]] else []) + HeldOf(d, names[1..])
  }

  lemma {:induction false} ListedSearch(d: Dir, seqNo: nat, wanted: seq<string>, choice: Choice, s: SearchPc, last: bool, todo: seq<Id>, found: seq<Claim>)
    requires Searches(d, seqNo, wanted, choice, s, NextEarlier(last, todo, found))
    ensures Searches(d, seqNo, wanted, choice, s, NextEarlier(last, [], found + HeldOf(d, todo)))
    decreases |todo|
  {
    hide Searches, Released;
    if todo == [] {
      assert found + [] == found;
    } else {
      EarlierStep(d, seqNo, wanted, choice, s, last, todo, found);
      var more := if EarlierHeld(d, todo[0]) then found + [d.claimFiles[todo[0]]] else found;
      ListedSearch(d, seqNo, wanted, choice, s, last, todo[1..], more);
      assert more + HeldOf(d, todo[1..]) == found + HeldOf(d, todo);
    }
  }

  /** The earliest entry from `at` on that is not over, if it overlaps. */
  function FirstOpen(d: Dir, seqNo: nat, wanted: seq<string>, at: nat): (r: Option<Block>)
    decreases seqNo - at
  {
    if at >= seqNo then None
    else if at !in d.order then Some(MissingEntry(at))
    else if OverlapsAny(RecordedKeys(d.order[at].paths), wanted) && !Finished(d, d.order[at])
    then Some(if HasWon(d, d.order[at].id) then HeldBy(d.order[at]) else Undecided(d.order[at]))
    else FirstOpen(d, seqNo, wanted, at + 1)
  }

  lemma {:induction false} EntrySearch(d: Dir, seqNo: nat, wanted: seq<string>, choice: Choice, s: SearchPc, at: nat)
    requires choice.timeout && at <= seqNo && Searches(d, seqNo, wanted, choice, s, ReadEntry(at))
    ensures var block := FirstOpen(d, seqNo, wanted, at);
            Searches(d, seqNo, wanted, choice, s, if block.Some? then Blocked(block.value) else ListEarlier(true))
    decreases seqNo - at
  {
    hide Searches, OverlapsAny, RecordedKeys, Released, HasWon;
    EntryStep(d, seqNo, wanted, choice, s, at);
    if at < seqNo && at in d.order {
      if OverlapsAny(RecordedKeys(d.order[at].paths), wanted) { OutcomeStep(d, seqNo, wanted, choice, s, at, d.order[at]); }
      if FirstOpen(d, seqNo, wanted, at) == FirstOpen(d, seqNo, wanted, at + 1) && !(OverlapsAny(RecordedKeys(d.order[at].paths), wanted) && !Finished(d, d.order[at])) {
        EntrySearch(d, seqNo, wanted, choice, s, at + 1);
      }
    }
  }

  function SearchAnswer(d: Dir, seqNo: nat, wanted: seq<string>, names: seq<Id>): Option<Block> {
    var early := FirstOverlapping(HeldOf(d, names), wanted);
    if early.Some? then Some(HeldBy(early.value)) else FirstOpen(d, seqNo, wanted, 0)
  }

  lemma WholeSearch(d: Dir, seqNo: nat, wanted: seq<string>, names: seq<Id>)
    ensures var block := SearchAnswer(d, seqNo, wanted, names);
            Searches(d, seqNo, wanted, Choice(true, names), ListEarlier(false), if block.Some? then Blocked(block.value) else Clear)
  {
    hide Searches, HeldOf, FirstOpen, FirstOverlapping;
    var choice, s := Choice(true, names), ListEarlier(false);
    SearchesNow(d, seqNo, wanted, choice, s);
    ListStep(d, seqNo, wanted, choice, s, false);
    ListedSearch(d, seqNo, wanted, choice, s, false, names, []);
    assert [] + HeldOf(d, names) == HeldOf(d, names);
    VerdictStep(d, seqNo, wanted, choice, s, false, HeldOf(d, names));
    if FirstOverlapping(HeldOf(d, names), wanted).None? {
      EntrySearch(d, seqNo, wanted, choice, s, 0);
      if FirstOpen(d, seqNo, wanted, 0).None? {
        ListStep(d, seqNo, wanted, choice, s, true);
        ListedSearch(d, seqNo, wanted, choice, s, true, names, []);
        VerdictStep(d, seqNo, wanted, choice, s, true, HeldOf(d, names));
      }
    }
  }

  /** Somebody holds, or has before this claim asked for, territory of it. */
  ghost predicate Obstructed(d: Dir, claim: Claim, seqNo: nat) {
    || (exists id :: EarlierHeld(d, id) && Overlap(d.claimFiles[id], claim))
    || (exists n :: n in d.order && n < seqNo && Overlap(d.order[n], claim) && !Finished(d, d.order[n]))
  }

  /** The block names one of those, and says how it stands. */
  ghost predicate Names(d: Dir, claim: Claim, seqNo: nat, block: Block) {
    match block
    case HeldBy(holder) =>
      Overlap(holder, claim)
      && ((exists id :: EarlierHeld(d, id) && d.claimFiles[id] == holder)
          || (exists n :: n in d.order && n < seqNo && d.order[n] == holder && Active(d, holder)))
    case Undecided(entry) =>
      Overlap(entry, claim) && exists n :: n in d.order && n < seqNo && d.order[n] == entry && entry.id !in d.decisions
    case MissingEntry(_) => false
  }

  lemma {:induction false} OpenMeans(d: Dir, claim: Claim, seqNo: nat, wanted: seq<string>, at: nat)
    requires RecordedKeys(claim.paths) == Keyed(wanted) && forall n: nat :: n < seqNo ==> n in d.order
    ensures match FirstOpen(d, seqNo, wanted, at)
            case None => forall n :: n in d.order && at <= n < seqNo && Overlap(d.order[n], claim) ==> Finished(d, d.order[n])
            case Some(block) =>
              && (exists n :: n in d.order && n < seqNo && Overlap(d.order[n], claim) && !Finished(d, d.order[n]))
              && Names(d, claim, seqNo, block)
    decreases seqNo - at
  {
    hide Released, OverlapsAny, RecordedKeys, Overlap;
    if at < seqNo {
      OverlapByKeys(d.order[at], claim, wanted);
      OpenMeans(d, claim, seqNo, wanted, at + 1);
    }
  }

  lemma AnswerMeans(d: Dir, claim: Claim, seqNo: nat, wanted: seq<string>, names: seq<Id>)
    requires RecordedKeys(claim.paths) == Keyed(wanted) && (forall n: nat :: n < seqNo ==> n in d.order)
    requires forall id :: id in names <==> id in d.claimFiles
    ensures var block := SearchAnswer(d, seqNo, wanted, names);
            (block.Some? <==> Obstructed(d, claim, seqNo)) && (block.Some? ==> Names(d, claim, seqNo, block.value))
  {
    hide FirstOpen, FirstOverlapping, OverlapsAny, RecordedKeys, Overlap, Released, HasWon;
    var held := HeldOf(d, names);
    forall f | f in held ensures OverlapsAny(RecordedKeys(f.paths), wanted) == Overlap(f, claim) { OverlapByKeys(f, claim, wanted); }
    FirstIsFound(held, wanted);
    OpenMeans(d, claim, seqNo, wanted, 0);
    if id :| EarlierHeld(d, id) && Overlap(d.claimFiles[id], claim) { assert d.claimFiles[id] in held; }
  }

  // --- the whole call --------------------------------------------------------------------------------

  /** The claim a call would publish. */
  function WouldClaim(input: ClaimInput, id: Id, scope: seq<CanonicalPath>, handoff: Option<Handoff>): (claim: Claim)
    ensures claim.id == id
  {
    ClaimOf(ClaimCall(input, id, scope, handoff, false, 0, PublishAttempt))
  }

  function Ordered(d: Dir, claim: Claim): Dir {
    Put(Put(d, PutAttempt(claim)), PutOrder(|d.order|, claim))
  }

  /** What becomes of an attempt once it is published. */
  function Decided(d: Dir, claim: Claim, handoff: Option<Handoff>, block: Option<Block>): (Dir, ClaimResult) {
    var e := Ordered(d, claim);
    if block.Some? then (Publish(e, PutDecision(claim.id, Lost)), Held(block.value))
    else
      var f := Publish(e, PutDecision(claim.id, Won));
      if claim.id in d.decisions && d.decisions[claim.id] != Won then (f, EndedBefore(d.decisions[claim.id]))
      else
        var g := if handoff.Some? then Publish(f, PutUse(handoff.value.id, claim.id)) else f;
        (Publish(g, PutClaimFile(claim)), Claimed(claim))
  }

  lemma AttemptStage(was: Dir, start: ClaimCall, choice: Choice, d: Dir, c: ClaimCall)
    requires Claims(was, start, choice, d, c) && c.pc.PublishAttempt? && choice.timeout && |d.order| !in d.order
    requires c.handoff.Some? ==> c.handoff.value.id !in d.uses
    ensures var claim := ClaimOf(c);
            if c.id in d.attempts then Concluded(was, start, choice, d, IdTaken)
            else
              var block := SearchAnswer(Ordered(d, claim), |d.order|, Keys(c.scope), choice.names);
              var (e, result) := Decided(d, claim, c.handoff, block);
              Concluded(was, start, choice, e, result)
  {
    hide Claims, ClaimOf, SearchAnswer, Keys, Searches;
    var claim := ClaimOf(c);
    AttemptClaims(was, start, choice, d, c);
    if c.id in d.attempts {
      ConcludesHere(was, start, choice, d, c.(pc := Done(IdTaken)));
    } else {
      var e := Publish(d, PutAttempt(claim));
      var listed := c.(mine := true, pc := LinkOrder(|e.order|));
      SameClaim(c, listed);
      LinkingClaims(was, start, choice, e, listed, |e.order|);
      var linked := listed.(seqNo := |e.order|, pc := Search(ListEarlier(false)));
      SameClaim(c, linked);
      var block := SearchAnswer(Ordered(d, claim), |d.order|, Keys(c.scope), choice.names);
      WholeSearch(Ordered(d, claim), |d.order|, Keys(c.scope), choice.names);
      SearchedClaims(was, start, choice, Ordered(d, claim), linked, if block.Some? then Blocked(block.value) else Clear);
      DecideStage(was, start, choice, d, c, linked, block);
    }
  }

  lemma DecideStage(was: Dir, start: ClaimCall, choice: Choice, d: Dir, c: ClaimCall, linked: ClaimCall, block: Option<Block>)
    requires Claims(was, start, choice, Ordered(d, ClaimOf(c)), linked.(pc := AfterSearch(if block.Some? then Blocked(block.value) else Clear)))
    requires linked == c.(mine := true, seqNo := linked.seqNo, pc := linked.pc)
    requires c.handoff.Some? ==> c.handoff.value.id !in d.uses
    ensures var (e, result) := Decided(d, ClaimOf(c), c.handoff, block); Concluded(was, start, choice, e, result)
  {
    hide Claims, ClaimOf;
    var claim := ClaimOf(c);
    var e := Ordered(d, claim);
    if block.Some? {
      LostClaims(was, start, choice, e, linked.(pc := DecideLost(block.value)));
    } else {
      var deciding := linked.(pc := DecideWon);
      WonClaims(was, start, choice, e, deciding);
      var f := Publish(e, PutDecision(claim.id, Won));
      if !(claim.id in d.decisions && d.decisions[claim.id] != Won) {
        KeepStage(was, start, choice, f, deciding.(pc := AfterWinning(deciding)));
        SameClaim(c, deciding.(pc := PublishClaimFile));
      }
    }
  }

  lemma KeepStage(was: Dir, start: ClaimCall, choice: Choice, f: Dir, c: ClaimCall)
    requires Claims(was, start, choice, f, c) && c.pc == AfterWinning(c)
    requires c.handoff.Some? ==> c.handoff.value.id !in f.uses
    ensures var claim := ClaimOf(c.(pc := PublishClaimFile));
            var g := if c.handoff.Some? then Publish(f, PutUse(c.handoff.value.id, claim.id)) else f;
            Concluded(was, start, choice, Publish(g, PutClaimFile(claim)), Claimed(claim))
  {
    hide Claims, ClaimOf, Publish;
    if c.handoff.Some? {
      UsedClaims(was, start, choice, f, c);
      FiledClaims(was, start, choice, Publish(f, PutUse(c.handoff.value.id, c.id)), c.(pc := PublishClaimFile));
    } else {
      FiledClaims(was, start, choice, f, c);
    }
  }

  /** The handoff a call works under: the one it names, if it names one. */
  function HandoffOf(d: Dir, input: ClaimInput): Option<Handoff>
    requires input.handoffFrom.Some? ==> input.handoffFrom.value in d.handoffs
  {
    if input.handoffFrom.Some? then Some(d.handoffs[input.handoffFrom.value]) else None
  }

  /** The whole call, from the directory it finds. */
  function Answer(d: Dir, input: ClaimInput, id: Id, names: seq<Id>): (Dir, ClaimResult) {
    var reduced := CanonicalSet(input.paths);
    if Unusable(input, reduced) then (d, InvalidInput)
    else if input.handoffFrom.Some? && !Applicable(d, input.handoffFrom.value, input.owner, input.node, input.baseSha, reduced.value) then (d, HandoffInvalid)
    else if input.handoffFrom.None? && input.owner.role != INTEGRATOR && AnyHot(reduced.value) then (d, IntegratorOwned)
    else if id in d.attempts then (d, IdTaken)
    else
      var claim := WouldClaim(input, id, reduced.value, HandoffOf(d, input));
      Decided(d, claim, HandoffOf(d, input), SearchAnswer(Ordered(d, claim), |d.order|, Keys(reduced.value), names))
  }

  lemma WholeCall(d: Dir, input: ClaimInput, id: Id, names: seq<Id>)
    requires |d.order| !in d.order
    ensures var (e, result) := Answer(d, input, id, names); Concluded(d, FreshCall(input, id), Choice(true, names), e, result)
  {
    hide Claims, CanonicalSet, Unlockable, AnyHot, Complete, NonEmpty, Authorizes, SearchAnswer, Keys, Decided, ClaimOf;
    var start, choice, reduced := FreshCall(input, id), Choice(true, names), CanonicalSet(input.paths);
    BeganClaims(d, choice, input, id);
    if Unusable(input, reduced) {
      ConcludesHere(d, start, choice, d, start.(pc := Done(InvalidInput)));
    } else if input.handoffFrom.Some? {
      var read := start.(scope := reduced.value, pc := ReadHandoff(input.handoffFrom.value));
      HandoffClaims(d, start, choice, read);
      if Applicable(d, input.handoffFrom.value, input.owner, input.node, input.baseSha, reduced.value) {
        var c := read.(handoff := HandoffOf(d, input), pc := PublishAttempt);
        AuthorizesById(c.handoff.value, input.handoffFrom.value, input.owner, input.node, input.baseSha, reduced.value);
        AttemptStage(d, start, choice, d, c);
        SameClaim(c, ClaimCall(input, id, reduced.value, HandoffOf(d, input), false, 0, PublishAttempt));
      } else {
        ConcludesHere(d, start, choice, d, read.(pc := Done(HandoffInvalid)));
      }
    } else {
      var c := CheckHot(start.(scope := reduced.value));
      if c.pc.Done? {
        ConcludesHere(d, start, choice, d, c);
      } else {
        AttemptStage(d, start, choice, d, c);
        SameClaim(c, ClaimCall(input, id, reduced.value, None, false, 0, PublishAttempt));
      }
    }
  }

  // --- what a claim may be asked for ----------------------------------------------------------------------

  const HEX: string := "0123456789ABCDEF"

  /** The URI-encoded spelling of printable text. */
  function Encoded(path: string): string
    requires forall i :: 0 <= i < |path| ==> path[i] <= '~'
  {
    if path == "" then ""
    else
      var c := path[0];
      (if 'a' <= c <= 'z' || 'A' <= c <= 'Z' || '0' <= c <= '9' || c in "-_.!~*'()" then [c] else ['%', HEX[c as int / 16], HEX[c as int % 16]])
      + Encoded(path[1..])
  }

  lemma {:induction false} EncodedLength(path: string)
    requires forall i :: 0 <= i < |path| ==> path[i] <= '~'
    ensures |Encoded(path) + ".lock"| == LockNameLength(path)
  {
    if path != "" { EncodedLength(path[1..]); }
  }

  /** An accepted path is printable. */
  lemma AcceptedIsPrintable(path: string)
    requires Canonical(path).Ok?
    ensures forall i :: 0 <= i < |path| ==> path[i] <= '~'
  {
    hide Walk, Split, Spelled;
  }

  predicate LongLock(path: string) {
    Canonical(path).Ok? && (AcceptedIsPrintable(path); |Encoded(path) + ".lock"| > 255)
  }

  /**
   * No complete identity, no node or base, no path, a path that is refused, or one whose lock file name would
   * be longer than a file name may be.
   */
  ghost predicate Unfit(input: ClaimInput) {
    || !Complete(input.owner) || !NonEmpty(input.node) || !NonEmpty(input.baseSha) || input.paths == []
    || (exists i :: 0 <= i < |input.paths| && Canonical(input.paths[i]).Err?)
    || (CanonicalSet(input.paths).Ok? && exists i :: 0 <= i < |CanonicalSet(input.paths).value| && LongLock(CanonicalSet(input.paths).value[i].path))
  }

  lemma UnfitIff(input: ClaimInput)
    ensures Unusable(input, CanonicalSet(input.paths)) <==> Unfit(input)
  {
    hide Canonical, CanonicalSet, Complete, NonEmpty, LockNameLength, Encoded;
    ReadableSet(input.paths);
    if CanonicalSet(input.paths).Ok? {
      var scope := CanonicalSet(input.paths).value;
      ReducedAreCanonical(input.paths);
      forall i | 0 <= i < |scope| ensures LongLock(scope[i].path) <==> LockNameLength(scope[i].path) > MAX_FILE_NAME {
        assert scope[i] in scope;
        AcceptedIsPrintable(scope[i].path);
        EncodedLength(scope[i].path);
      }
    }
  }

  // --- the answers -----------------------------------------------------------------------------------

  /** The call gets as far as publishing: it is fit, and its handoff, or the absence of one, is in order. */
  ghost predicate MayTry(d: Dir, input: ClaimInput, claim: Claim) {
    && !Unfit(input) && CanonicalSet(input.paths).Ok?
    && if input.handoffFrom.Some?
       then Applicable(d, input.handoffFrom.value, input.owner, input.node, input.baseSha, CanonicalSet(input.paths).value)
       else input.owner.role == INTEGRATOR || !TouchesHot(claim)
  }

  /** The record a usable call would publish: the reduced spellings, and the handoff it names. */
  function ClaimFor(input: ClaimInput, id: Id): Claim
    requires CanonicalSet(input.paths).Ok?
  {
    Claim(id, input.node, input.owner, Spellings(CanonicalSet(input.paths).value), input.baseSha, input.handoffFrom)
  }

  lemma SamePublished(d: Dir, input: ClaimInput, id: Id)
    requires CanonicalSet(input.paths).Ok?
    requires input.handoffFrom.Some? ==>
               Applicable(d, input.handoffFrom.value, input.owner, input.node, input.baseSha, CanonicalSet(input.paths).value)
    ensures ClaimFor(input, id) == WouldClaim(input, id, CanonicalSet(input.paths).value, HandoffOf(d, input))
  {
    hide CanonicalSet, Authorizes;
    if input.handoffFrom.Some? {
      AuthorizesById(d.handoffs[input.handoffFrom.value], input.handoffFrom.value, input.owner, input.node, input.baseSha, CanonicalSet(input.paths).value);
    }
  }

  lemma HotInput(input: ClaimInput, id: Id)
    requires CanonicalSet(input.paths).Ok? && CanonicalSet(input.paths).value != []
    ensures AnyHot(CanonicalSet(input.paths).value) <==> TouchesHot(ClaimFor(input, id))
    ensures RecordedKeys(ClaimFor(input, id).paths) == Keyed(Keys(CanonicalSet(input.paths).value))
  {
    hide CanonicalSet, AnyHot, RecordedKeys, InCharter;
    var c := ClaimCall(input, id, CanonicalSet(input.paths).value, None, false, 0, PublishAttempt);
    HotScope(c);
    ScopeKeys(c);
    SamePaths(ClaimOf(c), ClaimFor(input, id));
  }

  lemma SamePaths(a: Claim, b: Claim)
    requires a.paths == b.paths
    ensures TouchesHot(a) == TouchesHot(b)
  {
    hide RecordedKeys, InCharter;
    assert forall key :: Covers(a, key) == Covers(b, key);
  }

  /** Publishing the attempt itself puts nothing in its own way. */
  lemma OrderedObstructs(d: Dir, claim: Claim)
    requires Dense(d) && claim.id !in d.claimFiles
    ensures var e, n := Ordered(d, claim), |d.order|;
            && (Obstructed(e, claim, n) <==> Obstructed(d, claim, n))
            && (forall block :: Names(e, claim, n, block) ==> Names(d, claim, n, block))
            && (forall m: nat :: m < n ==> m in e.order) && e.claimFiles == d.claimFiles
  {
    hide Overlap, Authoritative;
    var e := Ordered(d, claim);
    assert forall id :: EarlierHeld(e, id) <==> EarlierHeld(d, id);
    assert forall m :: m in d.order ==> m < |d.order| && e.order[m] == d.order[m];
    assert forall m :: m in e.order && m < |d.order| ==> m in d.order;
  }

  /**
   * Run alone from a reachable state, a claim is answered by exactly one of these, each when and only when
   * its reason holds; in particular a hot path without a handoff is answered as the integrator's.
   */
  lemma ClaimAnswers(d: Dir, input: ClaimInput, id: Id, names: seq<Id>, e: Dir, result: ClaimResult)
    requires Dense(d) && id !in d.claimFiles && forall name :: name in names <==> name in d.claimFiles
    requires Concluded(d, FreshCall(input, id), Choice(true, names), e, result)
    ensures result == InvalidInput <==> Unfit(input)
    ensures !Unfit(input) ==>
              && CanonicalSet(input.paths).Ok?
              && var claim, n := ClaimFor(input, id), |d.order|;
              && (result == HandoffInvalid <==>
                    input.handoffFrom.Some?
                    && !Applicable(d, input.handoffFrom.value, input.owner, input.node, input.baseSha, CanonicalSet(input.paths).value))
              && (result == IntegratorOwned <==> input.handoffFrom.None? && input.owner.role != INTEGRATOR && TouchesHot(claim))
              && (result == IdTaken <==> MayTry(d, input, claim) && id in d.attempts)
              && (result.Held? <==> MayTry(d, input, claim) && id !in d.attempts && Obstructed(d, claim, n))
              && (result.Held? ==> Names(d, claim, n, result.block))
              && (result.EndedBefore? <==>
                    MayTry(d, input, claim) && id !in d.attempts && !Obstructed(d, claim, n) && id in d.decisions && d.decisions[id] != Won)
              && (result == Claimed(claim) <==>
                    MayTry(d, input, claim) && id !in d.attempts && !Obstructed(d, claim, n) && (id in d.decisions ==> d.decisions[id] == Won))
              && (result.Claimed? ==> result.claim == claim)
  {
    hide Concluded, CanonicalSet, Unlockable, AnyHot, Complete, NonEmpty, Applicable, SearchAnswer, Keys, ClaimFor, WouldClaim, Ordered, Obstructed, Names, TouchesHot, RecordedKeys, Unfit;
    var (f, answer) := Answer(d, input, id, names);
    UnfitIff(input);
    OrderFree(d);
    WholeCall(d, input, id, names);
    ConcludesOnce(d, FreshCall(input, id), Choice(true, names), e, result, f, answer);
    if !Unusable(input, CanonicalSet(input.paths)) {
      var claim := ClaimFor(input, id);
      HotInput(input, id);
      if MayTry(d, input, claim) {
        SamePublished(d, input, id);
        OrderedObstructs(d, claim);
        AnswerMeans(Ordered(d, claim), claim, |d.order|, Keys(CanonicalSet(input.paths).value), names);
      }
    }
  }

  lemma OrderFree(d: Dir)
    requires Dense(d)
    ensures |d.order| !in d.order
  {
  }

  /**
   * And what it leaves: nothing unless it tried; then its attempt under the next number, lost if it was
   * held; and a claim it returns has won, is filed, and is its handoff's recorded user.
   */
  lemma ClaimLeaves(d: Dir, input: ClaimInput, id: Id, names: seq<Id>, e: Dir, result: ClaimResult)
    requires Dense(d) && id !in d.claimFiles
    requires Concluded(d, FreshCall(input, id), Choice(true, names), e, result)
    ensures result in [InvalidInput, HandoffInvalid, IntegratorOwned, IdTaken] ==> e == d
    ensures result !in [InvalidInput, HandoffInvalid, IntegratorOwned, IdTaken] ==>
              && CanonicalSet(input.paths).Ok? && (result.Held? || result.EndedBefore? || result.Claimed?)
              && var claim := ClaimFor(input, id);
                 var tried := d.(attempts := d.attempts[id := claim], order := d.order[|d.order| := claim]);
                 && (result.Held? ==> e == tried.(decisions := if id in d.decisions then d.decisions else d.decisions[id := Lost]))
                 && (result.EndedBefore? ==> e == tried)
                 && (result.Claimed? ==>
                       e == tried.(decisions := d.decisions[id := Won], claimFiles := d.claimFiles[id := claim],
                                   uses := if input.handoffFrom.Some? then d.uses[input.handoffFrom.value := id] else d.uses))
  {
    hide Concluded, CanonicalSet, Unlockable, AnyHot, Complete, NonEmpty, Authorizes, SearchAnswer, Keys, ClaimFor, WouldClaim, Decided, Ordered;
    var (f, answer) := Answer(d, input, id, names);
    OrderFree(d);
    WholeCall(d, input, id, names);
    ConcludesOnce(d, FreshCall(input, id), Choice(true, names), e, result, f, answer);
    var reduced := CanonicalSet(input.paths);
    if Tries(d, input, id) {
      SamePublished(d, input, id);
      if input.handoffFrom.Some? {
        AuthorizesById(d.handoffs[input.handoffFrom.value], input.handoffFrom.value, input.owner, input.node, input.baseSha, reduced.value);
      }
      var claim := ClaimFor(input, id);
      DecidedLeaves(d, claim, HandoffOf(d, input), SearchAnswer(Ordered(d, claim), |d.order|, Keys(reduced.value), names));
    }
  }

  predicate Tries(d: Dir, input: ClaimInput, id: Id) {
    var reduced := CanonicalSet(input.paths);
    && !Unusable(input, reduced) && id !in d.attempts
    && if input.handoffFrom.Some?
       then Applicable(d, input.handoffFrom.value, input.owner, input.node, input.baseSha, reduced.value)
       else input.owner.role == INTEGRATOR || !AnyHot(reduced.value)
  }

  lemma DecidedLeaves(d: Dir, claim: Claim, handoff: Option<Handoff>, block: Option<Block>)
    requires claim.id !in d.claimFiles && claim.id !in d.attempts && |d.order| !in d.order
    requires handoff.Some? ==> handoff.value.id !in d.uses
    ensures var (e, result) := Decided(d, claim, handoff, block);
            var tried := d.(attempts := d.attempts[claim.id := claim], order := d.order[|d.order| := claim]);
            && (result.Held? || result.EndedBefore? || result.Claimed?)
            && (result.Held? ==> e == tried.(decisions := if claim.id in d.decisions then d.decisions else d.decisions[claim.id := Lost]))
            && (result.EndedBefore? ==> e == tried)
            && (result.Claimed? ==>
                  e == tried.(decisions := d.decisions[claim.id := Won], claimFiles := d.claimFiles[claim.id := claim],
                              uses := if handoff.Some? then d.uses[handoff.value.id := claim.id] else d.uses))
  {
    var tried := d.(attempts := d.attempts[claim.id := claim], order := d.order[|d.order| := claim]);
    assert Ordered(d, claim) == tried;
    hide Ordered;
    if block.None? && !(claim.id in d.decisions && d.decisions[claim.id] != Won) { WonLeaves(tried, claim, handoff); }
  }

  lemma WonLeaves(d: Dir, claim: Claim, handoff: Option<Handoff>)
    requires claim.id !in d.claimFiles && (claim.id in d.decisions ==> d.decisions[claim.id] == Won)
    requires handoff.Some? ==> handoff.value.id !in d.uses
    ensures var f := Publish(d, PutDecision(claim.id, Won));
            var g := if handoff.Some? then Publish(f, PutUse(handoff.value.id, claim.id)) else f;
            Publish(g, PutClaimFile(claim)) ==
              d.(decisions := d.decisions[claim.id := Won], claimFiles := d.claimFiles[claim.id := claim],
                 uses := if handoff.Some? then d.uses[handoff.value.id := claim.id] else d.uses)
  {
    if claim.id in d.decisions { assert d.decisions == d.decisions[claim.id := Won]; }
  }
}
