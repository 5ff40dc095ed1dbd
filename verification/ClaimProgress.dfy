/** When a claim is refused, when it wins, and why nobody waits in a circle. */
module ClaimProgress {
  import opened Text
  import opened PathSets
  import opened Records
  import opened Directory
  import opened ClaimProtocol
  import opened ClaimInvariant
  import opened ClaimSteps
  import opened ClaimSafety
  import opened ClaimPromises

  // --- waiting ----------------------------------------------------------------------------------

  /** Call `p` waits for the attempt of call `q` to decide. */
  ghost predicate WaitsFor(s: State, p: Pid, q: Pid) {
    && Calls(s, p) && Calls(s, q)
    && CallOf(s, p).pc.Search? && CallOf(s, p).pc.search.ReadDecision?
    && CallOf(s, p).pc.search.entry.id == CallOf(s, q).id
    && CallOf(s, q).pc.Search?
  }

  lemma WaitsPointBack(s: State, p: Pid, q: Pid)
    requires Reachable(s) && WaitsFor(s, p, q)
    ensures CallOf(s, q).seqNo < CallOf(s, p).seqNo
  {
    hide Dense, RecordsSound, WinnersSound, UsesSound, Base, Scanned, EarlierSeen, HasWon;
    ReachableInv(s);
    ClaimIs(s, p);
    ClaimIs(s, q);
  }

  /** No chain of waiting calls returns to where it began. */
  lemma {:induction false} NoWaitingCycle(s: State, chain: seq<Pid>)
    requires Reachable(s) && |chain| >= 2
    requires forall i :: 0 <= i < |chain| - 1 ==> WaitsFor(s, chain[i], chain[i + 1])
    ensures chain[0] != chain[|chain| - 1]
    ensures Calls(s, chain[0]) && Calls(s, chain[|chain| - 1])
    ensures CallOf(s, chain[|chain| - 1]).seqNo < CallOf(s, chain[0]).seqNo
  {
    hide Reachable;
    var n := |chain|;
    assert WaitsFor(s, chain[n - 2], chain[n - 1]);
    WaitsPointBack(s, chain[n - 2], chain[n - 1]);
    if n > 2 {
      var init := chain[..n - 1];
      forall i | 0 <= i < |init| - 1 ensures WaitsFor(s, init[i], init[i + 1]) {
        assert WaitsFor(s, chain[i], chain[i + 1]);
      }
      NoWaitingCycle(s, init);
    }
  }

  // --- the search ends ----------------------------------------------------------------------------

  /** Stages still ahead, then work left in this one. */
  function SearchRank(seqNo: nat, s: SearchPc): (nat, int) {
    match s
    case ListEarlier(last) => (if last then 2 else 5, 0)
    case NextEarlier(last, todo, _) => (if last then 1 else 4, 3 * |todo|)
    case EarlierFirst(last, _, todo, _) => (if last then 1 else 4, 3 * |todo| + 2)
    case EarlierLater(last, _, todo, _) => (if last then 1 else 4, 3 * |todo| + 1)
    case ReadEntry(at) => (3, 4 * (seqNo - at))
    case ReadDecision(at, _) => (3, 4 * (seqNo - at) - 1)
    case ReadFirst(at, _) => (3, 4 * (seqNo - at) - 2)
    case ReadLater(at, _) => (3, 4 * (seqNo - at) - 3)
    case Blocked(_) => (0, 0)
    case Clear => (0, 0)
  }

  predicate Waiting(d: Dir, s: SearchPc, choice: Choice) {
    s.ReadDecision? && s.entry.id !in d.decisions && !choice.timeout
  }

  predicate Over(s: SearchPc) {
    s.Blocked? || s.Clear?
  }

  /** Every read brings the search closer to its end, unless it is waiting for an undecided attempt. */
  lemma SearchDescends(d: Dir, seqNo: nat, wanted: seq<string>, s: SearchPc, choice: Choice)
    requires !Over(s) && !Waiting(d, s, choice)
    ensures var before, after := SearchRank(seqNo, s), SearchRank(seqNo, SearchNext(d, seqNo, wanted, s, choice));
            after.0 < before.0 || (after.0 == before.0 && after.1 < before.1)
  {
    hide FirstOverlapping, OverlapsAny, EndedFirst, EndedLater, RecordedKeys;
  }

  /** The work left in a stage is never negative while the search is inside the order. */
  lemma SearchRankBounded(d: Dir, earlier: map<Id, Claim>, claim: Claim, seqNo: nat, s: SearchPc)
    requires SearchInv(d, earlier, claim, seqNo, s)
    ensures SearchRank(seqNo, s).1 >= 0
  {
    hide Scanned, EarlierSeen, EarlierClear, HasWon;
  }

  // --- why an attempt is refused --------------------------------------------------------------------

  /** No order entry below a linked attempt is ever missing. */
  lemma NeverMissing(s: State, p: Pid, choice: Choice)
    requires Reachable(s) && Calls(s, p) && CallOf(s, p).pc.Search?
    ensures var c := CallOf(s, p);
            !c.pc.search.Blocked? ==>
              forall n :: SearchNext(s.dir, c.seqNo, Keys(c.scope), c.pc.search, choice) != Blocked(MissingEntry(n))
  {
    hide OrderSound, RecordsSound, WinnersSound, UsesSound, Base, Scanned, EarlierSeen, HasWon, FirstOverlapping, OverlapsAny;
    ReachableInv(s);
    ClaimIs(s, p);
  }

  /** An attempt refused as undecided yields to an earlier overlapping attempt that has no decision. */
  lemma RefusedForUndecided(s: State, p: Pid, choice: Choice, entry: Claim)
    requires Reachable(s) && Calls(s, p) && CallOf(s, p).pc.Search?
    requires var c := CallOf(s, p);
             !Over(c.pc.search) && SearchNext(s.dir, c.seqNo, Keys(c.scope), c.pc.search, choice) == Blocked(Undecided(entry))
    ensures var at := CallOf(s, p).pc.search.at;
            at < CallOf(s, p).seqNo && at in s.dir.order && s.dir.order[at] == entry && Overlap(entry, ClaimOf(CallOf(s, p)))
    ensures entry.id !in s.dir.decisions && choice.timeout
  {
    hide Dense, OrderSound, RecordsSound, WinnersSound, UsesSound, Base, Scanned, EarlierSeen, HasWon, FirstOverlapping, OverlapsAny;
    ReachableInv(s);
    ClaimIs(s, p);
  }

  /**
   * An attempt refused as held yields to a claim that was won and unreleased when the search read
   * its first release name: the later name, read afterwards, was still without an authoritative record.
   */
  lemma RefusedForActive(s: State, events: seq<Event>, p: Pid, at: nat, entry: Claim)
    requires Inv(s) && ValidRun(s, events)
    requires Calls(s, p) && CallOf(s, p).pc == Search(ReadFirst(at, entry)) && !EndedFirst(s.dir, entry)
    requires !EndedLater(Run(s, events).dir, entry)
    ensures Active(s.dir, entry) && at < CallOf(s, p).seqNo && at in s.dir.order && s.dir.order[at] == entry
    ensures Overlap(entry, ClaimOf(CallOf(s, p)))
  {
    hide DirInv, Base, Scanned, EarlierSeen, Authoritative, ValidRun, Run;
    ClaimIs(s, p);
    RunKeeps(s, events);
  }

  // --- when an attempt wins ---------------------------------------------------------------------------

  /** Everything the attempt must yield to is over, and the search holds no reading from before that. */
  ghost predicate Unblocked(d: Dir, earlier: map<Id, Claim>, claim: Claim, seqNo: nat, s: SearchPc) {
    && seqNo <= |d.order|
    && Scanned(d, claim, seqNo) && EarlierClear(d, earlier, claim)
    && (match s
        case NextEarlier(_, _, found) => NoneOverlaps(found, claim)
        case EarlierFirst(_, current, _, found) => NoneOverlaps(found, claim) && (Overlap(current, claim) ==> Released(d, current))
        case EarlierLater(_, current, _, found) => NoneOverlaps(found, claim) && (Overlap(current, claim) ==> EndedLater(d, current))
        case ReadDecision(at, entry) => Finished(d, entry)
        case ReadFirst(at, entry) => Released(d, entry)
        case ReadLater(at, entry) => EndedLater(d, entry)
        case Blocked(_) => false
        case _ => true)
  }

  ghost predicate NoneOverlaps(found: seq<Claim>, claim: Claim) {
    forall f :: f in found ==> !Overlap(f, claim)
  }

  lemma UnblockedStays(d: Dir, e: Dir, earlier: map<Id, Claim>, claim: Claim, seqNo: nat, s: SearchPc)
    requires Dense(d) && Grows(d, e) && |d.order| <= |e.order| && Unblocked(d, earlier, claim, seqNo, s)
    ensures Unblocked(e, earlier, claim, seqNo, s)
  {
    hide Scanned, EarlierClear, Overlap, Authoritative, Dense;
    ScannedStays(d, e, claim, seqNo);
    ClearStays(d, e, earlier, claim);
  }

  ghost predicate EarlierRecords(d: Dir, earlier: map<Id, Claim>) {
    forall id :: id in d.claimFiles && id !in d.attempts ==> id in earlier && earlier[id] == d.claimFiles[id]
  }

  lemma RecordsOfEarlier(s: State)
    requires Inv(s)
    ensures EarlierRecords(s.dir, s.earlier)
  {
    hide RecordedKeys, Dense, OrderSound, WinnersSound, UsesSound, ProcInv;
  }

  /** A search with nothing left to yield to goes on to the end without finding a reason to refuse. */
  lemma UnblockedAdvances(d: Dir, earlier: map<Id, Claim>, claim: Claim, seqNo: nat, wanted: seq<string>, s: SearchPc, choice: Choice)
    requires Dense(d) && EarlierRecords(d, earlier) && RecordedKeys(claim.paths) == Keyed(wanted)
    requires SearchInv(d, earlier, claim, seqNo, s) && Unblocked(d, earlier, claim, seqNo, s)
    ensures Unblocked(d, earlier, claim, seqNo, SearchNext(d, seqNo, wanted, s, choice))
    ensures !Waiting(d, s, choice)
  {
    hide Dense, Authoritative, RecordedKeys;
    match s
    case ListEarlier(_) => assert NoneOverlaps([], claim);
    case NextEarlier(_, todo, found) => NextUnblocked(d, earlier, claim, seqNo, wanted, s, choice);
    case EarlierFirst(_, _, _, _) =>
    case EarlierLater(_, _, _, _) =>
    case ReadEntry(at) => EntryUnblocked(d, earlier, claim, seqNo, wanted, s, choice);
    case ReadDecision(at, entry) =>
    case ReadFirst(at, entry) =>
    case ReadLater(at, entry) =>
    case Clear =>
  }

  lemma NextUnblocked(d: Dir, earlier: map<Id, Claim>, claim: Claim, seqNo: nat, wanted: seq<string>, s: SearchPc, choice: Choice)
    requires EarlierRecords(d, earlier) && RecordedKeys(claim.paths) == Keyed(wanted)
    requires s.NextEarlier? && Unblocked(d, earlier, claim, seqNo, s)
    ensures Unblocked(d, earlier, claim, seqNo, SearchNext(d, seqNo, wanted, s, choice))
  {
    hide Scanned, EndedFirst, EndedLater, OverlapsAny, RecordedKeys;
  }

  lemma EntryUnblocked(d: Dir, earlier: map<Id, Claim>, claim: Claim, seqNo: nat, wanted: seq<string>, s: SearchPc, choice: Choice)
    requires Dense(d) && RecordedKeys(claim.paths) == Keyed(wanted)
    requires s.ReadEntry? && Unblocked(d, earlier, claim, seqNo, s)
    ensures Unblocked(d, earlier, claim, seqNo, SearchNext(d, seqNo, wanted, s, choice))
  {
    hide Authoritative, OverlapsAny, RecordedKeys, EarlierClear;
  }

  /** The call has nothing left to yield to, or is past its search and was not refused. */
  ghost predicate Favoured(s: State, p: Pid) {
    && Calls(s, p)
    && (var c := CallOf(s, p);
        match c.pc
        case Search(search) => Unblocked(s.dir, s.earlier, ClaimOf(c), c.seqNo, search)
        case DecideWon => true
        case ReadOwnDecision => true
        case PublishUse => true
        case ReadUse => true
        case GiveBack(_, _) => true
        case PublishClaimFile => true
        case Done(result) => !result.Held?
        case _ => false)
  }

  lemma FavouredStep(s: State, p: Pid, choice: Choice)
    requires Inv(s) && Enabled(s, Advance(p, choice)) && Favoured(s, p)
    ensures Favoured(Apply(s, Advance(p, choice)), p)
  {
    hide Inv, ClaimOf, Unblocked, SearchNext, Publish, ClaimWrite, ReleaseNext, GiveBackCall;
    var c := CallOf(s, p);
    OnlyMoved(s.dir, c, ClaimNext(s.dir, c, choice));
    if c.pc.Search? { FavouredSearch(s, p, choice); }
  }

  lemma FavouredSearch(s: State, p: Pid, choice: Choice)
    requires Inv(s) && Calls(s, p) && CallOf(s, p).pc.Search? && Favoured(s, p)
    ensures var c := CallOf(s, p);
            var next := SearchNext(s.dir, c.seqNo, Keys(c.scope), c.pc.search, choice);
            Unblocked(s.dir, s.earlier, ClaimOf(c), c.seqNo, next) && !next.Blocked?
    ensures Publish(s.dir, ClaimWrite(CallOf(s, p))) == s.dir
    ensures !Waiting(s.dir, CallOf(s, p).pc.search, choice)
  {
    hide Inv, ClaimOf, SearchNext, SearchInv, Base, Scanned, EarlierClear, EarlierRecords, HasWon, InOrder, Dense;
    var c := CallOf(s, p);
    ClaimIs(s, p);
    BaseKeys(s.dir, c);
    RecordsOfEarlier(s);
    InvDense(s);
    UnblockedAdvances(s.dir, s.earlier, ClaimOf(c), c.seqNo, Keys(c.scope), c.pc.search, choice);
  }

  lemma InvDense(s: State)
    requires Inv(s)
    ensures Dense(s.dir)
  {
    hide OrderSound, RecordsSound, WinnersSound, UsesSound, ProcInv;
  }

  lemma FavouredByOthers(s: State, p: Pid, event: Event)
    requires Inv(s) && Enabled(s, event) && Favoured(s, p)
    requires event != Crash(p) && !(event.Advance? && event.pid == p)
    ensures Favoured(Apply(s, event), p)
  {
    hide Inv, Publish, ClaimNext, ReleaseNext, ClaimWrite, ReleaseWrite, Unblocked, Grows, Dense, ClaimOf, Authoritative;
    InvDense(s);
    EventGrows(s, event);
    EventOrderGrows(s, event);
    if CallOf(s, p).pc.Search? {
      var c := CallOf(s, p);
      UnblockedStays(s.dir, Apply(s, event).dir, s.earlier, ClaimOf(c), c.seqNo, c.pc.search);
    }
  }

  lemma EventOrderGrows(s: State, event: Event)
    ensures |s.dir.order| <= |Apply(s, event).dir.order|
  {
    hide Publish, ClaimNext, ReleaseNext, ClaimWrite, ReleaseWrite;
    match event
    case Start(_, _) =>
    case Crash(_) =>
    case Advance(pid, choice) =>
      if pid in s.procs {
        match s.procs[pid]
        case Claiming(c) => OrderGrows(s.dir, ClaimWrite(c));
        case Releasing(r) => OrderGrows(s.dir, ReleaseWrite(r));
      }
    case Foreign(later, release) => OrderGrows(s.dir, if later then PutLaterRelease(release) else PutFirstRelease(release));
    case Offer(handoff) => OrderGrows(s.dir, PutHandoff(handoff));
  }

  /**
   * An attempt whose earlier overlapping attempts are all finished is never refused as held,
   * whatever every other call does from then on.
   */
  lemma {:induction false} UnblockedIsNeverRefused(s: State, events: seq<Event>, p: Pid)
    requires Inv(s) && ValidRun(s, events) && Favoured(s, p)
    requires Crash(p) !in events
    ensures Favoured(Run(s, events), p)
    decreases |events|
  {
    hide Inv, Favoured, Enabled, Apply;
    if events != [] {
      assert events[0] in events;
      ApplyKeeps(s, events[0]);
      if events[0].Advance? && events[0].pid == p {
        FavouredStep(s, p, events[0].choice);
      } else {
        FavouredByOthers(s, p, events[0]);
      }
      UnblockedIsNeverRefused(Apply(s, events[0]), events[1..], p);
    }
  }

  /** Left to itself such an attempt wins, unless it was ended while it waited. */
  lemma {:induction false} UnblockedDecides(s: State, p: Pid, names: seq<Id>) returns (events: seq<Event>)
    requires Inv(s) && Calls(s, p) && Favoured(s, p) && CallOf(s, p).pc.Search?
    requires forall id :: id in names <==> id in s.dir.claimFiles
    ensures ValidRun(s, events) && Calls(Run(s, events), p) && CallOf(Run(s, events), p).id == CallOf(s, p).id
    ensures var d := Run(s, events).dir; CallOf(s, p).id in d.decisions
    ensures CallOf(s, p).id !in s.dir.decisions ==>
              HasWon(Run(s, events).dir, CallOf(s, p).id) && Run(s, events).dir == Put(s.dir, PutDecision(CallOf(s, p).id, Won))
    decreases SearchRank(CallOf(s, p).seqNo, CallOf(s, p).pc.search).0, SearchRank(CallOf(s, p).seqNo, CallOf(s, p).pc.search).1
  {
    hide Inv, Favoured, SearchNext, SearchRank, Publish, ClaimWrite, Unblocked;
    var choice := Choice(false, names);
    var event := Advance(p, choice);
    var t := Apply(s, event);
    ApplyKeeps(s, event);
    FavouredStep(s, p, choice);
    OneMoreRead(s, p, choice);
    SearchBounded(s, p);
    var later: seq<Event>;
    if CallOf(t, p).pc.Search? {
      later := UnblockedDecides(t, p, names);
    } else {
      later := [event];
      DecidesNow(t, p, choice);
    }
    events := [event] + later;
    assert events[1..] == later;
  }

  lemma OneMoreRead(s: State, p: Pid, choice: Choice)
    requires Inv(s) && Calls(s, p) && Favoured(s, p) && CallOf(s, p).pc.Search?
    ensures var t := Apply(s, Advance(p, choice));
            && Calls(t, p) && CallOf(t, p).id == CallOf(s, p).id && t.dir == s.dir
            && (CallOf(t, p).pc.DecideWon? || CallOf(t, p).pc.Search?)
            && (CallOf(t, p).pc.Search? ==>
                  var before, after := SearchRank(CallOf(s, p).seqNo, CallOf(s, p).pc.search), SearchRank(CallOf(t, p).seqNo, CallOf(t, p).pc.search);
                  after.0 < before.0 || (after.0 == before.0 && after.1 < before.1))
  {
    hide Inv, Favoured, SearchNext, SearchRank, Unblocked, Publish;
    var c := CallOf(s, p);
    FavouredSearch(s, p, choice);
    UnblockedIsGoing(s, p);
    SearchDescends(s.dir, c.seqNo, Keys(c.scope), c.pc.search, choice);
  }

  lemma UnblockedIsGoing(s: State, p: Pid)
    requires Inv(s) && Favoured(s, p) && CallOf(s, p).pc.Search?
    ensures !Over(CallOf(s, p).pc.search)
  {
    hide Inv, Scanned, EarlierClear, Base;
    ClaimIs(s, p);
  }

  lemma SearchBounded(s: State, p: Pid)
    requires Inv(s) && Favoured(s, p) && CallOf(s, p).pc.Search?
    ensures SearchRank(CallOf(s, p).seqNo, CallOf(s, p).pc.search).1 >= 0
  {
    hide Inv, Unblocked, SearchRank, SearchInv, Base;
    ClaimIs(s, p);
    SearchRankBounded(s.dir, s.earlier, ClaimOf(CallOf(s, p)), CallOf(s, p).seqNo, CallOf(s, p).pc.search);
  }

  lemma DecidesNow(t: State, p: Pid, choice: Choice)
    requires Calls(t, p) && CallOf(t, p).pc.DecideWon? && Enabled(t, Advance(p, choice))
    ensures ValidRun(t, [Advance(p, choice)])
    ensures var u := Run(t, [Advance(p, choice)]);
            && Calls(u, p) && CallOf(u, p).id == CallOf(t, p).id && CallOf(t, p).id in u.dir.decisions
            && (CallOf(t, p).id !in t.dir.decisions ==>
                  HasWon(u.dir, CallOf(t, p).id) && u.dir == Put(t.dir, PutDecision(CallOf(t, p).id, Won)))
  {
    var event := Advance(p, choice);
    assert Run(Apply(t, event), []) == Apply(t, event);
    assert [event][1..] == [];
  }
}
