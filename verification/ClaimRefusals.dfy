/** Every refusal a call returns as held was earned: by an overlapping claim that really stood in its way. */
module ClaimRefusals {
  import opened Text
  import opened PathSets
  import opened Records
  import opened Directory
  import opened ClaimProtocol
  import opened ClaimInvariant
  import opened ClaimSteps
  import opened ClaimSafety
  import opened ClaimPromises
  import opened ClaimProgress

  // --- what a run has shown -------------------------------------------------------------------

  /** The directory at every moment of the run. */
  ghost function Moments(s: State, events: seq<Event>): iset<Dir> {
    iset k: nat | k <= |events| :: Run(s, events[..k]).dir
  }

  /** At this step the call `p` looks whether `entry` is decided, and its wait is over. */
  predicate TimesOut(t: State, event: Event, p: Pid, entry: Claim) {
    && event.Advance? && event.pid == p && event.choice.timeout
    && p in t.procs && t.procs[p].Claiming? && t.procs[p].claimCall.pc.Search?
    && t.procs[p].claimCall.pc.search.ReadDecision? && t.procs[p].claimCall.pc.search.entry == entry
  }

  /** The directory and the entry of every such read. */
  ghost function LastReads(s: State, events: seq<Event>, p: Pid): iset<(Dir, Claim)> {
    iset k: nat, entry: Claim | k < |events| && TimesOut(Run(s, events[..k]), events[k], p, entry) :: (Run(s, events[..k]).dir, entry)
  }

  predicate IsEarlier(earlier: map<Id, Claim>, claim: Claim) {
    claim.id in earlier && earlier[claim.id] == claim
  }

  predicate EntryBelow(d: Dir, seqNo: nat, claim: Claim) {
    exists n :: n in d.order && n < seqNo && d.order[n] == claim
  }

  ghost predicate WasActive(past: iset<Dir>, claim: Claim) {
    exists d :: d in past && Active(d, claim)
  }

  ghost predicate WasUnreleased(past: iset<Dir>, claim: Claim) {
    exists d :: d in past && !Released(d, claim)
  }

  ghost predicate WasUndecided(timed: iset<(Dir, Claim)>, claim: Claim) {
    exists d :: (d, claim) in timed && claim.id !in d.decisions
  }

  /**
   * Why refusing `claim` at `seqNo` was right: an overlapping entry before it that was active at
   * some moment, or undecided when the wait for it ran out, or an overlapping claim of the earlier
   * tool that was unreleased at some moment.
   */
  ghost predicate Earned(past: iset<Dir>, timed: iset<(Dir, Claim)>, d: Dir, earlier: map<Id, Claim>, seqNo: nat, claim: Claim, block: Block) {
    match block
    case HeldBy(holder) =>
      && Overlap(holder, claim)
      && ((EntryBelow(d, seqNo, holder) && WasActive(past, holder)) || (IsEarlier(earlier, holder) && WasUnreleased(past, holder)))
    case Undecided(entry) => Overlap(entry, claim) && EntryBelow(d, seqNo, entry) && WasUndecided(timed, entry)
    case MissingEntry(_) => false
  }

  // --- what a search still carries ---------------------------------------------------------------

  ghost predicate FoundHeld(past: iset<Dir>, earlier: map<Id, Claim>, found: seq<Claim>) {
    forall f :: f in found ==> IsEarlier(earlier, f) && WasUnreleased(past, f)
  }

  ghost predicate FirstNameMissed(past: iset<Dir>, claim: Claim) {
    exists d :: d in past && !EndedFirst(d, claim)
  }

  ghost predicate WonFirstNameMissed(past: iset<Dir>, claim: Claim) {
    exists d :: d in past && HasWon(d, claim.id) && !EndedFirst(d, claim)
  }

  ghost predicate SearchSaw(past: iset<Dir>, earlier: map<Id, Claim>, s: SearchPc) {
    match s
    case NextEarlier(_, _, found) => FoundHeld(past, earlier, found)
    case EarlierFirst(_, current, _, found) => FoundHeld(past, earlier, found) && IsEarlier(earlier, current)
    case EarlierLater(_, current, _, found) => FoundHeld(past, earlier, found) && IsEarlier(earlier, current) && FirstNameMissed(past, current)
    case ReadLater(_, entry) => WonFirstNameMissed(past, entry)
    case _ => true
  }

  ghost predicate CallSaw(past: iset<Dir>, timed: iset<(Dir, Claim)>, d: Dir, earlier: map<Id, Claim>, c: ClaimCall) {
    match c.pc
    case Search(search) => SearchSaw(past, earlier, search)
    case DecideLost(block) => Earned(past, timed, d, earlier, c.seqNo, ClaimOf(c), block)
    case Done(result) => result.Held? ==> Earned(past, timed, d, earlier, c.seqNo, ClaimOf(c), result.block)
    case _ => true
  }

  // --- one read of the search ------------------------------------------------------------------------

  lemma FirstIsFound(found: seq<Claim>, wanted: seq<string>)
    ensures FirstOverlapping(found, wanted).Some? ==>
              FirstOverlapping(found, wanted).value in found && OverlapsAny(RecordedKeys(FirstOverlapping(found, wanted).value.paths), wanted)
  {
    hide OverlapsAny, RecordedKeys;
  }

  lemma OverlapByKeys(a: Claim, claim: Claim, wanted: seq<string>)
    requires RecordedKeys(claim.paths) == Keyed(wanted)
    ensures Overlap(a, claim) == OverlapsAny(RecordedKeys(a.paths), wanted)
  {
    hide OverlapsAny, RecordedKeys;
  }

  lemma EarlierRead(past: iset<Dir>, timed: iset<(Dir, Claim)>, d: Dir, earlier: map<Id, Claim>, claim: Claim, seqNo: nat, wanted: seq<string>,
                    s: SearchPc, choice: Choice)
    requires d in past && EarlierRecords(d, earlier) && RecordedKeys(claim.paths) == Keyed(wanted)
    requires forall id :: id in earlier ==> earlier[id].id == id
    requires s.NextEarlier? && SearchSaw(past, earlier, s)
    ensures var n := SearchNext(d, seqNo, wanted, s, choice);
            if n.Blocked? then Earned(past, timed, d, earlier, seqNo, claim, n.block) else SearchSaw(past, earlier, n)
  {
    hide OverlapsAny, RecordedKeys, Overlap, Released, FirstOverlapping, EndedFirst, EndedLater, Active, WasUnreleased;
    if s.todo == [] {
      FirstIsFound(s.found, wanted);
      var first := FirstOverlapping(s.found, wanted);
      if first.Some? { OverlapByKeys(first.value, claim, wanted); }
    }
  }

  /** The two release names are read one after the other; a claim found under neither was unreleased at the first read. */
  lemma NamesRead(past: iset<Dir>, d: Dir, claim: Claim)
    requires d in past && (forall e :: e in past ==> Grows(e, d)) && !EndedLater(d, claim)
    ensures FirstNameMissed(past, claim) ==> WasUnreleased(past, claim)
    ensures WonFirstNameMissed(past, claim) ==> WasActive(past, claim)
  {
    hide Authoritative;
    if WonFirstNameMissed(past, claim) {
      var e :| e in past && HasWon(e, claim.id) && !EndedFirst(e, claim);
      assert Active(e, claim);
    }
    if FirstNameMissed(past, claim) {
      var e :| e in past && !EndedFirst(e, claim);
      assert !Released(e, claim);
    }
  }

  lemma OtherRead(past: iset<Dir>, timed: iset<(Dir, Claim)>, d: Dir, earlier: map<Id, Claim>, claim: Claim, seqNo: nat, wanted: seq<string>,
                  s: SearchPc, choice: Choice)
    requires d in past && (forall e :: e in past ==> Grows(e, d)) && RecordedKeys(claim.paths) == Keyed(wanted)
    requires Dense(d) && seqNo <= |d.order| && SearchInv(d, earlier, claim, seqNo, s)
    requires s.ReadDecision? && choice.timeout ==> (d, s.entry) in timed
    requires !s.NextEarlier? && !Over(s) && SearchSaw(past, earlier, s)
    ensures var n := SearchNext(d, seqNo, wanted, s, choice);
            if n.Blocked? then Earned(past, timed, d, earlier, seqNo, claim, n.block) else SearchSaw(past, earlier, n)
  {
    hide OverlapsAny, RecordedKeys, Overlap, FirstOverlapping, EndedFirst, EndedLater, Grows, Scanned, EarlierSeen,
      WasUnreleased, WasActive, FirstNameMissed, WonFirstNameMissed, HasWon;
    match s
    case EarlierFirst(_, current, _, _) => if !EndedFirst(d, current) { SeenNow(past, d, current); }
    case EarlierLater(_, current, _, found) =>
      if !EndedLater(d, current) { NamesRead(past, d, current); }
    case ReadFirst(_, entry) => if !EndedFirst(d, entry) { SeenNow(past, d, entry); }
    case ReadLater(_, entry) => if !EndedLater(d, entry) { NamesRead(past, d, entry); }
    case ReadDecision(_, entry) => if entry.id !in d.decisions && choice.timeout { assert WasUndecided(timed, entry); }
    case _ =>
  }

  lemma SeenNow(past: iset<Dir>, d: Dir, claim: Claim)
    requires d in past && !EndedFirst(d, claim)
    ensures FirstNameMissed(past, claim)
    ensures HasWon(d, claim.id) ==> WonFirstNameMissed(past, claim)
  {
    hide EndedFirst;
  }

  lemma SearchSees(past: iset<Dir>, timed: iset<(Dir, Claim)>, d: Dir, earlier: map<Id, Claim>, claim: Claim, seqNo: nat, wanted: seq<string>,
                   s: SearchPc, choice: Choice)
    requires d in past && (forall e :: e in past ==> Grows(e, d)) && RecordedKeys(claim.paths) == Keyed(wanted)
    requires EarlierRecords(d, earlier) && forall id :: id in earlier ==> earlier[id].id == id
    requires Dense(d) && seqNo <= |d.order| && SearchInv(d, earlier, claim, seqNo, s)
    requires s.ReadDecision? && choice.timeout ==> (d, s.entry) in timed
    requires !Over(s) && SearchSaw(past, earlier, s)
    ensures var n := SearchNext(d, seqNo, wanted, s, choice);
            if n.Blocked? then Earned(past, timed, d, earlier, seqNo, claim, n.block) else SearchSaw(past, earlier, n)
  {
    hide SearchSaw, SearchInv, Earned, EarlierRecords, SearchNext, Dense, Grows;
    if s.NextEarlier? {
      EarlierRead(past, timed, d, earlier, claim, seqNo, wanted, s, choice);
    } else {
      OtherRead(past, timed, d, earlier, claim, seqNo, wanted, s, choice);
    }
  }

  // --- one step of the run -----------------------------------------------------------------------------

  /** What was seen stays seen as the run goes on. */
  lemma SawStays(past: iset<Dir>, timed: iset<(Dir, Claim)>, d: Dir, later: iset<Dir>, more: iset<(Dir, Claim)>, e: Dir, earlier: map<Id, Claim>, c: ClaimCall)
    requires past <= later && timed <= more && Grows(d, e) && CallSaw(past, timed, d, earlier, c)
    ensures CallSaw(later, more, e, earlier, c)
  {
    hide Overlap, Active, Released, EndedFirst, HasWon, ClaimOf;
    assert forall n :: n in d.order ==> n in e.order && e.order[n] == d.order[n];
  }

  lemma CallSees(past: iset<Dir>, timed: iset<(Dir, Claim)>, d: Dir, earlier: map<Id, Claim>, c: ClaimCall, choice: Choice)
    requires d in past && (forall e :: e in past ==> Grows(e, d))
    requires DirInv(d, earlier) && EarlierRecords(d, earlier) && ClaimInv(d, earlier, c) && CallSaw(past, timed, d, earlier, c)
    requires c.pc.Search? && c.pc.search.ReadDecision? && choice.timeout ==> (d, c.pc.search.entry) in timed
    ensures CallSaw(past, timed, d, earlier, ClaimNext(d, c, choice))
  {
    hide DirInv, EarlierRecords, Earned, SearchNext, ClaimOf, FoundHeld, FirstNameMissed, WonFirstNameMissed, SearchInv, Base, Grows, InOrder, HasWon, ReleaseNext, Prepare, CheckHot, GiveBackCall;
    var n := ClaimNext(d, c, choice);
    OnlyMoved(d, c, n);
    if c.pc.Search? {
      BaseKeys(d, c);
      BelowDense(d, earlier, c);
      SearchSees(past, timed, d, earlier, ClaimOf(c), c.seqNo, Keys(c.scope), c.pc.search, choice);
    } else {
      QuietNext(d, c, choice);
    }
  }

  lemma BelowDense(d: Dir, earlier: map<Id, Claim>, c: ClaimCall)
    requires DirInv(d, earlier) && InOrder(d, c)
    ensures Dense(d) && c.seqNo <= |d.order|
    ensures forall id :: id in earlier ==> earlier[id].id == id
  {
    hide OrderSound, WinnersSound, UsesSound, RecordedKeys, ClaimOf;
  }

  /** Outside its search a call carries no finding but the one it refuses by. */
  lemma QuietNext(d: Dir, c: ClaimCall, choice: Choice)
    requires !c.pc.Search?
    ensures var n := ClaimNext(d, c, choice);
            && (n.pc.Search? ==> n.pc.search.ListEarlier?)
            && (n.pc.DecideLost? ==> n == c)
            && (n.pc.Done? && n.pc.result.Held? ==>
                  n == c || (c.pc.DecideLost? && n.pc.result.block == c.pc.block && n == c.(pc := n.pc)))
  {
    hide Authorizes, CanonicalSet, ReleaseNext, GiveBackCall, Unlockable, AnyHot, Complete, NonEmpty;
  }

  lemma RunSnoc(s: State, events: seq<Event>)
    requires events != [] && ValidRun(s, events)
    ensures var init, last := events[..|events| - 1], events[|events| - 1];
            ValidRun(s, init) && Enabled(Run(s, init), last) && Run(s, events) == Apply(Run(s, init), last)
    decreases |events|
  {
    hide Enabled, Apply;
    if |events| == 1 {
      assert events[..0] == [] && events[1..] == [];
    } else {
      RunSnoc(Apply(s, events[0]), events[1..]);
      assert events[1..][..|events| - 2] == events[..|events| - 1][1..];
    }
  }

  /** Everything shown before is shown still, and the present moment with it. */
  lemma ShownStays(s: State, events: seq<Event>, p: Pid, entry: Claim)
    requires events != []
    ensures var init := events[..|events| - 1];
            Moments(s, init) <= Moments(s, events) && LastReads(s, init, p) <= LastReads(s, events, p)
    ensures Run(s, events[..|events| - 1]).dir in Moments(s, events)
    ensures var t := Run(s, events[..|events| - 1]);
            TimesOut(t, events[|events| - 1], p, entry) ==> (t.dir, entry) in LastReads(s, events, p)
  {
    hide Run, TimesOut;
    var init := events[..|events| - 1];
    forall k: nat | k <= |init| ensures events[..k] == init[..k] {}
    assert events[..|init|] == init;
    forall k: nat | k < |init| ensures events[k] == init[k] {}
  }

  /** Every directory of a run up to here has only grown into the present one. */
  lemma MomentsGrow(s: State, events: seq<Event>)
    requires Inv(s) && ValidRun(s, events)
    ensures forall d :: d in Moments(s, events) ==> Grows(d, Run(s, events).dir)
    decreases |events|
  {
    hide Inv, Grows, Enabled, Apply;
    if events == [] {
      NothingGrows(s.dir);
      assert forall k: nat :: k <= 0 ==> events[..k] == [];
    } else {
      RunSnoc(s, events);
      var init, last := events[..|events| - 1], events[|events| - 1];
      MomentsGrow(s, init);
      RunKeeps(s, init);
      ApplyKeeps(Run(s, init), last);
      NothingGrows(Run(s, events).dir);
      forall d | d in Moments(s, events) ensures Grows(d, Run(s, events).dir) {
        var k: nat :| k <= |events| && d == Run(s, events[..k]).dir;
        if k < |events| {
          assert events[..k] == init[..k];
          GrowsTransitive(d, Run(s, init).dir, Run(s, events).dir);
        } else {
          assert events[..k] == events;
        }
      }
    }
  }

  ghost predicate Saw(s: State, events: seq<Event>, p: Pid) {
    var t := Run(s, events);
    Calls(t, p) ==> CallSaw(Moments(s, events), LastReads(s, events, p), t.dir, t.earlier, CallOf(t, p))
  }

  lemma SawNow(past: iset<Dir>, timed: iset<(Dir, Claim)>, d: Dir, earlier: map<Id, Claim>, c: ClaimCall)
    requires c.pc.Begin?
    ensures CallSaw(past, timed, d, earlier, c)
  {
  }

  lemma StepSees(s: State, events: seq<Event>, p: Pid)
    requires Inv(s) && events != [] && ValidRun(s, events) && Saw(s, events[..|events| - 1], p)
    ensures Saw(s, events, p)
  {
    hide Inv, CallSaw, Moments, LastReads, Grows, ValidRun, Run, ClaimNext, ClaimWrite, ReleaseNext, ReleaseWrite, Publish, DirInv, EarlierRecords;
    var init, last := events[..|events| - 1], events[|events| - 1];
    var t := Run(s, init);
    var u := Run(s, events);
    RunSnoc(s, events);
    RunKeeps(s, init);
    ApplyKeeps(t, last);
    SameEarlier(t, last);
    if Calls(u, p) {
      ShownStays(s, events, p, ClaimOf(CallOf(u, p)));
      if last.Start? && last.pid == p {
        SawNow(Moments(s, events), LastReads(s, events, p), u.dir, u.earlier, CallOf(u, p));
      } else if last.Advance? && last.pid == p {
        CallMoves(s, events, p);
      } else {
        assert Calls(t, p) && CallOf(t, p) == CallOf(u, p);
        SawStays(Moments(s, init), LastReads(s, init, p), t.dir, Moments(s, events), LastReads(s, events, p), u.dir, u.earlier, CallOf(u, p));
      }
    }
  }

  lemma CallMoves(s: State, events: seq<Event>, p: Pid)
    requires Inv(s) && events != [] && ValidRun(s, events) && Saw(s, events[..|events| - 1], p)
    requires events[|events| - 1].Advance? && events[|events| - 1].pid == p
    requires Calls(Run(s, events), p)
    ensures Saw(s, events, p)
  {
    hide Inv, CallSaw, Moments, LastReads, Grows, ValidRun, Run, ClaimNext, ClaimWrite, ReleaseNext, ReleaseWrite, Publish, DirInv, EarlierRecords, ClaimInv;
    var init, last := events[..|events| - 1], events[|events| - 1];
    var t := Run(s, init);
    var u := Run(s, events);
    RunSnoc(s, events);
    RunKeeps(s, init);
    ApplyKeeps(t, last);
    MomentsGrow(s, init);
    assert Calls(t, p);
    var c := CallOf(t, p);
    ShownStays(s, events, p, if c.pc.Search? && c.pc.search.ReadDecision? then c.pc.search.entry else ClaimOf(c));
    ClaimIs(t, p);
    RecordsOfEarlier(t);
    InvDirInv(t);
    GrowIntoPresent(s, events);
    SawStays(Moments(s, init), LastReads(s, init, p), t.dir, Past(s, events), LastReads(s, events, p), t.dir, t.earlier, c);
    CallSees(Past(s, events), LastReads(s, events, p), t.dir, t.earlier, c, last.choice);
    SawStays(Past(s, events), LastReads(s, events, p), t.dir, Moments(s, events), LastReads(s, events, p), u.dir, u.earlier, CallOf(u, p));
  }

  /** The moments before the last step. */
  ghost function Past(s: State, events: seq<Event>): iset<Dir>
    requires events != []
  {
    Moments(s, events[..|events| - 1])
  }

  lemma GrowIntoPresent(s: State, events: seq<Event>)
    requires events != []
    ensures Run(s, events[..|events| - 1]).dir in Past(s, events)
    ensures Grows(Run(s, events[..|events| - 1]).dir, Run(s, events[..|events| - 1]).dir)
  {
    hide Run, Grows;
    var init := events[..|events| - 1];
    assert init[..|init|] == init;
    NothingGrows(Run(s, init).dir);
  }

  lemma InvDirInv(s: State)
    requires Inv(s)
    ensures DirInv(s.dir, s.earlier)
  {
    hide DirInv;
  }

  lemma {:induction false} RunSees(s: State, events: seq<Event>, p: Pid)
    requires Inv(s) && ValidRun(s, events)
    requires Calls(s, p) ==> CallOf(s, p).pc.Begin?
    ensures Saw(s, events, p)
    decreases |events|
  {
    hide Inv, CallSaw, Moments, LastReads, Enabled, Apply;
    if events == [] {
      if Calls(s, p) { SawNow(Moments(s, events), LastReads(s, events, p), s.dir, s.earlier, CallOf(s, p)); }
    } else {
      RunSnoc(s, events);
      RunSees(s, events[..|events| - 1], p);
      StepSees(s, events, p);
    }
  }

  /**
   * Over every run that sees the call begin: a refusal it returns as held names a claim that
   * overlaps its own, and that claim is an entry before it which was active at some moment of the
   * run, or undecided at the read that ended the wait for it, or a claim of the earlier tool
   * unreleased at some moment of the run.
   */
  lemma RefusalIsEarned(s: State, events: seq<Event>, p: Pid)
    requires Reachable(s) && ValidRun(s, events)
    requires Calls(s, p) ==> CallOf(s, p).pc.Begin?
    requires var t := Run(s, events); Calls(t, p) && CallOf(t, p).pc.Done? && CallOf(t, p).pc.result.Held?
    ensures var t := Run(s, events);
            var c := CallOf(t, p);
            Earned(Moments(s, events), LastReads(s, events, p), t.dir, t.earlier, c.seqNo, ClaimOf(c), c.pc.result.block)
  {
    hide Inv, Earned, Moments, LastReads, ValidRun, Run, Reachable;
    ReachableInv(s);
    RunSees(s, events, p);
  }
}
