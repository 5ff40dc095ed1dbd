/** The run in which an attempt that may win does win: every rival is ended first, one call after another. */
module ClaimWins {
  import opened Text
  import opened PathSets
  import opened Records
  import opened Directory
  import opened ClaimProtocol
  import opened ClaimInvariant
  import opened ClaimSteps
  import opened ClaimSafety
  import opened ClaimPromises
  import opened ClaimProgress
  import opened ClaimRefusals
  import opened ClaimReleases
  import opened ClaimRecovery
  import opened ClaimChances

  // --- one release call with nobody else moving ------------------------------------------------

  /** The integrator, who may end any claim with a reason. */
  const ENDER: Owner := Owner(INTEGRATOR, "h", 1, Some(0), "w")
  const REASON: string := "n"

  lemma EnderIsComplete()
    ensures Complete(ENDER) && NonEmpty(REASON)
  {
    assert Trim("h") == "h" && Trim("w") == "w" && Trim("n") == "n";
  }

  function Ending(claim: Claim): ReleaseCall {
    ReleaseCall(claim.id, ENDER, REASON, claim, false, Enter)
  }

  /** The directory differs in what it says of `id` alone: its decision and its release names. */
  ghost predicate OnlyAbout(d: Dir, e: Dir, id: Id) {
    && e == d.(decisions := e.decisions, firstReleases := e.firstReleases, laterReleases := e.laterReleases)
    && e.decisions - {id} == d.decisions - {id}
    && e.firstReleases - {id} == d.firstReleases - {id}
    && e.laterReleases - {id} == d.laterReleases - {id}
  }

  lemma StepAbout(d: Dir, r: ReleaseCall)
    ensures OnlyAbout(d, Publish(d, ReleaseWrite(r)), r.claimId) && ReleaseNext(d, r).claimId == r.claimId
  {
    hide Publish, Authorized, Complete, EndedFirst, EndedLater, OnlyAbout;
    WriteAbout(d, ReleaseWrite(r), r.claimId);
  }

  predicate Concerns(w: Write, id: Id) {
    match w
    case Nothing => true
    case PutDecision(decided, _) => decided == id
    case PutFirstRelease(release) => release.claimId == id
    case PutLaterRelease(release) => release.claimId == id
    case _ => false
  }

  lemma WriteAbout(d: Dir, w: Write, id: Id)
    requires Concerns(w, id)
    ensures OnlyAbout(d, Publish(d, w), id)
  {
  }

  lemma {:induction false} RunAbout(d: Dir, r: ReleaseCall, n: nat)
    ensures OnlyAbout(d, ReleaseRun(d, r, n).0, r.claimId)
    decreases n
  {
    hide ReleaseNext, ReleaseWrite, Publish;
    if n > 0 {
      StepAbout(d, r);
      RunAbout(Publish(d, ReleaseWrite(r)), ReleaseNext(d, r), n - 1);
    }
  }

  /** A call that starts, takes `n` steps and exits leaves only its directory behind. */
  lemma CallAlone(s: State, q: Pid, r: ReleaseCall, names: seq<Id>, n: nat) returns (events: seq<Event>)
    requires q !in s.procs && r.pc.Enter? && forall id :: id in names <==> id in s.dir.claimFiles
    ensures ValidRun(s, events) && Run(s, events) == s.(dir := ReleaseRun(s.dir, r, n).0)
  {
    hide ReleaseRun;
    var start := Start(q, Releasing(r));
    var t := Apply(s, start);
    var steps := RunAlone(t, q, names, n);
    var u := Run(t, steps);
    assert u.procs - {q} == s.procs;
    OneEvent(u, Crash(q));
    RunConcat(t, steps, [Crash(q)]);
    RunCons(s, start, steps + [Crash(q)]);
    events := [start] + (steps + [Crash(q)]);
  }

  ghost predicate Lists(names: seq<Id>, d: Dir) {
    forall id :: id in names <==> id in d.claimFiles
  }

  /** A claim not held for good is ended, and nothing else is touched. */
  lemma EndAlone(s: State, q: Pid, claim: Claim, names: seq<Id>) returns (events: seq<Event>)
    requires Inv(s) && q !in s.procs && Lists(names, s.dir) && OnRecord(s.dir, claim) && Endable(s.dir, claim)
    ensures ValidRun(s, events)
    ensures var t := Run(s, events); t == s.(dir := t.dir) && OnlyAbout(s.dir, t.dir, claim.id) && Released(t.dir, claim)
  {
    hide Inv, Endable, Ends, ReleaseRun, Complete, OnlyAbout, ValidRun, Run;
    var r := Ending(claim);
    EnderIsComplete();
    RecordIds(s);
    var n := EnterEnds(s.dir, r);
    EndsReleases(s.dir, r, n);
    RunAbout(s.dir, r, n);
    events := CallAlone(s, q, r, names, n);
  }

  /** An undecided attempt is abandoned, and nothing else is touched. */
  lemma AbandonAlone(s: State, q: Pid, n: nat, names: seq<Id>) returns (events: seq<Event>)
    requires Inv(s) && q !in s.procs && Lists(names, s.dir)
    requires n in s.dir.order && s.dir.order[n].id !in s.dir.decisions && !Released(s.dir, s.dir.order[n])
    ensures ValidRun(s, events) && Run(s, events) == s.(dir := Put(s.dir, PutDecision(s.dir.order[n].id, Abandoned)))
  {
    hide Inv, ReleaseRun, ValidRun, Run;
    var r := Ending(s.dir.order[n]);
    AbandonsInFive(s, n);
    events := CallAlone(s, q, r, names, 5);
  }

  lemma AbandonsInFive(s: State, n: nat)
    requires Inv(s) && n in s.dir.order && s.dir.order[n].id !in s.dir.decisions && !Released(s.dir, s.dir.order[n])
    ensures ReleaseRun(s.dir, Ending(s.dir.order[n]), 5).0 == Put(s.dir, PutDecision(s.dir.order[n].id, Abandoned))
  {
    hide Inv, Complete, EndedFirst, EndedLater, SameOwner, NonEmpty;
    var d, claim := s.dir, s.dir.order[n];
    EnderIsComplete();
    EntryIsRecorded(s, n);
    EntryIsAttempt(s, n);
    var r1 := ReleaseNext(d, Ending(claim));
    var r2 := ReleaseNext(d, r1);
    var r3 := ReleaseNext(d, r2);
    var r4 := ReleaseNext(d, r3);
    assert r4.pc.DecideAbandoned? && r4.claimId == claim.id;
    var e := Publish(d, ReleaseWrite(r4));
    assert ReleaseRun(d, r4, 1).0 == ReleaseRun(e, ReleaseNext(d, r4), 0).0 == e;
    assert ReleaseRun(d, r3, 2).0 == e;
    assert ReleaseRun(d, r2, 3).0 == e;
    assert ReleaseRun(d, r1, 4).0 == e;
  }

  lemma EntryIsAttempt(s: State, n: nat)
    requires Inv(s) && n in s.dir.order
    ensures s.dir.order[n].id in s.dir.attempts && s.dir.attempts[s.dir.order[n].id] == s.dir.order[n]
  {
    hide Dense, RecordsSound, WinnersSound, UsesSound, ProcInv;
  }

  // --- a release under the later name -------------------------------------------------------------

  const NOBODY: Owner := Owner(OtherRole(""), "", 0, None, "")

  /** With the first name out of the way, the later one is taken by a release with authority. */
  lemma EndLaterAlone(s: State, q: Pid, claim: Claim, names: seq<Id>) returns (events: seq<Event>)
    requires Inv(s) && q !in s.procs && Lists(names, s.dir) && OnRecord(s.dir, claim)
    requires MayEndLater(s.dir, claim) && !EndedLater(s.dir, claim) && (claim.id in s.dir.attempts && claim.id in s.dir.decisions ==> HasWon(s.dir, claim.id))
    ensures ValidRun(s, events)
    ensures var t := Run(s, events); t == s.(dir := t.dir) && OnlyAbout(s.dir, t.dir, claim.id) && EndedLater(t.dir, claim)
  {
    hide Inv, ValidRun, Run, OnRecord, Complete, Authoritative;
    if claim.id in s.dir.firstReleases {
      events := EndAlone(s, q, claim, names);
      SecondName(s.dir, Run(s, events).dir, s, events, claim);
    } else {
      var junk := Foreign(false, Release(claim.id, NOBODY, Holder, ""));
      JunkLands(s, claim);
      var t := Apply(s, junk);
      ApplyKeeps(s, junk);
      var later := EndAlone(t, q, claim, names);
      SecondName(t.dir, Run(t, later).dir, t, later, claim);
      RunCons(s, junk, later);
      events := [junk] + later;
    }
  }

  lemma SecondName(d: Dir, e: Dir, s: State, events: seq<Event>, claim: Claim)
    requires Inv(s) && ValidRun(s, events) && d == s.dir && e == Run(s, events).dir
    requires claim.id in d.firstReleases && !EndedFirst(d, claim) && Released(e, claim)
    ensures EndedLater(e, claim)
  {
    hide Inv, ValidRun, Run, Authoritative;
    RunKeeps(s, events);
  }

  lemma JunkLands(s: State, claim: Claim)
    requires OnRecord(s.dir, claim) && claim.id !in s.dir.firstReleases
    ensures var junk := Foreign(false, Release(claim.id, NOBODY, Holder, ""));
            var t := Apply(s, junk);
            && Enabled(s, junk) && t == s.(dir := t.dir) && OnlyAbout(s.dir, t.dir, claim.id)
            && OnRecord(t.dir, claim) && claim.id in t.dir.firstReleases && !EndedFirst(t.dir, claim)
            && t.dir.laterReleases == s.dir.laterReleases && t.dir.decisions == s.dir.decisions && t.dir.claimFiles == s.dir.claimFiles
  {
    assert !Complete(NOBODY);
    hide Complete;
  }

  // --- getting the rivals out of the way ------------------------------------------------------------

  /** A later name the search still has to read is taken by a release with authority. */
  ghost predicate LaterNameEnded(d: Dir, claim: Claim, s: SearchPc) {
    match s
    case EarlierLater(_, current, _, _) => Overlap(current, claim) ==> EndedLater(d, current)
    case ReadLater(_, entry) => EndedLater(d, entry)
    case _ => true
  }

  ghost predicate NothingMissed(d: Dir, c: ClaimCall) {
    c.pc.Search? ==> LaterNameEnded(d, ClaimOf(c), c.pc.search)
  }

  /** It may win, its search has nothing to fear from names already read, and it is undecided. */
  ghost predicate Ready(s: State, p: Pid) {
    MayWin(s, p) && NothingMissed(s.dir, CallOf(s, p)) && CallOf(s, p).id !in s.dir.decisions
  }

  /** Only decisions and release names were published. */
  ghost predicate Aside(s: State, t: State) {
    && t == s.(dir := t.dir) && Grows(s.dir, t.dir)
    && t.dir.order == s.dir.order && t.dir.attempts == s.dir.attempts && t.dir.claimFiles == s.dir.claimFiles
  }

  lemma AboutOthers(d: Dir, e: Dir, id: Id, claim: Claim)
    requires OnlyAbout(d, e, id) && claim.id != id
    ensures HasWon(e, claim.id) == HasWon(d, claim.id) && BothNamesTaken(e, claim) == BothNamesTaken(d, claim)
    ensures claim.id in e.decisions <==> claim.id in d.decisions
  {
    hide Authoritative;
    var j := claim.id;
    assert j in d.decisions <==> j in d.decisions - {id};
    assert j in e.decisions <==> j in e.decisions - {id};
    assert j in d.firstReleases <==> j in d.firstReleases - {id};
    assert j in e.firstReleases <==> j in e.firstReleases - {id};
    assert j in d.laterReleases <==> j in d.laterReleases - {id};
    assert j in e.laterReleases <==> j in e.laterReleases - {id};
    assert j in d.decisions ==> d.decisions[j] == (d.decisions - {id})[j];
    assert j in e.decisions ==> e.decisions[j] == (e.decisions - {id})[j];
    assert j in d.firstReleases ==> d.firstReleases[j] == (d.firstReleases - {id})[j];
    assert j in e.firstReleases ==> e.firstReleases[j] == (e.firstReleases - {id})[j];
    assert j in d.laterReleases ==> d.laterReleases[j] == (d.laterReleases - {id})[j];
    assert j in e.laterReleases ==> e.laterReleases[j] == (e.laterReleases - {id})[j];
  }

  /** With `id` not held for good, everyone else's chances are what they were. */
  lemma RivalsStillMayFinish(d: Dir, e: Dir, earlier: map<Id, Claim>, claim: Claim, seqNo: nat, id: Id)
    requires OnlyAbout(d, e, id) && RivalsMayFinish(d, earlier, claim, seqNo) && forall j :: j in earlier ==> earlier[j].id == j
    requires forall m :: m in d.order && d.order[m].id == id ==> MayFinish(e, d.order[m])
    requires id in earlier ==> !BothNamesTaken(e, earlier[id])
    ensures RivalsMayFinish(e, earlier, claim, seqNo)
  {
    hide Overlap, OnlyAbout, HasWon, BothNamesTaken;
    SameTables(d, e, id);
    forall m | m in e.order && m < seqNo && Overlap(e.order[m], claim) ensures MayFinish(e, e.order[m]) {
      if e.order[m].id != id { AboutOthers(d, e, id, e.order[m]); }
    }
    forall j | j in earlier && Overlap(earlier[j], claim) ensures !BothNamesTaken(e, earlier[j]) {
      if j != id { AboutOthers(d, e, id, earlier[j]); }
    }
  }

  lemma SameTables(d: Dir, e: Dir, id: Id)
    requires OnlyAbout(d, e, id)
    ensures e.order == d.order && e.attempts == d.attempts && e.claimFiles == d.claimFiles
  {
  }

  lemma StillPasses(d: Dir, e: Dir, claim: Claim, s: SearchPc)
    requires SearchMayPass(d, claim, s) && LaterNameEnded(e, claim, s)
    ensures SearchMayPass(e, claim, s)
  {
    hide Overlap, EndedLater, EndedFirst, NoneOverlaps;
  }

  /** One rival's end, or its abandonment, leaves the call as ready as it was. */
  lemma ReadyNow(s: State, t: State, p: Pid, id: Id)
    requires Inv(s) && MayWin(s, p) && CallOf(s, p).id !in s.dir.decisions && CallOf(s, p).id != id
    requires t == s.(dir := t.dir) && OnlyAbout(s.dir, t.dir, id) && NothingMissed(t.dir, CallOf(s, p))
    requires forall m :: m in s.dir.order && s.dir.order[m].id == id ==> MayFinish(t.dir, s.dir.order[m])
    requires id in s.earlier ==> !BothNamesTaken(t.dir, s.earlier[id])
    ensures Ready(t, p)
  {
    hide Inv, OnlyAbout, RivalsMayFinish, SearchMayPass, LaterNameEnded, MayFinish, BothNamesTaken, HasWon;
    var c := CallOf(s, p);
    EarlierIds(s);
    RivalsStillMayFinish(s.dir, t.dir, s.earlier, ClaimOf(c), c.seqNo, id);
    AboutOthers(s.dir, t.dir, id, ClaimOf(c));
    if c.pc.Search? { StillPasses(s.dir, t.dir, ClaimOf(c), c.pc.search); }
  }

  lemma EarlierIds(s: State)
    requires Inv(s)
    ensures forall id :: id in s.earlier ==> s.earlier[id].id == id
    ensures forall id :: id in s.earlier ==> id !in s.dir.attempts
  {
    hide Dense, OrderSound, WinnersSound, UsesSound, ProcInv, RecordedKeys;
  }

  lemma StillNothingMissed(d: Dir, e: Dir, c: ClaimCall)
    requires Grows(d, e) && NothingMissed(d, c)
    ensures NothingMissed(e, c)
  {
    hide Authoritative, Overlap, ClaimOf;
  }

  /** A claim on record, once released, is held by neither reading of its id. */
  lemma ReleasedMayFinish(s: State, e: Dir, claim: Claim)
    requires Inv(s) && OnRecord(s.dir, claim) && Released(e, claim)
    ensures forall m :: m in s.dir.order && s.dir.order[m].id == claim.id ==> MayFinish(e, s.dir.order[m])
    ensures claim.id in s.earlier ==> !BothNamesTaken(e, s.earlier[claim.id])
  {
    hide Inv, Released, OnRecord;
    forall m | m in s.dir.order && s.dir.order[m].id == claim.id ensures s.dir.order[m] == claim {
      EntryIsRecorded(s, m);
      OneRecord(s.dir, claim, s.dir.order[m]);
    }
    if claim.id in s.earlier {
      EarlierIds(s);
      EarlierIsRecorded(s, s.earlier[claim.id]);
      OneRecord(s.dir, claim, s.earlier[claim.id]);
    }
  }

  lemma OneRecord(d: Dir, a: Claim, b: Claim)
    requires OnRecord(d, a) && OnRecord(d, b) && a.id == b.id
    ensures a == b
  {
  }

  lemma AsideIs(s: State, t: State, events: seq<Event>, id: Id)
    requires Inv(s) && ValidRun(s, events) && t == Run(s, events) && t == s.(dir := t.dir) && OnlyAbout(s.dir, t.dir, id)
    ensures Aside(s, t)
  {
    hide Inv, Grows, ValidRun, Run;
    RunKeeps(s, events);
  }

  lemma EndOne(s: State, p: Pid, q: Pid, claim: Claim, names: seq<Id>) returns (events: seq<Event>)
    requires Reachable(s) && Ready(s, p) && q !in s.procs && Lists(names, s.dir)
    requires OnRecord(s.dir, claim) && Endable(s.dir, claim) && claim.id != CallOf(s, p).id
    ensures ValidRun(s, events)
    ensures var t := Run(s, events); Reachable(t) && Aside(s, t) && Ready(t, p) && Released(t.dir, claim)
  {
    hide Inv, Reachable, OnlyAbout, Released, Endable, OnRecord, ValidRun, Run, MayFinish, BothNamesTaken, Grows, Lists, CallMayWin, NothingMissed;
    ReachableInv(s);
    events := EndAlone(s, q, claim, names);
    var t := Run(s, events);
    ReachesLater(s, events);
    AsideIs(s, t, events, claim.id);
    StillNothingMissed(s.dir, t.dir, CallOf(s, p));
    ReleasedMayFinish(s, t.dir, claim);
    ReadyNow(s, t, p, claim.id);
  }

  lemma AbandonOne(s: State, p: Pid, q: Pid, n: nat, names: seq<Id>) returns (events: seq<Event>)
    requires Reachable(s) && Ready(s, p) && q !in s.procs && Lists(names, s.dir)
    requires n in s.dir.order && s.dir.order[n].id !in s.dir.decisions && s.dir.order[n].id != CallOf(s, p).id
    ensures ValidRun(s, events)
    ensures var t := Run(s, events); Reachable(t) && Aside(s, t) && Ready(t, p) && Finished(t.dir, s.dir.order[n])
  {
    hide Inv, Reachable, OnlyAbout, Released, ValidRun, Run, Grows, Lists, CallMayWin, NothingMissed;
    var id := s.dir.order[n].id;
    ReachableInv(s);
    EntryIsAttempt(s, n);
    EntryIsRecorded(s, n);
    if Released(s.dir, s.dir.order[n]) { ReleasedHasDecided(s, id); }
    events := AbandonAlone(s, q, n, names);
    var t := Run(s, events);
    ReachesLater(s, events);
    WriteAbout(s.dir, PutDecision(id, Abandoned), id);
    AsideIs(s, t, events, id);
    StillNothingMissed(s.dir, t.dir, CallOf(s, p));
    EarlierIds(s);
    ReadyNow(s, t, p, id);
  }

  /** Entry `m` no longer stands in the way of the call, nor is it undecided. */
  ghost predicate EntryDone(s: State, p: Pid, m: nat)
    requires Calls(s, p)
  {
    var c := CallOf(s, p);
    m in s.dir.order && s.dir.order[m].id != c.id ==>
      && s.dir.order[m].id in s.dir.decisions
      && (m < c.seqNo && Overlap(s.dir.order[m], ClaimOf(c)) ==> Finished(s.dir, s.dir.order[m]))
  }

  lemma DoneStays(s: State, t: State, p: Pid, m: nat)
    requires Calls(s, p) && Aside(s, t) && EntryDone(s, p, m)
    ensures EntryDone(t, p, m)
  {
    hide Overlap, Released, ClaimOf, Grows;
    if m in s.dir.order {
      FactsStay(s.dir, t.dir, s.dir.order[m]);
      DecisionsStay(s.dir, t.dir, s.dir.order[m].id);
    }
  }

  lemma AsideTransitive(s: State, t: State, u: State)
    requires Aside(s, t) && Aside(t, u)
    ensures Aside(s, u)
  {
    hide Grows;
    GrowsTransitive(s.dir, t.dir, u.dir);
  }

  lemma AsideItself(s: State)
    ensures Aside(s, s) && ValidRun(s, []) && Run(s, []) == s
  {
  }

  lemma SweepEntry(s: State, p: Pid, q: Pid, m: nat, names: seq<Id>) returns (events: seq<Event>)
    requires Reachable(s) && Ready(s, p) && q !in s.procs && Lists(names, s.dir)
    ensures ValidRun(s, events)
    ensures var t := Run(s, events); Reachable(t) && Aside(s, t) && Ready(t, p) && EntryDone(t, p, m)
  {
    hide Inv, Reachable, Released, ValidRun, Run, Lists, ClaimOf, Overlap, OnRecord, Aside, CallMayWin, NothingMissed;
    var c := CallOf(s, p);
    ReachableInv(s);
    if m !in s.dir.order || s.dir.order[m].id == c.id || EntryDone(s, p, m) {
      AsideItself(s);
      events := [];
    } else if s.dir.order[m].id !in s.dir.decisions {
      events := AbandonOne(s, p, q, m, names);
      EntriesStand(s, Run(s, events));
    } else {
      EntryIsRecorded(s, m);
      WonMayEnd(s, p, m);
      events := EndOne(s, p, q, s.dir.order[m], names);
      EntriesStand(s, Run(s, events));
      DecisionsStay(s.dir, Run(s, events).dir, s.dir.order[m].id);
    }
  }

  lemma EntriesStand(s: State, t: State)
    requires Aside(s, t)
    ensures t == s.(dir := t.dir) && t.dir.order == s.dir.order && Grows(s.dir, t.dir)
  {
  }

  lemma WonMayEnd(s: State, p: Pid, m: nat)
    requires Ready(s, p) && m in s.dir.order && s.dir.order[m].id in s.dir.decisions && !EntryDone(s, p, m)
    ensures Endable(s.dir, s.dir.order[m])
  {
    hide Overlap, ClaimOf, SearchMayPass, NothingMissed, EndedFirst, EndedLater;
    assert MayFinish(s.dir, s.dir.order[m]);
  }

  lemma {:induction false} SweepOrder(s: State, p: Pid, q: Pid, k: nat, names: seq<Id>) returns (events: seq<Event>)
    requires Reachable(s) && Ready(s, p) && q !in s.procs && Lists(names, s.dir) && k <= |s.dir.order|
    ensures ValidRun(s, events)
    ensures var t := Run(s, events);
            Reachable(t) && Aside(s, t) && Ready(t, p) && forall m :: k <= m < |s.dir.order| ==> EntryDone(t, p, m)
    decreases |s.dir.order| - k
  {
    hide Reachable, ValidRun, Run, EntryDone, Aside, Lists, CallMayWin, NothingMissed;
    if k == |s.dir.order| {
      AsideItself(s);
      events := [];
    } else {
      var first := SweepEntry(s, p, q, k, names);
      var t := Run(s, first);
      EntriesStand(s, t);
      SameFiles(s, t, names);
      var rest := SweepOrder(t, p, q, k + 1, names);
      AsideTransitive(s, t, Run(t, rest));
      DoneStays(t, Run(t, rest), p, k);
      RunConcat(s, first, rest);
      events := first + rest;
    }
  }

  lemma SameFiles(s: State, t: State, names: seq<Id>)
    requires Aside(s, t) && Lists(names, s.dir)
    ensures Lists(names, t.dir) && t.procs == s.procs && t.earlier == s.earlier
  {
  }

  /** The earlier tool's overlapping claims still to be ended are among these. */
  ghost predicate EarlierLeft(s: State, p: Pid, todo: set<Id>)
    requires Calls(s, p)
  {
    forall id :: id in s.earlier && id !in todo && Overlap(s.earlier[id], ClaimOf(CallOf(s, p))) ==> Released(s.dir, s.earlier[id])
  }

  lemma {:induction false} SweepEarlier(s: State, p: Pid, q: Pid, todo: set<Id>, names: seq<Id>) returns (events: seq<Event>)
    requires Reachable(s) && Ready(s, p) && q !in s.procs && Lists(names, s.dir) && EarlierLeft(s, p, todo)
    ensures ValidRun(s, events)
    ensures var t := Run(s, events); Reachable(t) && Aside(s, t) && Ready(t, p) && EarlierLeft(t, p, {})
    decreases todo
  {
    hide Reachable, ValidRun, Run, Aside, EarlierLeft, Lists, CallMayWin, NothingMissed;
    if todo == {} {
      AsideItself(s);
      events := [];
    } else {
      var id :| id in todo;
      var first := SweepEarlierOne(s, p, q, todo, id, names);
      var t := Run(s, first);
      SameFiles(s, t, names);
      var rest := SweepEarlier(t, p, q, todo - {id}, names);
      AsideTransitive(s, t, Run(t, rest));
      RunConcat(s, first, rest);
      events := first + rest;
    }
  }

  lemma SweepEarlierOne(s: State, p: Pid, q: Pid, todo: set<Id>, id: Id, names: seq<Id>) returns (events: seq<Event>)
    requires Reachable(s) && Ready(s, p) && q !in s.procs && Lists(names, s.dir) && EarlierLeft(s, p, todo)
    ensures ValidRun(s, events)
    ensures var t := Run(s, events); Reachable(t) && Aside(s, t) && Ready(t, p) && EarlierLeft(t, p, todo - {id})
  {
    hide Inv, Reachable, Released, ValidRun, Run, Lists, ClaimOf, Overlap, OnRecord, Aside, Endable, CallMayWin, NothingMissed;
    var claim := ClaimOf(CallOf(s, p));
    if id in s.earlier && Overlap(s.earlier[id], claim) && !Released(s.dir, s.earlier[id]) {
      ReachableInv(s);
      EarlierMayEnd(s, p, id);
      events := EndOne(s, p, q, s.earlier[id], names);
      EarlierShrinks(s, Run(s, events), p, todo, id);
    } else {
      AsideItself(s);
      events := [];
    }
  }

  lemma EarlierMayEnd(s: State, p: Pid, id: Id)
    requires Inv(s) && Ready(s, p) && id in s.earlier && Overlap(s.earlier[id], ClaimOf(CallOf(s, p))) && !Released(s.dir, s.earlier[id])
    ensures OnRecord(s.dir, s.earlier[id]) && Endable(s.dir, s.earlier[id]) && s.earlier[id].id != CallOf(s, p).id
  {
    hide Inv, Overlap, ClaimOf, SearchMayPass, NothingMissed, EndedFirst, EndedLater, OnRecord;
    EarlierIds(s);
    EarlierIsRecorded(s, s.earlier[id]);
    MinersAttempt(s, p);
  }

  lemma MinersAttempt(s: State, p: Pid)
    requires Inv(s) && MayWin(s, p)
    ensures var c := CallOf(s, p); c.id in s.dir.attempts && InOrder(s.dir, c) && !HasWon(s.dir, c.id)
  {
    hide Inv, RivalsMayFinish, SearchMayPass, Base, SearchInv, ClaimOf, InOrder, HasWon;
    ClaimIs(s, p);
  }

  lemma EarlierShrinks(s: State, t: State, p: Pid, todo: set<Id>, id: Id)
    requires Calls(s, p) && Aside(s, t) && EarlierLeft(s, p, todo) && id in s.earlier && Released(t.dir, s.earlier[id])
    ensures EarlierLeft(t, p, todo - {id})
  {
    hide Overlap, Released, ClaimOf, Grows;
    forall j | j in t.earlier && j !in todo - {id} && Overlap(t.earlier[j], ClaimOf(CallOf(t, p))) ensures Released(t.dir, t.earlier[j]) {
      FactsStay(s.dir, t.dir, s.earlier[j]);
    }
  }

  // --- the run -----------------------------------------------------------------------------------------

  /** A search between the two names of a claim is made to find the later one. */
  lemma MakeReady(s: State, p: Pid, q: Pid, names: seq<Id>) returns (events: seq<Event>)
    requires Reachable(s) && MayWin(s, p) && CallOf(s, p).id !in s.dir.decisions && q !in s.procs && Lists(names, s.dir)
    ensures ValidRun(s, events)
    ensures var t := Run(s, events); Reachable(t) && Aside(s, t) && Ready(t, p)
  {
    hide Inv, Reachable, ValidRun, Run, Lists, ClaimOf, Overlap, OnRecord, Aside, RivalsMayFinish, Grows, EndedLater, EndedFirst, HasWon, IsEarlier;
    var c := CallOf(s, p);
    if NothingMissed(s.dir, c) {
      AsideItself(s);
      events := [];
    } else {
      var claim := if c.pc.search.EarlierLater? then c.pc.search.claim else c.pc.search.entry;
      BetweenNames(s, p, claim);
      events := ReadsTheLater(s, p, q, claim, names);
    }
  }

  lemma BetweenNames(s: State, p: Pid, claim: Claim)
    requires Reachable(s) && MayWin(s, p) && CallOf(s, p).id !in s.dir.decisions && CallOf(s, p).pc.Search?
    requires match CallOf(s, p).pc.search
             case EarlierLater(_, current, _, _) => claim == current
             case ReadLater(_, entry) => claim == entry
             case _ => false
    ensures OnRecord(s.dir, claim) && claim.id != CallOf(s, p).id
    ensures claim.id in s.dir.attempts && claim.id in s.dir.decisions ==> HasWon(s.dir, claim.id)
  {
    hide Inv, Reachable, CallMayWin, OnRecord;
    ReachableInv(s);
    EarlierIds(s);
    SearchReadsEarlier(s, p);
    if CallOf(s, p).pc.search.EarlierLater? {
      EarlierIsRecorded(s, claim);
      MinersId(s, p);
    } else {
      JudgesEntry(s, p);
      EntryIsRecorded(s, CallOf(s, p).pc.search.at);
    }
  }

  lemma MinersId(s: State, p: Pid)
    requires Inv(s) && MayWin(s, p)
    ensures CallOf(s, p).id !in s.earlier
  {
    hide Inv, CallMayWin, Base, SearchInv;
    ClaimIs(s, p);
  }

  lemma ReadsTheLater(s: State, p: Pid, q: Pid, claim: Claim, names: seq<Id>) returns (events: seq<Event>)
    requires Reachable(s) && MayWin(s, p) && CallOf(s, p).id !in s.dir.decisions && q !in s.procs && Lists(names, s.dir)
    requires OnRecord(s.dir, claim) && claim.id != CallOf(s, p).id
    requires claim.id in s.dir.attempts && claim.id in s.dir.decisions ==> HasWon(s.dir, claim.id)
    requires MayEndLater(s.dir, claim) && !EndedLater(s.dir, claim)
    requires forall e :: EndedLater(e, claim) ==> NothingMissed(e, CallOf(s, p))
    ensures ValidRun(s, events)
    ensures var t := Run(s, events); Reachable(t) && Aside(s, t) && Ready(t, p)
  {
    hide Inv, Reachable, ValidRun, Run, Lists, OnRecord, Aside, CallMayWin, NothingMissed, OnlyAbout, MayEndLater, EndedLater, MayFinish, BothNamesTaken, HasWon, EndedFirst;
    ReachableInv(s);
    events := EndLaterAlone(s, q, claim, names);
    var t := Run(s, events);
    ReachesLater(s, events);
    AsideIs(s, t, events, claim.id);
    ReleasedMayFinish(s, t.dir, claim);
    ReadyNow(s, t, p, claim.id);
  }

  lemma ReadyIsFavoured(s: State, p: Pid)
    requires Reachable(s) && Ready(s, p) && EarlierLeft(s, p, {})
    requires forall m :: 0 <= m < |s.dir.order| ==> EntryDone(s, p, m)
    ensures Favoured(s, p)
  {
    hide Inv, Reachable, RivalsMayFinish, EarlierLeft, EntryDone, Unblocked;
    if CallOf(s, p).pc.Search? {
      ReachableInv(s);
      SearchReadsEarlier(s, p);
      NothingAhead(s, p);
      var c := CallOf(s, p);
      NoReasonLeft(s, p);
    }
  }

  lemma NothingAhead(s: State, p: Pid)
    requires Inv(s) && Ready(s, p) && EarlierLeft(s, p, {})
    requires forall m :: 0 <= m < |s.dir.order| ==> EntryDone(s, p, m)
    ensures var c := CallOf(s, p);
            Scanned(s.dir, ClaimOf(c), c.seqNo) && EarlierClear(s.dir, s.earlier, ClaimOf(c)) && c.seqNo <= |s.dir.order|
  {
    hide Inv, CallMayWin, NothingMissed, ClaimOf, Overlap, Finished, Released, HasWon;
    InvDense(s);
    MinersAttempt(s, p);
    OneNumber(s);
    var c := CallOf(s, p);
    forall i | i in s.dir.order && i < c.seqNo && Overlap(s.dir.order[i], ClaimOf(c)) ensures Finished(s.dir, s.dir.order[i]) {
      assert EntryDone(s, p, i);
    }
  }

  lemma OneNumber(s: State)
    requires Inv(s)
    ensures forall m, n :: m in s.dir.order && n in s.dir.order && s.dir.order[m].id == s.dir.order[n].id ==> m == n
  {
    hide Dense, RecordsSound, WinnersSound, UsesSound, ProcInv;
  }

  lemma NoReasonLeft(s: State, p: Pid)
    requires Inv(s) && Ready(s, p) && CallOf(s, p).pc.Search? && ReadsEarlier(s.earlier, CallOf(s, p).pc.search)
    requires var c := CallOf(s, p);
             Scanned(s.dir, ClaimOf(c), c.seqNo) && EarlierClear(s.dir, s.earlier, ClaimOf(c)) && c.seqNo <= |s.dir.order|
    ensures var c := CallOf(s, p); Unblocked(s.dir, s.earlier, ClaimOf(c), c.seqNo, c.pc.search)
  {
    hide Inv, RivalsMayFinish, ClaimOf, Overlap, Authoritative, NoneOverlaps, MayEndLater, EarlierSeen, Base;
    ClaimIs(s, p);
  }

  /** With every rival over the call decides, and wins. */
  lemma DecidesAlone(s: State, p: Pid, names: seq<Id>) returns (events: seq<Event>)
    requires Reachable(s) && Ready(s, p) && Favoured(s, p) && Lists(names, s.dir)
    ensures ValidRun(s, events) && Run(s, events).dir == Put(s.dir, PutDecision(CallOf(s, p).id, Won))
  {
    hide Inv, Reachable, Favoured, RivalsMayFinish, SearchMayPass, NothingMissed, ValidRun, Run;
    ReachableInv(s);
    if CallOf(s, p).pc.Search? {
      events := UnblockedDecides(s, p, names);
    } else {
      events := [Advance(p, Choice(false, names))];
      DecidesNow(s, p, Choice(false, names));
    }
  }

  /**
   * An attempt that may win wins in some run, which leaves the order as it is and no entry of it
   * undecided; and it is not released at the end.
   */
  lemma WinsAlone(s: State, p: Pid, q: Pid, names: seq<Id>) returns (events: seq<Event>)
    requires Reachable(s) && MayWin(s, p) && CallOf(s, p).id !in s.dir.decisions && q !in s.procs && Lists(names, s.dir)
    ensures ValidRun(s, events)
    ensures var t := Run(s, events);
            && t.dir.order == s.dir.order && Active(t.dir, ClaimOf(CallOf(s, p)))
            && forall m :: m in t.dir.order ==> t.dir.order[m].id in t.dir.decisions
  {
    hide Inv, Reachable, CallMayWin, NothingMissed, ValidRun, Run, Lists, Aside, EarlierLeft, EntryDone, Favoured, ClaimOf, Active;
    var first := MakeReady(s, p, q, names);
    var t := Run(s, first);
    SameFiles(s, t, names);
    var second := SweepOrder(t, p, q, 0, names);
    var u := Run(t, second);
    SameFiles(t, u, names);
    EntriesStand(s, t);
    EntriesStand(t, u);
    AllEarlier(u, p);
    var third := SweepEarlier(u, p, q, u.earlier.Keys, names);
    var v := Run(u, third);
    SameFiles(u, v, names);
    EntriesStand(u, v);
    forall m | 0 <= m < |v.dir.order| ensures EntryDone(v, p, m) { DoneStays(u, v, p, m); }
    ReadyIsFavoured(v, p);
    var last := DecidesAlone(v, p, names);
    AllDecided(v, p);
    RunConcat(u, third, last);
    RunConcat(t, second, third + last);
    RunConcat(s, first, second + (third + last));
    events := first + (second + (third + last));
  }

  lemma AllEarlier(s: State, p: Pid)
    requires Calls(s, p)
    ensures EarlierLeft(s, p, s.earlier.Keys)
  {
    hide Overlap, Released;
  }

  lemma AllDecided(s: State, p: Pid)
    requires Reachable(s) && Ready(s, p) && forall m :: 0 <= m < |s.dir.order| ==> EntryDone(s, p, m)
    ensures var e := Put(s.dir, PutDecision(CallOf(s, p).id, Won));
            Active(e, ClaimOf(CallOf(s, p))) && forall m :: m in e.order ==> e.order[m].id in e.decisions
  {
    hide Inv, Reachable, CallMayWin, NothingMissed, Overlap, Finished, Authoritative;
    ReachableInv(s);
    InvDense(s);
    MinersAttempt(s, p);
    MinersRecord(s, p);
    if Released(s.dir, ClaimOf(CallOf(s, p))) { ReleasedHasDecided(s, CallOf(s, p).id); }
    forall m | m in s.dir.order ensures s.dir.order[m].id in s.dir.decisions || s.dir.order[m].id == CallOf(s, p).id {
      assert EntryDone(s, p, m);
    }
  }

  lemma MinersRecord(s: State, p: Pid)
    requires Inv(s) && MayWin(s, p)
    ensures var c := CallOf(s, p); c.id in s.dir.attempts && s.dir.attempts[c.id] == ClaimOf(c)
  {
    hide Inv, RivalsMayFinish, SearchMayPass, Base, SearchInv, ClaimOf, InOrder;
    ClaimIs(s, p);
  }

  /**
   * An undecided attempt in the order can still win if and only if its call is alive and searching or
   * about to decide, its search has found no one it would have to refuse for, and none of the claims it
   * has to yield to is held for good.
   */
  lemma WinsIffMayWin(s: State, id: Id, q: Pid, names: seq<Id>)
    requires Reachable(s) && Linked(s.dir, id) && id !in s.dir.decisions && q !in s.procs && Lists(names, s.dir)
    ensures (exists events :: ValidRun(s, events) && HasWon(Run(s, events).dir, id)) <==> HasChance(s, id)
  {
    hide Reachable, ValidRun, Run, Lists, Linked, CallMayWin, Released;
    if HasChance(s, id) {
      var p :| MayWin(s, p) && CallOf(s, p).id == id;
      var events := WinsAlone(s, p, q, names);
      assert exists events :: ValidRun(s, events) && HasWon(Run(s, events).dir, id);
    } else {
      forall events | ValidRun(s, events) ensures !HasWon(Run(s, events).dir, id) { NeverWins(s, events, id); }
    }
  }
}
