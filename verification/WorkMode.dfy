/** `workMode`: whether a worker may edit, judged on what it reads of the directory. */
module WorkMode {
  import opened Text
  import opened Paths
  import opened PathSets
  import opened Records
  import opened Directory
  import opened ClaimProtocol
  import opened ClaimInvariant
  import opened ClaimSteps
  import opened ClaimSafety
  import opened ClaimPromises
  import opened ClaimProgress
  import opened ClaimChances
  import opened ClaimWins

  datatype Verdict = Edit | PartnerAbsent | IncompleteIdentity | Unreadable | HotPathUncovered | HeldByOther | BeingClaimed

  /** One reading of the directory, with the earlier tool's claims beside it. */
  datatype View = View(dir: Dir, earlier: map<Id, Claim>)

  predicate Conflicts(claim: Claim, me: Owner, wanted: seq<string>) {
    !SameOwner(claim.owner, me) && OverlapsAny(RecordedKeys(claim.paths), wanted)
  }

  /** The claim is `me`'s, and the integrator's handoff to `me` it names records it as its user. */
  predicate HandedOff(d: Dir, claim: Claim, me: Owner) {
    && claim.handoffFrom.Some? && SameOwner(claim.owner, me)
    && (var h := claim.handoffFrom.value;
        && h in d.handoffs
        && Complete(d.handoffs[h].issuedBy) && d.handoffs[h].issuedBy.role == INTEGRATOR
        && Complete(d.handoffs[h].recipient) && SameOwner(d.handoffs[h].recipient, me)
        && h in d.uses && d.uses[h] == claim.id)
  }

  predicate CoversKey(claim: Claim, key: string) {
    var recorded := RecordedKeys(claim.paths);
    recorded.Keyed? && exists i :: 0 <= i < |recorded.keys| && KeyContains(recorded.keys[i], key)
  }

  predicate CoveredByHandoff(v: View, me: Owner, key: string) {
    || (exists n :: n in v.dir.order && Active(v.dir, v.dir.order[n]) && HandedOff(v.dir, v.dir.order[n], me) && CoversKey(v.dir.order[n], key))
    || (exists id :: id in v.earlier && !Released(v.dir, v.earlier[id]) && HandedOff(v.dir, v.earlier[id], me) && CoversKey(v.earlier[id], key))
  }

  predicate HeldByAnother(v: View, me: Owner, wanted: seq<string>) {
    || (exists n :: n in v.dir.order && Active(v.dir, v.dir.order[n]) && Conflicts(v.dir.order[n], me, wanted))
    || (exists id :: id in v.earlier && !Released(v.dir, v.earlier[id]) && Conflicts(v.earlier[id], me, wanted))
  }

  predicate ClaimedByAnother(d: Dir, me: Owner, wanted: seq<string>) {
    exists n :: n in d.order && d.order[n].id !in d.decisions && Conflicts(d.order[n], me, wanted)
  }

  /** The active claims are read first (`active`), the undecided attempts afterwards (`pending`). */
  function WorkModeOver(active: View, pending: Dir, me: Owner, partnerPresent: bool, wants: seq<string>): Verdict {
    if !partnerPresent then PartnerAbsent
    else if !Complete(me) then IncompleteIdentity
    else match CanonicalSet(wants)
      case Err(_) => Unreadable
      case Ok(scope) =>
        if me.role != INTEGRATOR
           && exists i :: 0 <= i < |scope| && IsHot(scope[i].path) && !CoveredByHandoff(active, me, scope[i].key)
        then HotPathUncovered
        else if HeldByAnother(active, me, Keys(scope)) then HeldByOther
        else if ClaimedByAnother(pending, me, Keys(scope)) then BeingClaimed
        else Edit
  }

  /** Both readings taken at once. */
  function WorkModeAt(v: View, me: Owner, partnerPresent: bool, wants: seq<string>): Verdict {
    WorkModeOver(v, v.dir, me, partnerPresent, wants)
  }

  function ViewOf(s: State): View {
    View(s.dir, s.earlier)
  }

  /**
   * Over a whole run: if the verdict on a snapshot is edit, every other process's overlapping claim
   * that is active later was published after that snapshot.
   */
  lemma EditHoldsOverRun(s: State, events: seq<Event>, me: Owner, partnerPresent: bool, wants: seq<string>, n: nat)
    requires Reachable(s) && ValidRun(s, events)
    requires WorkModeAt(ViewOf(s), me, partnerPresent, wants) == Edit
    requires var t := Run(s, events);
             n in t.dir.order && Active(t.dir, t.dir.order[n]) && Conflicts(t.dir.order[n], me, Keys(CanonicalSet(wants).value))
    ensures n !in s.dir.order && |s.dir.order| <= n
  {
    hide Inv, Conflicts, CoveredByHandoff, Released, ValidRun, Run, Grows, Reachable, CanonicalSet, IsHot;
    ReachableInv(s);
    RunKeeps(s, events);
    var t := Run(s, events);
    if n in s.dir.order {
      EntryStays(s.dir, t.dir, n);
      if s.dir.order[n].id in s.dir.decisions {
        FinishedOrActive(s.dir, t.dir, s.dir.order[n]);
      }
    }
    InvDenseHere(s);
  }

  lemma EntryStays(d: Dir, e: Dir, n: nat)
    requires Grows(d, e) && n in d.order
    ensures n in e.order && e.order[n] == d.order[n]
  {
  }

  lemma FinishedOrActive(d: Dir, e: Dir, claim: Claim)
    requires Grows(d, e) && claim.id in d.decisions && Active(e, claim)
    ensures Active(d, claim)
  {
    FactsStay(d, e, claim);
  }

  lemma InvDenseHere(s: State)
    requires Inv(s)
    ensures Dense(s.dir)
  {
    hide OrderSound, RecordsSound, WinnersSound, UsesSound, ProcInv;
  }

  /** The earlier tool's overlapping claims stay over as well. */
  lemma EditHoldsForEarlier(s: State, events: seq<Event>, me: Owner, partnerPresent: bool, wants: seq<string>, id: Id)
    requires Reachable(s) && ValidRun(s, events)
    requires WorkModeAt(ViewOf(s), me, partnerPresent, wants) == Edit
    requires id in s.earlier && Conflicts(s.earlier[id], me, Keys(CanonicalSet(wants).value))
    ensures Released(Run(s, events).dir, s.earlier[id])
  {
    hide Inv, Conflicts, CoveredByHandoff, Released, ValidRun, Run, Grows, Reachable, CanonicalSet, IsHot;
    ReachableInv(s);
    RunKeeps(s, events);
    FactsStay(s.dir, Run(s, events).dir, s.earlier[id]);
  }

  /** A claim of the earlier tool is never the user a handoff records. */
  lemma EarlierNeverHandedOff(s: State, id: Id, me: Owner)
    requires Reachable(s) && id in s.earlier
    ensures !HandedOff(s.dir, s.earlier[id], me)
  {
    hide Reachable, SameOwner, Complete, AuthorizedUse, Dense, OrderSound, WinnersSound, ProcInv, RecordedKeys;
    ReachableInv(s);
  }

  /** The path lies at or below a path the handoff was issued for. */
  predicate InScope(handoff: Handoff, key: string) {
    CanonicalSet(handoff.paths).Ok?
    && exists j :: 0 <= j < |CanonicalSet(handoff.paths).value| && KeyContains(CanonicalSet(handoff.paths).value[j].key, key)
  }

  /** An active claim of this process with exactly the scope of an integrator's handoff to it, whose one user it is. */
  predicate UnderHandoff(d: Dir, claim: Claim, me: Owner, key: string) {
    && Active(d, claim) && SameOwner(claim.owner, me) && claim.handoffFrom.Some?
    && (var h := claim.handoffFrom.value;
        && h in d.uses && d.uses[h] == claim.id && h in d.handoffs
        && CanonicalSet(claim.paths).Ok?
        && Authorizes(d.handoffs[h], h, claim.owner, claim.node, claim.baseSha, CanonicalSet(claim.paths).value)
        && SameOwner(d.handoffs[h].recipient, me)
        && InScope(d.handoffs[h], key))
  }

  lemma CoverIsInScope(d: Dir, h: Id, claim: Claim, key: string)
    requires AuthorizedUse(d, h, claim) && CoversKey(claim, key)
    ensures InScope(d.handoffs[h], key)
  {
    hide RecordedKeys, SameOwner, Complete, KeyContains, CanonicalSet;
    var keys := Keys(CanonicalSet(claim.paths).value);
    var i :| 0 <= i < |keys| && KeyContains(keys[i], key);
    assert CanonicalSet(d.handoffs[h].paths).value[i].key == keys[i];
  }

  lemma UserIsUnderHandoff(s: State, n: nat, me: Owner, key: string)
    requires Inv(s) && n in s.dir.order && Active(s.dir, s.dir.order[n])
    requires HandedOff(s.dir, s.dir.order[n], me) && CoversKey(s.dir.order[n], key)
    ensures UnderHandoff(s.dir, s.dir.order[n], me, key)
  {
    var claim := s.dir.order[n];
    UserOf(s, n, me);
    CoverIsInScope(s.dir, claim.handoffFrom.value, claim, key);
    hide Active, SameOwner, Complete, Authorizes, CanonicalSet, InScope, Inv, CoversKey, RecordedKeys;
  }

  lemma UserOf(s: State, n: nat, me: Owner)
    requires Inv(s) && n in s.dir.order && HandedOff(s.dir, s.dir.order[n], me)
    ensures AuthorizedUse(s.dir, s.dir.order[n].handoffFrom.value, s.dir.order[n])
  {
    hide AuthorizedUse, SameOwner, Complete, ProcInv, Dense, RecordsSound, WinnersSound;
  }

  /**
   * Every hot path in a non-integrator's edit verdict lies in a scope the integrator handed to this
   * process, under an ordered, active claim with exactly that scope which is the handoff's one user.
   */
  lemma HotPathsAreHandedOff(s: State, me: Owner, partnerPresent: bool, wants: seq<string>, i: nat)
    requires Reachable(s) && me.role != INTEGRATOR
    requires WorkModeAt(ViewOf(s), me, partnerPresent, wants) == Edit
    requires i < |CanonicalSet(wants).value| && IsHot(CanonicalSet(wants).value[i].path)
    ensures exists n :: n in s.dir.order && UnderHandoff(s.dir, s.dir.order[n], me, CanonicalSet(wants).value[i].key)
  {
    hide Inv, Active, Released, HandedOff, CoversKey, IsHot, CanonicalSet, Reachable, HeldByAnother, ClaimedByAnother, UnderHandoff;
    var key := CanonicalSet(wants).value[i].key;
    ReachableInv(s);
    forall id | id in s.earlier ensures !HandedOff(s.dir, s.earlier[id], me) { EarlierNeverHandedOff(s, id, me); }
    var n :| n in s.dir.order && Active(s.dir, s.dir.order[n]) && HandedOff(s.dir, s.dir.order[n], me) && CoversKey(s.dir.order[n], key);
    UserIsUnderHandoff(s, n, me, key);
  }

  /**
   * The two readings are not one: a conflicting claim published before the first reading is active
   * after the second only if it was undecided at the first and had won by the second.
   */
  lemma MissedOnlyBetweenReads(s: State, events: seq<Event>, me: Owner, partnerPresent: bool, wants: seq<string>, n: nat)
    requires Reachable(s) && ValidRun(s, events)
    requires WorkModeOver(ViewOf(s), Run(s, events).dir, me, partnerPresent, wants) == Edit
    requires n in s.dir.order && Conflicts(s.dir.order[n], me, Keys(CanonicalSet(wants).value))
    ensures Active(Run(s, events).dir, s.dir.order[n]) ==> s.dir.order[n].id !in s.dir.decisions
  {
    hide Inv, Conflicts, CoveredByHandoff, Released, ValidRun, Run, Grows, Reachable, CanonicalSet, IsHot;
    ReachableInv(s);
    RunKeeps(s, events);
    var e := Run(s, events).dir;
    EntryStays(s.dir, e, n);
    if Active(e, s.dir.order[n]) && s.dir.order[n].id in s.dir.decisions {
      FinishedOrActive(s.dir, e, s.dir.order[n]);
    }
  }

  /** `me` was told it may edit `wants` although a conflicting claim, published before the first reading, is active. */
  ghost predicate Misled(s: State, t: State, me: Owner, wants: seq<string>) {
    && WorkModeOver(ViewOf(s), t.dir, me, true, wants) == Edit
    && CanonicalSet(wants).Ok?
    && exists n :: n in s.dir.order && Active(t.dir, s.dir.order[n]) && Conflicts(s.dir.order[n], me, Keys(CanonicalSet(wants).value))
  }

  /** A conflicting attempt that is undecided at this reading can still win. */
  ghost predicate RivalMayWin(s: State, me: Owner, wanted: seq<string>) {
    exists n :: n in s.dir.order && s.dir.order[n].id !in s.dir.decisions && Conflicts(s.dir.order[n], me, wanted) && HasChance(s, s.dir.order[n].id)
  }

  /**
   * Exactly when the two readings can mislead: if and only if one reading would have said that the
   * paths are being claimed, and some conflicting undecided attempt can still win.
   */
  lemma MisledIffRivalMayWin(s: State, me: Owner, wants: seq<string>, q: Pid, names: seq<Id>)
    requires Reachable(s) && q !in s.procs && Lists(names, s.dir)
    ensures (exists events :: ValidRun(s, events) && Misled(s, Run(s, events), me, wants))
            <==> WorkModeAt(ViewOf(s), me, true, wants) == BeingClaimed && RivalMayWin(s, me, Keys(CanonicalSet(wants).value))
  {
    hide Reachable, ValidRun, Run, Misled, RivalMayWin, CanonicalSet, IsHot, HeldByAnother, ClaimedByAnother, CoveredByHandoff, Complete, Lists;
    if events :| ValidRun(s, events) && Misled(s, Run(s, events), me, wants) {
      MisledByRival(s, events, me, wants);
    }
    if WorkModeAt(ViewOf(s), me, true, wants) == BeingClaimed && RivalMayWin(s, me, Keys(CanonicalSet(wants).value)) {
      var events := RivalMisleads(s, me, wants, q, names);
      assert exists events :: ValidRun(s, events) && Misled(s, Run(s, events), me, wants);
    }
  }

  lemma MisledByRival(s: State, events: seq<Event>, me: Owner, wants: seq<string>)
    requires Reachable(s) && ValidRun(s, events) && Misled(s, Run(s, events), me, wants)
    ensures WorkModeAt(ViewOf(s), me, true, wants) == BeingClaimed && RivalMayWin(s, me, Keys(CanonicalSet(wants).value))
  {
    hide Reachable, ValidRun, Run, Conflicts, CanonicalSet, IsHot, Released, HeldByAnother, CoveredByHandoff, Complete, HasChance;
    var t := Run(s, events);
    var n :| n in s.dir.order && Active(t.dir, s.dir.order[n]) && Conflicts(s.dir.order[n], me, Keys(CanonicalSet(wants).value));
    MissedOnlyBetweenReads(s, events, me, true, wants, n);
    assert Linked(s.dir, s.dir.order[n].id);
    if !HasChance(s, s.dir.order[n].id) { NeverWins(s, events, s.dir.order[n].id); }
  }

  lemma RivalMisleads(s: State, me: Owner, wants: seq<string>, q: Pid, names: seq<Id>) returns (events: seq<Event>)
    requires Reachable(s) && WorkModeAt(ViewOf(s), me, true, wants) == BeingClaimed
    requires RivalMayWin(s, me, Keys(CanonicalSet(wants).value)) && q !in s.procs && Lists(names, s.dir)
    ensures ValidRun(s, events) && Misled(s, Run(s, events), me, wants)
  {
    hide Inv, Reachable, ValidRun, Run, Conflicts, CanonicalSet, IsHot, Released, HeldByAnother, CoveredByHandoff, Complete, CallMayWin, Lists, Active, ClaimOf;
    var wanted := Keys(CanonicalSet(wants).value);
    var n :| n in s.dir.order && s.dir.order[n].id !in s.dir.decisions && Conflicts(s.dir.order[n], me, wanted) && HasChance(s, s.dir.order[n].id);
    var p :| MayWin(s, p) && CallOf(s, p).id == s.dir.order[n].id;
    events := WinsAlone(s, p, q, names);
    ReachableInv(s);
    EntryIsAttempt(s, n);
    MinersRecord(s, p);
    assert Active(Run(s, events).dir, s.dir.order[n]);
  }

  // --- a win between the two readings, on one concrete run ----------------------------------------

  const HOLDER: Owner := Owner(Fable, "h", 1, Some(0), "w")
  const READER: Owner := Owner(Fable, "h", 2, Some(0), "w")
  const NO_CLAIMS: map<Id, Claim> := map[]
  const LISTED: Choice := Choice(false, [])

  lemma PathA()
    ensures CanonicalSet(["a"]) == Ok([CanonicalPath("a", "a", false)])
  {
    var e := CanonicalPath("a", "a", false);
    CanonicalA();
    hide Canonical;
    assert ["a"][..0] == [];
    assert EntriesOf([]) == Ok([]);
    assert FindKey([], "a") == 0;
    assert RecordEntry([], e) == [e];
    assert EntriesOf(["a"]) == Ok([e]);
    assert !Covered(e, [e]);
    assert Uncovered([e], [e]) == [e] + Uncovered([], [e]);
    assert [e][..0] == [];
    assert SortByKey([]) == [];
    assert SortByKey([e]) == Insert(e, []);
  }

  lemma CanonicalA()
    ensures Canonical("a") == Ok(CanonicalPath("a", "a", false))
  {
    assert Slashed("a") == "a";
    assert Lower("a") == "a";
    SplitPlain("a");
    GoodA();
    hide SegmentProblem;
    assert ["a"][1..] == [];
    assert Walk(["a"], []) == Walk([], [] + ["a"]);
    assert [] + ["a"] == ["a"];
    CharsA();
    hide CharProblem;
  }

  lemma CharsA()
    ensures CharProblem("a").None?
  {
    assert Printable('a') && !ReservedChar('a');
    assert forall i :: 0 <= i < |"a"| ==> "a"[i] == 'a';
    assert Slashed("a")[0] == 'a';
  }

  lemma GoodA()
    ensures SegmentProblem("a").None?
  {
    TrimmedEnds("a");
    assert Stem("a"[1..]) == "";
    assert Stem("a") == "a";
    assert Lower("a") == "a";
  }

  lemma OwnersDiffer()
    ensures Complete(HOLDER) && Complete(READER) && !SameOwner(HOLDER, READER) && NonEmpty("n")
  {
    assert Trim("h") == "h" && Trim("w") == "w" && Trim("n") == "n";
  }

  function ExampleCall(pc: ClaimPc, mine: bool): ClaimCall {
    ClaimCall(ClaimInput(HOLDER, "n", "n", ["a"], None), 7, [CanonicalPath("a", "a", false)], None, mine, 0, pc)
  }

  function ExampleDir(linked: bool): Dir {
    var claim := ClaimOf(ExampleCall(Begin, false));
    Dir(map[7 := claim], if linked then map[0 := claim] else map[], map[], map[], map[], map[], map[], map[])
  }

  function ExampleState(d: Dir, c: ClaimCall): State {
    State(d, map[1 := Claiming(c)], map[])
  }

  lemma ExampleStep(d: Dir, c: ClaimCall, e: Dir, n: ClaimCall)
    requires d.claimFiles == map[]
    requires Publish(d, ClaimWrite(c)) == e && ClaimNext(d, c, LISTED) == n
    ensures Enabled(ExampleState(d, c), Advance(1, LISTED))
    ensures Apply(ExampleState(d, c), Advance(1, LISTED)) == ExampleState(e, n)
  {
    hide Publish, ClaimWrite, ClaimNext;
    assert map[1 := Claiming(c)][1 := Claiming(n)] == map[1 := Claiming(n)];
  }

  lemma ExampleBegins()
    ensures ClaimNext(Initial(NO_CLAIMS).dir, ExampleCall(Begin, false), LISTED) == ExampleCall(PublishAttempt, false)
  {
    hide CanonicalSet, Complete, NonEmpty, IsHot, LockNameLength;
    PathA();
    OwnersDiffer();
    ShortLockName();
  }

  lemma ShortLockName()
    ensures LockNameLength("a") <= MAX_FILE_NAME
  {
    assert LockNameLength("") == 5;
  }

  lemma ExampleSearches(k: nat)
    requires k < 5
    ensures ClaimNext(ExampleDir(true), ExampleCall(Search(ExampleSearch(k)), true), LISTED)
            == ExampleCall(if k == 4 then DecideWon else Search(ExampleSearch(k + 1)), true)
    ensures Publish(ExampleDir(true), ClaimWrite(ExampleCall(Search(ExampleSearch(k)), true))) == ExampleDir(true)
  {
    hide ClaimOf, Keys;
    assert FirstOverlapping([], Keys(ExampleCall(Begin, true).scope)) == None;
  }

  function ExampleSearch(k: nat): SearchPc {
    if k == 0 then ListEarlier(false)
    else if k == 1 then NextEarlier(false, [], [])
    else if k == 2 then ReadEntry(0)
    else if k == 3 then ListEarlier(true)
    else NextEarlier(true, [], [])
  }

  /** The states of the example run: the call alone, up to the moment before it decides. */
  function ExampleAt(k: nat): State {
    if k == 0 then Initial(NO_CLAIMS)
    else if k == 1 then ExampleState(Initial(NO_CLAIMS).dir, ExampleCall(Begin, false))
    else if k == 2 then ExampleState(Initial(NO_CLAIMS).dir, ExampleCall(PublishAttempt, false))
    else if k == 3 then ExampleState(ExampleDir(false), ExampleCall(ListOrder, true))
    else if k == 4 then ExampleState(ExampleDir(false), ExampleCall(LinkOrder(0), true))
    else if k < 10 then ExampleState(ExampleDir(true), ExampleCall(Search(ExampleSearch(k - 5)), true))
    else ExampleState(ExampleDir(true), ExampleCall(DecideWon, true))
  }

  function ExampleEvent(k: nat): Event {
    if k == 0 then Start(1, Claiming(ExampleCall(Begin, false))) else Advance(1, LISTED)
  }

  lemma ExampleMoves(k: nat)
    requires k < 10
    ensures Enabled(ExampleAt(k), ExampleEvent(k)) && Apply(ExampleAt(k), ExampleEvent(k)) == ExampleAt(k + 1)
  {
    var empty := Initial(NO_CLAIMS).dir;
    if k == 0 {
      assert map[][1 := Claiming(ExampleCall(Begin, false))] == map[1 := Claiming(ExampleCall(Begin, false))];
    } else if k == 1 {
      ExampleBegins();
      ExampleStep(empty, ExampleCall(Begin, false), empty, ExampleCall(PublishAttempt, false));
    } else if k == 2 {
      ExamplePublishes();
      ExampleStep(empty, ExampleCall(PublishAttempt, false), ExampleDir(false), ExampleCall(ListOrder, true));
    } else if k == 3 {
      ExampleStep(ExampleDir(false), ExampleCall(ListOrder, true), ExampleDir(false), ExampleCall(LinkOrder(0), true));
    } else if k == 4 {
      ExampleLinks();
      ExampleStep(ExampleDir(false), ExampleCall(LinkOrder(0), true), ExampleDir(true), ExampleCall(Search(ExampleSearch(0)), true));
    } else {
      ExampleSearches(k - 5);
      ExampleStep(ExampleDir(true), ExampleCall(Search(ExampleSearch(k - 5)), true), ExampleDir(true),
                  ExampleCall(if k == 9 then DecideWon else Search(ExampleSearch(k - 4)), true));
    }
  }

  lemma ExamplePublishes()
    ensures Publish(Initial(NO_CLAIMS).dir, ClaimWrite(ExampleCall(PublishAttempt, false))) == ExampleDir(false)
    ensures ClaimNext(Initial(NO_CLAIMS).dir, ExampleCall(PublishAttempt, false), LISTED) == ExampleCall(ListOrder, true)
  {
  }

  lemma ExampleLinks()
    ensures Publish(ExampleDir(false), ClaimWrite(ExampleCall(LinkOrder(0), true))) == ExampleDir(true)
    ensures ClaimNext(ExampleDir(false), ExampleCall(LinkOrder(0), true), LISTED) == ExampleCall(Search(ExampleSearch(0)), true)
  {
  }

  lemma {:induction false} ExampleRuns(k: nat) returns (events: seq<Event>)
    requires k <= 10
    ensures ValidRun(ExampleAt(k), events) && Run(ExampleAt(k), events) == ExampleAt(10)
    decreases 10 - k
  {
    hide ExampleAt, ExampleEvent, Enabled, Apply;
    if k == 10 {
      events := [];
    } else {
      ExampleMoves(k);
      var later := ExampleRuns(k + 1);
      events := [ExampleEvent(k)] + later;
      assert events[1..] == later;
    }
  }

  /**
   * The failing input: an attempt undecided at the first reading wins before the second, and a
   * reader that wants the same path is told it may edit while that claim is active.
   */
  lemma EditBesideActiveClaim()
    ensures Reachable(ExampleAt(10)) && Enabled(ExampleAt(10), Advance(1, LISTED))
    ensures Misled(ExampleAt(10), Apply(ExampleAt(10), Advance(1, LISTED)), READER, ["a"])
  {
    hide ValidRun, Run, Misled, Initial;
    var events := ExampleRuns(0);
    InitialIsExample();
    assert EarlierClaims(NO_CLAIMS);
    assert ValidRun(Initial(NO_CLAIMS), events);
    assert ExampleAt(10) == Run(Initial(NO_CLAIMS), events);
    ExampleMisleads();
  }

  lemma InitialIsExample()
    ensures ExampleAt(0) == Initial(NO_CLAIMS)
  {
  }

  lemma ExampleMisleads()
    ensures Misled(ExampleAt(10), Apply(ExampleAt(10), Advance(1, LISTED)), READER, ["a"])
  {
    PathA();
    OwnersDiffer();
    ExampleConflicts();
    hide CanonicalSet, Complete, IsHot, Conflicts, SameOwner, RecordedKeys, CoveredByHandoff, Authoritative;
    var s := ExampleAt(10);
    var t := Apply(s, Advance(1, LISTED));
    assert 0 in s.dir.order && Active(t.dir, s.dir.order[0]);
  }

  lemma ExampleConflicts()
    ensures Conflicts(ExampleDir(true).order[0], READER, Keys([CanonicalPath("a", "a", false)]))
  {
    CanonicalA();
    OwnersDiffer();
    hide Canonical, Complete, SameOwner;
    var claim := ExampleDir(true).order[0];
    assert Spellings(ExampleCall(Begin, false).scope) == ["a"];
    assert KeysOfSpellings(["a"]) == Keyed(["a"] + []);
    assert RecordedKeys(claim.paths) == Keyed(["a"]);
    var wanted := Keys([CanonicalPath("a", "a", false)]);
    assert KeysOverlap(["a"][0], wanted[0]);
  }
}
